/**
 * The array slicing idioms the stores use for bounded histories: `slice(0, n)` after a
 * prepend (newest first) and `slice(-n)` after an append (oldest first).
 */
module Slices {

  function Min(a: int, b: int): int {
    if a <= b then a else b
  }

  /** `s.slice(0, n)` */
  function Truncate<T>(s: seq<T>, n: nat): (r: seq<T>)
    ensures |r| == Min(|s|, n)
    ensures r == s[..|r|]
  {
    if |s| <= n then s else s[..n]
  }

  /** `s.slice(-n)` for a positive `n`: the last `n` elements, or all of them. */
  function Last<T>(s: seq<T>, n: nat): (r: seq<T>)
    requires n > 0
    ensures |r| == Min(|s|, n)
    ensures r == s[|s| - |r|..]
  {
    if |s| <= n then s else s[|s| - n..]
  }

  /** The newest `cap` entries of a log kept oldest first, listed newest first. */
  function NewestFirst<T>(log: seq<T>, cap: nat): (w: seq<T>)
    ensures |w| == Min(|log|, cap)
    ensures forall k :: 0 <= k < |w| ==> w[k] == log[|log| - 1 - k]
  {
    seq(Min(|log|, cap), k requires 0 <= k < Min(|log|, cap) => log[|log| - 1 - k])
  }

  /** Prepending the next entry and cutting back to `cap` keeps a newest-first buffer equal to
      the window of everything logged: once full, each entry evicts exactly the oldest. */
  lemma PrependKeepsWindow<T>(log: seq<T>, e: T, cap: nat)
    ensures Truncate([e] + NewestFirst(log, cap), cap) == NewestFirst(log + [e], cap)
  {
    var lhs := Truncate([e] + NewestFirst(log, cap), cap);
    var rhs := NewestFirst(log + [e], cap);
    assert |lhs| == |rhs|;
    forall k | 0 <= k < |lhs|
      ensures lhs[k] == rhs[k]
    {
      if k > 0 {
        assert lhs[k] == NewestFirst(log, cap)[k - 1];
      }
    }
  }

  /** A prefix one longer is the prefix and the next element. */
  lemma TakeSnoc<T>(s: seq<T>, i: nat)
    requires i < |s|
    ensures s[..i + 1] == s[..i] + [s[i]]
  {
  }

  /** Appending to an oldest-first history capped at `n` keeps the new entry as the newest and
      drops the oldest only when the cap is exceeded. */
  lemma AppendCapped<T>(s: seq<T>, x: T, n: nat)
    requires n > 0 && |s| <= n
    ensures |Last(s + [x], n)| == if |s| < n then |s| + 1 else n
    ensures Last(s + [x], n)[|Last(s + [x], n)| - 1] == x
    ensures |s| < n ==> Last(s + [x], n) == s + [x]
    ensures |s| == n ==> Last(s + [x], n) == s[1..] + [x]
  {
  }
}
