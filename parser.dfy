/**
 * Post-processing of a relay message log: already-decoded log lines are filtered down to
 * chat messages, stably sorted by timestamp and de-duplicated by id; a colour is then assigned
 * to every participant by its position in sorted name order.
 */
module TimelineParser {
  import opened Wrappers
  import Contracts

  datatype Message = Message(
    id: string,
    ts: int,
    from: string,
    to: string,
    kind: string,
    body: string,
    status: string,
    isUrgent: bool,
    isBroadcast: bool)

  /** A decoded log object: its `type` and, for chat entries, its `message`. */
  datatype RawEntry = RawEntry(entryType: string, message: Option<Message>)

  /** One line of the log after trimming and decoding: blank, undecodable, or an object. */
  datatype Line = Blank | Malformed | Parsed(entry: RawEntry)

  const SYSTEM_SENDER: string := "__system__"

  /** A line survives the filter iff it decodes to a `message` entry that has a message whose
      sender is not the system sender. */
  predicate Kept(l: Line) {
    && l.Parsed?
    && l.entry.entryType == "message"
    && l.entry.message.Some?
    && l.entry.message.value.from != SYSTEM_SENDER
  }

  /** The messages the first loop pushes, in line order. */
  function Accepted(lines: seq<Line>): seq<Message> {
    if lines == [] then []
    else
      var last := lines[|lines| - 1];
      Accepted(lines[..|lines| - 1]) + (if Kept(last) then [last.entry.message.value] else [])
  }

  lemma {:induction false} AcceptedAppend(a: seq<Line>, b: seq<Line>)
    ensures Accepted(a + b) == Accepted(a) + Accepted(b)
    decreases |b|
  {
    if b != [] {
      var ab, b' := a + b, b[..|b| - 1];
      var last := b[|b| - 1];
      var tail := if Kept(last) then [last.entry.message.value] else [];
      assert ab[..|ab| - 1] == a + b';
      assert ab[|ab| - 1] == last;
      AcceptedAppend(a, b');
      calc {
        Accepted(ab);
        Accepted(a + b') + tail;
        Accepted(a) + Accepted(b') + tail;
        Accepted(a) + (Accepted(b') + tail);
        Accepted(a) + Accepted(b);
      }
    } else {
      assert a + b == a;
    }
  }

  /** A blank, undecodable, status or system line can be removed from anywhere in the log
      without changing the result: it contributes nothing and aborts nothing. */
  lemma SkippedLineContributesNothing(a: seq<Line>, l: Line, b: seq<Line>)
    requires !Kept(l)
    ensures Accepted(a + [l] + b) == Accepted(a + b)
  {
    AcceptedAppend(a + [l], b);
    AcceptedAppend(a, [l]);
    AcceptedAppend(a, b);
    assert [l][..0] == [];
  }

  /** A message is accepted iff some kept line carries it; so no accepted message comes from
      the system sender. */
  lemma {:induction false} AcceptedMembers(lines: seq<Line>, m: Message)
    ensures m in Accepted(lines) <==>
      exists i :: 0 <= i < |lines| && Kept(lines[i]) && lines[i].entry.message.value == m
    ensures m in Accepted(lines) ==> m.from != SYSTEM_SENDER
  {
    if lines != [] {
      var p := lines[..|lines| - 1];
      AcceptedMembers(p, m);
      if m in Accepted(p) {
        var i :| 0 <= i < |p| && Kept(p[i]) && p[i].entry.message.value == m;
        assert lines[i] == p[i];
      }
      if exists i :: 0 <= i < |lines| && Kept(lines[i]) && lines[i].entry.message.value == m {
        var i :| 0 <= i < |lines| && Kept(lines[i]) && lines[i].entry.message.value == m;
        if i < |p| {
          assert p[i] == lines[i];
        }
      }
    }
  }

  // ----- the stable sort by timestamp -----

  predicate SortedByTs(s: seq<Message>) {
    forall i, j :: 0 <= i < j < |s| ==> s[i].ts <= s[j].ts
  }

  /** Insert `m` after every element whose `ts` is not greater than its own. */
  function InsertByTs(s: seq<Message>, m: Message): (r: seq<Message>)
    ensures multiset(r) == multiset(s) + multiset{m}
    decreases |s|
  {
    if s == [] || s[|s| - 1].ts <= m.ts then s + [m]
    else
      assert s == s[..|s| - 1] + [s[|s| - 1]];
      InsertByTs(s[..|s| - 1], m) + [s[|s| - 1]]
  }

  /** `messages.sort((a, b) => a.ts - b.ts)`: the array sort is stable, so this reference
      sort is an insertion sort that never moves an element past an equal one. */
  function SortByTs(s: seq<Message>): seq<Message> {
    if s == [] then [] else InsertByTs(SortByTs(s[..|s| - 1]), s[|s| - 1])
  }

  lemma {:induction false} InsertByTsSorted(s: seq<Message>, m: Message)
    requires SortedByTs(s)
    ensures SortedByTs(InsertByTs(s, m))
    decreases |s|
  {
    if s != [] && s[|s| - 1].ts > m.ts {
      var p := s[..|s| - 1];
      var last := s[|s| - 1];
      InsertByTsSorted(p, m);
      var q := InsertByTs(p, m);
      forall k | 0 <= k < |q|
        ensures q[k].ts <= last.ts
      {
        assert q[k] in multiset(q);
        if q[k] != m {
          assert q[k] in multiset(p);
          var i :| 0 <= i < |p| && p[i] == q[k];
          assert s[i] == p[i];
        }
      }
      SortedSnoc(q, last);
    }
  }

  /** A sorted list stays sorted when an element no earlier than all of it is appended. */
  lemma SortedSnoc(q: seq<Message>, last: Message)
    requires SortedByTs(q)
    requires forall k :: 0 <= k < |q| ==> q[k].ts <= last.ts
    ensures SortedByTs(q + [last])
  {
  }

  /** The output is in ascending `ts` order and is a permutation of the input. */
  lemma {:induction false} SortByTsSortsAndPermutes(s: seq<Message>)
    ensures SortedByTs(SortByTs(s))
    ensures multiset(SortByTs(s)) == multiset(s)
  {
    if s != [] {
      var p := s[..|s| - 1];
      var last := s[|s| - 1];
      SortByTsSortsAndPermutes(p);
      InsertByTsSorted(SortByTs(p), last);
      assert s == p + [last];
      calc {
        multiset(SortByTs(s));
        multiset(InsertByTs(SortByTs(p), last));
        multiset(SortByTs(p)) + multiset{last};
        multiset(p) + multiset{last};
        multiset(p + [last]);
      }
    }
  }

  /** The messages with timestamp `t`, in order. */
  function WithTs(s: seq<Message>, t: int): seq<Message> {
    if s == [] then []
    else WithTs(s[..|s| - 1], t) + (if s[|s| - 1].ts == t then [s[|s| - 1]] else [])
  }

  lemma {:induction false} WithTsAppend(a: seq<Message>, b: seq<Message>, t: int)
    ensures WithTs(a + b, t) == WithTs(a, t) + WithTs(b, t)
    decreases |b|
  {
    if b != [] {
      var ab, b' := a + b, b[..|b| - 1];
      var last := b[|b| - 1];
      var tail := if last.ts == t then [last] else [];
      assert ab[..|ab| - 1] == a + b';
      assert ab[|ab| - 1] == last;
      WithTsAppend(a, b', t);
      calc {
        WithTs(ab, t);
        WithTs(a + b', t) + tail;
        WithTs(a, t) + WithTs(b', t) + tail;
        WithTs(a, t) + (WithTs(b', t) + tail);
        WithTs(a, t) + WithTs(b, t);
      }
    } else {
      assert a + b == a;
    }
  }

  lemma {:induction false} InsertByTsWithTs(s: seq<Message>, m: Message, t: int)
    ensures WithTs(InsertByTs(s, m), t) == WithTs(s, t) + (if m.ts == t then [m] else [])
    decreases |s|
  {
    if s == [] || s[|s| - 1].ts <= m.ts {
      WithTsAppend(s, [m], t);
      WithTsSingle(m, t);
    } else {
      var p := s[..|s| - 1];
      var last := s[|s| - 1];
      assert s == p + [last];
      var mt := if m.ts == t then [m] else [];
      var lt := if last.ts == t then [last] else [];
      assert mt == [] || lt == [];
      calc {
        WithTs(InsertByTs(s, m), t);
        WithTs(InsertByTs(p, m) + [last], t);
        { WithTsAppend(InsertByTs(p, m), [last], t); WithTsSingle(last, t); }
        WithTs(InsertByTs(p, m), t) + lt;
        { InsertByTsWithTs(p, m, t); }
        WithTs(p, t) + mt + lt;
        WithTs(p, t) + lt + mt;
        { WithTsAppend(p, [last], t); WithTsSingle(last, t); }
        WithTs(s, t) + mt;
      }
    }
  }

  lemma WithTsSingle(x: Message, t: int)
    ensures WithTs([x], t) == if x.ts == t then [x] else []
  {
    assert [x][..0] == [];
  }

  /** Stability: among messages with equal `ts` the sort keeps input order. */
  lemma {:induction false} SortByTsStable(s: seq<Message>, t: int)
    ensures WithTs(SortByTs(s), t) == WithTs(s, t)
  {
    if s != [] {
      var p := s[..|s| - 1];
      SortByTsStable(p, t);
      InsertByTsWithTs(SortByTs(p), s[|s| - 1], t);
    }
  }

  // ----- de-duplication by id -----

  function Ids(s: seq<Message>): set<string> {
    if s == [] then {} else Ids(s[..|s| - 1]) + {s[|s| - 1].id}
  }

  lemma {:induction false} IdsMembers(s: seq<Message>, id: string)
    ensures id in Ids(s) <==> exists i :: 0 <= i < |s| && s[i].id == id
  {
    if s != [] {
      var p := s[..|s| - 1];
      IdsMembers(p, id);
      if id in Ids(p) {
        var i :| 0 <= i < |p| && p[i].id == id;
        assert s[i] == p[i];
      }
      if exists i :: 0 <= i < |s| && s[i].id == id {
        var i :| 0 <= i < |s| && s[i].id == id;
        if i < |p| {
          assert p[i] == s[i];
        }
      }
    }
  }

  /** The dedupe loop: keep a message iff no earlier message had its id. */
  function DedupeById(s: seq<Message>): seq<Message> {
    if s == [] then []
    else
      var p := s[..|s| - 1];
      if s[|s| - 1].id in Ids(p) then DedupeById(p) else DedupeById(p) + [s[|s| - 1]]
  }

  predicate DistinctIds(s: seq<Message>) {
    forall i, j :: 0 <= i < j < |s| ==> s[i].id != s[j].id
  }

  /** Position `i` holds the first message with its id. */
  predicate IsFirstOfId(s: seq<Message>, i: int) {
    0 <= i < |s| && forall j :: 0 <= j < i ==> s[j].id != s[i].id
  }

  /** Every input id survives de-duplication. */
  lemma {:induction false} DedupeKeepsIds(s: seq<Message>)
    ensures Ids(DedupeById(s)) == Ids(s)
  {
    if s != [] {
      DedupeKeepsIds(s[..|s| - 1]);
    }
  }

  /** No id survives twice. */
  lemma {:induction false} DedupeDistinct(s: seq<Message>)
    ensures DistinctIds(DedupeById(s))
  {
    if s != [] {
      var p := s[..|s| - 1];
      var last := s[|s| - 1];
      var d := DedupeById(p);
      DedupeDistinct(p);
      if last.id !in Ids(p) {
        DedupeKeepsIds(p);
        forall i | 0 <= i < |d|
          ensures d[i].id != last.id
        {
          IdsMembers(d, d[i].id);
        }
      }
    }
  }

  /** Every survivor is the first message of its id: returns its position in the input. */
  lemma {:induction false} SurvivorIsFirst(s: seq<Message>, m: Message) returns (i: nat)
    requires m in DedupeById(s)
    ensures IsFirstOfId(s, i) && s[i] == m
  {
    var p := s[..|s| - 1];
    var last := s[|s| - 1];
    if m in DedupeById(p) {
      i := SurvivorIsFirst(p, m);
      assert s[i] == p[i];
    } else {
      assert m == last && last.id !in Ids(p);
      i := |p|;
      IdsMembers(p, last.id);
    }
  }

  /** The first message of every id survives. */
  lemma {:induction false} FirstSurvives(s: seq<Message>, i: nat)
    requires IsFirstOfId(s, i)
    ensures s[i] in DedupeById(s)
  {
    var p := s[..|s| - 1];
    var last := s[|s| - 1];
    if i < |p| {
      assert IsFirstOfId(p, i) && p[i] == s[i];
      FirstSurvives(p, i);
    } else {
      forall j | 0 <= j < |p|
        ensures p[j].id != last.id
      {
        assert p[j] == s[j];
      }
      IdsMembers(p, last.id);
    }
  }

  /** The survivors are exactly the first message of each id. */
  lemma DedupeKeepsFirst(s: seq<Message>, m: Message)
    ensures m in DedupeById(s) <==> exists i :: IsFirstOfId(s, i) && s[i] == m
  {
    if m in DedupeById(s) {
      var i := SurvivorIsFirst(s, m);
    }
    if exists i :: IsFirstOfId(s, i) && s[i] == m {
      var i :| IsFirstOfId(s, i) && s[i] == m;
      FirstSurvives(s, i);
    }
  }

  /** Survivors appear in input order: a sorted input gives a sorted output. */
  lemma {:induction false} DedupeKeepsOrder(s: seq<Message>)
    requires SortedByTs(s)
    ensures SortedByTs(DedupeById(s))
  {
    if s != [] {
      var p := s[..|s| - 1];
      var last := s[|s| - 1];
      var d := DedupeById(p);
      DedupeKeepsOrder(p);
      forall x | x in d
        ensures x.ts <= last.ts
      {
        var i := SurvivorIsFirst(p, x);
        assert s[i] == x;
      }
    }
  }

  /** The whole `parseMessages` pipeline as one function of the decoded lines. */
  function Pipeline(lines: seq<Line>): seq<Message> {
    DedupeById(SortByTs(Accepted(lines)))
  }

  /** `parseMessages` yields system-free chat messages in ascending `ts` order, each id
      exactly once, each the first of its id in sorted order. */
  lemma PipelineSpec(lines: seq<Line>)
    ensures SortedByTs(Pipeline(lines))
    ensures DistinctIds(Pipeline(lines))
    ensures Ids(Pipeline(lines)) == Ids(Accepted(lines))
    ensures forall m :: m in Pipeline(lines) ==> m.from != SYSTEM_SENDER
    ensures forall m :: m in Pipeline(lines) <==>
      exists i :: IsFirstOfId(SortByTs(Accepted(lines)), i) && SortByTs(Accepted(lines))[i] == m
  {
    var a := Accepted(lines);
    var sorted := SortByTs(a);
    SortByTsSortsAndPermutes(a);
    DedupeKeepsIds(sorted);
    DedupeDistinct(sorted);
    DedupeKeepsOrder(sorted);
    IdsOfPermutation(sorted, a);
    forall m
      ensures m in Pipeline(lines) <==> exists i :: IsFirstOfId(sorted, i) && sorted[i] == m
    {
      DedupeKeepsFirst(sorted, m);
    }
    forall m | m in Pipeline(lines)
      ensures m.from != SYSTEM_SENDER
    {
      DedupeKeepsFirst(sorted, m);
      var i :| IsFirstOfId(sorted, i) && sorted[i] == m;
      assert m in multiset(a);
      AcceptedMembers(lines, m);
    }
  }

  lemma IdsOfPermutation(s: seq<Message>, t: seq<Message>)
    requires multiset(s) == multiset(t)
    ensures Ids(s) == Ids(t)
  {
    forall id
      ensures id in Ids(s) <==> id in Ids(t)
    {
      IdsMembers(s, id);
      IdsMembers(t, id);
      if id in Ids(s) {
        var i :| 0 <= i < |s| && s[i].id == id;
        assert s[i] in multiset(t);
        var j :| 0 <= j < |t| && t[j] == s[i];
      }
      if id in Ids(t) {
        var i :| 0 <= i < |t| && t[i].id == id;
        assert t[i] in multiset(s);
        var j :| 0 <= j < |s| && s[j] == t[i];
      }
    }
  }

  /** `parseMessages`: filter, sort, then de-duplicate through a `seen` set. */
  method ParseMessages(lines: seq<Line>) returns (unique: seq<Message>)
    ensures unique == Pipeline(lines)
  {
    var messages := CollectMessages(lines);
    messages := SortByTs(messages);
    unique := DedupeSeen(messages);
  }

  /** The filtering loop: kept lines' messages, in file order. */
  method CollectMessages(lines: seq<Line>) returns (messages: seq<Message>)
    ensures messages == Accepted(lines)
  {
    messages := [];
    for i := 0 to |lines|
      invariant messages == Accepted(lines[..i])
    {
      assert lines[..i + 1][..i] == lines[..i];
      var line := lines[i];
      if line.Blank? || line.Malformed? {
        continue;
      }
      var entry := line.entry;
      if entry.entryType == "message" && entry.message.Some? {
        var msg := entry.message.value;
        if msg.from == SYSTEM_SENDER {
          continue;
        }
        messages := messages + [msg];
      }
    }
    assert lines[..|lines|] == lines;
  }

  /** The de-duplicating loop: a message is kept when its id has not been seen. */
  method DedupeSeen(messages: seq<Message>) returns (unique: seq<Message>)
    ensures unique == DedupeById(messages)
  {
    var seen: set<string> := {};
    unique := [];
    for i := 0 to |messages|
      invariant unique == DedupeById(messages[..i])
      invariant seen == Ids(messages[..i])
    {
      assert messages[..i + 1][..i] == messages[..i];
      var msg := messages[i];
      if msg.id !in seen {
        seen := seen + {msg.id};
        unique := unique + [msg];
      }
    }
    assert messages[..|messages|] == messages;
  }

  // ----- colours -----

  const AGENT_COLORS: seq<string> :=
    ["#3B82F6", "#10B981", "#F59E0B", "#EF4444", "#8B5CF6",
     "#EC4899", "#06B6D4", "#84CC16", "#F97316", "#6366F1"]

  /** The participants: every sender, and every recipient that is not a `#` channel. */
  function AgentNames(ms: seq<Message>): set<string> {
    if ms == [] then {}
    else
      var m := ms[|ms| - 1];
      AgentNames(ms[..|ms| - 1]) + {m.from} + (if Contracts.StartsWith(m.to, "#") then {} else {m.to})
  }

  /** The default order of `Array.prototype.sort` on strings: lexicographic by character,
      a proper prefix first. */
  predicate StrLess(a: string, b: string) {
    if |a| == 0 then |b| > 0
    else if |b| == 0 then false
    else if a[0] != b[0] then a[0] < b[0]
    else StrLess(a[1..], b[1..])
  }

  lemma StrLessIrreflexive(a: string)
    ensures !StrLess(a, a)
  {
  }

  lemma StrLessTransitive(a: string, b: string, c: string)
    requires StrLess(a, b) && StrLess(b, c)
    ensures StrLess(a, c)
  {
  }

  lemma StrLessTotal(a: string, b: string)
    requires a != b
    ensures StrLess(a, b) || StrLess(b, a)
  {
    if |a| > 0 && |b| > 0 && a[0] == b[0] {
      assert a == [a[0]] + a[1..] && b == [b[0]] + b[1..];
      StrLessTotal(a[1..], b[1..]);
    }
  }

  predicate StrictlySorted(s: seq<string>) {
    forall i, j :: 0 <= i < j < |s| ==> StrLess(s[i], s[j])
  }

  function InsertStr(s: seq<string>, x: string): (r: seq<string>)
    ensures multiset(r) == multiset(s) + multiset{x}
    decreases |s|
  {
    if s == [] || StrLess(s[|s| - 1], x) then s + [x]
    else
      assert s == s[..|s| - 1] + [s[|s| - 1]];
      InsertStr(s[..|s| - 1], x) + [s[|s| - 1]]
  }

  /** `Array.from(agents).sort()`, as an insertion sort. */
  function SortStrings(s: seq<string>): seq<string> {
    if s == [] then [] else InsertStr(SortStrings(s[..|s| - 1]), s[|s| - 1])
  }

  lemma {:induction false} InsertStrSorted(s: seq<string>, x: string)
    requires StrictlySorted(s) && x !in s
    ensures StrictlySorted(InsertStr(s, x))
    decreases |s|
  {
    if s != [] && StrLess(s[|s| - 1], x) {
      forall i | 0 <= i < |s| - 1
        ensures StrLess(s[i], x)
      {
        StrLessTransitive(s[i], s[|s| - 1], x);
      }
    } else if s != [] {
      var p := s[..|s| - 1];
      var last := s[|s| - 1];
      StrLessTotal(last, x);
      assert x !in p;
      InsertStrSorted(p, x);
      var q := InsertStr(p, x);
      forall y | y in q
        ensures StrLess(y, last)
      {
        assert y in multiset(q);
        if y != x {
          assert y in multiset(p);
        }
      }
      assert InsertStr(s, x) == q + [last];
    }
  }

  predicate Distinct(s: seq<string>) {
    forall i, j :: 0 <= i < j < |s| ==> s[i] != s[j]
  }

  lemma {:induction false} SortStringsSpec(s: seq<string>)
    requires Distinct(s)
    ensures StrictlySorted(SortStrings(s))
    ensures multiset(SortStrings(s)) == multiset(s)
  {
    if s != [] {
      var p := s[..|s| - 1];
      SortStringsSpec(p);
      assert s == p + [s[|s| - 1]];
      assert s[|s| - 1] !in multiset(SortStrings(p));
      InsertStrSorted(SortStrings(p), s[|s| - 1]);
    }
  }

  function Elems(s: seq<string>): set<string> {
    set x | x in s
  }

  /** How many participants sort before `a`. */
  function Rank(names: set<string>, a: string): nat {
    |set b | b in names && StrLess(b, a)|
  }

  lemma {:induction false} DistinctCard(s: seq<string>)
    requires Distinct(s)
    ensures |Elems(s)| == |s|
  {
    if s != [] {
      var p := s[..|s| - 1];
      DistinctCard(p);
      assert Elems(s) == Elems(p) + {s[|s| - 1]};
      assert s[|s| - 1] !in Elems(p);
    }
  }

  /** In a strictly sorted list the position of an element is its rank. */
  lemma IndexIsRank(s: seq<string>, k: nat)
    requires StrictlySorted(s) && k < |s|
    ensures Rank(Elems(s), s[k]) == k
  {
    var smaller := set b | b in Elems(s) && StrLess(b, s[k]);
    forall b
      ensures b in smaller <==> b in s[..k]
    {
      if b in smaller {
        var j :| 0 <= j < |s| && s[j] == b;
        if j == k {
          StrLessIrreflexive(b);
        } else if j > k {
          StrLessTransitive(b, s[k], b);
          StrLessIrreflexive(b);
        }
      }
    }
    assert smaller == Elems(s[..k]);
    StrictlySortedDistinct(s[..k]);
    DistinctCard(s[..k]);
  }

  /** Strictly sorted lists have no repeats. */
  lemma StrictlySortedDistinct(s: seq<string>)
    requires StrictlySorted(s)
    ensures Distinct(s)
  {
    forall i, j | 0 <= i < j < |s|
      ensures s[i] != s[j]
    {
      StrLessIrreflexive(s[i]);
    }
  }

  /** The first loop of `getAgentColors`: fill an insertion-ordered set of participants. */
  method CollectAgents(messages: seq<Message>) returns (agents: seq<string>)
    ensures Distinct(agents)
    ensures Elems(agents) == AgentNames(messages)
  {
    agents := [];
    for i := 0 to |messages|
      invariant Distinct(agents)
      invariant Elems(agents) == AgentNames(messages[..i])
    {
      var msg := messages[i];
      assert messages[..i + 1][..i] == messages[..i];
      assert messages[..i + 1][i] == msg;
      if msg.from !in agents {
        agents := agents + [msg.from];
      }
      if !Contracts.StartsWith(msg.to, "#") && msg.to !in agents {
        agents := agents + [msg.to];
      }
    }
    assert messages[..|messages|] == messages;
  }

  /** The `forEach` of `getAgentColors`: the name at position `k` gets colour `k % 10`. */
  method AssignColors(agentList: seq<string>) returns (colors: map<string, string>)
    requires Distinct(agentList)
    ensures colors.Keys == Elems(agentList)
    ensures forall j :: 0 <= j < |agentList| ==> colors[agentList[j]] == AGENT_COLORS[j % |AGENT_COLORS|]
  {
    colors := map[];
    for k := 0 to |agentList|
      invariant colors.Keys == Elems(agentList[..k])
      invariant forall j :: 0 <= j < k ==> colors[agentList[j]] == AGENT_COLORS[j % |AGENT_COLORS|]
    {
      assert agentList[..k + 1] == agentList[..k] + [agentList[k]];
      colors := colors[agentList[k] := AGENT_COLORS[k % |AGENT_COLORS|]];
    }
    assert agentList[..|agentList|] == agentList;
  }

  /** `getAgentColors`: every participant is coloured by its rank in sorted name order,
      modulo the ten-colour palette. */
  method GetAgentColors(messages: seq<Message>) returns (colors: map<string, string>)
    ensures colors.Keys == AgentNames(messages)
    ensures forall a :: a in colors ==>
      colors[a] == AGENT_COLORS[Rank(AgentNames(messages), a) % |AGENT_COLORS|]
  {
    var agents := CollectAgents(messages);
    var agentList := SortStrings(agents);
    SortStringsSpec(agents);
    assert Elems(agentList) == Elems(agents) by {
      forall x
        ensures x in agentList <==> x in agents
      {
        assert x in agentList <==> x in multiset(agentList);
        assert x in agents <==> x in multiset(agents);
      }
    }
    StrictlySortedDistinct(agentList);
    colors := AssignColors(agentList);
    forall a | a in colors
      ensures colors[a] == AGENT_COLORS[Rank(AgentNames(messages), a) % |AGENT_COLORS|]
    {
      var j :| 0 <= j < |agentList| && agentList[j] == a;
      IndexIsRank(agentList, j);
    }
  }
}
