/**
 * The mock WebSocket: replays a fixed list of events to its subscribers, one per interval tick,
 * either once or in a loop. The interval timer is the `running` flag and each firing of it is a
 * call to `Tick`; listeners are identified by a handle.
 */
module MockWs {
  import opened Wrappers
  import Contracts

  const DEFAULT_INTERVAL_MS: int := 500

  datatype WsStatus = Open | Closed

  /** The value the `n`-th tick of a socket that never restarts past its end would deliver:
      in a loop the list cycles; otherwise the list is read once and then runs off its end. */
  function Replayed(events: seq<Contracts.Event>, loop: bool, n: nat): Option<Contracts.Event>
    requires loop ==> |events| > 0
  {
    if loop then Some(events[n % |events|])
    else if n < |events| then Some(events[n])
    else None
  }

  class MockSocket {
    const events: seq<Contracts.Event>
    const intervalMs: int
    const loop: bool
    /** The next position to deliver. */
    var idx: nat
    /** An interval timer is armed. */
    var running: bool
    var listeners: set<nat>
    /** Every value delivered so far, one per tick. */
    ghost var delivered: seq<Option<Contracts.Event>>

    ghost predicate Valid()
      reads this
    {
      && (running ==> |events| > 0)
      && (loop && |events| > 0 ==> idx == |delivered| % |events|)
      && (loop && |events| == 0 ==> idx == 0 && delivered == [])
      && (!loop ==> idx == |delivered|)
      && (forall k :: 0 <= k < |delivered| ==> delivered[k] == Replayed(events, loop, k))
    }

    /** `createMockWs` with the defaults `intervalMs = 500` and `loop = false`. */
    constructor (events: seq<Contracts.Event>, intervalMs: Option<int>, loop: Option<bool>)
      ensures Valid()
      ensures this.events == events && this.intervalMs == intervalMs.GetOr(DEFAULT_INTERVAL_MS)
      ensures this.loop == loop.GetOr(false)
      ensures idx == 0 && !running && listeners == {} && delivered == []
    {
      this.events := events;
      this.intervalMs := intervalMs.GetOr(DEFAULT_INTERVAL_MS);
      this.loop := loop.GetOr(false);
      idx, running, listeners := 0, false, {};
      delivered := [];
    }

    /** `events[idx]`, which is `undefined` past the end. */
    function Current(): (r: Option<Contracts.Event>)
      reads this
      ensures r.Some? <==> idx < |events|
      ensures r.Some? ==> r.value == events[idx]
    {
      if idx < |events| then Some(events[idx]) else None
    }

    /** One firing of the interval: every current listener receives the event at `idx`; the
        position advances and, at the end of the list, wraps round in a loop or stops the timer. */
    method Tick() returns (value: Option<Contracts.Event>, recipients: set<nat>)
      requires Valid() && running
      modifies this`idx, this`running, this`delivered
      ensures Valid()
      ensures value == old(Current()) && recipients == listeners
      ensures delivered == old(delivered) + [value]
      ensures old(idx) + 1 < |events| ==> idx == old(idx) + 1 && running
      ensures old(idx) + 1 >= |events| && loop ==> idx == 0 && running
      ensures old(idx) + 1 >= |events| && !loop ==> idx == old(idx) + 1 && !running
    {
      value := Current();
      recipients := listeners;
      ghost var t := |delivered|;
      delivered := delivered + [value];
      idx := idx + 1;
      if idx >= |events| {
        if loop {
          idx := 0;
          assert (t + 1) % |events| == 0 by {
            assert t % |events| + 1 == |events|;
            DivisionStep(t, |events|);
          }
        } else {
          running := false;
        }
      } else if loop {
        DivisionStep(t, |events|);
      }
    }

    /** `start`: arms the timer unless it is armed already or there is nothing to replay. */
    method Start()
      requires Valid()
      modifies this`running
      ensures Valid()
      ensures running == (old(running) || |events| > 0)
    {
      if running || |events| == 0 {
        return;
      }
      running := true;
    }

    /** `stop`: disarms the timer; the position is kept, so a later `Start` resumes there. */
    method Stop()
      requires Valid()
      modifies this`running
      ensures Valid() && !running
    {
      running := false;
    }

    /** `subscribe` */
    method Subscribe(fn: nat)
      modifies this`listeners
      ensures listeners == old(listeners) + {fn}
    {
      listeners := listeners + {fn};
    }

    /** The function `subscribe` returns. */
    method Unsubscribe(fn: nat)
      modifies this`listeners
      ensures listeners == old(listeners) - {fn}
    {
      listeners := listeners - {fn};
    }

    /** `status` */
    function Status(): (s: WsStatus)
      reads this
      ensures s == Open <==> running
    {
      if running then Open else Closed
    }
  }

  /** Going one step past `t` moves the remainder on by one, or wraps it to zero. */
  lemma DivisionStep(t: nat, n: nat)
    requires n > 0
    ensures (t + 1) % n == if t % n + 1 == n then 0 else t % n + 1
  {
    var q := t / n;
    if t % n + 1 == n {
      ModUnique(t + 1, q + 1, 0, n);
    } else {
      ModUnique(t + 1, q, t % n + 1, n);
    }
  }

  /** A looping replay delivers the list over and over: the `k`-th tick after creation delivers
      entry `k mod n`, so within every run of `n` consecutive ticks each entry is delivered once. */
  lemma {:induction false} LoopCyclesThroughList(events: seq<Contracts.Event>, k: nat)
    requires |events| > 0
    ensures Replayed(events, true, k + |events|) == Replayed(events, true, k)
    ensures Replayed(events, true, k * |events|) == Some(events[0])
  {
    var n := |events|;
    assert k + n == (k / n + 1) * n + k % n;
    ModUnique(k + n, k / n + 1, k % n, n);
    assert k * n == k * n + 0;
    ModUnique(k * n, k, 0, n);
  }

  /** The remainder is determined by any quotient-remainder decomposition. */
  lemma ModUnique(a: nat, q: nat, r: nat, n: nat)
    requires n > 0 && r < n && a == q * n + r
    ensures a % n == r
  {
    var d := q - a / n;
    assert d * n == a % n - r;
    SmallMultiple(d, n);
  }

  lemma SmallMultiple(d: int, n: int)
    requires n > 0 && -n < d * n < n
    ensures d == 0
  {
  }
}
