/**
 * The mock relay stream: while started, an interval makes one relay event per firing, cycling
 * through the four pipeline stages, and prepends it to a buffer of the newest 50 events. The
 * active stage and the metrics panel are derived from that buffer.
 *
 * The module-level state (tick counter, timer, buffer) is the `RelayStream` class; the random
 * draws and the clock are parameters of the firing.
 */
module Stream {
  import opened Slices
  import opened Draws

  datatype Stage = Queue | Socket | Pty | Verification

  const STAGE_ORDER: seq<Stage> := [Queue, Socket, Pty, Verification]
  const INTERVAL_MS: int := 1050
  const BUFFER_CAP: nat := 50
  const RECENT_WINDOW: nat := 20
  const THROUGHPUT_WINDOW: nat := 8
  /** A draw at or below this makes the event a failure. */
  const FAIL_THRESHOLD: real := 0.08
  /** The latency jitter added to a stage's base latency. */
  const LATENCY_SPREAD: int := 40

  function Samples(s: Stage): seq<string> {
    match s
    case Queue => ["Daemon queued command bundle", "Prefetching dependency map",
                   "Compressing payload", "Snapshotting filesystem delta"]
    case Socket => ["Relay opened secure WebSocket", "Negotiating protocol features",
                    "Upgrading connection with mTLS", "Streaming chunks to agent socket"]
    case Pty => ["Injecting command into PTY", "Applying terminal shim",
                 "PTY echo suppression enabled", "Forwarding stdout/stderr"]
    case Verification => ["Checksum verification", "Signature validated",
                          "Policy pass: sandboxed", "Post-flight integrity audit"]
  }

  function Actor(s: Stage): string {
    match s
    case Queue => "Daemon"
    case Socket => "Relay"
    case Pty => "Agent PTY"
    case Verification => "Verifier"
  }

  function BaseLatency(s: Stage): int {
    match s
    case Queue => 35
    case Socket => 60
    case Pty => 85
    case Verification => 45
  }

  datatype RelayStatus = Ok | Fail

  datatype RelayEvent = RelayEvent(
    id: string,
    stage: Stage,
    actor: string,
    message: string,
    status: RelayStatus,
    latency: int,
    ts: int)

  // ----- rounding and random draws -----

  /** `Math.round`: the nearest integer, halves rounding up. */
  function Round(x: real): int {
    (x + 0.5).Floor
  }

  /** Rounding a value between two integers stays between them. */
  lemma RoundBetween(x: real, lo: int, hi: int)
    requires lo as real <= x <= hi as real
    ensures lo <= Round(x) <= hi
  {
  }

  /** `randomLatency`: the stage's base plus up to 40 ms of jitter, rounded. */
  function RandomLatency(stage: Stage, r: real): (l: int)
    requires 0.0 <= r < 1.0
    ensures BaseLatency(stage) <= l <= BaseLatency(stage) + LATENCY_SPREAD
  {
    RoundBetween(BaseLatency(stage) as real + r * 40.0, BaseLatency(stage), BaseLatency(stage) + 40);
    Round(BaseLatency(stage) as real + r * 40.0)
  }

  function StatusOf(r: real): RelayStatus {
    if r > FAIL_THRESHOLD then Ok else Fail
  }

  // ----- event ids -----

  function DigitChar(d: nat): char
    requires d < 10
  {
    ('0' as int + d) as char
  }

  /** A natural number written in decimal, as a template literal renders it. */
  function Decimal(n: nat): (s: string)
    ensures |s| > 0 && (n >= 10 ==> |s| >= 2)
    ensures forall i :: 0 <= i < |s| ==> '0' <= s[i] <= '9'
  {
    if n < 10 then [DigitChar(n)] else Decimal(n / 10) + [DigitChar(n % 10)]
  }

  /** Different numbers are written differently. */
  lemma {:induction false} DecimalInjective(a: nat, b: nat)
    requires Decimal(a) == Decimal(b)
    ensures a == b
  {
    if a >= 10 && b >= 10 {
      var da, db := Decimal(a), Decimal(b);
      assert da[..|da| - 1] == Decimal(a / 10);
      assert db[..|db| - 1] == Decimal(b / 10);
      DecimalInjective(a / 10, b / 10);
      assert DigitChar(a % 10) == da[|da| - 1] == db[|db| - 1] == DigitChar(b % 10);
    }
  }

  /** The part of a string after its last `-` (all of it when there is none). */
  function AfterLastDash(s: string): (t: string)
    ensures |t| <= |s| && t == s[|s| - |t|..]
    ensures forall i :: 0 <= i < |t| ==> t[i] != '-'
  {
    if s == [] || s[|s| - 1] == '-' then [] else AfterLastDash(s[..|s| - 1]) + [s[|s| - 1]]
  }

  lemma {:induction false} AfterLastDashOf(p: string, d: string)
    requires forall i :: 0 <= i < |d| ==> d[i] != '-'
    ensures AfterLastDash(p + "-" + d) == d
  {
    if d != [] {
      var d' := d[..|d| - 1];
      assert (p + "-" + d)[..|p + "-" + d| - 1] == p + "-" + d';
      AfterLastDashOf(p, d');
      assert d' + [d[|d| - 1]] == d;
    } else {
      assert p + "-" + d == p + "-";
    }
  }

  /** `evt-${Date.now()}-${tick}`, taken after the counter has moved on. */
  function EventId(now: nat, tick: nat): string {
    "evt-" + Decimal(now) + "-" + Decimal(tick)
  }

  /** The counter can be read back off an id. */
  lemma EventIdNamesTick(now: nat, tick: nat)
    ensures AfterLastDash(EventId(now, tick)) == Decimal(tick)
  {
    AfterLastDashOf("evt-" + Decimal(now), Decimal(tick));
  }

  /** Two ids made at different counter values differ, whatever the clock said. */
  lemma EventIdsDistinct(now1: nat, tick1: nat, now2: nat, tick2: nat)
    requires tick1 != tick2
    ensures EventId(now1, tick1) != EventId(now2, tick2)
  {
    EventIdNamesTick(now1, tick1);
    EventIdNamesTick(now2, tick2);
    if Decimal(tick1) == Decimal(tick2) {
      DecimalInjective(tick1, tick2);
    }
  }

  // ----- events -----

  /** What every made event satisfies: the actor and a message of its stage, and a latency in
      the stage's band. */
  predicate Plausible(e: RelayEvent) {
    && e.actor == Actor(e.stage)
    && e.message in Samples(e.stage)
    && BaseLatency(e.stage) <= e.latency <= BaseLatency(e.stage) + LATENCY_SPREAD
  }

  /** The event `makeEvent` returns when the counter stands at `tick`; `rStatus`, `rSample`
      and `rLatency` are its three random draws and `now` the clock. */
  function EventAt(tick: nat, now: nat, rStatus: real, rSample: real, rLatency: real): (e: RelayEvent)
    requires 0.0 <= rSample < 1.0 && 0.0 <= rLatency < 1.0
    ensures Plausible(e) && e.stage == STAGE_ORDER[tick % |STAGE_ORDER|]
    ensures e.status == Ok <==> rStatus > FAIL_THRESHOLD
    ensures AfterLastDash(e.id) == Decimal(tick + 1)
  {
    var stage := STAGE_ORDER[tick % |STAGE_ORDER|];
    var message := PickFrom(Samples(stage), rSample);
    var latency := RandomLatency(stage, rLatency);
    var id := EventId(now, tick + 1);
    EventIdNamesTick(now, tick + 1);
    RelayEvent(id, stage, Actor(stage), message, StatusOf(rStatus), latency, now)
  }

  /** The made events, oldest first, are plausible, walk the stages in order and carry the
      ticks 1, 2, 3, ... in their ids. */
  ghost predicate MadeInOrder(made: seq<RelayEvent>) {
    forall k :: 0 <= k < |made| ==> MadeAt(made[k], k)
  }

  /** The event a stream makes as its `k`-th, counting from 0. */
  ghost predicate MadeAt(e: RelayEvent, k: nat) {
    && Plausible(e)
    && e.stage == STAGE_ORDER[k % |STAGE_ORDER|]
    && AfterLastDash(e.id) == Decimal(k + 1)
  }

  lemma MadeInOrderExtend(made: seq<RelayEvent>, e: RelayEvent)
    requires MadeInOrder(made)
    requires MadeAt(e, |made|)
    ensures MadeInOrder(made + [e])
  {
    forall k | 0 <= k < |made| + 1
      ensures MadeAt((made + [e])[k], k)
    {
      if k < |made| {
        assert (made + [e])[k] == made[k];
      }
    }
  }

  /** No two events of one stream share an id. */
  lemma MadeIdsDistinct(made: seq<RelayEvent>, i: nat, j: nat)
    requires MadeInOrder(made) && i < |made| && j < |made| && i != j
    ensures made[i].id != made[j].id
  {
    if made[i].id == made[j].id {
      DecimalInjective(i + 1, j + 1);
    }
  }

  /** `activeStage`: the stage of the newest event, `queue` before any. */
  function ActiveStage(events: seq<RelayEvent>): Stage {
    if events == [] then Queue else events[0].stage
  }

  /** On a stream's buffer the active stage is the one the counter last handed out. */
  lemma ActiveStageIsLastHandedOut(made: seq<RelayEvent>)
    requires MadeInOrder(made)
    ensures ActiveStage(NewestFirst(made, BUFFER_CAP)) ==
      if made == [] then Queue else STAGE_ORDER[(|made| - 1) % |STAGE_ORDER|]
  {
  }

  // ----- metrics -----

  datatype Metrics = NoData | Metrics(throughputPerMin: int, successRate: int, latency: int)

  function CountOk(s: seq<RelayEvent>): (n: nat)
    ensures n <= |s|
  {
    if s == [] then 0 else CountOk(s[..|s| - 1]) + (if s[|s| - 1].status == Ok then 1 else 0)
  }

  function SumLatency(s: seq<RelayEvent>): int {
    if s == [] then 0 else SumLatency(s[..|s| - 1]) + s[|s| - 1].latency
  }

  function MaxInt(a: int, b: int): int {
    if a >= b then a else b
  }

  /** The time the throughput window spans; a zero span counts as a second. */
  function Span(window: seq<RelayEvent>): int
    requires |window| > 0
  {
    var d := window[0].ts - window[|window| - 1].ts;
    if d == 0 then 1000 else d
  }

  function SuccessRate(ok: nat, n: nat): int
    requires 0 < n
  {
    Round(ok as real / n as real * 100.0)
  }

  /** The `metrics` store: throughput over the newest 8 events, success rate and mean latency
      over the newest 20; all dashes when there are no events. */
  function MetricsOf(events: seq<RelayEvent>): (m: Metrics)
    ensures m.NoData? <==> events == []
    ensures m.Metrics? ==> m.throughputPerMin >= 1
  {
    if events == [] then NoData
    else
      var recent := Truncate(events, RECENT_WINDOW);
      var window := Truncate(recent, THROUGHPUT_WINDOW);
      var throughput := MaxInt(1, Round(|window| as real / Span(window) as real * 60000.0));
      var latency := Round(SumLatency(recent) as real / |recent| as real);
      Metrics(throughput, SuccessRate(CountOk(recent), |recent|), latency)
  }

  lemma QuotientBetween(a: real, b: real, lo: real, hi: real)
    requires b > 0.0 && lo * b <= a <= hi * b
    ensures lo <= a / b <= hi
  {
    var q := a / b;
    assert q * b == a;
    assert (q - lo) * b >= 0.0 && (hi - q) * b >= 0.0;
  }

  /** Over a window of at most 20 events the rounded rate is 100 exactly when every event
      succeeded, 0 exactly when none did, and otherwise between 5 and 95. */
  lemma SuccessRateBands(ok: nat, n: nat)
    requires 0 < n <= RECENT_WINDOW && ok <= n
    ensures 0 <= SuccessRate(ok, n) <= 100
    ensures SuccessRate(ok, n) == 100 <==> ok == n
    ensures SuccessRate(ok, n) == 0 <==> ok == 0
    ensures 0 < ok < n ==> 5 <= SuccessRate(ok, n) <= 95
  {
    var x := ok as real / n as real * 100.0;
    if ok == n {
      assert ok as real / n as real == 1.0;
    } else if ok == 0 {
      assert x == 0.0;
    } else {
      QuotientBetween(ok as real, n as real, 0.05, 0.95);
      RoundBetween(x, 5, 95);
    }
  }

  /** Between the smallest and largest latency in the list, each times its length. */
  lemma {:induction false} SumLatencyBetween(s: seq<RelayEvent>, lo: int, hi: int)
    requires forall k :: 0 <= k < |s| ==> lo <= s[k].latency <= hi
    ensures lo * |s| <= SumLatency(s) <= hi * |s|
  {
    if s != [] {
      SumLatencyBetween(s[..|s| - 1], lo, hi);
      assert lo * |s| == lo * (|s| - 1) + lo;
      assert hi * |s| == hi * (|s| - 1) + hi;
    }
  }

  /** The rounded mean of latencies that all lie in a band lies in the band. */
  lemma MeanLatencyBetween(s: seq<RelayEvent>, lo: int, hi: int)
    requires s != [] && forall k :: 0 <= k < |s| ==> lo <= s[k].latency <= hi
    ensures lo <= Round(SumLatency(s) as real / |s| as real) <= hi
  {
    SumLatencyBetween(s, lo, hi);
    var n := |s| as real;
    assert lo as real * n <= SumLatency(s) as real <= hi as real * n;
    QuotientBetween(SumLatency(s) as real, n, lo as real, hi as real);
    RoundBetween(SumLatency(s) as real / n, lo, hi);
  }

  /** On a stream's buffer the success rate counts the newest 20 events, and the mean latency
      lies in the band of latencies the stream can make (35 to 125 ms). */
  lemma MetricsOfStream(made: seq<RelayEvent>)
    requires MadeInOrder(made) && made != []
    ensures var events := NewestFirst(made, BUFFER_CAP);
      var m := MetricsOf(events);
      && m.Metrics?
      && m.successRate == SuccessRate(CountOk(Truncate(events, RECENT_WINDOW)), |Truncate(events, RECENT_WINDOW)|)
      && 0 <= m.successRate <= 100
      && 35 <= m.latency <= 125
  {
    var events := NewestFirst(made, BUFFER_CAP);
    var recent := Truncate(events, RECENT_WINDOW);
    forall k | 0 <= k < |recent|
      ensures 35 <= recent[k].latency <= 125
    {
      assert recent[k] == made[|made| - 1 - k];
      assert Plausible(made[|made| - 1 - k]);
    }
    MeanLatencyBetween(recent, 35, 125);
    SuccessRateBands(CountOk(recent), |recent|);
  }

  // ----- the stream -----

  class RelayStream {
    /** `tick`: how many events have been made. */
    var tick: nat
    /** The interval is armed. */
    var running: bool
    /** The `events` store: newest first. */
    var events: seq<RelayEvent>
    /** Every event made, oldest first. */
    ghost var made: seq<RelayEvent>

    ghost predicate Valid()
      reads this
    {
      && |made| == tick
      && MadeInOrder(made)
      && events == NewestFirst(made, BUFFER_CAP)
    }

    constructor ()
      ensures Valid() && tick == 0 && !running && events == []
    {
      tick, running, events := 0, false, [];
      made := [];
    }

    /** `makeEvent`: the event for the current counter, which then moves on. */
    method MakeEvent(now: nat, rStatus: real, rSample: real, rLatency: real) returns (evt: RelayEvent)
      requires Valid()
      requires 0.0 <= rSample < 1.0 && 0.0 <= rLatency < 1.0
      modifies this`tick, this`made
      ensures evt == EventAt(old(tick), now, rStatus, rSample, rLatency)
      ensures tick == old(tick) + 1 && made == old(made) + [evt]
      ensures MadeInOrder(made) && |made| == tick
    {
      evt := EventAt(tick, now, rStatus, rSample, rLatency);
      MadeInOrderExtend(made, evt);
      tick := tick + 1;
      made := made + [evt];
    }

    /** One firing of the interval: the new event goes on the front of the buffer, which keeps
        its newest 50 entries. */
    method Fire(now: nat, rStatus: real, rSample: real, rLatency: real) returns (evt: RelayEvent)
      requires Valid() && running
      requires 0.0 <= rSample < 1.0 && 0.0 <= rLatency < 1.0
      modifies this`tick, this`made, this`events
      ensures Valid()
      ensures evt == EventAt(old(tick), now, rStatus, rSample, rLatency)
      ensures tick == old(tick) + 1
      ensures events == Truncate([evt] + old(events), BUFFER_CAP)
    {
      evt := MakeEvent(now, rStatus, rSample, rLatency);
      PrependKeepsWindow(old(made), evt, BUFFER_CAP);
      events := Truncate([evt] + events, BUFFER_CAP);
    }

    /** `startMockStream`: a no-op while already running. */
    method Start()
      modifies this`running
      ensures running
    {
      if running {
        return;
      }
      running := true;
    }

    /** `stopMockStream`: a no-op while stopped; the counter and buffer are kept. */
    method Stop()
      modifies this`running
      ensures !running
    {
      if !running {
        return;
      }
      running := false;
    }
  }
}
