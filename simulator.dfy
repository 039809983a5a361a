/**
 * The simulated event stream for the relay-pty demos: an event factory, seven scenario
 * builders, an endless sequencer that replays them in turn with fresh timestamps, and a
 * manual stream whose `emit` forwards only while someone is subscribed.
 *
 * `makeId()`, `new Date().toISOString()` and `Math.random()` are parameters: `ids` supplies the
 * ids in call order, `ts`/`now` the clock, `draws` the random numbers.
 */
module Simulator {
  import opened Wrappers
  import opened Contracts
  import opened Draws

  const SESSION_ID: string := "demo-session-001"
  const AGENTS: seq<string> := ["Lead", "Worker-1", "Worker-2", "Worker-3"]
  const FLURRY_SIZE: nat := 8
  const FLURRY_BODY: string := "Status update #: progress on subtask"
  /** The most events any scenario has, so the most ids one build needs. */
  const MAX_SCENARIO_LEN: nat := 8

  const SCENARIO_NAMES: seq<string> := ["spawn-sequence", "message-flurry", "broadcast",
    "channel-chat", "pty-activity", "error-recovery", "release-sequence"]

  /** The arguments of one `createEvent` call other than what `makeId` and the clock give. */
  datatype Spec = Spec(
    source: string,
    payload: Payload,
    target: Option<string>,
    channel: Option<string>,
    thread: Option<string>)

  datatype Scenario = Scenario(name: string, events: seq<Event>)

  // ----- the event factory -----

  /** `type.includes('/') ? type.split('/')[1] : type` */
  function SimSubtype(t: string): string {
    if '/' in t then Split(t, '/')[1] else t
  }

  /** The factory's subtype is the segment after the first `/`, and agrees with the one the
      playback engine derives with `split('/')[1] ?? type`. */
  lemma {:induction false} SimSubtypeOfTag(pre: string, sub: string, t: string)
    requires '/' !in pre && '/' !in sub
    ensures SimSubtype(pre + "/" + sub) == sub
    ensures SimSubtype(t) == Subtype(t)
  {
    SplitJoin([pre, sub], '/');
    assert JoinParts([pre, sub], '/') == pre + "/" + sub;
  }

  /** `createEvent` */
  function CreateEvent(spec: Spec, id: string, ts: string): Event {
    Event(id, ts, SESSION_ID, KindFromPayload(spec.payload), SimSubtype(TypeTag(spec.payload)),
          spec.source, spec.target, spec.channel, spec.thread, spec.payload)
  }

  /** A made event is tagged with the demo session, keeps the caller's routing fields, and its
      kind and subtype spell out the payload's type. */
  lemma CreateEventFaithful(spec: Spec, id: string, ts: string)
    ensures var e := CreateEvent(spec, id, ts);
      && e.sessionId == SESSION_ID && e.id == id && e.ts == ts && e.payload == spec.payload
      && e.source == spec.source && e.target == spec.target
      && e.channel == spec.channel && e.thread == spec.thread
      && KindName(e.kind) + "/" + e.subtype == TypeTag(spec.payload)
  {
    KindAndSubtypeRebuildTag(spec.payload);
    SimSubtypeOfTag("", "", TypeTag(spec.payload));
  }

  /** Each spec made into an event, with the ids in order. */
  function Instantiate(specs: seq<Spec>, ids: seq<string>, ts: string): seq<Event>
    requires |ids| >= |specs|
  {
    seq(|specs|, k requires 0 <= k < |specs| => CreateEvent(specs[k], ids[k], ts))
  }

  // ----- the fixed scenarios -----

  function Msg(body: string): Payload {
    AgentMsg(body, None, None, None, None, None, None, None)
  }

  function ChannelMsg(body: string, channel: string): Payload {
    AgentMsg(body, None, None, None, Some(channel), None, None, None)
  }

  function Member(action: MemberAction, member: string): Payload {
    SystemState(action, member, None)
  }

  function Say(source: string, p: Payload, to: string): Spec {
    Spec(source, p, Some(to), None, None)
  }

  function Note(source: string, p: Payload): Spec {
    Spec(source, p, None, None, None)
  }

  function SpawnSequence(ptyId: string): seq<Spec> {
    [ Note("Lead", PtyOpen(ptyId, "claude", "/workspace", None)),
      Note("daemon", Member(Join, "Lead")),
      Say("Lead", Msg("Spawning Worker-1 for task A"), "Worker-1"),
      Note("daemon", Member(Join, "Worker-1")),
      Say("Lead", Msg("Spawning Worker-2 for task B"), "Worker-2"),
      Note("daemon", Member(Join, "Worker-2")),
      Say("Worker-1", Msg("ACK: Starting task A"), "Lead"),
      Say("Worker-2", Msg("ACK: Starting task B"), "Lead") ]
  }

  function Broadcast(): seq<Spec> {
    [ Note("Lead", AgentMsg("ATTENTION: All agents sync checkpoint", None, Some(true), Some(true),
                            None, None, None, None)),
      Say("Worker-1", Msg("ACK: Checkpoint received"), "Lead"),
      Say("Worker-2", Msg("ACK: Checkpoint received"), "Lead"),
      Say("Worker-3", Msg("ACK: Checkpoint received"), "Lead") ]
  }

  function ChannelChat(): seq<Spec> {
    [ Spec("Worker-1", ChannelMsg("Found a bug in the auth module", "general"), None, Some("general"), None),
      Spec("Worker-2", ChannelMsg("Can you share the stack trace?", "general"), None, Some("general"), None),
      Spec("Worker-1", ChannelMsg("TypeError at line 42, null reference", "general"), None, Some("general"), None),
      Spec("Lead", ChannelMsg("Good catch, Worker-2 please assist", "general"), None, Some("general"), None) ]
  }

  function PtyActivity(ptyId: string): seq<Spec> {
    [ Note("Worker-1", PtyIo(ptyId, Stdout, "Running tests...\n", 18)),
      Note("Worker-1", PtyIo(ptyId, Stdout, "Test 1/5 passed\n", 16)),
      Note("Worker-1", PtyIo(ptyId, Stdout, "Test 2/5 passed\n", 16)),
      Note("daemon", DaemonStatus("relay-pty", Ok, Some("All PTY sessions healthy"))) ]
  }

  function ErrorRecovery(): seq<Spec> {
    [ Note("daemon", DaemonStatus("Worker-2", Error, Some("Connection timeout"))),
      Note("daemon", Member(Leave, "Worker-2")),
      Note("daemon", DaemonStatus("relay", Warn, Some("Agent count reduced to 3"))),
      Note("daemon", Member(Join, "Worker-2")),
      Note("daemon", DaemonStatus("relay", Ok, Some("All agents reconnected"))),
      Say("Worker-2", Msg("Reconnected, resuming task"), "Lead") ]
  }

  function ReleaseSequence(ptyId: string): seq<Spec> {
    [ Say("Worker-1", Msg("DONE: Task A complete"), "Lead"),
      Say("Worker-2", Msg("DONE: Task B complete"), "Lead"),
      Note("daemon", Member(Leave, "Worker-1")),
      Note("Worker-1", PtyExit(ptyId, 0, None)),
      Note("daemon", Member(Leave, "Worker-2")),
      Note("daemon", DaemonStatus("relay", Ok, Some("Session winding down"))) ]
  }

  /** The specs of every scenario but the random one, by position in the rotation. */
  function FixedSpecs(k: nat, ptyId: string): (specs: seq<Spec>)
    requires k < |SCENARIO_NAMES| && k != 1
    ensures 0 < |specs| <= MAX_SCENARIO_LEN
  {
    if k == 0 then SpawnSequence(ptyId)
    else if k == 2 then Broadcast()
    else if k == 3 then ChannelChat()
    else if k == 4 then PtyActivity(ptyId)
    else if k == 5 then ErrorRecovery()
    else ReleaseSequence(ptyId)
  }

  // ----- the random scenario -----

  /** What every event of a message flurry looks like: an `agent/msg` between two different
      agents of the demo crew. */
  predicate FlurryEvent(e: Event) {
    && e.payload == Msg(FLURRY_BODY)
    && e.kind == Agent && e.subtype == "msg"
    && e.source in AGENTS
    && e.target.Some? && e.target.value in AGENTS && e.target.value != e.source
    && e.sessionId == SESSION_ID
  }

  lemma FlurryEventOf(from: string, to: string, id: string, ts: string)
    requires from in AGENTS && to in AGENTS && from != to
    ensures FlurryEvent(CreateEvent(Say(from, Msg(FLURRY_BODY), to), id, ts))
  {
    var p := Msg(FLURRY_BODY);
    AgentMsgClassified(p);
    SimSubtypeOfTag("", "", TypeTag(p));
  }

  /** The events made so far are flurry messages carrying the supplied ids in order. */
  predicate FlurryPrefix(events: seq<Event>, ids: seq<string>, ts: string) {
    && |events| <= |ids|
    && forall k :: 0 <= k < |events| ==> FlurryEvent(events[k]) && events[k].id == ids[k] && events[k].ts == ts
  }

  lemma FlurryPrefixExtend(events: seq<Event>, ids: seq<string>, ts: string, e: Event)
    requires FlurryPrefix(events, ids, ts) && |events| < |ids|
    requires FlurryEvent(e) && e.id == ids[|events|] && e.ts == ts
    ensures FlurryPrefix(events + [e], ids, ts)
  {
  }

  /** The crew members have different names. */
  lemma AgentsDistinct(a: nat, b: nat)
    requires a < |AGENTS| && b < |AGENTS| && a != b
    ensures AGENTS[a] != AGENTS[b]
  {
    assert AGENTS[0][0] == 'L' && AGENTS[1][0] == 'W';
    assert AGENTS[1][7] == '1' && AGENTS[2][7] == '2' && AGENTS[3][7] == '3';
  }

  /** The two draws at `start` pick different crew members, so no redraw is needed. */
  predicate DistinctPairAt(draws: seq<real>, start: nat)
    requires forall k :: 0 <= k < |draws| ==> 0.0 <= draws[k] < 1.0
  {
    start + 2 <= |draws| && PickIndex(draws[start], |AGENTS|) != PickIndex(draws[start + 1], |AGENTS|)
  }

  /** Enough draws for a whole flurry, and every sender's draw is followed by a different
      recipient's. */
  predicate AmpleDraws(draws: seq<real>)
    requires forall k :: 0 <= k < |draws| ==> 0.0 <= draws[k] < 1.0
  {
    |draws| >= 2 * FLURRY_SIZE && forall i :: 0 <= i < FLURRY_SIZE ==> DistinctPairAt(draws, 2 * i)
  }

  /** One sender and recipient of a flurry, drawn from `draws[start..]`: the recipient is
      redrawn until it differs from the sender. `None` when the draws run out first. */
  method DrawPair(draws: seq<real>, start: nat) returns (pair: Option<(string, string)>, used: nat)
    requires start <= |draws|
    requires forall k :: 0 <= k < |draws| ==> 0.0 <= draws[k] < 1.0
    ensures start <= used <= |draws|
    ensures pair.None? ==> used == |draws|
    ensures pair.Some? ==> used >= start + 2
    ensures pair.Some? ==> pair.value.0 in AGENTS && pair.value.1 in AGENTS && pair.value.0 != pair.value.1
    ensures DistinctPairAt(draws, start) ==>
      used == start + 2 &&
      pair == Some((AGENTS[PickIndex(draws[start], |AGENTS|)], AGENTS[PickIndex(draws[start + 1], |AGENTS|)]))
  {
    used := start;
    if used == |draws| {
      return None, used;
    }
    var from := AGENTS[PickIndex(draws[used], |AGENTS|)];
    used := used + 1;
    if used == |draws| {
      return None, used;
    }
    var to := AGENTS[PickIndex(draws[used], |AGENTS|)];
    used := used + 1;
    if DistinctPairAt(draws, start) {
      AgentsDistinct(PickIndex(draws[start], |AGENTS|), PickIndex(draws[start + 1], |AGENTS|));
    }
    while to == from
      invariant start + 2 <= used <= |draws| && to in AGENTS
      invariant DistinctPairAt(draws, start) ==>
        used == start + 2 && to == AGENTS[PickIndex(draws[start + 1], |AGENTS|)] && to != from
      decreases |draws| - used
    {
      if used == |draws| {
        return None, used;
      }
      to := AGENTS[PickIndex(draws[used], |AGENTS|)];
      used := used + 1;
    }
    pair := Some((from, to));
  }

  /** `createMessageFlurry`: eight messages, each from a random agent to a random other agent,
      redrawing the recipient until it differs from the sender. `draws` are the random numbers
      in the order they are taken and `used` how many were taken; `None` only when they run
      out first. */
  method CreateMessageFlurry(draws: seq<real>, ids: seq<string>, ts: string)
    returns (r: Option<Scenario>, used: nat)
    requires forall k :: 0 <= k < |draws| ==> 0.0 <= draws[k] < 1.0
    requires |ids| >= FLURRY_SIZE
    ensures used <= |draws|
    ensures r.None? ==> used == |draws|
    ensures r.Some? ==> used >= 2 * FLURRY_SIZE
    ensures AmpleDraws(draws) ==> r.Some? && used == 2 * FLURRY_SIZE
    ensures r.Some? ==> r.value.name == SCENARIO_NAMES[1] && |r.value.events| == FLURRY_SIZE
    ensures r.Some? ==> forall k :: 0 <= k < FLURRY_SIZE ==>
      FlurryEvent(r.value.events[k]) && r.value.events[k].id == ids[k] && r.value.events[k].ts == ts
  {
    var events: seq<Event> := [];
    used := 0;
    for i := 0 to FLURRY_SIZE
      invariant |events| == i && 2 * i <= used <= |draws|
      invariant FlurryPrefix(events, ids, ts)
      invariant AmpleDraws(draws) ==> used == 2 * i
    {
      var pair;
      pair, used := DrawPair(draws, used);
      if pair.None? {
        return None, used;
      }
      var (from, to) := pair.value;
      var e := CreateEvent(Say(from, Msg(FLURRY_BODY), to), ids[i], ts);
      FlurryEventOf(from, to, ids[i], ts);
      FlurryPrefixExtend(events, ids, ts, e);
      events := events + [e];
    }
    r := Some(Scenario(SCENARIO_NAMES[1], events));
  }

  /** Builds scenario `k` of the rotation: `SCENARIOS[k]()`. */
  method BuildScenario(k: nat, ptyId: string, ids: seq<string>, draws: seq<real>, ts: string)
    returns (r: Option<Scenario>)
    requires k < |SCENARIO_NAMES|
    requires forall j :: 0 <= j < |draws| ==> 0.0 <= draws[j] < 1.0
    requires |ids| >= MAX_SCENARIO_LEN
    ensures r.Some? ==> r.value.name == SCENARIO_NAMES[k] && 0 < |r.value.events| <= MAX_SCENARIO_LEN
    ensures k != 1 ==> r == Some(FixedScenario(k, ptyId, ids, ts))
    ensures r.Some? ==> RotationScenario(k, r.value, ptyId, ids, ts)
    ensures AmpleDraws(draws) ==> r.Some?
  {
    if k == 1 {
      var used;
      r, used := CreateMessageFlurry(draws, ids, ts);
      if r.Some? {
        assert FlurryEvents(r.value);
        assert IsFlurry(r.value, ids, ts);
      }
    } else {
      r := Some(FixedScenario(k, ptyId, ids, ts));
      assert k % |SCENARIO_NAMES| == k;
    }
  }

  /** A fixed scenario of the rotation, its specs made into events with the supplied ids. */
  function FixedScenario(k: nat, ptyId: string, ids: seq<string>, ts: string): (sc: Scenario)
    requires k < |SCENARIO_NAMES| && k != 1 && |ids| >= MAX_SCENARIO_LEN
    ensures sc.name == SCENARIO_NAMES[k] && 0 < |sc.events| <= MAX_SCENARIO_LEN
  {
    Scenario(SCENARIO_NAMES[k], Instantiate(FixedSpecs(k, ptyId), ids, ts))
  }

  /** Eight message events, the shape of every `message-flurry` scenario. */
  predicate FlurryEvents(sc: Scenario) {
    |sc.events| == FLURRY_SIZE && forall j :: 0 <= j < |sc.events| ==> FlurryEvent(sc.events[j])
  }

  /** The message flurry made with the supplied ids and timestamp. */
  predicate IsFlurry(sc: Scenario, ids: seq<string>, ts: string) {
    && sc.name == SCENARIO_NAMES[1] && FlurryEvents(sc) && |ids| >= FLURRY_SIZE
    && forall j :: 0 <= j < |sc.events| ==> sc.events[j].id == ids[j] && sc.events[j].ts == ts
  }

  /** Scenario number `k` of the endless rotation, `SCENARIOS[k % 7]()`, as built from these
      inputs: the fixed scenarios exactly, the flurry up to its random pairs. */
  predicate RotationScenario(k: nat, sc: Scenario, ptyId: string, ids: seq<string>, ts: string)
    requires |ids| >= MAX_SCENARIO_LEN
  {
    if k % |SCENARIO_NAMES| == 1 then IsFlurry(sc, ids, ts)
    else sc == FixedScenario(k % |SCENARIO_NAMES|, ptyId, ids, ts)
  }

  // ----- the sequencer -----

  /** The sequencer's invariant on its fields: `current` is the newest scenario built, scenario
      `s` is number `s mod 7` of the rotation, and the events yielded so far are, restamped,
      the first events of all scenarios built. */
  ghost predicate SequencerState(scenarioIdx: nat, current: seq<Event>, pos: nat, started: bool,
                                 built: seq<Scenario>, yielded: seq<Event>) {
    && pos <= |current|
    && (!started ==> built == [] && yielded == [] && scenarioIdx == 0)
    && (started ==> |built| == scenarioIdx + 1 && current == built[scenarioIdx].events)
    && (forall s :: 0 <= s < |built| ==>
          built[s].name == SCENARIO_NAMES[s % |SCENARIO_NAMES|] && |built[s].events| > 0)
    && (forall s :: 0 <= s < |built| && s % |SCENARIO_NAMES| == 1 ==> FlurryEvents(built[s]))
    && |yielded| + |current| - pos == |Concat(built)|
    && (forall j :: 0 <= j < |yielded| ==> yielded[j] == Restamped(Concat(built)[j], yielded[j].ts))
  }

  /** Once the current scenario is used up, building the next one of the rotation keeps the
      invariant. */
  lemma BeginKeepsState(scenarioIdx: nat, current: seq<Event>, pos: nat, started: bool,
                        built: seq<Scenario>, yielded: seq<Event>, k: nat, sc: Scenario)
    requires SequencerState(scenarioIdx, current, pos, started, built, yielded)
    requires !started || pos == |current|
    requires k == (if started then scenarioIdx + 1 else 0)
    requires sc.name == SCENARIO_NAMES[k % |SCENARIO_NAMES|] && |sc.events| > 0
    requires k % |SCENARIO_NAMES| == 1 ==> FlurryEvents(sc)
    ensures SequencerState(k, sc.events, 0, true, built + [sc], yielded)
  {
    ExtendKeepsYielded(built, sc, yielded);
    var b := built + [sc];
    forall s | 0 <= s < |b|
      ensures b[s].name == SCENARIO_NAMES[s % |SCENARIO_NAMES|] && |b[s].events| > 0
      ensures s % |SCENARIO_NAMES| == 1 ==> FlurryEvents(b[s])
    {
      if s < |built| {
        assert b[s] == built[s];
      }
    }
  }

  /** All events of the scenarios, in order. */
  ghost function Concat(built: seq<Scenario>): seq<Event> {
    if built == [] then [] else Concat(built[..|built| - 1]) + built[|built| - 1].events
  }

  /** `{ ...event, ts }` */
  function Restamped(e: Event, ts: string): Event {
    e.(ts := ts)
  }

  /** `scenarioGenerator`: scenario `scenarioIdx % 7` is built when the previous one is used up,
      and its events are yielded in order, each with the clock's current time. */
  class Sequencer {
    var scenarioIdx: nat
    var current: seq<Event>
    var pos: nat
    var started: bool
    /** Every scenario built so far, in order. */
    ghost var built: seq<Scenario>
    /** Every event yielded so far, in order. */
    ghost var yielded: seq<Event>

    ghost predicate Valid()
      reads this
    {
      SequencerState(scenarioIdx, current, pos, started, built, yielded)
    }

    constructor ()
      ensures Valid() && !started && built == [] && yielded == []
    {
      scenarioIdx, current, pos, started := 0, [], 0, false;
      built, yielded := [], [];
    }

    /** `generator.next()`: the next event, restamped with `now`. When a new scenario is due it
        is built from `ptyId`, `ids`, `draws` and `ts`. `None` only when a message flurry is
        due and the draws do not complete it (they run out first); then nothing changes. With
        ample draws there is always a next event, so the rotation goes on forever. */
    method Next(ptyId: string, ids: seq<string>, draws: seq<real>, ts: string, now: string)
      returns (e: Option<Event>)
      requires Valid()
      requires forall j :: 0 <= j < |draws| ==> 0.0 <= draws[j] < 1.0
      requires |ids| >= MAX_SCENARIO_LEN
      modifies this
      ensures Valid()
      ensures e.Some? ==> yielded == old(yielded) + [e.value]
      ensures e.Some? ==> e.value == Restamped(Concat(built)[|old(yielded)|], now)
      ensures e.Some? && old(started) && old(pos) < |old(current)| ==> built == old(built)
      ensures e.Some? && (!old(started) || old(pos) == |old(current)|) ==>
        |built| == |old(built)| + 1 && built[..|old(built)|] == old(built)
      ensures e.Some? && (!old(started) || old(pos) == |old(current)|) ==>
        RotationScenario(|old(built)|, built[|old(built)|], ptyId, ids, ts)
      ensures e.None? ==> yielded == old(yielded) && built == old(built)
      ensures e.None? ==>
        (!old(started) || old(pos) == |old(current)|) && |old(built)| % |SCENARIO_NAMES| == 1
      ensures AmpleDraws(draws) ==> e.Some?
    {
      if !started || pos == |current| {
        var k := if started then scenarioIdx + 1 else 0;
        assert k == |built|;
        var sc := BuildScenario(k % |SCENARIO_NAMES|, ptyId, ids, draws, ts);
        if sc.None? {
          assert k % |SCENARIO_NAMES| == 1;
          return None;
        }
        BeginScenario(k, sc.value);
      }
      var out := YieldCurrent(now);
      e := Some(out);
    }

    /** Moves on to scenario `k` of the rotation, already built, once the current one is used
        up. */
    method BeginScenario(k: nat, sc: Scenario)
      requires Valid() && (!started || pos == |current|)
      requires k == (if started then scenarioIdx + 1 else 0)
      requires sc.name == SCENARIO_NAMES[k % |SCENARIO_NAMES|] && |sc.events| > 0
      requires k % |SCENARIO_NAMES| == 1 ==> FlurryEvents(sc)
      modifies this
      ensures Valid() && yielded == old(yielded)
      ensures started && scenarioIdx == k && current == sc.events && pos == 0 && built == old(built) + [sc]
    {
      BeginKeepsState(scenarioIdx, current, pos, started, built, yielded, k, sc);
      built := built + [sc];
      scenarioIdx, current, pos, started := k, sc.events, 0, true;
    }

    /** Yields the next event of the current scenario with the clock's time. */
    method YieldCurrent(now: string) returns (out: Event)
      requires Valid() && started && pos < |current|
      modifies this`pos, this`yielded
      ensures Valid()
      ensures yielded == old(yielded) + [out]
      ensures out == Restamped(Concat(built)[|old(yielded)|], now)
    {
      ConcatAppend(built[..|built| - 1], built[|built| - 1]);
      assert built[..|built| - 1] + [built[|built| - 1]] == built;
      out := Restamped(current[pos], now);
      yielded := yielded + [out];
      pos := pos + 1;
    }
  }

  /** Building one more scenario does not move the events already yielded. */
  lemma ExtendKeepsYielded(built: seq<Scenario>, s: Scenario, yielded: seq<Event>)
    requires |yielded| <= |Concat(built)|
    requires forall j :: 0 <= j < |yielded| ==> yielded[j] == Restamped(Concat(built)[j], yielded[j].ts)
    ensures Concat(built + [s]) == Concat(built) + s.events
    ensures forall j :: 0 <= j < |yielded| ==> yielded[j] == Restamped(Concat(built + [s])[j], yielded[j].ts)
  {
    ConcatAppend(built, s);
  }

  lemma ConcatAppend(built: seq<Scenario>, s: Scenario)
    ensures Concat(built + [s]) == Concat(built) + s.events
  {
    assert (built + [s])[..|built|] == built;
  }

  /** The rotation never skips a scenario: the `s`-th scenario built is number `s mod 7`, so
      scenario `s + 1` follows scenario `s` in the list and `release-sequence` is followed by
      `spawn-sequence` again. */
  lemma RotationIsRoundRobin(s: nat)
    ensures SCENARIO_NAMES[(s + 1) % |SCENARIO_NAMES|] ==
      if s % |SCENARIO_NAMES| == 6 then SCENARIO_NAMES[0] else SCENARIO_NAMES[s % |SCENARIO_NAMES| + 1]
  {
  }

  // ----- the manual stream -----

  /** `createManualStream`: `emit` reaches the stream's value only while the stream has a
      subscriber (the readable's start function has handed over `set`). */
  class ManualStream {
    var subscribers: nat
    /** The readable's current value; `None` is its initial `null`. */
    var value: Option<Event>

    constructor ()
      ensures subscribers == 0 && value == None
    {
      subscribers, value := 0, None;
    }

    /** The emitter is set from the first subscription to the last unsubscription. */
    function Connected(): bool
      reads this
    {
      subscribers > 0
    }

    method Subscribe()
      modifies this`subscribers
      ensures subscribers == old(subscribers) + 1
    {
      subscribers := subscribers + 1;
    }

    method Unsubscribe()
      requires subscribers > 0
      modifies this`subscribers
      ensures subscribers == old(subscribers) - 1
    {
      subscribers := subscribers - 1;
    }

    /** `emit`: `emitter?.(event)` */
    method Emit(e: Event)
      modifies this`value
      ensures old(Connected()) ==> value == Some(e)
      ensures !old(Connected()) ==> value == old(value)
    {
      if subscribers > 0 {
        value := Some(e);
      }
    }
  }
}
