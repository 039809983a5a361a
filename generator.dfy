/**
 * The scenario playback engine: a single player that replays a scenario's event templates
 * one timer tick at a time, prepends each materialised event to a timeline capped at
 * MAX_EVENTS entries, and keeps the session statistics up to date.
 *
 * The one `setTimeout` handle of the source is the pair `pending`/`pendingDelay`: `pending`
 * says a timer is armed and `pendingDelay` is the delay it was armed with. `Fire` is the timer
 * expiring. Identifiers and ISO timestamps come in as parameters.
 */
module Generator {
  import opened Wrappers
  import opened Contracts
  import opened Slices

  const MAX_EVENTS: nat := 2000

  datatype SimState = Idle | Running | Paused | Done

  /** One template of a scenario script; `at` is its offset from the scenario start. */
  datatype ScenarioEvent = ScenarioEvent(
    at: int,
    payload: Payload,
    source: string,
    target: Option<string>,
    thread: Option<string>,
    channel: Option<string>)

  datatype Scenario = Scenario(session: Session, events: seq<ScenarioEvent>)

  /** The timeline that a log of emissions (oldest first) produces: newest first, at most
      MAX_EVENTS entries. */
  function Newest(log: seq<Event>): seq<Event> {
    NewestFirst(log, MAX_EVENTS)
  }

  /** The offset of the template before `i`, or 0 for the first one. */
  function PrevAt(events: seq<ScenarioEvent>, i: nat): int
    requires i < |events|
  {
    if i == 0 then 0 else events[i - 1].at
  }

  /** The delay armed before emitting template `i`: `max(0, (at[i] - prevAt) / speed)`. */
  function Delay(events: seq<ScenarioEvent>, i: nat, speed: real): (d: real)
    requires i < |events| && speed > 0.0
    ensures d >= 0.0
    ensures d == 0.0 <==> events[i].at <= PrevAt(events, i)
    ensures d > 0.0 ==> d * speed == (events[i].at - PrevAt(events, i)) as real
  {
    var gap := (events[i].at - PrevAt(events, i)) as real / speed;
    if gap > 0.0 then gap else 0.0
  }

  /** Multiplying the speed by `f` divides every delay by `f` (speed 2 halves them). */
  lemma DelayScalesWithSpeed(events: seq<ScenarioEvent>, i: nat, speed: real, f: real)
    requires i < |events| && speed > 0.0 && f > 0.0
    ensures Delay(events, i, speed * f) * f == Delay(events, i, speed)
  {
    var gap := (events[i].at - PrevAt(events, i)) as real;
    assert gap / (speed * f) * f == gap / speed;
  }

  /** Offsets that never decrease and start at or after 0. */
  predicate Monotone(events: seq<ScenarioEvent>) {
    (|events| > 0 ==> events[0].at >= 0) &&
    forall i :: 0 < i < |events| ==> events[i - 1].at <= events[i].at
  }

  /** Time from the start until template `i` is emitted, at a constant speed. */
  function EmissionTime(events: seq<ScenarioEvent>, i: nat, speed: real): real
    requires i < |events| && speed > 0.0
  {
    if i == 0 then Delay(events, 0, speed) else EmissionTime(events, i - 1, speed) + Delay(events, i, speed)
  }

  /** With monotone offsets, template `i` is emitted exactly `at[i] / speed` after the start:
      the gaps add up to the offset, so the whole scenario takes `at[last] / speed`. */
  lemma {:induction false} EmissionTimeIsOffset(events: seq<ScenarioEvent>, i: nat, speed: real)
    requires i < |events| && speed > 0.0 && Monotone(events)
    ensures EmissionTime(events, i, speed) * speed == events[i].at as real
  {
    if i == 0 {
      DelayTimesSpeed(events, 0, speed);
    } else {
      EmissionTimeIsOffset(events, i - 1, speed);
      EmissionStep(events, i, speed);
    }
  }

  lemma EmissionStep(events: seq<ScenarioEvent>, i: nat, speed: real)
    requires 0 < i < |events| && speed > 0.0 && events[i - 1].at <= events[i].at
    requires EmissionTime(events, i - 1, speed) * speed == events[i - 1].at as real
    ensures EmissionTime(events, i, speed) * speed == events[i].at as real
  {
    DelayTimesSpeed(events, i, speed);
    Distribute(EmissionTime(events, i - 1, speed), Delay(events, i, speed), speed);
  }

  /** Where offsets do not go backwards, the delay is exactly the gap scaled by the speed. */
  lemma DelayTimesSpeed(events: seq<ScenarioEvent>, i: nat, speed: real)
    requires i < |events| && speed > 0.0 && events[i].at >= PrevAt(events, i)
    ensures Delay(events, i, speed) * speed == (events[i].at - PrevAt(events, i)) as real
  {
    var d := Delay(events, i, speed);
    if d == 0.0 {
      assert d * speed == 0.0;
    }
  }

  lemma Distribute(a: real, b: real, c: real)
    ensures (a + b) * c == a * c + b * c
  {
  }

  /** JavaScript truthiness of an optional string: absent and empty are both falsy. */
  predicate Truthy(o: Option<string>) {
    o.Some? && o.value != ""
  }

  /** The emitted channel. The source writes
      `spec.channel ?? payload.type === 'agent/msg' ? payload.channel : undefined`, which
      JavaScript parses as `(spec.channel ?? type === 'agent/msg') ? payload.channel : undefined`. */
  function EventChannel(specChannel: Option<string>, payload: Payload): Option<string> {
    var test := if specChannel.Some? then Truthy(specChannel) else TypeTag(payload) == "agent/msg";
    if test then PayloadChannel(payload) else None
  }

  /** What the precedence means: the template's own channel only decides WHETHER the payload's
      channel is copied and is never emitted itself; without one, message payloads keep their
      channel and every other payload gets none. */
  lemma ChannelComesFromPayload(specChannel: Option<string>, payload: Payload)
    ensures EventChannel(specChannel, payload).Some? ==>
              EventChannel(specChannel, payload) == PayloadChannel(payload)
    ensures specChannel.None? ==>
              EventChannel(specChannel, payload) == (if payload.AgentMsg? then payload.channel else None)
    ensures Truthy(specChannel) ==> EventChannel(specChannel, payload) == PayloadChannel(payload)
    ensures specChannel == Some("") ==> EventChannel(specChannel, payload) == None
  {
    if specChannel.None? && TypeTag(payload) == "agent/msg" {
      assert payload.AgentMsg?;
    }
  }

  /** The event `emitEvent` builds from a template; `id` and `ts` stand for `makeId()` and the
      clock. */
  function EmittedEvent(spec: ScenarioEvent, sessionId: string, id: string, ts: string): Event {
    Event(id, ts, sessionId, KindFromPayload(spec.payload), Subtype(TypeTag(spec.payload)),
          spec.source, spec.target, EventChannel(spec.channel, spec.payload), spec.thread, spec.payload)
  }

  /** An emitted event's kind and subtype spell its payload's tag, and it carries the
      template's source, target, thread and payload unchanged. */
  lemma EmittedEventFaithful(spec: ScenarioEvent, sessionId: string, id: string, ts: string)
    ensures var e := EmittedEvent(spec, sessionId, id, ts);
      && KindName(e.kind) + "/" + e.subtype == TypeTag(spec.payload)
      && e.payload == spec.payload && e.source == spec.source
      && e.target == spec.target && e.thread == spec.thread
      && e.sessionId == sessionId && e.id == id && e.ts == ts
  {
    KindAndSubtypeRebuildTag(spec.payload);
  }

  /** Bytes an emission adds to `ioBytes`: the declared length of a `pty/io` payload, else 0. */
  function IoBytes(p: Payload): int {
    if p.PtyIo? then p.len else 0
  }

  /** The session after an emission: the current session (or the scenario's, when none is
      published yet) with `lastEventAt` set and fresh statistics. */
  function EmitSession(meta: Option<Session>, fallback: Session, ts: string, p: Payload): (s: Session)
    ensures s.stats.eventCount == (if meta.Some? then meta.value.stats.eventCount else 0) + 1
    ensures p.PtyIo? ==> s.stats.ioBytes == (if meta.Some? then meta.value.stats.ioBytes else 0) + p.len
    ensures !p.PtyIo? ==> s.stats.ioBytes == (if meta.Some? then meta.value.stats.ioBytes else 0)
    ensures s.lastEventAt == Some(ts)
    ensures s.(stats := meta.GetOr(fallback).stats, lastEventAt := meta.GetOr(fallback).lastEventAt)
            == meta.GetOr(fallback)
  {
    var base := meta.GetOr(fallback);
    var count := if meta.Some? then meta.value.stats.eventCount else 0;
    var bytes := if meta.Some? then meta.value.stats.ioBytes else 0;
    base.(lastEventAt := Some(ts), stats := Stats(count + 1, bytes + IoBytes(p), None))
  }

  /** Total `pty/io` bytes declared by a run of templates. */
  function TotalIoBytes(events: seq<ScenarioEvent>): int {
    if events == [] then 0 else TotalIoBytes(events[..|events| - 1]) + IoBytes(events[|events| - 1].payload)
  }

  /** Statistics after emitting `events` in order, starting from `stats`. */
  function StatsAfter(stats: Stats, events: seq<ScenarioEvent>): Stats {
    if events == [] then stats
    else
      var before := StatsAfter(stats, events[..|events| - 1]);
      Stats(before.eventCount + 1, before.ioBytes + IoBytes(events[|events| - 1].payload), None)
  }

  /** After a run of emissions `eventCount` grew by the number of events and `ioBytes` by the
      declared bytes of the `pty/io` payloads among them, and by nothing for the others. */
  lemma {:induction false} StatsAfterCounts(stats: Stats, events: seq<ScenarioEvent>)
    ensures StatsAfter(stats, events).eventCount == stats.eventCount + |events|
    ensures StatsAfter(stats, events).ioBytes == stats.ioBytes + TotalIoBytes(events)
  {
    if events != [] {
      StatsAfterCounts(stats, events[..|events| - 1]);
    }
  }

  /** The built-in demonstration scenario; the session id and start time come from the clock. */
  function DefaultScenario(sessionId: string, startedAt: string): Scenario {
    Scenario(
      Session(sessionId, startedAt, None, "relay-pty demo", ["demo", "simulated"],
              ["daemon", "relay-pty", "Agent-A"], Stats(0, 0, None), None),
      [ ScenarioEvent(0, PtyOpen("pty-1", "npm test", "/workspace", None), "daemon", None, None, None),
        ScenarioEvent(80, DaemonStatus("relay", Ok, None), "daemon", None, None, None),
        ScenarioEvent(140, AgentMsg("Agent connected to PTY", None, None, None, Some("#general"), None, None, None),
                      "Agent-A", Some("#general"), None, None),
        ScenarioEvent(220, PtyIo("pty-1", Stdout, "Running tests...\n", 16), "pty-1", None, None, None),
        ScenarioEvent(320, PtyIo("pty-1", Stdout, "PASS  api/routes.spec.ts\n", 27), "pty-1", None, None, None),
        ScenarioEvent(420, AgentMsg("Tests green ✅", None, None, None, Some("#general"), None, None, None),
                      "Agent-A", Some("#general"), None, None),
        ScenarioEvent(520, DaemonStatus("relay", Warn, Some("Intermittent latency spike")), "daemon", None, None, None),
        ScenarioEvent(680, PtyExit("pty-1", 0, None), "daemon", None, None, None) ])
  }

  /** The default script is monotone, so at speed 1 its last template fires 680 ms after the
      start. */
  lemma DefaultScenarioTiming(sessionId: string, startedAt: string)
    ensures var sc := DefaultScenario(sessionId, startedAt);
      && |sc.events| == 8 && Monotone(sc.events)
      && EmissionTime(sc.events, 7, 1.0) == 680.0
  {
    var sc := DefaultScenario(sessionId, startedAt);
    EmissionTimeIsOffset(sc.events, 7, 1.0);
  }

  /** A complete run of the default script reports 8 events and 43 `pty/io` bytes. */
  lemma DefaultScenarioStats(sessionId: string, startedAt: string)
    ensures var sc := DefaultScenario(sessionId, startedAt);
      && StatsAfter(sc.session.stats, sc.events).eventCount == 8
      && StatsAfter(sc.session.stats, sc.events).ioBytes == 43
  {
    var sc := DefaultScenario(sessionId, startedAt);
    StatsAfterCounts(sc.session.stats, sc.events);
    var ev := sc.events;
    assert ev[..1][..0] == [];
    assert TotalIoBytes(ev[..1]) == 0;
    assert ev[..2][..1] == ev[..1];
    assert TotalIoBytes(ev[..2]) == 0;
    assert ev[..3][..2] == ev[..2];
    assert TotalIoBytes(ev[..3]) == 0;
    assert ev[..4][..3] == ev[..3];
    assert TotalIoBytes(ev[..4]) == 16;
    assert ev[..5][..4] == ev[..4];
    assert TotalIoBytes(ev[..5]) == 43;
    assert ev[..6][..5] == ev[..5];
    assert TotalIoBytes(ev[..6]) == 43;
    assert ev[..7][..6] == ev[..6];
    assert TotalIoBytes(ev[..7]) == 43;
    assert ev[..7] == ev[..|ev| - 1];
  }

  class Player {
    var timeline: seq<Event>
    var session: Option<Session>
    var state: SimState
    var speed: real
    var scenario: Scenario
    /** Index of the next template to emit. */
    var pointer: nat
    /** Whether a timer is armed, and the delay it was armed with. */
    var pending: bool
    var pendingDelay: real
    /** Every event emitted since the last start, oldest first. */
    ghost var log: seq<Event>
    /** The templates emitted since the cursor was last reset by a start or a stop. */
    ghost var played: seq<ScenarioEvent>

    ghost predicate Valid()
      reads this
    {
      && Recorded()
      && (pending <==> state == Running)
      && (pending ==> pointer < |scenario.events|)
      && (state == Done ==> pointer == |scenario.events|)
    }

    /** The part of the invariant about what has been emitted: the cursor has played a prefix
        of the script and the timeline is the newest window of the log. */
    ghost predicate Recorded()
      reads this
    {
      && speed > 0.0
      && pointer <= |scenario.events|
      && played == scenario.events[..pointer]
      && timeline == Newest(log)
    }

    /** The module's initial state. The default scenario is built at load time, with the session
      * id and start time the clock gives then. */
    constructor (sessionId: string, startedAt: string)
      ensures Valid()
      ensures timeline == [] && session == None && state == Idle && speed == 1.0
      ensures scenario == DefaultScenario(sessionId, startedAt)
      ensures pointer == 0 && !pending && log == [] && played == []
    {
      timeline, session, state, speed := [], None, Idle, 1.0;
      scenario, pointer, pending, pendingDelay := DefaultScenario(sessionId, startedAt), 0, false, 0.0;
      log, played := [], [];
    }

    /** Arms the timer for the template at the cursor, or finishes when there is none. */
    method ScheduleNext()
      requires speed > 0.0 && pointer <= |scenario.events|
      modifies this`state, this`pending, this`pendingDelay
      ensures pointer == |scenario.events| ==> state == Done && !pending && pendingDelay == old(pendingDelay)
      ensures pointer < |scenario.events| ==>
        pending && state == old(state) && pendingDelay == Delay(scenario.events, pointer, speed)
    {
      if pointer >= |scenario.events| {
        state := Done;
        pending := false;
        return;
      }
      pendingDelay := Delay(scenario.events, pointer, speed);
      pending := true;
    }

    /** The armed timer expires: emit the template at the cursor, advance, and re-arm. */
    method Fire(id: string, ts: string)
      requires Valid() && pending
      modifies this`timeline, this`session, this`pointer, this`state, this`pending, this`pendingDelay,
               this`log, this`played
      ensures Valid()
      ensures var spec := old(scenario.events[pointer]);
              var e := EmittedEvent(spec, scenario.session.id, id, ts);
              && pointer == old(pointer) + 1
              && played == old(played) + [spec]
              && log == old(log) + [e]
              && timeline == Truncate([e] + old(timeline), MAX_EVENTS)
              && session == Some(EmitSession(old(session), scenario.session, ts, spec.payload))
      ensures pointer < |scenario.events| ==>
        pending && state == Running && pendingDelay == Delay(scenario.events, pointer, speed)
      ensures pointer == |scenario.events| ==> !pending && state == Done
    {
      Emit(id, ts);
      ScheduleNext();
    }

    /** Emits the template at the cursor and advances the cursor. */
    method Emit(id: string, ts: string)
      requires Recorded() && pointer < |scenario.events|
      modifies this`timeline, this`session, this`pointer, this`log, this`played
      ensures Recorded()
      ensures var spec := old(scenario.events[pointer]);
              var e := EmittedEvent(spec, scenario.session.id, id, ts);
              && pointer == old(pointer) + 1
              && played == old(played) + [spec]
              && log == old(log) + [e]
              && timeline == Truncate([e] + old(timeline), MAX_EVENTS)
              && session == Some(EmitSession(old(session), scenario.session, ts, spec.payload))
    {
      var spec := scenario.events[pointer];
      TakeSnoc(scenario.events, pointer);
      Record(EmittedEvent(spec, scenario.session.id, id, ts));
      session := Some(EmitSession(session, scenario.session, ts, spec.payload));
      pointer := pointer + 1;
      played := played + [spec];
    }

    /** Logs an emitted event and puts it on the front of the capped timeline. */
    method Record(e: Event)
      requires timeline == Newest(log)
      modifies this`timeline, this`log
      ensures log == old(log) + [e] && timeline == Truncate([e] + old(timeline), MAX_EVENTS)
      ensures timeline == Newest(log)
    {
      PrependKeepsWindow(log, e, MAX_EVENTS);
      timeline := Truncate([e] + timeline, MAX_EVENTS);
      log := log + [e];
    }

    /** Cancels the timer and rewinds the cursor; the timeline and session are kept, and
      * calling it again changes nothing further. */
    method Stop()
      requires Valid()
      modifies this`pending, this`pointer, this`state, this`played
      ensures Valid()
      ensures !pending && pointer == 0 && state == Idle && played == []
    {
      pending := false;
      pointer := 0;
      state := Idle;
      played := [];
    }

    /** Cancels the timer and keeps the cursor; a no-op when no timer is armed. */
    method Pause()
      requires Valid()
      modifies this`pending, this`state
      ensures Valid()
      ensures old(pending) ==> !pending && state == Paused
      ensures !old(pending) ==> !pending && state == old(state)
    {
      if !pending {
        return;
      }
      pending := false;
      state := Paused;
    }

    /** Re-arms the timer at the cursor unless a timer is armed, the player is running, or
      * the cursor is past the last template. After a stop this replays from the first
      * template without clearing the timeline. */
    method Resume()
      requires Valid()
      modifies this`pending, this`state, this`pendingDelay
      ensures Valid()
      ensures old(pending) || old(state) == Running || pointer >= |scenario.events| ==>
        pending == old(pending) && state == old(state) && pendingDelay == old(pendingDelay)
      ensures !(old(pending) || old(state) == Running || pointer >= |scenario.events|) ==>
        pending && state == Running && pendingDelay == Delay(scenario.events, pointer, speed)
    {
      if pending || state == Running || pointer >= |scenario.events| {
        return;
      }
      state := Running;
      ScheduleNext();
    }

    /** Stops, installs the scenario (the given one, else a freshly built default whose session
      * id and start time the clock gives now), clears the timeline, publishes the scenario's
      * session and starts playing. A zero speed option is ignored, as JavaScript's truthiness
      * test does. */
    method Start(opts: Option<Scenario>, speedOpt: Option<real>, sessionId: string, startedAt: string)
      requires Valid()
      requires speedOpt.Some? ==> speedOpt.value >= 0.0
      modifies this
      ensures Valid()
      ensures scenario == opts.GetOr(DefaultScenario(sessionId, startedAt))
      ensures speed == (if speedOpt.Some? && speedOpt.value != 0.0 then speedOpt.value else old(speed))
      ensures pointer == 0 && timeline == [] && log == [] && played == []
      ensures session == Some(scenario.session)
      ensures |scenario.events| > 0 ==>
        state == Running && pending && pendingDelay == Delay(scenario.events, 0, speed)
      ensures |scenario.events| == 0 ==> state == Done && !pending
    {
      Stop();
      pointer := 0;
      if speedOpt.Some? && speedOpt.value != 0.0 {
        speed := speedOpt.value;
      }
      scenario := opts.GetOr(DefaultScenario(sessionId, startedAt));
      timeline := [];
      log := [];
      session := Some(scenario.session);
      state := Running;
      ScheduleNext();
    }

    /** The speed store is writable at any time; only the next armed delay sees it. */
    method SetSpeed(s: real)
      requires Valid() && s > 0.0
      modifies this`speed
      ensures Valid() && speed == s
    {
      speed := s;
    }

    /** The `latest` derived store: the most recent emission since the last start. */
    function Latest(): (r: Option<Event>)
      reads this
      requires Valid()
      ensures |log| == 0 ==> r == None
      ensures |log| > 0 ==> r == Some(log[|log| - 1])
    {
      if |timeline| == 0 then None else Some(timeline[0])
    }
  }
}
