/**
 * The event dispatcher: each incoming event is routed on its `kind/subtype` string to the
 * agents and messages stores, and the event counters are kept. The spawn and release
 * animations end in 300 ms and 200 ms callbacks; those are the `timers` list, and `FireTimer`
 * runs any one of them (callbacks of different delays may run in either order).
 */
module EventHandler {
  import opened Wrappers
  import opened Agents
  import Messages
  import Slices

  /** An event as the UI receives it; payload fields are strings, absent keys are `undefined`. */
  datatype BaseEvent = BaseEvent(
    id: string,
    ts: int,
    sessionId: Option<string>,
    kind: string,
    subtype: string,
    source: string,
    target: Option<string>,
    payload: map<string, string>)

  datatype DaemonState = DaemonState(component: string, status: string, detail: Option<string>)

  const DEFAULT_DAEMON: DaemonState := DaemonState("daemon", "online", None)

  datatype EventStats = EventStats(
    totalEvents: nat,
    agentSpawns: nat,
    agentReleases: nat,
    messagesSent: nat,
    errors: nat)

  const ZERO_STATS: EventStats := EventStats(0, 0, 0, 0, 0)

  /** A pending animation callback. */
  datatype Timer = Activate(agentId: string) | Remove(agentId: string)

  // ----- role and status parsing -----

  function RoleName(r: Role): string {
    match r
    case Lead => "lead"
    case Worker => "worker"
    case Architect => "architect"
    case Researcher => "researcher"
    case Devops => "devops"
    case Default => "default"
  }

  /** `parseRole`: a known role name maps to itself, anything else to `default`. */
  function ParseRole(s: string): Role {
    if s == "lead" then Lead
    else if s == "worker" then Worker
    else if s == "architect" then Architect
    else if s == "researcher" then Researcher
    else if s == "devops" then Devops
    else Default
  }

  /** Parsing a role's own name gives the role back, and a parse that does not fall back
      returns a role whose name is the input. */
  lemma ParseRoleRoundTrip(r: Role, s: string)
    ensures ParseRole(RoleName(r)) == r
    ensures ParseRole(s) != Default ==> RoleName(ParseRole(s)) == s
    ensures ParseRole(s) == Default <==>
      s != "lead" && s != "worker" && s != "architect" && s != "researcher" && s != "devops"
  {
    match r
    case Lead =>
    case Worker =>
    case Architect =>
    case Researcher =>
    case Devops =>
    case Default =>
      assert RoleName(r)[0] == 'd';
  }

  function StatusName(s: Status): string {
    match s
    case Idle => "idle"
    case Active => "active"
    case Busy => "busy"
    case Error => "error"
    case Spawning => "spawning"
    case Releasing => "releasing"
  }

  /** `parseStatus`: a known status name maps to itself, anything else to `idle`. */
  function ParseStatus(s: string): Status {
    if s == "idle" then Idle
    else if s == "active" then Active
    else if s == "busy" then Busy
    else if s == "error" then Error
    else if s == "spawning" then Spawning
    else if s == "releasing" then Releasing
    else Idle
  }

  lemma ParseStatusRoundTrip(st: Status, s: string)
    ensures ParseStatus(StatusName(st)) == st
    ensures ParseStatus(s) != Idle ==> StatusName(ParseStatus(s)) == s
    ensures ParseStatus(s) == Idle <==>
      s != "active" && s != "busy" && s != "error" && s != "spawning" && s != "releasing"
  {
  }

  // ----- dispatch -----

  /** `payload[key] as string | undefined` */
  function Field(p: map<string, string>, key: string): Option<string> {
    if key in p then Some(p[key]) else None
  }

  /** `(payload[key] as string) || fallback`: absent and empty both fall back. */
  function FieldOr(p: map<string, string>, key: string, fallback: string): string {
    if key in p && p[key] != "" then p[key] else fallback
  }

  function EventType(e: BaseEvent): string {
    e.kind + "/" + e.subtype
  }

  datatype Action = SpawnAction | ReleaseAction | StateAction | MessageAction | DaemonAction | PtyAction | Ignored

  /** The `switch` on the event type. */
  function Dispatch(eventType: string): Action {
    if eventType == "agent/spawn" then SpawnAction
    else if eventType == "agent/release" then ReleaseAction
    else if eventType == "agent/state" then StateAction
    else if eventType == "agent/msg" || eventType == "message/send" then MessageAction
    else if eventType == "daemon/status" then DaemonAction
    else if eventType == "pty/open" || eventType == "pty/io" || eventType == "pty/exit" then PtyAction
    else Ignored
  }

  /** Membership changes have no handler case. */
  lemma SystemStateIsIgnored()
    ensures Dispatch("system/state") == Ignored
  {
    assert "system/state"[0] == 's';
  }

  /** A message event only sends when it has a non-empty target. */
  predicate SendsMessage(e: BaseEvent) {
    Dispatch(EventType(e)) == MessageAction && e.target.Some? && e.target.value != ""
  }

  /** The message a sending event hands to the messages store. */
  function OutgoingOf(e: BaseEvent): Messages.Outgoing
    requires e.target.Some?
  {
    var content := FieldOr(e.payload, "body", FieldOr(e.payload, "text", FieldOr(e.payload, "content", "")));
    Messages.Outgoing(e.id, e.source, e.target.value, content, Field(e.payload, "channel"), Field(e.payload, "thread"))
  }

  /** The agent a spawn event creates, before its spawn time is stamped. */
  function SpawnSpec(e: BaseEvent, x: real, y: real): AgentSpec {
    AgentSpec(e.source, FieldOr(e.payload, "name", e.source), ParseRole(FieldOr(e.payload, "role", "worker")),
              Spawning, x, y, Field(e.payload, "spawnedBy"))
  }

  /** `updateAgentStatus` on the map. */
  function StatusSet(m: map<string, Agent>, id: string, st: Status): map<string, Agent> {
    if id in m then m[id := m[id].(status := st)] else m
  }

  /** The agents map after an event. */
  function AgentsAfter(m: map<string, Agent>, e: BaseEvent, now: int, x: real, y: real): map<string, Agent> {
    match Dispatch(EventType(e))
    case SpawnAction => m[e.source := Stamp(SpawnSpec(e, x, y), now)]
    case ReleaseAction => StatusSet(m, e.source, Releasing)
    case StateAction => StatusSet(m, e.source, ParseStatus(FieldOr(e.payload, "status", "idle")))
    case PtyAction => StatusSet(m, e.source, if e.subtype == "exit" then Idle else Busy)
    case _ => m
  }

  /** An event touches at most the agent named by its source, keeps every entry filed under its
      own id, and only a spawn can change the per-role counts. */
  lemma AgentsAfterTouchesOnlySource(m: map<string, Agent>, e: BaseEvent, now: int, x: real, y: real)
    requires KeyedById(m)
    ensures var m' := AgentsAfter(m, e, now, x, y);
      && KeyedById(m')
      && (forall k :: k != e.source ==> (k in m' <==> k in m))
      && (forall k :: k != e.source && k in m ==> m'[k] == m[k])
      && (Dispatch(EventType(e)) != SpawnAction ==> m'.Keys == m.Keys)
      && (Dispatch(EventType(e)) != SpawnAction ==> forall r :: CountRole(m', r) == CountRole(m, r))
  {
    var m' := AgentsAfter(m, e, now, x, y);
    if Dispatch(EventType(e)) != SpawnAction && e.source in m {
      forall r
        ensures CountRole(m', r) == CountRole(m, r)
      {
        if m' != m {
          RecordUpdateKeepsRoleCounts(m, e.source, m'[e.source], r);
        }
      }
    }
  }

  /** The counters after an event. */
  function StatsAfter(s: EventStats, e: BaseEvent): EventStats {
    var a := Dispatch(EventType(e));
    s.(totalEvents := s.totalEvents + 1,
       agentSpawns := s.agentSpawns + (if a == SpawnAction then 1 else 0),
       agentReleases := s.agentReleases + (if a == ReleaseAction then 1 else 0),
       messagesSent := s.messagesSent + (if SendsMessage(e) then 1 else 0))
  }

  function StatsAfterAll(s: EventStats, es: seq<BaseEvent>): EventStats {
    if es == [] then s else StatsAfter(StatsAfterAll(s, es[..|es| - 1]), es[|es| - 1])
  }

  function CountSends(es: seq<BaseEvent>): nat {
    if es == [] then 0 else CountSends(es[..|es| - 1]) + (if SendsMessage(es[|es| - 1]) then 1 else 0)
  }

  /** Over any run of events `totalEvents` counts every event, `errors` never moves, and
      `messagesSent` counts exactly the events that sent a message; the specific counters
      never exceed the total. */
  lemma {:induction false} StatsAfterAllCounts(es: seq<BaseEvent>)
    ensures StatsAfterAll(ZERO_STATS, es).totalEvents == |es|
    ensures StatsAfterAll(ZERO_STATS, es).errors == 0
    ensures StatsAfterAll(ZERO_STATS, es).messagesSent == CountSends(es)
    ensures var s := StatsAfterAll(ZERO_STATS, es);
      s.agentSpawns + s.agentReleases + s.messagesSent <= s.totalEvents
  {
    if es != [] {
      StatsAfterAllCounts(es[..|es| - 1]);
    }
  }

  function DaemonFrom(e: BaseEvent): DaemonState {
    DaemonState(FieldOr(e.payload, "component", "daemon"), FieldOr(e.payload, "status", "online"),
                Field(e.payload, "detail"))
  }

  /** The animation callbacks an event arms. */
  function TimersFor(e: BaseEvent): seq<Timer> {
    match Dispatch(EventType(e))
    case SpawnAction => [Activate(e.source)]
    case ReleaseAction => [Remove(e.source)]
    case _ => []
  }

  class Handler {
    const agentStore: AgentStore
    const messageStore: Messages.MessageStore
    var stats: EventStats
    var agentIndex: nat
    var daemon: DaemonState
    var timers: seq<Timer>

    ghost predicate Valid()
      reads this, agentStore, messageStore
    {
      agentStore.Valid() && messageStore.Valid()
    }

    constructor ()
      ensures Valid() && fresh(agentStore) && fresh(messageStore)
      ensures agentStore.agents == map[] && messageStore.messages == []
      ensures stats == ZERO_STATS && agentIndex == 0 && daemon == DEFAULT_DAEMON && timers == []
    {
      agentStore := new AgentStore();
      messageStore := new Messages.MessageStore();
      stats, agentIndex, daemon, timers := ZERO_STATS, 0, DEFAULT_DAEMON, [];
    }

    /** `handleEvent`; `now` is the clock and `(x, y)` the next layout slot. */
    method Handle(e: BaseEvent, now: int, x: real, y: real)
      requires Valid()
      modifies this, agentStore, messageStore
      ensures Valid()
      ensures stats == StatsAfter(old(stats), e)
      ensures agentStore.agents == AgentsAfter(old(agentStore.agents), e, now, x, y)
      ensures agentIndex == old(agentIndex) + (if Dispatch(EventType(e)) == SpawnAction then 1 else 0)
      ensures daemon == if Dispatch(EventType(e)) == DaemonAction then DaemonFrom(e) else old(daemon)
      ensures timers == old(timers) + TimersFor(e)
      ensures SendsMessage(e) ==>
        && messageStore.messages == Slices.Last(old(messageStore.messages) + [Messages.Stamped(OutgoingOf(e), now)],
                                                  Messages.MAX_MESSAGES)
        && messageStore.connections == Messages.Bumped(old(messageStore.connections), OutgoingOf(e), now)
        && messageStore.inFlight == old(messageStore.inFlight) + {Messages.ConnectionId(e.source, e.target.value)}
        && messageStore.deliveries == old(messageStore.deliveries) + [Messages.Delivery(Messages.ConnectionId(e.source, e.target.value), e.id)]
      ensures !SendsMessage(e) ==> unchanged(messageStore)
    {
      stats := stats.(totalEvents := stats.totalEvents + 1);
      var eventType := EventType(e);
      match Dispatch(eventType)
      case SpawnAction =>
        agentIndex := agentIndex + 1;
        agentStore.Spawn(SpawnSpec(e, x, y), now);
        stats := stats.(agentSpawns := stats.agentSpawns + 1);
        timers := timers + [Activate(e.source)];
      case ReleaseAction =>
        agentStore.UpdateStatus(e.source, Releasing);
        stats := stats.(agentReleases := stats.agentReleases + 1);
        timers := timers + [Remove(e.source)];
      case StateAction =>
        agentStore.UpdateStatus(e.source, ParseStatus(FieldOr(e.payload, "status", "idle")));
      case MessageAction =>
        if e.target.Some? && e.target.value != "" {
          messageStore.Send(OutgoingOf(e), now);
          stats := stats.(messagesSent := stats.messagesSent + 1);
        }
      case DaemonAction =>
        daemon := DaemonFrom(e);
      case PtyAction =>
        agentStore.UpdateStatus(e.source, if e.subtype == "exit" then Idle else Busy);
      case Ignored =>
    }

    /** One pending animation callback runs: a spawn's activates the agent, a release's
        removes it; either is a no-op on an agent that is gone. */
    method FireTimer(k: nat)
      requires Valid() && k < |timers|
      modifies this, agentStore
      ensures Valid()
      ensures timers == old(timers[..k] + timers[k + 1..])
      ensures old(timers[k]).Activate? ==>
        agentStore.agents == StatusSet(old(agentStore.agents), old(timers[k]).agentId, Active)
      ensures old(timers[k]).Remove? ==>
        agentStore.agents == old(agentStore.agents) - {old(timers[k]).agentId}
      ensures stats == old(stats) && agentIndex == old(agentIndex) && daemon == old(daemon)
    {
      var t := timers[k];
      timers := timers[..k] + timers[k + 1..];
      match t
      case Activate(id) => agentStore.UpdateStatus(id, Active);
      case Remove(id) => agentStore.Release(id);
    }

    /** `resetStores`: already armed callbacks stay armed. */
    method Reset()
      requires Valid()
      modifies this, agentStore, messageStore
      ensures Valid()
      ensures agentStore.agents == map[]
      ensures messageStore.messages == [] && messageStore.connections == map[] && messageStore.inFlight == {}
      ensures messageStore.deliveries == old(messageStore.deliveries)
      ensures agentIndex == 0 && stats == ZERO_STATS && daemon == DEFAULT_DAEMON && timers == old(timers)
    {
      agentStore.Clear();
      messageStore.Clear();
      agentIndex := 0;
      stats := ZERO_STATS;
      daemon := DEFAULT_DAEMON;
    }
  }
}
