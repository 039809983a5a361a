/**
 * The shared event vocabulary of the relay-pty visualisation: the closed union of
 * payload variants, the five event kinds, the prefix classifier that derives a kind
 * from a payload's type tag, and the event and session records built from them.
 */
module Contracts {
  import opened Wrappers

  datatype EventKind = Pty | Agent | Daemon | Relay | System

  /** The string spelling of a kind, as it appears before the `/` of a type tag. */
  function KindName(k: EventKind): string {
    match k
    case Pty => "pty"
    case Agent => "agent"
    case Daemon => "daemon"
    case Relay => "relay"
    case System => "system"
  }

  datatype IoStream = Stdout | Stdin
  datatype HealthLevel = Ok | Warn | Error
  datatype MemberAction = Join | Leave

  /** The closed tagged union of payloads; each constructor is one `type` literal. */
  datatype Payload =
    | PtyOpen(ptyId: string, cmd: string, cwd: string, env: Option<seq<string>>)
    | PtyIo(ptyId: string, stream: IoStream, data: string, len: int)
    | PtyExit(ptyId: string, code: int, signal: Option<string>)
    | AgentMsg(body: string, text: Option<string>, isBroadcast: Option<bool>, isUrgent: Option<bool>,
               channel: Option<string>, thread: Option<string>, from: Option<string>, to: Option<string>)
    | DaemonStatus(component: string, status: HealthLevel, detail: Option<string>)
    | RelaySpawn(name: string, cli: string)
    | RelayRelease(name: string, reason: Option<string>)
    | SystemState(action: MemberAction, member: string, channel: Option<string>)

  /** The payload's `type` field. */
  function TypeTag(p: Payload): string {
    match p
    case PtyOpen(_, _, _, _) => "pty/open"
    case PtyIo(_, _, _, _) => "pty/io"
    case PtyExit(_, _, _) => "pty/exit"
    case AgentMsg(_, _, _, _, _, _, _, _) => "agent/msg"
    case DaemonStatus(_, _, _) => "daemon/status"
    case RelaySpawn(_, _) => "relay/spawn"
    case RelayRelease(_, _) => "relay/release"
    case SystemState(_, _, _) => "system/state"
  }

  /** `(payload as any).channel`: only the message and membership payloads carry one. */
  function PayloadChannel(p: Payload): Option<string> {
    match p
    case AgentMsg(_, _, _, _, c, _, _, _) => c
    case SystemState(_, _, c) => c
    case _ => None
  }

  /** `s.startsWith(prefix)` */
  predicate StartsWith(s: string, prefix: string) {
    |prefix| <= |s| && s[..|prefix|] == prefix
  }

  lemma StartsWithHead(s: string, prefix: string)
    requires StartsWith(s, prefix) && |prefix| > 0
    ensures s[0] == prefix[0]
  {
    assert s[..|prefix|][0] == s[0];
  }

  /** `kindFromPayload`, stated on the tag string: a chain of prefix tests. */
  function ClassifyTag(t: string): EventKind {
    if StartsWith(t, "pty/") then Pty
    else if StartsWith(t, "agent/") then Agent
    else if StartsWith(t, "daemon/") then Daemon
    else if StartsWith(t, "relay/") then Relay
    else System
  }

  function KindFromPayload(p: Payload): EventKind {
    ClassifyTag(TypeTag(p))
  }

  /** Each of the four recognised prefixes selects its kind, in both directions, and every
      other tag falls back to `system`; the first letters differ, so the order of the tests
      does not matter. */
  lemma ClassifyTagByPrefix(t: string)
    ensures ClassifyTag(t) == Pty <==> StartsWith(t, "pty/")
    ensures ClassifyTag(t) == Agent <==> StartsWith(t, "agent/")
    ensures ClassifyTag(t) == Daemon <==> StartsWith(t, "daemon/")
    ensures ClassifyTag(t) == Relay <==> StartsWith(t, "relay/")
    ensures ClassifyTag(t) == System <==>
      !StartsWith(t, "pty/") && !StartsWith(t, "agent/") && !StartsWith(t, "daemon/") && !StartsWith(t, "relay/")
  {
    if StartsWith(t, "pty/") { StartsWithHead(t, "pty/"); }
    if StartsWith(t, "agent/") { StartsWithHead(t, "agent/"); }
    if StartsWith(t, "daemon/") { StartsWithHead(t, "daemon/"); }
    if StartsWith(t, "relay/") { StartsWithHead(t, "relay/"); }
  }

  /** Index of the first occurrence of `c` in `s`. */
  function IndexOf(s: string, c: char): (i: nat)
    requires c in s
    ensures i < |s| && s[i] == c && c !in s[..i]
  {
    if s[0] == c then 0
    else
      var j := IndexOf(s[1..], c);
      assert s[..j + 1] == [s[0]] + s[1..][..j];
      j + 1
  }

  /** `parts.join(sep)` */
  function JoinParts(parts: seq<string>, sep: char): string {
    if |parts| == 0 then ""
    else if |parts| == 1 then parts[0]
    else parts[0] + [sep] + JoinParts(parts[1..], sep)
  }

  /** JavaScript's `s.split(sep)` for a one-character separator: the maximal pieces between
      separators, always at least one (the empty string splits into `[""]`). */
  function Split(s: string, sep: char): (parts: seq<string>)
    ensures |parts| >= 1
    ensures |parts| == 1 <==> sep !in s
    ensures forall k :: 0 <= k < |parts| ==> sep !in parts[k]
    ensures JoinParts(parts, sep) == s
    decreases |s|
  {
    if sep !in s then [s]
    else
      var i := IndexOf(s, sep);
      var rest := Split(s[i + 1..], sep);
      assert s == s[..i] + [sep] + s[i + 1..];
      [s[..i]] + rest
  }

  /** Splitting undoes joining when no piece contains the separator. */
  lemma {:induction false} SplitJoin(parts: seq<string>, sep: char)
    requires |parts| >= 1
    requires forall k :: 0 <= k < |parts| ==> sep !in parts[k]
    ensures Split(JoinParts(parts, sep), sep) == parts
  {
    if |parts| > 1 {
      SplitJoin(parts[1..], sep);
      var s := JoinParts(parts, sep);
      var rest := JoinParts(parts[1..], sep);
      assert s == parts[0] + [sep] + rest;
      assert s[|parts[0]|] == sep;
      assert s[..|parts[0]|] == parts[0];
      assert IndexOf(s, sep) == |parts[0]|;
      assert s[|parts[0]| + 1..] == rest;
    }
  }

  /** The segment after the first `/` (up to the next one), or the whole tag when it has no
      `/`: `type.split('/')[1] ?? type`. */
  function Subtype(t: string): string {
    var parts := Split(t, '/');
    if |parts| > 1 then parts[1] else t
  }

  /** Kind and subtype together rebuild the tag of every payload variant:
      `kind + "/" + subtype == payload.type`, so the kind is the tag's prefix before `/`. */
  lemma KindAndSubtypeRebuildTag(p: Payload)
    ensures KindName(KindFromPayload(p)) + "/" + Subtype(TypeTag(p)) == TypeTag(p)
  {
    if p.PtyOpen? || p.PtyIo? || p.PtyExit? || p.AgentMsg? {
      RebuildPtyOrAgent(p);
    } else {
      RebuildOthers(p);
    }
  }

  lemma RebuildPtyOrAgent(p: Payload)
    requires p.PtyOpen? || p.PtyIo? || p.PtyExit? || p.AgentMsg?
    ensures KindName(KindFromPayload(p)) + "/" + Subtype(TypeTag(p)) == TypeTag(p)
  {
    match p
    case PtyOpen(_, _, _, _) => RebuildFrom(p, Pty, "open");
    case PtyIo(_, _, _, _) => RebuildFrom(p, Pty, "io");
    case PtyExit(_, _, _) => RebuildFrom(p, Pty, "exit");
    case AgentMsg(_, _, _, _, _, _, _, _) => RebuildFrom(p, Agent, "msg");
  }

  lemma RebuildOthers(p: Payload)
    requires !(p.PtyOpen? || p.PtyIo? || p.PtyExit? || p.AgentMsg?)
    ensures KindName(KindFromPayload(p)) + "/" + Subtype(TypeTag(p)) == TypeTag(p)
  {
    match p
    case DaemonStatus(_, _, _) => RebuildFrom(p, Daemon, "status");
    case RelaySpawn(_, _) => RebuildFrom(p, Relay, "spawn");
    case RelayRelease(_, _) => RebuildFrom(p, Relay, "release");
    case SystemState(_, _, _) => RebuildFrom(p, System, "state");
  }

  lemma RebuildFrom(p: Payload, k: EventKind, sub: string)
    requires TypeTag(p) == KindName(k) + "/" + sub && '/' !in sub
    ensures KindName(KindFromPayload(p)) + "/" + Subtype(TypeTag(p)) == TypeTag(p)
  {
    TagOfKind(k, sub);
  }

  /** A tag spelled `<kind>/<sub>` classifies as that kind and has subtype `sub`. */
  lemma TagOfKind(k: EventKind, sub: string)
    requires '/' !in sub
    ensures ClassifyTag(KindName(k) + "/" + sub) == k
    ensures Subtype(KindName(k) + "/" + sub) == sub
  {
    var name := KindName(k);
    var t := name + "/" + sub;
    assert t[..|name| + 1] == name + "/";
    assert t[0] == name[0];
    ClassifyTagByPrefix(t);
    SplitJoin([name, sub], '/');
    assert JoinParts([name, sub], '/') == t;
  }

  /** Every message payload is an `agent` event of subtype `msg`. */
  lemma AgentMsgClassified(p: Payload)
    requires p.AgentMsg?
    ensures KindFromPayload(p) == Agent && Subtype(TypeTag(p)) == "msg"
  {
    TagOfKind(Agent, "msg");
    assert KindName(Agent) + "/" + "msg" == TypeTag(p);
  }

  datatype Stats = Stats(eventCount: int, ioBytes: int, errorCount: Option<int>)

  datatype Session = Session(
    id: string,
    startedAt: string,
    endedAt: Option<string>,
    command: string,
    tags: seq<string>,
    agents: seq<string>,
    stats: Stats,
    lastEventAt: Option<string>)

  /** An emitted event; `kind` and `subtype` are always derived from `payload`. */
  datatype Event = Event(
    id: string,
    ts: string,
    sessionId: string,
    kind: EventKind,
    subtype: string,
    source: string,
    target: Option<string>,
    channel: Option<string>,
    thread: Option<string>,
    payload: Payload)
}
