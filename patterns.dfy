/**
 * The connection topology of the swarm patterns: each frame, a pattern's `update` walks the
 * agents array and rewrites every agent's `connections` in place. Only who connects to whom is
 * modelled here; positions and velocities are not, and the distance tests the consensus pattern
 * makes are an input `near(i, j)`.
 */
module Patterns {
  import opened Wrappers
  import opened Slices

  datatype SwarmRole = Lead | Worker | Coordinator | Specialist

  /** An agent of the swarm, reduced to what the topology reads and writes. */
  datatype SwarmAgent = SwarmAgent(id: string, role: SwarmRole, connections: seq<string>)

  function Ids(s: seq<SwarmAgent>): (ids: seq<string>)
    ensures |ids| == |s| && forall i :: 0 <= i < |s| ==> ids[i] == s[i].id
  {
    seq(|s|, i requires 0 <= i < |s| => s[i].id)
  }

  /** An update changes connections only. */
  ghost predicate SameAgents(s: seq<SwarmAgent>, t: seq<SwarmAgent>) {
    |s| == |t| && forall i :: 0 <= i < |s| ==> t[i].id == s[i].id && t[i].role == s[i].role
  }

  /** `ids.filter(x => x !== id)`: every other id, in order. */
  function OtherIds(ids: seq<string>, id: string): (r: seq<string>)
    ensures |r| <= |ids|
    ensures forall x :: x in r <==> x in ids && x != id
  {
    if ids == [] then []
    else
      var rest := OtherIds(ids[..|ids| - 1], id);
      var last := ids[|ids| - 1];
      assert ids == ids[..|ids| - 1] + [last];
      if last != id then rest + [last] else rest
  }

  // ----- hub and spoke -----

  /** `agents.find(a => a.role === 'lead')` */
  function FindLead(s: seq<SwarmAgent>): (r: Option<nat>)
    ensures r.Some? ==> (&& r.value < |s| && s[r.value].role == Lead
                         && forall j :: 0 <= j < r.value ==> s[j].role != Lead)
    ensures r.None? ==> forall j :: 0 <= j < |s| ==> s[j].role != Lead
  {
    if s == [] then None
    else if s[0].role == Lead then Some(0)
    else
      match FindLead(s[1..])
      case None => None
      case Some(i) => Some(i + 1)
  }

  /** The hub: the first lead, or the first agent when there is none. */
  function LeadIndex(s: seq<SwarmAgent>): (l: nat)
    requires |s| > 0
    ensures l < |s|
  {
    FindLead(s).GetOr(0)
  }

  /** The orbit a worker is placed on: six workers to a ring, the last ring holding the rest. */
  datatype OrbitSlot = OrbitSlot(orbitIndex: nat, positionInOrbit: nat, agentsInOrbit: int)

  const ORBIT_SIZE: nat := 6

  function SlotOf(index: nat, workers: nat): OrbitSlot {
    OrbitSlot(index / ORBIT_SIZE, index % ORBIT_SIZE, Min(ORBIT_SIZE, workers - ORBIT_SIZE * (index / ORBIT_SIZE)))
  }

  /** Every worker's position lies within its ring's population, so the angle offset
      `2*PI*position/agentsInOrbit` is well defined and distinct within the ring; and the slots
      of distinct workers differ. */
  lemma SlotInOrbit(index: nat, workers: nat)
    requires index < workers
    ensures var slot := SlotOf(index, workers);
      0 <= slot.positionInOrbit < slot.agentsInOrbit <= ORBIT_SIZE
  {
    var q := index / ORBIT_SIZE;
    assert index == ORBIT_SIZE * q + index % ORBIT_SIZE;
  }

  lemma SlotsDistinct(i: nat, j: nat, workers: nat)
    requires i != j
    ensures SlotOf(i, workers).orbitIndex != SlotOf(j, workers).orbitIndex
      || SlotOf(i, workers).positionInOrbit != SlotOf(j, workers).positionInOrbit
  {
    assert i == ORBIT_SIZE * (i / ORBIT_SIZE) + i % ORBIT_SIZE;
    assert j == ORBIT_SIZE * (j / ORBIT_SIZE) + j % ORBIT_SIZE;
  }

  /** The hub-and-spoke update: every agent whose id differs from the hub's connects to the hub
      alone, and the hub connects to all of them in order. An agent that shares the hub's id
      without being the hub is not a worker and keeps its connections. Throws on an empty
      swarm (`agents[0].id`), hence the precondition. */
  method HubAndSpoke(a: array<SwarmAgent>)
    requires a.Length > 0
    modifies a
    ensures SameAgents(old(a[..]), a[..])
    ensures var l := LeadIndex(old(a[..]));
      && a[l].connections == OtherIds(Ids(old(a[..])), old(a[l].id))
      && (forall i :: 0 <= i < a.Length && a[i].id != old(a[l].id) ==> a[i].connections == [old(a[l].id)])
      && (forall i :: 0 <= i < a.Length && i != l && a[i].id == old(a[l].id) ==> a[i] == old(a[i]))
  {
    ghost var s := a[..];
    var l := LeadIndex(a[..]);
    var leadId := a[l].id;
    var workerIds: seq<string> := [];
    for i := 0 to a.Length
      invariant SameAgents(s, a[..])
      invariant workerIds == OtherIds(Ids(s)[..i], leadId)
      invariant forall j :: 0 <= j < i && a[j].id != leadId ==> a[j].connections == [leadId]
      invariant forall j :: 0 <= j < a.Length && (i <= j || a[j].id == leadId) ==> a[j] == s[j]
    {
      assert Ids(s)[..i + 1] == Ids(s)[..i] + [s[i].id];
      if a[i].id != leadId {
        a[i] := a[i].(connections := [leadId]);
        workerIds := workerIds + [a[i].id];
      }
    }
    assert Ids(s)[..a.Length] == Ids(s);
    a[l] := a[l].(connections := workerIds);
  }

  /** The hub never connects to itself and the spokes are exactly the other ids. */
  lemma HubSpokes(s: seq<SwarmAgent>, x: string)
    requires |s| > 0
    ensures var hub := s[LeadIndex(s)].id;
      x in OtherIds(Ids(s), hub) <==> x != hub && exists i :: 0 <= i < |s| && s[i].id == x
  {
    var ids := Ids(s);
    if x in ids {
      var i :| 0 <= i < |ids| && ids[i] == x;
      assert s[i].id == x;
    }
  }

  // ----- hierarchical -----

  /** `agents.filter(a => a.role === r)`, as positions. */
  function IndicesWithRole(s: seq<SwarmAgent>, r: SwarmRole): (ix: seq<nat>)
    ensures forall k :: 0 <= k < |ix| ==> ix[k] < |s| && s[ix[k]].role == r
    ensures forall j :: 0 <= j < |s| && s[j].role == r ==> j in ix
  {
    if s == [] then []
    else
      var rest := IndicesWithRole(s[..|s| - 1], r);
      assert forall j :: 0 <= j < |s| - 1 ==> s[..|s| - 1][j] == s[j];
      if s[|s| - 1].role == r then rest + [|s| - 1] else rest
  }

  /** `agents.slice(1)`, as positions. */
  function Tail(n: nat): (ix: seq<nat>)
    ensures |ix| == if n == 0 then 0 else n - 1
    ensures forall k :: 0 <= k < |ix| ==> ix[k] == k + 1
  {
    seq(if n == 0 then 0 else n - 1, k => k + 1)
  }

  function NonEmptyLevels(ls: seq<seq<nat>>): (r: seq<seq<nat>>)
    ensures forall l :: 0 <= l < |r| ==> |r[l]| > 0 && r[l] in ls
    ensures forall l :: l in ls && |l| > 0 ==> l in r
    ensures |r| <= |ls|
  {
    if ls == [] then []
    else
      var rest := NonEmptyLevels(ls[1..]);
      assert forall l :: l in ls ==> l == ls[0] || l in ls[1..];
      if |ls[0]| > 0 then [ls[0]] + rest else rest
  }

  /** The four candidate levels, top first: the leads (or the first agent), the coordinators,
      the specialists, and the workers (or every agent but the first). */
  function Candidates(s: seq<SwarmAgent>): (cands: seq<seq<nat>>)
    requires |s| > 0
    ensures |cands| == 4 && |cands[0]| > 0
    ensures forall l, k :: 0 <= l < 4 && 0 <= k < |cands[l]| ==> cands[l][k] < |s|
  {
    var leads := IndicesWithRole(s, Lead);
    var workers := IndicesWithRole(s, Worker);
    [if |leads| > 0 then leads else [0],
     IndicesWithRole(s, Coordinator),
     IndicesWithRole(s, Specialist),
     if |workers| > 0 then workers else Tail(|s|)]
  }

  /** The tree's levels: the candidates that are not empty. */
  function Levels(s: seq<SwarmAgent>): seq<seq<nat>>
    requires |s| > 0
  {
    NonEmptyLevels(Candidates(s))
  }

  ghost predicate Placed(levels: seq<seq<nat>>, j: nat) {
    exists l :: 0 <= l < |levels| && j in levels[l]
  }

  function RoleLevel(r: SwarmRole): nat {
    match r
    case Lead => 0
    case Coordinator => 1
    case Specialist => 2
    case Worker => 3
  }

  /** The levels hold valid positions, there are at most four, none is empty, and every agent
      is placed on at least one of them. */
  lemma LevelsCoverSwarm(s: seq<SwarmAgent>)
    requires |s| > 0
    ensures var levels := Levels(s);
      && 0 < |levels| <= 4
      && LevelsIn(levels, |s|)
      && (forall l :: 0 <= l < |levels| ==> |levels[l]| > 0)
      && (forall j :: 0 <= j < |s| ==> Placed(levels, j))
  {
    var cands := Candidates(s);
    var levels := Levels(s);
    assert cands[0] in cands;
    forall j | 0 <= j < |s|
      ensures Placed(levels, j)
    {
      var home := cands[RoleLevel(s[j].role)];
      assert j in home && home in cands;
      var l :| 0 <= l < |levels| && levels[l] == home;
    }
    forall l, k | 0 <= l < |levels| && 0 <= k < |levels[l]|
      ensures levels[l][k] < |s|
    {
      var c :| 0 <= c < 4 && cands[c] == levels[l];
    }
  }

  /** `Math.min(Math.floor(agentIndex * parentLevel.length / level.length), parentLevel.length - 1)` */
  function ParentPos(ai: nat, levelLen: nat, parentLen: nat): int
    requires levelLen > 0
  {
    Min(ai * parentLen / levelLen, parentLen - 1)
  }

  /** The parent position is always a valid index into a non-empty parent level, and the
      clamp never takes effect. */
  lemma ParentInRange(ai: nat, levelLen: nat, parentLen: nat)
    requires ai < levelLen && parentLen > 0
    ensures 0 <= ParentPos(ai, levelLen, parentLen) < parentLen
    ensures ParentPos(ai, levelLen, parentLen) == ai * parentLen / levelLen
  {
    var q := ai * parentLen / levelLen;
    QuotientTimesDivisor(ai * parentLen, levelLen);
    ProductBelow(ai, levelLen, parentLen);
    QuotientBelow(q, levelLen, parentLen);
  }

  /** Later agents of a level never get an earlier parent. */
  lemma ParentMonotone(ai: nat, levelLen: nat, parentLen: nat)
    requires ai + 1 < levelLen && parentLen > 0
    ensures ParentPos(ai, levelLen, parentLen) <= ParentPos(ai + 1, levelLen, parentLen)
  {
    ParentInRange(ai, levelLen, parentLen);
    ParentInRange(ai + 1, levelLen, parentLen);
    DivMonotone(ai * parentLen, (ai + 1) * parentLen, levelLen);
  }

  lemma QuotientTimesDivisor(x: nat, d: nat)
    requires d > 0
    ensures (x / d) * d <= x < (x / d) * d + d
  {
  }

  lemma ProductBelow(a: nat, b: nat, p: nat)
    requires a < b && p > 0
    ensures a * p < b * p
  {
    assert b * p == a * p + (b - a) * p;
  }

  lemma QuotientBelow(q: int, d: nat, p: int)
    requires d > 0 && q * d < p * d
    ensures q < p
  {
    assert (p - q) * d > 0;
  }

  lemma DivMonotone(x: nat, y: nat, d: nat)
    requires d > 0 && x <= y
    ensures x / d <= y / d
  {
    QuotientTimesDivisor(x, d);
    QuotientTimesDivisor(y, d);
    QuotientBelow(x / d, d, y / d + 1);
  }

  /** One assignment `agent.connections = conns` to the agent at `index`. */
  datatype Write = Write(index: nat, conns: seq<string>)

  function Apply(s: seq<SwarmAgent>, w: Write): seq<SwarmAgent>
    requires w.index < |s|
  {
    s[w.index := s[w.index].(connections := w.conns)]
  }

  ghost predicate WritesIn(ws: seq<Write>, n: nat) {
    forall k :: 0 <= k < |ws| ==> ws[k].index < n
  }

  /** The writes performed one after the other. */
  function ApplyAll(s: seq<SwarmAgent>, ws: seq<Write>): (t: seq<SwarmAgent>)
    requires WritesIn(ws, |s|)
    ensures |t| == |s|
  {
    if ws == [] then s else Apply(ApplyAll(s, ws[..|ws| - 1]), ws[|ws| - 1])
  }

  /** What an agent of level `li` at position `ai` is connected to. */
  function ConnsFor(levels: seq<seq<nat>>, ids: seq<string>, li: nat, ai: nat): seq<string>
    requires li < |levels| && ai < |levels[li]| && LevelsIn(levels, |ids|)
  {
    if li == 0 || |levels[li - 1]| == 0 then []
    else
      var parent := levels[li - 1];
      ParentInRange(ai, |levels[li]|, |parent|);
      [ids[parent[ParentPos(ai, |levels[li]|, |parent|)]]]
  }

  ghost predicate LevelsIn(levels: seq<seq<nat>>, n: nat) {
    forall l, k :: 0 <= l < |levels| && 0 <= k < |levels[l]| ==> levels[l][k] < n
  }

  function LevelWrites(levels: seq<seq<nat>>, ids: seq<string>, li: nat): (ws: seq<Write>)
    requires li < |levels| && LevelsIn(levels, |ids|)
    ensures |ws| == |levels[li]| && WritesIn(ws, |ids|)
    ensures forall ai :: 0 <= ai < |ws| ==> ws[ai] == Write(levels[li][ai], ConnsFor(levels, ids, li, ai))
  {
    seq(|levels[li]|, ai requires 0 <= ai < |levels[li]| => Write(levels[li][ai], ConnsFor(levels, ids, li, ai)))
  }

  /** The assignments of the first `m` levels, in the order the update makes them. */
  function AllWrites(levels: seq<seq<nat>>, ids: seq<string>, m: nat): (ws: seq<Write>)
    requires m <= |levels| && LevelsIn(levels, |ids|)
    ensures WritesIn(ws, |ids|)
  {
    if m == 0 then [] else AllWrites(levels, ids, m - 1) + LevelWrites(levels, ids, m - 1)
  }

  /** The hierarchical update. An agent placed on two levels (the first agent when there are no
      leads, or a coordinator, specialist or lead other than the first agent when there are no
      workers) is assigned twice and keeps the later assignment. Throws on an empty swarm, hence the precondition. */
  method Hierarchical(a: array<SwarmAgent>)
    requires a.Length > 0
    modifies a
    ensures LevelsIn(Levels(old(a[..])), a.Length)
    ensures a[..] == ApplyAll(old(a[..]), AllWrites(Levels(old(a[..])), Ids(old(a[..])), |Levels(old(a[..]))|))
  {
    ghost var s := a[..];
    var levels := Levels(a[..]);
    LevelsCoverSwarm(s);
    for li := 0 to |levels|
      invariant SameAgents(s, a[..])
      invariant a[..] == ApplyAll(s, AllWrites(levels, Ids(s), li))
    {
      AssignLevel(a, levels, li, s);
    }
  }

  /** One level of the hierarchical update: each of its agents is assigned its parent on the
      level above, or nothing on the top level. */
  method AssignLevel(a: array<SwarmAgent>, levels: seq<seq<nat>>, li: nat, ghost s: seq<SwarmAgent>)
    requires li < |levels| && LevelsIn(levels, a.Length) && forall l :: 0 <= l < |levels| ==> |levels[l]| > 0
    requires SameAgents(s, a[..]) && a[..] == ApplyAll(s, AllWrites(levels, Ids(s), li))
    modifies a
    ensures SameAgents(s, a[..]) && a[..] == ApplyAll(s, AllWrites(levels, Ids(s), li + 1))
  {
    ghost var ids := Ids(s);
    var level := levels[li];
    ghost var done := AllWrites(levels, ids, li);
    ghost var lw := LevelWrites(levels, ids, li);
    assert done + lw[..0] == done;
    for ai := 0 to |level|
      invariant SameAgents(s, a[..])
      invariant a[..] == ApplyAll(s, done + lw[..ai])
    {
      AssignAgent(a, levels, li, ai, s);
      PrefixSnoc(done, lw, ai);
      ApplyAllSnoc(s, done + lw[..ai], lw[ai]);
    }
    assert lw[..|level|] == lw;
  }

  /** `agent.connections = parent ? [parent.id] : []` for the agent at position `ai` of level
      `li`, the parent's id read from the array as it stands. */
  method AssignAgent(a: array<SwarmAgent>, levels: seq<seq<nat>>, li: nat, ai: nat, ghost s: seq<SwarmAgent>)
    requires li < |levels| && ai < |levels[li]| && LevelsIn(levels, a.Length)
    requires forall l :: 0 <= l < |levels| ==> |levels[l]| > 0
    requires SameAgents(s, a[..])
    modifies a
    ensures SameAgents(s, a[..])
    ensures a[..] == Apply(old(a[..]), Write(levels[li][ai], ConnsFor(levels, Ids(s), li, ai)))
  {
    var level := levels[li];
    var conns: seq<string> := [];
    if li > 0 {
      var parentLevel := levels[li - 1];
      ParentInRange(ai, |level|, |parentLevel|);
      var p := ParentPos(ai, |level|, |parentLevel|);
      conns := [a[parentLevel[p]].id];
    }
    a[level[ai]] := a[level[ai]].(connections := conns);
  }

  lemma PrefixSnoc<T>(done: seq<T>, xs: seq<T>, i: nat)
    requires i < |xs|
    ensures done + xs[..i + 1] == (done + xs[..i]) + [xs[i]]
  {
    assert xs[..i + 1] == xs[..i] + [xs[i]];
  }

  lemma ApplyAllSnoc(s: seq<SwarmAgent>, ws: seq<Write>, w: Write)
    requires WritesIn(ws, |s|) && w.index < |s|
    ensures WritesIn(ws + [w], |s|)
    ensures ApplyAll(s, ws + [w]) == Apply(ApplyAll(s, ws), w)
  {
    assert (ws + [w])[..|ws|] == ws;
  }

  /** After a run of writes an agent holds what the last write to it assigned, or what it held
      before when none touched it; ids and roles never change. `j` is that last write. */
  lemma {:induction false} LastWriteWins(s: seq<SwarmAgent>, ws: seq<Write>, k: nat) returns (j: int)
    requires WritesIn(ws, |s|) && k < |s|
    ensures SameAgents(s, ApplyAll(s, ws))
    ensures -1 <= j < |ws|
    ensures j == -1 ==> (forall i :: 0 <= i < |ws| ==> ws[i].index != k) && ApplyAll(s, ws)[k] == s[k]
    ensures j >= 0 ==> (&& ws[j].index == k && ApplyAll(s, ws)[k].connections == ws[j].conns
                        && forall i :: j < i < |ws| ==> ws[i].index != k)
  {
    if ws == [] {
      j := -1;
    } else {
      var init := ws[..|ws| - 1];
      var last := ws[|ws| - 1];
      var j' := LastWriteWins(s, init, k);
      if last.index == k {
        j := |ws| - 1;
      } else {
        j := j';
        assert forall i :: 0 <= i < |init| ==> init[i] == ws[i];
      }
    }
  }

  /** `x` is the id of an agent on some level that has a level below it. */
  ghost predicate ParentId(levels: seq<seq<nat>>, ids: seq<string>, x: string) {
    exists l, p :: 0 <= l < |levels| - 1 && 0 <= p < |levels[l]| && levels[l][p] < |ids| && x == ids[levels[l][p]]
  }

  /** Every connection the hierarchy assigns is empty (top level) or the single id of an agent
      on the level above. */
  lemma {:induction false} AssignedConnsAreParents(levels: seq<seq<nat>>, ids: seq<string>, m: nat, j: nat)
    requires m <= |levels| && LevelsIn(levels, |ids|) && j < |AllWrites(levels, ids, m)|
    ensures var w := AllWrites(levels, ids, m)[j];
      w.conns == [] || (|w.conns| == 1 && ParentId(levels, ids, w.conns[0]))
  {
    var ws := AllWrites(levels, ids, m);
    var prev := AllWrites(levels, ids, m - 1);
    if j < |prev| {
      assert ws[j] == prev[j];
      AssignedConnsAreParents(levels, ids, m - 1, j);
    } else {
      var ai := j - |prev|;
      assert ws[j] == LevelWrites(levels, ids, m - 1)[ai];
      var li := m - 1;
      if li > 0 && |levels[li - 1]| > 0 {
        ParentInRange(ai, |levels[li]|, |levels[li - 1]|);
        var p := ParentPos(ai, |levels[li]|, |levels[li - 1]|);
        assert ws[j].conns[0] == ids[levels[li - 1][p]];
      }
    }
  }

  /** Every agent on some level is assigned by the update. */
  lemma {:induction false} EveryPlacedAgentWritten(levels: seq<seq<nat>>, ids: seq<string>, m: nat, l: nat, p: nat)
    requires m <= |levels| && LevelsIn(levels, |ids|) && l < m && p < |levels[l]|
    ensures exists j :: 0 <= j < |AllWrites(levels, ids, m)| && AllWrites(levels, ids, m)[j].index == levels[l][p]
  {
    var ws := AllWrites(levels, ids, m);
    var prev := AllWrites(levels, ids, m - 1);
    if l < m - 1 {
      EveryPlacedAgentWritten(levels, ids, m - 1, l, p);
      var j :| 0 <= j < |prev| && prev[j].index == levels[l][p];
      assert ws[j] == prev[j];
    } else {
      assert ws[|prev| + p] == LevelWrites(levels, ids, l)[p];
    }
  }

  /** After a hierarchical frame every agent was assigned (none keeps the connections it had
      before) and has no connection or exactly one, to an agent on a level with a level below. */
  lemma HierarchyOutcome(s: seq<SwarmAgent>, k: nat)
    requires |s| > 0 && k < |s|
    ensures LevelsIn(Levels(s), |s|)
    ensures var levels := Levels(s);
      var ws := AllWrites(levels, Ids(s), |levels|);
      var t := ApplyAll(s, ws);
      && SameAgents(s, t)
      && (exists j :: 0 <= j < |ws| && ws[j].index == k && t[k].connections == ws[j].conns)
      && (t[k].connections == [] || (|t[k].connections| == 1 && ParentId(levels, Ids(s), t[k].connections[0])))
  {
    var levels := Levels(s);
    LevelsCoverSwarm(s);
    var ids := Ids(s);
    var ws := AllWrites(levels, ids, |levels|);
    assert Placed(levels, k);
    var l :| 0 <= l < |levels| && k in levels[l];
    var p :| 0 <= p < |levels[l]| && levels[l][p] == k;
    EveryPlacedAgentWritten(levels, ids, |levels|, l, p);
    var j := LastWriteWins(s, ws, k);
    AssignedConnsAreParents(levels, ids, |levels|, j);
  }

  // ----- spiral -----

  /** The positions the spiral links position `i` of `n` to: the previous, then the next. */
  function SpiralNeighbours(n: nat, i: nat): seq<nat> {
    (if i > 0 then [i - 1] else []) + (if i + 1 < n then [i + 1] else [])
  }

  /** The spiral links each agent to its array neighbours only: the relation is symmetric,
      never links an agent to itself, and links at most two. */
  lemma SpiralIsAChain(n: nat, i: nat, j: nat)
    requires i < n && j < n
    ensures j in SpiralNeighbours(n, i) <==> (j + 1 == i || i + 1 == j)
    ensures j in SpiralNeighbours(n, i) <==> i in SpiralNeighbours(n, j)
    ensures i !in SpiralNeighbours(n, i) && |SpiralNeighbours(n, i)| <= 2
  {
  }

  function IdsAt(s: seq<SwarmAgent>, ix: seq<nat>): seq<string>
    requires forall k :: 0 <= k < |ix| ==> ix[k] < |s|
  {
    seq(|ix|, k requires 0 <= k < |ix| => s[ix[k]].id)
  }

  /** The spiral update's connections. */
  method Spiral(a: array<SwarmAgent>)
    modifies a
    ensures SameAgents(old(a[..]), a[..])
    ensures forall i :: 0 <= i < a.Length ==> a[i].connections == IdsAt(old(a[..]), SpiralNeighbours(a.Length, i))
  {
    ghost var s := a[..];
    for i := 0 to a.Length
      invariant SameAgents(s, a[..])
      invariant forall j :: 0 <= j < i ==> a[j].connections == IdsAt(s, SpiralNeighbours(a.Length, j))
      invariant forall j :: i <= j < a.Length ==> a[j] == s[j]
    {
      var conns: seq<string> := [];
      if i > 0 {
        conns := conns + [a[i - 1].id];
      }
      if i < a.Length - 1 {
        conns := conns + [a[i + 1].id];
      }
      assert conns == IdsAt(s, SpiralNeighbours(a.Length, i));
      a[i] := a[i].(connections := conns);
    }
  }

  // ----- consensus -----

  datatype Phase = Scatter | Discussion | Convergence

  const CYCLE_DURATION: nat := 8000
  const SCATTER_PHASE: real := 0.4
  const CONVERGE_PHASE: real := 0.7
  const DISCUSSION_LINKS: nat := 3

  /** `(time % CYCLE_DURATION) / CYCLE_DURATION` for a non-negative clock. */
  function CycleProgress(time: nat): real {
    (time % CYCLE_DURATION) as real / CYCLE_DURATION as real
  }

  function PhaseOf(progress: real): Phase {
    if progress < SCATTER_PHASE then Scatter
    else if progress < CONVERGE_PHASE then Discussion
    else Convergence
  }

  /** In milliseconds of the eight-second cycle: scatter for the first 3200, discuss until
      5600, converge for the rest. */
  lemma PhaseByMillis(time: nat)
    ensures 0.0 <= CycleProgress(time) < 1.0
    ensures PhaseOf(CycleProgress(time)) == Scatter <==> time % CYCLE_DURATION < 3200
    ensures PhaseOf(CycleProgress(time)) == Discussion <==> 3200 <= time % CYCLE_DURATION < 5600
    ensures PhaseOf(CycleProgress(time)) == Convergence <==> 5600 <= time % CYCLE_DURATION
  {
    var m := (time % CYCLE_DURATION) as real;
    assert CycleProgress(time) == m / 8000.0;
  }

  /** The ids of the agents `i` is near to, other than itself, in order: the filter before
      `.slice(0, 3)`. */
  function NearIds(ids: seq<string>, i: nat, near: (nat, nat) -> bool, m: nat): (r: seq<string>)
    requires i < |ids| && m <= |ids|
    ensures forall x :: x in r ==> x != ids[i] && exists j :: 0 <= j < m && near(i, j) && ids[j] == x
  {
    if m == 0 then []
    else
      var rest := NearIds(ids, i, near, m - 1);
      if ids[m - 1] != ids[i] && near(i, m - 1) then rest + [ids[m - 1]] else rest
  }

  function ConsensusConns(ids: seq<string>, i: nat, phase: Phase, near: (nat, nat) -> bool): seq<string>
    requires i < |ids|
  {
    match phase
    case Scatter => []
    case Discussion => Truncate(NearIds(ids, i, near, |ids|), DISCUSSION_LINKS)
    case Convergence => OtherIds(ids, ids[i])
  }

  /** The consensus phases' links: none while scattering; while discussing, at most three,
      each to a nearby agent and never to an agent with one's own id; when converging, exactly
      every other id. */
  lemma ConsensusLinks(ids: seq<string>, i: nat, near: (nat, nat) -> bool, x: string)
    requires i < |ids|
    ensures ConsensusConns(ids, i, Scatter, near) == []
    ensures var d := ConsensusConns(ids, i, Discussion, near);
      |d| <= DISCUSSION_LINKS && (x in d ==> x != ids[i] && exists j :: 0 <= j < |ids| && near(i, j) && ids[j] == x)
    ensures x in ConsensusConns(ids, i, Convergence, near) <==> x in ids && x != ids[i]
  {
    var all := NearIds(ids, i, near, |ids|);
    var d := Truncate(all, DISCUSSION_LINKS);
    if x in d {
      var k :| 0 <= k < |d| && d[k] == x;
      assert all[k] == x && all[k] in all;
    }
  }

  /** The consensus update's connections at clock `time`; `near(i, j)` is whether agent `j`
      lies within 100 units of agent `i` when `i` is updated. */
  method Consensus(a: array<SwarmAgent>, time: nat, near: (nat, nat) -> bool)
    modifies a
    ensures SameAgents(old(a[..]), a[..])
    ensures forall i :: 0 <= i < a.Length ==>
      a[i].connections == ConsensusConns(Ids(old(a[..])), i, PhaseOf(CycleProgress(time)), near)
  {
    ghost var s := a[..];
    var progress := CycleProgress(time);
    var ids := Ids(a[..]);
    for i := 0 to a.Length
      invariant SameAgents(s, a[..]) && ids == Ids(s)
      invariant forall j :: 0 <= j < i ==> a[j].connections == ConsensusConns(ids, j, PhaseOf(progress), near)
      invariant forall j :: i <= j < a.Length ==> a[j] == s[j]
    {
      var conns: seq<string>;
      if progress < SCATTER_PHASE {
        conns := [];
      } else if progress < CONVERGE_PHASE {
        conns := Truncate(NearIds(ids, i, near, |ids|), DISCUSSION_LINKS);
      } else {
        conns := OtherIds(ids, ids[i]);
      }
      a[i] := a[i].(connections := conns);
    }
  }
}
