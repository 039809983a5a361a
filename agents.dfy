/**
 * The agents store: a map from agent id to agent record with insert-or-overwrite,
 * delete, update-if-present and bulk replacement, plus the per-role head count.
 */
module Agents {
  import opened Wrappers

  datatype Role = Lead | Worker | Architect | Researcher | Devops | Default
  datatype Status = Idle | Active | Busy | Error | Spawning | Releasing

  datatype Agent = Agent(
    id: string,
    name: string,
    role: Role,
    status: Status,
    x: real,
    y: real,
    spawnedAt: int,
    spawnedBy: Option<string>)

  /** What a caller hands to `spawnAgent`: an agent without its spawn time. */
  datatype AgentSpec = AgentSpec(
    id: string,
    name: string,
    role: Role,
    status: Status,
    x: real,
    y: real,
    spawnedBy: Option<string>)

  function Stamp(spec: AgentSpec, now: int): Agent {
    Agent(spec.id, spec.name, spec.role, spec.status, spec.x, spec.y, now, spec.spawnedBy)
  }

  /** Every entry is filed under its own id. */
  ghost predicate KeyedById(m: map<string, Agent>) {
    forall id :: id in m ==> m[id].id == id
  }

  /** `new Map(list.map(a => [a.id, a]))`: later entries with the same id overwrite earlier ones. */
  function IndexById(list: seq<Agent>): map<string, Agent> {
    if list == [] then map[]
    else IndexById(list[..|list| - 1])[list[|list| - 1].id := list[|list| - 1]]
  }

  /** The keys are exactly the ids in the list, and each key holds the LAST agent in the list
      with that id. */
  lemma {:induction false} IndexByIdLaterWins(list: seq<Agent>, id: string)
    ensures id in IndexById(list) <==> exists i :: 0 <= i < |list| && list[i].id == id
    ensures id in IndexById(list) ==>
      exists i :: 0 <= i < |list| && list[i] == IndexById(list)[id] && list[i].id == id
        && forall j :: i < j < |list| ==> list[j].id != id
  {
    if list != [] {
      var p := list[..|list| - 1];
      var last := list[|list| - 1];
      IndexByIdLaterWins(p, id);
      if id != last.id {
        if id in IndexById(p) {
          var i :| 0 <= i < |p| && p[i] == IndexById(p)[id] && p[i].id == id
            && forall j :: i < j < |p| ==> p[j].id != id;
          assert list[i] == p[i];
          assert forall j :: i < j < |list| ==> list[j].id != id by {
            forall j | i < j < |list|
              ensures list[j].id != id
            {
              if j < |p| {
                assert list[j] == p[j];
              }
            }
          }
        }
        if exists i :: 0 <= i < |list| && list[i].id == id {
          var i :| 0 <= i < |list| && list[i].id == id;
          assert i < |p| && p[i] == list[i];
        }
      } else {
        assert list[|list| - 1] == IndexById(list)[id];
      }
    }
  }

  lemma {:induction false} IndexByIdKeyed(list: seq<Agent>)
    ensures KeyedById(IndexById(list))
  {
    if list != [] {
      IndexByIdKeyed(list[..|list| - 1]);
    }
  }

  function IdsWithRole(m: map<string, Agent>, r: Role): set<string> {
    set id | id in m && m[id].role == r
  }

  /** How many stored agents have role `r`. */
  function CountRole(m: map<string, Agent>, r: Role): nat {
    |IdsWithRole(m, r)|
  }

  /** The six per-role counts add up to the number of agents. */
  lemma {:induction false} RoleCountsSumToSize(m: map<string, Agent>)
    ensures CountRole(m, Lead) + CountRole(m, Worker) + CountRole(m, Architect)
      + CountRole(m, Researcher) + CountRole(m, Devops) + CountRole(m, Default) == |m|
    decreases |m|
  {
    if m == map[] {
      forall r
        ensures IdsWithRole(m, r) == {}
      {
      }
    } else {
      var id :| id in m;
      var rest := m - {id};
      assert |rest| == |m| - 1;
      RoleCountsSumToSize(rest);
      forall r
        ensures CountRole(m, r) == CountRole(rest, r) + (if m[id].role == r then 1 else 0)
      {
        ReleaseCountsOneLess(m, id, r);
      }
    }
  }

  /** Spawning a new id adds one to its role's count and leaves the other counts alone. */
  lemma SpawnCountsOneMore(m: map<string, Agent>, a: Agent, r: Role)
    requires a.id !in m
    ensures CountRole(m[a.id := a], r) == CountRole(m, r) + (if a.role == r then 1 else 0)
  {
    var before := IdsWithRole(m, r);
    var after := IdsWithRole(m[a.id := a], r);
    if a.role == r {
      assert after == before + {a.id};
    } else {
      assert after == before;
    }
  }

  /** Releasing a stored agent takes one from its role's count. */
  lemma ReleaseCountsOneLess(m: map<string, Agent>, id: string, r: Role)
    requires id in m
    ensures CountRole(m - {id}, r) == CountRole(m, r) - (if m[id].role == r then 1 else 0)
  {
    var before := IdsWithRole(m, r);
    var after := IdsWithRole(m - {id}, r);
    assert after == before - {id};
  }

  /** Status and position updates never move an agent between roles. */
  lemma RecordUpdateKeepsRoleCounts(m: map<string, Agent>, id: string, updated: Agent, r: Role)
    requires id in m && updated.role == m[id].role
    ensures CountRole(m[id := updated], r) == CountRole(m, r)
  {
    assert IdsWithRole(m[id := updated], r) == IdsWithRole(m, r);
  }

  /** The ids among `keys` whose agent has role `r`. */
  function IdsWithRoleIn(m: map<string, Agent>, keys: set<string>, r: Role): set<string> {
    set id | id in keys && id in m && m[id].role == r
  }

  lemma CountOneMore(m: map<string, Agent>, keys: set<string>, k: string, r: Role)
    requires k in m && k !in keys
    ensures |IdsWithRoleIn(m, keys + {k}, r)| ==
      |IdsWithRoleIn(m, keys, r)| + (if m[k].role == r then 1 else 0)
  {
    if m[k].role == r {
      assert IdsWithRoleIn(m, keys + {k}, r) == IdsWithRoleIn(m, keys, r) + {k};
    } else {
      assert IdsWithRoleIn(m, keys + {k}, r) == IdsWithRoleIn(m, keys, r);
    }
  }

  /** `agentsByRole`: one pass over the stored agents; a role with no agent has no entry. */
  method CountByRole(m: map<string, Agent>) returns (counts: map<Role, nat>)
    ensures forall r :: r in counts <==> CountRole(m, r) > 0
    ensures forall r :: r in counts ==> counts[r] == CountRole(m, r)
  {
    counts := map[];
    var rest := m.Keys;
    ghost var done: set<string> := {};
    while rest != {}
      invariant rest <= m.Keys && done == m.Keys - rest
      invariant forall r :: r in counts <==> |IdsWithRoleIn(m, done, r)| > 0
      invariant forall r :: r in counts ==> counts[r] == |IdsWithRoleIn(m, done, r)|
      decreases |rest|
    {
      var id :| id in rest;
      var role := m[id].role;
      forall r {
        CountOneMore(m, done, id, r);
      }
      counts := counts[role := (if role in counts then counts[role] else 0) + 1];
      rest := rest - {id};
      done := done + {id};
    }
    forall r
      ensures IdsWithRoleIn(m, done, r) == IdsWithRole(m, r)
    {
    }
  }

  class AgentStore {
    var agents: map<string, Agent>

    ghost predicate Valid()
      reads this
    {
      KeyedById(agents)
    }

    constructor ()
      ensures Valid() && agents == map[]
    {
      agents := map[];
    }

    /** `getAgent` */
    function Get(id: string): (r: Option<Agent>)
      reads this
      ensures r.Some? <==> id in agents
      ensures r.Some? ==> r.value == agents[id]
    {
      if id in agents then Some(agents[id]) else None
    }

    /** `spawnAgent`: insert or overwrite under the agent's id, stamped with `now`. */
    method Spawn(spec: AgentSpec, now: int)
      requires Valid()
      modifies this
      ensures Valid()
      ensures agents == old(agents)[spec.id := Stamp(spec, now)]
    {
      agents := agents[spec.id := Stamp(spec, now)];
    }

    /** `releaseAgent`: remove the id; nothing happens when it is absent. */
    method Release(id: string)
      requires Valid()
      modifies this
      ensures Valid()
      ensures agents == old(agents) - {id}
      ensures id !in old(agents) ==> agents == old(agents)
    {
      agents := agents - {id};
    }

    /** `updateAgentStatus`: change only the status of an existing agent. */
    method UpdateStatus(id: string, status: Status)
      requires Valid()
      modifies this
      ensures Valid()
      ensures id in old(agents) ==> agents == old(agents)[id := old(agents)[id].(status := status)]
      ensures id !in old(agents) ==> agents == old(agents)
    {
      if id in agents {
        agents := agents[id := agents[id].(status := status)];
      }
    }

    /** `updateAgentPosition`: change only the coordinates of an existing agent. */
    method UpdatePosition(id: string, x: real, y: real)
      requires Valid()
      modifies this
      ensures Valid()
      ensures id in old(agents) ==> agents == old(agents)[id := old(agents)[id].(x := x, y := y)]
      ensures id !in old(agents) ==> agents == old(agents)
    {
      if id in agents {
        agents := agents[id := agents[id].(x := x, y := y)];
      }
    }

    /** `setAgents`: replace the whole map, keyed by id. */
    method SetAgents(list: seq<Agent>)
      modifies this
      ensures Valid()
      ensures agents == IndexById(list)
    {
      IndexByIdKeyed(list);
      agents := IndexById(list);
    }

    /** `clearAgents` */
    method Clear()
      modifies this
      ensures Valid() && agents == map[]
    {
      agents := map[];
    }
  }
}
