/** The agent registry as the client and the engine both see it, and the three
    pure roster helpers of the agent store. */
module AgentRoster {
  import opened Options

  /** The fields of a roster row that an agent form edits. */
  datatype Editable = Editable(name: string, description: string, avatarColor: string,
                               avatarPet: Option<string>, model: string)

  /** One roster row. `derived` stands for everything the engine computes
      (counts, validation, executability) and no mutation input carries. */
  datatype Summary = Summary(id: string, edit: Editable, derived: nat, isDefault: bool)

  datatype Registry = Registry(agents: seq<Summary>, defaultAgentId: string, subagentModel: string)

  ghost predicate UniqueIds(agents: seq<Summary>) {
    forall i, j :: 0 <= i < j < |agents| ==> agents[i].id != agents[j].id
  }

  ghost predicate HasId(agents: seq<Summary>, id: string) {
    exists a :: a in agents && a.id == id
  }

  /** Two registries agree when they hold the same rows (as a map by id), the
      same default and the same subagent model; the order of rows is not part
      of the agreement. */
  ghost predicate Same(r: Registry, s: Registry) {
    && UniqueIds(r.agents) && UniqueIds(s.agents)
    && (forall a :: a in r.agents <==> a in s.agents)
    && r.defaultAgentId == s.defaultAgentId
    && r.subagentModel == s.subagentModel
  }

  /** `r` agrees with `s` on everything but the row of `id`, which both have. */
  ghost predicate SameExcept(r: Registry, s: Registry, id: string) {
    && UniqueIds(r.agents) && UniqueIds(s.agents)
    && (forall a: Summary :: a.id != id ==> (a in r.agents <==> a in s.agents))
    && HasId(r.agents, id) && HasId(s.agents, id)
    && r.defaultAgentId == s.defaultAgentId
    && r.subagentModel == s.subagentModel
  }

  /** What a create, duplicate or update does to the engine's registry: the row
      `row` replaces whatever carried its id, and nothing else moves. */
  ghost predicate Upserted(before: Registry, after: Registry, row: Summary) {
    && UniqueIds(after.agents)
    && (forall a :: a in after.agents <==> a == row || (a in before.agents && a.id != row.id))
    && after.defaultAgentId == before.defaultAgentId
    && after.subagentModel == before.subagentModel
  }

  function PatchRoster(r: Registry, id: string, row: Summary): Registry {
    r.(agents := seq(|r.agents|, i requires 0 <= i < |r.agents| => if r.agents[i].id == id then row else r.agents[i]))
  }

  /** `findIndex` by id: the first position, or the length when there is none. */
  function IndexOf(agents: seq<Summary>, id: string): (k: nat)
    ensures k <= |agents|
    ensures k < |agents| ==> agents[k].id == id
    ensures forall i :: 0 <= i < k ==> agents[i].id != id
  {
    if agents == [] then 0
    else if agents[0].id == id then 0
    else 1 + IndexOf(agents[1..], id)
  }

  function UpsertRoster(r: Registry, row: Summary): Registry {
    var k := IndexOf(r.agents, row.id);
    if k == |r.agents| then r.(agents := r.agents + [row]) else r.(agents := r.agents[k := row])
  }

  function PatchRosterFields(r: Registry, id: string, input: Editable): Registry {
    r.(agents := seq(|r.agents|, i requires 0 <= i < |r.agents| =>
      if r.agents[i].id == id then r.agents[i].(edit := input) else r.agents[i]))
  }

  /** `setDefault`'s optimistic roster: the default moves and every row's flag follows. */
  function MarkDefault(r: Registry, id: string): Registry {
    r.(defaultAgentId := id,
       agents := seq(|r.agents|, i requires 0 <= i < |r.agents| => r.agents[i].(isDefault := r.agents[i].id == id)))
  }

  // --- what the helpers do to a registry, read as a map by id ---

  /** Patching one row of a registry that differs from `before` at most in that
      row yields the registry the engine has after the update. */
  lemma PatchReaches(r: Registry, before: Registry, after: Registry, row: Summary)
    requires SameExcept(r, before, row.id)
    requires Upserted(before, after, row)
    ensures Same(PatchRoster(r, row.id, row), after)
  {
    var p := PatchRoster(r, row.id, row);
    forall a ensures a in p.agents <==> a in after.agents {
      if a in p.agents {
        var i :| 0 <= i < |p.agents| && p.agents[i] == a;
        assert r.agents[i] in r.agents;
      }
      if a in after.agents {
        if a == row {
          var b :| b in r.agents && b.id == row.id;
          var i :| 0 <= i < |r.agents| && r.agents[i] == b;
          assert p.agents[i] == row;
        } else {
          var i :| 0 <= i < |r.agents| && r.agents[i] == a;
          assert p.agents[i] == a;
        }
      }
    }
  }

  /** Inserting or replacing a row in a registry that agrees with the engine
      before or after the mutation yields the registry the engine has after it. */
  lemma UpsertReaches(r: Registry, before: Registry, after: Registry, row: Summary)
    requires Same(r, before) || Same(r, after)
    requires Upserted(before, after, row)
    ensures Same(UpsertRoster(r, row), after)
  {
    var k := IndexOf(r.agents, row.id);
    var p := UpsertRoster(r, row);
    if k == |r.agents| {
      assert forall a :: a in p.agents <==> a in r.agents || a == row;
      assert forall a :: a in r.agents ==> a.id != row.id;
    } else {
      forall a ensures a in p.agents <==> a == row || (a in r.agents && a.id != row.id) {
        if a in p.agents {
          var i :| 0 <= i < |p.agents| && p.agents[i] == a;
        }
        if a == row { assert p.agents[k] == row; }
        if a in r.agents && a.id != row.id {
          var i :| 0 <= i < |r.agents| && r.agents[i] == a;
          assert p.agents[i] == a;
        }
      }
    }
  }

  /** Both optimistic paints of `update` disturb only the edited row. */
  lemma PaintsDisturbOneRow(r: Registry, s: Registry, id: string, row: Summary, input: Editable)
    requires Same(r, s) && HasId(s.agents, id) && row.id == id
    ensures SameExcept(PatchRoster(r, id, row), s, id)
    ensures SameExcept(PatchRosterFields(r, id, input), s, id)
  {
    var b :| b in s.agents && b.id == id;
    var k :| 0 <= k < |r.agents| && r.agents[k] == b;
    var p, f := PatchRoster(r, id, row), PatchRosterFields(r, id, input);
    assert p.agents[k] in p.agents && p.agents[k].id == id;
    assert f.agents[k] in f.agents && f.agents[k].id == id;
    forall a: Summary | a.id != id
      ensures (a in p.agents <==> a in s.agents) && (a in f.agents <==> a in s.agents)
    {
      if a in s.agents {
        var i :| 0 <= i < |r.agents| && r.agents[i] == a;
        assert p.agents[i] == a && f.agents[i] == a;
      }
      if a in p.agents {
        var i :| 0 <= i < |p.agents| && p.agents[i] == a;
        assert r.agents[i] in r.agents;
      }
      if a in f.agents {
        var i :| 0 <= i < |f.agents| && f.agents[i] == a;
        assert r.agents[i] in r.agents;
      }
    }
  }
}
