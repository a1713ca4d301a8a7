/** The learning store: per agent, a generation counter decides which
    operation's reply counts. */
module LearningStore {
  import opened Options

  type AgentId = nat
  type Snapshot = nat

  datatype Client = Client(byAgent: map<AgentId, Snapshot>, loading: map<AgentId, bool>,
                           rollingBack: map<AgentId, Option<nat>>, generations: map<AgentId, nat>)

  const EMPTY := Client(map[], map[], map[], map[])

  function GenerationOf(c: Client, a: AgentId): nat {
    if a in c.generations then c.generations[a] else 0
  }

  function BeginOperation(c: Client, a: AgentId): Client {
    c.(generations := c.generations[a := GenerationOf(c, a) + 1], loading := c.loading[a := false],
       rollingBack := c.rollingBack[a := None])
  }

  function BeginLoad(c: Client, a: AgentId): Client {
    var d := BeginOperation(c, a);
    d.(loading := d.loading[a := true])
  }

  function BeginRollback(c: Client, a: AgentId, snapshotId: nat): Client {
    var d := BeginOperation(c, a);
    d.(rollingBack := d.rollingBack[a := Some(snapshotId)])
  }

  predicate Latest(c: Client, a: AgentId, generation: nat) {
    GenerationOf(c, a) == generation
  }

  function InstallSnapshot(c: Client, a: AgentId, generation: nat, s: Snapshot): Client {
    if Latest(c, a, generation) then c.(byAgent := c.byAgent[a := s], loading := c.loading[a := false]) else c
  }

  /** A reply is None when the request failed. */
  function FinishLoad(c: Client, a: AgentId, generation: nat, reply: Option<Snapshot>): Client {
    if !Latest(c, a, generation) then c
    else
      c.(byAgent := if reply.Some? then c.byAgent[a := reply.value] else c.byAgent, loading := c.loading[a := false])
  }

  function FinishInstall(c: Client, a: AgentId, generation: nat, reply: Option<Snapshot>): Client {
    if reply.Some? then InstallSnapshot(c, a, generation, reply.value) else c
  }

  function FinishRollback(c: Client, a: AgentId, generation: nat, reply: Option<Snapshot>): Client {
    if !Latest(c, a, generation) then c
    else
      var d := FinishInstall(c, a, generation, reply);
      d.(rollingBack := d.rollingBack[a := None])
  }

  function Evict(c: Client, a: AgentId): Client {
    Client(c.byAgent - {a}, c.loading - {a}, c.rollingBack - {a}, c.generations[a := GenerationOf(c, a) + 1])
  }

  class Store {
    var byAgent: map<AgentId, Snapshot>
    var loading: map<AgentId, bool>
    var rollingBack: map<AgentId, Option<nat>>
    var requestGeneration: map<AgentId, nat>

    ghost function View(): Client
      reads this
    {
      Client(byAgent, loading, rollingBack, requestGeneration)
    }

    constructor ()
      ensures View() == EMPTY
    {
      byAgent, loading, rollingBack, requestGeneration := map[], map[], map[], map[];
    }

    function Generation(a: AgentId): nat
      reads this
    {
      if a in requestGeneration then requestGeneration[a] else 0
    }

    method Begin(a: AgentId) returns (generation: nat)
      modifies this
      ensures View() == BeginOperation(old(View()), a) && generation == old(Generation(a)) + 1
    {
      generation := Generation(a) + 1;
      requestGeneration := requestGeneration[a := generation];
      loading := loading[a := false];
      rollingBack := rollingBack[a := None];
    }

    method Load(a: AgentId) returns (generation: nat)
      modifies this
      ensures View() == BeginLoad(old(View()), a) && generation == old(Generation(a)) + 1
    {
      generation := Begin(a);
      loading := loading[a := true];
      requestGeneration := requestGeneration[a := generation];
    }

    method Rollback(a: AgentId, snapshotId: nat) returns (generation: nat)
      modifies this
      ensures View() == BeginRollback(old(View()), a, snapshotId) && generation == old(Generation(a)) + 1
    {
      generation := Begin(a);
      rollingBack := rollingBack[a := Some(snapshotId)];
    }

    method Install(a: AgentId, generation: nat, s: Snapshot) returns (installed: bool)
      modifies this
      ensures View() == InstallSnapshot(old(View()), a, generation, s)
      ensures installed == (old(Generation(a)) == generation)
    {
      installed := Generation(a) == generation;
      if installed {
        byAgent := byAgent[a := s];
        loading := loading[a := false];
      }
    }

    method LoadReplied(a: AgentId, generation: nat, reply: Option<Snapshot>)
      modifies this
      ensures View() == FinishLoad(old(View()), a, generation, reply)
    {
      if Generation(a) == generation && reply.Some? { byAgent := byAgent[a := reply.value]; }
      if Generation(a) == generation { loading := loading[a := false]; }
    }

    /** The refresh after a create, update or replace, or the reply of a delete:
        true only if this is the latest operation and it succeeded. */
    method MutationReplied(a: AgentId, generation: nat, reply: Option<Snapshot>) returns (done: bool)
      modifies this
      ensures View() == FinishInstall(old(View()), a, generation, reply)
      ensures done <==> reply.Some? && old(Generation(a)) == generation
    {
      if reply.None? { return false; }
      done := Install(a, generation, reply.value);
    }

    method RollbackReplied(a: AgentId, generation: nat, reply: Option<Snapshot>) returns (done: bool)
      modifies this
      ensures View() == FinishRollback(old(View()), a, generation, reply)
      ensures done <==> reply.Some? && old(Generation(a)) == generation
    {
      if Generation(a) != generation { return false; }
      done := reply.Some?;
      if done { var _ := Install(a, generation, reply.value); }
      if Generation(a) == generation { rollingBack := rollingBack[a := None]; }
    }

    method EvictAgent(a: AgentId)
      modifies this
      ensures View() == Evict(old(View()), a)
    {
      requestGeneration := requestGeneration[a := Generation(a) + 1];
      byAgent, loading, rollingBack := byAgent - {a}, loading - {a}, rollingBack - {a};
    }
  }
}
