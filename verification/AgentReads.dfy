/** What the agent store shows while reads and a mutation cross: which loads
    install, what a mutation paints until it is answered, what a failure restores. */
module AgentReads {
  import opened Options
  import opened AgentRoster
  import opened AgentStore
  import opened AgentProtocol

  // --- which loads install ---

  /** Reads sent before this event are stale after it: a newer load, a mutation
      that starts, one that succeeds. */
  ghost predicate Overtakes(w: World, e: Event) {
    || e.Load?
    || (e.Start? && w.executing.None? && w.client.queue != [])
    || (e.MutationReply? && w.executing.Some? && w.executing.value.phase.Applied?)
  }

  ghost predicate NotOvertaken(w: World, es: seq<Event>)
    decreases |es|
  {
    es == [] || (!Overtakes(w, es[0]) && NotOvertaken(Step(w, es[0]), es[1..]))
  }

  lemma GenerationStep(w: World, e: Event)
    requires Inv(w)
    ensures var g := Step(w, e).client.loadGeneration;
            g >= w.client.loadGeneration && (g == w.client.loadGeneration <==> !Overtakes(w, e))
  {
  }

  lemma {:induction false} GenerationTells(w: World, es: seq<Event>)
    requires Inv(w)
    ensures var g := Run(w, es).client.loadGeneration;
            g >= w.client.loadGeneration && (g == w.client.loadGeneration <==> NotOvertaken(w, es))
    decreases |es|
  {
    if es != [] {
      GenerationStep(w, es[0]);
      StepKeeps(w, es[0]);
      GenerationTells(Step(w, es[0]), es[1..]);
    }
  }

  lemma {:induction false} ReadIsKept(w: World, es: seq<Event>, rid: nat)
    requires rid < w.nextRead && rid in Run(w, es).loads
    ensures rid in w.loads && Run(w, es).loads[rid].generation == w.loads[rid].generation
    decreases |es|
  {
    if es != [] { ReadIsKept(Step(w, es[0]), es[1..], rid); }
  }

  /** In every run: a successful load installs what it read exactly if, since it
      was sent, no newer load was, no mutation has started and none succeeded.
      Otherwise its reply changes neither the registry nor its revision. */
  lemma LoadInstallsExactly(server: Registry, earlier: seq<Event>, between: seq<Event>)
    requires UniqueIds(server.agents)
    requires var w := Run(Init(server), earlier);
             var v := Run(Step(w, Load), between);
             w.nextRead in v.loads && v.loads[w.nextRead].sample.Some?
    ensures var w := Run(Init(server), earlier);
            var v := Run(Step(w, Load), between);
            var c := Step(v, LoadReply(w.nextRead, true)).client;
            if NotOvertaken(Step(w, Load), between)
            then c.registry == v.loads[w.nextRead].sample && c.loaded
                 && c.registryRevision > v.client.registryRevision
            else c.registry == v.client.registry && c.loaded == v.client.loaded
                 && c.registryRevision == v.client.registryRevision
  {
    var w := Run(Init(server), earlier);
    AgentProtocol.RunKeeps(Init(server), earlier);
    StepKeeps(w, Load);
    AgentProtocol.RunKeeps(Step(w, Load), between);
    GenerationTells(Step(w, Load), between);
    ReadIsKept(Step(w, Load), between, w.nextRead);
  }

  // --- what a mutation shows ---

  /** One row before and while a mutation is executing. */
  ghost predicate RowPainted(m: Mutation, focused: Option<Summary>, before: Summary, after: Summary) {
    match m
    case Update(id, input) =>
      if before.id != id then after == before
      else if focused.Some? && focused.value.id == id
      then after == Summary(id, input, focused.value.derived, focused.value.isDefault)
      else after == Summary(id, input, before.derived, before.isDefault)
    case SetDefault(id) => after == Summary(before.id, before.edit, before.derived, before.id == id)
    case _ => after == before
  }

  /** The registry with exactly the change the mutation asks for. */
  ghost predicate Painted(m: Mutation, focused: Option<Summary>, before: Registry, after: Registry) {
    && |after.agents| == |before.agents|
    && (forall i :: 0 <= i < |before.agents| ==> RowPainted(m, focused, before.agents[i], after.agents[i]))
    && after.defaultAgentId == (if m.SetDefault? then m.agentId else before.defaultAgentId)
    && after.subagentModel == (if m.SetSubagentModel? then m.model else before.subagentModel)
  }

  lemma PaintIsPainted(m: Mutation, focused: Option<Summary>, r: Registry)
    ensures Painted(m, focused, r, Paint(m, focused, r))
  {
  }

  /** The mutation under way at `w` is not answered. */
  ghost predicate Unanswered(w: World, es: seq<Event>)
    decreases |es|
  {
    w.executing.Some? && (es == [] || Unanswered(Step(w, es[0]), es[1..]))
  }

  lemma {:induction false} ExecutionIsKept(w: World, es: seq<Event>)
    requires Unanswered(w, es)
    ensures var v := Run(w, es);
            v.executing.Some? && v.executing.value.(phase := w.executing.value.phase) == w.executing.value
    decreases |es|
  {
    if es != [] { ExecutionIsKept(Step(w, es[0]), es[1..]); }
  }

  /** In every run, until a mutation is answered, and as long as no load has
      installed since it started: the registry on show is the one from before with
      exactly the change asked for, row by row, or still none. */
  lemma MutationShowsItsChange(server: Registry, earlier: seq<Event>, focused: Option<Summary>, during: seq<Event>)
    requires UniqueIds(server.agents)
    requires var w := Run(Init(server), earlier);
             var v := Run(Step(w, Start(focused)), during);
             && w.executing.None? && w.client.queue != [] && Unanswered(Step(w, Start(focused)), during)
             && v.client.registryRevision == w.client.registryRevision
    ensures var w := Run(Init(server), earlier);
            var before, shown := w.client.registry, Run(Step(w, Start(focused)), during).client.registry;
            if before.None? then shown.None?
            else shown.Some? && Painted(w.client.queue[0], focused, before.value, shown.value)
  {
    var w := Run(Init(server), earlier);
    AgentProtocol.RunKeeps(Init(server), earlier);
    StepKeeps(w, Start(focused));
    AgentProtocol.RunKeeps(Step(w, Start(focused)), during);
    ExecutionIsKept(Step(w, Start(focused)), during);
    if w.client.registry.Some? { PaintIsPainted(w.client.queue[0], focused, w.client.registry.value); }
  }

  /** In every run, a mutation that fails leaves on show what was there when it
      started, unless a load has installed since: then that stays. */
  lemma FailureRestores(server: Registry, earlier: seq<Event>, focused: Option<Summary>, during: seq<Event>)
    requires UniqueIds(server.agents)
    requires var w := Run(Init(server), earlier);
             var v := Run(Step(w, Start(focused)), during);
             && w.executing.None? && w.client.queue != [] && Unanswered(Step(w, Start(focused)), during)
             && v.executing.Some? && v.executing.value.phase.Rejected?
    ensures var w := Run(Init(server), earlier);
            var v := Run(Step(w, Start(focused)), during);
            var u := Step(v, MutationReply);
            && u.executing.None? && u.client.registryRevision == v.client.registryRevision
            && u.client.registry ==
                 if v.client.registryRevision == w.client.registryRevision then w.client.registry else v.client.registry
  {
    var w := Run(Init(server), earlier);
    AgentProtocol.RunKeeps(Init(server), earlier);
    StepKeeps(w, Start(focused));
    AgentProtocol.RunKeeps(Step(w, Start(focused)), during);
    ExecutionIsKept(Step(w, Start(focused)), during);
  }
}
