/** The agent store and its engine, in every interleaving: reads and one
    mutation at a time are in flight, the engine answers when it likes, and the
    detail view may hold anything. */
module AgentProtocol {
  import opened Options
  import opened AgentRoster
  import opened AgentStore

  /** A load in flight; `sample` is the engine's registry once it has read it. */
  datatype Read = Read(generation: nat, sample: Option<Registry>)

  datatype Phase = Sent | Applied(reply: Reply) | Rejected

  /** The mutation that holds the tail. `before` is the engine's registry when it started. */
  datatype Execution = Execution(m: Mutation, focused: Option<Summary>, undo: Undo, before: Registry, phase: Phase)

  datatype World = World(client: Client, server: Registry, loads: map<nat, Read>, nextRead: nat,
                         executing: Option<Execution>)

  datatype Event =
    | Load
    | EngineReads(rid: nat)
    | LoadReply(rid: nat, ok: bool)
    | Enqueue(m: Mutation)
    | Start(focused: Option<Summary>)
    | EngineApplies(after: Registry, row: Summary)
    | EngineRejects
    | MutationReply

  /** What the engine may do when it accepts `m`: it is the only writer's only
      effect. A whole-registry mutation is free to do anything it reports. */
  ghost predicate Effect(m: Mutation, before: Registry, after: Registry, reply: Reply) {
    && UniqueIds(after.agents) && Fits(m, reply)
    && match m
       case Create(_) => Upserted(before, after, reply.row)
       case Duplicate(_) => Upserted(before, after, reply.row)
       case Update(id, _) => HasId(before.agents, id) && Upserted(before, after, reply.row)
       case _ => reply.registry == after
  }

  function ReplyFor(m: Mutation, after: Registry, row: Summary): Reply {
    if m.Create? || m.Duplicate? || m.Update? then Row(row) else Whole(after)
  }

  ghost function Step(w: World, e: Event): World {
    match e
    case Load =>
      var c := BeginLoad(w.client);
      w.(client := c, loads := w.loads[w.nextRead := Read(c.loadGeneration, None)], nextRead := w.nextRead + 1)
    case EngineReads(rid) =>
      if rid in w.loads && w.loads[rid].sample.None?
      then w.(loads := w.loads[rid := w.loads[rid].(sample := Some(w.server))])
      else w
    case LoadReply(rid, ok) =>
      if rid in w.loads && (ok ==> w.loads[rid].sample.Some?) && w.client.pendingReads > 0
      then w.(client := FinishLoad(w.client, w.loads[rid].generation, if ok then w.loads[rid].sample else None),
              loads := w.loads - {rid})
      else w
    case Enqueue(m) => w.(client := EnqueueMutation(w.client, m))
    case Start(focused) =>
      if w.executing.None? && w.client.queue != []
      then w.(client := BeginMutation(w.client, focused),
              executing := Some(Execution(w.client.queue[0], focused,
                                          Undo(w.client.registry, w.client.registryRevision),
                                          w.server, Sent)))
      else w
    case EngineApplies(after, row) =>
      if w.executing.Some? && w.executing.value.phase.Sent?
         && Effect(w.executing.value.m, w.server, after, ReplyFor(w.executing.value.m, after, row))
      then w.(server := after,
              executing := Some(w.executing.value.(phase := Applied(ReplyFor(w.executing.value.m, after, row)))))
      else w
    case EngineRejects =>
      if w.executing.Some? && w.executing.value.phase.Sent?
      then w.(executing := Some(w.executing.value.(phase := Rejected)))
      else w
    case MutationReply =>
      if w.executing.None? || w.executing.value.phase.Sent? || w.client.pendingMutations == 0 then w
      else
        var x := w.executing.value;
        if x.phase.Rejected? then w.(client := MutationFailed(w.client, x.m, x.undo), executing := None)
        else if Fits(x.m, x.phase.reply)
        then w.(client := MutationSucceeded(w.client, x.m, x.phase.reply), executing := None)
        else w
  }

  ghost function Run(w: World, es: seq<Event>): World
    decreases |es|
  {
    if es == [] then w else Run(Step(w, es[0]), es[1..])
  }

  ghost function Init(server: Registry): World {
    World(FRESH_CLIENT, server, map[], 0, None)
  }

  /** A registry the engine has shown since the executing mutation started. */
  ghost predicate Current(w: World, r: Registry) {
    r == w.server || (w.executing.Some? && r == w.executing.value.before)
  }

  ghost predicate Accounting(w: World) {
    && w.client.pendingReads == |w.loads|
    && w.client.pendingMutations == |w.client.queue| + (if w.executing.Some? then 1 else 0)
    && (forall rid :: rid in w.loads ==> rid < w.nextRead && w.loads[rid].generation <= w.client.loadGeneration)
  }

  /** A read the fence has not overtaken carries a current registry. */
  ghost predicate ReadsFenced(w: World) {
    forall rid :: rid in w.loads && w.loads[rid].generation == w.client.loadGeneration && w.loads[rid].sample.Some?
      ==> Current(w, w.loads[rid].sample.value)
  }

  ghost predicate ExecutionSound(w: World) {
    w.executing.Some? ==>
      var x := w.executing.value;
      && UniqueIds(x.before.agents)
      && (x.undo.previous.Some? ==> Same(x.undo.previous.value, x.before))
      && x.undo.revision <= w.client.registryRevision
      && (!x.phase.Applied? ==> w.server == x.before)
      && (x.phase.Applied? ==> Effect(x.m, x.before, w.server, x.phase.reply))
      && (if x.undo.revision == w.client.registryRevision
          then w.client.registry == PaintOption(x.m, x.focused, x.undo.previous)
          else w.client.registry.Some? && Current(w, w.client.registry.value))
  }

  ghost predicate Agreement(w: World) {
    w.executing.None? && w.client.registry.Some? ==> Same(w.client.registry.value, w.server)
  }

  ghost predicate Inv(w: World) {
    UniqueIds(w.server.agents) && Accounting(w) && ReadsFenced(w) && ExecutionSound(w) && Agreement(w)
  }

  lemma LoadReplyKeeps(w: World, rid: nat, ok: bool)
    requires Inv(w)
    ensures Inv(Step(w, LoadReply(rid, ok)))
  {
    if rid in w.loads {
      assert w.loads.Keys == (w.loads - {rid}).Keys + {rid};
    }
  }

  lemma StartKeeps(w: World, focused: Option<Summary>)
    requires Inv(w)
    ensures Inv(Step(w, Start(focused)))
  {
  }

  /** A success brings every registry the client can hold at that point to the
      engine's: the paint, the registry from before, or the one from after. */
  lemma SettleReaches(w: World)
    requires Inv(w) && w.executing.Some? && w.executing.value.phase.Applied?
    requires w.client.registry.Some?
    ensures var x := w.executing.value;
            Same(Settle(x.m, x.phase.reply, w.client.registry).value, w.server)
  {
    var x := w.executing.value;
    var r := w.client.registry.value;
    match x.m {
      case Create(_) =>
        UpsertReaches(r, x.before, w.server, x.phase.reply.row);
      case Duplicate(_) =>
        UpsertReaches(r, x.before, w.server, x.phase.reply.row);
      case Update(id, input) =>
        var row := x.phase.reply.row;
        if x.undo.revision == w.client.registryRevision {
          var p := x.undo.previous.value;
          PaintsDisturbOneRow(p, x.before, id, if x.focused.Some? && x.focused.value.id == id
                                               then x.focused.value.(edit := input) else row, input);
        } else {
          assert HasId(w.server.agents, id) by { assert row in w.server.agents; }
        }
        PatchReaches(r, x.before, w.server, row);
      case _ =>
    }
  }

  lemma MutationReplyKeeps(w: World)
    requires Inv(w)
    ensures Inv(Step(w, MutationReply))
  {
    if w.executing.Some? && w.executing.value.phase.Applied? && w.client.registry.Some? {
      SettleReaches(w);
    }
  }

  lemma StepKeeps(w: World, e: Event)
    requires Inv(w)
    ensures Inv(Step(w, e))
  {
    match e
    case LoadReply(rid, ok) => LoadReplyKeeps(w, rid, ok);
    case Start(focused) => StartKeeps(w, focused);
    case MutationReply => MutationReplyKeeps(w);
    case _ =>
  }

  lemma {:induction false} RunKeeps(w: World, es: seq<Event>)
    requires Inv(w)
    ensures Inv(Run(w, es))
    decreases |es|
  {
    if es != [] {
      StepKeeps(w, es[0]);
      RunKeeps(Step(w, es[0]), es[1..]);
    }
  }

  /** The store's promise. Whatever loads, mutations, failures and late replies
      did, a store with no mutation executing shows nothing or the engine's
      registry; and the busy counters count exactly what is outstanding. */
  lemma RegistryAgreesInEveryRun(server: Registry, es: seq<Event>)
    requires UniqueIds(server.agents)
    ensures var w := Run(Init(server), es);
            && (w.executing.None? && w.client.registry.Some? ==> Same(w.client.registry.value, w.server))
            && w.client.pendingReads == |w.loads|
            && w.client.pendingMutations == |w.client.queue| + (if w.executing.Some? then 1 else 0)
  {
    RunKeeps(Init(server), es);
  }

  /** The fence never starves a read: a load whose reply meets no mutation and
      no newer load installs the engine's registry, in every reachable state. */
  lemma UndisturbedLoadInstalls(w: World)
    requires Inv(w)
    ensures var v := Step(Step(Step(w, Load), EngineReads(w.nextRead)), LoadReply(w.nextRead, true));
            v.client.registry == Some(w.server) && v.client.loaded && v.loads == w.loads
  {
    assert w.nextRead !in w.loads;
    var w1 := Step(w, Load);
    assert w1.loads == w.loads[w.nextRead := Read(w.client.loadGeneration + 1, None)];
    var w2 := Step(w1, EngineReads(w.nextRead));
    assert w2.loads == w.loads[w.nextRead := Read(w.client.loadGeneration + 1, Some(w.server))];
    var w3 := Step(w2, LoadReply(w.nextRead, true));
    assert w3.loads == w.loads;
  }
}
