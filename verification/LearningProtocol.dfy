/** The learning store in every interleaving of operations, replies and evictions. */
module LearningProtocol {
  import opened Options
  import opened LearningStore

  /** Creating, updating and replacing fetch the learning anew once accepted;
      deleting installs the snapshot it gets back. */
  datatype Kind = Loading | RollingBack(snapshotId: nat) | Mutating | Refreshing | Deleting

  /** An unfinished operation, and how often its agent had been evicted when it began. */
  datatype Operation = Operation(kind: Kind, begun: nat)

  /** Operations are told by their agent and generation. */
  datatype World = World(client: Client, ops: map<(AgentId, nat), Operation>, evictions: map<AgentId, nat>)

  datatype Event =
    | Begin(a: AgentId, kind: Kind)
    | Accepted(a: AgentId, generation: nat)
    | Reply(a: AgentId, generation: nat, data: Option<Snapshot>)
    | EvictAgent(a: AgentId)

  const INIT := World(EMPTY, map[], map[])

  function EvictionsOf(w: World, a: AgentId): nat {
    if a in w.evictions then w.evictions[a] else 0
  }

  function BeginKind(c: Client, a: AgentId, kind: Kind): Client {
    match kind
    case Loading => BeginLoad(c, a)
    case RollingBack(s) => BeginRollback(c, a, s)
    case _ => BeginOperation(c, a)
  }

  function FinishKind(c: Client, a: AgentId, generation: nat, kind: Kind, data: Option<Snapshot>): Client {
    match kind
    case Loading => FinishLoad(c, a, generation, data)
    case RollingBack(_) => FinishRollback(c, a, generation, data)
    case Mutating => c
    case _ => FinishInstall(c, a, generation, data)
  }

  function Begun(w: World, a: AgentId, kind: Kind): World {
    var c := BeginKind(w.client, a, kind);
    w.(client := c, ops := w.ops[(a, GenerationOf(c, a)) := Operation(kind, EvictionsOf(w, a))])
  }

  function Finished(w: World, a: AgentId, generation: nat, op: Operation, data: Option<Snapshot>): World {
    w.(client := FinishKind(w.client, a, generation, op.kind, data), ops := w.ops - {(a, generation)})
  }

  /** A Mutating operation either fails or is accepted and fetches. */
  function Step(w: World, e: Event): World {
    match e
    case Begin(a, kind) => if kind.Refreshing? then w else Begun(w, a, kind)
    case Accepted(a, generation) =>
      if (a, generation) in w.ops && w.ops[(a, generation)].kind.Mutating?
      then w.(ops := w.ops[(a, generation) := w.ops[(a, generation)].(kind := Refreshing)])
      else w
    case Reply(a, generation, data) =>
      if (a, generation) in w.ops then Finished(w, a, generation, w.ops[(a, generation)], data) else w
    case EvictAgent(a) =>
      w.(client := Evict(w.client, a), evictions := w.evictions[a := EvictionsOf(w, a) + 1])
  }

  function Run(w: World, es: seq<Event>): World
    decreases |es|
  {
    if es == [] then w else Run(Step(w, es[0]), es[1..])
  }

  /** The kind of the operation holding the agent's current generation, if unfinished. */
  function Holder(w: World, a: AgentId): Option<Kind> {
    var k := (a, GenerationOf(w.client, a));
    if k in w.ops then Some(w.ops[k].kind) else None
  }

  predicate ShowsLoading(c: Client, a: AgentId) {
    a in c.loading && c.loading[a]
  }

  function ShowsRollback(c: Client, a: AgentId): Option<nat> {
    if a in c.rollingBack then c.rollingBack[a] else None
  }

  ghost predicate FlagsSound(w: World, a: AgentId) {
    && (ShowsLoading(w.client, a) <==> Holder(w, a) == Some(Loading))
    && (forall s: nat :: ShowsRollback(w.client, a) == Some(s) <==> Holder(w, a) == Some(RollingBack(s)))
  }

  ghost predicate OperationSound(w: World, a: AgentId, generation: nat) {
    (a, generation) in w.ops ==>
      && generation <= GenerationOf(w.client, a)
      && (generation == GenerationOf(w.client, a) ==> w.ops[(a, generation)].begun == EvictionsOf(w, a))
  }

  ghost predicate Inv(w: World) {
    && (forall a :: FlagsSound(w, a))
    && (forall a, g :: OperationSound(w, a, g))
  }

  lemma BeginKeeps(w: World, a: AgentId, kind: Kind)
    requires Inv(w) && !kind.Refreshing?
    ensures Inv(Begun(w, a, kind))
  {
    var v := Begun(w, a, kind);
    forall b ensures FlagsSound(v, b) { assert FlagsSound(w, b); }
    forall b, g ensures OperationSound(v, b, g) { assert OperationSound(w, b, g); }
  }

  /** A reply touches its own agent only, and only if it is the latest operation's. */
  lemma FinishFrame(c: Client, a: AgentId, generation: nat, kind: Kind, data: Option<Snapshot>, b: AgentId)
    ensures var d := FinishKind(c, a, generation, kind, data);
            && d.generations == c.generations
            && (b != a || !Latest(c, a, generation) ==>
                  ShowsLoading(d, b) == ShowsLoading(c, b) && ShowsRollback(d, b) == ShowsRollback(c, b))
            && (!Latest(c, a, generation) ==> d == c)
  {
  }

  /** The reply of the latest operation takes its own mark down. */
  lemma FinishOwn(c: Client, a: AgentId, generation: nat, kind: Kind, data: Option<Snapshot>)
    requires Latest(c, a, generation)
    requires ShowsLoading(c, a) <==> kind.Loading?
    requires forall s: nat :: ShowsRollback(c, a) == Some(s) <==> kind == RollingBack(s)
    ensures var d := FinishKind(c, a, generation, kind, data);
            !ShowsLoading(d, a) && ShowsRollback(d, a) == None
  {
    if ShowsRollback(c, a).Some? { assert kind == RollingBack(ShowsRollback(c, a).value); }
  }

  lemma FinishKeeps(w: World, a: AgentId, generation: nat, data: Option<Snapshot>)
    requires Inv(w) && (a, generation) in w.ops
    ensures Inv(Finished(w, a, generation, w.ops[(a, generation)], data))
  {
    var kind := w.ops[(a, generation)].kind;
    var v := Finished(w, a, generation, w.ops[(a, generation)], data);
    assert OperationSound(w, a, generation) && FlagsSound(w, a);
    FinishFrame(w.client, a, generation, kind, data, a);
    if Latest(w.client, a, generation) { FinishOwn(w.client, a, generation, kind, data); }
    forall b ensures FlagsSound(v, b) {
      assert FlagsSound(w, b);
      FinishFrame(w.client, a, generation, kind, data, b);
    }
    forall b, g ensures OperationSound(v, b, g) { assert OperationSound(w, b, g); }
  }

  lemma StepKeeps(w: World, e: Event)
    requires Inv(w)
    ensures Inv(Step(w, e))
  {
    var v := Step(w, e);
    if e.Begin? && !e.kind.Refreshing? {
      BeginKeeps(w, e.a, e.kind);
    } else if e.Reply? && (e.a, e.generation) in w.ops {
      FinishKeeps(w, e.a, e.generation, e.data);
    } else {
      forall b ensures FlagsSound(v, b) {
        assert FlagsSound(w, b);
        assert e.EvictAgent? ==> OperationSound(w, b, GenerationOf(v.client, b));
      }
      forall b, g ensures OperationSound(v, b, g) { assert OperationSound(w, b, g); }
    }
  }

  lemma {:induction false} RunKeeps(w: World, es: seq<Event>)
    requires Inv(w)
    ensures Inv(Run(w, es))
    decreases |es|
  {
    if es != [] {
      StepKeeps(w, es[0]);
      RunKeeps(Step(w, es[0]), es[1..]);
    }
  }

  /** In every run, for every agent: `loading` is shown exactly while the
      operation holding the current generation is an unfinished load, and a
      snapshot is shown rolling back exactly while it is that unfinished rollback. */
  lemma FlagsTellTheHolder(es: seq<Event>, a: AgentId)
    ensures var w := Run(INIT, es);
            && (ShowsLoading(w.client, a) <==> Holder(w, a) == Some(Loading))
            && (forall s: nat :: ShowsRollback(w.client, a) == Some(s) <==> Holder(w, a) == Some(RollingBack(s)))
  {
    RunKeeps(INIT, es);
    assert FlagsSound(Run(INIT, es), a);
  }

  /** The operation is the agent's latest and brings a snapshot if it succeeds. */
  predicate MayInstall(w: World, a: AgentId, generation: nat) {
    (a, generation) in w.ops && !w.ops[(a, generation)].kind.Mutating? && generation == GenerationOf(w.client, a)
  }

  /** In every run, and whatever happens next: an agent's snapshot is replaced
      exactly by a successful reply to its latest operation, which was begun after
      its last eviction; an eviction removes it, and nothing else touches it. */
  lemma OnlyTheLatestInstalls(es: seq<Event>, e: Event)
    ensures var w := Run(INIT, es);
            var shown, next := w.client.byAgent, Step(w, e).client.byAgent;
            && next == (match e
                        case Reply(a, g, Some(s)) => if MayInstall(w, a, g) then shown[a := s] else shown
                        case EvictAgent(a) => shown - {a}
                        case _ => shown)
            && (e.Reply? && MayInstall(w, e.a, e.generation) ==>
                  w.ops[(e.a, e.generation)].begun == EvictionsOf(w, e.a))
  {
    RunKeeps(INIT, es);
    if e.Reply? { assert OperationSound(Run(INIT, es), e.a, e.generation); }
  }

  // --- where a shown snapshot comes from ---

  /** Events that take the agent's next generation. */
  predicate Moves(e: Event, a: AgentId) {
    (e.Begin? && e.a == a && !e.kind.Refreshing?) || (e.EvictAgent? && e.a == a)
  }

  lemma {:induction false} RunLast(w: World, es: seq<Event>, e: Event)
    ensures Run(w, es + [e]) == Step(Run(w, es), e)
    decreases |es|
  {
    if es == [] {
      assert es + [e] == [e];
    } else {
      RunLast(Step(w, es[0]), es[1..], e);
      assert (es + [e])[1..] == es[1..] + [e];
    }
  }

  /** How often an agent's generation was moved. */
  function Moved(es: seq<Event>, a: AgentId): nat {
    if es == [] then 0 else Moved(es[..|es| - 1], a) + if Moves(es[|es| - 1], a) then 1 else 0
  }

  /** An operation of the agent begins at j, and no other and no eviction follows. */
  ghost predicate Begins(es: seq<Event>, j: nat, a: AgentId) {
    && j < |es| && Moves(es[j], a) && es[j].Begin?
    && forall k :: j < k < |es| ==> !Moves(es[k], a)
  }

  /** A step that does not move an agent's generation keeps it, and whatever
      operation holds it was there before, of the same kind or refreshing. */
  lemma HolderStays(w: World, e: Event, a: AgentId)
    requires !Moves(e, a)
    ensures GenerationOf(Step(w, e).client, a) == GenerationOf(w.client, a)
    ensures var k := (a, GenerationOf(w.client, a));
            k in Step(w, e).ops ==> k in w.ops && (Step(w, e).ops[k].kind == w.ops[k].kind
                                                   || (w.ops[k].kind.Mutating? && Step(w, e).ops[k].kind.Refreshing?))
  {
    if e.Reply? && (e.a, e.generation) in w.ops {
      FinishFrame(w.client, e.a, e.generation, w.ops[(e.a, e.generation)].kind, e.data, a);
    }
  }

  lemma MoveStep(w: World, e: Event, a: AgentId)
    ensures GenerationOf(Step(w, e).client, a) == GenerationOf(w.client, a) + if Moves(e, a) then 1 else 0
  {
    if !Moves(e, a) { HolderStays(w, e, a); }
  }

  /** Each begin and each eviction of an agent takes its next generation. */
  lemma {:induction false} GenerationCounts(es: seq<Event>, a: AgentId)
    ensures GenerationOf(Run(INIT, es).client, a) == Moved(es, a)
  {
    if es != [] {
      var init, last := es[..|es| - 1], es[|es| - 1];
      assert es == init + [last];
      GenerationCounts(init, a);
      RunLast(INIT, init, last);
      MoveStep(Run(INIT, init), last, a);
    }
  }

  /** The unfinished operation holding an agent's generation is the one begun last,
      and the agent has not been evicted since. */
  lemma {:induction false} HolderBegan(es: seq<Event>, a: AgentId) returns (j: nat)
    requires Holder(Run(INIT, es), a).Some?
    ensures Begins(es, j, a)
    ensures var kind := Holder(Run(INIT, es), a).value;
            kind == es[j].kind || (es[j].kind.Mutating? && kind.Refreshing?)
  {
    var init, last := es[..|es| - 1], es[|es| - 1];
    assert es == init + [last];
    RunLast(INIT, init, last);
    RunKeeps(INIT, init);
    var w := Run(INIT, init);
    if Moves(last, a) {
      assert OperationSound(w, a, GenerationOf(w.client, a) + 1);
      j := |init|;
    } else {
      HolderStays(w, last, a);
      j := HolderBegan(init, a);
    }
  }

  /** Nothing but its begins and its evictions moves an agent's generation. */
  lemma {:induction false} GenerationSince(es: seq<Event>, j: nat, a: AgentId)
    requires Begins(es, j, a)
    ensures GenerationOf(Run(INIT, es).client, a) == GenerationOf(Run(INIT, es[..j + 1]).client, a)
    decreases |es|
  {
    var init, last := es[..|es| - 1], es[|es| - 1];
    if j == |init| {
      assert es[..j + 1] == es;
    } else {
      assert es == init + [last] && init[..j + 1] == es[..j + 1];
      RunLast(INIT, init, last);
      HolderStays(Run(INIT, init), last, a);
      GenerationSince(init, j, a);
    }
  }

  /** Event i brings the snapshot that the operation begun at j asked for, no
      operation of the agent having begun and no eviction come in between. */
  ghost predicate Answers(es: seq<Event>, i: nat, j: nat, a: AgentId) {
    && i < |es| && es[i].Reply? && es[i].a == a && es[i].data.Some? && Begins(es[..i], j, a)
    && es[i].generation == Moved(es[..j + 1], a)
    && (a, es[i].generation) in Run(INIT, es[..i]).ops
    && !Run(INIT, es[..i]).ops[(a, es[i].generation)].kind.Mutating?
  }

  ghost predicate Answered(es: seq<Event>, i: nat, a: AgentId) {
    exists j: nat :: Answers(es, i, j, a)
  }

  /** It does, and no later event replaced or evicted that snapshot. */
  ghost predicate Supplies(es: seq<Event>, i: nat, a: AgentId) {
    && Answered(es, i, a)
    && (forall k: nat :: i < k < |es| ==> es[k] != EvictAgent(a) && !Answered(es, k, a))
  }

  predicate Installs(es: seq<Event>, i: nat, a: AgentId) {
    && i < |es| && es[i].Reply? && es[i].a == a && es[i].data.Some?
    && MayInstall(Run(INIT, es[..i]), a, es[i].generation)
  }

  lemma AnswerInstalls(es: seq<Event>, i: nat, j: nat, a: AgentId)
    requires Answers(es, i, j, a)
    ensures Installs(es, i, a)
  {
    GenerationSince(es[..i], j, a);
    GenerationCounts(es[..j + 1], a);
    assert es[..i][..j + 1] == es[..j + 1];
  }

  /** The reply that counts answers the operation begun last. */
  lemma InstallAnswers(es: seq<Event>, i: nat, a: AgentId)
    requires Installs(es, i, a)
    ensures Answered(es, i, a)
  {
    var j := HolderBegan(es[..i], a);
    GenerationSince(es[..i], j, a);
    GenerationCounts(es[..j + 1], a);
    assert es[..i][..j + 1] == es[..j + 1];
    assert Answers(es, i, j, a);
  }

  /** The last install or eviction of the agent is the one at i, and an install. */
  ghost predicate ShownAs(es: seq<Event>, i: nat, a: AgentId) {
    && Installs(es, i, a)
    && (forall k: nat :: i < k < |es| ==> es[k] != EvictAgent(a) && !Installs(es, k, a))
  }

  lemma InstallsBefore(init: seq<Event>, last: Event, i: nat, a: AgentId)
    requires i < |init|
    ensures Installs(init + [last], i, a) == Installs(init, i, a)
  {
    assert (init + [last])[..i] == init[..i];
  }

  /** An event that neither installs nor evicts leaves the last install the last. */
  lemma ShownStays(init: seq<Event>, last: Event, i: nat, a: AgentId)
    requires i < |init| && last != EvictAgent(a) && !Installs(init + [last], |init|, a)
    ensures ShownAs(init + [last], i, a) <==> ShownAs(init, i, a)
  {
    var es := init + [last];
    forall k: nat | i <= k < |init| ensures Installs(es, k, a) == Installs(init, k, a) && es[k] == init[k] {
      InstallsBefore(init, last, k, a);
    }
    if ShownAs(es, i, a) {
      assert forall k: nat :: i < k < |init| ==> es[k] != EvictAgent(a) && !Installs(es, k, a);
    }
  }

  lemma ShownAfter(init: seq<Event>, last: Event, a: AgentId)
    requires var shown := Run(INIT, init).client.byAgent;
             && (a in shown <==> exists i: nat :: ShownAs(init, i, a))
             && (forall i: nat :: ShownAs(init, i, a) ==> a in shown && shown[a] == init[i].data.value)
    ensures var es := init + [last];
            var shown := Run(INIT, es).client.byAgent;
            && (a in shown <==> exists i: nat :: ShownAs(es, i, a))
            && (forall i: nat :: ShownAs(es, i, a) ==> a in shown && shown[a] == es[i].data.value)
  {
    var es, n := init + [last], |init|;
    assert es[..n] == init && es[n] == last;
    RunLast(INIT, init, last);
    OnlyTheLatestInstalls(init, last);
    if Installs(es, n, a) {
      assert ShownAs(es, n, a);
      assert forall i: nat :: ShownAs(es, i, a) ==> i == n;
    } else if last == EvictAgent(a) {
      assert forall i: nat :: !ShownAs(es, i, a);
    } else {
      forall i: nat | i < n ensures ShownAs(es, i, a) <==> ShownAs(init, i, a) { ShownStays(init, last, i, a); }
      assert forall i: nat :: ShownAs(es, i, a) <==> ShownAs(init, i, a);
    }
  }

  lemma {:induction false} ShownExactly(es: seq<Event>, a: AgentId)
    ensures var shown := Run(INIT, es).client.byAgent;
            && (a in shown <==> exists i: nat :: ShownAs(es, i, a))
            && (forall i: nat :: ShownAs(es, i, a) ==> a in shown && shown[a] == es[i].data.value)
    decreases |es|
  {
    if es != [] {
      var init, last := es[..|es| - 1], es[|es| - 1];
      ShownExactly(init, a);
      ShownAfter(init, last, a);
      assert es == init + [last];
    }
  }

  lemma SuppliesExactly(es: seq<Event>, i: nat, a: AgentId)
    ensures Supplies(es, i, a) <==> ShownAs(es, i, a)
  {
    forall k: nat ensures Answered(es, k, a) <==> Installs(es, k, a) {
      if j: nat :| Answers(es, k, j, a) {
        AnswerInstalls(es, k, j, a);
      } else if Installs(es, k, a) {
        InstallAnswers(es, k, a);
      }
    }
  }

  /** In every run a snapshot is on show exactly if some reply answered an
      operation that was then its agent's latest, with no eviction since that
      operation began and none since the reply; and it is the last such reply's. */
  lemma SnapshotAnswersTheLatest(es: seq<Event>, a: AgentId)
    ensures var shown := Run(INIT, es).client.byAgent;
            && (a in shown <==> exists i: nat :: Supplies(es, i, a))
            && (forall i: nat :: Supplies(es, i, a) ==> a in shown && shown[a] == es[i].data.value)
  {
    ShownExactly(es, a);
    forall i: nat ensures Supplies(es, i, a) <==> ShownAs(es, i, a) { SuppliesExactly(es, i, a); }
  }

  // --- evictions ---

  predicate Absent(c: Client, a: AgentId) {
    a !in c.byAgent && a !in c.loading && a !in c.rollingBack
  }

  ghost predicate Outdated(w: World, a: AgentId) {
    forall g :: (a, g) in w.ops ==> g < GenerationOf(w.client, a)
  }

  lemma AbsentFinish(w: World, b: AgentId, g: nat, op: Operation, data: Option<Snapshot>, a: AgentId)
    requires Absent(w.client, a) && Outdated(w, a) && (b, g) in w.ops
    ensures var v := Finished(w, b, g, op, data); Absent(v.client, a) && Outdated(v, a)
  {
    FinishFrame(w.client, b, g, op.kind, data, a);
  }

  lemma AbsentStep(w: World, e: Event, a: AgentId)
    requires Absent(w.client, a) && Outdated(w, a) && (e.Begin? ==> e.a != a)
    ensures Absent(Step(w, e).client, a) && Outdated(Step(w, e), a)
  {
    if e.Reply? && (e.a, e.generation) in w.ops {
      AbsentFinish(w, e.a, e.generation, w.ops[(e.a, e.generation)], e.data, a);
    }
  }

  lemma {:induction false} AbsentStays(w: World, es: seq<Event>, a: AgentId)
    requires Absent(w.client, a) && Outdated(w, a)
    requires forall i :: 0 <= i < |es| && es[i].Begin? ==> es[i].a != a
    ensures Absent(Run(w, es).client, a)
    decreases |es|
  {
    if es != [] {
      AbsentStep(w, es[0], a);
      AbsentStays(Step(w, es[0]), es[1..], a);
    }
  }

  /** After an eviction the agent's entry stays gone, whatever replies still
      come, until a new operation begins. */
  lemma EvictedStaysGone(earlier: seq<Event>, a: AgentId, later: seq<Event>)
    requires forall i :: 0 <= i < |later| && later[i].Begin? ==> later[i].a != a
    ensures Absent(Run(Step(Run(INIT, earlier), EvictAgent(a)), later).client, a)
  {
    var w := Run(INIT, earlier);
    RunKeeps(INIT, earlier);
    var v := Step(w, EvictAgent(a));
    forall g | (a, g) in v.ops ensures g < GenerationOf(v.client, a) { assert OperationSound(w, a, g); }
    AbsentStays(v, later, a);
  }
}
