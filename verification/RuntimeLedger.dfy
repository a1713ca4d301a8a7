/** What a project's write queue falls back to, against the history of the
    engine's answers since the queue was opened. */
module RuntimeLedger {
  import opened Options
  import opened RuntimeStore
  import opened RuntimeProtocol

  /** One project's book: the runtime on show and the settings held when its
      queue was last opened, and since then what every call asked for and every
      answer, None for a failed write. */
  datatype Ledger = Ledger(w: World, before: Option<Runtime>, settings: Project, calls: seq<Project>,
                           answers: seq<Option<Runtime>>)

  /** The reply `k` of a project is delivered to a store that waits for one. */
  predicate Answers(w: World, id: ProjectId, k: nat) {
    && k < |Flights(w, id)| && !Flights(w, id)[k].phase.Sent?
    && id in w.client.queues && w.client.queues[id].pending > 0
  }

  function AnswerOf(f: Flight): Option<Runtime> {
    if f.phase.Applied? then Some(f.phase.data) else None
  }

  ghost function Follow(l: Ledger, id: ProjectId, e: Event): Ledger {
    var w, v := l.w, Step(l.w, e);
    if e.Set? && e.id == id && id in w.client.projects then
      var call := Project(e.model, e.effort);
      if id in w.client.queues then l.(w := v, calls := l.calls + [call])
      else Ledger(v, Lookup(w.client.runtime, id), w.client.projects[id], [call], [])
    else if e.WriteReply? && e.id == id && Answers(w, id, e.k)
    then l.(w := v, answers := l.answers + [AnswerOf(Flights(w, id)[e.k])])
    else l.(w := v)
  }

  ghost function Book(l: Ledger, id: ProjectId, es: seq<Event>): Ledger {
    if es == [] then l else Follow(Book(l, id, es[..|es| - 1]), id, es[|es| - 1])
  }

  ghost function Open(projects: map<ProjectId, Project>, server: map<ProjectId, Runtime>): Ledger {
    Ledger(Init(projects, server), None, Project(None, None), [], [])
  }

  /** The value of the last write that succeeded, else the one from before. */
  function LastAcknowledged(before: Option<Runtime>, answers: seq<Option<Runtime>>): Option<Runtime> {
    if answers == [] then before
    else if answers[|answers| - 1].Some? then answers[|answers| - 1]
    else LastAcknowledged(before, answers[..|answers| - 1])
  }

  function LastSettings(before: Project, answers: seq<Option<Runtime>>): Project {
    if LastAcknowledged(None, answers).None? then before
    else Project(LastAcknowledged(None, answers).value.model, LastAcknowledged(None, answers).value.storedEffort)
  }

  lemma OneMoreAnswer(before: Option<Runtime>, answers: seq<Option<Runtime>>, answer: Option<Runtime>)
    ensures LastAcknowledged(before, answers + [answer]) ==
            if answer.Some? then answer else LastAcknowledged(before, answers)
  {
    assert (answers + [answer])[..|answers|] == answers;
  }

  /** An open queue holds what the engine last acknowledged since it was opened,
      counts the calls since, and has as many pending as were not answered. */
  ghost predicate InStep(l: Ledger, id: ProjectId) {
    id in l.w.client.queues ==>
      var q := l.w.client.queues[id];
      && q.confirmedRuntime == LastAcknowledged(l.before, l.answers)
      && q.confirmed == LastSettings(l.settings, l.answers)
      && q.latestIntent == |l.calls| && q.pending + |l.answers| == |l.calls|
  }

  lemma SetInStep(l: Ledger, id: ProjectId, model: Option<string>, effort: Option<string>)
    requires InStep(l, id)
    ensures InStep(Follow(l, id, Set(id, model, effort)), id)
  {
    if id in l.w.client.projects { BeginWriteOwn(l.w.client, id, model, effort); }
  }

  lemma ReplyInStep(l: Ledger, id: ProjectId, k: nat)
    requires InStep(l, id)
    ensures InStep(Follow(l, id, WriteReply(id, k)), id)
  {
    if Answers(l.w, id, k) {
      var answer := AnswerOf(Flights(l.w, id)[k]);
      OneMoreAnswer(l.before, l.answers, answer);
      OneMoreAnswer(None, l.answers, answer);
    }
  }

  /** No other step touches what the queue has confirmed or counted. */
  lemma OtherwiseInStep(l: Ledger, id: ProjectId, e: Event)
    requires InStep(l, id) && !(e.Set? && e.id == id) && !(e.WriteReply? && e.id == id)
    ensures InStep(Follow(l, id, e), id)
  {
    match e
    case Set(other, model, effort) =>
      if other in l.w.client.projects { BeginWriteFrame(l.w.client, other, model, effort, id); }
    case _ =>
  }

  lemma {:induction false} BookInStep(projects: map<ProjectId, Project>, server: map<ProjectId, Runtime>,
                                      es: seq<Event>, id: ProjectId)
    ensures InStep(Book(Open(projects, server), id, es), id)
  {
    if es != [] {
      var n := |es| - 1;
      var l, e := Book(Open(projects, server), id, es[..n]), es[n];
      BookInStep(projects, server, es[..n], id);
      if e.Set? && e.id == id {
        SetInStep(l, id, e.model, e.effort);
      } else if e.WriteReply? && e.id == id {
        ReplyInStep(l, id, e.k);
      } else {
        OtherwiseInStep(l, id, e);
      }
    }
  }

  lemma {:induction false} RunSnoc(w: World, es: seq<Event>, e: Event)
    ensures Run(w, es + [e]) == Step(Run(w, es), e)
    decreases |es|
  {
    if es == [] {
      assert [e][1..] == [];
    } else {
      assert (es + [e])[1..] == es[1..] + [e];
      RunSnoc(Step(w, es[0]), es[1..], e);
    }
  }

  lemma BookSnoc(l: Ledger, id: ProjectId, es: seq<Event>, e: Event)
    requires Book(l, id, es).w == Run(l.w, es)
    ensures Book(l, id, es + [e]).w == Run(l.w, es + [e])
  {
    assert (es + [e])[..|es|] == es;
    RunSnoc(l.w, es, e);
  }

  /** Keeping the book changes nothing about the run. */
  lemma {:induction false} BookIsRun(l: Ledger, id: ProjectId, es: seq<Event>)
    ensures Book(l, id, es).w == Run(l.w, es)
  {
    if es != [] {
      var init := es[..|es| - 1];
      assert es == init + [es[|es| - 1]];
      BookIsRun(l, id, init);
      BookSnoc(l, id, init, es[|es| - 1]);
    }
  }

  /** In every run: while a project's queue is open, the runtime and the settings
      it falls back to are those of the last write acknowledged since it was
      opened, else those from before; and the writes it waits for are exactly
      those asked for since and not answered. */
  lemma QueueHoldsLastAcknowledged(projects: map<ProjectId, Project>, server: map<ProjectId, Runtime>, es: seq<Event>,
                                   id: ProjectId)
    ensures var l := Book(Open(projects, server), id, es);
            && l.w == Run(Init(projects, server), es)
            && (id in l.w.client.queues ==>
                  var q := l.w.client.queues[id];
                  && q.confirmedRuntime == LastAcknowledged(l.before, l.answers)
                  && q.confirmed == LastSettings(l.settings, l.answers)
                  && q.latestIntent == |l.calls| && q.pending + |l.answers| == |l.calls|)
  {
    BookIsRun(Open(projects, server), id, es);
    BookInStep(projects, server, es, id);
  }

  lemma LatestDrains(w: World, id: ProjectId)
    requires RuntimeProtocol.Inv(w) && id in w.client.queues && Flights(w, id) != []
    ensures w.client.queues[id].pending > 0
    ensures Flights(w, id)[0].intent + w.client.queues[id].pending == w.client.queues[id].latestIntent + 1
  {
    assert Sound(SliceOf(w, id));
  }

  /** What the queue has confirmed once the answer is in. */
  lemma AnswerConfirms(l: Ledger, id: ProjectId)
    requires InStep(l, id) && Flights(l.w, id) != [] && Answers(l.w, id, 0)
    ensures var answer := AnswerOf(Flights(l.w, id)[0]);
            var q := Confirm(l.w.client.queues[id], answer);
            && q.confirmedRuntime == LastAcknowledged(l.before, l.answers + [answer])
            && q.confirmed == LastSettings(l.settings, l.answers + [answer])
  {
    OneMoreAnswer(l.before, l.answers, AnswerOf(Flights(l.w, id)[0]));
    OneMoreAnswer(None, l.answers, AnswerOf(Flights(l.w, id)[0]));
  }

  /** What the answer leaves on show, in terms of what the queue has confirmed. */
  lemma ReplyLeaves(w: World, id: ProjectId)
    requires Flights(w, id) != [] && Answers(w, id, 0)
    requires Flights(w, id)[0].intent == w.client.queues[id].latestIntent <==> w.client.queues[id].pending == 1
    ensures var v, q := Step(w, WriteReply(id, 0)), Confirm(w.client.queues[id], AnswerOf(Flights(w, id)[0]));
            && (Flights(w, id)[0].intent == w.client.queues[id].latestIntent <==> id !in v.client.queues)
            && (id !in v.client.queues ==> Lookup(v.client.runtime, id) == q.confirmedRuntime)
            && (id !in v.client.queues && id in v.client.projects ==> v.client.projects[id] == q.confirmed)
            && (id in v.client.queues ==>
                  v.client.runtime == w.client.runtime && v.client.projects == w.client.projects)
  {
  }

  /** In every run: answers come in the order of the calls, and one empties the
      queue exactly if it is to the last call since the queue was opened, which is
      the one with the latest intent. It then leaves on show the runtime, and in a known
      project the settings, of the last write acknowledged since the queue was
      opened, this one included, else those from before the queue; and any
      other answer leaves both alone. */
  lemma LastWriteDrains(projects: map<ProjectId, Project>, server: map<ProjectId, Runtime>, es: seq<Event>,
                        id: ProjectId)
    requires var w := Run(Init(projects, server), es);
             id in w.client.queues && Flights(w, id) != [] && !Flights(w, id)[0].phase.Sent?
    ensures var l := Book(Open(projects, server), id, es);
            var w, v := Run(Init(projects, server), es), Run(Init(projects, server), es + [WriteReply(id, 0)]);
            var f, answers := Flights(w, id)[0], l.answers + [AnswerOf(Flights(w, id)[0])];
            && f.intent == |answers| && (f.intent == w.client.queues[id].latestIntent <==> |answers| == |l.calls|)
            && (|answers| == |l.calls| <==> id !in v.client.queues)
            && (id !in v.client.queues ==>
                  && Lookup(v.client.runtime, id) == LastAcknowledged(l.before, answers)
                  && (id in v.client.projects ==> v.client.projects[id] == LastSettings(l.settings, answers)))
            && (id in v.client.queues ==>
                  v.client.runtime == w.client.runtime && v.client.projects == w.client.projects)
  {
    RunKeeps(Init(projects, server), es);
    BookIsRun(Open(projects, server), id, es);
    BookInStep(projects, server, es, id);
    RunSnoc(Init(projects, server), es, WriteReply(id, 0));
    LatestDrains(Run(Init(projects, server), es), id);
    AnswerConfirms(Book(Open(projects, server), id, es), id);
    ReplyLeaves(Run(Init(projects, server), es), id);
  }
}
