/** The lifecycle worker takes one event at a time: what that rules out. */
module AutomationWorker {
  import opened Options
  import opened Automation
  import opened AutomationInvariant
  import opened AutomationProtocol
  import opened AutomationRuns

  /** A call the worker began is its last, or over. */
  ghost predicate ObservedSound(w: World, t: nat) {
    t in w.observed ==>
      t < w.s.nextTask && w.observed[t] in w.s.sessions && (t in w.s.tasks ==> w.worker == Some(t))
  }

  /** A call set off by the session started for a row: the row's call was not the
      worker's, unless the session's origin could not be written. */
  ghost predicate ChainSound(w: World, t: nat, r: nat) {
    t in w.observed && r in w.launches && r in w.roots && w.launches[r] == w.observed[t] ==>
      r in w.orphans || w.roots[r].task !in w.observed
  }

  ghost predicate WorkerInv(w: World) {
    && (forall t :: ObservedSound(w, t))
    && (forall t, r :: ChainSound(w, t, r))
  }

  /** What other steps leave of the worker and its calls. */
  lemma WorkerStays(w: World, e: Event)
    requires !e.Lifecycle?
    ensures Step(w, e).worker == w.worker && Step(w, e).observed == w.observed
  {
  }

  lemma OrphansGrow(w: World, e: Event)
    ensures w.orphans <= Step(w, e).orphans
  {
  }

  lemma TasksGrow(w: World, e: Event)
    ensures w.s.nextTask <= Step(w, e).s.nextTask
  {
  }

  /** The other steps touch no session. */
  lemma SessionsSameStep(w: World, e: Event)
    requires !e.NewSession? && !e.Act? && !e.OriginReply?
    ensures Step(w, e).s.sessions == w.s.sessions
  {
  }

  lemma SessionsGrow(w: World, e: Event, x: nat)
    requires Inv(w) && x in w.s.sessions
    ensures x in Step(w, e).s.sessions
  {
    if !e.NewSession? && !e.Act? && !e.OriginReply? { SessionsSameStep(w, e); }
  }

  /** A row keeps its session, and a new one gets a new session. */
  lemma LaunchesGrow(w: World, e: Event, r: nat)
    requires Inv(w)
    ensures r in Step(w, e).launches ==>
              || (r in w.launches && Step(w, e).launches[r] == w.launches[r])
              || Step(w, e).launches[r] !in w.s.sessions
  {
    assert LaunchSound(w, r);
    if e.Act? && Stands(w.s, e.t) && w.s.tasks[e.t].phase.Created? {
      HeldIsKnown(w, e.t, w.s.tasks[e.t].phase.run);
    }
  }

  lemma OtherKeeps(w: World, e: Event)
    requires Inv(w) && WorkerInv(w) && !e.Lifecycle?
    ensures WorkerInv(Step(w, e))
  {
    var v := Step(w, e);
    WorkerStays(w, e);
    TasksGrow(w, e);
    OrphansGrow(w, e);
    forall t ensures ObservedSound(v, t) {
      assert ObservedSound(w, t);
      if t in w.observed {
        StepMoves(w, e, t);
        SessionsGrow(w, e, w.observed[t]);
      }
    }
    forall t, r ensures ChainSound(v, t, r) {
      assert ChainSound(w, t, r) && ObservedSound(w, t) && LaunchSound(w, r);
      LaunchesGrow(w, e, r);
      if r in w.launches { RootStays(w, e, r); }
    }
  }

  /** The row's call is still at writing the origin of its session. */
  predicate OriginPending(w: World, r: nat) {
    r in w.launches && PhaseOf(w, r) == Originating(r, w.launches[r])
  }

  /** A session started for a row has no origin exactly while its writing is
      pending, and once it has failed. */
  lemma NoOriginExactly(w: World, r: nat)
    requires Inv(w) && r in w.launches
    ensures r in w.s.runs && r in w.roots && w.launches[r] in w.s.sessions
    ensures !HasOrigin(w, w.launches[r]) <==> OriginPending(w, r) || r in w.orphans
  {
    assert LaunchSound(w, r) && RowSound(w, r) && SessionSound(w, w.launches[r]) && CourseSound(w, r);
  }

  /** While the worker is idle no call of its own is at anything. */
  lemma IdleIsDone(w: World, r: nat)
    requires Inv(w) && WorkerInv(w) && Idle(w) && r in w.launches && r in w.roots && w.roots[r].task in w.observed
    ensures !OriginPending(w, r)
  {
    assert ObservedSound(w, w.roots[r].task);
  }

  lemma LifecycleKeeps(w: World, session: nat, hooks: seq<nat>)
    requires Inv(w) && WorkerInv(w)
    ensures WorkerInv(Step(w, Lifecycle(session, hooks)))
  {
    var v, n := Step(w, Lifecycle(session, hooks)), w.s.nextTask;
    assert ObservedSound(w, n);
    forall t ensures ObservedSound(v, t) {
      assert ObservedSound(w, t) && TaskSound(w, t);
    }
    forall t, r ensures ChainSound(v, t, r) {
      assert ChainSound(w, t, r) && LaunchSound(w, r);
      if r in w.launches {
        RootStays(w, Lifecycle(session, hooks), r);
        NoOriginExactly(w, r);
        if Idle(w) && w.roots[r].task in w.observed { IdleIsDone(w, r); }
      }
    }
  }

  lemma StepKeeps(w: World, e: Event)
    requires Inv(w) && WorkerInv(w)
    ensures WorkerInv(Step(w, e))
  {
    if e.Lifecycle? { LifecycleKeeps(w, e.session, e.hooks); } else { OtherKeeps(w, e); }
  }

  lemma {:induction false} RunKeeps(es: seq<Event>)
    ensures Inv(Run(INIT, es)) && WorkerInv(Run(INIT, es))
  {
    Reached(es, 0);
    if es != [] {
      RunKeeps(es[..|es| - 1]);
      StepKeeps(Run(INIT, es[..|es| - 1]), es[|es| - 1]);
    }
  }

  lemma EventMoves(w: World, session: nat, hooks: seq<nat>)
    ensures Step(w, Lifecycle(session, hooks)) != w <==> Idle(w) && Triggers(w.s, session) && hooks != []
  {
    var v := Step(w, Lifecycle(session, hooks));
    assert Idle(w) && Triggers(w.s, session) && hooks != [] ==> v.s.nextTask == w.s.nextTask + 1;
  }

  /** An event of a session a hook started sets off hooks exactly if the worker is
      free to look at it, it meets some, and the session has no origin, which is
      to say its writing has failed, or it is pending and the hook's call is an
      external event's or a webhook's. */
  lemma SetsOffExactly(w: World, r: nat, hooks: seq<nat>)
    requires Inv(w) && WorkerInv(w) && r in w.launches
    ensures r in w.roots
    ensures Step(w, Lifecycle(w.launches[r], hooks)) != w <==>
              Idle(w) && hooks != [] && (r in w.orphans || (w.roots[r].task !in w.observed && OriginPending(w, r)))
  {
    NoOriginExactly(w, r);
    EventMoves(w, w.launches[r], hooks);
    if Idle(w) && w.roots[r].task in w.observed { IdleIsDone(w, r); }
  }

  /** In every run: a session started by a call of the worker sets off hooks only
      if its origin could not be written. */
  lemma WorkerSessionsAreMute(es: seq<Event>, r: nat, hooks: seq<nat>)
    requires r in Run(INIT, es).launches && r in Run(INIT, es).roots
    requires Run(INIT, es).roots[r].task in Run(INIT, es).observed
    ensures var w := Run(INIT, es);
            Step(w, Lifecycle(w.launches[r], hooks)) != w <==> Idle(w) && hooks != [] && r in w.orphans
  {
    RunKeeps(es);
    SetsOffExactly(Run(INIT, es), r, hooks);
  }

  /** In every run in which no origin write failed, hooks set off hooks once and no
      more: a call set off by the session of a row, started by a hook, means that
      the row's own call was not set off by a session. */
  lemma TwoGenerations(es: seq<Event>, t: nat, r: nat)
    requires Run(INIT, es).orphans == {}
    requires var w := Run(INIT, es); t in w.observed && r in w.launches && w.launches[r] == w.observed[t]
    ensures r in Run(INIT, es).roots && Run(INIT, es).roots[r].task !in Run(INIT, es).observed
  {
    RunKeeps(es);
    assert ChainSound(Run(INIT, es), t, r);
    NoOriginExactly(Run(INIT, es), r);
  }
}
