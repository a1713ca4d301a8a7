/** What the limiter and the action make of a row: in every run the one time its
    call acts on it decides how it ends. */
module AutomationDecisions {
  import opened Options
  import opened Automation
  import opened AutomationInvariant
  import opened AutomationProtocol
  import opened AutomationRuns
  import opened AutomationWorker

  /** At event i the call at hand with the row acts on it. */
  ghost predicate ActsOn(es: seq<Event>, i: nat, r: nat) {
    i < |es| && es[i].Act? && At(Run(INIT, es[..i]), es[i].t, Created(r))
  }

  /** The row is to end so, and no session was started for it. */
  ghost predicate EndsAs(w: World, r: nat, status: Status) {
    r !in w.launches && Get(w.courses, r) == Some(Settles(status))
  }

  /** A session was started for the row: it is the row's with its origin, and
      without one the row fails, but for a webhook's, which is left alone. */
  ghost predicate Started(w: World, r: nat)
    requires r in w.roots
  {
    && r in w.launches
    && Get(w.courses, r) ==
         if HasOrigin(w, w.launches[r]) then Some(Runs(w.launches[r]))
         else if r in w.orphans && !w.roots[r].kind.ForWebhook? then Some(Settles(Failed))
         else None
  }

  /** What the limiter said and the action came to decide for a row. */
  ghost predicate DecidedBy(w: World, r: nat, limiter: Verdict, action: Action)
    requires r in w.roots
  {
    match w.roots[r].kind
    case ForEvent =>
      if limiter != Accepted then EndsAs(w, r, Skipped)
      else
        (match action
         case WebhookOutbound(delivered) => EndsAs(w, r, if delivered then Succeeded else Failed)
         case AgentRun(local, projectExists, serializes, starts) =>
           if local && projectExists && serializes && starts then Started(w, r) else EndsAs(w, r, Failed))
    case ForWebhook =>
      if action.AgentRun? && action.serializes && action.starts then Started(w, r)
      else r !in w.launches && r !in w.courses
    case ForTest => EndsAs(w, r, if action == WebhookOutbound(true) then Succeeded else Failed)
  }

  // --- the step that acts ---

  lemma StartedIs(w: World, r: nat)
    requires Inv(w) && r in w.launches
    ensures r in w.roots && Started(w, r)
  {
    NoOriginExactly(w, r);
    assert RowSound(w, r) && CourseSound(w, r) && SessionSound(w, w.launches[r]);
  }

  lemma ActsNow(w: World, t: nat, r: nat, limiter: Verdict, action: Action)
    requires Inv(w) && At(w, t, Created(r))
    ensures var v := Step(w, Act(t, limiter, action));
            && r in v.s.runs && r in v.roots && !PhaseOf(v, r).Created?
            && DecidedBy(v, r, limiter, action)
  {
    var v := Step(w, Act(t, limiter, action));
    HeldIsKnown(w, t, r);
    AutomationInvariant.StepKeeps(w, Act(t, limiter, action));
    assert r !in w.launches && r !in w.courses;
    if r in v.launches { StartedIs(v, r); }
  }

  // --- the other steps ---

  lemma NotCreatedStays(w: World, e: Event, r: nat)
    requires Inv(w) && r in w.s.runs && !PhaseOf(w, r).Created?
    ensures !PhaseOf(Step(w, e), r).Created?
  {
    RootStays(w, e, r);
    StepMoves(w, e, w.roots[r].task);
  }

  lemma CoursesStay(w: World, e: Event)
    requires !e.Act? && !e.OriginReply?
    ensures Step(w, e).courses == w.courses && Step(w, e).launches == w.launches
  {
  }

  /** An action on another row, and an origin written for another, leave this
      row's session and course alone. */
  lemma LaunchStays(w: World, e: Event, r: nat)
    requires Inv(w) && r in w.s.runs && !PhaseOf(w, r).Created?
    ensures Get(Step(w, e).launches, r) == Get(w.launches, r)
    ensures r !in w.launches ==> Get(Step(w, e).courses, r) == Get(w.courses, r)
  {
    if e.Act? && Stands(w.s, e.t) && w.s.tasks[e.t].phase.Created? {
      HeldIsKnown(w, e.t, w.s.tasks[e.t].phase.run);
    } else if e.OriginReply? && Stands(w.s, e.t) && w.s.tasks[e.t].phase.Originating? {
      HeldIsKnown(w, e.t, w.s.tasks[e.t].phase.run);
      assert RowSound(w, r);
    } else if !e.Act? && !e.OriginReply? {
      CoursesStay(w, e);
    }
  }

  /** A decision stands whatever happens next. */
  lemma DecisionStands(w: World, e: Event, r: nat, limiter: Verdict, action: Action)
    requires Inv(w) && r in w.s.runs && r in w.roots && !PhaseOf(w, r).Created? && DecidedBy(w, r, limiter, action)
    ensures var v := Step(w, e);
            && r in v.s.runs && r in v.roots && !PhaseOf(v, r).Created?
            && DecidedBy(v, r, limiter, action)
  {
    AutomationInvariant.StepKeeps(w, e);
    RootStays(w, e, r);
    NotCreatedStays(w, e, r);
    LaunchStays(w, e, r);
    if r in w.launches { StartedIs(Step(w, e), r); }
  }

  // --- whole runs ---

  /** The row's call has acted on it, and that decision stands. */
  ghost predicate Decided(w: World, r: nat, limiter: Verdict, action: Action) {
    r in w.s.runs && r in w.roots && !PhaseOf(w, r).Created? && DecidedBy(w, r, limiter, action)
  }

  lemma ActDecidesAtOnce(es: seq<Event>, e: Event, r: nat)
    requires e.Act? && At(Run(INIT, es), e.t, Created(r))
    ensures Decided(Run(INIT, es + [e]), r, e.limiter, e.action)
  {
    Reached(es, r);
    assert (es + [e])[..|es|] == es;
    ActsNow(Run(INIT, es), e.t, r, e.limiter, e.action);
  }

  lemma DecisionStandsNext(es: seq<Event>, e: Event, r: nat, limiter: Verdict, action: Action)
    requires Decided(Run(INIT, es), r, limiter, action)
    ensures Decided(Run(INIT, es + [e]), r, limiter, action)
  {
    Reached(es, r);
    assert (es + [e])[..|es|] == es;
    DecisionStands(Run(INIT, es), e, r, limiter, action);
  }

  lemma {:induction false} ActDecides(es: seq<Event>, i: nat, r: nat)
    requires ActsOn(es, i, r)
    ensures Decided(Run(INIT, es), r, es[i].limiter, es[i].action)
  {
    var init, last := es[..|es| - 1], es[|es| - 1];
    assert es == init + [last];
    if i == |init| {
      ActDecidesAtOnce(init, last, r);
    } else {
      assert init[..i] == es[..i];
      ActDecides(init, i, r);
      DecisionStandsNext(init, last, r, es[i].limiter, es[i].action);
    }
  }

  lemma NoSecondAct(es: seq<Event>, i: nat, j: nat, r: nat)
    requires ActsOn(es, i, r) && ActsOn(es, j, r)
    ensures i >= j
  {
    if i < j {
      assert es[..j][..i] == es[..i];
      ActDecides(es[..j], i, r);
      Reached(es[..j], r);
      HeldIsKnown(Run(INIT, es[..j]), es[j].t, r);
    }
  }

  /** The task is where it was. */
  ghost predicate Waits(w: World, v: World, u: nat)
    requires u in w.s.tasks
  {
    u in v.s.tasks && v.s.tasks[u] == w.s.tasks[u]
  }

  lemma CreatedWaitsForWrites(w: World, e: Event, u: nat)
    requires u in w.s.tasks && w.s.tasks[u].phase.Created? && Writes(e)
    ensures Waits(w, Step(w, e), u)
  {
  }

  lemma CreatedWaitsForOthers(w: World, e: Event, u: nat)
    requires u in w.s.tasks && u < w.s.nextTask && !Advances(e)
    ensures Waits(w, Step(w, e), u)
  {
  }

  lemma CreatedWaitsForActs(w: World, e: Event, u: nat)
    requires u in w.s.tasks && e.Act? && e.t != u
    ensures Waits(w, Step(w, e), u)
  {
  }

  lemma CreatedWaitsForCalls(w: World, e: Event, u: nat)
    requires u in w.s.tasks && w.s.tasks[u].phase.Created? && (e.CreateReply? || e.Announce?)
    ensures Waits(w, Step(w, e), u)
  {
  }

  /** Writes, announcements and other calls leave a call that stands at a created
      row there. */
  lemma CreatedWaits(w: World, e: Event, u: nat)
    requires u in w.s.tasks && u < w.s.nextTask && w.s.tasks[u].phase.Created? && !(e.Act? && e.t == u)
    ensures Waits(w, Step(w, e), u)
  {
    if Writes(e) {
      CreatedWaitsForWrites(w, e, u);
    } else if !Advances(e) {
      CreatedWaitsForOthers(w, e, u);
    } else if e.Act? {
      CreatedWaitsForActs(w, e, u);
    } else {
      CreatedWaitsForCalls(w, e, u);
    }
  }

  /** Only its own action takes a created row on. */
  lemma OnlyActsTakeOn(w: World, e: Event, r: nat)
    requires Inv(w) && r in w.s.runs && PhaseOf(w, r).Created? && !PhaseOf(Step(w, e), r).Created?
    ensures e.Act? && At(w, e.t, Created(r))
  {
    var u := w.roots[r].task;
    RootStays(w, e, r);
    assert TaskSound(w, u);
    if !(e.Act? && e.t == u) { CreatedWaits(w, e, u); }
  }

  lemma RowsAreCreated(w: World, e: Event, r: nat)
    requires !e.CreateReply? && r !in w.s.runs
    ensures r !in Step(w, e).s.runs
  {
  }

  lemma NewRowIsCreated(w: World, e: Event, r: nat)
    requires Inv(w) && r !in w.s.runs && r in Step(w, e).s.runs
    ensures PhaseOf(Step(w, e), r).Created?
  {
    if !e.CreateReply? { RowsAreCreated(w, e, r); }
  }

  lemma {:induction false} ActedOn(es: seq<Event>, r: nat) returns (i: nat)
    requires r in Run(INIT, es).s.runs && !PhaseOf(Run(INIT, es), r).Created?
    ensures ActsOn(es, i, r)
  {
    var n := |es| - 1;
    var w := Run(INIT, es[..n]);
    Reached(es[..n], r);
    if r !in w.s.runs {
      NewRowIsCreated(w, es[n], r);
    }
    if PhaseOf(w, r).Created? {
      OnlyActsTakeOn(w, es[n], r);
      i := n;
    } else {
      i := ActedOn(es[..n], r);
      assert es[..n][..i] == es[..i];
    }
  }

  /** Every row its call has left was acted on once, and by what the limiter and
      the action were then it ends: a dispatched hook's row is skipped unless the
      limiter accepted it, and then ends by the delivery of an outbound hook, or
      has a session started for it exactly if everything that takes is there, and
      fails otherwise; a webhook's has a session started or is left alone; a
      test's ends by its delivery. */
  lemma LeftRowsWereDecided(es: seq<Event>, r: nat) returns (i: nat)
    requires Left(Run(INIT, es), r)
    ensures ActsOn(es, i, r) && (forall j: nat :: ActsOn(es, j, r) ==> j == i)
    ensures DecidedBy(Run(INIT, es), r, es[i].limiter, es[i].action)
  {
    i := ActedOn(es, r);
    ActDecides(es, i, r);
    forall j: nat | ActsOn(es, j, r) ensures j == i {
      NoSecondAct(es, i, j, r);
      NoSecondAct(es, j, i, r);
    }
  }

  /** So a hook the limiter holds back does nothing: no session is started for its
      row, and the row ends skipped unless writing that failed. */
  lemma LimitedHooksAreSkipped(es: seq<Event>, i: nat, r: nat)
    requires ActsOn(es, i, r) && es[i].limiter != Accepted
    requires Left(Run(INIT, es), r) && Run(INIT, es).roots[r].kind.ForEvent?
    ensures var w := Run(INIT, es);
            && r !in w.launches
            && w.s.runs[r].status == (if r in w.lost then Queued else Skipped) && w.s.runs[r].session == None
  {
    ActDecides(es, i, r);
    DispatchedRowsSettle(es, r);
  }
}
