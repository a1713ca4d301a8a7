/** How run rows end and what is announced of them, in every run. */
module AutomationRuns {
  import opened Options
  import opened Automation
  import opened AutomationProtocol
  import opened AutomationInvariant

  /** The row's call is done with it. */
  predicate Left(w: World, r: nat) {
    r in w.s.runs && r in w.roots && PhaseOf(w, r).Ready?
  }

  /** The session has the origin of that row. */
  predicate StartedFor(w: World, session: nat, r: nat) {
    session in w.s.sessions && w.s.sessions[session].Some? && w.s.sessions[session].value.run == r
  }

  lemma Reached(es: seq<Event>, r: nat)
    ensures var w := Run(INIT, es); Inv(w) && (r in w.s.runs ==> r in w.roots && Sound(SliceOf(w, r)))
  {
    InitKeeps();
    RunKeeps(INIT, es);
    assert RowSound(Run(INIT, es), r);
  }

  // --- ends ---

  predicate HasOrigin(w: World, session: nat) {
    session in w.s.sessions && w.s.sessions[session].Some?
  }

  /** How the session first ended once its origin was written, of the ends whose
      write succeeded. */
  function FirstEnd(es: seq<Event>, session: nat): Option<bool> {
    if es == [] then None
    else
      var init, last := es[..|es| - 1], es[|es| - 1];
      if FirstEnd(init, session).Some? then FirstEnd(init, session)
      else if last.SessionEnds? && last.session == session && last.ok && HasOrigin(Run(INIT, init), session)
      then Some(last.success)
      else None
  }

  /** The run of a session with an origin is open exactly until such an end. */
  lemma OpenUntilEnded(w: World, session: nat)
    requires Inv(w) && HasOrigin(w, session)
    ensures EndsRun(w.s, session) <==> session !in w.ends
  {
    assert SessionSound(w, session) && RowSound(w, w.s.sessions[session].value.run);
  }

  lemma EndsUnchanged(w: World, e: Event, session: nat)
    requires !(e.SessionEnds? && e.session == session)
    ensures Get(Step(w, e).ends, session) == Get(w.ends, session)
  {
  }

  lemma {:induction false} EndsAreFirst(es: seq<Event>, session: nat)
    ensures Get(Run(INIT, es).ends, session) == FirstEnd(es, session)
  {
    if es != [] {
      var init, last := es[..|es| - 1], es[|es| - 1];
      EndsAreFirst(init, session);
      Reached(init, 0);
      if last.SessionEnds? && last.session == session {
        if HasOrigin(Run(INIT, init), session) { OpenUntilEnded(Run(INIT, init), session); }
      } else {
        EndsUnchanged(Run(INIT, init), last, session);
      }
    }
  }

  // --- how rows end ---

  /** A session that was started and has no origin. */
  predicate WithoutOrigin(w: World, session: nat) {
    session in w.s.sessions && w.s.sessions[session].None?
  }

  /** A row as its course, the writes lost and the ends since its session's
      origin was written make it. */
  ghost predicate SettledAs(es: seq<Event>, r: nat, course: Course)
    requires r in Run(INIT, es).s.runs
  {
    var w := Run(INIT, es);
    var row := w.s.runs[r];
    match course
    case Settles(status) =>
      && status in {Skipped, Succeeded, Failed} && row.session == None
      && row.status == (if r in w.lost then Queued else status)
      && (r in w.launches ==> status == Failed && WithoutOrigin(w, w.launches[r]))
    case Runs(session) =>
      && r in w.launches && w.launches[r] == session && StartedFor(w, session, r)
      && row.status == (match FirstEnd(es, session)
                        case Some(success) => if success then Succeeded else Failed
                        case None => if r in w.lost then Queued else Running)
      && row.session == if row.status.Queued? then None else Some(session)
  }

  /** A dispatched row its call has left is skipped, success or failed as the
      call decided, failed beside a running session if that session's origin
      could not be written, or belongs to the session started for it: running
      until the first end after the origin was written, success or failed by it
      from then on. It is queued exactly if the write the call made for it failed
      and there was no such end. */
  lemma DispatchedRowsSettle(es: seq<Event>, r: nat)
    requires Left(Run(INIT, es), r) && Run(INIT, es).roots[r].kind.ForEvent?
    ensures var w := Run(INIT, es);
            r in w.courses && SettledAs(es, r, w.courses[r])
  {
    RowSettles(es, r);
  }

  lemma RowSettles(es: seq<Event>, r: nat)
    requires Left(Run(INIT, es), r)
    ensures Run(INIT, es).roots[r].kind.ForEvent? ==> r in Run(INIT, es).courses
    ensures r in Run(INIT, es).courses ==> SettledAs(es, r, Run(INIT, es).courses[r])
  {
    LeftRow(es, r);
  }

  /** What is known of a row its call has left. */
  lemma LeftRow(es: seq<Event>, r: nat)
    requires Left(Run(INIT, es), r)
    ensures var w := Run(INIT, es);
            var x := SliceOf(w, r);
            && SettledSlice(x)
            && (x.course.Some? && x.course.value.Runs? ==>
                  var session := x.course.value.session;
                  x.end == FirstEnd(es, session) && StartedFor(w, session, r) && HasOrigin(w, session))
            && (r in w.launches && !(x.course.Some? && x.course.value.Runs?) ==> WithoutOrigin(w, w.launches[r]))
  {
    var w := Run(INIT, es);
    Reached(es, r);
    assert CourseSound(w, r);
    SettlesSlice(SliceOf(w, r));
    if r in w.courses && w.courses[r].Runs? {
      EndsAreFirst(es, w.courses[r].session);
    } else if r in w.launches {
      NoCourseNoOrigin(w, r);
    }
  }

  /** Only a row that runs a session has one with an origin. */
  lemma NoCourseNoOrigin(w: World, r: nat)
    requires Inv(w) && r in w.launches && !(r in w.courses && w.courses[r].Runs?)
    ensures WithoutOrigin(w, w.launches[r])
  {
    assert LaunchSound(w, r) && SessionSound(w, w.launches[r]);
  }

  ghost predicate SettledSlice(x: Slice) {
    match x.course
    case None => x.kind.ForWebhook? && x.row.status == Queued
    case Some(Settles(status)) =>
      && status in {Skipped, Succeeded, Failed} && x.row.session == None && !x.kind.ForWebhook?
      && x.row.status == (if x.lost then Queued else status) && (x.launch.Some? ==> status == Failed)
    case Some(Runs(session)) =>
      && x.row.status == (if x.end.Some? then EndStatus(x.end.value) else if x.lost then Queued else Running)
      && x.row.session == (if x.row.status.Queued? then None else Some(session))
      && x.launch == Some(session) && !x.kind.ForTest?
  }

  lemma SettlesSlice(x: Slice)
    requires Sound(x) && x.phase.Ready?
    ensures SettledSlice(x)
  {
  }

  /** A row its call has left is running exactly if the origin of the session
      started for it was written, the link did not fail, and since then no end of
      the session was written: an end before the origin, or one whose write
      failed, leaves it running. */
  lemma RunningExactly(es: seq<Event>, r: nat)
    requires Left(Run(INIT, es), r)
    ensures var w := Run(INIT, es);
            w.s.runs[r].status == Running <==>
              && r in w.launches && HasOrigin(w, w.launches[r]) && r !in w.lost
              && FirstEnd(es, w.launches[r]) == None
  {
    LeftRow(es, r);
  }

  /** A test's row is success or failed as its delivery went, or queued if
      writing that failed, and nothing is ever announced of it. */
  lemma TestRowsSettleSilently(es: seq<Event>, r: nat)
    requires Left(Run(INIT, es), r) && Run(INIT, es).roots[r].kind.ForTest?
    ensures var w := Run(INIT, es);
            && r in w.courses && w.courses[r] in {Settles(Succeeded), Settles(Failed)}
            && SettledAs(es, r, w.courses[r]) && Told(w.s.emitted, r) == None
  {
    Reached(es, r);
    RowSettles(es, r);
  }

  /** A webhook's row its call has left is queued exactly if no session was
      started for it, or one was and goes on without an origin, or the link failed
      and no end since the origin was written. */
  lemma WebhookRunStaysQueued(es: seq<Event>, r: nat)
    requires Left(Run(INIT, es), r) && Run(INIT, es).roots[r].kind.ForWebhook?
    ensures var w := Run(INIT, es);
            w.s.runs[r].status.Queued? <==>
              || r !in w.launches
              || WithoutOrigin(w, w.launches[r])
              || (r in w.lost && FirstEnd(es, w.launches[r]) == None)
  {
    LeftRow(es, r);
  }

  // --- rows over time ---

  function Rank(s: Status): nat {
    match s
    case Queued => 0
    case Running => 1
    case _ => 2
  }

  /** A row only moves on, keeps its hook, and once closed does not change. */
  predicate MovesOn(earlier: RunRow, later: RunRow) {
    && later.hook == earlier.hook && Rank(earlier.status) <= Rank(later.status)
    && (!Open(earlier.status) ==> later == earlier)
  }

  lemma SettlesOn(w: World, t: nat, ok: bool, run: nat, r: nat)
    requires Held(w, t, run) && w.s.tasks[t].phase.Settling? && r in w.s.runs
    ensures r in SettleWritten(w.s, t, ok).runs && MovesOn(w.s.runs[r], SettleWritten(w.s, t, ok).runs[r])
  {
  }

  lemma LinksOn(s: State, t: nat, ok: bool, r: nat)
    requires Stands(s, t) && s.tasks[t].phase.Linking? && r in s.runs
    ensures r in LinkWritten(s, t, ok).runs && MovesOn(s.runs[r], LinkWritten(s, t, ok).runs[r])
  {
  }

  lemma EndsOn(s: State, session: nat, success: bool, ok: bool, r: nat)
    requires r in s.runs
    ensures r in SessionEnded(s, session, success, ok).runs
    ensures MovesOn(s.runs[r], SessionEnded(s, session, success, ok).runs[r])
  {
  }

  /** The other steps change no row. */
  lemma RowStays(w: World, e: Event, r: nat)
    requires r in w.s.runs && r < w.s.nextRun && !e.SettleReply? && !e.LinkReply? && !e.SessionEnds?
    ensures r in Step(w, e).s.runs && Step(w, e).s.runs[r] == w.s.runs[r]
  {
  }

  lemma StepMovesOn(w: World, e: Event, r: nat)
    requires Inv(w) && r in w.s.runs
    ensures r in Step(w, e).s.runs && MovesOn(w.s.runs[r], Step(w, e).s.runs[r])
  {
    if e.SettleReply? {
      if Stands(w.s, e.t) && w.s.tasks[e.t].phase.Settling? {
        HeldIsKnown(w, e.t, w.s.tasks[e.t].phase.run);
        SettlesOn(w, e.t, e.ok, w.s.tasks[e.t].phase.run, r);
      }
    } else if e.LinkReply? {
      if Stands(w.s, e.t) && w.s.tasks[e.t].phase.Linking? { LinksOn(w.s, e.t, e.ok, r); }
    } else if e.SessionEnds? {
      EndsOn(w.s, e.session, e.success, e.ok, r);
    } else {
      RowStays(w, e, r);
    }
  }

  lemma RowMovesOn(es: seq<Event>, e: Event, r: nat)
    requires r in Run(INIT, es).s.runs
    ensures r in Run(INIT, es + [e]).s.runs && MovesOn(Run(INIT, es).s.runs[r], Run(INIT, es + [e]).s.runs[r])
  {
    Reached(es, r);
    StepMovesOn(Run(INIT, es), e, r);
    assert (es + [e])[..|es|] == es;
  }

  lemma {:induction false} RowsMoveOn(es: seq<Event>, more: seq<Event>, r: nat)
    requires r in Run(INIT, es).s.runs
    ensures r in Run(INIT, es + more).s.runs && MovesOn(Run(INIT, es).s.runs[r], Run(INIT, es + more).s.runs[r])
  {
    if more == [] {
      assert es + more == es;
    } else {
      var init, last := more[..|more| - 1], more[|more| - 1];
      RowsMoveOn(es, init, r);
      RowMovesOn(es + init, last, r);
      assert es + more == es + init + [last];
    }
  }

  // --- announcements ---

  /** At this step "running" is announced of a run whose end has been announced. */
  ghost predicate TooLate(w: World, e: Event, r: nat) {
    && e.Announce? && At(w, e.t, Announcing(r, Running))
    && Told(w.s.emitted, r).Some? && !Open(Told(w.s.emitted, r).value)
  }

  ghost predicate TooLateAt(es: seq<Event>, i: nat, r: nat) {
    i < |es| && TooLate(Run(INIT, es[..i]), es[i], r)
  }

  ghost predicate AnnouncedTooLate(es: seq<Event>, r: nat) {
    exists i: nat :: TooLateAt(es, i, r)
  }

  /** Whether the last announcement tells the row: a queued one has had none. */
  predicate Tells(w: World, r: nat)
    requires r in w.s.runs
  {
    Told(w.s.emitted, r) == if w.s.runs[r].status.Queued? then None else Some(w.s.runs[r].status)
  }

  /** The end written of the session started for a row. */
  function EndFor(w: World, r: nat): Option<bool> {
    EndOf(Get(w.courses, r), w.ends)
  }

  predicate MisledAt(w: World, r: nat) {
    EndFor(w, r).Some? && r !in w.s.due && Told(w.s.emitted, r) == Some(Running)
  }

  /** Nothing said of a row has changed. */
  predicate SameWords(w: World, v: World, r: nat) {
    EndFor(v, r) == EndFor(w, r) && Get(v.s.due, r) == Get(w.s.due, r) && Told(v.s.emitted, r) == Told(w.s.emitted, r)
  }

  /** Announcing is the one step that can mislead, and it cannot be made good. */
  lemma AnnounceMisleads(w: World, t: nat, run: nat)
    requires Held(w, t, run) && w.s.tasks[t].phase.Announcing?
    ensures !MisledAt(w, run) && (MisledAt(Said(w, t), run) <==> TooLate(w, Announce(t), run))
  {
    ToldMore(w.s.emitted, run, w.s.tasks[t].phase.status, run);
  }

  lemma AnnounceSame(w: World, t: nat, r: nat)
    requires Stands(w.s, t) && w.s.tasks[t].phase.Announcing? && w.s.tasks[t].phase.run != r
    ensures SameWords(w, Said(w, t), r)
  {
    ToldMore(w.s.emitted, w.s.tasks[t].phase.run, w.s.tasks[t].phase.status, r);
  }

  lemma EndAnnouncedStep(w: World, run: nat, r: nat)
    requires Inv(w) && run in w.s.due
    ensures if r == run then !MisledAt(Step(w, AnnounceEnd(run)), r) && !MisledAt(w, r)
            else SameWords(w, Step(w, AnnounceEnd(run)), r)
  {
    assert RowSound(w, run);
    ToldMore(w.s.emitted, run, w.s.due[run], r);
  }

  lemma EndedStep(w: World, session: nat, success: bool, r: nat)
    requires Inv(w) && EndsRun(w.s, session)
    ensures var v := Step(w, SessionEnds(session, success, true));
            if r == w.s.sessions[session].value.run then !MisledAt(v, r) && !MisledAt(w, r) else SameWords(w, v, r)
  {
    assert SessionSound(w, session) && RowSound(w, w.s.sessions[session].value.run);
    if r in w.courses && w.courses[r].Runs? { OwnSession(w, r, w.courses[r].session); }
  }

  lemma ActStep(w: World, t: nat, limiter: Verdict, action: Action, r: nat)
    requires Inv(w) && Stands(w.s, t) && w.s.tasks[t].phase.Created?
    ensures var v := Step(w, Act(t, limiter, action));
            if r == w.s.tasks[t].phase.run then !MisledAt(v, r) && !MisledAt(w, r) else SameWords(w, v, r)
  {
    HeldIsKnown(w, t, w.s.tasks[t].phase.run);
  }

  lemma OriginStep(w: World, t: nat, ok: bool, r: nat)
    requires Inv(w) && Stands(w.s, t) && w.s.tasks[t].phase.Originating?
    ensures var v := Step(w, OriginReply(t, ok));
            if r == w.s.tasks[t].phase.run then !MisledAt(v, r) && !MisledAt(w, r) else SameWords(w, v, r)
  {
    HeldIsKnown(w, t, w.s.tasks[t].phase.run);
    NoOriginYet(w, t, w.s.tasks[t].phase.run, w.s.tasks[t].phase.session);
  }

  lemma AnnounceStep(w: World, t: nat, r: nat)
    requires Inv(w)
    ensures MisledAt(Step(w, Announce(t)), r) <==> MisledAt(w, r) || TooLate(w, Announce(t), r)
  {
    if Stands(w.s, t) && w.s.tasks[t].phase.Announcing? {
      if w.s.tasks[t].phase.run == r {
        HeldIsKnown(w, t, r);
        AnnounceMisleads(w, t, r);
      } else {
        AnnounceSame(w, t, r);
      }
    }
  }

  lemma CreateStep(w: World, t: nat, ok: bool, r: nat)
    ensures SameWords(w, Step(w, CreateReply(t, ok)), r)
  {
  }

  lemma SettleStep(w: World, t: nat, ok: bool, r: nat)
    ensures SameWords(w, Step(w, SettleReply(t, ok)), r)
  {
  }

  lemma LinkStep(w: World, t: nat, ok: bool, r: nat)
    ensures SameWords(w, Step(w, LinkReply(t, ok)), r)
  {
  }

  lemma BeginStep(w: World, e: Event, r: nat)
    requires e.NewSession? || e.Lifecycle? || e.External? || e.Webhook? || e.Test?
    ensures SameWords(w, Step(w, e), r)
  {
  }

  lemma OtherStep(w: World, e: Event, r: nat)
    requires !e.Announce? && !e.AnnounceEnd? && !e.SessionEnds? && !e.Act? && !e.OriginReply?
    ensures SameWords(w, Step(w, e), r)
  {
    match e
    case CreateReply(t, ok) => CreateStep(w, t, ok, r);
    case SettleReply(t, ok) => SettleStep(w, t, ok, r);
    case LinkReply(t, ok) => LinkStep(w, t, ok, r);
    case _ => BeginStep(w, e, r);
  }

  lemma MisledStep(w: World, e: Event, r: nat)
    requires Inv(w)
    ensures MisledAt(Step(w, e), r) <==> MisledAt(w, r) || TooLate(w, e, r)
  {
    if e.Announce? {
      AnnounceStep(w, e.t, r);
    } else if e.AnnounceEnd? {
      if e.run in w.s.due { EndAnnouncedStep(w, e.run, r); }
    } else if e.SessionEnds? {
      if e.ok && EndsRun(w.s, e.session) { EndedStep(w, e.session, e.success, r); }
    } else if e.Act? {
      if Stands(w.s, e.t) && w.s.tasks[e.t].phase.Created? { ActStep(w, e.t, e.limiter, e.action, r); }
    } else if e.OriginReply? {
      if Stands(w.s, e.t) && w.s.tasks[e.t].phase.Originating? { OriginStep(w, e.t, e.ok, r); }
    } else {
      OtherStep(w, e, r);
    }
  }

  lemma TooLateBefore(es: seq<Event>, n: nat, i: nat, r: nat)
    requires i < n <= |es|
    ensures TooLateAt(es[..n], i, r) <==> TooLateAt(es, i, r)
  {
    assert es[..n][..i] == es[..i];
  }

  lemma TooLateSplits(es: seq<Event>, r: nat)
    requires es != []
    ensures var n := |es| - 1;
            AnnouncedTooLate(es, r) <==> AnnouncedTooLate(es[..n], r) || TooLate(Run(INIT, es[..n]), es[n], r)
  {
    var n := |es| - 1;
    if AnnouncedTooLate(es[..n], r) {
      var i: nat :| TooLateAt(es[..n], i, r);
      TooLateBefore(es, n, i, r);
    }
    if TooLate(Run(INIT, es[..n]), es[n], r) { assert TooLateAt(es, n, r); }
    if AnnouncedTooLate(es, r) {
      var i: nat :| TooLateAt(es, i, r);
      if i < n { TooLateBefore(es, n, i, r); }
    }
  }

  lemma {:induction false} MisledExactly(es: seq<Event>, r: nat)
    ensures MisledAt(Run(INIT, es), r) <==> AnnouncedTooLate(es, r)
  {
    if es != [] {
      var n := |es| - 1;
      MisledExactly(es[..n], r);
      Reached(es[..n], r);
      MisledStep(Run(INIT, es[..n]), es[n], r);
      TooLateSplits(es, r);
    }
  }

  lemma TellsUnlessMisled(w: World, r: nat)
    requires Left(w, r) && Sound(SliceOf(w, r)) && r !in w.s.due && !w.roots[r].kind.ForTest?
    ensures Tells(w, r) <==> !MisledAt(w, r)
  {
  }

  /** In every run, once a row's call has left it and no end of its session is
      still to be announced, the last announcement tells the row exactly unless
      "running" was announced of it after its end was. */
  lemma AnnouncementsTellExactly(es: seq<Event>, r: nat)
    requires var w := Run(INIT, es); Left(w, r) && r !in w.s.due && !w.roots[r].kind.ForTest?
    ensures Tells(Run(INIT, es), r) <==> !AnnouncedTooLate(es, r)
  {
    Reached(es, r);
    MisledExactly(es, r);
    TellsUnlessMisled(Run(INIT, es), r);
  }

  /** No end of the row's session is written before its call has left it. */
  ghost predicate EndsWait(es: seq<Event>, r: nat) {
    forall i {:trigger es[i]} :: 0 <= i < |es| && es[i].SessionEnds? && StartedFor(Run(INIT, es[..i]), es[i].session, r)
      ==> Left(Run(INIT, es[..i]), r)
  }

  lemma EndsWaitBefore(es: seq<Event>, n: nat, r: nat)
    requires EndsWait(es, r) && n <= |es|
    ensures EndsWait(es[..n], r)
  {
    forall i | 0 <= i < n && es[..n][i].SessionEnds? && StartedFor(Run(INIT, es[..n][..i]), es[..n][i].session, r)
      ensures Left(Run(INIT, es[..n][..i]), r)
    {
      assert es[..n][..i] == es[..i] && es[..n][i] == es[i];
    }
  }

  predicate EndedWhileHeld(w: World, r: nat) {
    r in w.s.runs && !PhaseOf(w, r).Ready? && EndFor(w, r).Some?
  }

  /** Only an end written for it changes a row's end. */
  lemma EndStays(w: World, e: Event, r: nat)
    requires Inv(w) && !(e.SessionEnds? && StartedFor(w, e.session, r))
    ensures EndFor(Step(w, e), r) == EndFor(w, r) || EndFor(Step(w, e), r) == None
  {
    if r in w.courses && w.courses[r].Runs? { OwnSession(w, r, w.courses[r].session); }
    if e.OriginReply? && Stands(w.s, e.t) && w.s.tasks[e.t].phase.Originating? {
      HeldIsKnown(w, e.t, w.s.tasks[e.t].phase.run);
      NoOriginYet(w, e.t, w.s.tasks[e.t].phase.run, w.s.tasks[e.t].phase.session);
    }
  }

  /** The hooks a call has not created a row for yet. */
  function Remaining(s: State, t: nat): nat {
    if t !in s.tasks || s.tasks[t].hooks == [] then 0
    else |s.tasks[t].hooks| - if s.tasks[t].phase.Ready? then 0 else 1
  }

  /** A call only ever goes on to no row or to a new one, does not come back to
      where it created one, and never has more hooks left. */
  ghost predicate MovesAlong(s: State, v: State, u: nat) {
    && Remaining(v, u) <= Remaining(s, u)
    && (u in v.tasks ==>
          && u in s.tasks && RunOf(v.tasks[u].phase) in {None, Some(s.nextRun), RunOf(s.tasks[u].phase)}
          && (v.tasks[u].phase.Created? ==> v.tasks[u].phase in {Created(s.nextRun), s.tasks[u].phase}))
  }

  lemma CreateMoves(s: State, t: nat, ok: bool, u: nat)
    requires Stands(s, t) && s.tasks[t].phase.Ready?
    ensures MovesAlong(s, RowCreated(s, t, ok), u)
  {
  }

  lemma ActMoves(s: State, t: nat, limiter: Verdict, action: Action, u: nat)
    requires Stands(s, t) && s.tasks[t].phase.Created?
    ensures MovesAlong(s, Acted(s, t, limiter, action), u)
  {
  }

  lemma SettleMoves(s: State, t: nat, ok: bool, u: nat)
    requires Stands(s, t) && s.tasks[t].phase.Settling?
    ensures MovesAlong(s, SettleWritten(s, t, ok), u)
  {
  }

  lemma OriginMoves(s: State, t: nat, ok: bool, u: nat)
    requires Stands(s, t) && s.tasks[t].phase.Originating?
    ensures MovesAlong(s, OriginWritten(s, t, ok), u)
  {
  }

  lemma LinkMoves(s: State, t: nat, ok: bool, u: nat)
    requires Stands(s, t) && s.tasks[t].phase.Linking?
    ensures MovesAlong(s, LinkWritten(s, t, ok), u)
  {
  }

  lemma AnnounceMoves(s: State, t: nat, u: nat)
    requires Stands(s, t) && s.tasks[t].phase.Announcing?
    ensures MovesAlong(s, Announced(s, t), u)
  {
  }

  predicate Advances(e: Event) {
    e.CreateReply? || e.Act? || e.SettleReply? || e.OriginReply? || e.LinkReply? || e.Announce?
  }

  lemma OtherMoves(w: World, e: Event, u: nat)
    requires u < w.s.nextTask && !Advances(e)
    ensures MovesAlong(w.s, Step(w, e).s, u)
  {
  }

  predicate Writes(e: Event) {
    e.SettleReply? || e.OriginReply? || e.LinkReply?
  }

  lemma WriteMoves(w: World, e: Event, u: nat)
    requires u < w.s.nextTask && Writes(e)
    ensures MovesAlong(w.s, Step(w, e).s, u)
  {
    if e.SettleReply? {
      if Stands(w.s, e.t) && w.s.tasks[e.t].phase.Settling? { SettleMoves(w.s, e.t, e.ok, u); }
    } else if e.OriginReply? {
      if Stands(w.s, e.t) && w.s.tasks[e.t].phase.Originating? { OriginMoves(w.s, e.t, e.ok, u); }
    } else {
      if Stands(w.s, e.t) && w.s.tasks[e.t].phase.Linking? { LinkMoves(w.s, e.t, e.ok, u); }
    }
  }

  lemma StepMoves(w: World, e: Event, u: nat)
    requires u < w.s.nextTask
    ensures MovesAlong(w.s, Step(w, e).s, u)
  {
    match e
    case CreateReply(t, ok) => if At(w, t, Ready) { CreateMoves(w.s, t, ok, u); }
    case Act(t, limiter, action) =>
      if Stands(w.s, t) && w.s.tasks[t].phase.Created? { ActMoves(w.s, t, limiter, action, u); }
    case Announce(t) => if Stands(w.s, t) && w.s.tasks[t].phase.Announcing? { AnnounceMoves(w.s, t, u); }
    case _ => if Writes(e) { WriteMoves(w, e, u); } else { OtherMoves(w, e, u); }
  }

  /** A row its call has left is not taken up again. */
  lemma LeftStays(w: World, e: Event, r: nat)
    requires Inv(w) && Left(w, r)
    ensures PhaseOf(Step(w, e), r).Ready?
  {
    var u, v := w.roots[r].task, Step(w, e);
    RootStays(w, e, r);
    StepMoves(w, e, u);
  }

  lemma RootStays(w: World, e: Event, r: nat)
    requires Inv(w) && r in w.s.runs
    ensures r in w.roots && r < w.s.nextRun && w.roots[r].task < w.s.nextTask
    ensures r in Step(w, e).roots && Step(w, e).roots[r] == w.roots[r]
  {
    assert RowSound(w, r);
  }

  lemma {:induction false} NotEndedWhileHeld(es: seq<Event>, r: nat)
    requires EndsWait(es, r)
    ensures !EndedWhileHeld(Run(INIT, es), r)
  {
    if es != [] {
      var n := |es| - 1;
      var w, e := Run(INIT, es[..n]), es[n];
      EndsWaitBefore(es, n, r);
      NotEndedWhileHeld(es[..n], r);
      Reached(es[..n], r);
      if Left(w, r) {
        LeftStays(w, e, r);
      } else {
        EndStays(w, e, r);
        if r !in w.s.runs { assert r !in w.courses; }
      }
    }
  }

  lemma NeverTooLate(es: seq<Event>, r: nat)
    requires EndsWait(es, r)
    ensures !AnnouncedTooLate(es, r)
  {
    forall i: nat | i < |es| ensures !TooLateAt(es, i, r) {
      EndsWaitBefore(es, i, r);
      NotEndedWhileHeld(es[..i], r);
      Reached(es[..i], r);
      LateMeansEnded(Run(INIT, es[..i]), es[i], r);
    }
  }

  /** So the announcements tell a row whose session's ends all come after its
      call has left it. */
  lemma EndsAfterTheCallTell(es: seq<Event>, r: nat)
    requires var w := Run(INIT, es); Left(w, r) && r !in w.s.due && !w.roots[r].kind.ForTest?
    requires EndsWait(es, r)
    ensures Tells(Run(INIT, es), r)
  {
    AnnouncementsTellExactly(es, r);
    NeverTooLate(es, r);
  }

  lemma LateMeansEnded(w: World, e: Event, r: nat)
    requires Inv(w)
    ensures TooLate(w, e, r) ==> EndedWhileHeld(w, r)
  {
    if TooLate(w, e, r) { HeldIsKnown(w, e.t, r); }
  }
}
