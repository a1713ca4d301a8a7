/** Every step of the automation protocol keeps its invariant. */
module AutomationInvariant {
  import opened Options
  import opened Automation
  import opened AutomationProtocol

  lemma ToldMore(emitted: seq<(nat, Status)>, run: nat, status: Status, r: nat)
    ensures Told(emitted + [(run, status)], r) == if r == run then Some(status) else Told(emitted, r)
  {
    assert (emitted + [(run, status)])[..|emitted|] == emitted;
  }

  lemma {:induction false} ToldNothing(emitted: seq<(nat, Status)>, r: nat)
    requires forall i :: 0 <= i < |emitted| ==> emitted[i].0 != r
    ensures Told(emitted, r) == None
  {
    if emitted != [] { ToldNothing(emitted[..|emitted| - 1], r); }
  }

  /** A step that changes no task but `t`, whose row is `run` before and after,
      if it has one, and changes rows, courses and announcements of `run` only. */
  ghost predicate Local(w: World, v: World, t: nat, run: nat) {
    && v.s.nextRun == w.s.nextRun && v.s.nextTask == w.s.nextTask && v.offers == w.offers && v.roots == w.roots
    && v.s.runs.Keys == w.s.runs.Keys
    && (forall u :: u != t ==>
          (u in v.s.tasks <==> u in w.s.tasks) && (u in v.s.tasks ==> v.s.tasks[u] == w.s.tasks[u]))
    && (forall r :: r != run ==>
          && (r in w.s.runs ==> v.s.runs[r] == w.s.runs[r])
          && Get(v.courses, r) == Get(w.courses, r) && Get(v.launches, r) == Get(w.launches, r)
          && (r in v.lost <==> r in w.lost) && (r in v.orphans <==> r in w.orphans)
          && Get(v.s.due, r) == Get(w.s.due, r) && Told(v.s.emitted, r) == Told(w.s.emitted, r))
  }

  /** The row at hand of a standing task. */
  ghost predicate Holds(w: World, t: nat, run: nat) {
    Stands(w.s, t) && RunOf(w.s.tasks[t].phase) == Some(run)
  }

  /** What the invariant says about a task and the row it holds. */
  ghost predicate Held(w: World, t: nat, run: nat) {
    && Holds(w, t, run) && TaskSound(w, t)
    && run in w.s.runs && run in w.roots && w.roots[run] == Root(t, w.s.tasks[t].kind)
    && PhaseOf(w, run) == w.s.tasks[t].phase && Sound(SliceOf(w, run))
  }

  lemma HeldIsKnown(w: World, t: nat, run: nat)
    requires Inv(w) && Holds(w, t, run)
    ensures Held(w, t, run)
  {
    assert TaskSound(w, t) && RowSound(w, run);
  }

  /** Rows not at hand keep their slice when their session's end is not touched. */
  lemma OtherRowSame(w: World, v: World, t: nat, run: nat, r: nat)
    requires Inv(w) && Holds(w, t, run) && Local(w, v, t, run) && v.ends == w.ends
    requires t in v.s.tasks ==> RunOf(v.s.tasks[t].phase) in {None, Some(run)}
    requires r != run && r in w.s.runs
    ensures r in v.s.runs && r in v.roots && SliceOf(v, r) == SliceOf(w, r)
  {
    assert TaskSound(w, t);
  }

  lemma OtherTaskSound(w: World, v: World, t: nat, run: nat, u: nat)
    requires Inv(w) && Local(w, v, t, run) && u != t
    requires run in w.s.runs && v.s.runs[run].hook == w.s.runs[run].hook
    ensures TaskSound(v, u)
  {
    assert TaskSound(w, u);
  }

  // --- one step of one task ---

  /** What `NextHook` leaves of the task. */
  lemma NextHookTask(w: World, v: World, t: nat)
    requires TaskSound(w, t) && Stands(w.s, t) && v.s.tasks == NextHook(w.s, t).tasks
    requires v.s.nextTask == w.s.nextTask && v.offers == w.offers
    ensures TaskSound(v, t) && (t in v.s.tasks ==> v.s.tasks[t].phase.Ready?)
  {
  }

  lemma CreateFailedKeeps(w: World, t: nat)
    requires Inv(w) && At(w, t, Ready)
    ensures Inv(CreateReplied(w, t, false))
  {
    var v := CreateReplied(w, t, false);
    assert TaskSound(w, t);
    NextHookTask(w, v, t);
    forall u ensures TaskSound(v, u) { assert TaskSound(w, u); }
    forall x ensures SessionSound(v, x) { assert SessionSound(w, x); }
    forall r ensures CourseSound(v, r) { assert CourseSound(w, r); }
    forall r ensures LaunchSound(v, r) { assert LaunchSound(w, r); }
    forall r ensures RowSound(v, r) {
      assert RowSound(w, r);
      if r in v.s.runs { assert SliceOf(v, r) == SliceOf(w, r); }
    }
  }

  lemma CreateKeeps(w: World, t: nat)
    requires Inv(w) && At(w, t, Ready)
    ensures Inv(CreateReplied(w, t, true))
  {
    var v, n := CreateReplied(w, t, true), w.s.nextRun;
    assert TaskSound(w, t);
    forall u ensures TaskSound(v, u) { assert TaskSound(w, u); }
    forall x ensures SessionSound(v, x) { assert SessionSound(w, x); }
    forall r ensures CourseSound(v, r) { assert CourseSound(w, r); }
    forall r ensures LaunchSound(v, r) { assert LaunchSound(w, r); }
    ToldNothing(w.s.emitted, n);
    assert LaunchSound(w, n);
    assert PhaseOf(v, n) == Created(n);
    forall r ensures RowSound(v, r) {
      assert RowSound(w, r);
      if r in v.s.runs && r != n { assert SliceOf(v, r) == SliceOf(w, r); }
    }
  }

  ghost predicate OwnTask(v: World, t: nat, run: nat) {
    TaskSound(v, t) && (t in v.s.tasks ==> RunOf(v.s.tasks[t].phase) in {None, Some(run)})
  }

  /** A local step that leaves its own task and row sound keeps the invariant. */
  lemma LocalKeeps(w: World, v: World, t: nat, run: nat)
    requires Inv(w) && Holds(w, t, run) && Local(w, v, t, run) && v.ends == w.ends && Ids(v)
    requires OwnTask(v, t, run)
    requires (forall x :: SessionSound(v, x)) && (forall r :: CourseSound(v, r)) && (forall r :: LaunchSound(v, r))
    requires run in v.s.runs && v.s.runs[run].hook == w.s.runs[run].hook && RowSound(v, run)
    ensures Inv(v)
  {
    HeldIsKnown(w, t, run);
    forall u ensures TaskSound(v, u) {
      if u != t { OtherTaskSound(w, v, t, run, u); }
    }
    forall r ensures RowSound(v, r) {
      assert RowSound(w, r);
      if r in v.s.runs && r != run { OtherRowSame(w, v, t, run, r); }
    }
  }

  predicate SessionsSame(w: World, v: World) {
    v.s.sessions == w.s.sessions && v.courses == w.courses && v.launches == w.launches
  }

  lemma LocalSessionsStay(w: World, v: World, t: nat, run: nat)
    requires Inv(w) && Local(w, v, t, run) && SessionsSame(w, v)
    requires run in w.s.runs && v.s.runs[run].hook == w.s.runs[run].hook
    ensures (forall x :: SessionSound(v, x)) && (forall r :: CourseSound(v, r)) && (forall r :: LaunchSound(v, r))
  {
    SessionsStay(w, v);
  }

  /** A step that touches no session, course or launch leaves them sound. */
  lemma SessionsStay(w: World, v: World)
    requires Inv(w) && SessionsSame(w, v)
    requires v.s.runs.Keys == w.s.runs.Keys && forall r :: r in w.s.runs ==> v.s.runs[r].hook == w.s.runs[r].hook
    ensures (forall x :: SessionSound(v, x)) && (forall r :: CourseSound(v, r)) && (forall r :: LaunchSound(v, r))
  {
    forall x ensures SessionSound(v, x) { assert SessionSound(w, x); }
    forall r ensures CourseSound(v, r) { assert CourseSound(w, r); }
    forall r ensures LaunchSound(v, r) { assert LaunchSound(w, r); }
  }

  /** The same for a step that leaves sessions, courses and launches alone. */
  lemma PlainKeeps(w: World, v: World, t: nat, run: nat)
    requires Inv(w) && Holds(w, t, run) && Local(w, v, t, run) && v.ends == w.ends && Ids(v) && OwnTask(v, t, run)
    requires SessionsSame(w, v)
    requires run in w.s.runs && run in v.s.runs && v.s.runs[run].hook == w.s.runs[run].hook && RowSound(v, run)
    ensures Inv(v)
  {
    LocalSessionsStay(w, v, t, run);
    LocalKeeps(w, v, t, run);
  }

  lemma LaunchRow(w: World, t: nat, run: nat, limiter: Verdict, action: Action)
    requires Held(w, t, run) && w.s.tasks[t].phase == Created(run) && w.s.nextSession !in w.ends
    requires Decide(w.s.tasks[t].kind, w.s.tasks[t].depth, limiter, action).Launch?
    ensures RowSound(Decided(w, t, limiter, action), run)
  {
  }

  lemma StayRow(w: World, t: nat, run: nat, limiter: Verdict, action: Action)
    requires Held(w, t, run) && w.s.tasks[t].phase == Created(run)
    requires !Decide(w.s.tasks[t].kind, w.s.tasks[t].depth, limiter, action).Launch?
    ensures RowSound(Decided(w, t, limiter, action), run)
  {
  }

  lemma ActRow(w: World, t: nat, run: nat, limiter: Verdict, action: Action)
    requires Held(w, t, run) && w.s.tasks[t].phase == Created(run) && w.s.nextSession !in w.ends
    ensures RowSound(Decided(w, t, limiter, action), run)
  {
    if Decide(w.s.tasks[t].kind, w.s.tasks[t].depth, limiter, action).Launch? {
      LaunchRow(w, t, run, limiter, action);
    } else {
      StayRow(w, t, run, limiter, action);
    }
  }

  lemma ActTask(w: World, t: nat, run: nat, limiter: Verdict, action: Action)
    requires Held(w, t, run) && w.s.tasks[t].phase == Created(run)
    ensures OwnTask(Decided(w, t, limiter, action), t, run)
  {
  }

  lemma ActIds(w: World, t: nat, run: nat, limiter: Verdict, action: Action)
    requires Holds(w, t, run) && run in w.s.runs && Ids(w) && w.s.tasks[t].phase == Created(run)
    requires forall r :: LaunchSound(w, r)
    ensures Ids(Decided(w, t, limiter, action))
  {
    forall r | r in w.launches ensures w.launches[r] < w.s.nextSession {
      assert LaunchSound(w, r);
    }
  }

  lemma ActLocal(w: World, t: nat, run: nat, limiter: Verdict, action: Action)
    requires Holds(w, t, run) && w.s.tasks[t].phase == Created(run)
    ensures Local(w, Decided(w, t, limiter, action), t, run)
  {
  }

  lemma ActSession(w: World, t: nat, run: nat, limiter: Verdict, action: Action, x: nat)
    requires Held(w, t, run) && Ids(w) && w.s.tasks[t].phase == Created(run) && SessionSound(w, x)
    ensures SessionSound(Decided(w, t, limiter, action), x)
  {
  }

  lemma ActCourse(w: World, t: nat, run: nat, limiter: Verdict, action: Action, r: nat)
    requires Held(w, t, run) && Ids(w) && w.s.tasks[t].phase == Created(run) && CourseSound(w, r)
    ensures CourseSound(Decided(w, t, limiter, action), r)
  {
  }

  lemma ActLaunch(w: World, t: nat, run: nat, limiter: Verdict, action: Action, r: nat)
    requires Held(w, t, run) && Ids(w) && w.s.tasks[t].phase == Created(run) && LaunchSound(w, r)
    ensures LaunchSound(Decided(w, t, limiter, action), r)
  {
  }

  lemma ActKeeps(w: World, t: nat, limiter: Verdict, action: Action)
    requires Inv(w) && Stands(w.s, t) && w.s.tasks[t].phase.Created?
    ensures Inv(Decided(w, t, limiter, action))
  {
    var v, run := Decided(w, t, limiter, action), w.s.tasks[t].phase.run;
    HeldIsKnown(w, t, run);
    ActRow(w, t, run, limiter, action);
    ActTask(w, t, run, limiter, action);
    ActIds(w, t, run, limiter, action);
    ActLocal(w, t, run, limiter, action);
    forall x ensures SessionSound(v, x) { ActSession(w, t, run, limiter, action, x); }
    forall r ensures CourseSound(v, r) { ActCourse(w, t, run, limiter, action, r); }
    forall r ensures LaunchSound(v, r) { ActLaunch(w, t, run, limiter, action, r); }
    LocalKeeps(w, v, t, run);
  }

  /** The session whose origin is to be written has none yet. */
  lemma NoOriginYet(w: World, t: nat, run: nat, session: nat)
    requires Inv(w) && Held(w, t, run) && w.s.tasks[t].phase == Originating(run, session)
    ensures run !in w.courses && run in w.launches && w.launches[run] == session
    ensures session in w.s.sessions && w.s.sessions[session].None? && session !in w.ends
    ensures forall r :: r in w.launches && w.launches[r] == session ==> r == run
  {
    assert LaunchSound(w, run) && SessionSound(w, session);
  }

  lemma OriginRow(w: World, t: nat, run: nat, ok: bool)
    requires Held(w, t, run) && w.s.tasks[t].phase.Originating? && w.s.tasks[t].phase.session !in w.ends
    ensures RowSound(OriginReplied(w, t, ok), run)
  {
  }

  lemma OriginIds(w: World, t: nat, run: nat, ok: bool)
    requires Holds(w, t, run) && run in w.s.runs && Ids(w) && w.s.tasks[t].phase.Originating?
    requires w.s.tasks[t].phase.session in w.s.sessions
    ensures Ids(OriginReplied(w, t, ok))
  {
  }

  lemma OriginLocal(w: World, t: nat, run: nat, ok: bool)
    requires Holds(w, t, run) && w.s.tasks[t].phase.Originating?
    ensures Local(w, OriginReplied(w, t, ok), t, run)
  {
  }

  lemma OriginTask(w: World, t: nat, run: nat, ok: bool)
    requires Held(w, t, run) && w.s.tasks[t].phase.Originating?
    ensures OwnTask(OriginReplied(w, t, ok), t, run)
  {
  }

  lemma OriginSession(w: World, t: nat, run: nat, ok: bool, x: nat)
    requires Held(w, t, run) && w.s.tasks[t].phase.Originating? && run !in w.courses && SessionSound(w, x)
    ensures SessionSound(OriginReplied(w, t, ok), x)
  {
  }

  lemma OriginCourse(w: World, t: nat, run: nat, ok: bool, r: nat)
    requires Held(w, t, run) && w.s.tasks[t].phase.Originating? && CourseSound(w, r)
    requires w.s.tasks[t].phase.session in w.s.sessions && w.s.sessions[w.s.tasks[t].phase.session].None?
    ensures CourseSound(OriginReplied(w, t, ok), r)
  {
  }

  lemma OriginLaunch(w: World, t: nat, run: nat, ok: bool, r: nat)
    requires Held(w, t, run) && w.s.tasks[t].phase.Originating? && LaunchSound(w, r)
    requires r in w.launches && w.launches[r] == w.s.tasks[t].phase.session ==> r == run
    ensures LaunchSound(OriginReplied(w, t, ok), r)
  {
  }

  lemma OriginKeeps(w: World, t: nat, ok: bool)
    requires Inv(w) && Stands(w.s, t) && w.s.tasks[t].phase.Originating?
    ensures Inv(OriginReplied(w, t, ok))
  {
    var v, run := OriginReplied(w, t, ok), w.s.tasks[t].phase.run;
    HeldIsKnown(w, t, run);
    NoOriginYet(w, t, run, w.s.tasks[t].phase.session);
    OriginRow(w, t, run, ok);
    OriginIds(w, t, run, ok);
    OriginLocal(w, t, run, ok);
    OriginTask(w, t, run, ok);
    forall x ensures SessionSound(v, x) { OriginSession(w, t, run, ok, x); }
    forall r ensures CourseSound(v, r) { OriginCourse(w, t, run, ok, r); }
    forall r ensures LaunchSound(v, r) { OriginLaunch(w, t, run, ok, r); }
    LocalKeeps(w, v, t, run);
  }

  lemma SettleRow(w: World, t: nat, run: nat, ok: bool)
    requires Held(w, t, run) && w.s.tasks[t].phase.Settling?
    ensures RowSound(SettleReplied(w, t, ok), run)
  {
  }

  lemma SettleIds(w: World, t: nat, run: nat, ok: bool)
    requires Holds(w, t, run) && run in w.s.runs && Ids(w) && w.s.tasks[t].phase.Settling?
    ensures Ids(SettleReplied(w, t, ok))
  {
  }

  lemma SettleLocal(w: World, t: nat, run: nat, ok: bool)
    requires Holds(w, t, run) && run in w.s.runs && w.s.tasks[t].phase.Settling?
    ensures var v := SettleReplied(w, t, ok);
            Local(w, v, t, run) && run in v.s.runs && v.s.runs[run].hook == w.s.runs[run].hook
  {
  }

  lemma SettleTask(w: World, t: nat, run: nat, ok: bool)
    requires Held(w, t, run) && w.s.tasks[t].phase.Settling?
    ensures OwnTask(SettleReplied(w, t, ok), t, run)
  {
  }

  lemma SettleSame(w: World, t: nat, ok: bool)
    requires Stands(w.s, t) && w.s.tasks[t].phase.Settling?
    ensures SessionsSame(w, SettleReplied(w, t, ok)) && SettleReplied(w, t, ok).ends == w.ends
  {
  }

  lemma SettleKeeps(w: World, t: nat, ok: bool)
    requires Inv(w) && Stands(w.s, t) && w.s.tasks[t].phase.Settling?
    ensures Inv(SettleReplied(w, t, ok))
  {
    var v, run := SettleReplied(w, t, ok), w.s.tasks[t].phase.run;
    HeldIsKnown(w, t, run);
    SettleRow(w, t, run, ok);
    SettleIds(w, t, run, ok);
    SettleLocal(w, t, run, ok);
    SettleTask(w, t, run, ok);
    SettleSame(w, t, ok);
    PlainKeeps(w, v, t, run);
  }

  lemma LinkRow(w: World, t: nat, run: nat, ok: bool)
    requires Held(w, t, run) && w.s.tasks[t].phase.Linking?
    ensures RowSound(LinkReplied(w, t, ok), run)
  {
  }

  lemma LinkIds(w: World, t: nat, run: nat, ok: bool)
    requires Holds(w, t, run) && run in w.s.runs && Ids(w) && w.s.tasks[t].phase.Linking?
    ensures Ids(LinkReplied(w, t, ok))
  {
  }

  lemma LinkLocal(w: World, t: nat, run: nat, ok: bool)
    requires Holds(w, t, run) && run in w.s.runs && w.s.tasks[t].phase.Linking?
    ensures var v := LinkReplied(w, t, ok);
            Local(w, v, t, run) && run in v.s.runs && v.s.runs[run].hook == w.s.runs[run].hook
  {
  }

  lemma LinkTask(w: World, t: nat, run: nat, ok: bool)
    requires Held(w, t, run) && w.s.tasks[t].phase.Linking?
    ensures OwnTask(LinkReplied(w, t, ok), t, run)
  {
  }

  lemma LinkSame(w: World, t: nat, ok: bool)
    requires Stands(w.s, t) && w.s.tasks[t].phase.Linking?
    ensures SessionsSame(w, LinkReplied(w, t, ok)) && LinkReplied(w, t, ok).ends == w.ends
  {
  }

  lemma LinkKeeps(w: World, t: nat, ok: bool)
    requires Inv(w) && Stands(w.s, t) && w.s.tasks[t].phase.Linking?
    ensures Inv(LinkReplied(w, t, ok))
  {
    var v, run := LinkReplied(w, t, ok), w.s.tasks[t].phase.run;
    HeldIsKnown(w, t, run);
    LinkRow(w, t, run, ok);
    LinkIds(w, t, run, ok);
    LinkLocal(w, t, run, ok);
    LinkTask(w, t, run, ok);
    LinkSame(w, t, ok);
    PlainKeeps(w, v, t, run);
  }

  lemma AnnounceIds(w: World, t: nat, run: nat)
    requires Holds(w, t, run) && run in w.s.runs && Ids(w) && w.s.tasks[t].phase.Announcing?
    ensures Ids(Said(w, t))
  {
  }

  lemma AnnounceLocal(w: World, t: nat, run: nat)
    requires Holds(w, t, run) && w.s.tasks[t].phase.Announcing?
    ensures var v := Said(w, t);
            Local(w, v, t, run) && Told(v.s.emitted, run) == Some(w.s.tasks[t].phase.status)
  {
    forall r ensures Told(Said(w, t).s.emitted, r) ==
                     if r == run then Some(w.s.tasks[t].phase.status) else Told(w.s.emitted, r) {
      ToldMore(w.s.emitted, run, w.s.tasks[t].phase.status, r);
    }
  }

  lemma AnnounceRow(w: World, t: nat, run: nat)
    requires Held(w, t, run) && w.s.tasks[t].phase.Announcing?
    ensures RowSound(Said(w, t), run) && OwnTask(Said(w, t), t, run)
  {
    ToldMore(w.s.emitted, run, w.s.tasks[t].phase.status, run);
    NextHookTask(w, Said(w, t), t);
  }

  lemma AnnounceKeeps(w: World, t: nat)
    requires Inv(w) && Stands(w.s, t) && w.s.tasks[t].phase.Announcing?
    ensures Inv(Said(w, t))
  {
    var v, run := Said(w, t), w.s.tasks[t].phase.run;
    HeldIsKnown(w, t, run);
    AnnounceIds(w, t, run);
    AnnounceLocal(w, t, run);
    AnnounceRow(w, t, run);
    PlainKeeps(w, v, t, run);
  }

  // --- sessions ---

  /** Two rows never run the same session. */
  lemma OwnSession(w: World, r: nat, session: nat)
    requires Inv(w) && r in w.courses && w.courses[r] == Runs(session)
    ensures session in w.s.sessions && w.s.sessions[session].Some? && w.s.sessions[session].value.run == r
  {
    assert CourseSound(w, r);
  }

  lemma EndedRow(w: World, session: nat, success: bool, run: nat)
    requires EndsRun(w.s, session) && run == w.s.sessions[session].value.run && SessionSound(w, session)
    requires run in w.roots && RowSound(w, run)
    ensures RowSound(Step(w, SessionEnds(session, success, true)), run)
  {
  }

  /** The end of a session does not touch the rows of others. */
  lemma EndedOther(w: World, session: nat, success: bool, r: nat)
    requires Inv(w) && EndsRun(w.s, session) && r in w.s.runs && r != w.s.sessions[session].value.run
    ensures var v := Step(w, SessionEnds(session, success, true));
            r in v.s.runs && r in v.roots && SliceOf(v, r) == SliceOf(w, r)
  {
    if r in w.courses && w.courses[r].Runs? { OwnSession(w, r, w.courses[r].session); }
  }

  lemma SessionEndsKeeps(w: World, session: nat, success: bool)
    requires Inv(w) && EndsRun(w.s, session)
    ensures Inv(Step(w, SessionEnds(session, success, true)))
  {
    var v, run := Step(w, SessionEnds(session, success, true)), w.s.sessions[session].value.run;
    assert SessionSound(w, session) && RowSound(w, run);
    EndedRow(w, session, success, run);
    forall u ensures TaskSound(v, u) { assert TaskSound(w, u); }
    SessionsStay(w, v);
    forall r ensures RowSound(v, r) {
      assert RowSound(w, r);
      if r in v.s.runs && r != run { EndedOther(w, session, success, r); }
    }
  }

  lemma AnnounceEndKeeps(w: World, run: nat)
    requires Inv(w)
    ensures Inv(Step(w, AnnounceEnd(run)))
  {
    var v := Step(w, AnnounceEnd(run));
    if run in w.s.due {
      forall u ensures TaskSound(v, u) { assert TaskSound(w, u); }
      forall x ensures SessionSound(v, x) { assert SessionSound(w, x); }
      forall r ensures CourseSound(v, r) { assert CourseSound(w, r); }
      forall r ensures LaunchSound(v, r) { assert LaunchSound(w, r); }
      forall r ensures RowSound(v, r) {
        assert RowSound(w, r);
        ToldMore(w.s.emitted, run, w.s.due[run], r);
        if r in v.s.runs && r != run { assert SliceOf(v, r) == SliceOf(w, r); }
      }
    }
  }

  lemma BeginKeeps(w: World, kind: Kind, hooks: seq<nat>)
    requires Inv(w)
    ensures Inv(Begun(w, kind, hooks))
  {
    var v := Begun(w, kind, hooks);
    forall u ensures TaskSound(v, u) { assert TaskSound(w, u); }
    forall x ensures SessionSound(v, x) { assert SessionSound(w, x); }
    forall r ensures CourseSound(v, r) { assert CourseSound(w, r); }
    forall r ensures LaunchSound(v, r) { assert LaunchSound(w, r); }
    forall r ensures RowSound(v, r) {
      assert RowSound(w, r);
      assert w.s.nextTask !in w.s.tasks by { assert TaskSound(w, w.s.nextTask); }
      if r in v.s.runs { assert SliceOf(v, r) == SliceOf(w, r); }
    }
  }

  /** The worker is no part of what rows, sessions and tasks keep. */
  lemma ObserveKeeps(w: World, session: nat, hooks: seq<nat>)
    requires Inv(w)
    ensures Inv(Observed(w, session, hooks))
  {
    var u, v := Begun(w, ForEvent, hooks), Observed(w, session, hooks);
    BeginKeeps(w, ForEvent, hooks);
    if hooks != [] {
      forall t ensures TaskSound(v, t) { assert TaskSound(u, t); }
      forall x ensures SessionSound(v, x) { assert SessionSound(u, x); }
      forall r ensures CourseSound(v, r) { assert CourseSound(u, r); }
      forall r ensures LaunchSound(v, r) { assert LaunchSound(u, r); }
      forall r ensures RowSound(v, r) {
        assert RowSound(u, r);
        if r in v.s.runs { assert SliceOf(v, r) == SliceOf(u, r); }
      }
    }
  }

  lemma NewSessionKeeps(w: World)
    requires Inv(w)
    ensures Inv(Step(w, NewSession))
  {
    var v := Step(w, NewSession);
    forall u ensures TaskSound(v, u) { assert TaskSound(w, u); }
    forall x ensures SessionSound(v, x) { assert SessionSound(w, x); }
    forall r ensures CourseSound(v, r) { assert CourseSound(w, r); }
    forall r ensures LaunchSound(v, r) { assert LaunchSound(w, r); }
    forall r ensures RowSound(v, r) {
      assert RowSound(w, r);
      if r in v.s.runs { assert SliceOf(v, r) == SliceOf(w, r); }
    }
  }

  lemma StepKeeps(w: World, e: Event)
    requires Inv(w)
    ensures Inv(Step(w, e))
  {
    match e
    case NewSession => NewSessionKeeps(w);
    case Lifecycle(session, hooks) => ObserveKeeps(w, session, hooks);
    case External(hooks) => BeginKeeps(w, ForEvent, hooks);
    case Webhook(hook) => BeginKeeps(w, ForWebhook, [hook]);
    case Test(hook) => BeginKeeps(w, ForTest, [hook]);
    case CreateReply(t, ok) =>
      if At(w, t, Ready) {
        if ok { CreateKeeps(w, t); } else { CreateFailedKeeps(w, t); }
      }
    case Act(t, limiter, action) =>
      if Stands(w.s, t) && w.s.tasks[t].phase.Created? { ActKeeps(w, t, limiter, action); }
    case SettleReply(t, ok) => if Stands(w.s, t) && w.s.tasks[t].phase.Settling? { SettleKeeps(w, t, ok); }
    case OriginReply(t, ok) => if Stands(w.s, t) && w.s.tasks[t].phase.Originating? { OriginKeeps(w, t, ok); }
    case LinkReply(t, ok) => if Stands(w.s, t) && w.s.tasks[t].phase.Linking? { LinkKeeps(w, t, ok); }
    case Announce(t) => if Stands(w.s, t) && w.s.tasks[t].phase.Announcing? { AnnounceKeeps(w, t); }
    case SessionEnds(session, success, ok) => if ok && EndsRun(w.s, session) { SessionEndsKeeps(w, session, success); }
    case AnnounceEnd(run) => AnnounceEndKeeps(w, run);
  }

  lemma {:induction false} RunKeeps(w: World, es: seq<Event>)
    requires Inv(w)
    ensures Inv(Run(w, es))
  {
    if es != [] {
      RunKeeps(w, es[..|es| - 1]);
      StepKeeps(Run(w, es[..|es| - 1]), es[|es| - 1]);
    }
  }

  lemma InitKeeps()
    ensures Inv(INIT)
  {
  }
}
