/** Runs of the automation protocol that end as a reader might not expect. */
module AutomationWitnesses {
  import opened Options
  import opened Automation
  import opened AutomationCascades
  import opened AutomationInvariant
  import opened AutomationProtocol
  import opened AutomationRuns
  import opened AutomationWorker

  /** One more step of a run. */
  lemma OneMore(es: seq<Event>, e: Event, w: World)
    requires Run(INIT, es) == w
    ensures Run(INIT, es + [e]) == Step(w, e)
  {
    assert (es + [e])[..|es|] == es;
  }

  const STARTS := AgentRun(true, true, true, true)
  const NO_START := AgentRun(true, true, true, false)

  function Row(status: Status, session: Option<nat>): map<nat, RunRow> {
    map[0 := RunRow(0, status, session)]
  }

  function With(kind: Kind, phase: Phase): map<nat, Task> {
    map[0 := Task(kind, 0, [0], phase)]
  }

  /** Hook 0 has its row, by a call of the given kind. */
  function RowMade(kind: Kind): World {
    World(State(Row(Queued, None), 1, map[], 0, [], With(kind, Created(0)), 1, map[]), map[0 := Root(0, kind)],
          map[], map[], {}, {}, map[], map[0 := 1], None, map[])
  }

  lemma MakesRow(kind: Kind, begin: Event)
    requires begin == (if kind.ForEvent? then External([0]) else Webhook(0)) && !kind.ForTest?
    ensures Run(INIT, [begin, CreateReply(0, true)]) == RowMade(kind)
  {
    assert Run(INIT, []) == INIT;
    OneMore([], begin, INIT);
    assert [] + [begin] == [begin];
    OneMore([begin], CreateReply(0, true), Step(INIT, begin));
    assert [begin] + [CreateReply(0, true)] == [begin, CreateReply(0, true)];
  }

  lemma WebhookStartFails()
    ensures var w := Run(INIT, [Webhook(0), CreateReply(0, true)] + [Act(0, Accepted, NO_START)]);
            w.s.runs == Row(Queued, None) && w.s.tasks == map[]
  {
    MakesRow(ForWebhook, Webhook(0));
    OneMore([Webhook(0), CreateReply(0, true)], Act(0, Accepted, NO_START), RowMade(ForWebhook));
  }

  lemma DispatchStartFails()
    ensures var w := Run(INIT, [External([0]), CreateReply(0, true)] + [Act(0, Accepted, NO_START)]
                               + [SettleReply(0, true)]);
            w.s.runs == Row(Failed, None) && w.s.tasks == With(ForEvent, Announcing(0, Failed))
  {
    var es := [External([0]), CreateReply(0, true)];
    MakesRow(ForEvent, External([0]));
    OneMore(es, Act(0, Accepted, NO_START), RowMade(ForEvent));
    OneMore(es + [Act(0, Accepted, NO_START)], SettleReply(0, true),
            Step(RowMade(ForEvent), Act(0, Accepted, NO_START)));
  }

  /** The same failed start met by a webhook and by a dispatched hook: the one
      row stays queued, the other fails. */
  lemma FailedStartLeavesRunQueued()
    ensures var w := Run(INIT, [Webhook(0), CreateReply(0, true)] + [Act(0, Accepted, NO_START)]);
            w.s.runs == Row(Queued, None) && w.s.tasks == map[]
    ensures var w := Run(INIT, [External([0]), CreateReply(0, true)] + [Act(0, Accepted, NO_START)]
                               + [SettleReply(0, true)]);
            w.s.runs == Row(Failed, None) && w.s.tasks == With(ForEvent, Announcing(0, Failed))
  {
    WebhookStartFails();
    DispatchStartFails();
  }

  // --- a session without its origin ---

  /** Session 0 is started for row 0 and has no origin. */
  function Launched0(kind: Kind, phase: Phase): World {
    World(State(Row(Queued, None), 1, map[0 := None], 1, [], With(kind, phase), 1, map[]), map[0 := Root(0, kind)],
          map[], map[0 := 0], {}, {}, map[], map[0 := 1], None, map[])
  }

  lemma StartsSession(kind: Kind, es: seq<Event>)
    requires Run(INIT, es) == RowMade(kind) && !kind.ForTest?
    ensures Run(INIT, es + [Act(0, Accepted, STARTS)]) == Launched0(kind, Originating(0, 0))
  {
    OneMore(es, Act(0, Accepted, STARTS), RowMade(kind));
    assert Step(RowMade(kind), Act(0, Accepted, STARTS)) == Launched0(kind, Originating(0, 0));
  }

  /** Session 0 has no origin and its row is to fail. */
  function Orphan0(): World {
    Launched0(ForEvent, Settling(0, Failed)).(courses := map[0 := Settles(Failed)], orphans := {0})
  }

  lemma FailsToWrite(es: seq<Event>)
    requires Run(INIT, es) == Launched0(ForEvent, Originating(0, 0))
    ensures Run(INIT, es + [OriginReply(0, false)]) == Orphan0()
  {
    OneMore(es, OriginReply(0, false), Launched0(ForEvent, Originating(0, 0)));
    assert Step(Launched0(ForEvent, Originating(0, 0)), OriginReply(0, false)) == Orphan0();
  }

  lemma RowFails(es: seq<Event>)
    requires Run(INIT, es) == Orphan0()
    ensures var w := Run(INIT, es + [SettleReply(0, true)]);
            w.s.runs == Row(Failed, None) && w.s.sessions == map[0 := None] && Step(w, Lifecycle(0, [1])) != w
  {
    OneMore(es, SettleReply(0, true), Orphan0());
  }

  /** The origin of a dispatched hook's session is not written: the row has
      failed, the session goes on, and its events set off hooks. */
  lemma DispatchLosesOrigin()
    ensures var w := Run(INIT, [External([0]), CreateReply(0, true)] + [Act(0, Accepted, STARTS)]
                               + [OriginReply(0, false)] + [SettleReply(0, true)]);
            w.s.runs == Row(Failed, None) && w.s.sessions == map[0 := None] && Step(w, Lifecycle(0, [1])) != w
  {
    var es := [External([0]), CreateReply(0, true)];
    MakesRow(ForEvent, External([0]));
    StartsSession(ForEvent, es);
    FailsToWrite(es + [Act(0, Accepted, STARTS)]);
    RowFails(es + [Act(0, Accepted, STARTS)] + [OriginReply(0, false)]);
  }

  /** The origin of a webhook's session is not written: the row stays queued
      beside a running session whose events set off hooks. */
  lemma WebhookLosesOrigin()
    ensures var w := Run(INIT, [Webhook(0), CreateReply(0, true)] + [Act(0, Accepted, STARTS)]
                               + [OriginReply(0, false)]);
            && w.s.runs == Row(Queued, None) && w.s.tasks == map[] && w.s.sessions == map[0 := None]
            && Step(w, Lifecycle(0, [1])) != w
  {
    var es := [Webhook(0), CreateReply(0, true)];
    MakesRow(ForWebhook, Webhook(0));
    StartsSession(ForWebhook, es);
    OneMore(es + [Act(0, Accepted, STARTS)], OriginReply(0, false), Launched0(ForWebhook, Originating(0, 0)));
  }

  lemma AnnouncesRunning(es: seq<Event>)
    requires Run(INIT, es) == Running0(ForEvent, Row(Running, Some(0)), Announcing(0, Running), map[], map[], [])
    ensures var w := Run(INIT, es + [Announce(0)]);
            w.s.runs == Row(Running, Some(0)) && w.s.tasks == map[] && w.s.due == map[] && w.lost == {}
  {
    OneMore(es, Announce(0), Run(INIT, es));
  }

  lemma EndWithoutOrigin(es: seq<Event>)
    requires Run(INIT, es) == Launched0(ForEvent, Originating(0, 0))
    ensures Run(INIT, es + [SessionEnds(0, true, true)]) == Launched0(ForEvent, Originating(0, 0))
  {
    OneMore(es, SessionEnds(0, true, true), Launched0(ForEvent, Originating(0, 0)));
  }

  /** A session ends before its origin is written: the end is lost, the row is
      linked afterwards, and stays running with no write failed. */
  lemma EndBeforeOriginIsLost()
    ensures var w := Run(INIT, [External([0]), CreateReply(0, true)] + [Act(0, Accepted, STARTS)]
                               + [SessionEnds(0, true, true)] + [OriginReply(0, true)] + [LinkReply(0, true)]
                               + [Announce(0)]);
            w.s.runs == Row(Running, Some(0)) && w.s.tasks == map[] && w.s.due == map[] && w.lost == {}
  {
    var es := [External([0]), CreateReply(0, true)];
    MakesRow(ForEvent, External([0]));
    StartsSession(ForEvent, es);
    var more := es + [Act(0, Accepted, STARTS)];
    EndWithoutOrigin(more);
    GetsOrigin(ForEvent, more + [SessionEnds(0, true, true)]);
    Links(ForEvent, more + [SessionEnds(0, true, true)] + [OriginReply(0, true)]);
    AnnouncesRunning(more + [SessionEnds(0, true, true)] + [OriginReply(0, true)] + [LinkReply(0, true)]);
  }

  // --- hooks that set off hooks ---

  /** A row and a session for the one hook of a call just begun. */
  function Answers(t: nat): seq<Event> {
    [CreateReply(t, true), Act(t, Accepted, STARTS)]
  }

  lemma SecondCall(es: seq<Event>)
    requires Run(INIT, es) == Launched0(ForEvent, Originating(0, 0))
    ensures Run(INIT, es + [Lifecycle(0, [1])]) == TwoCalls(Ready)
  {
    OneMore(es, Lifecycle(0, [1]), Launched0(ForEvent, Originating(0, 0)));
  }

  /** The second call, set off by session 0 while its origin is pending. */
  function TwoCalls(phase: Phase): World {
    var w := Launched0(ForEvent, Originating(0, 0));
    w.(s := w.s.(tasks := w.s.tasks[1 := Task(ForEvent, 0, [1], phase)], nextTask := 2), offers := w.offers[1 := 1],
       worker := Some(1), observed := map[1 := 0])
  }

  /** It has started session 1 for row 1. */
  function TwoSessions(): World {
    var w := TwoCalls(Originating(1, 1));
    w.(s := w.s.(runs := w.s.runs[1 := RunRow(1, Queued, None)], nextRun := 2, sessions := w.s.sessions[1 := None],
                 nextSession := 2),
       roots := w.roots[1 := Root(1, ForEvent)], launches := w.launches[1 := 1])
  }

  /** Its row is made. */
  function TwoRows(): World {
    var w := TwoCalls(Created(1));
    w.(s := w.s.(runs := w.s.runs[1 := RunRow(1, Queued, None)], nextRun := 2),
       roots := w.roots[1 := Root(1, ForEvent)])
  }

  lemma SecondRow()
    ensures Step(TwoCalls(Ready), CreateReply(1, true)) == TwoRows()
  {
  }

  lemma SecondStart()
    ensures Step(TwoRows(), Act(1, Accepted, STARTS)) == TwoSessions()
  {
  }

  lemma SecondSession(es: seq<Event>)
    requires Run(INIT, es) == TwoCalls(Ready)
    ensures Run(INIT, es + [CreateReply(1, true)] + [Act(1, Accepted, STARTS)]) == TwoSessions()
  {
    SecondRow();
    SecondStart();
    OneMore(es, CreateReply(1, true), TwoCalls(Ready));
    OneMore(es + [CreateReply(1, true)], Act(1, Accepted, STARTS), TwoRows());
  }

  /** The worker is at the second call, so session 1's event has to wait, and its
      origin can be written before. */
  lemma SecondWaits()
    ensures var w := TwoSessions();
            && w.launches == map[0 := 0, 1 := 1] && w.orphans == {} && w.lost == {}
            && w.s.runs == map[0 := RunRow(0, Queued, None), 1 := RunRow(1, Queued, None)]
            && Step(w, Lifecycle(1, [1])) == w
            && WithoutOrigin(w, 1) && HasOrigin(Step(w, OriginReply(1, true)), 1)
  {
  }

  /** The session started for an external event's hook is looked at before its
      origin is written, and hook 1, for session starts, is set off by it. No
      write has failed. The second session's own event has to wait for the worker,
      which is at the call that is writing its origin, and changes nothing. */
  lemma EarlyEventSetsOffHook()
    ensures var w := Run(INIT, [External([0]), CreateReply(0, true)] + [Act(0, Accepted, STARTS)] + [Lifecycle(0, [1])]
                               + [CreateReply(1, true)] + [Act(1, Accepted, STARTS)]);
            && w.launches == map[0 := 0, 1 := 1] && w.orphans == {} && w.lost == {}
            && w.s.runs == map[0 := RunRow(0, Queued, None), 1 := RunRow(1, Queued, None)]
            && Step(w, Lifecycle(1, [1])) == w
            && WithoutOrigin(w, 1) && HasOrigin(Step(w, OriginReply(1, true)), 1)
  {
    var es := [External([0]), CreateReply(0, true)];
    MakesRow(ForEvent, External([0]));
    StartsSession(ForEvent, es);
    SecondCall(es + [Act(0, Accepted, STARTS)]);
    SecondSession(es + [Act(0, Accepted, STARTS)] + [Lifecycle(0, [1])]);
    SecondWaits();
  }

  /** The worker's call has one hook, 0, and is at this phase. */
  predicate Working(w: World, t: nat, phase: Phase) {
    t in w.s.tasks && w.s.tasks[t] == Task(ForEvent, 0, [0], phase) && w.worker == Some(t)
  }

  predicate SameLaunches(w: World, v: World) {
    v.launches == w.launches && v.s.sessions == w.s.sessions && v.s.nextSession == w.s.nextSession
  }

  lemma Looks(w: World, x: nat)
    requires Idle(w) && WithoutOrigin(w, x)
    ensures var v := Step(w, Lifecycle(x, [0]));
            Working(v, w.s.nextTask, Ready) && SameLaunches(w, v) && v.s.nextRun == w.s.nextRun
  {
  }

  lemma Creates(w: World, t: nat)
    requires Working(w, t, Ready)
    ensures var v := Step(w, CreateReply(t, true));
            && Working(v, t, Created(w.s.nextRun)) && SameLaunches(w, v)
            && w.s.nextRun in v.s.runs && v.s.runs[w.s.nextRun].status.Queued?
  {
  }

  lemma Starts(w: World, t: nat, r: nat)
    requires Working(w, t, Created(r))
    ensures var v := Step(w, Act(t, Accepted, STARTS));
            && Working(v, t, Originating(r, w.s.nextSession)) && v.s.runs == w.s.runs
            && v.launches == w.launches[r := w.s.nextSession] && WithoutOrigin(v, w.s.nextSession)
  {
  }

  lemma LosesOrigin(w: World, t: nat, r: nat, x: nat)
    requires Working(w, t, Originating(r, x))
    ensures var v := Step(w, OriginReply(t, false));
            Working(v, t, Settling(r, Failed)) && SameLaunches(w, v) && v.s.runs == w.s.runs && r in v.orphans
  {
  }

  lemma FailsRow(w: World, t: nat, r: nat)
    requires Working(w, t, Settling(r, Failed)) && r in w.s.runs && w.s.runs[r].status.Queued?
    ensures var v := Step(w, SettleReply(t, true));
            Working(v, t, Announcing(r, Failed)) && SameLaunches(w, v) && v.orphans == w.orphans
  {
  }

  lemma AnnouncesFailure(w: World, t: nat, r: nat)
    requires Working(w, t, Announcing(r, Failed))
    ensures var v := Step(w, Announce(t)); Idle(v) && SameLaunches(w, v) && v.orphans == w.orphans
  {
  }

  /** The rest of a call that starts a session whose origin cannot be written. */
  function Fails(t: nat): seq<Event> {
    [CreateReply(t, true)] + [Act(t, Accepted, STARTS)] + [OriginReply(t, false)] + [SettleReply(t, true)]
    + [Announce(t)]
  }

  lemma FreshRow(es: seq<Event>)
    ensures Run(INIT, es).s.nextRun !in Run(INIT, es).launches
  {
    Reached(es, 0);
    assert LaunchSound(Run(INIT, es), Run(INIT, es).s.nextRun);
  }

  lemma CallStarts(es: seq<Event>, t: nat)
    requires Working(Run(INIT, es), t, Ready)
    ensures var w, v := Run(INIT, es), Run(INIT, es + [CreateReply(t, true)] + [Act(t, Accepted, STARTS)]);
            var r := w.s.nextRun;
            && Working(v, t, Originating(r, w.s.nextSession)) && r in v.s.runs && v.s.runs[r].status.Queued?
            && v.launches == w.launches[r := w.s.nextSession] && WithoutOrigin(v, w.s.nextSession)
  {
    var w := Run(INIT, es);
    var created := es + [CreateReply(t, true)];
    OneMore(es, CreateReply(t, true), w);
    Creates(w, t);
    OneMore(created, Act(t, Accepted, STARTS), Run(INIT, created));
    Starts(Run(INIT, created), t, w.s.nextRun);
  }

  lemma OriginFails(es: seq<Event>, t: nat, r: nat, x: nat)
    requires var w := Run(INIT, es);
             Working(w, t, Originating(r, x)) && r in w.s.runs && w.s.runs[r].status.Queued?
    ensures var v := Run(INIT, es + [OriginReply(t, false)] + [SettleReply(t, true)] + [Announce(t)]);
            Idle(v) && SameLaunches(Run(INIT, es), v) && r in v.orphans
  {
    var lost := es + [OriginReply(t, false)];
    OneMore(es, OriginReply(t, false), Run(INIT, es));
    LosesOrigin(Run(INIT, es), t, r, x);
    var failed := lost + [SettleReply(t, true)];
    OneMore(lost, SettleReply(t, true), Run(INIT, lost));
    FailsRow(Run(INIT, lost), t, r);
    OneMore(failed, Announce(t), Run(INIT, failed));
    AnnouncesFailure(Run(INIT, failed), t, r);
  }

  lemma CallFails(es: seq<Event>, t: nat)
    requires Working(Run(INIT, es), t, Ready)
    ensures var w, v := Run(INIT, es), Run(INIT, es + Fails(t));
            && w.s.nextRun !in w.launches && v.launches == w.launches[w.s.nextRun := w.s.nextSession]
            && WithoutOrigin(v, w.s.nextSession) && w.s.nextRun in v.orphans && Idle(v)
  {
    FreshRow(es);
    var r, x := Run(INIT, es).s.nextRun, Run(INIT, es).s.nextSession;
    CallStarts(es, t);
    var started := es + [CreateReply(t, true)] + [Act(t, Accepted, STARTS)];
    OriginFails(started, t, r, x);
    assert es + Fails(t) == started + [OriginReply(t, false)] + [SettleReply(t, true)] + [Announce(t)];
  }

  lemma OneRootHook(es: seq<Event>, e: Event)
    ensures AllRootHooks(es + [e]) == AllRootHooks(es) + RootHooks(Run(INIT, es), e)
  {
    assert (es + [e])[..|es|] == es;
  }

  predicate Quiet(e: Event) {
    !e.Lifecycle? && !e.External? && !e.Webhook? && !e.Test?
  }

  /** Writes and announcements meet no hooks. */
  lemma {:induction false} FailsMeetsNone(es: seq<Event>, more: seq<Event>)
    requires forall i :: 0 <= i < |more| ==> Quiet(more[i])
    ensures AllRootHooks(es + more) == AllRootHooks(es)
  {
    if more == [] {
      assert es + more == es;
    } else {
      var init, last := more[..|more| - 1], more[|more| - 1];
      FailsMeetsNone(es, init);
      OneRootHook(es + init, last);
      assert es + more == es + init + [last];
    }
  }

  /** No call but the worker's, and hook 0 the only one it meets. */
  ghost predicate OnlyHook0(es: seq<Event>) {
    forall i :: 0 <= i < |es| ==> Quiet(es[i]) || (es[i].Lifecycle? && es[i].hooks == [0])
  }

  /** One hook, for session starts, met by a single root event, starts any number
      of sessions when no origin can be written: each session sets it off again. */
  lemma {:induction false} CascadeIsUnbounded(n: nat) returns (es: seq<Event>, last: nat)
    ensures OnlyHook0(es) && AllRootHooks(es) == (if n == 0 then 0 else 1)
    ensures var w := Run(INIT, es);
            && |w.launches| == n && w.launches.Keys <= w.orphans && Idle(w) && WithoutOrigin(w, last)
            && (ByHook(w, last) <==> n > 0)
  {
    if n == 0 {
      es, last := [NewSession], 0;
      OneMore([], NewSession, INIT);
      OneRootHook([], NewSession);
      assert [] + [NewSession] == es;
    } else {
      var before, x := CascadeIsUnbounded(n - 1);
      var w := Run(INIT, before);
      var looked := before + [Lifecycle(x, [0])];
      OneMore(before, Lifecycle(x, [0]), w);
      Looks(w, x);
      OneRootHook(before, Lifecycle(x, [0]));
      CallFails(looked, w.s.nextTask);
      FailsMeetsNone(looked, Fails(w.s.nextTask));
      es, last := looked + Fails(w.s.nextTask), w.s.nextSession;
      OrphansStay(before, es[|before|..]);
      assert es == before + es[|before|..];
      assert Run(INIT, es).launches[w.s.nextRun] == last;
    }
  }

  lemma {:induction false} OrphansStay(es: seq<Event>, more: seq<Event>)
    ensures Run(INIT, es).orphans <= Run(INIT, es + more).orphans
  {
    if more == [] {
      assert es + more == es;
    } else {
      var init, last := more[..|more| - 1], more[|more| - 1];
      OrphansStay(es, init);
      OrphansGrow(Run(INIT, es + init), last);
      OneMore(es + init, last, Run(INIT, es + init));
      assert es + more == es + init + [last];
    }
  }

  // --- announcements ---

  /** A world in which session 0 has its origin and runs for row 0. */
  function Running0(kind: Kind, row: map<nat, RunRow>, phase: Phase, ends: map<nat, bool>, due: map<nat, Status>,
                    emitted: seq<(nat, Status)>): World
  {
    World(State(row, 1, map[0 := Some(Origin(0, 0, 1))], 1, emitted, With(kind, phase), 1, due),
          map[0 := Root(0, kind)], map[0 := Runs(0)], map[0 := 0], {}, {}, ends, map[0 := 1], None,
          map[])
  }

  lemma GetsOrigin(kind: Kind, es: seq<Event>)
    requires Run(INIT, es) == Launched0(kind, Originating(0, 0)) && !kind.ForTest?
    ensures Run(INIT, es + [OriginReply(0, true)]) ==
            Running0(kind, Row(Queued, None), Linking(0, 0), map[], map[], [])
  {
    OneMore(es, OriginReply(0, true), Launched0(kind, Originating(0, 0)));
    assert Step(Launched0(kind, Originating(0, 0)), OriginReply(0, true)) ==
           Running0(kind, Row(Queued, None), Linking(0, 0), map[], map[], []);
  }

  lemma StartsWithOrigin(kind: Kind, es: seq<Event>)
    requires Run(INIT, es) == RowMade(kind) && !kind.ForTest?
    ensures Run(INIT, es + [Act(0, Accepted, STARTS)] + [OriginReply(0, true)]) ==
            Running0(kind, Row(Queued, None), Linking(0, 0), map[], map[], [])
  {
    StartsSession(kind, es);
    GetsOrigin(kind, es + [Act(0, Accepted, STARTS)]);
  }

  /** The end of session 0 has been written and announced. */
  function Ended0(kind: Kind, phase: Phase): World {
    Running0(kind, Row(Succeeded, Some(0)), phase, map[0 := true], map[], [(0, Succeeded)])
  }

  lemma EndIsAnnounced(kind: Kind, phase: Phase)
    ensures Step(Running0(kind, Row(Succeeded, Some(0)), phase, map[0 := true], map[0 := Succeeded], []),
                 AnnounceEnd(0)) == Ended0(kind, phase)
  {
    assert map[0 := Succeeded] - {0} == map[];
  }

  lemma EndsBetween(es: seq<Event>, kind: Kind, row: map<nat, RunRow>, phase: Phase)
    requires Run(INIT, es) == Running0(kind, row, phase, map[], map[], [])
    requires row == Row(Queued, None) || row == Row(Running, Some(0))
    ensures Run(INIT, es + [SessionEnds(0, true, true)] + [AnnounceEnd(0)]) == Ended0(kind, phase)
  {
    var w := Running0(kind, row, phase, map[], map[], []);
    OneMore(es, SessionEnds(0, true, true), w);
    var v := Running0(kind, Row(Succeeded, Some(0)), phase, map[0 := true], map[0 := Succeeded], []);
    assert Step(w, SessionEnds(0, true, true)) == v;
    EndIsAnnounced(kind, phase);
    OneMore(es + [SessionEnds(0, true, true)], AnnounceEnd(0), v);
  }

  lemma Links(kind: Kind, es: seq<Event>)
    requires Run(INIT, es) == Running0(kind, Row(Queued, None), Linking(0, 0), map[], map[], [])
    ensures Run(INIT, es + [LinkReply(0, true)]) ==
            Running0(kind, Row(Running, Some(0)), Announcing(0, Running), map[], map[], [])
  {
    var w := Running0(kind, Row(Queued, None), Linking(0, 0), map[], map[], []);
    OneMore(es, LinkReply(0, true), w);
    assert Step(w, LinkReply(0, true)) ==
           Running0(kind, Row(Running, Some(0)), Announcing(0, Running), map[], map[], []);
  }

  lemma AnnouncesTooLate(es: seq<Event>)
    requires Run(INIT, es) == Ended0(ForEvent, Announcing(0, Running))
    ensures var w := Run(INIT, es + [Announce(0)]);
            w.s.runs == Row(Succeeded, Some(0)) && w.s.emitted == [(0, Succeeded), (0, Running)] && w.s.tasks == map[]
  {
    OneMore(es, Announce(0), Run(INIT, es));
  }

  /** A dispatched hook's session ends after it is linked and before "running" is
      announced: the last word is "running" of a row that has succeeded. */
  lemma DispatchAnnouncesTooLate()
    ensures var w := Run(INIT, [External([0]), CreateReply(0, true)] + [Act(0, Accepted, STARTS)]
                               + [OriginReply(0, true)] + [LinkReply(0, true)] + [SessionEnds(0, true, true)]
                               + [AnnounceEnd(0)] + [Announce(0)]);
            w.s.runs == Row(Succeeded, Some(0)) && w.s.emitted == [(0, Succeeded), (0, Running)] && w.s.tasks == map[]
  {
    var es := [External([0]), CreateReply(0, true)];
    MakesRow(ForEvent, External([0]));
    StartsWithOrigin(ForEvent, es);
    Links(ForEvent, es + [Act(0, Accepted, STARTS)] + [OriginReply(0, true)]);
    var more := es + [Act(0, Accepted, STARTS)] + [OriginReply(0, true)] + [LinkReply(0, true)];
    EndsBetween(more, ForEvent, Row(Running, Some(0)), Announcing(0, Running));
    AnnouncesTooLate(more + [SessionEnds(0, true, true)] + [AnnounceEnd(0)]);
  }

  lemma LinkTellsRunning()
    ensures Step(Ended0(ForWebhook, Linking(0, 0)), LinkReply(0, true)) == Ended0(ForWebhook, Announcing(0, Running))
  {
  }

  lemma TellsRunning()
    ensures var w := Step(Ended0(ForWebhook, Announcing(0, Running)), Announce(0));
            w.s.runs == Row(Succeeded, Some(0)) && w.s.emitted == [(0, Succeeded), (0, Running)] && w.s.tasks == map[]
  {
  }

  lemma LinksTooLate(es: seq<Event>)
    requires Run(INIT, es) == Ended0(ForWebhook, Linking(0, 0))
    ensures var w := Run(INIT, es + [LinkReply(0, true)] + [Announce(0)]);
            w.s.runs == Row(Succeeded, Some(0)) && w.s.emitted == [(0, Succeeded), (0, Running)] && w.s.tasks == map[]
  {
    var ended, announcing := Ended0(ForWebhook, Linking(0, 0)), Ended0(ForWebhook, Announcing(0, Running));
    OneMore(es, LinkReply(0, true), ended);
    LinkTellsRunning();
    OneMore(es + [LinkReply(0, true)], Announce(0), announcing);
    TellsRunning();
  }

  /** A webhook's session ends before it is linked: the link changes nothing and
      "running" is announced all the same. */
  lemma WebhookAnnouncesTooLate()
    ensures var w := Run(INIT, [Webhook(0), CreateReply(0, true)] + [Act(0, Accepted, STARTS)] + [OriginReply(0, true)]
                               + [SessionEnds(0, true, true)] + [AnnounceEnd(0)] + [LinkReply(0, true)]
                               + [Announce(0)]);
            w.s.runs == Row(Succeeded, Some(0)) && w.s.emitted == [(0, Succeeded), (0, Running)] && w.s.tasks == map[]
  {
    var es := [Webhook(0), CreateReply(0, true)];
    MakesRow(ForWebhook, Webhook(0));
    StartsWithOrigin(ForWebhook, es);
    var more := es + [Act(0, Accepted, STARTS)] + [OriginReply(0, true)];
    EndsBetween(more, ForWebhook, Row(Queued, None), Linking(0, 0));
    LinksTooLate(more + [SessionEnds(0, true, true)] + [AnnounceEnd(0)]);
  }

  lemma LinksSilently(es: seq<Event>)
    requires Run(INIT, es) == Ended0(ForEvent, Linking(0, 0))
    ensures var w := Run(INIT, es + [LinkReply(0, true)]);
            w.s.runs == Row(Succeeded, Some(0)) && w.s.emitted == [(0, Succeeded)] && w.s.tasks == map[]
  {
    OneMore(es, LinkReply(0, true), Ended0(ForEvent, Linking(0, 0)));
  }

  /** An end between the origin and the link does no harm on the event path: the
      link changes nothing, and then nothing is announced. */
  lemma DispatchEndBeforeLinkTells()
    ensures var w := Run(INIT, [External([0]), CreateReply(0, true)] + [Act(0, Accepted, STARTS)]
                               + [OriginReply(0, true)] + [SessionEnds(0, true, true)] + [AnnounceEnd(0)]
                               + [LinkReply(0, true)]);
            w.s.runs == Row(Succeeded, Some(0)) && w.s.emitted == [(0, Succeeded)] && w.s.tasks == map[]
  {
    var es := [External([0]), CreateReply(0, true)];
    MakesRow(ForEvent, External([0]));
    StartsWithOrigin(ForEvent, es);
    var more := es + [Act(0, Accepted, STARTS)] + [OriginReply(0, true)];
    EndsBetween(more, ForEvent, Row(Queued, None), Linking(0, 0));
    LinksSilently(more + [SessionEnds(0, true, true)] + [AnnounceEnd(0)]);
  }
}
