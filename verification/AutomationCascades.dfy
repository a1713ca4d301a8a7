/** How far hooks set off hooks: in every run, who starts sessions and how many. */
module AutomationCascades {
  import opened Options
  import opened Automation
  import opened AutomationProtocol
  import opened AutomationInvariant
  import opened AutomationRuns
  import opened AutomationWorker
  import Sets

  /** The rows a call has created. */
  ghost function RowsOf(w: World, t: nat): set<nat> {
    set r | r in w.roots && w.roots[r].task == t
  }

  /** A call creates at most one row for each hook it was given. */
  ghost predicate Bounded(w: World, t: nat) {
    t in w.offers ==> |RowsOf(w, t)| + Remaining(w.s, t) <= w.offers[t]
  }

  lemma BeginBounds(w: World, kind: Kind, hooks: seq<nat>, t: nat)
    requires Inv(w) && Bounded(w, t)
    ensures Bounded(Begun(w, kind, hooks), t)
  {
    var v := Begun(w, kind, hooks);
    assert RowsOf(v, t) == RowsOf(w, t);
    if hooks != [] && t == w.s.nextTask { assert RowsOf(w, t) == {}; }
  }

  lemma CreateBounds(w: World, t: nat, ok: bool, u: nat)
    requires Inv(w) && At(w, t, Ready) && Bounded(w, u)
    ensures Bounded(CreateReplied(w, t, ok), u)
  {
    var v := CreateReplied(w, t, ok);
    if ok && u == t {
      assert RowsOf(v, u) == RowsOf(w, u) + {w.s.nextRun};
    } else {
      assert RowsOf(v, u) == RowsOf(w, u);
    }
  }

  /** The other steps neither offer hooks nor create rows. */
  lemma SameRows(w: World, e: Event)
    requires !e.Lifecycle? && !e.External? && !e.Webhook? && !e.Test? && !e.CreateReply?
    ensures Step(w, e).offers == w.offers && Step(w, e).roots == w.roots
  {
  }

  lemma StepBounds(w: World, e: Event, t: nat)
    requires Inv(w) && Bounded(w, t)
    ensures Bounded(Step(w, e), t)
  {
    if e.Lifecycle? {
      BeginBounds(w, ForEvent, e.hooks, t);
      assert Step(w, e) != w ==> RowsOf(Step(w, e), t) == RowsOf(Begun(w, ForEvent, e.hooks), t);
    } else if e.External? {
      BeginBounds(w, ForEvent, e.hooks, t);
    } else if e.Webhook? {
      BeginBounds(w, ForWebhook, [e.hook], t);
    } else if e.Test? {
      BeginBounds(w, ForTest, [e.hook], t);
    } else if e.CreateReply? {
      if At(w, e.t, Ready) { CreateBounds(w, e.t, e.ok, t); }
    } else {
      SameRows(w, e);
      if t in w.offers { StepMoves(w, e, t); }
      assert RowsOf(Step(w, e), t) == RowsOf(w, t);
    }
  }

  lemma {:induction false} RunBounds(es: seq<Event>, t: nat)
    ensures Bounded(Run(INIT, es), t)
  {
    if es != [] {
      RunBounds(es[..|es| - 1], t);
      Reached(es[..|es| - 1], t);
      StepBounds(Run(INIT, es[..|es| - 1]), es[|es| - 1], t);
    }
  }

  // --- sessions ---

  /** The rows of a call that a session was started for. */
  ghost function LaunchedBy(w: World, t: nat): set<nat> {
    set r | r in w.launches && r in w.roots && w.roots[r].task == t
  }

  ghost function LaunchedBefore(w: World, n: nat): set<nat> {
    set r | r in w.launches && r in w.roots && w.roots[r].task < n
  }

  function Offered(offers: map<nat, nat>, t: nat): nat {
    if t in offers then offers[t] else 0
  }

  function OffersBefore(offers: map<nat, nat>, n: nat): nat {
    if n == 0 then 0 else OffersBefore(offers, n - 1) + Offered(offers, n - 1)
  }

  lemma OneCallIsBounded(w: World, t: nat)
    requires Inv(w) && Bounded(w, t)
    ensures |LaunchedBy(w, t)| <= Offered(w.offers, t)
  {
    Sets.SubsetSize(LaunchedBy(w, t), RowsOf(w, t));
    if t !in w.offers { assert RowsOf(w, t) == {}; }
  }

  lemma LaunchedOneMore(w: World, n: nat)
    ensures LaunchedBefore(w, n + 1) == LaunchedBefore(w, n) + LaunchedBy(w, n)
    ensures |LaunchedBefore(w, n + 1)| <= |LaunchedBefore(w, n)| + |LaunchedBy(w, n)|
  {
    assert LaunchedBefore(w, n + 1) == LaunchedBefore(w, n) + LaunchedBy(w, n);
  }

  lemma OneMoreCall(w: World, n: nat)
    requires Inv(w) && Bounded(w, n) && |LaunchedBefore(w, n)| <= OffersBefore(w.offers, n)
    ensures |LaunchedBefore(w, n + 1)| <= OffersBefore(w.offers, n + 1)
  {
    OneCallIsBounded(w, n);
    LaunchedOneMore(w, n);
  }

  lemma {:induction false} CallsAreBounded(w: World, n: nat)
    requires Inv(w) && forall t :: Bounded(w, t)
    ensures |LaunchedBefore(w, n)| <= OffersBefore(w.offers, n)
  {
    if n == 0 {
      assert LaunchedBefore(w, 0) == {};
    } else {
      CallsAreBounded(w, n - 1);
      assert Bounded(w, n - 1);
      OneMoreCall(w, n - 1);
    }
  }

  lemma AllLaunchedBefore(w: World)
    requires Inv(w)
    ensures LaunchedBefore(w, w.s.nextTask) == w.launches.Keys
  {
    forall r | r in w.launches ensures r in w.roots && w.roots[r].task < w.s.nextTask { assert LaunchSound(w, r); }
  }

  // --- who sets off what ---

  /** The session was started by a hook. */
  ghost predicate ByHook(w: World, session: nat) {
    exists r :: r in w.launches && w.launches[r] == session
  }

  /** It was started by a hook that an external event or a webhook met, and the
      writing of its origin is pending. */
  ghost predicate Early(w: World, session: nat) {
    exists r ::
      && r in w.launches && w.launches[r] == session
      && OriginPending(w, r) && r in w.roots && w.roots[r].task !in w.observed
  }

  /** It was started by a hook, and its origin could not be written. */
  ghost predicate Orphaned(w: World, session: nat) {
    exists r :: r in w.launches && w.launches[r] == session && r in w.orphans
  }

  /** The worker goes on to the hooks of this event. */
  predicate Looked(w: World, e: Event) {
    e.Lifecycle? && Idle(w) && Triggers(w.s, e.session)
  }

  ghost function EarlyHooks(w: World, e: Event): nat {
    if Looked(w, e) && Early(w, e.session) then |e.hooks| else 0
  }

  ghost function OrphanHooks(w: World, e: Event): nat {
    if Looked(w, e) && Orphaned(w, e.session) then |e.hooks| else 0
  }

  /** The hooks met by events that no hook-started session sent. */
  ghost function RootHooks(w: World, e: Event): nat {
    match e
    case External(hooks) => |hooks|
    case Webhook(_) => 1
    case Test(_) => 1
    case Lifecycle(session, hooks) => if Looked(w, e) && !ByHook(w, session) then |hooks| else 0
    case _ => 0
  }

  ghost function AllRootHooks(es: seq<Event>): nat {
    if es == [] then 0 else AllRootHooks(es[..|es| - 1]) + RootHooks(Run(INIT, es[..|es| - 1]), es[|es| - 1])
  }

  ghost function AllEarlyHooks(es: seq<Event>): nat {
    if es == [] then 0 else AllEarlyHooks(es[..|es| - 1]) + EarlyHooks(Run(INIT, es[..|es| - 1]), es[|es| - 1])
  }

  ghost function AllOrphanHooks(es: seq<Event>): nat {
    if es == [] then 0 else AllOrphanHooks(es[..|es| - 1]) + OrphanHooks(Run(INIT, es[..|es| - 1]), es[|es| - 1])
  }

  /** A session whose event is looked at is no hook's, or early, or orphaned. */
  lemma OneOfThree(w: World, session: nat)
    requires Inv(w) && WorkerInv(w) && Idle(w) && Triggers(w.s, session)
    ensures ByHook(w, session) <==> Early(w, session) || Orphaned(w, session)
    ensures !(Early(w, session) && Orphaned(w, session))
  {
    if r :| r in w.launches && w.launches[r] == session {
      NoOriginExactly(w, r);
      if w.roots[r].task in w.observed { IdleIsDone(w, r); }
      assert RowSound(w, r);
    }
  }

  lemma {:induction false} OffersSame(a: map<nat, nat>, b: map<nat, nat>, n: nat)
    requires forall t :: 0 <= t < n ==> Offered(a, t) == Offered(b, t)
    ensures OffersBefore(a, n) == OffersBefore(b, n)
  {
    if n > 0 { OffersSame(a, b, n - 1); }
  }

  lemma BeginOffers(w: World, kind: Kind, hooks: seq<nat>)
    requires Inv(w)
    ensures var v := Begun(w, kind, hooks);
            OffersBefore(v.offers, v.s.nextTask) == OffersBefore(w.offers, w.s.nextTask) + |hooks|
  {
    var v := Begun(w, kind, hooks);
    if hooks != [] { OffersSame(w.offers, v.offers, w.s.nextTask); }
  }

  lemma NothingBegun(w: World, e: Event)
    requires !e.Lifecycle? && !e.External? && !e.Webhook? && !e.Test?
    ensures Step(w, e).offers == w.offers && Step(w, e).s.nextTask == w.s.nextTask
  {
  }

  lemma ObserveOffers(w: World, e: Event)
    requires Inv(w) && WorkerInv(w) && e.Lifecycle?
    ensures var v := Step(w, e);
            OffersBefore(v.offers, v.s.nextTask) ==
            OffersBefore(w.offers, w.s.nextTask) + RootHooks(w, e) + EarlyHooks(w, e) + OrphanHooks(w, e)
  {
    BeginOffers(w, ForEvent, e.hooks);
    if Looked(w, e) { OneOfThree(w, e.session); }
  }

  lemma StepOffers(w: World, e: Event)
    requires Inv(w) && WorkerInv(w)
    ensures var v := Step(w, e);
            OffersBefore(v.offers, v.s.nextTask) ==
            OffersBefore(w.offers, w.s.nextTask) + RootHooks(w, e) + EarlyHooks(w, e) + OrphanHooks(w, e)
  {
    if e.Lifecycle? {
      ObserveOffers(w, e);
    } else if e.External? {
      BeginOffers(w, ForEvent, e.hooks);
    } else if e.Webhook? {
      BeginOffers(w, ForWebhook, [e.hook]);
    } else if e.Test? {
      BeginOffers(w, ForTest, [e.hook]);
    } else {
      NothingBegun(w, e);
    }
  }

  lemma {:induction false} OffersAddUp(es: seq<Event>)
    ensures var w := Run(INIT, es);
            OffersBefore(w.offers, w.s.nextTask) == AllRootHooks(es) + AllEarlyHooks(es) + AllOrphanHooks(es)
  {
    if es != [] {
      OffersAddUp(es[..|es| - 1]);
      AutomationWorker.RunKeeps(es[..|es| - 1]);
      StepOffers(Run(INIT, es[..|es| - 1]), es[|es| - 1]);
    }
  }

  /** In every run: each session is started for one row and each row has one
      session started for it at most; a session with an origin is one step from a
      root event and has the hook and run it was started for; no call starts more
      sessions than the hooks it was given; and all together start no more than
      the hooks met by root events, by events of sessions that external events'
      and webhooks' calls started and whose origin was still pending, and by
      events of sessions whose origin could not be written. Such events, while
      the worker is free, are exactly those by which a hook-started session sets
      off hooks. */
  lemma HooksDoNotSetOffHooks(es: seq<Event>)
    ensures var w := Run(INIT, es);
            && OneLaunchEach(w.launches)
            && (forall r :: r in w.launches ==> r in w.s.runs && r in w.roots && w.launches[r] in w.s.sessions)
            && (forall x :: HasOrigin(w, x) ==>
                  var o := w.s.sessions[x].value;
                  && o.depth == 1 && o.run in w.s.runs && o.hook == w.s.runs[o.run].hook
                  && o.run in w.launches && w.launches[o.run] == x)
            && (forall t :: |LaunchedBy(w, t)| <= Offered(w.offers, t))
            && |w.launches| <= AllRootHooks(es) + AllEarlyHooks(es) + AllOrphanHooks(es)
            && (forall r, hooks :: r in w.launches ==>
                  (Step(w, Lifecycle(w.launches[r], hooks)) != w <==>
                   && Idle(w) && hooks != []
                   && (r in w.orphans || (w.roots[r].task !in w.observed && OriginPending(w, r)))))
  {
    var w := Run(INIT, es);
    AutomationWorker.RunKeeps(es);
    forall t ensures Bounded(w, t) && |LaunchedBy(w, t)| <= Offered(w.offers, t) {
      RunBounds(es, t);
      OneCallIsBounded(w, t);
    }
    CallsAreBounded(w, w.s.nextTask);
    AllLaunchedBefore(w);
    OffersAddUp(es);
    forall r | r in w.launches ensures r in w.s.runs && r in w.roots && w.launches[r] in w.s.sessions {
      NoOriginExactly(w, r);
    }
    forall x | HasOrigin(w, x)
      ensures var o := w.s.sessions[x].value;
              && o.depth == 1 && o.run in w.s.runs && o.hook == w.s.runs[o.run].hook
              && o.run in w.launches && w.launches[o.run] == x
    {
      OriginIsLaunch(w, x);
    }
    forall r, hooks | r in w.launches
      ensures Step(w, Lifecycle(w.launches[r], hooks)) != w <==>
                && Idle(w) && hooks != []
                && (r in w.orphans || (w.roots[r].task !in w.observed && OriginPending(w, r)))
    {
      SetsOffExactly(w, r, hooks);
    }
  }

  lemma OriginIsLaunch(w: World, x: nat)
    requires Inv(w) && HasOrigin(w, x)
    ensures var o := w.s.sessions[x].value;
            && o.depth == 1 && o.run in w.s.runs && o.hook == w.s.runs[o.run].hook
            && o.run in w.launches && w.launches[o.run] == x
  {
    assert SessionSound(w, x) && RowSound(w, w.s.sessions[x].value.run);
  }

  lemma {:induction false} NoFailureNoOrphans(es: seq<Event>)
    requires Run(INIT, es).orphans == {}
    ensures AllOrphanHooks(es) == 0
  {
    if es != [] {
      var init, last := es[..|es| - 1], es[|es| - 1];
      OrphansGrow(Run(INIT, init), last);
      NoFailureNoOrphans(init);
    }
  }

  /** With no origin write failed, hooks start no more sessions than the hooks met
      by root events and by events of sessions that external events' and webhooks'
      calls started and whose origin was still pending. */
  lemma NoFailureBound(es: seq<Event>)
    requires Run(INIT, es).orphans == {}
    ensures |Run(INIT, es).launches| <= AllRootHooks(es) + AllEarlyHooks(es)
  {
    HooksDoNotSetOffHooks(es);
    NoFailureNoOrphans(es);
  }
}
