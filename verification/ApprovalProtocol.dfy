/** Approval cards against the engines that park them: arrivals, answers and
    overlapping refreshes, in every interleaving. */
module ApprovalProtocol {
  import opened JoinedKeys
  import opened Options
  import opened ApprovalMerge
  import opened ApprovalStore

  /** A refresh in flight: the cards on show when it began, what was parked and
      what had ever been parked then, and the replies so far (None: failed). */
  datatype Refresh = Refresh(shown: seq<Card>, parkedThen: set<Card>, everThen: set<Card>,
                             runners: seq<string>, replies: map<string, Option<seq<Card>>>)

  /** `parked` is what the engines hold, `arriving` the events not yet delivered. */
  datatype World = World(live: seq<Card>, parked: set<Card>, ever: set<Card>, arriving: seq<Card>,
                         refreshes: map<nat, Refresh>, next: nat)

  datatype Event =
    | Park(a: Card)
    | Unpark(a: Card)
    | Deliver(i: nat)
    | ClearApproval(runId: string, requestId: string)
    | BeginRefresh(runners: seq<string>)
    | EngineLists(rid: nat, runner: string, cards: seq<Card>)
    | EngineFails(rid: nat, runner: string)
    | EndRefresh(rid: nat)

  /** No request is parked twice, and runner and run ids hold no colon. */
  ghost predicate MayPark(w: World, a: Card) {
    && NoColon(a.runnerId) && NoColon(a.runId)
    && forall b :: b in w.ever ==> !(b.runnerId == a.runnerId && b.runId == a.runId && b.requestId == a.requestId)
  }

  ghost predicate Awaits(w: World, rid: nat, runner: string) {
    rid in w.refreshes && runner in w.refreshes[rid].runners && runner !in w.refreshes[rid].replies
  }

  ghost predicate Complete(w: World, rid: nat) {
    rid in w.refreshes && forall r :: r in w.refreshes[rid].runners ==> r in w.refreshes[rid].replies
  }

  ghost predicate IsListing(w: World, runner: string, cards: seq<Card>) {
    forall a :: a in cards <==> a in w.parked && a.runnerId == runner
  }

  function WithReply(x: Refresh, runner: string, reply: Option<seq<Card>>): Refresh {
    x.(replies := x.replies[runner := reply])
  }

  ghost function Step(w: World, e: Event): World {
    match e
    case Park(a) =>
      if MayPark(w, a) then w.(parked := w.parked + {a}, ever := w.ever + {a}, arriving := w.arriving + [a]) else w
    case Unpark(a) => w.(parked := w.parked - {a})
    case Deliver(i) =>
      if i < |w.arriving|
      then w.(live := w.live + [w.arriving[i]], arriving := w.arriving[..i] + w.arriving[i + 1..])
      else w
    case ClearApproval(runId, requestId) => w.(live := Without(w.live, runId, requestId))
    case BeginRefresh(runners) =>
      w.(refreshes := w.refreshes[w.next := Refresh(w.live, w.parked, w.ever, runners, map[])], next := w.next + 1)
    case EngineLists(rid, runner, cards) =>
      if Awaits(w, rid, runner) && IsListing(w, runner, cards)
      then w.(refreshes := w.refreshes[rid := WithReply(w.refreshes[rid], runner, Some(cards))])
      else w
    case EngineFails(rid, runner) =>
      if Awaits(w, rid, runner)
      then w.(refreshes := w.refreshes[rid := WithReply(w.refreshes[rid], runner, None)])
      else w
    case EndRefresh(rid) =>
      if Complete(w, rid)
      then w.(live := FinishRefresh(w.live, Keys(w.refreshes[rid].shown), w.refreshes[rid].runners,
                                    w.refreshes[rid].replies),
              refreshes := w.refreshes - {rid})
      else w
  }

  ghost function Run(w: World, es: seq<Event>): World
    decreases |es|
  {
    if es == [] then w else Run(Step(w, es[0]), es[1..])
  }

  const INIT := World([], {}, {}, [], map[], 0)

  ghost predicate Identified(ever: set<Card>) {
    && (forall a :: a in ever ==> NoColon(a.runnerId) && NoColon(a.runId))
    && (forall a, b :: a in ever && b in ever && ApprovalKey(a) == ApprovalKey(b) ==> a == b)
  }

  /** A reply lists only the runner's own cards, among them every card parked
      ever since the refresh began and none that had gone by then. */
  ghost predicate ReplySound(w: World, x: Refresh, runner: string, cards: seq<Card>) {
    && (forall a :: a in cards ==> a.runnerId == runner && a in w.ever)
    && (forall a :: a in x.parkedThen && a in w.parked && a.runnerId == runner ==> a in cards)
    && (forall a :: a in cards && a in x.everThen ==> a in x.parkedThen)
  }

  ghost predicate RefreshSound(w: World, x: Refresh) {
    && x.parkedThen <= x.everThen <= w.ever
    && (forall a :: a in x.shown ==> a in x.everThen)
    && (forall a :: a in w.parked && a in x.everThen ==> a in x.parkedThen)
    && (forall r :: r in x.replies && x.replies[r].Some? ==> ReplySound(w, x, r, x.replies[r].value))
  }

  ghost predicate Inv(w: World) {
    && Identified(w.ever) && w.parked <= w.ever
    && (forall a :: a in w.live || a in w.arriving ==> a in w.ever)
    && (forall rid :: rid in w.refreshes ==> rid < w.next && RefreshSound(w, w.refreshes[rid]))
  }

  ghost predicate Replied(x: Refresh, runner: string) {
    runner in x.runners && runner in x.replies && x.replies[runner].Some?
  }

  /** What the end of a refresh lists, card by card. */
  lemma EndLists(w: World, rid: nat, a: Card)
    requires Inv(w) && Complete(w, rid)
    ensures var x := w.refreshes[rid];
            a in Step(w, EndRefresh(rid)).live <==>
              || (Replied(x, a.runnerId) && a in x.replies[a.runnerId].value)
              || (a in w.live && (!Replied(x, a.runnerId) || a !in x.shown))
    ensures NoRepeats(Step(w, EndRefresh(rid)).live)
  {
    var x := w.refreshes[rid];
    var m := Step(w, EndRefresh(rid)).live;
    var listed, refreshed := Listed(x.runners, x.replies), SetOf(Answered(x.runners, x.replies));
    var before := SetOf(Keys(x.shown));
    MergeRules(w.live, before, listed, refreshed);
    AnsweredHold(x.runners, x.replies);
    KeysHold(x.shown);
    forall b ensures b in listed <==> Replied(x, b.runnerId) && b in x.replies[b.runnerId].value {
      ListedHold(x.runners, x.replies, b);
    }
    assert forall b :: b in m ==> b in w.ever;
    forall b | b in w.live ensures Wanted(b, before, refreshed) <==> !Replied(x, b.runnerId) || b !in x.shown {
      KeyOf(x.shown, ApprovalKey(b));
    }
    if a in listed {
      KeyOf(listed, ApprovalKey(a));
      KeyOf(m, ApprovalKey(a));
    }
    if a in w.live && Wanted(a, before, refreshed) { KeyOf(m, ApprovalKey(a)); }
  }

  lemma ParkKeeps(w: World, a: Card)
    requires Inv(w)
    ensures Inv(Step(w, Park(a)))
  {
    if MayPark(w, a) {
      var v := Step(w, Park(a));
      forall b | b in w.ever ensures ApprovalKey(a) != ApprovalKey(b) { KeyIdentifies(a, b); }
      forall rid | rid in v.refreshes ensures RefreshSound(v, v.refreshes[rid]) {
        assert RefreshSound(w, w.refreshes[rid]);
      }
    }
  }

  lemma ReplyKeeps(w: World, rid: nat, runner: string, reply: Option<seq<Card>>)
    requires Inv(w) && rid in w.refreshes && (reply.Some? ==> IsListing(w, runner, reply.value))
    ensures RefreshSound(w, WithReply(w.refreshes[rid], runner, reply))
  {
    assert RefreshSound(w, w.refreshes[rid]);
  }

  lemma EndKeeps(w: World, rid: nat)
    requires Inv(w)
    ensures Inv(Step(w, EndRefresh(rid)))
  {
    if Complete(w, rid) {
      var v := Step(w, EndRefresh(rid));
      forall a | a in v.live ensures a in v.ever {
        EndLists(w, rid, a);
        assert RefreshSound(w, w.refreshes[rid]);
      }
      forall r | r in v.refreshes ensures RefreshSound(v, v.refreshes[r]) {
        assert RefreshSound(w, w.refreshes[r]);
      }
    }
  }

  lemma StepKeeps(w: World, e: Event)
    requires Inv(w)
    ensures Inv(Step(w, e))
  {
    var v := Step(w, e);
    match e
    case Park(a) => ParkKeeps(w, a);
    case ClearApproval(runId, requestId) => WithoutKeepsTheRest(w.live, runId, requestId);
    case EngineLists(rid, runner, cards) =>
      if v != w { ReplyKeeps(w, rid, runner, Some(cards)); }
    case EngineFails(rid, runner) =>
      if v != w { ReplyKeeps(w, rid, runner, None); }
    case EndRefresh(rid) => EndKeeps(w, rid);
    case _ =>
  }

  lemma {:induction false} RunKeeps(w: World, es: seq<Event>)
    requires Inv(w)
    ensures Inv(Run(w, es))
    decreases |es|
  {
    if es != [] {
      StepKeeps(w, es[0]);
      RunKeeps(Step(w, es[0]), es[1..]);
    }
  }

  /** What a refresh does to every card, in every run of the protocol. */
  ghost predicate Reconciled(w: World, v: World, x: Refresh) {
    && NoRepeats(v.live)
    // on show and still parked: stays
    && (forall a :: a in w.live && a in w.parked ==> a in v.live)
    // parked all along at a runner that answered: on show, seen before or not
    && (forall a :: a in x.parkedThen && a in w.parked && Replied(x, a.runnerId) ==> a in v.live)
    // on show but no longer parked when the refresh began, and its runner answered: gone
    && (forall a :: a in x.shown && a !in x.parkedThen && Replied(x, a.runnerId) ==> !HasKey(v.live, ApprovalKey(a)))
    // its runner did not answer: exactly as before
    && (forall a: Card :: !Replied(x, a.runnerId) ==> (a in v.live <==> a in w.live))
  }

  lemma EndReconciles(w: World, rid: nat)
    requires Inv(w) && Complete(w, rid)
    ensures Reconciled(w, Step(w, EndRefresh(rid)), w.refreshes[rid])
  {
    var v, x := Step(w, EndRefresh(rid)), w.refreshes[rid];
    EndKeeps(w, rid);
    assert RefreshSound(w, x);
    forall a ensures a in v.live <==>
        || (Replied(x, a.runnerId) && a in x.replies[a.runnerId].value)
        || (a in w.live && (!Replied(x, a.runnerId) || a !in x.shown))
    {
      EndLists(w, rid, a);
    }
    EndNoRepeats(w, rid);
    forall a | a in x.shown && a !in x.parkedThen && Replied(x, a.runnerId)
      ensures !HasKey(v.live, ApprovalKey(a))
    {
      KeyOf(v.live, ApprovalKey(a));
    }
  }

  lemma EndNoRepeats(w: World, rid: nat)
    requires Inv(w) && Complete(w, rid)
    ensures NoRepeats(Step(w, EndRefresh(rid)).live)
  {
    EndLists(w, rid, Card("", "", "", 0));
  }

  lemma RefreshReconcilesInEveryRun(es: seq<Event>, rid: nat)
    requires Complete(Run(INIT, es), rid)
    ensures var w := Run(INIT, es); Reconciled(w, Step(w, EndRefresh(rid)), w.refreshes[rid])
  {
    RunKeeps(INIT, es);
    EndReconciles(Run(INIT, es), rid);
  }

  /** A refresh the engines sat still for, with no arrival delivered meanwhile,
      leaves on show exactly what the answering runners hold. */
  lemma QuietRefreshIsExact(es: seq<Event>, rid: nat, a: Card)
    requires Complete(Run(INIT, es), rid)
    requires var w := Run(INIT, es); var x := w.refreshes[rid];
             && w.parked == x.parkedThen && w.ever == x.everThen
             && (forall b :: b in w.live ==> b in x.shown) && Replied(x, a.runnerId)
    ensures var w := Run(INIT, es); a in Step(w, EndRefresh(rid)).live <==> a in w.parked
  {
    var w := Run(INIT, es);
    RunKeeps(INIT, es);
    var x := w.refreshes[rid];
    assert RefreshSound(w, x);
    EndLists(w, rid, a);
  }

  /** Which cards of an answering runner a refresh leaves on show although they
      are no longer parked: those its listing still held, and those delivered
      while it ran. */
  lemma StaleCardsExactly(es: seq<Event>, rid: nat, a: Card)
    requires Complete(Run(INIT, es), rid) && a !in Run(INIT, es).parked
    requires Replied(Run(INIT, es).refreshes[rid], a.runnerId)
    ensures var w := Run(INIT, es); var x := w.refreshes[rid];
            a in Step(w, EndRefresh(rid)).live <==>
              a in x.replies[a.runnerId].value || (a in w.live && a !in x.shown)
  {
    RunKeeps(INIT, es);
    EndLists(Run(INIT, es), rid, a);
  }

  const CARD := Card("r", "run", "q", 0)
  const ANSWERED_AFTER_LISTING := [Park(CARD), Deliver(0), BeginRefresh(["r"]), EngineLists(0, "r", [CARD]),
                                   Unpark(CARD), ClearApproval("run", "q")]

  ghost function AfterListing(replies: map<string, Option<seq<Card>>>, parked: set<Card>, live: seq<Card>): World {
    World(live, parked, {CARD}, [], map[0 := Refresh([CARD], {CARD}, {CARD}, ["r"], replies)], 1)
  }

  lemma AnsweredAfterListing()
    ensures Run(INIT, ANSWERED_AFTER_LISTING) == AfterListing(map["r" := Some([CARD])], {}, [])
  {
    var w1 := World([], {CARD}, {CARD}, [CARD], map[], 0);
    var w2 := World([CARD], {CARD}, {CARD}, [], map[], 0);
    var w3 := AfterListing(map[], {CARD}, [CARD]);
    var w4 := AfterListing(map["r" := Some([CARD])], {CARD}, [CARD]);
    var w5 := AfterListing(map["r" := Some([CARD])], {}, [CARD]);
    var w6 := AfterListing(map["r" := Some([CARD])], {}, []);
    assert Awaits(w3, 0, "r") by { assert "r" in ["r"]; }
    assert Step(w3, EngineLists(0, "r", [CARD])) == w4;
    assert [CARD][..0] == [] && Without([CARD], "run", "q") == [];
    Runs(INIT, ANSWERED_AFTER_LISTING, [w1, w2, w3, w4, w5, w6]);
  }

  /** One such card: answered and cleared after the engine listed it, and back
      on show when the refresh ends. */
  lemma AnsweredCardReappears()
    ensures var w := Run(INIT, ANSWERED_AFTER_LISTING);
            Complete(w, 0) && w.live == [] && w.parked == {} && CARD in Step(w, EndRefresh(0)).live
  {
    AnsweredAfterListing();
    var w := AfterListing(map["r" := Some([CARD])], {}, []);
    assert "r" in ["r"];
    assert Complete(w, 0);
    RunKeeps(INIT, ANSWERED_AFTER_LISTING);
    EndLists(w, 0, CARD);
  }

  /** A run follows its steps. */
  lemma {:induction false} Runs(w: World, es: seq<Event>, ws: seq<World>)
    requires |ws| == |es|
    requires es != [] ==> Step(w, es[0]) == ws[0]
    requires forall i :: 0 < i < |es| ==> Step(ws[i - 1], es[i]) == ws[i]
    ensures Run(w, es) == if es == [] then w else ws[|ws| - 1]
    decreases |es|
  {
    if es != [] {
      var rest, after := es[1..], ws[1..];
      if rest != [] { assert Step(ws[0], rest[0]) == after[0]; }
      forall i | 0 < i < |rest| ensures Step(after[i - 1], rest[i]) == after[i] {
        assert after[i - 1] == ws[i] && rest[i] == es[i + 1] && after[i] == ws[i + 1];
      }
      Runs(ws[0], rest, after);
    }
  }
}
