/** Every call goes through the hooks it was given, one after the other. */
module AutomationHooks {
  import opened Options
  import opened Automation
  import opened AutomationInvariant
  import opened AutomationProtocol
  import opened AutomationRuns

  /** The event that begins call t, if this one does, gives it these hooks. */
  function GivenBy(e: Event): seq<nat> {
    match e
    case Lifecycle(_, hooks) => hooks
    case External(hooks) => hooks
    case Webhook(hook) => [hook]
    case Test(hook) => [hook]
    case _ => []
  }

  /** The hooks a call was given when it began. */
  ghost function Given(es: seq<Event>, t: nat): seq<nat> {
    if es == [] then []
    else if Run(INIT, es[..|es| - 1]).s.nextTask == t && Run(INIT, es).s.nextTask > t then GivenBy(es[|es| - 1])
    else Given(es[..|es| - 1], t)
  }

  /** The database answers a call's request for a row. */
  predicate Tries(w: World, e: Event, t: nat) {
    e.CreateReply? && e.t == t && At(w, t, Ready)
  }

  /** What a call's requests for rows have come to, in order: the row, or none. */
  ghost function Tried(es: seq<Event>, t: nat): seq<Option<nat>> {
    if es == [] then []
    else
      var init, last := es[..|es| - 1], es[|es| - 1];
      var w, before := Run(INIT, init), Tried(init, t);
      if !Tries(w, last, t) then before else before + [if last.ok then Some(w.s.nextRun) else None]
  }

  // --- one step of one call ---

  /** The call is done with the hook at hand. */
  predicate Finishes(s: State, v: State, t: nat)
    requires Stands(s, t)
  {
    if |s.tasks[t].hooks| == 1 then t !in v.tasks
    else t in v.tasks && v.tasks[t].hooks == s.tasks[t].hooks[1..] && v.tasks[t].phase.Ready?
  }

  /** It is still at the hook, and has its row exactly if it had. */
  predicate Stays(s: State, v: State, t: nat)
    requires Stands(s, t)
  {
    t in v.tasks && v.tasks[t].hooks == s.tasks[t].hooks && (v.tasks[t].phase.Ready? <==> s.tasks[t].phase.Ready?)
  }

  /** Without an answer about a row, a call stays where it is or finishes a hook
      that has one. */
  ghost predicate GoesOn(s: State, v: State, t: nat)
    requires Stands(s, t)
  {
    Stays(s, v, t) || (!s.tasks[t].phase.Ready? && Finishes(s, v, t))
  }

  lemma TryStep(w: World, ok: bool, t: nat)
    requires At(w, t, Ready)
    ensures var v := Step(w, CreateReply(t, ok));
            if ok then t in v.s.tasks && v.s.tasks[t].hooks == w.s.tasks[t].hooks && !v.s.tasks[t].phase.Ready?
                       && w.s.nextRun in v.s.runs && v.s.runs[w.s.nextRun].hook == w.s.tasks[t].hooks[0]
            else Finishes(w.s, v.s, t)
  {
  }

  /** What happens to another call leaves this one where it is. */
  lemma Elsewhere(s: State, v: State, t: nat, u: nat)
    requires Stands(s, t) && Stands(s, u) && t != u && forall x :: x != t ==> Same(s, v, x)
    ensures Stays(s, v, u)
  {
    assert Same(s, v, u);
  }

  predicate Same(s: State, v: State, x: nat) {
    (x in v.tasks <==> x in s.tasks) && (x in v.tasks ==> v.tasks[x] == s.tasks[x])
  }

  lemma CreateGoesOn(s: State, t: nat, ok: bool, u: nat)
    requires Stands(s, t) && Stands(s, u) && t != u
    ensures Stays(s, RowCreated(s, t, ok), u)
  {
    Elsewhere(s, RowCreated(s, t, ok), t, u);
  }

  lemma ActGoesOn(s: State, t: nat, limiter: Verdict, action: Action, u: nat)
    requires Stands(s, t) && Stands(s, u) && s.tasks[t].phase.Created?
    ensures GoesOn(s, Acted(s, t, limiter, action), u)
  {
    if u != t { Elsewhere(s, Acted(s, t, limiter, action), t, u); }
  }

  lemma SettleGoesOn(s: State, t: nat, ok: bool, u: nat)
    requires Stands(s, t) && Stands(s, u) && s.tasks[t].phase.Settling?
    ensures GoesOn(s, SettleWritten(s, t, ok), u)
  {
    if u != t { Elsewhere(s, SettleWritten(s, t, ok), t, u); }
  }

  lemma OriginGoesOn(s: State, t: nat, ok: bool, u: nat)
    requires Stands(s, t) && Stands(s, u) && s.tasks[t].phase.Originating?
    ensures GoesOn(s, OriginWritten(s, t, ok), u)
  {
    if u != t { Elsewhere(s, OriginWritten(s, t, ok), t, u); }
  }

  lemma LinkGoesOn(s: State, t: nat, ok: bool, u: nat)
    requires Stands(s, t) && Stands(s, u) && s.tasks[t].phase.Linking?
    ensures GoesOn(s, LinkWritten(s, t, ok), u)
  {
    if u != t { Elsewhere(s, LinkWritten(s, t, ok), t, u); }
  }

  lemma AnnounceGoesOn(s: State, t: nat, u: nat)
    requires Stands(s, t) && Stands(s, u) && s.tasks[t].phase.Announcing?
    ensures GoesOn(s, Announced(s, t), u)
  {
    if u != t { Elsewhere(s, Announced(s, t), t, u); }
  }

  lemma WriteGoesOn(w: World, e: Event, t: nat)
    requires Stands(w.s, t) && Writes(e)
    ensures GoesOn(w.s, Step(w, e).s, t)
  {
    if e.SettleReply? {
      if Stands(w.s, e.t) && w.s.tasks[e.t].phase.Settling? { SettleGoesOn(w.s, e.t, e.ok, t); }
    } else if e.OriginReply? {
      if Stands(w.s, e.t) && w.s.tasks[e.t].phase.Originating? { OriginGoesOn(w.s, e.t, e.ok, t); }
    } else {
      if Stands(w.s, e.t) && w.s.tasks[e.t].phase.Linking? { LinkGoesOn(w.s, e.t, e.ok, t); }
    }
  }

  lemma OtherGoesOn(w: World, e: Event, t: nat)
    requires Stands(w.s, t) && t < w.s.nextTask && !Advances(e)
    ensures GoesOn(w.s, Step(w, e).s, t)
  {
  }

  lemma StepGoesOn(w: World, e: Event, t: nat)
    requires Stands(w.s, t) && t < w.s.nextTask && !Tries(w, e, t)
    ensures GoesOn(w.s, Step(w, e).s, t)
  {
    match e
    case CreateReply(u, ok) => if At(w, u, Ready) { CreateGoesOn(w.s, u, ok, t); }
    case Act(u, limiter, action) =>
      if Stands(w.s, u) && w.s.tasks[u].phase.Created? { ActGoesOn(w.s, u, limiter, action, t); }
    case Announce(u) => if Stands(w.s, u) && w.s.tasks[u].phase.Announcing? { AnnounceGoesOn(w.s, u, t); }
    case _ => if Writes(e) { WriteGoesOn(w, e, t); } else { OtherGoesOn(w, e, t); }
  }

  lemma BeginsWith(w: World, e: Event)
    requires Inv(w) && Step(w, e).s.nextTask != w.s.nextTask
    ensures var v, t := Step(w, e), w.s.nextTask;
            && v.s.nextTask == t + 1 && Stands(v.s, t) && v.s.tasks[t].hooks == GivenBy(e) && v.s.tasks[t].phase.Ready?
  {
  }

  // --- whole runs ---

  /** How far a call has come: rows asked for are those of its first hooks, and
      what is left of them is what it still has to do. */
  ghost predicate GoneThrough(w: World, t: nat, hooks: seq<nat>, tried: seq<Option<nat>>) {
    && |tried| <= |hooks|
    && (forall n :: 0 <= n < |tried| && tried[n].Some? ==>
          tried[n].value in w.s.runs && w.s.runs[tried[n].value].hook == hooks[n])
    && if t in w.s.tasks
       then var done := |tried| - if w.s.tasks[t].phase.Ready? then 0 else 1;
            0 <= done < |hooks| && w.s.tasks[t].hooks == hooks[done..]
       else |tried| == |hooks|
  }

  lemma RowsKept(w: World, e: Event, hooks: seq<nat>, tried: seq<Option<nat>>)
    requires Inv(w) && |tried| <= |hooks|
    requires forall n :: 0 <= n < |tried| && tried[n].Some? ==>
               tried[n].value in w.s.runs && w.s.runs[tried[n].value].hook == hooks[n]
    ensures forall n :: 0 <= n < |tried| && tried[n].Some? ==>
              tried[n].value in Step(w, e).s.runs && Step(w, e).s.runs[tried[n].value].hook == hooks[n]
  {
    forall n | 0 <= n < |tried| && tried[n].Some?
      ensures tried[n].value in Step(w, e).s.runs && Step(w, e).s.runs[tried[n].value].hook == hooks[n]
    {
      StepMovesOn(w, e, tried[n].value);
    }
  }

  lemma TriedStep(w: World, e: Event, t: nat, hooks: seq<nat>, tried: seq<Option<nat>>)
    requires Inv(w) && t < w.s.nextTask && GoneThrough(w, t, hooks, tried) && Tries(w, e, t)
    ensures GoneThrough(Step(w, e), t, hooks, tried + [if e.ok then Some(w.s.nextRun) else None])
  {
    RowsKept(w, e, hooks, tried);
    TryStep(w, e.ok, t);
    assert hooks[|tried|..][1..] == hooks[|tried| + 1..];
  }

  lemma WaitStep(w: World, e: Event, t: nat, hooks: seq<nat>, tried: seq<Option<nat>>)
    requires Inv(w) && t < w.s.nextTask && GoneThrough(w, t, hooks, tried) && !Tries(w, e, t)
    ensures GoneThrough(Step(w, e), t, hooks, tried)
  {
    RowsKept(w, e, hooks, tried);
    if t in w.s.tasks {
      StepGoesOn(w, e, t);
      if !w.s.tasks[t].phase.Ready? { assert hooks[|tried| - 1..][1..] == hooks[|tried|..]; }
    } else {
      StepMoves(w, e, t);
    }
  }

  lemma {:induction false} NotTriedYet(es: seq<Event>, t: nat)
    requires Run(INIT, es).s.nextTask <= t
    ensures Tried(es, t) == []
  {
    if es != [] {
      var init := es[..|es| - 1];
      Reached(init, 0);
      TasksCount(Run(INIT, init), es[|es| - 1]);
      NotTriedYet(init, t);
      assert TaskSound(Run(INIT, init), t);
    }
  }

  lemma TasksCount(w: World, e: Event)
    ensures w.s.nextTask <= Step(w, e).s.nextTask <= w.s.nextTask + 1
  {
  }

  /** In every run, for every call: the rows it asked for are those of the first of
      the hooks it was given, in order, and each row made has its hook. It is over
      exactly when it has asked for a row for every one of them and is done with
      the last, whatever became of the others. */
  lemma {:induction false} CallsGoThroughTheirHooks(es: seq<Event>, t: nat)
    requires t < Run(INIT, es).s.nextTask
    ensures GoneThrough(Run(INIT, es), t, Given(es, t), Tried(es, t))
  {
    var init, last := es[..|es| - 1], es[|es| - 1];
    var w := Run(INIT, init);
    Reached(init, 0);
    TasksCount(w, last);
    if t == w.s.nextTask {
      NotTriedYet(init, t);
      assert TaskSound(w, t);
      BeginsWith(w, last);
    } else {
      CallsGoThroughTheirHooks(init, t);
      if Tries(w, last, t) {
        TriedStep(w, last, t, Given(init, t), Tried(init, t));
      } else {
        WaitStep(w, last, t, Given(init, t), Tried(init, t));
      }
    }
  }
}
