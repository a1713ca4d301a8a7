/** One session's roster of child runs: change events and fetches race, and no
    refresh is lost. */
module DelegationRosterProtocol {
  import opened Options
  import opened DelegationStore

  /** A roster request. `issued` counts the change events delivered before it
      went out; `sample` is the engine's version and roster once it has read them. */
  datatype Fetch = Fetch(issued: nat, sample: Option<(nat, RosterReply)>)

  /** Histories: `version` counts the engine's roster changes, of which the last
      `channel` are not yet announced to the store; `issued` belongs to the last
      fetch; `shown` is the version last installed; `lastOk` says whether the
      last reply succeeded; `installed` lists every roster ever installed. */
  datatype World = World(roster: Roster, engine: RosterReply, version: nat, channel: nat,
                         fetches: map<nat, Fetch>, next: nat,
                         issued: nat, shown: nat, lastOk: bool, installed: seq<seq<AgentRun>>)

  datatype Event =
    | EngineChanges(after: RosterReply)
    | DeliverChange
    | AskedToLoad
    | EngineReads(rid: nat)
    | Reply(rid: nat, ok: bool)

  function Delivered(w: World): int {
    w.version - w.channel
  }

  /** The store's state moved to `r`; a request goes out when `sends` says so. */
  ghost function Moved(w: World, r: Roster, sends: bool): World
    requires w.channel <= w.version
  {
    if sends
    then w.(roster := r, fetches := w.fetches[w.next := Fetch(w.version - w.channel, None)], next := w.next + 1,
            issued := w.version - w.channel)
    else w.(roster := r)
  }

  ghost function ReplyStep(w: World, rid: nat, ok: bool): World
    requires w.channel <= w.version
  {
    if rid !in w.fetches || (ok && w.fetches[rid].sample.None?) then w
    else
      var reply := if ok then Some(w.fetches[rid].sample.value.1) else None;
      var v := w.(fetches := w.fetches - {rid}, lastOk := ok,
                  shown := if ok then w.fetches[rid].sample.value.0 else w.shown,
                  installed := if ok then w.installed + [reply.value.runs] else w.installed);
      Moved(v, RosterReplied(w.roster, reply), w.roster.refreshAgain)
  }

  ghost function Step(w: World, e: Event): World {
    if w.channel > w.version then w
    else match e
      case EngineChanges(after) => w.(engine := after, version := w.version + 1, channel := w.channel + 1)
      case DeliverChange =>
        if w.channel == 0 then w
        else Moved(w.(channel := w.channel - 1), OnRunChanged(w.roster), !w.roster.requested)
      case AskedToLoad => Moved(w, Load(w.roster), !w.roster.requested)
      case EngineReads(rid) =>
        if rid in w.fetches && w.fetches[rid].sample.None?
        then w.(fetches := w.fetches[rid := w.fetches[rid].(sample := Some((w.version, w.engine)))])
        else w
      case Reply(rid, ok) => ReplyStep(w, rid, ok)
  }

  ghost function Run(w: World, es: seq<Event>): World
    decreases |es|
  {
    if es == [] then w else Run(Step(w, es[0]), es[1..])
  }

  ghost function Init(engine: RosterReply): World {
    World(Roster([], None, Idle, false, false, map[]), engine, 0, 0, map[], 0, 0, 0, false, [])
  }

  ghost predicate FetchSound(w: World, f: Fetch) {
    && f.issued == w.issued
    && (f.sample.Some? ==> f.issued <= f.sample.value.0 <= w.version
                           && (f.sample.value.0 == w.version ==> f.sample.value.1 == w.engine))
  }

  /** A change that arrived after the last fetch went out is remembered. */
  ghost predicate NoRefreshLost(w: World) {
    && w.issued <= Delivered(w)
    && (if w.roster.requested
        then w.issued < Delivered(w) <==> w.roster.refreshAgain
        else w.issued == Delivered(w) && !w.roster.refreshAgain)
  }

  ghost predicate ShownSound(w: World) {
    && w.shown <= w.version
    && (w.lastOk && !w.roster.requested ==> w.issued <= w.shown)
    && (w.installed != [] && w.shown == w.version ==> w.roster.runs == w.engine.runs && w.roster.root == w.engine.root)
    && (w.lastOk ==> w.installed != [])
  }

  /** The status tells what the last request came to. */
  ghost predicate StatusSound(w: World) {
    w.roster.status ==
      if w.fetches != map[] then Loading else if w.next == 0 then Idle else if w.lastOk then Ready else Status.Failed
  }

  ghost predicate Inv(w: World) {
    && w.channel <= w.version && StatusSound(w)
    && |w.fetches| == (if w.roster.requested then 1 else 0)
    && (forall r :: r in w.fetches ==> r < w.next && FetchSound(w, w.fetches[r]))
    && NoRefreshLost(w) && ShownSound(w) && SeenSound(w.roster.seen, w.installed)
  }

  // --- the runs seen per dispatch slot ---

  ghost predicate NoRepeats(ids: seq<nat>) {
    forall i, j :: 0 <= i < j < |ids| ==> ids[i] != ids[j]
  }

  /** The run was dispatched by that call of that parent, at that position. */
  predicate DispatchedAs(run: AgentRun, slot: Slot) {
    run.parent == Some(slot.owner) && run.sourceCall == Some(slot.call) && run.dispatchIndex == Some(slot.index)
  }

  ghost predicate Holds(seen: Seen, run: AgentRun) {
    forall slot :: DispatchedAs(run, slot) ==> run.runId in SeenIn(seen, slot)
  }

  /** Some installed roster had a run of that id for the slot. */
  ghost predicate WasSeen(installed: seq<seq<AgentRun>>, slot: Slot, id: nat) {
    exists runs, run :: runs in installed && run in runs && DispatchedAs(run, slot) && run.runId == id
  }

  ghost predicate SeenSound(seen: Seen, installed: seq<seq<AgentRun>>) {
    && (forall slot :: NoRepeats(SeenIn(seen, slot)))
    && (forall runs, run :: runs in installed && run in runs ==> Holds(seen, run))
    && (forall slot, id :: id in SeenIn(seen, slot) ==> WasSeen(installed, slot, id))
  }

  lemma NoteIs(seen: Seen, run: AgentRun, slot: Slot)
    ensures SeenIn(NoteRun(seen, run), slot) ==
            if DispatchedAs(run, slot) && run.runId !in SeenIn(seen, slot) then SeenIn(seen, slot) + [run.runId]
            else SeenIn(seen, slot)
  {
  }

  /** Noting a roster only appends, repeats no run, and holds every linked run
      and no other. */
  lemma {:induction false} NotesGrow(seen: Seen, runs: seq<AgentRun>, slot: Slot)
    requires NoRepeats(SeenIn(seen, slot))
    ensures var before, after := SeenIn(seen, slot), SeenIn(NoteRuns(seen, runs), slot);
            && NoRepeats(after) && before <= after
            && (forall run :: run in runs && DispatchedAs(run, slot) ==> run.runId in after)
            && (forall id :: id in after ==> id in before || WasSeen([runs], slot, id))
  {
    if runs != [] {
      var init, last := runs[..|runs| - 1], runs[|runs| - 1];
      NotesGrow(seen, init, slot);
      NoteIs(NoteRuns(seen, init), last, slot);
      assert runs == init + [last];
      forall id | id in SeenIn(NoteRuns(seen, runs), slot) && id !in SeenIn(seen, slot)
        ensures WasSeen([runs], slot, id)
      {
        if WasSeen([init], slot, id) {
          var run :| run in init && DispatchedAs(run, slot) && run.runId == id;
          assert runs in [runs] && run in runs;
        } else {
          assert runs in [runs] && last in runs;
        }
      }
    }
  }

  // --- every step keeps the invariant ---

  lemma ReplyKeeps(w: World, rid: nat, ok: bool)
    requires Inv(w)
    ensures Inv(ReplyStep(w, rid, ok))
    ensures forall slot :: SeenIn(w.roster.seen, slot) <= SeenIn(ReplyStep(w, rid, ok).roster.seen, slot)
  {
    if rid in w.fetches && (ok ==> w.fetches[rid].sample.Some?) {
      var f := w.fetches[rid];
      assert FetchSound(w, f);
      assert w.fetches - {rid} == map[] by {
        assert (w.fetches - {rid}).Keys == w.fetches.Keys - {rid};
        assert |(w.fetches - {rid}).Keys| == 0;
      }
      if ok {
        SeenAfterInstall(w.roster.seen, w.installed, f.sample.value.1.runs);
      }
    }
  }

  lemma SeenAfterInstall(seen: Seen, installed: seq<seq<AgentRun>>, runs: seq<AgentRun>)
    requires SeenSound(seen, installed)
    ensures SeenSound(NoteRuns(seen, runs), installed + [runs])
    ensures forall slot :: SeenIn(seen, slot) <= SeenIn(NoteRuns(seen, runs), slot)
  {
    var after, all := NoteRuns(seen, runs), installed + [runs];
    forall slot ensures NoRepeats(SeenIn(after, slot)) && SeenIn(seen, slot) <= SeenIn(after, slot) {
      NotesGrow(seen, runs, slot);
    }
    forall rs, run | rs in all && run in rs ensures Holds(after, run) {
      forall slot | DispatchedAs(run, slot) ensures run.runId in SeenIn(after, slot) {
        NotesGrow(seen, runs, slot);
        if rs in installed { assert Holds(seen, run); }
      }
    }
    forall slot, id | id in SeenIn(after, slot) ensures WasSeen(all, slot, id) {
      SeenBefore(seen, installed, runs, slot, id);
    }
  }

  lemma SeenBefore(seen: Seen, installed: seq<seq<AgentRun>>, runs: seq<AgentRun>, slot: Slot, id: nat)
    requires SeenSound(seen, installed) && id in SeenIn(NoteRuns(seen, runs), slot)
    ensures WasSeen(installed + [runs], slot, id)
  {
    NotesGrow(seen, runs, slot);
    if id in SeenIn(seen, slot) {
      var rs, run :| rs in installed && run in rs && DispatchedAs(run, slot) && run.runId == id;
      assert rs in installed + [runs];
    } else {
      var rs, run :| rs in [runs] && run in rs && DispatchedAs(run, slot) && run.runId == id;
      assert rs in installed + [runs];
    }
  }

  lemma StepKeeps(w: World, e: Event)
    requires Inv(w)
    ensures Inv(Step(w, e))
    ensures forall slot :: SeenIn(w.roster.seen, slot) <= SeenIn(Step(w, e).roster.seen, slot)
  {
    match e
    case Reply(rid, ok) => ReplyKeeps(w, rid, ok);
    case EngineChanges(after) =>
    case DeliverChange =>
    case AskedToLoad =>
    case EngineReads(rid) =>
  }

  lemma {:induction false} RunKeeps(w: World, es: seq<Event>)
    requires Inv(w)
    ensures Inv(Run(w, es))
    ensures forall slot :: SeenIn(w.roster.seen, slot) <= SeenIn(Run(w, es).roster.seen, slot)
    decreases |es|
  {
    if es != [] {
      StepKeeps(w, es[0]);
      RunKeeps(Step(w, es[0]), es[1..]);
    }
  }

  lemma {:induction false} RunSplits(w: World, es: seq<Event>, more: seq<Event>)
    ensures Run(w, es + more) == Run(Run(w, es), more)
    decreases |es|
  {
    if es == [] {
      assert es + more == more;
    } else {
      assert (es + more)[1..] == es[1..] + more;
      RunSplits(Step(w, es[0]), es[1..], more);
    }
  }

  /** In every run: at most one fetch is out; the session is marked for another
      exactly if one is out and a change was delivered since it was sent; with no
      fetch out, the last one was issued after the last delivered change. So no
      change is lost, and no fetch is repeated without one. */
  lemma NoRefreshLostInEveryRun(engine: RosterReply, es: seq<Event>)
    ensures var w := Run(Init(engine), es);
            && |w.fetches| <= 1
            && (w.roster.refreshAgain <==> w.issued < Delivered(w))
            && (w.roster.refreshAgain ==> w.fetches != map[])
            && (w.fetches == map[] ==> w.issued == Delivered(w))
  {
    RunKeeps(Init(engine), es);
  }

  /** Hence the roster converges: with every change announced, no fetch out and
      the last reply a success, the store shows the engine's roster. */
  lemma RosterConvergesInEveryRun(engine: RosterReply, es: seq<Event>)
    ensures var w := Run(Init(engine), es);
            w.channel == 0 && !w.roster.requested && w.lastOk ==>
              w.roster.runs == w.engine.runs && w.roster.root == w.engine.root
  {
    RunKeeps(Init(engine), es);
  }

  /** In every run the status is loading exactly while a fetch is out, and then
      ready or failed as the last reply was; before the first request it is idle. */
  lemma StatusTellsTheLastReply(engine: RosterReply, es: seq<Event>)
    ensures var w := Run(Init(engine), es);
            && (w.roster.status.Loading? <==> w.fetches != map[])
            && (w.roster.status.Idle? <==> w.next == 0)
            && (w.roster.status.Ready? <==> w.fetches == map[] && w.next > 0 && w.lastOk)
            && (w.roster.status.Failed? <==> w.fetches == map[] && w.next > 0 && !w.lastOk)
  {
    RunKeeps(Init(engine), es);
  }

  /** Along every run the seen lists only grow at their end and never repeat a
      run; a slot's list holds the runs dispatched for it in the rosters ever
      installed, and no others. */
  lemma SeenRunsGrowInEveryRun(engine: RosterReply, es: seq<Event>, more: seq<Event>, slot: Slot)
    ensures var w, v := Run(Init(engine), es), Run(Init(engine), es + more);
            && SeenIn(w.roster.seen, slot) <= SeenIn(v.roster.seen, slot)
            && NoRepeats(SeenIn(v.roster.seen, slot))
            && (forall id :: id in SeenIn(v.roster.seen, slot) <==> WasSeen(v.installed, slot, id))
  {
    RunKeeps(Init(engine), es);
    RunSplits(Init(engine), es, more);
    RunKeeps(Run(Init(engine), es), more);
    var v := Run(Init(engine), es + more);
    forall id | WasSeen(v.installed, slot, id) ensures id in SeenIn(v.roster.seen, slot) {
      var runs, run :| runs in v.installed && run in runs && DispatchedAs(run, slot) && run.runId == id;
      assert Holds(v.roster.seen, run);
    }
  }
}
