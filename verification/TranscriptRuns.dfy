/** What every run of a session's transcript leaves on show: the contents of the
    rows field by field, and which rows are missing. */
module TranscriptRuns {
  import opened Options
  import opened Ordered
  import opened TranscriptStore
  import opened TranscriptProtocol
  import opened TranscriptHistory
  import opened TranscriptContents
  import opened TranscriptRows

  // --- the history stays sound ---

  lemma FollowIsStep(h: History, e: Event)
    ensures Follow(h, e).w == Step(h.w, e) && Follow(h, e).first == h.first
  {
    match e
    case EngineAppends(_) =>
    case EngineUpdates(_, _) =>
    case _ =>
  }

  lemma RowStaysSound(h: History, e: Event, n: nat)
    requires HistorySound(h) && n > 0
    ensures RowSound(Follow(h, e), n)
  {
    assert RowSound(h, n);
    LogInOrder(h.w);
    match e
    case EngineAppends(row) => if Appendable(h.w.log, row) { AppendSlice(h, row, n); }
    case EngineUpdates(k, content) => if k < |h.w.log| && h.w.log[k].tool.Some? { UpdateSlice(h, k, content, n); }
    case Deliver => if h.w.channel != [] && h.w.channel[0].Said? { DeliverSlice(h, n); } else { CreatedSlice(h, n); }
    case BeginHydrate(force) => BeginSlice(h, force, n);
    case EngineReads(rid) => ReadSlice(h, rid, n);
    case HydrateReply(rid, ok) =>
      if rid in h.w.fetches && ok && h.w.fetches[rid].sample.Some? {
        InstallSlice(h, rid, n);
      } else if rid in h.w.fetches && !ok {
        FailSlice(h, rid, n);
      }
  }

  lemma CreatedUntouched(h: History, n: nat)
    requires h.w.channel == [] || h.w.channel[0].Created?
    ensures SliceOf(Follow(h, Deliver), n) == SliceOf(h, n) && Follow(h, Deliver).w.hydrated == h.w.hydrated
  {
  }

  lemma CreatedSlice(h: History, n: nat)
    requires RowSound(h, n) && (h.w.channel == [] || h.w.channel[0].Created?)
    ensures RowSound(Follow(h, Deliver), n)
  {
    CreatedUntouched(h, n);
    DeliverRest(h, n);
  }

  lemma BeginSlice(h: History, force: bool, n: nat)
    requires RowSound(h, n)
    ensures RowSound(Follow(h, BeginHydrate(force)), n)
  {
    var v := Follow(h, BeginHydrate(force));
    forall rid ensures FetchSound(v, rid, n) {
      assert FetchSound(h, rid, n);
    }
    RowSoundIf(v, n, SliceOf(h, n));
  }

  lemma FailSlice(h: History, rid: nat, n: nat)
    requires RowSound(h, n) && Numbered(Ids(h.w.client.rows))
    ensures RowSound(Follow(h, HydrateReply(rid, false)), n)
  {
    var v := Follow(h, HydrateReply(rid, false));
    FailedFetchOnlyMarksLoaded(h.w.client);
    FetchesStaySound(h, v, n);
    RowSoundIf(v, n, SliceOf(h, n));
  }

  lemma NothingSaidYet(h: History, row: Row)
    requires HistorySound(h) && Appendable(h.w.log, row)
    ensures SaidOf(h, row.seqNo) == [] && row.seqNo !in h.first
  {
    NewNumber(h.w.log, row);
    assert RowSound(h, row.seqNo);
  }

  lemma PlainAppended(h: History, row: Row, k: nat)
    requires PlainRow(h, k) && (Appendable(h.w.log, row) ==> SaidOf(h, row.seqNo) == [] && row.seqNo !in h.first)
    ensures PlainRow(Follow(h, EngineAppends(row)), k)
  {
    if Appendable(h.w.log, row) && k < |h.w.log| { assert h.w.log[k].seqNo < row.seqNo; }
  }

  lemma PlainUpdated(h: History, i: nat, content: Content, k: nat)
    requires PlainRow(h, k)
    requires i < |h.w.log| && k < |h.w.log| && h.w.log[i].seqNo == h.w.log[k].seqNo ==> i == k
    ensures PlainRow(Follow(h, EngineUpdates(i, content)), k)
  {
  }

  lemma PlainOtherwise(h: History, e: Event, k: nat)
    requires PlainRow(h, k) && !e.EngineAppends? && !e.EngineUpdates?
    ensures PlainRow(Follow(h, e), k)
  {
  }

  /** Only tool rows are updated, so a plain row is still said at most once. */
  lemma PlainRowStays(h: History, e: Event, k: nat)
    requires HistorySound(h)
    ensures PlainRow(Follow(h, e), k)
  {
    assert PlainRow(h, k);
    match e
    case EngineAppends(row) =>
      if Appendable(h.w.log, row) { NothingSaidYet(h, row); }
      PlainAppended(h, row, k);
    case EngineUpdates(i, content) =>
      if i < |h.w.log| && k < |h.w.log| { SameIdentity(Ids(h.w.log), i, k); }
      PlainUpdated(h, i, content, k);
    case _ => PlainOtherwise(h, e, k);
  }

  lemma FirstStays(h: History, e: Event)
    requires HistorySound(h)
    ensures Numbers(Step(h.w, e).log[..h.w.base]) == Numbers(h.w.log[..h.w.base]) && Step(h.w, e).base == h.w.base
  {
    var a, b := h.w.log[..h.w.base], Step(h.w, e).log[..h.w.base];
    assert forall i :: 0 <= i < h.w.base ==> a[i].seqNo == b[i].seqNo;
    forall n | n in Numbers(a) ensures n in Numbers(b) {
      var i :| 0 <= i < |a| && a[i].seqNo == n;
      assert b[i] in b;
    }
    forall n | n in Numbers(b) ensures n in Numbers(a) {
      var i :| 0 <= i < |b| && b[i].seqNo == n;
      assert a[i] in a;
    }
  }

  lemma FollowKeeps(h: History, e: Event)
    requires HistorySound(h)
    ensures HistorySound(Follow(h, e))
  {
    var v := Follow(h, e);
    FollowIsStep(h, e);
    StepKeeps(h.w, e);
    forall n: nat | n > 0 ensures RowSound(v, n) { RowStaysSound(h, e, n); }
    forall k ensures PlainRow(v, k) { PlainRowStays(h, e, k); }
    FirstStays(h, e);
  }

  lemma BeginSound(log: seq<Row>, created: bool)
    requires WellFormedLog(log)
    ensures HistorySound(Begin(log, created))
  {
    SubscribedInv(log);
    var h := Begin(log, created);
    assert h.w.log[..h.w.base] == h.w.log;
    forall n: nat ensures n in h.first <==> n in Numbers(h.w.log) {
      AtMember(log, n);
    }
    forall n: nat | n > 0 ensures RowSound(h, n) {
      AtMember(h.w.log, n);
      if created { assert h.w.channel[1..] == [] && Queue(h.w.channel[1..], n) == []; }
      assert SaidOf(h, n) == [] && Queue(h.w.channel, n) == [];
      assert Base(h, n) + map[] == Base(h, n);
    }
  }

  lemma {:induction false} LiveKeeps(log: seq<Row>, created: bool, es: seq<Event>)
    requires WellFormedLog(log)
    ensures HistorySound(Live(Begin(log, created), es))
  {
    if es == [] {
      BeginSound(log, created);
    } else {
      var n := |es| - 1;
      LiveKeeps(log, created, es[..n]);
      FollowKeeps(Live(Begin(log, created), es[..n]), es[n]);
    }
  }

  lemma {:induction false} RunSnoc(w: World, es: seq<Event>, e: Event)
    ensures Run(w, es + [e]) == Step(Run(w, es), e)
    decreases |es|
  {
    if es == [] {
      assert [e][1..] == [];
    } else {
      assert (es + [e])[1..] == es[1..] + [e];
      RunSnoc(Step(w, es[0]), es[1..], e);
    }
  }

  lemma LiveSnoc(h: History, es: seq<Event>, e: Event)
    requires Live(h, es).w == Run(h.w, es)
    ensures Live(h, es + [e]).w == Run(h.w, es + [e])
  {
    assert (es + [e])[..|es|] == es;
    FollowIsStep(Live(h, es), e);
    RunSnoc(h.w, es, e);
  }

  /** The history follows the run and changes nothing about it. */
  lemma {:induction false} LiveIsRun(h: History, es: seq<Event>)
    ensures Live(h, es).w == Run(h.w, es)
  {
    if es != [] {
      var init := es[..|es| - 1];
      assert es == init + [es[|es| - 1]];
      LiveIsRun(h, init);
      LiveSnoc(h, init, es[|es| - 1]);
    }
  }

  // --- contents, once everything is delivered ---

  /** The contents a row had when the snapshot it was last installed from was taken. */
  function AsTaken(h: History, n: nat): Content
    requires CutOf(h, n).taken <= |SaidOf(h, n)|
  {
    Base(h, n) + Sum(SaidOf(h, n)[..CutOf(h, n).taken])
  }

  /** A field of row `k` is as the engine has it, or it was dropped: updated
      after the snapshot last installed over the row was taken, that update
      delivered before the install, and none following. Then it is shown as the
      snapshot had it. */
  ghost predicate FieldSettled(h: History, k: nat, f: nat) {
    && k < |h.w.log| && k < |h.w.client.rows|
    && var n := h.w.log[k].seqNo;
       && CutOf(h, n).taken <= |SaidOf(h, n)| && CutOf(h, n).heard <= |SaidOf(h, n)|
       && At(h.w.client.rows[k].content, f) ==
          if f in Dropped(SaidOf(h, n), CutOf(h, n)) then At(AsTaken(h, n), f) else At(h.w.log[k].content, f)
  }

  ghost predicate Settled(h: History) {
    HistorySound(h) && h.w.channel == [] && (h.w.hydrated || h.w.base == 0)
  }

  lemma SettledIds(h: History)
    requires Settled(h)
    ensures Ids(h.w.client.rows) == Ids(h.w.log)
  {
    DrainedIsTheLog(Ids(h.w.client.rows), h.w.client.lastSeq, Ids(h.w.log), h.w.base);
  }

  lemma SettledSlice(x: Slice, hydrated: bool)
    requires x.queue == [] && x.shown.Some? && x.engine.Some? && (x.predates ==> hydrated) && Sound(x, hydrated)
    ensures x.cut.taken <= |x.said| && x.cut.heard <= |x.said|
    ensures x.engine.value == x.base + Sum(x.said) && x.shown.value == Shown(x.base, x.said, x.cut, |x.said|)
  {
    assert x.heard == |x.said|;
  }

  lemma RowsAgree(h: History, k: nat)
    requires Settled(h) && k < |h.w.log|
    ensures k < |h.w.client.rows| && Id(h.w.client.rows[k]) == Id(h.w.log[k])
    ensures h.w.log[k].seqNo > 0
  {
    SettledIds(h);
    assert |Ids(h.w.client.rows)| == |h.w.client.rows|;
    assert Ids(h.w.log)[k].seqNo > 0 && Ids(h.w.client.rows)[k] == Ids(h.w.log)[k];
  }

  lemma NonePredate(h: History, n: nat)
    requires HistorySound(h) && h.w.base == 0
    ensures n !in h.first
  {
    assert Numbers(h.w.log[..0]) == {};
  }

  lemma SettledSound(h: History, n: nat)
    requires Settled(h) && n > 0
    ensures Sound(SliceOf(h, n), h.w.hydrated)
  {
    assert RowSound(h, n);
  }

  lemma SettledRow(h: History, k: nat)
    requires Settled(h) && k < |h.w.log|
    ensures k < |h.w.client.rows| && Id(h.w.client.rows[k]) == Id(h.w.log[k])
    ensures var n := h.w.log[k].seqNo;
            && CutOf(h, n).taken <= |SaidOf(h, n)| && CutOf(h, n).heard <= |SaidOf(h, n)|
            && h.w.log[k].content == Base(h, n) + Sum(SaidOf(h, n))
            && h.w.client.rows[k].content == Shown(Base(h, n), SaidOf(h, n), CutOf(h, n), |SaidOf(h, n)|)
  {
    RowsAgree(h, k);
    SettledSound(h, h.w.log[k].seqNo);
    if h.w.base == 0 { NonePredate(h, h.w.log[k].seqNo); }
    LogInOrder(h.w);
    AtIndex(h.w.log, k);
    AtIndex(h.w.client.rows, k);
    SettledSlice(SliceOf(h, h.w.log[k].seqNo), h.w.hydrated);
  }

  lemma FieldsSettle(h: History, k: nat, f: nat)
    requires Settled(h) && k < |h.w.log|
    ensures FieldSettled(h, k, f)
  {
    SettledRow(h, k);
    var n := h.w.log[k].seqNo;
    ShownExactly(Base(h, n), SaidOf(h, n), CutOf(h, n), f);
  }

  /** Nothing is lost but what a snapshot overwrote: whenever every event is
      delivered, a client that has hydrated or seen its session created shows
      the whole log, and every field of every row has the engine's value unless
      a snapshot dropped it. */
  lemma QuiescentTranscriptIsTheLog(log: seq<Row>, created: bool, es: seq<Event>)
    requires WellFormedLog(log)
    ensures var h := Live(Begin(log, created), es);
            && h.w == Run(Start(log, created), es)
            && (h.w.channel == [] && (h.w.hydrated || created) ==>
                  Ids(h.w.client.rows) == Ids(h.w.log) && forall k, f :: 0 <= k < |h.w.log| ==> FieldSettled(h, k, f))
  {
    LiveIsRun(Begin(log, created), es);
    BaseIsFixed(Start(log, created), es);
    LiveKeeps(log, created, es);
    var h := Live(Begin(log, created), es);
    if h.w.channel == [] && (h.w.hydrated || created) {
      SettledIds(h);
      forall k, f | 0 <= k < |h.w.log| ensures FieldSettled(h, k, f) { FieldsSettle(h, k, f); }
    }
  }

  /** A settled row is the engine's row if and only if every dropped field was
      given the value it has in the snapshot; and where no field is ever given a
      value it had before, if and only if no field was dropped. */
  lemma RowIsCurrentExactly(log: seq<Row>, created: bool, es: seq<Event>, k: nat)
    requires WellFormedLog(log)
    ensures var h := Live(Begin(log, created), es);
            h.w.channel == [] && (h.w.hydrated || created) && k < |h.w.log| ==>
              var n := h.w.log[k].seqNo;
              && k < |h.w.client.rows| && CutOf(h, n).taken <= |SaidOf(h, n)| && CutOf(h, n).heard <= |SaidOf(h, n)|
              && var dropped := Dropped(SaidOf(h, n), CutOf(h, n));
                 && (h.w.client.rows[k] == h.w.log[k] <==>
                     forall f :: f in dropped ==> At(AsTaken(h, n), f) == At(Base(h, n) + Sum(SaidOf(h, n)), f))
                 && (NewValues(Base(h, n), SaidOf(h, n)) ==>
                     (h.w.client.rows[k] == h.w.log[k] <==> dropped == {}))
  {
    LiveIsRun(Begin(log, created), es);
    BaseIsFixed(Start(log, created), es);
    LiveKeeps(log, created, es);
    var h := Live(Begin(log, created), es);
    if h.w.channel == [] && (h.w.hydrated || created) && k < |h.w.log| {
      SettledRow(h, k);
      var n := h.w.log[k].seqNo;
      CurrentExactly(Base(h, n), SaidOf(h, n), CutOf(h, n));
    }
  }

  lemma SameContent(a: Content, b: Content)
    requires forall f :: At(a, f) == At(b, f)
    ensures a == b
  {
    forall f ensures f in a <==> f in b { assert At(a, f) == At(b, f); }
    forall f | f in a ensures a[f] == b[f] { assert At(a, f) == At(b, f); }
  }

  lemma CurrentExactly(base: Content, said: seq<Content>, cut: Cut)
    requires cut.taken <= |said| && cut.heard <= |said|
    ensures Shown(base, said, cut, |said|) == base + Sum(said) <==>
            forall f :: f in Dropped(said, cut) ==> At(base + Sum(said[..cut.taken]), f) == At(base + Sum(said), f)
    ensures NewValues(base, said) ==> (Shown(base, said, cut, |said|) == base + Sum(said) <==> Dropped(said, cut) == {})
  {
    var shown, full := Shown(base, said, cut, |said|), base + Sum(said);
    forall f
      ensures At(shown, f) == if f in Dropped(said, cut) then At(base + Sum(said[..cut.taken]), f) else At(full, f)
    {
      ShownExactly(base, said, cut, f);
    }
    if forall f :: f in Dropped(said, cut) ==> At(base + Sum(said[..cut.taken]), f) == At(full, f) {
      SameContent(shown, full);
    }
    if NewValues(base, said) && Dropped(said, cut) != {} {
      var f :| f in Dropped(said, cut);
      DroppedIsOutdated(base, said, cut, f);
    }
  }

  // --- an update lost for good ---

  lemma OneMore(w: World, es: seq<Event>, e: Event, v: World)
    requires Run(w, es) == v
    ensures Run(w, es + [e]) == Step(v, e)
  {
    RunSnoc(w, es, e);
  }

  const STARTED := Row(1, Some(7), map[0 := 1])
  const FINISHED := Row(1, Some(7), map[0 := 2])

  /** One tool row, announced and shown, with a fetch that has read it. */
  function ToolSampled(): World {
    World(Client([STARTED], 1, true), [STARTED], [], map[0 := Fetch(Some([STARTED]))], 1, 0, 1, false)
  }

  lemma ShowsTool()
    ensures Run(Announced(), [EngineAppends(STARTED), Deliver] + [Deliver]) ==
            World(Client([STARTED], 1, true), [STARTED], [], map[], 0, 0, 1, false)
  {
    var w0 := World(EMPTY_CLIENT, [STARTED], [Created, Said(STARTED, true)], map[], 0, 0, 0, false);
    var w1 := World(Client([], 0, true), [STARTED], [Said(STARTED, true)], map[], 0, 0, 0, false);
    assert Run(Announced(), []) == Announced();
    OneMore(Announced(), [], EngineAppends(STARTED), Announced());
    assert [] + [EngineAppends(STARTED)] == [EngineAppends(STARTED)];
    assert Step(Announced(), EngineAppends(STARTED)) == w0;
    OneMore(Announced(), [EngineAppends(STARTED)], Deliver, w0);
    assert [EngineAppends(STARTED)] + [Deliver] == [EngineAppends(STARTED), Deliver];
    assert Step(w0, Deliver) == w1;
    OneMore(Announced(), [EngineAppends(STARTED), Deliver], Deliver, w1);
    assert [] + [STARTED] == [STARTED];
  }

  lemma SamplesTool()
    ensures Run(Announced(), [EngineAppends(STARTED), Deliver] + [Deliver] + [BeginHydrate(true)] + [EngineReads(0)]) ==
            ToolSampled()
  {
    var es := [EngineAppends(STARTED), Deliver] + [Deliver];
    var shown := World(Client([STARTED], 1, true), [STARTED], [], map[], 0, 0, 1, false);
    ShowsTool();
    OneMore(Announced(), es, BeginHydrate(true), shown);
    var asked := shown.(fetches := map[0 := Fetch(None)], next := 1);
    assert Step(shown, BeginHydrate(true)) == asked;
    OneMore(Announced(), es + [BeginHydrate(true)], EngineReads(0), asked);
  }

  lemma UpdatesTool(es: seq<Event>)
    requires Run(Announced(), es) == ToolSampled()
    ensures Run(Announced(), es + [EngineUpdates(0, map[0 := 2])] + [Deliver]) ==
            ToolSampled().(client := Client([FINISHED], 1, true), log := [FINISHED])
  {
    assert map[0 := 1] + map[0 := 2] == map[0 := 2];
    var w := ToolSampled().(log := [FINISHED], channel := [Said(FINISHED, false)]);
    OneMore(Announced(), es, EngineUpdates(0, map[0 := 2]), ToolSampled());
    assert Step(ToolSampled(), EngineUpdates(0, map[0 := 2])) == w;
    OneMore(Announced(), es + [EngineUpdates(0, map[0 := 2])], Deliver, w);
    assert FindTool([STARTED], Some(7)) == 0;
    assert ApplyMessage(Client([STARTED], 1, true), FINISHED).rows == [FINISHED];
  }

  /** A tool update delivered between a snapshot's reading and its install is
      undone by it, and nothing that is still to come repairs it. */
  lemma UpdateIsLost()
    ensures var w := Run(Announced(), [EngineAppends(STARTED), Deliver] + [Deliver] + [BeginHydrate(true)]
                                      + [EngineReads(0)] + [EngineUpdates(0, map[0 := 2])] + [Deliver]
                                      + [HydrateReply(0, true)]);
            && w.channel == [] && w.fetches == map[] && w.hydrated
            && w.log == [FINISHED] && w.client.rows == [STARTED]
  {
    var es := [EngineAppends(STARTED), Deliver] + [Deliver] + [BeginHydrate(true)] + [EngineReads(0)];
    SamplesTool();
    UpdatesTool(es);
    var w := ToolSampled().(client := Client([FINISHED], 1, true), log := [FINISHED]);
    OneMore(Announced(), es + [EngineUpdates(0, map[0 := 2])] + [Deliver], HydrateReply(0, true), w);
    assert MaxSeq([STARTED]) == 1;
    assert [FINISHED][..0] == [];
    assert LiveTail([FINISHED], 1) == [];
  }

  // --- rows missing ---

  /** Before any snapshot is installed, the rows on show are those that were
      announced or updated while no higher number had been delivered. */
  ghost predicate Tracks(h: History) {
    !h.w.hydrated ==> Numbers(h.w.client.rows) == h.records && h.w.client.lastSeq == h.high
  }

  lemma NumbersAppend(rows: seq<Row>, row: Row)
    ensures Numbers(rows + [row]) == Numbers(rows) + {row.seqNo}
  {
    forall n | n in Numbers(rows) + {row.seqNo} ensures n in Numbers(rows + [row]) {
      if n in Numbers(rows) {
        var r :| r in rows && r.seqNo == n;
        assert r in rows + [row];
      } else {
        assert row in rows + [row];
      }
    }
  }

  lemma NumbersUpdate(rows: seq<Row>, k: nat, content: Content)
    requires k < |rows|
    ensures Numbers(rows[k := rows[k].(content := content)]) == Numbers(rows)
  {
    var after := rows[k := rows[k].(content := content)];
    forall n | n in Numbers(rows) ensures n in Numbers(after) {
      var i :| 0 <= i < |rows| && rows[i].seqNo == n;
      assert after[i] in after;
    }
    forall n | n in Numbers(after) ensures n in Numbers(rows) {
      var i :| 0 <= i < |after| && after[i].seqNo == n;
      assert rows[i] in rows;
    }
  }

  /** A message changes the numbers on show exactly if it has a higher one. */
  lemma NumbersApplied(w: World)
    requires Inv(w) && w.channel != [] && w.channel[0].Said?
    ensures var m, d := w.channel[0].row, ApplyMessage(w.client, w.channel[0].row);
            && Numbers(d.rows) == Numbers(w.client.rows) + (if m.seqNo > w.client.lastSeq then {m.seqNo} else {})
            && d.lastSeq == if m.seqNo > w.client.lastSeq then m.seqNo else w.client.lastSeq
  {
    var k := DeliveredIsLogged(w);
    var c, m := w.client, w.channel[0].row;
    var i := FindTool(c.rows, m.tool);
    if i < |c.rows| {
      assert c.rows[i] in c.rows;
      NumbersUpdate(c.rows, i, c.rows[i].content + m.content);
      assert Ids(c.rows)[i].seqNo == m.seqNo;
      LastIsHighest(Ids(c.rows), Ids(c.rows)[i]);
    } else {
      NumbersAppend(c.rows, m);
    }
  }

  lemma DeliverTracks(h: History)
    requires Inv(h.w) && Tracks(h)
    ensures Tracks(Follow(h, Deliver))
  {
    if h.w.channel != [] && h.w.channel[0].Said? { NumbersApplied(h.w); }
  }

  lemma ReplyTracks(h: History, rid: nat, ok: bool)
    requires Inv(h.w) && Tracks(h)
    ensures Tracks(Follow(h, HydrateReply(rid, ok)))
  {
    FailedFetchOnlyMarksLoaded(h.w.client);
  }

  lemma QuietTracks(h: History, e: Event)
    requires Tracks(h) && !e.Deliver? && !e.HydrateReply?
    ensures Tracks(Follow(h, e))
  {
    match e
    case EngineAppends(_) =>
    case EngineUpdates(_, _) =>
    case BeginHydrate(_) =>
    case _ =>
  }

  lemma FollowTracks(h: History, e: Event)
    requires HistorySound(h) && Tracks(h)
    ensures Tracks(Follow(h, e))
  {
    match e
    case Deliver => DeliverTracks(h);
    case HydrateReply(rid, ok) => ReplyTracks(h, rid, ok);
    case _ => QuietTracks(h, e);
  }

  lemma {:induction false} LiveTracks(log: seq<Row>, created: bool, es: seq<Event>)
    requires WellFormedLog(log)
    ensures Tracks(Live(Begin(log, created), es))
  {
    if es != [] {
      var n := |es| - 1;
      LiveTracks(log, created, es[..n]);
      LiveKeeps(log, created, es[..n]);
      FollowTracks(Live(Begin(log, created), es[..n]), es[n]);
    }
  }

  /** The rows on show are the log's rows numbered up to the mark. */
  ghost predicate ShownToTheMark(w: World) {
    forall r :: r in Ids(w.client.rows) <==> r in Ids(w.log) && r.seqNo <= w.client.lastSeq
  }

  lemma NumbersOfIds(rows: seq<Row>, n: nat)
    ensures n in Numbers(rows) <==> exists r :: r in Ids(rows) && r.seqNo == n
  {
    if n in Numbers(rows) {
      var i :| 0 <= i < |rows| && rows[i].seqNo == n;
      assert Ids(rows)[i] in Ids(rows);
    }
    if r :| r in Ids(rows) && r.seqNo == n {
      var i :| 0 <= i < |rows| && Ids(rows)[i] == r;
      assert rows[i] in rows;
    }
  }

  /** A row of the log with a number on show is on show. */
  lemma SameNumberSameRow(w: World, j: nat)
    requires Inv(w) && j < |w.log| && w.log[j].seqNo in Numbers(w.client.rows)
    ensures Ids(w.log)[j] in Ids(w.client.rows)
  {
    NumbersOfIds(w.client.rows, w.log[j].seqNo);
    var r :| r in Ids(w.client.rows) && r.seqNo == w.log[j].seqNo;
    assert r in Ids(w.log);
    var i :| 0 <= i < |w.log| && Ids(w.log)[i] == r;
    SameIdentity(Ids(w.log), i, j);
  }

  /** A log row that predates the subscription is on show, before any snapshot
      is installed, exactly if it was a record. */
  lemma PredatingShown(h: History, j: nat)
    requires HistorySound(h) && Tracks(h) && !h.w.hydrated && j < h.w.base
    ensures h.w.log[j].seqNo in h.first
    ensures Ids(h.w.log)[j] in Ids(h.w.client.rows) <==> h.w.log[j].seqNo in h.records
  {
    var n := h.w.log[j].seqNo;
    PredatingRow(h, j);
    NumbersOfIds(h.w.client.rows, n);
    if n in h.records { SameNumberSameRow(h.w, j); }
  }

  lemma FirstIsLogged(h: History, n: nat) returns (j: nat)
    requires HistorySound(h) && n in h.first
    ensures j < h.w.base && h.w.log[j].seqNo == n
  {
    var r :| r in h.w.log[..h.w.base] && r.seqNo == n;
    j :| 0 <= j < h.w.base && h.w.log[..h.w.base][j] == r;
  }

  lemma ShownExactlyIf(h: History)
    requires HistorySound(h) && Tracks(h)
    ensures ShownToTheMark(h.w) <==> h.w.hydrated || forall n :: n in h.first && n <= h.high ==> n in h.records
  {
    var ids, rows := Ids(h.w.log), Ids(h.w.client.rows);
    forall r | r in rows ensures r in ids && r.seqNo <= h.w.client.lastSeq { LastIsHighest(rows, r); }
    if h.w.hydrated {
    } else if forall n :: n in h.first && n <= h.high ==> n in h.records {
      forall r | r in ids && r.seqNo <= h.w.client.lastSeq ensures r in rows {
        var j :| 0 <= j < |ids| && ids[j] == r;
        if j < h.w.base { PredatingShown(h, j); }
      }
    } else if ShownToTheMark(h.w) {
      forall n | n in h.first && n <= h.high ensures n in h.records {
        var j := FirstIsLogged(h, n);
        assert ids[j] in ids;
        PredatingShown(h, j);
      }
    }
  }

  lemma WholeExactlyIf(h: History)
    requires HistorySound(h) && Tracks(h) && h.w.channel == []
    ensures Ids(h.w.client.rows) == Ids(h.w.log) <==> h.w.hydrated || forall n :: n in h.first ==> n in h.records
  {
    var ids, rows := Ids(h.w.log), Ids(h.w.client.rows);
    if h.w.hydrated {
      SettledIds(h);
    } else if forall n :: n in h.first ==> n in h.records {
      forall r | r in ids ensures r in rows {
        var j :| 0 <= j < |ids| && ids[j] == r;
        if j < h.w.base { PredatingShown(h, j); }
      }
      SameMembers(rows, ids, (r: RowId) => r.seqNo);
    } else if rows == ids {
      forall n | n in h.first ensures n in h.records {
        var j := FirstIsLogged(h, n);
        assert ids[j] in rows;
        PredatingShown(h, j);
      }
    }
  }

  /** When a session is complete, whatever its loaded flag says: it shows the log
      up to its mark if and only if a snapshot was ever installed, or every row
      from before the subscription that the mark has passed was updated while no
      higher number had been delivered; and with everything delivered it shows
      the whole log if and only if that holds of every row from before. */
  lemma CompleteExactly(log: seq<Row>, created: bool, es: seq<Event>)
    requires WellFormedLog(log)
    ensures var h := Live(Begin(log, created), es);
            && h.w == Run(Start(log, created), es)
            && h.first.Keys == (if created then {} else Numbers(log))
            && (ShownToTheMark(h.w) <==> h.w.hydrated || forall n :: n in h.first && n <= h.high ==> n in h.records)
            && (h.w.channel == [] ==>
                  (Ids(h.w.client.rows) == Ids(h.w.log) <==>
                   h.w.hydrated || forall n :: n in h.first ==> n in h.records))
  {
    LiveIsRun(Begin(log, created), es);
    LiveKeeps(log, created, es);
    LiveTracks(log, created, es);
    FirstIsFixed(log, created, es);
    var h := Live(Begin(log, created), es);
    ShownExactlyIf(h);
    if h.w.channel == [] { WholeExactlyIf(h); }
  }

  lemma {:induction false} FirstIsFixed(log: seq<Row>, created: bool, es: seq<Event>)
    ensures Live(Begin(log, created), es).first.Keys == if created then {} else Numbers(log)
  {
    if es == [] {
      forall n: nat ensures n in Begin(log, created).first <==> !created && n in Numbers(log) {
        AtMember(log, n);
      }
    } else {
      FirstIsFixed(log, created, es[..|es| - 1]);
      FollowIsStep(Live(Begin(log, created), es[..|es| - 1]), es[|es| - 1]);
    }
  }
}
