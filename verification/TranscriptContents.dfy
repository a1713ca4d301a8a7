/** The contents of a transcript, in every run: which fields of which rows can
    be outdated once everything is delivered, and when the rows are complete. */
module TranscriptContents {
  import opened Options
  import opened TranscriptStore
  import opened TranscriptProtocol
  import opened TranscriptHistory
  import opened TranscriptRows

  // --- rows by number ---

  ghost predicate InOrder(rows: seq<Row>) {
    Numbered(Ids(rows))
  }

  lemma {:induction false} AtMember(rows: seq<Row>, n: nat)
    ensures ContentAt(rows, n).Some? <==> n in Numbers(rows)
    ensures ContentAt(rows, n).Some? ==> exists r :: r in rows && r.seqNo == n && r.content == ContentAt(rows, n).value
  {
    if rows != [] {
      var init, last := rows[..|rows| - 1], rows[|rows| - 1];
      assert rows == init + [last];
      AtMember(init, n);
    }
  }

  lemma {:induction false} AtIndex(rows: seq<Row>, k: nat)
    requires InOrder(rows) && k < |rows|
    ensures ContentAt(rows, rows[k].seqNo) == Some(rows[k].content)
  {
    var last := |rows| - 1;
    if k < last {
      assert Ids(rows)[k].seqNo < Ids(rows)[last].seqNo;
      NumberedInit(rows);
      AtIndex(rows[..last], k);
    }
  }

  lemma AtAppended(rows: seq<Row>, row: Row, n: nat)
    ensures ContentAt(rows + [row], n) == if row.seqNo == n then Some(row.content) else ContentAt(rows, n)
  {
    assert (rows + [row])[..|rows|] == rows;
  }

  lemma {:induction false} AtUpdated(rows: seq<Row>, k: nat, content: Content, n: nat)
    requires InOrder(rows) && k < |rows|
    ensures ContentAt(rows[k := rows[k].(content := content)], n) ==
            if rows[k].seqNo == n then Some(content) else ContentAt(rows, n)
  {
    var after, last := rows[k := rows[k].(content := content)], |rows| - 1;
    if k == last {
      assert after[..last] == rows[..last];
    } else {
      assert Ids(rows)[k].seqNo < Ids(rows)[last].seqNo;
      assert after[..last] == rows[..last][k := rows[k].(content := content)];
      NumberedInit(rows);
      AtUpdated(rows[..last], k, content, n);
    }
  }

  lemma {:induction false} AtJoined(a: seq<Row>, b: seq<Row>, n: nat)
    ensures ContentAt(a + b, n) == if ContentAt(b, n).Some? then ContentAt(b, n) else ContentAt(a, n)
  {
    if b == [] {
      assert a + b == a;
    } else {
      var m := |b| - 1;
      AtJoined(a, b[..m], n);
      assert (a + b)[..|a + b| - 1] == a + b[..m];
    }
  }

  lemma {:induction false} AtTail(rows: seq<Row>, maxSeq: nat, n: nat)
    requires n > 0
    ensures ContentAt(LiveTail(rows, maxSeq), n) == if n > maxSeq then ContentAt(rows, n) else None
  {
    if rows != [] {
      var init, last := rows[..|rows| - 1], rows[|rows| - 1];
      AtTail(init, maxSeq, n);
      AtAppended(LiveTail(init, maxSeq), last, n);
    }
  }

  lemma AtHydrated(c: Client, sample: seq<Row>, n: nat)
    requires n > 0 && (n in Numbers(sample) || n > MaxSeq(sample))
    ensures ContentAt(Hydrate(c, sample).rows, n) ==
            if n in Numbers(sample) then ContentAt(sample, n) else ContentAt(c.rows, n)
  {
    AtMember(sample, n);
    if n in Numbers(sample) {
      var r :| r in sample && r.seqNo == n;
      var i :| 0 <= i < |sample| && sample[i] == r;
      assert n <= MaxSeq(sample);
    }
    AtTail(c.rows, MaxSeq(sample), n);
    AtJoined(sample, LiveTail(c.rows, MaxSeq(sample)), n);
  }

  /** What a message does to the row with a number, when tool calls and numbers
      go together. */
  lemma AtApplied(c: Client, m: Row, n: nat)
    requires InOrder(c.rows) && c.lastSeq == Last(Ids(c.rows)) && m.seqNo > 0
    requires forall r :: r in c.rows ==>
               (r.seqNo == m.seqNo ==> r.tool == m.tool) && (r.tool.Some? && r.tool == m.tool ==> r.seqNo == m.seqNo)
    ensures ContentAt(ApplyMessage(c, m).rows, n) ==
            var old' := ContentAt(c.rows, n);
            if n != m.seqNo then old'
            else if old'.Some? then Some(if m.tool.Some? then old'.value + m.content else old'.value)
            else if n > c.lastSeq then Some(m.content) else None
  {
    var k := FindTool(c.rows, m.tool);
    AtMember(c.rows, n);
    if k < |c.rows| {
      assert c.rows[k] in c.rows;
      AtIndex(c.rows, k);
      AtUpdated(c.rows, k, c.rows[k].content + m.content, n);
    } else {
      AtAppended(c.rows, m, n);
      if ContentAt(c.rows, m.seqNo).Some? {
        AtMember(c.rows, m.seqNo);
        var r :| r in c.rows && r.seqNo == m.seqNo;
        var i :| 0 <= i < |c.rows| && c.rows[i] == r;
        assert Ids(c.rows)[i] == Id(r);
        LastIsHighest(Ids(c.rows), Id(r));
      }
    }
  }

  // --- the channel, one row's messages ---

  lemma {:induction false} QueueAppends(channel: seq<Message>, m: Message, n: nat)
    ensures Queue(channel + [m], n) ==
            Queue(channel, n) + if m.Said? && m.row.seqNo == n then [m.row.content] else []
  {
    if channel == [] {
      assert ([m])[1..] == [] && channel + [m] == [m];
    } else {
      assert (channel + [m])[1..] == channel[1..] + [m];
      QueueAppends(channel[1..], m, n);
    }
  }

  // --- the invariant, one row at a time ---

  /** Everything the history keeps about one row. */
  datatype Slice = Slice(engine: Option<Content>, shown: Option<Content>, predates: bool, base: Content,
                         said: seq<Content>, heard: nat, queue: seq<Content>, cut: Cut)

  /** A row's slice after one more message is said of it, and after one is delivered. */
  function Updated(x: Slice, content: Content): Slice
    requires x.engine.Some?
  {
    x.(engine := Some(x.engine.value + content), said := x.said + [content], queue := x.queue + [content])
  }

  function Heard(x: Slice, shown: Option<Content>): Slice
    requires x.queue != []
  {
    x.(heard := x.heard + 1, queue := x.queue[1..], shown := shown)
  }

  ghost function SliceOf(h: History, n: nat): Slice {
    Slice(ContentAt(h.w.log, n), ContentAt(h.w.client.rows, n), n in h.first, Base(h, n), SaidOf(h, n),
          Count(h.heard, n), Queue(h.w.channel, n), CutOf(h, n))
  }

  /** The engine has the base with everything said; what is on its way is what
      was not delivered; and what a settled row shows follows from its cut. */
  ghost predicate Sound(x: Slice, hydrated: bool) {
    && x.heard <= |x.said| && x.cut.heard <= x.heard && x.cut.taken <= |x.said|
    && x.queue == x.said[x.heard..]
    && (x.engine.None? ==> x.said == [] && x.shown.None? && !x.predates)
    && (x.engine.Some? ==> x.engine.value == x.base + Sum(x.said))
    && (!x.predates ==> x.base == map[] && (x.heard > 0 ==> x.shown.Some?))
    && (!x.predates && x.engine.Some? ==> |x.said| > 0)
    && (x.predates && hydrated ==> x.shown.Some?)
    && (x.shown.Some? && (!x.predates || hydrated) ==> x.shown.value == Shown(x.base, x.said, x.cut, x.heard))
    && (x.shown.Some? && !x.predates && x.heard == 0 ==> x.cut.taken > 0)
    && (x.shown.None? ==> x.cut == Cut(0, 0))
  }

  /** A snapshot has a row as it was when it had that much said of it. */
  ghost predicate TakenSound(sample: Option<Content>, base: Content, predates: bool, said: seq<Content>, taken: nat) {
    && taken <= |said|
    && (sample.Some? ==> sample.value == base + Sum(said[..taken]) && (!predates ==> taken > 0))
    && (sample.None? ==> taken == 0 && !predates)
  }

  ghost predicate FetchSound(h: History, rid: nat, n: nat) {
    rid in h.w.fetches && h.w.fetches[rid].sample.Some? ==>
      && rid in h.taken
      && TakenSound(ContentAt(h.w.fetches[rid].sample.value, n), Base(h, n), n in h.first, SaidOf(h, n),
                    Count(h.taken[rid], n))
  }

  ghost predicate FetchesSound(h: History, n: nat) {
    forall rid :: FetchSound(h, rid, n)
  }

  ghost predicate RowSound(h: History, n: nat) {
    Sound(SliceOf(h, n), h.w.hydrated) && FetchesSound(h, n)
  }

  /** A row that is no tool call is said once, when it is new. */
  ghost predicate PlainRow(h: History, k: nat) {
    k < |h.w.log| && h.w.log[k].tool.None? ==>
      |SaidOf(h, h.w.log[k].seqNo)| <= 1 && (h.w.log[k].seqNo in h.first ==> SaidOf(h, h.w.log[k].seqNo) == [])
  }

  ghost predicate HistorySound(h: History) {
    && Inv(h.w)
    && (forall n :: n > 0 ==> RowSound(h, n))
    && (forall k :: PlainRow(h, k))
    && (forall n :: n in h.first <==> n in Numbers(h.w.log[..h.w.base]))
  }

  // --- the log, by number ---

  lemma LogInOrder(w: World)
    requires Inv(w)
    ensures InOrder(w.log) && InOrder(w.client.rows)
  {
  }

  /** A row with a number the client knows of is shown. */
  lemma KnownIsShown(h: History, k: nat)
    requires HistorySound(h) && k < |h.w.log| && h.w.base <= k && h.w.log[k].seqNo <= h.w.client.lastSeq
    ensures ContentAt(h.w.client.rows, h.w.log[k].seqNo).Some?
  {
    var ids, rows := Ids(h.w.log), Ids(h.w.client.rows);
    assert ids[k].seqNo <= h.w.client.lastSeq;
    assert ids[k] in rows;
    var i :| 0 <= i < |rows| && rows[i] == ids[k];
    assert h.w.client.rows[i] in h.w.client.rows;
    AtMember(h.w.client.rows, h.w.log[k].seqNo);
  }

  /** A delivered message is a version of a row of the log, and no shown row
      disagrees with it on number and tool call. */
  lemma DeliveredIsLogged(w: World) returns (k: nat)
    requires Inv(w) && w.channel != [] && w.channel[0].Said?
    ensures k < |w.log| && Id(w.log[k]) == Id(w.channel[0].row) && w.channel[0].row.seqNo > 0
    ensures var m := w.channel[0].row;
            forall r :: r in w.client.rows ==>
              (r.seqNo == m.seqNo ==> r.tool == m.tool) && (r.tool.Some? && r.tool == m.tool ==> r.seqNo == m.seqNo)
  {
    var m, ids, rows := w.channel[0].row, Ids(w.log), Ids(w.client.rows);
    if w.channel[0].isNew {
      k := w.announced;
    } else {
      k :| 0 <= k < w.announced && k < |ids| && ids[k] == Id(m);
    }
    assert ids[k] == Id(m) && ids[k].seqNo > 0;
    forall r | r in w.client.rows
      ensures (r.seqNo == m.seqNo ==> r.tool == m.tool) && (r.tool.Some? && r.tool == m.tool ==> r.seqNo == m.seqNo)
    {
      var i :| 0 <= i < |w.client.rows| && w.client.rows[i] == r;
      assert rows[i] == Id(r) && rows[i] in ids;
      var j :| 0 <= j < |ids| && ids[j] == Id(r);
      SameIdentity(ids, j, k);
    }
  }

  lemma SameIdentity(ids: seq<RowId>, j: nat, k: nat)
    requires Numbered(ids) && OneRowPerTool(ids) && j < |ids| && k < |ids|
    ensures ids[j].seqNo == ids[k].seqNo ==> j == k
    ensures ids[j].tool.Some? && ids[j].tool == ids[k].tool ==> j == k
  {
  }

  // --- what each step does to a row's slice ---

  /** What a snapshot has of a row stays true as more is said of it. */
  lemma FetchStaysSound(h: History, v: History, n: nat, rid: nat)
    requires FetchSound(h, rid, n)
        && (rid in v.w.fetches ==> rid in h.w.fetches && v.w.fetches[rid] == h.w.fetches[rid])
    requires v.taken == h.taken && v.first == h.first && SaidOf(h, n) <= SaidOf(v, n)
    ensures FetchSound(v, rid, n)
  {
    if rid in v.w.fetches && v.w.fetches[rid].sample.Some? {
      var t := Count(h.taken[rid], n);
      assert SaidOf(v, n)[..t] == SaidOf(h, n)[..t];
    }
  }

  lemma FetchesStaySound(h: History, v: History, n: nat)
    requires FetchesSound(h, n) && v.taken == h.taken && v.first == h.first && SaidOf(h, n) <= SaidOf(v, n)
    requires forall rid :: rid in v.w.fetches ==> rid in h.w.fetches && v.w.fetches[rid] == h.w.fetches[rid]
    ensures FetchesSound(v, n)
  {
    forall rid ensures FetchSound(v, rid, n) {
      assert FetchSound(h, rid, n);
      FetchStaysSound(h, v, n, rid);
    }
  }

  lemma SumOfOne(cs: seq<Content>)
    requires |cs| == 1
    ensures Sum(cs) == cs[0]
  {
    assert cs[..0] == [];
    assert map[] + cs[0] == cs[0];
  }

  lemma FirstSaid(x: Slice, content: Content, hydrated: bool)
    requires Sound(x, hydrated) && x.engine.None?
    ensures Sound(x.(engine := Some(content), said := [content], queue := [content]), hydrated)
  {
    var said := [content];
    assert said[..0] == [] && said[0..] == said;
    SumOfOne(said);
    assert x.base + content == content;
  }

  lemma AppendedSlice(h: History, row: Row, n: nat)
    requires Appendable(h.w.log, row)
    ensures var x, y := SliceOf(h, n), SliceOf(Follow(h, EngineAppends(row)), n);
            if n != row.seqNo then y == x
            else x.engine.None? && y == x.(engine := Some(row.content), said := [row.content],
                                           queue := x.queue + [row.content])
  {
    AtAppended(h.w.log, row, n);
    NewNumber(h.w.log, row);
    QueueAppends(h.w.channel, Said(row, true), n);
  }

  lemma RowSoundIf(h: History, n: nat, y: Slice)
    requires SliceOf(h, n) == y && Sound(y, h.w.hydrated) && FetchesSound(h, n)
    ensures RowSound(h, n)
  {
  }

  lemma AppendSlice(h: History, row: Row, n: nat)
    requires RowSound(h, n) && Appendable(h.w.log, row) && n > 0
    ensures RowSound(Follow(h, EngineAppends(row)), n)
  {
    AppendedSlice(h, row, n);
    if n == row.seqNo { FirstSaid(SliceOf(h, n), row.content, h.w.hydrated); }
    FetchesStaySound(h, Follow(h, EngineAppends(row)), n);
  }

  lemma NewNumber(log: seq<Row>, row: Row)
    requires Appendable(log, row)
    ensures ContentAt(log, row.seqNo) == None
  {
    AtMember(log, row.seqNo);
  }

  lemma ShownStays(x: Slice, content: Content)
    requires x.cut.heard <= x.heard <= |x.said| && x.cut.taken <= |x.said|
    ensures Shown(x.base, x.said + [content], x.cut, x.heard) == Shown(x.base, x.said, x.cut, x.heard)
  {
    var said := x.said + [content];
    assert said[..x.cut.taken] == x.said[..x.cut.taken];
    assert said[x.cut.heard..x.heard] == x.said[x.cut.heard..x.heard];
  }

  lemma SumMore(base: Content, said: seq<Content>, content: Content)
    ensures base + Sum(said + [content]) == (base + Sum(said)) + content
  {
    assert (said + [content])[..|said|] == said;
  }

  /** One more message said of a row changes none of what was there. */
  lemma SaidMore(x: Slice, content: Content, hydrated: bool)
    requires x.engine.Some? && Sound(x, hydrated)
    ensures Sound(Updated(x, content), hydrated)
  {
    ShownStays(x, content);
    SumMore(x.base, x.said, content);
    assert (x.said + [content])[x.heard..] == x.said[x.heard..] + [content];
  }

  lemma UpdatedSlice(h: History, k: nat, content: Content, n: nat)
    requires InOrder(h.w.log) && k < |h.w.log| && h.w.log[k].tool.Some?
    ensures var x, v := SliceOf(h, n), Follow(h, EngineUpdates(k, content));
            if n != h.w.log[k].seqNo then SliceOf(v, n) == x
            else
              && x.engine == Some(h.w.log[k].content)
              && SliceOf(v, n) == Updated(x, content)
  {
    AtUpdated(h.w.log, k, h.w.log[k].content + content, n);
    AtIndex(h.w.log, k);
    QueueAppends(h.w.channel, Said(h.w.log[k].(content := content), false), n);
  }

  lemma UpdateSlice(h: History, k: nat, content: Content, n: nat)
    requires RowSound(h, n) && InOrder(h.w.log) && k < |h.w.log| && h.w.log[k].tool.Some? && n > 0
    ensures RowSound(Follow(h, EngineUpdates(k, content)), n)
  {
    var v := Follow(h, EngineUpdates(k, content));
    UpdatedSlice(h, k, content, n);
    UpdateRest(h, k, content, n);
    if n == h.w.log[k].seqNo {
      SaidMore(SliceOf(h, n), content, h.w.hydrated);
      RowSoundIf(v, n, Updated(SliceOf(h, n), content));
    } else {
      RowSoundIf(v, n, SliceOf(h, n));
    }
  }

  lemma UpdateRest(h: History, k: nat, content: Content, n: nat)
    requires FetchesSound(h, n)
    ensures FetchesSound(Follow(h, EngineUpdates(k, content)), n)
  {
    FetchesStaySound(h, Follow(h, EngineUpdates(k, content)), n);
  }

  lemma ShownMore(x: Slice)
    requires x.heard < |x.said| && x.cut.heard <= x.heard && x.cut.taken <= |x.said|
    ensures Shown(x.base, x.said, x.cut, x.heard + 1) == Shown(x.base, x.said, x.cut, x.heard) + x.said[x.heard]
  {
    var d, held := x.heard, x.base + Sum(x.said[..x.cut.taken]);
    assert x.said[x.cut.heard..d + 1][..d - x.cut.heard] == x.said[x.cut.heard..d];
    assert (held + Sum(x.said[x.cut.heard..d])) + x.said[d] == held + (Sum(x.said[x.cut.heard..d]) + x.said[d]);
  }

  /** The only message of a plain row adds nothing where the row is shown. */
  lemma ShownOnce(x: Slice)
    requires |x.said| == 1 && x.heard == 0 && x.cut == Cut(1, 0)
    ensures Shown(x.base, x.said, x.cut, 1) == Shown(x.base, x.said, x.cut, 0)
  {
    assert x.said[..1] == x.said && x.said[0..1] == x.said && x.said[0..0] == [];
    assert x.base + Sum(x.said) + Sum(x.said) == x.base + Sum(x.said) + map[];
  }

  lemma ShownFirst(x: Slice)
    requires |x.said| > 0 && x.base == map[]
    ensures Shown(x.base, x.said, Cut(0, 0), 1) == x.said[0]
  {
    assert x.said[..0] == [];
    SumOfOne(x.said[0..1]);
    assert x.base + map[] + x.said[0] == x.said[0];
  }

  /** One more message of a row delivered, seen from its slice. */
  lemma HeardMore(x: Slice, shown: Option<Content>, merges: bool, hydrated: bool)
    requires x.queue != [] && Sound(x, hydrated)
    requires x.shown.Some? ==> shown == Some(if merges then x.shown.value + x.queue[0] else x.shown.value)
    requires x.shown.None? && !x.predates ==> shown == Some(x.queue[0])
    requires !merges ==> |x.said| <= 1 && (x.predates ==> x.said == [])
    ensures Sound(Heard(x, shown), hydrated)
  {
    assert x.queue[0] == x.said[x.heard];
    assert x.queue[1..] == x.said[x.heard + 1..];
    ShownMore(x);
    if x.shown.Some? {
      if !merges { ShownOnce(x); }
    } else if !x.predates {
      ShownFirst(x);
    }
  }

  lemma PredatingRow(h: History, k: nat)
    requires HistorySound(h) && k < h.w.base
    ensures h.w.log[k].seqNo in h.first
  {
    assert h.w.log[..h.w.base][k] == h.w.log[k];
    assert h.w.log[k] in h.w.log[..h.w.base];
    assert h.w.log[k].seqNo in Numbers(h.w.log[..h.w.base]);
  }

  /** How the shown contents of the delivered message's row change. */
  lemma DeliveredShown(h: History, k: nat)
    requires HistorySound(h) && h.w.channel != [] && h.w.channel[0].Said?
    requires k < |h.w.log| && Id(h.w.log[k]) == Id(h.w.channel[0].row) && h.w.channel[0].row.seqNo > 0
    ensures var m := h.w.channel[0].row;
            var x, shown := SliceOf(h, m.seqNo), ContentAt(ApplyMessage(h.w.client, m).rows, m.seqNo);
            && (x.shown.Some? ==> shown == Some(if m.tool.Some? then x.shown.value + m.content else x.shown.value))
            && (x.shown.None? && !x.predates ==> shown == Some(m.content))
  {
    var m := h.w.channel[0].row;
    var j := DeliveredIsLogged(h.w);
    LogInOrder(h.w);
    AtApplied(h.w.client, m, m.seqNo);
    var x := SliceOf(h, m.seqNo);
    if x.shown.None? && !x.predates {
      if k < h.w.base { PredatingRow(h, k); }
      if m.seqNo <= h.w.client.lastSeq { KnownIsShown(h, k); }
    }
  }

  lemma DeliveredSlice(h: History, n: nat)
    requires h.w.channel != [] && h.w.channel[0].Said?
    ensures var x, y, m := SliceOf(h, n), SliceOf(Follow(h, Deliver), n), h.w.channel[0].row;
            var shown := ContentAt(ApplyMessage(h.w.client, m).rows, n);
            if n != m.seqNo then y == x.(shown := shown)
            else x.queue == [m.content] + Queue(h.w.channel[1..], n)
                 && y == Heard(x, shown)
  {
  }

  lemma OthersUntouched(h: History, n: nat)
    requires HistorySound(h) && h.w.channel != [] && h.w.channel[0].Said? && n != h.w.channel[0].row.seqNo
    ensures ContentAt(ApplyMessage(h.w.client, h.w.channel[0].row).rows, n) == ContentAt(h.w.client.rows, n)
  {
    var k := DeliveredIsLogged(h.w);
    LogInOrder(h.w);
    AtApplied(h.w.client, h.w.channel[0].row, n);
  }

  lemma PlainIsOnce(h: History, k: nat)
    requires HistorySound(h) && k < |h.w.log| && h.w.log[k].tool.None?
    ensures var n := h.w.log[k].seqNo; |SaidOf(h, n)| <= 1 && (n in h.first ==> SaidOf(h, n) == [])
  {
    assert PlainRow(h, k);
  }

  lemma HeadOfQueue(h: History)
    requires h.w.channel != [] && h.w.channel[0].Said?
    ensures var m := h.w.channel[0].row;
            Queue(h.w.channel, m.seqNo) != [] && Queue(h.w.channel, m.seqNo)[0] == m.content
  {
  }

  /** The delivered message's own row. */
  lemma DeliverSound(h: History)
    requires HistorySound(h) && h.w.channel != [] && h.w.channel[0].Said?
    ensures var m := h.w.channel[0].row;
            var x := SliceOf(h, m.seqNo);
            && x.queue != []
            && Sound(Heard(x, ContentAt(ApplyMessage(h.w.client, m).rows, m.seqNo)), h.w.hydrated)
  {
    var m := h.w.channel[0].row;
    var k := DeliveredIsLogged(h.w);
    if m.tool.None? { PlainIsOnce(h, k); }
    HeadOfQueue(h);
    DeliveredShown(h, k);
    assert RowSound(h, m.seqNo);
    HeardMore(SliceOf(h, m.seqNo), ContentAt(ApplyMessage(h.w.client, m).rows, m.seqNo), m.tool.Some?, h.w.hydrated);
  }

  lemma DeliverSlice(h: History, n: nat)
    requires HistorySound(h) && h.w.channel != [] && h.w.channel[0].Said? && n > 0
    ensures RowSound(Follow(h, Deliver), n)
  {
    assert RowSound(h, n);
    DeliveredSlice(h, n);
    if n == h.w.channel[0].row.seqNo { DeliverSound(h); } else { OthersUntouched(h, n); }
    DeliverRest(h, n);
  }

  lemma DeliverRest(h: History, n: nat)
    requires FetchesSound(h, n)
    ensures FetchesSound(Follow(h, Deliver), n)
  {
    FetchesStaySound(h, Follow(h, Deliver), n);
  }

  /** A snapshot taken now has everything that was said. */
  lemma TakenNow(x: Slice, hydrated: bool)
    requires Sound(x, hydrated)
    ensures TakenSound(x.engine, x.base, x.predates, x.said, |x.said|)
  {
    assert x.said[..|x.said|] == x.said;
  }

  lemma ReadFetch(h: History, rid: nat, r: nat, n: nat)
    requires RowSound(h, n) && FetchSound(h, r, n)
    ensures FetchSound(Follow(h, EngineReads(rid)), r, n)
  {
    TakenNow(SliceOf(h, n), h.w.hydrated);
  }

  lemma ReadSlice(h: History, rid: nat, n: nat)
    requires RowSound(h, n)
    ensures RowSound(Follow(h, EngineReads(rid)), n)
  {
    assert SliceOf(Follow(h, EngineReads(rid)), n) == SliceOf(h, n);
    forall r ensures FetchSound(Follow(h, EngineReads(rid)), r, n) {
      assert FetchSound(h, r, n);
      ReadFetch(h, rid, r, n);
    }
  }

  /** A snapshot installed over a row, seen from its slice. */
  lemma Installed(x: Slice, sample: Content, taken: nat)
    requires Sound(x, true) || Sound(x, false)
    requires x.engine.Some? && TakenSound(Some(sample), x.base, x.predates, x.said, taken)
    ensures Sound(x.(shown := Some(sample), cut := Cut(taken, x.heard)), true)
  {
    assert x.said[x.heard..x.heard] == [];
    assert sample + map[] == sample;
  }

  /** A row the snapshot holds. */
  lemma HeldSound(h: History, rid: nat, n: nat)
    requires HistorySound(h) && rid in h.w.fetches && h.w.fetches[rid].sample.Some? && n > 0
    requires n in Numbers(h.w.fetches[rid].sample.value)
    ensures Sound(SliceOf(Follow(h, HydrateReply(rid, true)), n), true)
  {
    var sample, x := h.w.fetches[rid].sample.value, SliceOf(h, n);
    assert RowSound(h, n);
    assert FetchSound(h, rid, n);
    AtMember(sample, n);
    AtMember(h.w.log, n);
    SampleIsLogged(h.w, sample, n);
    Installed(x, ContentAt(sample, n).value, Count(h.taken[rid], n));
    HeldSlice(h, rid, n);
  }

  lemma HeldSlice(h: History, rid: nat, n: nat)
    requires rid in h.w.fetches && h.w.fetches[rid].sample.Some? && n > 0 && rid in h.taken
    requires n in Numbers(h.w.fetches[rid].sample.value)
    ensures var x, sample := SliceOf(h, n), h.w.fetches[rid].sample.value;
            SliceOf(Follow(h, HydrateReply(rid, true)), n) ==
            x.(shown := ContentAt(sample, n), cut := Cut(Count(h.taken[rid], n), x.heard))
  {
    AtHydrated(h.w.client, h.w.fetches[rid].sample.value, n);
  }

  /** A row it does not hold. */
  lemma KeptSound(h: History, rid: nat, n: nat)
    requires HistorySound(h) && rid in h.w.fetches && h.w.fetches[rid].sample.Some? && n > 0
    requires n !in Numbers(h.w.fetches[rid].sample.value)
    ensures Sound(SliceOf(Follow(h, HydrateReply(rid, true)), n), true)
  {
    var sample, x := h.w.fetches[rid].sample.value, SliceOf(h, n);
    assert RowSound(h, n);
    assert FetchSound(h, rid, n);
    AtMember(sample, n);
    assert !x.predates;
    BeyondSample(h, sample, n);
    assert SliceOf(Follow(h, HydrateReply(rid, true)), n) == x;
  }

  lemma InstallSlice(h: History, rid: nat, n: nat)
    requires HistorySound(h) && rid in h.w.fetches && h.w.fetches[rid].sample.Some? && n > 0
    ensures RowSound(Follow(h, HydrateReply(rid, true)), n)
  {
    assert RowSound(h, n);
    if n in Numbers(h.w.fetches[rid].sample.value) { HeldSound(h, rid, n); } else { KeptSound(h, rid, n); }
    InstallRest(h, rid, n);
  }

  lemma InstallRest(h: History, rid: nat, n: nat)
    requires FetchesSound(h, n)
    ensures FetchesSound(Follow(h, HydrateReply(rid, true)), n)
  {
    FetchesStaySound(h, Follow(h, HydrateReply(rid, true)), n);
  }

  lemma SampleIsLogged(w: World, sample: seq<Row>, n: nat)
    requires Inv(w) && Snapshot(w, sample) && n in Numbers(sample)
    ensures n in Numbers(w.log)
  {
    var r :| r in sample && r.seqNo == n;
    var i :| 0 <= i < |sample| && sample[i] == r;
    assert Ids(sample)[i] == Ids(w.log)[i];
    assert w.log[i] in w.log;
  }

  /** A row the snapshot does not hold is numbered beyond it, or is none at all. */
  lemma BeyondSample(h: History, sample: seq<Row>, n: nat)
    requires HistorySound(h) && Snapshot(h.w, sample) && n !in Numbers(sample) && n > 0
    ensures ContentAt(Hydrate(h.w.client, sample).rows, n) == ContentAt(h.w.client.rows, n)
  {
    if n > MaxSeq(sample) {
      AtHydrated(h.w.client, sample, n);
    } else {
      assert RowSound(h, n);
      AtMember(h.w.log, n);
      if n in Numbers(h.w.log) { WithinSample(h.w, sample, n); }
      AtTail(h.w.client.rows, MaxSeq(sample), n);
      AtMember(sample, n);
      AtJoined(sample, LiveTail(h.w.client.rows, MaxSeq(sample)), n);
    }
  }

  lemma WithinSample(w: World, sample: seq<Row>, n: nat)
    requires Inv(w) && Snapshot(w, sample) && n in Numbers(w.log) && n <= MaxSeq(sample) && sample != []
    ensures n in Numbers(sample)
  {
    var r :| r in w.log && r.seqNo == n;
    var i :| 0 <= i < |w.log| && w.log[i] == r;
    var s :| s in sample && s.seqNo == MaxSeq(sample);
    var j :| 0 <= j < |sample| && sample[j] == s;
    assert Ids(w.log)[j] == Ids(sample)[j];
    assert Ids(w.log)[j].seqNo >= Ids(w.log)[i].seqNo;
    assert i <= j;
    assert Ids(sample)[i] == Ids(w.log)[i];
    assert sample[i] in sample;
  }
}
