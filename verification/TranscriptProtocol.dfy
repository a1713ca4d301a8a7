/** One session's transcript against its engine: an in-order, lossless event
    stream races any number of overlapping snapshot fetches. */
module TranscriptProtocol {
  import opened Options
  import opened Ordered
  import opened TranscriptStore
  import opened TranscriptRows

  /** What identifies a row for good: content changes, this never does. */
  datatype RowId = RowId(seqNo: nat, tool: Option<ToolCall>)

  /** An event on its way to the client. `isNew` marks the announcement of a
      new row; the others are tool updates. The client cannot tell them apart. */
  datatype Message = Created | Said(row: Row, isNew: bool)

  /** A fetch in flight; `sample` is the log once the engine has read it. */
  datatype Fetch = Fetch(sample: Option<seq<Row>>)

  /** `base` is how much log predates the subscription, `announced` how much of
      it needs no further announcement, `hydrated` whether a snapshot was ever
      installed from a successful fetch. */
  datatype World = World(client: Client, log: seq<Row>, channel: seq<Message>, fetches: map<nat, Fetch>, next: nat,
                         base: nat, announced: nat, hydrated: bool)

  datatype Event =
    | EngineAppends(row: Row)
    | EngineUpdates(k: nat, content: Content)
    | Deliver
    | BeginHydrate(force: bool)
    | EngineReads(rid: nat)
    | HydrateReply(rid: nat, ok: bool)

  ghost function Step(w: World, e: Event): World {
    match e
    case EngineAppends(row) =>
      if Appendable(w.log, row) then w.(log := w.log + [row], channel := w.channel + [Said(row, true)]) else w
    case EngineUpdates(k, content) =>
      if k < |w.log| && w.log[k].tool.Some?
      then w.(log := w.log[k := w.log[k].(content := w.log[k].content + content)],
              channel := w.channel + [Said(w.log[k].(content := content), false)])
      else w
    case Deliver =>
      if w.channel == [] then w
      else if w.channel[0].Created? then w.(client := SessionCreated(w.client), channel := w.channel[1..])
      else w.(client := ApplyMessage(w.client, w.channel[0].row), channel := w.channel[1..],
              announced := if w.channel[0].isNew then w.announced + 1 else w.announced)
    case BeginHydrate(force) =>
      if Fetches(w.client, force) then w.(fetches := w.fetches[w.next := Fetch(None)], next := w.next + 1) else w
    case EngineReads(rid) =>
      if rid in w.fetches && w.fetches[rid].sample.None?
      then w.(fetches := w.fetches[rid := Fetch(Some(w.log))])
      else w
    case HydrateReply(rid, ok) =>
      if rid !in w.fetches || (ok && w.fetches[rid].sample.None?) then w
      else w.(client := Hydrate(w.client, if ok then w.fetches[rid].sample.value else []),
              fetches := w.fetches - {rid}, hydrated := w.hydrated || ok)
  }

  ghost function Run(w: World, es: seq<Event>): World
    decreases |es|
  {
    if es == [] then w else Run(Step(w, es[0]), es[1..])
  }

  /** Subscribing to an existing session, or being told of a new, empty one. */
  ghost function Subscribed(log: seq<Row>): World {
    World(EMPTY_CLIENT, log, [], map[], 0, |log|, |log|, false)
  }

  ghost function Announced(): World {
    World(EMPTY_CLIENT, [], [Created], map[], 0, 0, 0, false)
  }

  // --- the invariant, over row identities ---

  function Id(r: Row): RowId {
    RowId(r.seqNo, r.tool)
  }

  function Ids(rows: seq<Row>): seq<RowId> {
    seq(|rows|, i requires 0 <= i < |rows| => Id(rows[i]))
  }

  ghost predicate Numbered(ids: seq<RowId>) {
    && (forall i :: 0 <= i < |ids| ==> ids[i].seqNo > 0)
    && (forall i, j :: 0 <= i < j < |ids| ==> ids[i].seqNo < ids[j].seqNo)
  }

  ghost predicate OneRowPerTool(ids: seq<RowId>) {
    forall i, j :: 0 <= i < j < |ids| && ids[i].tool.Some? ==> ids[i].tool != ids[j].tool
  }

  /** The highest number present, 0 when there is none. */
  function Last(ids: seq<RowId>): nat {
    if ids == [] then 0 else ids[|ids| - 1].seqNo
  }

  /** The channel announces the log's rows from `n` on, in order and to the
      end; a tool update in it names a row announced before it. */
  ghost predicate Announces(channel: seq<Message>, ids: seq<RowId>, n: nat)
    decreases |channel|
  {
    if channel == [] then n == |ids|
    else if channel[0].Created? then Announces(channel[1..], ids, n)
    else if channel[0].isNew
    then n < |ids| && Id(channel[0].row) == ids[n] && Announces(channel[1..], ids, n + 1)
    else (exists j :: 0 <= j < n && j < |ids| && ids[j] == Id(channel[0].row)) && Announces(channel[1..], ids, n)
  }

  /** Client rows `rows`, high-water mark `high`, against the log `log`. */
  ghost predicate Known(rows: seq<RowId>, high: nat, log: seq<RowId>, base: nat, announced: nat, complete: bool) {
    && base <= announced <= |log|
    && Numbered(rows) && high == Last(rows)
    && (forall r :: r in rows ==> r in log)
    && (forall j :: base <= j < announced ==> log[j].seqNo <= high)
    && (forall j :: base <= j < |log| && log[j].seqNo <= high ==> log[j] in rows)
    && (complete ==> forall j :: 0 <= j < |log| && log[j].seqNo <= high ==> log[j] in rows)
    && (complete ==> forall j :: 0 <= j < base ==> log[j].seqNo <= high)
  }

  /** A snapshot is the log as it was at some point after the subscription. */
  ghost predicate Snapshot(w: World, sample: seq<Row>) {
    w.base <= |sample| <= |w.log| && Ids(sample) == Ids(w.log)[..|sample|]
  }

  ghost predicate Complete(w: World) {
    w.hydrated || w.base == 0
  }

  ghost predicate Inv(w: World) {
    && Numbered(Ids(w.log)) && OneRowPerTool(Ids(w.log))
    && Announces(w.channel, Ids(w.log), w.announced)
    && Known(Ids(w.client.rows), w.client.lastSeq, Ids(w.log), w.base, w.announced, Complete(w))
    && (forall r :: r in w.fetches && w.fetches[r].sample.Some? ==> Snapshot(w, w.fetches[r].sample.value))
  }

  // --- the two client operations, on identities ---

  /** A message whose row is already announced, or is the next one, is absorbed. */
  lemma MessageKeepsKnown(c: Client, m: Row, log: seq<RowId>, base: nat, announced: nat, complete: bool, j: nat)
    requires Known(Ids(c.rows), c.lastSeq, log, base, announced, complete)
    requires Numbered(log) && OneRowPerTool(log)
    requires j < |log| && Id(m) == log[j] && j <= announced
    ensures var d := ApplyMessage(c, m);
            Known(Ids(d.rows), d.lastSeq, log, base, if j == announced then announced + 1 else announced, complete)
  {
    var d := ApplyMessage(c, m);
    var k := FindTool(c.rows, m.tool);
    if k < |c.rows| {
      assert Ids(d.rows) == Ids(c.rows);
      assert Ids(c.rows)[k] in log;
      assert Ids(c.rows)[k] == log[j];
    } else if m.seqNo > c.lastSeq {
      assert Ids(d.rows) == Ids(c.rows) + [log[j]];
    }
  }

  lemma IdsAppend(rows: seq<Row>, row: Row)
    ensures Ids(rows + [row]) == Ids(rows) + [Id(row)]
  {
  }

  lemma LastIsHighest(ids: seq<RowId>, r: RowId)
    requires Numbered(ids) && r in ids
    ensures 0 < r.seqNo <= Last(ids)
  {
    var i :| 0 <= i < |ids| && ids[i] == r;
    assert i < |ids| - 1 ==> ids[i].seqNo < ids[|ids| - 1].seqNo;
  }

  lemma NumberedInit(rows: seq<Row>)
    requires rows != [] && Numbered(Ids(rows))
    ensures var ids := Ids(rows[..|rows| - 1]);
            && Ids(rows) == ids + [Id(rows[|rows| - 1])] && Numbered(ids)
            && forall r :: r in ids ==> r.seqNo < rows[|rows| - 1].seqNo
  {
    var init, last := rows[..|rows| - 1], rows[|rows| - 1];
    assert init + [last] == rows;
    IdsAppend(init, last);
    forall r | r in Ids(init) ensures r.seqNo < last.seqNo {
      var i :| 0 <= i < |init| && Ids(init)[i] == r;
      assert Ids(rows)[i] == r && Ids(rows)[|init|] == Id(last);
    }
    forall i | 0 <= i < |init| ensures Ids(init)[i] == Ids(rows)[i] {}
  }

  lemma {:induction false} LiveTailMembers(rows: seq<Row>, maxSeq: nat, r: RowId)
    requires Numbered(Ids(rows))
    ensures r in Ids(LiveTail(rows, maxSeq)) <==> r in Ids(rows) && r.seqNo > maxSeq
  {
    if rows != [] {
      var init, last := rows[..|rows| - 1], rows[|rows| - 1];
      NumberedInit(rows);
      LastIsHighest(Ids(rows), Id(last));
      LiveTailMembers(init, maxSeq, r);
      IdsAppend(LiveTail(init, maxSeq), last);
    }
  }

  lemma {:induction false} LiveTailNumbered(rows: seq<Row>, maxSeq: nat)
    requires Numbered(Ids(rows))
    ensures Numbered(Ids(LiveTail(rows, maxSeq)))
    ensures Last(Ids(LiveTail(rows, maxSeq))) == if Last(Ids(rows)) > maxSeq then Last(Ids(rows)) else 0
  {
    if rows != [] {
      var init, last := rows[..|rows| - 1], rows[|rows| - 1];
      var tail := Ids(LiveTail(init, maxSeq));
      NumberedInit(rows);
      LastIsHighest(Ids(rows), Id(last));
      LiveTailNumbered(init, maxSeq);
      IdsAppend(LiveTail(init, maxSeq), last);
      if init != [] { assert Ids(init)[|init| - 1] in Ids(init); }
      forall i | 0 <= i < |tail| ensures tail[i].seqNo < last.seqNo {
        assert tail[i] in tail;
        LiveTailMembers(init, maxSeq, tail[i]);
      }
    }
  }

  lemma LiveTailIds(rows: seq<Row>, maxSeq: nat)
    requires Numbered(Ids(rows))
    ensures var tail := Ids(LiveTail(rows, maxSeq));
            && Numbered(tail)
            && (forall r :: r in tail <==> r in Ids(rows) && r.seqNo > maxSeq)
            && Last(tail) == if Last(Ids(rows)) > maxSeq then Last(Ids(rows)) else 0
  {
    LiveTailNumbered(rows, maxSeq);
    forall r ensures r in Ids(LiveTail(rows, maxSeq)) <==> r in Ids(rows) && r.seqNo > maxSeq {
      LiveTailMembers(rows, maxSeq, r);
    }
  }

  lemma JoinNumbered(a: seq<RowId>, b: seq<RowId>, m: nat)
    requires Numbered(a) && Numbered(b) && Last(a) <= m && forall r :: r in b ==> r.seqNo > m
    ensures Numbered(a + b) && Last(a + b) == if b == [] then Last(a) else Last(b)
  {
    forall i | 0 <= i < |a| ensures a[i].seqNo <= m {
      LastIsHighest(a, a[i]);
    }
    forall i | 0 <= i < |b| ensures b[i].seqNo > m {
      assert b[i] in b;
    }
  }

  lemma MaxSeqIsLast(rows: seq<Row>)
    requires Numbered(Ids(rows))
    ensures MaxSeq(rows) == Last(Ids(rows))
  {
    if rows != [] {
      assert Ids(rows)[|rows| - 1] == Id(rows[|rows| - 1]);
      var r :| r in rows && r.seqNo == MaxSeq(rows);
      var i :| 0 <= i < |rows| && rows[i] == r;
      assert Ids(rows)[i].seqNo == r.seqNo;
      assert i < |rows| - 1 ==> Ids(rows)[i].seqNo < Ids(rows)[|rows| - 1].seqNo;
    }
  }

  /** The installed rows are the snapshot followed by the live rows beyond it. */
  lemma HydrateShape(c: Client, sample: seq<Row>)
    requires Numbered(Ids(c.rows)) && c.lastSeq == Last(Ids(c.rows)) && Numbered(Ids(sample))
    ensures var d, rows, first := Hydrate(c, sample), Ids(c.rows), Ids(sample);
            && Numbered(Ids(d.rows)) && d.lastSeq == Last(Ids(d.rows))
            && d.lastSeq == (if Last(rows) > Last(first) then Last(rows) else Last(first))
            && (forall r :: r in Ids(d.rows) <==> r in first || (r in rows && r.seqNo > Last(first)))
  {
    var first, tail := Ids(sample), LiveTail(c.rows, MaxSeq(sample));
    MaxSeqIsLast(sample);
    LiveTailIds(c.rows, Last(first));
    assert Ids(Hydrate(c, sample).rows) == first + Ids(tail);
    JoinNumbered(first, Ids(tail), Last(first));
  }

  /** A successful snapshot completes what the client knows; rows that raced
      ahead of it survive. */
  lemma HydrateCompletes(c: Client, sample: seq<Row>, log: seq<RowId>, base: nat, announced: nat, complete: bool)
    requires Known(Ids(c.rows), c.lastSeq, log, base, announced, complete)
    requires Numbered(log) && base <= |sample| <= |log| && Ids(sample) == log[..|sample|]
    ensures var d := Hydrate(c, sample);
            Known(Ids(d.rows), d.lastSeq, log, base, announced, true)
  {
    var d, n := Hydrate(c, sample), |sample|;
    var first := Ids(sample);
    assert forall j :: 0 <= j < n ==> first[j] == log[j];
    HydrateShape(c, sample);
    forall j | 0 <= j < |log| && log[j].seqNo <= d.lastSeq ensures log[j] in Ids(d.rows) {
      if j < n {
        assert first[j] in first;
      } else {
        assert log[j].seqNo > Last(first);
        assert log[j] in Ids(c.rows);
      }
    }
    forall j | 0 <= j < base ensures log[j].seqNo <= d.lastSeq {
      LastIsHighest(first, first[j]);
    }
    forall r | r in first ensures r in log {
      assert r in log[..n];
    }
  }

  /** A failed fetch only raises the loaded flag. */
  lemma FailedFetchOnlyMarksLoaded(c: Client)
    requires Numbered(Ids(c.rows))
    ensures Hydrate(c, []) == c.(loaded := true)
  {
    AllTail(c.rows);
  }

  lemma {:induction false} AllTail(rows: seq<Row>)
    requires Numbered(Ids(rows))
    ensures LiveTail(rows, 0) == rows
  {
    if rows != [] {
      var init := rows[..|rows| - 1];
      assert Ids(rows)[..|rows| - 1] == Ids(init);
      AllTail(init);
      assert Ids(rows)[|rows| - 1].seqNo > 0;
      assert init + [rows[|rows| - 1]] == rows;
    }
  }

  // --- every step keeps the invariant ---

  lemma {:induction false} AnnounceNew(channel: seq<Message>, ids: seq<RowId>, n: nat, row: Row)
    requires Announces(channel, ids, n)
    ensures Announces(channel + [Said(row, true)], ids + [Id(row)], n)
    decreases |channel|
  {
    if channel == [] {
      assert (channel + [Said(row, true)])[1..] == [];
    } else {
      var m := if channel[0].Said? && channel[0].isNew then n + 1 else n;
      AnnounceNew(channel[1..], ids, m, row);
      assert (channel + [Said(row, true)])[1..] == channel[1..] + [Said(row, true)];
      if channel[0].Said? && !channel[0].isNew {
        var j :| 0 <= j < n && j < |ids| && ids[j] == Id(channel[0].row);
        assert (ids + [Id(row)])[j] == ids[j];
      }
    }
  }

  lemma {:induction false} AnnounceUpdate(channel: seq<Message>, ids: seq<RowId>, n: nat, row: Row, k: nat)
    requires Announces(channel, ids, n) && k < |ids| && ids[k] == Id(row)
    ensures Announces(channel + [Said(row, false)], ids, n)
    decreases |channel|
  {
    if channel == [] {
      assert (channel + [Said(row, false)])[1..] == [];
    } else {
      var m := if channel[0].Said? && channel[0].isNew then n + 1 else n;
      AnnounceUpdate(channel[1..], ids, m, row, k);
      assert (channel + [Said(row, false)])[1..] == channel[1..] + [Said(row, false)];
    }
  }

  lemma AppendKeeps(w: World, row: Row)
    requires Inv(w)
    ensures Inv(Step(w, EngineAppends(row)))
  {
    if Appendable(w.log, row) {
      var v := Step(w, EngineAppends(row));
      IdsNumbered(w.log, row);
      AnnounceNew(w.channel, Ids(w.log), w.announced, row);
      KnownGrows(w, v, row);
      forall r | r in v.fetches && v.fetches[r].sample.Some? ensures Snapshot(v, v.fetches[r].sample.value) {
        SnapshotGrows(w, row, v.fetches[r].sample.value);
      }
    }
  }

  lemma IdsNumbered(log: seq<Row>, row: Row)
    requires Appendable(log, row) && Numbered(Ids(log)) && OneRowPerTool(Ids(log))
    ensures Ids(log + [row]) == Ids(log) + [Id(row)]
    ensures Numbered(Ids(log + [row])) && OneRowPerTool(Ids(log + [row]))
  {
    IdsAppend(log, row);
    var before := Ids(log);
    forall i | 0 <= i < |before|
      ensures before[i].seqNo < row.seqNo && (row.tool.Some? ==> before[i].tool != row.tool)
    {
      assert before[i] == Id(log[i]);
    }
  }

  lemma SnapshotGrows(w: World, row: Row, sample: seq<Row>)
    requires Appendable(w.log, row) && Snapshot(w, sample)
    ensures Snapshot(Step(w, EngineAppends(row)), sample)
  {
    IdsAppend(w.log, row);
    assert (Ids(w.log) + [Id(row)])[..|sample|] == Ids(w.log)[..|sample|];
  }

  lemma KnownGrows(w: World, v: World, row: Row)
    requires Inv(w) && Appendable(w.log, row) && v == Step(w, EngineAppends(row))
    ensures Known(Ids(v.client.rows), v.client.lastSeq, Ids(v.log), v.base, v.announced, Complete(v))
  {
    IdsAppend(w.log, row);
    var rows, ids := Ids(w.client.rows), Ids(w.log);
    if rows != [] {
      assert rows[|rows| - 1] in ids;
      var j :| 0 <= j < |ids| && ids[j] == rows[|rows| - 1];
      assert w.log[j].seqNo < row.seqNo;
    }
  }

  lemma UpdateKeeps(w: World, k: nat, content: Content)
    requires Inv(w)
    ensures Inv(Step(w, EngineUpdates(k, content)))
  {
    if k < |w.log| && w.log[k].tool.Some? {
      var v := Step(w, EngineUpdates(k, content));
      assert Ids(v.log) == Ids(w.log);
      AnnounceUpdate(w.channel, Ids(w.log), w.announced, w.log[k].(content := content), k);
    }
  }

  /** The message at the head speaks of an announced row, or announces the next. */
  lemma HeadIsAnnounced(channel: seq<Message>, ids: seq<RowId>, n: nat) returns (j: nat)
    requires channel != [] && channel[0].Said? && Announces(channel, ids, n)
    ensures j < |ids| && ids[j] == Id(channel[0].row) && (if channel[0].isNew then j == n else j < n)
    ensures Announces(channel[1..], ids, if j == n then n + 1 else n)
  {
    if channel[0].isNew {
      j := n;
    } else {
      j :| 0 <= j < n && j < |ids| && ids[j] == Id(channel[0].row);
    }
  }

  lemma DeliveredIsKnown(w: World)
    requires Inv(w) && w.channel != [] && w.channel[0].Said?
    ensures var d := ApplyMessage(w.client, w.channel[0].row);
            var m := if w.channel[0].isNew then w.announced + 1 else w.announced;
            && Announces(w.channel[1..], Ids(w.log), m)
            && Known(Ids(d.rows), d.lastSeq, Ids(w.log), w.base, m, Complete(w))
  {
    var j := HeadIsAnnounced(w.channel, Ids(w.log), w.announced);
    MessageKeepsKnown(w.client, w.channel[0].row, Ids(w.log), w.base, w.announced, Complete(w), j);
  }

  lemma DeliverKeeps(w: World)
    requires Inv(w)
    ensures Inv(Step(w, Deliver))
  {
    if w.channel != [] && w.channel[0].Said? { DeliveredIsKnown(w); }
  }

  lemma HydrateReplyKeeps(w: World, rid: nat, ok: bool)
    requires Inv(w)
    ensures Inv(Step(w, HydrateReply(rid, ok)))
  {
    if rid in w.fetches && (ok ==> w.fetches[rid].sample.Some?) {
      if ok {
        HydrateCompletes(w.client, w.fetches[rid].sample.value, Ids(w.log), w.base, w.announced, Complete(w));
      } else {
        FailedFetchOnlyMarksLoaded(w.client);
      }
    }
  }

  lemma StepKeeps(w: World, e: Event)
    requires Inv(w)
    ensures Inv(Step(w, e))
  {
    match e
    case EngineAppends(row) => AppendKeeps(w, row);
    case EngineUpdates(k, content) => UpdateKeeps(w, k, content);
    case Deliver => DeliverKeeps(w);
    case HydrateReply(rid, ok) => HydrateReplyKeeps(w, rid, ok);
    case EngineReads(rid) => assert Ids(w.log)[..|w.log|] == Ids(w.log);
    case BeginHydrate(_) =>
  }

  lemma {:induction false} RunKeeps(w: World, es: seq<Event>)
    requires Inv(w)
    ensures Inv(Run(w, es))
    decreases |es|
  {
    if es != [] {
      StepKeeps(w, es[0]);
      RunKeeps(Step(w, es[0]), es[1..]);
    }
  }

  lemma SubscribedInv(log: seq<Row>)
    requires WellFormedLog(log)
    ensures Inv(Subscribed(log)) && Inv(Announced())
  {
    var ids := Ids(log);
    forall i, j | 0 <= i < j < |ids|
      ensures ids[i].seqNo < ids[j].seqNo && (ids[i].tool.Some? ==> ids[i].tool != ids[j].tool)
    {
      assert Appendable(log[..j], log[j]);
      assert log[..j][i] == log[i];
    }
    forall i | 0 <= i < |ids| ensures ids[i].seqNo > 0 {
      assert Appendable(log[..i], log[i]);
    }
  }

  /** Whether the world started with a known session or with its creation. */
  ghost function Start(log: seq<Row>, created: bool): World {
    if created then Announced() else Subscribed(log)
  }

  /** In every run of live messages and overlapping, out-of-order hydrations:
      numbers strictly increase, no tool call has two rows, the high-water mark
      is the highest number present, and once any fetch has succeeded (or the
      session was seen created) the rows are exactly the log's rows up to it. */
  lemma TranscriptExactInEveryRun(log: seq<Row>, created: bool, es: seq<Event>)
    requires WellFormedLog(log)
    ensures var w := Run(Start(log, created), es);
            var rows := Ids(w.client.rows);
            && Numbered(rows) && OneRowPerTool(rows) && w.client.lastSeq == Last(rows)
            && (w.hydrated || created ==>
                  forall r :: r in rows <==> r in Ids(w.log) && r.seqNo <= w.client.lastSeq)
  {
    SubscribedInv(log);
    RunKeeps(Start(log, created), es);
    BaseIsFixed(Start(log, created), es);
    var w := Run(Start(log, created), es);
    var rows, ids := Ids(w.client.rows), Ids(w.log);
    assert Complete(w) == (w.hydrated || w.base == 0);
    ToolsFromLog(rows, ids);
    forall r | r in rows ensures r.seqNo <= Last(rows) {
      LastIsHighest(rows, r);
    }
  }

  lemma ToolsFromLog(rows: seq<RowId>, ids: seq<RowId>)
    requires Numbered(rows) && OneRowPerTool(ids) && forall r :: r in rows ==> r in ids
    ensures OneRowPerTool(rows)
  {
    forall i, j | 0 <= i < j < |rows| && rows[i].tool.Some? ensures rows[i].tool != rows[j].tool {
      assert rows[i] in ids && rows[j] in ids;
      var a :| 0 <= a < |ids| && ids[a] == rows[i];
      var b :| 0 <= b < |ids| && ids[b] == rows[j];
      assert a != b;
    }
  }

  lemma {:induction false} BaseIsFixed(w: World, es: seq<Event>)
    ensures Run(w, es).base == w.base
    decreases |es|
  {
    if es != [] { BaseIsFixed(Step(w, es[0]), es[1..]); }
  }

  lemma DrainedIsTheLog(rows: seq<RowId>, high: nat, ids: seq<RowId>, base: nat)
    requires Known(rows, high, ids, base, |ids|, true) && Numbered(ids)
    ensures rows == ids
  {
    forall j | 0 <= j < |ids| ensures ids[j] in rows {}
    SameMembers(rows, ids, (r: RowId) => r.seqNo);
  }

  /** The loaded flag alone promises nothing: a failed first fetch of a
      one-row session sets it, and a later unforced hydration never fetches. */
  lemma LoadedIsNotComplete()
    ensures var row := Row(1, None, map[]);
            var w := Step(Step(Subscribed([row]), BeginHydrate(false)), HydrateReply(0, false));
            && w.client.loaded && w.client.rows == [] && w.log == [row] && w.channel == []
            && Step(w, BeginHydrate(false)) == w
  {
    var row := Row(1, None, map[]);
    var w1 := Step(Subscribed([row]), BeginHydrate(false));
    assert w1.fetches == map[0 := Fetch(None)];
    assert LiveTail([], 0) == [];
  }
}
