/** One child run's transcript: live rows, each the engine's full row at the
    moment it was sent, merge with snapshots fetched at any time. One step, and
    the invariant every step keeps. */
module DelegationTranscriptProtocol {
  import opened Options
  import opened Ordered
  import opened DelegationRows
  import opened DelegationStore
  import opened TranscriptRows

  datatype Fetch = Fetch(sample: Option<seq<Row>>)

  /** `base` is how many rows predate the subscription. */
  datatype World = World(rows: seq<Row>, requested: bool, log: seq<Row>, channel: seq<Row>,
                         fetches: map<nat, Fetch>, next: nat, base: nat, hydrated: bool)

  datatype Event =
    | EngineAppends(row: Row)
    | EngineUpdates(k: nat, content: Content)
    | Deliver
    | BeginFetch
    | EngineReads(rid: nat)
    | FetchReply(rid: nat, ok: bool)

  ghost function Step(w: World, e: Event): World {
    match e
    case EngineAppends(row) =>
      if Appendable(w.log, row) then w.(log := w.log + [row], channel := w.channel + [row]) else w
    case EngineUpdates(k, content) =>
      if k < |w.log|
      then var row := w.log[k].(content := content); w.(log := w.log[k := row], channel := w.channel + [row])
      else w
    case Deliver =>
      if w.channel == [] then w
      else w.(rows := UpsertLiveMessage(w.rows, w.channel[0]), channel := w.channel[1..])
    case BeginFetch =>
      if w.requested then w
      else w.(requested := true, fetches := w.fetches[w.next := Fetch(None)], next := w.next + 1)
    case EngineReads(rid) =>
      if rid in w.fetches && w.fetches[rid].sample.None? then w.(fetches := w.fetches[rid := Fetch(Some(w.log))]) else w
    case FetchReply(rid, ok) =>
      if rid !in w.fetches || (ok && w.fetches[rid].sample.None?) then w
      else w.(rows := if ok then MergeHydrated(w.fetches[rid].sample.value, w.rows) else w.rows,
              fetches := w.fetches - {rid}, requested := false, hydrated := w.hydrated || ok)
  }

  // --- the invariant ---

  /** An event for this row is still on its way. */
  ghost predicate Pending(channel: seq<Row>, n: nat) {
    Has(channel, n)
  }

  /** No later event on its way is for the same row. */
  ghost predicate Newest(channel: seq<Row>, i: nat) {
    i < |channel| && forall j :: i < j < |channel| ==> channel[j].seqNo != channel[i].seqNo
  }

  /** The last event on its way for a row carries the row as the engine has it. */
  ghost predicate ChannelSound(channel: seq<Row>, log: seq<Row>) {
    && (forall m :: m in channel ==> VersionOf(m, log))
    && (forall i: nat {:trigger Newest(channel, i)} :: Newest(channel, i) ==> channel[i] in log)
  }

  /** What is on show and has no event on its way is the engine's row. */
  ghost predicate ShownCurrent(w: World) {
    forall r :: r in w.rows && !Pending(w.channel, r.seqNo) ==> r in w.log
  }

  /** Rows announced since the subscription, and all rows once hydrated, are
      shown or announced. */
  ghost predicate NothingMissing(w: World) {
    forall i :: 0 <= i < |w.log| && (i >= w.base || w.hydrated)
      ==> Has(w.rows, w.log[i].seqNo) || Pending(w.channel, w.log[i].seqNo)
  }

  /** A snapshot's row is the engine's, unless a newer version is shown or on its way. */
  ghost predicate SampleSound(w: World, sample: seq<Row>) {
    && w.base <= |sample| && Snapshot(sample, w.log)
    && (forall f :: f in sample && !Pending(w.channel, f.seqNo) && !Has(w.rows, f.seqNo) ==> f in w.log)
  }

  ghost predicate Samples(w: World) {
    forall r :: r in w.fetches && w.fetches[r].sample.Some? ==> SampleSound(w, w.fetches[r].sample.value)
  }

  ghost predicate Inv(w: World) {
    && LogSound(w.log) && w.base <= |w.log|
    && Rows(w.rows, w.log) && ChannelSound(w.channel, w.log)
    && ShownCurrent(w) && NothingMissing(w) && Samples(w)
    && |w.fetches| == (if w.requested then 1 else 0)
    && (forall r :: r in w.fetches ==> r < w.next)
  }

  // --- every step keeps it ---

  lemma PendingExtends(channel: seq<Row>, row: Row, n: nat)
    ensures Pending(channel + [row], n) <==> Pending(channel, n) || n == row.seqNo
  {
    var c := channel + [row];
    if Pending(channel, n) { var r :| r in channel && r.seqNo == n; assert r in c; }
    if n == row.seqNo { assert c[|channel|] == row; }
  }

  /** Appending the current version of a row to the channel keeps the channel sound. */
  lemma ChannelExtends(channel: seq<Row>, log: seq<Row>, after: seq<Row>, row: Row)
    requires ChannelSound(channel, log) && row in after
    requires forall r :: VersionOf(r, log) ==> VersionOf(r, after)
    requires forall r :: r in log && r.seqNo != row.seqNo ==> r in after
    ensures ChannelSound(channel + [row], after)
  {
    var c := channel + [row];
    var k :| 0 <= k < |after| && after[k] == row;
    forall i: nat | Newest(c, i) ensures c[i] in after {
      if i < |channel| {
        assert c[|channel|] == row;
        assert forall j :: i <= j < |channel| ==> c[j] == channel[j];
        assert Newest(channel, i);
      }
    }
  }

  lemma AppendedLog(log: seq<Row>, row: Row)
    requires LogSound(log) && Appendable(log, row)
    ensures var after := log + [row];
            && LogSound(after) && VersionOf(row, after) && row in after
            && (forall r :: VersionOf(r, log) ==> VersionOf(r, after))
  {
    var after := log + [row];
    assert after[|log|] == row;
    forall r | VersionOf(r, log) ensures VersionOf(r, after) {
      var i :| 0 <= i < |log| && log[i].seqNo == r.seqNo && log[i].tool == r.tool;
      assert after[i] == log[i];
    }
  }

  lemma AppendShows(w: World, row: Row)
    requires ShownCurrent(w) && NothingMissing(w)
    ensures var v := w.(log := w.log + [row], channel := w.channel + [row]); ShownCurrent(v) && NothingMissing(v)
  {
    var v := w.(log := w.log + [row], channel := w.channel + [row]);
    forall n ensures Pending(v.channel, n) <==> Pending(w.channel, n) || n == row.seqNo {
      PendingExtends(w.channel, row, n);
    }
    forall r | r in w.rows && !Pending(v.channel, r.seqNo) ensures r in v.log {
      assert r in w.log;
    }
    forall i | 0 <= i < |v.log| && (i >= v.base || v.hydrated)
      ensures Has(v.rows, v.log[i].seqNo) || Pending(v.channel, v.log[i].seqNo)
    {
      if i < |w.log| { assert v.log[i] == w.log[i]; }
    }
  }

  lemma AppendSample(w: World, row: Row, sample: seq<Row>)
    requires SampleSound(w, sample)
    ensures SampleSound(w.(log := w.log + [row], channel := w.channel + [row]), sample)
  {
    var v := w.(log := w.log + [row], channel := w.channel + [row]);
    forall f | f in sample && !Pending(v.channel, f.seqNo) && !Has(v.rows, f.seqNo) ensures f in v.log {
      PendingExtends(w.channel, row, f.seqNo);
      assert f in w.log;
    }
  }

  lemma AppendKeeps(w: World, row: Row)
    requires Inv(w)
    ensures Inv(Step(w, EngineAppends(row)))
  {
    if Appendable(w.log, row) {
      var v := Step(w, EngineAppends(row));
      AppendedLog(w.log, row);
      ChannelExtends(w.channel, w.log, v.log, row);
      AppendShows(w, row);
      forall r | r in v.fetches && v.fetches[r].sample.Some? ensures SampleSound(v, v.fetches[r].sample.value) {
        AppendSample(w, row, w.fetches[r].sample.value);
      }
    }
  }

  /** An update keeps every number, tool call and version relation of the log. */
  lemma UpdatedLog(log: seq<Row>, k: nat, content: Content)
    requires LogSound(log) && k < |log|
    ensures var after := log[k := log[k].(content := content)];
            && LogSound(after)
            && (forall r :: VersionOf(r, log) ==> VersionOf(r, after))
            && (forall r :: r in log && r.seqNo != log[k].seqNo ==> r in after)
            && log[k].(content := content) in after
  {
    var after := log[k := log[k].(content := content)];
    forall i, j | 0 <= i < j < |after| ensures Number(after[i]) < Number(after[j]) {
      assert Number(log[i]) < Number(log[j]);
    }
    forall r | VersionOf(r, log) ensures VersionOf(r, after) {
      var i :| 0 <= i < |log| && log[i].seqNo == r.seqNo && log[i].tool == r.tool;
      assert after[i].seqNo == log[i].seqNo;
    }
    forall r | r in log && r.seqNo != log[k].seqNo ensures r in after {
      var i :| 0 <= i < |log| && log[i] == r;
      assert after[i] == r;
    }
    assert after[k] == log[k].(content := content);
  }

  lemma UpdateShows(w: World, k: nat, content: Content)
    requires ShownCurrent(w) && NothingMissing(w) && k < |w.log|
    requires forall r :: r in w.log && r.seqNo != w.log[k].seqNo ==> r in w.log[k := w.log[k].(content := content)]
    ensures var row := w.log[k].(content := content);
            var v := w.(log := w.log[k := row], channel := w.channel + [row]); ShownCurrent(v) && NothingMissing(v)
  {
    var row := w.log[k].(content := content);
    var v := w.(log := w.log[k := row], channel := w.channel + [row]);
    forall n ensures Pending(v.channel, n) <==> Pending(w.channel, n) || n == row.seqNo {
      PendingExtends(w.channel, row, n);
    }
    forall r | r in w.rows && !Pending(v.channel, r.seqNo) ensures r in v.log {
      assert r in w.log;
    }
    forall i | 0 <= i < |v.log| && (i >= v.base || v.hydrated)
      ensures Has(v.rows, v.log[i].seqNo) || Pending(v.channel, v.log[i].seqNo)
    {
      assert v.log[i].seqNo == w.log[i].seqNo;
    }
  }

  lemma UpdateSample(w: World, k: nat, content: Content, sample: seq<Row>)
    requires SampleSound(w, sample) && k < |w.log|
    requires forall r :: r in w.log && r.seqNo != w.log[k].seqNo ==> r in w.log[k := w.log[k].(content := content)]
    ensures var row := w.log[k].(content := content);
            SampleSound(w.(log := w.log[k := row], channel := w.channel + [row]), sample)
  {
    var row := w.log[k].(content := content);
    var v := w.(log := w.log[k := row], channel := w.channel + [row]);
    forall f | f in sample && !Pending(v.channel, f.seqNo) && !Has(v.rows, f.seqNo) ensures f in v.log {
      PendingExtends(w.channel, row, f.seqNo);
      assert f in w.log;
    }
  }

  lemma UpdateKeeps(w: World, k: nat, content: Content)
    requires Inv(w)
    ensures Inv(Step(w, EngineUpdates(k, content)))
  {
    if k < |w.log| {
      var v := Step(w, EngineUpdates(k, content));
      UpdatedLog(w.log, k, content);
      ChannelExtends(w.channel, w.log, v.log, w.log[k].(content := content));
      UpdateShows(w, k, content);
      forall r | r in v.fetches && v.fetches[r].sample.Some? ensures SampleSound(v, v.fetches[r].sample.value) {
        UpdateSample(w, k, content, w.fetches[r].sample.value);
      }
    }
  }

  lemma NewestBehind(m: Row, rest: seq<Row>, i: nat)
    requires Newest(rest, i)
    ensures Newest([m] + rest, i + 1) && ([m] + rest)[i + 1] == rest[i]
  {
    var c := [m] + rest;
    forall j | i + 1 < j < |c| ensures c[j].seqNo != c[i + 1].seqNo {
      assert c[j] == rest[j - 1];
    }
  }

  lemma NewestInFront(m: Row, rest: seq<Row>)
    requires !Pending(rest, m.seqNo)
    ensures Newest([m] + rest, 0)
  {
    var c := [m] + rest;
    forall j | 0 < j < |c| ensures c[j].seqNo != m.seqNo {
      assert c[j] == rest[j - 1];
      assert rest[j - 1] in rest;
    }
  }

  lemma DeliverKeeps(w: World)
    requires Inv(w)
    ensures Inv(Step(w, Deliver))
  {
    if w.channel != [] {
      var v, m := Step(w, Deliver), w.channel[0];
      Upserts(w.rows, m, w.log);
      assert w.channel == [m] + v.channel;
      forall n ensures Pending(w.channel, n) <==> Pending(v.channel, n) || n == m.seqNo {
        if Pending(v.channel, n) { var r :| r in v.channel && r.seqNo == n; assert r in w.channel; }
      }
      forall n ensures Has(v.rows, n) <==> Has(w.rows, n) || n == m.seqNo {
        if n == m.seqNo { assert m in v.rows; }
        else if Has(w.rows, n) { var r :| r in w.rows && r.seqNo == n; assert r in v.rows; }
      }
      forall i: nat | Newest(v.channel, i) ensures v.channel[i] in w.log { NewestBehind(m, v.channel, i); }
      if !Pending(v.channel, m.seqNo) { NewestInFront(m, v.channel); }
    }
  }

  lemma HasMerged(result: seq<Row>, sample: seq<Row>, live: seq<Row>, n: nat)
    requires Merged(result, sample, live)
    ensures Has(result, n) <==> Has(live, n) || Has(sample, n)
  {
    if Has(live, n) {
      var r :| r in live && r.seqNo == n;
      assert r in result;
    } else if Has(sample, n) {
      var r :| r in sample && r.seqNo == n;
      assert r in result;
    }
  }

  lemma MergeShows(result: seq<Row>, sample: seq<Row>, live: seq<Row>, log: seq<Row>, channel: seq<Row>, base: nat)
    requires Merged(result, sample, live) && Snapshot(sample, log) && base <= |sample|
    requires forall r :: r in live && !Pending(channel, r.seqNo) ==> r in log
    requires forall f :: f in sample && !Pending(channel, f.seqNo) && !Has(live, f.seqNo) ==> f in log
    requires forall i :: base <= i < |log| ==> Has(live, log[i].seqNo) || Pending(channel, log[i].seqNo)
    ensures forall r :: r in result && !Pending(channel, r.seqNo) ==> r in log
    ensures forall i :: 0 <= i < |log| ==> Has(result, log[i].seqNo) || Pending(channel, log[i].seqNo)
  {
    forall i | 0 <= i < |log| ensures Has(result, log[i].seqNo) || Pending(channel, log[i].seqNo) {
      if i < |sample| { assert sample[i] in sample; }
      HasMerged(result, sample, live, log[i].seqNo);
    }
  }

  lemma HydrationShows(sample: seq<Row>, live: seq<Row>, log: seq<Row>, channel: seq<Row>, base: nat)
    requires LogSound(log) && Rows(live, log) && Snapshot(sample, log) && base <= |sample|
    requires forall r :: r in live && !Pending(channel, r.seqNo) ==> r in log
    requires forall f :: f in sample && !Pending(channel, f.seqNo) && !Has(live, f.seqNo) ==> f in log
    requires forall i :: base <= i < |log| ==> Has(live, log[i].seqNo) || Pending(channel, log[i].seqNo)
    ensures var result := MergeHydrated(sample, live);
            && Rows(result, log)
            && (forall r :: r in result && !Pending(channel, r.seqNo) ==> r in log)
            && (forall i :: 0 <= i < |log| ==> Has(result, log[i].seqNo) || Pending(channel, log[i].seqNo))
  {
    Hydrates(sample, live, log);
    MergeShows(MergeHydrated(sample, live), sample, live, log, channel, base);
  }

  /** The one fetch under way is gone once it has replied. */
  lemma NoFetchLeft(w: World, rid: nat)
    requires |w.fetches| == 1 && rid in w.fetches
    ensures w.fetches - {rid} == map[]
  {
    var rest := w.fetches - {rid};
    assert rest.Keys == w.fetches.Keys - {rid};
    assert |rest.Keys| == 0;
  }

  /** `rows` are the engine's, in order, complete up to what is on its way. */
  ghost predicate Shows(w: World, rows: seq<Row>) {
    && Rows(rows, w.log)
    && (forall r :: r in rows && !Pending(w.channel, r.seqNo) ==> r in w.log)
    && (forall i :: 0 <= i < |w.log| ==> Has(rows, w.log[i].seqNo) || Pending(w.channel, w.log[i].seqNo))
  }

  /** Installing complete and current rows with no fetch left. */
  lemma InstallKeeps(w: World, rows: seq<Row>)
    requires Inv(w) && Shows(w, rows)
    ensures Inv(w.(rows := rows, fetches := map[], requested := false, hydrated := true))
  {
  }

  lemma SampleShows(w: World, sample: seq<Row>)
    requires Inv(w) && SampleSound(w, sample)
    ensures Shows(w, MergeHydrated(sample, w.rows))
  {
    HydrationShows(sample, w.rows, w.log, w.channel, w.base);
  }

  lemma ReplyStep(w: World, rid: nat)
    requires |w.fetches| == 1 && rid in w.fetches && w.fetches[rid].sample.Some?
    ensures Step(w, FetchReply(rid, true)) ==
            w.(rows := MergeHydrated(w.fetches[rid].sample.value, w.rows), fetches := map[], requested := false,
               hydrated := true)
  {
    NoFetchLeft(w, rid);
  }

  lemma ReplyKeeps(w: World, rid: nat)
    requires Inv(w) && rid in w.fetches && w.fetches[rid].sample.Some?
    ensures Inv(Step(w, FetchReply(rid, true)))
  {
    var sample := w.fetches[rid].sample.value;
    SampleShows(w, sample);
    InstallKeeps(w, MergeHydrated(sample, w.rows));
    assert |w.fetches| != 0;
    ReplyStep(w, rid);
  }

  lemma StepKeeps(w: World, e: Event)
    requires Inv(w)
    ensures Inv(Step(w, e))
  {
    match e
    case EngineAppends(row) => AppendKeeps(w, row);
    case EngineUpdates(k, content) => UpdateKeeps(w, k, content);
    case Deliver => DeliverKeeps(w);
    case FetchReply(rid, ok) =>
      if rid in w.fetches && ok && w.fetches[rid].sample.Some? { ReplyKeeps(w, rid); }
    case BeginFetch =>
    case EngineReads(rid) =>
  }
}
