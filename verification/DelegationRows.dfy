/** Lists of transcript rows that belong to the engine's log, and what one
    upsert, one sort and one merge make of them. */
module DelegationRows {
  import opened Options
  import opened Ordered
  import opened DelegationStore
  import opened TranscriptRows

  // --- lists of rows that belong to the engine's log ---

  function Number(r: Row): int { r.seqNo }

  /** `r` is a version of the log's row with that number. */
  ghost predicate VersionOf(r: Row, log: seq<Row>) {
    exists i :: 0 <= i < |log| && log[i].seqNo == r.seqNo && log[i].tool == r.tool
  }

  ghost predicate LogSound(log: seq<Row>) {
    && Increasing(log, Number) && (forall i :: 0 <= i < |log| ==> log[i].seqNo > 0)
    && (forall i, j :: 0 <= i < j < |log| && log[i].tool.Some? ==> log[i].tool != log[j].tool)
  }

  ghost predicate Rows(rows: seq<Row>, log: seq<Row>) {
    Increasing(rows, Number) && forall r :: r in rows ==> VersionOf(r, log)
  }

  ghost predicate Has(rows: seq<Row>, n: nat) {
    exists r :: r in rows && r.seqNo == n
  }

  lemma OnePlace(log: seq<Row>, i: nat, j: nat)
    requires Increasing(log, Number) && i < |log| && j < |log| && log[i].seqNo == log[j].seqNo
    ensures i == j
  {
    assert Number(log[i]) == Number(log[j]);
  }

  /** Two versions of log rows share a number exactly when they share a tool call. */
  lemma SameRow(a: Row, b: Row, log: seq<Row>)
    requires LogSound(log) && VersionOf(a, log) && VersionOf(b, log)
    ensures a.seqNo == b.seqNo ==> a.tool == b.tool
    ensures a.tool.Some? && a.tool == b.tool ==> a.seqNo == b.seqNo
  {
    var i :| 0 <= i < |log| && log[i].seqNo == a.seqNo && log[i].tool == a.tool;
    var j :| 0 <= j < |log| && log[j].seqNo == b.seqNo && log[j].tool == b.tool;
    if a.seqNo == b.seqNo { OnePlace(log, i, j); }
  }

  // --- sorting ---

  lemma AppendLarger(rows: seq<Row>, m: Row)
    requires Increasing(rows, Number) && forall r :: r in rows ==> r.seqNo < m.seqNo
    ensures Increasing(rows + [m], Number)
  {
    forall i | 0 <= i < |rows| ensures Number(rows[i]) < Number(m) { assert rows[i] in rows; }
  }

  lemma {:induction false} InsertMembers(rows: seq<Row>, m: Row, r: Row)
    ensures r in InsertBySeq(rows, m) <==> r == m || r in rows
  {
    if rows != [] && rows[|rows| - 1].seqNo > m.seqNo {
      var init, last := rows[..|rows| - 1], rows[|rows| - 1];
      assert rows == init + [last];
      InsertMembers(init, m, r);
    }
  }

  lemma {:induction false} InsertSorted(rows: seq<Row>, m: Row)
    requires Increasing(rows, Number) && !Has(rows, m.seqNo)
    ensures Increasing(InsertBySeq(rows, m), Number)
    ensures forall r :: r in InsertBySeq(rows, m) <==> r == m || r in rows
  {
    forall r ensures r in InsertBySeq(rows, m) <==> r == m || r in rows { InsertMembers(rows, m, r); }
    if rows == [] {
    } else if rows[|rows| - 1].seqNo <= m.seqNo {
      LastIsLargest(rows, Number);
      assert rows[|rows| - 1] in rows;
      AppendLarger(rows, m);
    } else {
      var init, last := rows[..|rows| - 1], rows[|rows| - 1];
      LastIsLargest(rows, Number);
      assert !Has(init, m.seqNo);
      InsertSorted(init, m);
      AppendLarger(InsertBySeq(init, m), last);
    }
  }

  /** Sorting an ordered list is the identity; sorting one with a new row at
      its end inserts that row. */
  lemma {:induction false} SortOrdered(rows: seq<Row>)
    requires Increasing(rows, Number)
    ensures SortBySeq(rows) == rows
  {
    if rows != [] {
      var init, last := rows[..|rows| - 1], rows[|rows| - 1];
      SortOrdered(init);
      InsertLarger(init, last);
      assert rows == init + [last];
    }
  }

  lemma InsertLarger(init: seq<Row>, last: Row)
    requires Increasing(init + [last], Number)
    ensures InsertBySeq(init, last) == init + [last]
  {
    var rows := init + [last];
    if init != [] { assert Number(rows[|init| - 1]) < Number(rows[|init|]); }
  }

  lemma SortAppended(rows: seq<Row>, m: Row)
    requires Increasing(rows, Number)
    ensures SortBySeq(rows + [m]) == InsertBySeq(rows, m)
  {
    assert (rows + [m])[..|rows|] == rows;
    SortOrdered(rows);
  }

  ghost predicate InOrder(rows: seq<Row>) {
    forall i, j :: 0 <= i < j < |rows| ==> rows[i].seqNo <= rows[j].seqNo
  }

  lemma AppendLargest(rows: seq<Row>, m: Row)
    requires InOrder(rows) && forall i :: 0 <= i < |rows| ==> rows[i].seqNo <= m.seqNo
    ensures InOrder(rows + [m])
  {
  }

  lemma {:induction false} InsertOrders(rows: seq<Row>, m: Row)
    requires InOrder(rows)
    ensures InOrder(InsertBySeq(rows, m))
  {
    if rows == [] {
    } else if rows[|rows| - 1].seqNo <= m.seqNo {
      AppendLargest(rows, m);
    } else {
      var init, last := rows[..|rows| - 1], rows[|rows| - 1];
      InsertOrders(init, m);
      var rest := InsertBySeq(init, m);
      forall i | 0 <= i < |rest| ensures rest[i].seqNo <= last.seqNo {
        InsertMembers(init, m, rest[i]);
        assert rest[i] in rest;
      }
      AppendLargest(rest, last);
    }
  }

  lemma {:induction false} InsertCounts(rows: seq<Row>, m: Row)
    ensures multiset(InsertBySeq(rows, m)) == multiset(rows) + multiset{m}
  {
    if rows != [] && rows[|rows| - 1].seqNo > m.seqNo {
      InsertCounts(rows[..|rows| - 1], m);
      assert rows == rows[..|rows| - 1] + [rows[|rows| - 1]];
    }
  }

  /** Sorting orders any rows by number and neither adds nor loses one. */
  lemma {:induction false} SortOrders(rows: seq<Row>)
    ensures InOrder(SortBySeq(rows)) && multiset(SortBySeq(rows)) == multiset(rows)
  {
    if rows != [] {
      SortOrders(rows[..|rows| - 1]);
      InsertOrders(SortBySeq(rows[..|rows| - 1]), rows[|rows| - 1]);
      InsertCounts(SortBySeq(rows[..|rows| - 1]), rows[|rows| - 1]);
      assert rows == rows[..|rows| - 1] + [rows[|rows| - 1]];
    }
  }

  /** A live row of a tool call is meant for the row of that call, any other for
      the row of its number. */
  predicate MeantFor(m: Row, r: Row) {
    if m.tool.Some? then r.tool == m.tool else r.seqNo == m.seqNo
  }

  /** Whatever the rows: an upsert puts the row in place of the first it is meant
      for, or adds it and orders them all. */
  lemma UpsertExactly(rows: seq<Row>, m: Row, k: nat)
    requires k <= |rows| && (forall i :: 0 <= i < k ==> !MeantFor(m, rows[i])) && (k < |rows| ==> MeantFor(m, rows[k]))
    ensures var after := UpsertLiveMessage(rows, m);
            if k < |rows| then after == rows[k := m]
            else InOrder(after) && multiset(after) == multiset(rows) + multiset{m}
  {
    var found := if m.tool.Some? then IndexOfTool(rows, m.tool.value) else FindSeq(rows, m.seqNo);
    assert found == k;
    SortOrders(rows + [m]);
  }

  // --- what one upsert and one merge do, read as sets of rows ---

  lemma ReplaceAt(rows: seq<Row>, k: nat, m: Row)
    requires Increasing(rows, Number) && k < |rows| && rows[k].seqNo == m.seqNo
    ensures Increasing(rows[k := m], Number)
    ensures forall r :: r in rows[k := m] <==> r == m || (r in rows && r.seqNo != m.seqNo)
  {
    var s := rows[k := m];
    forall r ensures r in s <==> r == m || (r in rows && r.seqNo != m.seqNo) {
      if r in s {
        var i :| 0 <= i < |s| && s[i] == r;
        if i != k { assert Number(rows[i]) != Number(rows[k]); }
      }
      if r == m { assert s[k] == m; }
      if r in rows && r.seqNo != m.seqNo {
        var i :| 0 <= i < |rows| && rows[i] == r;
        assert s[i] == r;
      }
    }
  }

  lemma Upserts(rows: seq<Row>, m: Row, log: seq<Row>)
    requires LogSound(log) && Rows(rows, log) && VersionOf(m, log)
    ensures Rows(UpsertLiveMessage(rows, m), log)
    ensures forall r :: r in UpsertLiveMessage(rows, m) <==> r == m || (r in rows && r.seqNo != m.seqNo)
  {
    var k := if m.tool.Some? then IndexOfTool(rows, m.tool.value) else FindSeq(rows, m.seqNo);
    forall r | r in rows
      ensures r.seqNo == m.seqNo ==> r.tool == m.tool
      ensures m.tool.Some? && r.tool == m.tool ==> r.seqNo == m.seqNo
    {
      SameRow(r, m, log);
    }
    if k < |rows| {
      assert rows[k] in rows;
      ReplaceAt(rows, k, m);
    } else {
      SortAppended(rows, m);
      InsertSorted(rows, m);
    }
  }

  /** Merging keeps every live row and adds the fetched rows live ones do not version. */
  ghost predicate Merged(result: seq<Row>, fetched: seq<Row>, live: seq<Row>) {
    forall r :: r in result <==> r in live || (r in fetched && !Has(live, r.seqNo))
  }

  lemma {:induction false} MergesAll(fetched: seq<Row>, live: seq<Row>, log: seq<Row>, n: nat)
    requires LogSound(log) && Rows(fetched, log) && Rows(live, log)
    requires forall r :: r in live && r.seqNo <= n ==> Has(fetched, r.seqNo)
    ensures Rows(MergeAll(fetched, live, n), log) && Merged(MergeAll(fetched, live, n), fetched, live)
  {
    if live != [] {
      var init, m := live[..|live| - 1], live[|live| - 1];
      assert live == init + [m];
      assert m in live;
      MergesAll(fetched, init, log, n);
      var before := MergeAll(fetched, init, n);
      forall r | r in init ensures r.seqNo < m.seqNo {
        var i :| 0 <= i < |init| && init[i] == r;
        assert Number(live[i]) < Number(m);
      }
      MergesOne(before, m, log, n);
      forall r ensures Has(live, r) <==> Has(init, r) || r == m.seqNo {
        if r == m.seqNo { assert m in live; }
        if Has(init, r) { var x :| x in init && x.seqNo == r; assert x in live; }
      }
      if m.seqNo <= n {
        var f :| f in fetched && f.seqNo == m.seqNo;
        assert !Has(init, f.seqNo);
        assert f in before;
      }
    }
  }

  lemma MergesOne(merged: seq<Row>, m: Row, log: seq<Row>, n: nat)
    requires LogSound(log) && Rows(merged, log) && VersionOf(m, log)
    ensures m.seqNo > n || Has(merged, m.seqNo) ==>
              && Rows(MergeOne(merged, m, n), log)
              && forall r :: r in MergeOne(merged, m, n) <==> r == m || (r in merged && r.seqNo != m.seqNo)
  {
    var byTool := if m.tool.Some? then IndexOfTool(merged, m.tool.value) else |merged|;
    var k := if byTool < |merged| then byTool else FindSeq(merged, m.seqNo);
    if k < |merged| {
      assert merged[k] in merged;
      SameRow(merged[k], m, log);
      ReplaceAt(merged, k, m);
    } else if m.seqNo > n {
      Upserts(merged, m, log);
    }
  }

  lemma {:induction false} MaxSeqOfOrdered(rows: seq<Row>)
    requires Increasing(rows, Number)
    ensures MaxSeq(rows) == if rows == [] then 0 else rows[|rows| - 1].seqNo
  {
    if rows != [] {
      var init := rows[..|rows| - 1];
      MaxSeqOfOrdered(init);
      assert init != [] ==> Number(init[|init| - 1]) < Number(rows[|rows| - 1]);
    }
  }

  /** A snapshot, taken from a log that has since only grown at its end. */
  ghost predicate Snapshot(sample: seq<Row>, log: seq<Row>) {
    && |sample| <= |log|
    && forall i :: 0 <= i < |sample| ==> sample[i].seqNo == log[i].seqNo && sample[i].tool == log[i].tool
  }

  lemma SnapshotRows(sample: seq<Row>, log: seq<Row>)
    requires LogSound(log) && Snapshot(sample, log)
    ensures Rows(sample, log)
  {
    forall i, j | 0 <= i < j < |sample| ensures Number(sample[i]) < Number(sample[j]) {
      assert Number(log[i]) < Number(log[j]);
    }
  }

  /** Hydration loses no live row and no fetched row, and prefers the live version. */
  lemma Hydrates(sample: seq<Row>, rows: seq<Row>, log: seq<Row>)
    requires LogSound(log) && Rows(rows, log) && Snapshot(sample, log)
    ensures Rows(MergeHydrated(sample, rows), log) && Merged(MergeHydrated(sample, rows), sample, rows)
  {
    SnapshotRows(sample, log);
    MaxSeqOfOrdered(sample);
    var n := MaxSeq(sample);
    forall r | r in rows && r.seqNo <= n ensures Has(sample, r.seqNo) {
      var i :| 0 <= i < |log| && log[i].seqNo == r.seqNo && log[i].tool == r.tool;
      if i < |sample| {
        assert sample[i] in sample;
      }
    }
    MergesAll(sample, rows, log, n);
    SortOrdered(MergeAll(sample, rows, n));
  }
}
