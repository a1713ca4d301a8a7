/** What a tick of the background rail guarantees under any interference, and
    exactly what it does when left alone. */
module RailProperties {
  import opened Options
  import opened BackgroundRail

  // --- the queue as a table by id ---

  ghost predicate Ids(r: Rail) {
    && (forall i, j :: 0 <= i < j < |r.rows| ==> r.rows[i].id < r.rows[j].id)
    && (forall i :: 0 <= i < |r.rows| ==> r.rows[i].id < r.nextId)
  }

  function Find(rows: seq<Row>, id: RowId): (row: Option<Row>)
    ensures row.Some? ==> row.value in rows && row.value.id == id
    ensures row.None? ==> forall x :: x in rows ==> x.id != id
  {
    if rows == [] then None
    else if rows[|rows| - 1].id == id then Some(rows[|rows| - 1])
    else Find(rows[..|rows| - 1], id)
  }

  lemma FindAt(r: Rail, k: nat)
    requires Ids(r) && k < |r.rows|
    ensures Find(r.rows, r.rows[k].id) == Some(r.rows[k])
  {
    var row := Find(r.rows, r.rows[k].id).value;
    var i :| 0 <= i < |r.rows| && r.rows[i] == row;
    assert i == k;
  }

  function Map(row: Option<Row>, id: RowId, f: Row -> Row): Option<Row> {
    if row.Some? && row.value.id == id then Some(f(row.value)) else row
  }

  lemma {:induction false} FindMarked(rows: seq<Row>, id: RowId, j: RowId)
    ensures Find(MarkDelivered(rows, id), j) == Map(Find(rows, j), id, (x: Row) => x.(delivered := true))
  {
    if rows != [] {
      var init := rows[..|rows| - 1];
      FindMarked(init, id, j);
      assert MarkDelivered(rows, id)[..|rows| - 1] == MarkDelivered(init, id);
    }
  }

  lemma {:induction false} FindReleased(rows: seq<Row>, id: RowId, j: RowId)
    ensures Find(ReleaseClaim(rows, id), j)
         == Map(Find(rows, j), id, (x: Row) => if x.delivered then x else x.(claimed := false))
  {
    if rows != [] {
      var init := rows[..|rows| - 1];
      FindReleased(init, id, j);
      assert ReleaseClaim(rows, id)[..|rows| - 1] == ReleaseClaim(init, id);
    }
  }

  lemma {:induction false} FindAllReleased(rows: seq<Row>, ids: seq<RowId>, j: RowId)
    ensures |ReleaseAll(rows, ids)| == |rows|
    ensures forall i :: 0 <= i < |rows| ==> ReleaseAll(rows, ids)[i].id == rows[i].id
    ensures Find(ReleaseAll(rows, ids), j)
         == if j in ids then Map(Find(rows, j), j, (x: Row) => if x.delivered then x else x.(claimed := false))
            else Find(rows, j)
  {
    if ids != [] {
      var init, last := ids[..|ids| - 1], ids[|ids| - 1];
      FindAllReleased(rows, init, j);
      FindReleased(ReleaseAll(rows, init), last, j);
      assert ids == init + [last];
    }
  }

  lemma FindClaimed(r: Rail, k: nat, j: RowId)
    requires Ids(r) && k < |r.rows|
    ensures Ids(r.(rows := Claim(r.rows, k)))
    ensures Find(Claim(r.rows, k), j) == Map(Find(r.rows, j), r.rows[k].id, (x: Row) => x.(claimed := true))
  {
    var c := r.(rows := Claim(r.rows, k));
    FindAt(r, k);
    FindAt(c, k);
    if j != r.rows[k].id {
      if Find(r.rows, j).Some? {
        var i :| 0 <= i < |r.rows| && r.rows[i] == Find(r.rows, j).value;
        FindAt(c, i);
      }
    }
  }

  lemma {:induction false} WithoutPendingKeepsIds(r: Rail, s: SessionId)
    requires Ids(r)
    ensures Ids(r.(rows := WithoutPending(r.rows, s)))
    ensures forall x :: x in WithoutPending(r.rows, s) ==> x in r.rows
    decreases |r.rows|
  {
    if r.rows != [] {
      var init, last := r.(rows := r.rows[..|r.rows| - 1]), r.rows[|r.rows| - 1];
      WithoutPendingKeepsIds(init, s);
      var rest := WithoutPending(init.rows, s);
      forall i | 0 <= i < |rest| ensures rest[i].id < last.id < r.nextId {
        assert rest[i] in init.rows;
      }
    }
  }

  lemma {:induction false} FindWithoutPending(r: Rail, s: SessionId, j: RowId)
    requires Ids(r)
    ensures Find(WithoutPending(r.rows, s), j)
         == var x := Find(r.rows, j); if x.Some? && x.value.target == s && !x.value.delivered then None else x
    decreases |r.rows|
  {
    if r.rows != [] {
      var init, last := r.(rows := r.rows[..|r.rows| - 1]), r.rows[|r.rows| - 1];
      FindWithoutPending(init, s, j);
      var rest := WithoutPending(init.rows, s);
      assert last.id == j ==> Find(init.rows, j).None?;
      assert (rest + [last])[..|rest|] == rest;
    }
  }

  // --- what interference can do to one row ---

  ghost predicate Ends(es: seq<Interference>, s: SessionId) {
    EndSession(s) in es
  }

  /** Interference leaves a row alone or, if its session ends while it is
      pending, removes it; and what it adds is new, unclaimed and undelivered. */
  ghost predicate Undisturbed(r: Rail, d: Rail, es: seq<Interference>, j: RowId) {
    var x, y := Find(r.rows, j), Find(d.rows, j);
    && (j < r.nextId ==> y == x || (y.None? && x.Some? && !x.value.delivered && Ends(es, x.value.target)))
    && (j >= r.nextId && y.Some? ==> !y.value.claimed && !y.value.delivered && Enqueued(es, y.value))
  }

  /** Some enqueue put a row like this one on the queue. */
  ghost predicate Enqueued(es: seq<Interference>, row: Row) {
    Enqueue(row.target, row.origin, row.kind, row.createdAt) in es
  }

  /** What one piece of interference does to one row. */
  lemma DisturbsOne(m: Rail, e: Interference, j: RowId)
    requires Ids(m)
    ensures var d := Disturb(m, e); Ids(d) && m.nextId <= d.nextId && Undisturbed(m, d, [e], j)
  {
    match e
    case Enqueue(target, origin, kind, createdAt) => assert Disturb(m, e).rows[..|m.rows|] == m.rows;
    case EndSession(s) =>
      WithoutPendingKeepsIds(m, s);
      FindWithoutPending(m, s, j);
      assert EndSession(s) in [e];
    case BecomesIdle(_) =>
    case BecomesBusy(_) =>
  }

  lemma {:induction false} Disturbs(r: Rail, es: seq<Interference>, j: RowId)
    requires Ids(r)
    ensures var d := DisturbAll(r, es);
            Ids(d) && r.nextId <= d.nextId && Undisturbed(r, d, es, j)
  {
    if es != [] {
      var init, e := es[..|es| - 1], es[|es| - 1];
      Disturbs(r, init, j);
      DisturbsOne(DisturbAll(r, init), e, j);
      assert es == init + [e];
    }
  }

  // --- one tick under any interference ---

  function AttemptIds(attempts: seq<Attempt>): seq<RowId> {
    seq(|attempts|, i requires 0 <= i < |attempts| => attempts[i].row.id)
  }

  ghost predicate Distinct(ids: seq<RowId>) {
    forall i, j :: 0 <= i < j < |ids| ==> ids[i] != ids[j]
  }

  /** The row was claimed from a queue in which it was the oldest of the
      pending, unclaimed rows whose target was idle at that moment. */
  ghost predicate ClaimedOldest(a: Attempt) {
    && a.row in a.from.rows
    && !a.row.delivered && !a.row.claimed && a.row.kind != Learning && a.row.target in a.from.idle
    && forall x :: x in a.from.rows && !x.delivered && !x.claimed && x.kind != Learning && x.target in a.from.idle ==>
         a.row.createdAt <= x.createdAt
  }

  /** Between ticks no pending row the drainer could want is left claimed. */
  ghost predicate Settled(r: Rail) {
    && Ids(r)
    && forall j :: var x := Find(r.rows, j);
                   x.Some? && !x.value.delivered && x.value.kind != Learning ==> !x.value.claimed
  }

  ghost predicate RowInv(p: Progress, j: RowId) {
    var x := Find(p.rail.rows, j);
    && (j in AttemptIds(p.attempts) ==> j < p.rail.nextId)
    && (x.Some? && j in AttemptIds(p.attempts) ==>
          x.value.kind != Learning && (x.value.delivered || (x.value.claimed && j in p.failed)))
    && (x.Some? && !x.value.delivered && x.value.kind != Learning && x.value.claimed ==> j in p.failed)
  }

  ghost predicate TickInv(p: Progress) {
    && Ids(p.rail) && Distinct(AttemptIds(p.attempts))
    && (forall a :: a in p.attempts ==> ClaimedOldest(a))
    && (forall j :: j in p.failed ==> j in AttemptIds(p.attempts))
    && (forall j :: RowInv(p, j))
  }

  /** The queue a round claims from, and the row it claims. */
  function Source(p: Progress, turn: Turn): Rail {
    DisturbAll(p.rail, turn.before)
  }

  function Picked(p: Progress, turn: Turn): Row
    requires Claims(p.rail, turn)
  {
    Source(p, turn).rows[Oldest(Source(p, turn).rows, Source(p, turn).idle).value]
  }

  /** What a round does to one row, by id. */
  ghost predicate RoundOn(p: Progress, turn: Turn, works: set<RowId>, j: RowId)
    requires Claims(p.rail, turn)
  {
    var row, after := Picked(p, turn), Round(p, turn, works).rail;
    var x, y, es := Find(p.rail.rows, j), Find(after.rows, j), turn.before + turn.during;
    if j == row.id
    then (y.None? && Ends(es, row.target)) || y == Some(row.(claimed := true, delivered := j in works))
    else && (j < p.rail.nextId ==> y == x || (y.None? && x.Some? && !x.value.delivered && Ends(es, x.value.target)))
         && (j >= p.rail.nextId && y.Some? ==> !y.value.claimed && !y.value.delivered && Enqueued(es, y.value))
  }

  lemma MarkedIds(r: Rail, id: RowId)
    requires Ids(r)
    ensures Ids(r.(rows := MarkDelivered(r.rows, id)))
  {
  }

  /** What happens between a round's claim and its mark, on one row. */
  lemma AwaitRow(claimed: Rail, row: Row, turn: Turn, sends: bool, j: RowId)
    requires Ids(claimed)
    ensures var d := DisturbAll(if sends then Deliver(claimed, row) else claimed, turn.during);
            Ids(d) && claimed.nextId <= d.nextId && Undisturbed(claimed, d, turn.during, j)
  {
    var sent := if sends then Deliver(claimed, row) else claimed;
    Disturbs(sent, turn.during, j);
    assert sent.rows == claimed.rows;
  }

  lemma RoundRow(p: Progress, turn: Turn, works: set<RowId>, j: RowId)
    requires Ids(p.rail) && Claims(p.rail, turn)
    ensures var q := Round(p, turn, works);
            && Ids(q.rail) && p.rail.nextId <= q.rail.nextId
            && RoundOn(p, turn, works, j)
            && Find(Source(p, turn).rows, Picked(p, turn).id) == Some(Picked(p, turn))
            && Picked(p, turn).id < q.rail.nextId
  {
    var r, row := Source(p, turn), Picked(p, turn);
    var k := Oldest(r.rows, r.idle).value;
    Disturbs(p.rail, turn.before, j);
    FindAt(r, k);
    FindClaimed(r, k, j);
    var claimed, sends := r.(rows := Claim(r.rows, k)), row.id in works;
    AwaitRow(claimed, row, turn, sends, j);
    if sends {
      var d := DisturbAll(Deliver(claimed, row), turn.during);
      MarkedIds(d, row.id);
      FindMarked(d.rows, row.id, j);
    }
    EndsEither(turn);
  }

  lemma EndsEither(turn: Turn)
    ensures forall s :: Ends(turn.before, s) || Ends(turn.during, s) <==> Ends(turn.before + turn.during, s)
    ensures forall x :: Enqueued(turn.before, x) || Enqueued(turn.during, x) <==> Enqueued(turn.before + turn.during, x)
  {
  }

  /** The picked row is one the tick has not attempted and was not left claimed. */
  lemma PickedIsNew(p: Progress, turn: Turn)
    requires TickInv(p) && Claims(p.rail, turn)
    ensures Picked(p, turn).id !in AttemptIds(p.attempts)
    ensures ClaimedOldest(Attempt(Picked(p, turn), Source(p, turn)))
  {
    var r, row := Source(p, turn), Picked(p, turn);
    var k := Oldest(r.rows, r.idle).value;
    Disturbs(p.rail, turn.before, row.id);
    FindAt(r, k);
    assert RowInv(p, row.id);
    forall x | x in r.rows && !x.delivered && !x.claimed && x.kind != Learning && x.target in r.idle
      ensures row.createdAt <= x.createdAt
    {
      var i :| 0 <= i < |r.rows| && r.rows[i] == x;
    }
  }

  lemma AttemptsAppend(attempts: seq<Attempt>, a: Attempt)
    ensures AttemptIds(attempts + [a]) == AttemptIds(attempts) + [a.row.id]
  {
  }

  lemma RoundKeeps(p: Progress, turn: Turn, works: set<RowId>)
    requires TickInv(p) && Claims(p.rail, turn)
    ensures TickInv(Round(p, turn, works))
  {
    var q, row := Round(p, turn, works), Picked(p, turn);
    PickedIsNew(p, turn);
    AttemptsAppend(p.attempts, Attempt(row, Source(p, turn)));
    RoundRow(p, turn, works, row.id);
    forall j ensures RowInv(q, j) {
      assert RowInv(p, j);
      RoundRow(p, turn, works, j);
    }
  }

  lemma {:induction false} RoundsKeep(p: Progress, turns: seq<Turn>, works: set<RowId>)
    requires TickInv(p)
    ensures var q := Rounds(p, turns, works);
            TickInv(q) && |q.attempts| <= |p.attempts| + |turns| && p.attempts <= q.attempts
            && p.rail.nextId <= q.rail.nextId
    decreases |turns|
  {
    if turns != [] {
      if Claims(p.rail, turns[0]) {
        RoundRow(p, turns[0], works, 0);
        RoundKeeps(p, turns[0], works);
        RoundsKeep(Round(p, turns[0], works), turns[1..], works);
      } else {
        var q := p.(rail := DisturbAll(p.rail, turns[0].before));
        Disturbs(p.rail, turns[0].before, 0);
        forall j ensures RowInv(q, j) {
          assert RowInv(p, j);
          Disturbs(p.rail, turns[0].before, j);
        }
      }
    }
  }

  /** Under any interference a tick makes at most eight attempts, none twice,
      each at the oldest pending unclaimed row whose target was idle when it
      was claimed; and it ends with nothing left claimed. */
  lemma TickAttemptsOnceAndReleases(r: Rail, turns: seq<Turn>, works: set<RowId>)
    requires Settled(r) && |turns| == MAX_PER_TICK
    ensures var p := Attempted(r, turns, works);
            && |p.attempts| <= 8 && Distinct(AttemptIds(p.attempts))
            && (forall a :: a in p.attempts ==> ClaimedOldest(a))
            && Settled(Tick(r, turns, works))
  {
    var start, p := Progress(r, [], []), Attempted(r, turns, works);
    forall j ensures RowInv(start, j) {}
    RoundsKeep(start, turns, works);
    var t := Tick(r, turns, works);
    FindAllReleased(p.rail.rows, p.failed, 0);
    forall j ensures var x := Find(t.rows, j);
                     x.Some? && !x.value.delivered && x.value.kind != Learning ==> !x.value.claimed
    {
      FindAllReleased(p.rail.rows, p.failed, j);
      assert RowInv(p, j);
    }
  }

  /** What becomes of one row of a queue over a tick, while its session does not end. */
  ghost predicate Accounted(x: Row, p: Progress, works: set<RowId>) {
    var y := Find(p.rail.rows, x.id);
    && y.Some? && y.value == x.(claimed := y.value.claimed, delivered := y.value.delivered)
    && y.value.delivered == (x.delivered || (x.id in AttemptIds(p.attempts) && x.id in works))
  }

  ghost predicate SessionLives(turns: seq<Turn>, s: SessionId) {
    forall t :: t in turns ==> !Ends(t.before + t.during, s)
  }

  lemma RoundAccounts(x: Row, p: Progress, t: Turn, works: set<RowId>)
    requires TickInv(p) && Accounted(x, p, works) && x.id < p.rail.nextId
    requires !Ends(t.before + t.during, x.target) && Claims(p.rail, t)
    ensures Accounted(x, Round(p, t, works), works)
  {
    var row, ids := Picked(p, t), AttemptIds(p.attempts);
    RoundRow(p, t, works, x.id);
    AttemptsAppend(p.attempts, Attempt(row, Source(p, t)));
    assert x.id in ids + [row.id] <==> x.id in ids || x.id == row.id;
    if x.id == row.id {
      PickedIsNew(p, t);
      Disturbs(p.rail, t.before, x.id);
      assert Find(Source(p, t).rows, x.id) == Find(p.rail.rows, x.id);
    }
  }

  lemma {:induction false} RoundsAccount(x: Row, p: Progress, turns: seq<Turn>, works: set<RowId>)
    requires TickInv(p) && Accounted(x, p, works) && SessionLives(turns, x.target) && x.id < p.rail.nextId
    ensures Accounted(x, Rounds(p, turns, works), works)
    decreases |turns|
  {
    if turns != [] {
      var t := turns[0];
      assert t in turns;
      if Claims(p.rail, t) {
        RoundRow(p, t, works, x.id);
        RoundKeeps(p, t, works);
        RoundAccounts(x, p, t, works);
        RoundsAccount(x, Round(p, t, works), turns[1..], works);
      } else {
        Disturbs(p.rail, t.before, x.id);
        assert Ends(t.before, x.target) ==> Ends(t.before + t.during, x.target);
      }
    }
  }

  /** Conservation: a row whose session does not end during the tick is still
      there afterwards, unchanged but for its claim, and it is delivered exactly
      if it was already or this tick attempted it and the delivery worked. */
  lemma TickConserves(r: Rail, turns: seq<Turn>, works: set<RowId>, x: Row)
    requires Settled(r) && Find(r.rows, x.id) == Some(x) && SessionLives(turns, x.target)
    ensures var y := Find(Tick(r, turns, works).rows, x.id);
            && y.Some? && y.value == x.(claimed := y.value.claimed, delivered := y.value.delivered)
            && y.value.delivered ==
                 (x.delivered || (x.id in AttemptIds(Attempted(r, turns, works).attempts) && x.id in works))
  {
    var start, p := Progress(r, [], []), Attempted(r, turns, works);
    forall j ensures RowInv(start, j) {}
    var i :| 0 <= i < |r.rows| && r.rows[i] == x;
    assert Accounted(x, start, works);
    RoundsAccount(x, start, turns, works);
    FindAllReleased(p.rail.rows, p.failed, x.id);
  }
}
