/** A tick with nobody else about: a walk through the eligible rows by age. */
module RailAlone {
  import opened Options
  import opened BackgroundRail
  import opened RailProperties
  import Sets

  const QUIET := Turn([], false, [])

  function QuietTurns(n: nat): seq<Turn> {
    seq(n, _ => QUIET)
  }

  /** Older, or as old and inserted first. */
  predicate Before(a: Row, b: Row) {
    a.createdAt < b.createdAt || (a.createdAt == b.createdAt && a.id < b.id)
  }

  /** What the rail may deliver now. */
  function Pool(r: Rail): set<Row> {
    set x | x in r.rows && !x.delivered && !x.claimed && x.kind != Learning && x.target in r.idle
  }

  /** The rows attempted after the first `n` attempts, in order. */
  function Since(attempts: seq<Attempt>, n: nat): seq<Row>
    requires n <= |attempts|
  {
    seq(|attempts| - n, i requires 0 <= i < |attempts| - n => attempts[n + i].row)
  }

  function Attempted1(x: Row, works: set<RowId>): Row {
    x.(claimed := true, delivered := x.id in works)
  }

  function Min(a: nat, b: nat): nat { if a < b then a else b }

  /** Delivering `a` makes the target `b` shares with it busy: only a delegation
      outcome with an origin run does without a turn of its target. */
  predicate Blocks(a: Row, b: Row, works: set<RowId>) {
    a.id in works && a.target == b.target && (a.kind == Delegation ==> a.origin == None)
  }

  /** `picked` is what a walk through the pool from the oldest on picks when it
      skips the rows whose target an earlier pick made busy and stops after `n`:
      any row not picked was skipped, or comes after a full `picked`. */
  ghost predicate WalkOf(picked: seq<Row>, pool: set<Row>, n: nat, works: set<RowId>) {
    && |picked| <= n
    && (forall x :: x in picked ==> x in pool)
    && (forall i, j :: 0 <= i < j < |picked| ==> Before(picked[i], picked[j]) && !Blocks(picked[i], picked[j], works))
    && (forall y :: y in pool && y !in picked ==> Skipped(picked, y, works) || Late(picked, y, n))
  }

  ghost predicate Skipped(picked: seq<Row>, y: Row, works: set<RowId>) {
    exists x :: x in picked && Before(x, y) && Blocks(x, y, works)
  }

  ghost predicate Late(picked: seq<Row>, y: Row, n: nat) {
    |picked| == n && forall x :: x in picked ==> Before(x, y)
  }

  /** `picked` are the first `n` rows of the pool in age order. */
  ghost predicate FirstOf(picked: seq<Row>, pool: set<Row>, n: nat) {
    && |picked| == Min(n, |pool|)
    && (forall x :: x in picked ==> x in pool)
    && (forall i, j :: 0 <= i < j < |picked| ==> Before(picked[i], picked[j]))
    && (forall x, y :: x in picked && y in pool && y !in picked ==> Before(x, y))
  }

  /** What is left to pick from once `row` has been attempted. */
  function Remaining(pool: set<Row>, row: Row, works: set<RowId>): set<Row> {
    set x | x in pool && x != row && !Blocks(row, x, works)
  }

  lemma PoolAfter(r: Rail, s: Rail, k: nat, works: set<RowId>)
    requires Ids(r) && k < |r.rows| && r.rows[k] in Pool(r)
    requires s.rows == r.rows[k := Attempted1(r.rows[k], works)]
    requires s.idle == if r.rows[k].id in works && AsUserTurn(r.rows[k]) then r.idle - {r.rows[k].target} else r.idle
    ensures Pool(s) == Remaining(Pool(r), r.rows[k], works)
  {
    var row := r.rows[k];
    forall x ensures x in Pool(s) <==> x in Remaining(Pool(r), row, works) {
      if x in Pool(s) {
        var i :| 0 <= i < |s.rows| && s.rows[i] == x;
        assert i != k;
        assert r.rows[i] == x;
        assert r.rows[i].id != row.id;
      }
      if x in Remaining(Pool(r), row, works) {
        var i :| 0 <= i < |r.rows| && r.rows[i] == x;
        assert s.rows[i] == x;
      }
    }
  }

  /** A quiet round, on the list of rows. */
  lemma QuietRoundRows(p: Progress, works: set<RowId>)
    requires Ids(p.rail) && Claims(p.rail, QUIET)
    ensures var q, r, row := Round(p, QUIET, works), p.rail, Picked(p, QUIET);
            var k := Oldest(r.rows, r.idle).value;
            && row == r.rows[k] && Source(p, QUIET) == r
            && q.rail.rows == r.rows[k := Attempted1(row, works)]
            && q.rail.idle == (if row.id in works && AsUserTurn(row) then r.idle - {row.target} else r.idle)
            && q.rail.nextId == r.nextId
            && q.failed == (if row.id in works then p.failed else p.failed + [row.id])
            && q.attempts == p.attempts + [Attempt(row, r)]
  {
    var r := p.rail;
    assert DisturbAll(r, []) == r;
    var k := Oldest(r.rows, r.idle).value;
    var claimed := r.(rows := Claim(r.rows, k));
    assert DisturbAll(claimed, []) == claimed
        && DisturbAll(Deliver(claimed, r.rows[k]), []) == Deliver(claimed, r.rows[k]);
    forall i | 0 <= i < |r.rows| && i != k ensures r.rows[i].id != r.rows[k].id {}
    assert MarkDelivered(claimed.rows, r.rows[k].id) == r.rows[k := r.rows[k].(claimed := true, delivered := true)];
  }

  lemma QuietRound(p: Progress, works: set<RowId>)
    requires Ids(p.rail) && Claims(p.rail, QUIET)
    ensures var q, row := Round(p, QUIET, works), Picked(p, QUIET);
            && Ids(q.rail)
            && row in Pool(p.rail) && Pool(q.rail) == Remaining(Pool(p.rail), row, works)
            && (forall y :: y in Pool(p.rail) && y != row ==> Before(row, y))
            && |q.rail.rows| == |p.rail.rows| && q.rail.nextId == p.rail.nextId
            && (forall i :: 0 <= i < |p.rail.rows| ==>
                  q.rail.rows[i] == if p.rail.rows[i] == row then Attempted1(row, works) else p.rail.rows[i])
            && q.failed == (if row.id in works then p.failed else p.failed + [row.id])
            && q.attempts == p.attempts + [Attempt(row, p.rail)]
  {
    var r := p.rail;
    var k := Oldest(r.rows, r.idle).value;
    QuietRoundRows(p, works);
    PoolAfter(r, Round(p, QUIET, works).rail, k, works);
    OldestIsFirst(r);
  }

  lemma OldestIsFirst(r: Rail)
    requires Ids(r) && Oldest(r.rows, r.idle).Some?
    ensures var row := r.rows[Oldest(r.rows, r.idle).value];
            row in Pool(r) && forall y :: y in Pool(r) && y != row ==> Before(row, y)
  {
    var row := r.rows[Oldest(r.rows, r.idle).value];
    forall y | y in Pool(r) && y != row ensures Before(row, y) {
      var i :| 0 <= i < |r.rows| && r.rows[i] == y;
    }
  }

  /** Where `n` quiet rounds lead. */
  ghost predicate QuietlyDone(p: Progress, q: Progress, n: nat, works: set<RowId>) {
    && p.attempts <= q.attempts
    && WalkOf(Since(q.attempts, |p.attempts|), Pool(p.rail), n, works)
    && |q.rail.rows| == |p.rail.rows| && q.rail.nextId == p.rail.nextId
    && (forall i :: 0 <= i < |p.rail.rows| ==>
          q.rail.rows[i] == if p.rail.rows[i] in Since(q.attempts, |p.attempts|)
                            then Attempted1(p.rail.rows[i], works) else p.rail.rows[i])
    && (forall j :: j in q.failed <==>
          j in p.failed || (j !in works && exists x :: x in Since(q.attempts, |p.attempts|) && x.id == j))
  }

  lemma QuietRoundFirst(p: Progress, q: Progress, n: nat, works: set<RowId>)
    requires n > 0 && Ids(p.rail) && Claims(p.rail, QUIET) && QuietlyDone(Round(p, QUIET, works), q, n - 1, works)
    ensures QuietlyDone(p, q, n, works)
  {
    var m, row := Round(p, QUIET, works), Picked(p, QUIET);
    QuietRound(p, works);
    SinceConses(p, m, q, row);
    WalkConses(Pool(p.rail), row, Since(q.attempts, |m.attempts|), n, works);
  }

  lemma QuietStop(p: Progress, n: nat, works: set<RowId>)
    requires n == 0 || !Claims(p.rail, QUIET)
    ensures QuietlyDone(p, p, n, works)
  {
    assert DisturbAll(p.rail, []) == p.rail;
    assert Since(p.attempts, |p.attempts|) == [];
    if n > 0 { assert Pool(p.rail) == {}; }
  }

  lemma {:induction false} QuietRounds(p: Progress, n: nat, works: set<RowId>)
    requires Ids(p.rail)
    ensures QuietlyDone(p, Rounds(p, QuietTurns(n), works), n, works)
    decreases n
  {
    assert DisturbAll(p.rail, []) == p.rail;
    if n > 0 && Claims(p.rail, QUIET) {
      assert QuietTurns(n)[0] == QUIET && QuietTurns(n)[1..] == QuietTurns(n - 1);
      QuietRound(p, works);
      QuietRounds(Round(p, QUIET, works), n - 1, works);
      QuietRoundFirst(p, Rounds(p, QuietTurns(n), works), n, works);
    } else {
      QuietStop(p, n, works);
    }
  }

  lemma SinceConses(p: Progress, m: Progress, q: Progress, row: Row)
    requires m.attempts == p.attempts + [Attempt(row, p.rail)] && m.attempts <= q.attempts
    ensures Since(q.attempts, |p.attempts|) == [row] + Since(q.attempts, |m.attempts|)
  {
    assert q.attempts[|p.attempts|] == m.attempts[|p.attempts|];
  }

  /** The oldest row goes in front of the walk through what it leaves. */
  lemma WalkConses(pool: set<Row>, row: Row, rest: seq<Row>, n: nat, works: set<RowId>)
    requires n > 0 && row in pool && forall y :: y in pool && y != row ==> Before(row, y)
    requires WalkOf(rest, Remaining(pool, row, works), n - 1, works)
    ensures WalkOf([row] + rest, pool, n, works) && row !in rest
  {
    var all := [row] + rest;
    forall i, j | 0 <= i < j < |all| ensures Before(all[i], all[j]) && !Blocks(all[i], all[j], works) {
      assert all[j] == rest[j - 1];
      assert rest[j - 1] in rest;
    }
    forall y | y in pool && y !in all ensures Skipped(all, y, works) || Late(all, y, n) {
      if Blocks(row, y, works) {
        assert row in all && Before(row, y);
      } else if Skipped(rest, y, works) {
        var x :| x in rest && Before(x, y) && Blocks(x, y, works);
        assert x in all;
      }
    }
  }

  /** Left alone, a tick attempts what the walk picks, in that order; it marks
      delivered those that worked and leaves every other row as it was. */
  lemma TickAlone(r: Rail, works: set<RowId>)
    requires Settled(r)
    ensures var picked := Since(Attempted(r, QuietTurns(MAX_PER_TICK), works).attempts, 0);
            var t := Tick(r, QuietTurns(MAX_PER_TICK), works);
            && WalkOf(picked, Pool(r), MAX_PER_TICK, works)
            && |t.rows| == |r.rows|
            && (forall i :: 0 <= i < |r.rows| ==>
                  t.rows[i] == if r.rows[i] in picked && r.rows[i].id in works
                               then r.rows[i].(claimed := true, delivered := true) else r.rows[i])
  {
    var start := Progress(r, [], []);
    QuietRounds(start, MAX_PER_TICK, works);
    var q := Attempted(r, QuietTurns(MAX_PER_TICK), works);
    var picked := Since(q.attempts, 0);
    var t := Tick(r, QuietTurns(MAX_PER_TICK), works);
    FindAllReleased(q.rail.rows, q.failed, 0);
    forall i | 0 <= i < |r.rows|
      ensures t.rows[i] == if r.rows[i] in picked && r.rows[i].id in works
                           then r.rows[i].(claimed := true, delivered := true) else r.rows[i]
    {
      ReleasedAt(q.rail.rows, q.failed, i);
      var x := r.rows[i];
      if x.id in q.failed {
        var y :| y in picked && y.id == x.id;
        var j :| 0 <= j < |r.rows| && r.rows[j] == y;
        assert i == j;
      }
    }
  }

  /** The walk is the first `n` rows by age exactly when none of those shares
      its target with an older one of them that a user turn makes busy. */
  lemma WalkIsFirst(picked: seq<Row>, first: seq<Row>, pool: set<Row>, n: nat, works: set<RowId>)
    requires WalkOf(picked, pool, n, works) && FirstOf(first, pool, n)
    ensures picked == first <==> forall i, j :: 0 <= i < j < |first| ==> !Blocks(first[i], first[j], works)
  {
    if forall i, j :: 0 <= i < j < |first| ==> !Blocks(first[i], first[j], works) {
      FirstIsWalk(first, pool, n, works);
      WalkIsUnique(picked, first, pool, n, works, 0);
    }
  }

  lemma FirstIsWalk(first: seq<Row>, pool: set<Row>, n: nat, works: set<RowId>)
    requires FirstOf(first, pool, n) && forall i, j :: 0 <= i < j < |first| ==> !Blocks(first[i], first[j], works)
    ensures WalkOf(first, pool, n, works)
  {
    if |pool| < n {
      AllPicked(first, pool);
    }
  }

  lemma {:induction false} SeqSet(s: seq<Row>)
    requires forall i, j :: 0 <= i < j < |s| ==> s[i] != s[j]
    ensures |set x | x in s| == |s|
  {
    if s != [] {
      var init, last := s[..|s| - 1], s[|s| - 1];
      SeqSet(init);
      assert s == init + [last];
      assert (set x | x in s) == (set x | x in init) + {last};
    } else {
      assert (set x | x in s) == {};
    }
  }

  lemma AllPicked(first: seq<Row>, pool: set<Row>)
    requires |first| == |pool| && (forall x :: x in first ==> x in pool)
    requires forall i, j :: 0 <= i < j < |first| ==> Before(first[i], first[j])
    ensures forall y :: y in pool ==> y in first
  {
    SeqSet(first);
    Sets.FullSubset((set x | x in first), pool);
  }

  /** Two walks agree from position `k` on if they agree before it. */
  lemma {:induction false} WalkIsUnique(a: seq<Row>, b: seq<Row>, pool: set<Row>, n: nat, works: set<RowId>, k: nat)
    requires WalkOf(a, pool, n, works) && WalkOf(b, pool, n, works)
    requires k <= |a| && k <= |b| && a[..k] == b[..k]
    ensures a == b
    decreases |a| - k
  {
    if k < |a| {
      NextIsSame(a, b, pool, n, works, k);
      NextIsSame(b, a, pool, n, works, k);
      assert a[..k + 1] == a[..k] + [a[k]] && b[..k + 1] == b[..k] + [b[k]];
      WalkIsUnique(a, b, pool, n, works, k + 1);
    } else {
      assert b[..k] == a;
      NothingFollows(b, a, pool, n, works);
      assert b[..|b|] == b;
    }
  }

  /** A walk that agrees with all of another is no longer than it. */
  lemma NothingFollows(a: seq<Row>, b: seq<Row>, pool: set<Row>, n: nat, works: set<RowId>)
    requires WalkOf(a, pool, n, works) && WalkOf(b, pool, n, works) && |b| <= |a| && a[..|b|] == b
    ensures |a| == |b|
  {
    if |b| < |a| { NextIsSame(a, b, pool, n, works, |b|); }
  }

  /** A row younger than the first `k` picks and blocked by none of them: the
      next pick is no younger, unless the walk is full. */
  lemma NextIsNoYounger(b: seq<Row>, y: Row, pool: set<Row>, n: nat, works: set<RowId>, k: nat)
    requires WalkOf(b, pool, n, works) && y in pool && k <= |b|
    requires forall i :: 0 <= i < k ==> Before(b[i], y) && !Blocks(b[i], y, works)
    ensures if k < |b| then b[k] == y || Before(b[k], y) else k == n
  {
    if y in b {
      var j :| 0 <= j < |b| && b[j] == y;
      assert j >= k;
    } else if Skipped(b, y, works) {
      var x :| x in b && Before(x, y) && Blocks(x, y, works);
      var j :| 0 <= j < |b| && b[j] == x;
      assert j >= k;
    } else {
      assert Late(b, y, n);
      assert k < |b| ==> b[k] in b;
    }
  }

  /** The next row of one walk is no older than the next row of the other. */
  lemma NextIsSame(a: seq<Row>, b: seq<Row>, pool: set<Row>, n: nat, works: set<RowId>, k: nat)
    requires WalkOf(a, pool, n, works) && WalkOf(b, pool, n, works)
    requires k < |a| && k <= |b| && a[..k] == b[..k]
    ensures k < |b| && (a[k] == b[k] || Before(b[k], a[k]))
  {
    forall i | 0 <= i < k ensures b[i] == a[i] && Before(b[i], a[k]) && !Blocks(b[i], a[k], works) {
      assert a[..k][i] == b[..k][i];
    }
    assert a[k] in a;
    NextIsNoYounger(b, a[k], pool, n, works, k);
  }

  lemma {:induction false} ReleasedAt(rows: seq<Row>, ids: seq<RowId>, i: nat)
    requires i < |rows|
    ensures |ReleaseAll(rows, ids)| == |rows|
    ensures ReleaseAll(rows, ids)[i] ==
            if rows[i].id in ids && !rows[i].delivered then rows[i].(claimed := false) else rows[i]
  {
    if ids != [] {
      var init := ids[..|ids| - 1];
      ReleasedAt(rows, init, i);
      assert ids == init + [ids[|ids| - 1]];
    }
  }

  /** A quiet tick attempts the eight oldest eligible rows exactly when none of
      them shares its target with an older one of them that a user turn makes busy. */
  lemma QuietTickTakesTheOldest(r: Rail, first: seq<Row>, works: set<RowId>)
    requires Settled(r) && FirstOf(first, Pool(r), MAX_PER_TICK)
    ensures Since(Attempted(r, QuietTurns(MAX_PER_TICK), works).attempts, 0) == first
            <==> forall i, j :: 0 <= i < j < |first| ==> !Blocks(first[i], first[j], works)
  {
    TickAlone(r, works);
    WalkIsFirst(Since(Attempted(r, QuietTurns(MAX_PER_TICK), works).attempts, 0), first, Pool(r), MAX_PER_TICK, works);
  }

  const ELDER := Row(0, 5, None, OtherKind, 0, false, false)
  const YOUNGER := Row(1, 5, None, OtherKind, 1, false, false)

  /** Two eligible rows on one idle target, a budget of eight, and every delivery
      works: the tick attempts only the elder. */
  lemma SharedTargetIsSkipped()
    ensures var r := Rail([ELDER, YOUNGER], {5}, 2);
            && FirstOf([ELDER, YOUNGER], Pool(r), MAX_PER_TICK)
            && Since(Attempted(r, QuietTurns(MAX_PER_TICK), {0, 1}).attempts, 0) == [ELDER]
  {
    var r := Rail([ELDER, YOUNGER], {5}, 2);
    assert Pool(r) == {ELDER, YOUNGER};
    TickAlone(r, {0, 1});
    assert Blocks(ELDER, YOUNGER, {0, 1});
    assert WalkOf([ELDER], Pool(r), MAX_PER_TICK, {0, 1}) by {
      assert ELDER in [ELDER];
    }
    WalkIsUnique(Since(Attempted(r, QuietTurns(MAX_PER_TICK), {0, 1}).attempts, 0), [ELDER], Pool(r), MAX_PER_TICK,
                 {0, 1}, 0);
  }
}
