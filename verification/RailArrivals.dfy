/** Rows that arrive while a tick of the background rail runs are not lost. */
module RailArrivals {
  import opened Options
  import opened BackgroundRail
  import opened RailProperties

  function NewRow(e: Interference, id: RowId): Row
    requires e.Enqueue?
  {
    Row(id, e.target, e.origin, e.kind, e.createdAt, false, false)
  }

  /** The rows that were enqueued, in order, their ids left open. */
  function Arrivals(es: seq<Interference>): seq<Row> {
    if es == [] then []
    else
      var rest, last := Arrivals(es[..|es| - 1]), es[|es| - 1];
      if last.Enqueue? then rest + [NewRow(last, 0)] else rest
  }

  lemma {:induction false} ArrivalsJoin(a: seq<Interference>, b: seq<Interference>)
    ensures Arrivals(a + b) == Arrivals(a) + Arrivals(b)
  {
    if b == [] {
      assert a + b == a;
    } else {
      ArrivalsJoin(a, b[..|b| - 1]);
      assert (a + b)[..|a + b| - 1] == a + b[..|b| - 1];
    }
  }

  /** The i-th arrival, with the id it gets on this rail. */
  function Arrival(r: Rail, es: seq<Interference>, i: nat): Row
    requires i < |Arrivals(es)|
  {
    Arrivals(es)[i].(id := r.nextId + i)
  }

  lemma FindAppended(rows: seq<Row>, row: Row)
    ensures Find(rows + [row], row.id) == Some(row)
  {
  }

  lemma ArrivalsAppend(es: seq<Interference>, e: Interference)
    ensures Arrivals(es + [e]) == if e.Enqueue? then Arrivals(es) + [NewRow(e, 0)] else Arrivals(es)
  {
    assert (es + [e])[..|es|] == es;
  }

  lemma NextArrival(m: Rail, e: Interference)
    requires e.Enqueue?
    ensures Find(Disturb(m, e).rows, m.nextId) == Some(NewRow(e, m.nextId)) && Disturb(m, e).nextId == m.nextId + 1
  {
    FindAppended(m.rows, NewRow(e, m.nextId));
  }

  lemma StaysThere(m: Rail, e: Interference, x: Row)
    requires Ids(m) && Find(m.rows, x.id) == Some(x) && x.id < m.nextId && e != EndSession(x.target)
    ensures Find(Disturb(m, e).rows, x.id) == Some(x)
  {
    DisturbsOne(m, e, x.id);
  }

  lemma NextIds(m: Rail, e: Interference)
    ensures Disturb(m, e).nextId == m.nextId + if e.Enqueue? then 1 else 0
  {
  }

  lemma EndsByNow(es: seq<Interference>, e: Interference, s: SessionId)
    ensures Ends(es + [e], s) <==> Ends(es, s) || e == EndSession(s)
  {
  }

  /** On this rail the i-th arrival is as it was enqueued, unless its session ended. */
  ghost predicate Arrived(r: Rail, d: Rail, es: seq<Interference>, i: nat) {
    i < |Arrivals(es)| && !Ends(es, Arrivals(es)[i].target) ==> Find(d.rows, r.nextId + i) == Some(Arrival(r, es, i))
  }

  lemma OldArrival(r: Rail, es: seq<Interference>, e: Interference, i: nat)
    requires i < |Arrivals(es)|
    ensures i < |Arrivals(es + [e])| && Arrivals(es + [e])[i] == Arrivals(es)[i]
    ensures Arrival(r, es + [e], i) == Arrival(r, es, i)
  {
    ArrivalsAppend(es, e);
  }

  lemma OldArrives(r: Rail, d: Rail, es: seq<Interference>, e: Interference, i: nat)
    requires i < |Arrivals(es)|
    requires !Ends(es + [e], Arrivals(es)[i].target) ==> Find(d.rows, r.nextId + i) == Some(Arrival(r, es, i))
    ensures Arrived(r, d, es + [e], i)
  {
    OldArrival(r, es, e, i);
  }

  lemma NewArrives(r: Rail, m: Rail, es: seq<Interference>, e: Interference)
    requires m.nextId == r.nextId + |Arrivals(es)|
    ensures Arrived(r, Disturb(m, e), es + [e], |Arrivals(es)|)
  {
    ArrivalsAppend(es, e);
    if e.Enqueue? { NextArrival(m, e); }
  }

  lemma ArrivesNext(r: Rail, m: Rail, es: seq<Interference>, e: Interference, i: nat)
    requires Ids(m) && m.nextId == r.nextId + |Arrivals(es)| && Arrived(r, m, es, i)
    ensures Arrived(r, Disturb(m, e), es + [e], i)
  {
    if i < |Arrivals(es)| {
      EndsByNow(es, e, Arrivals(es)[i].target);
      if !Ends(es + [e], Arrivals(es)[i].target) { StaysThere(m, e, Arrival(r, es, i)); }
      OldArrives(r, Disturb(m, e), es, e, i);
    } else if i == |Arrivals(es)| {
      NewArrives(r, m, es, e);
    } else {
      ArrivalsAppend(es, e);
    }
  }

  /** What the others enqueue gets the next ids, and is there unless its session ends. */
  lemma {:induction false} DisturbArrives(r: Rail, es: seq<Interference>, i: nat)
    requires Ids(r)
    ensures DisturbAll(r, es).nextId == r.nextId + |Arrivals(es)| && Arrived(r, DisturbAll(r, es), es, i)
  {
    if es != [] {
      var init, e := es[..|es| - 1], es[|es| - 1];
      var m := DisturbAll(r, init);
      DisturbArrives(r, init, i);
      Disturbs(r, init, 0);
      NextIds(m, e);
      ArrivalsAppend(init, e);
      ArrivesNext(r, m, init, e, i);
      assert es == init + [e];
    }
  }

  /** A session is idle by the last of the events that concern it. */
  lemma {:induction false} IdleByTheLast(r: Rail, es: seq<Interference>, s: SessionId)
    ensures s in DisturbAll(r, es).idle <==>
            if exists i :: 0 <= i < |es| && Concerns(es[i], s)
            then exists i ::
                   0 <= i < |es| && es[i] == BecomesIdle(s) && forall k :: i < k < |es| ==> !Concerns(es[k], s)
            else s in r.idle
  {
    if es != [] {
      var init, e := es[..|es| - 1], es[|es| - 1];
      IdleByTheLast(r, init, s);
      assert es == init + [e];
      if Concerns(e, s) {
        assert es[|init|] == e;
      } else if i :| && 0 <= i < |init| && init[i] == BecomesIdle(s)
                      && forall k :: i < k < |init| ==> !Concerns(init[k], s) {
        assert es[i] == BecomesIdle(s);
      }
    }
  }

  predicate Concerns(e: Interference, s: SessionId) {
    e in {BecomesIdle(s), BecomesBusy(s), EndSession(s)}
  }

  // --- one round ---

  /** What the rest of a round does to a row that was there for its claim. */
  lemma RoundFromSource(p: Progress, turn: Turn, works: set<RowId>, x: Row)
    requires Ids(p.rail) && Claims(p.rail, turn)
    requires Find(Source(p, turn).rows, x.id) == Some(x) && x.id < Source(p, turn).nextId
    requires !Ends(turn.during, x.target)
    ensures var q, row := Round(p, turn, works), Picked(p, turn);
            Find(q.rail.rows, x.id) ==
              Some(if x.id == row.id then x.(claimed := true, delivered := x.delivered || x.id in works) else x)
  {
    var r, row := Source(p, turn), Picked(p, turn);
    var k := Oldest(r.rows, r.idle).value;
    Disturbs(p.rail, turn.before, x.id);
    FindClaimed(r, k, x.id);
    var claimed, sends := r.(rows := Claim(r.rows, k)), row.id in works;
    AwaitRow(claimed, row, turn, sends, x.id);
    if sends { FindMarked(DisturbAll(Deliver(claimed, row), turn.during).rows, row.id, x.id); }
  }

  /** Rows that arrive after the claim. */
  lemma RoundArrives(p: Progress, turn: Turn, works: set<RowId>, i: nat)
    requires Ids(p.rail) && Claims(p.rail, turn)
    ensures Round(p, turn, works).rail.nextId == Source(p, turn).nextId + |Arrivals(turn.during)|
    ensures Arrived(Source(p, turn), Round(p, turn, works).rail, turn.during, i)
  {
    var r, row := Source(p, turn), Picked(p, turn);
    var claimed := r.(rows := Claim(r.rows, Oldest(r.rows, r.idle).value));
    SentHasIds(p, turn, works);
    var sent := if row.id in works then Deliver(claimed, row) else claimed;
    SentArrives(sent, turn.during, i, row.id);
    SameArrivals(sent, r, Round(p, turn, works).rail, turn.during, i);
  }

  lemma SameArrivals(a: Rail, b: Rail, d: Rail, es: seq<Interference>, i: nat)
    requires a.nextId == b.nextId && Arrived(a, d, es, i)
    ensures Arrived(b, d, es, i)
  {
  }

  /** Marking an older row leaves the arrivals alone. */
  lemma SentArrives(sent: Rail, es: seq<Interference>, i: nat, id: RowId)
    requires Ids(sent) && id < sent.nextId
    ensures DisturbAll(sent, es).nextId == sent.nextId + |Arrivals(es)|
    ensures var d := DisturbAll(sent, es);
            Arrived(sent, d, es, i) && Arrived(sent, d.(rows := MarkDelivered(d.rows, id)), es, i)
  {
    DisturbArrives(sent, es, i);
    MarkSpares(DisturbAll(sent, es).rows, id, sent.nextId + i);
  }

  lemma MarkSpares(rows: seq<Row>, id: RowId, j: RowId)
    requires j != id
    ensures Find(MarkDelivered(rows, id), j) == Find(rows, j)
  {
    FindMarked(rows, id, j);
  }

  /** Claiming and sending move no id. */
  lemma SentHasIds(p: Progress, turn: Turn, works: set<RowId>)
    requires Ids(p.rail) && Claims(p.rail, turn)
    ensures var r, row := Source(p, turn), Picked(p, turn);
            var claimed := r.(rows := Claim(r.rows, Oldest(r.rows, r.idle).value));
            var sent := if row.id in works then Deliver(claimed, row) else claimed;
            Ids(sent) && sent.nextId == r.nextId && row.id < r.nextId
  {
    var r := Source(p, turn);
    Disturbs(p.rail, turn.before, 0);
    FindClaimed(r, Oldest(r.rows, r.idle).value, 0);
  }

  // --- one tick ---

  /** Everything the others did while the tick ran. */
  ghost function Happened(p: Progress, turns: seq<Turn>, works: set<RowId>): seq<Interference>
    decreases |turns|
  {
    if turns == [] then []
    else if !Claims(p.rail, turns[0]) then turns[0].before
    else turns[0].before + turns[0].during + Happened(Round(p, turns[0], works), turns[1..], works)
  }

  /** An arrival from before a round's claim, once the round is over. */
  lemma EarlyArrival(p: Progress, turn: Turn, works: set<RowId>, i: nat)
    requires TickInv(p) && Claims(p.rail, turn) && i < |Arrivals(turn.before)|
    requires !Ends(turn.before, Arrivals(turn.before)[i].target) && !Ends(turn.during, Arrivals(turn.before)[i].target)
    ensures Accounted(Arrival(p.rail, turn.before, i), Round(p, turn, works), works)
  {
    var x := Arrival(p.rail, turn.before, i);
    DisturbArrives(p.rail, turn.before, i);
    NotYetAttempted(p, x.id);
    RoundFromSource(p, turn, works, x);
    AttemptsAppend(p.attempts, Attempt(Picked(p, turn), Source(p, turn)));
  }

  /** And one from after it. */
  lemma LateArrival(p: Progress, turn: Turn, works: set<RowId>, i: nat)
    requires TickInv(p) && Claims(p.rail, turn) && i < |Arrivals(turn.during)|
    requires !Ends(turn.during, Arrivals(turn.during)[i].target)
    ensures Accounted(Arrival(Source(p, turn), turn.during, i), Round(p, turn, works), works)
  {
    var x := Arrival(Source(p, turn), turn.during, i);
    RoundArrives(p, turn, works, i);
    Disturbs(p.rail, turn.before, 0);
    NotYetAttempted(p, x.id);
    PickedIsOlder(p, turn);
    AttemptsAppend(p.attempts, Attempt(Picked(p, turn), Source(p, turn)));
  }

  /** The arrivals of one round, once it is over. */
  lemma RoundKeepsArrivals(p: Progress, turn: Turn, works: set<RowId>, i: nat)
    requires TickInv(p) && Claims(p.rail, turn)
    ensures var es := turn.before + turn.during;
            && Round(p, turn, works).rail.nextId == p.rail.nextId + |Arrivals(es)|
            && (i < |Arrivals(es)| && !Ends(es, Arrivals(es)[i].target) ==>
                  Accounted(Arrival(p.rail, es, i), Round(p, turn, works), works))
  {
    var es, n := turn.before + turn.during, |Arrivals(turn.before)|;
    ArrivalsJoin(turn.before, turn.during);
    DisturbArrives(p.rail, turn.before, i);
    RoundArrives(p, turn, works, 0);
    EndsEither(turn);
    if i < |Arrivals(es)| && !Ends(es, Arrivals(es)[i].target) {
      if i < n {
        EarlyArrival(p, turn, works, i);
      } else {
        LateArrival(p, turn, works, i - n);
      }
    }
  }

  lemma NotYetAttempted(p: Progress, j: RowId)
    requires TickInv(p) && j >= p.rail.nextId
    ensures j !in AttemptIds(p.attempts)
  {
    assert RowInv(p, j);
  }

  lemma PickedIsOlder(p: Progress, turn: Turn)
    requires Ids(p.rail) && Claims(p.rail, turn)
    ensures Picked(p, turn).id < Source(p, turn).nextId
  {
    Disturbs(p.rail, turn.before, 0);
  }

  /** The i-th arrival is accounted for, if its session lives. */
  ghost predicate Kept(r: Rail, es: seq<Interference>, i: nat, turns: seq<Turn>, q: Progress, works: set<RowId>) {
    i < |Arrivals(es)| && SessionLives(turns, Arrivals(es)[i].target) ==> Accounted(Arrival(r, es, i), q, works)
  }

  lemma ArrivalOfFirst(r: Rail, a: seq<Interference>, b: seq<Interference>, i: nat)
    requires i < |Arrivals(a)|
    ensures i < |Arrivals(a + b)| && Arrivals(a + b)[i] == Arrivals(a)[i] && Arrival(r, a + b, i) == Arrival(r, a, i)
  {
    ArrivalsJoin(a, b);
  }

  lemma ArrivalOfSecond(r: Rail, m: Rail, a: seq<Interference>, b: seq<Interference>, i: nat)
    requires m.nextId == r.nextId + |Arrivals(a)| && |Arrivals(a)| <= i < |Arrivals(a + b)|
    ensures var k := i - |Arrivals(a)|;
            k < |Arrivals(b)| && Arrivals(a + b)[i] == Arrivals(b)[k] && Arrival(r, a + b, i) == Arrival(m, b, k)
  {
    ArrivalsJoin(a, b);
  }

  lemma LivesOn(turn: Turn, rest: seq<Turn>, s: SessionId)
    requires SessionLives([turn] + rest, s)
    ensures SessionLives(rest, s) && !Ends(turn.before + turn.during, s)
  {
    assert turn in [turn] + rest;
    forall t | t in rest ensures !Ends(t.before + t.during, s) { assert t in [turn] + rest; }
  }

  lemma NextRoundsKeep(p: Progress, turn: Turn, rest: seq<Turn>, works: set<RowId>, i: nat)
    requires TickInv(p) && Claims(p.rail, turn)
    ensures var m := Round(p, turn, works);
            var es, q := turn.before + turn.during + Happened(m, rest, works), Rounds(m, rest, works);
            q.rail.nextId == p.rail.nextId + |Arrivals(es)| && Kept(p.rail, es, i, [turn] + rest, q, works)
    decreases |rest|, 1
  {
    var m, now := Round(p, turn, works), turn.before + turn.during;
    ArrivalsJoin(now, Happened(m, rest, works));
    RoundKeeps(p, turn, works);
    RoundKeepsArrivals(p, turn, works, i);
    RoundsKeepArrivals(m, rest, works, if i < |Arrivals(now)| then 0 else i - |Arrivals(now)|);
    if i < |Arrivals(now)| {
      FirstKept(p, turn, rest, works, i);
    } else {
      SecondKept(p.rail, now, m.rail, Happened(m, rest, works), i, turn, rest, Rounds(m, rest, works), works);
    }
  }

  /** The arrivals of the first round are accounted for when the others are over. */
  lemma FirstKept(p: Progress, turn: Turn, rest: seq<Turn>, works: set<RowId>, i: nat)
    requires TickInv(p) && Claims(p.rail, turn) && i < |Arrivals(turn.before + turn.during)|
    requires var es, m := turn.before + turn.during, Round(p, turn, works);
             && TickInv(m) && m.rail.nextId == p.rail.nextId + |Arrivals(es)|
             && (!Ends(es, Arrivals(es)[i].target) ==> Accounted(Arrival(p.rail, es, i), m, works))
    ensures var m := Round(p, turn, works);
            Kept(p.rail, turn.before + turn.during + Happened(m, rest, works), i, [turn] + rest,
                 Rounds(m, rest, works), works)
  {
    var m, now := Round(p, turn, works), turn.before + turn.during;
    ArrivalOfFirst(p.rail, now, Happened(m, rest, works), i);
    if SessionLives([turn] + rest, Arrivals(now)[i].target) {
      LivesOn(turn, rest, Arrivals(now)[i].target);
      RoundsAccount(Arrival(p.rail, now, i), m, rest, works);
    }
  }

  /** And so are those that come later. */
  lemma SecondKept(r: Rail, now: seq<Interference>, m: Rail, later: seq<Interference>, i: nat, turn: Turn,
                   rest: seq<Turn>, q: Progress, works: set<RowId>)
    requires m.nextId == r.nextId + |Arrivals(now)| && i >= |Arrivals(now)|
    requires Kept(m, later, i - |Arrivals(now)|, rest, q, works)
    ensures Kept(r, now + later, i, [turn] + rest, q, works)
  {
    if i < |Arrivals(now + later)| {
      ArrivalOfSecond(r, m, now, later, i);
      if SessionLives([turn] + rest, Arrivals(now + later)[i].target) {
        LivesOn(turn, rest, Arrivals(now + later)[i].target);
      }
    }
  }

  lemma StopsKeep(p: Progress, turn: Turn, works: set<RowId>, i: nat)
    requires TickInv(p)
    ensures var q := p.(rail := DisturbAll(p.rail, turn.before));
            && q.rail.nextId == p.rail.nextId + |Arrivals(turn.before)|
            && (i < |Arrivals(turn.before)| && !Ends(turn.before, Arrivals(turn.before)[i].target) ==>
                  Accounted(Arrival(p.rail, turn.before, i), q, works))
  {
    DisturbArrives(p.rail, turn.before, i);
    NotYetAttempted(p, p.rail.nextId + i);
  }

  lemma {:induction false} RoundsKeepArrivals(p: Progress, turns: seq<Turn>, works: set<RowId>, i: nat)
    requires TickInv(p)
    ensures var es, q := Happened(p, turns, works), Rounds(p, turns, works);
            q.rail.nextId == p.rail.nextId + |Arrivals(es)| && Kept(p.rail, es, i, turns, q, works)
    decreases |turns|, 0
  {
    if turns != [] {
      var turn, rest := turns[0], turns[1..];
      assert turns == [turn] + rest;
      if Claims(p.rail, turn) {
        NextRoundsKeep(p, turn, rest, works, i);
      } else {
        StopsKeep(p, turn, works, i);
        if i < |Arrivals(turn.before)| && SessionLives(turns, Arrivals(turn.before)[i].target) {
          LivesOn(turn, rest, Arrivals(turn.before)[i].target);
          EndsEither(turn);
        }
      }
    }
  }

  lemma StartIsSound(r: Rail)
    requires Settled(r)
    ensures TickInv(Progress(r, [], []))
  {
    forall j ensures RowInv(Progress(r, [], []), j) {}
  }

  lemma {:induction false} ArrivalsAreFresh(es: seq<Interference>, i: nat)
    requires i < |Arrivals(es)|
    ensures !Arrivals(es)[i].delivered && !Arrivals(es)[i].claimed
  {
    if i < |Arrivals(es[..|es| - 1])| { ArrivalsAreFresh(es[..|es| - 1], i); }
  }

  /** What a tick leaves of a row that came as `x`. */
  ghost predicate Processed(r: Rail, turns: seq<Turn>, works: set<RowId>, x: Row) {
    var y, tried := Find(Tick(r, turns, works).rows, x.id), AttemptIds(Attempted(r, turns, works).attempts);
    && y.Some? && y.value == x.(claimed := y.value.claimed, delivered := y.value.delivered)
    && y.value.delivered == (x.id in tried && x.id in works)
  }

  /** Releasing claims at the end of the tick changes nothing else. */
  lemma ReleasedIsAccounted(r: Rail, turns: seq<Turn>, works: set<RowId>, x: Row)
    requires !x.delivered && Accounted(x, Attempted(r, turns, works), works)
    ensures Processed(r, turns, works, x)
  {
    FindAllReleased(Attempted(r, turns, works).rail.rows, Attempted(r, turns, works).failed, x.id);
  }

  /** Every row that arrives while a tick runs, and whose session does not end, is
      there when it is over, as it was enqueued, under the next id; and it is
      delivered exactly if the tick attempted it and the delivery worked. */
  lemma ArrivalsAreKept(r: Rail, turns: seq<Turn>, works: set<RowId>, i: nat)
    requires Settled(r)
    ensures var es := Happened(Progress(r, [], []), turns, works);
            && Tick(r, turns, works).nextId == r.nextId + |Arrivals(es)|
            && (i < |Arrivals(es)| && SessionLives(turns, Arrivals(es)[i].target) ==>
                  Processed(r, turns, works, Arrivals(es)[i].(id := r.nextId + i)))
  {
    var start := Progress(r, [], []);
    var es := Happened(start, turns, works);
    StartIsSound(r);
    RoundsKeepArrivals(start, turns, works, i);
    if i < |Arrivals(es)| && SessionLives(turns, Arrivals(es)[i].target) {
      ArrivalsAreFresh(es, i);
      ReleasedIsAccounted(r, turns, works, Arrival(r, es, i));
    }
  }
}
