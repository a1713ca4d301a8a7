/** The background rail: a durable queue of finished background work, drained
    a few rows per tick into idle sessions. Everything the rest of the daemon
    may do to the queue while a tick waits is an explicit input. */
module BackgroundRail {
  import opened Options

  type RowId = nat
  type SessionId = nat

  datatype Kind = Learning | Delegation | OtherKind

  datatype Row = Row(id: RowId, target: SessionId, origin: Option<nat>, kind: Kind, createdAt: int,
                     claimed: bool, delivered: bool)

  /** The queue table in insertion order, the sessions whose status is idle,
      and the next row id. */
  datatype Rail = Rail(rows: seq<Row>, idle: set<SessionId>, nextId: RowId)

  /** At most this many rows are attempted per tick. */
  const MAX_PER_TICK: nat := 8

  /** What others do to the queue and the sessions. Ending a session removes
      its pending rows. */
  datatype Interference =
    | Enqueue(target: SessionId, origin: Option<nat>, kind: Kind, createdAt: int)
    | BecomesIdle(session: SessionId)
    | BecomesBusy(session: SessionId)
    | EndSession(session: SessionId)

  /** The outside world during one round of a tick: what happens before the
      claim, whether the claim's database call fails, and what happens between
      the claim and the row being settled. */
  datatype Turn = Turn(before: seq<Interference>, claimFails: bool, during: seq<Interference>)

  /** One attempt: the row as claimed, and the queue it was claimed from. */
  datatype Attempt = Attempt(row: Row, from: Rail)

  datatype Progress = Progress(rail: Rail, failed: seq<RowId>, attempts: seq<Attempt>)

  predicate Eligible(row: Row, idle: set<SessionId>) {
    !row.delivered && !row.claimed && row.kind != Learning && row.target in idle
  }

  /** The oldest eligible row; among equals in age, the first inserted. */
  function Oldest(rows: seq<Row>, idle: set<SessionId>): (r: Option<nat>)
    ensures r.Some? ==>
              && r.value < |rows| && Eligible(rows[r.value], idle)
              && (forall i :: 0 <= i < |rows| && Eligible(rows[i], idle) ==>
                  rows[r.value].createdAt <= rows[i].createdAt)
              && (forall i :: 0 <= i < r.value && Eligible(rows[i], idle) ==>
                  rows[r.value].createdAt < rows[i].createdAt)
    ensures r.None? ==> forall i :: 0 <= i < |rows| ==> !Eligible(rows[i], idle)
  {
    if rows == [] then None
    else
      var n := |rows| - 1;
      var rest := Oldest(rows[..n], idle);
      if Eligible(rows[n], idle) && (rest.None? || rows[n].createdAt < rows[rest.value].createdAt) then Some(n)
      else rest
  }

  function Claim(rows: seq<Row>, k: nat): seq<Row>
    requires k < |rows|
  {
    rows[k := rows[k].(claimed := true)]
  }

  function MarkDelivered(rows: seq<Row>, id: RowId): seq<Row> {
    seq(|rows|, i requires 0 <= i < |rows| => if rows[i].id == id then rows[i].(delivered := true) else rows[i])
  }

  function ReleaseClaim(rows: seq<Row>, id: RowId): seq<Row> {
    seq(|rows|, i requires 0 <= i < |rows| =>
      if rows[i].id == id && !rows[i].delivered then rows[i].(claimed := false) else rows[i])
  }

  function ReleaseAll(rows: seq<Row>, ids: seq<RowId>): seq<Row> {
    if ids == [] then rows else ReleaseClaim(ReleaseAll(rows, ids[..|ids| - 1]), ids[|ids| - 1])
  }

  function WithoutPending(rows: seq<Row>, session: SessionId): seq<Row> {
    if rows == [] then []
    else
      var rest := WithoutPending(rows[..|rows| - 1], session);
      var last := rows[|rows| - 1];
      if last.target == session && !last.delivered then rest else rest + [last]
  }

  function Disturb(r: Rail, e: Interference): Rail {
    match e
    case Enqueue(target, origin, kind, createdAt) =>
      r.(rows := r.rows + [Row(r.nextId, target, origin, kind, createdAt, false, false)], nextId := r.nextId + 1)
    case BecomesIdle(s) => r.(idle := r.idle + {s})
    case BecomesBusy(s) => r.(idle := r.idle - {s})
    case EndSession(s) => Rail(WithoutPending(r.rows, s), r.idle - {s}, r.nextId)
  }

  function DisturbAll(r: Rail, es: seq<Interference>): Rail {
    if es == [] then r else Disturb(DisturbAll(r, es[..|es| - 1]), es[|es| - 1])
  }

  /** A delegation outcome with an origin run is attached to that run; every
      other row is delivered as a user turn, which makes its target busy. */
  predicate AsUserTurn(row: Row) {
    !(row.kind == Delegation && row.origin.Some?)
  }

  /** The delivery itself, for a row that `works`. */
  function Deliver(r: Rail, row: Row): Rail {
    if AsUserTurn(row) then r.(idle := r.idle - {row.target}) else r
  }

  /** Whether a round finds something to claim. */
  predicate Claims(r: Rail, turn: Turn) {
    !turn.claimFails && Oldest(DisturbAll(r, turn.before).rows, DisturbAll(r, turn.before).idle).Some?
  }

  /** One round: claim the oldest eligible row, deliver it, and either mark it
      delivered or set its claim aside for release. `works` holds the rows
      whose delivery succeeds during this tick. */
  function Round(p: Progress, turn: Turn, works: set<RowId>): Progress
    requires Claims(p.rail, turn)
  {
    var r := DisturbAll(p.rail, turn.before);
    var k := Oldest(r.rows, r.idle).value;
    var row := r.rows[k];
    var claimed := r.(rows := Claim(r.rows, k));
    var attempts := p.attempts + [Attempt(row, r)];
    if row.id in works then
      var d := DisturbAll(Deliver(claimed, row), turn.during);
      Progress(d.(rows := MarkDelivered(d.rows, row.id)), p.failed, attempts)
    else
      Progress(DisturbAll(claimed, turn.during), p.failed + [row.id], attempts)
  }

  /** The claim-and-deliver loop; it stops early when nothing can be claimed. */
  function Rounds(p: Progress, turns: seq<Turn>, works: set<RowId>): Progress
    decreases |turns|
  {
    if turns == [] then p
    else if Claims(p.rail, turns[0]) then Rounds(Round(p, turns[0], works), turns[1..], works)
    else p.(rail := DisturbAll(p.rail, turns[0].before))
  }

  function Attempted(r: Rail, turns: seq<Turn>, works: set<RowId>): Progress {
    Rounds(Progress(r, [], []), turns, works)
  }

  function Tick(r: Rail, turns: seq<Turn>, works: set<RowId>): Rail {
    var p := Attempted(r, turns, works);
    p.rail.(rows := ReleaseAll(p.rail.rows, p.failed))
  }

  class Store {
    var rows: seq<Row>
    var idle: set<SessionId>
    var nextId: RowId

    ghost function View(): Rail
      reads this
    {
      Rail(rows, idle, nextId)
    }

    /** One transaction: find the oldest eligible row and claim it. */
    method ClaimDeliverable() returns (event: Option<Row>)
      modifies this`rows
      ensures event.Some? == Oldest(old(rows), idle).Some?
      ensures event.None? ==>
                && rows == old(rows)
                && forall x :: x in rows ==> x.delivered || x.claimed || x.kind == Learning || x.target !in idle
      ensures event.Some? ==>
                var e := event.value;
                && !e.delivered && !e.claimed && e.kind != Learning && e.target in idle
                && forall x ::
                     x in old(rows) && !x.delivered && !x.claimed && x.kind != Learning && x.target in idle ==>
                       e.createdAt <= x.createdAt
      ensures event.Some? ==>
                var k := Oldest(old(rows), idle).value;
                event.value == old(rows)[k] && rows == Claim(old(rows), k)
    {
      var best: Option<nat> := None;
      for i := 0 to |rows|
        invariant best == Oldest(rows[..i], idle)
      {
        assert rows[..i + 1][..i] == rows[..i];
        if Eligible(rows[i], idle) && (best.None? || rows[i].createdAt < rows[best.value].createdAt) {
          best := Some(i);
        }
      }
      assert rows[..|rows|] == rows;
      if best.None? { return None; }
      event := Some(rows[best.value]);
      rows := rows[best.value := rows[best.value].(claimed := true)];
    }

    method MarkBackgroundDelivered(id: RowId)
      modifies this`rows
      ensures rows == MarkDelivered(old(rows), id)
    {
      rows := seq(|rows|, i requires 0 <= i < |rows| reads this`rows =>
        if rows[i].id == id then rows[i].(delivered := true) else rows[i]);
    }

    method ReleaseBackgroundClaim(id: RowId)
      modifies this`rows
      ensures rows == ReleaseClaim(old(rows), id)
    {
      rows := seq(|rows|, i requires 0 <= i < |rows| reads this`rows =>
        if rows[i].id == id && !rows[i].delivered then rows[i].(claimed := false) else rows[i]);
    }

    /** Others run while the tick awaits. */
    method Await(es: seq<Interference>)
      modifies this
      ensures View() == DisturbAll(old(View()), es)
    {
      var r := DisturbAll(Rail(rows, idle, nextId), es);
      rows, idle, nextId := r.rows, r.idle, r.nextId;
    }

    /** One round; `event` is the row attempted, None when the tick must stop. */
    method RunRound(turn: Turn, works: set<RowId>, ghost failed: seq<RowId>, ghost attempts: seq<Attempt>)
      returns (event: Option<Row>, ok: bool)
      modifies this
      ensures event.Some? == Claims(old(View()), turn)
      ensures event.None? ==> View() == DisturbAll(old(View()), turn.before)
      ensures event.Some? ==>
                Round(Progress(old(View()), failed, attempts), turn, works)
                == Progress(View(), if ok then failed else failed + [event.value.id],
                            attempts + [Attempt(event.value, DisturbAll(old(View()), turn.before))])
    {
      Await(turn.before);
      event, ok := None, false;
      if !turn.claimFails { event := ClaimDeliverable(); }
      if event.None? { return; }
      ok := event.value.id in works;
      if ok {
        if AsUserTurn(event.value) { idle := idle - {event.value.target}; }
        Await(turn.during);
        MarkBackgroundDelivered(event.value.id);
      } else {
        Await(turn.during);
      }
    }

    method ReleaseFailures(failed: seq<RowId>)
      modifies this`rows
      ensures rows == ReleaseAll(old(rows), failed)
    {
      for j := 0 to |failed|
        invariant rows == ReleaseAll(old(rows), failed[..j])
      {
        assert failed[..j + 1][..j] == failed[..j];
        ReleaseBackgroundClaim(failed[j]);
      }
      assert failed[..|failed|] == failed;
    }

    method DrainTick(turns: seq<Turn>, works: set<RowId>)
      requires |turns| == 8
      modifies this
      ensures View() == Tick(old(View()), turns, works)
    {
      var failed: seq<RowId> := [];
      ghost var attempts: seq<Attempt> := [];
      var i := 0;
      var draining := true;
      while draining && i < MAX_PER_TICK
        invariant i <= |turns|
        invariant draining ==>
                    Rounds(Progress(View(), failed, attempts), turns[i..], works) ==
                    Attempted(old(View()), turns, works)
        invariant !draining ==> Progress(View(), failed, attempts) == Attempted(old(View()), turns, works)
        decreases draining, MAX_PER_TICK - i
      {
        assert turns[i..][0] == turns[i] && turns[i..][1..] == turns[i + 1..];
        ghost var r := DisturbAll(View(), turns[i].before);
        var event, ok := RunRound(turns[i], works, failed, attempts);
        if event.None? {
          draining := false;
        } else {
          attempts := attempts + [Attempt(event.value, r)];
          if !ok { failed := failed + [event.value.id]; }
          i := i + 1;
        }
      }
      assert turns[|turns|..] == [];
      ReleaseFailures(failed);
    }
  }
}
