/** No starvation: rows that keep failing cannot hold back the oldest rows that
    can be delivered, however many younger rows arrive. */
module RailFairness {
  import opened Options
  import opened BackgroundRail
  import opened RailProperties

  /** The waiting rows under watch, by id. */
  type Watch = map<RowId, Row>

  /** What happens from one tick to the next, and during the next. */
  datatype Plan = Plan(between: seq<Interference>, turns: seq<Turn>, works: set<RowId>)

  function TickAfter(r: Rail, plan: Plan): Rail {
    Tick(DisturbAll(r, plan.between), plan.turns, plan.works)
  }

  function Ticks(r: Rail, plans: seq<Plan>): Rail
    decreases |plans|
  {
    if plans == [] then r else Ticks(TickAfter(r, plans[0]), plans[1..])
  }

  ghost predicate Delivered(r: Rail, j: RowId) {
    Find(r.rows, j).Some? && Find(r.rows, j).value.delivered
  }

  /** A watched row is pending, deliverable and unclaimed, its target idle. */
  ghost predicate Waits(r: Rail, x: Row) {
    var y := Find(r.rows, x.id);
    && y.Some? && y.value.target == x.target && y.value.createdAt == x.createdAt
    && !y.value.delivered && !y.value.claimed && y.value.kind != Learning && y.value.target in r.idle
  }

  /** Every watched row waits, each on a target of its own, and any other
      pending row outside the obstacles is younger than all of them. */
  ghost predicate Ready(r: Rail, watch: Watch, obstacles: set<RowId>) {
    && Ids(r)
    && (forall k :: k in watch ==> watch[k].id == k && Waits(r, watch[k]))
    && (forall k, l :: k in watch && l in watch && k != l ==> watch[k].target != watch[l].target)
    && (forall j, k {:trigger NoOlder(r, j, watch[k])} ::
          j !in watch && j !in obstacles && k in watch ==> NoOlder(r, j, watch[k]))
  }

  /** Row `j`, if it is pending drainer work, is younger than `x`. */
  ghost predicate NoOlder(r: Rail, j: RowId, x: Row) {
    var y := Find(r.rows, j);
    y.Some? && !y.value.delivered && y.value.kind != Learning ==> x.createdAt < y.value.createdAt
  }

  /** Interference that leaves the watched targets idle and enqueues only
      younger rows. */
  ghost predicate Calm(es: seq<Interference>, watch: Watch) {
    forall k :: k in watch ==> CalmFor(es, watch[k])
  }

  /** The watched rows that are not delivered yet. */
  ghost function Pending(r: Rail, watch: Watch): Watch {
    map k | k in watch && !Delivered(r, k) :: watch[k]
  }

  /** No claim fails in the database, and each round is calm for the rows still
      undelivered when it begins. */
  ghost predicate CalmTurns(p: Progress, turns: seq<Turn>, works: set<RowId>, watch: Watch)
    decreases |turns|
  {
    turns == [] ||
    (&& !turns[0].claimFails
     && Calm(turns[0].before, Pending(p.rail, watch)) && Calm(turns[0].during, Pending(p.rail, watch))
     && (Claims(p.rail, turns[0]) ==> CalmTurns(Round(p, turns[0], works), turns[1..], works, watch)))
  }

  /** An interval and a full tick, calm for the rows still undelivered; those
      can be delivered and the obstacles cannot. */
  ghost predicate CalmPlan(r: Rail, plan: Plan, watch: Watch, obstacles: set<RowId>) {
    && Calm(plan.between, Pending(r, watch)) && |plan.turns| == MAX_PER_TICK
    && CalmTurns(Progress(DisturbAll(r, plan.between), [], []), plan.turns, plan.works, watch)
    && Pending(r, watch).Keys <= plan.works && plan.works !! obstacles
  }

  ghost predicate Within(left: Watch, watch: Watch) {
    left.Keys <= watch.Keys && forall k :: k in left ==> left[k] == watch[k]
  }

  lemma AllPending(r: Rail, watch: Watch, obstacles: set<RowId>)
    requires Ready(r, watch, obstacles)
    ensures Pending(r, watch) == watch
  {
    forall k | k in watch ensures !Delivered(r, k) {
      assert Waits(r, watch[k]);
    }
  }

  lemma CalmFewer(es: seq<Interference>, watch: Watch, fewer: Watch)
    requires Calm(es, watch) && Within(fewer, watch)
    ensures Calm(es, fewer)
  {
  }

  /** Calm for some rows is calm for fewer. */
  lemma {:induction false} CalmTurnsFewer(p: Progress, turns: seq<Turn>, works: set<RowId>, watch: Watch, fewer: Watch)
    requires CalmTurns(p, turns, works, watch) && Within(fewer, watch)
    ensures CalmTurns(p, turns, works, fewer)
    decreases |turns|
  {
    if turns != [] {
      CalmFewer(turns[0].before, Pending(p.rail, watch), Pending(p.rail, fewer));
      CalmFewer(turns[0].during, Pending(p.rail, watch), Pending(p.rail, fewer));
      if Claims(p.rail, turns[0]) {
        CalmTurnsFewer(Round(p, turns[0], works), turns[1..], works, watch, fewer);
      }
    }
  }

  lemma {:induction false} IdleKept(r: Rail, es: seq<Interference>, s: SessionId)
    requires s in r.idle && BecomesBusy(s) !in es && EndSession(s) !in es
    ensures s in DisturbAll(r, es).idle
  {
    if es != [] {
      IdleKept(r, es[..|es| - 1], s);
      assert es[|es| - 1] in es;
    }
  }

  /** Interference that spares one row's target and enqueues nothing older. */
  ghost predicate CalmFor(es: seq<Interference>, x: Row) {
    && BecomesBusy(x.target) !in es && EndSession(x.target) !in es
    && forall e :: e in es && e.Enqueue? ==> x.createdAt < e.createdAt
  }

  lemma WaitsKept(r: Rail, es: seq<Interference>, x: Row)
    requires Ids(r) && Waits(r, x) && CalmFor(es, x)
    ensures Waits(DisturbAll(r, es), x)
  {
    Disturbs(r, es, x.id);
    var y := Find(r.rows, x.id).value;
    var i :| 0 <= i < |r.rows| && r.rows[i] == y;
    IdleKept(r, es, x.target);
  }

  lemma NoOlderKept(r: Rail, es: seq<Interference>, j: RowId, x: Row)
    requires Ids(r) && NoOlder(r, j, x) && CalmFor(es, x)
    ensures NoOlder(DisturbAll(r, es), j, x)
  {
    Disturbs(r, es, j);
    if j >= r.nextId && Find(DisturbAll(r, es).rows, j).Some? {
      var y := Find(DisturbAll(r, es).rows, j).value;
      assert Enqueue(y.target, y.origin, y.kind, y.createdAt) in es;
    }
  }

  lemma CalmKeepsReady(r: Rail, es: seq<Interference>, watch: Watch, obstacles: set<RowId>)
    requires Ready(r, watch, obstacles) && Calm(es, watch)
    ensures Ready(DisturbAll(r, es), watch, obstacles)
  {
    var d := DisturbAll(r, es);
    Disturbs(r, es, 0);
    forall k | k in watch ensures Waits(d, watch[k]) {
      WaitsKept(r, es, watch[k]);
    }
    forall j, k | j !in watch && j !in obstacles && k in watch ensures NoOlder(d, j, watch[k]) {
      NoOlderKept(r, es, j, watch[k]);
    }
  }

  /** While a watched row waits, the oldest eligible row is watched or an obstacle. */
  lemma PickedWatchedOrObstacle(r: Rail, watch: Watch, obstacles: set<RowId>)
    requires Ready(r, watch, obstacles) && watch != map[]
    ensures Oldest(r.rows, r.idle).Some?
    ensures var row := r.rows[Oldest(r.rows, r.idle).value];
            && (row.id in watch || row.id in obstacles)
            && (row.id in watch ==> row.target == watch[row.id].target)
  {
    var k :| k in watch;
    assert Waits(r, watch[k]);
    var y := Find(r.rows, k).value;
    var i :| 0 <= i < |r.rows| && r.rows[i] == y;
    var n := Oldest(r.rows, r.idle).value;
    FindAt(r, n);
    var oldest := r.rows[n];
    var younger := NoOlder(r, oldest.id, watch[k]);
  }

  lemma WaitsPastClaim(r: Rail, n: nat, s: Rail, x: Row)
    requires Ids(r) && n < |r.rows| && s.rows == Claim(r.rows, n)
    requires Waits(r, x) && r.rows[n].id != x.id
    requires s.idle == r.idle || (s.idle == r.idle - {r.rows[n].target} && r.rows[n].target != x.target)
    ensures Waits(s, x)
  {
    FindClaimed(r, n, x.id);
  }

  lemma NoOlderPastClaim(r: Rail, n: nat, s: Rail, j: RowId, x: Row)
    requires Ids(r) && n < |r.rows| && s.rows == Claim(r.rows, n) && NoOlder(r, j, x)
    ensures NoOlder(s, j, x)
  {
    FindClaimed(r, n, j);
  }

  /** Claiming an obstacle, or claiming and sending a watched row, leaves the
      others waiting. */
  lemma ClaimKeepsReady(r: Rail, n: nat, sends: bool, watch: Watch, obstacles: set<RowId>)
    requires Ready(r, watch, obstacles) && n < |r.rows|
    requires sends ==> r.rows[n].id in watch && r.rows[n].target == watch[r.rows[n].id].target
    requires !sends ==> r.rows[n].id !in watch
    ensures var row := r.rows[n];
            var claimed := r.(rows := Claim(r.rows, n));
            Ready(if sends then Deliver(claimed, row) else claimed, watch - {row.id}, obstacles + {row.id})
  {
    var row := r.rows[n];
    var claimed := r.(rows := Claim(r.rows, n));
    var s := if sends then Deliver(claimed, row) else claimed;
    var rest := watch - {row.id};
    FindClaimed(r, n, 0);
    forall k | k in rest ensures rest[k].id == k && Waits(s, rest[k]) {
      assert Waits(r, watch[k]);
      assert sends ==> watch[row.id].target != watch[k].target;
      WaitsPastClaim(r, n, s, watch[k]);
    }
    forall j, k | j !in rest && j !in obstacles + {row.id} && k in rest ensures NoOlder(s, j, rest[k]) {
      assert NoOlder(r, j, watch[k]);
      NoOlderPastClaim(r, n, s, j, watch[k]);
    }
  }

  lemma PastMark(r: Rail, id: RowId, j: RowId, x: Row)
    ensures var d := r.(rows := MarkDelivered(r.rows, id));
            && (Waits(r, x) && x.id != id ==> Waits(d, x))
            && (NoOlder(r, j, x) || j == id ==> NoOlder(d, j, x))
  {
    FindMarked(r.rows, id, x.id);
    FindMarked(r.rows, id, j);
  }

  lemma MarkKeepsReady(r: Rail, id: RowId, watch: Watch, obstacles: set<RowId>)
    requires Ready(r, watch, obstacles) && id !in watch
    ensures Ready(r.(rows := MarkDelivered(r.rows, id)), watch, obstacles - {id})
  {
    var d := r.(rows := MarkDelivered(r.rows, id));
    MarkedIds(r, id);
    forall k | k in watch ensures Waits(d, watch[k]) {
      PastMark(r, id, 0, watch[k]);
    }
    forall j, k | j !in watch && j !in obstacles - {id} && k in watch ensures NoOlder(d, j, watch[k]) {
      assert j != id ==> NoOlder(r, j, watch[k]);
      PastMark(r, id, j, watch[k]);
    }
  }

  lemma ReleaseKeepsReady(r: Rail, ids: seq<RowId>, watch: Watch, obstacles: set<RowId>)
    requires Ready(r, watch, obstacles)
    ensures Ready(r.(rows := ReleaseAll(r.rows, ids)), watch, obstacles)
  {
    var d := r.(rows := ReleaseAll(r.rows, ids));
    FindAllReleased(r.rows, ids, 0);
    forall k | k in watch ensures Waits(d, watch[k]) {
      assert Waits(r, watch[k]);
      FindAllReleased(r.rows, ids, k);
    }
    forall j, k | j !in watch && j !in obstacles && k in watch ensures NoOlder(d, j, watch[k]) {
      assert NoOlder(r, j, watch[k]);
      FindAllReleased(r.rows, ids, j);
    }
  }

  // --- what is delivered stays delivered ---

  lemma DeliveredPastDisturb(r: Rail, es: seq<Interference>, j: RowId)
    requires Ids(r) && Delivered(r, j)
    ensures Ids(DisturbAll(r, es)) && Delivered(DisturbAll(r, es), j)
  {
    Disturbs(r, es, j);
    var i :| 0 <= i < |r.rows| && r.rows[i] == Find(r.rows, j).value;
  }

  lemma {:induction false} DeliveredPastRounds(p: Progress, turns: seq<Turn>, works: set<RowId>, j: RowId)
    requires Ids(p.rail) && Delivered(p.rail, j)
    ensures Ids(Rounds(p, turns, works).rail) && Delivered(Rounds(p, turns, works).rail, j)
    decreases |turns|
  {
    if turns != [] {
      DeliveredPastDisturb(p.rail, turns[0].before, j);
      if Claims(p.rail, turns[0]) {
        RoundRow(p, turns[0], works, j);
        var i :| 0 <= i < |p.rail.rows| && p.rail.rows[i] == Find(p.rail.rows, j).value;
        DeliveredPastRounds(Round(p, turns[0], works), turns[1..], works, j);
      }
    }
  }

  lemma DeliveredPastTick(r: Rail, turns: seq<Turn>, works: set<RowId>, j: RowId)
    requires Ids(r) && Delivered(r, j)
    ensures Ids(Tick(r, turns, works)) && Delivered(Tick(r, turns, works), j)
  {
    DeliveredPastRounds(Progress(r, [], []), turns, works, j);
    var p := Attempted(r, turns, works);
    FindAllReleased(p.rail.rows, p.failed, j);
  }

  lemma {:induction false} DeliveredPastTicks(r: Rail, plans: seq<Plan>, j: RowId)
    requires Ids(r) && Delivered(r, j)
    ensures Delivered(Ticks(r, plans), j)
    decreases |plans|
  {
    if plans != [] {
      DeliveredPastDisturb(r, plans[0].between, j);
      DeliveredPastTick(DisturbAll(r, plans[0].between), plans[0].turns, plans[0].works, j);
      DeliveredPastTicks(TickAfter(r, plans[0]), plans[1..], j);
    }
  }

  // --- counting one tick ---

  /** The obstacles the tick has not tried yet. */
  function Untried(p: Progress, obstacles: set<RowId>): set<RowId> {
    set j | j in obstacles && j !in AttemptIds(p.attempts)
  }

  lemma SentKeepsReady(sent: Rail, es: seq<Interference>, id: RowId, left: Watch, obstacles: set<RowId>)
    requires Ready(sent, left, obstacles + {id}) && Calm(es, left) && id !in left && id !in obstacles
    ensures var d := DisturbAll(sent, es); Ready(d.(rows := MarkDelivered(d.rows, id)), left, obstacles)
  {
    CalmKeepsReady(sent, es, left, obstacles + {id});
    MarkKeepsReady(DisturbAll(sent, es), id, left, obstacles + {id});
    assert obstacles + {id} - {id} == obstacles;
  }

  lemma FailedKeepsReady(claimed: Rail, es: seq<Interference>, id: RowId, left: Watch, obstacles: set<RowId>)
    requires Ready(claimed, left, obstacles + {id}) && Calm(es, left) && id in obstacles
    ensures Ready(DisturbAll(claimed, es), left, obstacles)
  {
    assert obstacles + {id} == obstacles;
    CalmKeepsReady(claimed, es, left, obstacles);
  }

  /** A round with a watched row waiting picks a watched row or an obstacle, and
      the other watched rows still wait afterwards. */
  lemma RoundKeepsReady(p: Progress, t: Turn, works: set<RowId>, watch: Watch, obstacles: set<RowId>)
    requires Ready(p.rail, watch, obstacles) && watch != map[]
    requires !t.claimFails && Calm(t.before, watch) && Calm(t.during, watch)
    requires watch.Keys <= works && works !! obstacles
    ensures Claims(p.rail, t)
    ensures var row := Picked(p, t);
            && (row.id in watch || row.id in obstacles)
            && (row.id in watch ==> row.target == watch[row.id].target)
            && Ready(Round(p, t, works).rail, watch - {row.id}, obstacles)
  {
    var r := Source(p, t);
    CalmKeepsReady(p.rail, t.before, watch, obstacles);
    PickedWatchedOrObstacle(r, watch, obstacles);
    var n := Oldest(r.rows, r.idle).value;
    var row := r.rows[n];
    var left := watch - {row.id};
    var claimed := r.(rows := Claim(r.rows, n));
    ClaimKeepsReady(r, n, row.id in watch, watch, obstacles);
    assert Calm(t.during, left);
    if row.id in watch {
      SentKeepsReady(Deliver(claimed, row), t.during, row.id, left, obstacles);
    } else {
      FailedKeepsReady(claimed, t.during, row.id, left, obstacles);
    }
  }

  lemma OneLess(a: set<RowId>, x: RowId)
    requires x in a
    ensures |a - {x}| + 1 == |a|
  {
    assert a == a - {x} + {x};
  }

  /** A round tries the row it picks and no other. */
  lemma UntriedAfter(p: Progress, t: Turn, works: set<RowId>, obstacles: set<RowId>)
    requires TickInv(p) && Claims(p.rail, t)
    ensures Untried(Round(p, t, works), obstacles) == Untried(p, obstacles) - {Picked(p, t).id}
    ensures Picked(p, t).id in obstacles ==> Picked(p, t).id in Untried(p, obstacles)
  {
    PickedIsNew(p, t);
    AttemptsAppend(p.attempts, Attempt(Picked(p, t), Source(p, t)));
  }

  /** Each round uses up one watched row or one untried obstacle. */
  lemma RoundCounts(p: Progress, t: Turn, works: set<RowId>, watch: Watch, obstacles: set<RowId>)
    requires TickInv(p) && Claims(p.rail, t) && watch.Keys !! obstacles
    requires Picked(p, t).id in watch || Picked(p, t).id in obstacles
    ensures |watch - {Picked(p, t).id}| + |Untried(Round(p, t, works), obstacles)| + 1
         == |watch| + |Untried(p, obstacles)|
  {
    var id := Picked(p, t).id;
    UntriedAfter(p, t, works, obstacles);
    assert (watch - {id}).Keys == watch.Keys - {id};
    if id in watch {
      OneLess(watch.Keys, id);
      assert Untried(p, obstacles) - {id} == Untried(p, obstacles);
    } else {
      OneLess(Untried(p, obstacles), id);
      assert watch.Keys - {id} == watch.Keys;
    }
  }

  /** A watched row that was picked is delivered when its round ends. */
  lemma ServedIsDelivered(p: Progress, t: Turn, works: set<RowId>, watch: Watch)
    requires Ids(p.rail) && Claims(p.rail, t) && Picked(p, t).id in watch && Picked(p, t).id in works
    requires Picked(p, t).target == watch[Picked(p, t).id].target
    requires Calm(t.before, watch) && Calm(t.during, watch)
    ensures Delivered(Round(p, t, works).rail, Picked(p, t).id)
  {
    var row := Picked(p, t);
    RoundRow(p, t, works, row.id);
    assert CalmFor(t.before, watch[row.id]) && CalmFor(t.during, watch[row.id]);
  }

  /** What is left of the watch after some rounds. */
  ghost function LeftAfter(p: Progress, turns: seq<Turn>, works: set<RowId>, watch: Watch): Watch
    decreases |turns|
  {
    if turns == [] || watch == map[] || !Claims(p.rail, turns[0]) then watch
    else LeftAfter(Round(p, turns[0], works), turns[1..], works, watch - {Picked(p, turns[0]).id})
  }

  /** One round of a calm tick. */
  lemma RoundLeaves(p: Progress, turns: seq<Turn>, works: set<RowId>, watch: Watch, obstacles: set<RowId>)
    requires TickInv(p) && Ready(p.rail, watch, obstacles) && turns != [] && watch != map[]
    requires CalmTurns(p, turns, works, watch) && watch.Keys <= works && works !! obstacles
    ensures Claims(p.rail, turns[0])
    ensures var m, fewer := Round(p, turns[0], works), watch - {Picked(p, turns[0]).id};
            && TickInv(m) && Ready(m.rail, fewer, obstacles) && CalmTurns(m, turns[1..], works, fewer)
            && |fewer| + |Untried(m, obstacles)| + 1 == |watch| + |Untried(p, obstacles)|
            && (Picked(p, turns[0]).id in watch ==> Delivered(m.rail, Picked(p, turns[0]).id))
  {
    AllPending(p.rail, watch, obstacles);
    RoundKeepsReady(p, turns[0], works, watch, obstacles);
    RoundCounts(p, turns[0], works, watch, obstacles);
    RoundKeeps(p, turns[0], works);
    if Picked(p, turns[0]).id in watch { ServedIsDelivered(p, turns[0], works, watch); }
    CalmTurnsFewer(Round(p, turns[0], works), turns[1..], works, watch, watch - {Picked(p, turns[0]).id});
  }

  lemma {:induction false} RoundsLeave(p: Progress, turns: seq<Turn>, works: set<RowId>, watch: Watch,
                                       obstacles: set<RowId>)
    requires TickInv(p) && Ready(p.rail, watch, obstacles) && CalmTurns(p, turns, works, watch)
    requires watch.Keys <= works && works !! obstacles
    ensures var left := LeftAfter(p, turns, works, watch);
            && Within(left, watch) && Ready(Rounds(p, turns, works).rail, left, obstacles)
            && (left == map[] || |left| + |turns| <= |watch| + |Untried(p, obstacles)|)
    decreases |turns|
  {
    if turns != [] {
      if watch == map[] {
        RoundsKeep(p, turns, works);
      } else {
        RoundLeaves(p, turns, works, watch, obstacles);
        RoundsLeave(Round(p, turns[0], works), turns[1..], works, watch - {Picked(p, turns[0]).id}, obstacles);
      }
    }
  }

  lemma {:induction false} RoundsDeliver(p: Progress, turns: seq<Turn>, works: set<RowId>, watch: Watch,
                                         obstacles: set<RowId>, k: RowId)
    requires TickInv(p) && Ready(p.rail, watch, obstacles) && CalmTurns(p, turns, works, watch)
    requires watch.Keys <= works && works !! obstacles
    requires k in watch && k !in LeftAfter(p, turns, works, watch)
    ensures Delivered(Rounds(p, turns, works).rail, k)
    decreases |turns|
  {
    RoundLeaves(p, turns, works, watch, obstacles);
    var m, id := Round(p, turns[0], works), Picked(p, turns[0]).id;
    if id == k {
      DeliveredPastRounds(m, turns[1..], works, k);
    } else {
      RoundsDeliver(m, turns[1..], works, watch - {id}, obstacles, k);
    }
  }

  /** A tick with `f` obstacles delivers all watched rows or at least `8 - f` of them. */
  lemma TickServes(r: Rail, turns: seq<Turn>, works: set<RowId>, watch: Watch, obstacles: set<RowId>)
    returns (left: Watch)
    requires Settled(r) && Ready(r, watch, obstacles) && |turns| == MAX_PER_TICK
    requires CalmTurns(Progress(r, [], []), turns, works, watch) && watch.Keys <= works && works !! obstacles
    ensures var t := Tick(r, turns, works);
            && left == LeftAfter(Progress(r, [], []), turns, works, watch) && Within(left, watch)
            && Settled(t) && Ready(t, left, obstacles)
            && (forall k :: k in watch && k !in left ==> Delivered(t, k))
            && (left == map[] || |left| + MAX_PER_TICK <= |watch| + |obstacles|)
  {
    var start, p := Progress(r, [], []), Attempted(r, turns, works);
    forall j ensures RowInv(start, j) {}
    left := LeftAfter(start, turns, works, watch);
    RoundsLeave(start, turns, works, watch, obstacles);
    assert Untried(start, obstacles) == obstacles;
    TickAttemptsOnceAndReleases(r, turns, works);
    ReleaseKeepsReady(p.rail, p.failed, left, obstacles);
    forall k | k in watch && k !in left ensures Delivered(Tick(r, turns, works), k) {
      RoundsDeliver(start, turns, works, watch, obstacles, k);
      FindAllReleased(p.rail.rows, p.failed, k);
    }
  }

  lemma SettledPastDisturb(r: Rail, es: seq<Interference>)
    requires Settled(r)
    ensures Settled(DisturbAll(r, es))
  {
    Disturbs(r, es, 0);
    forall j ensures var x := Find(DisturbAll(r, es).rows, j);
                     x.Some? && !x.value.delivered && x.value.kind != Learning ==> !x.value.claimed
    {
      Disturbs(r, es, j);
    }
  }

  /** What an interval and a tick leave of the watch. */
  ghost function LeftBy(r: Rail, plan: Plan, watch: Watch): Watch {
    LeftAfter(Progress(DisturbAll(r, plan.between), [], []), plan.turns, plan.works, watch)
  }

  /** The interval before a tick and the tick itself. */
  lemma PlanServes(r: Rail, plan: Plan, watch: Watch, obstacles: set<RowId>) returns (left: Watch)
    requires Settled(r) && Ready(r, watch, obstacles) && CalmPlan(r, plan, watch, obstacles)
    ensures var t := TickAfter(r, plan);
            && left == LeftBy(r, plan, watch) && Within(left, watch)
            && Settled(t) && Ready(t, left, obstacles)
            && (forall k :: k in watch && k !in left ==> Delivered(t, k))
            && (|left| == 0 || |left| + MAX_PER_TICK <= |watch| + |obstacles|)
  {
    AllPending(r, watch, obstacles);
    SettledPastDisturb(r, plan.between);
    CalmKeepsReady(r, plan.between, watch, obstacles);
    left := TickServes(DisturbAll(r, plan.between), plan.turns, plan.works, watch, obstacles);
  }

  // --- tick after tick ---

  ghost predicate CalmPlans(r: Rail, plans: seq<Plan>, watch: Watch, obstacles: set<RowId>)
    decreases |plans|
  {
    plans == [] ||
    (CalmPlan(r, plans[0], watch, obstacles) && CalmPlans(TickAfter(r, plans[0]), plans[1..], watch, obstacles))
  }

  lemma CalmPlanFewer(r: Rail, plan: Plan, watch: Watch, left: Watch, obstacles: set<RowId>)
    requires CalmPlan(r, plan, watch, obstacles) && Within(left, watch)
    ensures CalmPlan(r, plan, left, obstacles)
  {
    CalmFewer(plan.between, Pending(r, watch), Pending(r, left));
    CalmTurnsFewer(Progress(DisturbAll(r, plan.between), [], []), plan.turns, plan.works, watch, left);
  }

  lemma {:induction false} CalmPlansFewer(r: Rail, plans: seq<Plan>, watch: Watch, left: Watch, obstacles: set<RowId>)
    requires CalmPlans(r, plans, watch, obstacles) && Within(left, watch)
    ensures CalmPlans(r, plans, left, obstacles)
    decreases |plans|
  {
    if plans != [] {
      CalmPlanFewer(r, plans[0], watch, left, obstacles);
      CalmPlansFewer(TickAfter(r, plans[0]), plans[1..], watch, left, obstacles);
    }
  }

  /** How many watched rows `n` ticks serve at `perTick` each. */
  function Capacity(n: nat, perTick: nat): nat {
    if n == 0 then 0 else perTick + Capacity(n - 1, perTick)
  }

  lemma {:induction false} CapacityIsProduct(n: nat, perTick: nat)
    ensures Capacity(n, perTick) == n * perTick
  {
    if n > 0 {
      CapacityIsProduct(n - 1, perTick);
      assert n * perTick == (n - 1) * perTick + perTick;
    }
  }

  lemma FirstPlan(r: Rail, plans: seq<Plan>, watch: Watch, obstacles: set<RowId>)
    requires plans != [] && CalmPlans(r, plans, watch, obstacles)
    ensures CalmPlan(r, plans[0], watch, obstacles)
    ensures CalmPlans(TickAfter(r, plans[0]), plans[1..], watch, obstacles)
    ensures Ticks(r, plans) == Ticks(TickAfter(r, plans[0]), plans[1..])
  {
  }

  /** The rows of the watch that leave it in a tick are delivered by it, and so
      on until none is left. */
  ghost predicate Drains(r: Rail, plans: seq<Plan>, watch: Watch)
    decreases |plans|
  {
    watch == map[] || (plans != [] && Drained(TickAfter(r, plans[0]), watch, LeftBy(r, plans[0], watch))
                       && Drains(TickAfter(r, plans[0]), plans[1..], LeftBy(r, plans[0], watch)))
  }

  ghost predicate Drained(r: Rail, watch: Watch, left: Watch) {
    forall k :: k in watch && k !in left ==> Delivered(r, k)
  }

  /** The watch waits, and the calm ticks to come are enough for its size. */
  ghost predicate Enough(r: Rail, plans: seq<Plan>, watch: Watch, obstacles: set<RowId>, perTick: nat) {
    && Settled(r) && Ready(r, watch, obstacles) && |obstacles| + perTick == MAX_PER_TICK
    && CalmPlans(r, plans, watch, obstacles) && |watch| <= Capacity(|plans|, perTick)
  }

  lemma NextCapacity(n: nat, perTick: nat, before: nat, after: nat)
    requires 0 < before <= Capacity(n, perTick) && (after == 0 || after + perTick <= before)
    ensures n > 0 && after <= Capacity(n - 1, perTick)
  {
  }

  lemma NextTick(r: Rail, plans: seq<Plan>, watch: Watch, obstacles: set<RowId>, perTick: nat)
    requires Enough(r, plans, watch, obstacles, perTick) && plans != [] && watch != map[]
    ensures var t, left := TickAfter(r, plans[0]), LeftBy(r, plans[0], watch);
            Drained(t, watch, left) && Enough(t, plans[1..], left, obstacles, perTick)
  {
    FirstPlan(r, plans, watch, obstacles);
    var left := PlanServes(r, plans[0], watch, obstacles);
    NextCapacity(|plans|, perTick, |watch|, |left|);
    CalmPlansFewer(TickAfter(r, plans[0]), plans[1..], watch, left, obstacles);
  }

  lemma SomeTick(r: Rail, plans: seq<Plan>, watch: Watch, obstacles: set<RowId>, perTick: nat)
    requires Enough(r, plans, watch, obstacles, perTick) && watch != map[]
    ensures plans != []
  {
    assert |watch| > 0;
  }

  /** Calm ticks enough for the size of the watch drain it. */
  lemma {:induction false} EnoughTicksDrain(r: Rail, plans: seq<Plan>, watch: Watch, obstacles: set<RowId>,
                                            perTick: nat)
    requires Enough(r, plans, watch, obstacles, perTick)
    ensures Drains(r, plans, watch)
    decreases |plans|
  {
    if watch != map[] {
      SomeTick(r, plans, watch, obstacles, perTick);
      NextTick(r, plans, watch, obstacles, perTick);
      EnoughTicksDrain(TickAfter(r, plans[0]), plans[1..], LeftBy(r, plans[0], watch), obstacles, perTick);
    }
  }

  lemma IdsPastTick(r: Rail, plan: Plan)
    requires Ids(r)
    ensures Ids(TickAfter(r, plan))
  {
    Disturbs(r, plan.between, 0);
    var d := DisturbAll(r, plan.between);
    IdsPastRounds(Progress(d, [], []), plan.turns, plan.works);
    var p := Attempted(d, plan.turns, plan.works);
    FindAllReleased(p.rail.rows, p.failed, 0);
  }

  lemma {:induction false} IdsPastRounds(p: Progress, turns: seq<Turn>, works: set<RowId>)
    requires Ids(p.rail)
    ensures Ids(Rounds(p, turns, works).rail)
    decreases |turns|
  {
    if turns != [] {
      Disturbs(p.rail, turns[0].before, 0);
      if Claims(p.rail, turns[0]) {
        RoundRow(p, turns[0], works, 0);
        IdsPastRounds(Round(p, turns[0], works), turns[1..], works);
      }
    }
  }

  /** A row of a drained watch is delivered, and stays delivered to the end. */
  lemma {:induction false} DrainedRowIsServed(r: Rail, plans: seq<Plan>, watch: Watch, k: RowId)
    requires Ids(r) && Drains(r, plans, watch) && k in watch
    ensures Delivered(Ticks(r, plans), k)
    decreases |plans|
  {
    var t, left := TickAfter(r, plans[0]), LeftBy(r, plans[0], watch);
    IdsPastTick(r, plans[0]);
    if k in left {
      DrainedRowIsServed(t, plans[1..], left, k);
    } else {
      DeliveredPastTicks(t, plans[1..], k);
    }
  }

  ghost predicate AllDelivered(r: Rail, watch: Watch) {
    forall k :: k in watch ==> Delivered(r, k)
  }

  lemma DrainedIsServed(r: Rail, plans: seq<Plan>, watch: Watch)
    requires Ids(r) && Drains(r, plans, watch)
    ensures AllDelivered(Ticks(r, plans), watch)
  {
    forall k | k in watch ensures Delivered(Ticks(r, plans), k) {
      DrainedRowIsServed(r, plans, watch, k);
    }
  }

  lemma WatchDrains(r: Rail, plans: seq<Plan>, watch: Watch, obstacles: set<RowId>)
    requires Settled(r) && Ready(r, watch, obstacles) && |obstacles| < MAX_PER_TICK
    requires CalmPlans(r, plans, watch, obstacles)
    requires |plans| * (MAX_PER_TICK - |obstacles|) >= |watch|
    ensures Ids(r) && Drains(r, plans, watch)
  {
    var perTick := MAX_PER_TICK - |obstacles|;
    CapacityIsProduct(|plans|, perTick);
    assert Enough(r, plans, watch, obstacles, perTick);
    EnoughTicksDrain(r, plans, watch, obstacles, perTick);
  }

  /** No starvation. Watch any set of deliverable rows that no other
      deliverable row is older than, each on an idle target of its own, with
      fewer than eight rows that always fail. Then they are all delivered after
      `n` ticks as soon as `n * (8 - f)` reaches their number, whatever else is
      enqueued meanwhile, as long as it is younger than those still waiting and
      the targets of those stay idle. */
  lemma OldestRowsAreServed(r: Rail, plans: seq<Plan>, watch: Watch, obstacles: set<RowId>)
    requires Settled(r) && Ready(r, watch, obstacles) && |obstacles| < MAX_PER_TICK
    requires CalmPlans(r, plans, watch, obstacles)
    requires |plans| * (MAX_PER_TICK - |obstacles|) >= |watch|
    ensures AllDelivered(Ticks(r, plans), watch)
  {
    WatchDrains(r, plans, watch, obstacles);
    DrainedIsServed(r, plans, watch);
  }
}
