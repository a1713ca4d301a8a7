/** The rolling-window limiter of automation runs. Times are in milliseconds. */
module RateLimiter {
  import opened Options
  import opened Automation

  const WINDOW := 60000
  const ENGINE_LIMIT := 1000
  const HOOK_LIMIT := 60

  datatype Kind = ToolBefore | ToolAfter | WebhookInbound | Unlimited(kind: nat)

  datatype Entry = Entry(at: int, hook: nat, kind: Kind)

  datatype Attempt = Attempt(entry: Entry, depth: nat)

  function Recent(log: seq<Entry>, now: int): seq<Entry> {
    if log == [] then []
    else
      var rest, last := Recent(log[..|log| - 1], now), log[|log| - 1];
      if now - last.at < WINDOW then rest + [last] else rest
  }

  function Alike(log: seq<Entry>, c: Entry): nat {
    if log == [] then 0
    else Alike(log[..|log| - 1], c) + if log[|log| - 1].hook == c.hook && log[|log| - 1].kind == c.kind then 1 else 0
  }

  function Judge(accepted: seq<Entry>, a: Attempt): Verdict {
    var kept := Recent(accepted, a.entry.at);
    if a.depth >= MAX_DEPTH then DepthLimited
    else if |kept| >= ENGINE_LIMIT then EngineLimited
    else if !a.entry.kind.Unlimited? && Alike(kept, a.entry) >= HOOK_LIMIT then HookLimited
    else Accepted
  }

  /** What stays in the deque after an attempt. */
  function Remember(accepted: seq<Entry>, a: Attempt): seq<Entry> {
    if a.depth >= MAX_DEPTH then accepted
    else if Judge(accepted, a).Accepted? then Recent(accepted, a.entry.at) + [a.entry]
    else Recent(accepted, a.entry.at)
  }

  class Dispatcher {
    var accepted: seq<Entry>

    constructor ()
      ensures accepted == []
    {
      accepted := [];
    }

    method RateVerdict(a: Attempt) returns (verdict: Verdict)
      modifies this
      ensures verdict == Judge(old(accepted), a) && accepted == Remember(old(accepted), a)
    {
      if a.depth >= MAX_DEPTH { return DepthLimited; }
      Retain(a.entry.at);
      if |accepted| >= ENGINE_LIMIT { return EngineLimited; }
      if !a.entry.kind.Unlimited? {
        var same := 0;
        for i := 0 to |accepted|
          invariant same == Alike(accepted[..i], a.entry)
        {
          assert accepted[..i + 1][..i] == accepted[..i];
          if accepted[i].hook == a.entry.hook && accepted[i].kind == a.entry.kind { same := same + 1; }
        }
        assert accepted[..|accepted|] == accepted;
        if same >= HOOK_LIMIT { return HookLimited; }
      }
      accepted := accepted + [a.entry];
      return Accepted;
    }

    method Retain(now: int)
      modifies this
      ensures accepted == Recent(old(accepted), now)
    {
      var kept: seq<Entry> := [];
      for i := 0 to |accepted|
        invariant accepted == old(accepted) && kept == Recent(accepted[..i], now)
      {
        assert accepted[..i + 1][..i] == accepted[..i];
        if now - accepted[i].at < WINDOW { kept := kept + [accepted[i]]; }
      }
      assert accepted[..|accepted|] == accepted;
      accepted := kept;
    }
  }

  // --- the whole history ---

  /** An accepted run, and how many attempts had pruned the deque by then, its
      own included. */
  datatype Accept = Accept(entry: Entry, seen: nat)

  /** `log` is everything ever accepted, `prunes` the times the deque was pruned
      at. An attempt reads its time before it waits for the deque, so the times
      need not be in order. */
  datatype World = World(accepted: seq<Entry>, log: seq<Accept>, prunes: seq<int>)

  const INIT := World([], [], [])

  function Step(w: World, a: Attempt): World {
    World(Remember(w.accepted, a),
          if Judge(w.accepted, a).Accepted? then w.log + [Accept(a.entry, |w.prunes| + 1)] else w.log,
          if a.depth < 3 then w.prunes + [a.entry.at] else w.prunes)
  }

  function Run(attempts: seq<Attempt>): World {
    if attempts == [] then INIT else Step(Run(attempts[..|attempts| - 1]), attempts[|attempts| - 1])
  }

  predicate Like(x: Entry, like: Option<Entry>) {
    like.Some? ==> x.hook == like.value.hook && x.kind == like.value.kind
  }

  /** Every attempt since it was accepted came within a minute of it. */
  predicate Held(x: Accept, prunes: seq<int>) {
    forall j :: x.seen <= j < |prunes| ==> prunes[j] - x.entry.at < WINDOW
  }

  /** How many accepted runs are held, of all or of those for the hook and
      trigger of `like`. */
  function Holding(log: seq<Accept>, prunes: seq<int>, like: Option<Entry>): nat {
    if log == [] then 0
    else
      var last := log[|log| - 1];
      Holding(log[..|log| - 1], prunes, like) + if Held(last, prunes) && Like(last.entry, like) then 1 else 0
  }

  predicate Within(x: Accept, lo: int, hi: int, like: Option<Entry>) {
    lo < x.entry.at <= hi && Like(x.entry, like)
  }

  /** How many accepted runs are later than `lo` and no later than `hi`. */
  function Hits(log: seq<Accept>, lo: int, hi: int, like: Option<Entry>): nat {
    if log == [] then 0
    else Hits(log[..|log| - 1], lo, hi, like) + if Within(log[|log| - 1], lo, hi, like) then 1 else 0
  }

  // --- the deque against the whole history ---

  function HeldEntries(log: seq<Accept>, prunes: seq<int>): seq<Entry> {
    if log == [] then []
    else
      var rest, last := HeldEntries(log[..|log| - 1], prunes), log[|log| - 1];
      if Held(last, prunes) then rest + [last.entry] else rest
  }

  ghost predicate Seen(log: seq<Accept>, prunes: seq<int>) {
    forall m :: 0 <= m < |log| ==> 0 < log[m].seen <= |prunes| && prunes[log[m].seen - 1] == log[m].entry.at
  }

  lemma HeldOneMore(x: Accept, prunes: seq<int>, now: int)
    requires x.seen <= |prunes|
    ensures Held(x, prunes + [now]) <==> Held(x, prunes) && now - x.entry.at < WINDOW
  {
    if Held(x, prunes + [now]) {
      forall j | x.seen <= j < |prunes| ensures prunes[j] - x.entry.at < WINDOW {
        assert (prunes + [now])[j] == prunes[j];
      }
      assert (prunes + [now])[|prunes|] == now;
    }
  }

  lemma RecentAppends(log: seq<Entry>, x: Entry, now: int)
    ensures Recent(log + [x], now) == if now - x.at < WINDOW then Recent(log, now) + [x] else Recent(log, now)
  {
    assert (log + [x])[..|log|] == log;
  }

  /** One more pruning keeps what is recent of what was held. */
  lemma {:induction false} PruneHeld(log: seq<Accept>, prunes: seq<int>, now: int)
    requires Seen(log, prunes)
    ensures HeldEntries(log, prunes + [now]) == Recent(HeldEntries(log, prunes), now)
  {
    if log != [] {
      var init, last := log[..|log| - 1], log[|log| - 1];
      PruneHeld(init, prunes, now);
      HeldOneMore(last, prunes, now);
      RecentAppends(HeldEntries(init, prunes), last.entry, now);
    }
  }

  lemma AlikeAppends(entries: seq<Entry>, x: Entry, c: Entry)
    ensures Alike(entries + [x], c) == Alike(entries, c) + if x.hook == c.hook && x.kind == c.kind then 1 else 0
  {
    assert (entries + [x])[..|entries|] == entries;
  }

  lemma {:induction false} HoldingCounts(log: seq<Accept>, prunes: seq<int>, c: Entry)
    ensures |HeldEntries(log, prunes)| == Holding(log, prunes, None)
    ensures Alike(HeldEntries(log, prunes), c) == Holding(log, prunes, Some(c))
  {
    if log != [] {
      var init, last := log[..|log| - 1], log[|log| - 1];
      HoldingCounts(init, prunes, c);
      AlikeAppends(HeldEntries(init, prunes), last.entry, c);
    }
  }

  // --- every run ---

  /** When it was accepted, fewer were held than either limit allows. */
  ghost predicate Admitted(log: seq<Accept>, prunes: seq<int>, m: nat) {
    m < |log| && log[m].seen <= |prunes| ==>
      var before, seen := log[..m], prunes[..log[m].seen];
      && Holding(before, seen, None) < ENGINE_LIMIT
      && (!log[m].entry.kind.Unlimited? ==> Holding(before, seen, Some(log[m].entry)) < HOOK_LIMIT)
  }

  ghost predicate Inv(w: World) {
    && w.accepted == HeldEntries(w.log, w.prunes) && Seen(w.log, w.prunes)
    && forall m :: Admitted(w.log, w.prunes, m)
  }

  /** An attempt three hooks deep is refused and leaves no trace. Of any other the
      verdict names the limit that the runs still held have used up, if any: those
      accepted before that every attempt since, this one included, came within a
      minute of; 1000 of all, or 60 of its hook and limited trigger. */
  lemma DecidesByWhatIsHeld(attempts: seq<Attempt>, a: Attempt)
    ensures var w := Run(attempts);
            var prunes := w.prunes + [a.entry.at];
            Judge(w.accepted, a) ==
              if a.depth >= 3 then DepthLimited
              else if Holding(w.log, prunes, None) >= 1000 then EngineLimited
              else if a.entry.kind in {ToolBefore, ToolAfter, WebhookInbound}
                      && Holding(w.log, prunes, Some(a.entry)) >= 60 then HookLimited
              else Accepted
    ensures a.depth >= 3 ==> Step(Run(attempts), a) == Run(attempts)
  {
    RunKeeps(attempts);
    JudgesByWhatIsHeld(Run(attempts), a);
  }

  lemma JudgesByWhatIsHeld(w: World, a: Attempt)
    requires w.accepted == HeldEntries(w.log, w.prunes) && Seen(w.log, w.prunes)
    ensures var prunes := w.prunes + [a.entry.at];
            && Recent(w.accepted, a.entry.at) == HeldEntries(w.log, prunes)
            && |Recent(w.accepted, a.entry.at)| == Holding(w.log, prunes, None)
            && Alike(Recent(w.accepted, a.entry.at), a.entry) == Holding(w.log, prunes, Some(a.entry))
  {
    PruneHeld(w.log, w.prunes, a.entry.at);
    HoldingCounts(w.log, w.prunes + [a.entry.at], a.entry);
  }

  lemma SeenStays(log: seq<Accept>, prunes: seq<int>, now: int)
    requires Seen(log, prunes)
    ensures Seen(log, prunes + [now])
  {
  }

  lemma AdmittedStays(w: World, log: seq<Accept>, now: int, m: nat)
    requires Seen(w.log, w.prunes) && Admitted(w.log, w.prunes, m) && m < |w.log| && w.log <= log
    ensures Admitted(log, w.prunes + [now], m)
  {
    assert log[..m] == w.log[..m] && log[m] == w.log[m];
    assert (w.prunes + [now])[..w.log[m].seen] == w.prunes[..w.log[m].seen];
  }

  /** A run accepted now is held. */
  lemma AcceptedIsHeld(log: seq<Accept>, prunes: seq<int>, x: Accept)
    requires x.seen == |prunes|
    ensures HeldEntries(log + [x], prunes) == HeldEntries(log, prunes) + [x.entry]
  {
    assert (log + [x])[..|log|] == log;
  }

  lemma SeenMore(log: seq<Accept>, prunes: seq<int>, entry: Entry)
    requires Seen(log, prunes)
    ensures Seen(log + [Accept(entry, |prunes| + 1)], prunes + [entry.at])
  {
  }

  lemma AcceptedIsAdmitted(w: World, a: Attempt)
    requires w.accepted == HeldEntries(w.log, w.prunes) && Seen(w.log, w.prunes)
    requires a.depth < MAX_DEPTH && Judge(w.accepted, a).Accepted?
    ensures Admitted(Step(w, a).log, Step(w, a).prunes, |w.log|)
  {
    var log, prunes := Step(w, a).log, Step(w, a).prunes;
    JudgesByWhatIsHeld(w, a);
    assert log[..|w.log|] == w.log && prunes[..|prunes|] == prunes;
  }

  lemma AcceptKeeps(w: World, a: Attempt)
    requires Inv(w) && a.depth < MAX_DEPTH && Judge(w.accepted, a).Accepted?
    ensures Inv(Step(w, a))
  {
    var v, n, x := Step(w, a), |w.log|, Accept(a.entry, |w.prunes| + 1);
    PruneHeld(w.log, w.prunes, a.entry.at);
    AcceptedIsHeld(w.log, v.prunes, x);
    SeenMore(w.log, w.prunes, a.entry);
    forall m: nat ensures Admitted(v.log, v.prunes, m) {
      if m < n {
        assert Admitted(w.log, w.prunes, m);
        AdmittedStays(w, v.log, a.entry.at, m);
      } else if m == n {
        AcceptedIsAdmitted(w, a);
      }
    }
  }

  lemma RefuseKeeps(w: World, a: Attempt)
    requires Inv(w) && a.depth < MAX_DEPTH && !Judge(w.accepted, a).Accepted?
    ensures Inv(Step(w, a))
  {
    JudgesByWhatIsHeld(w, a);
    SeenStays(w.log, w.prunes, a.entry.at);
    forall m: nat ensures Admitted(w.log, w.prunes + [a.entry.at], m) {
      if m < |w.log| {
        assert Admitted(w.log, w.prunes, m);
        AdmittedStays(w, w.log, a.entry.at, m);
      }
    }
  }

  lemma {:induction false} RunKeeps(attempts: seq<Attempt>)
    ensures Inv(Run(attempts))
  {
    if attempts != [] {
      var init, last := attempts[..|attempts| - 1], attempts[|attempts| - 1];
      RunKeeps(init);
      if last.depth < MAX_DEPTH {
        if Judge(Run(init).accepted, last).Accepted? {
          AcceptKeeps(Run(init), last);
        } else {
          RefuseKeeps(Run(init), last);
        }
      }
    }
  }

  // --- an attempt that is not late ---

  predicate Latest(prunes: seq<int>, now: int) {
    forall j :: 0 <= j < |prunes| ==> prunes[j] <= now
  }

  /** Held at an attempt that is not late is accepted in the minute before it. */
  lemma HeldIsWithin(x: Accept, prunes: seq<int>, now: int, like: Option<Entry>)
    requires Latest(prunes, now) && x.seen <= |prunes| && x.entry.at <= now
    ensures Held(x, prunes + [now]) && Like(x.entry, like) <==> Within(x, now - WINDOW, now, like)
  {
    HeldOneMore(x, prunes, now);
  }

  lemma {:induction false} HoldingIsHits(log: seq<Accept>, prunes: seq<int>, now: int, like: Option<Entry>)
    requires Latest(prunes, now) && Seen(log, prunes)
    ensures Holding(log, prunes + [now], like) == Hits(log, now - WINDOW, now, like)
  {
    if log != [] {
      var init, last := log[..|log| - 1], log[|log| - 1];
      HoldingIsHits(init, prunes, now, like);
      assert prunes[last.seen - 1] == last.entry.at;
      HeldIsWithin(last, prunes, now, like);
    }
  }

  /** An attempt no earlier than those before it is judged by the last minute of
      the whole history, however late those were. */
  lemma DecidesByTheWindow(attempts: seq<Attempt>, a: Attempt)
    requires a.depth < 3 && Latest(Run(attempts).prunes, a.entry.at)
    ensures var w, t := Run(attempts), a.entry.at;
            Judge(w.accepted, a) ==
              if Hits(w.log, t - 60000, t, None) >= 1000 then EngineLimited
              else if !a.entry.kind.Unlimited? && Hits(w.log, t - 60000, t, Some(a.entry)) >= 60 then HookLimited
              else Accepted
  {
    var w := Run(attempts);
    RunKeeps(attempts);
    DecidesByWhatIsHeld(attempts, a);
    HoldingIsHits(w.log, w.prunes, a.entry.at, None);
    HoldingIsHits(w.log, w.prunes, a.entry.at, Some(a.entry));
  }

  // --- windows ---

  /** No accepted attempt was more than `late` behind one that pruned before it. */
  ghost predicate LateAtMost(w: World, late: nat) {
    forall m, j :: 0 <= m < |w.log| && 0 <= j < w.log[m].seen && j < |w.prunes| ==>
      w.prunes[j] <= w.log[m].entry.at + late
  }

  /** The window of `n` milliseconds up to `t` is within its limits. */
  ghost predicate WindowHolds(log: seq<Accept>, n: nat, t: int, c: Entry) {
    && Hits(log, t - n, t, None) <= 1000
    && (!c.kind.Unlimited? ==> Hits(log, t - n, t, Some(c)) <= 60)
  }

  /** What no pruning reached is held. */
  lemma {:induction false} HitsAreHeld(log: seq<Accept>, prunes: seq<int>, lo: int, hi: int, like: Option<Entry>)
    requires forall j :: 0 <= j < |prunes| ==> prunes[j] - WINDOW <= lo
    ensures Hits(log, lo, hi, like) <= Holding(log, prunes, like)
  {
    if log != [] { HitsAreHeld(log[..|log| - 1], prunes, lo, hi, like); }
  }

  lemma {:induction false} SameLike(log: seq<Accept>, lo: int, hi: int, c: Entry, d: Entry)
    requires c.hook == d.hook && c.kind == d.kind
    ensures Hits(log, lo, hi, Some(c)) == Hits(log, lo, hi, Some(d))
  {
    if log != [] { SameLike(log[..|log| - 1], lo, hi, c, d); }
  }

  lemma LastInWindow(w: World, late: nat, n: nat, t: int, m: nat)
    requires Inv(w) && LateAtMost(w, late) && n + late <= WINDOW && m < |w.log| && t - n < w.log[m].entry.at <= t
    ensures Hits(w.log[..m], t - n, t, None) < ENGINE_LIMIT
    ensures !w.log[m].entry.kind.Unlimited? ==> Hits(w.log[..m], t - n, t, Some(w.log[m].entry)) < HOOK_LIMIT
  {
    var seen := w.prunes[..w.log[m].seen];
    assert Admitted(w.log, w.prunes, m);
    forall j | 0 <= j < |seen| ensures seen[j] - WINDOW <= t - n {
      assert seen[j] == w.prunes[j];
    }
    HitsAreHeld(w.log[..m], seen, t - n, t, None);
    HitsAreHeld(w.log[..m], seen, t - n, t, Some(w.log[m].entry));
  }

  lemma {:induction false} WindowFits(w: World, late: nat, n: nat, t: int, c: Entry, m: nat)
    requires Inv(w) && LateAtMost(w, late) && n + late <= WINDOW && m <= |w.log|
    ensures WindowHolds(w.log[..m], n, t, c)
  {
    if m > 0 {
      var last := w.log[m - 1];
      WindowFits(w, late, n, t, c, m - 1);
      assert w.log[..m][..m - 1] == w.log[..m - 1];
      if t - n < last.entry.at <= t {
        LastInWindow(w, late, n, t, m - 1);
        if Like(last.entry, Some(c)) { SameLike(w.log[..m - 1], t - n, t, last.entry, c); }
      }
    }
  }

  /** Whatever is attempted: if no accepted attempt was more than `late` behind,
      no window shorter than a minute by `late` sees more than the engine's limit
      of accepted runs, nor more than the hook's limit for one hook and one
      limited trigger. */
  lemma NoWindowIsOverrun(attempts: seq<Attempt>, late: nat, n: nat, t: int, c: Entry)
    requires LateAtMost(Run(attempts), late) && n + late <= 60000
    ensures WindowHolds(Run(attempts).log, n, t, c)
  {
    var w := Run(attempts);
    RunKeeps(attempts);
    WindowFits(w, late, n, t, c, |w.log|);
    assert w.log[..|w.log|] == w.log;
  }

  // --- and no longer window ---

  function At(t: int): Attempt {
    Attempt(Entry(t, 0, Unlimited(0)), 0)
  }

  function Filling(n: nat): seq<Attempt> {
    seq(n, _ => At(0))
  }

  lemma RunOneMore(attempts: seq<Attempt>, a: Attempt)
    ensures Run(attempts + [a]) == Step(Run(attempts), a)
  {
    assert (attempts + [a])[..|attempts|] == attempts;
  }

  function Zeros(n: nat): (log: seq<Accept>)
    ensures |log| == n && forall m :: 0 <= m < n ==> log[m] == Accept(At(0).entry, m + 1)
  {
    if n == 0 then [] else Zeros(n - 1) + [Accept(At(0).entry, n)]
  }

  lemma {:induction false} AllRecent(log: seq<Entry>, now: int)
    requires forall i :: 0 <= i < |log| ==> now - log[i].at < WINDOW
    ensures Recent(log, now) == log
  {
    if log != [] {
      AllRecent(log[..|log| - 1], now);
      assert log == log[..|log| - 1] + [log[|log| - 1]];
    }
  }

  lemma {:induction false} NoneRecent(log: seq<Entry>, now: int)
    requires forall i :: 0 <= i < |log| ==> now - log[i].at >= WINDOW
    ensures Recent(log, now) == []
  {
    if log != [] { NoneRecent(log[..|log| - 1], now); }
  }

  function Full(n: nat): World {
    World(seq(n, _ => At(0).entry), Zeros(n), seq(n, _ => 0))
  }

  lemma FillsOne(n: nat)
    requires n < ENGINE_LIMIT
    ensures Step(Full(n), At(0)) == Full(n + 1)
  {
    AllRecent(Full(n).accepted, 0);
    assert Recent(Full(n).accepted, 0) + [At(0).entry] == Full(n + 1).accepted;
    assert Full(n).prunes + [0] == Full(n + 1).prunes;
  }

  /** As many attempts at time 0 as the engine allows are all accepted. */
  lemma {:induction false} Fills(n: nat)
    requires n <= ENGINE_LIMIT
    ensures Run(Filling(n)) == Full(n)
  {
    if n == 0 {
      assert Filling(0) == [];
    } else {
      Fills(n - 1);
      assert Filling(n) == Filling(n - 1) + [At(0)];
      RunOneMore(Filling(n - 1), At(0));
      FillsOne(n - 1);
    }
  }

  lemma HitsAppends(log: seq<Accept>, x: Accept, lo: int, hi: int)
    ensures Hits(log + [x], lo, hi, None) == Hits(log, lo, hi, None) + if lo < x.entry.at <= hi then 1 else 0
  {
    assert (log + [x])[..|log|] == log;
  }

  lemma {:induction false} ZerosHit(n: nat, lo: int, hi: int)
    requires lo < 0 <= hi
    ensures Hits(Zeros(n), lo, hi, None) == n
  {
    if n > 0 {
      ZerosHit(n - 1, lo, hi);
      HitsAppends(Zeros(n - 1), Accept(At(0).entry, n), lo, hi);
    }
  }

  /** A full deque at time 0, an attempt a minute later, and one that read its
      time before that and got the deque after it. */
  function Overrun(late: nat): seq<Attempt> {
    Filling(ENGINE_LIMIT) + [At(WINDOW)] + [At(WINDOW - late)]
  }

  /** After the attempt a minute later, and after the late one. */
  function Emptied(): World {
    var full := Full(ENGINE_LIMIT);
    World([At(WINDOW).entry], full.log + [Accept(At(WINDOW).entry, ENGINE_LIMIT + 1)], full.prunes + [WINDOW])
  }

  function Exceeded(late: nat): World {
    World([At(WINDOW).entry, At(WINDOW - late).entry],
          Emptied().log + [Accept(At(WINDOW - late).entry, ENGINE_LIMIT + 2)], Emptied().prunes + [WINDOW - late])
  }

  lemma Empties()
    ensures Step(Full(ENGINE_LIMIT), At(WINDOW)) == Emptied()
  {
    NoneRecent(Full(ENGINE_LIMIT).accepted, WINDOW);
  }

  lemma Exceeds(late: nat)
    ensures Step(Emptied(), At(WINDOW - late)) == Exceeded(late)
  {
    AllRecent(Emptied().accepted, WINDOW - late);
  }

  lemma Overruns(late: nat)
    ensures Run(Overrun(late)) == Exceeded(late)
  {
    var es := Filling(ENGINE_LIMIT);
    Fills(ENGINE_LIMIT);
    RunOneMore(es, At(WINDOW));
    Empties();
    RunOneMore(es + [At(WINDOW)], At(WINDOW - late));
    Exceeds(late);
  }

  lemma OverrunIsLate(late: nat)
    requires late <= WINDOW
    ensures LateAtMost(Exceeded(late), late)
  {
  }

  /** That run accepts one more than the engine's limit within any longer window. */
  lemma LongerIsOverrun(late: nat, n: nat)
    requires late <= WINDOW && n + late > WINDOW
    ensures LateAtMost(Run(Overrun(late)), late)
    ensures Hits(Run(Overrun(late)).log, WINDOW - late - n, WINDOW - late, None) > ENGINE_LIMIT
  {
    Overruns(late);
    OverrunIsLate(late);
    var lo, hi := WINDOW - late - n, WINDOW - late;
    ZerosHit(ENGINE_LIMIT, lo, hi);
    HitsAppends(Zeros(ENGINE_LIMIT), Accept(At(WINDOW).entry, ENGINE_LIMIT + 1), lo, hi);
    HitsAppends(Emptied().log, Accept(At(WINDOW - late).entry, ENGINE_LIMIT + 2), lo, hi);
  }

  /** Windows of `n` milliseconds are within their limits in every run whose
      accepted attempts are at most `late` behind if and only if `n` is no more
      than a minute less `late`. */
  lemma WindowsHoldExactly(n: nat, late: nat)
    requires n > 0
    ensures (forall attempts, t, c :: LateAtMost(Run(attempts), late) ==> WindowHolds(Run(attempts).log, n, t, c))
            <==> n + late <= 60000
  {
    if n + late <= WINDOW {
      forall attempts, t, c | LateAtMost(Run(attempts), late) ensures WindowHolds(Run(attempts).log, n, t, c) {
        NoWindowIsOverrun(attempts, late, n, t, c);
      }
    } else {
      var behind := if late <= WINDOW then late else WINDOW;
      LongerIsOverrun(behind, n);
      assert LateAtMost(Run(Overrun(behind)), late);
      assert !WindowHolds(Run(Overrun(behind)).log, n, WINDOW - behind, At(0).entry);
    }
  }
}
