/** A session's transcript with its history: what was said of each row, how
    much of it was delivered, and how much a snapshot held when it was installed. */
module TranscriptHistory {
  import opened Options
  import opened TranscriptStore
  import opened TranscriptProtocol
  import opened TranscriptRows

  /** Of the last installed snapshot that holds a row: how many of the row's
      messages it had when it was taken, and how many had been delivered when
      it was installed. */
  datatype Cut = Cut(taken: nat, heard: nat)

  /** By row number: `first` the contents of the rows that predate the
      subscription, `said` the contents announced since, `heard` how many of
      those were delivered, `cuts` the last snapshot. By fetch: `taken` how many
      messages had been said of each row when the engine read. `records` are the
      numbers that were the highest delivered so far, `high` the highest. */
  datatype History = History(w: World, first: map<nat, Content>, said: map<nat, seq<Content>>, heard: map<nat, nat>,
                             cuts: map<nat, Cut>, taken: map<nat, map<nat, nat>>, high: nat, records: set<nat>)

  function Numbers(rows: seq<Row>): set<nat> {
    set r | r in rows :: r.seqNo
  }

  /** The contents of the row with a number. */
  function ContentAt(rows: seq<Row>, n: nat): Option<Content> {
    if rows == [] then None
    else if rows[|rows| - 1].seqNo == n then Some(rows[|rows| - 1].content)
    else ContentAt(rows[..|rows| - 1], n)
  }

  function SaidOf(h: History, n: nat): seq<Content> {
    if n in h.said then h.said[n] else []
  }

  function Count(m: map<nat, nat>, n: nat): nat {
    if n in m then m[n] else 0
  }

  function CutOf(h: History, n: nat): Cut {
    if n in h.cuts then h.cuts[n] else Cut(0, 0)
  }

  function Base(h: History, n: nat): Content {
    if n in h.first then h.first[n] else map[]
  }

  function Counts(said: map<nat, seq<Content>>): map<nat, nat> {
    map n | n in said :: |said[n]|
  }

  ghost function Follow(h: History, e: Event): History {
    var w, v := h.w, Step(h.w, e);
    match e
    case EngineAppends(row) =>
      if Appendable(w.log, row) then h.(w := v, said := h.said[row.seqNo := [row.content]]) else h.(w := v)
    case EngineUpdates(k, content) =>
      if k < |w.log| && w.log[k].tool.Some?
      then h.(w := v, said := h.said[w.log[k].seqNo := SaidOf(h, w.log[k].seqNo) + [content]])
      else h.(w := v)
    case Deliver =>
      if w.channel == [] || w.channel[0].Created? then h.(w := v)
      else
        var n := w.channel[0].row.seqNo;
        h.(w := v, heard := h.heard[n := Count(h.heard, n) + 1],
           high := if n > h.high then n else h.high, records := if n > h.high then h.records + {n} else h.records)
    case BeginHydrate(_) => h.(w := v)
    case EngineReads(rid) =>
      if rid in w.fetches && w.fetches[rid].sample.None? then h.(w := v, taken := h.taken[rid := Counts(h.said)])
      else h.(w := v)
    case HydrateReply(rid, ok) =>
      if ok && rid in w.fetches && w.fetches[rid].sample.Some? && rid in h.taken
      then h.(w := v, cuts := h.cuts + map n | n in Numbers(w.fetches[rid].sample.value) ::
                                         Cut(Count(h.taken[rid], n), Count(h.heard, n)))
      else h.(w := v)
  }

  ghost function Live(h: History, es: seq<Event>): History {
    if es == [] then h else Follow(Live(h, es[..|es| - 1]), es[|es| - 1])
  }

  ghost function Begin(log: seq<Row>, created: bool): History {
    History(Start(log, created),
            if created then map[] else map n | n in Numbers(log) && ContentAt(log, n).Some? :: ContentAt(log, n).value,
            map[], map[], map[], map[], 0, {})
  }

  // --- contents put together from messages ---

  function Sum(cs: seq<Content>): Content {
    if cs == [] then map[] else Sum(cs[..|cs| - 1]) + cs[|cs| - 1]
  }

  /** The contents announced for a row and still on their way, in order. */
  function Queue(channel: seq<Message>, n: nat): seq<Content> {
    if channel == [] then []
    else if channel[0].Said? && channel[0].row.seqNo == n then [channel[0].row.content] + Queue(channel[1..], n)
    else Queue(channel[1..], n)
  }

  /** What the client shows of a row: the last snapshot, and every message
      delivered since over it. */
  function Shown(base: Content, said: seq<Content>, cut: Cut, heard: nat): Content
    requires cut.taken <= |said| && cut.heard <= heard <= |said|
  {
    base + Sum(said[..cut.taken]) + Sum(said[cut.heard..heard])
  }

  /** The fields that were updated after the snapshot was taken and delivered
      before it was installed, and not updated again since. */
  function Dropped(said: seq<Content>, cut: Cut): set<nat>
    requires cut.taken <= |said| && cut.heard <= |said|
  {
    if cut.taken >= cut.heard then {}
    else Sum(said[cut.taken..cut.heard]).Keys - Sum(said[cut.heard..]).Keys
  }

  lemma {:induction false} SumJoins(a: seq<Content>, b: seq<Content>)
    ensures Sum(a + b) == Sum(a) + Sum(b)
  {
    if b == [] {
      assert a + b == a;
      assert Sum(a) + map[] == Sum(a);
    } else {
      var n := |b| - 1;
      SumJoins(a, b[..n]);
      assert (a + b)[..|a + b| - 1] == a + b[..n] && (a + b)[|a + b| - 1] == b[n];
      assert (Sum(a) + Sum(b[..n])) + b[n] == Sum(a) + (Sum(b[..n]) + b[n]);
    }
  }

  function At(c: Content, f: nat): Option<nat> {
    if f in c then Some(c[f]) else None
  }

  lemma SumSplits(cs: seq<Content>, i: nat)
    requires i <= |cs|
    ensures Sum(cs) == Sum(cs[..i]) + Sum(cs[i..])
  {
    assert cs == cs[..i] + cs[i..];
    SumJoins(cs[..i], cs[i..]);
  }

  lemma SumTakes(said: seq<Content>, i: nat, j: nat)
    requires i <= j <= |said|
    ensures Sum(said[..j]) == Sum(said[..i]) + Sum(said[i..j])
  {
    SumSplits(said[..j], i);
    assert said[..j][..i] == said[..i] && said[..j][i..] == said[i..j];
  }

  lemma SumDrops(said: seq<Content>, i: nat, j: nat)
    requires i <= j <= |said|
    ensures Sum(said[i..]) == Sum(said[i..j]) + Sum(said[j..])
  {
    SumSplits(said[i..], j - i);
    assert said[i..][..j - i] == said[i..j] && said[i..][j - i..] == said[j..];
  }

  lemma SumsApart(said: seq<Content>, i: nat, j: nat)
    requires i <= j <= |said|
    ensures Sum(said[..j]) == Sum(said[..i]) + Sum(said[i..j])
    ensures Sum(said[i..]) == Sum(said[i..j]) + Sum(said[j..])
    ensures Sum(said) == Sum(said[..i]) + Sum(said[i..])
  {
    SumSplits(said, i);
    SumTakes(said, i, j);
    SumDrops(said, i, j);
  }

  /** The two ways to put three pieces together, field by field. */
  lemma Overlaid(base: Content, x: Content, y: Content, z: Content, f: nat)
    ensures At(base + x + z, f) == if f in y && f !in z then At(base + x, f) else At(base + (x + (y + z)), f)
    ensures At(base + (x + y) + (y + z), f) == At(base + (x + (y + z)), f)
  {
  }

  /** What is shown once everything was delivered, field by field: the engine's
      contents, but for the dropped fields, which are as the snapshot had them. */
  lemma ShownExactly(base: Content, said: seq<Content>, cut: Cut, f: nat)
    requires cut.taken <= |said| && cut.heard <= |said|
    ensures At(Shown(base, said, cut, |said|), f) ==
            if f in Dropped(said, cut) then At(base + Sum(said[..cut.taken]), f) else At(base + Sum(said), f)
  {
    var t, d := cut.taken, cut.heard;
    assert said[d..|said|] == said[d..];
    if t < d {
      SumsApart(said, t, d);
      Overlaid(base, Sum(said[..t]), Sum(said[t..d]), Sum(said[d..]), f);
    } else {
      SumsApart(said, d, t);
      Overlaid(base, Sum(said[..d]), Sum(said[d..t]), Sum(said[t..]), f);
    }
  }

  /** No message repeats a value an earlier one gave the same field. */
  ghost predicate NewValues(base: Content, said: seq<Content>) {
    && (forall i, f :: 0 <= i < |said| && f in said[i] && f in base ==> said[i][f] != base[f])
    && (forall i, j, f :: 0 <= i < j < |said| && f in said[i] && f in said[j] ==> said[i][f] != said[j][f])
  }

  /** A field of a sum has the value some summand gave it. */
  lemma {:induction false} SumHas(cs: seq<Content>, f: nat)
    requires f in Sum(cs)
    ensures exists i :: 0 <= i < |cs| && f in cs[i] && cs[i][f] == Sum(cs)[f]
  {
    var n := |cs| - 1;
    if f in cs[n] {
      assert cs[n][f] == Sum(cs)[f];
    } else {
      SumHas(cs[..n], f);
      var i :| 0 <= i < n && f in cs[..n][i] && cs[..n][i][f] == Sum(cs[..n])[f];
      assert cs[i] == cs[..n][i];
    }
  }

  /** A later value of a field is none of the earlier ones. */
  lemma LaterIsNew(base: Content, said: seq<Content>, t: nat, f: nat)
    requires t <= |said| && NewValues(base, said) && f in Sum(said[t..])
    ensures At(base, f) != At(Sum(said[t..]), f) && At(Sum(said[..t]), f) != At(Sum(said[t..]), f)
  {
    SumHas(said[t..], f);
    var i :| 0 <= i < |said[t..]| && f in said[t..][i] && said[t..][i][f] == Sum(said[t..])[f];
    assert said[t + i] == said[t..][i];
    if f in Sum(said[..t]) {
      SumHas(said[..t], f);
      var j :| 0 <= j < t && f in said[..t][j] && said[..t][j][f] == Sum(said[..t])[f];
      assert said[j] == said[..t][j];
    }
  }

  /** With no value ever repeated, a dropped field shows an outdated value or none. */
  lemma DroppedIsOutdated(base: Content, said: seq<Content>, cut: Cut, f: nat)
    requires cut.taken <= |said| && cut.heard <= |said| && f in Dropped(said, cut) && NewValues(base, said)
    ensures At(base + Sum(said[..cut.taken]), f) != At(base + Sum(said), f)
  {
    SumsApart(said, cut.taken, cut.heard);
    assert f in Sum(said[cut.taken..]);
    LaterIsNew(base, said, cut.taken, f);
  }
}
