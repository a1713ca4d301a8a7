/** The slash-catalog cache against the engine, with any number of mutations
    and fetches in flight. */
module SlashCatalogProtocol {
  import opened Options
  import opened SlashCatalog

  /** A fetch in flight: the token it was sent with, the acknowledgements the
      store had seen then, and what the engine answered once it has read. */
  datatype Fetch = Fetch(token: nat, asked: nat, sample: Option<Catalog>)

  /** An installed reply: acknowledgements seen when it was asked for and when
      it was installed, what it shows, and the newest mutation acknowledged by then. */
  datatype Install = Install(key: string, asked: nat, installed: nat, shows: Catalog, acknowledged: nat)

  /** `applied` counts the mutations the engine has applied, `sent` the fetches
      sent for each key; a fetch is told by its key and its number; a mutation in
      flight holds its number once applied; `failed` are the keys whose latest
      fetch failed. */
  datatype World = World(client: Client, applied: nat, fetches: map<(string, nat), Fetch>, sent: map<string, nat>,
                         mutations: map<nat, Option<nat>>, next: nat,
                         acks: nat, acknowledged: nat, installs: seq<Install>, failed: set<string>)

  datatype Event =
    | Load(p: Pairing)
    | EngineReads(key: string, n: nat)
    | FetchReply(key: string, n: nat, ok: bool)
    | Mutate
    | EngineApplies(mid: nat)
    | MutationReply(mid: nat, ok: bool)

  const INIT := World(EMPTY, 0, map[], map[], map[], 0, 0, 0, [], {})

  function SentFor(sent: map<string, nat>, key: string): nat {
    if key in sent then sent[key] else 0
  }

  /** One more fetch for each of these keys. */
  function OneMoreEach(sent: map<string, nat>, keys: set<string>): map<string, nat> {
    map k | k in sent.Keys + keys :: SentFor(sent, k) + if k in keys then 1 else 0
  }

  /** The fetches of all known pairings, each with its token as it now is. */
  function SendAll(w: World, c: Client, sent: map<string, nat>, acks: nat): map<(string, nat), Fetch> {
    w.fetches + map k | k in c.tokens :: (k, SentFor(sent, k)) := Fetch(c.tokens[k], acks, None)
  }

  function Max(a: nat, b: nat): nat {
    if a < b then b else a
  }

  function Installed(w: World, key: string, n: nat, f: Fetch): World
    requires f.sample.Some?
  {
    var c := FinishLoad(w.client, key, f.token, f.sample);
    w.(client := c, fetches := w.fetches - {(key, n)},
       installs := if c != w.client || TokenOf(w.client.tokens, key) == f.token
                   then w.installs + [Install(key, f.asked, w.acks, f.sample.value, w.acknowledged)] else w.installs)
  }

  function Failed(w: World, key: string, n: nat): World {
    w.(fetches := w.fetches - {(key, n)},
       failed := if SentFor(w.sent, key) == n then w.failed + {key} else w.failed)
  }

  function Acknowledged(w: World, mid: nat, version: nat): World {
    var c, sent := Acknowledge(w.client), OneMoreEach(w.sent, w.client.params.Keys);
    w.(client := c, mutations := w.mutations - {mid}, fetches := SendAll(w, c, sent, w.acks + 1), sent := sent,
       acks := w.acks + 1, acknowledged := Max(w.acknowledged, version), failed := {})
  }

  function Loaded(w: World, p: Pairing): World {
    var c, key, sent := BeginLoad(w.client, p), CatalogKey(p), OneMoreEach(w.sent, {CatalogKey(p)});
    w.(client := c, fetches := w.fetches[(key, sent[key]) := Fetch(TokenOf(c.tokens, key), w.acks, None)],
       sent := sent, failed := w.failed - {key})
  }

  function Step(w: World, e: Event): World {
    match e
    case Load(p) => Loaded(w, p)
    case EngineReads(key, n) =>
      if (key, n) in w.fetches && w.fetches[(key, n)].sample.None?
      then w.(fetches := w.fetches[(key, n) := w.fetches[(key, n)].(sample := Some(w.applied))])
      else w
    case FetchReply(key, n, ok) =>
      if (key, n) !in w.fetches then w
      else if !ok then Failed(w, key, n)
      else if w.fetches[(key, n)].sample.Some? then Installed(w, key, n, w.fetches[(key, n)])
      else w
    case Mutate => w.(mutations := w.mutations[w.next := None], next := w.next + 1)
    case EngineApplies(mid) =>
      if mid in w.mutations && w.mutations[mid].None?
      then w.(applied := w.applied + 1, mutations := w.mutations[mid := Some(w.applied + 1)])
      else w
    case MutationReply(mid, ok) =>
      if mid !in w.mutations then w
      else if !ok then w.(mutations := w.mutations - {mid})
      else if w.mutations[mid].Some? then Acknowledged(w, mid, w.mutations[mid].value)
      else w
  }

  function Run(w: World, es: seq<Event>): World
    decreases |es|
  {
    if es == [] then w else Run(Step(w, es[0]), es[1..])
  }

  /** A fetch has its pairing's current token exactly if it is the last one sent
      for it; that one was asked for since the last acknowledgement, and what it
      has read is not older than that. */
  ghost predicate FetchSound(w: World, key: string, n: nat) {
    (key, n) in w.fetches ==>
      var f := w.fetches[(key, n)];
      && n <= SentFor(w.sent, key) && key in w.client.tokens && f.token <= w.client.tokens[key]
      && (f.token == w.client.tokens[key] <==> n == SentFor(w.sent, key))
      && (n == SentFor(w.sent, key) ==> f.asked == w.acks && (f.sample.Some? ==> f.sample.value >= w.acknowledged))
  }

  /** A known pairing shows every acknowledged mutation, or a fetch that will
      is under way, or its latest fetch failed. */
  ghost predicate PairingSound(w: World, key: string) {
    key in w.client.params ==>
      || (key in w.client.cache && w.client.cache[key] >= w.acknowledged)
      || (key, SentFor(w.sent, key)) in w.fetches
      || key in w.failed
  }

  ghost predicate InstallSound(i: Install) {
    i.asked == i.installed && i.shows >= i.acknowledged
  }

  ghost predicate Inv(w: World) {
    && Coherent(w.client)
    && w.acknowledged <= w.applied
    && (forall mid :: mid in w.mutations && w.mutations[mid].Some? ==> w.mutations[mid].value <= w.applied)
    && (forall key, n :: FetchSound(w, key, n))
    && (forall key :: PairingSound(w, key))
    && (forall i :: 0 <= i < |w.installs| ==> InstallSound(w.installs[i]))
  }

  lemma LoadKeeps(w: World, p: Pairing)
    requires Inv(w)
    ensures Inv(Loaded(w, p))
  {
    var v := Loaded(w, p);
    forall key, n ensures FetchSound(v, key, n) { assert FetchSound(w, key, n); }
    forall key ensures PairingSound(v, key) { assert PairingSound(w, key); }
  }

  lemma ReadKeeps(w: World, key: string, n: nat)
    requires Inv(w)
    ensures Inv(Step(w, EngineReads(key, n)))
  {
    var v := Step(w, EngineReads(key, n));
    forall k, t ensures FetchSound(v, k, t) { assert FetchSound(w, k, t); }
    forall k ensures PairingSound(v, k) { assert PairingSound(w, k); }
  }

  lemma InstallKeeps(w: World, key: string, n: nat)
    requires Inv(w) && (key, n) in w.fetches && w.fetches[(key, n)].sample.Some?
    ensures Inv(Installed(w, key, n, w.fetches[(key, n)]))
  {
    var v := Installed(w, key, n, w.fetches[(key, n)]);
    assert FetchSound(w, key, n);
    forall k, t ensures FetchSound(v, k, t) { assert FetchSound(w, k, t); }
    forall k ensures PairingSound(v, k) { assert PairingSound(w, k); }
  }

  lemma FailKeeps(w: World, key: string, n: nat)
    requires Inv(w) && (key, n) in w.fetches
    ensures Inv(Failed(w, key, n))
  {
    var v := Failed(w, key, n);
    assert FetchSound(w, key, n);
    forall k, t ensures FetchSound(v, k, t) { assert FetchSound(w, k, t); }
    forall k ensures PairingSound(v, k) { assert PairingSound(w, k); }
  }

  lemma AcknowledgeKeeps(w: World, mid: nat)
    requires Inv(w) && mid in w.mutations && w.mutations[mid].Some?
    ensures Inv(Acknowledged(w, mid, w.mutations[mid].value))
  {
    var v := Acknowledged(w, mid, w.mutations[mid].value);
    forall k, t ensures FetchSound(v, k, t) { assert FetchSound(w, k, t); }
    forall k ensures PairingSound(v, k) {
      if k in v.client.params { assert (k, SentFor(v.sent, k)) in v.fetches; }
    }
  }

  lemma StepKeeps(w: World, e: Event)
    requires Inv(w)
    ensures Inv(Step(w, e))
  {
    var v := Step(w, e);
    match e
    case Load(p) => LoadKeeps(w, p);
    case EngineReads(key, n) => ReadKeeps(w, key, n);
    case FetchReply(key, n, ok) =>
      if (key, n) in w.fetches {
        if !ok { FailKeeps(w, key, n); }
        else if w.fetches[(key, n)].sample.Some? { InstallKeeps(w, key, n); }
      }
    case MutationReply(mid, ok) =>
      if mid in w.mutations && ok && w.mutations[mid].Some? {
        AcknowledgeKeeps(w, mid);
      } else {
        forall k, t ensures FetchSound(v, k, t) { assert FetchSound(w, k, t); }
        forall k ensures PairingSound(v, k) { assert PairingSound(w, k); }
      }
    case _ =>
      forall k, t ensures FetchSound(v, k, t) { assert FetchSound(w, k, t); }
      forall k ensures PairingSound(v, k) { assert PairingSound(w, k); }
  }

  lemma {:induction false} RunKeeps(w: World, es: seq<Event>)
    requires Inv(w)
    ensures Inv(Run(w, es))
    decreases |es|
  {
    if es != [] {
      StepKeeps(w, es[0]);
      RunKeeps(Step(w, es[0]), es[1..]);
    }
  }

  /** In every run: a reply installed after an acknowledgement was asked for
      after it, and shows every mutation acknowledged by then. */
  lemma NoStaleInstallInAnyRun(es: seq<Event>, i: nat)
    requires i < |Run(INIT, es).installs|
    ensures var x := Run(INIT, es).installs[i];
            x.asked == x.installed && x.shows >= x.acknowledged
  {
    RunKeeps(INIT, es);
    assert InstallSound(Run(INIT, es).installs[i]);
  }

  /** In every run a successful reply installs what it brings exactly if its fetch
      is the last one sent for the pairing, and changes no other entry. */
  lemma LastReplyInstalls(es: seq<Event>, key: string, n: nat)
    requires var w := Run(INIT, es); (key, n) in w.fetches && w.fetches[(key, n)].sample.Some?
    ensures var w, v := Run(INIT, es), Step(Run(INIT, es), FetchReply(key, n, true));
            v.client.cache ==
              if n == SentFor(w.sent, key) then w.client.cache[key := w.fetches[(key, n)].sample.value]
              else w.client.cache
  {
    RunKeeps(INIT, es);
    assert FetchSound(Run(INIT, es), key, n);
  }

  /** In every run: a pairing ever asked for shows every acknowledged mutation,
      or a fetch asked since the last acknowledgement is under way for it, or
      its latest such fetch failed. */
  lemma EveryPairingIsRefreshed(es: seq<Event>, earlier: seq<Event>, p: Pairing)
    ensures var w, key := Run(INIT, earlier + [Load(p)] + es), CatalogKey(p);
            || (key in w.client.cache && w.client.cache[key] >= w.acknowledged)
            || ((key, SentFor(w.sent, key)) in w.fetches && w.fetches[(key, SentFor(w.sent, key))].asked == w.acks)
            || key in w.failed
  {
    var w, key := Run(INIT, earlier + [Load(p)] + es), CatalogKey(p);
    var v := Run(INIT, earlier + [Load(p)]);
    RunOfTwo(INIT, earlier, [Load(p)]);
    assert [Load(p)][1..] == [];
    RunOfTwo(INIT, earlier + [Load(p)], es);
    ParamsGrow(v, es);
    RunKeeps(INIT, earlier + [Load(p)] + es);
    assert PairingSound(w, key);
    assert FetchSound(w, key, SentFor(w.sent, key));
  }

  lemma {:induction false} RunOfTwo(w: World, earlier: seq<Event>, later: seq<Event>)
    ensures Run(w, earlier + later) == Run(Run(w, earlier), later)
    decreases |earlier|
  {
    if earlier == [] {
      assert earlier + later == later;
    } else {
      assert (earlier + later)[1..] == earlier[1..] + later;
      RunOfTwo(Step(w, earlier[0]), earlier[1..], later);
    }
  }

  lemma {:induction false} ParamsGrow(w: World, es: seq<Event>)
    ensures w.client.params.Keys <= Run(w, es).client.params.Keys
    decreases |es|
  {
    if es != [] { ParamsGrow(Step(w, es[0]), es[1..]); }
  }
}
