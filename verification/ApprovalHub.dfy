/** The engine's registry of parked approvals. A receiver is a position in
    `channels`: the hub holds the sender of the ones still waiting. */
module ApprovalHub {
  import opened Options

  datatype ApprovalKey = ApprovalKey(runId: nat, requestId: nat)

  /** `grant` is everything in a response beyond allow or deny. */
  datatype ApprovalResponse = ApprovalResponse(allow: bool, grant: nat)

  function Once(allow: bool): ApprovalResponse {
    ApprovalResponse(allow, 0)
  }

  datatype Pending = Pending(sessionPk: Option<nat>, tx: nat)

  /** A receiver that saw its sender dropped is Closed. */
  datatype Channel = Waiting | Answered(response: ApprovalResponse) | Closed

  datatype State = State(pending: map<ApprovalKey, Pending>, channels: seq<Channel>)

  datatype Op =
    | Register(sessionPk: Option<nat>, key: ApprovalKey)
    | Resolve(key: ApprovalKey, response: ApprovalResponse)
    | ResolveSession(session: nat, allow: bool)

  /** Some entry among `keys` holds the sender of receiver `i`. */
  ghost predicate Holds(s: State, keys: set<ApprovalKey>, i: nat) {
    exists k :: k in keys && k in s.pending && s.pending[k].tx == i
  }

  ghost predicate EntriesWait(s: State) {
    forall k :: k in s.pending ==> s.pending[k].tx < |s.channels| && s.channels[s.pending[k].tx].Waiting?
  }

  ghost predicate EntriesDiffer(s: State) {
    forall k, l :: k in s.pending && l in s.pending && s.pending[k].tx == s.pending[l].tx ==> k == l
  }

  ghost predicate WaitersHeld(s: State) {
    forall i: nat :: i < |s.channels| && s.channels[i].Waiting? ==> Holds(s, s.pending.Keys, i)
  }

  /** Waiting receivers and map entries are in bijection. */
  ghost predicate Sound(s: State) {
    EntriesWait(s) && EntriesDiffer(s) && WaitersHeld(s)
  }

  ghost function Owned(s: State, session: nat): set<ApprovalKey> {
    set k | k in s.pending && s.pending[k].sessionPk == Some(session)
  }

  /** Inserting over an entry drops its sender. */
  ghost function Registered(s: State, sessionPk: Option<nat>, key: ApprovalKey): State {
    var closed := if key in s.pending && s.pending[key].tx < |s.channels|
                  then s.channels[s.pending[key].tx := Closed] else s.channels;
    State(s.pending[key := Pending(sessionPk, |s.channels|)], closed + [Waiting])
  }

  /** The entries of `keys` leave the map, their receivers get `response`, and
      nothing else changes. */
  ghost function AnswerAll(s: State, keys: set<ApprovalKey>, response: ApprovalResponse): State {
    State(s.pending - keys,
          seq(|s.channels|, i requires 0 <= i < |s.channels| =>
            if Holds(s, keys, i) then Answered(response) else s.channels[i]))
  }

  ghost function Step(s: State, op: Op): State {
    match op
    case Register(sessionPk, key) => Registered(s, sessionPk, key)
    case Resolve(key, response) => AnswerAll(s, {key}, response)
    case ResolveSession(session, allow) => AnswerAll(s, Owned(s, session), Once(allow))
  }

  const EMPTY := State(map[], [])

  class Hub {
    var pending: map<ApprovalKey, Pending>
    var channels: seq<Channel>

    ghost function View(): State
      reads this
    {
      State(pending, channels)
    }

    ghost predicate Valid()
      reads this
    {
      Sound(View())
    }

    constructor ()
      ensures Valid() && View() == EMPTY
    {
      pending, channels := map[], [];
    }

    method RegisterInner(sessionPk: Option<nat>, key: ApprovalKey) returns (rx: nat)
      requires Valid()
      modifies this
      ensures Valid() && rx == |old(channels)| && View() == Registered(old(View()), sessionPk, key)
    {
      RegisteredSound(View(), sessionPk, key);
      rx := |channels|;
      if key in pending {
        channels := channels[pending[key].tx := Closed];
      }
      channels := channels + [Waiting];
      pending := pending[key := Pending(sessionPk, rx)];
    }

    method Resolve(key: ApprovalKey, response: ApprovalResponse) returns (found: bool)
      requires Valid()
      modifies this
      ensures Valid() && found == (key in old(pending)) && View() == AnswerAll(old(View()), {key}, response)
    {
      AnswerAllSound(View(), {key}, response);
      AnswerNone(View(), {key}, response);
      found := key in pending;
      if found {
        AnswerOneMore(View(), {}, key, response);
        assert {} + {key} == {key};
        Answer(key, response);
      }
    }

    /** One entry leaves the map and its sender is used. */
    method Answer(key: ApprovalKey, response: ApprovalResponse)
      requires key in pending && pending[key].tx < |channels|
      modifies this
      ensures View() == State(old(pending) - {key}, old(channels)[old(pending)[key].tx := Answered(response)])
    {
      channels := channels[pending[key].tx := Answered(response)];
      pending := pending - {key};
    }

    method ResolveSession(session: nat, allow: bool) returns (count: nat)
      requires Valid()
      modifies this
      ensures Valid() && count == |Owned(old(View()), session)|
      ensures View() == AnswerAll(old(View()), Owned(old(View()), session), ApprovalResponse(allow, 0))
    {
      var keys := set k | k in pending && pending[k].sessionPk == Some(session);
      count := |keys|;
      ghost var s, owned := View(), keys;
      AnswerNone(s, {}, Once(allow));
      while keys != {}
        invariant keys <= owned == Owned(s, session)
        invariant View() == AnswerAll(s, owned - keys, Once(allow))
        decreases |keys|
      {
        var key :| key in keys;
        AnswerOneMore(s, owned - keys, key, Once(allow));
        assert owned - (keys - {key}) == owned - keys + {key};
        Answer(key, Once(allow));
        keys := keys - {key};
      }
      assert owned - keys == owned;
      AnswerAllSound(s, owned, Once(allow));
    }

    method HasPending() returns (any: bool)
      requires Valid()
      ensures any <==> exists i :: 0 <= i < |channels| && channels[i].Waiting?
    {
      any := pending != map[];
      if any {
        var k :| k in pending;
        assert channels[pending[k].tx].Waiting?;
      }
    }
  }

  lemma RegisteredHeld(s: State, sessionPk: Option<nat>, key: ApprovalKey, i: nat)
    requires Sound(s)
    ensures var t := Registered(s, sessionPk, key);
            i < |t.channels| && t.channels[i].Waiting? ==> Holds(t, t.pending.Keys, i)
  {
    var t := Registered(s, sessionPk, key);
    if i == |s.channels| {
      assert key in t.pending && t.pending[key].tx == i;
    } else if i < |t.channels| && t.channels[i].Waiting? {
      assert Holds(s, s.pending.Keys, i);
      var k :| k in s.pending && s.pending[k].tx == i;
      assert k != key && t.pending[k].tx == i;
    }
  }

  lemma RegisteredSound(s: State, sessionPk: Option<nat>, key: ApprovalKey)
    requires Sound(s)
    ensures Sound(Registered(s, sessionPk, key))
  {
    var t := Registered(s, sessionPk, key);
    forall i: nat | i < |t.channels| && t.channels[i].Waiting? ensures Holds(t, t.pending.Keys, i) {
      RegisteredHeld(s, sessionPk, key, i);
    }
  }

  lemma AnswerAllSound(s: State, keys: set<ApprovalKey>, response: ApprovalResponse)
    requires Sound(s)
    ensures Sound(AnswerAll(s, keys, response))
  {
    var t := AnswerAll(s, keys, response);
    forall i: nat | i < |t.channels| && t.channels[i].Waiting? ensures Holds(t, t.pending.Keys, i) {
      assert Holds(s, s.pending.Keys, i) && !Holds(s, keys, i);
      var k :| k in s.pending && s.pending[k].tx == i;
      assert k in t.pending;
    }
    forall k | k in t.pending ensures t.channels[t.pending[k].tx].Waiting? {
      assert !Holds(s, keys, s.pending[k].tx);
    }
  }

  lemma AnswerNone(s: State, keys: set<ApprovalKey>, response: ApprovalResponse)
    ensures AnswerAll(s, {}, response) == s
    ensures keys !! s.pending.Keys ==> AnswerAll(s, keys, response) == s
  {
    assert AnswerAll(s, {}, response).channels == s.channels;
    if keys !! s.pending.Keys {
      assert AnswerAll(s, keys, response).channels == s.channels;
      assert s.pending - keys == s.pending;
    }
  }

  lemma AnswerOneMore(s: State, keys: set<ApprovalKey>, key: ApprovalKey, response: ApprovalResponse)
    requires Sound(s) && key in s.pending && key !in keys
    ensures var t := AnswerAll(s, keys, response);
            && key in t.pending && t.pending[key] == s.pending[key] && t.pending[key].tx < |t.channels|
            && AnswerAll(s, keys + {key}, response) ==
                 State(t.pending - {key}, t.channels[t.pending[key].tx := Answered(response)])
  {
    var t, u := AnswerAll(s, keys, response), AnswerAll(s, keys + {key}, response);
    forall i: nat ensures Holds(s, keys + {key}, i) <==> Holds(s, keys, i) || s.pending[key].tx == i {
      if Holds(s, keys + {key}, i) && s.pending[key].tx != i {
        var k :| k in keys + {key} && k in s.pending && s.pending[k].tx == i;
        assert k in keys;
      }
      if Holds(s, keys, i) {
        var k :| k in keys && k in s.pending && s.pending[k].tx == i;
        assert k in keys + {key};
      }
      if s.pending[key].tx == i { assert key in keys + {key}; }
    }
    assert u.channels == t.channels[t.pending[key].tx := Answered(response)];
    assert u.pending == t.pending - {key};
  }

  // --- whole runs ---

  ghost function Run(s: State, ops: seq<Op>): State
    decreases |ops|
  {
    if ops == [] then s else Run(Step(s, ops[0]), ops[1..])
  }

  lemma StepKeeps(s: State, op: Op)
    requires Sound(s)
    ensures Sound(Step(s, op)) && |Step(s, op).channels| == |s.channels| + (if op.Register? then 1 else 0)
  {
    match op
    case Register(sessionPk, key) => RegisteredSound(s, sessionPk, key);
    case Resolve(key, response) => AnswerAllSound(s, {key}, response);
    case ResolveSession(session, allow) => AnswerAllSound(s, Owned(s, session), Once(allow));
  }

  lemma {:induction false} RunKeeps(s: State, ops: seq<Op>)
    requires Sound(s)
    ensures Sound(Run(s, ops))
    decreases |ops|
  {
    if ops != [] {
      StepKeeps(s, ops[0]);
      RunKeeps(Step(s, ops[0]), ops[1..]);
    }
  }

  /** What becomes of one registration, read off the operations after it alone:
      the first one that concerns it decides. */
  function Fate(key: ApprovalKey, sessionPk: Option<nat>, ops: seq<Op>): Channel {
    if ops == [] then Waiting
    else
      match ops[0]
      case Register(_, k) => if k == key then Closed else Fate(key, sessionPk, ops[1..])
      case Resolve(k, response) => if k == key then Answered(response) else Fate(key, sessionPk, ops[1..])
      case ResolveSession(session, allow) =>
        if sessionPk == Some(session) then Answered(ApprovalResponse(allow, 0)) else Fate(key, sessionPk, ops[1..])
  }

  lemma SettledStays(s: State, op: Op, i: nat)
    requires Sound(s) && i < |s.channels| && !s.channels[i].Waiting?
    ensures i < |Step(s, op).channels| && Step(s, op).channels[i] == s.channels[i]
  {
  }

  lemma StepDecides(s: State, op: Op, key: ApprovalKey)
    requires Sound(s) && key in s.pending
    ensures var p, t := s.pending[key], Step(s, op);
            && p.tx < |t.channels| && t.channels[p.tx] == Fate(key, p.sessionPk, [op])
            && (Fate(key, p.sessionPk, [op]).Waiting? ==> key in t.pending && t.pending[key] == p)
  {
    assert [op][1..] == [];
    var i := s.pending[key].tx;
    match op
    case Register(_, _) =>
    case Resolve(k, _) => assert k == key ==> Holds(s, {k}, i);
    case ResolveSession(session, _) => assert key in Owned(s, session) ==> Holds(s, Owned(s, session), i);
  }

  /** Each receiver gets at most one response: once settled it never changes. */
  lemma {:induction false} ResponsesAreFinal(s: State, ops: seq<Op>, i: nat)
    requires Sound(s) && i < |s.channels| && !s.channels[i].Waiting?
    ensures i < |Run(s, ops).channels| && Run(s, ops).channels[i] == s.channels[i]
    decreases |ops|
  {
    if ops != [] {
      SettledStays(s, ops[0], i);
      StepKeeps(s, ops[0]);
      ResponsesAreFinal(Step(s, ops[0]), ops[1..], i);
    }
  }

  lemma {:induction false} RunDecides(s: State, ops: seq<Op>, key: ApprovalKey)
    requires Sound(s) && key in s.pending
    ensures var p, t := s.pending[key], Run(s, ops);
            p.tx < |t.channels| && t.channels[p.tx] == Fate(key, p.sessionPk, ops)
    decreases |ops|
  {
    if ops != [] {
      var p, t := s.pending[key], Step(s, ops[0]);
      StepDecides(s, ops[0], key);
      StepKeeps(s, ops[0]);
      assert [ops[0]][1..] == [];
      if t.channels[p.tx].Waiting? {
        RunDecides(t, ops[1..], key);
      } else {
        ResponsesAreFinal(t, ops[1..], p.tx);
      }
    }
  }

  lemma {:induction false} RunOfTwo(s: State, earlier: seq<Op>, later: seq<Op>)
    ensures Run(s, earlier + later) == Run(Run(s, earlier), later)
    decreases |earlier|
  {
    if earlier == [] {
      assert earlier + later == later;
    } else {
      assert (earlier + later)[1..] == earlier[1..] + later;
      RunOfTwo(Step(s, earlier[0]), earlier[1..], later);
    }
  }

  /** Every receiver of every run ends as its fate says. */
  lemma EveryReceiverMeetsItsFate(earlier: seq<Op>, sessionPk: Option<nat>, key: ApprovalKey, later: seq<Op>)
    ensures var rx := |Run(EMPTY, earlier).channels|;
            var t := Run(EMPTY, earlier + [Register(sessionPk, key)] + later);
            rx < |t.channels| && t.channels[rx] == Fate(key, sessionPk, later)
  {
    var s := Run(EMPTY, earlier);
    var registered := [Register(sessionPk, key)];
    RunKeeps(EMPTY, earlier);
    RegisteredSound(s, sessionPk, key);
    RunOfTwo(EMPTY, earlier, registered);
    RunOfTwo(EMPTY, earlier + registered, later);
    assert registered[1..] == [];
    RunDecides(Registered(s, sessionPk, key), later, key);
  }

  // --- accounting ---

  function Registrations(ops: seq<Op>): nat {
    if ops == [] then 0 else (if ops[0].Register? then 1 else 0) + Registrations(ops[1..])
  }

  function Settled(channels: seq<Channel>): nat {
    if channels == [] then 0
    else (if channels[|channels| - 1].Waiting? then 0 else 1) + Settled(channels[..|channels| - 1])
  }

  lemma {:induction false} RunCounts(s: State, ops: seq<Op>)
    requires Sound(s)
    ensures |Run(s, ops).channels| == |s.channels| + Registrations(ops)
    decreases |ops|
  {
    if ops != [] {
      StepKeeps(s, ops[0]);
      RunCounts(Step(s, ops[0]), ops[1..]);
    }
  }

  ghost function HeldBelow(s: State, n: nat): set<ApprovalKey> {
    set k | k in s.pending && s.pending[k].tx < n
  }

  lemma OneMoreHeld(s: State, n: nat)
    requires Sound(s) && n < |s.channels|
    ensures |HeldBelow(s, n + 1)| == |HeldBelow(s, n)| + if s.channels[n].Waiting? then 1 else 0
  {
    if s.channels[n].Waiting? {
      assert Holds(s, s.pending.Keys, n);
      var k :| k in s.pending && s.pending[k].tx == n;
      assert HeldBelow(s, n + 1) == HeldBelow(s, n) + {k};
    } else {
      assert HeldBelow(s, n + 1) == HeldBelow(s, n);
    }
  }

  /** Entries holding one of the first `n` receivers are as many as those still waiting. */
  lemma {:induction false} WaitersCount(s: State, n: nat)
    requires Sound(s) && n <= |s.channels|
    ensures |HeldBelow(s, n)| + Settled(s.channels[..n]) == n
  {
    if n == 0 {
      assert HeldBelow(s, n) == {};
    } else {
      WaitersCount(s, n - 1);
      OneMoreHeld(s, n - 1);
      assert s.channels[..n][..n - 1] == s.channels[..n - 1];
    }
  }

  /** Over any run, registrations are those settled (answered or superseded)
      plus those still in the map, and waiters and entries stay in bijection. */
  lemma RegistrationsAreAccountedFor(ops: seq<Op>)
    ensures var t := Run(EMPTY, ops);
            Sound(t) && Registrations(ops) == Settled(t.channels) + |t.pending|
  {
    var t := Run(EMPTY, ops);
    RunKeeps(EMPTY, ops);
    RunCounts(EMPTY, ops);
    WaitersCount(t, |t.channels|);
    assert t.channels[..|t.channels|] == t.channels;
    assert t.pending.Keys == HeldBelow(t, |t.channels|);
  }
}
