/** Reconciling the live approval cards with freshly fetched ones. */
module ApprovalMerge {
  import opened JoinedKeys

  /** A card; `payload` is everything but what identifies it. */
  datatype Card = Card(runnerId: string, runId: string, requestId: string, payload: nat)

  function ApprovalKey(a: Card): string {
    a.runnerId + ":" + a.runId + ":" + a.requestId
  }

  ghost predicate HasKey(cards: seq<Card>, key: string) {
    exists i :: 0 <= i < |cards| && ApprovalKey(cards[i]) == key
  }

  ghost predicate NoRepeats(cards: seq<Card>) {
    forall i, j :: 0 <= i < j < |cards| ==> ApprovalKey(cards[i]) != ApprovalKey(cards[j])
  }

  /** A live card the merge wants: its runner was not refreshed, or the card
      was not there when the refresh began. */
  predicate Wanted(a: Card, before: set<string>, refreshed: set<string>) {
    a.runnerId !in refreshed || ApprovalKey(a) !in before
  }

  function SetOf(s: seq<string>): set<string> {
    set x | x in s
  }

  method MergePendingApprovals(live: seq<Card>, before: seq<string>, fetched: seq<Card>,
                               refreshedRunnerIds: seq<string>)
    returns (out: seq<Card>)
    ensures out == Merge(live, SetOf(before), fetched, SetOf(refreshedRunnerIds))
  {
    var refreshed, beforeKeys := SetOf(refreshedRunnerIds), SetOf(before);
    out := [];
    var seen: set<string> := {};
    for i := 0 to |fetched|
      invariant out == PushAll([], fetched[..i])
      invariant forall k :: k in seen <==> HasKey(out, k)
    {
      assert fetched[..i + 1][..i] == fetched[..i];
      var key := ApprovalKey(fetched[i]);
      if key !in seen {
        PushKeys(out, fetched[i]);
        seen := seen + {key};
        out := out + [fetched[i]];
      }
    }
    assert fetched[..|fetched|] == fetched;
    for i := 0 to |live|
      invariant out == PushAll(PushAll([], fetched), Filter(live[..i], beforeKeys, refreshed))
      invariant forall k :: k in seen <==> HasKey(out, k)
    {
      assert live[..i + 1][..i] == live[..i];
      var key := ApprovalKey(live[i]);
      if live[i].runnerId !in refreshed || key !in beforeKeys {
        PushLast(PushAll([], fetched), Filter(live[..i], beforeKeys, refreshed), live[i]);
        if key !in seen {
          PushKeys(out, live[i]);
          seen := seen + {key};
          out := out + [live[i]];
        }
      }
    }
    assert live[..|live|] == live;
  }

  /** The first card of a key stays. */
  ghost function Push(out: seq<Card>, a: Card): seq<Card> {
    if HasKey(out, ApprovalKey(a)) then out else out + [a]
  }

  ghost function PushAll(out: seq<Card>, cards: seq<Card>): seq<Card> {
    if cards == [] then out else Push(PushAll(out, cards[..|cards| - 1]), cards[|cards| - 1])
  }

  function Filter(live: seq<Card>, before: set<string>, refreshed: set<string>): seq<Card> {
    if live == [] then []
    else
      var rest, last := Filter(live[..|live| - 1], before, refreshed), live[|live| - 1];
      if Wanted(last, before, refreshed) then rest + [last] else rest
  }

  ghost function Merge(live: seq<Card>, before: set<string>, fetched: seq<Card>, refreshed: set<string>): seq<Card> {
    PushAll(PushAll([], fetched), Filter(live, before, refreshed))
  }

  lemma PushKeys(out: seq<Card>, a: Card)
    ensures forall k :: HasKey(Push(out, a), k) <==> HasKey(out, k) || k == ApprovalKey(a)
    ensures !HasKey(out, ApprovalKey(a)) ==> forall k :: HasKey(out + [a], k) <==> HasKey(out, k) || k == ApprovalKey(a)
  {
    var p := out + [a];
    assert p[|out|] == a;
    forall k | HasKey(out, k) ensures HasKey(p, k) {
      var i :| 0 <= i < |out| && ApprovalKey(out[i]) == k;
      assert p[i] == out[i];
    }
  }

  lemma PushLast(out: seq<Card>, cards: seq<Card>, a: Card)
    ensures PushAll(out, cards + [a]) == Push(PushAll(out, cards), a)
  {
    assert (cards + [a])[..|cards|] == cards;
  }

  /** Pushing keeps what is there, adds exactly the missing keys, never repeats
      one, and adds only cards of the list. */
  lemma {:induction false} Pushes(out: seq<Card>, cards: seq<Card>)
    requires NoRepeats(out)
    ensures var p := PushAll(out, cards);
            && NoRepeats(p) && out <= p
            && (forall k :: HasKey(p, k) <==> HasKey(out, k) || HasKey(cards, k))
            && (forall a :: a in p ==> a in out || a in cards)
  {
    if cards != [] {
      var init, last := cards[..|cards| - 1], cards[|cards| - 1];
      assert cards == init + [last];
      Pushes(out, init);
      PushKeys(PushAll(out, init), last);
      forall k ensures HasKey(cards, k) <==> HasKey(init, k) || k == ApprovalKey(last) {
        if HasKey(init, k) {
          var i :| 0 <= i < |init| && ApprovalKey(init[i]) == k;
          assert cards[i] == init[i];
        }
        if k == ApprovalKey(last) { assert cards[|init|] == last; }
      }
    }
  }

  lemma {:induction false} Filters(live: seq<Card>, before: set<string>, refreshed: set<string>)
    ensures forall a :: a in Filter(live, before, refreshed) <==> a in live && Wanted(a, before, refreshed)
  {
    if live != [] {
      Filters(live[..|live| - 1], before, refreshed);
      assert live == live[..|live| - 1] + [live[|live| - 1]];
    }
  }

  /** `s` is what is left of `t` when some cards are taken out of it. */
  predicate LeftOf(s: seq<Card>, t: seq<Card>) {
    if t == [] then s == []
    else
      var init, last := t[..|t| - 1], t[|t| - 1];
      LeftOf(s, init) || (s != [] && s[|s| - 1] == last && LeftOf(s[..|s| - 1], init))
  }

  lemma {:induction false} NothingIsLeft(t: seq<Card>)
    ensures LeftOf([], t)
  {
    if t != [] { NothingIsLeft(t[..|t| - 1]); }
  }

  lemma OneMoreLeft(s: seq<Card>, t: seq<Card>, a: Card)
    requires LeftOf(s, t)
    ensures LeftOf(s, t + [a]) && LeftOf(s + [a], t + [a])
  {
    assert (t + [a])[..|t|] == t && (s + [a])[..|s|] == s;
  }

  /** Leaving out of what was left out of. */
  lemma {:induction false} LeftOfLeft(s: seq<Card>, t: seq<Card>, u: seq<Card>)
    requires LeftOf(s, t) && LeftOf(t, u)
    ensures LeftOf(s, u)
    decreases |u|
  {
    if u != [] && !LeftOf(t, u[..|u| - 1]) {
      if LeftOf(s, t[..|t| - 1]) {
        LeftOfLeft(s, t[..|t| - 1], u[..|u| - 1]);
      } else {
        LeftOfLeft(s[..|s| - 1], t[..|t| - 1], u[..|u| - 1]);
      }
    } else if u != [] {
      LeftOfLeft(s, t, u[..|u| - 1]);
    }
  }

  lemma {:induction false} FilterLeaves(live: seq<Card>, before: set<string>, refreshed: set<string>)
    ensures LeftOf(Filter(live, before, refreshed), live)
  {
    if live != [] {
      var init, last := live[..|live| - 1], live[|live| - 1];
      FilterLeaves(init, before, refreshed);
      OneMoreLeft(Filter(init, before, refreshed), init, last);
      assert live == init + [last];
    }
  }

  /** Pushing puts what it adds at the end, in order. */
  lemma {:induction false} PushLeaves(out: seq<Card>, cards: seq<Card>)
    ensures out <= PushAll(out, cards) && LeftOf(PushAll(out, cards)[|out|..], cards)
  {
    if cards == [] {
      assert out[|out|..] == [];
    } else {
      var init, last := cards[..|cards| - 1], cards[|cards| - 1];
      PushLeaves(out, init);
      var p := PushAll(out, init);
      OneMoreLeft(p[|out|..], init, last);
      assert cards == init + [last];
      assert (p + [last])[|out|..] == p[|out|..] + [last];
    }
  }

  /** The fetched cards come first, then the live ones; of each list the cards
      that stay keep their order. */
  lemma MergeKeepsOrder(live: seq<Card>, before: set<string>, fetched: seq<Card>, refreshed: set<string>)
    returns (n: nat)
    ensures var m := Merge(live, before, fetched, refreshed);
            n <= |m| && LeftOf(m[..n], fetched) && LeftOf(m[n..], live)
  {
    var first, rest := PushAll([], fetched), Filter(live, before, refreshed);
    PushLeaves([], fetched);
    assert first[0..] == first;
    PushLeaves(first, rest);
    FilterLeaves(live, before, refreshed);
    n := |first|;
    assert PushAll(first, rest)[..n] == first;
    LeftOfLeft(PushAll(first, rest)[n..], rest, live);
  }

  lemma KeyOf(cards: seq<Card>, key: string)
    ensures HasKey(cards, key) <==> exists a :: a in cards && ApprovalKey(a) == key
  {
    if HasKey(cards, key) {
      var i :| 0 <= i < |cards| && ApprovalKey(cards[i]) == key;
      assert cards[i] in cards;
    }
  }

  /** The merge rules, exactly: no key repeats; the keys are those fetched and
      those of wanted live cards; every card comes from one of the two lists,
      and from the fetched one when its key was fetched. */
  lemma MergeRules(live: seq<Card>, before: set<string>, fetched: seq<Card>, refreshed: set<string>)
    ensures var m := Merge(live, before, fetched, refreshed);
            && NoRepeats(m)
            && (forall k :: HasKey(m, k) <==>
                  HasKey(fetched, k) || exists a :: a in live && Wanted(a, before, refreshed) && ApprovalKey(a) == k)
            && (forall a :: a in m ==> a in fetched || (a in live && Wanted(a, before, refreshed)))
            && (forall a :: a in m && HasKey(fetched, ApprovalKey(a)) ==> a in fetched)
  {
    var first, rest := PushAll([], fetched), Filter(live, before, refreshed);
    var m := PushAll(first, rest);
    Pushes([], fetched);
    Pushes(first, rest);
    Filters(live, before, refreshed);
    forall k ensures HasKey(rest, k) <==> exists a :: a in live && Wanted(a, before, refreshed) && ApprovalKey(a) == k {
      KeyOf(rest, k);
    }
    forall a | a in m && HasKey(fetched, ApprovalKey(a)) ensures a in fetched {
      var i :| 0 <= i < |m| && m[i] == a;
      assert HasKey(first, ApprovalKey(a));
      var j :| 0 <= j < |first| && ApprovalKey(first[j]) == ApprovalKey(a);
      assert m[j] == first[j];
      assert i == j;
    }
  }

  // --- how far a key identifies a card ---

  /** With no colon in runner and run ids, the key identifies the request. */
  lemma KeyIdentifies(a: Card, b: Card)
    requires NoColon(a.runnerId) && NoColon(a.runId) && NoColon(b.runnerId) && NoColon(b.runId)
    ensures ApprovalKey(a) == ApprovalKey(b) <==>
            a.runnerId == b.runnerId && a.runId == b.runId && a.requestId == b.requestId
  {
    if ApprovalKey(a) == ApprovalKey(b) {
      assert ApprovalKey(a) == a.runnerId + ":" + (a.runId + ":" + a.requestId);
      assert ApprovalKey(b) == b.runnerId + ":" + (b.runId + ":" + b.requestId);
      SplitsOneWay(a.runnerId, a.runId + ":" + a.requestId, b.runnerId, b.runId + ":" + b.requestId, ":");
      SplitsOneWay(a.runId, a.requestId, b.runId, b.requestId, ":");
    }
  }

  /** Same request, whatever the rest of the card says. */
  predicate SameRequest(a: Card, b: Card) {
    a.runnerId == b.runnerId && a.runId == b.runId && a.requestId == b.requestId
  }

  /** A colon inside an id is another place to split the key. */
  lemma ColonMakesTwin(a: Card) returns (b: Card)
    requires !NoColon(a.runnerId) || !NoColon(a.runId) || !NoColon(a.requestId)
    ensures ApprovalKey(b) == ApprovalKey(a) && !SameRequest(b, a)
  {
    if !NoColon(a.runnerId) {
      var x, y := SplitAtColon(a.runnerId);
      b := Card(x, y + ":" + a.runId, a.requestId, a.payload);
    } else if !NoColon(a.runId) {
      var x, y := SplitAtColon(a.runId);
      b := Card(a.runnerId + ":" + x, y, a.requestId, a.payload);
    } else {
      var x, y := SplitAtColon(a.requestId);
      b := Card(a.runnerId, a.runId + ":" + x, y, a.payload);
    }
    assert ApprovalKey(b) == ApprovalKey(a);
  }

  lemma SeparatorAt(a: Card, i: nat)
    requires i < |ApprovalKey(a)|
    ensures i == |a.runnerId| || i == |a.runnerId| + 1 + |a.runId| ==> ApprovalKey(a)[i] == ':'
    ensures NoColon(a.runnerId) && NoColon(a.runId) && NoColon(a.requestId) && ApprovalKey(a)[i] == ':' ==>
            i == |a.runnerId| || i == |a.runnerId| + 1 + |a.runId|
  {
    var j := i - |a.runnerId| - 1;
    if i < |a.runnerId| {
      assert ApprovalKey(a)[i] == a.runnerId[i];
    } else if 0 <= j < |a.runId| {
      assert ApprovalKey(a)[i] == a.runId[j];
    } else if j > |a.runId| {
      assert ApprovalKey(a)[i] == a.requestId[j - |a.runId| - 1];
    }
  }

  lemma OneSplit(a: Card, b: Card)
    requires NoColon(a.runnerId) && NoColon(a.runId) && NoColon(a.requestId) && ApprovalKey(b) == ApprovalKey(a)
    ensures SameRequest(b, a)
  {
    var key, i, j := ApprovalKey(a), |b.runnerId|, |b.runnerId| + 1 + |b.runId|;
    SeparatorAt(b, i);
    SeparatorAt(b, j);
    SeparatorAt(a, i);
    SeparatorAt(a, j);
    assert a.runnerId == key[..i] && b.runnerId == ApprovalKey(b)[..i];
    assert a.runId == key[i + 1..j] && b.runId == ApprovalKey(b)[i + 1..j];
    assert a.requestId == key[j + 1..] && b.requestId == ApprovalKey(b)[j + 1..];
  }

  /** The key of a request is no other request's if and only if none of its ids
      holds a colon. */
  lemma KeyIsOwnExactly(a: Card)
    ensures (forall b :: ApprovalKey(b) == ApprovalKey(a) ==> SameRequest(b, a))
            <==> NoColon(a.runnerId) && NoColon(a.runId) && NoColon(a.requestId)
  {
    if NoColon(a.runnerId) && NoColon(a.runId) && NoColon(a.requestId) {
      forall b | ApprovalKey(b) == ApprovalKey(a) ensures SameRequest(b, a) { OneSplit(a, b); }
    } else {
      var b := ColonMakesTwin(a);
    }
  }
}
