/** The store's pending approval cards: what each stretch of its code between
    two awaits does to them. */
module ApprovalStore {
  import opened Options
  import opened ApprovalMerge

  function Keys(cards: seq<Card>): seq<string> {
    seq(|cards|, i requires 0 <= i < |cards| => ApprovalKey(cards[i]))
  }

  function Without(cards: seq<Card>, runId: string, requestId: string): seq<Card> {
    if cards == [] then []
    else
      var rest, last := Without(cards[..|cards| - 1], runId, requestId), cards[|cards| - 1];
      if last.runId != runId || last.requestId != requestId then rest + [last] else rest
  }

  /** The runners that answered, and what they listed, in the order asked. */
  function Answered(runners: seq<string>, replies: map<string, Option<seq<Card>>>): seq<string>
    requires forall r :: r in runners ==> r in replies
  {
    if runners == [] then []
    else
      var rest, last := Answered(runners[..|runners| - 1], replies), runners[|runners| - 1];
      if replies[last].Some? then rest + [last] else rest
  }

  function Listed(runners: seq<string>, replies: map<string, Option<seq<Card>>>): seq<Card>
    requires forall r :: r in runners ==> r in replies
  {
    if runners == [] then []
    else
      var rest, last := Listed(runners[..|runners| - 1], replies), runners[|runners| - 1];
      if replies[last].Some? then rest + replies[last].value else rest
  }

  ghost function FinishRefresh(live: seq<Card>, before: seq<string>, runners: seq<string>,
                               replies: map<string, Option<seq<Card>>>): seq<Card>
    requires forall r :: r in runners ==> r in replies
  {
    Merge(live, SetOf(before), Listed(runners, replies), SetOf(Answered(runners, replies)))
  }

  class Store {
    var pendingApprovals: seq<Card>

    constructor ()
      ensures pendingApprovals == []
    {
      pendingApprovals := [];
    }

    /** An arrival is appended, shown already or not. */
    method ApprovalRequested(card: Card)
      modifies this
      ensures pendingApprovals == old(pendingApprovals) + [card]
    {
      pendingApprovals := pendingApprovals + [card];
    }

    method ClearApproval(runId: string, requestId: string)
      modifies this
      ensures pendingApprovals == Without(old(pendingApprovals), runId, requestId)
    {
      var kept: seq<Card> := [];
      for i := 0 to |pendingApprovals|
        invariant pendingApprovals == old(pendingApprovals)
        invariant kept == Without(pendingApprovals[..i], runId, requestId)
      {
        assert pendingApprovals[..i + 1][..i] == pendingApprovals[..i];
        if pendingApprovals[i].runId != runId || pendingApprovals[i].requestId != requestId {
          kept := kept + [pendingApprovals[i]];
        }
      }
      assert pendingApprovals[..|pendingApprovals|] == pendingApprovals;
      pendingApprovals := kept;
    }

    /** The keys on show, taken before any request goes out. */
    method BeginRefresh() returns (before: seq<string>)
      ensures before == Keys(pendingApprovals)
    {
      before := Keys(pendingApprovals);
    }

    method RefreshReplied(before: seq<string>, runners: seq<string>, replies: map<string, Option<seq<Card>>>)
      requires forall r :: r in runners ==> r in replies
      modifies this
      ensures pendingApprovals == FinishRefresh(old(pendingApprovals), before, runners, replies)
    {
      var answered: seq<string>, fetched: seq<Card> := [], [];
      for i := 0 to |runners|
        invariant pendingApprovals == old(pendingApprovals)
        invariant answered == Answered(runners[..i], replies) && fetched == Listed(runners[..i], replies)
      {
        assert runners[..i + 1][..i] == runners[..i];
        if replies[runners[i]].Some? {
          answered, fetched := answered + [runners[i]], fetched + replies[runners[i]].value;
        }
      }
      assert runners[..|runners|] == runners;
      pendingApprovals := MergePendingApprovals(pendingApprovals, before, fetched, answered);
    }
  }

  lemma {:induction false} KeysHold(cards: seq<Card>)
    ensures forall k :: k in SetOf(Keys(cards)) <==> HasKey(cards, k)
  {
    forall k | HasKey(cards, k) ensures k in Keys(cards) {
      var i :| 0 <= i < |cards| && ApprovalKey(cards[i]) == k;
      assert Keys(cards)[i] == k;
    }
  }

  /** Clearing takes the request's cards out and leaves the others in order. */
  lemma {:induction false} WithoutKeepsTheRest(cards: seq<Card>, runId: string, requestId: string)
    ensures forall a :: a in Without(cards, runId, requestId) <==>
                        a in cards && !(a.runId == runId && a.requestId == requestId)
    ensures LeftOf(Without(cards, runId, requestId), cards)
  {
    if cards != [] {
      var init, last := cards[..|cards| - 1], cards[|cards| - 1];
      WithoutKeepsTheRest(init, runId, requestId);
      OneMoreLeft(Without(init, runId, requestId), init, last);
      assert cards == init + [last];
    }
  }

  /** The listings follow one another as their runners were asked. */
  lemma {:induction false} ListedJoins(first: seq<string>, later: seq<string>, replies: map<string, Option<seq<Card>>>)
    requires forall r :: r in first + later ==> r in replies
    ensures (forall r :: r in first ==> r in replies) && (forall r :: r in later ==> r in replies)
    ensures Listed(first + later, replies) == Listed(first, replies) + Listed(later, replies)
  {
    forall r | r in first || r in later ensures r in replies { assert r in first + later; }
    if later == [] {
      assert first + later == first;
    } else {
      var init := later[..|later| - 1];
      assert (first + later)[..|first + later| - 1] == first + init;
      ListedJoins(first, init, replies);
    }
  }

  lemma {:induction false} AnsweredHold(runners: seq<string>, replies: map<string, Option<seq<Card>>>)
    requires forall r :: r in runners ==> r in replies
    ensures forall r :: r in Answered(runners, replies) <==> r in runners && replies[r].Some?
  {
    if runners != [] {
      AnsweredHold(runners[..|runners| - 1], replies);
      assert runners == runners[..|runners| - 1] + [runners[|runners| - 1]];
    }
  }

  lemma {:induction false} ListedHold(runners: seq<string>, replies: map<string, Option<seq<Card>>>, a: Card)
    requires forall r :: r in runners ==> r in replies
    requires forall r, b :: r in runners && replies[r].Some? && b in replies[r].value ==> b.runnerId == r
    ensures a in Listed(runners, replies) <==>
            a.runnerId in runners && replies[a.runnerId].Some? && a in replies[a.runnerId].value
  {
    if runners != [] {
      ListedHold(runners[..|runners| - 1], replies, a);
      assert runners == runners[..|runners| - 1] + [runners[|runners| - 1]];
    }
  }
}
