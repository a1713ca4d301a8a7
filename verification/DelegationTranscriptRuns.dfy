/** Whole runs of the child-run transcript protocol: what is on show converges
    to the engine's rows. */
module DelegationTranscriptRuns {
  import opened Options
  import opened Ordered
  import opened DelegationRows
  import opened DelegationStore
  import opened DelegationTranscriptProtocol
  import opened TranscriptRows

  ghost function Run(w: World, es: seq<Event>): World
    decreases |es|
  {
    if es == [] then w else Run(Step(w, es[0]), es[1..])
  }

  /** The store as it subscribes to a run that already has `log`. */
  ghost function Init(log: seq<Row>): World {
    World([], false, log, [], map[], 0, |log|, false)
  }

  lemma {:induction false} RunKeeps(w: World, es: seq<Event>)
    requires Inv(w)
    ensures Inv(Run(w, es))
    decreases |es|
  {
    if es != [] {
      StepKeeps(w, es[0]);
      RunKeeps(Step(w, es[0]), es[1..]);
    }
  }

  lemma InitKeeps(log: seq<Row>)
    requires WellFormedLog(log)
    ensures Inv(Init(log))
  {
    forall j | 0 <= j < |log|
      ensures log[j].seqNo > 0
      ensures forall i :: 0 <= i < j ==>
                log[i].seqNo < log[j].seqNo && (log[i].tool.Some? ==> log[i].tool != log[j].tool)
    {
      assert Appendable(log[..j], log[j]);
      forall i | 0 <= i < j
        ensures log[i].seqNo < log[j].seqNo && (log[i].tool.Some? ==> log[i].tool != log[j].tool)
      {
        assert log[..j][i] == log[i];
      }
    }
  }

  /** Convergence. However live rows, updates, snapshots and repeated or failed
      fetches interleave, once every event is delivered and some fetch has
      succeeded the rows on show are the engine's rows, in order, contents
      included. No fetch need have finished last. */
  lemma TranscriptConvergesInEveryRun(log: seq<Row>, es: seq<Event>)
    requires WellFormedLog(log)
    ensures var w := Run(Init(log), es);
            w.channel == [] && w.hydrated ==> w.rows == w.log
  {
    InitKeeps(log);
    RunKeeps(Init(log), es);
    var w := Run(Init(log), es);
    if w.channel == [] && w.hydrated {
      forall r | r in w.log ensures r in w.rows {
        var i :| 0 <= i < |w.log| && w.log[i] == r;
        assert !Pending(w.channel, r.seqNo);
        assert Has(w.rows, r.seqNo);
        var s :| s in w.rows && s.seqNo == r.seqNo;
        var j :| 0 <= j < |w.log| && w.log[j] == s;
        OnePlace(w.log, i, j);
      }
      SameMembers(w.rows, w.log, Number);
    }
  }

  /** At every moment what is on show is in order, one version of each row, and
      at most one fetch is out, exactly while the run is marked as requested. */
  lemma TranscriptOrderedInEveryRun(log: seq<Row>, es: seq<Event>)
    requires WellFormedLog(log)
    ensures var w := Run(Init(log), es);
            && Increasing(w.rows, Number) && (forall r :: r in w.rows ==> VersionOf(r, w.log))
            && |w.fetches| == (if w.requested then 1 else 0)
  {
    InitKeeps(log);
    RunKeeps(Init(log), es);
  }
}
