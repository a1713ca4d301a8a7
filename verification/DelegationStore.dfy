/** The delegation store: child-run transcripts (live rows merged with fetched
    ones), the roster of runs, and the runs ever seen in each dispatch slot. */
module DelegationStore {
  import opened Options
  import opened TranscriptRows

  type SessionKey = nat

  /** A child run of a session. */
  datatype RunKey = RunKey(session: SessionKey, run: nat)

  datatype Status = Idle | Loading | Ready | Failed

  // --- transcripts ---

  /** Where the stable sort puts `m` among rows already in order. */
  function InsertBySeq(rows: seq<Row>, m: Row): seq<Row> {
    if rows == [] || rows[|rows| - 1].seqNo <= m.seqNo then rows + [m]
    else InsertBySeq(rows[..|rows| - 1], m) + [rows[|rows| - 1]]
  }

  /** `sort` by number: stable, so equal numbers keep their order. */
  function SortBySeq(rows: seq<Row>): seq<Row> {
    if rows == [] then [] else InsertBySeq(SortBySeq(rows[..|rows| - 1]), rows[|rows| - 1])
  }

  function FindSeq(rows: seq<Row>, seqNo: nat): (k: nat)
    ensures k <= |rows|
    ensures k < |rows| ==> rows[k].seqNo == seqNo
    ensures forall i :: 0 <= i < k ==> rows[i].seqNo != seqNo
  {
    if rows == [] || rows[0].seqNo == seqNo then 0 else 1 + FindSeq(rows[1..], seqNo)
  }

  function UpsertLiveMessage(rows: seq<Row>, m: Row): seq<Row> {
    var k := if m.tool.Some? then IndexOfTool(rows, m.tool.value) else FindSeq(rows, m.seqNo);
    if k == |rows| then SortBySeq(rows + [m]) else rows[k := m]
  }

  /** One live row meets the merge so far. */
  function MergeOne(merged: seq<Row>, m: Row, maxFetched: nat): seq<Row> {
    var byTool := if m.tool.Some? then IndexOfTool(merged, m.tool.value) else |merged|;
    var k := if byTool < |merged| then byTool else FindSeq(merged, m.seqNo);
    if k < |merged| then merged[k := m]
    else if m.seqNo > maxFetched then UpsertLiveMessage(merged, m)
    else merged
  }

  function MergeAll(fetched: seq<Row>, live: seq<Row>, maxFetched: nat): seq<Row> {
    if live == [] then fetched
    else MergeOne(MergeAll(fetched, live[..|live| - 1], maxFetched), live[|live| - 1], maxFetched)
  }

  function MergeHydrated(fetched: seq<Row>, live: seq<Row>): seq<Row> {
    SortBySeq(MergeAll(fetched, live, MaxSeq(fetched)))
  }

  method MergeHydratedMessages(fetched: seq<Row>, live: seq<Row>) returns (result: seq<Row>)
    ensures result == MergeHydrated(fetched, live)
  {
    var maxFetched := 0;
    for i := 0 to |fetched|
      invariant maxFetched == MaxSeq(fetched[..i])
    {
      assert fetched[..i + 1][..i] == fetched[..i];
      if fetched[i].seqNo > maxFetched { maxFetched := fetched[i].seqNo; }
    }
    assert fetched[..|fetched|] == fetched;
    var merged := fetched;
    for i := 0 to |live|
      invariant merged == MergeAll(fetched, live[..i], maxFetched)
    {
      assert live[..i + 1][..i] == live[..i];
      var message := live[i];
      var matching := if message.tool.Some? then IndexOfTool(merged, message.tool.value) else |merged|;
      if matching == |merged| { matching := FindSeq(merged, message.seqNo); }
      if matching < |merged| {
        merged := merged[matching := message];
      } else if message.seqNo > maxFetched {
        merged := UpsertLiveMessage(merged, message);
      }
    }
    assert live[..|live|] == live;
    result := SortBySeq(merged);
  }

  // --- the roster ---

  datatype RunStatus = Queued | Running | Completed | FailedRun | Cancelled | Interrupted

  /** `parent` and `sourceCall` are None when absent or empty. */
  datatype AgentRun = AgentRun(runId: nat, parent: Option<nat>, sourceCall: Option<nat>, dispatchIndex: Option<nat>,
                               status: RunStatus, body: nat)

  datatype Slot = Slot(owner: nat, call: nat, index: nat)

  function LinkedDispatchKey(run: AgentRun): Option<Slot> {
    if run.parent.Some? && run.sourceCall.Some? && run.dispatchIndex.Some?
    then Some(Slot(run.parent.value, run.sourceCall.value, run.dispatchIndex.value))
    else None
  }

  type Seen = map<Slot, seq<nat>>

  function SeenIn(seen: Seen, slot: Slot): seq<nat> {
    if slot in seen then seen[slot] else []
  }

  function NoteRun(seen: Seen, run: AgentRun): Seen {
    var slot := LinkedDispatchKey(run);
    if slot.None? || run.runId in SeenIn(seen, slot.value) then seen
    else seen[slot.value := SeenIn(seen, slot.value) + [run.runId]]
  }

  function NoteRuns(seen: Seen, runs: seq<AgentRun>): Seen {
    if runs == [] then seen else NoteRun(NoteRuns(seen, runs[..|runs| - 1]), runs[|runs| - 1])
  }

  /** One session's roster: `requested` is its entry in the request map,
      `refreshAgain` its membership of the pending-refresh set. */
  datatype Roster = Roster(runs: seq<AgentRun>, root: Option<nat>, status: Status, requested: bool, refreshAgain: bool,
                           seen: Seen)

  datatype RosterReply = RosterReply(root: Option<nat>, runs: seq<AgentRun>)

  /** `load`: a request already out is joined, not repeated. */
  function Load(r: Roster): Roster {
    if r.requested then r else r.(status := Loading, requested := true)
  }

  function OnRunChanged(r: Roster): Roster {
    if r.requested then r.(refreshAgain := true) else Load(r)
  }

  /** The reply installs, then the request is over, then a refresh that was
      asked for meanwhile goes out. */
  function RosterReplied(r: Roster, reply: Option<RosterReply>): Roster {
    var done := if reply.Some?
                then r.(seen := NoteRuns(r.seen, reply.value.runs), root := reply.value.root, runs := reply.value.runs,
                        status := Ready, requested := false, refreshAgain := false)
                else r.(status := Failed, requested := false, refreshAgain := false);
    if r.refreshAgain then Load(done) else done
  }

  function StateOf(states: map<RunKey, Status>, key: RunKey): Status {
    if key in states then states[key] else Idle
  }

  /** The listed runs that are under way and whose transcript is not ready. */
  function Unready(key: SessionKey, runs: seq<AgentRun>, states: map<RunKey, Status>): set<RunKey> {
    set run | run in runs && run.status in {Queued, Running} && StateOf(states, RunKey(key, run.runId)) != Ready ::
      RunKey(key, run.runId)
  }

  lemma UnreadyOneMore(key: SessionKey, runs: seq<AgentRun>, run: AgentRun, states: map<RunKey, Status>)
    ensures var k := RunKey(key, run.runId);
            Unready(key, runs + [run], states) == Unready(key, runs, states)
              + (if run.status in {Queued, Running} && StateOf(states, k) != Ready then {k} else {})
  {
    var all := Unready(key, runs + [run], states);
    forall k | k in Unready(key, runs, states) ensures k in all {
      var r :| r in runs && r.status in {Queued, Running} && StateOf(states, k) != Ready && k == RunKey(key, r.runId);
      assert r in runs + [run];
    }
    assert run in runs + [run];
  }

  class Store {
    var transcriptByRun: map<RunKey, seq<Row>>
    var transcriptState: map<RunKey, Status>
    var transcriptRequests: set<RunKey>
    var bySession: map<SessionKey, seq<AgentRun>>
    var rootRun: map<SessionKey, Option<nat>>
    var rosterState: map<SessionKey, Status>
    var seenRuns: map<SessionKey, Seen>
    var rosterRequests: set<SessionKey>
    var pendingRosterRefreshes: set<SessionKey>

    ghost function Transcript(key: RunKey): seq<Row>
      reads this`transcriptByRun
    {
      if key in transcriptByRun then transcriptByRun[key] else []
    }

    ghost function View(key: SessionKey): Roster
      reads this
    {
      Roster(if key in bySession then bySession[key] else [],
             if key in rootRun then rootRun[key] else None,
             if key in rosterState then rosterState[key] else Idle,
             key in rosterRequests, key in pendingRosterRefreshes,
             if key in seenRuns then seenRuns[key] else map[])
    }

    method OnRunMessage(key: RunKey, m: Row)
      modifies this`transcriptByRun
      ensures Transcript(key) == UpsertLiveMessage(old(Transcript(key)), m)
      ensures forall k :: k != key ==> Transcript(k) == old(Transcript(k))
    {
      var rows := if key in transcriptByRun then transcriptByRun[key] else [];
      transcriptByRun := transcriptByRun[key := UpsertLiveMessage(rows, m)];
    }

    /** At most one fetch per run: a second call joins the first. */
    method LoadTranscript(key: RunKey) returns (fetches: bool)
      modifies this`transcriptState, this`transcriptRequests
      ensures fetches == (key !in old(transcriptRequests))
      ensures transcriptRequests == old(transcriptRequests) + {key}
      ensures transcriptState == if fetches then old(transcriptState)[key := Loading] else old(transcriptState)
    {
      fetches := key !in transcriptRequests;
      if fetches {
        transcriptState := transcriptState[key := Loading];
        transcriptRequests := transcriptRequests + {key};
      }
    }

    method TranscriptReplied(key: RunKey, reply: Option<seq<Row>>)
      modifies this`transcriptByRun, this`transcriptState, this`transcriptRequests
      ensures Transcript(key) ==
              if reply.Some? then MergeHydrated(reply.value, old(Transcript(key))) else old(Transcript(key))
      ensures forall k :: k != key ==> Transcript(k) == old(Transcript(k))
      ensures transcriptState == old(transcriptState)[key := if reply.Some? then Ready else Failed]
      ensures transcriptRequests == old(transcriptRequests) - {key}
    {
      if reply.Some? {
        var merged := MergeHydratedMessages(reply.value, if key in transcriptByRun then transcriptByRun[key] else []);
        transcriptByRun := transcriptByRun[key := merged];
        transcriptState := transcriptState[key := Ready];
      } else {
        transcriptState := transcriptState[key := Failed];
      }
      transcriptRequests := transcriptRequests - {key};
    }

    method LoadRoster(key: SessionKey)
      modifies this`rosterState, this`rosterRequests
      ensures View(key) == Load(old(View(key)))
      ensures forall k :: k != key ==> View(k) == old(View(k))
    {
      if key in rosterRequests { return; }
      rosterState := rosterState[key := Loading];
      rosterRequests := rosterRequests + {key};
    }

    method OnAgentRunChanged(key: SessionKey)
      modifies this`rosterState, this`rosterRequests, this`pendingRosterRefreshes
      ensures View(key) == OnRunChanged(old(View(key)))
      ensures forall k :: k != key ==> View(k) == old(View(k))
    {
      if key in rosterRequests {
        pendingRosterRefreshes := pendingRosterRefreshes + {key};
      } else {
        LoadRoster(key);
      }
    }

    method NoteSeen(key: SessionKey, runs: seq<AgentRun>)
      modifies this`seenRuns
      ensures seenRuns ==
              old(seenRuns)[key := NoteRuns(if key in old(seenRuns) then old(seenRuns)[key] else map[], runs)]
    {
      ghost var before := if key in seenRuns then seenRuns[key] else map[];
      var seen := if key in seenRuns then seenRuns[key] else map[];
      for i := 0 to |runs|
        invariant seen == NoteRuns(before, runs[..i])
        invariant seenRuns == old(seenRuns)
      {
        assert runs[..i + 1][..i] == runs[..i];
        var dispatch := LinkedDispatchKey(runs[i]);
        if dispatch.Some? {
          var ids := if dispatch.value in seen then seen[dispatch.value] else [];
          if runs[i].runId !in ids { seen := seen[dispatch.value := ids + [runs[i].runId]]; }
        }
      }
      assert runs[..|runs|] == runs;
      seenRuns := seenRuns[key := seen];
    }

    /** A transcript fetch for every run under way that has neither a ready
        transcript nor a fetch out. */
    method FetchUnready(key: SessionKey, runs: seq<AgentRun>) returns (fetched: set<RunKey>)
      modifies this`transcriptState, this`transcriptRequests
      ensures fetched == Unready(key, runs, old(transcriptState)) - old(transcriptRequests)
      ensures transcriptRequests == old(transcriptRequests) + fetched
      ensures transcriptState == old(transcriptState) + map k | k in fetched :: Loading
    {
      fetched := {};
      for i := 0 to |runs|
        invariant fetched == Unready(key, runs[..i], old(transcriptState)) - old(transcriptRequests)
        invariant transcriptRequests == old(transcriptRequests) + fetched
        invariant transcriptState == old(transcriptState) + map k | k in fetched :: Loading
      {
        assert runs[..i + 1] == runs[..i] + [runs[i]];
        UnreadyOneMore(key, runs[..i], runs[i], old(transcriptState));
        var k := RunKey(key, runs[i].runId);
        if runs[i].status in {Queued, Running} && StateOf(transcriptState, k) != Ready {
          var fetches := LoadTranscript(k);
          if fetches { fetched := fetched + {k}; }
        }
      }
      assert runs[..|runs|] == runs;
    }

    method Install(key: SessionKey, reply: RosterReply)
      modifies this`seenRuns, this`rootRun, this`bySession, this`rosterState
      ensures View(key) == old(View(key)).(seen := NoteRuns(old(View(key)).seen, reply.runs), root := reply.root,
                                           runs := reply.runs, status := Ready)
      ensures forall k :: k != key ==> View(k) == old(View(k))
    {
      NoteSeen(key, reply.runs);
      rootRun := rootRun[key := reply.root];
      bySession := bySession[key := reply.runs];
      rosterState := rosterState[key := Ready];
    }

    /** The request is over, and a refresh asked for meanwhile goes out. */
    method Conclude(key: SessionKey)
      modifies this`rosterState, this`rosterRequests, this`pendingRosterRefreshes
      ensures var done := old(View(key)).(requested := false, refreshAgain := false);
              View(key) == if old(View(key)).refreshAgain then Load(done) else done
      ensures forall k :: k != key ==> View(k) == old(View(k))
    {
      rosterRequests := rosterRequests - {key};
      if key in pendingRosterRefreshes {
        pendingRosterRefreshes := pendingRosterRefreshes - {key};
        LoadRoster(key);
      }
    }

    method RosterReply(key: SessionKey, reply: Option<RosterReply>) returns (fetched: set<RunKey>)
      modifies this
      ensures View(key) == RosterReplied(old(View(key)), reply)
      ensures forall k :: k != key ==> View(k) == old(View(k))
      ensures transcriptByRun == old(transcriptByRun)
      ensures forall k :: k in fetched <==>
                && reply.Some? && k !in old(transcriptRequests)
                && (k in old(transcriptState) ==> old(transcriptState)[k] != Ready)
                && exists run :: run in reply.value.runs && (run.status == Queued || run.status == Running)
                                 && k == RunKey(key, run.runId)
      ensures transcriptRequests == old(transcriptRequests) + fetched
      ensures transcriptState == old(transcriptState) + map k | k in fetched :: Loading
    {
      fetched := {};
      if reply.Some? {
        Install(key, reply.value);
        fetched := FetchUnready(key, reply.value.runs);
      } else {
        rosterState := rosterState[key := Failed];
      }
      Conclude(key);
    }
  }
}
