/** The transcript half of the main store: the `message` and `sessionCreated`
    arms of its event reducer, and hydration from a fetched snapshot. */
module TranscriptStore {
  import opened Options
  import opened TranscriptRows

  type SessionKey = nat

  datatype Client = Client(rows: seq<Row>, lastSeq: nat, loaded: bool)

  const EMPTY_CLIENT := Client([], 0, false)

  /** A tool update carries only some fields; the row keeps its earlier value for the others. */
  function MergeToolRow(previous: Row, update: Row): Row {
    previous.(content := previous.content + update.content)
  }

  function FindTool(rows: seq<Row>, tool: Option<ToolCall>): (k: nat)
    ensures k <= |rows|
    ensures k < |rows| ==> tool.Some? && rows[k].tool == tool
    ensures k == |rows| ==> tool.None? || forall i :: 0 <= i < |rows| ==> rows[i].tool != tool
  {
    if tool.None? then |rows| else IndexOfTool(rows, tool.value)
  }

  /** The `message` arm: a known tool call is updated in place; anything else
      is appended when it is beyond the high-water mark, and dropped otherwise. */
  function ApplyMessage(c: Client, m: Row): Client {
    var k := FindTool(c.rows, m.tool);
    if k < |c.rows| then c.(rows := c.rows[k := MergeToolRow(c.rows[k], m)])
    else if m.seqNo <= c.lastSeq then c
    else c.(rows := c.rows + [m], lastSeq := m.seqNo)
  }

  function SessionCreated(c: Client): Client {
    c.(loaded := true)
  }

  /** The live rows a snapshot that ends at `maxSeq` must not drop. */
  function LiveTail(rows: seq<Row>, maxSeq: nat): seq<Row> {
    if rows == [] then []
    else
      var rest := LiveTail(rows[..|rows| - 1], maxSeq);
      var last := rows[|rows| - 1];
      if last.seqNo > maxSeq || last.seqNo == 0 then rest + [last] else rest
  }

  /** Hydration's install; a failed fetch arrives here as no rows. */
  function Hydrate(c: Client, fetched: seq<Row>): Client {
    var maxSeq := MaxSeq(fetched);
    Client(fetched + LiveTail(c.rows, maxSeq), if c.lastSeq >= maxSeq then c.lastSeq else maxSeq, true)
  }

  /** Whether a hydration call goes on to fetch. */
  predicate Fetches(c: Client, force: bool) {
    force || !c.loaded
  }

  class Store {
    var transcripts: map<SessionKey, seq<Row>>
    var lastSeq: map<SessionKey, nat>
    var loaded: map<SessionKey, bool>

    /** One session as the reducer sees it: an absent entry reads as its default. */
    ghost function View(key: SessionKey): Client
      reads this
    {
      Client(if key in transcripts then transcripts[key] else [],
             if key in lastSeq then lastSeq[key] else 0,
             key in loaded && loaded[key])
    }

    method OnSessionCreated(key: SessionKey)
      modifies this
      ensures View(key) == SessionCreated(old(View(key)))
      ensures forall k :: k != key ==> View(k) == old(View(k))
    {
      transcripts := transcripts[key := if key in transcripts then transcripts[key] else []];
      loaded := loaded[key := true];
    }

    method OnMessage(key: SessionKey, m: Row)
      modifies this
      ensures View(key) == ApplyMessage(old(View(key)), m)
      ensures forall k :: k != key ==> View(k) == old(View(k))
    {
      var rows := if key in transcripts then transcripts[key] else [];
      if m.tool.Some? {
        var idx := 0;
        while idx < |rows| && rows[idx].tool != m.tool
          invariant idx <= |rows|
          invariant forall i :: 0 <= i < idx ==> rows[i].tool != m.tool
        {
          idx := idx + 1;
        }
        if idx < |rows| {
          transcripts := transcripts[key := rows[idx := MergeToolRow(rows[idx], m)]];
          return;
        }
      }
      if m.seqNo <= (if key in lastSeq then lastSeq[key] else 0) { return; }
      transcripts := transcripts[key := rows + [m]];
      lastSeq := lastSeq[key := m.seqNo];
    }

    method BeginHydrate(key: SessionKey, force: bool) returns (fetches: bool)
      ensures fetches == Fetches(View(key), force)
    {
      fetches := force || !(key in loaded && loaded[key]);
    }

    static method HighestSeq(rows: seq<Row>) returns (maxSeq: nat)
      ensures maxSeq == MaxSeq(rows)
    {
      maxSeq := 0;
      for i := 0 to |rows|
        invariant maxSeq == MaxSeq(rows[..i])
      {
        assert rows[..i + 1][..i] == rows[..i];
        if rows[i].seqNo > maxSeq { maxSeq := rows[i].seqNo; }
      }
      assert rows[..|rows|] == rows;
    }

    static method TailBeyond(rows: seq<Row>, maxSeq: nat) returns (tail: seq<Row>)
      ensures tail == LiveTail(rows, maxSeq)
    {
      tail := [];
      for i := 0 to |rows|
        invariant tail == LiveTail(rows[..i], maxSeq)
      {
        assert rows[..i + 1][..i] == rows[..i];
        if rows[i].seqNo > maxSeq || rows[i].seqNo == 0 { tail := tail + [rows[i]]; }
      }
      assert rows[..|rows|] == rows;
    }

    method FinishHydrate(key: SessionKey, fetched: seq<Row>)
      modifies this
      ensures View(key) == Hydrate(old(View(key)), fetched)
      ensures forall k :: k != key ==> View(k) == old(View(k))
    {
      var maxSeq := HighestSeq(fetched);
      var liveTail := TailBeyond(if key in transcripts then transcripts[key] else [], maxSeq);
      transcripts := transcripts[key := fetched + liveTail];
      var high := if key in lastSeq then lastSeq[key] else 0;
      lastSeq := lastSeq[key := if high >= maxSeq then high else maxSeq];
      loaded := loaded[key := true];
    }
  }
}
