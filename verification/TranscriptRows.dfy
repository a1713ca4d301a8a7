/** Transcript rows and the engine's log of them. */
module TranscriptRows {
  import opened Options

  type ToolCall = nat

  /** A message's payload: the fields it carries, by field number. */
  type Content = map<nat, nat>

  /** A transcript row, and equally the message it was made from. The creation
      time, which live rows make up, is not part of it. */
  datatype Row = Row(seqNo: nat, tool: Option<ToolCall>, content: Content)

  /** `findIndex` by tool call: the first position, or the length. */
  function IndexOfTool(rows: seq<Row>, tool: ToolCall): (k: nat)
    ensures k <= |rows|
    ensures k < |rows| ==> rows[k].tool == Some(tool)
    ensures forall i :: 0 <= i < k ==> rows[i].tool != Some(tool)
  {
    if rows == [] || rows[0].tool == Some(tool) then 0 else 1 + IndexOfTool(rows[1..], tool)
  }

  function MaxSeq(rows: seq<Row>): (m: nat)
    ensures forall i :: 0 <= i < |rows| ==> rows[i].seqNo <= m
    ensures rows == [] ==> m == 0
    ensures rows != [] ==> exists r :: r in rows && r.seqNo == m
  {
    if rows == [] then 0
    else
      var rest, last := MaxSeq(rows[..|rows| - 1]), rows[|rows| - 1];
      assert last in rows;
      if rest >= last.seqNo then rest else last.seqNo
  }

  /** New rows get larger positive numbers, and a tool call belongs to one row. */
  ghost predicate Appendable(log: seq<Row>, row: Row) {
    && row.seqNo > 0
    && (forall i :: 0 <= i < |log| ==> log[i].seqNo < row.seqNo)
    && (row.tool.Some? ==> forall i :: 0 <= i < |log| ==> log[i].tool != row.tool)
  }

  ghost predicate WellFormedLog(log: seq<Row>) {
    forall k :: 0 <= k < |log| ==> Appendable(log[..k], log[k])
  }
}
