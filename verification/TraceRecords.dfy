/**
 The records a session trace carries, what each of them refers to, and the discipline of the log
 they come from.

 A row's label is text computed from its record and from the tool call the record refers to.
 The model keeps that pair itself (`Row`), so every real label is a function of it.
 */
module TraceRecords {
  import opened Wrappers

  /** What the grouping looks at in a record. An absent tool-use id is the empty string, as in the
      source, where both fail the same truthiness test. */
  datatype Body =
    | Prompt
    | Thinking
    | Assistant
    | Notice
    | Raw
    | Session
    | Expansion(toolUseId: string, namesCommand: bool)
    | ToolCall(toolUseId: string)
    | ToolResult(toolUseId: string, contentBytes: nat, isError: bool)

  datatype Record = Record(ts: int, text: string, body: Body)

  type CallIndex = map<string, Record>

  datatype Row = Row(record: Record, resolved: Option<Record>)

  predicate StartsTurn(r: Record) {
    || r.body.Prompt?
    || r.body.Session?
    || (r.body.Expansion? && r.body.toolUseId == "" && r.body.namesCommand)
  }

  function ReferencedToolUseId(r: Record): Option<string> {
    match r.body
    case ToolResult(id, _, _) => if id == "" then None else Some(id)
    case Expansion(id, _) => if id == "" then None else Some(id)
    case _ => None
  }

  predicate RefersTo(r: Record, id: string) {
    ReferencedToolUseId(r) == Some(id)
  }

  predicate IsCallOf(r: Record, id: string) {
    r.body == ToolCall(id)
  }

  function Lookup(calls: CallIndex, id: string): Option<Record> {
    if id in calls then Some(calls[id]) else None
  }

  /** The tool call a label is built from. A result looks its id up even when it is empty. */
  function ResolvedCall(r: Record, calls: CallIndex): Option<Record> {
    match r.body
    case ToolResult(id, _, _) => Lookup(calls, id)
    case Expansion(id, _) => if id == "" then None else Lookup(calls, id)
    case _ => None
  }

  function RowOf(r: Record, calls: CallIndex): Row {
    Row(r, ResolvedCall(r, calls))
  }

  /** The index a list of records leaves behind; a repeated id keeps its last call. */
  function CallsOf(records: seq<Record>): CallIndex {
    if records == [] then map[]
    else
      var calls := CallsOf(records[..|records| - 1]);
      var r := records[|records| - 1];
      if r.body.ToolCall? then calls[r.body.toolUseId := r] else calls
  }

  // ----- how calls and references lie in a log -----

  /** The label of the record depends on the call under this id. */
  predicate LooksUp(r: Record, id: string) {
    RefersTo(r, id) || (id == "" && r.body.ToolResult? && r.body.toolUseId == "")
  }

  /** No record refers to a call that is still to come. */
  ghost predicate CallsComeFirst(records: seq<Record>) {
    forall i, k, id :: 0 <= i < k < |records| && IsCallOf(records[k], id) ==> !RefersTo(records[i], id)
  }

  /** There are not both a result and a call without an id. */
  ghost predicate BlankIdsApart(records: seq<Record>) {
    forall r, call :: r in records && call in records && IsCallOf(call, "") ==> !LooksUp(r, "")
  }

  ghost predicate UniqueCalls(records: seq<Record>) {
    forall i, j, id :: 0 <= i < j < |records| && IsCallOf(records[j], id) ==> !IsCallOf(records[i], id)
  }

  ghost predicate Resolvable(records: seq<Record>) {
    CallsComeFirst(records) && BlankIdsApart(records)
  }

  /** The discipline of a trace log: every record finds its call behind it, and no two calls share an
      id. Nothing is said of the clock. */
  ghost predicate Disciplined(records: seq<Record>) {
    Resolvable(records) && UniqueCalls(records)
  }

  /** No record of the first slice looks up a call of the second. */
  ghost predicate LooksBack(a: seq<Record>, b: seq<Record>) {
    forall r, id :: r in a && id in CallsOf(b) ==> !LooksUp(r, id)
  }

  /** And none of the second looks up a blank id of the first. */
  ghost predicate Separable(a: seq<Record>, b: seq<Record>) {
    LooksBack(a, b) && ("" in CallsOf(a) ==> forall r :: r in b ==> !LooksUp(r, ""))
  }

  lemma {:induction false} CallsOfConcat(a: seq<Record>, b: seq<Record>)
    ensures CallsOf(a + b) == CallsOf(a) + CallsOf(b)
  {
    if b == [] {
      assert a + b == a;
    } else {
      var n := |b| - 1;
      assert (a + b)[..|a + b| - 1] == a + b[..n];
      CallsOfConcat(a, b[..n]);
    }
  }

  /** The index holds exactly the calls present, under their ids. */
  lemma {:induction false} CallsOfMembers(records: seq<Record>)
    ensures forall id :: id in CallsOf(records) ==>
              IsCallOf(CallsOf(records)[id], id) && CallsOf(records)[id] in records
    ensures forall i, id :: 0 <= i < |records| && IsCallOf(records[i], id) ==> id in CallsOf(records)
  {
    if records != [] {
      var n := |records| - 1;
      CallsOfMembers(records[..n]);
      forall i, id | 0 <= i < |records| && IsCallOf(records[i], id)
        ensures id in CallsOf(records)
      {
        if i < n {
          assert records[..n][i] == records[i];
        }
      }
    }
  }

  lemma {:induction false} ResolvableSlice(records: seq<Record>, i: nat, k: nat)
    requires Resolvable(records) && i <= k <= |records|
    ensures Resolvable(records[i..k])
  {
    assert forall j :: 0 <= j < k - i ==> records[i..k][j] == records[i + j];
  }

  lemma {:induction false} DisciplinedSlice(records: seq<Record>, i: nat, k: nat)
    requires Disciplined(records) && i <= k <= |records|
    ensures Disciplined(records[i..k])
  {
    ResolvableSlice(records, i, k);
    assert forall j :: 0 <= j < k - i ==> records[i..k][j] == records[i + j];
  }

  lemma {:induction false} ResolvableParts(a: seq<Record>, b: seq<Record>)
    requires Resolvable(a + b)
    ensures Resolvable(a) && Resolvable(b) && Separable(a, b)
  {
    var s := a + b;
    ResolvableSlice(s, 0, |a|);
    ResolvableSlice(s, |a|, |s|);
    assert s[0..|a|] == a && s[|a|..|s|] == b;
    CallsOfMembers(a);
    CallsOfMembers(b);
    forall r, id | r in a && id in CallsOf(b)
      ensures !LooksUp(r, id)
    {
      var i :| 0 <= i < |a| && a[i] == r;
      var j :| 0 <= j < |b| && b[j] == CallsOf(b)[id];
      assert s[i] == r && s[|a| + j] == CallsOf(b)[id];
    }
  }

  lemma {:induction false} UniqueParts(a: seq<Record>, b: seq<Record>)
    requires UniqueCalls(a + b)
    ensures UniqueCalls(a) && UniqueCalls(b)
    ensures CallsOf(a).Keys !! CallsOf(b).Keys
  {
    var s := a + b;
    assert forall i :: 0 <= i < |a| ==> s[i] == a[i];
    assert forall i :: 0 <= i < |b| ==> s[|a| + i] == b[i];
    CallsOfMembers(a);
    CallsOfMembers(b);
    forall id | id in CallsOf(b)
      ensures id !in CallsOf(a)
    {
      var j :| 0 <= j < |b| && b[j] == CallsOf(b)[id];
      assert s[|a| + j] == b[j] && IsCallOf(s[|a| + j], id);
      assert forall i :: 0 <= i < |a| ==> !IsCallOf(s[i], id);
    }
  }

  /** Two neighbouring slices of a disciplined log share no call id, and the earlier one looks up none
      of the later one's calls. */
  lemma {:induction false} DisciplinedNeighbours(a: seq<Record>, b: seq<Record>)
    requires Disciplined(a + b)
    ensures Disciplined(a) && Disciplined(b) && Separable(a, b)
    ensures CallsOf(a).Keys !! CallsOf(b).Keys
  {
    ResolvableParts(a, b);
    UniqueParts(a, b);
  }
}
