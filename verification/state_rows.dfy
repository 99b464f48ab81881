/** Executions as rows of a table: the encoding and its inverse. The text form of JSON is an input, of
    which it is only assumed that reading undoes writing and that no text is empty. */
module StateRows {
  import opened Wrappers
  import opened Executions

  datatype Json =
    | JNull
    | JBool(b: bool)
    | JNumber(n: int)
    | JString(s: string)
    | JArray(items: seq<Json>)
    | JObject(fields: map<string, Json>)

  datatype Codec = Codec(write: Json -> string, read: string -> Json)

  ghost predicate Inverse(c: Codec) {
    forall j :: c.read(c.write(j)) == j && c.write(j) != ""
  }

  datatype WaitContext = WaitContext(
    reason: Option<string>,
    expectedResumeBy: Option<int>,
    waitData: Json,
    waitingSince: int)

  /** An execution with all that a store keeps of it; `JNull` is the absent value. */
  datatype Stored = Stored(
    id: string,
    flowName: string,
    idempotencyKey: string,
    state: ExecutionState,
    input: Json,
    result: Json,
    error: Json,
    retryCount: nat,
    queued: int,
    started: Option<int>,
    completed: Option<int>,
    transitions: seq<Transition>,
    waitContext: Option<WaitContext>,
    resumeData: Json,
    replayOf: Option<string>,
    userId: Option<string>)

  datatype Row = Row(
    id: string,
    flowName: string,
    idempotencyKey: string,
    state: string,
    input: Option<string>,
    result: Option<string>,
    error: Option<string>,
    retryCount: nat,
    tsQueued: int,
    tsStarted: Option<int>,
    tsCompleted: Option<int>,
    transitions: string,
    waitContext: Option<string>,
    resumeData: Option<string>,
    replayOf: Option<string>,
    userId: Option<string>)

  function StateName(s: ExecutionState): string {
    match s
    case Queued => "queued"
    case Running => "running"
    case Waiting => "waiting"
    case Retrying => "retrying"
    case Complete => "complete"
    case Failed => "failed"
  }

  /** The cast of a column back to a state; columns hold nothing but names of states. */
  function StateOf(name: string): ExecutionState {
    if name == "queued" then Queued
    else if name == "running" then Running
    else if name == "waiting" then Waiting
    else if name == "retrying" then Retrying
    else if name == "complete" then Complete
    else Failed
  }

  // ---- Columns ----

  function Column(c: Codec, j: Json): Option<string> {
    if j == JNull then None else Some(c.write(j))
  }

  function FromColumn(c: Codec, column: Option<string>): Json {
    if column.Some? then c.read(column.value) else JNull
  }

  function TransitionJson(t: Transition): Json {
    JObject(map["from" := JString(StateName(t.from)), "to" := JString(StateName(t.to)), "at" := JNumber(t.at)])
  }

  function Field(j: Json, name: string): Json {
    if j.JObject? && name in j.fields then j.fields[name] else JNull
  }

  function Text(j: Json): string {
    if j.JString? then j.s else ""
  }

  function Number(j: Json): int {
    if j.JNumber? then j.n else 0
  }

  function TransitionOf(j: Json): Transition {
    Transition(StateOf(Text(Field(j, "from"))), StateOf(Text(Field(j, "to"))), Number(Field(j, "at")))
  }

  function TransitionsJson(ts: seq<Transition>): Json {
    JArray(seq(|ts|, i requires 0 <= i < |ts| => TransitionJson(ts[i])))
  }

  function TransitionsOf(j: Json): seq<Transition> {
    if j.JArray? then seq(|j.items|, i requires 0 <= i < |j.items| => TransitionOf(j.items[i])) else []
  }

  function WaitJson(w: WaitContext): Json {
    JObject(map[
      "reason" := if w.reason.Some? then JString(w.reason.value) else JNull,
      "expectedResumeBy" := if w.expectedResumeBy.Some? then JNumber(w.expectedResumeBy.value) else JNull,
      "waitData" := w.waitData,
      "waitingSince" := JNumber(w.waitingSince)])
  }

  function WaitOf(j: Json): WaitContext {
    WaitContext(if Field(j, "reason").JString? then Some(Field(j, "reason").s) else None,
                if Field(j, "expectedResumeBy") == JNull then None else Some(Number(Field(j, "expectedResumeBy"))),
                Field(j, "waitData"),
                Number(Field(j, "waitingSince")))
  }

  function SerializeExecution(c: Codec, e: Stored): Row {
    Row(e.id, e.flowName, e.idempotencyKey, StateName(e.state),
        Column(c, e.input), Column(c, e.result), Column(c, e.error),
        e.retryCount, e.queued, e.started, e.completed,
        c.write(TransitionsJson(e.transitions)),
        if e.waitContext.Some? then Some(c.write(WaitJson(e.waitContext.value))) else None,
        Column(c, e.resumeData), e.replayOf, e.userId)
  }

  /** An empty text of transitions stands for none, and an empty wait context for an absent one. */
  function DeserializeRow(c: Codec, r: Row): Stored {
    Stored(r.id, r.flowName, r.idempotencyKey, StateOf(r.state),
           FromColumn(c, r.input), FromColumn(c, r.result), FromColumn(c, r.error),
           r.retryCount, r.tsQueued, r.tsStarted, r.tsCompleted,
           TransitionsOf(c.read(if r.transitions == "" then "[]" else r.transitions)),
           if r.waitContext.GetOr("") != "" then Some(WaitOf(c.read(r.waitContext.value))) else None,
           FromColumn(c, r.resumeData), r.replayOf, r.userId)
  }

  // ---- Reading undoes writing ----

  lemma StateNameReads(s: ExecutionState)
    ensures StateOf(StateName(s)) == s
  {
  }

  lemma TransitionReads(t: Transition)
    ensures TransitionOf(TransitionJson(t)) == t
  {
    StateNameReads(t.from);
    StateNameReads(t.to);
    hide StateOf, StateName;
  }

  lemma TransitionsRead(ts: seq<Transition>)
    ensures TransitionsOf(TransitionsJson(ts)) == ts
  {
    forall i | 0 <= i < |ts| ensures TransitionsOf(TransitionsJson(ts))[i] == ts[i] { TransitionReads(ts[i]); }
    hide TransitionOf, TransitionJson;
  }

  lemma WaitReads(w: WaitContext)
    ensures WaitOf(WaitJson(w)) == w
  {
  }

  lemma ColumnReads(c: Codec, j: Json)
    requires Inverse(c)
    ensures FromColumn(c, Column(c, j)) == j
  {
  }

  /** Whatever an execution holds, its row reads back as the same execution. */
  lemma RoundTrip(c: Codec, e: Stored)
    requires Inverse(c)
    ensures DeserializeRow(c, SerializeExecution(c, e)) == e
  {
    StateNameReads(e.state);
    ColumnReads(c, e.input);
    ColumnReads(c, e.result);
    ColumnReads(c, e.error);
    ColumnReads(c, e.resumeData);
    TransitionsRead(e.transitions);
    if e.waitContext.Some? { WaitReads(e.waitContext.value); }
    hide StateOf, StateName, FromColumn, Column, TransitionsOf, TransitionsJson, WaitOf, WaitJson;
  }
}
