/** The `agent` node's reasoning loop (backend/nodes/agent.py), for every model and every tool. */
module Agent {
  import opened Digraph
  import opened Wrappers
  import opened Graph
  import opened Activity

  datatype ToolCall = ToolCall(id: string, name: Id, arguments: Inputs)

  datatype Response = Response(text: string, calls: seq<ToolCall>, inputTokens: nat, outputTokens: nat)

  datatype Reply = Replied(response: Response) | ModelFailed(error: string)

  /** What one tool call leaves behind: a child trace (of this one record) and the text fed back. */
  datatype Report = Report(record: TraceRecord, text: string)

  datatype Message =
    | User(content: string)
    | Assistant(content: string, calls: seq<ToolCall>)
    | Tool(callId: string, name: Id, content: string)

  /** The resolved cluster of an agent: its sub-nodes, window and bound. */
  datatype Cluster = Cluster(
    model: Id, memory: Option<Id>, window: nat, group: Option<Id>, tools: seq<Id>, maxIterations: nat)

  /** What the config models of `memory` and `agent` demand. */
  predicate Configured(c: Cluster) {
    c.window > 0 && c.maxIterations > 0
  }

  /** The model, asked for the n-th time with these messages; the tools' own bodies, for the n-th
      call, and the JSON text of outputs that have one. */
  type Model = (nat, seq<Message>) -> Reply
  datatype ToolBox = ToolBox(run: (nat, Id, Inputs) -> Graph.Outcome, json: map<Slot, Value> -> string)

  datatype Exit =
    | Answer(text: string, children: seq<TraceRecord>, inputTokens: nat, outputTokens: nat)
    | ModelCallFailed
    | ToolCallRaised
    | OutOfIterations

  const NUDGE := "use one of your tools"

  function Unknown(name: Id): string {
    "Unknown tool " + name
  }

  /** The last `window` messages when the agent has a memory sub-node, else all of them. */
  function Windowed(c: Cluster, messages: seq<Message>): (r: seq<Message>)
    ensures |r| <= |messages| && r == messages[|messages| - |r|..] && (c.memory.Some? ==> |r| <= c.window)
    ensures c.memory.None? || |messages| <= c.window ==> r == messages
    ensures c.memory.Some? && |messages| > c.window ==> |r| == c.window
  {
    if c.memory.Some? && |messages| > c.window then messages[|messages| - c.window..] else messages
  }

  // ----- Transcripts -----

  /** What one model reply adds to the conversation. */
  datatype Turn =
    | Nudged(text: string)
    | Called(text: string, calls: seq<ToolCall>, reports: seq<Report>)

  function Answers(calls: seq<ToolCall>, reports: seq<Report>): (r: seq<Message>)
    requires |reports| <= |calls|
    ensures |r| == |reports| && forall k | 0 <= k < |r| :: r[k] == Tool(calls[k].id, calls[k].name, reports[k].text)
  {
    seq(|reports|, k requires 0 <= k < |reports| => Tool(calls[k].id, calls[k].name, reports[k].text))
  }

  predicate Sane(t: Turn) {
    t.Called? ==> t.calls != [] && |t.reports| <= |t.calls|
  }

  /** Every tool call of the turn has been answered. */
  predicate Complete(t: Turn) {
    Sane(t) && (t.Called? ==> |t.reports| == |t.calls|)
  }

  predicate AllSane(turns: seq<Turn>) {
    forall t | t in turns :: Sane(t)
  }

  predicate AllComplete(turns: seq<Turn>)
    ensures AllComplete(turns) ==> AllSane(turns)
  {
    forall t | t in turns :: Complete(t)
  }

  function Render(t: Turn): seq<Message>
    requires Sane(t)
  {
    match t
    case Nudged(text) => [Assistant(text, []), User(NUDGE)]
    case Called(text, calls, reports) => [Assistant(text, calls)] + Answers(calls, reports)
  }

  function RenderAll(task: string, turns: seq<Turn>): (r: seq<Message>)
    requires AllSane(turns)
    ensures r != [] && (turns == [] ==> |r| == 1)
  {
    if turns == [] then [User(task)]
    else RenderAll(task, turns[..|turns| - 1]) + Render(turns[|turns| - 1])
  }

  lemma RenderAppend(task: string, turns: seq<Turn>, t: Turn)
    requires Sane(t) && AllSane(turns)
    ensures AllSane(turns + [t])
    ensures RenderAll(task, turns + [t]) == RenderAll(task, turns) + Render(t)
  {
    assert (turns + [t])[..|turns|] == turns;
  }

  /** The child traces of the turns so far. */
  function Records(turns: seq<Turn>): seq<TraceRecord> {
    if turns == [] then []
    else
      var t := turns[|turns| - 1];
      Records(turns[..|turns| - 1]) + if t.Called? then RecordsOf(t.reports) else []
  }

  function RecordsOf(reports: seq<Report>): (r: seq<TraceRecord>)
    ensures |r| == |reports| && forall k | 0 <= k < |r| :: r[k] == reports[k].record
  {
    seq(|reports|, k requires 0 <= k < |reports| => reports[k].record)
  }

  lemma RecordsAppend(turns: seq<Turn>, t: Turn)
    ensures Records(turns + [t]) == Records(turns) + if t.Called? then RecordsOf(t.reports) else []
  {
    assert (turns + [t])[..|turns|] == turns;
  }

  /** Read off the messages alone: message k calls tools only if the very next messages answer these
      calls one by one, with their ids and names in their order. */
  predicate AnsweredAt(m: seq<Message>, k: nat)
    requires k < |m|
  {
    m[k].Assistant? ==>
      && k + |m[k].calls| < |m|
      && forall j | 0 <= j < |m[k].calls| :: Reports(m[k + 1 + j], m[k].calls[j])
  }

  predicate Reports(reply: Message, call: ToolCall) {
    reply.Tool? && reply.callId == call.id && reply.name == call.name
  }

  /** ... and message k reports a tool only if some assistant message asked for it. */
  ghost predicate AskedFor(m: seq<Message>, k: nat)
    requires k < |m|
  {
    m[k].Tool? ==> exists a, j | 0 <= a < k && 0 <= j :: CallOf(m, a, j, k)
  }

  predicate CallOf(m: seq<Message>, a: nat, j: nat, k: nat) {
    a < k < |m| && k == a + 1 + j && m[a].Assistant? && j < |m[a].calls|
  }

  /** The user opens the conversation, and speaks again only to nudge, as third message. */
  predicate UsersSay(task: string, m: seq<Message>) {
    forall k | 0 <= k < |m| && m[k].User? ::
      if k == 0 then m[k] == User(task) else k == 2 && m[k] == User(NUDGE)
  }

  ghost predicate WellFormed(task: string, m: seq<Message>) {
    (forall k | 0 <= k < |m| :: AnsweredAt(m, k) && AskedFor(m, k)) && UsersSay(task, m)
  }

  lemma UsersFirst(task: string)
    ensures UsersSay(task, [User(task)]) && AnsweredAt([User(task)], 0) && AskedFor([User(task)], 0)
  {
  }

  /** The transcript of complete turns is well formed, and has at most one nudge. */
  lemma {:induction false} TranscriptIsWellFormed(task: string, turns: seq<Turn>)
    requires AllComplete(turns)
    requires forall i | 0 <= i < |turns| :: turns[i].Nudged? ==> i == 0
    ensures WellFormed(task, RenderAll(task, turns))
  {
    hide AnsweredAt, AskedFor, UsersSay, Render;
    UsersFirst(task);
    if turns != [] {
      var before, t := turns[..|turns| - 1], turns[|turns| - 1];
      TranscriptIsWellFormed(task, before);
      var m, last := RenderAll(task, before), Render(t);
      forall k | 0 <= k < |m + last| ensures AnsweredAt(m + last, k) && AskedFor(m + last, k) {
        if k < |m| {
          StillAnswered(m, last, k);
        } else {
          TurnAnswered(m, t, k);
        }
      }
      UsersAfter(task, m, before, t);
    }
  }

  lemma StillAnswered(m: seq<Message>, last: seq<Message>, k: nat)
    requires k < |m| && AnsweredAt(m, k) && AskedFor(m, k)
    ensures AnsweredAt(m + last, k) && AskedFor(m + last, k)
  {
    var all := m + last;
    assert all[k] == m[k];
    if m[k].Assistant? {
      var calls := m[k].calls;
      forall j | 0 <= j < |calls| ensures Reports(all[k + 1 + j], calls[j]) {
        assert Reports(m[k + 1 + j], m[k].calls[j]);
      }
      assert AnsweredAt(all, k);
    }
    if m[k].Tool? {
      var a, j :| 0 <= a < k && 0 <= j && CallOf(m, a, j, k);
      assert all[a] == m[a] && CallOf(all, a, j, k);
    }
  }

  lemma TurnAnswered(m: seq<Message>, t: Turn, k: nat)
    requires Complete(t) && |m| <= k < |m| + |Render(t)|
    ensures AnsweredAt(m + Render(t), k) && AskedFor(m + Render(t), k)
  {
    if t.Called? && k > |m| {
      assert CallOf(m + Render(t), |m|, k - |m| - 1, k);
    }
  }

  lemma UsersAfter(task: string, m: seq<Message>, before: seq<Turn>, t: Turn)
    requires Complete(t) && AllSane(before) && m == RenderAll(task, before) && UsersSay(task, m)
    requires t.Nudged? ==> before == [] && |m| == 1
    requires |m| > 0
    ensures UsersSay(task, m + Render(t))
  {
    var all := m + Render(t);
    forall k | 0 <= k < |all| && all[k].User?
      ensures if k == 0 then all[k] == User(task) else k == 2 && all[k] == User(NUDGE)
    {
      if k < |m| {
        assert all[k] == m[k];
      } else {
        assert all[k] == Render(t)[k - |m|];
      }
    }
  }

  /** Outputs that `json.dumps` can write. */
  predicate Writable(v: Value) {
    match v
    case Foreign(_) => false
    case List(items) => forall i | 0 <= i < |items| :: Writable(items[i])
    case Object(fields) => forall k | k in fields :: Writable(fields[k])
    case _ => true
  }

  /** The tool succeeds on this call, with outputs that have no JSON text. */
  predicate Unwritable(tools: ToolBox, n: nat, call: ToolCall) {
    var o := tools.run(n, call.name, call.arguments);
    o.Done? && !Writable(Object(o.outputs))
  }

  /** `_run_tool`: a failing body becomes a record and a text. Its outputs are written outside of the
      `try`, so that None stands for an exception. */
  method RunTool(tools: ToolBox, n: nat, call: ToolCall) returns (r: Option<Report>)
    ensures r.None? <==> Unwritable(tools, n, call)
    ensures r == ReportOf(tools, n, call)
  {
    match tools.run(n, call.name, call.arguments)
    case Failed(e) =>
      r := Some(Report(TraceRecord(call.name, call.arguments, Failed(e)), "Error: " + e));
    case Done(outputs, _) =>
      if !Writable(Object(outputs)) {
        return None;
      }
      r := Some(Report(TraceRecord(call.name, call.arguments, Done(outputs, None)), tools.json(outputs)));
  }

  function ReportOf(tools: ToolBox, n: nat, call: ToolCall): Option<Report> {
    match tools.run(n, call.name, call.arguments)
    case Failed(e) => Some(Report(TraceRecord(call.name, call.arguments, Failed(e)), "Error: " + e))
    case Done(outputs, _) =>
      if Writable(Object(outputs)) then
        Some(Report(TraceRecord(call.name, call.arguments, Done(outputs, None)), tools.json(outputs)))
      else None
  }

  /** What the n-th call leaves behind: an unlisted name is refused, anything else goes to the tool. */
  function ToolAnswer(c: Cluster, tools: ToolBox, n: nat, call: ToolCall): (r: Option<Report>)
    ensures r.None? <==> call.name in c.tools && Unwritable(tools, n, call)
  {
    if call.name !in c.tools then
      Some(Report(TraceRecord(call.name, call.arguments, Failed(Unknown(call.name))), Unknown(call.name)))
    else ReportOf(tools, n, call)
  }

  /** A listed tool that returns an object JSON has no form for makes the call raise, however deep in
      its outputs the object is. */
  lemma ForeignOutputRaises(c: Cluster, tools: ToolBox, n: nat, call: ToolCall, slot: Slot, v: Value)
    requires call.name in c.tools && tools.run(n, call.name, call.arguments) == Done(map[slot := v], None)
    requires exists path :: Within(v, path).Some? && Within(v, path).value.Foreign?
    ensures ToolAnswer(c, tools, n, call) == None
  {
    var path :| Within(v, path).Some? && Within(v, path).value.Foreign?;
    ForeignIsUnwritable(v, path);
    assert map[slot := v][slot] == v;
  }

  datatype Step = Item(i: nat) | Field(k: string)

  /** The part of a value that a path leads to. */
  function Within(v: Value, path: seq<Step>): Option<Value>
    decreases |path|
  {
    if path == [] then Some(v)
    else
      match (v, path[0])
      case (List(items), Item(i)) => if i < |items| then Within(items[i], path[1..]) else None
      case (Object(fields), Field(k)) => if k in fields then Within(fields[k], path[1..]) else None
      case _ => None
  }

  lemma {:induction false} ForeignIsUnwritable(v: Value, path: seq<Step>)
    requires Within(v, path).Some? && Within(v, path).value.Foreign?
    ensures !Writable(v)
    decreases |path|
  {
    if path != [] {
      match (v, path[0])
      case (List(items), Item(i)) => ForeignIsUnwritable(items[i], path[1..]);
      case (Object(fields), Field(k)) => ForeignIsUnwritable(fields[k], path[1..]);
    }
  }

  lemma {:induction false} UnwritableHoldsForeign(v: Value) returns (path: seq<Step>)
    requires !Writable(v)
    ensures Within(v, path).Some? && Within(v, path).value.Foreign?
  {
    match v
    case List(items) =>
      var i :| 0 <= i < |items| && !Writable(items[i]);
      var rest := UnwritableHoldsForeign(items[i]);
      path := [Item(i)] + rest;
    case Object(fields) =>
      var k :| k in fields && !Writable(fields[k]);
      var rest := UnwritableHoldsForeign(fields[k]);
      path := [Field(k)] + rest;
    case Foreign(_) => path := [];
  }

  /** What these calls report, the first of them being the n-th: all of them, or those before the
      first that raises. */
  function ReportsTo(c: Cluster, tools: ToolBox, n: nat, calls: seq<ToolCall>): (r: seq<Report>)
    ensures |r| <= |calls|
    decreases |calls|
  {
    if calls == [] then []
    else
      match ToolAnswer(c, tools, n, calls[0])
      case None => []
      case Some(report) => [report] + ReportsTo(c, tools, n + 1, calls[1..])
  }

  ghost predicate AnswersUpTo(c: Cluster, tools: ToolBox, n: nat, calls: seq<ToolCall>, reports: seq<Report>) {
    && |reports| <= |calls|
    && (forall k | 0 <= k < |reports| :: ToolAnswer(c, tools, n + k, calls[k]) == Some(reports[k]))
    && (|reports| < |calls| ==> ToolAnswer(c, tools, n + |reports|, calls[|reports|]) == None)
  }

  /** Being answered one by one, up to a call that raises, determines the reports. */
  lemma {:induction false} ReportsAreAnswers(c: Cluster, tools: ToolBox, n: nat, calls: seq<ToolCall>,
                                             reports: seq<Report>)
    ensures AnswersUpTo(c, tools, n, calls, reports) <==> reports == ReportsTo(c, tools, n, calls)
    decreases |calls|
  {
    hide ToolAnswer;
    if calls != [] && ToolAnswer(c, tools, n, calls[0]).Some? {
      var report := ToolAnswer(c, tools, n, calls[0]).value;
      var rest := ReportsTo(c, tools, n + 1, calls[1..]);
      ReportsAreAnswers(c, tools, n + 1, calls[1..], rest);
      FirstAnswer(c, tools, n, calls, [report] + rest);
      if reports != [] {
        ReportsAreAnswers(c, tools, n + 1, calls[1..], reports[1..]);
        FirstAnswer(c, tools, n, calls, reports);
        assert reports == [reports[0]] + reports[1..];
      }
    }
  }

  lemma FirstAnswer(c: Cluster, tools: ToolBox, n: nat, calls: seq<ToolCall>, reports: seq<Report>)
    requires calls != [] && reports != []
    ensures AnswersUpTo(c, tools, n, calls, reports)
       <==> (ToolAnswer(c, tools, n, calls[0]) == Some(reports[0])
             && AnswersUpTo(c, tools, n + 1, calls[1..], reports[1..]))
  {
    hide ToolAnswer;
    var rest := reports[1..];
    if ToolAnswer(c, tools, n, calls[0]) == Some(reports[0]) && AnswersUpTo(c, tools, n + 1, calls[1..], rest) {
      forall k | 0 <= k < |reports| ensures ToolAnswer(c, tools, n + k, calls[k]) == Some(reports[k]) {
        if k > 0 {
          assert ToolAnswer(c, tools, n + 1 + (k - 1), calls[1..][k - 1]) == Some(rest[k - 1]);
        }
      }
    }
    if AnswersUpTo(c, tools, n, calls, reports) {
      forall k | 0 <= k < |rest| ensures ToolAnswer(c, tools, n + 1 + k, calls[1..][k]) == Some(rest[k]) {
        assert ToolAnswer(c, tools, n + (k + 1), calls[k + 1]) == Some(reports[k + 1]);
      }
    }
  }

  /** The reports of a turn are the tools' own, in call order, numbered from `before`. */
  ghost predicate ReportsFrom(c: Cluster, tools: ToolBox, before: nat, t: Turn)
    requires Sane(t)
  {
    t.Called? ==> forall k | 0 <= k < |t.reports| :: ToolAnswer(c, tools, before + k, t.calls[k]) == Some(t.reports[k])
  }

  /** The model's reply to the (windowed) conversation of the first n turns. */
  function Ask(c: Cluster, model: Model, task: string, turns: seq<Turn>, n: nat): Reply
    requires n <= |turns| && AllSane(turns)
  {
    model(n, Windowed(c, RenderAll(task, turns[..n])))
  }

  /** Turn i is the i-th reply of the model to the (windowed) conversation before it. */
  ghost predicate TurnOk(c: Cluster, model: Model, tools: ToolBox, task: string, turns: seq<Turn>, i: nat)
    requires i < |turns| && AllSane(turns)
  {
    && Ask(c, model, task, turns, i).Replied?
    && var r := Ask(c, model, task, turns, i).response;
       && turns[i].text == r.text
       && (turns[i].Nudged? ==> r.calls == [] && c.tools != [] && i == 0)
       && (turns[i].Called? ==> turns[i].calls == r.calls)
       && ReportsFrom(c, tools, |Records(turns[..i])|, turns[i])
  }

  /** A history: every turn is the model's and the tools' doing, and all but perhaps the last are
      complete. A nudge can only be the very first turn. */
  ghost predicate History(c: Cluster, model: Model, tools: ToolBox, task: string, turns: seq<Turn>) {
    && AllSane(turns)
    && (forall i | 0 <= i < |turns| :: TurnOk(c, model, tools, task, turns, i))
    && (forall i | 0 <= i < |turns| - 1 :: Complete(turns[i]))
  }

  /** Tokens of the first n model reports. */
  function Tokens(c: Cluster, model: Model, task: string, turns: seq<Turn>, n: nat): (nat, nat)
    requires n <= |turns| + 1 && AllSane(turns)
  {
    if n == 0 then (0, 0)
    else
      var before := Tokens(c, model, task, turns, n - 1);
      match Ask(c, model, task, turns, n - 1)
      case Replied(r) => (before.0 + r.inputTokens, before.1 + r.outputTokens)
      case ModelFailed(_) => before
  }

  // ----- Reading a conversation -----

  /** The calls that the assistant messages ask for, in their order. */
  function CallsAsked(m: seq<Message>): seq<ToolCall> {
    if m == [] then []
    else
      var last := m[|m| - 1];
      CallsAsked(m[..|m| - 1]) + if last.Assistant? then last.calls else []
  }

  /** The tool messages, in their order. */
  function ToolSays(m: seq<Message>): seq<Message> {
    if m == [] then []
    else
      var last := m[|m| - 1];
      ToolSays(m[..|m| - 1]) + if last.Tool? then [last] else []
  }

  /** How many assistant messages ask for calls. */
  function Batches(m: seq<Message>): nat {
    if m == [] then 0
    else
      var last := m[|m| - 1];
      Batches(m[..|m| - 1]) + if last.Assistant? && last.calls != [] then 1 else 0
  }

  lemma ReadOneMore(m: seq<Message>, x: Message)
    ensures CallsAsked(m + [x]) == CallsAsked(m) + if x.Assistant? then x.calls else []
    ensures ToolSays(m + [x]) == ToolSays(m) + if x.Tool? then [x] else []
    ensures Batches(m + [x]) == Batches(m) + if x.Assistant? && x.calls != [] then 1 else 0
  {
    assert (m + [x])[..|m|] == m;
  }

  lemma NothingRead()
    ensures CallsAsked([]) == [] && ToolSays([]) == [] && Batches([]) == 0
  {
  }

  lemma {:induction false} CallsAppend(a: seq<Message>, b: seq<Message>)
    ensures CallsAsked(a + b) == CallsAsked(a) + CallsAsked(b)
    decreases |b|
  {
    hide CallsAsked, ToolSays, Batches;
    if b == [] {
      assert a + b == a;
      NothingRead();
    } else {
      var front, x := b[..|b| - 1], b[|b| - 1];
      CallsAppend(a, front);
      ReadOneMore(front, x);
      ReadOneMore(a + front, x);
      assert a + b == a + front + [x] && b == front + [x];
    }
  }

  lemma {:induction false} SaysAppend(a: seq<Message>, b: seq<Message>)
    ensures ToolSays(a + b) == ToolSays(a) + ToolSays(b)
    decreases |b|
  {
    hide CallsAsked, ToolSays, Batches;
    if b == [] {
      assert a + b == a;
      NothingRead();
    } else {
      var front, x := b[..|b| - 1], b[|b| - 1];
      SaysAppend(a, front);
      ReadOneMore(front, x);
      ReadOneMore(a + front, x);
      assert a + b == a + front + [x] && b == front + [x];
    }
  }

  lemma {:induction false} BatchesAppend(a: seq<Message>, b: seq<Message>)
    ensures Batches(a + b) == Batches(a) + Batches(b)
    decreases |b|
  {
    hide CallsAsked, ToolSays, Batches;
    if b == [] {
      assert a + b == a;
      NothingRead();
    } else {
      var front, x := b[..|b| - 1], b[|b| - 1];
      BatchesAppend(a, front);
      ReadOneMore(front, x);
      ReadOneMore(a + front, x);
      assert a + b == a + front + [x] && b == front + [x];
    }
  }

  lemma ReadingsAppend(a: seq<Message>, b: seq<Message>)
    ensures CallsAsked(a + b) == CallsAsked(a) + CallsAsked(b)
    ensures ToolSays(a + b) == ToolSays(a) + ToolSays(b)
    ensures Batches(a + b) == Batches(a) + Batches(b)
  {
    CallsAppend(a, b);
    SaysAppend(a, b);
    BatchesAppend(a, b);
  }

  lemma {:induction false} OnlyTools(m: seq<Message>)
    requires forall i | 0 <= i < |m| :: m[i].Tool?
    ensures CallsAsked(m) == [] && ToolSays(m) == m && Batches(m) == 0
  {
    if m != [] {
      var front, x := m[..|m| - 1], m[|m| - 1];
      OnlyTools(front);
      ReadOneMore(front, x);
      hide CallsAsked, ToolSays, Batches;
      assert m == front + [x];
    }
  }

  lemma OneAssistant(text: string, calls: seq<ToolCall>)
    ensures var m := [Assistant(text, calls)];
            CallsAsked(m) == calls && ToolSays(m) == [] && Batches(m) == if calls != [] then 1 else 0
  {
    assert [Assistant(text, calls)][..0] == [];
  }

  lemma OneUser(text: string)
    ensures var m := [User(text)]; CallsAsked(m) == [] && ToolSays(m) == [] && Batches(m) == 0
  {
    assert [User(text)][..0] == [];
  }

  lemma ReadNudge(m: seq<Message>, text: string)
    ensures var more := m + [Assistant(text, []), User(NUDGE)];
            CallsAsked(more) == CallsAsked(m) && ToolSays(more) == ToolSays(m) && Batches(more) == Batches(m)
  {
    OneAssistant(text, []);
    OneUser(NUDGE);
    ReadingsAppend([Assistant(text, [])], [User(NUDGE)]);
    assert [Assistant(text, [])] + [User(NUDGE)] == [Assistant(text, []), User(NUDGE)];
    ReadingsAppend(m, [Assistant(text, []), User(NUDGE)]);
  }

  lemma ReadBatch(m: seq<Message>, text: string, calls: seq<ToolCall>, reports: seq<Report>)
    requires |reports| <= |calls| && calls != []
    ensures var more := m + [Assistant(text, calls)] + Answers(calls, reports);
            && CallsAsked(more) == CallsAsked(m) + calls
            && ToolSays(more) == ToolSays(m) + Answers(calls, reports)
            && Batches(more) == Batches(m) + 1
  {
    hide Answers, CallsAsked, ToolSays, Batches;
    OneAssistant(text, calls);
    OnlyTools(Answers(calls, reports));
    ReadingsAppend(m, [Assistant(text, calls)]);
    ReadingsAppend(m + [Assistant(text, calls)], Answers(calls, reports));
  }

  // ----- The loop -----

  function On(sub: Option<Id>, active: bool): seq<Event> {
    if sub.Some? then [Event(sub.value, active)] else []
  }

  /** The model is active for its whole call, and the memory sub-node with it. */
  function ModelEvents(c: Cluster): seq<Event> {
    [Event(c.model, true)] + On(c.memory, true) + [Event(c.model, false)] + On(c.memory, false)
  }

  /** Each listed tool is active for its own call. */
  function CallEvents(c: Cluster, calls: seq<ToolCall>): seq<Event> {
    if calls == [] then []
    else
      var name := calls[|calls| - 1].name;
      CallEvents(c, calls[..|calls| - 1]) + if name in c.tools then [Event(name, true), Event(name, false)] else []
  }

  /** The calls of a turn that were started: all, or up to the one that raised. */
  function Started(calls: seq<ToolCall>, answered: nat): seq<ToolCall> {
    if answered < |calls| then calls[..answered + 1] else calls
  }

  function BatchEvents(c: Cluster, calls: seq<ToolCall>): seq<Event> {
    On(c.group, true) + CallEvents(c, calls) + On(c.group, false)
  }

  function TurnEvents(c: Cluster, t: Turn): seq<Event> {
    ModelEvents(c) + if t.Called? then BatchEvents(c, Started(t.calls, |t.reports|)) else []
  }

  function AllEvents(c: Cluster, turns: seq<Turn>): seq<Event> {
    if turns == [] then [] else AllEvents(c, turns[..|turns| - 1]) + TurnEvents(c, turns[|turns| - 1])
  }

  lemma EventsAppend(c: Cluster, turns: seq<Turn>, t: Turn)
    ensures AllEvents(c, turns + [t]) == AllEvents(c, turns) + TurnEvents(c, t)
  {
    assert (turns + [t])[..|turns|] == turns;
  }

  function AsOpen(sub: Option<Id>): multiset<Id> {
    if sub.Some? then multiset{sub.value} else multiset{}
  }

  lemma OnOpens(activity: seq<Event>, open: multiset<Id>, sub: Option<Id>)
    requires Opens(activity, open)
    ensures Opens(activity + On(sub, true), open + AsOpen(sub))
  {
    if sub.Some? {
      Activate(activity, open, sub.value);
    } else {
      assert activity + [] == activity;
    }
  }

  lemma OffCloses(activity: seq<Event>, open: multiset<Id>, sub: Option<Id>)
    requires Opens(activity, open + AsOpen(sub))
    ensures Opens(activity + On(sub, false), open)
  {
    if sub.Some? {
      Deactivate(activity, open + AsOpen(sub), sub.value);
      assert open + multiset{sub.value} - multiset{sub.value} == open;
    } else {
      assert activity + [] == activity;
    }
  }

  lemma ModelBrackets(activity: seq<Event>, c: Cluster)
    requires Opens(activity, multiset{})
    ensures Opens(activity + ModelEvents(c), multiset{})
  {
    hide Opens, On;
    var begun := activity + [Event(c.model, true)];
    Activate(activity, multiset{}, c.model);
    assert multiset{} + multiset{c.model} == multiset{c.model};
    OnOpens(begun, multiset{c.model}, c.memory);
    var both := begun + On(c.memory, true);
    Deactivate(both, multiset{c.model} + AsOpen(c.memory), c.model);
    assert multiset{c.model} + AsOpen(c.memory) - multiset{c.model} == multiset{} + AsOpen(c.memory);
    OffCloses(both + [Event(c.model, false)], multiset{}, c.memory);
    assert both + [Event(c.model, false)] + On(c.memory, false) == activity + ModelEvents(c);
  }

  lemma {:induction false} CallBrackets(activity: seq<Event>, open: multiset<Id>, c: Cluster, calls: seq<ToolCall>)
    requires Opens(activity, open)
    ensures Opens(activity + CallEvents(c, calls), open)
  {
    hide Opens;
    if calls == [] {
      assert activity + [] == activity;
    } else {
      var front, name := calls[..|calls| - 1], calls[|calls| - 1].name;
      CallBrackets(activity, open, c, front);
      var before := activity + CallEvents(c, front);
      if name in c.tools {
        Activate(before, open, name);
        Deactivate(before + [Event(name, true)], open + multiset{name}, name);
        assert open + multiset{name} - multiset{name} == open;
        assert before + [Event(name, true)] + [Event(name, false)] == activity + CallEvents(c, calls);
      } else {
        assert before == activity + CallEvents(c, calls);
      }
    }
  }

  lemma BatchBrackets(activity: seq<Event>, c: Cluster, calls: seq<ToolCall>)
    requires Opens(activity, multiset{})
    ensures Opens(activity + BatchEvents(c, calls), multiset{})
  {
    hide Opens, On, CallEvents;
    OnOpens(activity, multiset{}, c.group);
    CallBrackets(activity + On(c.group, true), multiset{} + AsOpen(c.group), c, calls);
    OffCloses(activity + On(c.group, true) + CallEvents(c, calls), multiset{}, c.group);
    assert activity + On(c.group, true) + CallEvents(c, calls) + On(c.group, false) == activity + BatchEvents(c, calls);
  }

  /** Whatever the turns were, and whether or not a last model call ended them, every bracket is
      closed again and none closes before it opens. */
  lemma {:induction false} ActivityIsBracketed(c: Cluster, turns: seq<Turn>)
    ensures Opens(AllEvents(c, turns), multiset{})
    ensures Opens(AllEvents(c, turns) + ModelEvents(c), multiset{})
  {
    hide Opens, ModelEvents, BatchEvents;
    if turns == [] {
      OpensNothing();
    } else {
      var front, t := turns[..|turns| - 1], turns[|turns| - 1];
      ActivityIsBracketed(c, front);
      var called := AllEvents(c, front) + ModelEvents(c);
      if t.Called? {
        BatchBrackets(called, c, Started(t.calls, |t.reports|));
        assert called + BatchEvents(c, Started(t.calls, |t.reports|)) == AllEvents(c, turns);
      } else {
        assert called == AllEvents(c, turns);
      }
    }
    ModelBrackets(AllEvents(c, turns), c);
  }

  // ----- Moments -----

  /** At this moment of the run exactly these sub-nodes were open, each as often as listed. */
  ghost predicate Shows(moment: seq<Event>, open: multiset<Id>, activity: seq<Event>) {
    Opens(moment, open) && moment <= activity
  }

  lemma ShowsLater(moment: seq<Event>, open: multiset<Id>, activity: seq<Event>, more: seq<Event>)
    requires Shows(moment, open, activity) && activity <= more
    ensures Shows(moment, open, more)
  {
    hide Opens;
  }

  /** What a tool call opens: the tool, unless its name is not listed. */
  function Listed(c: Cluster, name: Id): multiset<Id> {
    if name in c.tools then multiset{name} else multiset{}
  }

  /** One moment for each started call, at which its tool was open within what was open around it. */
  ghost predicate AllShown(c: Cluster, moments: seq<seq<Event>>, calls: seq<ToolCall>, around: multiset<Id>,
                           activity: seq<Event>) {
    && |moments| <= |calls|
    && forall k | 0 <= k < |moments| :: Shows(moments[k], around + Listed(c, calls[k].name), activity)
  }

  lemma AllShownLater(c: Cluster, moments: seq<seq<Event>>, calls: seq<ToolCall>, around: multiset<Id>,
                      activity: seq<Event>, more: seq<Event>)
    requires AllShown(c, moments, calls, around, activity) && activity <= more
    ensures AllShown(c, moments, calls, around, more)
  {
    hide Shows, Listed;
    forall k | 0 <= k < |moments| ensures Shows(moments[k], around + Listed(c, calls[k].name), more) {
      ShowsLater(moments[k], around + Listed(c, calls[k].name), activity, more);
    }
  }

  lemma OneMoreShown(c: Cluster, moments: seq<seq<Event>>, calls: seq<ToolCall>, around: multiset<Id>,
                     activity: seq<Event>, moment: seq<Event>)
    requires AllShown(c, moments, calls, around, activity) && |moments| < |calls|
    requires Shows(moment, around + Listed(c, calls[|moments|].name), activity)
    ensures AllShown(c, moments + [moment], calls, around, activity)
  {
    hide Shows, Listed;
  }

  lemma ShownTogether(c: Cluster, before: seq<seq<Event>>, asked: seq<ToolCall>, moments: seq<seq<Event>>,
                      calls: seq<ToolCall>, around: multiset<Id>, activity: seq<Event>)
    requires AllShown(c, before, asked, around, activity) && AllShown(c, moments, calls, around, activity)
    requires |before| == |asked|
    ensures AllShown(c, before + moments, asked + calls, around, activity)
  {
    hide Shows, Listed;
  }

  /** What was in use when: the model and its memory, and nothing else, at each model call; the tool
      group and the tool, and nothing else, at each started call of a listed tool. All of these calls
      are accounted for; `cut` is 1 if the last one raised. */
  ghost predicate Witnessed(c: Cluster, messages: seq<Message>, children: seq<TraceRecord>, activity: seq<Event>,
                            modelCalls: nat, atModel: seq<seq<Event>>, atTool: seq<seq<Event>>, cut: nat) {
    && |atModel| == modelCalls
    && (forall i | 0 <= i < |atModel| :: Shows(atModel[i], multiset{c.model} + AsOpen(c.memory), activity))
    && AllShown(c, atTool, CallsAsked(messages), AsOpen(c.group), activity)
    && |atTool| == |children| + cut && (cut == 0 ==> |children| == |CallsAsked(messages)|)
  }

  lemma WitnessStart(c: Cluster, task: string)
    ensures Witnessed(c, [User(task)], [], [], 0, [], [], 0)
  {
    OneUser(task);
  }

  /** One more model call. */
  lemma WitnessModel(c: Cluster, messages: seq<Message>, children: seq<TraceRecord>, activity: seq<Event>,
                     modelCalls: nat,
                     atModel: seq<seq<Event>>, atTool: seq<seq<Event>>, more: seq<Event>, during: seq<Event>)
    requires Witnessed(c, messages, children, activity, modelCalls, atModel, atTool, 0) && activity <= more
    requires Shows(during, multiset{c.model} + AsOpen(c.memory), more)
    ensures Witnessed(c, messages, children, more, modelCalls + 1, atModel + [during], atTool, 0)
  {
    hide Shows, AllShown, CallsAsked;
    forall i | 0 <= i < |atModel| ensures Shows(atModel[i], multiset{c.model} + AsOpen(c.memory), more) {
      ShowsLater(atModel[i], multiset{c.model} + AsOpen(c.memory), activity, more);
    }
    AllShownLater(c, atTool, CallsAsked(messages), AsOpen(c.group), activity, more);
  }

  lemma WitnessNudge(c: Cluster, messages: seq<Message>, children: seq<TraceRecord>, activity: seq<Event>,
                     modelCalls: nat,
                     atModel: seq<seq<Event>>, atTool: seq<seq<Event>>, text: string)
    requires Witnessed(c, messages, children, activity, modelCalls, atModel, atTool, 0)
    ensures Witnessed(c, messages + [Assistant(text, []), User(NUDGE)], children, activity, modelCalls, atModel,
                      atTool, 0)
  {
    hide Shows, AllShown, CallsAsked, ToolSays, Batches;
    ReadNudge(messages, text);
  }

  /** One more batch, whole or cut short. */
  lemma WitnessBatch(c: Cluster, messages: seq<Message>, children: seq<TraceRecord>, activity: seq<Event>,
                     modelCalls: nat,
                     atModel: seq<seq<Event>>, atTool: seq<seq<Event>>, text: string, calls: seq<ToolCall>,
                     reports: seq<Report>, more: seq<Event>, moments: seq<seq<Event>>)
    requires Witnessed(c, messages, children, activity, modelCalls, atModel, atTool, 0) && activity <= more
    requires |reports| <= |calls| && calls != [] && AllShown(c, moments, calls, AsOpen(c.group), more)
    requires |moments| == |reports| + if |reports| < |calls| then 1 else 0
    ensures Witnessed(c, messages + [Assistant(text, calls)] + Answers(calls, reports), children + RecordsOf(reports),
                      more,
                      modelCalls, atModel, atTool + moments, if |reports| < |calls| then 1 else 0)
  {
    hide Shows, AllShown, CallsAsked, ToolSays, Batches, Answers, RecordsOf;
    ReadBatch(messages, text, calls, reports);
    forall i | 0 <= i < |atModel| ensures Shows(atModel[i], multiset{c.model} + AsOpen(c.memory), more) {
      ShowsLater(atModel[i], multiset{c.model} + AsOpen(c.memory), activity, more);
    }
    AllShownLater(c, atTool, CallsAsked(messages), AsOpen(c.group), activity, more);
    ShownTogether(c, atTool, CallsAsked(messages), moments, calls, AsOpen(c.group), more);
  }

  /** One model call, bracketed however it ends. */
  method CallModel(c: Cluster, model: Model, n: nat, windowed: seq<Message>, emitted: seq<Event>)
    returns (reply: Reply, activity: seq<Event>, ghost during: seq<Event>)
    requires Opens(emitted, multiset{})
    ensures reply == model(n, windowed) && activity == emitted + ModelEvents(c)
    ensures Shows(during, multiset{c.model} + AsOpen(c.memory), activity)
  {
    hide Opens;
    activity := emitted + [Event(c.model, true)];
    Activate(emitted, multiset{}, c.model);
    assert multiset{} + multiset{c.model} == multiset{c.model};
    OnOpens(activity, multiset{c.model}, c.memory);
    activity := activity + On(c.memory, true);
    during := activity;
    reply := model(n, windowed);
    activity := activity + [Event(c.model, false)];
    activity := activity + On(c.memory, false);
  }

  /** The tool calls of one reply, in order, until all are answered or one raises. */
  method RunCalls(c: Cluster, tools: ToolBox, calls: seq<ToolCall>, said: seq<Message>, recorded: seq<TraceRecord>,
                  emitted: seq<Event>, ghost around: multiset<Id>)
    returns (raised: bool, messages: seq<Message>, children: seq<TraceRecord>, activity: seq<Event>,
             ghost moments: seq<seq<Event>>)
    requires Opens(emitted, around)
    ensures var reports := ReportsTo(c, tools, |recorded|, calls);
            && (raised <==> |reports| < |calls|)
            && messages == said + Answers(calls, reports) && children == recorded + RecordsOf(reports)
            && activity == emitted + CallEvents(c, Started(calls, |reports|))
            && |moments| == |reports| + if raised then 1 else 0
    ensures AllShown(c, moments, calls, around, activity)
  {
    hide CallEvents, ReportsTo, ReportOf, Unwritable, Opens, AllShown, ToolAnswer, Answers, RecordsOf, Started;
    messages, children, activity, moments := said, recorded, emitted, [];
    ghost var reports: seq<Report> := [];
    NoCalls(c, calls, said, recorded, emitted);
    NoneShown(c, calls, around, emitted);
    for j := 0 to |calls|
      invariant |reports| == |moments| == j && activity == emitted + CallEvents(c, calls[..j])
      invariant Opens(activity, around) && AllShown(c, moments, calls, around, activity)
      invariant messages == said + Answers(calls, reports) && children == recorded + RecordsOf(reports)
      invariant forall k | 0 <= k < j :: ToolAnswer(c, tools, |recorded| + k, calls[k]) == Some(reports[k])
    {
      var call := calls[j];
      NextCall(c, calls, j);
      ghost var before := activity;
      if call.name !in c.tools {
        var report := Report(TraceRecord(call.name, call.arguments, Failed(Unknown(call.name))), Unknown(call.name));
        RefusedAnswer(c, tools, |children|, call);
        RefusalShown(c, moments, calls, around, activity);
        moments := moments + [activity];
        NextReport(calls, reports, report);
        children := children + [report.record];
        messages := messages + [Tool(call.id, call.name, report.text)];
        reports := reports + [report];
      } else {
        activity := activity + [Event(call.name, true)];
        ghost var during := activity;
        var reply := RunTool(tools, |children|, call);
        ListedAnswer(c, tools, |children|, call);
        activity := activity + [Event(call.name, false)];
        CallShown(c, moments, calls, around, before);
        moments := moments + [during];
        if reply.None? {
          ReportsAreAnswers(c, tools, |recorded|, calls, reports);
          return true, messages, children, activity, moments;
        }
        NextReport(calls, reports, reply.value);
        children := children + [reply.value.record];
        messages := messages + [Tool(call.id, call.name, reply.value.text)];
        reports := reports + [reply.value];
      }
    }
    assert calls[..|calls|] == calls;
    AllStarted(calls);
    ReportsAreAnswers(c, tools, |recorded|, calls, reports);
    raised := false;
  }

  lemma AllStarted(calls: seq<ToolCall>)
    ensures Started(calls, |calls|) == calls
  {
  }

  lemma RefusedAnswer(c: Cluster, tools: ToolBox, n: nat, call: ToolCall)
    requires call.name !in c.tools
    ensures ToolAnswer(c, tools, n, call)
         == Some(Report(TraceRecord(call.name, call.arguments, Failed(Unknown(call.name))), Unknown(call.name)))
  {
  }

  lemma ListedAnswer(c: Cluster, tools: ToolBox, n: nat, call: ToolCall)
    requires call.name in c.tools
    ensures ToolAnswer(c, tools, n, call) == ReportOf(tools, n, call)
  {
  }

  lemma NoneShown(c: Cluster, calls: seq<ToolCall>, around: multiset<Id>, activity: seq<Event>)
    ensures AllShown(c, [], calls, around, activity)
  {
  }

  /** A refused call opens nothing. */
  lemma RefusalShown(c: Cluster, moments: seq<seq<Event>>, calls: seq<ToolCall>, around: multiset<Id>,
                     activity: seq<Event>)
    requires AllShown(c, moments, calls, around, activity) && |moments| < |calls| && Opens(activity, around)
    requires calls[|moments|].name !in c.tools
    ensures AllShown(c, moments + [activity], calls, around, activity)
  {
    hide Opens, AllShown;
    assert around + multiset{} == around;
    OneMoreShown(c, moments, calls, around, activity, activity);
  }

  /** A listed tool is open during its call, and closed after it. */
  lemma CallShown(c: Cluster, moments: seq<seq<Event>>, calls: seq<ToolCall>, around: multiset<Id>, before: seq<Event>)
    requires AllShown(c, moments, calls, around, before) && |moments| < |calls| && Opens(before, around)
    requires calls[|moments|].name in c.tools
    ensures var during := before + [Event(calls[|moments|].name, true)];
            var after := during + [Event(calls[|moments|].name, false)];
            Opens(after, around) && AllShown(c, moments + [during], calls, around, after)
  {
    hide Opens, AllShown;
    var name := calls[|moments|].name;
    var during := before + [Event(name, true)];
    var after := during + [Event(name, false)];
    Activate(before, around, name);
    Deactivate(during, around + multiset{name}, name);
    assert around + multiset{name} - multiset{name} == around;
    AllShownLater(c, moments, calls, around, before, after);
    OneMoreShown(c, moments, calls, around, after, during);
  }

  lemma NoCalls(c: Cluster, calls: seq<ToolCall>, said: seq<Message>, recorded: seq<TraceRecord>, emitted: seq<Event>)
    ensures said == said + Answers(calls, []) && recorded == recorded + RecordsOf([])
    ensures emitted == emitted + CallEvents(c, calls[..0])
  {
  }

  lemma NextCall(c: Cluster, calls: seq<ToolCall>, j: nat)
    requires j < |calls|
    ensures Started(calls, j) == calls[..j + 1]
    ensures CallEvents(c, calls[..j + 1])
         == CallEvents(c, calls[..j]) + if calls[j].name in c.tools
           then [Event(calls[j].name, true), Event(calls[j].name, false)] else []
  {
    assert calls[..j + 1][..j] == calls[..j];
  }

  lemma NextReport(calls: seq<ToolCall>, reports: seq<Report>, report: Report)
    requires |reports| < |calls|
    ensures RecordsOf(reports + [report]) == RecordsOf(reports) + [report.record]
    ensures Answers(calls, reports + [report])
         == Answers(calls, reports) + [Tool(calls[|reports|].id, calls[|reports|].name, report.text)]
  {
  }

  /** The calls of one reply, with the tool group active throughout, however the batch ends. */
  method RunBatch(c: Cluster, tools: ToolBox, calls: seq<ToolCall>, said: seq<Message>, recorded: seq<TraceRecord>,
                  emitted: seq<Event>)
    returns (raised: bool, messages: seq<Message>, children: seq<TraceRecord>, activity: seq<Event>,
             ghost moments: seq<seq<Event>>)
    requires Opens(emitted, multiset{})
    ensures var reports := ReportsTo(c, tools, |recorded|, calls);
            && (raised <==> |reports| < |calls|)
            && messages == said + Answers(calls, reports) && children == recorded + RecordsOf(reports)
            && activity == emitted + BatchEvents(c, Started(calls, |reports|))
            && |moments| == |reports| + if raised then 1 else 0
    ensures AllShown(c, moments, calls, AsOpen(c.group), activity)
  {
    hide ReportsTo, Answers, RecordsOf, CallEvents, On, Started, Opens, AllShown;
    OnOpens(emitted, multiset{}, c.group);
    assert multiset{} + AsOpen(c.group) == AsOpen(c.group);
    activity := emitted + On(c.group, true);
    raised, messages, children, activity, moments :=
      RunCalls(c, tools, calls, said, recorded, activity, AsOpen(c.group));
    AllShownLater(c, moments, calls, AsOpen(c.group), activity, activity + On(c.group, false));
    activity := activity + On(c.group, false);
  }

  /** What is known of a run that has gone through some complete turns. */
  ghost predicate Progress(c: Cluster, model: Model, tools: ToolBox, task: string, turns: seq<Turn>,
                           messages: seq<Message>, children: seq<TraceRecord>) {
    && History(c, model, tools, task, turns)
    && messages == RenderAll(task, turns) && children == Records(turns)
  }

  lemma HistoryAppend(c: Cluster, model: Model, tools: ToolBox, task: string, turns: seq<Turn>, t: Turn)
    requires History(c, model, tools, task, turns) && AllComplete(turns) && Sane(t)
    requires Ask(c, model, task, turns, |turns|).Replied?
    requires var r := Ask(c, model, task, turns, |turns|).response;
             && t.text == r.text
             && (t.Nudged? ==> r.calls == [] && c.tools != [] && turns == [])
             && (t.Called? ==> t.calls == r.calls)
    requires ReportsFrom(c, tools, |Records(turns)|, t)
    ensures History(c, model, tools, task, turns + [t])
    ensures RenderAll(task, turns + [t]) == RenderAll(task, turns) + Render(t)
    ensures Records(turns + [t]) == Records(turns) + if t.Called? then RecordsOf(t.reports) else []
  {
    hide Ask, ToolAnswer, Render, RecordsOf;
    RenderAppend(task, turns, t);
    RecordsAppend(turns, t);
    var more := turns + [t];
    forall i | 0 <= i < |more| ensures TurnOk(c, model, tools, task, more, i) {
      AskedBefore(c, model, task, turns, t, i);
      if i < |turns| {
        assert TurnOk(c, model, tools, task, turns, i);
        assert more[..i] == turns[..i];
      } else {
        assert more[..i] == turns;
      }
    }
  }

  lemma AskedBefore(c: Cluster, model: Model, task: string, turns: seq<Turn>, t: Turn, n: nat)
    requires n <= |turns| && Sane(t) && AllSane(turns)
    ensures Ask(c, model, task, turns + [t], n) == Ask(c, model, task, turns, n)
  {
    assert (turns + [t])[..n] == turns[..n];
  }

  lemma {:induction false} TokensPrefix(c: Cluster, model: Model, task: string, turns: seq<Turn>, t: Turn, n: nat)
    requires n <= |turns| + 1 && Sane(t) && AllSane(turns)
    ensures Tokens(c, model, task, turns + [t], n) == Tokens(c, model, task, turns, n)
  {
    hide Ask;
    if n > 0 {
      TokensPrefix(c, model, task, turns, t, n - 1);
      AskedBefore(c, model, task, turns, t, n - 1);
    }
  }

  /** How the loop may end, given what it said and did. */
  ghost predicate EndsProperly(c: Cluster, model: Model, tools: ToolBox, task: string, turns: seq<Turn>,
                               children: seq<TraceRecord>, modelCalls: nat, o: Exit)
    requires AllSane(turns)
  {
    var last := Ask(c, model, task, turns, |turns|);
    match o
    case Answer(text, answered, inputTokens, outputTokens) =>
      && AllComplete(turns) && modelCalls == |turns| + 1
      && last.Replied? && last.response.calls == [] && text == last.response.text
      && (c.tools != [] ==> turns != [])
      && answered == children && (inputTokens, outputTokens) == Tokens(c, model, task, turns, |turns| + 1)
    case ModelCallFailed =>
      AllComplete(turns) && modelCalls == |turns| + 1 && last.ModelFailed?
    case ToolCallRaised =>
      && turns != [] && modelCalls == |turns| && !Complete(turns[|turns| - 1])
      && var t := turns[|turns| - 1];
         && t.Called? && |t.reports| < |t.calls| && t.calls[|t.reports|].name in c.tools
         && Unwritable(tools, |children|, t.calls[|t.reports|])
    case OutOfIterations =>
      AllComplete(turns) && modelCalls == |turns| == c.maxIterations
  }

  /** What an agent leaves behind on every exit: the transcript is a history of complete turns (but
      for a turn cut short by a raising tool) and well formed, there is one child trace per answered
      call, the totals are the sums over the model's replies, the activity is that of the turns, and
      every activity bracket is closed. */
  ghost predicate LeavesBehind(c: Cluster, model: Model, tools: ToolBox, task: string, turns: seq<Turn>,
                               messages: seq<Message>, children: seq<TraceRecord>, activity: seq<Event>,
                               modelCalls: nat, o: Exit) {
    && Progress(c, model, tools, task, turns, messages, children) && AllSane(turns)
    && modelCalls <= c.maxIterations
    && EndsProperly(c, model, tools, task, turns, children, modelCalls, o)
    && (!o.ToolCallRaised? ==> WellFormed(task, messages))
    && activity == AllEvents(c, turns) + (if o.Answer? || o.ModelCallFailed? then ModelEvents(c) else [])
    && Opens(activity, multiset{})
  }

  /** The variables of the loop before its next turn. */
  datatype Talk = Talk(
    messages: seq<Message>, children: seq<TraceRecord>, activity: seq<Event>, modelCalls: nat, inputTokens: nat,
    outputTokens: nat, toolsEverCalled: bool, nudgeUsed: bool)

  ghost predicate Underway(c: Cluster, model: Model, tools: ToolBox, task: string, turns: seq<Turn>, s: Talk) {
    && Progress(c, model, tools, task, turns, s.messages, s.children) && AllComplete(turns)
    && s.modelCalls == |turns| <= c.maxIterations
    && (s.inputTokens, s.outputTokens) == Tokens(c, model, task, turns, |turns|)
    && (s.toolsEverCalled || s.nudgeUsed <==> turns != [])
    && s.activity == AllEvents(c, turns)
  }

  lemma LeavesWellFormed(c: Cluster, model: Model, tools: ToolBox, task: string, turns: seq<Turn>,
                         messages: seq<Message>, children: seq<TraceRecord>, activity: seq<Event>,
                         modelCalls: nat, o: Exit)
    requires LeavesBehind(c, model, tools, task, turns, messages, children, activity, modelCalls, o)
    ensures modelCalls <= c.maxIterations && Opens(activity, multiset{})
    ensures !o.ToolCallRaised? ==> WellFormed(task, messages)
  {
  }

  /** The reasoning loop. */
  method Converse(c: Cluster, model: Model, tools: ToolBox, task: string)
    returns (exit: Exit, messages: seq<Message>, children: seq<TraceRecord>, activity: seq<Event>,
             modelCalls: nat, ghost turns: seq<Turn>, ghost atModel: seq<seq<Event>>, ghost atTool: seq<seq<Event>>)
    requires Configured(c)
    ensures LeavesBehind(c, model, tools, task, turns, messages, children, activity, modelCalls, exit)
    ensures Witnessed(c, messages, children, activity, modelCalls, atModel, atTool, if exit.ToolCallRaised? then 1
                      else 0)
  {
    hide LeavesBehind, Underway, ReportsTo, ModelEvents, BatchEvents, Windowed, Ask, Answers, RecordsOf, Started, Opens,
      Witnessed, AllShown, Shows;
    messages, children, activity, turns, modelCalls := [User(task)], [], [], [], 0;
    var inputTokens: nat, outputTokens: nat := 0, 0;
    var toolsEverCalled, nudgeUsed := false, false;
    atModel, atTool := [], [];
    UnderwayStart(c, model, tools, task);
    WitnessStart(c, task);
    for i := 0 to c.maxIterations
      invariant |turns| == modelCalls == i
      invariant Underway(c, model, tools, task, turns,
                         Talk(messages, children, activity, modelCalls, inputTokens, outputTokens, toolsEverCalled,
                              nudgeUsed))
      invariant Witnessed(c, messages, children, activity, modelCalls, atModel, atTool, 0)
    {
      ghost var s := Talk(messages, children, activity, modelCalls, inputTokens, outputTokens, toolsEverCalled,
                          nudgeUsed);
      AskNow(c, model, tools, task, turns, s);
      var windowed := Windowed(c, messages);
      var reply;
      ghost var during;
      reply, activity, during := CallModel(c, model, i, windowed, activity);
      WitnessModel(c, messages, children, s.activity, modelCalls, atModel, atTool, activity, during);
      modelCalls, atModel := modelCalls + 1, atModel + [during];
      if reply.ModelFailed? {
        exit := ModelCallFailed;
        FailedExit(c, model, tools, task, turns, s);
        return;
      }
      var r := reply.response;
      inputTokens, outputTokens := inputTokens + r.inputTokens, outputTokens + r.outputTokens;
      if r.calls == [] {
        if c.tools != [] && !toolsEverCalled && !nudgeUsed {
          nudgeUsed := true;
          WitnessNudge(c, messages, children, activity, modelCalls, atModel, atTool, r.text);
          messages := messages + [Assistant(r.text, []), User(NUDGE)];
          NudgeStep(c, model, tools, task, turns, s, r);
          turns := turns + [Nudged(r.text)];
          continue;
        }
        exit := Answer(r.text, children, inputTokens, outputTokens);
        AnsweredExit(c, model, tools, task, turns, s, r);
        return;
      }
      toolsEverCalled := true;
      messages := messages + [Assistant(r.text, r.calls)];
      ghost var called := activity;
      var raised;
      ghost var moments;
      AskedOpens(c, model, tools, task, turns, s);
      raised, messages, children, activity, moments := RunBatch(c, tools, r.calls, messages, children, activity);
      BatchStep(c, model, tools, task, turns, s, r);
      WitnessBatch(c, s.messages, s.children, called, modelCalls, atModel, atTool, r.text, r.calls,
                   ReportsTo(c, tools, |s.children|, r.calls), activity, moments);
      atTool := atTool + moments;
      turns := turns + [Called(r.text, r.calls, ReportsTo(c, tools, |s.children|, r.calls))];
      if raised {
        exit := ToolCallRaised;
        return;
      }
    }
    exit := OutOfIterations;
    OutExit(c, model, tools, task, turns,
            Talk(messages, children, activity, modelCalls, inputTokens, outputTokens, toolsEverCalled, nudgeUsed));
  }

  lemma UnderwayStart(c: Cluster, model: Model, tools: ToolBox, task: string)
    ensures Underway(c, model, tools, task, [], Talk([User(task)], [], [], 0, 0, 0, false, false))
  {
  }

  /** The model is asked with the window of the transcript so far. */
  lemma AskNow(c: Cluster, model: Model, tools: ToolBox, task: string, turns: seq<Turn>, s: Talk)
    requires Underway(c, model, tools, task, turns, s)
    ensures AllSane(turns) && Ask(c, model, task, turns, |turns|) == model(|turns|, Windowed(c, s.messages))
    ensures Opens(s.activity, multiset{})
  {
    hide Opens;
    assert turns[..|turns|] == turns;
    ActivityIsBracketed(c, turns);
  }

  /** Nothing is open after a model call either. */
  lemma AskedOpens(c: Cluster, model: Model, tools: ToolBox, task: string, turns: seq<Turn>, s: Talk)
    requires Underway(c, model, tools, task, turns, s)
    ensures Opens(s.activity + ModelEvents(c), multiset{})
  {
    hide Opens, ModelEvents, Progress, AllEvents, Tokens;
    ActivityIsBracketed(c, turns);
  }

  lemma FailedExit(c: Cluster, model: Model, tools: ToolBox, task: string, turns: seq<Turn>, s: Talk)
    requires Underway(c, model, tools, task, turns, s) && |turns| < c.maxIterations
    requires AllSane(turns) && Ask(c, model, task, turns, |turns|).ModelFailed?
    ensures LeavesBehind(c, model, tools, task, turns, s.messages, s.children, s.activity + ModelEvents(c),
                         s.modelCalls + 1, ModelCallFailed)
  {
    hide Progress, WellFormed, Ask, Opens, AllEvents, ModelEvents, Tokens;
    SaysProperly(c, model, tools, task, turns, s.messages, s.children);
    ActivityIsBracketed(c, turns);
  }

  lemma AnsweredExit(c: Cluster, model: Model, tools: ToolBox, task: string, turns: seq<Turn>, s: Talk, r: Response)
    requires Underway(c, model, tools, task, turns, s) && |turns| < c.maxIterations
    requires AllSane(turns) && Ask(c, model, task, turns, |turns|) == Replied(r)
    requires r.calls == [] && (c.tools == [] || s.toolsEverCalled || s.nudgeUsed)
    ensures LeavesBehind(c, model, tools, task, turns, s.messages, s.children, s.activity + ModelEvents(c),
                         s.modelCalls + 1,
                         Answer(r.text, s.children, s.inputTokens + r.inputTokens, s.outputTokens + r.outputTokens))
  {
    hide Progress, WellFormed, Ask, Opens, AllEvents, ModelEvents, Tokens;
    TokensNext(c, model, task, turns, r);
    SaysProperly(c, model, tools, task, turns, s.messages, s.children);
    ActivityIsBracketed(c, turns);
  }

  lemma OutExit(c: Cluster, model: Model, tools: ToolBox, task: string, turns: seq<Turn>, s: Talk)
    requires Underway(c, model, tools, task, turns, s) && |turns| == c.maxIterations
    ensures LeavesBehind(c, model, tools, task, turns, s.messages, s.children, s.activity, s.modelCalls,
                         OutOfIterations)
  {
    hide Progress, WellFormed, Ask, Opens, AllEvents, Tokens;
    SaysProperly(c, model, tools, task, turns, s.messages, s.children);
    ActivityIsBracketed(c, turns);
    assert s.activity + [] == s.activity;
  }

  lemma NudgeStep(c: Cluster, model: Model, tools: ToolBox, task: string, turns: seq<Turn>, s: Talk, r: Response)
    requires Underway(c, model, tools, task, turns, s) && |turns| < c.maxIterations
    requires AllSane(turns) && Ask(c, model, task, turns, |turns|) == Replied(r)
    requires r.calls == [] && c.tools != [] && !s.toolsEverCalled && !s.nudgeUsed
    ensures Underway(c, model, tools, task, turns + [Nudged(r.text)],
                     Talk(s.messages + [Assistant(r.text, []), User(NUDGE)], s.children, s.activity + ModelEvents(c),
                          s.modelCalls + 1, s.inputTokens + r.inputTokens, s.outputTokens + r.outputTokens, false,
                            true))
  {
    hide Progress, Ask, AllEvents, ModelEvents, Tokens, AllComplete, AllSane, Render;
    TokensNext(c, model, task, turns, r);
    Advance(c, model, tools, task, turns, s.messages, s.children, s.children, Nudged(r.text));
    RenderNudged(s.messages, r.text);
    EventsNudged(c, turns, r.text);
  }

  /** A batch either completes the turn, or ends the run by the call that raised. */
  lemma BatchStep(c: Cluster, model: Model, tools: ToolBox, task: string, turns: seq<Turn>, s: Talk, r: Response)
    requires Underway(c, model, tools, task, turns, s) && |turns| < c.maxIterations
    requires AllSane(turns) && Ask(c, model, task, turns, |turns|) == Replied(r) && r.calls != []
    ensures var reports := ReportsTo(c, tools, |s.children|, r.calls);
            var after := turns + [Called(r.text, r.calls, reports)];
            var messages := s.messages + [Assistant(r.text, r.calls)] + Answers(r.calls, reports);
            var children := s.children + RecordsOf(reports);
            var activity := s.activity + ModelEvents(c) + BatchEvents(c, Started(r.calls, |reports|));
            if |reports| == |r.calls| then
              Underway(c, model, tools, task, after,
                       Talk(messages, children, activity, s.modelCalls + 1, s.inputTokens + r.inputTokens,
                            s.outputTokens + r.outputTokens, true, s.nudgeUsed))
            else LeavesBehind(c, model, tools, task, after, messages, children, activity, s.modelCalls + 1,
                              ToolCallRaised)
  {
    hide Progress, WellFormed, Ask, Opens, AllEvents, ModelEvents, BatchEvents, Tokens, AllComplete, AllSane, Answers,
      RecordsOf, Render, Started, ReportsTo, EndsProperly, ToolAnswer;
    var reports := ReportsTo(c, tools, |s.children|, r.calls);
    ReportsAreAnswers(c, tools, |s.children|, r.calls, reports);
    var t := Called(r.text, r.calls, reports);
    var children := s.children + RecordsOf(reports);
    TokensNext(c, model, task, turns, r);
    RenderCalled(s.messages, t);
    Advance(c, model, tools, task, turns, s.messages, s.children, children, t);
    EventsCalled(c, turns, t);
    if |reports| < |r.calls| {
      EndsRaised(c, model, tools, task, turns, t, children, s.modelCalls + 1);
      ActivityIsBracketed(c, turns + [t]);
    }
  }

  lemma RenderNudged(before: seq<Message>, text: string)
    ensures before + [Assistant(text, []), User(NUDGE)] == before + Render(Nudged(text))
  {
  }

  lemma RenderCalled(before: seq<Message>, t: Turn)
    requires Sane(t) && t.Called?
    ensures before + [Assistant(t.text, t.calls)] + Answers(t.calls, t.reports) == before + Render(t)
  {
  }

  /** One more turn keeps everything that is known of the run. */
  lemma Advance(c: Cluster, model: Model, tools: ToolBox, task: string, turns: seq<Turn>, messages: seq<Message>,
                children: seq<TraceRecord>, more: seq<TraceRecord>, t: Turn)
    requires Progress(c, model, tools, task, turns, messages, children) && AllComplete(turns) && Sane(t)
    requires Ask(c, model, task, turns, |turns|).Replied?
    requires var r := Ask(c, model, task, turns, |turns|).response;
             && t.text == r.text
             && (t.Nudged? ==> r.calls == [] && c.tools != [] && turns == [])
             && (t.Called? ==> t.calls == r.calls)
    requires ReportsFrom(c, tools, |children|, t)
    requires more == children + if t.Called? then RecordsOf(t.reports) else []
    ensures AllSane(turns + [t]) && (Complete(t) ==> AllComplete(turns + [t]))
    ensures Progress(c, model, tools, task, turns + [t], messages + Render(t), more)
    ensures Tokens(c, model, task, turns + [t], |turns| + 1) == Tokens(c, model, task, turns, |turns| + 1)
  {
    hide Ask, ToolAnswer, Render, History, Tokens, Records, RenderAll;
    HistoryAppend(c, model, tools, task, turns, t);
    TokensPrefix(c, model, task, turns, t, |turns| + 1);
  }

  lemma SaysProperly(c: Cluster, model: Model, tools: ToolBox, task: string, turns: seq<Turn>,
                     messages: seq<Message>, children: seq<TraceRecord>)
    requires Progress(c, model, tools, task, turns, messages, children) && AllComplete(turns)
    ensures WellFormed(task, messages)
  {
    hide WellFormed, RenderAll, Ask, Records;
    forall i | 0 <= i < |turns| && turns[i].Nudged? ensures i == 0 {
      assert TurnOk(c, model, tools, task, turns, i);
    }
    TranscriptIsWellFormed(task, turns);
  }

  lemma EndsRaised(c: Cluster, model: Model, tools: ToolBox, task: string, earlier: seq<Turn>, t: Turn,
                   children: seq<TraceRecord>, modelCalls: nat)
    requires AllComplete(earlier) && Sane(t) && modelCalls == |earlier| + 1
    requires t.Called? && |t.reports| < |t.calls|
    requires ToolAnswer(c, tools, |children|, t.calls[|t.reports|]) == None
    ensures AllSane(earlier + [t])
    ensures EndsProperly(c, model, tools, task, earlier + [t], children, modelCalls, ToolCallRaised)
  {
    hide ToolAnswer, Ask;
  }

  lemma EventsNudged(c: Cluster, turns: seq<Turn>, text: string)
    ensures AllEvents(c, turns + [Nudged(text)]) == AllEvents(c, turns) + ModelEvents(c)
  {
    hide ModelEvents;
    EventsAppend(c, turns, Nudged(text));
  }

  lemma EventsCalled(c: Cluster, turns: seq<Turn>, t: Turn)
    requires t.Called?
    ensures AllEvents(c, turns + [t])
         == AllEvents(c, turns) + ModelEvents(c) + BatchEvents(c, Started(t.calls, |t.reports|))
  {
    hide ModelEvents, BatchEvents, Started;
    EventsAppend(c, turns, t);
  }

  lemma TokensNext(c: Cluster, model: Model, task: string, turns: seq<Turn>, r: Response)
    requires AllSane(turns)
    requires Ask(c, model, task, turns, |turns|) == Replied(r)
    ensures var before := Tokens(c, model, task, turns, |turns|);
            Tokens(c, model, task, turns, |turns| + 1) == (before.0 + r.inputTokens, before.1 + r.outputTokens)
  {
    hide Ask;
  }
}
