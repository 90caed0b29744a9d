/** A whole agent run, read off what it returns (backend/nodes/agent.py:226-354): what each tool call
left behind, which sub-node was in use when, and how concurrent agents show on the shared counter. */
module AgentRun {
  import opened Wrappers
  import opened Digraph
  import opened Graph
  import opened Activity
  import opened Agent

  // ----- What each call leaves behind -----

  /** The k-th call of the run left this record and this message. A listed tool's body is run on the
      call's arguments: if it succeeded, its outputs are recorded and told to the model as JSON; if it
      failed, its error is. An unlisted name is recorded as failed and refused. */
  ghost predicate CallLeaves(c: Cluster, tools: ToolBox, k: nat, call: ToolCall, record: TraceRecord, said: Message) {
    && said.Tool? && said.callId == call.id && said.name == call.name
    && record.node == call.name && record.inputs == call.arguments
    && if call.name !in c.tools then record.outcome == Failed(Unknown(call.name)) && said.content == Unknown(call.name)
       else
         match tools.run(k, call.name, call.arguments)
         case Failed(e) => record.outcome == Failed(e) && said.content == "Error: " + e
         case Done(outputs, _) =>
           Writable(Object(outputs)) && record.outcome == Done(outputs, None) && said.content == tools.json(outputs)
  }

  /** Every answered call is accounted for, in the order asked; `cut` is 1 if one more call was started
      and raised: a listed tool whose outputs have no JSON form. */
  ghost predicate Accounted(c: Cluster, tools: ToolBox, messages: seq<Message>, children: seq<TraceRecord>, cut: nat) {
    var calls, says := CallsAsked(messages), ToolSays(messages);
    && |says| == |children| && |children| + cut <= |calls| && (cut == 0 ==> |children| == |calls|)
    && (forall k | 0 <= k < |children| :: CallLeaves(c, tools, k, calls[k], children[k], says[k]))
    && (cut > 0 ==> var call := calls[|children|]; call.name in c.tools && Unwritable(tools, |children|, call))
  }

  lemma AnswerLeaves(c: Cluster, tools: ToolBox, k: nat, call: ToolCall, report: Report)
    requires ToolAnswer(c, tools, k, call) == Some(report)
    ensures CallLeaves(c, tools, k, call, report.record, Tool(call.id, call.name, report.text))
  {
    hide Writable;
  }

  /** All turns but perhaps the last are complete, and the reports of each are the tools' own. */
  ghost predicate Reported(c: Cluster, tools: ToolBox, turns: seq<Turn>) {
    && AllSane(turns)
    && (forall i | 0 <= i < |turns| - 1 :: Complete(turns[i]))
    && forall i | 0 <= i < |turns| :: ReportsFrom(c, tools, |Records(turns[..i])|, turns[i])
  }

  lemma HistoryReports(c: Cluster, model: Model, tools: ToolBox, task: string, turns: seq<Turn>)
    requires History(c, model, tools, task, turns)
    ensures Reported(c, tools, turns)
  {
    hide Ask, ReportsFrom, Records;
    forall i | 0 <= i < |turns| ensures ReportsFrom(c, tools, |Records(turns[..i])|, turns[i]) {
      assert TurnOk(c, model, tools, task, turns, i);
    }
  }

  lemma FrontReported(c: Cluster, tools: ToolBox, turns: seq<Turn>)
    requires Reported(c, tools, turns) && turns != []
    ensures Reported(c, tools, turns[..|turns| - 1]) && AllComplete(turns[..|turns| - 1])
  {
    hide ReportsFrom, Records;
    var front := turns[..|turns| - 1];
    forall i | 0 <= i < |front| ensures ReportsFrom(c, tools, |Records(front[..i])|, front[i]) {
      assert front[..i] == turns[..i];
    }
  }

  /** What a turn adds to the readings of the conversation. */
  lemma ReadTurn(m: seq<Message>, t: Turn)
    requires Sane(t)
    ensures CallsAsked(m + Render(t)) == CallsAsked(m) + if t.Called? then t.calls else []
    ensures ToolSays(m + Render(t)) == ToolSays(m) + if t.Called? then Answers(t.calls, t.reports) else []
    ensures Batches(m + Render(t)) == Batches(m) + if t.Called? then 1 else 0
  {
    hide CallsAsked, ToolSays, Batches, Answers;
    match t
    case Nudged(text) =>
      ReadNudge(m, text);
      RenderNudged(m, text);
    case Called(text, calls, reports) =>
      ReadBatch(m, text, calls, reports);
      RenderCalled(m, t);
  }

  lemma {:induction false} TurnsAccount(c: Cluster, tools: ToolBox, task: string, turns: seq<Turn>)
    requires Reported(c, tools, turns)
    ensures var m, children := RenderAll(task, turns), Records(turns);
            && |ToolSays(m)| == |children| <= |CallsAsked(m)|
            && (AllComplete(turns) ==> |children| == |CallsAsked(m)|)
            && forall k | 0 <= k < |children| :: CallLeaves(c, tools, k, CallsAsked(m)[k], children[k], ToolSays(m)[k])
  {
    hide CallsAsked, ToolSays, Render, CallLeaves, Answers, RecordsOf, Reported, AllSane;
    if turns == [] {
      OneUser(task);
    } else {
      var front, t := turns[..|turns| - 1], turns[|turns| - 1];
      FrontReported(c, tools, turns);
      TurnsAccount(c, tools, task, front);
      LastReported(c, tools, turns);
      ReadTurn(RenderAll(task, front), t);
      LastTurnAccounts(c, tools, Records(front), CallsAsked(RenderAll(task, front)), ToolSays(RenderAll(task, front)),
                       t);
      if AllComplete(turns) {
        LastComplete(turns);
      }
    }
  }

  lemma LastComplete(turns: seq<Turn>)
    requires turns != [] && AllComplete(turns)
    ensures Complete(turns[|turns| - 1])
  {
  }

  lemma LastReported(c: Cluster, tools: ToolBox, turns: seq<Turn>)
    requires Reported(c, tools, turns) && turns != []
    ensures Sane(turns[|turns| - 1])
    ensures ReportsFrom(c, tools, |Records(turns[..|turns| - 1])|, turns[|turns| - 1])
  {
    hide ReportsFrom, Records;
  }

  lemma LastTurnAccounts(c: Cluster, tools: ToolBox, children: seq<TraceRecord>, calls: seq<ToolCall>,
                         says: seq<Message>,
                         t: Turn)
    requires Sane(t) && ReportsFrom(c, tools, |children|, t) && |says| == |children| == |calls|
    requires forall k | 0 <= k < |children| :: CallLeaves(c, tools, k, calls[k], children[k], says[k])
    ensures t.Called? ==>
              var calls', children', says' := calls + t.calls, children + RecordsOf(t.reports),
                says + Answers(t.calls, t.reports);
              |says'| == |children'| <= |calls'|
              && forall k | 0 <= k < |children'| :: CallLeaves(c, tools, k, calls'[k], children'[k], says'[k])
  {
    hide CallLeaves, ToolAnswer;
    if t.Called? {
      var calls', children', says' := calls + t.calls, children + RecordsOf(t.reports),
        says + Answers(t.calls, t.reports);
      forall k | 0 <= k < |children'| ensures CallLeaves(c, tools, k, calls'[k], children'[k], says'[k]) {
        if k >= |children| {
          var j := k - |children|;
          assert ToolAnswer(c, tools, |children| + j, t.calls[j]) == Some(t.reports[j]);
          AnswerLeaves(c, tools, k, t.calls[j], t.reports[j]);
        }
      }
    }
  }

  /** On every exit all calls are accounted for. */
  lemma RunIsAccounted(c: Cluster, model: Model, tools: ToolBox, task: string, turns: seq<Turn>, messages: seq<Message>,
                       children: seq<TraceRecord>, activity: seq<Event>, modelCalls: nat, o: Exit)
    requires LeavesBehind(c, model, tools, task, turns, messages, children, activity, modelCalls, o)
    ensures Accounted(c, tools, messages, children, if o.ToolCallRaised? then 1 else 0)
  {
    hide WellFormed, Opens, AllEvents, ModelEvents, CallsAsked, ToolSays, CallLeaves, RenderAll, Records, History,
      Unwritable;
    HistoryReports(c, model, tools, task, turns);
    TurnsAccount(c, tools, task, turns);
    if o.ToolCallRaised? {
      CutIsLast(c, tools, task, turns);
    }
  }

  /** In a turn cut short, the call after the answered ones is the next one asked. */
  lemma CutIsLast(c: Cluster, tools: ToolBox, task: string, turns: seq<Turn>)
    requires Reported(c, tools, turns) && turns != []
    requires var t := turns[|turns| - 1]; t.Called? && |t.reports| < |t.calls|
    ensures var t, calls, n := turns[|turns| - 1], CallsAsked(RenderAll(task, turns)), |Records(turns)|;
            n < |calls| && calls[n] == t.calls[|t.reports|]
  {
    hide CallsAsked, ToolSays, Render, CallLeaves, Answers, RecordsOf, Reported, AllSane;
    var front, t := turns[..|turns| - 1], turns[|turns| - 1];
    FrontReported(c, tools, turns);
    TurnsAccount(c, tools, task, front);
    LastReported(c, tools, turns);
    ReadTurn(RenderAll(task, front), t);
  }

  // ----- How often each sub-node is activated -----

  /** How many of these calls are of the listed tool with this id. */
  function CallsOf(c: Cluster, calls: seq<ToolCall>, id: Id): nat {
    if calls == [] then 0
    else CallsOf(c, calls[..|calls| - 1], id) + if calls[|calls| - 1].name == id && id in c.tools then 1 else 0
  }

  function Activations(events: seq<Event>, id: Id): nat {
    multiset(events)[Event(id, true)]
  }

  function If(b: bool, n: nat): nat {
    if b then n else 0
  }

  /** The model and the memory are activated once per model call, the tool group once per batch, and a
      listed tool once per started call of it; what coincides adds up, and nothing else is activated. */
  ghost predicate Activated(c: Cluster, messages: seq<Message>, activity: seq<Event>, modelCalls: nat, started: nat) {
    && started <= |CallsAsked(messages)|
    && forall id :: Activations(activity, id)
         == If(id == c.model, modelCalls) + If(c.memory == Some(id), modelCalls)
            + If(c.group == Some(id), Batches(messages)) + CallsOf(c, CallsAsked(messages)[..started], id)
  }

  lemma ActivationsAppend(a: seq<Event>, b: seq<Event>, id: Id)
    ensures Activations(a + b, id) == Activations(a, id) + Activations(b, id)
  {
  }

  lemma OnActivates(sub: Option<Id>, active: bool, id: Id)
    ensures Activations(On(sub, active), id) == If(active && sub == Some(id), 1)
  {
  }

  lemma ModelActivates(c: Cluster, id: Id)
    ensures Activations(ModelEvents(c), id) == If(id == c.model, 1) + If(c.memory == Some(id), 1)
  {
    hide Activations;
    var on, off := [Event(c.model, true)], [Event(c.model, false)];
    assert on == On(Some(c.model), true) && off == On(Some(c.model), false);
    OnActivates(Some(c.model), true, id);
    OnActivates(Some(c.model), false, id);
    OnActivates(c.memory, true, id);
    OnActivates(c.memory, false, id);
    ActivationsAppend(on, On(c.memory, true), id);
    ActivationsAppend(on + On(c.memory, true), off, id);
    ActivationsAppend(on + On(c.memory, true) + off, On(c.memory, false), id);
  }

  lemma {:induction false} CallsActivate(c: Cluster, calls: seq<ToolCall>, id: Id)
    ensures Activations(CallEvents(c, calls), id) == CallsOf(c, calls, id)
  {
    if calls != [] {
      var front, name := calls[..|calls| - 1], calls[|calls| - 1].name;
      CallsActivate(c, front, id);
      if name in c.tools {
        ActivationsAppend(CallEvents(c, front), [Event(name, true), Event(name, false)], id);
      } else {
        ActivationsAppend(CallEvents(c, front), [], id);
      }
    }
  }

  lemma BatchActivates(c: Cluster, calls: seq<ToolCall>, id: Id)
    ensures Activations(BatchEvents(c, calls), id) == If(c.group == Some(id), 1) + CallsOf(c, calls, id)
  {
    hide Activations, CallEvents, CallsOf, On;
    CallsActivate(c, calls, id);
    OnActivates(c.group, true, id);
    OnActivates(c.group, false, id);
    ActivationsAppend(On(c.group, true), CallEvents(c, calls), id);
    ActivationsAppend(On(c.group, true) + CallEvents(c, calls), On(c.group, false), id);
  }

  /** The calls started in these turns. */
  function StartedIn(turns: seq<Turn>): seq<ToolCall> {
    if turns == [] then []
    else
      var t := turns[|turns| - 1];
      StartedIn(turns[..|turns| - 1]) + if t.Called? then Started(t.calls, |t.reports|) else []
  }

  lemma {:induction false} CallsOfAppend(c: Cluster, a: seq<ToolCall>, b: seq<ToolCall>, id: Id)
    ensures CallsOf(c, a + b, id) == CallsOf(c, a, id) + CallsOf(c, b, id)
    decreases |b|
  {
    if b == [] {
      assert a + b == a;
    } else {
      CallsOfAppend(c, a, b[..|b| - 1], id);
      assert (a + b)[..|a + b| - 1] == a + b[..|b| - 1];
    }
  }

  lemma TurnActivates(c: Cluster, t: Turn, id: Id)
    ensures Activations(TurnEvents(c, t), id)
         == If(id == c.model, 1) + If(c.memory == Some(id), 1)
            + (if t.Called? then If(c.group == Some(id), 1) + CallsOf(c, Started(t.calls, |t.reports|), id) else 0)
  {
    hide Activations, ModelEvents, BatchEvents, CallsOf, Started;
    ModelActivates(c, id);
    if t.Called? {
      BatchActivates(c, Started(t.calls, |t.reports|), id);
      ActivationsAppend(ModelEvents(c), BatchEvents(c, Started(t.calls, |t.reports|)), id);
    } else {
      assert ModelEvents(c) + [] == ModelEvents(c);
    }
  }

  lemma {:induction false} TurnsActivate(c: Cluster, task: string, turns: seq<Turn>, id: Id)
    requires AllSane(turns)
    ensures Activations(AllEvents(c, turns), id)
         == If(id == c.model, |turns|) + If(c.memory == Some(id), |turns|)
            + If(c.group == Some(id), Batches(RenderAll(task, turns))) + CallsOf(c, StartedIn(turns), id)
  {
    hide Activations, TurnEvents, CallsOf, Started, Batches, Render;
    if turns == [] {
      OneUser(task);
      NothingActivates(c, id);
    } else {
      var front, t := turns[..|turns| - 1], turns[|turns| - 1];
      TurnsActivate(c, task, front, id);
      TurnActivates(c, t, id);
      ActivationsAppend(AllEvents(c, front), TurnEvents(c, t), id);
      ReadTurn(RenderAll(task, front), t);
      CallsOfAppend(c, StartedIn(front), if t.Called? then Started(t.calls, |t.reports|) else [], id);
      NothingActivates(c, id);
    }
  }

  lemma NothingActivates(c: Cluster, id: Id)
    ensures Activations([], id) == 0 && CallsOf(c, [], id) == 0
  {
  }

  /** The started calls are the first ones asked: the answered ones, and the one that raised. */
  lemma {:induction false} StartedAreAsked(c: Cluster, tools: ToolBox, task: string, turns: seq<Turn>)
    requires Reported(c, tools, turns)
    ensures var calls, started := CallsAsked(RenderAll(task, turns)), StartedIn(turns);
            && |started| <= |calls| && started == calls[..|started|]
            && (AllComplete(turns) ==> |started| == |Records(turns)| == |calls|)
            && (turns != [] && !Complete(turns[|turns| - 1]) ==> |started| == |Records(turns)| + 1)
  {
    hide CallsAsked, Render, RecordsOf, Reported, AllSane, AllComplete, Started;
    if turns == [] {
      OneUser(task);
    } else {
      var front, t := turns[..|turns| - 1], turns[|turns| - 1];
      FrontReported(c, tools, turns);
      StartedAreAsked(c, tools, task, front);
      LastReported(c, tools, turns);
      ReadTurn(RenderAll(task, front), t);
      if t.Called? {
        StartedIsPrefix(t.calls, |t.reports|);
      }
      if AllComplete(turns) {
        LastComplete(turns);
      }
    }
  }

  lemma StartedIsPrefix(calls: seq<ToolCall>, n: nat)
    requires n <= |calls|
    ensures var started := Started(calls, n);
            |started| <= |calls| && started == calls[..|started|] && |started| == if n < |calls| then n + 1 else n
  {
  }

  lemma RunIsActivated(c: Cluster, model: Model, tools: ToolBox, task: string, turns: seq<Turn>, messages: seq<Message>,
                       children: seq<TraceRecord>, activity: seq<Event>, modelCalls: nat, o: Exit)
    requires LeavesBehind(c, model, tools, task, turns, messages, children, activity, modelCalls, o)
    ensures Activated(c, messages, activity, modelCalls, |children| + if o.ToolCallRaised? then 1 else 0)
  {
    hide WellFormed, Opens, AllEvents, ModelEvents, CallsAsked, Batches, RenderAll, Records, History, Unwritable,
      Activations, CallsOf, StartedIn, AllComplete, Complete;
    HistoryReports(c, model, tools, task, turns);
    StartedAreAsked(c, tools, task, turns);
    forall id
      ensures Activations(activity, id)
           == If(id == c.model, modelCalls) + If(c.memory == Some(id), modelCalls)
              + If(c.group == Some(id), Batches(messages)) + CallsOf(c, StartedIn(turns), id)
    {
      TurnsActivate(c, task, turns, id);
      ModelActivates(c, id);
      ActivationsAppend(AllEvents(c, turns), ModelEvents(c), id);
      assert AllEvents(c, turns) + [] == AllEvents(c, turns);
    }
  }

  // ----- The agent -----

  /** For every model and every tool box: what is left behind is a well-formed account of the calls and
      of what was in use when, and every activity bracket is closed. `atModel` and `atTool` are the
      activity at the moments of the model calls and of the started tool calls. */
  method ExecuteAgent(c: Cluster, model: Model, tools: ToolBox, task: string)
    returns (exit: Exit, messages: seq<Message>, children: seq<TraceRecord>, activity: seq<Event>,
             modelCalls: nat, ghost turns: seq<Turn>, ghost atModel: seq<seq<Event>>, ghost atTool: seq<seq<Event>>)
    requires Configured(c)
    ensures LeavesBehind(c, model, tools, task, turns, messages, children, activity, modelCalls, exit)
    ensures modelCalls <= c.maxIterations && Opens(activity, multiset{})
    ensures !exit.ToolCallRaised? ==> WellFormed(task, messages)
    ensures Accounted(c, tools, messages, children, if exit.ToolCallRaised? then 1 else 0)
    ensures Witnessed(c, messages, children, activity, modelCalls, atModel, atTool, if exit.ToolCallRaised? then 1
                      else 0)
    ensures Activated(c, messages, activity, modelCalls, |atTool|)
  {
    hide Opens, WellFormed, LeavesBehind, Accounted, Activated, AllShown, Shows;
    exit, messages, children, activity, modelCalls, turns, atModel, atTool := Converse(c, model, tools, task);
    LeavesWellFormed(c, model, tools, task, turns, messages, children, activity, modelCalls, exit);
    RunIsAccounted(c, model, tools, task, turns, messages, children, activity, modelCalls, exit);
    RunIsActivated(c, model, tools, task, turns, messages, children, activity, modelCalls, exit);
  }

  /** If the listed tools return only what JSON can write, no call ever raises. */
  lemma WritableNeverRaises(c: Cluster, model: Model, tools: ToolBox, task: string, turns: seq<Turn>,
                            messages: seq<Message>, children: seq<TraceRecord>, activity: seq<Event>,
                            modelCalls: nat, o: Exit)
    requires LeavesBehind(c, model, tools, task, turns, messages, children, activity, modelCalls, o)
    requires forall n, call: ToolCall | call.name in c.tools :: !Unwritable(tools, n, call)
    ensures !o.ToolCallRaised? && WellFormed(task, messages)
  {
    hide Unwritable, Progress, WellFormed, Opens, AllEvents, ModelEvents;
  }

  // ----- Concurrent agents -----

  /** What an agent may have emitted by some moment of its run. */
  ghost predicate Emitted(events: seq<Event>) {
    exists c, turns, called :: EmittedIn(events, c, turns, called)
  }

  ghost predicate EmittedIn(events: seq<Event>, c: Cluster, turns: seq<Turn>, called: bool) {
    events <= AllEvents(c, turns) + if called then ModelEvents(c) else []
  }

  /** Everything an agent emits up to its exit, and every beginning of it, is of this kind. */
  lemma AgentsEmit(c: Cluster, model: Model, tools: ToolBox, task: string, turns: seq<Turn>, messages: seq<Message>,
                   children: seq<TraceRecord>, activity: seq<Event>, modelCalls: nat, o: Exit, events: seq<Event>)
    requires LeavesBehind(c, model, tools, task, turns, messages, children, activity, modelCalls, o)
             && events <= activity
    ensures Emitted(events)
  {
    hide Progress, WellFormed, EndsProperly, Opens, AllEvents, ModelEvents;
    assert EmittedIn(events, c, turns, o.Answer? || o.ModelCallFailed?);
  }

  lemma EmittedIsBracketed(events: seq<Event>)
    requires Emitted(events)
    ensures Bracketed(events)
  {
    hide AllEvents, ModelEvents, Bracketed;
    var c, turns, called :| EmittedIn(events, c, turns, called);
    ActivityIsBracketed(c, turns);
    var all := AllEvents(c, turns) + if called then ModelEvents(c) else [];
    assert AllEvents(c, turns) + [] == AllEvents(c, turns);
    OpensIsBracketed(AllEvents(c, turns), multiset{});
    OpensIsBracketed(AllEvents(c, turns) + ModelEvents(c), multiset{});
    BeginningIsBracketed(all, events);
  }

  /** At every moment of every interleaving of any number of agents, finished or not, the counter
      shows exactly the sub-nodes that some agent is inside; once all have finished it is empty. */
  lemma ConcurrentAgentsAreCounted(calls: seq<Call>, n: nat)
    requires forall i | 0 <= i < |calls| :: calls[i].caller < n
    requires forall a | 0 <= a < n :: Emitted(By(calls, a))
    ensures EachBracketed(calls, n)
    ensures forall id :: id in Counts(Events(calls)) <==> SomeoneInside(calls, n, id)
    ensures (forall a | 0 <= a < n :: Opens(By(calls, a), multiset{})) ==> Counts(Events(calls)) == map[]
  {
    hide Emitted, Bracketed, By, Counts, SomeoneInside, Opens;
    forall a | 0 <= a < n ensures Bracketed(By(calls, a)) {
      EmittedIsBracketed(By(calls, a));
    }
    CounterShowsOpen(calls, n);
  }

  /** While an agent is inside a model call, the counter shows its model and its memory; while it is
      inside a call of a listed tool, the tool and its group; whatever the other agents do. */
  lemma InUseIsShown(calls: seq<Call>, n: nat, a: nat, open: multiset<Id>, id: Id)
    requires forall i | 0 <= i < |calls| :: calls[i].caller < n
    requires a < n && forall b | 0 <= b < n :: Emitted(By(calls, b))
    requires Opens(By(calls, a), open) && id in open
    ensures id in Counts(Events(calls))
  {
    hide Emitted, By, Counts, Bracketed;
    ConcurrentAgentsAreCounted(calls, n);
    assert Depth(By(calls, a), id) > 0;
    assert SomeoneInside(calls, n, id);
  }
}
