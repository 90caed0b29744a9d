/** The human approval protocol (backend/execution/approvals.py) with the run cleanup of
backend/api/runs.py, as threads interleaved at every access to shared state. */
module Approvals {
  import opened Wrappers
  /** A pending approval object; it outlives its entry in `_pending`. */
  datatype Approval = Approval(run: string, tool: string, decision: Option<bool>, event: bool)

  /** Program counter of a thread inside `request_approval`. */
  datatype Asking =
    | Start                               // before the remembered check
    | Missed                              // checked, nothing remembered
    | Waiting(id: nat)                    // registered, blocked on the event
    | Awake(id: nat)                      // event seen set
    | Leaving(id: nat, answer: bool)      // decision read, entry not yet popped
    | Answered(answer: bool, asked: Option<nat>)  // returned; None: from the fast path

  datatype Requester = Requester(run: string, tool: string, pc: Asking)

  /** Program counter of a thread inside `resolve_approval`. */
  datatype Resolving = Looking | Holding | Decided | Stored | Returned(found: bool)

  datatype Resolver = Resolver(id: nat, approved: bool, remember: bool, pc: Resolving)

  datatype State = State(
    requesters: map<nat, Requester>,
    resolvers: map<nat, Resolver>,
    approvals: map<nat, Approval>,
    pending: set<nat>,
    remembered: map<(string, string), bool>,
    closed: set<string>)

  const INITIAL := State(map[], map[], map[], {}, map[], {})

  datatype Action =
    | Request(t: nat, run: string, tool: string)
    | CheckRemembered(t: nat)
    | Register(t: nat, id: nat)
    | Wake(t: nat)
    | ReadDecision(t: nat)
    | Pop(t: nat)
    | Resolve(r: nat, id: nat, approved: bool, remember: bool)
    | LookUp(r: nat)
    | WriteDecision(r: nat)
    | Remember(r: nat)
    | SetEvent(r: nat)
    | Cleanup(run: string)

  predicate ResolverAt(s: State, r: nat, pc: Resolving) {
    r in s.resolvers && s.resolvers[r].pc == pc
  }

  /** A run is cleaned up after its nodes have returned, and nobody asks for it afterwards. */
  predicate Enabled(s: State, a: Action) {
    match a
    case Request(t, run, _) => t !in s.requesters && run !in s.closed
    case CheckRemembered(t) => t in s.requesters && s.requesters[t].pc == Start
    case Register(t, id) => t in s.requesters && s.requesters[t].pc == Missed && id !in s.approvals
    case Wake(t) => t in s.requesters && s.requesters[t].pc.Waiting?
                    && s.requesters[t].pc.id in s.approvals && s.approvals[s.requesters[t].pc.id].event
    case ReadDecision(t) => t in s.requesters && s.requesters[t].pc.Awake? && s.requesters[t].pc.id in s.approvals
    case Pop(t) => t in s.requesters && s.requesters[t].pc.Leaving?
    case Resolve(r, _, _, _) => r !in s.resolvers
    case LookUp(r) => ResolverAt(s, r, Looking)
    case WriteDecision(r) => ResolverAt(s, r, Holding) && s.resolvers[r].id in s.approvals
    case Remember(r) => ResolverAt(s, r, Decided) && s.resolvers[r].id in s.approvals
    case SetEvent(r) => ResolverAt(s, r, Stored) && s.resolvers[r].id in s.approvals
    case Cleanup(run) => forall t | t in s.requesters && s.requesters[t].run == run :: s.requesters[t].pc.Answered?
  }

  function Move(s: State, t: nat, pc: Asking): State
    requires t in s.requesters
  {
    s.(requesters := s.requesters[t := s.requesters[t].(pc := pc)])
  }

  function Advance(s: State, r: nat, pc: Resolving): State
    requires r in s.resolvers
  {
    s.(resolvers := s.resolvers[r := s.resolvers[r].(pc := pc)])
  }

  function Step(s: State, a: Action): State
    requires Enabled(s, a)
  {
    match a
    case Request(t, run, tool) => s.(requesters := s.requesters[t := Requester(run, tool, Start)])
    case CheckRemembered(t) =>
      var key := (s.requesters[t].run, s.requesters[t].tool);
      if key in s.remembered then Move(s, t, Answered(s.remembered[key], None)) else Move(s, t, Missed)
    case Register(t, id) =>
      Move(s, t, Waiting(id)).(
        approvals := s.approvals[id := Approval(s.requesters[t].run, s.requesters[t].tool, None, false)],
        pending := s.pending + {id})
    case Wake(t) => Move(s, t, Awake(s.requesters[t].pc.id))
    case ReadDecision(t) =>
      var id := s.requesters[t].pc.id;
      Move(s, t, Leaving(id, s.approvals[id].decision == Some(true)))
    case Pop(t) =>
      var pc := s.requesters[t].pc;
      Move(s, t, Answered(pc.answer, Some(pc.id))).(pending := s.pending - {pc.id})
    case Resolve(r, id, approved, remember) =>
      s.(resolvers := s.resolvers[r := Resolver(id, approved, remember, Looking)])
    case LookUp(r) => Advance(s, r, if s.resolvers[r].id in s.pending then Holding else Returned(false))
    case WriteDecision(r) =>
      var id, approved := s.resolvers[r].id, s.resolvers[r].approved;
      Advance(s, r, Decided).(approvals := s.approvals[id := s.approvals[id].(decision := Some(approved))])
    case Remember(r) =>
      var q := s.resolvers[r];
      var key := (s.approvals[q.id].run, s.approvals[q.id].tool);
      Advance(s, r, Stored).(remembered := if q.remember then s.remembered[key := q.approved] else s.remembered)
    case SetEvent(r) =>
      var id := s.resolvers[r].id;
      Advance(s, r, Returned(true)).(approvals := s.approvals[id := s.approvals[id].(event := true)])
    case Cleanup(run) =>
      s.(remembered := map k | k in s.remembered && k.0 != run :: s.remembered[k], closed := s.closed + {run})
  }

  /** The state after a sequence of actions, if each is enabled in turn. */
  function After(s: State, actions: seq<Action>): Option<State>
    decreases |actions|
  {
    if actions == [] then Some(s)
    else if Enabled(s, actions[0]) then After(Step(s, actions[0]), actions[1..])
    else None
  }

  // ----- Witnesses: resolvers never take anything back -----

  predicate Wrote(pc: Resolving) {
    pc == Decided || pc == Stored || pc == Returned(true)
  }

  /** Some resolver of this id has written this decision. */
  ghost predicate Supplied(s: State, id: nat, b: bool) {
    exists r :: r in s.resolvers && s.resolvers[r].id == id && s.resolvers[r].approved == b && Wrote(s.resolvers[r].pc)
  }

  /** Some resolver of this id has returned True. */
  ghost predicate Released(s: State, id: nat) {
    exists r :: r in s.resolvers && s.resolvers[r].id == id && s.resolvers[r].pc == Returned(true)
  }

  ghost predicate RemembersFor(s: State, r: nat, run: string, tool: string) {
    && r in s.resolvers && s.resolvers[r].remember
    && (s.resolvers[r].pc == Stored || s.resolvers[r].pc == Returned(true))
    && s.resolvers[r].id in s.approvals
    && s.approvals[s.resolvers[r].id].run == run && s.approvals[s.resolvers[r].id].tool == tool
  }

  /** This answer was given with remember=True for this run and tool. */
  ghost predicate Remembering(s: State, run: string, tool: string, b: bool) {
    exists r :: RemembersFor(s, r, run, tool) && s.resolvers[r].approved == b
  }

  predicate NoEarlier(a: Resolving, b: Resolving) {
    (Wrote(a) ==> Wrote(b)) && (a == Returned(true) ==> b == Returned(true))
    && (a == Stored ==> b == Stored || b == Returned(true))
  }

  ghost predicate Grows(s: State, s': State) {
    && (forall r | r in s.resolvers :: r in s'.resolvers
          && s'.resolvers[r] == s.resolvers[r].(pc := s'.resolvers[r].pc)
             && NoEarlier(s.resolvers[r].pc, s'.resolvers[r].pc))
    && (forall id | id in s.approvals :: id in s'.approvals
          && s'.approvals[id].run == s.approvals[id].run && s'.approvals[id].tool == s.approvals[id].tool
          && (s.approvals[id].event ==> s'.approvals[id].event)
          && (s.approvals[id].decision.Some? ==> s'.approvals[id].decision.Some?))
  }

  lemma StepGrows(s: State, a: Action)
    requires Enabled(s, a)
    ensures Grows(s, Step(s, a))
  {
  }

  lemma WitnessesStay(s: State, s': State)
    requires Grows(s, s')
    ensures forall id, b | Supplied(s, id, b) :: Supplied(s', id, b)
    ensures forall id | Released(s, id) :: Released(s', id)
    ensures forall run, tool, b | Remembering(s, run, tool, b) :: Remembering(s', run, tool, b)
  {
    forall id, b | Supplied(s, id, b) ensures Supplied(s', id, b) {
      var r :| r in s.resolvers && s.resolvers[r].id == id && s.resolvers[r].approved == b && Wrote(s.resolvers[r].pc);
      assert r in s'.resolvers;
    }
    forall id | Released(s, id) ensures Released(s', id) {
      var r :| r in s.resolvers && s.resolvers[r].id == id && s.resolvers[r].pc == Returned(true);
      assert r in s'.resolvers;
    }
    forall run, tool, b | Remembering(s, run, tool, b) ensures Remembering(s', run, tool, b) {
      var r :| RemembersFor(s, r, run, tool) && s.resolvers[r].approved == b;
      assert RemembersFor(s', r, run, tool);
    }
  }

  // ----- The invariant -----

  ghost predicate ApprovalOk(s: State, id: nat, x: Approval) {
    && (x.decision.Some? ==> Supplied(s, id, x.decision.value))
    && (x.event ==> x.decision.Some? && Released(s, id))
  }

  ghost predicate ApprovalsOk(s: State) {
    forall id | id in s.approvals :: ApprovalOk(s, id, s.approvals[id])
  }

  ghost predicate ResolverOk(s: State, q: Resolver) {
    && (q.pc != Looking && q.pc != Returned(false) ==> q.id in s.approvals)
    && (Wrote(q.pc) ==> s.approvals[q.id].decision.Some?)
    && (q.pc == Returned(true) ==> s.approvals[q.id].event)
    && (q.remember && (q.pc == Stored || q.pc == Returned(true)) && s.approvals[q.id].run !in s.closed ==>
          (s.approvals[q.id].run, s.approvals[q.id].tool) in s.remembered)
  }

  ghost predicate ResolversOk(s: State) {
    forall r | r in s.resolvers :: ResolverOk(s, s.resolvers[r])
  }

  /** The approval a requester has registered, if any. */
  function OwnId(pc: Asking): Option<nat> {
    match pc
    case Waiting(id) => Some(id)
    case Awake(id) => Some(id)
    case Leaving(id, _) => Some(id)
    case Answered(_, asked) => asked
    case _ => None
  }

  ghost predicate OwnsApproval(s: State, q: Requester, id: nat) {
    && id in s.approvals && s.approvals[id].run == q.run && s.approvals[id].tool == q.tool
    && (q.pc.Answered? <==> id !in s.pending)
    && (!q.pc.Waiting? ==> s.approvals[id].event)
  }

  ghost predicate RequesterOk(s: State, q: Requester) {
    && (!q.pc.Answered? ==> q.run !in s.closed)
    && (OwnId(q.pc).Some? ==> OwnsApproval(s, q, OwnId(q.pc).value))
    && (q.pc.Leaving? ==> Supplied(s, q.pc.id, q.pc.answer))
    && (q.pc.Answered? && q.pc.asked.Some? ==> Supplied(s, q.pc.asked.value, q.pc.answer))
    && (q.pc.Answered? && q.pc.asked.None? ==> Remembering(s, q.run, q.tool, q.pc.answer))
  }

  ghost predicate RequestersOk(s: State) {
    forall t | t in s.requesters :: RequesterOk(s, s.requesters[t])
  }

  ghost predicate OwnersDiffer(s: State) {
    forall t, u | t in s.requesters && u in s.requesters && t != u && OwnId(s.requesters[t].pc).Some? ::
      OwnId(s.requesters[t].pc) != OwnId(s.requesters[u].pc)
  }

  ghost predicate RememberedOk(s: State) {
    forall k | k in s.remembered :: Remembering(s, k.0, k.1, s.remembered[k])
  }

  ghost predicate Owned(s: State, id: nat) {
    exists t :: t in s.requesters && OwnId(s.requesters[t].pc) == Some(id)
  }

  ghost predicate AllOwned(s: State) {
    && (forall id | id in s.approvals :: Owned(s, id))
    && (forall id | id in s.pending :: id in s.approvals)
  }

  ghost predicate Inv(s: State) {
    ApprovalsOk(s) && ResolversOk(s) && RequestersOk(s) && OwnersDiffer(s) && RememberedOk(s) && AllOwned(s)
  }

  lemma StepApprovals(s: State, a: Action)
    requires Enabled(s, a) && Inv(s)
    ensures ApprovalsOk(Step(s, a))
  {
    hide Supplied, Released, Grows, RequestersOk, RememberedOk, AllOwned, OwnersDiffer, ResolversOk;
    var s' := Step(s, a);
    StepGrows(s, a);
    WitnessesStay(s, s');
    if a.WriteDecision? {
      JustWrote(s', a.r);
    } else if a.SetEvent? {
      HasDecided(s, a.r);
      JustReleased(s', a.r);
    }
    forall id | id in s'.approvals ensures ApprovalOk(s', id, s'.approvals[id]) {
      assert id in s.approvals ==> ApprovalOk(s, id, s.approvals[id]);
    }
  }

  lemma HasDecided(s: State, r: nat)
    requires ResolversOk(s) && r in s.resolvers && Wrote(s.resolvers[r].pc)
    ensures s.resolvers[r].id in s.approvals && s.approvals[s.resolvers[r].id].decision.Some?
  {
    assert ResolverOk(s, s.resolvers[r]);
  }

  lemma JustWrote(s: State, r: nat)
    requires r in s.resolvers && Wrote(s.resolvers[r].pc)
    ensures Supplied(s, s.resolvers[r].id, s.resolvers[r].approved)
  {
  }

  lemma JustReleased(s: State, r: nat)
    requires r in s.resolvers && s.resolvers[r].pc == Returned(true)
    ensures Released(s, s.resolvers[r].id)
  {
  }

  lemma StepResolvers(s: State, a: Action)
    requires Enabled(s, a) && Inv(s)
    ensures ResolversOk(Step(s, a))
  {
    hide ResolverOk, ApprovalsOk, RequestersOk, RememberedOk, OwnersDiffer, Grows;
    var s' := Step(s, a);
    StepGrows(s, a);
    forall r | r in s'.resolvers ensures ResolverOk(s', s'.resolvers[r]) {
      if r in s.resolvers && s'.resolvers[r] == s.resolvers[r] {
        assert ResolverOk(s, s.resolvers[r]);
        ResolverStays(s, a, s.resolvers[r]);
      } else {
        MovedResolver(s, a, r);
      }
    }
  }

  lemma ResolverStays(s: State, a: Action, q: Resolver)
    requires Enabled(s, a) && ResolverOk(s, q)
    ensures ResolverOk(Step(s, a), q)
  {
  }

  lemma MovedResolver(s: State, a: Action, r: nat)
    requires Enabled(s, a) && ResolversOk(s) && AllOwned(s) && r in Step(s, a).resolvers
    requires r !in s.resolvers || Step(s, a).resolvers[r] != s.resolvers[r]
    ensures ResolverOk(Step(s, a), Step(s, a).resolvers[r])
  {
    assert r in s.resolvers ==> ResolverOk(s, s.resolvers[r]);
  }

  /** A requester that does not move keeps its part of the invariant. */
  lemma RequesterStays(s: State, s': State, q: Requester)
    requires RequesterOk(s, q) && Grows(s, s')
    requires !q.pc.Answered? ==> q.run !in s'.closed
    requires OwnId(q.pc).Some? ==> (OwnId(q.pc).value in s'.pending <==> OwnId(q.pc).value in s.pending)
    ensures RequesterOk(s', q)
  {
    WitnessesStay(s, s');
    hide Supplied, Released, Remembering;
  }

  lemma StepRequesters(s: State, a: Action)
    requires Enabled(s, a) && Inv(s)
    ensures RequestersOk(Step(s, a))
  {
    hide ApprovalsOk, ResolversOk, RememberedOk, RequesterOk, Grows;
    var s' := Step(s, a);
    StepGrows(s, a);
    forall t | t in s'.requesters ensures RequesterOk(s', s'.requesters[t]) {
      if t in s.requesters && s'.requesters[t] == s.requesters[t] {
        assert RequesterOk(s, s.requesters[t]);
        OwnIsApproval(s, s.requesters[t]);
        RequesterStays(s, s', s.requesters[t]);
      } else {
        MovedRequester(s, a, t);
      }
    }
  }

  lemma OwnIsApproval(s: State, q: Requester)
    requires RequesterOk(s, q)
    ensures OwnId(q.pc).Some? ==> OwnId(q.pc).value in s.approvals
    ensures !q.pc.Answered? ==> q.run !in s.closed
  {
  }

  lemma MovedRequester(s: State, a: Action, t: nat)
    requires Enabled(s, a) && Inv(s) && t in Step(s, a).requesters
    requires t !in s.requesters || Step(s, a).requesters[t] != s.requesters[t]
    ensures RequesterOk(Step(s, a), Step(s, a).requesters[t])
  {
    hide RequesterOk, ApprovalsOk, RememberedOk, ResolversOk, OwnersDiffer, AllOwned;
    match a
    case Request(_, _, _) => MovedIn(s, a);
    case CheckRemembered(_) => MovedPastCheck(s, a);
    case Register(_, _) => MovedIn(s, a);
    case Wake(_) => MovedAwake(s, a);
    case ReadDecision(_) => MovedPastRead(s, a);
    case Pop(_) => MovedOut(s, a);
    case _ =>
  }

  lemma MovedIn(s: State, a: Action)
    requires Enabled(s, a) && RequestersOk(s) && (a.Request? || a.Register?)
    ensures RequesterOk(Step(s, a), Step(s, a).requesters[a.t])
  {
    assert a.t in s.requesters ==> RequesterOk(s, s.requesters[a.t]);
  }

  lemma MovedPastCheck(s: State, a: Action)
    requires Enabled(s, a) && RequestersOk(s) && RememberedOk(s) && a.CheckRemembered?
    ensures RequesterOk(Step(s, a), Step(s, a).requesters[a.t])
  {
    assert RequesterOk(s, s.requesters[a.t]);
    StepGrows(s, a);
    WitnessesStay(s, Step(s, a));
    hide Remembering, Grows;
  }

  lemma MovedAwake(s: State, a: Action)
    requires Enabled(s, a) && RequestersOk(s) && a.Wake?
    ensures RequesterOk(Step(s, a), Step(s, a).requesters[a.t])
  {
    assert RequesterOk(s, s.requesters[a.t]);
  }

  lemma MovedPastRead(s: State, a: Action)
    requires Enabled(s, a) && RequestersOk(s) && ApprovalsOk(s) && a.ReadDecision?
    ensures RequesterOk(Step(s, a), Step(s, a).requesters[a.t])
  {
    assert RequesterOk(s, s.requesters[a.t]);
    var id := s.requesters[a.t].pc.id;
    assert ApprovalOk(s, id, s.approvals[id]);
    StepGrows(s, a);
    WitnessesStay(s, Step(s, a));
    hide Supplied, Released, Grows;
  }

  lemma MovedOut(s: State, a: Action)
    requires Enabled(s, a) && RequestersOk(s) && a.Pop?
    ensures RequesterOk(Step(s, a), Step(s, a).requesters[a.t])
  {
    assert RequesterOk(s, s.requesters[a.t]);
    StepGrows(s, a);
    WitnessesStay(s, Step(s, a));
    hide Supplied, Grows;
  }

  lemma StepOwners(s: State, a: Action)
    requires Enabled(s, a) && Inv(s)
    ensures OwnersDiffer(Step(s, a))
  {
    hide ApprovalsOk, ResolversOk, RememberedOk, AllOwned, RequesterOk;
    forall t | t in s.requesters
      ensures OwnId(s.requesters[t].pc).Some? ==> OwnId(s.requesters[t].pc).value in s.approvals
    {
      assert RequesterOk(s, s.requesters[t]);
      OwnIsApproval(s, s.requesters[t]);
    }
  }

  lemma StepRemembered(s: State, a: Action)
    requires Enabled(s, a) && Inv(s)
    ensures RememberedOk(Step(s, a))
  {
    hide Supplied, Released, Remembering, RequestersOk, ApprovalsOk, Grows, OwnersDiffer, AllOwned, ResolversOk;
    var s' := Step(s, a);
    StepGrows(s, a);
    WitnessesStay(s, s');
    if a.Remember? && s.resolvers[a.r].remember {
      JustRemembered(s', a.r);
    }
    forall k | k in s'.remembered ensures Remembering(s', k.0, k.1, s'.remembered[k]) {
      if k in s.remembered && s'.remembered[k] == s.remembered[k] {
        assert Remembering(s, k.0, k.1, s.remembered[k]);
      }
    }
  }

  lemma JustRemembered(s: State, r: nat)
    requires ResolverAt(s, r, Stored) && s.resolvers[r].remember && s.resolvers[r].id in s.approvals
    ensures var x := s.approvals[s.resolvers[r].id]; Remembering(s, x.run, x.tool, s.resolvers[r].approved)
  {
    var x := s.approvals[s.resolvers[r].id];
    assert RemembersFor(s, r, x.run, x.tool);
  }

  lemma StepOwned(s: State, a: Action)
    requires Enabled(s, a) && Inv(s)
    ensures AllOwned(Step(s, a))
  {
    hide ApprovalsOk, ResolversOk, RememberedOk, RequestersOk, OwnersDiffer;
    var s' := Step(s, a);
    forall id | id in s'.approvals ensures Owned(s', id) {
      if a.Register? && id == a.id {
        assert OwnId(s'.requesters[a.t].pc) == Some(id);
      } else {
        assert Owned(s, id);
        var t :| t in s.requesters && OwnId(s.requesters[t].pc) == Some(id);
        assert t in s'.requesters && OwnId(s'.requesters[t].pc) == Some(id);
      }
    }
  }

  /** Every action of every thread keeps the invariant. */
  lemma StepInv(s: State, a: Action)
    requires Enabled(s, a) && Inv(s)
    ensures Inv(Step(s, a))
  {
    StepApprovals(s, a);
    StepResolvers(s, a);
    StepRequesters(s, a);
    StepOwners(s, a);
    StepRemembered(s, a);
    StepOwned(s, a);
  }

  lemma {:induction false} RunInv(s: State, actions: seq<Action>)
    requires Inv(s) && After(s, actions).Some?
    ensures Inv(After(s, actions).value)
    decreases |actions|
  {
    hide Inv;
    if actions != [] {
      StepInv(s, actions[0]);
      RunInv(Step(s, actions[0]), actions[1..]);
    }
  }

  // ----- What every interleaving guarantees -----

  /** A set event comes with a decision; an answer that was asked for is one that some resolver of
      that id supplied, for the same run and tool; a fast-path answer is one given with
      remember=True for that run and tool; and once a resolve has returned True, the request is
      never left blocked. */
  lemma ProtocolSafety(actions: seq<Action>)
    requires After(INITIAL, actions).Some?
    ensures var s := After(INITIAL, actions).value;
            && (forall id | id in s.approvals && s.approvals[id].event :: s.approvals[id].decision.Some?)
            && (forall t | t in s.requesters && s.requesters[t].pc.Answered? :: AnswerJustified(s, s.requesters[t]))
            && (forall r, t | ResolverAt(s, r, Returned(true)) && t in s.requesters
                           && s.requesters[t].pc == Waiting(s.resolvers[r].id) :: Enabled(s, Wake(t)))
            && (forall id :: id in s.pending <==> Registered(s, id))
  {
    hide After;
    RunInv(INITIAL, actions);
    var s := After(INITIAL, actions).value;
    InvIsSafe(s);
  }

  /** The answer of a request that has returned. */
  ghost predicate AnswerJustified(s: State, q: Requester)
    requires q.pc.Answered?
  {
    match q.pc.asked
    case None => Remembering(s, q.run, q.tool, q.pc.answer)
    case Some(id) =>
      id in s.approvals && s.approvals[id].run == q.run && s.approvals[id].tool == q.tool
        && Supplied(s, id, q.pc.answer)
  }

  /** Some request has registered this id and not yet left. */
  ghost predicate Registered(s: State, id: nat) {
    exists t :: t in s.requesters && !s.requesters[t].pc.Answered? && OwnId(s.requesters[t].pc) == Some(id)
  }

  lemma InvIsSafe(s: State)
    requires Inv(s)
    ensures forall id | id in s.approvals && s.approvals[id].event :: s.approvals[id].decision.Some?
    ensures forall t | t in s.requesters && s.requesters[t].pc.Answered? :: AnswerJustified(s, s.requesters[t])
    ensures forall r, t | ResolverAt(s, r, Returned(true)) && t in s.requesters
                       && s.requesters[t].pc == Waiting(s.resolvers[r].id) :: Enabled(s, Wake(t))
    ensures forall id :: id in s.pending <==> Registered(s, id)
  {
    hide Supplied, Released, Remembering;
    forall id | id in s.approvals && s.approvals[id].event ensures s.approvals[id].decision.Some? {
      assert ApprovalOk(s, id, s.approvals[id]);
    }
    forall t | t in s.requesters && s.requesters[t].pc.Answered? ensures AnswerJustified(s, s.requesters[t]) {
      assert RequesterOk(s, s.requesters[t]);
    }
    forall r, t | ResolverAt(s, r, Returned(true)) && t in s.requesters
           && s.requesters[t].pc == Waiting(s.resolvers[r].id)
      ensures Enabled(s, Wake(t))
    {
      assert ResolverOk(s, s.resolvers[r]);
    }
    forall id ensures id in s.pending <==> Registered(s, id) {
      if id in s.pending {
        assert Owned(s, id);
        var t :| t in s.requesters && OwnId(s.requesters[t].pc) == Some(id);
        assert RequesterOk(s, s.requesters[t]);
      }
      if Registered(s, id) {
        var t :| t in s.requesters && !s.requesters[t].pc.Answered? && OwnId(s.requesters[t].pc) == Some(id);
        assert RequesterOk(s, s.requesters[t]);
      }
    }
  }

  // ----- Late resolvers -----

  /** The request of this id has come and gone. */
  predicate Gone(s: State, id: nat) {
    id in s.approvals && id !in s.pending
  }

  /** r has not found anything, and has not told anybody otherwise. */
  predicate FoundNothing(s: State, r: nat, id: nat) {
    r in s.resolvers ==>
      s.resolvers[r].id == id && (s.resolvers[r].pc == Looking || s.resolvers[r].pc == Returned(false))
  }

  lemma StepFindsNothing(s: State, a: Action, r: nat, id: nat)
    requires Enabled(s, a) && Gone(s, id) && FoundNothing(s, r, id)
    requires a.Resolve? && a.r == r ==> a.id == id
    ensures Gone(Step(s, a), id) && FoundNothing(Step(s, a), r, id)
    ensures a == LookUp(r) ==> ResolverAt(Step(s, a), r, Returned(false))
  {
  }

  /** A resolver that comes after the request has returned never finds it: whatever happens, it writes
      nothing, wakes nobody and can only return False. */
  lemma {:induction false} LateResolverFindsNothing(s: State, actions: seq<Action>, r: nat, id: nat)
    requires After(s, actions).Some? && Gone(s, id) && FoundNothing(s, r, id)
    requires forall a | a in actions && a.Resolve? && a.r == r :: a.id == id
    ensures Gone(After(s, actions).value, id) && FoundNothing(After(s, actions).value, r, id)
    decreases |actions|
  {
    hide Enabled, Step, Gone, FoundNothing;
    if actions != [] {
      assert actions[0] in actions && forall a | a in actions[1..] :: a in actions;
      StepFindsNothing(s, actions[0], r, id);
      LateResolverFindsNothing(Step(s, actions[0]), actions[1..], r, id);
    }
  }

  /** After every interleaving, a request that was asked for and has returned is gone. */
  lemma ReturnedIsGone(actions: seq<Action>, t: nat)
    requires After(INITIAL, actions).Some?
    requires var s := After(INITIAL, actions).value;
             t in s.requesters && s.requesters[t].pc.Answered? && s.requesters[t].pc.asked.Some?
    ensures var s := After(INITIAL, actions).value; Gone(s, s.requesters[t].pc.asked.value)
  {
    hide After;
    RunInv(INITIAL, actions);
    var s := After(INITIAL, actions).value;
    assert RequesterOk(s, s.requesters[t]);
  }

  // ----- Remembered decisions -----

  /** t has not asked yet, or was answered from memory without ever registering. */
  predicate NeverRegistered(s: State, t: nat) {
    t in s.requesters ==>
      s.requesters[t].pc == Start || (s.requesters[t].pc.Answered? && s.requesters[t].pc.asked.None?)
  }

  lemma StepSticks(s: State, a: Action, run: string, tool: string, t: nat)
    requires Enabled(s, a) && (run, tool) in s.remembered && a != Cleanup(run)
    requires NeverRegistered(s, t) && AsksFor(s, t, run, tool)
    requires a.Request? && a.t == t ==> a.run == run && a.tool == tool
    ensures (run, tool) in Step(s, a).remembered
    ensures NeverRegistered(Step(s, a), t) && AsksFor(Step(s, a), t, run, tool)
  {
  }

  predicate AsksFor(s: State, t: nat, run: string, tool: string) {
    t in s.requesters ==> s.requesters[t].run == run && s.requesters[t].tool == tool
  }

  lemma {:induction false} RememberedSticks(s: State, actions: seq<Action>, run: string, tool: string, t: nat)
    requires After(s, actions).Some? && (run, tool) in s.remembered
    requires forall a | a in actions :: a != Cleanup(run)
    requires NeverRegistered(s, t) && AsksFor(s, t, run, tool)
    requires forall a | a in actions && a.Request? && a.t == t :: a.run == run && a.tool == tool
    ensures (run, tool) in After(s, actions).value.remembered && NeverRegistered(After(s, actions).value, t)
    decreases |actions|
  {
    hide Enabled, Step, NeverRegistered, AsksFor;
    if actions != [] {
      assert actions[0] in actions && forall a | a in actions[1..] :: a in actions;
      StepSticks(s, actions[0], run, tool, t);
      RememberedSticks(Step(s, actions[0]), actions[1..], run, tool, t);
    }
  }

  /** Once a resolve with remember=True has returned, no later request for that run and tool is ever
      pending until the run is cleaned up. */
  lemma NoMoreAsking(actions: seq<Action>, later: seq<Action>, r: nat, t: nat)
    requires After(INITIAL, actions).Some? && After(After(INITIAL, actions).value, later).Some?
    requires var s := After(INITIAL, actions).value;
             && ResolverAt(s, r, Returned(true)) && s.resolvers[r].remember && s.resolvers[r].id in s.approvals
             && var x := s.approvals[s.resolvers[r].id];
                && x.run !in s.closed && t !in s.requesters
                && (forall a | a in later :: a != Cleanup(x.run))
                && (forall a | a in later && a.Request? && a.t == t :: a.run == x.run && a.tool == x.tool)
    ensures NeverRegistered(After(After(INITIAL, actions).value, later).value, t)
  {
    hide After;
    RunInv(INITIAL, actions);
    var s := After(INITIAL, actions).value;
    assert ResolverOk(s, s.resolvers[r]);
    var x := s.approvals[s.resolvers[r].id];
    RememberedSticks(s, later, x.run, x.tool, t);
  }

  /** A resolver that remembers shares its id with no other resolver. */
  ghost predicate RememberAlone(s: State) {
    forall r, q | r in s.resolvers && q in s.resolvers && r != q && s.resolvers[r].remember ::
      s.resolvers[r].id != s.resolvers[q].id
  }

  ghost predicate NothingLeft(s: State) {
    forall k | k in s.remembered :: k.0 !in s.closed
  }

  lemma LateRememberIsShared(s: State, r: nat)
    requires Inv(s) && ResolverAt(s, r, Decided) && s.resolvers[r].remember && s.resolvers[r].id in s.approvals
    requires s.approvals[s.resolvers[r].id].run in s.closed
    ensures !RememberAlone(s)
  {
    hide Supplied, Remembering, ResolversOk, OwnersDiffer, RememberedOk;
    var id := s.resolvers[r].id;
    assert Owned(s, id);
    var t :| t in s.requesters && OwnId(s.requesters[t].pc) == Some(id);
    assert RequesterOk(s, s.requesters[t]);
    assert ApprovalOk(s, id, s.approvals[id]);
    var q :| q in s.resolvers && s.resolvers[q].id == id && s.resolvers[q].pc == Returned(true);
    assert q != r;
  }

  lemma StepLeavesNothing(s: State, a: Action)
    requires Enabled(s, a) && Inv(s) && NothingLeft(s) && RememberAlone(Step(s, a))
    ensures NothingLeft(Step(s, a))
  {
    hide Inv, RememberAlone;
    assert RememberAlone(s) by { AloneBefore(s, a); }
    if a.Remember? && s.resolvers[a.r].remember && s.approvals[s.resolvers[a.r].id].run in s.closed {
      LateRememberIsShared(s, a.r);
    }
  }

  lemma AloneBefore(s: State, a: Action)
    requires Enabled(s, a) && RememberAlone(Step(s, a))
    ensures RememberAlone(s)
  {
    StepGrows(s, a);
  }

  lemma {:induction false} RunLeavesNothing(s: State, actions: seq<Action>)
    requires Inv(s) && NothingLeft(s) && After(s, actions).Some? && RememberAlone(After(s, actions).value)
    ensures NothingLeft(After(s, actions).value) && RememberAlone(s)
    decreases |actions|
  {
    hide Inv, NothingLeft, RememberAlone;
    if actions != [] {
      var next := Step(s, actions[0]);
      StepInv(s, actions[0]);
      AloneThroughout(next, actions[1..]);
      StepLeavesNothing(s, actions[0]);
      RunLeavesNothing(next, actions[1..]);
      AloneBefore(s, actions[0]);
    }
  }

  lemma {:induction false} AloneThroughout(s: State, actions: seq<Action>)
    requires After(s, actions).Some? && RememberAlone(After(s, actions).value)
    ensures RememberAlone(s)
    decreases |actions|
  {
    hide RememberAlone;
    if actions != [] {
      AloneThroughout(Step(s, actions[0]), actions[1..]);
      AloneBefore(s, actions[0]);
    }
  }

  /** If no remembering resolver shares its id, nothing remembered for a run survives its cleanup. */
  lemma CleanupIsFinal(actions: seq<Action>)
    requires After(INITIAL, actions).Some? && RememberAlone(After(INITIAL, actions).value)
    ensures forall k | k in After(INITIAL, actions).value.remembered :: k.0 !in After(INITIAL, actions).value.closed
  {
    RunLeavesNothing(INITIAL, actions);
  }

  // ----- The condition is needed -----

  lemma {:induction false} AfterSplit(s: State, first: seq<Action>, rest: seq<Action>)
    requires After(s, first).Some?
    ensures After(s, first + rest) == After(After(s, first).value, rest)
    decreases |first|
  {
    if first == [] {
      assert [] + rest == rest;
    } else {
      assert (first + rest)[1..] == first[1..] + rest;
      AfterSplit(Step(s, first[0]), first[1..], rest);
    }
  }

  lemma ThreeSteps(s: State, a: Action, b: Action, c: Action)
    requires Enabled(s, a) && Enabled(Step(s, a), b) && Enabled(Step(Step(s, a), b), c)
    ensures After(s, [a, b, c]) == Some(Step(Step(Step(s, a), b), c))
  {
    hide Enabled, Step;
    var u, v := Step(s, a), Step(Step(s, a), b);
    assert [a, b, c][1..] == [b, c] && [b, c][1..] == [c] && [c][1..] == [];
    assert After(v, [c]) == Some(Step(v, c));
    assert After(u, [b, c]) == Some(Step(v, c));
  }

  /** Two resolvers have looked the same waiting request up; nobody else of its run is unanswered. */
  ghost predicate Shared(s: State, t: nat, r: nat, q: nat) {
    && r != q && ResolverAt(s, r, Holding) && ResolverAt(s, q, Holding)
    && t in s.requesters && s.requesters[t].pc == Waiting(s.resolvers[r].id)
    && s.resolvers[q].id == s.resolvers[r].id && s.resolvers[r].id in s.approvals
    && s.approvals[s.resolvers[r].id].run == s.requesters[t].run
    && forall u | u in s.requesters && u != t && s.requesters[u].run == s.requesters[t].run ::
         s.requesters[u].pc.Answered?
  }

  /** Resolver r runs to its end. */
  lemma FirstResolves(s: State, t: nat, r: nat, q: nat) returns (s': State)
    requires Shared(s, t, r, q)
    ensures After(s, [WriteDecision(r), Remember(r), SetEvent(r)]) == Some(s')
    ensures s'.requesters == s.requesters && ResolverAt(s', q, Holding) && s'.resolvers[q] == s.resolvers[q]
    ensures var id := s.resolvers[q].id;
            id in s'.approvals && s'.approvals[id].event
            && s'.approvals[id].run == s.approvals[id].run && s'.approvals[id].tool == s.approvals[id].tool
  {
    s' := Step(Step(Step(s, WriteDecision(r)), Remember(r)), SetEvent(r));
    ThreeSteps(s, WriteDecision(r), Remember(r), SetEvent(r));
  }

  /** The woken request returns. */
  lemma RequestReturns(s: State, t: nat) returns (s': State)
    requires t in s.requesters && s.requesters[t].pc.Waiting?
    requires s.requesters[t].pc.id in s.approvals && s.approvals[s.requesters[t].pc.id].event
    ensures After(s, [Wake(t), ReadDecision(t), Pop(t)]) == Some(s')
    ensures t in s'.requesters && s'.requesters == s.requesters[t := s'.requesters[t]] && s'.requesters[t].pc.Answered?
    ensures s'.requesters[t].run == s.requesters[t].run && s'.resolvers == s.resolvers && s'.approvals == s.approvals
  {
    s' := Step(Step(Step(s, Wake(t)), ReadDecision(t)), Pop(t));
    ThreeSteps(s, Wake(t), ReadDecision(t), Pop(t));
    assert s'.requesters == s.requesters[t := s'.requesters[t]];
  }

  /** The run is cleaned up, and resolver q goes on. */
  lemma SecondStores(s: State, q: nat, run: string) returns (s': State)
    requires ResolverAt(s, q, Holding) && s.resolvers[q].remember && s.resolvers[q].id in s.approvals
    requires s.approvals[s.resolvers[q].id].run == run
    requires forall u | u in s.requesters && s.requesters[u].run == run :: s.requesters[u].pc.Answered?
    ensures After(s, [Cleanup(run), WriteDecision(q), Remember(q)]) == Some(s')
    ensures run in s'.closed && (run, s.approvals[s.resolvers[q].id].tool) in s'.remembered
  {
    s' := Step(Step(Step(s, Cleanup(run)), WriteDecision(q)), Remember(q));
    ThreeSteps(s, Cleanup(run), WriteDecision(q), Remember(q));
  }

  /** A waiting request whose run has no other open request, and two thread names not yet used. */
  ghost predicate Exposed(s: State, t: nat, r: nat, q: nat) {
    && r != q && r !in s.resolvers && q !in s.resolvers
    && t in s.requesters && s.requesters[t].pc.Waiting? && s.requesters[t].pc.id in s.pending
    && forall u | u in s.requesters && u != t && s.requesters[u].run == s.requesters[t].run ::
         s.requesters[u].pc.Answered?
  }

  lemma ResolveStarts(s: State, r: nat, id: nat, approved: bool, remember: bool)
    requires r !in s.resolvers
    ensures Enabled(s, Resolve(r, id, approved, remember))
    ensures Step(s, Resolve(r, id, approved, remember))
         == s.(resolvers := s.resolvers[r := Resolver(id, approved, remember, Looking)])
  {
  }

  lemma LookUpFinds(s: State, r: nat)
    requires ResolverAt(s, r, Looking) && s.resolvers[r].id in s.pending
    ensures Enabled(s, LookUp(r))
    ensures Step(s, LookUp(r)) == s.(resolvers := s.resolvers[r := s.resolvers[r].(pc := Holding)])
  {
  }

  lemma WaitingIsOwned(s: State, t: nat)
    requires RequestersOk(s) && t in s.requesters && s.requesters[t].pc.Waiting?
    ensures var id := s.requesters[t].pc.id; id in s.approvals && s.approvals[id].run == s.requesters[t].run
  {
    assert RequesterOk(s, s.requesters[t]);
  }

  lemma ResolversMeet(s: State, t: nat, r: nat, q: nat, a: bool, m: bool, b: bool) returns (s': State)
    requires Inv(s) && Exposed(s, t, r, q)
    ensures var id := s.requesters[t].pc.id;
            After(s, [Resolve(r, id, a, m), Resolve(q, id, b, true), LookUp(r)]) == Some(s')
    ensures Enabled(s', LookUp(q)) && Shared(Step(s', LookUp(q)), t, r, q) && Step(s', LookUp(q)).resolvers[q].remember
  {
    hide ApprovalsOk, ResolversOk, RequestersOk, RememberedOk, OwnersDiffer, AllOwned, Enabled, Step, After;
    var id := s.requesters[t].pc.id;
    WaitingIsOwned(s, t);
    var s1 := s.(resolvers := s.resolvers[r := Resolver(id, a, m, Looking)]);
    ResolveStarts(s, r, id, a, m);
    var s2 := s1.(resolvers := s1.resolvers[q := Resolver(id, b, true, Looking)]);
    ResolveStarts(s1, q, id, b, true);
    s' := s2.(resolvers := s2.resolvers[r := s2.resolvers[r].(pc := Holding)]);
    LookUpFinds(s2, r);
    LookUpFinds(s', q);
    ThreeSteps(s, Resolve(r, id, a, m), Resolve(q, id, b, true), LookUp(r));
  }

  lemma SharedLeaks(s: State, t: nat, r: nat, q: nat) returns (actions: seq<Action>)
    requires Shared(s, t, r, q) && s.resolvers[q].remember
    ensures After(s, actions).Some? && !NothingLeft(After(s, actions).value)
  {
    var run := s.requesters[t].run;
    var s1 := FirstResolves(s, t, r, q);
    var s2 := RequestReturns(s1, t);
    var s3 := SecondStores(s2, q, run);
    hide After, Shared;
    var a1, a2, a3 := [WriteDecision(r), Remember(r), SetEvent(r)], [Wake(t), ReadDecision(t), Pop(t)],
                      [Cleanup(run), WriteDecision(q), Remember(q)];
    actions := a1 + (a2 + a3);
    AfterSplit(s1, a2, a3);
    AfterSplit(s, a1, a2 + a3);
  }

  /** The condition is needed: whenever a request waits, two resolves of it, the second of which
      remembers, can leave a remembered decision behind the cleaned-up run, whatever they decide and
      whether or not the first one remembers. */
  lemma SecondResolverLeaks(s: State, t: nat, r: nat, q: nat, a: bool, m: bool, b: bool) returns (actions: seq<Action>)
    requires Inv(s) && Exposed(s, t, r, q)
    ensures After(s, actions).Some? && !NothingLeft(After(s, actions).value)
  {
    var id := s.requesters[t].pc.id;
    var s' := ResolversMeet(s, t, r, q, a, m, b);
    var rest := SharedLeaks(Step(s', LookUp(q)), t, r, q);
    var first := [Resolve(r, id, a, m), Resolve(q, id, b, true), LookUp(r)];
    AfterOne(s', LookUp(q), rest);
    hide After, Step, Enabled, NothingLeft;
    actions := first + ([LookUp(q)] + rest);
    AfterSplit(s, first, [LookUp(q)] + rest);
  }

  lemma AfterOne(s: State, a: Action, rest: seq<Action>)
    requires Enabled(s, a)
    ensures After(s, [a] + rest) == After(Step(s, a), rest)
  {
    assert ([a] + rest)[1..] == rest;
  }
}
