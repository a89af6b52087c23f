/** The approval bookkeeping of a human-in-the-loop workflow: the state an
    approval workflow carries, the updates that record a pending action and
    the human decision on it, and the rule table that assesses how risky an
    action is. Every operation returns a fresh partial update; `ApplyUpdate`
    folds one into a state the way the graph framework does for fields
    without a reducer (the value in the update replaces the old one). */
module Approvals {
  import opened Wrappers
  import opened Strings
  import Schemas

  datatype RiskLevel = Low | Medium | High

  /** The `workflow_status` values the approval code writes or documents. */
  datatype FlowStatus = Active | WaitingApproval | Blocked | Completed | Failed

  /** An action dict: its `"type"` entry, if it has one, and its other
      entries. */
  datatype Action = Action(actionType: Option<string>, parameters: map<string, Schemas.Value>)

  /** `not action`: a dict is false exactly when it is empty. */
  predicate IsEmptyAction(a: Action) {
    a.actionType.None? && a.parameters == map[]
  }

  /** One entry of `approval_history`, as `record_approval_decision` builds
      it. */
  datatype ApprovalRecord = ApprovalRecord(
    action: Action,
    approved: bool,
    timestamp: string,
    notes: string,
    approver: string)

  /** `ApprovalState` without its conversation messages. `userId` is `None`
      when the state has no `user_id` entry. */
  datatype ApprovalState = ApprovalState(
    pendingAction: Option<Action>,
    approvalHistory: seq<ApprovalRecord>,
    workflowStatus: FlowStatus,
    currentStep: string,
    userId: Option<string>,
    riskLevel: RiskLevel)

  /** A partial update: `Some(v)` for each key the returned dict holds. */
  datatype StateUpdate = StateUpdate(
    pendingAction: Option<Option<Action>>,
    approvalHistory: Option<seq<ApprovalRecord>>,
    workflowStatus: Option<FlowStatus>,
    currentStep: Option<string>)

  /** Folds an update into a state: each key present replaces the field. */
  function ApplyUpdate(s: ApprovalState, u: StateUpdate): (r: ApprovalState)
    ensures r.userId == s.userId && r.riskLevel == s.riskLevel
    ensures u.pendingAction.None? ==> r.pendingAction == s.pendingAction
    ensures u.pendingAction.Some? ==> r.pendingAction == u.pendingAction.value
    ensures u.approvalHistory.None? ==> r.approvalHistory == s.approvalHistory
    ensures u.approvalHistory.Some? ==> r.approvalHistory == u.approvalHistory.value
    ensures r.workflowStatus == u.workflowStatus.GetOr(s.workflowStatus)
    ensures r.currentStep == u.currentStep.GetOr(s.currentStep)
  {
    ApprovalState(
      pendingAction := if u.pendingAction.Some? then u.pendingAction.value else s.pendingAction,
      approvalHistory := u.approvalHistory.GetOr(s.approvalHistory),
      workflowStatus := u.workflowStatus.GetOr(s.workflowStatus),
      currentStep := u.currentStep.GetOr(s.currentStep),
      userId := s.userId,
      riskLevel := s.riskLevel)
  }

  // ---------------------------------------------------------------------------
  // Creating a state, requesting approval, recording the decision
  // ---------------------------------------------------------------------------

  /** `create_initial_state` */
  function CreateInitialState(userId: string): (s: ApprovalState)
    ensures s.pendingAction.None? && s.approvalHistory == []
    ensures s.workflowStatus == Active && s.currentStep == "initial"
    ensures s.userId == Some(userId) && s.riskLevel == Low
  {
    ApprovalState(None, [], Active, "initial", Some(userId), Low)
  }

  /** `action.get('type', 'unknown')` */
  function ActionTypeLabel(a: Action): string {
    a.actionType.GetOr("unknown")
  }

  /** `add_pending_action`: records the action as pending and waits for a
      decision. It reads nothing of the state, so an action already pending
      is replaced rather than refused. */
  function AddPendingAction(s: ApprovalState, action: Action): (u: StateUpdate)
    ensures u.pendingAction == Some(Some(action))
    ensures u.workflowStatus == Some(WaitingApproval)
    ensures action.actionType.Some? ==> u.currentStep == Some("approval_required_" + action.actionType.value)
    ensures action.actionType.None? ==> u.currentStep == Some("approval_required_unknown")
    ensures u.approvalHistory.None?
  {
    assert "approval_required_" + "unknown" == "approval_required_unknown";
    StateUpdate(Some(Some(action)), None, Some(WaitingApproval), Some("approval_required_" + ActionTypeLabel(action)))
  }

  datatype ApprovalError = NoPendingAction

  /** The literal the source stores as the decision's timestamp. */
  const DecisionTimestamp: string := "now"

  /** `state.get("user_id", "unknown")` */
  function Approver(s: ApprovalState): string {
    s.userId.GetOr("unknown")
  }

  /** `record_approval_decision`: refuses when nothing (or an empty dict) is
      pending; otherwise appends one record of the pending action and the
      decision to the history, clears the pending action, and leaves the
      workflow active or blocked. */
  function RecordApprovalDecision(s: ApprovalState, approved: bool, notes: string)
    : (r: Result<StateUpdate, ApprovalError>)
    ensures r.Failure? <==> s.pendingAction.None? || IsEmptyAction(s.pendingAction.value)
    ensures r.Success? ==>
      && r.value.approvalHistory == Some(s.approvalHistory + [
           ApprovalRecord(s.pendingAction.value, approved, DecisionTimestamp, notes, Approver(s))])
      && r.value.pendingAction == Some(None)
      && r.value.workflowStatus == Some(if approved then Active else Blocked)
      && r.value.currentStep == Some(if approved then "approved" else "rejected")
  {
    if s.pendingAction.None? || IsEmptyAction(s.pendingAction.value) then Failure(NoPendingAction)
    else
      var record := ApprovalRecord(s.pendingAction.value, approved, DecisionTimestamp, notes, Approver(s));
      Success(StateUpdate(
        pendingAction := Some(None),
        approvalHistory := Some(s.approvalHistory + [record]),
        workflowStatus := Some(if approved then Active else Blocked),
        currentStep := Some(if approved then "approved" else "rejected")))
  }

  /** A request followed by a decision resolves exactly that request: one
      record of the requested action is appended, nothing stays pending, and
      the workflow is active or blocked as decided. */
  lemma RequestThenDecide(s: ApprovalState, action: Action, approved: bool, notes: string)
    requires !IsEmptyAction(action)
    ensures var waiting := ApplyUpdate(s, AddPendingAction(s, action));
      && waiting.workflowStatus == WaitingApproval
      && RecordApprovalDecision(waiting, approved, notes).Success?
      && var done := ApplyUpdate(waiting, RecordApprovalDecision(waiting, approved, notes).value);
      && done.approvalHistory == s.approvalHistory + [ApprovalRecord(action, approved, DecisionTimestamp, notes, Approver(s))]
      && done.pendingAction.None?
      && done.workflowStatus == (if approved then Active else Blocked)
  {
  }

  /** A second request before any decision is not refused: it replaces the
      first, and the decision that follows records only the second. */
  lemma SecondRequestReplacesFirst(s: ApprovalState, first: Action, second: Action, approved: bool, notes: string)
    requires !IsEmptyAction(second) && first != second
    ensures var once := ApplyUpdate(s, AddPendingAction(s, first));
      var twice := ApplyUpdate(once, AddPendingAction(once, second));
      && twice.pendingAction == Some(second)
      && var done := ApplyUpdate(twice, RecordApprovalDecision(twice, approved, notes).value);
      && |done.approvalHistory| == |s.approvalHistory| + 1
      && done.approvalHistory[|s.approvalHistory|].action == second
      && ApprovalRecord(first, approved, DecisionTimestamp, notes, Approver(s)) !in done.approvalHistory[|s.approvalHistory|..]
  {
    var once := ApplyUpdate(s, AddPendingAction(s, first));
    var twice := ApplyUpdate(once, AddPendingAction(once, second));
    var done := ApplyUpdate(twice, RecordApprovalDecision(twice, approved, notes).value);
    assert done.approvalHistory[|s.approvalHistory|..] == [ApprovalRecord(second, approved, DecisionTimestamp, notes, Approver(s))];
  }

  /** A decision consumes its pending action: deciding again fails. */
  lemma DecideTwiceFails(s: ApprovalState, approved: bool, notes: string, again: bool, moreNotes: string)
    requires RecordApprovalDecision(s, approved, notes).Success?
    ensures var done := ApplyUpdate(s, RecordApprovalDecision(s, approved, notes).value);
      RecordApprovalDecision(done, again, moreNotes) == Failure(NoPendingAction)
  {
  }

  // ---------------------------------------------------------------------------
  // Runs of requests and decisions
  // ---------------------------------------------------------------------------

  datatype Event = Request(action: Action) | Decide(approved: bool, notes: string)

  /** One event folded into the state; a refused decision raises, so no
      update is applied and the state stays as it was. */
  function Step(s: ApprovalState, e: Event): ApprovalState {
    match e
    case Request(a) => ApplyUpdate(s, AddPendingAction(s, a))
    case Decide(approved, notes) =>
      match RecordApprovalDecision(s, approved, notes)
      case Success(u) => ApplyUpdate(s, u)
      case Failure(_) => s
  }

  function Run(s: ApprovalState, events: seq<Event>): ApprovalState
    decreases |events|
  {
    if events == [] then s else Run(Step(s, events[0]), events[1..])
  }

  function Decisions(events: seq<Event>): nat
    decreases |events|
  {
    if events == [] then 0 else (if events[0].Decide? then 1 else 0) + Decisions(events[1..])
  }

  /** The workflow waits for approval exactly when an action is pending. */
  predicate Consistent(s: ApprovalState) {
    s.pendingAction.Some? <==> s.workflowStatus == WaitingApproval
  }

  lemma InitialStateConsistent(userId: string)
    ensures Consistent(CreateInitialState(userId))
  {
  }

  /** Across any run of requests and decisions the history only grows at its
      end, by at most one record per decision; every record added is of an
      action that was pending at the start or requested during the run; and
      the workflow waits for approval exactly when an action is pending. */
  lemma {:induction false} RunHistoryAppendOnly(s: ApprovalState, events: seq<Event>)
    requires Consistent(s)
    ensures var r := Run(s, events);
      && Consistent(r)
      && s.approvalHistory <= r.approvalHistory
      && |r.approvalHistory| <= |s.approvalHistory| + Decisions(events)
      && forall i :: |s.approvalHistory| <= i < |r.approvalHistory| ==>
           Some(r.approvalHistory[i].action) == s.pendingAction || Request(r.approvalHistory[i].action) in events
    decreases |events|
  {
    if events != [] {
      var next := Step(s, events[0]);
      RunHistoryAppendOnly(next, events[1..]);
      var r := Run(s, events);
      assert r == Run(next, events[1..]);
      assert s.approvalHistory <= next.approvalHistory;
      assert |next.approvalHistory| <= |s.approvalHistory| + (if events[0].Decide? then 1 else 0);
      forall i | |s.approvalHistory| <= i < |r.approvalHistory|
        ensures Some(r.approvalHistory[i].action) == s.pendingAction || Request(r.approvalHistory[i].action) in events
      {
        if i < |next.approvalHistory| {
          assert r.approvalHistory[i] == next.approvalHistory[i];
        } else if Some(r.approvalHistory[i].action) == s.pendingAction {
        } else if Some(r.approvalHistory[i].action) == next.pendingAction {
          assert events[0] == Request(r.approvalHistory[i].action);
        } else {
          assert Request(r.approvalHistory[i].action) in events[1..];
        }
      }
    }
  }

  // ---------------------------------------------------------------------------
  // Risk assessment
  // ---------------------------------------------------------------------------

  const HighRiskActions: seq<string> := ["send_email", "transfer_money", "delete_data", "publish_content"]
  const MediumRiskActions: seq<string> := ["schedule_meeting", "create_document", "update_profile"]

  /** The parameters the risk rules look at: a numeric `amount` and a
      `recipient`, each when the dict has it. */
  datatype RiskParameters = RiskParameters(amount: Option<real>, recipient: Option<string>)

  /** A risk factor among the parameters: an amount over 1000 or a recipient
      that mentions `external`. */
  predicate RiskFactor(p: RiskParameters) {
    (p.amount.Some? && p.amount.value > 1000.0) || (p.recipient.Some? && Contains(p.recipient.value, "external"))
  }

  /** `assess_risk_level`: every action gets a level. High-risk kinds are high
      with a risk factor and medium without; medium-risk kinds are medium;
      all other kinds are low. */
  function AssessRiskLevel(actionType: string, p: RiskParameters): (r: RiskLevel)
    ensures actionType in HighRiskActions ==> (r == High <==> RiskFactor(p)) && r != Low
    ensures actionType !in HighRiskActions && actionType in MediumRiskActions ==> r == Medium
    ensures r == Low <==> actionType !in HighRiskActions && actionType !in MediumRiskActions
  {
    if actionType in HighRiskActions then
      if p.amount.Some? && p.amount.value > 1000.0 then High
      else if p.recipient.Some? && Contains(p.recipient.value, "external") then High
      else Medium
    else if actionType in MediumRiskActions then Medium
    else Low
  }

  /** A high level is only ever given to a high-risk kind with a risk
      factor, whatever the parameters. */
  lemma HighRiskNeedsFactor(actionType: string, p: RiskParameters)
    ensures AssessRiskLevel(actionType, p) == High <==> actionType in HighRiskActions && RiskFactor(p)
  {
  }
}
