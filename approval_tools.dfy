/** The four approval tools. Each tool builds an approval request, suspends
    until a human answers it, and then turns the answer into an update of
    the workflow state. The suspension itself belongs to the graph framework;
    here the human's answer is an input, and each tool is two pure
    functions: the request it shows, and the update it returns once
    answered. */
module ApprovalTools {
  import opened Wrappers
  import opened Strings
  import opened Approvals
  import Schemas

  /** The human's answer; `None` for a key the answer does not have. */
  datatype HumanResponse = HumanResponse(approved: Option<bool>, notes: Option<string>, modifications: Option<string>)

  /** `human_response.get("approved", False)`: no answer is a rejection. */
  function IsApproved(h: HumanResponse): bool {
    h.approved.GetOr(false)
  }

  /** `human_response.get("notes", "")` */
  function NotesOf(h: HumanResponse): string {
    h.notes.GetOr("")
  }

  /** `human_response.get("modifications", "")` */
  function ModificationsOf(h: HumanResponse): string {
    h.modifications.GetOr("")
  }

  /** The risk level a request shows: assessed by the tool, or the caller's
      own text for the general tool. */
  datatype RiskHint = Assessed(level: RiskLevel) | Declared(text: string)

  /** What the tool passes to `interrupt`; the display texts are not
      modelled, only whether a warning is attached. */
  datatype ApprovalRequest = ApprovalRequest(actionType: string, riskLevel: RiskHint, warning: bool)

  /** The content of the tool message a tool answers with. */
  datatype ToolResult =
    | EmailSent(recipient: string, subject: string)
    | EmailNotSent(recipient: string, reason: string)
    | Transferred(amount: real, recipient: string, purpose: string)
    | TransferRejected(amount: real, recipient: string, reason: string)
    | Published(platform: string, excerpt: string, feedback: Option<string>)
    | PublicationRejected(platform: string, reason: string)
    | ActionApproved(description: string, notes: Option<string>)
    | ActionRejected(description: string, reason: string)

  /** One `approval_history` entry written by a tool. Only the publishing
      tool records `modifications`. */
  datatype ToolRecord = ToolRecord(
    action: Action, approved: bool, notes: string, modifications: Option<string>, result: ToolResult)

  /** The update of the returned `Command`: the tool message, and the
      history and status keys when the update has them. */
  datatype ToolUpdate = ToolUpdate(
    message: ToolResult, approvalHistory: Option<seq<ToolRecord>>, workflowStatus: Option<FlowStatus>)

  /** A call of one of the four tools with its arguments. */
  datatype ToolCall =
    | SendEmail(recipient: string, subject: string, body: string)
    | TransferMoney(amount: real, recipient: string, purpose: string)
    | PublishContent(platform: string, content: string, scheduledTime: string)
    | GeneralApproval(description: string, riskAssessment: string, additionalDetails: string)

  function RiskName(r: RiskLevel): string {
    match r
    case Low => "low"
    case Medium => "medium"
    case High => "high"
  }

  function Text(s: string): Schemas.Value {
    Schemas.Text(s)
  }

  // ---------------------------------------------------------------------------
  // send_email_with_approval
  // ---------------------------------------------------------------------------

  /** `assess_risk_level("send_email", {"recipient": recipient})`: an email
      is never low risk, and high risk exactly for an external recipient. */
  function EmailRisk(recipient: string): (r: RiskLevel)
    ensures r != Low
    ensures r == High <==> Contains(recipient, "external")
  {
    AssessRiskLevel("send_email", RiskParameters(None, Some(recipient)))
  }

  function EmailDetails(recipient: string, subject: string, body: string): Action {
    Action(Some("send_email"),
           map["recipient" := Text(recipient), "subject" := Text(subject), "body" := Text(body),
               "risk_level" := Text(RiskName(EmailRisk(recipient)))])
  }

  /** An approved email is sent and completes the workflow; a rejected one
      blocks it. Either way one history entry records the decision. */
  function EmailDecision(recipient: string, subject: string, body: string, h: HumanResponse): (u: ToolUpdate)
    ensures IsApproved(h) ==> u.message == EmailSent(recipient, subject) && u.workflowStatus == Some(Completed)
    ensures !IsApproved(h) ==> u.message == EmailNotSent(recipient, NotesOf(h)) && u.workflowStatus == Some(Blocked)
    ensures u.approvalHistory
      == Some([ToolRecord(EmailDetails(recipient, subject, body), IsApproved(h), NotesOf(h), None, u.message)])
  {
    var details := EmailDetails(recipient, subject, body);
    if IsApproved(h) then
      var result := EmailSent(recipient, subject);
      ToolUpdate(result, Some([ToolRecord(details, true, NotesOf(h), None, result)]), Some(Completed))
    else
      var result := EmailNotSent(recipient, NotesOf(h));
      ToolUpdate(result, Some([ToolRecord(details, false, NotesOf(h), None, result)]), Some(Blocked))
  }

  // ---------------------------------------------------------------------------
  // transfer_money_with_approval
  // ---------------------------------------------------------------------------

  /** High above 1000, medium otherwise. */
  function TransferRisk(amount: real): (r: RiskLevel)
    ensures r == High <==> amount > 1000.0
    ensures r != Low
  {
    if amount > 1000.0 then High else Medium
  }

  /** The transfer tool's own rule agrees with `assess_risk_level` for a
      transfer that names only its amount. */
  lemma TransferRiskMatchesAssessment(amount: real)
    ensures TransferRisk(amount) == AssessRiskLevel("transfer_money", RiskParameters(Some(amount), None))
  {
    assert "transfer_money" in HighRiskActions;
  }

  const WarningAmount: real := 500.0

  function TransferDetails(amount: real, recipient: string, purpose: string): Action {
    Action(Some("transfer_money"),
           map["amount" := Schemas.Number(amount), "recipient" := Text(recipient), "purpose" := Text(purpose),
               "risk_level" := Text(RiskName(TransferRisk(amount)))])
  }

  /** The request warns about real money exactly above 500. */
  function TransferRequest(amount: real, recipient: string, purpose: string): (q: ApprovalRequest)
    ensures q.warning <==> amount > WarningAmount
    ensures q.riskLevel == Assessed(TransferRisk(amount))
  {
    ApprovalRequest("Money Transfer", Assessed(TransferRisk(amount)), amount > WarningAmount)
  }

  /** Every high-risk transfer carries the warning. */
  lemma HighRiskTransferWarns(amount: real, recipient: string, purpose: string)
    requires TransferRisk(amount) == High
    ensures TransferRequest(amount, recipient, purpose).warning
  {
  }

  /** One history entry records the decision; the status is not touched. */
  function TransferDecision(amount: real, recipient: string, purpose: string, h: HumanResponse): (u: ToolUpdate)
    ensures IsApproved(h) ==> u.message == Transferred(amount, recipient, purpose)
    ensures !IsApproved(h) ==> u.message == TransferRejected(amount, recipient, NotesOf(h))
    ensures u.approvalHistory
      == Some([ToolRecord(TransferDetails(amount, recipient, purpose), IsApproved(h), NotesOf(h), None, u.message)])
    ensures u.workflowStatus.None?
  {
    var result := if IsApproved(h) then Transferred(amount, recipient, purpose)
                  else TransferRejected(amount, recipient, NotesOf(h));
    ToolUpdate(result, Some([ToolRecord(TransferDetails(amount, recipient, purpose), IsApproved(h), NotesOf(h), None, result)]),
               None)
  }

  // ---------------------------------------------------------------------------
  // publish_content_with_approval
  // ---------------------------------------------------------------------------

  const RiskIndicators: seq<string> := ["urgent", "breaking", "controversial", "sale", "discount"]

  /** `any(word in text for word in words)` */
  function AnyOccurs(words: seq<string>, text: string): (b: bool)
    ensures b <==> exists w :: w in words && Contains(text, w)
    decreases |words|
  {
    if words == [] then false
    else
      assert forall w :: w in words <==> w == words[0] || w in words[1..];
      if Contains(text, words[0]) then
        assert words[0] in words;
        true
      else AnyOccurs(words[1..], text)
  }

  /** High exactly when the lower-cased content mentions a risk indicator,
      medium otherwise. */
  function PublishRisk(content: string): (r: RiskLevel)
    ensures r == High <==> exists w :: w in RiskIndicators && Contains(Lower(content), w)
    ensures r != Low
  {
    if AnyOccurs(RiskIndicators, Lower(content)) then High else Medium
  }

  /** The indicators are matched regardless of letter case. */
  lemma PublishRiskIgnoresCase(content: string)
    ensures PublishRisk(Lower(content)) == PublishRisk(content)
  {
    LowerIdempotent(content);
  }

  function PublishDetails(platform: string, content: string, scheduledTime: string): Action {
    Action(Some("publish_content"),
           map["platform" := Text(platform), "content" := Text(content), "scheduled_time" := Text(scheduledTime),
               "risk_level" := Text(RiskName(PublishRisk(content)))])
  }

  /** What is published: nothing when rejected; the human's modifications
      when approved with some, else the original content. */
  function PublishedContent(content: string, h: HumanResponse): (r: Option<string>)
    ensures !IsApproved(h) <==> r.None?
    ensures IsApproved(h) && ModificationsOf(h) != "" ==> r == Some(ModificationsOf(h))
    ensures IsApproved(h) && ModificationsOf(h) == "" ==> r == Some(content)
  {
    if !IsApproved(h) then None
    else if ModificationsOf(h) != "" then Some(ModificationsOf(h))
    else Some(content)
  }

  /** `s[:50]` */
  function Excerpt(s: string): (r: string)
    ensures r <= s && |r| == if |s| < 50 then |s| else 50
  {
    if |s| <= 50 then s else s[..50]
  }

  /** One history entry records the decision and the modifications; the
      status is not touched. */
  function PublishDecision(platform: string, content: string, scheduledTime: string, h: HumanResponse)
    : (u: ToolUpdate)
    ensures IsApproved(h) ==>
      u.message == Published(platform, Excerpt(PublishedContent(content, h).value),
                             if ModificationsOf(h) != "" then Some(NotesOf(h)) else None)
    ensures !IsApproved(h) ==> u.message == PublicationRejected(platform, NotesOf(h))
    ensures u.approvalHistory
      == Some([ToolRecord(PublishDetails(platform, content, scheduledTime), IsApproved(h), NotesOf(h),
                          Some(ModificationsOf(h)), u.message)])
    ensures u.workflowStatus.None?
  {
    var modifications := ModificationsOf(h);
    var result :=
      if IsApproved(h) then
        var finalContent := if modifications != "" then modifications else content;
        Published(platform, Excerpt(finalContent), if modifications != "" then Some(NotesOf(h)) else None)
      else PublicationRejected(platform, NotesOf(h));
    ToolUpdate(result,
               Some([ToolRecord(PublishDetails(platform, content, scheduledTime), IsApproved(h), NotesOf(h),
                                Some(modifications), result)]),
               None)
  }

  // ---------------------------------------------------------------------------
  // general_approval_request
  // ---------------------------------------------------------------------------

  /** Only the tool message; no history entry and no status. */
  function GeneralDecision(description: string, h: HumanResponse): (u: ToolUpdate)
    ensures IsApproved(h) ==> u.message == ActionApproved(description, if NotesOf(h) != "" then Some(NotesOf(h)) else None)
    ensures !IsApproved(h) ==> u.message == ActionRejected(description, NotesOf(h))
    ensures u.approvalHistory.None? && u.workflowStatus.None?
  {
    var result := if IsApproved(h) then ActionApproved(description, if NotesOf(h) != "" then Some(NotesOf(h)) else None)
                  else ActionRejected(description, NotesOf(h));
    ToolUpdate(result, None, None)
  }

  // ---------------------------------------------------------------------------
  // The four tools together
  // ---------------------------------------------------------------------------

  /** The request each tool passes to `interrupt`. */
  function Request(call: ToolCall): (q: ApprovalRequest)
    ensures call.SendEmail? ==> q.riskLevel == Assessed(EmailRisk(call.recipient)) && !q.warning
    ensures call.TransferMoney? ==> q == TransferRequest(call.amount, call.recipient, call.purpose)
    ensures call.PublishContent? ==> q.riskLevel == Assessed(PublishRisk(call.content)) && !q.warning
    ensures call.GeneralApproval? ==> q.riskLevel == Declared(call.riskAssessment) && !q.warning
  {
    match call
    case SendEmail(recipient, _, _) => ApprovalRequest("Email Send", Assessed(EmailRisk(recipient)), false)
    case TransferMoney(amount, recipient, purpose) => TransferRequest(amount, recipient, purpose)
    case PublishContent(_, content, _) => ApprovalRequest("Content Publication", Assessed(PublishRisk(content)), false)
    case GeneralApproval(_, risk, _) => ApprovalRequest("General Action", Declared(risk), false)
  }

  /** The action each of the first three tools records. */
  function Details(call: ToolCall): Action
    requires !call.GeneralApproval?
  {
    match call
    case SendEmail(recipient, subject, body) => EmailDetails(recipient, subject, body)
    case TransferMoney(amount, recipient, purpose) => TransferDetails(amount, recipient, purpose)
    case PublishContent(platform, content, scheduledTime) => PublishDetails(platform, content, scheduledTime)
  }

  /** The update each tool returns once the human has answered. */
  function Decision(call: ToolCall, h: HumanResponse): ToolUpdate {
    match call
    case SendEmail(recipient, subject, body) => EmailDecision(recipient, subject, body, h)
    case TransferMoney(amount, recipient, purpose) => TransferDecision(amount, recipient, purpose, h)
    case PublishContent(platform, content, scheduledTime) => PublishDecision(platform, content, scheduledTime, h)
    case GeneralApproval(description, _, _) => GeneralDecision(description, h)
  }

  /** The risk a tool shows is never low, except what the general tool's
      caller declares. */
  lemma AssessedRiskNeverLow(call: ToolCall)
    ensures Request(call).riskLevel.Assessed? <==> !call.GeneralApproval?
    ensures Request(call).riskLevel.Assessed? ==> Request(call).riskLevel.level != Low
  {
  }

  /** Every tool but the general one records exactly one history entry,
      carrying its action, the decision and the notes, and the tool message
      is that entry's result; only the email tool sets a status, and the
      general tool writes no history. */
  lemma DecisionRecordsOnce(call: ToolCall, h: HumanResponse)
    ensures var u := Decision(call, h);
      && (u.approvalHistory.None? <==> call.GeneralApproval?)
      && (u.workflowStatus.Some? <==> call.SendEmail?)
      && (u.approvalHistory.Some? ==>
            && |u.approvalHistory.value| == 1
            && u.approvalHistory.value[0].action == Details(call)
            && u.approvalHistory.value[0].approved == IsApproved(h)
            && u.approvalHistory.value[0].notes == NotesOf(h)
            && u.approvalHistory.value[0].result == u.message)
  {
  }

  /** An answer without `approved` is a rejection, and one without `notes`
      or `modifications` is one with empty text there. */
  lemma MissingAnswersDefault(call: ToolCall, h: HumanResponse)
    ensures Decision(call, h.(approved := None)) == Decision(call, h.(approved := Some(false)))
    ensures Decision(call, h.(notes := None)) == Decision(call, h.(notes := Some("")))
    ensures Decision(call, h.(modifications := None)) == Decision(call, h.(modifications := Some("")))
  {
  }

  /** A tool's history entry agrees with the record `record_approval_decision`
      makes of the same action pending: same action, decision and notes. On a
      rejection both block the workflow; on an approval the email tool
      completes it while the decision record leaves it active. */
  lemma ToolRecordMatchesDecisionRecord(call: ToolCall, h: HumanResponse, s: ApprovalState)
    requires !call.GeneralApproval? && s.pendingAction == Some(Details(call))
    ensures var d := RecordApprovalDecision(s, IsApproved(h), NotesOf(h));
      var t := Decision(call, h).approvalHistory.value[0];
      && d.Success?
      && var last := d.value.approvalHistory.value[|s.approvalHistory|];
      && last.action == t.action && last.approved == t.approved && last.notes == t.notes
      && (!IsApproved(h) && call.SendEmail? ==> d.value.workflowStatus == Decision(call, h).workflowStatus)
      && (IsApproved(h) && call.SendEmail? ==> d.value.workflowStatus != Decision(call, h).workflowStatus)
  {
    DecisionRecordsOnce(call, h);
    assert Details(call).actionType.Some?;
  }
}
