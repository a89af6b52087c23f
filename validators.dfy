/** The rule-based validators of workflow states. Each rule inspects a state
    and either passes or reports one violation; a validator runs all of its
    rules in their declared order and collects every violation. */
module Validators {
  import opened Wrappers
  import opened Strings
  import opened Collections
  import opened Schemas
  import opened DependencyGraph

  // ---------------------------------------------------------------------------
  // What a rule sees of a state
  // ---------------------------------------------------------------------------

  /** A state of one of the three workflow kinds. */
  datatype Snapshot =
    | DocumentSnapshot(doc: DocumentProcessingState)
    | ProjectSnapshot(project: ProjectManagementState)
    | OnboardingSnapshot(onboarding: OnboardingState)

  /** The values the rules read with `state.get(key, default)`: a key the
      state's kind does not have reads as the default. */
  datatype StateView = StateView(
    workflowMetadata: Option<WorkflowMetadata>,
    currentStep: string,
    overallStatus: Option<WorkflowStatus>,
    currentDocument: Option<DocumentInfo>,
    errors: seq<ErrorEntry>,
    tasks: Dict<TaskInfo>,
    taskDependencies: Dependencies,
    teamMembers: Dict<UserProfile>,
    projectTimeline: Dict<string>,
    completedSteps: seq<string>,
    userProfile: Option<UserProfile>,
    verificationStatus: map<string, bool>)

  function ViewOf(s: Snapshot): StateView {
    match s
    case DocumentSnapshot(d) =>
      StateView(d.workflowMetadata, d.currentStep, Some(d.overallStatus), d.currentDocument, d.errors,
                EmptyDict(), EmptyDict(), EmptyDict(), EmptyDict(), [], d.userProfile, map[])
    case ProjectSnapshot(p) =>
      StateView(p.workflowMetadata, "", None, None, [],
                p.tasks, p.taskDependencies, p.teamMembers, p.projectTimeline, [], None, map[])
    case OnboardingSnapshot(o) =>
      StateView(o.workflowMetadata, o.currentStep, None, None, [],
                EmptyDict(), EmptyDict(), EmptyDict(), EmptyDict(), o.completedSteps, o.userProfile,
                o.verificationStatus)
  }

  // ---------------------------------------------------------------------------
  // Rules and their violations
  // ---------------------------------------------------------------------------

  datatype Rule =
    | WorkflowMetadataRequired | DocumentProcessingSequence | FileConstraints | StatusConsistency
    | TaskDependencies | ResourceAllocation | TimelineConsistency | TeamMemberValidity
    | StepProgression | RequiredInfoCollection | VerificationConsistency | OnboardingCompleteness

  /** What a failing rule reports; the message text is not modelled. */
  datatype Violation =
    | MetadataMissing
    | CompletedExceedsTotal
    | NegativeErrorCount
    | IncompatibleStep(step: string, status: WorkflowStatus)
    | FileTooLarge(sizeBytes: int)
    | UnsupportedFileType(fileType: string)
    | FailedWithoutErrors
    | IncompleteSteps
    | CircularDependency(taskId: string)
    | BrokenReference(ref: Dangling)
    | UnknownAssignee(taskId: string, assignee: string)
    | OverAllocated(member: string, hours: real)
    | InvalidMilestoneDate(milestone: string, date: string)
    | MemberMissingInfo(memberId: string)
    | MissingPrerequisite(step: string, required: string)
    | BasicInfoMissing
    | EmailNotVerified
    | EmailVerificationRequired
    | ProfileRequired

  /** One entry of the `errors` list: `"rule_name: message"`, or the error
      for a state type no validator exists for. */
  datatype Diagnostic = RuleFailed(rule: Rule, violation: Violation) | UnknownStateType(typeName: string)

  datatype ValidationResult = ValidationResult(valid: bool, errors: seq<Diagnostic>, validatedAt: string)

  // ---------------------------------------------------------------------------
  // Document-processing rules
  // ---------------------------------------------------------------------------

  /** `workflow_metadata_required`: the first of: metadata missing, more
      steps completed than there are, a negative error count. */
  function MetadataViolation(m: Option<WorkflowMetadata>): (r: Option<Violation>)
    ensures r == None <==> m.Some? && m.value.completedSteps <= m.value.totalSteps && m.value.errorCount >= 0
    ensures r == Some(MetadataMissing) <==> m.None?
    ensures m.Some? && m.value.completedSteps > m.value.totalSteps ==> r == Some(CompletedExceedsTotal)
    ensures m.Some? && m.value.completedSteps <= m.value.totalSteps && m.value.errorCount < 0 ==>
      r == Some(NegativeErrorCount)
  {
    if m.None? then Some(MetadataMissing)
    else if m.value.completedSteps > m.value.totalSteps then Some(CompletedExceedsTotal)
    else if m.value.errorCount < 0 then Some(NegativeErrorCount)
    else None
  }

  /** The statuses each processing step allows; other steps are not listed. */
  function AllowedStatuses(step: string): Option<seq<WorkflowStatus>> {
    if step == "awaiting_upload" then Some([Pending])
    else if step == "validating" then Some([InProgress])
    else if step == "processing" then Some([InProgress])
    else if step == "reviewing" then Some([WaitingApproval, InProgress])
    else if step == "completed" then Some([Completed])
    else if step == "failed" then Some([Failed])
    else None
  }

  /** `document_processing_sequence`; a missing status reads as pending. */
  function SequenceViolation(step: string, status: Option<WorkflowStatus>): (r: Option<Violation>)
    ensures AllowedStatuses(step).None? ==> r == None
    ensures r.Some? <==> AllowedStatuses(step).Some? && status.GetOr(Pending) !in AllowedStatuses(step).value
    ensures r.Some? ==> r.value == IncompatibleStep(step, status.GetOr(Pending))
  {
    var s := status.GetOr(Pending);
    match AllowedStatuses(step)
    case None => None
    case Some(allowed) => if s in allowed then None else Some(IncompatibleStep(step, s))
  }

  /** `max_size_bytes`: 50 MiB. */
  const MaxDocumentBytes: int := 50 * 1024 * 1024

  /** `file_constraints`: no document passes; otherwise the size is checked
      first, then the filename's extension. The error names the document's
      `file_type`, while the test is on its `filename`. */
  function FileViolation(doc: Option<DocumentInfo>): (r: Option<Violation>)
    ensures r == None <==>
      doc.None? || (doc.value.sizeBytes <= MaxDocumentBytes && HasSupportedExtension(doc.value.filename))
    ensures r.Some? && doc.value.sizeBytes > MaxDocumentBytes ==> r.value == FileTooLarge(doc.value.sizeBytes)
    ensures r.Some? && doc.value.sizeBytes <= MaxDocumentBytes ==> r.value == UnsupportedFileType(doc.value.fileType)
  {
    match doc
    case None => None
    case Some(d) =>
      if d.sizeBytes > MaxDocumentBytes then Some(FileTooLarge(d.sizeBytes))
      else if !HasSupportedExtension(d.filename) then Some(UnsupportedFileType(d.fileType))
      else None
  }

  /** `status_consistency` */
  function StatusViolation(status: Option<WorkflowStatus>, errors: seq<ErrorEntry>, m: Option<WorkflowMetadata>)
    : (r: Option<Violation>)
    ensures r == Some(FailedWithoutErrors) <==> status == Some(Failed) && errors == []
    ensures r == Some(IncompleteSteps) <==>
      status == Some(Completed) && m.Some? && m.value.completedSteps < m.value.totalSteps
    ensures r.Some? ==> r == Some(FailedWithoutErrors) || r == Some(IncompleteSteps)
  {
    if status == Some(Failed) && |errors| == 0 then Some(FailedWithoutErrors)
    else if status == Some(Completed) && m.Some? && m.value.completedSteps < m.value.totalSteps then
      Some(IncompleteSteps)
    else None
  }

  // ---------------------------------------------------------------------------
  // Project-management rules
  // ---------------------------------------------------------------------------

  /** `task_dependencies`: a circular dependency reachable from a task is
      reported first, naming the first task in task order it is reachable
      from; otherwise the first dangling reference. */
  ghost function DependencyViolation(tasks: Dict<TaskInfo>, deps: Dependencies): Option<Violation> {
    match FirstCyclic(deps, tasks.order)
    case Some(t) => Some(CircularDependency(t))
    case None =>
      match DanglingReference(tasks.values.Keys, deps)
      case Some(d) => Some(BrokenReference(d))
      case None => None
  }

  method TaskDependenciesRule(tasks: Dict<TaskInfo>, deps: Dependencies) returns (r: Option<Violation>)
    ensures r == DependencyViolation(tasks, deps)
  {
    var cyclic := FindCyclicTask(deps, tasks.order);
    if cyclic.Some? {
      return Some(CircularDependency(cyclic.value));
    }
    var dangling := DanglingReference(tasks.values.Keys, deps);
    if dangling.Some? {
      return Some(BrokenReference(dangling.value));
    }
    return None;
  }

  /** `task.assignee and task.assignee not in team_members` */
  predicate AssignedElsewhere(t: TaskInfo, team: Dict<UserProfile>) {
    PresentText(t.assignee) && t.assignee.value !in team.values
  }

  /** The first task, in task order, assigned to someone outside the team. */
  function FirstUnknownAssignee(tasks: Dict<TaskInfo>, team: Dict<UserProfile>, keys: seq<string>)
    : (r: Option<Violation>)
    requires forall k :: k in keys ==> k in tasks.values
    ensures r == None <==> forall k :: k in keys ==> !AssignedElsewhere(tasks.values[k], team)
    ensures r.Some? ==>
      && r.value.UnknownAssignee? && r.value.taskId in keys
      && AssignedElsewhere(tasks.values[r.value.taskId], team)
      && r.value.assignee == tasks.values[r.value.taskId].assignee.value
    ensures r.Some? ==>
      exists i :: 0 <= i < |keys| && keys[i] == r.value.taskId
        && forall j :: 0 <= j < i ==> !AssignedElsewhere(tasks.values[keys[j]], team)
  {
    if keys == [] then None
    else if AssignedElsewhere(tasks.values[keys[0]], team) then
      Some(UnknownAssignee(keys[0], tasks.values[keys[0]].assignee.value))
    else
      var rest := FirstUnknownAssignee(tasks, team, keys[1..]);
      assert forall x :: x in keys <==> x == keys[0] || x in keys[1..];
      if rest.Some? then
        FirstAfterPassing(keys, rest.value.taskId, k => k in tasks.values && !AssignedElsewhere(tasks.values[k], team));
        rest
      else rest
  }

  /** A task whose hours count toward its assignee's week: assigned, and to
      do or in progress. */
  predicate Counted(t: TaskInfo) {
    PresentText(t.assignee) && (t.status == Todo || t.status == Doing)
  }

  /** `task.estimated_hours or 0` */
  function Hours(t: TaskInfo): real {
    if PresentNumber(t.estimatedHours) then t.estimatedHours.value else 0.0
  }

  /** `member_workload` after the tasks `ts`, in order: each assignee of a
      counted task, in order of first appearance, with the hours added up. */
  function Workload(ts: seq<TaskInfo>): Dict<real> {
    if ts == [] then EmptyDict() else Tally(Workload(ts[..|ts| - 1]), ts[|ts| - 1])
  }

  /** One task's contribution: its hours go to its assignee when it counts. */
  function Tally(w: Dict<real>, t: TaskInfo): Dict<real> {
    if Counted(t) then Put(w, t.assignee.value, GetOr(w, t.assignee.value, 0.0) + Hours(t)) else w
  }

  /** The hours of counted tasks of `ts` assigned to `m`. */
  function HoursFor(ts: seq<TaskInfo>, m: string): real {
    if ts == [] then 0.0
    else
      var t := ts[|ts| - 1];
      HoursFor(ts[..|ts| - 1], m) + (if Counted(t) && t.assignee.value == m then Hours(t) else 0.0)
  }

  /** A member has a workload entry exactly when some counted task is
      assigned to them, and the entry is the sum of those tasks' hours. */
  lemma {:induction false} WorkloadIsHoursFor(ts: seq<TaskInfo>, m: string)
    ensures m in Workload(ts).values <==> exists i :: 0 <= i < |ts| && Counted(ts[i]) && ts[i].assignee.value == m
    ensures m in Workload(ts).values ==> Workload(ts).values[m] == HoursFor(ts, m)
    ensures m !in Workload(ts).values ==> HoursFor(ts, m) == 0.0
  {
    if ts != [] {
      var front, t := ts[..|ts| - 1], ts[|ts| - 1];
      WorkloadIsHoursFor(front, m);
      TallyEntry(Workload(front), t, m);
      AssignedInSnoc(ts, m);
    }
  }

  /** What one task's contribution does to the entry of `m`. */
  lemma TallyEntry(w: Dict<real>, t: TaskInfo, m: string)
    ensures m in Tally(w, t).values <==> m in w.values || (Counted(t) && t.assignee.value == m)
    ensures m in Tally(w, t).values ==>
      Tally(w, t).values[m] == GetOr(w, m, 0.0) + (if Counted(t) && t.assignee.value == m then Hours(t) else 0.0)
  {
  }

  /** Some counted task of `ts` is assigned to `m` exactly when one of all
      but the last is, or the last is. */
  lemma AssignedInSnoc(ts: seq<TaskInfo>, m: string)
    requires ts != []
    ensures var front, t := ts[..|ts| - 1], ts[|ts| - 1];
      (exists i :: 0 <= i < |ts| && Counted(ts[i]) && ts[i].assignee.value == m)
      <==> (exists i :: 0 <= i < |front| && Counted(front[i]) && front[i].assignee.value == m)
           || (Counted(t) && t.assignee.value == m)
  {
    var front := ts[..|ts| - 1];
    if exists i :: 0 <= i < |ts| && Counted(ts[i]) && ts[i].assignee.value == m {
      var i :| 0 <= i < |ts| && Counted(ts[i]) && ts[i].assignee.value == m;
      if i < |front| {
        assert front[i] == ts[i];
      }
    }
    if exists i :: 0 <= i < |front| && Counted(front[i]) && front[i].assignee.value == m {
      var i :| 0 <= i < |front| && Counted(front[i]) && front[i].assignee.value == m;
      assert ts[i] == front[i];
    }
  }

  lemma TallyCases(w: Dict<real>, t: TaskInfo, next: Dict<real>)
    requires Counted(t) ==> next == Put(w, t.assignee.value, GetOr(w, t.assignee.value, 0.0) + Hours(t))
    requires !Counted(t) ==> next == w
    ensures next == Tally(w, t)
  {
  }

  /** One more task adds its hours to its assignee's entry when it counts. */
  lemma WorkloadStep(ts: seq<TaskInfo>, i: nat)
    requires i < |ts|
    ensures Workload(ts[..i + 1]) == Tally(Workload(ts[..i]), ts[i])
  {
    assert ts[..i + 1][..i] == ts[..i];
  }

  /** The loop that fills `member_workload`, task by task in task order. */
  method AccumulateWorkload(tasks: Dict<TaskInfo>) returns (w: Dict<real>)
    ensures w == Workload(ValuesInOrder(tasks))
  {
    ghost var ts := ValuesInOrder(tasks);
    w := EmptyDict();
    var i := 0;
    while i < |tasks.order|
      invariant 0 <= i <= |tasks.order|
      invariant w == Workload(ts[..i])
    {
      var task := tasks.values[tasks.order[i]];
      ghost var before := w;
      if Counted(task) {
        w := Put(w, task.assignee.value, GetOr(w, task.assignee.value, 0.0) + Hours(task));
      }
      TallyCases(before, task, w);
      assert task == ts[i];
      WorkloadStep(ts, i);
      i := i + 1;
    }
    assert ts[..i] == ts;
  }

  /** `max_hours_per_member` */
  const MaxHoursPerMember: real := 40.0

  /** The first member, in `member_workload` order, above the weekly cap. */
  function FirstOverAllocated(w: Dict<real>, keys: seq<string>): (r: Option<Violation>)
    requires forall k :: k in keys ==> k in w.values
    ensures r == None <==> forall k :: k in keys ==> w.values[k] <= MaxHoursPerMember
    ensures r.Some? ==>
      && r.value.OverAllocated? && r.value.member in keys
      && r.value.hours == w.values[r.value.member] > MaxHoursPerMember
    ensures r.Some? ==>
      exists i :: 0 <= i < |keys| && keys[i] == r.value.member
        && forall j :: 0 <= j < i ==> w.values[keys[j]] <= MaxHoursPerMember
  {
    if keys == [] then None
    else if w.values[keys[0]] > MaxHoursPerMember then Some(OverAllocated(keys[0], w.values[keys[0]]))
    else
      var rest := FirstOverAllocated(w, keys[1..]);
      assert forall x :: x in keys <==> x == keys[0] || x in keys[1..];
      rest
  }

  /** `resource_allocation`: an assignment outside the team first; then an
      over-allocated member. */
  function ResourceViolation(tasks: Dict<TaskInfo>, team: Dict<UserProfile>): Option<Violation> {
    var unknown := FirstUnknownAssignee(tasks, team, tasks.order);
    if unknown.Some? then unknown
    else
      var w := Workload(ValuesInOrder(tasks));
      FirstOverAllocated(w, w.order)
  }

  method ResourceAllocationRule(tasks: Dict<TaskInfo>, team: Dict<UserProfile>) returns (r: Option<Violation>)
    ensures r == ResourceViolation(tasks, team)
  {
    r := FirstUnknownAssignee(tasks, team, tasks.order);
    if r.Some? {
      return;
    }
    var memberWorkload := AccumulateWorkload(tasks);
    r := FirstOverAllocated(memberWorkload, memberWorkload.order);
  }

  /** The resource rule passes exactly when every assignee is on the team and
      nobody's counted hours exceed 40. */
  lemma ResourceViolationNone(tasks: Dict<TaskInfo>, team: Dict<UserProfile>)
    ensures ResourceViolation(tasks, team) == None <==>
      && (forall k :: k in tasks.values ==> !AssignedElsewhere(tasks.values[k], team))
      && (forall m :: HoursFor(ValuesInOrder(tasks), m) <= MaxHoursPerMember)
  {
    var ts := ValuesInOrder(tasks);
    var w := Workload(ts);
    forall m ensures m in w.values ==> w.values[m] == HoursFor(ts, m)
      ensures m !in w.values ==> HoursFor(ts, m) == 0.0
    {
      WorkloadIsHoursFor(ts, m);
    }
    assert forall k :: k in tasks.order <==> k in tasks.values;
    assert forall k :: k in w.order <==> k in w.values;
    if FirstUnknownAssignee(tasks, team, tasks.order) == None && FirstOverAllocated(w, w.order) == None {
      forall m ensures HoursFor(ts, m) <= MaxHoursPerMember {
        if m in w.values {
          assert m in w.order;
        }
      }
    } else if FirstUnknownAssignee(tasks, team, tasks.order) == None {
      assert ResourceViolation(tasks, team) == FirstOverAllocated(w, w.order);
      var over := FirstOverAllocated(w, w.order).value;
      assert HoursFor(ts, over.member) > MaxHoursPerMember;
      assert !(forall m :: HoursFor(ValuesInOrder(tasks), m) <= MaxHoursPerMember);
    } else {
      var unknown := FirstUnknownAssignee(tasks, team, tasks.order).value;
      assert unknown.taskId in tasks.values && AssignedElsewhere(tasks.values[unknown.taskId], team);
    }
  }

  /** `date_str.replace('Z', '+00:00')` */
  function ReplaceZ(s: string): (r: string)
    ensures 'Z' !in r
    ensures 'Z' !in s ==> r == s
    ensures s == "Z" ==> r == "+00:00"
  {
    if s == [] then []
    else (if s[0] == 'Z' then "+00:00" else [s[0]]) + ReplaceZ(s[1..])
  }

  /** Replacing works piece by piece: with `ReplaceZ("Z") == "+00:00"` and
      every other single character kept, this fixes the result on every
      string. */
  lemma {:induction false} ReplaceZConcat(a: string, b: string)
    ensures ReplaceZ(a + b) == ReplaceZ(a) + ReplaceZ(b)
  {
    if a == [] {
      assert a + b == b;
    } else {
      assert (a + b)[0] == a[0] && (a + b)[1..] == a[1..] + b;
      ReplaceZConcat(a[1..], b);
    }
  }

  /** `timeline_consistency`: the first milestone, in timeline order, whose
      date the ISO parser rejects. */
  function TimelineViolation(timeline: Dict<string>, keys: seq<string>, dateParses: string -> bool)
    : (r: Option<Violation>)
    requires forall k :: k in keys ==> k in timeline.values
    ensures r == None <==> forall k :: k in keys ==> dateParses(ReplaceZ(timeline.values[k]))
    ensures r.Some? ==>
      && r.value.InvalidMilestoneDate? && r.value.milestone in keys
      && r.value.date == timeline.values[r.value.milestone] && !dateParses(ReplaceZ(r.value.date))
    ensures r.Some? ==>
      exists i :: 0 <= i < |keys| && keys[i] == r.value.milestone
        && forall j :: 0 <= j < i ==> dateParses(ReplaceZ(timeline.values[keys[j]]))
  {
    if keys == [] then None
    else if !dateParses(ReplaceZ(timeline.values[keys[0]])) then
      Some(InvalidMilestoneDate(keys[0], timeline.values[keys[0]]))
    else
      var rest := TimelineViolation(timeline, keys[1..], dateParses);
      assert forall x :: x in keys <==> x == keys[0] || x in keys[1..];
      if rest.Some? then
        FirstAfterPassing(keys, rest.value.milestone,
                          k => k in timeline.values && dateParses(ReplaceZ(timeline.values[k])));
        rest
      else rest
  }

  /** `member.name and member.email` */
  predicate HasContactInfo(m: UserProfile) {
    m.name != "" && m.email != ""
  }

  /** `team_member_validity`: the first member without a name or an email. */
  function TeamViolation(team: Dict<UserProfile>, keys: seq<string>): (r: Option<Violation>)
    requires forall k :: k in keys ==> k in team.values
    ensures r == None <==> forall k :: k in keys ==> HasContactInfo(team.values[k])
    ensures r.Some? ==>
      && r.value.MemberMissingInfo? && r.value.memberId in keys
      && !HasContactInfo(team.values[r.value.memberId])
    ensures r.Some? ==>
      exists i :: 0 <= i < |keys| && keys[i] == r.value.memberId
        && forall j :: 0 <= j < i ==> HasContactInfo(team.values[keys[j]])
  {
    if keys == [] then None
    else if !HasContactInfo(team.values[keys[0]]) then
      Some(MemberMissingInfo(keys[0]))
    else
      var rest := TeamViolation(team, keys[1..]);
      assert forall x :: x in keys <==> x == keys[0] || x in keys[1..];
      if rest.Some? then
        FirstAfterPassing(keys, rest.value.memberId, k => k in team.values && HasContactInfo(team.values[k]));
        rest
      else rest
  }

  // ---------------------------------------------------------------------------
  // Onboarding rules
  // ---------------------------------------------------------------------------

  /** The steps each onboarding step requires to be completed first. */
  function Prerequisites(step: string): Option<seq<string>> {
    if step == "welcome" then Some([])
    else if step == "collect_basic_info" then Some(["welcome"])
    else if step == "verify_email" then Some(["collect_basic_info"])
    else if step == "setup_preferences" then Some(["verify_email"])
    else if step == "choose_features" then Some(["setup_preferences"])
    else if step == "setup_integrations" then Some(["choose_features"])
    else if step == "final_review" then Some(["setup_integrations"])
    else if step == "completed" then Some(["final_review"])
    else None
  }

  /** The first of `required` not in `completed`. */
  function FirstMissing(required: seq<string>, completed: seq<string>): (r: Option<string>)
    ensures r == None <==> forall q :: q in required ==> q in completed
    ensures r.Some? ==> r.value in required && r.value !in completed
    ensures r.Some? ==>
      exists i :: 0 <= i < |required| && required[i] == r.value
        && forall j :: 0 <= j < i ==> required[j] in completed
  {
    if required == [] then None
    else if required[0] !in completed then Some(required[0])
    else
      var rest := FirstMissing(required[1..], completed);
      assert forall x :: x in required <==> x == required[0] || x in required[1..];
      rest
  }

  /** `step_progression`: a step of the table needs its prerequisites done;
      a step outside the table needs nothing. */
  function ProgressionViolation(step: string, completed: seq<string>): (r: Option<Violation>)
    ensures Prerequisites(step).None? ==> r == None
    ensures r == None <==>
      Prerequisites(step).None? || forall q :: q in Prerequisites(step).value ==> q in completed
    ensures r.Some? ==>
      && r.value.MissingPrerequisite? && r.value.step == step
      && r.value.required in Prerequisites(step).value && r.value.required !in completed
  {
    match Prerequisites(step)
    case None => None
    case Some(required) =>
      match FirstMissing(required, completed)
      case None => None
      case Some(q) => Some(MissingPrerequisite(step, q))
  }

  /** `verification_status.get("email", False)` */
  predicate EmailVerified(status: map<string, bool>) {
    "email" in status && status["email"]
  }

  /** `required_info_collection` */
  function RequiredInfoViolation(profile: Option<UserProfile>, completed: seq<string>): (r: Option<Violation>)
    ensures r.Some? <==>
      && "collect_basic_info" in completed
      && (profile.None? || profile.value.name == "" || profile.value.email == "")
    ensures r.Some? ==> r.value == BasicInfoMissing
  {
    if "collect_basic_info" in completed && (profile.None? || profile.value.name == "" || profile.value.email == "") then
      Some(BasicInfoMissing)
    else None
  }

  /** `verification_consistency` */
  function VerificationViolation(status: map<string, bool>, completed: seq<string>): (r: Option<Violation>)
    ensures r.Some? <==> "verify_email" in completed && !EmailVerified(status)
    ensures r.Some? ==> r.value == EmailNotVerified
  {
    if "verify_email" in completed && !EmailVerified(status) then Some(EmailNotVerified) else None
  }

  /** `onboarding_completeness`: at step `completed`, email verification is
      checked before the profile name. */
  function CompletenessViolation(step: string, status: map<string, bool>, profile: Option<UserProfile>)
    : (r: Option<Violation>)
    ensures step != "completed" ==> r == None
    ensures r == None <==> step != "completed" || (EmailVerified(status) && profile.Some? && profile.value.name != "")
    ensures step == "completed" && !EmailVerified(status) ==> r == Some(EmailVerificationRequired)
    ensures step == "completed" && EmailVerified(status) && (profile.None? || profile.value.name == "") ==>
      r == Some(ProfileRequired)
    ensures r.Some? ==> r == Some(EmailVerificationRequired) || r == Some(ProfileRequired)
  {
    if step != "completed" then None
    else if !EmailVerified(status) then Some(EmailVerificationRequired)
    else if profile.None? || profile.value.name == "" then Some(ProfileRequired)
    else None
  }

  // ---------------------------------------------------------------------------
  // Running the rules
  // ---------------------------------------------------------------------------

  /** The violation `rule` reports on a state, if any. */
  ghost function RuleViolation(rule: Rule, v: StateView, dateParses: string -> bool): Option<Violation> {
    match rule
    case WorkflowMetadataRequired => MetadataViolation(v.workflowMetadata)
    case DocumentProcessingSequence => SequenceViolation(v.currentStep, v.overallStatus)
    case FileConstraints => FileViolation(v.currentDocument)
    case StatusConsistency => StatusViolation(v.overallStatus, v.errors, v.workflowMetadata)
    case TaskDependencies => DependencyViolation(v.tasks, v.taskDependencies)
    case ResourceAllocation => ResourceViolation(v.tasks, v.teamMembers)
    case TimelineConsistency => TimelineViolation(v.projectTimeline, v.projectTimeline.order, dateParses)
    case TeamMemberValidity => TeamViolation(v.teamMembers, v.teamMembers.order)
    case StepProgression => ProgressionViolation(v.currentStep, v.completedSteps)
    case RequiredInfoCollection => RequiredInfoViolation(v.userProfile, v.completedSteps)
    case VerificationConsistency => VerificationViolation(v.verificationStatus, v.completedSteps)
    case OnboardingCompleteness => CompletenessViolation(v.currentStep, v.verificationStatus, v.userProfile)
  }

  /** `rule_func(state)`, with the violation it raises as its result. */
  method RunRule(rule: Rule, v: StateView, dateParses: string -> bool) returns (r: Option<Violation>)
    ensures r == RuleViolation(rule, v, dateParses)
  {
    match rule
    case TaskDependencies =>
      r := TaskDependenciesRule(v.tasks, v.taskDependencies);
    case ResourceAllocation =>
      r := ResourceAllocationRule(v.tasks, v.teamMembers);
    case WorkflowMetadataRequired => r := MetadataViolation(v.workflowMetadata);
    case DocumentProcessingSequence => r := SequenceViolation(v.currentStep, v.overallStatus);
    case FileConstraints => r := FileViolation(v.currentDocument);
    case StatusConsistency => r := StatusViolation(v.overallStatus, v.errors, v.workflowMetadata);
    case TimelineConsistency => r := TimelineViolation(v.projectTimeline, v.projectTimeline.order, dateParses);
    case TeamMemberValidity => r := TeamViolation(v.teamMembers, v.teamMembers.order);
    case StepProgression => r := ProgressionViolation(v.currentStep, v.completedSteps);
    case RequiredInfoCollection => r := RequiredInfoViolation(v.userProfile, v.completedSteps);
    case VerificationConsistency => r := VerificationViolation(v.verificationStatus, v.completedSteps);
    case OnboardingCompleteness => r := CompletenessViolation(v.currentStep, v.verificationStatus, v.userProfile);
  }

  /** The entry `rule` contributes to the `errors` list: none when it
      passes. */
  ghost function Reported(rule: Rule, v: StateView, dateParses: string -> bool): seq<Diagnostic> {
    match RuleViolation(rule, v, dateParses)
    case Some(x) => [RuleFailed(rule, x)]
    case None => []
  }

  /** The `errors` list after running `rules` in order: one entry per
      failing rule. */
  ghost function Diagnostics(rules: seq<Rule>, v: StateView, dateParses: string -> bool): seq<Diagnostic> {
    if rules == [] then []
    else Diagnostics(rules[..|rules| - 1], v, dateParses) + Reported(rules[|rules| - 1], v, dateParses)
  }

  /** Each validator has four rules; its entries are theirs in order. */
  lemma DiagnosticsOfFour(rules: seq<Rule>, v: StateView, dateParses: string -> bool)
    requires |rules| == 4
    ensures Diagnostics(rules, v, dateParses)
      == Reported(rules[0], v, dateParses) + Reported(rules[1], v, dateParses)
       + Reported(rules[2], v, dateParses) + Reported(rules[3], v, dateParses)
  {
    var r1, r2, r3 := rules[..1], rules[..2], rules[..3];
    assert r1[..0] == [] && r2[..1] == r1 && r3[..2] == r2 && rules[..3] == r3;
    assert Diagnostics(r1, v, dateParses) == Reported(rules[0], v, dateParses);
    assert Diagnostics(r2, v, dateParses) == Diagnostics(r1, v, dateParses) + Reported(rules[1], v, dateParses);
    assert Diagnostics(r3, v, dateParses) == Diagnostics(r2, v, dateParses) + Reported(rules[2], v, dateParses);
  }

  /** Every failing rule contributes its violation, and nothing else is
      reported. */
  lemma {:induction false} DiagnosticsCollectAll(rules: seq<Rule>, v: StateView, dateParses: string -> bool)
    ensures |Diagnostics(rules, v, dateParses)| <= |rules|
    ensures forall d :: d in Diagnostics(rules, v, dateParses) ==>
      d.RuleFailed? && d.rule in rules && RuleViolation(d.rule, v, dateParses) == Some(d.violation)
    ensures forall rule :: rule in rules && RuleViolation(rule, v, dateParses).Some? ==>
      RuleFailed(rule, RuleViolation(rule, v, dateParses).value) in Diagnostics(rules, v, dateParses)
  {
    if rules != [] {
      var front := rules[..|rules| - 1];
      DiagnosticsCollectAll(front, v, dateParses);
      assert forall rule :: rule in rules <==> rule in front || rule == rules[|rules| - 1];
    }
  }

  /** The state passes exactly when no rule fails. */
  lemma DiagnosticsEmpty(rules: seq<Rule>, v: StateView, dateParses: string -> bool)
    ensures Diagnostics(rules, v, dateParses) == [] <==>
      forall rule :: rule in rules ==> RuleViolation(rule, v, dateParses) == None
  {
    DiagnosticsCollectAll(rules, v, dateParses);
    if Diagnostics(rules, v, dateParses) != [] {
      assert Diagnostics(rules, v, dateParses)[0] in Diagnostics(rules, v, dateParses);
    }
  }

  /** The validator a state type gets; `Base` is the validator class with no
      rules of its own. */
  datatype ValidatorKind = Base | DocumentProcessingValidator | ProjectManagementValidator | OnboardingValidator

  /** `setup_rules`: each validator's rules, in declared order. */
  function RulesOf(kind: ValidatorKind): seq<Rule> {
    match kind
    case Base => []
    case DocumentProcessingValidator =>
      [WorkflowMetadataRequired, DocumentProcessingSequence, FileConstraints, StatusConsistency]
    case ProjectManagementValidator =>
      [TaskDependencies, ResourceAllocation, TimelineConsistency, TeamMemberValidity]
    case OnboardingValidator =>
      [StepProgression, RequiredInfoCollection, VerificationConsistency, OnboardingCompleteness]
  }

  /** `WorkflowValidator` and its three subclasses. */
  class WorkflowValidator {
    const kind: ValidatorKind
    var validationRules: seq<Rule>

    constructor(kind: ValidatorKind)
      ensures this.kind == kind && validationRules == RulesOf(kind)
    {
      this.kind := kind;
      validationRules := [];
      new;
      SetupRules();
    }

    method SetupRules()
      modifies this
      ensures validationRules == RulesOf(kind)
    {
      validationRules := RulesOf(kind);
    }

    /** `validate`: runs every rule in order and collects one entry per
        failing rule; the state is valid exactly when nothing was
        collected. */
    method Validate(state: Snapshot, dateParses: string -> bool, now: string) returns (r: ValidationResult)
      ensures r.errors == Diagnostics(validationRules, ViewOf(state), dateParses)
      ensures r.valid <==> r.errors == []
      ensures r.validatedAt == now
    {
      var view := ViewOf(state);
      var errors: seq<Diagnostic> := [];
      var i := 0;
      while i < |validationRules|
        invariant 0 <= i <= |validationRules|
        invariant errors == Diagnostics(validationRules[..i], view, dateParses)
      {
        var rule := validationRules[i];
        assert validationRules[..i + 1][..i] == validationRules[..i];
        var violation := RunRule(rule, view, dateParses);
        if violation.Some? {
          errors := errors + [RuleFailed(rule, violation.value)];
        }
        assert errors == Diagnostics(validationRules[..i], view, dateParses) + Reported(rule, view, dateParses);
        i := i + 1;
      }
      assert validationRules[..i] == validationRules;
      r := ValidationResult(|errors| == 0, errors, now);
    }
  }

  /** The state type a caller names; any other type is `UnknownType`. */
  datatype StateType =
    | DocumentProcessingStateType | ProjectManagementStateType | OnboardingStateType
    | UnknownType(name: string)

  /** `validate_state_transition`: picks the validator of the state type, or
      reports an unknown type. */
  method ValidateStateTransition(state: Snapshot, stateType: StateType, dateParses: string -> bool, now: string)
    returns (r: ValidationResult)
    ensures stateType.UnknownType? ==> r == ValidationResult(false, [UnknownStateType(stateType.name)], now)
    ensures stateType.DocumentProcessingStateType? ==>
      r.errors == Diagnostics(RulesOf(DocumentProcessingValidator), ViewOf(state), dateParses)
    ensures stateType.ProjectManagementStateType? ==>
      r.errors == Diagnostics(RulesOf(ProjectManagementValidator), ViewOf(state), dateParses)
    ensures stateType.OnboardingStateType? ==>
      r.errors == Diagnostics(RulesOf(OnboardingValidator), ViewOf(state), dateParses)
    ensures r.valid <==> r.errors == []
    ensures r.validatedAt == now
  {
    var validator: WorkflowValidator;
    match stateType {
      case DocumentProcessingStateType =>
        validator := new WorkflowValidator(DocumentProcessingValidator);
      case ProjectManagementStateType =>
        validator := new WorkflowValidator(ProjectManagementValidator);
      case OnboardingStateType =>
        validator := new WorkflowValidator(OnboardingValidator);
      case UnknownType(name) =>
        return ValidationResult(false, [UnknownStateType(name)], now);
    }
    r := validator.Validate(state, dateParses, now);
  }
}
