/** Entity records of the workflow state, the reducers that fold a partial
    update into the current value of a field, and the three initial-state
    factories. Wall-clock reads (`datetime.now()`) are parameters: `now` is
    the ISO time of the call and `stamp` the `%Y%m%d_%H%M%S` text used in
    workflow identifiers. */
module Schemas {
  import opened Wrappers
  import opened Strings
  import opened Collections

  datatype WorkflowStatus = Pending | InProgress | WaitingApproval | Completed | Failed | Cancelled

  datatype Priority = Low | Medium | High | Critical

  datatype TaskStatus = Todo | Doing | Blocked | Review | Done

  /** A value of a free-form `Dict[str, Any]` field. */
  datatype Value = Text(s: string) | Number(x: real) | Flag(b: bool) | Null

  datatype UserProfile = UserProfile(
    name: string,
    email: string,
    role: string,
    permissions: seq<string>,
    preferences: map<string, Value>,
    createdAt: string)

  datatype TaskInfo = TaskInfo(
    id: string,
    title: string,
    description: string,
    status: TaskStatus,
    priority: Priority,
    assignee: Option<string>,
    dependencies: seq<string>,
    estimatedHours: Option<real>,
    actualHours: Option<real>,
    dueDate: Option<string>,
    createdAt: string,
    updatedAt: string,
    metadata: map<string, Value>)

  datatype DocumentInfo = DocumentInfo(
    id: string,
    filename: string,
    fileType: string,
    sizeBytes: int,
    uploadTime: string,
    processingStage: string,
    validationResults: map<string, Value>,
    extractedData: map<string, Value>,
    errorMessages: seq<string>,
    metadata: map<string, Value>)

  datatype WorkflowMetadata = WorkflowMetadata(
    workflowId: string,
    workflowType: string,
    startedAt: string,
    updatedAt: string,
    currentStep: string,
    totalSteps: int,
    completedSteps: int,
    errorCount: int,
    retryCount: int,
    timeoutAt: Option<string>)

  /** One entry of the `errors` list of a document-processing state. */
  type ErrorEntry = map<string, Value>

  datatype DocumentProcessingState = DocumentProcessingState(
    currentDocument: Option<DocumentInfo>,
    processedDocuments: map<string, DocumentInfo>,
    workflowMetadata: Option<WorkflowMetadata>,
    processingLog: seq<string>,
    userProfile: Option<UserProfile>,
    processingConfig: map<string, Value>,
    overallStatus: WorkflowStatus,
    currentStep: string,
    errors: seq<ErrorEntry>)

  datatype ProjectManagementState = ProjectManagementState(
    projectId: string,
    projectName: string,
    projectDescription: string,
    tasks: Dict<TaskInfo>,
    taskDependencies: Dict<seq<string>>,
    teamMembers: Dict<UserProfile>,
    resourceAllocation: map<string, Value>,
    projectTimeline: Dict<string>,
    progressMetrics: map<string, real>,
    workflowMetadata: Option<WorkflowMetadata>,
    currentPhase: string,
    approvalChain: seq<string>)

  datatype OnboardingState = OnboardingState(
    userProfile: Option<UserProfile>,
    onboardingResponses: map<string, Value>,
    completedSteps: seq<string>,
    currentStep: string,
    availableNextSteps: seq<string>,
    userPreferences: map<string, Value>,
    recommendedFeatures: seq<string>,
    customizationOptions: map<string, Value>,
    verificationStatus: map<string, bool>,
    integrationSetup: map<string, Value>,
    workflowMetadata: Option<WorkflowMetadata>,
    onboardingConfig: map<string, Value>)

  // ---------------------------------------------------------------------------
  // Python truthiness, as `a or b` uses it
  // ---------------------------------------------------------------------------

  /** `a or b` on strings: the empty string is false. */
  function OrText(a: string, b: string): string {
    if a != "" then a else b
  }

  /** An optional string is true when present and non-empty. */
  predicate PresentText(o: Option<string>) {
    o.Some? && o.value != ""
  }

  function OrOptionalText(a: Option<string>, b: Option<string>): Option<string> {
    if PresentText(a) then a else b
  }

  /** An optional number is true when present and non-zero. */
  predicate PresentNumber(o: Option<real>) {
    o.Some? && o.value != 0.0
  }

  function OrOptionalNumber(a: Option<real>, b: Option<real>): Option<real> {
    if PresentNumber(a) then a else b
  }

  /** The extensions a document may have; both the upload check and the
      file-constraints rule use this list. */
  const SupportedExtensions: seq<string> := [".pdf", ".docx", ".txt", ".md"]

  /** `any(filename.endswith(ext) for ext in SupportedExtensions)` */
  predicate HasSupportedExtension(filename: string) {
    exists ext :: ext in SupportedExtensions && EndsWith(filename, ext)
  }

  // ---------------------------------------------------------------------------
  // Reducer: user profile
  // ---------------------------------------------------------------------------

  /** Two profiles that differ at most in the order of their permission lists. */
  ghost predicate SameProfileUpToPermissionOrder(a: UserProfile, b: UserProfile) {
    && a.name == b.name && a.email == b.email && a.role == b.role
    && (forall p :: p in a.permissions <==> p in b.permissions)
    && a.preferences == b.preferences
    && a.createdAt == b.createdAt
  }

  /** `merge_user_profile`: absence on either side yields the other side;
      otherwise a non-empty incoming name, email or role replaces the current
      one, permissions are united without duplicates, preferences are united
      with incoming keys winning, and the creation time is the existing one. */
  function MergeUserProfile(existing: Option<UserProfile>, incoming: Option<UserProfile>): (r: Option<UserProfile>)
    ensures existing.None? ==> r == incoming
    ensures existing.Some? && incoming.None? ==> r == existing
    ensures existing.Some? && incoming.Some? ==>
      var e, n := existing.value, incoming.value;
      && r.Some?
      && r.value.createdAt == e.createdAt
      && (n.name != "" ==> r.value.name == n.name) && (n.name == "" ==> r.value.name == e.name)
      && (n.email != "" ==> r.value.email == n.email) && (n.email == "" ==> r.value.email == e.email)
      && (n.role != "" ==> r.value.role == n.role) && (n.role == "" ==> r.value.role == e.role)
      && NoDuplicates(r.value.permissions)
      && (forall p :: p in r.value.permissions <==> p in e.permissions || p in n.permissions)
      && r.value.preferences.Keys == e.preferences.Keys + n.preferences.Keys
      && (forall k :: k in n.preferences ==> r.value.preferences[k] == n.preferences[k])
      && (forall k :: k in e.preferences && k !in n.preferences ==> r.value.preferences[k] == e.preferences[k])
  {
    match (existing, incoming)
    case (None, _) => incoming
    case (Some(_), None) => existing
    case (Some(e), Some(n)) =>
      Some(UserProfile(
        name := OrText(n.name, e.name),
        email := OrText(n.email, e.email),
        role := OrText(n.role, e.role),
        permissions := Dedup(e.permissions + n.permissions),
        preferences := e.preferences + n.preferences,
        createdAt := e.createdAt))
  }

  /** Folding the same profile update in a second time changes nothing beyond
      the (unspecified) order of the permission list. */
  lemma MergeUserProfileIdempotent(existing: Option<UserProfile>, incoming: Option<UserProfile>)
    ensures var once := MergeUserProfile(existing, incoming);
            var twice := MergeUserProfile(once, incoming);
            && twice.Some? == once.Some?
            && (once.Some? ==> SameProfileUpToPermissionOrder(twice.value, once.value))
  {
    var once := MergeUserProfile(existing, incoming);
    if once.Some? && incoming.Some? {
      var twice := MergeUserProfile(once, incoming);
      assert twice.value.preferences == once.value.preferences;
    }
  }

  // ---------------------------------------------------------------------------
  // Reducer: tasks
  // ---------------------------------------------------------------------------

  /** The record `update_tasks_dict` stores for an id present on both sides. */
  function MergeTask(existing: TaskInfo, incoming: TaskInfo, now: string): (r: TaskInfo)
    ensures r.id == incoming.id
    ensures r.createdAt == existing.createdAt && r.updatedAt == now
    ensures incoming.title != "" ==> r.title == incoming.title
    ensures incoming.title == "" ==> r.title == existing.title
    ensures incoming.description != "" ==> r.description == incoming.description
    ensures incoming.description == "" ==> r.description == existing.description
    ensures PresentText(incoming.assignee) ==> r.assignee == incoming.assignee
    ensures !PresentText(incoming.assignee) ==> r.assignee == existing.assignee
    ensures PresentNumber(incoming.estimatedHours) ==> r.estimatedHours == incoming.estimatedHours
    ensures !PresentNumber(incoming.estimatedHours) ==> r.estimatedHours == existing.estimatedHours
    ensures PresentNumber(incoming.actualHours) ==> r.actualHours == incoming.actualHours
    ensures !PresentNumber(incoming.actualHours) ==> r.actualHours == existing.actualHours
    ensures PresentText(incoming.dueDate) ==> r.dueDate == incoming.dueDate
    ensures !PresentText(incoming.dueDate) ==> r.dueDate == existing.dueDate
    ensures incoming.status != Todo ==> r.status == incoming.status
    ensures incoming.status == Todo ==> r.status == existing.status
    ensures incoming.priority != Low ==> r.priority == incoming.priority
    ensures incoming.priority == Low ==> r.priority == existing.priority
    ensures NoDuplicates(r.dependencies)
    ensures forall d :: d in r.dependencies <==> d in existing.dependencies || d in incoming.dependencies
    ensures r.metadata.Keys == existing.metadata.Keys + incoming.metadata.Keys
    ensures forall k :: k in incoming.metadata ==> r.metadata[k] == incoming.metadata[k]
    ensures forall k :: k in existing.metadata && k !in incoming.metadata ==> r.metadata[k] == existing.metadata[k]
  {
    TaskInfo(
      id := incoming.id,
      title := OrText(incoming.title, existing.title),
      description := OrText(incoming.description, existing.description),
      status := if incoming.status != Todo then incoming.status else existing.status,
      priority := if incoming.priority != Low then incoming.priority else existing.priority,
      assignee := OrOptionalText(incoming.assignee, existing.assignee),
      dependencies := Dedup(existing.dependencies + incoming.dependencies),
      estimatedHours := OrOptionalNumber(incoming.estimatedHours, existing.estimatedHours),
      actualHours := OrOptionalNumber(incoming.actualHours, existing.actualHours),
      dueDate := OrOptionalText(incoming.dueDate, existing.dueDate),
      createdAt := existing.createdAt,
      updatedAt := now,
      metadata := existing.metadata + incoming.metadata)
  }

  /** The task map `update_tasks_dict` returns: the existing ids in their
      order, then the ids only `incoming` has in its order; an id on both
      sides holds the merged record. */
  function TasksMerged(existing: Dict<TaskInfo>, incoming: Dict<TaskInfo>, now: string): Dict<TaskInfo> {
    Merged(existing, incoming, (a, b) => MergeTask(a, b, now))
  }

  /** The merged task map holds exactly the ids of both sides, the existing
      ids first and in their order. */
  lemma TasksMergedKeys(existing: Dict<TaskInfo>, incoming: Dict<TaskInfo>, now: string)
    ensures var r := TasksMerged(existing, incoming, now);
      && r.values.Keys == existing.values.Keys + incoming.values.Keys
      && r.order[..|existing.order|] == existing.order
  {
    var r := TasksMerged(existing, incoming, now);
    assert r.order == existing.order + KeysNotIn(incoming.order, existing.values);
  }

  /** An id only one side has keeps that side's record unchanged; an id both
      sides have keeps its creation time, gets the merge time, and unites the
      dependency lists. */
  lemma TasksMergedRecords(existing: Dict<TaskInfo>, incoming: Dict<TaskInfo>, now: string, k: string)
    requires k in existing.values || k in incoming.values
    ensures var r := TasksMerged(existing, incoming, now);
      && k in r.values
      && (k !in incoming.values ==> r.values[k] == existing.values[k])
      && (k !in existing.values ==> r.values[k] == incoming.values[k])
      && (k in existing.values && k in incoming.values ==>
            && r.values[k].createdAt == existing.values[k].createdAt
            && r.values[k].updatedAt == now
            && (forall d :: d in r.values[k].dependencies <==>
                  d in existing.values[k].dependencies || d in incoming.values[k].dependencies))
  {
  }

  /** An empty side gives back the other side. */
  lemma TasksMergedEmptySide(existing: Dict<TaskInfo>, incoming: Dict<TaskInfo>, now: string)
    ensures existing.order == [] ==> TasksMerged(existing, incoming, now) == incoming
    ensures incoming.order == [] ==> TasksMerged(existing, incoming, now) == existing
  {
    if existing.order == [] {
      MergedIntoEmpty(existing, incoming, (a, b) => MergeTask(a, b, now));
    }
    if incoming.order == [] {
      MergedFromEmpty(existing, incoming, (a, b) => MergeTask(a, b, now));
    }
  }

  /** `update_tasks_dict`: an empty side gives back the other side; otherwise
      copies `existing` and folds every entry of `incoming` into the copy, in
      `incoming`'s order. */
  method UpdateTasksDict(existing: Dict<TaskInfo>, incoming: Dict<TaskInfo>, now: string) returns (r: Dict<TaskInfo>)
    ensures r == TasksMerged(existing, incoming, now)
  {
    ghost var combine := (a, b) => MergeTask(a, b, now);
    if existing.order == [] {
      MergedIntoEmpty(existing, incoming, combine);
      return incoming;
    }
    if incoming.order == [] {
      MergedFromEmpty(existing, incoming, combine);
      return existing;
    }
    var updated := existing;
    var i := 0;
    while i < |incoming.order|
      invariant i <= |incoming.order|
      invariant PartiallyMerged(updated, existing, incoming, combine, incoming.order[..i])
    {
      var taskId := incoming.order[i];
      var newTask := incoming.values[taskId];
      NotInPrefix(incoming.order, i);
      PartiallyMergedUntouched(updated, existing, incoming, combine, incoming.order[..i], taskId);
      ghost var before := updated;
      if taskId in updated.values {
        var existingTask := updated.values[taskId];
        updated := Put(updated, taskId, MergeTask(existingTask, newTask, now));
      } else {
        updated := Put(updated, taskId, newTask);
      }
      PartiallyMergedStep(before, existing, incoming, combine, incoming.order[..i], taskId, updated);
      PrefixSnoc(incoming.order, i);
      i := i + 1;
    }
    assert incoming.order[..i] == incoming.order;
    PartiallyMergedDone(updated, existing, incoming, combine);
    r := updated;
  }

  // ---------------------------------------------------------------------------
  // Reducer: processing log
  // ---------------------------------------------------------------------------

  /** `f"[{timestamp}] {entry}"` */
  function Stamped(timestamp: string, entry: string): string {
    "[" + timestamp + "] " + entry
  }

  /** `append_to_processing_log`: the existing log is kept as a prefix and each
      incoming entry follows it, in order, under one shared timestamp. */
  function AppendToProcessingLog(existing: seq<string>, incoming: seq<string>, timestamp: string): (r: seq<string>)
    ensures incoming == [] ==> r == existing
    ensures existing <= r
    ensures |r| == |existing| + |incoming|
    ensures forall i :: 0 <= i < |incoming| ==> r[|existing| + i] == Stamped(timestamp, incoming[i])
  {
    if incoming == [] then existing
    else existing + seq(|incoming|, i requires 0 <= i < |incoming| => Stamped(timestamp, incoming[i]))
  }

  /** Appending two batches under one timestamp is appending their
      concatenation once. */
  lemma AppendLogBatches(log: seq<string>, first: seq<string>, second: seq<string>, timestamp: string)
    ensures AppendToProcessingLog(AppendToProcessingLog(log, first, timestamp), second, timestamp)
         == AppendToProcessingLog(log, first + second, timestamp)
  {
    var lhs := AppendToProcessingLog(AppendToProcessingLog(log, first, timestamp), second, timestamp);
    var rhs := AppendToProcessingLog(log, first + second, timestamp);
    assert |lhs| == |rhs|;
    forall i | 0 <= i < |lhs| ensures lhs[i] == rhs[i] {
      if i >= |log| + |first| {
        assert rhs[|log| + (i - |log|)] == Stamped(timestamp, (first + second)[i - |log|]);
      } else if i >= |log| {
        assert rhs[|log| + (i - |log|)] == Stamped(timestamp, (first + second)[i - |log|]);
      }
    }
  }

  // ---------------------------------------------------------------------------
  // Reducer: workflow metadata
  // ---------------------------------------------------------------------------

  /** `merge_workflow_metadata`: absence on either side yields the other side;
      otherwise identity and start time stay, the update time is the merge
      time, completed steps take the larger count, error and retry counts are
      added, and a non-empty/non-zero incoming step, total or timeout wins. */
  function MergeWorkflowMetadata(existing: Option<WorkflowMetadata>, incoming: Option<WorkflowMetadata>, now: string)
    : (r: Option<WorkflowMetadata>)
    ensures existing.None? ==> r == incoming
    ensures existing.Some? && incoming.None? ==> r == existing
    ensures existing.Some? && incoming.Some? ==>
      var e, n := existing.value, incoming.value;
      && r.Some?
      && r.value.workflowId == e.workflowId
      && r.value.workflowType == e.workflowType
      && r.value.startedAt == e.startedAt
      && r.value.updatedAt == now
      && r.value.completedSteps >= e.completedSteps
      && r.value.completedSteps >= n.completedSteps
      && (r.value.completedSteps == e.completedSteps || r.value.completedSteps == n.completedSteps)
      && r.value.errorCount == e.errorCount + n.errorCount
      && r.value.retryCount == e.retryCount + n.retryCount
      && (n.currentStep != "" ==> r.value.currentStep == n.currentStep)
      && (n.currentStep == "" ==> r.value.currentStep == e.currentStep)
      && (n.totalSteps != 0 ==> r.value.totalSteps == n.totalSteps)
      && (n.totalSteps == 0 ==> r.value.totalSteps == e.totalSteps)
      && (PresentText(n.timeoutAt) ==> r.value.timeoutAt == n.timeoutAt)
      && (!PresentText(n.timeoutAt) ==> r.value.timeoutAt == e.timeoutAt)
  {
    match (existing, incoming)
    case (None, _) => incoming
    case (Some(_), None) => existing
    case (Some(e), Some(n)) =>
      Some(WorkflowMetadata(
        workflowId := e.workflowId,
        workflowType := e.workflowType,
        startedAt := e.startedAt,
        updatedAt := now,
        currentStep := OrText(n.currentStep, e.currentStep),
        totalSteps := if n.totalSteps != 0 then n.totalSteps else e.totalSteps,
        completedSteps := if e.completedSteps >= n.completedSteps then e.completedSteps else n.completedSteps,
        errorCount := e.errorCount + n.errorCount,
        retryCount := e.retryCount + n.retryCount,
        timeoutAt := OrOptionalText(n.timeoutAt, e.timeoutAt)))
  }

  /** Because the counters are added, folding the same update in twice equals
      folding it in once exactly when it carries no errors and no retries. */
  lemma MergeWorkflowMetadataIdempotentIff(existing: WorkflowMetadata, incoming: WorkflowMetadata, now: string)
    ensures var once := MergeWorkflowMetadata(Some(existing), Some(incoming), now);
      MergeWorkflowMetadata(once, Some(incoming), now) == once <==> incoming.errorCount == 0 && incoming.retryCount == 0
  {
    var once := MergeWorkflowMetadata(Some(existing), Some(incoming), now);
    var twice := MergeWorkflowMetadata(once, Some(incoming), now);
    if incoming.errorCount != 0 {
      assert twice.value.errorCount != once.value.errorCount;
    }
    if incoming.retryCount != 0 {
      assert twice.value.retryCount != once.value.retryCount;
    }
  }

  /** Folds a sequence of timestamped metadata updates into a value, one merge
      after another. */
  function MergeAllMetadata(m: Option<WorkflowMetadata>, updates: seq<(Option<WorkflowMetadata>, string)>)
    : Option<WorkflowMetadata>
    decreases |updates|
  {
    if updates == [] then m
    else MergeAllMetadata(MergeWorkflowMetadata(m, updates[0].0, updates[0].1), updates[1..])
  }

  /** Sum of the error counts of the updates that are present. */
  function UpdateErrors(updates: seq<(Option<WorkflowMetadata>, string)>): int
    decreases |updates|
  {
    if updates == [] then 0
    else (if updates[0].0.Some? then updates[0].0.value.errorCount else 0) + UpdateErrors(updates[1..])
  }

  /** Across any sequence of merges into present metadata, the identity and
      start time never change, the completed-step count never decreases and
      reaches at least every update's count, and the error count is the
      starting count plus every update's count. */
  lemma {:induction false} MergeAllMetadataMonotone(m: WorkflowMetadata, updates: seq<(Option<WorkflowMetadata>, string)>)
    ensures var r := MergeAllMetadata(Some(m), updates);
      && r.Some?
      && r.value.workflowId == m.workflowId
      && r.value.startedAt == m.startedAt
      && r.value.completedSteps >= m.completedSteps
      && (forall i :: 0 <= i < |updates| && updates[i].0.Some? ==> r.value.completedSteps >= updates[i].0.value.completedSteps)
      && r.value.errorCount == m.errorCount + UpdateErrors(updates)
    decreases |updates|
  {
    if updates != [] {
      var next := MergeWorkflowMetadata(Some(m), updates[0].0, updates[0].1);
      MergeAllMetadataMonotone(next.value, updates[1..]);
      var r := MergeAllMetadata(Some(m), updates);
      assert r == MergeAllMetadata(next, updates[1..]);
      forall i | 0 <= i < |updates| && updates[i].0.Some?
        ensures r.value.completedSteps >= updates[i].0.value.completedSteps
      {
        if i > 0 {
          assert updates[i] == updates[1..][i - 1];
        }
      }
    }
  }

  // ---------------------------------------------------------------------------
  // Initial-state factories
  // ---------------------------------------------------------------------------

  /** Fresh metadata for a workflow of the given kind with `total` steps. */
  function StartMetadata(workflowId: string, workflowType: string, step: string, total: int, now: string)
    : WorkflowMetadata
  {
    WorkflowMetadata(workflowId, workflowType, now, now, step, total, 0, 0, 0, None)
  }

  /** `create_document_processing_state` */
  function CreateDocumentProcessingState(
    userProfile: UserProfile, config: Option<map<string, Value>>, stamp: string, now: string)
    : (s: DocumentProcessingState)
    ensures s.overallStatus == Pending && s.currentStep == "awaiting_upload"
    ensures s.workflowMetadata == Some(StartMetadata("doc_proc_" + stamp, "document_processing", "init", 5, now))
    ensures s.currentDocument.None? && s.errors == [] && s.processingLog == []
    ensures s.userProfile == Some(userProfile)
  {
    DocumentProcessingState(
      currentDocument := None,
      processedDocuments := map[],
      workflowMetadata := Some(StartMetadata("doc_proc_" + stamp, "document_processing", "init", 5, now)),
      processingLog := [],
      userProfile := Some(userProfile),
      processingConfig := config.GetOr(map[]),
      overallStatus := Pending,
      currentStep := "awaiting_upload",
      errors := [])
  }

  /** `create_project_management_state` */
  function CreateProjectManagementState(
    projectName: string, projectDescription: string, manager: UserProfile, stamp: string, now: string)
    : (s: ProjectManagementState)
    ensures s.projectId == "proj_" + stamp
    ensures s.tasks.order == [] && s.taskDependencies.order == [] && s.projectTimeline.order == []
    ensures s.teamMembers.order == ["manager"] && s.teamMembers.values == map["manager" := manager]
    ensures s.workflowMetadata == Some(StartMetadata("pm_" + s.projectId, "project_management", "planning", 6, now))
  {
    ProjectManagementState(
      projectId := "proj_" + stamp,
      projectName := projectName,
      projectDescription := projectDescription,
      tasks := EmptyDict(),
      taskDependencies := EmptyDict(),
      teamMembers := Put(EmptyDict(), "manager", manager),
      resourceAllocation := map[],
      projectTimeline := EmptyDict(),
      progressMetrics := map["completion" := 0.0, "on_time" := 1.0, "quality" := 0.0],
      workflowMetadata := Some(StartMetadata("pm_" + ("proj_" + stamp), "project_management", "planning", 6, now)),
      currentPhase := "initiation",
      approvalChain := [])
  }

  /** `create_onboarding_state` */
  function CreateOnboardingState(userEmail: string, stamp: string, now: string): (s: OnboardingState)
    ensures s.currentStep == "welcome" && s.completedSteps == []
    ensures s.userProfile == Some(UserProfile("", userEmail, "new_user", [], map[], now))
    ensures s.verificationStatus == map["email" := false, "phone" := false, "identity" := false]
    ensures s.workflowMetadata == Some(StartMetadata("onboard_" + stamp, "user_onboarding", "welcome", 8, now))
  {
    OnboardingState(
      userProfile := Some(UserProfile("", userEmail, "new_user", [], map[], now)),
      onboardingResponses := map[],
      completedSteps := [],
      currentStep := "welcome",
      availableNextSteps := ["collect_basic_info"],
      userPreferences := map[],
      recommendedFeatures := [],
      customizationOptions := map[],
      verificationStatus := map["email" := false, "phone" := false, "identity" := false],
      integrationSetup := map[],
      workflowMetadata := Some(StartMetadata("onboard_" + stamp, "user_onboarding", "welcome", 8, now)),
      onboardingConfig := map["skip_optional" := Flag(false), "fast_track" := Flag(false)])
  }
}
