/** What the validators report on concrete states: the document self-tests of
    the validation tool, the states the factories create, and small project
    and onboarding states for the dependency, workload and prerequisite
    rules. */
module ValidationExamples {
  import opened Wrappers
  import opened Collections
  import opened Schemas
  import opened DependencyGraph
  import opened Validators

  // ---------------------------------------------------------------------------
  // Document processing
  // ---------------------------------------------------------------------------

  function DocumentState(completed: int, total: int, errorCount: int, step: string, status: WorkflowStatus)
    : DocumentProcessingState
  {
    DocumentProcessingState(
      currentDocument := None,
      processedDocuments := map[],
      workflowMetadata := Some(WorkflowMetadata("w", "document_processing", "t", "t", step, total, completed, errorCount, 0, None)),
      processingLog := [],
      userProfile := None,
      processingConfig := map[],
      overallStatus := status,
      currentStep := step,
      errors := [])
  }

  /** The tool's valid state: 2 of 5 steps, no errors, processing while in
      progress. */
  lemma DocumentSelfTestPasses(dateParses: string -> bool)
    ensures Diagnostics(RulesOf(DocumentProcessingValidator),
                        ViewOf(DocumentSnapshot(DocumentState(2, 5, 0, "processing", InProgress))), dateParses) == []
  {
    var v := ViewOf(DocumentSnapshot(DocumentState(2, 5, 0, "processing", InProgress)));
    DiagnosticsEmpty(RulesOf(DocumentProcessingValidator), v, dateParses);
  }

  /** The tool's invalid state: 6 of 5 steps and error count -1 report only
      the step count, and the step `completed` is incompatible with a pending
      status; the status rule passes. */
  lemma DocumentSelfTestFails(dateParses: string -> bool)
    ensures Diagnostics(RulesOf(DocumentProcessingValidator),
                        ViewOf(DocumentSnapshot(DocumentState(6, 5, -1, "completed", Pending))), dateParses)
      == [RuleFailed(WorkflowMetadataRequired, CompletedExceedsTotal),
          RuleFailed(DocumentProcessingSequence, IncompatibleStep("completed", Pending))]
  {
    var v := ViewOf(DocumentSnapshot(DocumentState(6, 5, -1, "completed", Pending)));
    DiagnosticsOfFour(RulesOf(DocumentProcessingValidator), v, dateParses);
  }

  /** A freshly created document-processing state passes its validator. */
  lemma NewDocumentStateIsValid(
    profile: UserProfile, config: Option<map<string, Value>>, stamp: string, now: string, dateParses: string -> bool)
    ensures Diagnostics(RulesOf(DocumentProcessingValidator),
                        ViewOf(DocumentSnapshot(CreateDocumentProcessingState(profile, config, stamp, now))),
                        dateParses) == []
  {
    var v := ViewOf(DocumentSnapshot(CreateDocumentProcessingState(profile, config, stamp, now)));
    DiagnosticsEmpty(RulesOf(DocumentProcessingValidator), v, dateParses);
  }

  // ---------------------------------------------------------------------------
  // Onboarding
  // ---------------------------------------------------------------------------

  /** A freshly created onboarding state passes its validator. */
  lemma NewOnboardingStateIsValid(email: string, stamp: string, now: string, dateParses: string -> bool)
    ensures Diagnostics(RulesOf(OnboardingValidator),
                        ViewOf(OnboardingSnapshot(CreateOnboardingState(email, stamp, now))), dateParses) == []
  {
    FreshOnboardingRules(ViewOf(OnboardingSnapshot(CreateOnboardingState(email, stamp, now))), dateParses);
  }

  /** At `welcome` with nothing completed, no onboarding rule fails. */
  lemma FreshOnboardingRules(v: StateView, dateParses: string -> bool)
    requires v.currentStep == "welcome" && v.completedSteps == []
    ensures Diagnostics(RulesOf(OnboardingValidator), v, dateParses) == []
  {
    var rules := RulesOf(OnboardingValidator);
    assert rules == [StepProgression, RequiredInfoCollection, VerificationConsistency, OnboardingCompleteness];
    DiagnosticsOfFour(rules, v, dateParses);
    assert Reported(StepProgression, v, dateParses) == [] by {
      assert Prerequisites("welcome") == Some([]);
    }
    EarlyOnboardingRules(v, dateParses);
  }

  /** Verifying the email right after the welcome step skips
      `collect_basic_info`, which the step requires. */
  lemma SkippedPrerequisiteIsReported(email: string, stamp: string, now: string, dateParses: string -> bool)
    ensures var s := CreateOnboardingState(email, stamp, now).(currentStep := "verify_email", completedSteps := ["welcome"]);
      Diagnostics(RulesOf(OnboardingValidator), ViewOf(OnboardingSnapshot(s)), dateParses)
        == [RuleFailed(StepProgression, MissingPrerequisite("verify_email", "collect_basic_info"))]
  {
    var s := CreateOnboardingState(email, stamp, now).(currentStep := "verify_email", completedSteps := ["welcome"]);
    SkippedPrerequisiteOnly(ViewOf(OnboardingSnapshot(s)), dateParses);
  }

  /** Any onboarding view on `verify_email` after only `welcome` fails the
      progression rule and nothing else. */
  lemma SkippedPrerequisiteOnly(v: StateView, dateParses: string -> bool)
    requires v.currentStep == "verify_email" && v.completedSteps == ["welcome"]
    ensures Diagnostics(RulesOf(OnboardingValidator), v, dateParses)
      == [RuleFailed(StepProgression, MissingPrerequisite("verify_email", "collect_basic_info"))]
  {
    var rules := RulesOf(OnboardingValidator);
    assert rules == [StepProgression, RequiredInfoCollection, VerificationConsistency, OnboardingCompleteness];
    DiagnosticsOfFour(rules, v, dateParses);
    EmailStepAfterWelcome(v, dateParses);
    EarlyOnboardingRules(v, dateParses);
  }

  /** On the step `verify_email` after only `welcome`, the progression rule
      names the skipped step. */
  lemma EmailStepAfterWelcome(v: StateView, dateParses: string -> bool)
    requires v.currentStep == "verify_email" && v.completedSteps == ["welcome"]
    ensures Reported(StepProgression, v, dateParses)
      == [RuleFailed(StepProgression, MissingPrerequisite("verify_email", "collect_basic_info"))]
  {
    assert Prerequisites("verify_email") == Some(["collect_basic_info"]);
    assert "collect_basic_info" !in v.completedSteps;
  }

  /** Before `collect_basic_info` and `verify_email` are done, and away from
      the step `completed`, the other three onboarding rules pass. */
  lemma EarlyOnboardingRules(v: StateView, dateParses: string -> bool)
    requires v.currentStep != "completed"
    requires "collect_basic_info" !in v.completedSteps && "verify_email" !in v.completedSteps
    ensures Reported(RequiredInfoCollection, v, dateParses) == []
    ensures Reported(VerificationConsistency, v, dateParses) == []
    ensures Reported(OnboardingCompleteness, v, dateParses) == []
  {
  }

  // ---------------------------------------------------------------------------
  // Project management
  // ---------------------------------------------------------------------------

  function NewTask(id: string, assignee: Option<string>, status: TaskStatus, hours: real): TaskInfo {
    TaskInfo(id, id, "", status, Medium, assignee, [], Some(hours), None, None, "t", "t", map[])
  }

  /** A freshly created project passes its validator exactly when its
      manager has a name and an email. */
  lemma NewProjectStateValidity(
    name: string, description: string, manager: UserProfile, stamp: string, now: string, dateParses: string -> bool)
    ensures Diagnostics(RulesOf(ProjectManagementValidator),
                        ViewOf(ProjectSnapshot(CreateProjectManagementState(name, description, manager, stamp, now))),
                        dateParses) == []
      <==> manager.name != "" && manager.email != ""
  {
    var s := CreateProjectManagementState(name, description, manager, stamp, now);
    FreshProjectRules(ViewOf(ProjectSnapshot(s)), manager, dateParses);
  }

  /** A project with no tasks, dependencies or milestones and one team
      member passes its validator exactly when that member has a name and
      an email. */
  lemma FreshProjectRules(v: StateView, manager: UserProfile, dateParses: string -> bool)
    requires v.tasks.order == [] && v.taskDependencies.order == [] && v.projectTimeline.order == []
    requires v.teamMembers.order == ["manager"] && v.teamMembers.values == map["manager" := manager]
    ensures Diagnostics(RulesOf(ProjectManagementValidator), v, dateParses) == []
      <==> manager.name != "" && manager.email != ""
  {
    var rules := RulesOf(ProjectManagementValidator);
    assert rules == [TaskDependencies, ResourceAllocation, TimelineConsistency, TeamMemberValidity];
    DiagnosticsOfFour(rules, v, dateParses);
    EmptyProjectRules(v, dateParses);
    OneMemberTeam(v, manager, dateParses);
  }

  /** With no tasks, no dependencies and no milestones, the first three
      project rules pass. */
  lemma EmptyProjectRules(v: StateView, dateParses: string -> bool)
    requires v.tasks.order == [] && v.taskDependencies.order == [] && v.projectTimeline.order == []
    ensures Reported(TaskDependencies, v, dateParses) == []
    ensures Reported(ResourceAllocation, v, dateParses) == []
    ensures Reported(TimelineConsistency, v, dateParses) == []
  {
    assert FirstCyclic(v.taskDependencies, v.tasks.order) == None;
    assert DanglingReference(v.tasks.values.Keys, v.taskDependencies) == None;
    assert ValuesInOrder(v.tasks) == [];
  }

  /** A team of one passes exactly when that member has a name and an
      email. */
  lemma OneMemberTeam(v: StateView, member: UserProfile, dateParses: string -> bool)
    requires v.teamMembers.order == ["manager"] && v.teamMembers.values == map["manager" := member]
    ensures Reported(TeamMemberValidity, v, dateParses) == [] <==> member.name != "" && member.email != ""
  {
    assert TeamViolation(v.teamMembers, v.teamMembers.order[1..]) == None;
  }

  function ThreeTasks(): Dict<TaskInfo> {
    RawDict(["a", "b", "c"],
            map["a" := NewTask("a", None, Todo, 0.0), "b" := NewTask("b", None, Todo, 0.0),
                "c" := NewTask("c", None, Todo, 0.0)])
  }

  /** `a` depends on `b`, `b` on `c`, and `c` on `a` or, when `closed` is
      false, on nothing. */
  function ThreeDependencies(closed: bool): Dependencies {
    RawDict(["a", "b", "c"], map["a" := ["b"], "b" := ["c"], "c" := if closed then ["a"] else []])
  }

  /** A three-task cycle is reported, naming the first task. */
  lemma CycleIsReported()
    ensures DependencyViolation(ThreeTasks(), ThreeDependencies(true)) == Some(CircularDependency("a"))
  {
    var deps := ThreeDependencies(true);
    assert ReachesCycle(deps, "a") by {
      var lasso := ["a", "b", "c", "a"];
      assert Successors(deps, "a") == ["b"] && Successors(deps, "b") == ["c"] && Successors(deps, "c") == ["a"];
      assert lasso[..3] == ["a", "b", "c"];
      assert IsLasso(deps, lasso);
    }
  }

  /** The same tasks as a chain have no circular dependency and no dangling
      reference. */
  lemma ChainPasses()
    ensures DependencyViolation(ThreeTasks(), ThreeDependencies(false)) == None
  {
    ChainIsAcyclic();
    assert ThreeTasks().values.Keys == {"a", "b", "c"};
  }

  /** No task of the chain reaches a cycle: each depends only on tasks of
      lower rank. */
  lemma ChainIsAcyclic()
    ensures FirstCyclic(ThreeDependencies(false), ["a", "b", "c"]) == None
  {
    var deps := ThreeDependencies(false);
    ChainIsRanked();
    FirstCyclicIsFirst(deps, ["a", "b", "c"]);
    forall t | t in ["a", "b", "c"] ensures !ReachesCycle(deps, t) {
      RankedNoCycle(deps, {"a", "b", "c"}, ChainRank, t);
    }
  }

  function ChainRank(t: string): int {
    if t == "a" then 2 else if t == "b" then 1 else 0
  }

  lemma ChainIsRanked()
    ensures RankedBelow(ThreeDependencies(false), {"a", "b", "c"}, ChainRank)
  {
    var deps := ThreeDependencies(false);
    assert Successors(deps, "a") == ["b"] && Successors(deps, "b") == ["c"] && Successors(deps, "c") == [];
  }

  /** A dependency entry for an id that is not a task is reported when there
      is no cycle, and a cycle wins over it. */
  lemma CycleWinsOverDanglingReference()
    ensures DependencyViolation(OneTask(), RawDict(["x", "a"], map["x" := [], "a" := []]))
      == Some(BrokenReference(UnknownDependentTask("x")))
    ensures DependencyViolation(OneTask(), RawDict(["x", "a"], map["x" := [], "a" := ["a"]]))
      == Some(CircularDependency("a"))
  {
    DanglingWithoutCycle();
    SelfLoop();
  }

  lemma DanglingWithoutCycle()
    ensures var acyclic: Dependencies := RawDict(["x", "a"], map["x" := [], "a" := []]);
      FirstCyclic(acyclic, ["a"]) == None && DanglingReference({"a"}, acyclic) == Some(UnknownDependentTask("x"))
  {
    var acyclic: Dependencies := RawDict(["x", "a"], map["x" := [], "a" := []]);
    assert Successors(acyclic, "a") == [];
    RankedNoCycle(acyclic, {"a"}, (t: string) => 0, "a");
  }

  /** A task that depends on itself is a cycle. */
  lemma SelfLoop()
    ensures ReachesCycle(RawDict(["x", "a"], map["x" := [], "a" := ["a"]]), "a")
  {
    var looped: Dependencies := RawDict(["x", "a"], map["x" := [], "a" := ["a"]]);
    var lasso := ["a", "a"];
    assert Successors(looped, "a") == ["a"];
    assert lasso[..1] == ["a"];
    assert IsLasso(looped, lasso);
  }

  function OneTask(): Dict<TaskInfo> {
    RawDict(["a"], map["a" := NewTask("a", None, Todo, 0.0)])
  }

  /** Tasks for `alice`: 20 and `second` hours to do, plus 30 hours already
      done, which do not count. */
  function AliceTasks(second: real): Dict<TaskInfo> {
    RawDict(["t1", "t2", "t3"],
            map["t1" := NewTask("t1", Some("alice"), Todo, 20.0),
                "t2" := NewTask("t2", Some("alice"), Doing, second),
                "t3" := NewTask("t3", Some("alice"), Done, 30.0)])
  }

  function Team(): Dict<UserProfile> {
    RawDict(["alice"], map["alice" := UserProfile("Alice", "alice@example.com", "dev", [], map[], "t")])
  }

  /** The open hours of `alice` add up to `20 + second`. */
  lemma AliceWorkload(second: real)
    ensures Workload(ValuesInOrder(AliceTasks(second))) == RawDict(["alice"], map["alice" := 20.0 + second])
  {
    var t1, t2, t3 := NewTask("t1", Some("alice"), Todo, 20.0), NewTask("t2", Some("alice"), Doing, second),
                      NewTask("t3", Some("alice"), Done, 30.0);
    assert ValuesInOrder(AliceTasks(second)) == [t1, t2, t3];
    WorkloadOfTwo(t1, t2);
    assert Hours(t1) + Hours(t2) == 20.0 + second;
    assert Workload([t1, t2, t3]) == Workload([t1, t2]) by {
      assert [t1, t2, t3][..2] == [t1, t2];
      assert !Counted(t3);
    }
  }

  /** Two counted tasks for the same member: one entry with both tasks'
      hours. */
  lemma WorkloadOfTwo(t1: TaskInfo, t2: TaskInfo)
    requires Counted(t1) && Counted(t2) && t1.assignee == t2.assignee
    ensures Workload([t1, t2]) == RawDict([t1.assignee.value], map[t1.assignee.value := Hours(t1) + Hours(t2)])
  {
    var m := t1.assignee.value;
    var w1: Dict<real> := RawDict([m], map[m := Hours(t1)]);
    assert Workload([t1, t2]) == Tally(w1, t2) by {
      assert [t1, t2][..1] == [t1];
      WorkloadOfOne(t1);
    }
    TallyOntoOne(m, Hours(t1), t2);
  }

  lemma WorkloadOfOne(t: TaskInfo)
    requires Counted(t)
    ensures Workload([t]) == RawDict([t.assignee.value], map[t.assignee.value := Hours(t)])
  {
    assert [t][..0] == [];
    TallyOntoOne(t.assignee.value, 0.0, t);
  }

  /** A task for the only member of a workload adds to that member's
      entry. */
  lemma TallyOntoOne(m: string, hours: real, t: TaskInfo)
    requires Counted(t) && t.assignee.value == m
    ensures Tally(RawDict([], map[]), t) == RawDict([m], map[m := 0.0 + Hours(t)])
    ensures Tally(RawDict([m], map[m := hours]), t) == RawDict([m], map[m := hours + Hours(t)])
  {
  }

  /** Every task of `alice` is assigned within the team. */
  lemma AliceIsOnTheTeam(second: real)
    ensures FirstUnknownAssignee(AliceTasks(second), Team(), AliceTasks(second).order) == None
  {
    assert "alice" in Team().values;
  }

  /** 45 open hours are over the cap; 40 are not; finished work is not
      counted. */
  lemma WorkloadCap()
    ensures ResourceViolation(AliceTasks(25.0), Team()) == Some(OverAllocated("alice", 45.0))
    ensures ResourceViolation(AliceTasks(20.0), Team()) == None
  {
    AliceWorkload(25.0);
    AliceWorkload(20.0);
    AliceIsOnTheTeam(25.0);
    AliceIsOnTheTeam(20.0);
  }

  /** A task assigned outside the team is reported before any workload. */
  lemma UnknownAssigneeIsReported()
    ensures ResourceViolation(RawDict(["t1"], map["t1" := NewTask("t1", Some("bob"), Todo, 50.0)]), Team())
      == Some(UnknownAssignee("t1", "bob"))
  {
    assert "bob" !in Team().values;
  }
}
