# Workflow state layer of the agent-orchestration bootcamp

This project models the workflow-state layer of the bootcamp's
human-in-the-loop agents and proves properties of it in Dafny:

- **Entity records and reducers** (`schemas.dfy`, module `Schemas`): the
  user profile, task, document and workflow-metadata records, the four merge
  functions the graph framework applies when two updates touch the same
  field (`merge_user_profile`, `update_tasks_dict`,
  `append_to_processing_log`, `merge_workflow_metadata`), and the three
  initial-state factories.
- **Validators** (`validators.dfy`, module `Validators`, with the
  depth-first cycle search in `dependency_graph.dfy`, module
  `DependencyGraph`): the document-processing, project-management and
  onboarding rule sets, the collect-all `WorkflowValidator.validate` loop
  and `validate_state_transition`. A validator may be given a state of
  another kind: `ViewOf` reads each field that kind lacks as the default its
  `state.get` call supplies. `validation_examples.dfy` states what the
  validators report on concrete states: the document self-tests of the
  validation tool, the factories' states, a three-task cycle and chain, and
  the 40-hour cap.
- **Approval bookkeeping** (`approvals.dfy`, module `Approvals`):
  `create_initial_state`, `add_pending_action`, `record_approval_decision`
  and `assess_risk_level`, with runs of requests and decisions.
- **Approval tools** (`approval_tools.dfy`, module `ApprovalTools`): the
  request each of the four tools shows and the update it returns once the
  human has answered.
- **Upload check** (`workflow_agent.dfy`, module `WorkflowAgent`):
  `validate_document_upload`.

`wrappers.dfy`, `strings.dfy` and `collections.dfy` hold the helpers the
model needs: `Option`/`Result`, `str.endswith`, substring search and
`str.lower`, `list(set(...))`, and an insertion-ordered dict (`Dict`) used
wherever the code iterates over a dict and the order shows in the result
(tasks, dependencies, team members, milestones, the workload tally).

Wall-clock reads (`datetime.now()`) are parameters (`now`, `stamp`,
`timestamp`). The ISO date parser used by the timeline rule is a parameter
`dateParses`. The human's answer to an approval request is an input
(`HumanResponse`); message texts are modelled as datatypes of outcomes.

Behaviours of the code worth knowing:

- `add_pending_action` does not refuse a second pending action; it replaces
  the first (`Approvals.SecondRequestReplacesFirst`).
- `merge_workflow_metadata` adds up error and retry counts, so merging the
  same update twice differs from merging it once unless both counts are
  zero (`Schemas.MergeWorkflowMetadataIdempotentIff`). The completed-step
  count is the only counter that takes a maximum.
- Resolving a decision sets the status to `active` or `blocked`, but the
  email tool writes `completed` on approval
  (`ApprovalTools.ToolRecordMatchesDecisionRecord`).
- `ApprovalState.approval_history` has no reducer. Under the framework's
  default rule, a key in an update replaces the field, so the one-entry
  history a tool returns would replace the history rather than extend it.
  `Approvals.ApplyUpdate` applies that rule to the updates of
  `utils/state.py`, which return the whole extended history. Tool updates
  are modelled as returned and are not applied.

## Model

| member | source | states |
|---|---|---|
| Collections.Dedup | state/schemas.py:121 | `list(set(...))` holds every element of its input exactly once, and nothing else |
| Strings.Lower | tools/approval_tools.py:189 | lower-casing keeps the length, leaves no upper-case ASCII letter, moves each upper-case letter to the letter 32 code points later, and keeps every other character |
| Schemas.MergeUserProfile | state/schemas.py:106-125 | absence on either side gives the other side; otherwise non-empty name, email and role win, creation time is the existing one, permissions are the duplicate-free union, preferences are united with incoming keys winning |
| Schemas.MergeUserProfileIdempotent | state/schemas.py:106-125 | merging the same profile update twice equals merging it once, up to the order of the permission list |
| Schemas.MergeTask | state/schemas.py:143-159 | a task on both sides keeps its creation time, gets the merge time, takes the new title, description, assignee, estimated and actual hours and due date when they are non-empty or non-zero and the old ones otherwise, unites dependencies, merges metadata with new keys winning, and replaces status unless the new one is TODO and priority unless the new one is LOW |
| Schemas.UpdateTasksDict | state/schemas.py:127-164 | the copy-and-fold loop returns exactly the merged task map `TasksMerged` |
| Schemas.TasksMergedKeys | state/schemas.py:137-164 | the merged map holds exactly the ids of both sides, the existing ids first and in order |
| Schemas.TasksMergedRecords | state/schemas.py:140-162 | an id on one side keeps that side's record; an id on both keeps its creation time, gets the merge time and unites the dependencies |
| Schemas.TasksMergedEmptySide | state/schemas.py:132-135 | an empty side gives back the other side |
| Schemas.AppendToProcessingLog | state/schemas.py:166-178 | empty input changes nothing; otherwise the old log is a prefix, the length grows by the number of entries, and each entry is appended in order under one timestamp |
| Schemas.AppendLogBatches | state/schemas.py:166-178 | appending two batches under one timestamp equals appending their concatenation |
| Schemas.MergeWorkflowMetadata | state/schemas.py:180-201 | absence on either side gives the other side; id, type and start time stay, completed steps take the maximum, error and retry counts are added, a non-empty step, total or timeout wins |
| Schemas.MergeWorkflowMetadataIdempotentIff | state/schemas.py:197-199 | merging the same update twice equals merging it once exactly when it carries no errors and no retries |
| Schemas.MergeAllMetadataMonotone | state/schemas.py:180-201 | across any sequence of merges the id and start time never change, completed steps never decrease and reach every update's count, and the error count is the sum of all counts |
| Schemas.CreateDocumentProcessingState | state/schemas.py:302-325 | a new document workflow is pending at `awaiting_upload`, with 0 of 5 steps, no document and no errors |
| Schemas.CreateProjectManagementState | state/schemas.py:327-354 | a new project has only the manager on its team, no tasks, dependencies or milestones, and 0 of 6 steps |
| Schemas.CreateOnboardingState | state/schemas.py:356-381 | a new onboarding starts at `welcome` with nothing completed, every verification flag false, and 0 of 8 steps |
| DependencyGraph.CycleSearch.HasCycle | state/validators.py:144-156 | a reported cycle is reachable from the task the search started at; when none is reported the task is finished, and finished tasks reach no cycle |
| DependencyGraph.CycleSearch.SearchFrom | state/validators.py:159-162 | one round of the outer loop, searching with a fresh stack from a task not yet visited, reports a cycle exactly when one is reachable from that task; an already visited task reports none |
| DependencyGraph.FindCyclicTask | state/validators.py:158-162 | the searches started from each unvisited task, in task order, report exactly the first task from which a circular dependency is reachable |
| DependencyGraph.FirstCyclicIsFirst | state/validators.py:158-162 | no task is reported exactly when no task reaches a cycle, and a reported task is the earliest that does |
| DependencyGraph.FinishedNoCycle | state/validators.py:144-156 | a task the search finished without a cycle reaches no circular dependency |
| DependencyGraph.RankedNoCycle | state/validators.py:144-156 | a task whose dependencies all sit lower in some ranking reaches no cycle |
| DependencyGraph.DanglingReference | state/validators.py:164-170 | no dangling reference is reported exactly when every dependency key and every dependency is a task; otherwise the reported key is the first, in dependency-map order, that is not a task or lists a non-task, and a reported dependency is the first non-task that key lists |
| DependencyGraph.DanglingIn | state/validators.py:164-170 | nothing is reported exactly when every key is a task listing only tasks; the reported reference is a key that is not a task, or a listed dependency that is not a task, and every key before it is a task listing only tasks, and the dependency is the first non-task of its list |
| DependencyGraph.FirstNotIn | state/validators.py:168-170 | a dependency outside the tasks is found exactly when there is one, and every dependency before it is a task |
| Validators.MetadataViolation | state/validators.py:67-77 | missing metadata is reported as missing; otherwise more completed steps than total is reported as such, and otherwise a negative error count; it passes exactly when none holds |
| Validators.SequenceViolation | state/validators.py:79-98 | fails exactly when the step is in the table and the status is not among its allowed statuses; unknown steps never fail |
| Validators.FileViolation | state/validators.py:100-112 | no document passes; otherwise fails above 50 MiB (exactly 50 MiB passes), then on an unsupported filename extension |
| Validators.StatusViolation | state/validators.py:114-125 | fails when failed without errors, or completed with fewer completed steps than total |
| Validators.TaskDependenciesRule | state/validators.py:138-170 | reports the first task reaching a circular dependency, and otherwise the first dangling reference |
| Validators.FirstUnknownAssignee | state/validators.py:177-180 | fails exactly when some task is assigned to someone not on the team; the reported task is one such, with its assignee, and every task before it in task order is not |
| Validators.AccumulateWorkload | state/validators.py:182-186 | the loop builds the tally `Workload` of the to-do and in-progress hours of each assignee |
| Validators.WorkloadIsHoursFor | state/validators.py:182-186 | a member has a tally entry exactly when some counted task is theirs, and the entry is the sum of those tasks' hours (no hours counting as 0) |
| Validators.FirstOverAllocated | state/validators.py:188-192 | fails exactly when some member is above 40 hours (exactly 40 passes); the reported member is above 40 with its hours, and every member before it in tally order is not |
| Validators.ResourceAllocationRule | state/validators.py:172-192 | reports an unknown assignee first, and otherwise an over-allocated member |
| Validators.ResourceViolationNone | state/validators.py:172-192 | the rule passes exactly when every assignee is on the team and nobody's counted hours exceed 40 |
| Validators.ReplaceZ | state/validators.py:200 | replacing leaves no `Z`, changes nothing in a text without one, and turns `Z` into `+00:00` |
| Validators.ReplaceZConcat | state/validators.py:200 | replacing a concatenation is concatenating the replacements, so with the single-character cases above the result is fixed on every text |
| Validators.TimelineViolation | state/validators.py:194-203 | fails exactly when some milestone's date does not parse after replacing `Z`; the reported milestone is one such, with its date, and every milestone before it in timeline order parses |
| Validators.TeamViolation | state/validators.py:205-211 | fails exactly when some team member lacks a name or an email; the reported member is one such, and every member before it has both |
| Validators.ProgressionViolation | state/validators.py:224-249 | fails exactly when the step is in the prerequisite table and a prerequisite is not completed; other steps are unconstrained |
| Validators.FirstMissing | state/validators.py:245-249 | a required step not completed is found exactly when there is one, and every required step before it is completed |
| Validators.RequiredInfoViolation | state/validators.py:251-258 | fails exactly when `collect_basic_info` is completed and the profile is missing or lacks a name or an email |
| Validators.VerificationViolation | state/validators.py:260-268 | fails exactly when `verify_email` is completed and the email is not verified |
| Validators.CompletenessViolation | state/validators.py:270-282 | other steps pass; at step `completed` an unverified email is reported as such, a verified email with a missing or unnamed profile reports the profile, and otherwise it passes |
| Validators.RunRule | state/validators.py:42-46 | running a rule yields exactly the violation the rule stands for |
| Validators.DiagnosticsCollectAll | state/validators.py:38-46 | every failing rule contributes one entry naming itself and its violation, and nothing else is reported |
| Validators.DiagnosticsEmpty | state/validators.py:38-52 | the error list is empty exactly when no rule fails |
| Validators.DiagnosticsOfFour | state/validators.py:42-46 | a four-rule validator reports its rules' entries in declared order |
| Validators.WorkflowValidator.constructor | state/validators.py:23-25 | a new validator holds its kind's rules |
| Validators.WorkflowValidator.SetupRules | state/validators.py:59-65 | each validator gets its own rules in declared order |
| Validators.WorkflowValidator.Validate | state/validators.py:31-54 | runs every rule in declared order, collects one entry per failing rule, and is valid exactly when nothing was collected |
| Validators.ValidateStateTransition | state/validators.py:288-312 | an unknown state type gives one error and not valid; a known type gets its validator's result |
| ValidationExamples.DocumentSelfTestPasses | state/validators.py:351-366 | the valid self-test state (2 of 5, processing, in progress) passes |
| ValidationExamples.DocumentSelfTestFails | state/validators.py:368-382 | the invalid self-test state (6 of 5, completed, pending) fails the metadata and sequence rules |
| ValidationExamples.NewDocumentStateIsValid | state/schemas.py:302-325 | a new document workflow passes its validator |
| ValidationExamples.NewOnboardingStateIsValid | state/schemas.py:356-381 | a new onboarding passes its validator |
| ValidationExamples.SkippedPrerequisiteIsReported | state/validators.py:224-249 | verifying the email before `collect_basic_info` is reported by the progression rule only |
| ValidationExamples.NewProjectStateValidity | state/schemas.py:327-354 | a new project passes its validator exactly when its manager has a name and an email |
| ValidationExamples.CycleIsReported | state/validators.py:138-162 | a three-task cycle is reported, naming the first task |
| ValidationExamples.ChainPasses | state/validators.py:138-170 | a three-task chain passes the dependency rule |
| ValidationExamples.CycleWinsOverDanglingReference | state/validators.py:158-170 | a dangling dependency key is reported when there is no cycle, and a cycle is reported in its place when there is one |
| ValidationExamples.WorkloadCap | state/validators.py:182-192 | 45 open hours are over the cap, 40 are not, and finished tasks do not count |
| ValidationExamples.UnknownAssigneeIsReported | state/validators.py:177-180 | a task assigned outside the team is reported before any workload |
| Approvals.ApplyUpdate | utils/state.py:13-33 | an update replaces exactly the fields it holds and leaves the others |
| Approvals.CreateInitialState | utils/state.py:35-53 | nothing pending, empty history, active, step `initial`, low risk |
| Approvals.InitialStateConsistent | utils/state.py:45-53 | a new state does not wait for approval and has nothing pending |
| Approvals.AddPendingAction | utils/state.py:55-70 | the action becomes pending, the status waiting for approval, the step `approval_required_` and the action type or `unknown`; the history is not touched |
| Approvals.RecordApprovalDecision | utils/state.py:72-104 | refuses exactly when nothing or an empty action is pending; otherwise appends one record of the pending action, decision, notes and approver, clears the pending action, and sets active or blocked |
| Approvals.RequestThenDecide | utils/state.py:55-104 | a request and then a decision append exactly one record of the requested action and leave nothing pending |
| Approvals.SecondRequestReplacesFirst | utils/state.py:66-70 | a second request is not refused; it replaces the first, and only the second is recorded |
| Approvals.DecideTwiceFails | utils/state.py:84-85 | a decision consumes its pending action, so a second decision is refused |
| Approvals.RunHistoryAppendOnly | utils/state.py:97 | across any run the history only grows at its end, by at most one record per decision, each of an action that was pending or requested, and the status waits for approval exactly when an action is pending |
| Approvals.AssessRiskLevel | utils/state.py:107-125 | high-risk kinds are high with an amount over 1000 or an external recipient and medium otherwise, medium-risk kinds are medium, everything else is low |
| Approvals.HighRiskNeedsFactor | utils/state.py:115-121 | a high level is given exactly to a high-risk kind with a risk factor |
| ApprovalTools.EmailRisk | tools/approval_tools.py:44 | an email is never low risk and is high risk exactly for an external recipient |
| ApprovalTools.EmailDecision | tools/approval_tools.py:58-102 | approval sends the email and completes the workflow, rejection blocks it; one history entry records the decision and notes |
| ApprovalTools.TransferRisk | tools/approval_tools.py:123 | high exactly above 1000, medium otherwise |
| ApprovalTools.TransferRiskMatchesAssessment | tools/approval_tools.py:123 | the transfer tool's risk equals the general assessment of a transfer of that amount |
| ApprovalTools.TransferRequest | tools/approval_tools.py:133-139 | the request warns exactly above 500 and shows the transfer's risk |
| ApprovalTools.HighRiskTransferWarns | tools/approval_tools.py:123-138 | every high-risk transfer carries the warning |
| ApprovalTools.TransferDecision | tools/approval_tools.py:143-167 | one history entry records the transfer, the decision and notes; the status is untouched |
| ApprovalTools.AnyOccurs | tools/approval_tools.py:189 | true exactly when some word occurs in the text |
| ApprovalTools.PublishRisk | tools/approval_tools.py:188-189 | high exactly when the lower-cased content mentions a risk indicator, medium otherwise |
| ApprovalTools.PublishRiskIgnoresCase | tools/approval_tools.py:189 | lower-casing the content first does not change the risk |
| ApprovalTools.PublishedContent | tools/approval_tools.py:213-214 | nothing is published on rejection; on approval the modifications if non-empty, else the original content |
| ApprovalTools.Excerpt | tools/approval_tools.py:215 | the excerpt is the first 50 characters |
| ApprovalTools.PublishDecision | tools/approval_tools.py:207-236 | one history entry records the content, the decision, notes and modifications; the status is untouched |
| ApprovalTools.GeneralDecision | tools/approval_tools.py:263-279 | only a tool message; no history entry and no status |
| ApprovalTools.Request | tools/approval_tools.py:48-53 | each tool shows its assessed risk, or the caller's declared risk for the general tool; only the transfer may warn |
| ApprovalTools.AssessedRiskNeverLow | tools/approval_tools.py:44-205 | no tool assesses an action as low risk |
| ApprovalTools.DecisionRecordsOnce | tools/approval_tools.py:58-279 | each tool but the general one records exactly one entry with its action, decision and notes; only the email tool sets a status |
| ApprovalTools.MissingAnswersDefault | tools/approval_tools.py:59-60 | an answer without `approved` is a rejection; missing notes or modifications are empty text |
| ApprovalTools.ToolRecordMatchesDecisionRecord | tools/approval_tools.py:62-102 | a tool's entry agrees with `record_approval_decision`'s record on action, decision and notes; both block on rejection, but on approval the email tool completes where the decision leaves the workflow active |
| WorkflowAgent.ValidateDocumentUpload | agents/workflow_agent.py:76-99 | an unsupported extension is reported whatever the size; a supported file above 50 MB is too large; anything else, exactly 50 MB included, is validated |
| WorkflowAgent.UploadAgreesWithFileRule | agents/workflow_agent.py:90-99 | the upload check accepts exactly what the file-constraints rule passes, and for a file with both problems it names the type where the rule names the size |
| WorkflowAgent.UploadExamples | agents/workflow_agent.py:90-99 | a 10 MB `.pdf` is validated, a 60 MB one is too large, a 60 MB `.exe` has an invalid type |

## Left out

- Conversation messages, the `add_messages` reducer, `interrupt()`, `Command` and `ToolMessage`: these belong to the graph framework. The human's answer is an input and a tool's update is a record.
- The language-model and search wiring of the agents, the interactive loops of the HITL agent and of the design lab, the document-processing workflow wrapper, `main.py` and the environment setup: these are framework calls and terminal I/O.
- `datetime.now()` and `datetime.fromisoformat`: the time is a parameter, and whether a date parses is the parameter `dateParses`.
- Message texts and the `f"{amount:,.2f}"` formatting: outcomes and violations are datatypes.
- Schemas.MergeUserProfile: permissions are deduplicated keeping first occurrences; Python's `list(set(...))` leaves the order unspecified, so only membership and the absence of duplicates are stated.
- Strings.Lower: only ASCII letters are lower-cased. Python's `str.lower` also lower-cases non-ASCII letters, which the model does not.
- Schemas.MergeTask: the merged dependency list has the same order caveat as permissions.
- Validators.AccumulateWorkload: hours are added as exact real numbers, while the source adds Python floats. Near the 40-hour cap a float sum can round above 40 where the exact sum is 40: in double precision 12.8 + 19.6 + 7.6 is 40.00000000000001. The model then passes a workload the source reports as over-allocated. IEEE double rounding is not modelled.
- Validators.WorkloadIsHoursFor: the tally and `HoursFor` are both exact sums, with the float caveat of Validators.AccumulateWorkload.
- Validators.FirstOverAllocated: compares the exact sum with 40, so a float sum that rounds just above 40 is not reported (see Validators.AccumulateWorkload).
- Validators.ResourceAllocationRule: its over-allocation half has the float caveat of Validators.AccumulateWorkload.
- Validators.ResourceViolationNone: the pass condition is stated over exact sums, with the float caveat of Validators.AccumulateWorkload.
- Validators.WorkflowValidator.Validate: the outer `except Exception` branch is not modelled. `has_cycle` recurses once per dependency edge, so a dependency chain longer than Python's recursion limit (about 1000 tasks) raises `RecursionError`. That error is not a rule violation: it leaves the rule loop, the source appends one "Validation error" entry and skips the remaining rules. The model's cycle search has no depth limit and always returns the rule's ordinary result.
- Approvals.ApprovalState: a `user_id` entry holding `None` is not told apart from a missing one. Both are `None` in the model, so the approver is `unknown` in both cases, whereas the source would record `None` in the first case.
- Approvals.Action: a `type` entry that is not a string is not modelled, so its formatting into the step name is not modelled either.
- Approvals.AssessRiskLevel: only a numeric `amount` and a string `recipient` are modelled. Comparing a non-number with 1000 raises `TypeError`, and `str()` of a non-string recipient is not modelled.
- ApprovalTools.HumanResponse: an `approved` value that is not a boolean is not modelled, so Python truthiness of arbitrary values is not covered.
- Applying a tool's update to the approval state is not modelled. It would need the framework's channel semantics, under which the one-entry history replaces the old one.
- The checkpoint store (`MemorySaver`, passed as the graphs' `checkpointer`) on which `interrupt()` and resuming rely belongs to the graph framework and is left out with it.
- A cancelled approval prompt reaches the tools as a rejection with a note, so the `HumanResponse` input already covers it; the prompt itself is terminal I/O.
- The code never refuses a second pending action: `add_pending_action` replaces the first (`Approvals.SecondRequestReplacesFirst`).
