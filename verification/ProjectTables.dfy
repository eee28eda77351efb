/** What the events do to the tables of projects: their lifecycle, their policies and their usage counters. */
module ProjectTables {
  import opened Basics
  import opened Receipts
  import opened SandboxModel
  import opened SandboxRuns

  predicate IsProjectEvent(e: Event) {
    e.CreateProject? || e.SetLimit? || e.SetLifecycle? || e.BeginProjectDeletion? || e.FinalizeProject?
  }

  datatype Tables = Tables(projects: map<Id, Project>, policies: map<Id, Option<nat>>, counted: set<Id>)

  function TablesOf(s: State): Tables {
    Tables(s.projects, s.policies, s.usage.Keys)
  }

  lemma UpdateKeepsTables(s: State, usage: map<Id, nat>, tasks: map<Id, Task>, runs: map<Id, Run>, messages: map<Id, Message>,
                          published: set<Id>, receipts: Ledger)
    requires usage.Keys == s.usage.Keys
    ensures TablesOf(State(s.projects, s.policies, usage, tasks, runs, messages, published, receipts, s.settlements)) == TablesOf(s)
  {
  }

  lemma AdmitKeepsTables(s: State, admission: Admission, r: Run)
    ensures Admit(s, admission, r).Inserted? ==> Admit(s, admission, r).usage.Keys == s.usage.Keys
  {
  }

  lemma CreateKeepsTables(s: State, i: CreateInput)
    ensures TablesOf(CreateTaskStep(s, i).0) == TablesOf(s)
  {
    hide CreateClaimed;
    CreateClaimedKeepsTables(s, s, i);
    if i.receipt.Some? { CreateClaimedKeepsTables(s, s.(receipts := Claim(s.receipts, i.receipt.value).0), i); }
  }

  lemma CreateClaimedKeepsTables(before: State, s: State, i: CreateInput)
    requires TablesOf(s) == TablesOf(before)
    ensures TablesOf(CreateClaimed(before, s, i).0) == TablesOf(before)
  {
    hide Admit, ProjectIsActive, TaskAdded, CapacityReply;
    TaskAddedKeepsTables(before, s, i);
    if i.run.Some? {
      AdmitKeepsTables(s, i.admission, i.run.value);
      match Admit(s, i.admission, i.run.value)
      case Broken =>
      case Full(reply) => CapacityReplyKeepsTables(before, s, i.receipt, reply);
      case Inserted(runs, usage) => TaskAddedKeepsTables(before, s.(runs := runs, usage := usage), i);
    }
  }

  lemma TaskAddedKeepsTables(before: State, s: State, i: CreateInput)
    requires TablesOf(s) == TablesOf(before)
    ensures TablesOf(TaskAdded(before, s, i).0) == TablesOf(before)
  {
    hide TablesOf;
    var added := s.(tasks := s.tasks[i.task.scope.task := i.task]);
    UpdateKeepsTables(s, s.usage, added.tasks, s.runs, s.messages, s.published, s.receipts);
    if i.message.Some? {
      var m := i.message.value;
      MessageAddedKeepsTables(added, m.id, i.task.scope.task, m.createdAt, m.published);
    }
  }

  lemma MessageAddedKeepsTables(s: State, id: Id, task: Id, createdAt: Time, publish: bool)
    ensures TablesOf(MessageAdded(s, id, task, createdAt, publish)) == TablesOf(s)
  {
    hide TablesOf;
    var s' := MessageAdded(s, id, task, createdAt, publish);
    UpdateKeepsTables(s, s.usage, s.tasks, s.runs, s'.messages, s'.published, s.receipts);
  }

  lemma CapacityReplyKeepsTables(before: State, s: State, receipt: Option<Claiming<Id>>, reply: Reply)
    requires TablesOf(s) == TablesOf(before)
    ensures TablesOf(CapacityReply(before, s, receipt, reply).0) == TablesOf(before)
  {
  }

  lemma RestartKeepsTables(s: State, task: Id, r: Restart, admission: Admission, receipt: Claiming<Id>)
    ensures TablesOf(RestartStep(s, task, r, admission, receipt).0) == TablesOf(s)
  {
    hide Admit, CurrentRunIsOver, RestartMatches, ProjectIsActive;
    AdmitKeepsTables(s.(receipts := Claim(s.receipts, receipt).0), admission, r.run);
  }

  lemma TerminalKeepsTables(s: State, i: TerminalInput)
    ensures TablesOf(TerminalStartStep(s, i).0) == TablesOf(s)
  {
    hide TerminalClaimed;
    var (receipts, claimed) := Claim(s.receipts, i.receipt);
    match claimed
    case HashMismatch =>
    case Replay(_) =>
    case InProgress(resource) => TerminalClaimedKeepsTables(s, s, i, resource, false);
    case Claimed(resource) => TerminalClaimedKeepsTables(s, s.(receipts := receipts), i, resource, true);
  }

  /** A terminal start that goes ahead leaves the store as it is, or starts the Run it brings. */
  lemma TerminalApplied(before: State, s: State, i: TerminalInput, resource: Resource, mine: bool)
    requires i.receipt.key in s.receipts && TerminalClaimed(before, s, i, resource, mine).1.Applied?
    ensures i.task in s.tasks
    ensures var s' := TerminalClaimed(before, s, i, resource, mine).0;
            s' == s ||
            (i.restart.Some? && i.admission.Some?
             && var ready := i.restart.value.run.(readyAt := Some(i.reservedAt));
                var a := Admit(s, i.admission.value, ready);
                a.Inserted? && s' == RunStarted(s.(runs := a.runs, usage := a.usage), i.task, ready.id))
  {
    hide Admit, OtherOwner, CurrentRunIsOver, RestartMatches, ResourceRun, ReplyForRun, Holds, Completed, RunStarted;
  }

  lemma RunStartedKeepsTables(s: State, runs: map<Id, Run>, usage: map<Id, nat>, task: Id, run: Id)
    requires task in s.tasks && usage.Keys == s.usage.Keys
    ensures TablesOf(RunStarted(s.(runs := runs, usage := usage), task, run)) == TablesOf(s)
  {
    hide TablesOf;
    var s' := RunStarted(s.(runs := runs, usage := usage), task, run);
    UpdateKeepsTables(s, usage, s'.tasks, runs, s.messages, s.published, s.receipts);
  }

  lemma TerminalClaimedKeepsTables(before: State, s: State, i: TerminalInput, resource: Resource, mine: bool)
    requires TablesOf(s) == TablesOf(before) && i.receipt.key in s.receipts
    ensures TablesOf(TerminalClaimed(before, s, i, resource, mine).0) == TablesOf(before)
  {
    hide TablesOf, TerminalClaimed, Admit, RunStarted;
    var (s', o) := TerminalClaimed(before, s, i, resource, mine);
    TerminalOutcomes(before, s, i, resource, mine);
    if o.Replayed? || o.Rejected? {
      UpdateKeepsTables(s, s.usage, s.tasks, s.runs, s.messages, s.published, s'.receipts);
    } else if o.Applied? {
      TerminalApplied(before, s, i, resource, mine);
      if i.restart.Some? && i.admission.Some? {
        var ready := i.restart.value.run.(readyAt := Some(i.reservedAt));
        AdmitKeepsTables(s, i.admission.value, ready);
        var a := Admit(s, i.admission.value, ready);
        if a.Inserted? { RunStartedKeepsTables(s, a.runs, a.usage, i.task, ready.id); }
      }
    }
  }

  lemma SendKeepsTables(s: State, i: SendInput)
    ensures TablesOf(SendStep(s, i).0) == TablesOf(s)
  {
    hide SendClaimed;
    var (receipts, claimed) := ClaimToSend(s.receipts, i.receipt);
    if claimed.Claimed? { SendClaimedKeepsTables(s, s.(receipts := receipts), i, claimed.resource.id); }
  }

  lemma SendClaimedKeepsTables(before: State, s: State, i: SendInput, message: Id)
    requires TablesOf(s) == TablesOf(before)
    ensures TablesOf(SendClaimed(before, s, i, message).0) == TablesOf(before)
  {
    hide TablesOf, Admit, RunStarted, CapacityReply, MessageSent, CurrentRunIsOver, RestartMatches, AcceptsMessages, ProjectIsActive;
    MessageSentKeepsTables(before, s, i, message);
    if i.restart.Some? && i.task in s.tasks {
      var ready := i.restart.value.run.(readyAt := Some(i.reservedAt));
      AdmitKeepsTables(s, i.admission, ready);
      match Admit(s, i.admission, ready)
      case Broken =>
      case Full(reply) => CapacityReplyKeepsTables(before, s, Some(i.receipt), reply);
      case Inserted(runs, usage) =>
        RunStartedKeepsTables(s, runs, usage, i.task, ready.id);
        MessageSentKeepsTables(before, RunStarted(s.(runs := runs, usage := usage), i.task, ready.id), i, message);
    }
  }

  lemma MessageSentKeepsTables(before: State, s: State, i: SendInput, message: Id)
    requires TablesOf(s) == TablesOf(before)
    ensures TablesOf(MessageSent(before, s, i, message).0) == TablesOf(before)
  {
    hide TablesOf, MessageAdded;
    MessageAddedKeepsTables(s, message, i.task, i.createdAt, true);
    var (s', added) := (MessageSent(before, s, i, message).0, MessageAdded(s, message, i.task, i.createdAt, true));
    UpdateKeepsTables(added, added.usage, added.tasks, added.runs, added.messages, added.published, s'.receipts);
  }

  lemma AdmissionKeepsTables(s: State, e: Event)
    requires IsAdmission(e)
    ensures TablesOf(Step(s, e).0) == TablesOf(s)
  {
    hide TablesOf, CreateTaskStep, RestartStep, TerminalStartStep, SendStep;
    match e
    case CreateTask(i) => CreateKeepsTables(s, i);
    case RestartTask(task, r, admission, receipt) => RestartKeepsTables(s, task, r, admission, receipt);
    case TerminalStart(i) => TerminalKeepsTables(s, i);
    case SendMessage(i) => SendKeepsTables(s, i);
  }

  lemma DeliveryKeepsTables(s: State, e: Event)
    requires IsDelivery(e)
    ensures TablesOf(Step(s, e).0) == TablesOf(s)
  {
  }

  lemma StartupKeepsTables(s: State, run: Id, task: Id, token: int, step: StartupStep)
    ensures TablesOf(StartupStepOn(s, run, task, token, step).0) == TablesOf(s)
  {
  }

  lemma ActivateKeepsTables(s: State, i: ActivateInput)
    ensures TablesOf(ActivateStep(s, i).0) == TablesOf(s)
  {
  }

  lemma FailRunKeepsTables(s: State, run: Id, token: int, claim: Option<Id>, at: Time)
    ensures TablesOf(FailRunStep(s, run, token, claim, at).0) == TablesOf(s)
  {
  }

  lemma FailStartupKeepsTables(s: State, i: FailStartupInput)
    ensures TablesOf(FailStartupStep(s, i).0) == TablesOf(s)
  {
  }

  lemma DrainKeepsTables(s: State, run: Id, task: Id, token: int, claim: Id, until: Time, at: Time)
    ensures TablesOf(DrainStep(s, run, task, token, claim, until, at).0) == TablesOf(s)
  {
  }

  lemma EarlyStepKeepsTables(s: State, e: Event)
    requires IsEarlyStep(e)
    ensures TablesOf(Step(s, e).0) == TablesOf(s)
  {
    hide TablesOf, StartupStepOn, ActivateStep, FailRunStep, FailStartupStep, DrainStep;
    match e
    case Startup(run, task, token, step) => StartupKeepsTables(s, run, task, token, step);
    case Activate(i) => ActivateKeepsTables(s, i);
    case FailRun(run, token, claim, at) => FailRunKeepsTables(s, run, token, claim, at);
    case FailStartup(i) => FailStartupKeepsTables(s, i);
    case Drain(run, task, token, claim, until, at) => DrainKeepsTables(s, run, task, token, claim, until, at);
  }

  lemma LateStepKeepsTables(s: State, e: Event)
    requires IsRunStep(e) && !IsEarlyStep(e)
    ensures TablesOf(Step(s, e).0) == TablesOf(s)
  {
    hide StartsAreAmbiguous, StartsClosed, OwnedFailed, ReleaseGuard, TaskOfRun, CleanupEligible, ReleaseRequestedRun, ReturnedRun, SameIdentity;
  }

  lemma HousekeepingKeepsTables(s: State, e: Event)
    requires !IsAdmission(e) && !IsDelivery(e) && !IsRunStep(e) && !IsProjectEvent(e)
    ensures TablesOf(Step(s, e).0) == TablesOf(s)
  {
    hide TaskSandboxReleased;
  }

  /** Only the events about projects change these tables; the others at most recount. */
  lemma OthersKeepTables(s: State, e: Event)
    requires !IsProjectEvent(e)
    ensures TablesOf(Step(s, e).0) == TablesOf(s)
  {
    hide Step, TablesOf;
    if IsAdmission(e) { AdmissionKeepsTables(s, e); }
    else if IsDelivery(e) { DeliveryKeepsTables(s, e); }
    else if IsEarlyStep(e) { EarlyStepKeepsTables(s, e); }
    else if IsRunStep(e) { LateStepKeepsTables(s, e); }
    else { HousekeepingKeepsTables(s, e); }
  }

  /** Every project has its policy and its counter, and nothing else has. */
  predicate RecordsAreComplete(s: State) {
    s.policies.Keys == s.projects.Keys && s.usage.Keys == s.projects.Keys
  }

  lemma CreateProjectKeepsRecords(s: State, id: Id, workspace: Id, limit: Option<nat>)
    requires RecordsAreComplete(s)
    ensures RecordsAreComplete(CreateProjectStep(s, id, workspace, limit).0)
  {
  }

  lemma SetLimitKeepsRecords(s: State, id: Id, limit: Option<nat>)
    requires RecordsAreComplete(s)
    ensures RecordsAreComplete(SetLimitStep(s, id, limit).0)
  {
  }

  lemma SetLifecycleKeepsRecords(s: State, id: Id, archived: bool)
    requires RecordsAreComplete(s)
    ensures RecordsAreComplete(SetLifecycleStep(s, id, archived).0)
  {
  }

  lemma BeginDeletionKeepsRecords(s: State, id: Id, live: bool)
    requires RecordsAreComplete(s)
    ensures RecordsAreComplete(BeginProjectDeletionStep(s, id, live).0)
  {
    hide Unreleased;
  }

  lemma FinalizeProjectKeepsRecords(s: State, id: Id, live: bool, completion: Option<Completion>)
    requires RecordsAreComplete(s)
    ensures RecordsAreComplete(FinalizeProjectStep(s, id, live, completion).0)
  {
    hide Unreleased, InProject, Holds;
  }

  lemma ProjectEventKeepsRecords(s: State, e: Event)
    requires RecordsAreComplete(s) && IsProjectEvent(e)
    ensures RecordsAreComplete(Step(s, e).0)
  {
    hide RecordsAreComplete, CreateProjectStep, SetLimitStep, SetLifecycleStep, BeginProjectDeletionStep, FinalizeProjectStep;
    match e
    case CreateProject(project, workspace, limit) => CreateProjectKeepsRecords(s, project, workspace, limit);
    case SetLimit(project, limit) => SetLimitKeepsRecords(s, project, limit);
    case SetLifecycle(project, archived) => SetLifecycleKeepsRecords(s, project, archived);
    case BeginProjectDeletion(project, live) => BeginDeletionKeepsRecords(s, project, live);
    case FinalizeProject(project, live, completion) => FinalizeProjectKeepsRecords(s, project, live, completion);
  }

  lemma StepKeepsRecords(s: State, e: Event)
    requires RecordsAreComplete(s)
    ensures RecordsAreComplete(Step(s, e).0)
  {
    hide Step;
    if IsProjectEvent(e) { ProjectEventKeepsRecords(s, e); } else { OthersKeepTables(s, e); }
  }

  /** In every state of every run. */
  lemma {:induction false} RunsKeepRecords(s: State, es: seq<Event>)
    requires RecordsAreComplete(s)
    ensures RecordsAreComplete(After(s, es))
    decreases |es|
  {
    hide Step, RecordsAreComplete;
    if es != [] {
      StepKeepsRecords(s, es[0]);
      RunsKeepRecords(Step(s, es[0]).0, es[1..]);
    }
  }
}
