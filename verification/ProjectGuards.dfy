/**
 Who looks at the lifecycle of a project before a Run is started in it. Creation, restart and send do; the in-memory
 terminal start does not, the database store puts a guard before it. What follows says what that guard is worth: with it
 no Run is ever started in a project that is being deleted.
 */
module ProjectGuards {
  import opened Basics
  import opened Receipts
  import opened SandboxModel
  import opened SandboxRuns
  import opened SandboxTheorems
  import opened SandboxCapacity
  import opened SandboxExamples
  import opened ProjectTables

  predicate IsDeleting(s: State, p: Id) {
    p in s.projects && s.projects[p].lifecycle.ProjectDeleting?
  }

  /** A project in deletion holds no sandbox. */
  ghost predicate DeletionIsIdle(s: State) {
    forall p :: IsDeleting(s, p) ==> Unreleased(s.runs, p) == {}
  }

  /* ---------- creation, restart and send look ---------- */

  lemma CreateNeedsActive(s: State, i: CreateInput)
    requires i.run.Some? && !ProjectIsActive(s, i.run.value.scope.project)
    ensures CreateTaskStep(s, i).0.runs == s.runs
  {
    hide TaskAdded, Admit;
  }

  lemma RestartNeedsActive(s: State, task: Id, r: Restart, admission: Admission, receipt: Claiming<Id>)
    requires !ProjectIsActive(s, r.run.scope.project)
    ensures RestartStep(s, task, r, admission, receipt).0.runs == s.runs
    ensures Claim(s.receipts, receipt).1 == Claimed(OnTask(task)) ==>
              RestartStep(s, task, r, admission, receipt) == (s.(receipts := Claim(s.receipts, receipt).0), Refused)
  {
    hide Admit, CurrentRunIsOver;
  }

  lemma SendClaimedNeedsActive(before: State, s: State, i: SendInput, message: Id)
    requires before.runs == s.runs && i.restart.Some? && !ProjectIsActive(s, i.restart.value.run.scope.project)
    ensures SendClaimed(before, s, i, message).0.runs == s.runs
  {
    hide Admit, CurrentRunIsOver;
  }

  lemma SendNeedsActive(s: State, i: SendInput)
    requires i.restart.Some? && !ProjectIsActive(s, i.restart.value.run.scope.project)
    ensures SendStep(s, i).0.runs == s.runs
  {
    hide SendClaimed;
    var (receipts, claimed) := ClaimToSend(s.receipts, i.receipt);
    if claimed.Claimed? { SendClaimedNeedsActive(s, s.(receipts := receipts), i, claimed.resource.id); }
  }

  /** Every admission but the terminal start inserts a Run only into an active project. */
  lemma AdmissionLooks(s: State, e: Event)
    requires IsAdmission(e) && !e.TerminalStart? && Candidate(e).Some? && Step(s, e).0.runs != s.runs
    ensures ProjectIsActive(s, Candidate(e).value.1.scope.project)
  {
    hide CreateTaskStep, RestartStep, SendStep;
    if !ProjectIsActive(s, Candidate(e).value.1.scope.project) {
      match e
      case CreateTask(i) => CreateNeedsActive(s, i);
      case RestartTask(task, r, admission, receipt) => RestartNeedsActive(s, task, r, admission, receipt);
      case SendMessage(i) => SendNeedsActive(s, i);
    }
  }

  /* ---------- projects in deletion ---------- */

  lemma BeginDeletionIsIdle(s: State, id: Id, live: bool, p: Id)
    requires IsDeleting(BeginProjectDeletionStep(s, id, live).0, p)
    ensures IsDeleting(s, p) || Unreleased(s.runs, p) == {}
  {
    hide Unreleased;
  }

  lemma LifecycleOpensNoDeletion(s: State, id: Id, archived: bool, p: Id)
    requires IsDeleting(SetLifecycleStep(s, id, archived).0, p)
    ensures IsDeleting(s, p)
  {
  }

  lemma FinalizeOpensNoDeletion(s: State, id: Id, live: bool, completion: Option<Completion>, p: Id)
    requires IsDeleting(FinalizeProjectStep(s, id, live, completion).0, p)
    ensures IsDeleting(s, p)
  {
    hide Unreleased, InProject, Holds;
  }

  /** A deletion begins only while the project has no sandbox. */
  lemma DeletionBeginsIdle(s: State, e: Event, p: Id)
    requires IsDeleting(Step(s, e).0, p)
    ensures IsDeleting(s, p) || Unreleased(s.runs, p) == {}
  {
    hide Step, IsProjectEvent, Unreleased;
    if !IsProjectEvent(e) { TablesStay(s, e); } else { ProjectEventBeginsIdle(s, e, p); }
  }

  lemma CreationOpensNoDeletion(s: State, id: Id, workspace: Id, limit: Option<nat>, p: Id)
    requires IsDeleting(CreateProjectStep(s, id, workspace, limit).0, p)
    ensures IsDeleting(s, p)
  {
  }

  lemma LimitOpensNoDeletion(s: State, id: Id, limit: Option<nat>, p: Id)
    requires IsDeleting(SetLimitStep(s, id, limit).0, p)
    ensures IsDeleting(s, p)
  {
  }

  lemma ProjectEventBeginsIdle(s: State, e: Event, p: Id)
    requires IsProjectEvent(e) && IsDeleting(Step(s, e).0, p)
    ensures IsDeleting(s, p) || Unreleased(s.runs, p) == {}
  {
    hide IsDeleting, Unreleased, CreateProjectStep, SetLimitStep, SetLifecycleStep, BeginProjectDeletionStep, FinalizeProjectStep;
    match e
    case CreateProject(project, workspace, limit) => CreationOpensNoDeletion(s, project, workspace, limit, p);
    case SetLimit(project, limit) => LimitOpensNoDeletion(s, project, limit, p);
    case SetLifecycle(project, archived) => LifecycleOpensNoDeletion(s, project, archived, p);
    case BeginProjectDeletion(project, live) => BeginDeletionIsIdle(s, project, live, p);
    case FinalizeProject(project, live, completion) => FinalizeOpensNoDeletion(s, project, live, completion, p);
  }

  lemma TablesStay(s: State, e: Event)
    requires !IsProjectEvent(e)
    ensures Step(s, e).0.projects == s.projects
  {
    hide Step;
    OthersKeepTables(s, e);
  }

  /** The terminal start puts its Run into a project that is being deleted. */
  predicate WakesDeletion(s: State, e: Event) {
    e.TerminalStart? && Step(s, e).0.runs != s.runs && Candidate(e).Some? && IsDeleting(s, Candidate(e).value.1.scope.project)
  }

  lemma AdmissionIsIdleIff(s: State, e: Event)
    requires Inv(s) && WellFormed(s, e) && DeletionIsIdle(s) && IsAdmission(e)
    ensures DeletionIsIdle(Step(s, e).0) <==> !WakesDeletion(s, e)
  {
    hide Step, Inv;
    var s' := Step(s, e).0;
    TablesStay(s, e);
    AdmissionInserts(s, e);
    if s'.runs != s.runs {
      var (admission, r) := Candidate(e).value;
      CandidateIsStarting(s, e);
      if !e.TerminalStart? { AdmissionLooks(s, e); }
      InsertionAdds(s, admission, r);
      assert IsDeleting(s', r.scope.project) == IsDeleting(s, r.scope.project);
    }
  }

  lemma CandidateIsStarting(s: State, e: Event)
    requires WellFormed(s, e) && Candidate(e).Some?
    ensures Candidate(e).value.1.phase.Starting?
  {
  }

  lemma InsertionAdds(s: State, admission: Admission, r: Run)
    requires Admit(s, admission, r).Inserted? && r.phase.Starting?
    ensures r.id in Unreleased(Admit(s, admission, r).runs, r.scope.project)
    ensures forall p :: p != r.scope.project ==> Unreleased(Admit(s, admission, r).runs, p) == Unreleased(s.runs, p)
  {
    forall p | p != r.scope.project ensures Unreleased(Admit(s, admission, r).runs, p) == Unreleased(s.runs, p) {}
  }

  lemma OtherStepIsIdle(s: State, e: Event)
    requires Inv(s) && DeletionIsIdle(s) && !IsAdmission(e)
    ensures DeletionIsIdle(Step(s, e).0)
  {
    hide Step, Inv, IsAdmission, Unreleased;
    forall p | IsDeleting(Step(s, e).0, p) ensures Unreleased(Step(s, e).0.runs, p) == {} {
      DeletionBeginsIdle(s, e, p);
      OthersAddNoRun(s, e, p);
    }
  }

  /** One step brings a sandbox into a project in deletion exactly if it is a terminal start that wakes it. */
  lemma StepIsIdleIff(s: State, e: Event)
    requires Inv(s) && WellFormed(s, e) && DeletionIsIdle(s)
    ensures DeletionIsIdle(Step(s, e).0) <==> !WakesDeletion(s, e)
  {
    hide Step, Inv, WellFormed, DeletionIsIdle;
    if IsAdmission(e) { AdmissionIsIdleIff(s, e); } else { OtherStepIsIdle(s, e); }
  }

  /** Every terminal start that brings a Run finds its project out of deletion. */
  ghost predicate StartsLook(s: State, es: seq<Event>)
    decreases |es|
  {
    es == [] || ((es[0].TerminalStart? && es[0].terminal.restart.Some? ==> !IsDeleting(s, es[0].terminal.restart.value.run.scope.project))
                 && StartsLook(Step(s, es[0]).0, es[1..]))
  }

  /** Then no project in deletion holds a sandbox, over any run. */
  lemma {:induction false} DeletionStaysIdle(s: State, es: seq<Event>)
    requires Inv(s) && DeletionIsIdle(s) && RunsFrom(s, es) && StartsLook(s, es)
    ensures DeletionIsIdle(After(s, es))
    decreases |es|
  {
    hide Step, Inv, WellFormed, DeletionIsIdle, IsDeleting;
    if es != [] {
      StepKeeps(s, es[0]);
      StepIsIdleIff(s, es[0]);
      DeletionStaysIdle(Step(s, es[0]).0, es[1..]);
    }
  }

  /* ---------- the guard of the database store ---------- */

  predicate ProjectIsAvailable(s: State, p: Id) {
    ProjectIsActive(s, p) && p in s.policies && p in s.usage
  }

  /** The project the guard looks at: that of the Run to start, or of the Run the receipt is about. */
  function GuardedProject(s: State, i: TerminalInput, resource: Resource): Option<Id> {
    if i.restart.Some? then Some(i.restart.value.run.scope.project)
    else
      var run := ResourceRun(s.runs, resource);
      if run.Some? then Some(run.value.scope.project) else None
  }

  predicate GuardRefuses(s: State, i: TerminalInput, resource: Resource) {
    GuardedProject(s, i, resource).Some? && !ProjectIsAvailable(s, GuardedProject(s, i, resource).value)
  }

  /** The terminal start with the guard in its place: a claim it refuses is answered with a conflict. */
  function GuardedStartStep(s: State, i: TerminalInput): (State, Outcome) {
    var (receipts, claimed) := Claim(s.receipts, i.receipt);
    match claimed
    case HashMismatch => (s, Mismatch)
    case Replay(reply) => (s, Replayed(reply))
    case InProgress(resource) =>
      if GuardRefuses(s, i, resource) then TerminalReply(s, i.receipt.key, StartConflict) else TerminalClaimed(s, s, i, resource, false)
    case Claimed(resource) =>
      var c := s.(receipts := receipts);
      if GuardRefuses(s, i, resource) then TerminalReply(c, i.receipt.key, StartConflict) else TerminalClaimed(s, c, i, resource, true)
  }

  /** The guard makes no difference exactly if it lets the start pass, the claim is refused, or the answer is a conflict anyway. */
  lemma GuardMattersIff(s: State, i: TerminalInput)
    ensures
      var claimed := Claim(s.receipts, i.receipt).1;
      GuardedStartStep(s, i) == TerminalStartStep(s, i)
      <==> claimed.HashMismatch? || claimed.Replay?
           || !GuardRefuses(s, i, if claimed.Claimed? then claimed.resource else claimed.owner)
           || TerminalStartStep(s, i).1 == Replayed(StartConflict)
  {
    hide TerminalClaimed, GuardRefuses;
    var (receipts, claimed) := Claim(s.receipts, i.receipt);
    match claimed
    case HashMismatch =>
    case Replay(_) =>
    case InProgress(resource) => TerminalOutcomes(s, s, i, resource, false);
    case Claimed(resource) => TerminalOutcomes(s, s.(receipts := receipts), i, resource, true);
  }

  lemma GuardedStartKeeps(s: State, i: TerminalInput)
    requires Inv(s) && WellFormed(s, Event.TerminalStart(i))
    ensures Inv(GuardedStartStep(s, i).0)
  {
    hide Inv, TerminalClaimed, GuardRefuses, Completed, Claim;
    var (receipts, claimed) := Claim(s.receipts, i.receipt);
    ClaimTouchesOne(s.receipts, i.receipt);
    match claimed
    case HashMismatch =>
    case Replay(_) =>
    case InProgress(resource) =>
      TerminalReplyKeeps(s, s, i.receipt.key, StartConflict);
      TerminalClaimedKeeps(s, s, i, resource, false);
    case Claimed(resource) =>
      TerminalReplyKeeps(s, s.(receipts := receipts), i.receipt.key, StartConflict);
      TerminalClaimedKeeps(s, s.(receipts := receipts), i, resource, true);
  }

  lemma ClaimTouchesOne(receipts: Ledger, c: Claiming<Id>)
    ensures var (after, r) := Claim(receipts, c);
            c.key in after && (r.InProgress? ==> after == receipts && receipts[c.key].resource == r.owner)
            && (r.Claimed? ==> after[c.key].resource == r.resource)
            && forall k :: k in after && k != c.key ==> k in receipts && after[k] == receipts[k]
  {
  }

  lemma GuardedStartIsIdle(s: State, i: TerminalInput)
    requires Inv(s) && WellFormed(s, Event.TerminalStart(i)) && DeletionIsIdle(s)
    ensures DeletionIsIdle(GuardedStartStep(s, i).0)
  {
    hide Inv, WellFormed, DeletionIsIdle, GuardedStartStep, TerminalStartStep, IsDeleting;
    var e := Event.TerminalStart(i);
    StepIsIdleIff(s, e);
    GuardStopsOrPasses(s, i);
    if WakesDeletion(s, e) { GuardStops(s, i); }
    if QuietOn(s, GuardedStartStep(s, i).0) { QuietIsIdle(s, GuardedStartStep(s, i).0); }
  }

  predicate QuietOn(s: State, s': State) {
    s'.runs == s.runs && s'.projects == s.projects
  }

  lemma QuietIsIdle(s: State, s': State)
    requires DeletionIsIdle(s) && QuietOn(s, s')
    ensures DeletionIsIdle(s')
  {
    assert forall p :: IsDeleting(s', p) ==> IsDeleting(s, p);
  }

  lemma GuardStopsOrPasses(s: State, i: TerminalInput)
    ensures GuardedStartStep(s, i) == TerminalStartStep(s, i) || QuietOn(s, GuardedStartStep(s, i).0)
  {
    hide TerminalClaimed, GuardRefuses, Claim, Completed;
    ClaimTouchesOne(s.receipts, i.receipt);
  }

  /** A start that brings its Run into a project in deletion never passes. */
  lemma GuardStops(s: State, i: TerminalInput)
    requires i.restart.Some? && IsDeleting(s, i.restart.value.run.scope.project)
    ensures QuietOn(s, GuardedStartStep(s, i).0)
  {
    hide TerminalClaimed, Claim, Completed;
    ClaimTouchesOne(s.receipts, i.receipt);
  }

  /** The model with the guard in the terminal start. */
  function GuardedStep(s: State, e: Event): (State, Outcome) {
    if e.TerminalStart? then GuardedStartStep(s, e.terminal) else Step(s, e)
  }

  ghost predicate GuardedRun(s: State, es: seq<Event>)
    decreases |es|
  {
    es == [] || (WellFormed(s, es[0]) && GuardedRun(GuardedStep(s, es[0]).0, es[1..]))
  }

  function AfterGuarded(s: State, es: seq<Event>): State
    decreases |es|
  {
    if es == [] then s else AfterGuarded(GuardedStep(s, es[0]).0, es[1..])
  }

  /** With the guard, no run whatever brings a sandbox into a project in deletion; and every invariant holds as without it. */
  lemma {:induction false} GuardKeepsDeletionIdle(s: State, es: seq<Event>)
    requires Inv(s) && DeletionIsIdle(s) && GuardedRun(s, es)
    ensures Inv(AfterGuarded(s, es)) && DeletionIsIdle(AfterGuarded(s, es))
    decreases |es|
  {
    hide Step, Inv, WellFormed, DeletionIsIdle, GuardedStartStep;
    if es != [] {
      var e := es[0];
      if e.TerminalStart? {
        GuardedStartKeeps(s, e.terminal);
        GuardedStartIsIdle(s, e.terminal);
      } else {
        StepKeeps(s, e);
        StepIsIdleIff(s, e);
      }
      GuardKeepsDeletionIdle(GuardedStep(s, e).0, es[1..]);
    }
  }

  /** Restart with the guard in front of the claim, as in the database store. */
  function GuardedRestartStep(s: State, task: Id, r: Restart, admission: Admission, receipt: Claiming<Id>): (State, Outcome) {
    if !ProjectIsAvailable(s, r.run.scope.project) then (s, Refused) else RestartStep(s, task, r, admission, receipt)
  }

  /** Behind the claim the same guard leaves the claim in the receipts: the order shows unless the claim changes nothing. */
  lemma RestartOrderMattersIff(s: State, task: Id, r: Restart, admission: Admission, receipt: Claiming<Id>)
    requires RecordsAreComplete(s)
    ensures GuardedRestartStep(s, task, r, admission, receipt) == RestartStep(s, task, r, admission, receipt)
       <==> ProjectIsActive(s, r.run.scope.project) || Claim(s.receipts, receipt) == (s.receipts, Claimed(OnTask(task)))
  {
    hide Admit, CurrentRunIsOver;
    if !ProjectIsActive(s, r.run.scope.project) {
      RestartNeedsActive(s, task, r, admission, receipt);
      var receipts := Claim(s.receipts, receipt).0;
      assert s.(receipts := receipts) == s <==> receipts == s.receipts;
    }
  }

  /* ---------- without the guard ---------- */

  const IDLE: Task := Task(SCOPE, 0, None, false, false)

  const WITH_TASK: State := PROJECT.(tasks := map[0 := IDLE])

  const DELETING: State := WITH_TASK.(projects := map[0 := Project(0, ProjectDeleting)])

  const START: TerminalInput :=
    TerminalInput(0, Claiming(Key(0, 0, Operation.TerminalStart, 1), 0, OnRun(0), 0, 0, 1),
                  Some(Restart(None, SCOPE, 0, Some(0), STARTED)), 0, Some(Admission(0, 1)))

  lemma ProjectIsDeleting()
    ensures Reachable(DELETING)
  {
    hide Reachable;
    ProjectIsCreated();
    var create := CreateInput(IDLE, None, Admission(0, 1), None, Bindable, None);
    assert CreateTaskStep(PROJECT, create).0 == WITH_TASK;
    ReachableGoesOn(PROJECT, Event.CreateTask(create));
    assert Unreleased(WITH_TASK.runs, 0) == {};
    ReachableGoesOn(WITH_TASK, Event.BeginProjectDeletion(0, false));
    assert BeginProjectDeletionStep(WITH_TASK, 0, false).0 == DELETING;
  }

  lemma StartInserts()
    ensures 0 in TerminalStartStep(DELETING, START).0.runs
  {
    var s := DELETING.(receipts := Claim(DELETING.receipts, START.receipt).0);
    assert Unreleased(s.runs, 0) == {} && UnreleasedInNamespace(s.runs, 0) == {};
    assert Admit(s, Admission(0, 1), STARTED.(readyAt := Some(0))).Inserted?;
    assert !OtherOwner(s.receipts, START.receipt.key, OnRun(0), None);
    assert TerminalClaimed(DELETING, s, START, OnRun(0), true).1.Applied?;
  }

  /** A project in deletion that a terminal start gives a sandbox: a state the in-memory store reaches. */
  lemma StartCanWakeDeletion() returns (s: State, e: Event)
    ensures Reachable(s) && DeletionIsIdle(s) && WellFormed(s, e) && WakesDeletion(s, e)
    ensures !DeletionIsIdle(Step(s, e).0)
    ensures GuardedStep(s, e).1 == Replayed(StartConflict) && GuardedStep(s, e).0.runs == s.runs
  {
    hide Reachable, TerminalStartStep;
    ProjectIsDeleting();
    StartInserts();
    s, e := DELETING, Event.TerminalStart(START);
    assert Unreleased(s.runs, 0) == {};
    ReachableStatesKeep(s);
    StepIsIdleIff(s, e);
  }
}
