/** Runs of the store: every event the services can send, and the invariants all of them keep. */
module SandboxRuns {
  import opened Basics
  import opened Receipts
  import opened SandboxModel

  datatype Event =
    | CreateTask(create: CreateInput)
    | RestartTask(task: Id, restart: Restart, admission: Admission, receipt: Claiming<Id>)
    | TerminalStart(terminal: TerminalInput)
    | SendMessage(send: SendInput)
    | QueueMessage(task: Id, message: Id, createdAt: Time)
    | DeleteMessage(task: Id, message: Id, receipt: Claiming<Id>, reply: Reply)
    | ClaimMessage(message: Id, task: Id, run: Id, token: int, claim: Id)
    | AcceptMessage(message: Id, task: Id, run: Id, claim: Id)
    | SettleOwner(message: Id, task: Id, run: Id, token: int, observed: bool)
    | ObserveAccepted(message: Id, task: Id)
    | Startup(run: Id, task: Id, token: int, step: StartupStep)
    | Activate(activate: ActivateInput)
    | FailRun(run: Id, token: int, failClaim: Option<Id>, at: Time)
    | FailStartup(failStartup: FailStartupInput)
    | Drain(run: Id, task: Id, token: int, claim: Id, until: Time, at: Time)
    | RequestRelease(request: ReleaseRequest)
    | CompleteRelease(release: ReleaseInput)
    | ClaimCleanup(run: Id, token: int, at: Time)
    | ReturnCleanup(run: Id, token: int, held: Held)
    | CloseTask(task: Id, delete: bool)
    | PurgeTask(task: Id, completion: Option<Completion>)
    | CreateProject(project: Id, workspace: Id, limit: Option<nat>)
    | SetLimit(project: Id, limit: Option<nat>)
    | SetLifecycle(project: Id, archived: bool)
    | BeginProjectDeletion(project: Id, providerLive: bool)
    | FinalizeProject(project: Id, providerLive: bool, completion: Option<Completion>)
    | BeginReceipt(receipt: Claiming<Id>)
    | CompleteReceipt(complete: Completion)

  function Step(s: State, e: Event): (State, Outcome) {
    match e
    case CreateTask(i) => CreateTaskStep(s, i)
    case RestartTask(task, r, admission, receipt) => RestartStep(s, task, r, admission, receipt)
    case TerminalStart(i) => TerminalStartStep(s, i)
    case SendMessage(i) => SendStep(s, i)
    case QueueMessage(task, message, at) => QueueMessageStep(s, task, message, at)
    case DeleteMessage(task, message, receipt, reply) => DeleteMessageStep(s, task, message, receipt, reply)
    case ClaimMessage(message, task, run, token, claim) => ClaimMessageStep(s, message, task, run, token, claim)
    case AcceptMessage(message, task, run, claim) => AcceptMessageStep(s, message, task, run, claim)
    case SettleOwner(message, task, run, token, observed) => SettleOwnerStep(s, message, task, run, token, observed)
    case ObserveAccepted(message, task) => ObserveAcceptedStep(s, message, task)
    case Startup(run, task, token, step) => StartupStepOn(s, run, task, token, step)
    case Activate(i) => ActivateStep(s, i)
    case FailRun(run, token, claim, at) => FailRunStep(s, run, token, claim, at)
    case FailStartup(i) => FailStartupStep(s, i)
    case Drain(run, task, token, claim, until, at) => DrainStep(s, run, task, token, claim, until, at)
    case RequestRelease(i) => RequestReleaseStep(s, i)
    case CompleteRelease(i) => CompleteReleaseStep(s, i)
    case ClaimCleanup(run, token, at) => ClaimCleanupStep(s, run, token, at)
    case ReturnCleanup(run, token, held) => ReturnCleanupStep(s, run, token, held)
    case CloseTask(task, delete) => CloseTaskStep(s, task, delete)
    case PurgeTask(task, completion) => PurgeTaskStep(s, task, completion)
    case CreateProject(project, workspace, limit) => CreateProjectStep(s, project, workspace, limit)
    case SetLimit(project, limit) => SetLimitStep(s, project, limit)
    case SetLifecycle(project, archived) => SetLifecycleStep(s, project, archived)
    case BeginProjectDeletion(project, live) => BeginProjectDeletionStep(s, project, live)
    case FinalizeProject(project, live, completion) => FinalizeProjectStep(s, project, live, completion)
    case BeginReceipt(c) => BeginReceiptStep(s, c)
    case CompleteReceipt(c) => CompleteReceiptStep(s, c)
  }

  /** A Run to insert is fresh: its identifier was never settled before. */
  predicate Insertable(s: State, run: Run) {
    FreshRun(run) && run.id !in s.settlements
  }

  /** What the services guarantee about their inputs; the store does not check any of it. */
  predicate WellFormed(s: State, e: Event) {
    match e
    case CreateTask(i) =>
      (i.run.Some? ==> Insertable(s, i.run.value) && !i.task.deleted)
      && (i.receipt.Some? ==> i.receipt.value.key.operation != Operation.TerminalStart)
    case RestartTask(_, r, _, _) => Insertable(s, r.run)
    case TerminalStart(i) =>
      i.receipt.key.operation == Operation.TerminalStart && i.receipt.resource.OnRun? && (i.restart.Some? ==> Insertable(s, i.restart.value.run))
    case SendMessage(i) => i.receipt.key.operation != Operation.TerminalStart && (i.restart.Some? ==> Insertable(s, i.restart.value.run))
    case DeleteMessage(_, _, receipt, _) => receipt.key.operation != Operation.TerminalStart
    case CreateProject(project, _, _) => project !in s.projects
    case BeginReceipt(c) => c.key.operation != Operation.TerminalStart
    case ReturnCleanup(_, _, held) => held.deadline.Some? ==> held.claim.Some?
    case _ => true
  }

  /* ---------- the invariants ---------- */

  ghost predicate KeysAgree(tasks: map<Id, Task>, runs: map<Id, Run>) {
    && (forall k :: k in tasks ==> tasks[k].scope.task == k)
    && (forall k :: k in runs ==> runs[k].id == k)
  }

  /** The Run is the current Run of a live task of its own scope, in a known project. */
  ghost predicate IsCurrent(projects: map<Id, Project>, tasks: map<Id, Task>, r: Run) {
    r.scope.task in tasks && r.scope.project in projects && !tasks[r.scope.task].deleted
    && tasks[r.scope.task].scope == r.scope && tasks[r.scope.task].currentRun == Some(r.id)
  }

  ghost predicate LiveRunsAreCurrent(projects: map<Id, Project>, tasks: map<Id, Task>, runs: map<Id, Run>) {
    forall k :: k in runs && !runs[k].phase.Released? ==> IsCurrent(projects, tasks, runs[k])
  }

  /** The message a Run owns is a live message of its task that is being delivered or was delivered. */
  ghost predicate OwnsMessage(messages: map<Id, Message>, r: Run) {
    r.owned.Some? ==>
      r.phase.Active? && r.owned.value in messages && messages[r.owned.value].task == r.scope.task && !messages[r.owned.value].deleted
      && (messages[r.owned.value].delivery.Dispatching? || messages[r.owned.value].delivery.Accepted?)
  }

  ghost predicate OnlyActiveRunsOwn(messages: map<Id, Message>, runs: map<Id, Run>) {
    forall k :: k in runs ==> OwnsMessage(messages, runs[k])
  }

  /** A message in dispatch is owned by the active current Run of its task. */
  ghost predicate HasOwner(tasks: map<Id, Task>, runs: map<Id, Run>, id: Id, m: Message) {
    m.delivery.Dispatching? ==>
      m.task in tasks && tasks[m.task].currentRun.Some? && tasks[m.task].currentRun.value in runs
      && runs[tasks[m.task].currentRun.value].phase.Active? && runs[tasks[m.task].currentRun.value].owned == Some(id)
  }

  ghost predicate DispatchIsOwned(tasks: map<Id, Task>, runs: map<Id, Run>, messages: map<Id, Message>) {
    forall k :: k in messages ==> HasOwner(tasks, runs, k, messages[k])
  }

  /** A message still waiting carries no claim, so its first claim is its only one. */
  ghost predicate PendingIsUnclaimed(messages: map<Id, Message>) {
    forall k :: k in messages && messages[k].delivery.Pending? ==> messages[k].claim.None?
  }

  predicate OpenStart(receipts: Ledger, k: Key) {
    k in receipts && k.operation == Operation.TerminalStart && receipts[k].resource.OnRun? && receipts[k].reply.None?
  }

  /** Every open terminal start is for a starting Run that is still the current one. */
  ghost predicate StartsAreLive(projects: map<Id, Project>, tasks: map<Id, Task>, runs: map<Id, Run>, receipts: Ledger) {
    forall k :: OpenStart(receipts, k) ==> receipts[k].resource.id in runs && runs[receipts[k].resource.id].phase.Starting?
  }

  ghost predicate OneStartPerRun(receipts: Ledger) {
    forall k, l :: OpenStart(receipts, k) && OpenStart(receipts, l) && receipts[k].resource == receipts[l].resource ==> k == l
  }

  ghost predicate UsageIsExact(usage: map<Id, nat>, runs: map<Id, Run>) {
    forall p :: p in usage ==> usage[p] == |Unreleased(runs, p)|
  }

  /** The settlement a released Run left behind. */
  ghost predicate SettledAs(v: Settlement, r: Run) {
    v.run == r.id && v.scope == r.scope && v.startedBy == r.startedBy && v.startedAt == r.startedAt && v.resources == r.resources
    && r.releasedAt.Some? && v.releasedAt == r.releasedAt.value && v.duration == RunDuration(r.startedAt, r.releasedAt.value)
  }

  ghost predicate ReleasedIffSettled(runs: map<Id, Run>, settlements: map<Id, Settlement>) {
    && (forall k :: k in runs ==> (runs[k].phase.Released? <==> k in settlements))
    && (forall k :: k in runs && k in settlements ==> SettledAs(settlements[k], runs[k]))
  }

  /** A startup action in flight has an owner and can only exist before the Run has become active or failed. */
  ghost predicate ActionHasOwner(r: Run) {
    r.deadline.Some? ==> r.claim.Some? && (r.phase.Starting? || r.phase.ReleaseRequested?)
  }

  ghost predicate ActionsHaveOwners(runs: map<Id, Run>) {
    forall k :: k in runs ==> ActionHasOwner(runs[k])
  }

  ghost predicate PoliciesHaveProjects(projects: map<Id, Project>, policies: map<Id, Option<nat>>) {
    forall p :: p in policies ==> p in projects
  }

  ghost predicate Inv(s: State) {
    && PoliciesHaveProjects(s.projects, s.policies)
    && KeysAgree(s.tasks, s.runs)
    && LiveRunsAreCurrent(s.projects, s.tasks, s.runs)
    && OnlyActiveRunsOwn(s.messages, s.runs)
    && DispatchIsOwned(s.tasks, s.runs, s.messages)
    && PendingIsUnclaimed(s.messages)
    && StartsAreLive(s.projects, s.tasks, s.runs, s.receipts)
    && OneStartPerRun(s.receipts)
    && UsageIsExact(s.usage, s.runs)
    && ReleasedIffSettled(s.runs, s.settlements)
    && ActionsHaveOwners(s.runs)
  }

  const EMPTY: State := State(map[], map[], map[], map[], map[], map[], {}, map[], map[])

  /* ---------- replacing one Run ---------- */

  lemma StoredUnderItsId(s: State, run: Id)
    requires Inv(s) && run in s.runs
    ensures s.runs[run].id == run && s.runs[run := s.runs[run]] == s.runs
  {
  }

  lemma UsageKept(s: State, r: Run)
    requires r.id in s.runs && r.scope.project == s.runs[r.id].scope.project
    requires r.phase.Released? == s.runs[r.id].phase.Released?
    ensures forall p :: Unreleased(s.runs[r.id := r], p) == Unreleased(s.runs, p)
    ensures UsageIsExact(s.usage, s.runs) ==> UsageIsExact(s.usage, s.runs[r.id := r])
  {
    forall p ensures Unreleased(s.runs[r.id := r], p) == Unreleased(s.runs, p) {}
  }

  /** No two Runs own one message: both would be the current Run of its task. */
  lemma OwnerIsUnique(s: State, k: Id, l: Id)
    requires Inv(s) && k in s.runs && l in s.runs
    requires s.runs[k].owned.Some? && s.runs[k].owned == s.runs[l].owned
    ensures k == l
  {
    assert OwnsMessage(s.messages, s.runs[k]) && OwnsMessage(s.messages, s.runs[l]);
    assert IsCurrent(s.projects, s.tasks, s.runs[k]) && IsCurrent(s.projects, s.tasks, s.runs[l]);
  }

  /** Failing the owned message of a Run that gives it up leaves every dispatched message with its owner. */
  lemma OwnershipEnds(s: State, r: Run)
    requires Inv(s) && r.id in s.runs && r.scope == s.runs[r.id].scope && r.owned.None?
    ensures OnlyActiveRunsOwn(OwnedFailed(s.messages, s.runs[r.id]), s.runs[r.id := r])
    ensures DispatchIsOwned(s.tasks, s.runs[r.id := r], OwnedFailed(s.messages, s.runs[r.id]))
    ensures PendingIsUnclaimed(OwnedFailed(s.messages, s.runs[r.id]))
  {
    var old', messages, runs := s.runs[r.id], OwnedFailed(s.messages, s.runs[r.id]), s.runs[r.id := r];
    assert OwnsMessage(s.messages, old');
    forall k | k in runs ensures OwnsMessage(messages, runs[k]) {
      if k != r.id {
        assert OwnsMessage(s.messages, s.runs[k]);
        if s.runs[k].owned.Some? && s.runs[k].owned == old'.owned { OwnerIsUnique(s, k, r.id); }
      }
    }
    forall m | m in messages ensures HasOwner(s.tasks, runs, m, messages[m]) {
      assert HasOwner(s.tasks, s.runs, m, s.messages[m]);
    }
  }

  /** A Run that keeps its message and, if it owns one, stays active. */
  lemma OwnershipStays(s: State, r: Run)
    requires Inv(s) && r.id in s.runs && r.scope == s.runs[r.id].scope && r.owned == s.runs[r.id].owned
    requires s.runs[r.id].phase.Active? ==> r.phase.Active?
    ensures OnlyActiveRunsOwn(s.messages, s.runs[r.id := r])
    ensures DispatchIsOwned(s.tasks, s.runs[r.id := r], s.messages)
  {
    var runs := s.runs[r.id := r];
    forall k | k in runs ensures OwnsMessage(s.messages, runs[k]) {
      assert OwnsMessage(s.messages, s.runs[k]);
    }
    forall m | m in s.messages ensures HasOwner(s.tasks, runs, m, s.messages[m]) {
      assert HasOwner(s.tasks, s.runs, m, s.messages[m]);
    }
  }

  /** Closing the terminal start of a Run frees it to leave `Starting`. */
  lemma StartsCloseWithRun(s: State, r: Run, reply: Reply)
    requires Inv(s) && r.id in s.runs
    ensures StartsAreLive(s.projects, s.tasks, s.runs[r.id := r], StartsClosed(s.receipts, r.id, reply))
    ensures OneStartPerRun(StartsClosed(s.receipts, r.id, reply))
  {
    var receipts := StartsClosed(s.receipts, r.id, reply);
    forall k | OpenStart(receipts, k)
      ensures OpenStart(s.receipts, k) && receipts[k] == s.receipts[k] && s.receipts[k].resource.id != r.id
    {
      assert k !in PendingStarts(s.receipts, r.id);
    }
  }

  /** What every step that replaces one Run without releasing it has to establish. */
  ghost predicate KeepsRun(r: Run, r': Run) {
    r'.id == r.id && r'.scope == r.scope && (r.phase.Released? <==> r'.phase.Released?) && ActionHasOwner(r')
    && (r.phase.Released? ==> SameIdentity(r, r') && r.releasedAt == r'.releasedAt)
  }

  lemma RunKept(s: State, r: Run)
    requires Inv(s) && r.id in s.runs && KeepsRun(s.runs[r.id], r)
    ensures KeysAgree(s.tasks, s.runs[r.id := r])
    ensures LiveRunsAreCurrent(s.projects, s.tasks, s.runs[r.id := r])
    ensures UsageIsExact(s.usage, s.runs[r.id := r])
    ensures ReleasedIffSettled(s.runs[r.id := r], s.settlements)
    ensures ActionsHaveOwners(s.runs[r.id := r])
  {
    UsageKept(s, r);
    if !r.phase.Released? { assert IsCurrent(s.projects, s.tasks, s.runs[r.id]); }
  }

  lemma QuietReplacement(s: State, r: Run)
    requires Inv(s) && r.id in s.runs && KeepsRun(s.runs[r.id], r) && r.owned == s.runs[r.id].owned && r.phase == s.runs[r.id].phase
    ensures Inv(WithRun(s, r))
  {
    RunKept(s, r);
    OwnershipStays(s, r);
  }

  lemma EndingReplacement(s: State, r: Run, reply: Reply)
    requires Inv(s) && r.id in s.runs && KeepsRun(s.runs[r.id], r) && r.owned.None?
    ensures Inv(WithRun(s, r).(messages := OwnedFailed(s.messages, s.runs[r.id]), receipts := StartsClosed(s.receipts, r.id, reply)))
  {
    RunKept(s, r);
    OwnershipEnds(s, r);
    StartsCloseWithRun(s, r, reply);
  }

  /** In a state the store can reach, at most one terminal start waits for a Run. */
  lemma StartsAreUnambiguous(s: State, run: Id)
    requires OneStartPerRun(s.receipts)
    ensures !StartsAreAmbiguous(s.receipts, run)
  {
    var open := PendingStarts(s.receipts, run);
    if open != {} {
      var k :| k in open;
      forall l | l in open ensures l == k {
        assert OpenStart(s.receipts, k) && OpenStart(s.receipts, l);
      }
      assert open == {k};
    }
  }

  lemma StartupKeeps(s: State, run: Id, task: Id, token: int, step: StartupStep)
    requires Inv(s)
    ensures Inv(StartupStepOn(s, run, task, token, step).0)
  {
    if StartupGuard(s, run, task, token) {
      assert ActionHasOwner(s.runs[run]);
      StoredUnderItsId(s, run);
      hide Inv, StartupRun, KeepsRun;
      StartupRunKeeps(s.runs[run], TaskIsOpen(s, task), step);
      QuietReplacement(s, StartupRun(s.runs[run], TaskIsOpen(s, task), step).0);
    }
  }

  lemma StartupRunKeeps(r: Run, open: bool, step: StartupStep)
    requires ActionHasOwner(r) && r.phase.Starting?
    ensures var r' := StartupRun(r, open, step).0; KeepsRun(r, r') && r'.id == r.id && r'.owned == r.owned && r'.phase == r.phase
  {
  }

  /** A starting Run owns no message, so steps that skip the settlement lose nothing. */
  lemma StartingOwnsNothing(s: State, run: Id)
    requires Inv(s) && run in s.runs && !s.runs[run].phase.Active?
    ensures s.runs[run].owned.None? && OwnedFailed(s.messages, s.runs[run]) == s.messages
  {
    assert OwnsMessage(s.messages, s.runs[run]);
  }

  lemma ActivateKeeps(s: State, i: ActivateInput)
    requires Inv(s)
    ensures Inv(ActivateStep(s, i).0)
  {
    var (s', o) := ActivateStep(s, i);
    if o.Applied? {
      StartingOwnsNothing(s, i.run);
      EndingReplacement(s, s'.runs[i.run], RunActivated(i.run));
    }
  }

  lemma FailRunKeeps(s: State, run: Id, token: int, claim: Option<Id>, at: Time)
    requires Inv(s)
    ensures Inv(FailRunStep(s, run, token, claim, at).0)
  {
    if FailGuard(s, run, token, claim) { EndingReplacement(s, FailedRun(s.runs[run], at), RunNotStarted(run)); }
  }

  lemma FailStartupKeeps(s: State, i: FailStartupInput)
    requires Inv(s)
    ensures Inv(FailStartupStep(s, i).0)
  {
    if FailStartupStep(s, i).1.Applied? {
      assert OpenStart(s.receipts, i.key);
      StartingOwnsNothing(s, i.run);
      EndingReplacement(s, FailedRun(s.runs[i.run], i.at), i.reply);
    }
  }

  lemma DrainKeeps(s: State, run: Id, task: Id, token: int, claim: Id, until: Time, at: Time)
    requires Inv(s)
    ensures Inv(DrainStep(s, run, task, token, claim, until, at).0)
  {
    if DrainStep(s, run, task, token, claim, until, at).1.Applied? {
      StartingOwnsNothing(s, run);
      EndingReplacement(s, FailedRun(s.runs[run], at), RunNotStarted(run));
    }
  }

  lemma RequestReleaseKeeps(s: State, i: ReleaseRequest)
    requires Inv(s)
    ensures Inv(RequestReleaseStep(s, i).0)
  {
    if i.run in s.runs {
      var r := s.runs[i.run];
      if r.phase.Released? {
        RepeatedRequestKeeps(s, i);
      } else {
        assert KeepsRun(r, ReleaseRequestedRun(r, i.at));
        EndingReplacement(s, ReleaseRequestedRun(r, i.at), RunNotStarted(i.run));
      }
    }
  }

  /** A request for a Run that is already released only answers receipts. */
  lemma RepeatedRequestKeeps(s: State, i: ReleaseRequest)
    requires Inv(s) && i.run in s.runs && s.runs[i.run].phase.Released?
    ensures Inv(RequestReleaseStep(s, i).0)
  {
    StartingOwnsNothing(s, i.run);
    StartsCloseWithRun(s, s.runs[i.run], RunNotStarted(i.run));
    assert s.runs[i.run := s.runs[i.run]] == s.runs;
  }

  lemma ClaimCleanupKeeps(s: State, run: Id, token: int, at: Time)
    requires Inv(s)
    ensures Inv(ClaimCleanupStep(s, run, token, at).0)
  {
    var (s', o) := ClaimCleanupStep(s, run, token, at);
    if o.Applied? {
      assert ActionHasOwner(s.runs[run]);
      QuietReplacement(s, s'.runs[run]);
    }
  }

  lemma ReturnCleanupKeeps(s: State, run: Id, token: int, held: Held)
    requires Inv(s) && (held.deadline.Some? ==> held.claim.Some?)
    ensures Inv(ReturnCleanupStep(s, run, token, held).0)
  {
    var (s', o) := ReturnCleanupStep(s, run, token, held);
    if o.Applied? {
      assert ActionHasOwner(s.runs[run]);
      QuietReplacement(s, s'.runs[run]);
    }
  }

  /* ---------- release ---------- */

  /** The later ledger has no open start the earlier one did not have. */
  ghost predicate NoNewStarts(before: Ledger, after: Ledger) {
    forall k :: OpenStart(after, k) ==> OpenStart(before, k) && after[k].resource == before[k].resource
  }

  lemma StartsShrink(projects: map<Id, Project>, tasks: map<Id, Task>, runs: map<Id, Run>, before: Ledger, after: Ledger)
    requires NoNewStarts(before, after)
    requires StartsAreLive(projects, tasks, runs, before) && OneStartPerRun(before)
    ensures StartsAreLive(projects, tasks, runs, after) && OneStartPerRun(after)
  {
  }

  lemma ReceiptsOnly(s: State, receipts: Ledger)
    requires Inv(s) && NoNewStarts(s.receipts, receipts)
    ensures Inv(s.(receipts := receipts))
  {
    StartsShrink(s.projects, s.tasks, s.runs, s.receipts, receipts);
  }

  lemma ReleasedUsage(s: State, r: Run)
    requires UsageIsExact(s.usage, s.runs) && r.id in s.runs && r.scope == s.runs[r.id].scope
    ensures UsageIsExact(WithExactUsage(s.usage, s.runs[r.id := r], r.scope.project), s.runs[r.id := r])
  {
    forall p | p != r.scope.project ensures Unreleased(s.runs[r.id := r], p) == Unreleased(s.runs, p) {}
  }

  lemma CompleteReleaseKeeps(s: State, i: ReleaseInput)
    requires Inv(s)
    ensures Inv(CompleteReleaseStep(s, i).0)
  {
    var (s', o) := CompleteReleaseStep(s, i);
    if o.Applied? { ReleaseKeeps(s, i); }
    if o.Repeated? { RepeatedReleaseKeeps(s, i); }
  }

  /** The tables after a release. */
  lemma ReleaseShape(s: State, i: ReleaseInput)
    requires CompleteReleaseStep(s, i).1.Applied?
    ensures i.run.id in s.runs && i.run.id !in s.settlements && !s.runs[i.run.id].phase.Released? && i.run.phase.Released? && i.run.deadline.None?
    ensures SameIdentity(s.runs[i.run.id], i.run) && SettlementMatches(i.settlement, s.runs[i.run.id], i.run)
    ensures
      var s', runs := CompleteReleaseStep(s, i).0, s.runs[i.run.id := i.run.(owned := None)];
      s'.projects == s.projects && s'.policies == s.policies && s'.tasks == s.tasks && s'.runs == runs
      && s'.messages == OwnedFailed(s.messages, s.runs[i.run.id]) && s'.settlements == s.settlements[i.run.id := i.settlement]
      && s'.receipts == ReleaseReceiptsClosed(StartsClosed(s.receipts, i.run.id, ReplyForRun(i.run)), i.run, i.receipt)
      && s'.usage == WithExactUsage(s.usage, runs, i.run.scope.project)
  {
  }

  lemma ReleaseKeeps(s: State, i: ReleaseInput)
    requires Inv(s) && CompleteReleaseStep(s, i).1.Applied?
    ensures Inv(CompleteReleaseStep(s, i).0)
  {
    hide CompleteReleaseStep, OwnedFailed, WithExactUsage, ReplyForRun;
    ReleaseShape(s, i);
    var s' := CompleteReleaseStep(s, i).0;
    var r := s'.runs[i.run.id];
    StartsCloseWithRun(s, r, ReplyForRun(i.run));
    StartsShrink(s.projects, s.tasks, s'.runs, StartsClosed(s.receipts, i.run.id, ReplyForRun(i.run)), s'.receipts);
    OwnershipEnds(s, r);
    ReleasedUsage(s, r);
  }

  lemma RepeatedReleaseKeeps(s: State, i: ReleaseInput)
    requires Inv(s) && CompleteReleaseStep(s, i).1.Repeated?
    ensures Inv(CompleteReleaseStep(s, i).0)
  {
    var s' := CompleteReleaseStep(s, i).0;
    StoredUnderItsId(s, i.run.id);
    StartsCloseWithRun(s, s.runs[i.run.id], ReplyForRun(s.runs[i.run.id]));
    RecountIsExact(s, s.runs[i.run.id].scope.project);
  }

  lemma RecountIsExact(s: State, project: Id)
    requires UsageIsExact(s.usage, s.runs)
    ensures WithExactUsage(s.usage, s.runs, project) == s.usage
  {
  }

  /* ---------- messages ---------- */

  lemma MessageAddedKeeps(s: State, id: Id, task: Id, createdAt: Time, publish: bool)
    requires Inv(s) && id !in s.messages
    ensures Inv(MessageAdded(s, id, task, createdAt, publish))
  {
    var messages := MessageAdded(s, id, task, createdAt, publish).messages;
    forall k | k in s.runs ensures OwnsMessage(messages, s.runs[k]) {
      assert OwnsMessage(s.messages, s.runs[k]);
    }
    forall m | m in messages ensures HasOwner(s.tasks, s.runs, m, messages[m]) {
      if m != id { assert HasOwner(s.tasks, s.runs, m, s.messages[m]); }
    }
  }

  /** Replacing a message that is not in dispatch afterwards, and is not owned unless it was accepted. */
  lemma MessageReplaced(s: State, id: Id, m: Message)
    requires Inv(s) && id in s.messages && m.task == s.messages[id].task && !m.delivery.Dispatching?
    requires m.delivery.Pending? ==> m.claim.None?
    requires s.messages[id].delivery.Dispatching? || s.messages[id].delivery.Accepted? ==> m.delivery.Accepted? && !m.deleted
    ensures Inv(s.(messages := s.messages[id := m]))
  {
    var messages := s.messages[id := m];
    forall k | k in s.runs ensures OwnsMessage(messages, s.runs[k]) {
      assert OwnsMessage(s.messages, s.runs[k]);
    }
    forall k | k in messages ensures HasOwner(s.tasks, s.runs, k, messages[k]) {
      if k != id { assert HasOwner(s.tasks, s.runs, k, s.messages[k]); }
    }
  }

  lemma ClaimMessageKeeps(s: State, message: Id, task: Id, run: Id, token: int, claim: Id)
    requires Inv(s)
    ensures Inv(ClaimMessageStep(s, message, task, run, token, claim).0)
  {
    var (s', o) := ClaimMessageStep(s, message, task, run, token, claim);
    if o.Applied? {
      assert IsCurrent(s.projects, s.tasks, s.runs[run]) && ActionHasOwner(s.runs[run]);
      RunKept(s, s'.runs[run]);
      forall k | k in s'.runs ensures OwnsMessage(s'.messages, s'.runs[k]) {
        assert OwnsMessage(s.messages, s.runs[k]);
      }
      forall m | m in s'.messages ensures HasOwner(s'.tasks, s'.runs, m, s'.messages[m]) {
        assert HasOwner(s.tasks, s.runs, m, s.messages[m]);
      }
    }
  }

  lemma AcceptMessageKeeps(s: State, message: Id, task: Id, run: Id, claim: Id)
    requires Inv(s)
    ensures Inv(AcceptMessageStep(s, message, task, run, claim).0)
  {
    if AcceptMessageStep(s, message, task, run, claim).1.Applied? {
      MessageReplaced(s, message, s.messages[message].(delivery := Accepted));
    }
  }

  lemma ObserveAcceptedKeeps(s: State, message: Id, task: Id)
    requires Inv(s)
    ensures Inv(ObserveAcceptedStep(s, message, task).0)
  {
    if ObserveAcceptedStep(s, message, task).1.Applied? {
      MessageReplaced(s, message, s.messages[message].(delivery := Accepted));
    }
  }

  lemma SettleOwnerKeeps(s: State, message: Id, task: Id, run: Id, token: int, observed: bool)
    requires Inv(s)
    ensures Inv(SettleOwnerStep(s, message, task, run, token, observed).0)
  {
    var (s', o) := SettleOwnerStep(s, message, task, run, token, observed);
    if o.Applied? {
      assert OwnsMessage(s.messages, s.runs[run]) && ActionHasOwner(s.runs[run]);
      RunKept(s, s'.runs[run]);
      forall k | k in s'.runs ensures OwnsMessage(s'.messages, s'.runs[k]) {
        assert OwnsMessage(s.messages, s.runs[k]);
        if k != run && s.runs[k].owned == Some(message) { OwnerIsUnique(s, k, run); }
      }
      forall m | m in s'.messages ensures HasOwner(s'.tasks, s'.runs, m, s'.messages[m]) {
        assert HasOwner(s.tasks, s.runs, m, s.messages[m]);
      }
    }
  }

  /** A claim adds no terminal start, unless it is itself a new terminal start on a Run. */
  lemma ClaimsOpenNoStart(receipts: Ledger, c: Claiming<Id>)
    requires c.key.operation != Operation.TerminalStart || !c.resource.OnRun? || c.key in receipts
    ensures NoNewStarts(receipts, Claim(receipts, c).0)
    ensures NoNewStarts(receipts, ClaimToSend(receipts, c).0)
    ensures NoNewStarts(receipts, Begin(receipts, c).0)
  {
  }

  lemma QueueMessageKeeps(s: State, task: Id, message: Id, createdAt: Time)
    requires Inv(s)
    ensures Inv(QueueMessageStep(s, task, message, createdAt).0)
  {
    if message !in s.messages { MessageAddedKeeps(s, message, task, createdAt, true); }
  }

  lemma DeleteMessageKeeps(s: State, task: Id, message: Id, receipt: Claiming<Id>, reply: Reply)
    requires Inv(s) && receipt.key.operation != Operation.TerminalStart
    ensures Inv(DeleteMessageStep(s, task, message, receipt, reply).0)
  {
    var (s', o) := DeleteMessageStep(s, task, message, receipt, reply);
    if o.Applied? {
      ClaimsOpenNoStart(s.receipts, receipt);
      MessageReplaced(s, message, s.messages[message].(deleted := true));
      ReceiptsOnly(s.(messages := s'.messages), s'.receipts);
    }
  }

  /* ---------- admissions ---------- */

  /** The project counter after inserting a Run whose identifier is new. */
  lemma InsertedUsage(s: State, r: Run)
    requires UsageIsExact(s.usage, s.runs) && r.id !in s.runs && !r.phase.Released?
    ensures UsageIsExact(WithExactUsage(s.usage, s.runs[r.id := r], r.scope.project), s.runs[r.id := r])
  {
    forall p | p != r.scope.project ensures Unreleased(s.runs[r.id := r], p) == Unreleased(s.runs, p) {}
  }

  /** What an admission inserts, and that nothing stood in its way. */
  lemma AdmitShape(s: State, admission: Admission, r: Run)
    requires Admit(s, admission, r).Inserted?
    ensures var a := Admit(s, admission, r);
            a.runs == s.runs[r.id := r] && a.usage == WithExactUsage(s.usage, a.runs, r.scope.project) && r.id !in s.runs
    ensures forall k :: k in s.runs && s.runs[k].scope.task == r.scope.task ==> s.runs[k].phase.Released?
  {
  }

  lemma AdmittedIsCurrent(s: State, r: Run, t: Task)
    requires Inv(s) && FreshRun(r) && r.id !in s.runs
    requires r.scope == t.scope && t.currentRun == Some(r.id) && !t.deleted && t.scope.project in s.projects
    requires t.scope.task in s.tasks ==> CurrentRunIsOver(s, s.tasks[t.scope.task])
    requires forall k :: k in s.runs && s.runs[k].scope.task == r.scope.task ==> s.runs[k].phase.Released?
    ensures LiveRunsAreCurrent(s.projects, s.tasks[t.scope.task := t], s.runs[r.id := r])
    ensures OnlyActiveRunsOwn(s.messages, s.runs[r.id := r])
    ensures DispatchIsOwned(s.tasks[t.scope.task := t], s.runs[r.id := r], s.messages)
  {
    var tasks, runs := s.tasks[t.scope.task := t], s.runs[r.id := r];
    forall k | k in runs && !runs[k].phase.Released? ensures IsCurrent(s.projects, tasks, runs[k]) {
      if k != r.id { assert IsCurrent(s.projects, s.tasks, s.runs[k]); }
    }
    forall k | k in runs ensures OwnsMessage(s.messages, runs[k]) {
      if k != r.id { assert OwnsMessage(s.messages, s.runs[k]); }
    }
    forall m | m in s.messages ensures HasOwner(tasks, runs, m, s.messages[m]) {
      assert HasOwner(s.tasks, s.runs, m, s.messages[m]);
    }
  }

  /** Pointing a task, new or free, at a freshly admitted Run. */
  lemma AdmittedKeeps(s: State, admission: Admission, r: Run, t: Task)
    requires Inv(s) && Insertable(s, r) && Admit(s, admission, r).Inserted?
    requires r.scope == t.scope && t.currentRun == Some(r.id) && !t.deleted && t.scope.project in s.projects
    requires t.scope.task in s.tasks ==> CurrentRunIsOver(s, s.tasks[t.scope.task])
    ensures var a := Admit(s, admission, r);
            Inv(s.(tasks := s.tasks[t.scope.task := t], runs := a.runs, usage := a.usage))
  {
    hide Admit, CurrentRunIsOver, LiveRunsAreCurrent, OnlyActiveRunsOwn, DispatchIsOwned;
    AdmitShape(s, admission, r);
    AdmittedIsCurrent(s, r, t);
    InsertedUsage(s, r);
  }

  lemma CapacityReplyKeeps(before: State, s: State, receipt: Option<Claiming<Id>>, reply: Reply)
    requires Inv(before) && Inv(s)
    ensures Inv(CapacityReply(before, s, receipt, reply).0)
  {
    var (s', o) := CapacityReply(before, s, receipt, reply);
    if o.Rejected? { ReceiptsOnly(s, s'.receipts); }
  }

  lemma RestartKeeps(s: State, task: Id, r: Restart, admission: Admission, receipt: Claiming<Id>)
    requires Inv(s) && Insertable(s, r.run)
    ensures Inv(RestartStep(s, task, r, admission, receipt).0)
  {
    var (receipts, claimed) := Claim(s.receipts, receipt);
    if claimed.Claimed? && claimed.resource == OnTask(task) {
      var c := s.(receipts := receipts);
      assert NoNewStarts(s.receipts, receipts);
      ReceiptsOnly(s, receipts);
      var (s', o) := RestartStep(s, task, r, admission, receipt);
      if o.Applied? {
        AdmittedKeeps(c, admission, r.run, s'.tasks[task]);
      } else if o.Rejected? {
        CapacityReplyKeeps(s, c, Some(receipt), o.reply);
      }
    }
  }

  lemma TaskAddedKeeps(before: State, s: State, i: CreateInput)
    requires Inv(before) && Inv(s.(tasks := s.tasks[i.task.scope.task := i.task]))
    ensures Inv(TaskAdded(before, s, i).0)
  {
    var added := s.(tasks := s.tasks[i.task.scope.task := i.task]);
    if i.message.Some? && i.message.value.id !in s.messages {
      MessageAddedKeeps(added, i.message.value.id, i.task.scope.task, i.message.value.createdAt, i.message.value.published);
    }
  }

  /** A task nobody runs yet. */
  lemma NewTaskKeeps(s: State, t: Task)
    requires Inv(s) && t.scope.task !in s.tasks
    ensures Inv(s.(tasks := s.tasks[t.scope.task := t]))
  {
    var tasks := s.tasks[t.scope.task := t];
    forall k | k in s.runs && !s.runs[k].phase.Released? ensures IsCurrent(s.projects, tasks, s.runs[k]) {
      assert IsCurrent(s.projects, s.tasks, s.runs[k]);
    }
    forall m | m in s.messages ensures HasOwner(tasks, s.runs, m, s.messages[m]) {
      assert HasOwner(s.tasks, s.runs, m, s.messages[m]);
    }
  }

  lemma CreateClaimedKeeps(before: State, s: State, i: CreateInput)
    requires Inv(before) && Inv(s) && (i.run.Some? ==> Insertable(s, i.run.value) && !i.task.deleted)
    requires i.run.Some? ==> i.task.currentRun == Some(i.run.value.id) && i.run.value.scope == i.task.scope
    ensures Inv(CreateClaimed(before, s, i).0)
  {
    if i.task.scope.task in s.tasks || !ProjectIsActive(s, i.task.scope.project) || i.binding.NotBindable? {
    } else if i.run.None? {
      NewTaskKeeps(s, i.task);
      TaskAddedKeeps(before, s, i);
    } else {
      match Admit(s, i.admission, i.run.value)
      case Broken =>
      case Full(reply) => CapacityReplyKeeps(before, s, i.receipt, reply);
      case Inserted(runs, usage) =>
        AdmittedKeeps(s, i.admission, i.run.value, i.task);
        TaskAddedKeeps(before, s.(runs := runs, usage := usage), i);
    }
  }

  lemma CreateTaskKeeps(s: State, i: CreateInput)
    requires Inv(s) && WellFormed(s, Event.CreateTask(i))
    ensures Inv(CreateTaskStep(s, i).0)
  {
    if i.receipt.Some? {
      ClaimsOpenNoStart(s.receipts, i.receipt.value);
      var c := s.(receipts := Claim(s.receipts, i.receipt.value).0);
      ReceiptsOnly(s, c.receipts);
      if !CreateTaskStep(s, i).1.Aborted? || i.run.None? || i.run.value.scope == i.task.scope {
        if i.task.currentRun == (if i.run.Some? then Some(i.run.value.id) else None) { CreateClaimedKeeps(s, c, i); }
      }
    } else if i.run.None? {
      CreateClaimedKeeps(s, s, i);
    }
  }

  /** Everything but the receipts, when a terminal start or a message restarts a task. */
  lemma RestartedKeeps(s: State, task: Id, r: Restart, ready: Run, admission: Admission)
    requires Inv(s) && Insertable(s, ready) && Admit(s, admission, ready).Inserted? && task in s.tasks
    requires RestartMatches(s.tasks[task], r) && ready.id == r.run.id && ready.scope == r.run.scope
    requires CurrentRunIsOver(s, s.tasks[task]) && !s.tasks[task].deleted && s.tasks[task].scope.project in s.projects
    ensures var a := Admit(s, admission, ready); Inv(RunStarted(s.(runs := a.runs, usage := a.usage), task, ready.id))
  {
    AdmittedKeeps(s, admission, ready, s.tasks[task].(currentRun := Some(ready.id)));
  }

  /** A terminal start that is answered at once leaves no open receipt of its own. */
  lemma TerminalReplyKeeps(before: State, s: State, key: Key, reply: Reply)
    requires Inv(before) && s == before.(receipts := s.receipts) && key in s.receipts
    requires forall k :: k in s.receipts && k != key ==> k in before.receipts && s.receipts[k] == before.receipts[k]
    ensures Inv(s.(receipts := Completed(s.receipts, key, reply)))
  {
    ReceiptsOnly(before, Completed(s.receipts, key, reply));
  }

  /** One that stays open waits for a starting Run: the current one, or the one it inserts. */
  lemma TerminalOpenKeeps(before: State, s: State, i: TerminalInput, resource: Resource)
    requires Inv(before) && WellFormed(before, Event.TerminalStart(i)) && s == before.(receipts := s.receipts)
    requires i.receipt.key in s.receipts && s.receipts[i.receipt.key].resource == resource
    requires forall k :: k in s.receipts && k != i.receipt.key ==> k in before.receipts && s.receipts[k] == before.receipts[k]
    requires TerminalClaimed(before, s, i, resource, true).1.Applied?
    ensures Inv(TerminalClaimed(before, s, i, resource, true).0)
  {
    var s' := TerminalClaimed(before, s, i, resource, true).0;
    var task := s.tasks[i.task];
    var run := ResourceRun(s.runs, resource);
    assert !OtherOwner(s.receipts, i.receipt.key, resource, task.currentRun);
    if !(run.Some? && run.value.scope == task.scope) {
      var ready := i.restart.value.run.(readyAt := Some(i.reservedAt));
      assert Admit(before, i.admission.value, ready) == Admit(s, i.admission.value, ready);
      RestartedKeeps(before, i.task, i.restart.value, ready, i.admission.value);
      assert s'.(receipts := before.receipts) == RunStarted(before.(runs := s'.runs, usage := s'.usage), i.task, ready.id);
    }
    TerminalStartsStayLive(before, s', i.receipt.key, resource);
  }

  /** The ways a terminal start that was claimed, or found in progress, can end. */
  lemma TerminalOutcomes(before: State, s: State, i: TerminalInput, resource: Resource, mine: bool)
    requires i.receipt.key in s.receipts
    ensures var (s', o) := TerminalClaimed(before, s, i, resource, mine);
            match o
            case Replayed(reply) => s' == s.(receipts := Completed(s.receipts, i.receipt.key, reply))
            case Rejected(reply) => s' == s.(receipts := Completed(s.receipts, i.receipt.key, reply))
            case Applied => mine
            case Busy => s' == s
            case _ => s' == before
  {
    hide Admit, OtherOwner, RestartMatches, CurrentRunIsOver, RunStarted, ResourceRun, ReplyForRun, Completed, CapacityReply;
    forall reply
      ensures var (s', o) := CapacityReply(before, s, Some(i.receipt), reply);
              (s', o) == (before, Aborted) || (s', o) == (s.(receipts := Completed(s.receipts, i.receipt.key, reply)), Rejected(reply))
    {
      CapacityReplyOutcomes(before, s, i.receipt, reply);
    }
  }

  lemma CapacityReplyOutcomes(before: State, s: State, receipt: Claiming<Id>, reply: Reply)
    requires receipt.key in s.receipts
    ensures var (s', o) := CapacityReply(before, s, Some(receipt), reply);
            (s', o) == (before, Aborted) || (s', o) == (s.(receipts := Completed(s.receipts, receipt.key, reply)), Rejected(reply))
  {
  }

  lemma TerminalStartKeeps(s: State, i: TerminalInput)
    requires Inv(s) && WellFormed(s, Event.TerminalStart(i))
    ensures Inv(TerminalStartStep(s, i).0)
  {
    var (receipts, claimed) := Claim(s.receipts, i.receipt);
    match claimed
    case HashMismatch =>
    case Replay(_) =>
    case InProgress(resource) => TerminalClaimedKeeps(s, s, i, resource, false);
    case Claimed(resource) => TerminalClaimedKeeps(s, s.(receipts := receipts), i, resource, true);
  }

  lemma TerminalClaimedKeeps(before: State, s: State, i: TerminalInput, resource: Resource, mine: bool)
    requires Inv(before) && WellFormed(before, Event.TerminalStart(i)) && s == before.(receipts := s.receipts)
    requires i.receipt.key in s.receipts && s.receipts[i.receipt.key].resource == resource
    requires forall k :: k in s.receipts && k != i.receipt.key ==> k in before.receipts && s.receipts[k] == before.receipts[k]
    requires mine || s == before
    ensures Inv(TerminalClaimed(before, s, i, resource, mine).0)
  {
    TerminalOutcomes(before, s, i, resource, mine);
    var (s', o) := TerminalClaimed(before, s, i, resource, mine);
    if o.Replayed? || o.Rejected? {
      TerminalReplyKeeps(before, s, i.receipt.key, o.reply);
    } else if o.Applied? {
      TerminalOpenKeeps(before, s, i, resource);
    }
  }

  lemma TerminalStartsStayLive(s: State, s': State, key: Key, resource: Resource)
    requires Inv(s) && StartsAreLive(s'.projects, s'.tasks, s'.runs, s.receipts)
    requires key in s'.receipts && s'.receipts[key].resource == resource
    requires forall k :: k in s'.receipts && k != key ==> k in s.receipts && s'.receipts[k] == s.receipts[k]
    requires resource.OnRun? ==> resource.id in s'.runs && s'.runs[resource.id].phase.Starting?
    requires !OtherOwner(s'.receipts, key, resource, None)
    ensures StartsAreLive(s'.projects, s'.tasks, s'.runs, s'.receipts) && OneStartPerRun(s'.receipts)
  {
    forall k, l | OpenStart(s'.receipts, k) && OpenStart(s'.receipts, l) && s'.receipts[k].resource == s'.receipts[l].resource
      ensures k == l
    {
      if k != key && l != key { assert OpenStart(s.receipts, k) && OpenStart(s.receipts, l); }
    }
    forall k | OpenStart(s'.receipts, k) ensures s'.receipts[k].resource.id in s'.runs && s'.runs[s'.receipts[k].resource.id].phase.Starting? {
      if k != key { assert OpenStart(s.receipts, k); }
    }
  }

  /** Sending a message answers its own receipt; the restart it may need is an ordinary admission. */
  lemma SendKeeps(s: State, i: SendInput)
    requires Inv(s) && WellFormed(s, Event.SendMessage(i))
    ensures Inv(SendStep(s, i).0)
  {
    var (receipts, claimed) := ClaimToSend(s.receipts, i.receipt);
    if claimed.Claimed? {
      var c := s.(receipts := receipts);
      ClaimsOpenNoStart(s.receipts, i.receipt);
      ReceiptsOnly(s, receipts);
      SendClaimedKeeps(s, c, i, claimed.resource.id);
    }
  }

  lemma SendClaimedKeeps(before: State, s: State, i: SendInput, message: Id)
    requires Inv(before) && Inv(s) && (i.restart.Some? ==> Insertable(s, i.restart.value.run))
    ensures Inv(SendClaimed(before, s, i, message).0)
  {
    var (s', o) := SendClaimed(before, s, i, message);
    if o.Rejected? {
      CapacityReplyKeeps(before, s, Some(i.receipt), o.reply);
    } else if o.Applied? {
      if AcceptsMessages(s.tasks[i.task], RunOf(s.runs, s.tasks[i.task].currentRun)) {
        MessageSentKeeps(before, s, i, message);
      } else {
        var ready := i.restart.value.run.(readyAt := Some(i.reservedAt));
        var a := Admit(s, i.admission, ready);
        RestartedKeeps(s, i.task, i.restart.value.(expected := i.expected), ready, i.admission);
        MessageSentKeeps(before, RunStarted(s.(runs := a.runs, usage := a.usage), i.task, ready.id), i, message);
      }
    }
  }

  lemma MessageSentKeeps(before: State, s: State, i: SendInput, message: Id)
    requires Inv(before) && Inv(s) && message !in s.messages
    ensures Inv(MessageSent(before, s, i, message).0)
  {
    var (s', o) := MessageSent(before, s, i, message);
    if o.Applied? {
      MessageAddedKeeps(s, message, i.task, i.createdAt, true);
      ReceiptsOnly(MessageAdded(s, message, i.task, i.createdAt, true), s'.receipts);
    }
  }

  /* ---------- closing tasks and projects ---------- */

  lemma CloseTaskKeeps(s: State, id: Id, delete: bool)
    requires Inv(s)
    ensures Inv(CloseTaskStep(s, id, delete).0)
  {
    var (s', o) := CloseTaskStep(s, id, delete);
    if o.Applied? { ClosedKeeps(s, id, s'.tasks[id]); }
  }

  /** No live Run points at a task whose sandbox is released, so the task may be closed. */
  lemma ClosedKeeps(s: State, id: Id, t: Task)
    requires Inv(s) && id in s.tasks && TaskSandboxReleased(s, id) && t.scope == s.tasks[id].scope && t.currentRun == s.tasks[id].currentRun
    ensures Inv(s.(tasks := s.tasks[id := t]))
  {
    var tasks := s.tasks[id := t];
    forall k | k in s.runs && !s.runs[k].phase.Released? ensures IsCurrent(s.projects, tasks, s.runs[k]) {
      assert IsCurrent(s.projects, s.tasks, s.runs[k]);
    }
    forall m | m in s.messages ensures HasOwner(tasks, s.runs, m, s.messages[m]) {
      assert HasOwner(s.tasks, s.runs, m, s.messages[m]);
    }
  }

  lemma WithoutTaskKeeps(s: State, id: Id)
    requires Inv(s) && id in s.tasks && TaskSandboxReleased(s, id)
    ensures Inv(WithoutTask(s, id))
  {
    var s' := WithoutTask(s, id);
    WithoutTaskKeepsOwners(s, id);
    forall p ensures Unreleased(s'.runs, p) == Unreleased(s.runs, p) {}
  }

  lemma WithoutTaskKeepsOwners(s: State, id: Id)
    requires Inv(s) && id in s.tasks && TaskSandboxReleased(s, id)
    ensures var s' := WithoutTask(s, id);
            LiveRunsAreCurrent(s'.projects, s'.tasks, s'.runs) && OnlyActiveRunsOwn(s'.messages, s'.runs) && DispatchIsOwned(s'.tasks, s'.runs, s'.messages)
  {
    var s' := WithoutTask(s, id);
    forall k | k in s'.runs && !s'.runs[k].phase.Released? ensures IsCurrent(s'.projects, s'.tasks, s'.runs[k]) {
      assert IsCurrent(s.projects, s.tasks, s.runs[k]);
    }
    forall k | k in s'.runs ensures OwnsMessage(s'.messages, s'.runs[k]) {
      assert OwnsMessage(s.messages, s.runs[k]);
    }
    forall m | m in s'.messages ensures HasOwner(s'.tasks, s'.runs, m, s'.messages[m]) {
      assert HasOwner(s.tasks, s.runs, m, s.messages[m]);
      if s.messages[m].delivery.Dispatching? {
        assert OwnsMessage(s.messages, s.runs[s.tasks[s.messages[m].task].currentRun.value]);
      }
    }
  }

  lemma PurgeTaskKeeps(s: State, id: Id, completion: Option<Completion>)
    requires Inv(s)
    ensures Inv(PurgeTaskStep(s, id, completion).0)
  {
    var (s', o) := PurgeTaskStep(s, id, completion);
    if o.Applied? {
      WithoutTaskKeeps(s, id);
      ReceiptsOnly(WithoutTask(s, id), s'.receipts);
    }
  }

  lemma WithoutProjectKeepsRuns(s: State, id: Id, kept: Option<Key>)
    requires Inv(s) && Unreleased(s.runs, id) == {}
    ensures forall k :: k in s.runs && !s.runs[k].phase.Released? ==> s.runs[k].scope.project != id
    ensures var s' := WithoutProject(s, id, kept);
            LiveRunsAreCurrent(s'.projects, s'.tasks, s'.runs) && UsageIsExact(s'.usage, s'.runs)
            && ReleasedIffSettled(s'.runs, s'.settlements)
  {
    var s' := WithoutProject(s, id, kept);
    forall k | k in s.runs && !s.runs[k].phase.Released? ensures s.runs[k].scope.project != id {
      assert k !in Unreleased(s.runs, id);
    }
    forall p | p != id ensures Unreleased(s'.runs, p) == Unreleased(s.runs, p) {}
    forall k | k in s'.runs && !s'.runs[k].phase.Released? ensures IsCurrent(s'.projects, s'.tasks, s'.runs[k]) {
      assert IsCurrent(s.projects, s.tasks, s.runs[k]);
    }
  }

  lemma WithoutProjectKeepsMessages(s: State, id: Id, kept: Option<Key>)
    requires Inv(s) && Unreleased(s.runs, id) == {}
    ensures var s' := WithoutProject(s, id, kept);
            OnlyActiveRunsOwn(s'.messages, s'.runs) && DispatchIsOwned(s'.tasks, s'.runs, s'.messages)
  {
    var s' := WithoutProject(s, id, kept);
    WithoutProjectKeepsRuns(s, id, kept);
    forall k | k in s'.runs ensures OwnsMessage(s'.messages, s'.runs[k]) {
      assert OwnsMessage(s.messages, s.runs[k]);
      if s.runs[k].owned.Some? { assert IsCurrent(s.projects, s.tasks, s.runs[k]); }
    }
    forall m | m in s'.messages ensures HasOwner(s'.tasks, s'.runs, m, s'.messages[m]) {
      assert HasOwner(s.tasks, s.runs, m, s.messages[m]);
      if s.messages[m].delivery.Dispatching? {
        var r := s.runs[s.tasks[s.messages[m].task].currentRun.value];
        assert OwnsMessage(s.messages, r) && IsCurrent(s.projects, s.tasks, r);
      }
    }
  }

  lemma WithoutProjectKeeps(s: State, id: Id, kept: Option<Key>)
    requires Inv(s) && Unreleased(s.runs, id) == {}
    ensures Inv(WithoutProject(s, id, kept))
  {
    WithoutProjectKeepsRuns(s, id, kept);
    WithoutProjectKeepsMessages(s, id, kept);
  }

  lemma FinalizeProjectKeeps(s: State, id: Id, live: bool, completion: Option<Completion>)
    requires Inv(s)
    ensures Inv(FinalizeProjectStep(s, id, live, completion).0)
  {
    var (s', o) := FinalizeProjectStep(s, id, live, completion);
    if o.Applied? {
      var kept := if completion.Some? then Some(completion.value.key) else None;
      WithoutProjectKeeps(s, id, kept);
      ReceiptsOnly(WithoutProject(s, id, kept), s'.receipts);
    }
  }

  lemma ProjectsKeep(s: State, id: Id, lifecycle: Lifecycle)
    requires Inv(s) && id in s.projects
    ensures Inv(s.(projects := s.projects[id := s.projects[id].(lifecycle := lifecycle)]))
  {
    var projects := s.projects[id := s.projects[id].(lifecycle := lifecycle)];
    forall k | k in s.runs && !s.runs[k].phase.Released? ensures IsCurrent(projects, s.tasks, s.runs[k]) {
      assert IsCurrent(s.projects, s.tasks, s.runs[k]);
    }
  }

  lemma CreateProjectKeeps(s: State, id: Id, workspace: Id, limit: Option<nat>)
    requires Inv(s) && id !in s.projects
    ensures Inv(CreateProjectStep(s, id, workspace, limit).0)
  {
    var s' := CreateProjectStep(s, id, workspace, limit).0;
    forall k | k in s.runs && !s.runs[k].phase.Released? ensures IsCurrent(s'.projects, s.tasks, s.runs[k]) && s.runs[k].scope.project != id {
      assert IsCurrent(s.projects, s.tasks, s.runs[k]);
    }
    assert Unreleased(s.runs, id) == {};
  }

  lemma SetLifecycleKeeps(s: State, id: Id, archived: bool)
    requires Inv(s)
    ensures Inv(SetLifecycleStep(s, id, archived).0)
  {
    if id in s.projects { ProjectsKeep(s, id, if archived then ProjectArchived else ProjectActive); }
  }

  lemma BeginProjectDeletionKeeps(s: State, id: Id, live: bool)
    requires Inv(s)
    ensures Inv(BeginProjectDeletionStep(s, id, live).0)
  {
    if id in s.projects {
      ProjectsKeep(s, id, ProjectActive);
      ProjectsKeep(s, id, ProjectDeleting);
    }
  }

  lemma BeginReceiptKeeps(s: State, c: Claiming<Id>)
    requires Inv(s) && c.key.operation != Operation.TerminalStart
    ensures Inv(BeginReceiptStep(s, c).0)
  {
    ClaimsOpenNoStart(s.receipts, c);
    ReceiptsOnly(s, Begin(s.receipts, c).0);
  }

  lemma CompleteReceiptKeeps(s: State, c: Completion)
    requires Inv(s)
    ensures Inv(CompleteReceiptStep(s, c).0)
  {
    ReceiptsOnly(s, Complete(s.receipts, c.key, c.hash, c.holder, c.reply).0);
  }

  /* ---------- all events, all runs ---------- */

  predicate IsAdmission(e: Event) {
    e.CreateTask? || e.RestartTask? || e.TerminalStart? || e.SendMessage?
  }

  predicate IsDelivery(e: Event) {
    e.QueueMessage? || e.DeleteMessage? || e.ClaimMessage? || e.AcceptMessage? || e.SettleOwner? || e.ObserveAccepted?
  }

  predicate IsRunStep(e: Event) {
    e.Startup? || e.Activate? || e.FailRun? || e.FailStartup? || e.Drain? || e.RequestRelease? || e.CompleteRelease?
    || e.ClaimCleanup? || e.ReturnCleanup?
  }

  lemma AdmissionKeeps(s: State, e: Event)
    requires Inv(s) && WellFormed(s, e) && IsAdmission(e)
    ensures Inv(Step(s, e).0)
  {
    hide Inv, CreateTaskStep, RestartStep, TerminalStartStep, SendStep;
    match e
    case CreateTask(i) => CreateTaskKeeps(s, i);
    case RestartTask(task, r, admission, receipt) => RestartKeeps(s, task, r, admission, receipt);
    case TerminalStart(i) => TerminalStartKeeps(s, i);
    case SendMessage(i) => SendKeeps(s, i);
  }

  lemma DeliveryKeeps(s: State, e: Event)
    requires Inv(s) && WellFormed(s, e) && IsDelivery(e)
    ensures Inv(Step(s, e).0)
  {
    match e
    case QueueMessage(task, message, at) => QueueMessageKeeps(s, task, message, at);
    case DeleteMessage(task, message, receipt, reply) => DeleteMessageKeeps(s, task, message, receipt, reply);
    case ClaimMessage(message, task, run, token, claim) => ClaimMessageKeeps(s, message, task, run, token, claim);
    case AcceptMessage(message, task, run, claim) => AcceptMessageKeeps(s, message, task, run, claim);
    case SettleOwner(message, task, run, token, observed) => SettleOwnerKeeps(s, message, task, run, token, observed);
    case ObserveAccepted(message, task) => ObserveAcceptedKeeps(s, message, task);
  }

  /** The steps on a Run that has not come to its end. */
  predicate IsEarlyStep(e: Event) {
    e.Startup? || e.Activate? || e.FailRun? || e.FailStartup? || e.Drain?
  }

  lemma EarlyStepKeeps(s: State, e: Event)
    requires Inv(s) && IsEarlyStep(e)
    ensures Inv(Step(s, e).0)
  {
    hide Inv, StartupStepOn, ActivateStep, FailRunStep, FailStartupStep, DrainStep;
    match e
    case Startup(run, task, token, step) => StartupKeeps(s, run, task, token, step);
    case Activate(i) => ActivateKeeps(s, i);
    case FailRun(run, token, claim, at) => FailRunKeeps(s, run, token, claim, at);
    case FailStartup(i) => FailStartupKeeps(s, i);
    case Drain(run, task, token, claim, until, at) => DrainKeeps(s, run, task, token, claim, until, at);
  }

  lemma RunStepKeeps(s: State, e: Event)
    requires Inv(s) && WellFormed(s, e) && IsRunStep(e)
    ensures Inv(Step(s, e).0)
  {
    hide Inv, RequestReleaseStep, CompleteReleaseStep, ClaimCleanupStep, ReturnCleanupStep;
    if IsEarlyStep(e) {
      EarlyStepKeeps(s, e);
    } else {
      match e
      case RequestRelease(i) => RequestReleaseKeeps(s, i);
      case CompleteRelease(i) => CompleteReleaseKeeps(s, i);
      case ClaimCleanup(run, token, at) => ClaimCleanupKeeps(s, run, token, at);
      case ReturnCleanup(run, token, held) => ReturnCleanupKeeps(s, run, token, held);
    }
  }

  lemma SetLimitKeeps(s: State, id: Id, limit: Option<nat>)
    requires Inv(s)
    ensures Inv(SetLimitStep(s, id, limit).0)
  {
  }

  lemma HousekeepingKeeps(s: State, e: Event)
    requires Inv(s) && WellFormed(s, e) && !IsAdmission(e) && !IsDelivery(e) && !IsRunStep(e)
    ensures Inv(Step(s, e).0)
  {
    hide Inv;
    match e
    case CloseTask(task, delete) => CloseTaskKeeps(s, task, delete);
    case PurgeTask(task, completion) => PurgeTaskKeeps(s, task, completion);
    case CreateProject(project, workspace, limit) => CreateProjectKeeps(s, project, workspace, limit);
    case SetLimit(project, limit) => SetLimitKeeps(s, project, limit);
    case SetLifecycle(project, archived) => SetLifecycleKeeps(s, project, archived);
    case BeginProjectDeletion(project, live) => BeginProjectDeletionKeeps(s, project, live);
    case FinalizeProject(project, live, completion) => FinalizeProjectKeeps(s, project, live, completion);
    case BeginReceipt(c) => BeginReceiptKeeps(s, c);
    case CompleteReceipt(c) => CompleteReceiptKeeps(s, c);
  }

  /** Every event of the store keeps every invariant. */
  lemma StepKeeps(s: State, e: Event)
    requires Inv(s) && WellFormed(s, e)
    ensures Inv(Step(s, e).0)
  {
    hide Inv, Step, WellFormed;
    if IsAdmission(e) { AdmissionKeeps(s, e); }
    else if IsDelivery(e) { DeliveryKeeps(s, e); }
    else if IsRunStep(e) { RunStepKeeps(s, e); }
    else { HousekeepingKeeps(s, e); }
  }

  /** The events of `es` in order, each well formed in the state it meets. */
  ghost predicate RunsFrom(s: State, es: seq<Event>)
    decreases |es|
  {
    es == [] || (WellFormed(s, es[0]) && RunsFrom(Step(s, es[0]).0, es[1..]))
  }

  function After(s: State, es: seq<Event>): State
    decreases |es|
  {
    if es == [] then s else After(Step(s, es[0]).0, es[1..])
  }

  lemma {:induction false} RunsKeepInvariant(s: State, es: seq<Event>)
    requires Inv(s) && RunsFrom(s, es)
    ensures Inv(After(s, es))
    decreases |es|
  {
    if es != [] {
      StepKeeps(s, es[0]);
      RunsKeepInvariant(Step(s, es[0]).0, es[1..]);
    }
  }

  /** A state some run of the services leads to. */
  ghost predicate Reachable(s: State) {
    exists es :: RunsFrom(EMPTY, es) && After(EMPTY, es) == s
  }

  lemma {:induction false} OneMoreEvent(s: State, es: seq<Event>, e: Event)
    requires RunsFrom(s, es) && WellFormed(After(s, es), e)
    ensures RunsFrom(s, es + [e]) && After(s, es + [e]) == Step(After(s, es), e).0
    decreases |es|
  {
    hide Step, WellFormed;
    if es != [] {
      OneMoreEvent(Step(s, es[0]).0, es[1..], e);
      assert (es + [e])[1..] == es[1..] + [e];
    } else {
      assert es + [e] == [e] && [e][1..] == [];
    }
  }

  /** Every well-formed event leads from a reachable state to a reachable one. */
  lemma ReachableGoesOn(s: State, e: Event)
    requires Reachable(s) && WellFormed(s, e)
    ensures Reachable(Step(s, e).0)
  {
    hide Step, WellFormed;
    var es :| RunsFrom(EMPTY, es) && After(EMPTY, es) == s;
    OneMoreEvent(EMPTY, es, e);
  }

  lemma ReachableStatesKeep(s: State)
    requires Reachable(s)
    ensures Inv(s)
  {
    var es :| RunsFrom(EMPTY, es) && After(EMPTY, es) == s;
    RunsKeepInvariant(EMPTY, es);
  }
}
