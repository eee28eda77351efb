/** What the invariants give the rest of the system, over single steps and over whole runs. */
module SandboxTheorems {
  import opened Basics
  import opened Receipts
  import opened SandboxModel
  import opened SandboxRuns

  /* ---------- states ---------- */

  /** A task never has two messages in dispatch, and only its active current Run delivers one. */
  lemma OneMessageInDispatch(s: State, m: Id, n: Id)
    requires Reachable(s) && m in s.messages && n in s.messages
    requires s.messages[m].delivery.Dispatching? && s.messages[n].delivery.Dispatching? && s.messages[m].task == s.messages[n].task
    ensures m == n && s.messages[m].task in s.tasks && s.tasks[s.messages[m].task].currentRun.Some?
    ensures var run := s.tasks[s.messages[m].task].currentRun.value;
            run in s.runs && s.runs[run].phase.Active? && s.runs[run].owned == Some(m)
  {
    ReachableStatesKeep(s);
    assert HasOwner(s.tasks, s.runs, m, s.messages[m]) && HasOwner(s.tasks, s.runs, n, s.messages[n]);
  }

  lemma OneUnreleasedRunPerTask(s: State, k: Id, l: Id)
    requires Reachable(s) && k in s.runs && l in s.runs && s.runs[k].scope.task == s.runs[l].scope.task
    requires !s.runs[k].phase.Released? && !s.runs[l].phase.Released?
    ensures k == l && s.runs[k].scope.task in s.tasks
    ensures var t := s.tasks[s.runs[k].scope.task]; t.currentRun == Some(k) && !t.deleted && t.scope == s.runs[k].scope
  {
    ReachableStatesKeep(s);
    assert IsCurrent(s.projects, s.tasks, s.runs[k]) && IsCurrent(s.projects, s.tasks, s.runs[l]);
  }

  /** An open terminal start is for a starting Run that is the current Run of a live task. */
  lemma OpenStartIsCurrent(s: State, k: Key)
    requires Reachable(s) && OpenStart(s.receipts, k)
    ensures s.receipts[k].resource.id in s.runs
    ensures var r := s.runs[s.receipts[k].resource.id];
            r.phase.Starting? && r.owned.None? && IsCurrent(s.projects, s.tasks, r) && PendingStarts(s.receipts, r.id) == {k}
  {
    ReachableStatesKeep(s);
    var r := s.runs[s.receipts[k].resource.id];
    assert IsCurrent(s.projects, s.tasks, r) && OwnsMessage(s.messages, r);
    forall l | l in PendingStarts(s.receipts, r.id) ensures l == k { assert OpenStart(s.receipts, l); }
  }

  /* ---------- phases and fencing tokens ---------- */

  /** The Run an event presents a token for, and the token. */
  function Presents(e: Event): Option<(Id, int)> {
    match e
    case Startup(run, _, token, _) => Some((run, token))
    case Activate(i) => Some((i.run, i.token))
    case FailRun(run, token, _, _) => Some((run, token))
    case FailStartup(i) => Some((i.run, i.token))
    case Drain(run, _, token, _, _, _) => Some((run, token))
    case RequestRelease(i) => Some((i.run, i.token))
    case CompleteRelease(i) => Some((i.run.id, i.token))
    case ClaimCleanup(run, token, _) => Some((run, token))
    case ReturnCleanup(run, token, _) => Some((run, token))
    case ClaimMessage(_, _, run, token, _) => Some((run, token))
    case SettleOwner(_, _, run, token, _) => Some((run, token))
    case _ => None
  }

  /** A successful step that moves the token: everything on a Run except its startup work and its message. */
  predicate Bumps(s: State, e: Event, k: Id) {
    Presents(e).Some? && Presents(e).value.0 == k && IsRunStep(e) && !e.Startup?
    && (Step(s, e).1.Applied? || (e.RequestRelease? && Step(s, e).1.Repeated? && k in s.runs && s.runs[k].phase.ReleaseRequested?))
  }

  /** The Run an admission may insert, and the capacity it presents. */
  function Candidate(e: Event): Option<(Admission, Run)> {
    match e
    case CreateTask(i) => if i.run.Some? then Some((i.admission, i.run.value)) else None
    case RestartTask(_, r, admission, _) => Some((admission, r.run))
    case TerminalStart(i) =>
      if i.restart.Some? && i.admission.Some? then Some((i.admission.value, i.restart.value.run.(readyAt := Some(i.reservedAt)))) else None
    case SendMessage(i) => if i.restart.Some? then Some((i.admission, i.restart.value.run.(readyAt := Some(i.reservedAt)))) else None
    case _ => None
  }

  predicate Inserts(s: State, runs: map<Id, Run>, e: Event) {
    Candidate(e).Some? && Admit(s, Candidate(e).value.0, Candidate(e).value.1).Inserted?
    && runs == Admit(s, Candidate(e).value.0, Candidate(e).value.1).runs
  }

  lemma AdmitIgnoresReceipts(s: State, receipts: Ledger, admission: Admission, r: Run)
    ensures Admit(s.(receipts := receipts), admission, r) == Admit(s, admission, r)
  {
  }

  lemma InsertsIgnoresReceipts(s: State, receipts: Ledger, runs: map<Id, Run>, e: Event)
    requires Inserts(s.(receipts := receipts), runs, e)
    ensures Inserts(s, runs, e)
  {
    AdmitIgnoresReceipts(s, receipts, Candidate(e).value.0, Candidate(e).value.1);
  }

  lemma TaskAddedRuns(before: State, s: State, i: CreateInput)
    ensures TaskAdded(before, s, i).0.runs in {before.runs, s.runs}
  {
  }

  lemma CreateClaimedInserts(before: State, s: State, i: CreateInput)
    requires before.runs == s.runs
    ensures var runs := CreateClaimed(before, s, i).0.runs; runs == s.runs || Inserts(s, runs, Event.CreateTask(i))
  {
    hide TaskAdded, Admit, ProjectIsActive;
    TaskAddedRuns(before, s, i);
    if i.run.Some? {
      match Admit(s, i.admission, i.run.value)
      case Broken =>
      case Full(reply) =>
      case Inserted(runs, usage) => TaskAddedRuns(before, s.(runs := runs, usage := usage), i);
    }
  }

  lemma CreateInserts(s: State, i: CreateInput)
    ensures var runs := CreateTaskStep(s, i).0.runs; runs == s.runs || Inserts(s, runs, Event.CreateTask(i))
  {
    hide Inserts, CreateClaimed;
    CreateClaimedInserts(s, s, i);
    if i.receipt.Some? {
      var receipts := Claim(s.receipts, i.receipt.value).0;
      var claimed := CreateClaimed(s, s.(receipts := receipts), i).0.runs;
      CreateClaimedInserts(s, s.(receipts := receipts), i);
      if claimed != s.runs { InsertsIgnoresReceipts(s, receipts, claimed, Event.CreateTask(i)); }
    }
  }

  lemma RestartInserts(s: State, task: Id, r: Restart, admission: Admission, receipt: Claiming<Id>)
    ensures var runs := RestartStep(s, task, r, admission, receipt).0.runs;
            runs == s.runs || Inserts(s, runs, Event.RestartTask(task, r, admission, receipt))
  {
    AdmitIgnoresReceipts(s, Claim(s.receipts, receipt).0, admission, r.run);
    hide Admit, CurrentRunIsOver, RestartMatches;
  }

  lemma TerminalClaimedInserts(before: State, s: State, i: TerminalInput, resource: Resource, mine: bool)
    requires i.receipt.key in s.receipts && before.runs == s.runs
    ensures var runs := TerminalClaimed(before, s, i, resource, mine).0.runs; runs == s.runs || Inserts(s, runs, Event.TerminalStart(i))
  {
    TerminalOutcomes(before, s, i, resource, mine);
  }

  lemma TerminalInserts(s: State, i: TerminalInput)
    ensures var runs := TerminalStartStep(s, i).0.runs; runs == s.runs || Inserts(s, runs, Event.TerminalStart(i))
  {
    hide Inserts, TerminalClaimed;
    var (receipts, claimed) := Claim(s.receipts, i.receipt);
    match claimed
    case HashMismatch =>
    case Replay(_) =>
    case InProgress(resource) => TerminalClaimedInserts(s, s, i, resource, false);
    case Claimed(resource) =>
      var runs := TerminalClaimed(s, s.(receipts := receipts), i, resource, true).0.runs;
      TerminalClaimedInserts(s, s.(receipts := receipts), i, resource, true);
      if runs != s.runs { InsertsIgnoresReceipts(s, receipts, runs, Event.TerminalStart(i)); }
  }

  lemma SendClaimedInserts(before: State, s: State, i: SendInput, message: Id)
    requires before.runs == s.runs
    ensures var runs := SendClaimed(before, s, i, message).0.runs; runs == s.runs || Inserts(s, runs, Event.SendMessage(i))
  {
  }

  lemma SendInserts(s: State, i: SendInput)
    ensures var runs := SendStep(s, i).0.runs; runs == s.runs || Inserts(s, runs, Event.SendMessage(i))
  {
    hide Inserts, SendClaimed;
    var (receipts, claimed) := ClaimToSend(s.receipts, i.receipt);
    if claimed.Claimed? {
      var runs := SendClaimed(s, s.(receipts := receipts), i, claimed.resource.id).0.runs;
      SendClaimedInserts(s, s.(receipts := receipts), i, claimed.resource.id);
      if runs != s.runs { InsertsIgnoresReceipts(s, receipts, runs, Event.SendMessage(i)); }
    }
  }

  /** An admission changes the Runs only by inserting its candidate through the capacity gate. */
  lemma AdmissionInserts(s: State, e: Event)
    requires IsAdmission(e)
    ensures Step(s, e).0.runs == s.runs || Inserts(s, Step(s, e).0.runs, e)
  {
    hide Inserts, CreateTaskStep, RestartStep, TerminalStartStep, SendStep;
    match e
    case CreateTask(i) => CreateInserts(s, i);
    case RestartTask(task, r, admission, receipt) => RestartInserts(s, task, r, admission, receipt);
    case TerminalStart(i) => TerminalInserts(s, i);
    case SendMessage(i) => SendInserts(s, i);
  }

  /** Outside the Run's own steps, at most its owned message changes. */
  lemma OthersLeaveRun(s: State, e: Event, k: Id)
    requires k in s.runs && k in Step(s, e).0.runs && !IsRunStep(e)
    ensures Step(s, e).0.runs[k] == s.runs[k].(owned := Step(s, e).0.runs[k].owned)
  {
    if IsAdmission(e) { AdmissionLeavesRun(s, e, k); }
    else if IsDelivery(e) { DeliveryLeavesRun(s, e, k); }
    else { HousekeepingLeavesRun(s, e, k); }
  }

  lemma AdmissionLeavesRun(s: State, e: Event, k: Id)
    requires k in s.runs && k in Step(s, e).0.runs && IsAdmission(e)
    ensures Step(s, e).0.runs[k] == s.runs[k]
  {
    hide Step;
    AdmissionInserts(s, e);
  }

  lemma DeliveryLeavesRun(s: State, e: Event, k: Id)
    requires k in s.runs && k in Step(s, e).0.runs && IsDelivery(e)
    ensures Step(s, e).0.runs[k] == s.runs[k].(owned := Step(s, e).0.runs[k].owned)
  {
    if !e.ClaimMessage? && !e.SettleOwner? { DeliveryKeepsRuns(s, e); }
  }

  lemma DeliveryKeepsRuns(s: State, e: Event)
    requires IsDelivery(e) && !e.ClaimMessage? && !e.SettleOwner?
    ensures Step(s, e).0.runs == s.runs
  {
  }

  lemma HousekeepingLeavesRun(s: State, e: Event, k: Id)
    requires k in s.runs && k in Step(s, e).0.runs && !IsAdmission(e) && !IsDelivery(e) && !IsRunStep(e)
    ensures Step(s, e).0.runs[k] == s.runs[k]
  {
  }

  /** A stored Run only moves up, and its token counts exactly the bumping steps that succeeded with it. */
  ghost predicate StepsUp(s: State, e: Event, k: Id)
    requires k in s.runs && k in Step(s, e).0.runs
  {
    var r, r' := s.runs[k], Step(s, e).0.runs[k];
    && r'.phase.Rank() >= r.phase.Rank()
    && r'.scope == r.scope
    && r'.token == r.token + (if Bumps(s, e, k) then 1 else 0)
    && (Bumps(s, e, k) ==> Presents(e) == Some((k, r.token)))
  }

  /** A step that replaces, at most, the Run it names. */
  ghost predicate Replaces(s: State, s': State, k: Id) {
    s'.runs == s.runs || (k in s.runs && k in s'.runs && s'.runs == s.runs[k := s'.runs[k]])
  }

  lemma StartupReplaces(s: State, run: Id, task: Id, token: int, step: StartupStep)
    requires KeysAgree(s.tasks, s.runs)
    ensures var s' := StartupStepOn(s, run, task, token, step).0;
            Replaces(s, s', run)
            && (run in s.runs ==> s'.runs[run].phase == s.runs[run].phase && s'.runs[run].token == s.runs[run].token && s'.runs[run].scope == s.runs[run].scope)
  {
  }

  /** What a successful bumping step does to the Run it names. */
  ghost predicate Advances(s: State, s': State, applied: bool, k: Id, token: int) {
    && Replaces(s, s', k)
    && (!applied ==> s'.runs == s.runs)
    && (applied ==> k in s.runs && k in s'.runs && s.runs[k].token == token && s'.runs[k].token == token + 1
                       && s'.runs[k].scope == s.runs[k].scope && s'.runs[k].phase.Rank() >= s.runs[k].phase.Rank())
  }

  lemma ActivateAdvances(s: State, i: ActivateInput)
    requires KeysAgree(s.tasks, s.runs)
    ensures var (s', o) := ActivateStep(s, i); Advances(s, s', o.Applied?, i.run, i.token)
  {
  }

  lemma FailRunAdvances(s: State, run: Id, token: int, claim: Option<Id>, at: Time)
    requires KeysAgree(s.tasks, s.runs)
    ensures var (s', o) := FailRunStep(s, run, token, claim, at); Advances(s, s', o.Applied?, run, token)
  {
  }

  lemma FailStartupAdvances(s: State, i: FailStartupInput)
    requires KeysAgree(s.tasks, s.runs)
    ensures var (s', o) := FailStartupStep(s, i); Advances(s, s', o.Applied?, i.run, i.token)
  {
  }

  lemma DrainAdvances(s: State, run: Id, task: Id, token: int, claim: Id, until: Time, at: Time)
    requires KeysAgree(s.tasks, s.runs)
    ensures var (s', o) := DrainStep(s, run, task, token, claim, until, at); Advances(s, s', o.Applied?, run, token)
  {
  }

  lemma CompleteReleaseAdvances(s: State, i: ReleaseInput)
    requires KeysAgree(s.tasks, s.runs)
    ensures var (s', o) := CompleteReleaseStep(s, i); Advances(s, s', o.Applied?, i.run.id, i.token)
  {
  }

  lemma ClaimCleanupAdvances(s: State, run: Id, token: int, at: Time)
    requires KeysAgree(s.tasks, s.runs)
    ensures var (s', o) := ClaimCleanupStep(s, run, token, at); Advances(s, s', o.Applied?, run, token)
  {
    hide CleanupEligible;
  }

  lemma ReturnCleanupAdvances(s: State, run: Id, token: int, held: Held)
    requires KeysAgree(s.tasks, s.runs)
    ensures var (s', o) := ReturnCleanupStep(s, run, token, held); Advances(s, s', o.Applied?, run, token)
  {
    hide ReturnedRun;
    if run in s.runs { ReturnedRunIsSame(s.runs[run], held); }
  }

  lemma ReturnedRunIsSame(r: Run, held: Held)
    ensures var r' := ReturnedRun(r, held);
            r'.id == r.id && r'.scope == r.scope && r'.phase == r.phase && r'.token == r.token + 1
            && r'.deadline == if r.phase.Starting? then held.deadline else r.deadline
  {
  }

  /** A repeated request still moves the token of a Run whose release is already requested. */
  lemma RequestReleaseAdvances(s: State, i: ReleaseRequest)
    requires KeysAgree(s.tasks, s.runs)
    ensures var (s', o) := RequestReleaseStep(s, i);
            Advances(s, s', o.Applied? || (o.Repeated? && s.runs[i.run].phase.ReleaseRequested?), i.run, i.token)
  {
  }

  /** `Advances`, for whichever bumping event it is. */
  lemma BumpAdvances(s: State, e: Event)
    requires Inv(s) && IsRunStep(e) && !e.Startup?
    ensures Presents(e).Some?
    ensures var (k, token) := Presents(e).value; Advances(s, Step(s, e).0, Bumps(s, e, k), k, token)
  {
    assert KeysAgree(s.tasks, s.runs);
    hide Advances, Inv, RequestReleaseStep, CompleteReleaseStep, ClaimCleanupStep, ReturnCleanupStep;
    if IsEarlyStep(e) {
      EarlyBumpAdvances(s, e);
    } else {
      match e
      case RequestRelease(i) => RequestReleaseAdvances(s, i);
      case CompleteRelease(i) => CompleteReleaseAdvances(s, i);
      case ClaimCleanup(run, token, at) => ClaimCleanupAdvances(s, run, token, at);
      case ReturnCleanup(run, token, held) => ReturnCleanupAdvances(s, run, token, held);
    }
  }

  lemma EarlyBumpAdvances(s: State, e: Event)
    requires KeysAgree(s.tasks, s.runs) && IsEarlyStep(e) && !e.Startup?
    ensures Presents(e).Some?
    ensures var (k, token) := Presents(e).value; Advances(s, Step(s, e).0, Bumps(s, e, k), k, token)
  {
    hide Advances, KeysAgree, ActivateStep, FailRunStep, FailStartupStep, DrainStep;
    match e
    case Activate(i) => ActivateAdvances(s, i);
    case FailRun(run, token, claim, at) => FailRunAdvances(s, run, token, claim, at);
    case FailStartup(i) => FailStartupAdvances(s, i);
    case Drain(run, task, token, claim, until, at) => DrainAdvances(s, run, task, token, claim, until, at);
  }

  lemma RunStepsUp(s: State, e: Event, k: Id)
    requires Inv(s) && k in s.runs && k in Step(s, e).0.runs
    ensures StepsUp(s, e, k)
  {
    if !IsRunStep(e) {
      OthersStepUp(s, e, k);
    } else if e.Startup? {
      StartupStepsUp(s, e, k);
    } else {
      BumpStepsUp(s, e, k);
    }
  }

  lemma OthersStepUp(s: State, e: Event, k: Id)
    requires k in s.runs && k in Step(s, e).0.runs && !IsRunStep(e)
    ensures StepsUp(s, e, k)
  {
    hide Step;
    OthersLeaveRun(s, e, k);
  }

  lemma StartupStepsUp(s: State, e: Event, k: Id)
    requires KeysAgree(s.tasks, s.runs) && k in s.runs && k in Step(s, e).0.runs && e.Startup?
    ensures StepsUp(s, e, k)
  {
    hide StartupStepOn;
    StartupReplaces(s, e.run, e.task, e.token, e.step);
  }

  lemma BumpStepsUp(s: State, e: Event, k: Id)
    requires Inv(s) && k in s.runs && k in Step(s, e).0.runs && IsRunStep(e) && !e.Startup?
    ensures StepsUp(s, e, k)
  {
    hide Step, Inv, IsRunStep;
    BumpAdvances(s, e);
  }

  /** A step that does not move the token does not move the phase. */
  lemma PhaseMovesWithToken(s: State, e: Event, k: Id)
    requires Inv(s) && k in s.runs && k in Step(s, e).0.runs && !Bumps(s, e, k)
    ensures Step(s, e).0.runs[k].phase == s.runs[k].phase
  {
    hide Step, Inv, IsRunStep, Bumps;
    if !IsRunStep(e) {
      OthersLeaveRun(s, e, k);
    } else if e.Startup? {
      StartupKeepsPhase(s, e, k);
    } else {
      BumpAdvances(s, e);
    }
  }

  lemma StartupKeepsPhase(s: State, e: Event, k: Id)
    requires Inv(s) && k in s.runs && k in Step(s, e).0.runs && e.Startup?
    ensures Step(s, e).0.runs[k].phase == s.runs[k].phase
  {
    hide StartupStepOn;
    StartupReplaces(s, e.run, e.task, e.token, e.step);
  }

  /** The Run is stored in every state of the run. */
  ghost predicate Stays(s: State, es: seq<Event>, k: Id)
    decreases |es|
  {
    k in s.runs && (es != [] ==> Stays(Step(s, es[0]).0, es[1..], k))
  }

  function BumpCount(s: State, es: seq<Event>, k: Id): nat
    decreases |es|
  {
    if es == [] then 0 else (if Bumps(s, es[0], k) then 1 else 0) + BumpCount(Step(s, es[0]).0, es[1..], k)
  }

  /** Over any run: the phase never falls, and the token is its first value plus the successful bumps. */
  lemma {:induction false} TokenCountsBumps(s: State, es: seq<Event>, k: Id)
    requires Inv(s) && RunsFrom(s, es) && Stays(s, es, k)
    ensures k in After(s, es).runs
    ensures After(s, es).runs[k].token == s.runs[k].token + BumpCount(s, es, k)
    ensures After(s, es).runs[k].phase.Rank() >= s.runs[k].phase.Rank()
    decreases |es|
  {
    if es != [] {
      StepKeeps(s, es[0]);
      RunStepsUp(s, es[0], k);
      TokenCountsBumps(Step(s, es[0]).0, es[1..], k);
    }
  }

  lemma StaleTokenChangesNoRun(s: State, e: Event, k: Id, token: int)
    requires Inv(s) && k in s.runs && Presents(e) == Some((k, token)) && token != s.runs[k].token
    ensures Step(s, e).0.runs == s.runs
    ensures !IsRunStep(e) || e.Startup? ==> Step(s, e) == (s, Refused)
  {
    if IsRunStep(e) && !e.Startup? { BumpAdvances(s, e); }
  }

  /** Of all the steps that present one token of a Run, at most one bumping step ever succeeds. */
  lemma TokenIsSpentOnce(s: State, e: Event, es: seq<Event>, late: Event, k: Id)
    requires Inv(s) && WellFormed(s, e) && Bumps(s, e, k) && k in s.runs
    requires RunsFrom(Step(s, e).0, es) && Stays(Step(s, e).0, es, k)
    requires Presents(late) == Presents(e)
    ensures var s' := After(Step(s, e).0, es);
            !Bumps(s', late, k) && Step(s', late).0.runs == s'.runs
            && (!IsRunStep(late) || late.Startup? ==> Step(s', late) == (s', Refused))
  {
    hide Step, Inv, WellFormed;
    StepKeeps(s, e);
    RunStepsUp(s, e, k);
    var s1 := Step(s, e).0;
    RunsKeepInvariant(s1, es);
    TokenCountsBumps(s1, es, k);
    var s' := After(s1, es);
    StaleTokenChangesNoRun(s', late, k, s.runs[k].token);
    if IsRunStep(late) && !late.Startup? { BumpAdvances(s', late); }
  }

  /* ---------- startup actions ---------- */

  /**
   The events that may end an action with deadline `d`: its owner in time, a failure, the reaper late, or a returned
   cleanup claim whose copy of the Run does not have this action.
   */
  predicate EndsAction(r: Run, e: Event, d: Time) {
    match e
    case Startup(run, _, _, CompleteAction(claimant, until, completedAt, _)) => run == r.id && r.claim == Some(claimant) && until == d && completedAt <= d
    case Startup(run, _, _, RecoverAction(claimant, until)) => run == r.id && r.claim == Some(claimant) && until == d
    case Activate(i) => i.run == r.id && r.claim == Some(i.claim) && i.at <= d
    case FailRun(run, _, _, _) => run == r.id
    case FailStartup(i) => i.run == r.id && r.claim == Some(i.claim)
    case Drain(run, _, _, claim, until, at) => run == r.id && r.claim == Some(claim) && until == d && d <= at
    case CompleteRelease(i) => i.run.id == r.id && d <= i.at
    case ReturnCleanup(run, _, held) => run == r.id && r.phase.Starting? && held.deadline != Some(d)
    case _ => false
  }

  lemma StartupActionEnds(s: State, e: Event, k: Id, d: Time)
    requires Inv(s) && k in s.runs && k in Step(s, e).0.runs && s.runs[k].deadline == Some(d) && e.Startup?
    ensures LastsOrEnds(s, Step(s, e).0, e, k, d)
    ensures e.run == k && e.step.BeginAction? ==> Step(s, e).1.Refused?
    ensures e.run == k && e.step.ClaimStartup? ==> !Step(s, e).1.Applied?
  {
    assert KeysAgree(s.tasks, s.runs);
    StoredUnderItsId(s, k);
    hide Inv, StartupStepOn, StartupRun, LastsOrEnds;
    StartupReplaces(s, e.run, e.task, e.token, e.step);
    if e.run == k { ActorEndsAction(s, e, k, d); } else { assert LastsOrEnds(s, Step(s, e).0, e, k, d); }
  }

  lemma ActorEndsAction(s: State, e: Event, k: Id, d: Time)
    requires k in s.runs && s.runs[k].id == k && s.runs[k].deadline == Some(d) && e.Startup? && e.run == k
    ensures LastsOrEnds(s, Step(s, e).0, e, k, d)
    ensures e.step.BeginAction? ==> Step(s, e).1.Refused?
    ensures e.step.ClaimStartup? ==> !Step(s, e).1.Applied?
  {
  }

  /** The Run is still stored, and the deadline stays or one of the entitled events took it away. */
  predicate LastsOrEnds(s: State, s': State, e: Event, k: Id, d: Time)
    requires k in s.runs
  {
    k in s'.runs && (s'.runs[k].deadline == Some(d) || ((s'.runs[k].deadline.None? || e.ReturnCleanup?) && EndsAction(s.runs[k], e, d)))
  }

  lemma FailureEndsAction(s: State, e: Event, k: Id, d: Time)
    requires k in s.runs && s.runs[k].id == k && s.runs[k].deadline == Some(d)
    requires (e.FailRun? || e.FailStartup? || e.Drain?) && Presents(e).value.0 == k
    ensures LastsOrEnds(s, Step(s, e).0, e, k, d)
  {
  }

  lemma ActivationEndsAction(s: State, e: Event, k: Id, d: Time)
    requires k in s.runs && s.runs[k].id == k && s.runs[k].deadline == Some(d) && e.Activate? && e.activate.run == k
    ensures LastsOrEnds(s, Step(s, e).0, e, k, d)
  {
  }

  lemma ReleaseActionEnds(s: State, e: Event, k: Id, d: Time)
    requires k in s.runs && s.runs[k].id == k && s.runs[k].deadline == Some(d) && e.CompleteRelease? && e.release.run.id == k
    ensures LastsOrEnds(s, Step(s, e).0, e, k, d)
  {
  }

  lemma RequestKeepsAction(s: State, e: Event, k: Id, d: Time)
    requires k in s.runs && s.runs[k].id == k && s.runs[k].deadline == Some(d) && e.RequestRelease? && e.request.run == k
    ensures LastsOrEnds(s, Step(s, e).0, e, k, d)
  {
    hide EndsAction;
  }

  lemma ClaimKeepsAction(s: State, e: Event, k: Id, d: Time)
    requires k in s.runs && s.runs[k].id == k && s.runs[k].deadline == Some(d) && e.ClaimCleanup? && e.run == k
    ensures LastsOrEnds(s, Step(s, e).0, e, k, d)
  {
    hide EndsAction, CleanupEligible;
  }

  lemma ReturnEndsAction(s: State, e: Event, k: Id, d: Time)
    requires k in s.runs && s.runs[k].id == k && s.runs[k].deadline == Some(d) && e.ReturnCleanup? && e.run == k
    ensures LastsOrEnds(s, Step(s, e).0, e, k, d)
  {
    hide ReturnedRun;
    ReturnedRunIsSame(s.runs[k], e.held);
  }

  /** A step for another Run leaves this one alone. */
  lemma OtherRunsKeepAction(s: State, e: Event, k: Id, d: Time)
    requires IsRunStep(e) && !e.Startup? && Presents(e).Some? && Presents(e).value.0 != k
    requires k in s.runs && s.runs[k].deadline == Some(d) && Inv(s)
    ensures LastsOrEnds(s, Step(s, e).0, e, k, d)
  {
    hide Step, Inv, IsRunStep, EndsAction;
    BumpAdvances(s, e);
  }

  lemma BumpActionEnds(s: State, e: Event, k: Id, d: Time)
    requires IsRunStep(e) && !e.Startup? && k in s.runs && s.runs[k].deadline == Some(d) && Inv(s)
    ensures LastsOrEnds(s, Step(s, e).0, e, k, d)
  {
    hide Step, EndsAction, LastsOrEnds, Inv;
    StoredUnderItsId(s, k);
    if Presents(e).value.0 != k { OtherRunsKeepAction(s, e, k, d); }
    else if e.CompleteRelease? { ReleaseActionEnds(s, e, k, d); }
    else if e.RequestRelease? { RequestKeepsAction(s, e, k, d); }
    else if e.ClaimCleanup? { ClaimKeepsAction(s, e, k, d); }
    else if e.ReturnCleanup? { ReturnEndsAction(s, e, k, d); }
    else if e.Activate? { ActivationEndsAction(s, e, k, d); }
    else { FailureEndsAction(s, e, k, d); }
  }

  /** Until its deadline an action is ended only by its owner or a failure; afterwards also by the reaper. */
  lemma ActionEnds(s: State, e: Event, k: Id, d: Time)
    requires Inv(s) && k in s.runs && k in Step(s, e).0.runs && s.runs[k].deadline == Some(d)
    ensures LastsOrEnds(s, Step(s, e).0, e, k, d)
  {
    hide Step, Inv, EndsAction;
    if !IsRunStep(e) { OthersLeaveRun(s, e, k); }
    else if e.Startup? { StartupActionEnds(s, e, k, d); }
    else { BumpActionEnds(s, e, k, d); }
  }

  /** Before the deadline nobody else can clean up, release or restart the action. */
  lemma DeadlineProtects(s: State, k: Id, d: Time, task: Id, token: int, at: Time, claimant: Id, until: Time, i: ReleaseInput)
    requires Inv(s) && k in s.runs && s.runs[k].deadline == Some(d) && at < d && i.run.id == k && i.at < d
    ensures ClaimCleanupStep(s, k, token, at) == (s, Refused)
    ensures CompleteReleaseStep(s, i) == (s, Refused)
    ensures StartupStepOn(s, k, task, token, BeginAction(claimant, at, until)).1.Refused?
  {
    assert ActionHasOwner(s.runs[k]);
  }

  ghost predicate NeverEnds(s: State, es: seq<Event>, k: Id, d: Time)
    decreases |es|
  {
    es == [] || (k in s.runs && !EndsAction(s.runs[k], es[0], d) && NeverEnds(Step(s, es[0]).0, es[1..], k, d))
  }

  /** Over any run in which nobody entitled ends the action, the deadline stays as it was set. */
  lemma {:induction false} ActionLasts(s: State, es: seq<Event>, k: Id, d: Time)
    requires Inv(s) && RunsFrom(s, es) && Stays(s, es, k) && NeverEnds(s, es, k, d) && s.runs[k].deadline == Some(d)
    ensures k in After(s, es).runs && After(s, es).runs[k].deadline == Some(d)
    decreases |es|
  {
    if es != [] {
      StepKeeps(s, es[0]);
      ActionEnds(s, es[0], k, d);
      ActionLasts(Step(s, es[0]).0, es[1..], k, d);
    }
  }

  /** And until then nobody else can clean up, release or restart the action, at whatever point of the run they try. */
  lemma ActionIsProtected(s: State, es: seq<Event>, k: Id, d: Time, task: Id, token: int, at: Time, claimant: Id, until: Time, i: ReleaseInput)
    requires Inv(s) && RunsFrom(s, es) && Stays(s, es, k) && NeverEnds(s, es, k, d) && s.runs[k].deadline == Some(d)
    requires at < d && i.run.id == k && i.at < d
    ensures var s' := After(s, es);
            ClaimCleanupStep(s', k, token, at) == (s', Refused) && CompleteReleaseStep(s', i) == (s', Refused)
            && StartupStepOn(s', k, task, token, BeginAction(claimant, at, until)).1.Refused?
  {
    hide Inv, ClaimCleanupStep, CompleteReleaseStep, StartupStepOn;
    RunsKeepInvariant(s, es);
    ActionLasts(s, es, k, d);
    DeadlineProtects(After(s, es), k, d, task, token, at, claimant, until, i);
  }

  /** A cleanup claim fences out whoever started the action: none of its later steps does anything. */
  lemma CleanupFencesOwner(s: State, k: Id, token: int, at: Time, es: seq<Event>, late: Event)
    requires Inv(s) && ClaimCleanupStep(s, k, token, at).1.Applied?
    requires RunsFrom(ClaimCleanupStep(s, k, token, at).0, es) && Stays(ClaimCleanupStep(s, k, token, at).0, es, k)
    requires late.Startup? || late.Activate? || late.Drain?
    requires Presents(late) == Some((k, token))
    ensures var s' := After(ClaimCleanupStep(s, k, token, at).0, es); Step(s', late).0.runs == s'.runs
  {
    TokenIsSpentOnce(s, Event.ClaimCleanup(k, token, at), es, late, k);
  }
}
