/**
 The sandbox side of the product store: Runs, the Tasks that own them, the messages they deliver, the
 receipts of the mutations on them, and the project's capacity counter. Each operation is a function from
 state and input to state and outcome, one atomic step of the store.
 */
module SandboxModel {
  import opened Basics
  import opened Receipts

  /** The states of a Run, in the only order it can go through them. */
  datatype Phase = Starting | Active | Failed | ReleaseRequested | Released {
    function Rank(): nat {
      match this
      case Starting => 0
      case Active => 1
      case Failed => 2
      case ReleaseRequested => 3
      case Released => 4
    }
  }

  /** The identifiers a Task and its Run must agree on. */
  datatype Scope = Scope(workspace: Id, project: Id, task: Id, library: Id)

  datatype Resources = Resources(cpuMillis: nat, memoryBytes: nat)

  datatype Reason = Requested | AfterFailure

  /** What startup has recorded about the pod; `names` is the resource identity without its config map. */
  datatype Startup = Startup(names: Id, namedConfigMap: Option<Id>, configMap: Option<Id>, configHash: Option<Id>,
                             podUid: Option<Id>, podIp: Option<Id>)

  datatype Run = Run(
    id: Id, scope: Scope, namespace: Id, startedBy: Id, resources: Resources, createdAt: Time,
    startup: Startup, startedAt: Option<Time>, readyAt: Option<Time>,
    phase: Phase, token: int,
    claim: Option<Id>, lease: Option<Time>, deadline: Option<Time>,
    cleanupClaimedAt: Option<Time>, cleanupAttempts: nat,
    owned: Option<Id>,
    failedAt: Option<Time>, releaseRequestedAt: Option<Time>, releasedAt: Option<Time>, reason: Option<Reason>)

  datatype Task = Task(scope: Scope, endpoint: Id, currentRun: Option<Id>, archived: bool, deleted: bool)

  datatype Delivery = Pending | Dispatching | DeliveryFailed | Accepted {
    function Rank(): nat {
      match this
      case Pending => 0
      case Dispatching => 1
      case DeliveryFailed => 2
      case Accepted => 3
    }
  }

  datatype Message = Message(task: Id, createdAt: Time, delivery: Delivery, claim: Option<Id>, deleted: bool)

  datatype Lifecycle = ProjectActive | ProjectArchived | ProjectDeleting

  datatype Project = Project(workspace: Id, lifecycle: Lifecycle)

  datatype Settlement = Settlement(run: Id, scope: Scope, startedBy: Id, startedAt: Option<Time>, releasedAt: Time,
                                   duration: nat, resources: Resources, reason: Option<Reason>)

  datatype Reply =
    | RunActivated(run: Id)
    | RunNotStarted(run: Id)
    | StartConflict
    | ProjectFull(active: nat, limit: nat)
    | NamespaceFull
    | Response(status: nat, body: Id)

  type Ledger = map<Key, Record<Id, Reply>>

  /**
   `published` holds the messages that have an interaction in the task's log; `policies` holds the
   sandbox limit (None: unlimited) and `usage` the active-sandbox counter of each project.
   */
  datatype State = State(
    projects: map<Id, Project>, policies: map<Id, Option<nat>>, usage: map<Id, nat>,
    tasks: map<Id, Task>, runs: map<Id, Run>, messages: map<Id, Message>, published: set<Id>,
    receipts: Ledger, settlements: map<Id, Settlement>)

  datatype Outcome =
    | Applied
    | Repeated
    | Busy
    | NotReady
    | Refused
    | Mismatch
    | Replayed(reply: Reply)
    | Rejected(reply: Reply)
    | Aborted

  /* ---------- shared pieces ---------- */

  function RunOf(runs: map<Id, Run>, id: Option<Id>): Option<Run> {
    if id.Some? && id.value in runs then Some(runs[id.value]) else None
  }

  predicate ProjectIsActive(s: State, id: Id) {
    id in s.projects && s.projects[id].lifecycle.ProjectActive?
  }

  /** The Runs that occupy a sandbox of the project. */
  function Unreleased(runs: map<Id, Run>, project: Id): set<Id> {
    set k | k in runs && runs[k].scope.project == project && !runs[k].phase.Released?
  }

  function UnreleasedInNamespace(runs: map<Id, Run>, namespace: Id): set<Id> {
    set k | k in runs && runs[k].namespace == namespace && !runs[k].phase.Released?
  }

  function WithExactUsage(usage: map<Id, nat>, runs: map<Id, Run>, project: Id): map<Id, nat> {
    if project in usage then usage[project := |Unreleased(runs, project)|] else usage
  }

  /** The open terminal-start receipts on a Run. */
  function PendingStarts(receipts: Ledger, run: Id): set<Key> {
    set k | k in receipts && k.operation == TerminalStart && receipts[k].resource == OnRun(run) && receipts[k].reply.None?
  }

  predicate StartsAreAmbiguous(receipts: Ledger, run: Id) {
    |PendingStarts(receipts, run)| > 1
  }

  /** Every way a Run leaves `Starting` closes its terminal-start receipt. */
  function StartsClosed(receipts: Ledger, run: Id, reply: Reply): Ledger {
    CompletedWhere(receipts, PendingStarts(receipts, run), reply)
  }

  function ReplyForRun(run: Run): Reply {
    if run.phase.Active? then RunActivated(run.id) else RunNotStarted(run.id)
  }

  /** The message a Run owns fails with the Run unless it was already accepted. */
  function OwnedFailed(messages: map<Id, Message>, run: Run): map<Id, Message> {
    if run.owned.None? || run.owned.value !in messages then messages
    else
      var m := messages[run.owned.value];
      if m.task == run.scope.task && !m.deleted && m.delivery.Dispatching?
      then messages[run.owned.value := m.(delivery := DeliveryFailed)] else messages
  }

  /* ---------- admission ---------- */

  datatype Admission = Admission(namespace: Id, limit: int)

  datatype Admitted = Full(reply: Reply) | Inserted(runs: map<Id, Run>, usage: map<Id, nat>) | Broken

  /** The capacity gate. A second unreleased Run of one task, or a known run id, breaks the transaction. */
  function Admit(s: State, admission: Admission, run: Run): Admitted {
    var active := |Unreleased(s.runs, run.scope.project)|;
    if admission.namespace != run.namespace || admission.limit <= 0 || run.scope.project !in s.policies then Broken
    else if s.policies[run.scope.project].Some? && active >= s.policies[run.scope.project].value then
      Full(ProjectFull(active, s.policies[run.scope.project].value))
    else if |UnreleasedInNamespace(s.runs, run.namespace)| >= admission.limit then Full(NamespaceFull)
    else if run.id in s.runs || exists k :: k in s.runs && s.runs[k].scope.task == run.scope.task && !s.runs[k].phase.Released? then Broken
    else
      var runs := s.runs[run.id := run];
      Inserted(runs, WithExactUsage(s.usage, runs, run.scope.project))
  }

  /** A Run as the services build it for insertion. */
  predicate FreshRun(run: Run) {
    run.phase.Starting? && run.owned.None? && run.claim.None? && run.lease.None? && run.deadline.None? && run.cleanupClaimedAt.None?
  }

  /* ---------- tasks ---------- */

  /** The outcome of the file-library guards of task creation (the library model computes it). */
  datatype Binding = Bindable | NotBindable

  datatype FirstMessage = FirstMessage(id: Id, createdAt: Time, published: bool)

  datatype CreateInput = CreateInput(task: Task, run: Option<Run>, admission: Admission, receipt: Option<Claiming<Id>>,
                                     binding: Binding, message: Option<FirstMessage>)

  function CreateTaskStep(s: State, i: CreateInput): (State, Outcome) {
    if i.task.currentRun != (if i.run.Some? then Some(i.run.value.id) else None)
       || (i.run.Some? && (i.run.value.scope != i.task.scope || i.receipt.None?)) then (s, Aborted)
    else ClaimAndCreate(s, i)
  }

  function ClaimAndCreate(s: State, i: CreateInput): (State, Outcome) {
    if i.receipt.Some? then
      var (receipts, claimed) := Claim(s.receipts, i.receipt.value);
      match claimed
      case HashMismatch => (s, Mismatch)
      case Replay(reply) => (s, Replayed(reply))
      case InProgress(_) => (s, Busy)
      case Claimed(resource) =>
        if resource != OnTask(i.task.scope.task) then (s.(receipts := receipts), Busy) else CreateClaimed(s, s.(receipts := receipts), i)
    else CreateClaimed(s, s, i)
  }

  /** `before` is what an aborted creation leaves behind; `s` already holds the claim. */
  function CreateClaimed(before: State, s: State, i: CreateInput): (State, Outcome) {
    var id := i.task.scope.task;
    if id in s.tasks then (before, Aborted)
    else if !ProjectIsActive(s, i.task.scope.project) || i.binding.NotBindable? then (s, Refused)
    else if i.run.None? then TaskAdded(before, s, i)
    else
      match Admit(s, i.admission, i.run.value)
      case Broken => (before, Aborted)
      case Full(reply) => CapacityReply(before, s, i.receipt, reply)
      case Inserted(runs, usage) => TaskAdded(before, s.(runs := runs, usage := usage), i)
  }

  function TaskAdded(before: State, s: State, i: CreateInput): (State, Outcome) {
    var added := s.(tasks := s.tasks[i.task.scope.task := i.task]);
    if i.message.None? then (added, Applied)
    else if i.message.value.id in s.messages then (before, Aborted)
    else (MessageAdded(added, i.message.value.id, i.task.scope.task, i.message.value.createdAt, i.message.value.published), Applied)
  }

  function MessageAdded(s: State, id: Id, task: Id, createdAt: Time, publish: bool): State {
    s.(messages := s.messages[id := Message(task, createdAt, Pending, None, false)],
       published := if publish then s.published + {id} else s.published)
  }

  /** A refused admission completes the caller's receipt with the capacity reply. */
  function CapacityReply(before: State, s: State, receipt: Option<Claiming<Id>>, reply: Reply): (State, Outcome) {
    if receipt.None? || !Holds(s.receipts, receipt.value.key, receipt.value.hash, receipt.value.token) then (before, Aborted)
    else (s.(receipts := Completed(s.receipts, receipt.value.key, reply)), Rejected(reply))
  }

  datatype Restart = Restart(expected: Option<Id>, scope: Scope, endpoint: Id, newRun: Option<Id>, run: Run)

  /** A restart names the stored task and brings a new starting Run for it. */
  predicate RestartMatches(task: Task, r: Restart) {
    r.scope == task.scope && r.endpoint == task.endpoint && r.newRun != r.expected && r.newRun == Some(r.run.id)
    && r.run.scope == task.scope && r.run.phase.Starting?
  }

  /** The task's current Run leaves room for a new one: there is none, or it is a released Run of this task. */
  predicate CurrentRunIsOver(s: State, task: Task) {
    task.currentRun.Some? ==>
      var run := RunOf(s.runs, task.currentRun);
      run.Some? && run.value.scope == task.scope && run.value.phase.Released?
  }

  function RestartStep(s: State, taskId: Id, r: Restart, admission: Admission, receipt: Claiming<Id>): (State, Outcome) {
    var (receipts, claimed) := Claim(s.receipts, receipt);
    match claimed
    case HashMismatch => (s, Mismatch)
    case Replay(reply) => (s, Replayed(reply))
    case InProgress(_) => (s, Busy)
    case Claimed(resource) =>
      var c := s.(receipts := receipts);
      if resource != OnTask(taskId) then (s, Aborted)
      else if taskId !in s.tasks || !ProjectIsActive(s, r.scope.project) then (c, Refused)
      else
        var task := s.tasks[taskId];
        if task.deleted || task.archived || task.currentRun != r.expected || !CurrentRunIsOver(s, task) || !RestartMatches(task, r) then (c, Refused)
        else
          match Admit(c, admission, r.run)
          case Broken => (s, Aborted)
          case Full(reply) => CapacityReply(s, c, Some(receipt), reply)
          case Inserted(runs, usage) => (RunStarted(c.(runs := runs, usage := usage), taskId, r.run.id), Applied)
  }

  function RunStarted(s: State, taskId: Id, run: Id): State
    requires taskId in s.tasks
  {
    s.(tasks := s.tasks[taskId := s.tasks[taskId].(currentRun := Some(run))])
  }

  /* ---------- terminal start ---------- */

  datatype TerminalInput = TerminalInput(task: Id, receipt: Claiming<Id>, restart: Option<Restart>, reservedAt: Time, admission: Option<Admission>)

  function ResourceRun(runs: map<Id, Run>, resource: Resource): Option<Run> {
    if resource.OnRun? then RunOf(runs, Some(resource.id)) else None
  }

  /** Another open terminal-start receipt on this receipt's Run or on the task's current Run. */
  predicate OtherOwner(receipts: Ledger, key: Key, resource: Resource, currentRun: Option<Id>) {
    exists k :: k in receipts && k != key && k.operation == TerminalStart && receipts[k].reply.None?
                && (receipts[k].resource == resource || (currentRun.Some? && receipts[k].resource == OnRun(currentRun.value)))
  }

  function TerminalStartStep(s: State, i: TerminalInput): (State, Outcome) {
    var (receipts, claimed) := Claim(s.receipts, i.receipt);
    match claimed
    case HashMismatch => (s, Mismatch)
    case Replay(reply) => (s, Replayed(reply))
    case InProgress(resource) => TerminalClaimed(s, s, i, resource, false)
    case Claimed(resource) => TerminalClaimed(s, s.(receipts := receipts), i, resource, true)
  }

  function TerminalReply(s: State, key: Key, reply: Reply): (State, Outcome)
    requires key in s.receipts
  {
    (s.(receipts := Completed(s.receipts, key, reply)), Replayed(reply))
  }

  function TerminalClaimed(before: State, s: State, i: TerminalInput, resource: Resource, mine: bool): (State, Outcome)
    requires i.receipt.key in s.receipts
  {
    var key := i.receipt.key;
    if i.task !in s.tasks || s.tasks[i.task].deleted || s.tasks[i.task].archived || s.tasks[i.task].scope.project != key.project
    then TerminalReply(s, key, StartConflict)
    else
      var task := s.tasks[i.task];
      var run := ResourceRun(s.runs, resource);
      var bound := run.Some? && run.value.scope == task.scope;
      if OtherOwner(s.receipts, key, resource, task.currentRun) then TerminalReply(s, key, StartConflict)
      else if bound then
        if task.currentRun == Some(run.value.id) && run.value.phase.Starting? then (s, if mine then Applied else Busy)
        else TerminalReply(s, key, ReplyForRun(run.value))
      else if !mine then TerminalReply(s, key, StartConflict)
      else if i.restart.None? || i.restart.value.expected != task.currentRun || resource != OnRun(i.restart.value.run.id)
              || !RestartMatches(task, i.restart.value) || !CurrentRunIsOver(s, task)
      then TerminalReply(s, key, StartConflict)
      else if i.admission.None? then (before, Aborted)
      else
        var ready := i.restart.value.run.(readyAt := Some(i.reservedAt));
        match Admit(s, i.admission.value, ready)
        case Broken => (before, Aborted)
        case Full(reply) => CapacityReply(before, s, Some(i.receipt), reply)
        case Inserted(runs, usage) => (RunStarted(s.(runs := runs, usage := usage), i.task, ready.id), Applied)
  }

  /* ---------- messages ---------- */

  datatype SendInput = SendInput(task: Id, receipt: Claiming<Id>, createdAt: Time, expected: Option<Id>,
                                 restart: Option<Restart>, reservedAt: Time, admission: Admission, reply: Reply)

  /** Unlike the other mutations, a sender that presents its own token again leaves the lease alone. */
  function ClaimToSend(receipts: Ledger, c: Claiming<Id>): (Ledger, ClaimResult<Reply>) {
    if c.key in receipts && receipts[c.key].hash == c.hash && receipts[c.key].reply.None? && receipts[c.key].claim == c.token
    then (receipts, Claimed(receipts[c.key].resource))
    else Claim(receipts, c)
  }

  function SendStep(s: State, i: SendInput): (State, Outcome) {
    var (receipts, claimed) := ClaimToSend(s.receipts, i.receipt);
    match claimed
    case HashMismatch => (s, Mismatch)
    case Replay(reply) => (s, Replayed(reply))
    case InProgress(_) => (s, Busy)
    case Claimed(resource) => SendClaimed(s, s.(receipts := receipts), i, resource.id)
  }

  predicate AcceptsMessages(task: Task, run: Option<Run>) {
    run.Some? && run.value.scope == task.scope && (run.value.phase.Starting? || run.value.phase.Active?)
  }

  function SendClaimed(before: State, s: State, i: SendInput, message: Id): (State, Outcome) {
    var key := i.receipt.key;
    if !ProjectIsActive(s, key.project) || i.task !in s.tasks then (s, Refused)
    else
      var task := s.tasks[i.task];
      if task.deleted || task.archived || task.scope.project != key.project then (s, Refused)
      else if message in s.messages then (s, Repeated)
      else if AcceptsMessages(task, RunOf(s.runs, task.currentRun)) then MessageSent(before, s, i, message)
      else if task.currentRun != i.expected || i.restart.None? || !CurrentRunIsOver(s, task)
              || !RestartMatches(task, i.restart.value.(expected := i.expected)) then (s, Refused)
      else
        var ready := i.restart.value.run.(readyAt := Some(i.reservedAt));
        match Admit(s, i.admission, ready)
        case Broken => (before, Aborted)
        case Full(reply) => CapacityReply(before, s, Some(i.receipt), reply)
        case Inserted(runs, usage) => MessageSent(before, RunStarted(s.(runs := runs, usage := usage), i.task, ready.id), i, message)
  }

  function MessageSent(before: State, s: State, i: SendInput, message: Id): (State, Outcome) {
    if !Holds(s.receipts, i.receipt.key, i.receipt.hash, i.receipt.token) then (before, Aborted)
    else (MessageAdded(s, message, i.task, i.createdAt, true).(receipts := Completed(s.receipts, i.receipt.key, i.reply)), Applied)
  }

  function QueueMessageStep(s: State, task: Id, message: Id, createdAt: Time): (State, Outcome) {
    if task !in s.tasks || s.tasks[task].deleted then (s, Refused)
    else if message in s.messages then (s, Aborted)
    else (MessageAdded(s, message, task, createdAt, true), Applied)
  }

  function DeleteMessageStep(s: State, task: Id, message: Id, receipt: Claiming<Id>, reply: Reply): (State, Outcome) {
    if !ProjectIsActive(s, receipt.key.project) then (s, Refused)
    else
      var (receipts, claimed) := Claim(s.receipts, receipt);
      match claimed
      case HashMismatch => (s, Mismatch)
      case Replay(r) => (s, Replayed(r))
      case InProgress(_) => (s, Busy)
      case Claimed(resource) => MessageDeleted(s, s.(receipts := receipts), task, message, receipt.key, resource, reply)
  }

  function MessageDeleted(before: State, s: State, task: Id, message: Id, key: Key, resource: Resource, reply: Reply): (State, Outcome)
    requires key in s.receipts
  {
    if resource != OnMessage(message) || task !in s.tasks || s.tasks[task].scope.project != key.project
       || s.tasks[task].deleted || s.tasks[task].archived || message !in s.messages || s.messages[message].task != task
       || !(s.messages[message].delivery.Pending? || s.messages[message].delivery.DeliveryFailed?)
    then (before, Refused)
    else (s.(messages := s.messages[message := s.messages[message].(deleted := true)],
             published := s.published - {message},
             receipts := Completed(s.receipts, key, reply)), Applied)
  }

  /** Ordering of a task's messages: creation time, then identifier. */
  predicate Before(a: Message, aId: Id, b: Message, bId: Id) {
    a.createdAt < b.createdAt || (a.createdAt == b.createdAt && aId < bId)
  }

  predicate Blocks(s: State, older: Id, target: Id)
    requires older in s.messages && target in s.messages
  {
    var a := s.messages[older];
    a.task == s.messages[target].task && !a.deleted && older in s.published
    && (a.delivery.Pending? || a.delivery.Dispatching?) && Before(a, older, s.messages[target], target)
  }

  predicate HasOlderUnresolved(s: State, target: Id)
    requires target in s.messages
  {
    exists older :: older in s.messages && Blocks(s, older, target)
  }

  function ClaimMessageStep(s: State, message: Id, task: Id, run: Id, token: int, claim: Id): (State, Outcome) {
    if message !in s.messages || s.messages[message].task !in s.tasks || run !in s.runs then (s, Refused)
    else
      var m, t, r := s.messages[message], s.tasks[s.messages[message].task], s.runs[run];
      if t.deleted || t.scope.task != task || t.currentRun != Some(run) || r.scope.task != task || !r.phase.Active? || r.token != token
         || r.owned.Some? || m.deleted || message !in s.published || !m.delivery.Pending? || m.claim.Some? || HasOlderUnresolved(s, message)
      then (s, Refused)
      else (s.(messages := s.messages[message := m.(delivery := Dispatching, claim := Some(claim))],
               runs := s.runs[run := r.(owned := Some(message))]), Applied)
  }

  function AcceptMessageStep(s: State, message: Id, task: Id, run: Id, claim: Id): (State, Outcome) {
    if message !in s.messages || task !in s.tasks || run !in s.runs then (s, Refused)
    else
      var m, r := s.messages[message], s.runs[run];
      if m.task != task || s.tasks[task].currentRun != Some(run) || !r.phase.Active? || r.scope.task != task || r.owned != Some(message)
         || m.deleted || !m.delivery.Dispatching? || m.claim != Some(claim)
      then (s, Refused)
      else (s.(messages := s.messages[message := m.(delivery := Accepted)]), Applied)
  }

  /** How the Run's owner settles: a delivered input is accepted, an undelivered one fails. */
  function Settled(d: Delivery, observed: bool): Delivery {
    if observed then Accepted else if d.Dispatching? then DeliveryFailed else d
  }

  function SettleOwnerStep(s: State, message: Id, task: Id, run: Id, token: int, observed: bool): (State, Outcome) {
    if message !in s.messages || task !in s.tasks || run !in s.runs then (s, Refused)
    else
      var m, r := s.messages[message], s.runs[run];
      if s.tasks[task].currentRun != Some(run) || !r.phase.Active? || r.token != token || r.owned != Some(message) || m.task != task || m.deleted
      then (s, Refused)
      else (s.(messages := s.messages[message := m.(delivery := Settled(m.delivery, observed))],
               runs := s.runs[run := r.(owned := None)]), Applied)
  }

  /** The projector saw the message in the runtime's own transcript. */
  function ObserveAcceptedStep(s: State, message: Id, task: Id): (State, Outcome) {
    if task !in s.tasks || s.tasks[task].deleted then (s, Aborted)
    else if message !in s.messages || s.messages[message].task != task || s.messages[message].deleted then (s, Refused)
    else (s.(messages := s.messages[message := s.messages[message].(delivery := Accepted)]), Applied)
  }

  /* ---------- startup ---------- */

  /** The guard every startup step shares: the expected token on the starting Run the live task points at. */
  predicate StartupGuard(s: State, run: Id, task: Id, token: int) {
    run in s.runs && task in s.tasks && s.runs[run].phase.Starting? && s.runs[run].token == token
    && s.tasks[task].currentRun == Some(run) && s.tasks[task].scope == s.runs[run].scope
  }

  predicate TaskIsOpen(s: State, task: Id)
    requires task in s.tasks
  {
    !s.tasks[task].deleted && !s.tasks[task].archived
  }

  function WithRun(s: State, run: Run): State {
    s.(runs := s.runs[run.id := run])
  }

  datatype StartupStep =
    | MarkReady(at: Time)
    | InitializeConfig(claim: Option<Id>, configMap: Option<Id>, configHash: Option<Id>)
    | RecordPod(claim: Option<Id>, configMap: Option<Id>, configHash: Option<Id>, podUid: Option<Id>, podIp: Option<Id>, podReadyAt: Option<Time>)
    | ClaimStartup(claimant: Id, claimedAt: Time, leaseUntil: Time)
    | BeginAction(claimant: Id, startedAt: Time, until: Time)
    | CompleteAction(claimant: Id, until: Time, completedAt: Time, leaseUntil: Time)
    | RecoverAction(claimant: Id, until: Time)

  /** The steps a starting Run takes without leaving `Starting`; none of them moves the fencing token. */
  function StartupRun(r: Run, open: bool, step: StartupStep): (Run, Outcome) {
    match step
    case MarkReady(at) =>
      if !open then (r, Refused) else if r.readyAt.Some? then (r, Repeated) else (r.(readyAt := Some(at)), Applied)
    case InitializeConfig(claim, configMap, configHash) =>
      if !open || (claim.Some? && r.claim != claim) then (r, Refused)
      else if r.startup.configMap.Some? || r.startup.configHash.Some? then
        (r, if r.startup.configMap == configMap && r.startup.configHash == configHash then Repeated else Refused)
      else if configMap.None? || configHash.None? then (r, Refused)
      else (r.(startup := r.startup.(namedConfigMap := configMap, configMap := configMap, configHash := configHash)), Applied)
    case RecordPod(claim, configMap, configHash, podUid, podIp, podReadyAt) =>
      if !open || (claim.Some? && r.claim != claim) || r.startup.configMap != configMap || r.startup.configHash != configHash
         || podUid.None? || (podReadyAt.Some? && podIp.None?) || r.startup.namedConfigMap != r.startup.configMap
         || (r.startup.podUid.Some? && r.startup.podUid != podUid) || (r.startup.podIp.Some? && r.startup.podIp != podIp)
      then (r, Refused)
      else (r.(startup := r.startup.(podUid := podUid, podIp := if r.startup.podIp.Some? then r.startup.podIp else podIp),
               startedAt := if r.startedAt.Some? then r.startedAt else podReadyAt), Applied)
    case ClaimStartup(claimant, claimedAt, leaseUntil) =>
      if !open then (r, Refused)
      else if r.readyAt.None? then (r, NotReady)
      else if r.deadline.Some? then (r, Busy)
      else if r.claim.Some? && r.claim != Some(claimant) && r.lease.Some? && r.lease.value > claimedAt then (r, Busy)
      else (r.(claim := Some(claimant), lease := Some(leaseUntil)), Applied)
    case BeginAction(claimant, startedAt, until) =>
      if r.claim != Some(claimant) || r.deadline.Some? || until <= startedAt then (r, Refused)
      else (r.(deadline := Some(until)), Applied)
    case CompleteAction(claimant, until, completedAt, leaseUntil) =>
      if r.claim != Some(claimant) || r.deadline != Some(until) || completedAt > until || leaseUntil <= completedAt then (r, Refused)
      else (r.(lease := Some(leaseUntil), deadline := None), Applied)
    case RecoverAction(claimant, until) =>
      if r.claim != Some(claimant) || r.deadline != Some(until) then (r, Refused)
      else (r.(claim := None, lease := None, deadline := None), Applied)
  }

  function StartupStepOn(s: State, run: Id, task: Id, token: int, step: StartupStep): (State, Outcome) {
    if !StartupGuard(s, run, task, token) then (s, Refused)
    else
      var (r, o) := StartupRun(s.runs[run], TaskIsOpen(s, task), step);
      (WithRun(s, r), o)
  }

  datatype ActivateInput = ActivateInput(task: Id, run: Id, token: int, claim: Id, until: Time, configMap: Option<Id>, configHash: Option<Id>,
                                         podUid: Option<Id>, podIp: Option<Id>, at: Time)

  predicate ActivationGuard(r: Run, open: bool, i: ActivateInput) {
    r.phase.Starting? && r.token == i.token && r.claim == Some(i.claim) && r.deadline == Some(i.until) && i.at <= i.until && open
    && r.startup.configMap == i.configMap && r.startup.configHash == i.configHash && r.startup.namedConfigMap == r.startup.configMap
    && r.startup.podUid == i.podUid && r.startup.podIp == i.podIp
  }

  function ActivatedRun(r: Run, at: Time): Run {
    r.(phase := Active, startedAt := if r.startedAt.Some? then r.startedAt else Some(at), claim := None, lease := None, deadline := None, token := r.token + 1)
  }

  function ActivateStep(s: State, i: ActivateInput): (State, Outcome) {
    if i.run !in s.runs || i.task !in s.tasks || s.tasks[i.task].currentRun != Some(i.run) || s.tasks[i.task].scope != s.runs[i.run].scope then (s, Refused)
    else
      var r := s.runs[i.run];
      if r.phase.Active? && TaskIsOpen(s, i.task) then (s, Repeated)
      else if !ActivationGuard(r, TaskIsOpen(s, i.task), i) then (s, Refused)
      else if StartsAreAmbiguous(s.receipts, r.id) then (s, Aborted)
      else
        (WithRun(s, ActivatedRun(r, i.at)).(receipts := StartsClosed(s.receipts, r.id, RunActivated(r.id))), Applied)
  }

  /* ---------- the end of a Run ---------- */

  function FailedRun(r: Run, at: Time): Run {
    r.(phase := Failed, owned := None, reason := Some(AfterFailure),
       failedAt := if r.failedAt.Some? then r.failedAt else Some(at),
       releaseRequestedAt := if r.releaseRequestedAt.Some? then r.releaseRequestedAt else Some(at),
       claim := None, lease := None, deadline := None, cleanupClaimedAt := None, token := r.token + 1)
  }

  predicate FailGuard(s: State, run: Id, token: int, claim: Option<Id>) {
    run in s.runs && s.runs[run].token == token && (claim.Some? ==> s.runs[run].claim == claim)
    && (s.runs[run].phase.Starting? || s.runs[run].phase.Active?)
  }

  /** Replaces `r` by its ended form: the owned message and the terminal-start receipt end with it. */
  function EndRun(s: State, r: Run, ended: Run, reply: Reply): (State, Outcome) {
    if StartsAreAmbiguous(s.receipts, r.id) then (s, Aborted)
    else (WithRun(s, ended).(messages := OwnedFailed(s.messages, r), receipts := StartsClosed(s.receipts, r.id, reply)), Applied)
  }

  function FailRunStep(s: State, run: Id, token: int, claim: Option<Id>, at: Time): (State, Outcome) {
    if !FailGuard(s, run, token, claim) then (s, Refused)
    else EndRun(s, s.runs[run], FailedRun(s.runs[run], at), RunNotStarted(run))
  }

  datatype FailStartupInput = FailStartupInput(run: Id, token: int, failureClaim: Option<Id>, at: Time, key: Key, hash: Id, holder: Id, reply: Reply,
                                               task: Id, claim: Id, names: Id, configMap: Option<Id>)

  /** The failure path of a terminal start. It does not settle an owned message: a starting Run owns none. */
  function FailStartupStep(s: State, i: FailStartupInput): (State, Outcome) {
    if i.key !in s.receipts || s.receipts[i.key].hash != i.hash then (s, Refused)
    else if s.receipts[i.key].reply.Some? then (s, Replayed(s.receipts[i.key].reply.value))
    else if s.receipts[i.key].claim != i.holder || i.key.operation != TerminalStart || s.receipts[i.key].resource != OnRun(i.run) then (s, Refused)
    else if i.run !in s.runs || i.task !in s.tasks then (s, Refused)
    else
      var r, t := s.runs[i.run], s.tasks[i.task];
      if r.scope.task != i.task || t.currentRun != Some(i.run) || t.scope.project != i.key.project || r.claim != Some(i.claim)
         || r.startup.names != i.names || r.startup.namedConfigMap != i.configMap || !FailGuard(s, i.run, i.token, i.failureClaim)
      then (s, Refused)
      else if StartsAreAmbiguous(s.receipts, r.id) then (s, Aborted)
      else (WithRun(s, FailedRun(r, i.at)).(receipts := StartsClosed(s.receipts, r.id, i.reply)), Applied)
  }

  /** The reaper gives up on a startup action that outlived its deadline. */
  function DrainStep(s: State, run: Id, task: Id, token: int, claim: Id, until: Time, at: Time): (State, Outcome) {
    if !StartupGuard(s, run, task, token) then (s, Refused)
    else
      var r := s.runs[run];
      if r.claim != Some(claim) || r.deadline != Some(until) || until > at || r.cleanupClaimedAt.None? then (s, Refused)
      else if StartsAreAmbiguous(s.receipts, r.id) then (s, Aborted)
      else (WithRun(s, FailedRun(r, at)).(receipts := StartsClosed(s.receipts, r.id, RunNotStarted(r.id))), Applied)
  }

  function ReleaseRequestedRun(r: Run, at: Time): Run {
    r.(phase := ReleaseRequested, owned := None,
       reason := if r.reason.Some? then r.reason else Some(if r.phase.Failed? then AfterFailure else Requested),
       releaseRequestedAt := if r.releaseRequestedAt.Some? then r.releaseRequestedAt else Some(at),
       claim := if r.deadline.None? then None else r.claim, lease := if r.deadline.None? then None else r.lease,
       cleanupClaimedAt := None, token := r.token + 1)
  }

  datatype ReleaseRequest = ReleaseRequest(task: Id, run: Id, token: int, key: Key, hash: Id, holder: Id, reply: Reply, at: Time)

  function RequestReleaseStep(s: State, i: ReleaseRequest): (State, Outcome) {
    if !Holds(s.receipts, i.key, i.hash, i.holder) || i.task !in s.tasks || s.tasks[i.task].deleted
       || s.tasks[i.task].scope.project != i.key.project || s.tasks[i.task].currentRun != Some(i.run) || i.key.project !in s.projects
       || s.receipts[i.key].resource != OnRun(i.run) || i.run !in s.runs || s.runs[i.run].scope.task != i.task || s.runs[i.run].token != i.token
    then (s, Refused)
    else
      var r := s.runs[i.run];
      if s.tasks[i.task].scope != r.scope then (s, Aborted)
      else if r.phase.Released? then
        if StartsAreAmbiguous(s.receipts, r.id) then (s, Aborted)
        else (s.(messages := OwnedFailed(s.messages, r),
                 receipts := CompletedWhere(StartsClosed(s.receipts, r.id, RunNotStarted(r.id)), {i.key}, i.reply)), Repeated)
      else
        var (s', o) := EndRun(s, r, ReleaseRequestedRun(r, i.at), RunNotStarted(r.id));
        (s', if o.Applied? && r.phase.ReleaseRequested? then Repeated else o)
  }

  /** What may not change between the stored Run and the released Run that replaces it. */
  predicate SameIdentity(a: Run, b: Run) {
    a.id == b.id && a.scope == b.scope && a.namespace == b.namespace && a.startedBy == b.startedBy && a.resources == b.resources
    && a.createdAt == b.createdAt && a.startup == b.startup && a.startedAt == b.startedAt
  }

  /** Whole milliseconds between start and release; a clock that ran backwards counts nothing. */
  function RunDuration(startedAt: Option<Time>, end: Time): nat {
    if startedAt.None? || end <= startedAt.value then 0 else end - startedAt.value
  }

  predicate SettlementMatches(v: Settlement, current: Run, released: Run) {
    released.releasedAt.Some? && v.run == current.id && v.scope == current.scope && v.startedBy == current.startedBy
    && v.startedAt == current.startedAt && v.releasedAt == released.releasedAt.value
    && v.duration == RunDuration(current.startedAt, released.releasedAt.value) && v.reason == released.reason && v.resources == current.resources
  }

  datatype ReleaseInput = ReleaseInput(run: Run, token: int, at: Time, settlement: Settlement, receipt: Option<Reply>)

  predicate TaskOfRun(s: State, r: Run) {
    r.scope.task in s.tasks && r.scope.project in s.projects && !s.tasks[r.scope.task].deleted && s.tasks[r.scope.task].currentRun == Some(r.id)
    && s.tasks[r.scope.task].scope == r.scope && s.projects[r.scope.project].workspace == r.scope.workspace
  }

  function OpenReleases(receipts: Ledger, project: Id, run: Id): set<Key> {
    set k | k in receipts && k.project == project && k.operation == ReleaseSandbox && receipts[k].resource == OnRun(run) && receipts[k].reply.None?
  }

  function ReleaseReceiptsClosed(receipts: Ledger, r: Run, reply: Option<Reply>): Ledger {
    if reply.None? then receipts else CompletedWhere(receipts, OpenReleases(receipts, r.scope.project, r.id), reply.value)
  }

  predicate ReleaseGuard(r: Run, i: ReleaseInput) {
    !(r.deadline.Some? && r.deadline.value > i.at) && r.token == i.token && i.run.token == r.token + 1 && i.run.phase.Released?
    && i.run.deadline.None? && SettlementMatches(i.settlement, r, i.run)
  }

  /** The rows a release locks: the project, its policy and its usage. */
  predicate ProjectRecords(s: State, project: Id) {
    project in s.projects && project in s.policies && project in s.usage
  }

  /** The task's row still points at the Run, whether the task is deleted or not. */
  predicate PointsAtRun(s: State, r: Run) {
    r.scope.task in s.tasks && s.tasks[r.scope.task].currentRun == Some(r.id) && s.tasks[r.scope.task].scope == r.scope
  }

  /** Release completion, as the database store does it. */
  function CompleteReleaseStep(s: State, i: ReleaseInput): (State, Outcome) {
    var id := i.run.id;
    if !ProjectRecords(s, i.run.scope.project) || id !in s.runs || !SameIdentity(s.runs[id], i.run) || !PointsAtRun(s, s.runs[id]) then (s, Refused)
    else if s.runs[id].phase.Released? then RepeatedRelease(s, i, s.runs[id])
    else if !ReleaseGuard(s.runs[id], i) || !TaskOfRun(s, s.runs[id]) then (s, Refused)
    else if StartsAreAmbiguous(s.receipts, id) || id in s.settlements then (s, Aborted)
    else
      var runs := s.runs[id := i.run.(owned := None)];
      (s.(runs := runs, messages := OwnedFailed(s.messages, s.runs[id]),
          receipts := ReleaseReceiptsClosed(StartsClosed(s.receipts, id, ReplyForRun(i.run)), i.run, i.receipt),
          settlements := s.settlements[id := i.settlement], usage := WithExactUsage(s.usage, runs, i.run.scope.project)), Applied)
  }

  /** Of a Run that was released before, only the terminal start is answered and the project recounted. */
  function RepeatedRelease(s: State, i: ReleaseInput, r: Run): (State, Outcome) {
    if r.id !in s.settlements || s.settlements[r.id] != i.settlement then (s, Refused)
    else if StartsAreAmbiguous(s.receipts, r.id) then (s, Aborted)
    else (s.(receipts := StartsClosed(s.receipts, r.id, ReplyForRun(r)), usage := WithExactUsage(s.usage, s.runs, r.scope.project)), Repeated)
  }

  /* ---------- cleanup ---------- */

  const CLEANUP_LEASE: Time := 120_000

  predicate CleanupEligible(r: Run, at: Time) {
    var expired := r.deadline.Some? && r.deadline.value <= at;
    (r.phase.ReleaseRequested? || r.phase.Failed? || (r.phase.Starting? && expired))
    && (expired || r.lease.None? || r.lease.value <= at)
    && (r.deadline.None? || r.deadline.value <= at)
    && (r.cleanupClaimedAt.None? || r.cleanupClaimedAt.value <= at - CLEANUP_LEASE)
  }

  function ClaimCleanupStep(s: State, run: Id, token: int, at: Time): (State, Outcome) {
    if run !in s.runs || s.runs[run].token != token || !CleanupEligible(s.runs[run], at) then (s, Refused)
    else
      var r := s.runs[run];
      (WithRun(s, r.(cleanupClaimedAt := Some(at), cleanupAttempts := r.cleanupAttempts + 1, token := r.token + 1)), Applied)
  }

  /** The fields of a Run that its startup work changes. */
  datatype Held = Held(startup: Startup, startedAt: Option<Time>, readyAt: Option<Time>, claim: Option<Id>, lease: Option<Time>, deadline: Option<Time>)

  function HeldOf(r: Run): Held {
    Held(r.startup, r.startedAt, r.readyAt, r.claim, r.lease, r.deadline)
  }

  /**
   The reaper gives its claim back by writing its copy of the Run; this is the one use the services make of the fenced
   raw update. `held` is what the copy says of the startup work, which counts only while the Run is starting.
   */
  function ReturnCleanupStep(s: State, run: Id, token: int, held: Held): (State, Outcome) {
    if run !in s.runs || s.runs[run].token != token then (s, Refused)
    else if s.runs[run].phase.Starting? && (held.startup != s.runs[run].startup || held.startedAt != s.runs[run].startedAt) then (s, Aborted)
    else (WithRun(s, ReturnedRun(s.runs[run], held)), Applied)
  }

  function ReturnedRun(r: Run, held: Held): Run {
    var returned := r.(cleanupClaimedAt := None, token := r.token + 1);
    if r.phase.Starting? then returned.(readyAt := held.readyAt, claim := held.claim, lease := held.lease, deadline := held.deadline) else returned
  }

  /* ---------- archiving and deletion ---------- */

  predicate TaskSandboxReleased(s: State, id: Id)
    requires id in s.tasks
  {
    (forall k :: k in s.runs && s.runs[k].scope.task == s.tasks[id].scope.task ==> s.runs[k].phase.Released?)
    && CurrentRunIsOver(s, s.tasks[id])
  }

  function CloseTaskStep(s: State, id: Id, delete: bool): (State, Outcome) {
    if id !in s.tasks || (!delete && s.tasks[id].deleted) || !ProjectIsActive(s, s.tasks[id].scope.project) then (s, Refused)
    else if !TaskSandboxReleased(s, id) then (s, NotReady)
    else
      var t := s.tasks[id];
      (s.(tasks := s.tasks[id := if delete then t.(deleted := true) else t.(archived := true)]), Applied)
  }

  function WithoutTask(s: State, id: Id): State {
    s.(tasks := s.tasks - {id},
       published := (set k | k in s.published && !(k in s.messages && s.messages[k].task == id)),
       messages := map k | k in s.messages && s.messages[k].task != id :: s.messages[k],
       runs := map k | k in s.runs && s.runs[k].scope.task != id :: s.runs[k])
  }

  datatype Completion = Completion(key: Key, hash: Id, holder: Id, reply: Reply)

  function PurgeTaskStep(s: State, id: Id, completion: Option<Completion>): (State, Outcome) {
    if id !in s.tasks || !s.tasks[id].deleted || !TaskSandboxReleased(s, id) then (s, Refused)
    else if completion.None? then (WithoutTask(s, id), Applied)
    else
      var c := completion.value;
      if !Holds(s.receipts, c.key, c.hash, c.holder) || s.receipts[c.key].resource != OnTask(id) then (s, Refused)
      else (WithoutTask(s, id).(receipts := Completed(s.receipts, c.key, c.reply)), Applied)
  }

  /* ---------- projects ---------- */

  function CreateProjectStep(s: State, id: Id, workspace: Id, limit: Option<nat>): (State, Outcome) {
    (s.(projects := s.projects[id := Project(workspace, ProjectActive)], policies := s.policies[id := limit], usage := s.usage[id := 0]), Applied)
  }

  function SetLimitStep(s: State, id: Id, limit: Option<nat>): (State, Outcome) {
    if id !in s.policies then (s, Refused) else (s.(policies := s.policies[id := limit]), Applied)
  }

  function SetLifecycleStep(s: State, id: Id, archived: bool): (State, Outcome) {
    if id !in s.projects || s.projects[id].lifecycle.ProjectDeleting? then (s, Refused)
    else (s.(projects := s.projects[id := s.projects[id].(lifecycle := if archived then ProjectArchived else ProjectActive)]), Applied)
  }

  /** `providerLive`: an open provider settlement of the project, from the provider ledger. */
  function BeginProjectDeletionStep(s: State, id: Id, providerLive: bool): (State, Outcome) {
    if id !in s.projects then (s, Refused)
    else if providerLive || Unreleased(s.runs, id) != {} then
      (if s.projects[id].lifecycle.ProjectDeleting? then s.(projects := s.projects[id := s.projects[id].(lifecycle := ProjectActive)]) else s, NotReady)
    else (s.(projects := s.projects[id := s.projects[id].(lifecycle := ProjectDeleting)]), Applied)
  }

  predicate InProject(s: State, message: Id, project: Id) {
    message in s.messages && s.messages[message].task in s.tasks && s.tasks[s.messages[message].task].scope.project == project
  }

  function WithoutProject(s: State, id: Id, kept: Option<Key>): State {
    State(s.projects - {id}, s.policies - {id}, s.usage - {id},
          map k | k in s.tasks && s.tasks[k].scope.project != id :: s.tasks[k],
          map k | k in s.runs && s.runs[k].scope.project != id :: s.runs[k],
          map k | k in s.messages && !InProject(s, k, id) :: s.messages[k],
          (set k | k in s.published && !InProject(s, k, id)),
          map k | k in s.receipts && (k.project != id || kept == Some(k)) :: s.receipts[k],
          map k | k in s.settlements && s.settlements[k].scope.project != id :: s.settlements[k])
  }

  function FinalizeProjectStep(s: State, id: Id, providerLive: bool, completion: Option<Completion>): (State, Outcome) {
    if id !in s.projects || !s.projects[id].lifecycle.ProjectDeleting? || providerLive || Unreleased(s.runs, id) != {} then (s, NotReady)
    else if completion.None? then (WithoutProject(s, id, None), Applied)
    else
      var c := completion.value;
      if !Holds(s.receipts, c.key, c.hash, c.holder) || s.receipts[c.key].resource != OnProject(id) || c.key.project != id || c.key.operation != DeleteProject
      then (s, NotReady)
      else
        var s' := WithoutProject(s, id, Some(c.key));
        (s'.(receipts := Completed(s'.receipts, c.key, c.reply)), Applied)
  }

  /* ---------- plain receipts ---------- */

  function BeginReceiptStep(s: State, c: Claiming<Id>): (State, Outcome) {
    var (receipts, claimed) := Begin(s.receipts, c);
    (s.(receipts := receipts), match claimed
                               case Claimed(_) => Applied
                               case HashMismatch => Mismatch
                               case InProgress(_) => Busy
                               case Replay(reply) => Replayed(reply))
  }

  function CompleteReceiptStep(s: State, c: Completion): (State, Outcome) {
    var (receipts, done) := Complete(s.receipts, c.key, c.hash, c.holder, c.reply);
    (s.(receipts := receipts), if done then Applied else Refused)
  }
}
