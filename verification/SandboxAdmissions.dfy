/** What lets a Run, a task or a message in, and what ends tasks and projects, in terms of the stored fields. */
module SandboxAdmissions {
  import opened Basics
  import opened Receipts
  import opened SandboxModel
  import opened SandboxRuns
  import opened SandboxEffects

  /* ---------- capacity ---------- */

  predicate IsUnreleased(s: State, k: Id) {
    k in s.runs && s.runs[k].phase != Released
  }

  /** The limit of the project comes first, then that of the namespace; only then does the Run itself matter. */
  lemma AdmissionTells(s: State, admission: Admission, r: Run)
    ensures
      var p := r.scope.project;
      var active := |set k | k in s.runs && s.runs[k].phase != Released && s.runs[k].scope.project == p|;
      var busy := |set k | k in s.runs && s.runs[k].phase != Released && s.runs[k].namespace == r.namespace|;
      Admit(s, admission, r)
      == if admission.namespace != r.namespace || admission.limit < 1 || p !in s.policies then Broken
         else if s.policies[p].Some? && active >= s.policies[p].value then Full(ProjectFull(active, s.policies[p].value))
         else if busy >= admission.limit then Full(NamespaceFull)
         else if r.id in s.runs || exists k :: IsUnreleased(s, k) && s.runs[k].scope.task == r.scope.task then Broken
         else
           var runs := s.runs[r.id := r];
           Inserted(runs, if p in s.usage then s.usage[p := |set k | k in runs && runs[k].phase != Released && runs[k].scope.project == p|] else s.usage)
  {
    var p, runs := r.scope.project, s.runs[r.id := r];
    assert Unreleased(s.runs, p) == set k | k in s.runs && s.runs[k].phase != Released && s.runs[k].scope.project == p;
    assert Unreleased(runs, p) == set k | k in runs && runs[k].phase != Released && runs[k].scope.project == p;
    assert UnreleasedInNamespace(s.runs, r.namespace) == set k | k in s.runs && s.runs[k].phase != Released && s.runs[k].namespace == r.namespace;
    assert forall k :: IsUnreleased(s, k) <==> k in s.runs && !s.runs[k].phase.Released?;
  }

  /** A refused admission answers the receipt the caller holds open, or the whole mutation is undone. */
  lemma RefusalAnswers(before: State, s: State, receipt: Option<Claiming<Id>>, reply: Reply)
    ensures
      CapacityReply(before, s, receipt, reply)
      == if receipt.Some? && receipt.value.key in s.receipts && s.receipts[receipt.value.key].reply == None
            && s.receipts[receipt.value.key].hash == receipt.value.hash && s.receipts[receipt.value.key].claim == receipt.value.token
         then (s.(receipts := s.receipts[receipt.value.key := s.receipts[receipt.value.key].(reply := Some(reply))]), Rejected(reply))
         else (before, Aborted)
  {
  }

  /* ---------- tasks ---------- */

  predicate IsActiveProject(s: State, project: Id) {
    project in s.projects && s.projects[project].lifecycle == ProjectActive
  }

  /** A creation whose parts fit together claims its receipt first, if it has one; only a claim about this very task goes on. */
  lemma CreationClaims(s: State, i: CreateInput)
    ensures
      var fits := i.task.currentRun == (if i.run.Some? then Some(i.run.value.id) else None)
                  && (i.run.Some? ==> i.run.value.scope == i.task.scope && i.receipt.Some?);
      var (receipts, claimed) := if i.receipt.Some? then Claim(s.receipts, i.receipt.value) else (s.receipts, Claimed(OnTask(i.task.scope.task)));
      CreateTaskStep(s, i)
      == if !fits then (s, Aborted)
         else if claimed == Claimed(OnTask(i.task.scope.task)) then CreateClaimed(s, s.(receipts := receipts), i)
         else
           match claimed
           case HashMismatch => (s, Mismatch)
           case Replay(reply) => (s, Replayed(reply))
           case InProgress(_) => (s, Busy)
           case Claimed(_) => (s.(receipts := receipts), Busy)
  {
    hide Claim, CreateClaimed;
  }

  /** The message a new task starts with waits unclaimed. */
  function WithFirst(messages: map<Id, Message>, first: Option<FirstMessage>, task: Id): map<Id, Message> {
    if first.Some? then messages[first.value.id := Message(task, first.value.createdAt, Pending, None, false)] else messages
  }

  /**
   A new task of an active project enters with its Run admitted and its first message waiting; its receipt stays open. A
   full project or namespace is answered, a used identifier undoes everything.
   */
  lemma TaskIsAdded(before: State, s: State, i: CreateInput)
    ensures
      var (s', o) := CreateClaimed(before, s, i);
      var id := i.task.scope.task;
      var admitted := if i.run.Some? then Admit(s, i.admission, i.run.value) else Inserted(s.runs, s.usage);
      if id in s.tasks then (s', o) == (before, Aborted)
      else if !IsActiveProject(s, i.task.scope.project) || i.binding == NotBindable then (s', o) == (s, Refused)
      else if admitted.Full? then (s', o) == CapacityReply(before, s, i.receipt, admitted.reply)
      else if admitted.Broken? || (i.message.Some? && i.message.value.id in s.messages) then (s', o) == (before, Aborted)
      else
        o == Applied
        && s' == s.(tasks := s.tasks[id := i.task], runs := admitted.runs, usage := admitted.usage, messages := WithFirst(s.messages, i.message, id),
                    published := if i.message.Some? && i.message.value.published then s.published + {i.message.value.id} else s.published)
  {
    hide Admit, CapacityReply;
  }

  /** The task points at a Run that is over, and a restart that knows it brings a new one for this task. */
  predicate MayRestart(s: State, task: Id, expected: Option<Id>, r: Restart) {
    task in s.tasks && s.tasks[task].currentRun == expected && IsOver(s, task)
    && r.scope == s.tasks[task].scope && r.endpoint == s.tasks[task].endpoint && r.run.scope == s.tasks[task].scope && r.run.phase == Starting
    && r.newRun == Some(r.run.id) && r.newRun != expected
  }

  predicate IsOver(s: State, task: Id)
    requires task in s.tasks
  {
    s.tasks[task].currentRun.Some? ==>
      s.tasks[task].currentRun.value in s.runs && s.runs[s.tasks[task].currentRun.value].scope == s.tasks[task].scope
      && s.runs[s.tasks[task].currentRun.value].phase == Released
  }

  /** The Run is admitted and becomes the current one of the task. */
  function Restarted(s: State, task: Id, a: Admitted, run: Id): State
    requires task in s.tasks && a.Inserted?
  {
    s.(runs := a.runs, usage := a.usage, tasks := s.tasks[task := s.tasks[task].(currentRun := Some(run))])
  }

  /** A restart claims its receipt for the task, replaces exactly the expected Run of an open task of an active project, and changes nothing else. */
  lemma TaskIsRestarted(s: State, task: Id, r: Restart, admission: Admission, receipt: Claiming<Id>)
    ensures
      var step := RestartStep(s, task, r, admission, receipt);
      var (receipts, claimed) := Claim(s.receipts, receipt);
      var c := s.(receipts := receipts);
      match claimed
      case HashMismatch => step == (s, Mismatch)
      case Replay(reply) => step == (s, Replayed(reply))
      case InProgress(_) => step == (s, Busy)
      case Claimed(resource) =>
        if resource != OnTask(task) then step == (s, Aborted)
        else if !IsActiveProject(s, r.scope.project) || !IsOpen(s, task) || !MayRestart(s, task, r.expected, r) then step == (c, Refused)
        else
          match Admit(c, admission, r.run)
          case Broken => step == (s, Aborted)
          case Full(reply) => step == CapacityReply(s, c, Some(receipt), reply)
          case Inserted(runs, usage) => step == (Restarted(c, task, Inserted(runs, usage), r.run.id), Applied)
  {
    hide Admit, Claim, CapacityReply;
  }

  /* ---------- messages that may restart a task ---------- */

  /** The task's current Run takes messages: it is starting or active. */
  predicate TakesMessages(s: State, task: Id)
    requires task in s.tasks
  {
    s.tasks[task].currentRun.Some? && s.tasks[task].currentRun.value in s.runs
    && s.runs[s.tasks[task].currentRun.value].scope == s.tasks[task].scope && s.runs[s.tasks[task].currentRun.value].phase in {Starting, Active}
  }

  /** The message enters waiting and published, and the receipt, which the sender must hold open, is answered; or nothing happens. */
  lemma MessageIsSent(before: State, s: State, i: SendInput, message: Id)
    ensures
      MessageSent(before, s, i, message)
      == if i.receipt.key in s.receipts && s.receipts[i.receipt.key].reply == None && s.receipts[i.receipt.key].hash == i.receipt.hash
            && s.receipts[i.receipt.key].claim == i.receipt.token
         then (s.(messages := s.messages[message := Message(i.task, i.createdAt, Pending, None, false)], published := s.published + {message},
                  receipts := s.receipts[i.receipt.key := s.receipts[i.receipt.key].(reply := Some(i.reply))]), Applied)
         else (before, Aborted)
  {
  }

  /**
   A sender that has its claim sends to an open task of its active project: straight to a Run that takes messages, or with
   a restart of a Run that is over, which is ready from the moment it was reserved.
   */
  lemma SenderTells(before: State, s: State, i: SendInput, message: Id)
    ensures
      var step := SendClaimed(before, s, i, message);
      if !IsActiveProject(s, i.receipt.key.project) || !IsOpen(s, i.task) || s.tasks[i.task].scope.project != i.receipt.key.project
      then step == (s, Refused)
      else if message in s.messages then step == (s, Repeated)
      else if TakesMessages(s, i.task) then step == MessageSent(before, s, i, message)
      else if i.restart == None || !MayRestart(s, i.task, i.expected, i.restart.value) then step == (s, Refused)
      else
        var ready := i.restart.value.run.(readyAt := Some(i.reservedAt));
        match Admit(s, i.admission, ready)
        case Broken => step == (before, Aborted)
        case Full(reply) => step == CapacityReply(before, s, Some(i.receipt), reply)
        case Inserted(runs, usage) => step == MessageSent(before, Restarted(s, i.task, Inserted(runs, usage), ready.id), i, message)
  {
    hide Admit, CapacityReply, MessageSent;
  }

  /** The claim of a sender: its own open claim, which it may present again without touching the lease, or an ordinary one. */
  lemma SenderClaims(s: State, i: SendInput)
    ensures
      var mine := i.receipt.key in s.receipts && s.receipts[i.receipt.key].hash == i.receipt.hash && s.receipts[i.receipt.key].reply == None
                  && s.receipts[i.receipt.key].claim == i.receipt.token;
      var (receipts, claimed) := if mine then (s.receipts, Claimed(s.receipts[i.receipt.key].resource)) else Claim(s.receipts, i.receipt);
      SendStep(s, i)
      == match claimed
         case HashMismatch => (s, Mismatch)
         case Replay(reply) => (s, Replayed(reply))
         case InProgress(_) => (s, Busy)
         case Claimed(resource) => SendClaimed(s, s.(receipts := receipts), i, resource.id)
  {
    hide Claim, SendClaimed;
  }

  /* ---------- terminal starts ---------- */

  /** Another terminal start waits for this resource or for the task's current Run. */
  predicate IsContested(s: State, key: Key, resource: Resource, task: Id)
    requires task in s.tasks
  {
    exists k :: k in s.receipts && k != key && k.operation == Operation.TerminalStart && s.receipts[k].reply == None
                && (s.receipts[k].resource == resource || (s.tasks[task].currentRun.Some? && s.receipts[k].resource == OnRun(s.tasks[task].currentRun.value)))
  }

  /** The receipt is answered for good. */
  function Answered(s: State, key: Key, reply: Reply): (State, Outcome)
    requires key in s.receipts
  {
    (s.(receipts := s.receipts[key := s.receipts[key].(reply := Some(reply))]), Replayed(reply))
  }

  /**
   A terminal start that is claimed, or in progress, goes by the Run its receipt is about: while that is the starting current
   one the start stays open; another Run of the task answers it; with none yet, a restart that fits is admitted; all else is
   a conflict.
   */
  lemma TerminalStartTells(before: State, s: State, i: TerminalInput, resource: Resource, mine: bool)
    requires i.receipt.key in s.receipts
    ensures
      var key, step := i.receipt.key, TerminalClaimed(before, s, i, resource, mine);
      if !IsOpen(s, i.task) || s.tasks[i.task].scope.project != key.project || IsContested(s, key, resource, i.task) then step == Answered(s, key, StartConflict)
      else if resource.OnRun? && resource.id in s.runs && s.runs[resource.id].scope == s.tasks[i.task].scope then
        var r := s.runs[resource.id];
        if s.tasks[i.task].currentRun == Some(r.id) && r.phase == Starting then step == (s, if mine then Applied else Busy)
        else step == Answered(s, key, if r.phase == Active then RunActivated(r.id) else RunNotStarted(r.id))
      else if !mine || i.restart == None || resource != OnRun(i.restart.value.run.id)
              || !MayRestart(s, i.task, i.restart.value.expected, i.restart.value) then step == Answered(s, key, StartConflict)
      else if i.admission == None then step == (before, Aborted)
      else
        var ready := i.restart.value.run.(readyAt := Some(i.reservedAt));
        match Admit(s, i.admission.value, ready)
        case Broken => step == (before, Aborted)
        case Full(reply) => step == CapacityReply(before, s, Some(i.receipt), reply)
        case Inserted(runs, usage) => step == (Restarted(s, i.task, Inserted(runs, usage), ready.id), Applied)
  {
    hide Admit, CapacityReply, IsContested, OtherOwner;
    if i.task in s.tasks { ContestedIff(s, i.receipt.key, resource, i.task); }
  }

  lemma ContestedIff(s: State, key: Key, resource: Resource, task: Id)
    requires task in s.tasks
    ensures IsContested(s, key, resource, task) <==> OtherOwner(s.receipts, key, resource, s.tasks[task].currentRun)
  {
  }

  lemma TerminalStartClaims(s: State, i: TerminalInput)
    ensures
      var (receipts, claimed) := Claim(s.receipts, i.receipt);
      match claimed
      case HashMismatch => TerminalStartStep(s, i) == (s, Mismatch)
      case Replay(reply) => TerminalStartStep(s, i) == (s, Replayed(reply))
      case InProgress(resource) => i.receipt.key in s.receipts && TerminalStartStep(s, i) == TerminalClaimed(s, s, i, resource, false)
      case Claimed(resource) => i.receipt.key in receipts && TerminalStartStep(s, i) == TerminalClaimed(s, s.(receipts := receipts), i, resource, true)
  {
    hide TerminalClaimed;
  }

  /* ---------- receipts of their own ---------- */

  /** A receipt that is begun or completed on its own tells its caller how it fared, and nothing else changes. */
  lemma ReceiptsTell(s: State, c: Claiming<Id>, d: Completion)
    ensures
      var (receipts, begun) := Begin(s.receipts, c);
      BeginReceiptStep(s, c)
      == (s.(receipts := receipts), if begun.Claimed? then Applied else if begun.HashMismatch? then Mismatch else if begun.InProgress? then Busy
                                    else Replayed(begun.reply))
    ensures
      var (receipts, done) := Complete(s.receipts, d.key, d.hash, d.holder, d.reply);
      CompleteReceiptStep(s, d) == (s.(receipts := receipts), if done then Applied else Refused)
  {
    hide Begin, Complete;
  }

  /* ---------- the end of tasks and projects ---------- */

  /** The sandbox of the task is gone: no Run of it is unreleased, and its current Run, if any, is a released Run of it. */
  ghost predicate IsIdle(s: State, task: Id)
    requires task in s.tasks
  {
    (forall k :: IsUnreleased(s, k) ==> s.runs[k].scope.task != s.tasks[task].scope.task) && IsOver(s, task)
  }

  lemma IdleIff(s: State, task: Id)
    requires task in s.tasks
    ensures IsIdle(s, task) <==> TaskSandboxReleased(s, task)
  {
    assert forall k :: IsUnreleased(s, k) <==> k in s.runs && !s.runs[k].phase.Released?;
  }

  /** A task of an active project whose sandbox is gone is archived, or deleted; a deleted one only deleted again. */
  lemma TaskIsClosed(s: State, task: Id, delete: bool)
    ensures
      var (s', o) := CloseTaskStep(s, task, delete);
      if task !in s.tasks || (s.tasks[task].deleted && !delete) || !IsActiveProject(s, s.tasks[task].scope.project) then (s', o) == (s, Refused)
      else if !IsIdle(s, task) then (s', o) == (s, NotReady)
      else
        (s', o) == (s.(tasks := s.tasks[task := s.tasks[task].(deleted := s.tasks[task].deleted || delete, archived := s.tasks[task].archived || !delete)]), Applied)
  {
    if task in s.tasks { IdleIff(s, task); }
    hide IsIdle, TaskSandboxReleased;
  }

  /** Purging takes away a deleted task, its Runs, its messages and what they published, for the holder of its receipt, and nothing else. */
  lemma TaskIsPurged(s: State, task: Id, completion: Option<Completion>)
    ensures
      var (s', o) := PurgeTaskStep(s, task, completion);
      var held := completion.Some? ==>
        completion.value.key in s.receipts && s.receipts[completion.value.key].reply == None && s.receipts[completion.value.key].hash == completion.value.hash
        && s.receipts[completion.value.key].claim == completion.value.holder && s.receipts[completion.value.key].resource == OnTask(task);
      (o == if task in s.tasks && s.tasks[task].deleted && IsIdle(s, task) && held then Applied else Refused)
      && (!o.Applied? ==> s' == s)
      && (o.Applied? ==>
            s'.tasks == s.tasks - {task}
            && (forall k :: k in s'.runs <==> k in s.runs && s.runs[k].scope.task != task) && (forall k :: k in s'.runs ==> s'.runs[k] == s.runs[k])
            && (forall k :: k in s'.messages <==> k in s.messages && s.messages[k].task != task)
            && (forall k :: k in s'.messages ==> s'.messages[k] == s.messages[k])
            && (forall k :: k in s'.published <==> k in s.published && (k in s.messages ==> s.messages[k].task != task))
            && s' == s.(tasks := s'.tasks, runs := s'.runs, messages := s'.messages, published := s'.published, receipts := s'.receipts)
            && s'.receipts == if completion.Some? then s.receipts[completion.value.key := s.receipts[completion.value.key].(reply := Some(completion.value.reply))]
                              else s.receipts)
  {
    if task in s.tasks { IdleIff(s, task); }
    hide IsIdle, TaskSandboxReleased;
  }

  /** Projects: a new one is active and empty, an archived one may come back, one in deletion stays so, and only an idle one goes into deletion. */
  lemma ProjectsChange(s: State, id: Id, workspace: Id, limit: Option<nat>, archived: bool, live: bool)
    ensures CreateProjectStep(s, id, workspace, limit)
            == (s.(projects := s.projects[id := Project(workspace, ProjectActive)], policies := s.policies[id := limit], usage := s.usage[id := 0]), Applied)
    ensures SetLimitStep(s, id, limit) == if id in s.policies then (s.(policies := s.policies[id := limit]), Applied) else (s, Refused)
    ensures SetLifecycleStep(s, id, archived)
            == if id in s.projects && s.projects[id].lifecycle != ProjectDeleting
               then (s.(projects := s.projects[id := Project(s.projects[id].workspace, if archived then ProjectArchived else ProjectActive)]), Applied)
               else (s, Refused)
    ensures
      var busy := live || exists k :: IsUnreleased(s, k) && s.runs[k].scope.project == id;
      BeginProjectDeletionStep(s, id, live)
      == if id !in s.projects then (s, Refused)
         else if !busy then (s.(projects := s.projects[id := Project(s.projects[id].workspace, ProjectDeleting)]), Applied)
         else if s.projects[id].lifecycle == ProjectDeleting
         then (s.(projects := s.projects[id := Project(s.projects[id].workspace, ProjectActive)]), NotReady)
         else (s, NotReady)
  {
    BusyIff(s, id);
    hide Unreleased;
  }

  lemma BusyIff(s: State, project: Id)
    ensures Unreleased(s.runs, project) != {} <==> exists k :: IsUnreleased(s, k) && s.runs[k].scope.project == project
  {
    if k :| k in Unreleased(s.runs, project) { assert IsUnreleased(s, k); }
    if k :| IsUnreleased(s, k) && s.runs[k].scope.project == project { assert k in Unreleased(s.runs, project); }
  }

  /** The end of a project in deletion takes everything of it away, its receipts but for the one that asked, and nothing of any other project. */
  lemma ProjectIsFinalized(s: State, id: Id, live: bool, completion: Option<Completion>)
    ensures
      var (s', o) := FinalizeProjectStep(s, id, live, completion);
      var busy := live || exists k :: IsUnreleased(s, k) && s.runs[k].scope.project == id;
      var held := completion.Some? ==>
        var c := completion.value;
        c.key in s.receipts && s.receipts[c.key].reply == None && s.receipts[c.key].hash == c.hash && s.receipts[c.key].claim == c.holder
        && s.receipts[c.key].resource == OnProject(id) && c.key.project == id && c.key.operation == DeleteProject;
      (o == if id in s.projects && s.projects[id].lifecycle == ProjectDeleting && !busy && held then Applied else NotReady)
      && (!o.Applied? ==> s' == s)
      && (o.Applied? ==> IsWithout(s, s', id, completion))
  {
    BusyIff(s, id);
    if completion.None? || (completion.value.key in s.receipts && completion.value.key.project == id) { WithoutIs(s, id, completion); }
    hide Unreleased, WithoutProject, IsWithout;
  }

  lemma WithoutIs(s: State, id: Id, completion: Option<Completion>)
    requires completion.Some? ==> completion.value.key in s.receipts && completion.value.key.project == id
    ensures completion.None? ==> IsWithout(s, WithoutProject(s, id, None), id, completion)
    ensures completion.Some? ==>
              var c := completion.value;
              var s' := WithoutProject(s, id, Some(c.key));
              c.key in s'.receipts && IsWithout(s, s'.(receipts := Completed(s'.receipts, c.key, c.reply)), id, completion)
  {
    assert forall k :: OfProject(s, k, id) <==> InProject(s, k, id);
  }

  ghost predicate IsWithout(s: State, s': State, id: Id, completion: Option<Completion>) {
    && s'.projects == s.projects - {id} && s'.policies == s.policies - {id} && s'.usage == s.usage - {id}
    && s'.tasks == (map k | k in s.tasks && s.tasks[k].scope.project != id :: s.tasks[k])
    && s'.runs == (map k | k in s.runs && s.runs[k].scope.project != id :: s.runs[k])
    && s'.settlements == (map k | k in s.settlements && s.settlements[k].scope.project != id :: s.settlements[k])
    && s'.messages == (map k | k in s.messages && !OfProject(s, k, id) :: s.messages[k])
    && s'.published == (set k | k in s.published && !OfProject(s, k, id))
    && s'.receipts == (map k | k in s.receipts && (k.project != id || (completion.Some? && k == completion.value.key)) ::
                         if completion.Some? && k == completion.value.key then s.receipts[k].(reply := Some(completion.value.reply)) else s.receipts[k])
  }

  predicate OfProject(s: State, message: Id, project: Id) {
    message in s.messages && s.messages[message].task in s.tasks && s.tasks[s.messages[message].task].scope.project == project
  }
}
