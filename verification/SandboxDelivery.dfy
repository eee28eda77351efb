/** Message delivery over whole runs: it only moves forward, once per message, in the order of the task. */
module SandboxDelivery {
  import opened Basics
  import opened Receipts
  import opened SandboxModel
  import opened SandboxRuns

  /** No message goes back, changes task or enters dispatch. */
  ghost predicate Advance(a: map<Id, Message>, b: map<Id, Message>) {
    forall k :: k in a && k in b ==>
      b[k].delivery.Rank() >= a[k].delivery.Rank() && b[k].task == a[k].task && (b[k].delivery.Dispatching? ==> a[k].delivery.Dispatching?)
  }

  /** Stored messages stay exactly as they are; others may come and go. */
  ghost predicate Keeps(a: map<Id, Message>, b: map<Id, Message>) {
    forall k :: k in a && k in b ==> b[k] == a[k]
  }

  lemma CreateKeepsMessages(s: State, i: CreateInput)
    ensures Keeps(s.messages, CreateTaskStep(s, i).0.messages)
  {
    hide Keeps, CreateClaimed;
    NothingMoves(s.messages);
    if i.receipt.Some? { CreateClaimedKeepsMessages(s, s.(receipts := Claim(s.receipts, i.receipt.value).0), i); }
    CreateClaimedKeepsMessages(s, s, i);
  }

  lemma TaskAddedKeepsMessages(before: State, s: State, i: CreateInput)
    requires before.messages == s.messages
    ensures Keeps(s.messages, TaskAdded(before, s, i).0.messages)
  {
  }

  lemma CreateClaimedKeepsMessages(before: State, s: State, i: CreateInput)
    requires before.messages == s.messages
    ensures Keeps(s.messages, CreateClaimed(before, s, i).0.messages)
  {
    if i.run.None? {
      TaskAddedKeepsMessages(before, s, i);
    } else {
      match Admit(s, i.admission, i.run.value)
      case Broken =>
      case Full(reply) =>
      case Inserted(runs, usage) => TaskAddedKeepsMessages(before, s.(runs := runs, usage := usage), i);
    }
  }

  lemma CapacityReplyMessages(before: State, s: State, receipt: Option<Claiming<Id>>, reply: Reply)
    requires before.messages == s.messages
    ensures CapacityReply(before, s, receipt, reply).0.messages == s.messages
  {
  }

  lemma TerminalClaimedMessages(before: State, s: State, i: TerminalInput, resource: Resource, mine: bool)
    requires i.receipt.key in s.receipts && before.messages == s.messages
    ensures TerminalClaimed(before, s, i, resource, mine).0.messages == s.messages
  {
    hide Admit, OtherOwner, CurrentRunIsOver, RestartMatches, ResourceRun, ReplyForRun, CapacityReply;
    forall reply ensures CapacityReply(before, s, Some(i.receipt), reply).0.messages == s.messages {
      CapacityReplyMessages(before, s, Some(i.receipt), reply);
    }
  }

  lemma TerminalAdvances(s: State, i: TerminalInput)
    ensures TerminalStartStep(s, i).0.messages == s.messages
  {
    hide TerminalClaimed;
    var (receipts, claimed) := Claim(s.receipts, i.receipt);
    match claimed
    case HashMismatch =>
    case Replay(_) =>
    case InProgress(resource) => TerminalClaimedMessages(s, s, i, resource, false);
    case Claimed(resource) => TerminalClaimedMessages(s, s.(receipts := receipts), i, resource, true);
  }

  lemma NothingMoves(messages: map<Id, Message>)
    ensures Keeps(messages, messages) && Advance(messages, messages)
  {
  }

  lemma KeptAdvances(a: map<Id, Message>, b: map<Id, Message>)
    requires Keeps(a, b)
    ensures Advance(a, b)
  {
  }

  lemma AddingKeeps(messages: map<Id, Message>, id: Id, m: Message)
    requires id !in messages
    ensures Keeps(messages, messages[id := m])
  {
  }

  lemma ReplacingAdvances(messages: map<Id, Message>, id: Id, m: Message)
    requires id in messages && m.task == messages[id].task && m.delivery.Rank() >= messages[id].delivery.Rank()
    requires m.delivery.Dispatching? ==> messages[id].delivery.Dispatching?
    ensures Advance(messages, messages[id := m])
  {
  }

  lemma SendClaimedKeepsMessages(before: State, s: State, i: SendInput, message: Id)
    requires before.messages == s.messages
    ensures Keeps(s.messages, SendClaimed(before, s, i, message).0.messages)
  {
    hide Keeps, CurrentRunIsOver, RestartMatches, AcceptsMessages, ProjectIsActive;
    NothingMoves(s.messages);
    if message !in s.messages { AddingKeeps(s.messages, message, Message(i.task, i.createdAt, Pending, None, false)); }
  }

  lemma AdmissionKeepsMessages(s: State, e: Event)
    requires IsAdmission(e)
    ensures Keeps(s.messages, Step(s, e).0.messages)
  {
    hide Keeps, CreateTaskStep, RestartStep, TerminalStartStep, SendStep;
    NothingMoves(s.messages);
    match e
    case CreateTask(i) => CreateKeepsMessages(s, i);
    case RestartTask(task, r, admission, receipt) => RestartKeepsMessages(s, task, r, admission, receipt);
    case TerminalStart(i) => TerminalAdvances(s, i);
    case SendMessage(i) => SendKeepsMessages(s, i);
  }

  lemma RestartKeepsMessages(s: State, task: Id, r: Restart, admission: Admission, receipt: Claiming<Id>)
    ensures RestartStep(s, task, r, admission, receipt).0.messages == s.messages
  {
    hide Admit, CurrentRunIsOver, RestartMatches;
  }

  lemma SendKeepsMessages(s: State, i: SendInput)
    ensures Keeps(s.messages, SendStep(s, i).0.messages)
  {
    hide SendClaimed, Keeps;
    NothingMoves(s.messages);
    var (receipts, claimed) := ClaimToSend(s.receipts, i.receipt);
    if claimed.Claimed? { SendClaimedKeepsMessages(s, s.(receipts := receipts), i, claimed.resource.id); }
  }

  lemma OwnedFailedAdvances(messages: map<Id, Message>, r: Run)
    ensures Advance(messages, OwnedFailed(messages, r))
  {
  }

  /** The steps of a Run leave the messages alone or fail the one the Run owns. */
  lemma FailRunAdvancesMessages(s: State, run: Id, token: int, claim: Option<Id>, at: Time)
    ensures Advance(s.messages, FailRunStep(s, run, token, claim, at).0.messages)
  {
    hide Advance, OwnedFailed;
    NothingMoves(s.messages);
    if run in s.runs { OwnedFailedAdvances(s.messages, s.runs[run]); }
  }

  lemma RequestReleaseAdvancesMessages(s: State, i: ReleaseRequest)
    ensures Advance(s.messages, RequestReleaseStep(s, i).0.messages)
  {
    hide Advance, OwnedFailed;
    NothingMoves(s.messages);
    if i.run in s.runs { OwnedFailedAdvances(s.messages, s.runs[i.run]); }
  }

  lemma CompleteReleaseAdvancesMessages(s: State, i: ReleaseInput)
    ensures Advance(s.messages, CompleteReleaseStep(s, i).0.messages)
  {
    hide Advance, OwnedFailed;
    NothingMoves(s.messages);
    if i.run.id in s.runs { OwnedFailedAdvances(s.messages, s.runs[i.run.id]); }
  }

  lemma EndingAdvances(s: State, e: Event)
    requires e.FailRun? || e.RequestRelease? || e.CompleteRelease?
    ensures Advance(s.messages, Step(s, e).0.messages)
  {
    hide Advance, FailRunStep, RequestReleaseStep, CompleteReleaseStep;
    match e
    case FailRun(run, token, claim, at) => FailRunAdvancesMessages(s, run, token, claim, at);
    case RequestRelease(i) => RequestReleaseAdvancesMessages(s, i);
    case CompleteRelease(i) => CompleteReleaseAdvancesMessages(s, i);
  }

  lemma RunStepAdvances(s: State, e: Event)
    requires IsRunStep(e)
    ensures Advance(s.messages, Step(s, e).0.messages)
  {
    if e.FailRun? || e.RequestRelease? || e.CompleteRelease? {
      EndingAdvances(s, e);
    } else {
      QuietRunStep(s, e);
    }
  }

  lemma QuietRunStep(s: State, e: Event)
    requires IsRunStep(e) && !e.FailRun? && !e.RequestRelease? && !e.CompleteRelease?
    ensures Step(s, e).0.messages == s.messages
  {
    hide StartupStepOn, ActivateStep, FailStartupStep, DrainStep, CleanupEligible;
    if e.Startup? { QuietStartup(s, e.run, e.task, e.token, e.step); }
    else if e.Activate? { QuietActivation(s, e.activate); }
    else if e.FailStartup? { QuietFailure(s, e.failStartup); }
    else if e.Drain? { QuietDrain(s, e.run, e.task, e.token, e.claim, e.until, e.at); }
  }

  lemma QuietStartup(s: State, run: Id, task: Id, token: int, step: StartupStep)
    ensures StartupStepOn(s, run, task, token, step).0.messages == s.messages
  {
  }

  lemma QuietActivation(s: State, i: ActivateInput)
    ensures ActivateStep(s, i).0.messages == s.messages
  {
  }

  lemma QuietFailure(s: State, i: FailStartupInput)
    ensures FailStartupStep(s, i).0.messages == s.messages
  {
  }

  lemma QuietDrain(s: State, run: Id, task: Id, token: int, claim: Id, until: Time, at: Time)
    ensures DrainStep(s, run, task, token, claim, until, at).0.messages == s.messages
  {
  }

  lemma OtherDeliveryAdvances(s: State, e: Event)
    requires IsDelivery(e) && !e.ClaimMessage?
    ensures Advance(s.messages, Step(s, e).0.messages)
  {
    hide Advance, DeleteMessageStep;
    NothingMoves(s.messages);
    var id := e.message;
    if id in s.messages {
      var m := s.messages[id];
      match e
      case DeleteMessage(task, _, receipt, reply) => DeletionAdvances(s, task, id, receipt, reply);
      case AcceptMessage(_, _, _, _) => ReplacingAdvances(s.messages, id, m.(delivery := Accepted));
      case SettleOwner(_, _, _, _, observed) => ReplacingAdvances(s.messages, id, m.(delivery := Settled(m.delivery, observed)));
      case ObserveAccepted(_, _) => ReplacingAdvances(s.messages, id, m.(delivery := Accepted));
      case _ =>
    } else if e.QueueMessage? {
      AddingKeeps(s.messages, id, Message(e.task, e.createdAt, Pending, None, false));
      KeptAdvances(s.messages, Step(s, e).0.messages);
    } else if e.DeleteMessage? {
      DeletionAdvances(s, e.task, id, e.receipt, e.reply);
    }
  }

  lemma DeletionAdvances(s: State, task: Id, id: Id, receipt: Claiming<Id>, reply: Reply)
    ensures Advance(s.messages, DeleteMessageStep(s, task, id, receipt, reply).0.messages)
  {
    hide Advance;
    NothingMoves(s.messages);
    if id in s.messages { ReplacingAdvances(s.messages, id, s.messages[id].(deleted := true)); }
  }

  lemma StepAdvances(s: State, e: Event)
    requires !e.ClaimMessage?
    ensures Advance(s.messages, Step(s, e).0.messages)
  {
    hide Step, Keeps, Advance;
    if IsRunStep(e) {
      RunStepAdvances(s, e);
    } else if IsDelivery(e) {
      OtherDeliveryAdvances(s, e);
    } else {
      if IsAdmission(e) { AdmissionKeepsMessages(s, e); } else { HousekeepingKeepsMessages(s, e); }
      KeptAdvances(s.messages, Step(s, e).0.messages);
    }
  }

  lemma HousekeepingKeepsMessages(s: State, e: Event)
    requires !IsAdmission(e) && !IsRunStep(e) && !IsDelivery(e)
    ensures Keeps(s.messages, Step(s, e).0.messages)
  {
    hide Keeps, PurgeTaskStep, FinalizeProjectStep, TaskSandboxReleased, ProjectIsActive, Unreleased, Begin, Complete;
    NothingMoves(s.messages);
    if e.PurgeTask? {
      PurgeKeepsMessages(s, e.task, e.completion);
    } else if e.FinalizeProject? {
      FinalizeKeepsMessages(s, e.project, e.providerLive, e.completion);
    }
  }

  lemma PurgeKeepsMessages(s: State, task: Id, completion: Option<Completion>)
    ensures Keeps(s.messages, PurgeTaskStep(s, task, completion).0.messages)
  {
    hide TaskSandboxReleased, Holds;
  }

  lemma FinalizeKeepsMessages(s: State, project: Id, live: bool, completion: Option<Completion>)
    ensures Keeps(s.messages, FinalizeProjectStep(s, project, live, completion).0.messages)
  {
    hide Unreleased, InProject, Holds;
  }

  /** One step moves a stored message forward; it enters dispatch only when it is claimed while waiting. */
  lemma DeliveryStepsUp(s: State, e: Event, m: Id)
    requires Inv(s) && m in s.messages && m in Step(s, e).0.messages
    ensures Step(s, e).0.messages[m].delivery.Rank() >= s.messages[m].delivery.Rank()
    ensures Step(s, e).0.messages[m].task == s.messages[m].task
    ensures (Step(s, e).0.messages[m].delivery.Dispatching? && !s.messages[m].delivery.Dispatching?) ==>
              e.ClaimMessage? && e.message == m && s.messages[m].delivery.Pending?
  {
    if !e.ClaimMessage? { StepAdvances(s, e); }
  }

  ghost predicate MessageStays(s: State, es: seq<Event>, m: Id)
    decreases |es|
  {
    m in s.messages && (es != [] ==> MessageStays(Step(s, es[0]).0, es[1..], m))
  }

  lemma {:induction false} DeliveryNeverFalls(s: State, es: seq<Event>, m: Id)
    requires Inv(s) && RunsFrom(s, es) && MessageStays(s, es, m)
    ensures m in After(s, es).messages
    ensures After(s, es).messages[m].delivery.Rank() >= s.messages[m].delivery.Rank()
    decreases |es|
  {
    if es != [] {
      StepKeeps(s, es[0]);
      DeliveryStepsUp(s, es[0], m);
      DeliveryNeverFalls(Step(s, es[0]).0, es[1..], m);
    }
  }

  /** A message is put in dispatch once: after one successful claim every later claim is refused. */
  lemma DispatchedOnce(s: State, e: Event, es: seq<Event>, late: Event)
    requires Inv(s) && WellFormed(s, e) && e.ClaimMessage? && Step(s, e).1.Applied?
    requires RunsFrom(Step(s, e).0, es) && MessageStays(Step(s, e).0, es, e.message)
    requires late.ClaimMessage? && late.message == e.message
    ensures Step(After(Step(s, e).0, es), late) == (After(Step(s, e).0, es), Refused)
  {
    StepKeeps(s, e);
    DeliveryNeverFalls(Step(s, e).0, es, e.message);
  }

  /** When a message is claimed, the older live messages of its task are settled, and stay settled. */
  lemma DeliveredInOrder(s: State, e: Event, es: seq<Event>, older: Id)
    requires Inv(s) && WellFormed(s, e) && e.ClaimMessage? && Step(s, e).1.Applied?
    requires older in s.messages && s.messages[older].task == s.messages[e.message].task && !s.messages[older].deleted
    requires older in s.published && Before(s.messages[older], older, s.messages[e.message], e.message)
    requires RunsFrom(Step(s, e).0, es) && MessageStays(Step(s, e).0, es, older)
    ensures older in After(Step(s, e).0, es).messages
    ensures var d := After(Step(s, e).0, es).messages[older].delivery; d.DeliveryFailed? || d.Accepted?
  {
    assert !Blocks(s, older, e.message);
    StepKeeps(s, e);
    DeliveryNeverFalls(Step(s, e).0, es, older);
  }
}
