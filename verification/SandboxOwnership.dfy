/** Who owns a message while it is delivered: how ownership begins and ends, and what becomes of the message. */
module SandboxOwnership {
  import opened Basics
  import opened Receipts
  import opened SandboxModel
  import opened SandboxRuns
  import opened SandboxTheorems
  import opened SandboxCapacity
  import opened SandboxDelivery

  /* ---------- the six steps on messages ---------- */

  /** An older live published message of the same task still waits, or is being delivered. */
  predicate IsHeldUp(s: State, message: Id)
    requires message in s.messages
  {
    exists k :: k in s.messages && k in s.published && s.messages[k].task == s.messages[message].task && !s.messages[k].deleted
                && s.messages[k].delivery in {Pending, Dispatching}
                && (s.messages[k].createdAt < s.messages[message].createdAt
                    || (s.messages[k].createdAt == s.messages[message].createdAt && k < message))
  }

  /** The Run is the active current Run of the task, under this token. */
  predicate Runs(s: State, task: Id, run: Id) {
    task in s.tasks && run in s.runs && s.tasks[task].currentRun == Some(run) && s.runs[run].phase == Active
  }

  /** A claim needs the active current Run under its token, owning nothing, and a published message that waits behind no other. */
  lemma MessageIsClaimed(s: State, message: Id, task: Id, run: Id, token: int, claim: Id)
    requires Inv(s)
    ensures
      var (s', o) := ClaimMessageStep(s, message, task, run, token, claim);
      (o.Applied? <==>
         Runs(s, task, run) && s.runs[run].scope.task == task && s.runs[run].token == token && s.runs[run].owned == None
         && message in s.messages && message in s.published && s.messages[message].task == task && !s.messages[message].deleted
         && s.messages[message].delivery == Pending && !IsHeldUp(s, message))
      && (!o.Applied? ==> (s', o) == (s, Refused))
      && (o.Applied? ==>
            s' == s.(messages := s.messages[message := s.messages[message].(delivery := Dispatching, claim := Some(claim))],
                     runs := s.runs[run := s.runs[run].(owned := Some(message))]))
  {
    if message in s.messages { HeldUpIff(s, message); }
    ClaimIsForLiveTask(s, message, task, run);
    hide Inv, IsHeldUp, HasOlderUnresolved;
  }

  lemma HeldUpIff(s: State, message: Id)
    requires message in s.messages
    ensures IsHeldUp(s, message) <==> HasOlderUnresolved(s, message)
  {
  }

  /** What the invariants say of a message that waits for the current Run of its task. */
  lemma ClaimIsForLiveTask(s: State, message: Id, task: Id, run: Id)
    requires Inv(s)
    ensures forall k :: k in s.tasks ==> s.tasks[k].scope.task == k
    ensures message in s.messages && s.messages[message].delivery == Pending ==> s.messages[message].claim == None
    ensures Runs(s, task, run) && s.runs[run].scope.task == task ==> !s.tasks[task].deleted
  {
    if Runs(s, task, run) { assert IsCurrent(s.projects, s.tasks, s.runs[run]); }
  }

  /** Only the dispatching message the active current Run owns is accepted, under its claim; the Run keeps it. */
  lemma MessageIsAccepted(s: State, message: Id, task: Id, run: Id, claim: Id)
    ensures
      var (s', o) := AcceptMessageStep(s, message, task, run, claim);
      (o.Applied? <==>
         Runs(s, task, run) && s.runs[run].scope.task == task && s.runs[run].owned == Some(message)
         && message in s.messages && s.messages[message].task == task && !s.messages[message].deleted
         && s.messages[message].delivery == Dispatching && s.messages[message].claim == Some(claim))
      && (!o.Applied? ==> (s', o) == (s, Refused))
      && (o.Applied? ==> s' == s.(messages := s.messages[message := s.messages[message].(delivery := Accepted)]))
  {
  }

  /**
   The Run gives up the message it owns: an observed input is accepted, an unobserved one fails if it was being delivered
   and stays accepted if it was that. Nothing but this message and this Run changes.
   */
  lemma OwnerSettles(s: State, message: Id, task: Id, run: Id, token: int, observed: bool)
    requires Inv(s)
    ensures
      var (s', o) := SettleOwnerStep(s, message, task, run, token, observed);
      (o.Applied? <==>
         Runs(s, task, run) && s.runs[run].token == token && s.runs[run].owned == Some(message)
         && message in s.messages && s.messages[message].task == task && !s.messages[message].deleted)
      && (!o.Applied? ==> (s', o) == (s, Refused))
      && (o.Applied? ==>
            s.messages[message].delivery in {Dispatching, Accepted}
            && s' == s.(messages := s.messages[message := s.messages[message].(delivery := if observed || s.messages[message].delivery == Accepted
                                                                                           then Accepted else DeliveryFailed)],
                        runs := s.runs[run := s.runs[run].(owned := None)]))
  {
    if run in s.runs { assert OwnsMessage(s.messages, s.runs[run]); }
    hide Inv;
  }

  /** A live message of a live task that was seen in the transcript counts as accepted, whatever its state was. */
  lemma MessageIsObserved(s: State, message: Id, task: Id)
    ensures
      var (s', o) := ObserveAcceptedStep(s, message, task);
      (o == if task !in s.tasks || s.tasks[task].deleted then Aborted
            else if message in s.messages && s.messages[message].task == task && !s.messages[message].deleted then Applied else Refused)
      && s' == if o.Applied? then s.(messages := s.messages[message := s.messages[message].(delivery := Accepted)]) else s
  {
  }

  /** A message enters a live task waiting, unclaimed and published, under an identifier nobody used. */
  lemma MessageIsQueued(s: State, task: Id, message: Id, createdAt: Time)
    ensures
      var (s', o) := QueueMessageStep(s, task, message, createdAt);
      (o == if task !in s.tasks || s.tasks[task].deleted then Refused else if message in s.messages then Aborted else Applied)
      && s' == if o.Applied? then s.(messages := s.messages[message := Message(task, createdAt, Pending, None, false)], published := s.published + {message})
               else s
  {
  }

  /** Only a waiting or failed message of an open task of an active project is deleted, with what it published, by the holder of its receipt. */
  lemma MessageIsDeleted(s: State, task: Id, message: Id, receipt: Claiming<Id>, reply: Reply)
    ensures
      var (s', o) := DeleteMessageStep(s, task, message, receipt, reply);
      var (receipts, claimed) := Claim(s.receipts, receipt);
      var project := receipt.key.project;
      var isActive := project in s.projects && s.projects[project].lifecycle == ProjectActive;
      (o.Applied? <==>
         isActive && claimed == Claimed(OnMessage(message))
         && task in s.tasks && s.tasks[task].scope.project == project && !s.tasks[task].deleted && !s.tasks[task].archived
         && message in s.messages && s.messages[message].task == task && s.messages[message].delivery in {Pending, DeliveryFailed})
      && (!o.Applied? ==>
            s' == s
            && o == if !isActive || claimed.Claimed? then Refused
                    else if claimed.HashMismatch? then Mismatch else if claimed.InProgress? then Busy else Replayed(claimed.reply))
      && (o.Applied? ==>
            receipt.key in receipts
            && s' == s.(messages := s.messages[message := s.messages[message].(deleted := true)], published := s.published - {message},
                        receipts := receipts[receipt.key := receipts[receipt.key].(reply := Some(reply))]))
  {
    ClaimNamesResource(s.receipts, receipt);
    hide Claim;
  }

  /* ---------- what moves a message ---------- */

  /** The event fails, releases or asks to release this Run. */
  predicate Ends(e: Event, run: Id) {
    match e
    case FailRun(id, _, _, _) => id == run
    case RequestRelease(i) => i.run == run
    case CompleteRelease(i) => i.run.id == run
    case _ => false
  }

  /** Why the delivery of a stored message changed from `a` to `b`. */
  predicate HasCause(s: State, e: Event, m: Id, a: Delivery, b: Delivery) {
    match b
    case Pending => false
    case Dispatching => a == Pending && e.ClaimMessage? && e.message == m
    case Accepted =>
      ((e.AcceptMessage? && a == Dispatching) || (e.SettleOwner? && e.observed) || e.ObserveAccepted?) && e.message == m
    case DeliveryFailed =>
      a == Dispatching
      && ((e.SettleOwner? && !e.observed && e.message == m) || exists k :: k in s.runs && s.runs[k].owned == Some(m) && Ends(e, k))
  }

  /** Everything an event may change of a stored message, and why. */
  ghost predicate Moves(s: State, e: Event, m: Id, a: Message, b: Message) {
    && b.task == a.task && b.createdAt == a.createdAt
    && (b.delivery == a.delivery || HasCause(s, e, m, a.delivery, b.delivery))
    && (b.claim == a.claim || (a.delivery == Pending && b.delivery == Dispatching && e.ClaimMessage? && b.claim == Some(e.claim)))
    && (b.deleted == a.deleted || (e.DeleteMessage? && e.message == m && b.deleted && (a.delivery == Pending || a.delivery == DeliveryFailed)))
  }

  lemma MessageMoves(s: State, e: Event, m: Id)
    requires Inv(s) && m in s.messages && m in Step(s, e).0.messages
    ensures Moves(s, e, m, s.messages[m], Step(s, e).0.messages[m])
  {
    hide Step, Inv, Moves, Ends;
    if IsAdmission(e) { AdmissionKeepsMessages(s, e); KeptMoves(s, e, m); }
    else if e.FailRun? || e.RequestRelease? || e.CompleteRelease? { EndingMoves(s, e, m); }
    else if IsRunStep(e) { QuietRunStep(s, e); KeptMoves(s, e, m); }
    else if IsDelivery(e) { DeliveryMoves(s, e, m); }
    else { HousekeepingKeepsMessages(s, e); KeptMoves(s, e, m); }
  }

  lemma KeptMoves(s: State, e: Event, m: Id)
    requires m in s.messages && m in Step(s, e).0.messages && Step(s, e).0.messages[m] == s.messages[m]
    ensures Moves(s, e, m, s.messages[m], Step(s, e).0.messages[m])
  {
  }

  lemma DeliveryMoves(s: State, e: Event, m: Id)
    requires Inv(s) && IsDelivery(e) && m in s.messages && m in Step(s, e).0.messages
    ensures Moves(s, e, m, s.messages[m], Step(s, e).0.messages[m])
  {
    hide Inv, Moves, Step;
    if e.QueueMessage? || e.DeleteMessage? { ComingMoves(s, e, m); }
    else if e.ClaimMessage? { ClaimMoves(s, e, m); }
    else { SettlingMoves(s, e, m); }
  }

  lemma ComingMoves(s: State, e: Event, m: Id)
    requires (e.QueueMessage? || e.DeleteMessage?) && m in s.messages && m in Step(s, e).0.messages
    ensures Moves(s, e, m, s.messages[m], Step(s, e).0.messages[m])
  {
    hide Claim, HasCause, QueueMessageStep, DeleteMessageStep;
    match e
    case QueueMessage(task, message, at) => MessageIsQueued(s, task, message, at);
    case DeleteMessage(task, message, receipt, reply) => MessageIsDeleted(s, task, message, receipt, reply);
  }

  lemma ClaimMoves(s: State, e: Event, m: Id)
    requires Inv(s) && e.ClaimMessage? && m in s.messages && m in Step(s, e).0.messages
    ensures Moves(s, e, m, s.messages[m], Step(s, e).0.messages[m])
  {
    hide Inv, IsHeldUp, Runs, ClaimMessageStep;
    MessageIsClaimed(s, e.message, e.task, e.run, e.token, e.claim);
  }

  lemma SettlingMoves(s: State, e: Event, m: Id)
    requires Inv(s) && (e.AcceptMessage? || e.SettleOwner? || e.ObserveAccepted?) && m in s.messages && m in Step(s, e).0.messages
    ensures Moves(s, e, m, s.messages[m], Step(s, e).0.messages[m])
  {
    hide Inv, Runs, AcceptMessageStep, SettleOwnerStep, ObserveAcceptedStep;
    match e
    case AcceptMessage(message, task, run, claim) => MessageIsAccepted(s, message, task, run, claim);
    case SettleOwner(message, task, run, token, observed) => OwnerSettles(s, message, task, run, token, observed);
    case ObserveAccepted(message, task) => MessageIsObserved(s, message, task);
  }

  lemma EndingMoves(s: State, e: Event, m: Id)
    requires Inv(s) && (e.FailRun? || e.RequestRelease? || e.CompleteRelease?) && m in s.messages && m in Step(s, e).0.messages
    ensures Moves(s, e, m, s.messages[m], Step(s, e).0.messages[m])
  {
    hide Step, Inv, Moves, HasCause;
    EndingFailsOwned(s, e);
    var k := if e.FailRun? then e.run else if e.RequestRelease? then e.request.run else e.release.run.id;
    if Step(s, e).0.messages == s.messages { KeptMoves(s, e, m); } else { OwnedFailedMoves(s, e, k, m); }
  }

  lemma EndingFailsOwned(s: State, e: Event)
    requires Inv(s) && (e.FailRun? || e.RequestRelease? || e.CompleteRelease?)
    ensures var k := if e.FailRun? then e.run else if e.RequestRelease? then e.request.run else e.release.run.id;
            Step(s, e).0.messages == if k in s.runs && Step(s, e).0.messages != s.messages then OwnedFailed(s.messages, s.runs[k]) else s.messages
  {
    hide OwnedFailed, Inv;
  }

  lemma OwnedFailedMoves(s: State, e: Event, k: Id, m: Id)
    requires k in s.runs && Ends(e, k) && m in s.messages && m in Step(s, e).0.messages
    requires Step(s, e).0.messages == OwnedFailed(s.messages, s.runs[k])
    ensures Moves(s, e, m, s.messages[m], Step(s, e).0.messages[m])
  {
    hide Step;
  }

  /* ---------- what moves ownership ---------- */

  /** A Run comes to own a message only by claiming it. */
  lemma OwnershipBegins(s: State, e: Event, k: Id)
    requires Inv(s) && WellFormed(s, e) && k in Step(s, e).0.runs && Step(s, e).0.runs[k].owned.Some?
    ensures (k in s.runs && s.runs[k].owned == Step(s, e).0.runs[k].owned)
            || (e.ClaimMessage? && e.run == k && Step(s, e).0.runs[k].owned == Some(e.message))
  {
    hide Step, Inv, WellFormed;
    if IsAdmission(e) { AdmittedOwnsNothing(s, e, k); }
    else if IsDelivery(e) { DeliveryOwns(s, e, k); }
    else if IsRunStep(e) { RunStepOwns(s, e, k); }
    else { HousekeepingOwns(s, e, k); }
  }

  lemma AdmittedOwnsNothing(s: State, e: Event, k: Id)
    requires WellFormed(s, e) && IsAdmission(e) && k in Step(s, e).0.runs && Step(s, e).0.runs[k].owned.Some?
    ensures k in s.runs && s.runs[k].owned == Step(s, e).0.runs[k].owned
  {
    hide Step;
    AdmissionInserts(s, e);
  }

  lemma DeliveryOwns(s: State, e: Event, k: Id)
    requires IsDelivery(e) && k in Step(s, e).0.runs && Step(s, e).0.runs[k].owned.Some?
    ensures (k in s.runs && s.runs[k].owned == Step(s, e).0.runs[k].owned)
            || (e.ClaimMessage? && e.run == k && Step(s, e).0.runs[k].owned == Some(e.message))
  {
    if !e.ClaimMessage? && !e.SettleOwner? { DeliveryKeepsRuns(s, e); }
  }

  lemma HousekeepingOwns(s: State, e: Event, k: Id)
    requires !IsAdmission(e) && !IsDelivery(e) && !IsRunStep(e) && k in Step(s, e).0.runs
    ensures k in s.runs && s.runs[k].owned == Step(s, e).0.runs[k].owned
  {
    HousekeepingAddsNoKey(s, e, k);
    HousekeepingLeavesRun(s, e, k);
  }

  lemma RunStepOwns(s: State, e: Event, k: Id)
    requires Inv(s) && IsRunStep(e) && k in Step(s, e).0.runs && Step(s, e).0.runs[k].owned.Some?
    ensures k in s.runs && s.runs[k].owned == Step(s, e).0.runs[k].owned
  {
    hide Step, Inv;
    if e.Startup? {
      StartupOwns(s, e, k);
    } else {
      BumpAdvances(s, e);
      if k == Presents(e).value.0 && k in s.runs { NamedRunOwns(s, e, k); }
    }
  }

  lemma StartupOwns(s: State, e: Event, k: Id)
    requires Inv(s) && e.Startup? && k in Step(s, e).0.runs
    ensures k in s.runs && s.runs[k].owned == Step(s, e).0.runs[k].owned
  {
    assert KeysAgree(s.tasks, s.runs);
    hide Inv;
    StartupReplaces(s, e.run, e.task, e.token, e.step);
  }

  /** The steps on a Run keep what it owns or take it away. */
  lemma NamedRunOwns(s: State, e: Event, k: Id)
    requires Inv(s) && IsRunStep(e) && !e.Startup? && Presents(e).Some? && Presents(e).value.0 == k && k in s.runs
    ensures k in Step(s, e).0.runs ==> Step(s, e).0.runs[k].owned in {s.runs[k].owned, None}
  {
    StoredUnderItsId(s, k);
    hide Inv, Step;
    if e.Activate? || e.ClaimCleanup? || e.ReturnCleanup? { GoingOnOwns(s, e, k); } else { EndedOwns(s, e, k); }
  }

  lemma GoingOnOwns(s: State, e: Event, k: Id)
    requires (e.Activate? || e.ClaimCleanup? || e.ReturnCleanup?) && Presents(e).value.0 == k && k in s.runs && s.runs[k].id == k
    ensures k in Step(s, e).0.runs && Step(s, e).0.runs[k].owned == s.runs[k].owned
  {
    hide StartsClosed, ActivationGuard, CleanupEligible;
  }

  lemma EndedOwns(s: State, e: Event, k: Id)
    requires (e.FailRun? || e.FailStartup? || e.Drain? || e.RequestRelease? || e.CompleteRelease?)
    requires Presents(e).value.0 == k && k in s.runs && s.runs[k].id == k
    ensures k in Step(s, e).0.runs ==> Step(s, e).0.runs[k].owned in {s.runs[k].owned, None}
  {
    hide StartsClosed, OwnedFailed, ReleaseGuard, TaskOfRun, ReleaseReceiptsClosed, PointsAtRun;
  }

  /* ---------- over whole runs ---------- */

  /** The events that decide a dispatch: its outcome is reported or observed, or its Run comes to its end. */
  ghost predicate Decides(s: State, e: Event, m: Id) {
    ((e.AcceptMessage? || e.SettleOwner? || e.ObserveAccepted?) && e.message == m) || exists k :: k in s.runs && s.runs[k].owned == Some(m) && Ends(e, k)
  }

  ghost predicate NeverDecided(s: State, es: seq<Event>, m: Id)
    decreases |es|
  {
    es == [] || (!Decides(s, es[0], m) && NeverDecided(Step(s, es[0]).0, es[1..], m))
  }

  lemma UndecidedStays(s: State, e: Event, m: Id)
    requires Inv(s) && m in s.messages && m in Step(s, e).0.messages && s.messages[m].delivery == Dispatching && !Decides(s, e, m)
    ensures Step(s, e).0.messages[m] == s.messages[m]
  {
    hide Step, Inv;
    MessageMoves(s, e, m);
  }

  /** Over any run a message in dispatch stays as it was claimed, with one active Run to deliver it, until something decides the dispatch. */
  lemma {:induction false} DispatchLasts(s: State, es: seq<Event>, m: Id)
    requires Inv(s) && RunsFrom(s, es) && MessageStays(s, es, m) && NeverDecided(s, es, m) && s.messages[m].delivery == Dispatching
    ensures var s' := After(s, es);
            m in s'.messages && s'.messages[m] == s.messages[m]
            && exists k :: k in s'.runs && s'.runs[k].phase == Active && s'.runs[k].owned == Some(m)
    decreases |es|
  {
    hide Step, Decides;
    if es == [] {
      assert HasOwner(s.tasks, s.runs, m, s.messages[m]);
    } else {
      hide Inv;
      StepKeeps(s, es[0]);
      UndecidedStays(s, es[0], m);
      DispatchLasts(Step(s, es[0]).0, es[1..], m);
    }
  }

  ghost predicate IsOwned(s: State, m: Id) {
    exists k :: k in s.runs && s.runs[k].owned == Some(m)
  }

  lemma SettledStaysUnowned(s: State, e: Event, m: Id)
    requires Inv(s) && WellFormed(s, e) && m in s.messages && s.messages[m].delivery in {DeliveryFailed, Accepted} && !IsOwned(s, m)
    ensures !IsOwned(Step(s, e).0, m)
  {
    var s' := Step(s, e).0;
    hide Step, WellFormed;
    forall k | k in s'.runs && s'.runs[k].owned == Some(m) ensures false {
      OwnershipBegins(s, e, k);
      ClaimedWasWaiting(s, e, k, m);
    }
  }

  lemma ClaimedWasWaiting(s: State, e: Event, k: Id, m: Id)
    requires e.ClaimMessage? && e.run == k && e.message == m && !(k in s.runs && s.runs[k].owned == Some(m))
    requires k in Step(s, e).0.runs && Step(s, e).0.runs[k].owned == Some(m)
    ensures m in s.messages && s.messages[m].delivery == Pending
  {
    hide HasOlderUnresolved;
  }

  lemma {:induction false} NobodyOwnsAgain(s: State, es: seq<Event>, m: Id)
    requires Inv(s) && RunsFrom(s, es) && MessageStays(s, es, m) && s.messages[m].delivery in {DeliveryFailed, Accepted} && !IsOwned(s, m)
    ensures !IsOwned(After(s, es), m)
    decreases |es|
  {
    hide Step, Inv, WellFormed, IsOwned;
    if es != [] {
      StepKeeps(s, es[0]);
      SettledStaysUnowned(s, es[0], m);
      DeliveryStepsUp(s, es[0], m);
      NobodyOwnsAgain(Step(s, es[0]).0, es[1..], m);
    }
  }

  /**
   What its owner settled stays settled, whatever happens next: an observed message is accepted for good, an unobserved
   dispatch has failed and can only be found accepted later, and no Run ever owns the message again.
   */
  lemma OwnerSettlesForGood(s: State, message: Id, task: Id, run: Id, token: int, observed: bool, es: seq<Event>)
    requires Inv(s) && SettleOwnerStep(s, message, task, run, token, observed).1.Applied?
    requires RunsFrom(SettleOwnerStep(s, message, task, run, token, observed).0, es)
    requires MessageStays(SettleOwnerStep(s, message, task, run, token, observed).0, es, message)
    ensures message in s.messages && message in After(SettleOwnerStep(s, message, task, run, token, observed).0, es).messages
    ensures
      var before, s' := s.messages[message].delivery, After(SettleOwnerStep(s, message, task, run, token, observed).0, es);
      (observed || before == Accepted ==> s'.messages[message].delivery == Accepted)
      && (!observed && before == Dispatching ==> s'.messages[message].delivery in {DeliveryFailed, Accepted})
      && forall k :: k in s'.runs ==> s'.runs[k].owned != Some(message)
  {
    var s1 := SettleOwnerStep(s, message, task, run, token, observed).0;
    OwnerSettles(s, message, task, run, token, observed);
    SettledIsUnowned(s, message, run, s1);
    SettleOwnerKeeps(s, message, task, run, token, observed);
    hide Inv, SettleOwnerStep, Step, After, RunsFrom, MessageStays, IsOwned;
    StaysSettled(s1, es, message);
  }

  lemma StaysSettled(s: State, es: seq<Event>, m: Id)
    requires Inv(s) && RunsFrom(s, es) && MessageStays(s, es, m) && m in s.messages && s.messages[m].delivery in {DeliveryFailed, Accepted}
    requires !IsOwned(s, m)
    ensures m in After(s, es).messages && After(s, es).messages[m].delivery in {s.messages[m].delivery, Accepted}
    ensures forall k :: k in After(s, es).runs ==> After(s, es).runs[k].owned != Some(m)
  {
    hide Inv, Step;
    DeliveryNeverFalls(s, es, m);
    NobodyOwnsAgain(s, es, m);
  }

  /** The one owner of a message has given it up. */
  lemma SettledIsUnowned(s: State, message: Id, run: Id, s1: State)
    requires Inv(s) && run in s.runs && s.runs[run].owned == Some(message) && s1.runs == s.runs[run := s.runs[run].(owned := None)]
    ensures !IsOwned(s1, message)
  {
    forall k | k in s1.runs ensures s1.runs[k].owned != Some(message) {
      if k != run && s.runs[k].owned == Some(message) { OwnerIsUnique(s, k, run); }
    }
  }
}
