/**
 What the steps on a Run need and do, in terms of the stored fields: which step is applied when, what it changes, and
 that it changes nothing else.
 */
module SandboxEffects {
  import opened Basics
  import opened Receipts
  import opened SandboxModel
  import opened SandboxRuns

  /* ---------- what ends with a Run ---------- */

  /** The terminal starts that wait for the Run are answered, and no other receipt changes. */
  ghost predicate AnswersStarts(a: Ledger, b: Ledger, run: Id, reply: Reply) {
    b.Keys == a.Keys
    && forall k :: k in a ==>
         b[k] == if k.operation == Operation.TerminalStart && a[k].resource == OnRun(run) && a[k].reply == None then a[k].(reply := Some(reply)) else a[k]
  }

  /** The message the Run is delivering fails, and no other message changes. */
  predicate FailsDelivery(a: map<Id, Message>, b: map<Id, Message>, owned: Option<Id>) {
    b == if owned.Some? && owned.value in a && a[owned.value].delivery == Dispatching
         then a[owned.value := a[owned.value].(delivery := DeliveryFailed)] else a
  }

  lemma StartsAreAnswered(receipts: Ledger, run: Id, reply: Reply)
    ensures AnswersStarts(receipts, StartsClosed(receipts, run, reply), run, reply)
  {
  }

  lemma DeliveryFails(s: State, run: Id)
    requires Inv(s) && run in s.runs
    ensures FailsDelivery(s.messages, OwnedFailed(s.messages, s.runs[run]), s.runs[run].owned)
    ensures !s.runs[run].phase.Active? ==> s.runs[run].owned == None
  {
    assert OwnsMessage(s.messages, s.runs[run]);
  }

  /** The Run after a failure: its claims and its action are gone, the times already recorded stay. */
  function Failure(r: Run, at: Time): Run {
    r.(phase := Failed, token := r.token + 1, owned := None, claim := None, lease := None, deadline := None, cleanupClaimedAt := None,
       reason := Some(AfterFailure),
       failedAt := Some(if r.failedAt == None then at else r.failedAt.value),
       releaseRequestedAt := Some(if r.releaseRequestedAt == None then at else r.releaseRequestedAt.value))
  }

  lemma FailureIs(r: Run, at: Time)
    ensures FailedRun(r, at) == Failure(r, at)
  {
  }

  /** `s'` is `s` with this Run replaced, its message failed and its terminal starts answered. */
  ghost predicate EndsAs(s: State, s': State, run: Id, r: Run, reply: Reply)
    requires run in s.runs
  {
    s' == s.(runs := s.runs[run := r], messages := s'.messages, receipts := s'.receipts)
    && FailsDelivery(s.messages, s'.messages, s.runs[run].owned) && AnswersStarts(s.receipts, s'.receipts, run, reply)
  }

  lemma RunFails(s: State, run: Id, token: int, claim: Option<Id>, at: Time)
    requires Inv(s)
    ensures
      var (s', o) := FailRunStep(s, run, token, claim, at);
      (o.Applied? <==>
         run in s.runs && s.runs[run].token == token && s.runs[run].phase in {Starting, Active} && (claim == None || s.runs[run].claim == claim))
      && (!o.Applied? ==> (s', o) == (s, Refused))
      && (o.Applied? ==> EndsAs(s, s', run, Failure(s.runs[run], at), RunNotStarted(run)))
  {
    if run in s.runs {
      StoredUnderItsId(s, run);
      StartsAreUnambiguous(s, run);
      DeliveryFails(s, run);
      StartsAreAnswered(s.receipts, run, RunNotStarted(run));
      FailureIs(s.runs[run], at);
    }
    hide FailedRun, Failure, Inv, StartsAreAmbiguous, OwnedFailed, StartsClosed, FailsDelivery, AnswersStarts;
  }

  /** The failure path of a terminal start: the holder of its open receipt, with the startup claim, under the token. */
  lemma StartupFails(s: State, i: FailStartupInput)
    requires Inv(s)
    ensures
      var (s', o) := FailStartupStep(s, i);
      (o.Applied? <==>
         i.key in s.receipts && i.key.operation == Operation.TerminalStart && s.receipts[i.key].hash == i.hash && s.receipts[i.key].reply == None
         && s.receipts[i.key].claim == i.holder && s.receipts[i.key].resource == OnRun(i.run)
         && i.run in s.runs && i.task in s.tasks && s.tasks[i.task].currentRun == Some(i.run) && s.tasks[i.task].scope.project == i.key.project
         && s.runs[i.run].scope.task == i.task && s.runs[i.run].claim == Some(i.claim) && s.runs[i.run].token == i.token
         && (i.failureClaim == None || i.failureClaim == Some(i.claim))
         && s.runs[i.run].startup.names == i.names && s.runs[i.run].startup.namedConfigMap == i.configMap)
      && (o.Replayed? <==> i.key in s.receipts && s.receipts[i.key].hash == i.hash && s.receipts[i.key].reply.Some?)
      && (o.Replayed? ==> o.reply == s.receipts[i.key].reply.value)
      && (!o.Applied? ==> s' == s)
      && (o.Applied? ==> EndsAs(s, s', i.run, Failure(s.runs[i.run], i.at), i.reply))
  {
    StartIsOfStartingRun(s, i);
    if i.run in s.runs {
      StoredUnderItsId(s, i.run);
      StartsAreUnambiguous(s, i.run);
      DeliveryFails(s, i.run);
      StartsAreAnswered(s.receipts, i.run, i.reply);
      FailureIs(s.runs[i.run], i.at);
    }
    hide FailedRun, Failure, Inv, StartsAreAmbiguous, OwnedFailed, StartsClosed, AnswersStarts;
  }

  lemma StartIsOfStartingRun(s: State, i: FailStartupInput)
    requires Inv(s)
    ensures i.key in s.receipts && i.key.operation == Operation.TerminalStart && s.receipts[i.key].reply == None && s.receipts[i.key].resource == OnRun(i.run)
            ==> i.run in s.runs && s.runs[i.run].phase == Starting
  {
    if i.key in s.receipts && i.key.operation == Operation.TerminalStart && s.receipts[i.key].reply == None && s.receipts[i.key].resource == OnRun(i.run) {
      assert OpenStart(s.receipts, i.key);
    }
  }

  /** The starting Run the task points at, under its token. */
  predicate IsStarting(s: State, run: Id, task: Id, token: int) {
    run in s.runs && task in s.tasks && s.runs[run].phase == Starting && s.runs[run].token == token
    && s.tasks[task].currentRun == Some(run) && s.tasks[task].scope == s.runs[run].scope
  }

  /** The reaper fails a Run whose action is over its deadline, under a cleanup claim. */
  lemma OverdueRunFails(s: State, run: Id, task: Id, token: int, claim: Id, until: Time, at: Time)
    requires Inv(s)
    ensures
      var (s', o) := DrainStep(s, run, task, token, claim, until, at);
      (o.Applied? <==>
         IsStarting(s, run, task, token) && s.runs[run].claim == Some(claim) && s.runs[run].deadline == Some(until) && until <= at
         && s.runs[run].cleanupClaimedAt.Some?)
      && (!o.Applied? ==> (s', o) == (s, Refused))
      && (o.Applied? ==> EndsAs(s, s', run, Failure(s.runs[run], at), RunNotStarted(run)))
  {
    if run in s.runs {
      StoredUnderItsId(s, run);
      StartsAreUnambiguous(s, run);
      DeliveryFails(s, run);
      StartsAreAnswered(s.receipts, run, RunNotStarted(run));
      FailureIs(s.runs[run], at);
    }
    hide FailedRun, Failure, Inv, StartsAreAmbiguous, OwnedFailed, StartsClosed, AnswersStarts;
  }

  /* ---------- release ---------- */

  /** The Run after a request for its release: an action in flight stays with its owner, the first request sets time and reason. */
  function Withdrawn(r: Run, at: Time): Run {
    r.(phase := ReleaseRequested, token := r.token + 1, owned := None, cleanupClaimedAt := None,
       claim := if r.deadline.Some? then r.claim else None, lease := if r.deadline.Some? then r.lease else None,
       reason := Some(if r.reason.Some? then r.reason.value else if r.phase == Failed then AfterFailure else Requested),
       releaseRequestedAt := Some(if r.releaseRequestedAt.Some? then r.releaseRequestedAt.value else at))
  }

  lemma WithdrawnIs(r: Run, at: Time)
    ensures ReleaseRequestedRun(r, at) == Withdrawn(r, at)
  {
  }

  /** The caller holds the open receipt for the release of the current Run of a live task, and knows its token. */
  predicate MayRequest(s: State, i: ReleaseRequest) {
    i.key in s.receipts && s.receipts[i.key].reply == None && s.receipts[i.key].hash == i.hash && s.receipts[i.key].claim == i.holder
    && s.receipts[i.key].resource == OnRun(i.run)
    && i.task in s.tasks && !s.tasks[i.task].deleted && s.tasks[i.task].scope.project == i.key.project && s.tasks[i.task].currentRun == Some(i.run)
    && i.key.project in s.projects && i.run in s.runs && s.runs[i.run].scope.task == i.task && s.runs[i.run].token == i.token
  }

  /**
   A request for release: it ends an unreleased Run but for an action in flight, and says whether it was the first one;
   of a released Run it answers the caller's receipt only.
   */
  lemma ReleaseIsRequested(s: State, i: ReleaseRequest)
    requires Inv(s)
    ensures
      var (s', o) := RequestReleaseStep(s, i);
      if !MayRequest(s, i) then (s', o) == (s, Refused)
      else if s.tasks[i.task].scope != s.runs[i.run].scope then (s', o) == (s, Aborted)
      else if s.runs[i.run].phase == Released then
        o == Repeated && s' == s.(receipts := s.receipts[i.key := s.receipts[i.key].(reply := Some(i.reply))])
      else
        o == (if s.runs[i.run].phase == ReleaseRequested then Repeated else Applied)
        && EndsAs(s, s', i.run, Withdrawn(s.runs[i.run], i.at), RunNotStarted(i.run))
  {
    if i.run in s.runs {
      StoredUnderItsId(s, i.run);
      StartsAreUnambiguous(s, i.run);
      DeliveryFails(s, i.run);
      StartsAreAnswered(s.receipts, i.run, RunNotStarted(i.run));
      if s.runs[i.run].phase == Released { NoStartOfReleased(s, i.run, RunNotStarted(i.run)); }
      if i.key in s.receipts { OneIsAnswered(s.receipts, i.key, i.reply); }
      WithdrawnIs(s.runs[i.run], i.at);
    }
    hide ReleaseRequestedRun, Withdrawn, Inv, StartsAreAmbiguous, OwnedFailed, StartsClosed, CompletedWhere, FailsDelivery, AnswersStarts;
  }

  /** A released Run has no terminal start waiting for it. */
  lemma NoStartOfReleased(s: State, run: Id, reply: Reply)
    requires Inv(s) && run in s.runs && s.runs[run].phase.Released?
    ensures StartsClosed(s.receipts, run, reply) == s.receipts
  {
    forall k ensures k !in PendingStarts(s.receipts, run) {
      assert k in PendingStarts(s.receipts, run) ==> OpenStart(s.receipts, k);
    }
  }

  lemma OneIsAnswered(receipts: Ledger, key: Key, reply: Reply)
    requires key in receipts
    ensures CompletedWhere(receipts, {key}, reply) == receipts[key := receipts[key].(reply := Some(reply))]
  {
  }

  /** The settlement of a Run that ran until it was released: whole milliseconds, none if the clock ran backwards. */
  function Account(r: Run, releasedAt: Time, reason: Option<Reason>): Settlement {
    Settlement(r.id, r.scope, r.startedBy, r.startedAt, releasedAt,
               if r.startedAt.Some? && r.startedAt.value < releasedAt then releasedAt - r.startedAt.value else 0, r.resources, reason)
  }

  /** The released Run that is presented differs from the stored one only in how it ended, and its settlement is its account. */
  predicate IsReleaseOf(r: Run, i: ReleaseInput) {
    i.run.phase == Released && i.run.token == r.token + 1 && i.run.deadline == None && i.run.releasedAt.Some?
    && i.run.scope == r.scope && i.run.namespace == r.namespace && i.run.startedBy == r.startedBy && i.run.resources == r.resources
    && i.run.createdAt == r.createdAt && i.run.startup == r.startup && i.run.startedAt == r.startedAt
    && i.settlement == Account(r, i.run.releasedAt.value, i.run.reason)
  }

  /** A terminal start that waits for the Run is told that it did not start; a request for the release gets its reply. */
  ghost predicate AnswersRelease(a: Ledger, b: Ledger, project: Id, run: Id, reply: Option<Reply>) {
    b.Keys == a.Keys
    && forall k :: k in a ==>
         b[k] == if a[k].resource != OnRun(run) || a[k].reply.Some? then a[k]
                 else if k.operation == Operation.TerminalStart then a[k].(reply := Some(RunNotStarted(run)))
                 else if k.operation == ReleaseSandbox && k.project == project && reply.Some? then a[k].(reply := reply)
                 else a[k]
  }

  lemma ReleaseIsAnswered(receipts: Ledger, r: Run, reply: Option<Reply>)
    ensures AnswersRelease(receipts, ReleaseReceiptsClosed(StartsClosed(receipts, r.id, RunNotStarted(r.id)), r, reply), r.scope.project, r.id, reply)
  {
  }

  /**
   The release of a Run is completed once, under its token and not before its action is over, by a Run that is the same
   but for its end, with its account; the project then has one sandbox less, and the message and the requests end with it.
   */
  lemma ReleaseIsCompleted(s: State, i: ReleaseInput)
    requires Inv(s) && i.run.id in s.runs && !s.runs[i.run.id].phase.Released?
    ensures
      var (s', o) := CompleteReleaseStep(s, i);
      var id, r, p := i.run.id, s.runs[i.run.id], s.runs[i.run.id].scope.project;
      (o.Applied? <==>
         r.token == i.token && IsReleaseOf(r, i) && (r.deadline == None || r.deadline.value <= i.at)
         && p in s.projects && s.projects[p].workspace == r.scope.workspace && p in s.policies && p in s.usage)
      && (!o.Applied? ==> (s', o) == (s, Refused))
      && (o.Applied? ==>
            s.usage[p] > 0
            && s' == s.(runs := s.runs[id := i.run.(owned := None)], settlements := s.settlements[id := i.settlement],
                        usage := s.usage[p := s.usage[p] - 1], messages := s'.messages, receipts := s'.receipts)
            && FailsDelivery(s.messages, s'.messages, r.owned) && AnswersRelease(s.receipts, s'.receipts, p, id, i.receipt))
  {
    hide Inv, SameIdentity, PointsAtRun, ReleaseGuard, TaskOfRun, StartsAreAmbiguous, OwnedFailed, StartsClosed, ReleaseReceiptsClosed, IsReleaseOf,
         WithExactUsage, FailsDelivery, AnswersRelease;
    ReleaseApplies(s, i);
    DeliveryFails(s, i.run.id);
    ReleaseIsAnswered(s.receipts, i.run, i.receipt);
    if CompleteReleaseStep(s, i).1.Applied? { OneSandboxLess(s, i.run.(owned := None)); }
  }

  lemma ReleaseApplies(s: State, i: ReleaseInput)
    requires Inv(s) && i.run.id in s.runs && !s.runs[i.run.id].phase.Released?
    ensures
      var (s', o) := CompleteReleaseStep(s, i);
      var r, p := s.runs[i.run.id], s.runs[i.run.id].scope.project;
      (o.Applied? <==>
         r.token == i.token && IsReleaseOf(r, i) && (r.deadline == None || r.deadline.value <= i.at)
         && p in s.projects && s.projects[p].workspace == r.scope.workspace && p in s.policies && p in s.usage)
      && (!o.Applied? ==> (s', o) == (s, Refused))
      && (o.Applied? ==> i.run.phase == Released && i.run.scope == r.scope)
  {
    StoredUnderItsId(s, i.run.id);
    StartsAreUnambiguous(s, i.run.id);
    LiveRunIsCurrent(s, i.run.id);
    AccountIsMatch(s.runs[i.run.id], i);
    hide Inv, StartsAreAmbiguous, OwnedFailed, StartsClosed, ReleaseReceiptsClosed, SettlementMatches, Account, WithExactUsage;
  }

  lemma AccountIsMatch(r: Run, i: ReleaseInput)
    ensures SettlementMatches(i.settlement, r, i.run) <==>
              i.run.releasedAt.Some? && i.settlement == Account(r, i.run.releasedAt.value, i.run.reason)
  {
  }

  lemma LiveRunIsCurrent(s: State, run: Id)
    requires Inv(s) && run in s.runs && !s.runs[run].phase.Released?
    ensures IsCurrent(s.projects, s.tasks, s.runs[run]) && run !in s.settlements
  {
  }

  lemma OneSandboxLess(s: State, r: Run)
    requires Inv(s) && r.id in s.runs && !s.runs[r.id].phase.Released? && r.phase.Released? && r.scope == s.runs[r.id].scope && r.scope.project in s.usage
    ensures s.usage[r.scope.project] > 0
    ensures WithExactUsage(s.usage, s.runs[r.id := r], r.scope.project) == s.usage[r.scope.project := s.usage[r.scope.project] - 1]
  {
    var p := r.scope.project;
    assert Unreleased(s.runs, p) == Unreleased(s.runs[r.id := r], p) + {r.id} && r.id !in Unreleased(s.runs[r.id := r], p);
  }

  /** Completing a release again, with the same settlement, changes nothing at all. */
  lemma ReleaseIsRepeated(s: State, i: ReleaseInput)
    requires Inv(s) && i.run.id in s.runs && s.runs[i.run.id].phase.Released?
    ensures CompleteReleaseStep(s, i).0 == s
    ensures
      var r := s.runs[i.run.id];
      CompleteReleaseStep(s, i).1
      == if i.run.scope == r.scope && i.run.namespace == r.namespace && i.run.startedBy == r.startedBy && i.run.resources == r.resources
            && i.run.createdAt == r.createdAt && i.run.startup == r.startup && i.run.startedAt == r.startedAt
            && r.scope.task in s.tasks && s.tasks[r.scope.task].currentRun == Some(r.id) && s.tasks[r.scope.task].scope == r.scope
            && r.scope.project in s.projects && r.scope.project in s.policies && r.scope.project in s.usage
            && i.run.id in s.settlements && s.settlements[i.run.id] == i.settlement
         then Repeated else Refused
  {
    StoredUnderItsId(s, i.run.id);
    StartsAreUnambiguous(s, i.run.id);
    NoStartOfReleased(s, i.run.id, ReplyForRun(s.runs[i.run.id]));
    RecountIsExact(s, s.runs[i.run.id].scope.project);
    hide Inv, StartsAreAmbiguous, StartsClosed, WithExactUsage;
  }

  /* ---------- cleanup ---------- */

  /**
   The reaper claims a Run that has failed or is to be released, or whose startup action is overdue; no action and no
   lease may be running, and no claim younger than two minutes.
   */
  lemma CleanupIsClaimed(s: State, run: Id, token: int, at: Time)
    requires Inv(s)
    ensures
      var (s', o) := ClaimCleanupStep(s, run, token, at);
      (o.Applied? <==>
         run in s.runs && s.runs[run].token == token
         && (s.runs[run].phase in {ReleaseRequested, Failed} || (s.runs[run].phase == Starting && s.runs[run].deadline.Some?))
         && (if s.runs[run].deadline.Some? then s.runs[run].deadline.value <= at else s.runs[run].lease == None || s.runs[run].lease.value <= at)
         && (s.runs[run].cleanupClaimedAt == None || s.runs[run].cleanupClaimedAt.value + 120_000 <= at))
      && (!o.Applied? ==> (s', o) == (s, Refused))
      && (o.Applied? ==>
            s' == s.(runs := s.runs[run := s.runs[run].(cleanupClaimedAt := Some(at), cleanupAttempts := s.runs[run].cleanupAttempts + 1, token := token + 1)]))
  {
    if run in s.runs { StoredUnderItsId(s, run); }
    hide Inv;
  }

  /** The claim is given back under its token, which moves on; of a starting Run the copy decides on the startup work. */
  lemma CleanupIsReturned(s: State, run: Id, token: int, held: Held)
    requires Inv(s)
    ensures
      var (s', o) := ReturnCleanupStep(s, run, token, held);
      if run !in s.runs || s.runs[run].token != token then (s', o) == (s, Refused)
      else if s.runs[run].phase != Starting then
        (s', o) == (s.(runs := s.runs[run := s.runs[run].(cleanupClaimedAt := None, token := token + 1)]), Applied)
      else if held.startup != s.runs[run].startup || held.startedAt != s.runs[run].startedAt then (s', o) == (s, Aborted)
      else
        (s', o) == (s.(runs := s.runs[run := s.runs[run].(cleanupClaimedAt := None, token := token + 1, readyAt := held.readyAt, claim := held.claim,
                                                          lease := held.lease, deadline := held.deadline)]), Applied)
  {
    if run in s.runs { StoredUnderItsId(s, run); }
    hide Inv;
  }

  /* ---------- startup ---------- */

  predicate IsOpen(s: State, task: Id) {
    task in s.tasks && !s.tasks[task].deleted && !s.tasks[task].archived
  }

  /** A step that is applied replaces the Run by `r`, and one that is not changes nothing. */
  predicate Replaces(s: State, s': State, o: Outcome, run: Id, r: Run) {
    s' == if o.Applied? then s.(runs := s.runs[run := r]) else s
  }

  lemma SandboxIsReady(s: State, run: Id, task: Id, token: int, at: Time)
    requires Inv(s)
    ensures
      var (s', o) := StartupStepOn(s, run, task, token, MarkReady(at));
      if IsStarting(s, run, task, token) && IsOpen(s, task) then
        o == (if s.runs[run].readyAt == None then Applied else Repeated)
        && Replaces(s, s', o, run, s.runs[run].(readyAt := Some(at)))
      else (s', o) == (s, Refused)
  {
    if run in s.runs { StoredUnderItsId(s, run); }
    hide Inv;
  }

  /** The startup config is written once, whole, under the startup claim if one is presented. */
  lemma ConfigIsWritten(s: State, run: Id, task: Id, token: int, claim: Option<Id>, map': Option<Id>, hash: Option<Id>)
    requires Inv(s)
    ensures
      var (s', o) := StartupStepOn(s, run, task, token, InitializeConfig(claim, map', hash));
      if IsStarting(s, run, task, token) && IsOpen(s, task) && (claim == None || s.runs[run].claim == claim) then
        var known := s.runs[run].startup;
        o == (if known.configMap == None && known.configHash == None then (if map'.Some? && hash.Some? then Applied else Refused)
              else if known.configMap == map' && known.configHash == hash then Repeated else Refused)
        && Replaces(s, s', o, run, s.runs[run].(startup := known.(namedConfigMap := map', configMap := map', configHash := hash)))
      else (s', o) == (s, Refused)
  {
    if run in s.runs { StoredUnderItsId(s, run); }
    hide Inv;
  }

  /** Pod facts are recorded for the expected config; what is recorded stays, and the Run has started when its pod was first ready. */
  lemma PodIsRecorded(s: State, run: Id, task: Id, token: int, claim: Option<Id>, map': Option<Id>, hash: Option<Id>, uid: Option<Id>, ip: Option<Id>,
                      readyAt: Option<Time>)
    requires Inv(s)
    ensures
      var (s', o) := StartupStepOn(s, run, task, token, RecordPod(claim, map', hash, uid, ip, readyAt));
      if IsStarting(s, run, task, token) && IsOpen(s, task) && (claim == None || s.runs[run].claim == claim) && uid.Some? && (readyAt.Some? ==> ip.Some?)
         && s.runs[run].startup.configMap == map' && s.runs[run].startup.namedConfigMap == map' && s.runs[run].startup.configHash == hash
         && s.runs[run].startup.podUid in {None, uid} && s.runs[run].startup.podIp in {None, ip}
      then
        o == Applied
        && s' == s.(runs := s.runs[run := s.runs[run].(startup := s.runs[run].startup.(podUid := uid, podIp := ip),
                                                       startedAt := if s.runs[run].startedAt.Some? then s.runs[run].startedAt else readyAt)])
      else (s', o) == (s, Refused)
  {
    if run in s.runs { StoredUnderItsId(s, run); }
    hide Inv;
  }

  /** Startup is claimed once it is ready, while no action is in flight, by anyone once nobody else has a live lease. */
  lemma StartupIsClaimed(s: State, run: Id, task: Id, token: int, claimant: Id, now: Time, until: Time)
    requires Inv(s)
    ensures
      var (s', o) := StartupStepOn(s, run, task, token, ClaimStartup(claimant, now, until));
      if IsStarting(s, run, task, token) && IsOpen(s, task) then
        var r := s.runs[run];
        o == (if r.readyAt == None then NotReady
              else if r.deadline.Some? || (r.claim.Some? && r.claim.value != claimant && r.lease.Some? && r.lease.value > now) then Busy
              else Applied)
        && Replaces(s, s', o, run, r.(claim := Some(claimant), lease := Some(until)))
      else (s', o) == (s, Refused)
  {
    if run in s.runs { StoredUnderItsId(s, run); }
    hide Inv;
  }

  predicate IsClaimant(s: State, run: Id, task: Id, token: int, claimant: Id) {
    IsStarting(s, run, task, token) && s.runs[run].claim == Some(claimant)
  }

  /** One action at a time, and only the claimant opens it. */
  lemma ActionBegins(s: State, run: Id, task: Id, token: int, claimant: Id, now: Time, until: Time)
    requires Inv(s)
    ensures
      var (s', o) := StartupStepOn(s, run, task, token, BeginAction(claimant, now, until));
      if IsClaimant(s, run, task, token, claimant) && s.runs[run].deadline == None && now < until
      then o == Applied && s' == s.(runs := s.runs[run := s.runs[run].(deadline := Some(until))])
      else (s', o) == (s, Refused)
  {
    if run in s.runs { StoredUnderItsId(s, run); }
    hide Inv;
  }

  /** The claimant closes its action in time and extends its lease. */
  lemma ActionIsCompleted(s: State, run: Id, task: Id, token: int, claimant: Id, until: Time, now: Time, lease: Time)
    requires Inv(s)
    ensures
      var (s', o) := StartupStepOn(s, run, task, token, CompleteAction(claimant, until, now, lease));
      if IsClaimant(s, run, task, token, claimant) && s.runs[run].deadline == Some(until) && now <= until && now < lease
      then o == Applied && s' == s.(runs := s.runs[run := s.runs[run].(lease := Some(lease), deadline := None)])
      else (s', o) == (s, Refused)
  {
    if run in s.runs { StoredUnderItsId(s, run); }
    hide Inv;
  }

  /** Or it gives up its action, and its claim with it. */
  lemma ActionIsGivenUp(s: State, run: Id, task: Id, token: int, claimant: Id, until: Time)
    requires Inv(s)
    ensures
      var (s', o) := StartupStepOn(s, run, task, token, RecoverAction(claimant, until));
      if IsClaimant(s, run, task, token, claimant) && s.runs[run].deadline == Some(until)
      then o == Applied && s' == s.(runs := s.runs[run := s.runs[run].(claim := None, lease := None, deadline := None)])
      else (s', o) == (s, Refused)
  {
    if run in s.runs { StoredUnderItsId(s, run); }
    hide Inv;
  }

  /**
   The owner of the startup action activates the Run in time, for exactly what was recorded about config and pod: the Run
   has started then at the latest, its startup work is over, and the terminal starts that wait for it are told.
   */
  lemma RunIsActive(s: State, i: ActivateInput)
    requires Inv(s)
    ensures
      var (s', o) := ActivateStep(s, i);
      if i.run !in s.runs || i.task !in s.tasks || s.tasks[i.task].currentRun != Some(i.run) || s.tasks[i.task].scope != s.runs[i.run].scope
         || !IsOpen(s, i.task)
      then (s', o) == (s, Refused)
      else
        var r := s.runs[i.run];
        o == (if r.phase == Active then Repeated
              else if r.phase == Starting && r.token == i.token && r.claim == Some(i.claim) && r.deadline == Some(i.until) && i.at <= i.until
                      && r.startup.configMap == i.configMap && r.startup.namedConfigMap == i.configMap && r.startup.configHash == i.configHash
                      && r.startup.podUid == i.podUid && r.startup.podIp == i.podIp then Applied
              else Refused)
        && (!o.Applied? ==> s' == s)
        && (o.Applied? ==>
              s' == s.(runs := s.runs[i.run := r.(phase := Active, token := r.token + 1, claim := None, lease := None, deadline := None,
                                                  startedAt := Some(if r.startedAt.Some? then r.startedAt.value else i.at))],
                       receipts := s'.receipts)
              && AnswersStarts(s.receipts, s'.receipts, i.run, RunActivated(i.run)))
  {
    if i.run in s.runs {
      StoredUnderItsId(s, i.run);
      StartsAreUnambiguous(s, i.run);
      StartsAreAnswered(s.receipts, i.run, RunActivated(i.run));
    }
    hide Inv, StartsAreAmbiguous, StartsClosed, AnswersStarts;
  }
}
