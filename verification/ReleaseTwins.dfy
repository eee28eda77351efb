/**
 The release of a Run, in two versions. The in-memory store settles the message of the caller's copy of the Run, and
 answers the open requests also when the release is repeated; the database store settles the message of the stored Run,
 and answers nothing the second time. Only this operation is compared: all others are the model's own on both sides.
 */
module ReleaseTwins {
  import opened Basics
  import opened Receipts
  import opened SandboxModel
  import opened SandboxRuns
  import opened SandboxTheorems
  import opened SandboxExamples
  import opened ProjectTables

  /** Release completion, as the in-memory store does it. */
  function InMemoryReleaseStep(s: State, i: ReleaseInput): (State, Outcome) {
    var id := i.run.id;
    if id !in s.runs || !SameIdentity(s.runs[id], i.run) then (s, Refused)
    else if !s.runs[id].phase.Released? && !ReleaseGuard(s.runs[id], i) then (s, Refused)
    else if !TaskOfRun(s, i.run) then (s, Refused)
    else if id in s.settlements && s.settlements[id] != i.settlement then (s, Refused)
    else if s.runs[id].phase.Released? && id !in s.settlements then (s, Refused)
    else if StartsAreAmbiguous(s.receipts, id) then (s, Aborted)
    else
      var receipts := ReleaseReceiptsClosed(StartsClosed(s.receipts, id, ReplyForRun(i.run)), i.run, i.receipt);
      var settled := s.(messages := OwnedFailed(s.messages, i.run), receipts := receipts);
      if s.runs[id].phase.Released? then (settled, Repeated)
      else
        var runs := s.runs[id := i.run.(owned := None)];
        (settled.(runs := runs, settlements := s.settlements[id := i.settlement],
                  usage := WithExactUsage(s.usage, runs, i.run.scope.project)), Applied)
  }

  /* ---------- when the two agree ---------- */

  /** The stored Run is not delivering a message the caller's copy does not know of. */
  predicate CopyKnowsDelivery(s: State, i: ReleaseInput)
    requires i.run.id in s.runs
  {
    var owned := s.runs[i.run.id].owned;
    owned.Some? && owned.value in s.messages && s.messages[owned.value].delivery.Dispatching? ==> i.run.owned == owned
  }

  lemma FreshCopyAgrees(s: State, i: ReleaseInput)
    requires Inv(s) && RecordsAreComplete(s) && InMemoryReleaseStep(s, i).1.Applied? && CopyKnowsDelivery(s, i)
    ensures InMemoryReleaseStep(s, i) == CompleteReleaseStep(s, i)
  {
    hide OwnedFailed, OnlyActiveRunsOwn, DispatchIsOwned, LiveRunsAreCurrent, PendingIsUnclaimed, StartsAreLive, OneStartPerRun, UsageIsExact,
         ReleaseReceiptsClosed, StartsClosed, StartsAreAmbiguous, WithExactUsage;
    FreshCopySettlesSame(s, i);
  }

  lemma FreshCopySettlesSame(s: State, i: ReleaseInput)
    requires Inv(s) && i.run.id in s.runs && SameIdentity(s.runs[i.run.id], i.run) && TaskOfRun(s, i.run) && CopyKnowsDelivery(s, i)
    ensures OwnedFailed(s.messages, i.run) == OwnedFailed(s.messages, s.runs[i.run.id])
  {
    var r := s.runs[i.run.id];
    assert OwnsMessage(s.messages, r);
    if i.run.owned.Some? && i.run.owned.value in s.messages && i.run.owned != r.owned {
      assert HasOwner(s.tasks, s.runs, i.run.owned.value, s.messages[i.run.owned.value]);
    }
  }

  lemma StaleCopyStrands(s: State, i: ReleaseInput)
    requires Inv(s) && InMemoryReleaseStep(s, i).1.Applied? && !CopyKnowsDelivery(s, i)
    ensures !Inv(InMemoryReleaseStep(s, i).0)
  {
    var r, s' := s.runs[i.run.id], InMemoryReleaseStep(s, i).0;
    assert OwnsMessage(s.messages, r);
    assert s'.messages[r.owned.value] == s.messages[r.owned.value];
    assert !HasOwner(s'.tasks, s'.runs, r.owned.value, s'.messages[r.owned.value]);
  }

  /** Exactly then the in-memory release leaves every dispatched message with an owner. */
  lemma InMemoryReleaseIsSafeIff(s: State, i: ReleaseInput)
    requires Inv(s) && RecordsAreComplete(s) && InMemoryReleaseStep(s, i).1.Applied?
    ensures i.run.id in s.runs
    ensures Inv(InMemoryReleaseStep(s, i).0) <==> CopyKnowsDelivery(s, i)
    ensures CopyKnowsDelivery(s, i) ==> InMemoryReleaseStep(s, i) == CompleteReleaseStep(s, i)
  {
    hide Inv, CompleteReleaseStep, CopyKnowsDelivery, RecordsAreComplete, ReleaseGuard, TaskOfRun, SameIdentity, StartsAreAmbiguous;
    if CopyKnowsDelivery(s, i) {
      FreshCopyAgrees(s, i);
      CompleteReleaseKeeps(s, i);
    } else {
      StaleCopyStrands(s, i);
    }
  }

  /** A release of a Run that was released before finds its task live and no request open that it would answer. */
  predicate RepeatIsQuiet(s: State, i: ReleaseInput) {
    i.run.id in s.runs && s.runs[i.run.id].phase.Released? && PointsAtRun(s, s.runs[i.run.id])
    && s.runs[i.run.id].scope.project in s.projects && i.run.id in s.settlements && s.settlements[i.run.id] == i.settlement ==>
      TaskOfRun(s, s.runs[i.run.id]) && (i.receipt.Some? ==> OpenReleases(s.receipts, s.runs[i.run.id].scope.project, i.run.id) == {})
  }

  /** A release that passes its guards settles the message the stored Run is delivering. */
  predicate CopyIsFresh(s: State, i: ReleaseInput) {
    i.run.id in s.runs && !s.runs[i.run.id].phase.Released? && ReleaseGuard(s.runs[i.run.id], i) && TaskOfRun(s, s.runs[i.run.id]) ==>
      CopyKnowsDelivery(s, i)
  }

  /** The two releases take the same step exactly if the copy is fresh, or the repetition quiet. */
  lemma ReleasesAgreeIff(s: State, i: ReleaseInput)
    requires Inv(s) && RecordsAreComplete(s) && i.run.id in s.runs && SameIdentity(s.runs[i.run.id], i.run)
    ensures InMemoryReleaseStep(s, i) == CompleteReleaseStep(s, i) <==> CopyIsFresh(s, i) && RepeatIsQuiet(s, i)
  {
    StartsAreUnambiguous(s, i.run.id);
    if s.runs[i.run.id].phase.Released? {
      RepeatsAgreeIff(s, i);
    } else if InMemoryReleaseStep(s, i).1.Applied? {
      InMemoryReleaseIsSafeIff(s, i);
      CompleteReleaseKeeps(s, i);
    }
  }

  lemma PendingAreOpen(receipts: Ledger, run: Id)
    ensures forall k :: k in PendingStarts(receipts, run) ==> OpenStart(receipts, k) && receipts[k].resource == OnRun(run)
  {
  }

  /** No terminal start waits for a Run that is no longer starting. */
  lemma NoStartWaits(s: State, run: Id, reply: Reply)
    requires Inv(s) && run in s.runs && !s.runs[run].phase.Starting?
    ensures StartsClosed(s.receipts, run, reply) == s.receipts
  {
    PendingAreOpen(s.receipts, run);
    assert PendingStarts(s.receipts, run) == {};
  }

  /** A released Run is the current one of its task, so the task has no message in dispatch. */
  lemma NothingInDispatch(s: State, r: Run)
    requires Inv(s) && r.id in s.runs && s.runs[r.id].phase.Released? && s.runs[r.id].scope == r.scope && TaskOfRun(s, r)
    ensures OwnedFailed(s.messages, r) == s.messages
  {
    if r.owned.Some? && r.owned.value in s.messages {
      assert HasOwner(s.tasks, s.runs, r.owned.value, s.messages[r.owned.value]);
    }
  }

  lemma AnsweringChanges(receipts: Ledger, r: Run, reply: Option<Reply>)
    ensures ReleaseReceiptsClosed(receipts, r, reply) == receipts <==> (reply.Some? ==> OpenReleases(receipts, r.scope.project, r.id) == {})
  {
    if reply.Some? && OpenReleases(receipts, r.scope.project, r.id) != {} {
      var k :| k in OpenReleases(receipts, r.scope.project, r.id);
      assert ReleaseReceiptsClosed(receipts, r, reply)[k] != receipts[k];
    }
  }

  lemma RepeatsAgreeIff(s: State, i: ReleaseInput)
    requires Inv(s) && RecordsAreComplete(s) && i.run.id in s.runs && SameIdentity(s.runs[i.run.id], i.run) && s.runs[i.run.id].phase.Released?
    ensures InMemoryReleaseStep(s, i) == CompleteReleaseStep(s, i) <==> RepeatIsQuiet(s, i)
  {
    var r := s.runs[i.run.id];
    StartsAreUnambiguous(s, r.id);
    NoStartWaits(s, r.id, ReplyForRun(i.run));
    NoStartWaits(s, r.id, ReplyForRun(r));
    RecountIsExact(s, r.scope.project);
    AnsweringChanges(s.receipts, i.run, i.receipt);
    assert TaskOfRun(s, i.run) == TaskOfRun(s, r);
    if PointsAtRun(s, r) && r.scope.project in s.projects && r.id in s.settlements && s.settlements[r.id] == i.settlement {
      RepeatIsAnswered(s, i);
      if TaskOfRun(s, i.run) {
        NothingInDispatch(s, i.run);
        var answered := s.(receipts := ReleaseReceiptsClosed(s.receipts, i.run, i.receipt));
        assert InMemoryReleaseStep(s, i) == (answered, Repeated);
        assert answered == s <==> answered.receipts == s.receipts;
      }
    }
  }

  /** The database store answers a repetition without touching anything but, in principle, the counter. */
  lemma RepeatIsAnswered(s: State, i: ReleaseInput)
    requires Inv(s) && RecordsAreComplete(s) && i.run.id in s.runs && SameIdentity(s.runs[i.run.id], i.run) && s.runs[i.run.id].phase.Released?
    requires PointsAtRun(s, s.runs[i.run.id]) && i.run.id in s.settlements && s.settlements[i.run.id] == i.settlement
    requires i.run.scope.project in s.projects
    ensures CompleteReleaseStep(s, i) == (s, Repeated)
  {
    var r := s.runs[i.run.id];
    StartsAreUnambiguous(s, r.id);
    NoStartWaits(s, r.id, ReplyForRun(r));
    RecountIsExact(s, r.scope.project);
  }

  /* ---------- releases after a cleanup claim ---------- */

  /** A Run whose token is still `token` is not active. */
  predicate Fenced(s: State, k: Id, token: int) {
    k in s.runs && s.runs[k].token >= token && (s.runs[k].token == token ==> !s.runs[k].phase.Active?)
  }

  /** A cleanup claim is never granted to an active Run, and only a step that moves the token could activate it. */
  lemma ClaimFences(s: State, k: Id, token: int, at: Time)
    requires Inv(s) && ClaimCleanupStep(s, k, token, at).1.Applied?
    ensures Fenced(ClaimCleanupStep(s, k, token, at).0, k, token + 1)
  {
    StoredUnderItsId(s, k);
  }

  lemma FenceStays(s: State, e: Event, k: Id, token: int)
    requires Inv(s) && Fenced(s, k, token) && k in Step(s, e).0.runs
    ensures Fenced(Step(s, e).0, k, token)
  {
    hide Step, Inv, Bumps;
    RunStepsUp(s, e, k);
    if !Bumps(s, e, k) { PhaseMovesWithToken(s, e, k); }
  }

  /** The Runs a cleanup claim was granted for, with the token each claim returned. */
  type Claims = set<(Id, int)>

  function ClaimsAfter(held: Claims, s: State, e: Event): Claims {
    var kept := set c | c in held && c.0 in Step(s, e).0.runs;
    if e.ClaimCleanup? && Step(s, e).1.Applied? then kept + {(e.run, e.token + 1)} else kept
  }

  /**
   Every release presents a Run and the token its cleanup claim returned, as the services do; one that is repeated
   finds the task live and no request to answer.
   */
  ghost predicate ReleasesAreClaimed(s: State, es: seq<Event>, held: Claims)
    decreases |es|
  {
    es == [] || ((es[0].CompleteRelease? ==> (es[0].release.run.id, es[0].release.token) in held && RepeatIsQuiet(s, es[0].release))
                 && ReleasesAreClaimed(Step(s, es[0]).0, es[1..], ClaimsAfter(held, s, es[0])))
  }

  ghost predicate AllFenced(s: State, held: Claims) {
    forall c :: c in held ==> Fenced(s, c.0, c.1)
  }

  lemma ClaimsStayFenced(s: State, e: Event, held: Claims)
    requires Inv(s) && AllFenced(s, held)
    ensures AllFenced(Step(s, e).0, ClaimsAfter(held, s, e))
  {
    hide Fenced, Inv;
    forall c | c in ClaimsAfter(held, s, e) ensures Fenced(Step(s, e).0, c.0, c.1) {
      if e.ClaimCleanup? && Step(s, e).1.Applied? && c == (e.run, e.token + 1) {
        ClaimFences(s, e.run, e.token, e.at);
      } else {
        FenceStays(s, e, c.0, c.1);
      }
    }
  }

  /** A release under the token of a Run that is not active settles no message. */
  lemma FencedCopyIsFresh(s: State, i: ReleaseInput)
    requires Inv(s) && Fenced(s, i.run.id, i.token)
    ensures CopyIsFresh(s, i)
  {
    assert OwnsMessage(s.messages, s.runs[i.run.id]);
  }

  lemma FencedReleasesAgree(s: State, i: ReleaseInput)
    requires Inv(s) && RecordsAreComplete(s) && Fenced(s, i.run.id, i.token)
    ensures i.run.id in s.runs
    ensures InMemoryReleaseStep(s, i) == CompleteReleaseStep(s, i) <==> !SameIdentity(s.runs[i.run.id], i.run) || RepeatIsQuiet(s, i)
  {
    hide Inv, CopyIsFresh, RepeatIsQuiet, ReleaseGuard, TaskOfRun, Fenced, SameIdentity;
    FenceIsOnStored(s, i.run.id, i.token);
    if SameIdentity(s.runs[i.run.id], i.run) {
      FencedCopyIsFresh(s, i);
      ReleasesAgreeIff(s, i);
    }
  }

  /**
   However a Run changes between its cleanup claim and the release under the token of that claim, whose message is
   settled makes no difference: the two releases part only on a repetition that is not quiet.
   */
  lemma ClaimedReleasesAgreeIff(s: State, k: Id, token: int, at: Time, es: seq<Event>, i: ReleaseInput)
    requires Inv(s) && RecordsAreComplete(s) && ClaimCleanupStep(s, k, token, at).1.Applied?
    requires RunsFrom(ClaimCleanupStep(s, k, token, at).0, es) && Stays(ClaimCleanupStep(s, k, token, at).0, es, k)
    requires i.run.id == k && i.token == token + 1
    ensures
      var s' := After(ClaimCleanupStep(s, k, token, at).0, es);
      k in s'.runs && (InMemoryReleaseStep(s', i) == CompleteReleaseStep(s', i) <==> !SameIdentity(s'.runs[k], i.run) || RepeatIsQuiet(s', i))
  {
    hide Inv, ClaimCleanupStep, Fenced, InMemoryReleaseStep, CompleteReleaseStep, RepeatIsQuiet, SameIdentity, RecordsAreComplete;
    var e := Event.ClaimCleanup(k, token, at);
    var claimed := Step(s, e).0;
    ClaimCleanupKeeps(s, k, token, at);
    StepKeepsRecords(s, e);
    ClaimFences(s, k, token, at);
    RunStaysFenced(claimed, es, k, token + 1);
    RunsKeepInvariant(claimed, es);
    RunsKeepRecords(claimed, es);
    FenceIsOnStored(After(claimed, es), k, token + 1);
    FencedReleasesAgree(After(claimed, es), i);
  }

  lemma FenceIsOnStored(s: State, k: Id, token: int)
    requires Fenced(s, k, token)
    ensures k in s.runs
  {
  }

  lemma {:induction false} RunStaysFenced(s: State, es: seq<Event>, k: Id, token: int)
    requires Inv(s) && RunsFrom(s, es) && Stays(s, es, k) && Fenced(s, k, token)
    ensures Fenced(After(s, es), k, token)
    decreases |es|
  {
    hide Inv, Step, Fenced;
    if es != [] {
      StepKeeps(s, es[0]);
      FenceStays(s, es[0], k, token);
      RunStaysFenced(Step(s, es[0]).0, es[1..], k, token);
    }
  }

  /** The model with the in-memory release in the place of the other; every other step is the same. */
  function StepReleasingInMemory(s: State, e: Event): (State, Outcome) {
    if e.CompleteRelease? then InMemoryReleaseStep(s, e.release) else Step(s, e)
  }

  function AfterReleasingInMemory(s: State, es: seq<Event>): State
    decreases |es|
  {
    if es == [] then s else AfterReleasingInMemory(StepReleasingInMemory(s, es[0]).0, es[1..])
  }

  /** While releases follow cleanup claims and repetitions are quiet, which release the store has makes no difference to its states. */
  lemma {:induction false} ReleaseMakesNoDifference(s: State, es: seq<Event>, held: Claims)
    requires Inv(s) && RecordsAreComplete(s) && RunsFrom(s, es) && AllFenced(s, held) && ReleasesAreClaimed(s, es, held)
    ensures AfterReleasingInMemory(s, es) == After(s, es)
    decreases |es|
  {
    hide Inv, InMemoryReleaseStep, CompleteReleaseStep, RecordsAreComplete, RepeatIsQuiet, SameIdentity, Fenced;
    if es != [] {
      var e := es[0];
      StepKeeps(s, e);
      StepKeepsRecords(s, e);
      ClaimsStayFenced(s, e, held);
      if e.CompleteRelease? { FencedReleasesAgree(s, e.release); }
      assert StepReleasingInMemory(s, e) == Step(s, e);
      ReleaseMakesNoDifference(Step(s, e).0, es[1..], ClaimsAfter(held, s, e));
    }
  }

  /* ---------- inputs on which they part ---------- */

  /**
   Called directly, without a claim, the in-memory store goes wrong on a state it reaches: the caller read the Run
   before the Run took the message, so the message stays in dispatch although its Run is gone.
   */
  lemma InMemoryReleaseCanStrandMessage() returns (s: State, i: ReleaseInput)
    ensures Reachable(s) && i.run.id in s.runs && i.run.owned.None? && InMemoryReleaseStep(s, i).1.Applied?
    ensures var s' := InMemoryReleaseStep(s, i).0;
            exists k :: k in s'.messages && s'.messages[k].delivery.Dispatching? && forall r :: r in s'.runs ==> s'.runs[r].owned.None?
  {
    MessageIsDispatched();
    s := Picture(RUNNING.(owned := Some(0)), Dispatching, Some(0));
    var released := RUNNING.(phase := Released, token := 2, releasedAt := Some(9), reason := Some(Requested));
    i := ReleaseInput(released, 1, 9, Settlement(0, SCOPE, 0, Some(0), 9, 9, Resources(1, 1), Some(Requested)), None);
    assert PendingStarts(s.receipts, 0) == {};
    assert InMemoryReleaseStep(s, i).0.messages[0].delivery.Dispatching?;
  }

  const FAILED: Run := FailedRun(RUNNING, 5)

  const CLAIMED: Run := FAILED.(cleanupClaimedAt := Some(5), cleanupAttempts := 1, token := 3)

  const RELEASE: ReleaseInput :=
    ReleaseInput(CLAIMED.(phase := Released, token := 4, cleanupClaimedAt := None, releasedAt := Some(9)), 3, 9,
                 Settlement(0, SCOPE, 0, Some(0), 9, 9, Resources(1, 1), Some(AfterFailure)), Some(Response(200, 0)))

  const RELEASED: State := Picture(RELEASE.run, Pending, None).(usage := map[0 := 0], settlements := map[0 := RELEASE.settlement])

  lemma RunIsClaimed()
    ensures Reachable(Picture(CLAIMED, Pending, None))
  {
    hide Reachable, FailRunStep, ClaimCleanupStep, Picture;
    RunIsActivated();
    RunFails();
    FailedIsClaimed();
    ReachableGoesOn(Picture(RUNNING, Pending, None), Event.FailRun(0, 1, None, 5));
    ReachableGoesOn(Picture(FAILED, Pending, None), Event.ClaimCleanup(0, 2, 5));
  }

  lemma FailedIsClaimed()
    ensures ClaimCleanupStep(Picture(FAILED, Pending, None), 0, 2, 5).0 == Picture(CLAIMED, Pending, None)
  {
  }

  lemma RunFails()
    ensures FailRunStep(Picture(RUNNING, Pending, None), 0, 1, None, 5).0 == Picture(FAILED, Pending, None)
  {
    var s := Picture(RUNNING, Pending, None);
    assert PendingStarts(s.receipts, 0) == {};
    assert StartsClosed(s.receipts, 0, RunNotStarted(0)) == s.receipts;
  }

  lemma RunIsReleased()
    ensures CompleteReleaseStep(Picture(CLAIMED, Pending, None), RELEASE) == (RELEASED, Applied)
  {
    var s := Picture(CLAIMED, Pending, None);
    var (s', o) := CompleteReleaseStep(s, RELEASE);
    assert PendingStarts(s.receipts, 0) == {} && OpenReleases(s.receipts, 0, 0) == {};
    assert StartsClosed(s.receipts, 0, RunNotStarted(0)) == s.receipts;
    assert ReleaseReceiptsClosed(s.receipts, RELEASE.run, RELEASE.receipt) == s.receipts;
    assert o.Applied? && s'.receipts == s.receipts && s'.messages == s.messages;
    assert s'.runs == map[0 := RELEASE.run];
    assert Unreleased(s'.runs, 0) == {};
    assert s'.settlements == map[0 := RELEASE.settlement] && s'.usage == map[0 := 0];
  }

  /** A request that comes after the release stays open in the database store when the release is repeated, and is answered by the other. */
  lemma RepeatCanAnswerRequest() returns (s: State, i: ReleaseInput, k: Key)
    ensures Reachable(s) && k in s.receipts && s.receipts[k].reply.None?
    ensures CompleteReleaseStep(s, i) == (s, Repeated)
    ensures var (s', o) := InMemoryReleaseStep(s, i); o.Repeated? && k in s'.receipts && s'.receipts[k].reply.Some?
  {
    hide Reachable, CompleteReleaseStep, InMemoryReleaseStep, Picture;
    k := Key(0, 0, ReleaseSandbox, 1);
    i := RELEASE;
    RunIsClaimed();
    RunIsReleased();
    ReachableGoesOn(Picture(CLAIMED, Pending, None), Event.CompleteRelease(RELEASE));
    var request := Claiming(k, 0, OnRun(0), 7, 10, 20);
    ReachableGoesOn(RELEASED, Event.BeginReceipt(request));
    s := RELEASED.(receipts := RELEASED.receipts[k := Opened(request)]);
    RequestIsOpened(request);
    RepeatsDiffer(s, k);
  }

  lemma RequestIsOpened(request: Claiming<Id>)
    requires request.key == Key(0, 0, ReleaseSandbox, 1)
    ensures BeginReceiptStep(RELEASED, request).0 == RELEASED.(receipts := RELEASED.receipts[request.key := Opened(request)])
  {
  }

  lemma RepeatsDiffer(s: State, k: Key)
    requires k == Key(0, 0, ReleaseSandbox, 1) && s == RELEASED.(receipts := RELEASED.receipts[k := Opened(Claiming(k, 0, OnRun(0), 7, 10, 20))])
    ensures CompleteReleaseStep(s, RELEASE) == (s, Repeated)
    ensures var (s', o) := InMemoryReleaseStep(s, RELEASE); o.Repeated? && k in s'.receipts && s'.receipts[k].reply.Some?
  {
    assert PendingStarts(s.receipts, 0) == {} && k in OpenReleases(s.receipts, 0, 0);
    assert StartsClosed(s.receipts, 0, RunNotStarted(0)) == s.receipts;
    assert Unreleased(s.runs, 0) == {} && s.usage == map[0 := 0];
    assert WithExactUsage(s.usage, s.runs, 0) == s.usage;
    assert s.runs[0] == RELEASE.run && s.settlements[0] == RELEASE.settlement && PointsAtRun(s, s.runs[0]);
  }
}
