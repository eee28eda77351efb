/**
 How the reaper gives a cleanup claim back: the fenced raw update writes its whole copy of the Run, read at some earlier
 moment under the same token.
 */
module CleanupCopies {
  import opened Basics
  import opened Receipts
  import opened SandboxModel
  import opened SandboxRuns
  import opened SandboxTheorems
  import opened SandboxExamples

  /** Two unreleased Runs of one task are refused on every write. */
  predicate TaskHasOther(s: State, r: Run) {
    exists k :: k in s.runs && k != r.id && s.runs[k].scope.task == r.scope.task && !s.runs[k].phase.Released?
  }

  /** The update as the store makes it: it replaces the stored Run by whatever the caller brings. */
  function FencedUpdateStep(s: State, run: Run, token: int): (State, Outcome) {
    if run.id !in s.runs || s.runs[run.id].token != token then (s, Refused)
    else
      var r := s.runs[run.id];
      if !SameIdentity(r, run) || (r.phase.Starting? && !run.phase.Starting?) || (!r.phase.Released? && run.phase.Released?)
         || (!run.phase.Released? && TaskHasOther(s, run)) then (s, Aborted)
      else (WithRun(s, run), Applied)
  }

  /** What the reaper writes: its copy, without the claim and with the next token. */
  function Returning(copy: Run): Run {
    copy.(cleanupClaimedAt := None, token := copy.token + 1)
  }

  /** `r` is the copy but for startup work, which only a starting Run has. */
  predicate SameButHeld(copy: Run, r: Run) {
    r == copy.(startup := r.startup, startedAt := r.startedAt, readyAt := r.readyAt, claim := r.claim, lease := r.lease, deadline := r.deadline)
    && (!copy.phase.Starting? ==> r == copy)
  }

  lemma StartupChangesHeld(s: State, run: Id, task: Id, token: int, step: StartupStep)
    requires KeysAgree(s.tasks, s.runs) && run in s.runs
    ensures run in StartupStepOn(s, run, task, token, step).0.runs
    ensures SameButHeld(s.runs[run], StartupStepOn(s, run, task, token, step).0.runs[run])
  {
  }

  /** A step that does not move the token changes a Run that is not active by its startup work only. */
  lemma QuietStep(s: State, e: Event, k: Id)
    requires Inv(s) && WellFormed(s, e) && k in s.runs && k in Step(s, e).0.runs && !Bumps(s, e, k) && !s.runs[k].phase.Active?
    ensures SameButHeld(s.runs[k], Step(s, e).0.runs[k])
  {
    hide Step, Inv, WellFormed, IsRunStep, Bumps;
    if !IsRunStep(e) {
      StepKeeps(s, e);
      OthersLeaveRun(s, e, k);
      StartingOwnsNothing(s, k);
      StartingOwnsNothing(Step(s, e).0, k);
    } else if e.Startup? {
      QuietStartup(s, e, k);
    } else {
      BumpAdvances(s, e);
    }
  }

  lemma QuietStartup(s: State, e: Event, k: Id)
    requires Inv(s) && k in s.runs && k in Step(s, e).0.runs && e.Startup?
    ensures SameButHeld(s.runs[k], Step(s, e).0.runs[k])
  {
    assert KeysAgree(s.tasks, s.runs);
    hide Inv, StartupStepOn, SameButHeld;
    if e.run == k {
      StartupChangesHeld(s, k, e.task, e.token, e.step);
    } else {
      StartupReplaces(s, e.run, e.task, e.token, e.step);
      NothingChanges(s.runs[k]);
    }
  }

  lemma NothingChanges(r: Run)
    ensures SameButHeld(r, r)
  {
  }

  /** The copy was read under a token the Run has since given up, or is still right up to startup work. */
  predicate HoldsCopy(s: State, k: Id, copy: Run) {
    k in s.runs && s.runs[k].token >= copy.token && (s.runs[k].token == copy.token ==> SameButHeld(copy, s.runs[k]))
  }

  lemma CopyStays(s: State, e: Event, k: Id, copy: Run)
    requires Inv(s) && WellFormed(s, e) && HoldsCopy(s, k, copy) && !copy.phase.Active? && k in Step(s, e).0.runs
    ensures HoldsCopy(Step(s, e).0, k, copy)
  {
    hide Step, Inv, WellFormed, Bumps;
    RunStepsUp(s, e, k);
    if s.runs[k].token == copy.token && !Bumps(s, e, k) { QuietStep(s, e, k); }
  }

  lemma {:induction false} CopyLasts(s: State, es: seq<Event>, k: Id, copy: Run)
    requires Inv(s) && RunsFrom(s, es) && Stays(s, es, k) && HoldsCopy(s, k, copy) && !copy.phase.Active?
    ensures HoldsCopy(After(s, es), k, copy)
    decreases |es|
  {
    hide Inv, Step, WellFormed, HoldsCopy;
    if es != [] {
      StepKeeps(s, es[0]);
      CopyStays(s, es[0], k, copy);
      CopyLasts(Step(s, es[0]).0, es[1..], k, copy);
    }
  }

  /**
   However the Run changes between the read and the write: writing the copy back is exactly the returned cleanup claim
   of the model, and an event the services may send.
   */
  lemma WriteBackReturnsClaim(s: State, es: seq<Event>, k: Id)
    requires Inv(s) && RunsFrom(s, es) && Stays(s, es, k) && k in s.runs
    requires s.runs[k].phase.Starting? || s.runs[k].phase.Failed? || s.runs[k].phase.ReleaseRequested?
    ensures
      var copy, s' := s.runs[k], After(s, es);
      FencedUpdateStep(s', Returning(copy), copy.token) == ReturnCleanupStep(s', k, copy.token, HeldOf(copy))
      && WellFormed(s', Event.ReturnCleanup(k, copy.token, HeldOf(copy)))
  {
    hide Inv, RunsFrom, Stays, After, HoldsCopy, FencedUpdateStep, ReturnCleanupStep;
    CopyIsRead(s, k);
    CopyLasts(s, es, k, s.runs[k]);
    RunsKeepInvariant(s, es);
    FreshEnough(After(s, es), k, s.runs[k]);
  }

  lemma CopyIsRead(s: State, k: Id)
    requires Inv(s) && k in s.runs
    ensures HoldsCopy(s, k, s.runs[k]) && s.runs[k].id == k && (s.runs[k].deadline.Some? ==> s.runs[k].claim.Some?)
  {
    assert ActionHasOwner(s.runs[k]);
  }

  lemma FreshEnough(s: State, k: Id, copy: Run)
    requires Inv(s) && HoldsCopy(s, k, copy) && copy.id == k && !copy.phase.Active? && !copy.phase.Released?
    ensures FencedUpdateStep(s, Returning(copy), copy.token) == ReturnCleanupStep(s, k, copy.token, HeldOf(copy))
  {
    if s.runs[k].token == copy.token {
      StoredUnderItsId(s, k);
      NoOtherRun(s, k);
      hide Inv;
    }
  }

  lemma NoOtherRun(s: State, k: Id)
    requires Inv(s) && k in s.runs && !s.runs[k].phase.Released?
    ensures !TaskHasOther(s, s.runs[k])
  {
    assert IsCurrent(s.projects, s.tasks, s.runs[k]);
    assert forall l :: l in s.runs && !s.runs[l].phase.Released? ==> IsCurrent(s.projects, s.tasks, s.runs[l]) && s.runs[l].id == l;
  }

  /** Giving the claim back changes nothing else exactly if the Run is not starting or the copy has its startup work right. */
  lemma ReturnIsCleanIff(s: State, k: Id, held: Held)
    requires k in s.runs && s.runs[k].id == k && ReturnCleanupStep(s, k, s.runs[k].token, held).1.Applied?
    ensures ReturnCleanupStep(s, k, s.runs[k].token, held).0 == WithRun(s, Returning(s.runs[k]))
       <==> (s.runs[k].phase.Starting? ==> held == HeldOf(s.runs[k]))
  {
    var r := s.runs[k];
    assert WithRun(s, ReturnedRun(r, held)).runs[k] == ReturnedRun(r, held) && WithRun(s, Returning(r)).runs[k] == Returning(r);
  }

  /**
   So a copy that is too old ends an action nobody entitled has ended: the reaper read the Run with its first action,
   whose owner then gave it up and another one began its own under the same token.
   */
  lemma OldCopyEndsAction() returns (s: State, es: seq<Event>)
    ensures Reachable(s) && RunsFrom(s, es) && Stays(s, es, 0)
    ensures
      var copy, s' := s.runs[0], After(s, es);
      0 in s'.runs && s'.runs[0].deadline == Some(9) && copy.deadline == Some(1)
      && var (s'', o) := FencedUpdateStep(s', Returning(copy), copy.token);
         o.Applied? && 0 in s''.runs && s''.runs[0].deadline == Some(1) && s''.runs[0].claim == copy.claim
  {
    var copy := ACTING;
    s := Picture(copy, Pending, None);
    es := [Event.Startup(0, 0, 0, RecoverAction(0, 1)), Event.Startup(0, 0, 0, ClaimStartup(1, 2, 8)), Event.Startup(0, 0, 0, BeginAction(1, 2, 9))];
    ActionIsBegun();
    var open := copy.(claim := None, lease := None, deadline := None);
    var taken := open.(claim := Some(1), lease := Some(8));
    var acting := taken.(deadline := Some(9));
    StartupStepsOn(copy, RecoverAction(0, 1), open);
    StartupStepsOn(open, ClaimStartup(1, 2, 8), taken);
    StartupStepsOn(taken, BeginAction(1, 2, 9), acting);
    hide Reachable, Picture, Step;
    ThreeSteps(s, es, Picture(open, Pending, None), Picture(taken, Pending, None), Picture(acting, Pending, None));
    OldCopyIsWritten(copy, acting);
  }

  lemma StartupStepsOn(r: Run, step: StartupStep, r': Run)
    requires r.id == 0 && r.phase.Starting? && r.token == 0 && r.scope == SCOPE && StartupRun(r, true, step).0 == r'
    ensures Step(Picture(r, Pending, None), Event.Startup(0, 0, 0, step)).0 == Picture(r', Pending, None)
    ensures WellFormed(Picture(r, Pending, None), Event.Startup(0, 0, 0, step)) && 0 in Picture(r, Pending, None).runs
  {
  }

  lemma ThreeSteps(s: State, es: seq<Event>, s1: State, s2: State, s3: State)
    requires |es| == 3 && WellFormed(s, es[0]) && WellFormed(s1, es[1]) && WellFormed(s2, es[2])
    requires Step(s, es[0]).0 == s1 && Step(s1, es[1]).0 == s2 && Step(s2, es[2]).0 == s3
    requires 0 in s.runs && 0 in s1.runs && 0 in s2.runs && 0 in s3.runs
    ensures RunsFrom(s, es) && Stays(s, es, 0) && After(s, es) == s3
  {
    hide Step, WellFormed;
    var rest, last := es[1..], es[2..];
    assert rest[0] == es[1] && rest[1..] == last && last[0] == es[2] && last[1..] == [];
    assert RunsFrom(s2, last) && Stays(s2, last, 0) && After(s2, last) == s3;
    assert RunsFrom(s1, rest) && Stays(s1, rest, 0) && After(s1, rest) == s3;
  }

  lemma OldCopyIsWritten(copy: Run, acting: Run)
    requires copy == ACTING
    requires acting == copy.(claim := Some(1), lease := Some(8), deadline := Some(9))
    ensures 0 in Picture(acting, Pending, None).runs && Picture(acting, Pending, None).runs[0] == acting && Picture(copy, Pending, None).runs[0] == copy
    ensures FencedUpdateStep(Picture(acting, Pending, None), Returning(copy), 0) == (Picture(Returning(copy), Pending, None), Applied)
  {
    var s := Picture(acting, Pending, None);
    assert !TaskHasOther(s, Returning(copy));
    assert s.runs[0 := Returning(copy)] == map[0 := Returning(copy)];
  }
}
