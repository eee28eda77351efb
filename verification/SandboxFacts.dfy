/** What is once recorded about a Run stays, over every run of the store. */
module SandboxFacts {
  import opened Basics
  import opened Receipts
  import opened SandboxModel
  import opened SandboxRuns
  import opened SandboxTheorems
  import opened SandboxEffects

  predicate Stands<T(==)>(a: Option<T>, b: Option<T>) {
    a.Some? ==> b == a
  }

  /** Who a Run is never changes; its config, its pod and its start are recorded once. */
  predicate FactsStand(a: Run, b: Run) {
    && b.id == a.id && b.scope == a.scope && b.namespace == a.namespace && b.startedBy == a.startedBy && b.resources == a.resources
    && b.createdAt == a.createdAt && b.startup.names == a.startup.names
    && Stands(a.startup.configMap, b.startup.configMap) && Stands(a.startup.configHash, b.startup.configHash)
    && Stands(a.startup.podUid, b.startup.podUid) && Stands(a.startup.podIp, b.startup.podIp) && Stands(a.startedAt, b.startedAt)
  }

  lemma StepKeepsFacts(s: State, e: Event, k: Id)
    requires Inv(s) && k in s.runs && k in Step(s, e).0.runs
    ensures FactsStand(s.runs[k], Step(s, e).0.runs[k])
  {
    hide Step, Inv, FactsStand;
    if !IsRunStep(e) { OthersKeepFacts(s, e, k); }
    else if e.Startup? { StartupKeepsFacts(s, e, k); }
    else {
      BumpAdvances(s, e);
      if Presents(e).value.0 == k { BumpKeepsFacts(s, e, k); } else { SameFacts(s.runs[k]); }
    }
  }

  lemma SameFacts(r: Run)
    ensures FactsStand(r, r)
  {
  }

  lemma OthersKeepFacts(s: State, e: Event, k: Id)
    requires k in s.runs && k in Step(s, e).0.runs && !IsRunStep(e)
    ensures FactsStand(s.runs[k], Step(s, e).0.runs[k])
  {
    hide Step;
    OthersLeaveRun(s, e, k);
  }

  lemma StartupKeepsFacts(s: State, e: Event, k: Id)
    requires Inv(s) && e.Startup? && k in s.runs && k in Step(s, e).0.runs
    ensures FactsStand(s.runs[k], Step(s, e).0.runs[k])
  {
    hide Inv, StartupRun, FactsStand;
    StoredUnderItsId(s, k);
    SameFacts(s.runs[k]);
    if e.run in s.runs {
      StoredUnderItsId(s, e.run);
      forall open: bool ensures FactsStand(s.runs[e.run], StartupRun(s.runs[e.run], open, e.step).0) { StartupRunKeepsFacts(s.runs[e.run], open, e.step); }
      forall open: bool ensures StartupRun(s.runs[e.run], open, e.step).0.id == e.run { StartupRunKeepsId(s.runs[e.run], open, e.step); }
    }
  }

  lemma StartupRunKeepsFacts(r: Run, open: bool, step: StartupStep)
    ensures FactsStand(r, StartupRun(r, open, step).0)
  {
  }

  lemma StartupRunKeepsId(r: Run, open: bool, step: StartupStep)
    ensures StartupRun(r, open, step).0.id == r.id
  {
  }

  lemma EndedFacts(r: Run, at: Time)
    ensures FactsStand(r, Failure(r, at)) && FactsStand(r, Withdrawn(r, at))
  {
  }

  lemma ReleasedFacts(r: Run, i: ReleaseInput)
    requires IsReleaseOf(r, i) && i.run.id == r.id
    ensures FactsStand(r, i.run.(owned := None))
  {
    hide Account;
  }

  /** What a step on a Run makes of the Run it names, where that is known. */
  lemma BumpKeepsFacts(s: State, e: Event, k: Id)
    requires Inv(s) && IsRunStep(e) && !e.Startup? && Presents(e).Some? && Presents(e).value.0 == k && k in s.runs && k in Step(s, e).0.runs
    ensures FactsStand(s.runs[k], Step(s, e).0.runs[k])
  {
    hide Inv, FactsStand, StartupStepOn, ActivateStep, FailRunStep, FailStartupStep, DrainStep, RequestReleaseStep, CompleteReleaseStep, ClaimCleanupStep,
         ReturnCleanupStep;
    StoredUnderItsId(s, k);
    match e {
      case Activate(i) => ActivationKeepsFacts(s, i);
      case FailRun(run, token, claim, at) => FailureKeepsFacts(s, e, k, at);
      case FailStartup(i) => FailureKeepsFacts(s, e, k, i.at);
      case Drain(run, task, token, claim, until, at) => FailureKeepsFacts(s, e, k, at);
      case RequestRelease(i) => RequestKeepsFacts(s, i);
      case CompleteRelease(i) => ReleaseKeepsFacts(s, i);
      case ClaimCleanup(run, token, at) => ClaimKeepsFacts(s, run, token, at);
      case ReturnCleanup(run, token, held) => ReturnKeepsFacts(s, run, token, held);
    }
  }

  lemma FailureKeepsFacts(s: State, e: Event, k: Id, at: Time)
    requires Inv(s) && Presents(e).Some? && Presents(e).value.0 == k && k in s.runs && k in Step(s, e).0.runs
    requires (e.FailRun? && e.at == at) || (e.FailStartup? && e.failStartup.at == at) || (e.Drain? && e.at == at)
    ensures FactsStand(s.runs[k], Step(s, e).0.runs[k])
  {
    hide Inv, FactsStand, Failure, FailRunStep, FailStartupStep, DrainStep, FailsDelivery, AnswersStarts, IsStarting;
    EndedFacts(s.runs[k], at);
    SameFacts(s.runs[k]);
    if e.FailRun? { RunFails(s, e.run, e.token, e.failClaim, at); }
    else if e.FailStartup? { StartupFails(s, e.failStartup); }
    else { OverdueRunFails(s, e.run, e.task, e.token, e.claim, e.until, at); }
  }

  lemma ActivationKeepsFacts(s: State, i: ActivateInput)
    requires Inv(s) && i.run in s.runs
    ensures var s' := ActivateStep(s, i).0; i.run in s'.runs && FactsStand(s.runs[i.run], s'.runs[i.run])
  {
    hide Inv, ActivateStep, AnswersStarts;
    RunIsActive(s, i);
  }

  lemma RequestKeepsFacts(s: State, i: ReleaseRequest)
    requires Inv(s) && i.run in s.runs
    ensures var s' := RequestReleaseStep(s, i).0; i.run in s'.runs && FactsStand(s.runs[i.run], s'.runs[i.run])
  {
    hide Inv, RequestReleaseStep, FactsStand, Withdrawn, MayRequest, FailsDelivery, AnswersStarts;
    ReleaseIsRequested(s, i);
    SameFacts(s.runs[i.run]);
    EndedFacts(s.runs[i.run], i.at);
  }

  lemma ReleaseKeepsFacts(s: State, i: ReleaseInput)
    requires Inv(s) && i.run.id in s.runs && s.runs[i.run.id].id == i.run.id
    ensures var s' := CompleteReleaseStep(s, i).0; i.run.id in s'.runs && FactsStand(s.runs[i.run.id], s'.runs[i.run.id])
  {
    hide Inv, CompleteReleaseStep, FactsStand, IsReleaseOf, FailsDelivery, AnswersRelease;
    SameFacts(s.runs[i.run.id]);
    if s.runs[i.run.id].phase.Released? { ReleaseIsRepeated(s, i); } else { ReleaseIsCompleted(s, i); }
    if IsReleaseOf(s.runs[i.run.id], i) { ReleasedFacts(s.runs[i.run.id], i); }
  }

  lemma ClaimKeepsFacts(s: State, run: Id, token: int, at: Time)
    requires Inv(s) && run in s.runs
    ensures var s' := ClaimCleanupStep(s, run, token, at).0; run in s'.runs && FactsStand(s.runs[run], s'.runs[run])
  {
    hide Inv, ClaimCleanupStep;
    CleanupIsClaimed(s, run, token, at);
  }

  lemma ReturnKeepsFacts(s: State, run: Id, token: int, held: Held)
    requires Inv(s) && run in s.runs
    ensures var s' := ReturnCleanupStep(s, run, token, held).0; run in s'.runs && FactsStand(s.runs[run], s'.runs[run])
  {
    hide Inv, ReturnCleanupStep;
    CleanupIsReturned(s, run, token, held);
  }

  /** Over any run: whoever starts, fails, cleans up or releases a Run, its identity and what startup recorded about it stand. */
  lemma {:induction false} RecordedFactsStand(s: State, es: seq<Event>, k: Id)
    requires Inv(s) && RunsFrom(s, es) && Stays(s, es, k)
    ensures k in After(s, es).runs && FactsStand(s.runs[k], After(s, es).runs[k])
    decreases |es|
  {
    hide Step, Inv;
    if es != [] {
      StepKeeps(s, es[0]);
      StepKeepsFacts(s, es[0], k);
      RecordedFactsStand(Step(s, es[0]).0, es[1..], k);
    }
  }
}
