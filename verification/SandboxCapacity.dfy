/** Capacity: what an admission may insert, and what holds while nobody lowers the limit. */
module SandboxCapacity {
  import opened Basics
  import opened Receipts
  import opened SandboxModel
  import opened SandboxRuns
  import opened SandboxTheorems

  /** The admission gate is exact: it refuses for capacity if and only if the project or the namespace is full. */
  lemma AdmissionGate(s: State, admission: Admission, r: Run)
    requires admission.namespace == r.namespace && admission.limit > 0 && r.scope.project in s.policies
    ensures Admit(s, admission, r).Full? <==>
              (s.policies[r.scope.project].Some? && |Unreleased(s.runs, r.scope.project)| >= s.policies[r.scope.project].value)
              || |UnreleasedInNamespace(s.runs, r.namespace)| >= admission.limit
    ensures Admit(s, admission, r).Inserted? && !r.phase.Released? ==>
              |Unreleased(Admit(s, admission, r).runs, r.scope.project)| == |Unreleased(s.runs, r.scope.project)| + 1
              && |UnreleasedInNamespace(Admit(s, admission, r).runs, r.namespace)| == |UnreleasedInNamespace(s.runs, r.namespace)| + 1
  {
    if Admit(s, admission, r).Inserted? && !r.phase.Released? {
      var runs := Admit(s, admission, r).runs;
      assert Unreleased(runs, r.scope.project) == Unreleased(s.runs, r.scope.project) + {r.id};
      assert UnreleasedInNamespace(runs, r.namespace) == UnreleasedInNamespace(s.runs, r.namespace) + {r.id};
    }
  }

  /** Only admissions add to the unreleased Runs of a project. */
  lemma OthersAddNoRun(s: State, e: Event, p: Id)
    requires Inv(s) && !IsAdmission(e)
    ensures Unreleased(Step(s, e).0.runs, p) <= Unreleased(s.runs, p)
  {
    hide Step, Inv, Bumps, IsAdmission;
    forall k | k in Unreleased(Step(s, e).0.runs, p) ensures k in Unreleased(s.runs, p) {
      OthersAddNoKey(s, e, k);
      RunStepsUp(s, e, k);
    }
  }

  lemma OthersAddNoKey(s: State, e: Event, k: Id)
    requires Inv(s) && !IsAdmission(e) && k in Step(s, e).0.runs
    ensures k in s.runs
  {
    if IsDelivery(e) {
      DeliveryAddsNoKey(s, e, k);
    } else if !IsRunStep(e) {
      HousekeepingAddsNoKey(s, e, k);
    } else if e.Startup? {
      StartupReplaces(s, e.run, e.task, e.token, e.step);
    } else {
      BumpAddsNoKey(s, e, k);
    }
  }

  lemma DeliveryAddsNoKey(s: State, e: Event, k: Id)
    requires IsDelivery(e) && k in Step(s, e).0.runs
    ensures k in s.runs
  {
    hide HasOlderUnresolved, ProjectIsActive, Claim, Completed, Settled;
  }

  lemma HousekeepingAddsNoKey(s: State, e: Event, k: Id)
    requires !IsAdmission(e) && !IsDelivery(e) && !IsRunStep(e) && k in Step(s, e).0.runs
    ensures k in s.runs
  {
    hide PurgeTaskStep, FinalizeProjectStep, TaskSandboxReleased, ProjectIsActive, Unreleased, Begin, Complete;
    if e.PurgeTask? {
      PurgeAddsNoKey(s, e.task, e.completion, k);
    } else if e.FinalizeProject? {
      FinalizeAddsNoKey(s, e.project, e.providerLive, e.completion, k);
    }
  }

  lemma PurgeAddsNoKey(s: State, task: Id, completion: Option<Completion>, k: Id)
    requires k in PurgeTaskStep(s, task, completion).0.runs
    ensures k in s.runs
  {
    hide TaskSandboxReleased, Holds;
  }

  lemma FinalizeAddsNoKey(s: State, project: Id, live: bool, completion: Option<Completion>, k: Id)
    requires k in FinalizeProjectStep(s, project, live, completion).0.runs
    ensures k in s.runs
  {
    hide Unreleased, InProject, Holds;
  }

  lemma BumpAddsNoKey(s: State, e: Event, k: Id)
    requires Inv(s) && IsRunStep(e) && !e.Startup? && k in Step(s, e).0.runs
    ensures k in s.runs
  {
    hide Step, Inv, IsRunStep;
    BumpAdvances(s, e);
  }

  ghost predicate LimitStays(s: State, es: seq<Event>, p: Id, limit: nat)
    decreases |es|
  {
    p in s.policies && s.policies[p] == Some(limit) && (es != [] ==> LimitStays(Step(s, es[0]).0, es[1..], p, limit))
  }

  lemma SubsetIsSmaller(a: set<Id>, b: set<Id>)
    requires a <= b
    ensures |a| <= |b|
  {
    assert b == a + (b - a);
  }

  lemma InsertionWithinLimits(s: State, admission: Admission, r: Run)
    requires Admit(s, admission, r).Inserted?
    ensures var runs := Admit(s, admission, r).runs;
            r.id in runs && r.scope.project in s.policies
            && |UnreleasedInNamespace(runs, r.namespace)| <= admission.limit
            && (s.policies[r.scope.project].Some? ==> |Unreleased(runs, r.scope.project)| <= s.policies[r.scope.project].value)
  {
    var runs := Admit(s, admission, r).runs;
    AdmissionGate(s, admission, r);
    assert UnreleasedInNamespace(runs, r.namespace) <= UnreleasedInNamespace(s.runs, r.namespace) + {r.id};
    SubsetIsSmaller(UnreleasedInNamespace(runs, r.namespace), UnreleasedInNamespace(s.runs, r.namespace) + {r.id});
    assert Unreleased(runs, r.scope.project) <= Unreleased(s.runs, r.scope.project) + {r.id};
    SubsetIsSmaller(Unreleased(runs, r.scope.project), Unreleased(s.runs, r.scope.project) + {r.id});
  }

  lemma StepWithinLimit(s: State, e: Event, p: Id, limit: nat)
    requires Inv(s) && WellFormed(s, e) && p in s.policies && s.policies[p] == Some(limit) && |Unreleased(s.runs, p)| <= limit
    ensures |Unreleased(Step(s, e).0.runs, p)| <= limit
  {
    hide Step, Inv, WellFormed, IsAdmission;
    var runs := Step(s, e).0.runs;
    if !IsAdmission(e) {
      OthersAddNoRun(s, e, p);
      SubsetIsSmaller(Unreleased(runs, p), Unreleased(s.runs, p));
    } else {
      AdmissionInserts(s, e);
      if runs != s.runs {
        var (admission, r) := Candidate(e).value;
        if r.scope.project == p {
          InsertionWithinLimits(s, admission, r);
        } else {
          assert Unreleased(runs, p) == Unreleased(s.runs, p);
        }
      }
    }
  }

  /** While a project's limit stands, no run of the store ever holds more sandboxes than it, and the counter says how many. */
  lemma {:induction false} CapacityIsRespected(s: State, es: seq<Event>, p: Id, limit: nat)
    requires Inv(s) && RunsFrom(s, es) && LimitStays(s, es, p, limit) && |Unreleased(s.runs, p)| <= limit
    ensures |Unreleased(After(s, es).runs, p)| <= limit
    ensures p in After(s, es).usage ==> After(s, es).usage[p] <= limit
    decreases |es|
  {
    if es != [] {
      StepKeeps(s, es[0]);
      StepWithinLimit(s, es[0], p, limit);
      CapacityIsRespected(Step(s, es[0]).0, es[1..], p, limit);
    }
  }

  /** Each admission leaves the namespace within the limit it was admitted under. */
  lemma NamespaceWithinLimit(s: State, e: Event)
    requires Inv(s) && WellFormed(s, e) && IsAdmission(e) && Step(s, e).0.runs != s.runs
    ensures Candidate(e).Some?
    ensures var (admission, r) := Candidate(e).value;
            r.id in Step(s, e).0.runs && |UnreleasedInNamespace(Step(s, e).0.runs, r.namespace)| <= admission.limit
  {
    hide Step, Inv, WellFormed, IsAdmission, Admit, Candidate;
    AdmissionInserts(s, e);
    InsertionWithinLimits(s, Candidate(e).value.0, Candidate(e).value.1);
  }

  /** Each admission leaves the project within its limit, also if the limit was lowered below the count before. */
  lemma ProjectWithinLimit(s: State, e: Event)
    requires Inv(s) && WellFormed(s, e) && IsAdmission(e) && Step(s, e).0.runs != s.runs
    ensures Candidate(e).Some? && Candidate(e).value.1.scope.project in s.policies
    ensures var p := Candidate(e).value.1.scope.project;
            s.policies[p].Some? ==> |Unreleased(Step(s, e).0.runs, p)| <= s.policies[p].value
  {
    hide Step, Inv, WellFormed, IsAdmission, Admit, Candidate;
    AdmissionInserts(s, e);
    InsertionWithinLimits(s, Candidate(e).value.0, Candidate(e).value.1);
  }
}
