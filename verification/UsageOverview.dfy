/** The usage report of a member: settled Runs from their settlements, live Runs from the clock. */
module UsageOverview {
  import opened Basics
  import opened Receipts
  import opened SandboxModel
  import opened SandboxRuns
  import opened Sums

  datatype Metric = Launches | Duration | CpuTime | MemoryTime

  /** What one Run contributes, live or settled. */
  function Weight(metric: Metric, startedAt: Option<Time>, duration: nat, resources: Resources): nat {
    match metric
    case Launches => if startedAt.Some? then 1 else 0
    case Duration => duration
    case CpuTime => resources.cpuMillis * duration
    case MemoryTime => resources.memoryBytes * duration
  }

  predicate IsLive(runs: map<Id, Run>, project: Id, user: Id, k: Id) {
    k in runs && runs[k].scope.project == project && runs[k].startedBy == user && !runs[k].phase.Released?
  }

  function LiveRuns(runs: map<Id, Run>, project: Id, user: Id): set<Id> {
    set k | k in runs && IsLive(runs, project, user, k)
  }

  function LiveWeight(runs: map<Id, Run>, project: Id, user: Id, metric: Metric, at: Time): Id -> int {
    (k: Id) => if IsLive(runs, project, user, k)
               then Weight(metric, runs[k].startedAt, RunDuration(runs[k].startedAt, at), runs[k].resources) else 0
  }

  predicate IsSettledFor(settlements: map<Id, Settlement>, project: Id, user: Id, k: Id) {
    k in settlements && settlements[k].scope.project == project && settlements[k].startedBy == user
  }

  function SettledWeight(settlements: map<Id, Settlement>, project: Id, user: Id, metric: Metric): Id -> int {
    (k: Id) => if IsSettledFor(settlements, project, user, k)
               then Weight(metric, settlements[k].startedAt, settlements[k].duration, settlements[k].resources) else 0
  }

  /** One total of the report at instant `at`. */
  ghost function Total(runs: map<Id, Run>, settlements: map<Id, Settlement>, project: Id, user: Id, metric: Metric, at: Time): int {
    Sum(runs.Keys, LiveWeight(runs, project, user, metric, at)) + Sum(settlements.Keys, SettledWeight(settlements, project, user, metric))
  }

  /** The report's own consistency check over the member's Runs. */
  predicate RunIsConsistent(s: State, project: Id, user: Id, r: Run) {
    if r.phase.Released? then IsSettledFor(s.settlements, project, user, r.id)
    else
      r.scope.task in s.tasks && s.tasks[r.scope.task].scope.project == project && !s.tasks[r.scope.task].deleted
      && s.tasks[r.scope.task].currentRun == Some(r.id) && s.tasks[r.scope.task].scope == r.scope
  }

  /** In a state the store can reach, the report is never refused as inconsistent. */
  lemma ReachableReportIsConsistent(s: State, project: Id, user: Id, k: Id)
    requires Reachable(s) && k in s.runs && s.runs[k].scope.project == project && s.runs[k].startedBy == user
    ensures RunIsConsistent(s, project, user, s.runs[k])
  {
    ReachableStatesKeep(s);
    ReportIsConsistent(s, project, user, k);
  }

  lemma ReportIsConsistent(s: State, project: Id, user: Id, k: Id)
    requires Inv(s) && k in s.runs && s.runs[k].scope.project == project && s.runs[k].startedBy == user
    ensures RunIsConsistent(s, project, user, s.runs[k])
  {
    if !s.runs[k].phase.Released? { assert IsCurrent(s.projects, s.tasks, s.runs[k]); }
  }

  /** What a release changes, as far as the report can see. */
  lemma ReleaseEffect(s: State, i: ReleaseInput)
    requires Inv(s) && CompleteReleaseStep(s, i).1.Applied?
    ensures i.run.releasedAt.Some? && i.run.id in s.runs && i.run.id !in s.settlements
    ensures var s' := CompleteReleaseStep(s, i).0;
            s'.runs == s.runs[i.run.id := i.run.(owned := None)] && s'.settlements == s.settlements[i.run.id := i.settlement]
    ensures !s.runs[i.run.id].phase.Released? && i.run.phase.Released? && SettlementMatches(i.settlement, s.runs[i.run.id], i.run)
  {
  }

  lemma LiveTotalAfter(runs: map<Id, Run>, released: Run, project: Id, user: Id, metric: Metric, at: Time)
    requires released.id in runs && released.phase.Released?
    ensures Sum(runs[released.id := released].Keys, LiveWeight(runs[released.id := released], project, user, metric, at))
              == Sum(runs.Keys, LiveWeight(runs, project, user, metric, at)) - LiveWeight(runs, project, user, metric, at)(released.id)
  {
    var live, live' := LiveWeight(runs, project, user, metric, at), LiveWeight(runs[released.id := released], project, user, metric, at);
    assert runs[released.id := released].Keys == runs.Keys;
    SumChange(runs.Keys, live, live', released.id);
  }

  lemma SettledTotalAfter(settlements: map<Id, Settlement>, k: Id, v: Settlement, project: Id, user: Id, metric: Metric)
    requires k !in settlements
    ensures Sum(settlements[k := v].Keys, SettledWeight(settlements[k := v], project, user, metric))
              == Sum(settlements.Keys, SettledWeight(settlements, project, user, metric)) + SettledWeight(settlements[k := v], project, user, metric)(k)
  {
    var settled, settled' := SettledWeight(settlements, project, user, metric), SettledWeight(settlements[k := v], project, user, metric);
    assert settlements[k := v].Keys == settlements.Keys + {k};
    SumAdd(settlements.Keys, settled', k);
    SumSame(settlements.Keys, settled, settled');
  }

  lemma TotalsMove(runs: map<Id, Run>, settlements: map<Id, Settlement>, released: Run, v: Settlement,
                   project: Id, user: Id, metric: Metric)
    requires released.id in runs && released.id !in settlements && released.phase.Released? && !runs[released.id].phase.Released?
    requires SettlementMatches(v, runs[released.id], released)
    ensures Total(runs[released.id := released], settlements[released.id := v], project, user, metric, released.releasedAt.value)
              == Total(runs, settlements, project, user, metric, released.releasedAt.value)
  {
    LiveTotalAfter(runs, released, project, user, metric, released.releasedAt.value);
    SettledTotalAfter(settlements, released.id, v, project, user, metric);
  }

  /** Releasing a Run moves its contribution from the clock to its settlement and changes no total. */
  lemma ReleaseConservesTotals(s: State, i: ReleaseInput, project: Id, user: Id, metric: Metric)
    requires Inv(s) && CompleteReleaseStep(s, i).1.Applied?
    ensures i.run.releasedAt.Some?
    ensures var s' := CompleteReleaseStep(s, i).0;
            Total(s'.runs, s'.settlements, project, user, metric, i.run.releasedAt.value)
            == Total(s.runs, s.settlements, project, user, metric, i.run.releasedAt.value)
  {
    ReleaseEffect(s, i);
    TotalsMove(s.runs, s.settlements, i.run.(owned := None), i.settlement, project, user, metric);
  }

  lemma ReleaseLowersLiveCount(s: State, i: ReleaseInput)
    requires Inv(s) && CompleteReleaseStep(s, i).1.Applied?
    ensures |LiveRuns(CompleteReleaseStep(s, i).0.runs, i.run.scope.project, i.run.startedBy)|
              == |LiveRuns(s.runs, i.run.scope.project, i.run.startedBy)| - 1
  {
    var before, after := LiveRuns(s.runs, i.run.scope.project, i.run.startedBy),
                         LiveRuns(CompleteReleaseStep(s, i).0.runs, i.run.scope.project, i.run.startedBy);
    hide CompleteReleaseStep, Inv;
    ReleaseReplacesOne(s, i);
    assert i.run.id in before && before == after + {i.run.id} && i.run.id !in after;
  }

  lemma ReleaseReplacesOne(s: State, i: ReleaseInput)
    requires Inv(s) && CompleteReleaseStep(s, i).1.Applied?
    ensures i.run.id in s.runs && IsMembers(s.runs[i.run.id], i.run.scope.project, i.run.startedBy) && !s.runs[i.run.id].phase.Released?
    ensures i.run.phase.Released? && CompleteReleaseStep(s, i).0.runs == s.runs[i.run.id := i.run.(owned := None)]
  {
  }

  /** Completing a release again, in any reachable state, changes nothing the report reads. */
  lemma RepeatedReleaseChangesNothing(s: State, i: ReleaseInput)
    requires Inv(s) && CompleteReleaseStep(s, i).1.Repeated?
    ensures var s' := CompleteReleaseStep(s, i).0;
            s'.runs == s.runs && s'.settlements == s.settlements && s'.tasks == s.tasks && s'.messages == s.messages && s'.usage == s.usage
  {
    StartingOwnsNothing(s, i.run.id);
  }

  /* ---------- the report, row by row ---------- */

  datatype Report = Report(launches: int, duration: int, cpuTime: int, memoryTime: int) {
    function Of(metric: Metric): int {
      match metric
      case Launches => launches
      case Duration => duration
      case CpuTime => cpuTime
      case MemoryTime => memoryTime
    }

    function WithRow(startedAt: Option<Time>, rowDuration: nat, resources: Resources): (r: Report)
      ensures forall metric :: r.Of(metric) == Of(metric) + Weight(metric, startedAt, rowDuration, resources)
    {
      Report(launches + (if startedAt.Some? then 1 else 0), duration + rowDuration,
             cpuTime + resources.cpuMillis * rowDuration, memoryTime + resources.memoryBytes * rowDuration)
    }
  }

  predicate IsMembers(r: Run, project: Id, user: Id) {
    r.scope.project == project && r.startedBy == user
  }

  /** Whether every Run of the member passes the report's own check. */
  method CheckRuns(s: State, project: Id, user: Id) returns (ok: bool)
    ensures ok <==> forall k :: k in s.runs && IsMembers(s.runs[k], project, user) ==> RunIsConsistent(s, project, user, s.runs[k])
  {
    var rest := s.runs.Keys;
    while rest != {}
      invariant rest <= s.runs.Keys
      invariant forall k :: k in s.runs && k !in rest && IsMembers(s.runs[k], project, user) ==> RunIsConsistent(s, project, user, s.runs[k])
      decreases |rest|
    {
      var k :| k in rest;
      rest := rest - {k};
      var r := s.runs[k];
      if IsMembers(r, project, user) {
        if r.phase.Released? {
          if r.id !in s.settlements || s.settlements[r.id].scope.project != project || s.settlements[r.id].startedBy != user { return false; }
        } else {
          if r.scope.task !in s.tasks { return false; }
          var task := s.tasks[r.scope.task];
          if task.scope.project != project || task.deleted || task.currentRun != Some(r.id) || task.scope != r.scope { return false; }
        }
      }
    }
    return true;
  }

  ghost predicate TalliesSettled(report: Report, settlements: map<Id, Settlement>, done: set<Id>, project: Id, user: Id) {
    forall metric :: report.Of(metric) == Sum(done, SettledWeight(settlements, project, user, metric))
  }

  lemma SettledRow(report: Report, settlements: map<Id, Settlement>, done: set<Id>, k: Id, project: Id, user: Id)
    requires TalliesSettled(report, settlements, done, project, user) && k in settlements && k !in done
    ensures var v := settlements[k];
            TalliesSettled(if v.scope.project == project && v.startedBy == user then report.WithRow(v.startedAt, v.duration, v.resources) else report,
                           settlements, done + {k}, project, user)
  {
    forall metric {
      SumAdd(done, SettledWeight(settlements, project, user, metric), k);
    }
  }

  /** The rows of the settled Runs. */
  method AddSettled(settlements: map<Id, Settlement>, project: Id, user: Id) returns (report: Report)
    ensures TalliesSettled(report, settlements, settlements.Keys, project, user)
  {
    report := Report(0, 0, 0, 0);
    var rest, done := settlements.Keys, {};
    while rest != {}
      invariant rest !! done && rest + done == settlements.Keys
      invariant TalliesSettled(report, settlements, done, project, user)
      decreases |rest|
    {
      hide TalliesSettled;
      var k :| k in rest;
      SettledRow(report, settlements, done, k, project, user);
      var v := settlements[k];
      if v.scope.project == project && v.startedBy == user { report := report.WithRow(v.startedAt, v.duration, v.resources); }
      rest, done := rest - {k}, done + {k};
    }
  }

  ghost predicate TalliesLive(report: Report, settled: Report, runs: map<Id, Run>, done: set<Id>, project: Id, user: Id, at: Time) {
    forall metric :: report.Of(metric) == settled.Of(metric) + Sum(done, LiveWeight(runs, project, user, metric, at))
  }

  lemma LiveRow(report: Report, settled: Report, runs: map<Id, Run>, done: set<Id>, k: Id, project: Id, user: Id, at: Time)
    requires TalliesLive(report, settled, runs, done, project, user, at) && k in runs && k !in done
    ensures var r := runs[k];
            TalliesLive(if IsLive(runs, project, user, k) then report.WithRow(r.startedAt, RunDuration(r.startedAt, at), r.resources) else report,
                        settled, runs, done + {k}, project, user, at)
  {
    forall metric {
      SumAdd(done, LiveWeight(runs, project, user, metric, at), k);
    }
  }

  /** The rows of the live Runs, measured at `at`, on top of the settled ones. */
  method AddLive(settled: Report, runs: map<Id, Run>, project: Id, user: Id, at: Time) returns (report: Report, unreleased: nat)
    ensures TalliesLive(report, settled, runs, runs.Keys, project, user, at)
    ensures unreleased == |LiveRuns(runs, project, user)|
  {
    report, unreleased := settled, 0;
    var rest, done := runs.Keys, {};
    ghost var live := {};
    while rest != {}
      invariant rest !! done && rest + done == runs.Keys
      invariant live == LiveRuns(runs, project, user) - rest && unreleased == |live|
      invariant TalliesLive(report, settled, runs, done, project, user, at)
      decreases |rest|
    {
      hide TalliesLive;
      var k :| k in rest;
      LiveRow(report, settled, runs, done, k, project, user, at);
      var r := runs[k];
      if IsMembers(r, project, user) && !r.phase.Released? {
        report := report.WithRow(r.startedAt, RunDuration(r.startedAt, at), r.resources);
        unreleased := unreleased + 1;
        live := live + {k};
      }
      rest, done := rest - {k}, done + {k};
    }
  }

  /* ---------- the figures, written out ---------- */

  /** What a started Run of so many milliseconds counts for. */
  type Figure = (Option<Time>, int, Resources) -> int

  const LAUNCHES: Figure := (startedAt: Option<Time>, ms: int, resources: Resources) => if startedAt.Some? then 1 else 0
  const MILLISECONDS: Figure := (startedAt: Option<Time>, ms: int, resources: Resources) => ms
  const CPU_TIME: Figure := (startedAt: Option<Time>, ms: int, resources: Resources) => resources.cpuMillis * ms
  const MEMORY_TIME: Figure := (startedAt: Option<Time>, ms: int, resources: Resources) => resources.memoryBytes * ms

  /** One figure over the settlements of a member. */
  function OverSettled(settlements: map<Id, Settlement>, project: Id, user: Id, figure: Figure): Id -> int {
    (k: Id) =>
      if k in settlements && settlements[k].scope.project == project && settlements[k].startedBy == user
      then figure(settlements[k].startedAt, settlements[k].duration, settlements[k].resources) else 0
  }

  /** One figure over the unreleased Runs of a member, each with the milliseconds since its start. */
  function OverLive(runs: map<Id, Run>, project: Id, user: Id, at: Time, figure: Figure): Id -> int {
    (k: Id) =>
      if k in runs && runs[k].scope.project == project && runs[k].startedBy == user && !runs[k].phase.Released?
      then figure(runs[k].startedAt, if runs[k].startedAt.Some? && runs[k].startedAt.value < at then at - runs[k].startedAt.value else 0, runs[k].resources)
      else 0
  }

  ghost function Tally(s: State, project: Id, user: Id, at: Time, figure: Figure): int {
    Sum(s.settlements.Keys, OverSettled(s.settlements, project, user, figure)) + Sum(s.runs.Keys, OverLive(s.runs, project, user, at, figure))
  }

  lemma TotalIsTally(s: State, project: Id, user: Id, at: Time, metric: Metric, figure: Figure)
    requires forall startedAt: Option<Time>, ms: nat, resources: Resources :: figure(startedAt, ms, resources) == Weight(metric, startedAt, ms, resources)
    ensures Total(s.runs, s.settlements, project, user, metric, at) == Tally(s, project, user, at, figure)
  {
    hide Weight;
    SumSame(s.settlements.Keys, OverSettled(s.settlements, project, user, figure), SettledWeight(s.settlements, project, user, metric));
    SumSame(s.runs.Keys, OverLive(s.runs, project, user, at, figure), LiveWeight(s.runs, project, user, metric, at));
  }

  /** The report counts launches, milliseconds, milliseconds times CPU and milliseconds times memory. */
  lemma TotalsAreTallies(s: State, project: Id, user: Id, at: Time, report: Report)
    requires forall metric :: report.Of(metric) == Total(s.runs, s.settlements, project, user, metric, at)
    ensures report == Report(Tally(s, project, user, at, LAUNCHES), Tally(s, project, user, at, MILLISECONDS),
                             Tally(s, project, user, at, CPU_TIME), Tally(s, project, user, at, MEMORY_TIME))
  {
    TotalIsTally(s, project, user, at, Launches, LAUNCHES);
    TotalIsTally(s, project, user, at, Duration, MILLISECONDS);
    TotalIsTally(s, project, user, at, CpuTime, CPU_TIME);
    TotalIsTally(s, project, user, at, MemoryTime, MEMORY_TIME);
    hide Tally, Total, Weight;
    assert report.launches == report.Of(Launches) && report.duration == report.Of(Duration);
    assert report.cpuTime == report.Of(CpuTime) && report.memoryTime == report.Of(MemoryTime);
  }

  datatype Overview = ProjectNotFound | PolicyNotFound | IntegrityError | Available(report: Report, unreleased: nat)

  /** A Run the tables do not account for: released without a settlement of its own, or live without being the current one of a live task. */
  predicate IsStray(s: State, r: Run) {
    if r.phase.Released? then
      r.id !in s.settlements || s.settlements[r.id].scope.project != r.scope.project || s.settlements[r.id].startedBy != r.startedBy
    else
      r.scope.task !in s.tasks || s.tasks[r.scope.task].deleted || s.tasks[r.scope.task].scope != r.scope
      || s.tasks[r.scope.task].currentRun != Some(r.id)
  }

  /** The report. In any state the store can reach it is available for every project with a policy. */
  method ReadOverview(s: State, project: Id, user: Id, at: Time) returns (o: Overview)
    ensures o.ProjectNotFound? <==> project !in s.projects
    ensures o.PolicyNotFound? <==> project in s.projects && project !in s.policies
    ensures Inv(s) ==> !o.IntegrityError?
    ensures o.IntegrityError? <==>
              project in s.projects && project in s.policies
              && exists k :: k in s.runs && s.runs[k].scope.project == project && s.runs[k].startedBy == user && IsStray(s, s.runs[k])
    ensures o.Available? ==>
              o.unreleased == |set k | k in s.runs && s.runs[k].scope.project == project && s.runs[k].startedBy == user && !s.runs[k].phase.Released?|
    ensures o.Available? ==>
              o.report == Report(Tally(s, project, user, at, LAUNCHES), Tally(s, project, user, at, MILLISECONDS),
                                 Tally(s, project, user, at, CPU_TIME), Tally(s, project, user, at, MEMORY_TIME))
  {
    hide Inv, RunIsConsistent, IsStray, Tally, LiveRuns, TalliesSettled, TalliesLive;
    StrayIsInconsistent(s, project, user);
    MembersLiveRuns(s.runs, project, user);
    if project !in s.projects { return ProjectNotFound; }
    if project !in s.policies { return PolicyNotFound; }
    var ok := CheckRuns(s, project, user);
    if !ok {
      InconsistentIsUnreachable(s, project, user);
      return IntegrityError;
    }
    var settled := AddSettled(s.settlements, project, user);
    var report, unreleased := AddLive(settled, s.runs, project, user, at);
    ReportTallies(s, project, user, at, settled, report);
    return Available(report, unreleased);
  }

  lemma ReportTallies(s: State, project: Id, user: Id, at: Time, settled: Report, report: Report)
    requires TalliesSettled(settled, s.settlements, s.settlements.Keys, project, user)
    requires TalliesLive(report, settled, s.runs, s.runs.Keys, project, user, at)
    ensures report == Report(Tally(s, project, user, at, LAUNCHES), Tally(s, project, user, at, MILLISECONDS),
                             Tally(s, project, user, at, CPU_TIME), Tally(s, project, user, at, MEMORY_TIME))
  {
    TotalsAreTallies(s, project, user, at, report);
  }

  lemma StrayIsInconsistent(s: State, project: Id, user: Id)
    ensures forall r: Run :: IsMembers(r, project, user) ==> (IsStray(s, r) <==> !RunIsConsistent(s, project, user, r))
  {
  }

  lemma MembersLiveRuns(runs: map<Id, Run>, project: Id, user: Id)
    ensures LiveRuns(runs, project, user)
              == set k | k in runs && runs[k].scope.project == project && runs[k].startedBy == user && !runs[k].phase.Released?
  {
  }

  lemma InconsistentIsUnreachable(s: State, project: Id, user: Id)
    requires exists k :: k in s.runs && IsMembers(s.runs[k], project, user) && !RunIsConsistent(s, project, user, s.runs[k])
    ensures !Inv(s)
  {
    if Inv(s) {
      var k :| k in s.runs && IsMembers(s.runs[k], project, user) && !RunIsConsistent(s, project, user, s.runs[k]);
      ReportIsConsistent(s, project, user, k);
    }
  }
}
