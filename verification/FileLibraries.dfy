/**
 File libraries: a task binds one when it is created, and a remover deletes one under a claim that other removers may
 take over when it expires. Binding and deletion exclude each other.
 */
module FileLibraries {
  import opened Basics
  import opened Receipts

  datatype Library = Library(project: Id, deleting: bool)

  /** A task as far as its library is concerned; a deleted task keeps its library until it is purged. */
  datatype Binding = Binding(project: Id, library: Id)

  datatype Phase = Isolated | Removed

  /** How far the physical deletion is; `quarantine` identifies what was isolated. */
  datatype Progress = Progress(phase: Phase, quarantine: Id, bytes: nat)

  datatype Deletion = Deletion(operation: Resource, progress: Option<Progress>, claim: Option<Id>, expires: Time)

  datatype Reply = Reply(status: nat, body: Id)

  type Ledger = map<Key, Record<Id, Reply>>

  datatype State = State(libraries: map<Id, Library>, deletions: map<Id, Deletion>, tasks: map<Id, Binding>, receipts: Ledger)

  datatype Outcome = Applied | Refused | Mismatch | Busy | Bound | NotFound | Replayed(reply: Reply)

  /** Who acts on a deletion. */
  datatype Owner = Owner(library: Id, token: Id)

  predicate IsBound(tasks: map<Id, Binding>, library: Id) {
    exists k :: k in tasks && tasks[k].library == library
  }

  /* ---------- libraries and tasks ---------- */

  /** `nameIsFree`: no other library of the project has its name or its root. */
  function CreateLibraryStep(s: State, id: Id, project: Id, nameIsFree: bool): (State, Outcome) {
    if !nameIsFree || id in s.libraries then (s, Refused) else (s.(libraries := s.libraries[id := Library(project, false)]), Applied)
  }

  /** Creating a task, with a library of its own or with an existing one. */
  function BindStep(s: State, task: Id, project: Id, library: Id, isNew: bool, nameIsFree: bool): (State, Outcome) {
    if task in s.tasks then (s, Refused)
    else
      var (s', created) := if isNew then CreateLibraryStep(s, library, project, nameIsFree) else (s, Applied);
      if !created.Applied? || library !in s'.libraries || s'.libraries[library].project != project || s'.libraries[library].deleting
         || IsBound(s.tasks, library)
      then (s, Refused)
      else (s'.(tasks := s.tasks[task := Binding(project, library)]), Applied)
  }

  function PurgeTaskStep(s: State, task: Id): (State, Outcome) {
    (s.(tasks := s.tasks - {task}), Applied)
  }

  /** What the end of a project takes away; deletions in progress keep their records. */
  function RemoveProjectStep(s: State, project: Id): (State, Outcome) {
    (s.(libraries := map k | k in s.libraries && s.libraries[k].project != project :: s.libraries[k],
        tasks := map k | k in s.tasks && s.tasks[k].project != project :: s.tasks[k],
        receipts := map k | k in s.receipts && k.project != project :: s.receipts[k]), Applied)
  }

  /* ---------- the deletion of a library ---------- */

  /** A receipt that shows the library was deleted before. */
  predicate IsTombstone(receipts: Ledger, c: Claiming<Id>, k: Key) {
    k in receipts && k.project == c.key.project && k.operation == DeleteLibrary && receipts[k].resource == c.resource
    && receipts[k].hash == c.hash && receipts[k].reply.Some? && receipts[k].reply.value.status == 200
  }

  ghost predicate IsSearched(receipts: Ledger, c: Claiming<Id>, found: Option<Key>) {
    if found.Some? then IsTombstone(receipts, c, found.value) else forall k :: !IsTombstone(receipts, c, k)
  }

  /** `tombstone` is what the search for an earlier deletion comes up with. */
  function BeginStep(s: State, c: Claiming<Id>, library: Id, tombstone: Option<Key>): (State, Outcome)
    requires tombstone.Some? ==> IsTombstone(Claim(s.receipts, c).0, c, tombstone.value)
  {
    if c.resource != OnLibrary(library) then (s, Mismatch)
    else
      var (receipts, claimed) := Claim(s.receipts, c);
      match claimed
      case HashMismatch => (s, Mismatch)
      case InProgress(_) => (s, Busy)
      case Replay(reply) => (s, Replayed(reply))
      case Claimed(resource) =>
        var s' := s.(receipts := receipts);
        if resource != OnLibrary(library) then (s', Mismatch)
        else if library !in s.libraries || s.libraries[library].project != c.key.project then
          if tombstone.None? then (s', NotFound)
          else
            var reply := Reply(200, receipts[tombstone.value].reply.value.body);
            (s'.(receipts := Completed(receipts, c.key, reply)), Replayed(reply))
        else if IsBound(s.tasks, library) then (s', Bound)
        else
          var begun := if s.libraries[library].deleting then s'
                        else s'.(libraries := s.libraries[library := s.libraries[library].(deleting := true)],
                                 deletions := s.deletions[library := Deletion(OnLibrary(library), None, None, 0)]);
          if library !in begun.deletions || begun.deletions[library].operation != OnLibrary(library) then (begun, Mismatch) else (begun, Applied)
  }

  function ClaimStep(s: State, o: Owner, project: Id, operation: Resource, now: Time, lease: Time): (State, Outcome) {
    if o.library !in s.libraries || s.libraries[o.library].project != project || !s.libraries[o.library].deleting
       || o.library !in s.deletions || s.deletions[o.library].operation != operation then (s, Refused)
    else
      var d := s.deletions[o.library];
      if d.claim.Some? && d.claim != Some(o.token) && d.expires > now then (s, Busy)
      else (s.(deletions := s.deletions[o.library := d.(claim := Some(o.token), expires := now + lease)]), Applied)
  }

  predicate Owns(s: State, o: Owner) {
    o.library in s.deletions && s.deletions[o.library].claim == Some(o.token)
  }

  predicate IsLive(s: State, o: Owner, now: Time) {
    Owns(s, o) && s.deletions[o.library].expires > now
  }

  /** The physical deletion isolates first, then removes what it isolated. */
  predicate Advances(current: Option<Progress>, next: Progress) {
    if current.None? then next.phase.Isolated?
    else next.quarantine == current.value.quarantine && next.bytes == current.value.bytes && (current.value.phase.Removed? ==> next.phase.Removed?)
  }

  function PersistStep(s: State, o: Owner, next: Progress, now: Time): (State, Outcome) {
    if !IsLive(s, o, now) || !Advances(s.deletions[o.library].progress, next) then (s, Refused)
    else (s.(deletions := s.deletions[o.library := s.deletions[o.library].(progress := Some(next))]), Applied)
  }

  function RenewStep(s: State, o: Owner, now: Time, lease: Time): (State, Outcome) {
    if !IsLive(s, o, now) then (s, Refused)
    else (s.(deletions := s.deletions[o.library := s.deletions[o.library].(expires := now + lease)]), Applied)
  }

  function ReleaseStep(s: State, o: Owner): (State, Outcome) {
    if !Owns(s, o) then (s, Refused)
    else (s.(deletions := s.deletions[o.library := s.deletions[o.library].(claim := None, expires := 0)]), Applied)
  }

  /** The receipts that wait for the deletion of the library. */
  function Waiting(receipts: Ledger, project: Id, library: Id, hash: Id): set<Key> {
    set k | k in receipts && k.project == project && k.operation == DeleteLibrary && receipts[k].resource == OnLibrary(library)
            && receipts[k].hash == hash && receipts[k].reply.None?
  }

  predicate IsRemoved(s: State, o: Owner, project: Id, now: Time) {
    o.library in s.libraries && s.libraries[o.library].project == project && s.libraries[o.library].deleting && IsLive(s, o, now)
    && s.deletions[o.library].progress.Some? && s.deletions[o.library].progress.value.phase.Removed?
  }

  /** `projectExists`: the project is still stored. */
  function FinalizeStep(s: State, o: Owner, project: Id, projectExists: bool, hash: Id, reply: Reply, now: Time): (State, Outcome) {
    if !projectExists || !IsRemoved(s, o, project, now) || IsBound(s.tasks, o.library) then (s, Refused)
    else (State(s.libraries - {o.library}, s.deletions - {o.library}, s.tasks,
                CompletedWhere(s.receipts, Waiting(s.receipts, project, o.library, hash), reply)), Applied)
  }

  datatype Event =
    | CreateLibrary(library: Id, project: Id, nameIsFree: bool)
    | Bind(task: Id, project: Id, library: Id, isNew: bool, nameIsFree: bool)
    | PurgeTask(task: Id)
    | RemoveProject(project: Id)
    | Begin(receipt: Claiming<Id>, library: Id, tombstone: Option<Key>)
    | ClaimDeletion(owner: Owner, project: Id, operation: Resource, now: Time, lease: Time)
    | Persist(owner: Owner, progress: Progress, now: Time)
    | Renew(owner: Owner, now: Time, lease: Time)
    | Release(owner: Owner)
    | Finalize(owner: Owner, project: Id, projectExists: bool, hash: Id, reply: Reply, now: Time)
    | CompleteReceipt(key: Key, hash: Id, holder: Id, reply: Reply)

  ghost predicate Enabled(s: State, e: Event) {
    e.Begin? ==> IsSearched(Claim(s.receipts, e.receipt).0, e.receipt, e.tombstone)
  }

  function Step(s: State, e: Event): (State, Outcome)
    requires Enabled(s, e)
  {
    match e
    case CreateLibrary(library, project, nameIsFree) => CreateLibraryStep(s, library, project, nameIsFree)
    case Bind(task, project, library, isNew, nameIsFree) => BindStep(s, task, project, library, isNew, nameIsFree)
    case PurgeTask(task) => PurgeTaskStep(s, task)
    case RemoveProject(project) => RemoveProjectStep(s, project)
    case Begin(c, library, tombstone) => BeginStep(s, c, library, tombstone)
    case ClaimDeletion(o, project, operation, now, lease) => ClaimStep(s, o, project, operation, now, lease)
    case Persist(o, progress, now) => PersistStep(s, o, progress, now)
    case Renew(o, now, lease) => RenewStep(s, o, now, lease)
    case Release(o) => ReleaseStep(s, o)
    case Finalize(o, project, exists', hash, reply, now) => FinalizeStep(s, o, project, exists', hash, reply, now)
    case CompleteReceipt(key, hash, holder, reply) =>
      var (receipts, done) := Complete(s.receipts, key, hash, holder, reply);
      (s.(receipts := receipts), if done then Applied else Refused)
  }

  /* ---------- binding and deletion exclude each other ---------- */

  ghost predicate BoundOnce(tasks: map<Id, Binding>) {
    forall k, l :: k in tasks && l in tasks && tasks[k].library == tasks[l].library ==> k == l
  }

  /** A bound library is stored in the task's project and not being deleted. */
  ghost predicate BindingsAreLive(libraries: map<Id, Library>, tasks: map<Id, Binding>) {
    forall k :: k in tasks ==>
      tasks[k].library in libraries && libraries[tasks[k].library].project == tasks[k].project && !libraries[tasks[k].library].deleting
  }

  ghost predicate DeletionsAreRecorded(libraries: map<Id, Library>, deletions: map<Id, Deletion>) {
    forall id :: id in libraries && libraries[id].deleting ==> id in deletions && deletions[id].operation == OnLibrary(id)
  }

  ghost predicate Inv(s: State) {
    BoundOnce(s.tasks) && BindingsAreLive(s.libraries, s.tasks) && DeletionsAreRecorded(s.libraries, s.deletions)
  }

  lemma StepKeeps(s: State, e: Event)
    requires Inv(s) && Enabled(s, e)
    ensures Inv(Step(s, e).0)
  {
    match e
    case Bind(task, project, library, isNew, nameIsFree) => BindKeeps(s, task, project, library, isNew, nameIsFree);
    case Begin(c, library, tombstone) => BeginKeeps(s, c, library, tombstone);
    case Finalize(o, project, exists', hash, reply, now) => FinalizeKeeps(s, o, project, exists', hash, reply, now);
    case _ =>
  }

  lemma BindKeeps(s: State, task: Id, project: Id, library: Id, isNew: bool, nameIsFree: bool)
    requires Inv(s)
    ensures Inv(BindStep(s, task, project, library, isNew, nameIsFree).0)
  {
  }

  lemma BeginKeeps(s: State, c: Claiming<Id>, library: Id, tombstone: Option<Key>)
    requires Inv(s) && IsSearched(Claim(s.receipts, c).0, c, tombstone)
    ensures Inv(BeginStep(s, c, library, tombstone).0)
  {
  }

  lemma FinalizeKeeps(s: State, o: Owner, project: Id, projectExists: bool, hash: Id, reply: Reply, now: Time)
    requires Inv(s)
    ensures Inv(FinalizeStep(s, o, project, projectExists, hash, reply, now).0)
  {
  }

  ghost predicate RunsFrom(s: State, es: seq<Event>)
    decreases |es|
  {
    es == [] || (Enabled(s, es[0]) && RunsFrom(Step(s, es[0]).0, es[1..]))
  }

  function After(s: State, es: seq<Event>): State
    requires RunsFrom(s, es)
    decreases |es|
  {
    if es == [] then s else After(Step(s, es[0]).0, es[1..])
  }

  /** Over every run: a library is bound to one task at most, and never while it is being deleted. */
  lemma {:induction false} RunsKeep(s: State, es: seq<Event>)
    requires Inv(s) && RunsFrom(s, es)
    ensures Inv(After(s, es))
    decreases |es|
  {
    if es != [] {
      StepKeeps(s, es[0]);
      RunsKeep(Step(s, es[0]).0, es[1..]);
    }
  }

  const EMPTY: State := State(map[], map[], map[], map[])

  /** In every reachable state the last check of a finalization, that nothing is bound, is never what refuses it. */
  lemma BoundCheckNeverRefuses(es: seq<Event>, o: Owner, project: Id, projectExists: bool, hash: Id, reply: Reply, now: Time)
    requires RunsFrom(EMPTY, es)
    ensures var s := After(EMPTY, es);
            FinalizeStep(s, o, project, projectExists, hash, reply, now).1.Applied? <==> projectExists && IsRemoved(s, o, project, now)
  {
    RunsKeep(EMPTY, es);
  }

  /* ---------- removers that race ---------- */

  predicate IsOwnerStep(e: Event) {
    e.Persist? || e.Renew? || e.Release? || e.Finalize?
  }

  /** A remover without the claim changes nothing, whatever it tries. */
  lemma DisplacedRemoverHasNoEffect(s: State, e: Event)
    requires Enabled(s, e) && IsOwnerStep(e) && !Owns(s, e.owner)
    ensures Step(s, e) == (s, Refused)
  {
  }

  /** The steps of a remover that need a live claim. */
  predicate NeedsLive(e: Event) {
    e.Persist? || e.Renew? || e.Finalize?
  }

  /** An expired claim cannot be renewed, so it stays expired unless it is claimed again. */
  lemma ExpiredStays(s: State, e: Event, o: Owner, now: Time)
    requires Enabled(s, e) && !IsLive(s, o, now) && (e.ClaimDeletion? ==> e.owner.token != o.token)
    requires NeedsLive(e) && e.owner == o ==> e.now >= now
    ensures !IsLive(Step(s, e).0, o, now)
  {
  }

  /** While the claim is live nobody else gets it, and only its owner moves the deletion. */
  lemma LiveClaimExcludes(s: State, e: Event, o: Owner, now: Time)
    requires Enabled(s, e) && Inv(s) && IsLive(s, o, now) && o.library in s.libraries && s.libraries[o.library].deleting
    requires e.ClaimDeletion? ==> e.now <= now && e.owner.token != o.token
    requires IsOwnerStep(e) ==> e.owner != o
    ensures o.library in Step(s, e).0.deletions && Step(s, e).0.deletions[o.library] == s.deletions[o.library]
  {
  }

  /** A claim lost to another remover never comes back, because every remover draws a new token. */
  lemma LostClaimStaysLost(s: State, e: Event, o: Owner)
    requires Enabled(s, e) && !Owns(s, o) && (e.ClaimDeletion? ==> e.owner.token != o.token)
    ensures !Owns(Step(s, e).0, o)
  {
  }

  /** The physical deletion only moves forward while the library is being deleted. */
  lemma ProgressMovesForward(s: State, e: Event, id: Id)
    requires Inv(s) && Enabled(s, e) && id in s.libraries && s.libraries[id].deleting && id in Step(s, e).0.libraries
    ensures id in s.deletions && id in Step(s, e).0.deletions && Step(s, e).0.libraries[id].deleting
    ensures var before, after := s.deletions[id].progress, Step(s, e).0.deletions[id].progress;
            after == before || (e.Persist? && e.owner.library == id && IsLive(s, e.owner, e.now) && after.Some? && Advances(before, after.value))
  {
  }

  /* ---------- removers over whole runs ---------- */

  /** No event of the run claims the deletion with this token: every remover draws its own. */
  predicate NobodyClaimsAs(es: seq<Event>, o: Owner) {
    forall i :: 0 <= i < |es| ==> es[i].ClaimDeletion? ==> es[i].owner.token != o.token
  }

  /** Once its lease ran out a remover neither moves nor finishes the deletion: all it can do is give its claim back. */
  lemma {:induction false} ExpiredForGood(s: State, es: seq<Event>, o: Owner, now: Time, late: Event)
    requires RunsFrom(s, es) && !IsLive(s, o, now) && NobodyClaimsAs(es, o)
    requires forall i :: 0 <= i < |es| && NeedsLive(es[i]) && es[i].owner == o ==> es[i].now >= now
    requires NeedsLive(late) && late.owner == o && late.now >= now
    ensures Enabled(After(s, es), late) && Step(After(s, es), late) == (After(s, es), Refused)
    decreases |es|
  {
    if es != [] {
      ExpiredStays(s, es[0], o, now);
      ExpiredForGood(Step(s, es[0]).0, es[1..], o, now, late);
    }
  }

  /** A remover that was displaced has no effect ever after, whatever it tries and whatever happens in between. */
  lemma {:induction false} DisplacedForGood(s: State, es: seq<Event>, o: Owner, late: Event)
    requires RunsFrom(s, es) && !Owns(s, o) && NobodyClaimsAs(es, o)
    requires IsOwnerStep(late) && late.owner == o
    ensures Enabled(After(s, es), late) && Step(After(s, es), late) == (After(s, es), Refused)
    decreases |es|
  {
    if es == [] {
      DisplacedRemoverHasNoEffect(s, late);
    } else {
      LostClaimStaysLost(s, es[0], o);
      DisplacedForGood(Step(s, es[0]).0, es[1..], o, late);
    }
  }

  /** The library is stored and being deleted in every state, other removers try before the claim of `o` runs out. */
  ghost predicate OthersTry(s: State, es: seq<Event>, o: Owner, until: Time)
    requires RunsFrom(s, es)
    decreases |es|
  {
    o.library in s.libraries && s.libraries[o.library].deleting
    && (es != [] ==>
          (es[0].ClaimDeletion? ==> es[0].now < until && es[0].owner.token != o.token)
          && (IsOwnerStep(es[0]) ==> es[0].owner != o)
          && OthersTry(Step(s, es[0]).0, es[1..], o, until))
  }

  /** Until a claim runs out, its deletion stays exactly as the owner left it, whatever the others try. */
  lemma {:induction false} LiveClaimHolds(s: State, es: seq<Event>, o: Owner, until: Time)
    requires Inv(s) && RunsFrom(s, es) && Owns(s, o) && s.deletions[o.library].expires == until && OthersTry(s, es, o, until)
    ensures o.library in After(s, es).deletions && After(s, es).deletions[o.library] == s.deletions[o.library]
    decreases |es|
  {
    if es != [] {
      LiveClaimExcludes(s, es[0], o, until - 1);
      StepKeeps(s, es[0]);
      LiveClaimHolds(Step(s, es[0]).0, es[1..], o, until);
    }
  }

  /** The library is stored in every state of the run. */
  ghost predicate Stays(s: State, es: seq<Event>, id: Id)
    requires RunsFrom(s, es)
    decreases |es|
  {
    id in s.libraries && (es != [] ==> Stays(Step(s, es[0]).0, es[1..], id))
  }

  /** One deletion is never further back than another, and about the same quarantined thing. */
  predicate NotBefore(before: Option<Progress>, after: Option<Progress>) {
    before.Some? ==> after.Some? && Advances(before, after.value)
  }

  /** Over any run the physical deletion of a library only moves forward and never changes what it deletes. */
  lemma {:induction false} ProgressOverRuns(s: State, es: seq<Event>, id: Id)
    requires Inv(s) && RunsFrom(s, es) && Stays(s, es, id) && s.libraries[id].deleting
    ensures id in s.deletions && id in After(s, es).deletions
    ensures NotBefore(s.deletions[id].progress, After(s, es).deletions[id].progress)
    decreases |es|
  {
    if es != [] {
      ProgressMovesForward(s, es[0], id);
      StepKeeps(s, es[0]);
      ProgressOverRuns(Step(s, es[0]).0, es[1..], id);
    }
  }

  /* ---------- at most one finalization per library ---------- */

  predicate Creates(s: State, e: Event, id: Id)
    requires Enabled(s, e)
  {
    (e.CreateLibrary? || (e.Bind? && e.isNew)) && e.library == id && Step(s, e).1.Applied?
  }

  predicate Finalizes(s: State, e: Event, id: Id)
    requires Enabled(s, e)
  {
    e.Finalize? && e.owner.library == id && Step(s, e).1.Applied?
  }

  function Creations(s: State, es: seq<Event>, id: Id): nat
    requires RunsFrom(s, es)
    decreases |es|
  {
    if es == [] then 0 else (if Creates(s, es[0], id) then 1 else 0) + Creations(Step(s, es[0]).0, es[1..], id)
  }

  function Finalizations(s: State, es: seq<Event>, id: Id): nat
    requires RunsFrom(s, es)
    decreases |es|
  {
    if es == [] then 0 else (if Finalizes(s, es[0], id) then 1 else 0) + Finalizations(Step(s, es[0]).0, es[1..], id)
  }

  function Present(s: State, id: Id): nat {
    if id in s.libraries then 1 else 0
  }

  lemma PresenceStep(s: State, e: Event, id: Id)
    requires Enabled(s, e)
    ensures Present(Step(s, e).0, id) + (if Finalizes(s, e, id) then 1 else 0) <= Present(s, id) + (if Creates(s, e, id) then 1 else 0)
  {
  }

  /** However many removers race, a library is finalized at most once each time it is created. */
  lemma {:induction false} FinalizedOncePerCreation(s: State, es: seq<Event>, id: Id)
    requires RunsFrom(s, es)
    ensures Finalizations(s, es, id) + Present(After(s, es), id) <= Creations(s, es, id) + Present(s, id)
    decreases |es|
  {
    if es != [] {
      PresenceStep(s, es[0], id);
      FinalizedOncePerCreation(Step(s, es[0]).0, es[1..], id);
    }
  }
}
