/** The store object for file libraries, and the heartbeat that keeps a remover's claim alive. */
module FileLibraryStores {
  import opened Basics
  import opened Receipts
  import opened FileLibraries

  lemma OneCompleted(receipts: Ledger, before: Ledger, waiting: set<Key>, rest: set<Key>, k: Key, reply: Reply)
    requires receipts.Keys == before.Keys && k in rest && k in receipts
    requires forall l :: l in receipts ==> receipts[l] == if l in waiting && l !in rest then before[l].(reply := Some(reply)) else before[l]
    ensures k in waiting ==> forall l :: l in receipts ==>
              receipts[k := receipts[k].(reply := Some(reply))][l] == if l in waiting && l !in rest - {k} then before[l].(reply := Some(reply)) else before[l]
    ensures k !in waiting ==> forall l :: l in receipts ==>
              receipts[l] == if l in waiting && l !in rest - {k} then before[l].(reply := Some(reply)) else before[l]
  {
  }

  class LibraryStore {
    var libraries: map<Id, Library>
    var deletions: map<Id, Deletion>
    var tasks: map<Id, Binding>
    var receipts: Ledger

    function View(): State
      reads this
    {
      State(libraries, deletions, tasks, receipts)
    }

    ghost predicate Valid()
      reads this
    {
      Inv(View())
    }

    constructor ()
      ensures View() == State(map[], map[], map[], map[]) && Valid()
    {
      libraries, deletions, tasks, receipts := map[], map[], map[], map[];
    }

    method HasBoundTask(library: Id) returns (bound: bool)
      ensures bound == IsBound(tasks, library)
    {
      var rest := tasks.Keys;
      while rest != {}
        invariant rest <= tasks.Keys
        invariant forall k :: k in tasks && k !in rest ==> tasks[k].library != library
        decreases |rest|
      {
        var k :| k in rest;
        rest := rest - {k};
        if tasks[k].library == library { return true; }
      }
      return false;
    }

    /** Creates a task that binds an existing library, or one it creates for itself. */
    method BindTask(task: Id, project: Id, library: Id, isNew: bool, nameIsFree: bool) returns (o: Outcome)
      requires Valid()
      modifies this
      ensures (View(), o) == BindStep(old(View()), task, project, library, isNew, nameIsFree) && Valid()
    {
      hide Inv;
      BindKeeps(View(), task, project, library, isNew, nameIsFree);
      if task in tasks { return Refused; }
      var previous := libraries;
      if isNew {
        if !nameIsFree || library in libraries { return Refused; }
        libraries := libraries[library := Library(project, false)];
      }
      if library !in libraries || libraries[library].project != project || libraries[library].deleting {
        libraries := previous;
        return Refused;
      }
      var bound := HasBoundTask(library);
      if bound {
        libraries := previous;
        return Refused;
      }
      tasks := tasks[task := Binding(project, library)];
      return Applied;
    }

    method FindTombstone(c: Claiming<Id>) returns (found: Option<Key>)
      ensures IsSearched(receipts, c, found)
    {
      var rest := receipts.Keys;
      while rest != {}
        invariant rest <= receipts.Keys
        invariant forall k :: k in receipts && k !in rest ==> !IsTombstone(receipts, c, k)
        decreases |rest|
      {
        var k :| k in rest;
        rest := rest - {k};
        if k.project == c.key.project && k.operation == DeleteLibrary && receipts[k].resource == c.resource && receipts[k].hash == c.hash
           && receipts[k].reply.Some? && receipts[k].reply.value.status == 200
        {
          return Some(k);
        }
      }
      return None;
    }

    method BeginDeletion(c: Claiming<Id>, library: Id) returns (o: Outcome, ghost tombstone: Option<Key>)
      requires Valid()
      modifies this
      ensures IsSearched(Claim(old(receipts), c).0, c, tombstone)
      ensures (View(), o) == BeginStep(old(View()), c, library, tombstone) && Valid()
    {
      ghost var s := View();
      if c.resource != OnLibrary(library) {
        tombstone := AnyTombstone(Claim(receipts, c).0, c);
        return Mismatch, tombstone;
      }
      var (withClaim, claimed) := Claim(receipts, c);
      receipts := withClaim;
      var found := FindTombstone(c);
      tombstone := found;
      BeginKeeps(s, c, library, found);
      hide Inv;
      match claimed {
        case HashMismatch => return Mismatch, tombstone;
        case InProgress(_) => return Busy, tombstone;
        case Replay(reply) => return Replayed(reply), tombstone;
        case Claimed(resource) =>
          if resource != OnLibrary(library) { return Mismatch, tombstone; }
          o := OpenDeletion(c, library, found);
      }
    }

    /** The deletion once its receipt is claimed. */
    method OpenDeletion(c: Claiming<Id>, library: Id, found: Option<Key>) returns (o: Outcome)
      requires c.key in receipts && (found.Some? ==> found.value in receipts && receipts[found.value].reply.Some?)
      modifies this
      ensures
        var s := old(View());
        (View(), o) ==
        if library !in s.libraries || s.libraries[library].project != c.key.project then
          if found.None? then (s, NotFound)
          else
            var reply := Reply(200, s.receipts[found.value].reply.value.body);
            (s.(receipts := Completed(s.receipts, c.key, reply)), Replayed(reply))
        else if IsBound(s.tasks, library) then (s, Bound)
        else
          var begun := if s.libraries[library].deleting then s
                       else s.(libraries := s.libraries[library := s.libraries[library].(deleting := true)],
                               deletions := s.deletions[library := Deletion(OnLibrary(library), None, None, 0)]);
          if library !in begun.deletions || begun.deletions[library].operation != OnLibrary(library) then (begun, Mismatch) else (begun, Applied)
    {
      if library !in libraries || libraries[library].project != c.key.project {
        if found.None? { return NotFound; }
        var reply := Reply(200, receipts[found.value].reply.value.body);
        receipts := receipts[c.key := receipts[c.key].(reply := Some(reply))];
        return Replayed(reply);
      }
      var bound := HasBoundTask(library);
      if bound { return Bound; }
      if !libraries[library].deleting {
        libraries := libraries[library := libraries[library].(deleting := true)];
        deletions := deletions[library := Deletion(OnLibrary(library), None, None, 0)];
      }
      if library !in deletions || deletions[library].operation != OnLibrary(library) { return Mismatch; }
      return Applied;
    }

    method ClaimDeletion(w: Owner, project: Id, operation: Resource, now: Time, lease: Time) returns (o: Outcome)
      requires Valid()
      modifies `deletions
      ensures (View(), o) == ClaimStep(old(View()), w, project, operation, now, lease) && Valid()
    {
      if w.library !in libraries || libraries[w.library].project != project || !libraries[w.library].deleting { return Refused; }
      if w.library !in deletions || deletions[w.library].operation != operation { return Refused; }
      var d := deletions[w.library];
      if d.claim.Some? && d.claim != Some(w.token) && d.expires > now { return Busy; }
      deletions := deletions[w.library := d.(claim := Some(w.token), expires := now + lease)];
      return Applied;
    }

    method PersistDeletion(w: Owner, next: Progress, now: Time) returns (o: Outcome)
      requires Valid()
      modifies `deletions
      ensures (View(), o) == PersistStep(old(View()), w, next, now) && Valid()
    {
      if w.library !in deletions || deletions[w.library].claim != Some(w.token) || deletions[w.library].expires <= now { return Refused; }
      var current := deletions[w.library].progress;
      if current.None? {
        if !next.phase.Isolated? { return Refused; }
      } else {
        if next.quarantine != current.value.quarantine || next.bytes != current.value.bytes { return Refused; }
        if current.value.phase.Removed? && !next.phase.Removed? { return Refused; }
      }
      deletions := deletions[w.library := deletions[w.library].(progress := Some(next))];
      return Applied;
    }

    method RenewDeletion(w: Owner, now: Time, lease: Time) returns (ok: bool)
      requires Valid()
      modifies `deletions
      ensures View() == RenewStep(old(View()), w, now, lease).0 && ok == IsLive(old(View()), w, now) && Valid()
    {
      if w.library !in deletions || deletions[w.library].claim != Some(w.token) || deletions[w.library].expires <= now { return false; }
      deletions := deletions[w.library := deletions[w.library].(expires := now + lease)];
      return true;
    }

    method ReleaseDeletion(w: Owner) returns (o: Outcome)
      requires Valid()
      modifies `deletions
      ensures (View(), o) == ReleaseStep(old(View()), w) && Valid()
    {
      if w.library !in deletions || deletions[w.library].claim != Some(w.token) { return Refused; }
      deletions := deletions[w.library := deletions[w.library].(claim := None, expires := 0)];
      return Applied;
    }

    method CompleteReceipt(key: Key, hash: Id, holder: Id, reply: Reply) returns (ok: bool)
      requires Valid()
      modifies `receipts
      ensures (receipts, ok) == Complete(old(receipts), key, hash, holder, reply) && Valid()
    {
      var (completed, done) := Complete(receipts, key, hash, holder, reply);
      receipts := completed;
      return done;
    }

    /** Completes every receipt that waits for the deletion. */
    method CompleteWaiting(project: Id, library: Id, hash: Id, reply: Reply)
      modifies `receipts
      ensures receipts == CompletedWhere(old(receipts), Waiting(old(receipts), project, library, hash), reply)
    {
      ghost var before, waiting := receipts, Waiting(receipts, project, library, hash);
      var rest := receipts.Keys;
      while rest != {}
        invariant rest <= receipts.Keys && receipts.Keys == before.Keys
        invariant forall l :: l in receipts ==> receipts[l] == if l in waiting && l !in rest then before[l].(reply := Some(reply)) else before[l]
        decreases |rest|
      {
        var k :| k in rest;
        OneCompleted(receipts, before, waiting, rest, k, reply);
        rest := rest - {k};
        var record := receipts[k];
        if k.project == project && k.operation == DeleteLibrary && record.resource == OnLibrary(library) && record.hash == hash && record.reply.None? {
          receipts := receipts[k := record.(reply := Some(reply))];
        }
      }
    }

    method FinalizeDeletion(w: Owner, project: Id, projectExists: bool, hash: Id, reply: Reply, now: Time) returns (o: Outcome)
      requires Valid()
      modifies this
      ensures (View(), o) == FinalizeStep(old(View()), w, project, projectExists, hash, reply, now) && Valid()
    {
      hide Inv;
      FinalizeKeeps(View(), w, project, projectExists, hash, reply, now);
      if !projectExists || w.library !in libraries || libraries[w.library].project != project || !libraries[w.library].deleting { return Refused; }
      if w.library !in deletions || deletions[w.library].claim != Some(w.token) || deletions[w.library].expires <= now { return Refused; }
      if deletions[w.library].progress.None? || !deletions[w.library].progress.value.phase.Removed? { return Refused; }
      var bound := HasBoundTask(w.library);
      if bound { return Refused; }
      libraries := libraries - {w.library};
      deletions := deletions - {w.library};
      CompleteWaiting(project, w.library, hash, reply);
      return Applied;
    }
  }

  lemma AnyTombstone(receipts: Ledger, c: Claiming<Id>) returns (found: Option<Key>)
    ensures IsSearched(receipts, c, found)
  {
    if k :| IsTombstone(receipts, c, k) {
      found := Some(k);
    } else {
      found := None;
    }
  }

  /** Renews a remover's claim until it finishes; once a renewal failed the claim counts as lost for good. */
  class Heartbeat {
    const store: LibraryStore
    const owner: Owner
    const lease: Time
    var finishing: bool
    var lost: bool

    constructor (store: LibraryStore, owner: Owner, lease: Time)
      ensures this.store == store && this.owner == owner && this.lease == lease && !finishing && !lost
    {
      this.store, this.owner, this.lease := store, owner, lease;
      finishing, lost := false, false;
    }

    /** One beat. `failed` stands for an error on the way to the store. */
    method Renew(now: Time, failed: bool)
      requires store.Valid()
      modifies this`lost, store`deletions
      ensures store.Valid()
      ensures lost == (old(lost) || failed || !IsLive(old(store.View()), owner, now))
      ensures store.View() == if failed then old(store.View()) else RenewStep(old(store.View()), owner, now, lease).0
    {
      if failed {
        lost := true;
        return;
      }
      var ok := store.RenewDeletion(owner, now, lease);
      if !ok { lost := true; }
    }

    /** A checkpoint of the physical deletion: it may go on only while no renewal has failed. */
    method Checkpoint() returns (ok: bool)
      ensures ok == !lost
    {
      return !lost;
    }

    /** The last beat and the finalization, which happens only if the claim was never lost. */
    method Finalize(project: Id, projectExists: bool, hash: Id, reply: Reply, now: Time, failed: bool) returns (r: Option<Outcome>)
      requires store.Valid()
      modifies this, store
      ensures store.Valid() && finishing
      ensures r.Some? <==> !old(lost) && !failed && IsLive(old(store.View()), owner, now)
      ensures r.None? ==> store.libraries == old(store.libraries) && store.tasks == old(store.tasks) && store.receipts == old(store.receipts)
      ensures
        var renewed := RenewStep(old(store.View()), owner, now, lease).0;
        r.Some? ==> (store.View(), r.value) == FinalizeStep(renewed, owner, project, projectExists, hash, reply, now)
    {
      finishing := true;
      Renew(now, failed);
      var ok := Checkpoint();
      if !ok { return None; }
      var o := store.FinalizeDeletion(owner, project, projectExists, hash, reply, now);
      return Some(o);
    }
  }

  /* ---------- the remover ---------- */

  /** What happens while the root is physically deleted: beats of the heartbeat, and progress to record. */
  datatype Work = Beat(now: Time, failed: bool) | Progressed(progress: Progress, now: Time)

  /** A removal and what the world does to it. */
  datatype Removal = Removal(
    receipt: Claiming<Id>, library: Id, token: Id, claimedAt: Time, lease: Time, work: seq<Work>, workFails: bool,
    lastBeat: Time, beatFails: bool, projectExists: bool, deleted: Id)

  datatype Removed = Deleted | Answered(reply: Reply) | Conflict | LibraryBound | LibraryNotFound | StillDeleting

  /** When the claim runs out once this work is done. */
  function ExpiresAfter(expires: Time, lease: Time, work: seq<Work>): Time {
    if work == [] then expires
    else
      match work[|work| - 1]
      case Beat(now, _) => now + lease
      case Progressed(_, _) => ExpiresAfter(expires, lease, work[..|work| - 1])
  }

  /** The progress that is recorded then. */
  function ProgressAfter(progress: Option<Progress>, work: seq<Work>): Option<Progress> {
    if work == [] then progress
    else
      match work[|work| - 1]
      case Beat(_, _) => ProgressAfter(progress, work[..|work| - 1])
      case Progressed(next, _) => Some(next)
  }

  /** First something is isolated; then it stays that, and once it is removed it stays removed. */
  predicate Follows(current: Option<Progress>, next: Progress) {
    if current == None then next.phase == Isolated
    else next.quarantine == current.value.quarantine && next.bytes == current.value.bytes && (current.value.phase == Isolated || next.phase == Removed)
  }

  /** Every beat comes through and every beat and record comes before the claim runs out; what is recorded follows what was. */
  predicate IsSteady(expires: Time, progress: Option<Progress>, lease: Time, work: seq<Work>) {
    work == []
    || (IsSteady(expires, progress, lease, work[..|work| - 1])
        && match work[|work| - 1]
           case Beat(now, failed) => !failed && now < ExpiresAfter(expires, lease, work[..|work| - 1])
           case Progressed(next, now) =>
             now < ExpiresAfter(expires, lease, work[..|work| - 1]) && Follows(ProgressAfter(progress, work[..|work| - 1]), next))
  }

  lemma {:induction false} SteadyFromStart(expires: Time, progress: Option<Progress>, lease: Time, work: seq<Work>, i: nat)
    requires i <= |work| && IsSteady(expires, progress, lease, work)
    ensures IsSteady(expires, progress, lease, work[..i])
    decreases |work|
  {
    if i == |work| {
      assert work[..i] == work;
    } else {
      SteadyFromStart(expires, progress, lease, work[..|work| - 1], i);
      assert work[..|work| - 1][..i] == work[..i];
    }
  }

  /** The physical deletion as the store sees it; it stops at the first checkpoint or record that fails. */
  method DoWork(heartbeat: Heartbeat, work: seq<Work>) returns (ok: bool)
    requires heartbeat.store.Valid() && !heartbeat.lost && Owns(heartbeat.store.View(), heartbeat.owner)
    modifies heartbeat`lost, heartbeat.store`deletions
    ensures heartbeat.store.Valid()
    ensures
      var library, d := heartbeat.owner.library, old(heartbeat.store.deletions)[heartbeat.owner.library];
      (ok && !heartbeat.lost <==> IsSteady(d.expires, d.progress, heartbeat.lease, work))
      && (ok && !heartbeat.lost ==>
            heartbeat.store.deletions
            == old(heartbeat.store.deletions)[library := d.(expires := ExpiresAfter(d.expires, heartbeat.lease, work), progress := ProgressAfter(d.progress, work))])
  {
    ghost var library, before := heartbeat.owner.library, heartbeat.store.deletions;
    ghost var d := before[library];
    assert before[library := d] == before;
    for i := 0 to |work|
      invariant heartbeat.store.Valid()
      invariant !heartbeat.lost <==> IsSteady(d.expires, d.progress, heartbeat.lease, work[..i])
      invariant !heartbeat.lost ==>
                  heartbeat.store.deletions
                  == before[library := d.(expires := ExpiresAfter(d.expires, heartbeat.lease, work[..i]), progress := ProgressAfter(d.progress, work[..i]))]
    {
      assert work[..i + 1][..i] == work[..i];
      match work[i]
      case Beat(now, failed) => heartbeat.Renew(now, failed);
      case Progressed(progress, now) =>
        var alive := heartbeat.Checkpoint();
        if !alive {
          if IsSteady(d.expires, d.progress, heartbeat.lease, work) { SteadyFromStart(d.expires, d.progress, heartbeat.lease, work, i); }
          return false;
        }
        var o := heartbeat.store.PersistDeletion(heartbeat.owner, progress, now);
        if !o.Applied? {
          if IsSteady(d.expires, d.progress, heartbeat.lease, work) { SteadyFromStart(d.expires, d.progress, heartbeat.lease, work, i + 1); }
          return false;
        }
    }
    assert work[..|work|] == work;
    return true;
  }

  /** The caller's receipt is new, or open for the same request and library, and its claim is the caller's or over. */
  predicate IsGranted(receipts: Ledger, c: Claiming<Id>) {
    c.key !in receipts
    || (receipts[c.key].hash == c.hash && receipts[c.key].reply == None && receipts[c.key].resource == c.resource
        && (receipts[c.key].claim == c.token || receipts[c.key].lease <= c.now))
  }

  predicate IsHere(s: State, library: Id, project: Id) {
    library in s.libraries && s.libraries[library].project == project
  }

  predicate HasTask(s: State, library: Id) {
    exists k :: k in s.tasks && s.tasks[k].library == library
  }

  /** Some receipt of the project tells that a deletion of the library for the same request has succeeded. */
  predicate WasDeleted(s: State, c: Claiming<Id>) {
    exists k :: k in s.receipts && k.project == c.key.project && k.operation == DeleteLibrary && s.receipts[k].resource == c.resource
                && s.receipts[k].hash == c.hash && s.receipts[k].reply.Some? && s.receipts[k].reply.value.status == 200
  }

  /** Nobody else has the deletion, and the work, the last beat and the project see it through to something removed. */
  predicate SeesThrough(d: Deletion, i: Removal) {
    (d.claim == None || d.expires <= i.claimedAt) && !i.workFails && i.projectExists && i.lease > 0
    && IsSteady(i.claimedAt + i.lease, d.progress, i.lease, i.work)
    && !i.beatFails && i.lastBeat < ExpiresAfter(i.claimedAt + i.lease, i.lease, i.work)
    && ProgressAfter(d.progress, i.work).Some? && ProgressAfter(d.progress, i.work).value.phase == Removed
  }

  /** The deletion a remover finds, or opens. */
  function DeletionOf(s: State, library: Id): Deletion {
    if library in s.libraries && s.libraries[library].deleting && library in s.deletions then s.deletions[library] else Deletion(OnLibrary(library), None, None, 0)
  }

  /**
   A removal from receipt to receipt. It reports success exactly if its receipt was granted, the library is in the project
   and bound to no task, and the remover sees the deletion through; the library is gone then and its receipt says so.
   Otherwise the library stays stored, the claim is given back, and a bound or unknown library is told as such for good.
   */
  method Remove(store: LibraryStore, i: Removal) returns (r: Removed)
    requires store.Valid() && i.receipt.key.operation == DeleteLibrary && i.receipt.resource == OnLibrary(i.library)
    requires !Owns(store.View(), Owner(i.library, i.token))
    modifies store
    ensures store.Valid() && store.tasks == old(store.tasks)
    ensures
      var s := old(store.View());
      var granted := IsGranted(s.receipts, i.receipt);
      (r.Deleted? <==>
         granted && IsHere(s, i.library, i.receipt.key.project) && !HasTask(s, i.library) && SeesThrough(DeletionOf(s, i.library), i))
      && (r.LibraryBound? <==> granted && IsHere(s, i.library, i.receipt.key.project) && HasTask(s, i.library))
      && (r.LibraryNotFound? <==> granted && !IsHere(s, i.library, i.receipt.key.project) && !WasDeleted(s, i.receipt))
    ensures
      var s, claimed := old(store.View()), Claim(old(store.receipts), i.receipt).1;
      (claimed.HashMismatch? ==> r.Conflict?) && (claimed.InProgress? ==> r.StillDeleting?) && (claimed.Replay? ==> r == Answered(claimed.reply))
      && (IsGranted(s.receipts, i.receipt) && !IsHere(s, i.library, i.receipt.key.project) && WasDeleted(s, i.receipt)
          ==> r.Answered? && r.reply.status == 200)
    ensures r.Deleted? ==> store.libraries == old(store.libraries) - {i.library} && i.library !in store.deletions
    ensures r.Deleted? || r.LibraryBound? || r.LibraryNotFound? ==>
              i.receipt.key in store.receipts
              && store.receipts[i.receipt.key].reply
                 == Some(if r.Deleted? then Reply(200, i.deleted) else if r.LibraryBound? then Reply(409, 0) else Reply(404, 0))
    ensures !r.Deleted? ==> store.libraries.Keys == old(store.libraries).Keys && !Owns(store.View(), Owner(i.library, i.token))
  {
    hide Inv, SeesThrough, IsGranted, WasDeleted, HasTask;
    var key, owner := i.receipt.key, Owner(i.library, i.token);
    var begun, tombstone := store.BeginDeletion(i.receipt, i.library);
    BeginFacts(old(store.View()), i.receipt, i.library, tombstone);
    match begun {
      case Mismatch => return Conflict;
      case Busy => return StillDeleting;
      case Replayed(reply) => return Answered(reply);
      case Bound =>
        var _ := store.CompleteReceipt(key, i.receipt.hash, i.receipt.token, Reply(409, 0));
        return LibraryBound;
      case NotFound =>
        var _ := store.CompleteReceipt(key, i.receipt.hash, i.receipt.token, Reply(404, 0));
        return LibraryNotFound;
      case _ =>
    }
    r := RemoveClaimed(store, i, owner);
  }

  /** When a deletion is begun, and what it has changed, as far as a remover needs it. */
  lemma BeginFacts(s: State, c: Claiming<Id>, library: Id, tombstone: Option<Key>)
    requires Inv(s) && c.resource == OnLibrary(library) && IsSearched(Claim(s.receipts, c).0, c, tombstone)
    ensures
      var (s', o) := BeginStep(s, c, library, tombstone);
      var granted, here := IsGranted(s.receipts, c), IsHere(s, library, c.key.project);
      (o.Applied? <==> granted && here && !HasTask(s, library)) && (o.Bound? <==> granted && here && HasTask(s, library))
      && (o.NotFound? <==> granted && !here && !WasDeleted(s, c)) && !o.Refused?
      && (granted && !here && WasDeleted(s, c) ==> o.Replayed? && o.reply.status == 200)
      && (Claim(s.receipts, c).1.HashMismatch? ==> o == Mismatch) && (Claim(s.receipts, c).1.InProgress? ==> o == Busy)
      && (Claim(s.receipts, c).1.Replay? ==> o == Replayed(Claim(s.receipts, c).1.reply))
      && s'.libraries.Keys == s.libraries.Keys && s'.tasks == s.tasks
      && (forall token :: !Owns(s, Owner(library, token)) ==> !Owns(s', Owner(library, token)))
      && (o.Applied? || o.Bound? || o.NotFound? ==> Holds(s'.receipts, c.key, c.hash, c.token))
      && (o.Applied? ==> library in s'.deletions && s'.deletions[library] == DeletionOf(s, library)
                         && s'.libraries - {library} == s.libraries - {library} && s'.libraries[library].deleting
                         && s'.libraries[library].project == c.key.project && s'.receipts[c.key].resource == OnLibrary(library))
  {
    GrantedIff(s.receipts, c);
    NotDeletedBefore(s, c);
    hide Claim, IsGranted;
  }

  lemma GrantedIff(receipts: Ledger, c: Claiming<Id>)
    ensures var (after, r) := Claim(receipts, c);
            (IsGranted(receipts, c) <==> r == Claimed(c.resource)) && (r.Claimed? ==> Holds(after, c.key, c.hash, c.token) && after[c.key].resource == r.resource)
  {
  }

  /** A claim brings no tombstone. */
  lemma NotDeletedBefore(s: State, c: Claiming<Id>)
    ensures WasDeleted(s, c) <==> exists k :: IsTombstone(Claim(s.receipts, c).0, c, k)
  {
    var after := Claim(s.receipts, c).0;
    forall k ensures IsTombstone(after, c, k) <==> IsTombstone(s.receipts, c, k) {}
    if WasDeleted(s, c) {
      var k :| k in s.receipts && k.project == c.key.project && k.operation == DeleteLibrary && s.receipts[k].resource == c.resource
               && s.receipts[k].hash == c.hash && s.receipts[k].reply.Some? && s.receipts[k].reply.value.status == 200;
      assert IsTombstone(s.receipts, c, k);
    }
  }

  /** After a last beat in time, a deletion is finalized exactly if something was removed and the project is still there. */
  lemma FinalizeTells(s: State, owner: Owner, i: Removal, reply: Reply)
    requires Inv(s) && IsHere(s, owner.library, i.receipt.key.project) && s.libraries[owner.library].deleting && owner.library in s.deletions
    requires i.receipt.key.operation == DeleteLibrary && Holds(s.receipts, i.receipt.key, i.receipt.hash, i.receipt.token)
    requires s.receipts[i.receipt.key].resource == OnLibrary(owner.library)
    ensures
      var renewed := RenewStep(s, owner, i.lastBeat, i.lease).0;
      var (s', o) := FinalizeStep(renewed, owner, i.receipt.key.project, i.projectExists, i.receipt.hash, reply, i.lastBeat);
      var d := s.deletions[owner.library];
      IsLive(s, owner, i.lastBeat) ==>
        s'.tasks == s.tasks
        && (o.Applied? <==> i.projectExists && i.lease > 0 && d.progress.Some? && d.progress.value.phase == Removed)
        && (o.Applied? ==> s'.libraries == s.libraries - {owner.library} && owner.library !in s'.deletions
                           && i.receipt.key in s'.receipts && s'.receipts[i.receipt.key].reply == Some(reply))
        && (!o.Applied? ==> s' == renewed)
  {
    assert i.receipt.key in Waiting(s.receipts, i.receipt.key.project, owner.library, i.receipt.hash);
  }

  /** The removal once the deletion is open and its receipt claimed. */
  method RemoveClaimed(store: LibraryStore, i: Removal, owner: Owner) returns (r: Removed)
    requires store.Valid() && owner == Owner(i.library, i.token) && !Owns(store.View(), owner)
    requires i.receipt.key.operation == DeleteLibrary && IsHere(store.View(), i.library, i.receipt.key.project) && store.libraries[i.library].deleting
    requires Holds(store.receipts, i.receipt.key, i.receipt.hash, i.receipt.token) && store.receipts[i.receipt.key].resource == OnLibrary(i.library)
    modifies store
    ensures store.Valid() && store.tasks == old(store.tasks)
    ensures i.library in old(store.deletions) && (r.Deleted? <==> SeesThrough(old(store.deletions)[i.library], i))
    ensures r.Deleted? || r.StillDeleting?
    ensures r.Deleted? ==> store.libraries == old(store.libraries) - {i.library} && i.library !in store.deletions
    ensures r.Deleted? ==> i.receipt.key in store.receipts && store.receipts[i.receipt.key].reply == Some(Reply(200, i.deleted))
    ensures !r.Deleted? ==> store.libraries == old(store.libraries) && !Owns(store.View(), owner)
  {
    hide IsSteady, ExpiresAfter, ProgressAfter, Follows, FinalizeStep, BoundOnce, BindingsAreLive;
    var project, reply := i.receipt.key.project, Reply(200, i.deleted);
    var claimed := store.ClaimDeletion(owner, project, OnLibrary(i.library), i.claimedAt, i.lease);
    if !claimed.Applied? { return StillDeleting; }
    var heartbeat := new Heartbeat(store, owner, i.lease);
    var ok := DoWork(heartbeat, i.work);
    if ok && !i.workFails {
      FinalizeTells(store.View(), owner, i, reply);
      var final := heartbeat.Finalize(project, i.projectExists, i.receipt.hash, reply, i.lastBeat, i.beatFails);
      if final == Some(Applied) { return Deleted; }
    }
    var _ := store.ReleaseDeletion(owner);
    return StillDeleting;
  }
}
