/** What the steps on file libraries need and do, in terms of the stored fields. */
module FileLibraryEffects {
  import opened Basics
  import opened Receipts
  import opened FileLibraries

  predicate HasTask(s: State, library: Id) {
    exists k :: k in s.tasks && s.tasks[k].library == library
  }

  /** A new task binds an active library of its project that no task has, or one it creates under a free name; or nothing changes. */
  lemma TaskBinds(s: State, task: Id, project: Id, library: Id, isNew: bool, nameIsFree: bool)
    ensures
      var (s', o) := BindStep(s, task, project, library, isNew, nameIsFree);
      var fits := if isNew then nameIsFree && library !in s.libraries
                  else library in s.libraries && s.libraries[library].project == project && !s.libraries[library].deleting;
      o == (if task !in s.tasks && fits && !HasTask(s, library) then Applied else Refused)
      && s' == if o.Applied? then s.(tasks := s.tasks[task := Binding(project, library)],
                                     libraries := if isNew then s.libraries[library := Library(project, false)] else s.libraries)
               else s
  {
  }

  lemma LibraryIsCreated(s: State, id: Id, project: Id, nameIsFree: bool)
    ensures
      CreateLibraryStep(s, id, project, nameIsFree)
      == if nameIsFree && id !in s.libraries then (s.(libraries := s.libraries[id := Library(project, false)]), Applied) else (s, Refused)
  {
  }

  /** A purged task gives its library back. */
  lemma TaskIsPurged(s: State, task: Id)
    ensures PurgeTaskStep(s, task) == (s.(tasks := s.tasks - {task}), Applied)
  {
  }

  /** The library, as a deletion of it needs it: in this project and being deleted, with a record of that deletion. */
  predicate IsDeleting(s: State, library: Id, project: Id, operation: Resource) {
    library in s.libraries && s.libraries[library].project == project && s.libraries[library].deleting
    && library in s.deletions && s.deletions[library].operation == operation
  }

  /** A deletion is claimed by its owner, or by anyone once nobody has a claim that still runs; the claim runs for the lease. */
  lemma DeletionIsClaimed(s: State, o: Owner, project: Id, operation: Resource, now: Time, lease: Time)
    ensures
      ClaimStep(s, o, project, operation, now, lease)
      == if !IsDeleting(s, o.library, project, operation) then (s, Refused)
         else
           var d := s.deletions[o.library];
           if d.claim.Some? && d.claim.value != o.token && d.expires > now then (s, Busy)
           else (s.(deletions := s.deletions[o.library := Deletion(d.operation, d.progress, Some(o.token), now + lease)]), Applied)
  {
  }

  /** The claim of this owner still runs. */
  predicate Holds(s: State, o: Owner, now: Time) {
    o.library in s.deletions && s.deletions[o.library].claim == Some(o.token) && s.deletions[o.library].expires > now
  }

  /** While its claim runs an owner extends it, and records what was isolated and that it was removed, in this order. */
  lemma OwnerGoesOn(s: State, o: Owner, next: Progress, now: Time, lease: Time)
    ensures
      RenewStep(s, o, now, lease)
      == if Holds(s, o, now) then (s.(deletions := s.deletions[o.library := s.deletions[o.library].(expires := now + lease)]), Applied) else (s, Refused)
    ensures
      var fits := Holds(s, o, now)
                  && match s.deletions[o.library].progress
                     case None => next.phase == Isolated
                     case Some(p) => next.quarantine == p.quarantine && next.bytes == p.bytes && (p.phase == Removed ==> next.phase == Removed);
      PersistStep(s, o, next, now)
      == if fits then (s.(deletions := s.deletions[o.library := s.deletions[o.library].(progress := Some(next))]), Applied) else (s, Refused)
  {
  }

  /** An owner gives its claim back also when it has run out. */
  lemma OwnerGivesUp(s: State, o: Owner)
    ensures
      ReleaseStep(s, o)
      == if o.library in s.deletions && s.deletions[o.library].claim == Some(o.token)
         then (s.(deletions := s.deletions[o.library := s.deletions[o.library].(claim := None, expires := 0)]), Applied) else (s, Refused)
  {
  }

  /**
   The owner of a removed, unbound library takes it out of the store while its claim runs, and every receipt that waits for
   this deletion, by whomever, is answered; no other receipt is.
   */
  lemma DeletionIsFinalized(s: State, o: Owner, project: Id, projectExists: bool, hash: Id, reply: Reply, now: Time)
    ensures
      var (s', r) := FinalizeStep(s, o, project, projectExists, hash, reply, now);
      (r == if projectExists && o.library in s.libraries && s.libraries[o.library].project == project && s.libraries[o.library].deleting
               && Holds(s, o, now) && s.deletions[o.library].progress.Some? && s.deletions[o.library].progress.value.phase == Removed
               && !HasTask(s, o.library) then Applied else Refused)
      && (!r.Applied? ==> s' == s)
      && (r.Applied? ==>
            s' == s.(libraries := s.libraries - {o.library}, deletions := s.deletions - {o.library}, receipts := s'.receipts)
            && s'.receipts.Keys == s.receipts.Keys
            && forall k :: k in s.receipts ==>
                 s'.receipts[k] == if k.project == project && k.operation == DeleteLibrary && s.receipts[k].resource == OnLibrary(o.library)
                                      && s.receipts[k].hash == hash && s.receipts[k].reply == None
                                   then s.receipts[k].(reply := Some(reply)) else s.receipts[k])
  {
  }

  /** The end of a project takes its libraries, its bindings and its receipts away, and leaves deletions to their owners. */
  lemma ProjectIsRemoved(s: State, project: Id)
    ensures
      var (s', o) := RemoveProjectStep(s, project);
      o == Applied && s'.deletions == s.deletions
      && (forall k :: k in s'.libraries <==> k in s.libraries && s.libraries[k].project != project)
      && (forall k :: k in s'.tasks <==> k in s.tasks && s.tasks[k].project != project)
      && (forall k :: k in s'.receipts <==> k in s.receipts && k.project != project)
      && (forall k :: k in s'.libraries ==> s'.libraries[k] == s.libraries[k])
      && (forall k :: k in s'.tasks ==> s'.tasks[k] == s.tasks[k]) && (forall k :: k in s'.receipts ==> s'.receipts[k] == s.receipts[k])
  {
  }

  /**
   A deletion begins with a claim of its receipt, for this very library. A library of the project without a task is being
   deleted from then on, and one that is stays as far as its deletion has got; a bound one is told so. One that is gone is
   answered like the deletion that succeeded, if a receipt of it is found.
   */
  lemma DeletionBegins(s: State, c: Claiming<Id>, library: Id, tombstone: Option<Key>)
    requires tombstone.Some? ==> IsTombstone(Claim(s.receipts, c).0, c, tombstone.value)
    ensures
      var (receipts, claimed) := Claim(s.receipts, c);
      var (s', o) := BeginStep(s, c, library, tombstone);
      if c.resource != OnLibrary(library) then (s', o) == (s, Mismatch)
      else
        match claimed
        case HashMismatch => (s', o) == (s, Mismatch)
        case InProgress(_) => (s', o) == (s, Busy)
        case Replay(reply) => (s', o) == (s, Replayed(reply))
        case Claimed(resource) =>
          if resource != c.resource then (s', o) == (s.(receipts := receipts), Mismatch)
          else if library in s.libraries && s.libraries[library].project == c.key.project then
            if HasTask(s, library) then (s', o) == (s.(receipts := receipts), Bound)
            else
              s' == s.(receipts := receipts, libraries := s.libraries[library := Library(c.key.project, true)], deletions := s'.deletions)
              && s'.deletions == (if s.libraries[library].deleting then s.deletions else s.deletions[library := Deletion(OnLibrary(library), None, None, 0)])
              && o == if library in s'.deletions && s'.deletions[library].operation == OnLibrary(library) then Applied else Mismatch
          else if tombstone == None then (s', o) == (s.(receipts := receipts), NotFound)
          else
            var k := tombstone.value;
            k in receipts && receipts[k].reply.Some? && receipts[k].reply.value.status == 200 && c.key in receipts
            && o == Replayed(Reply(200, receipts[k].reply.value.body))
            && s' == s.(receipts := receipts[c.key := receipts[c.key].(reply := Some(receipts[k].reply.value))])
  {
    GrantedIsStored(s.receipts, c);
    hide Claim;
  }

  lemma GrantedIsStored(receipts: Ledger, c: Claiming<Id>)
    ensures Claim(receipts, c).1.Claimed? ==> c.key in Claim(receipts, c).0
  {
  }
}
