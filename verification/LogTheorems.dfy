/** The change log in terms of what it holds: which changes it accepts, how it numbers them, and what readers are shown. */
module LogTheorems {
  import opened Basics
  import opened Sorting
  import opened InteractionLog

  /** The batch position is well formed for the task. */
  predicate IsProper(task: Id, c: Change) {
    c.interaction.task == task && c.sourceRevision >= 0 && (c.kind == Botified ==> c.sourceRevision == 0)
    && c.interaction.revision > 0 && c.interaction.position >= 0
  }

  /** The same source has published this revision before. */
  predicate WasPublished(log: Log, c: Change) {
    exists i :: 0 <= i < |log| && log[i].change.interaction.task == c.interaction.task && log[i].change.kind == c.kind && log[i].change.source == c.source
                && log[i].change.sourceRevision == c.sourceRevision
  }

  /** The change goes on from every stored one of its product source, and of its interaction, whose position it keeps. */
  predicate GoesOn(log: Log, c: Change) {
    && (c.kind == Product ==>
          forall i :: 0 <= i < |log| && log[i].change.interaction.task == c.interaction.task && log[i].change.kind == Product && log[i].change.source == c.source
                      ==> log[i].change.sourceRevision < c.sourceRevision)
    && (forall i :: 0 <= i < |log| && log[i].change.interaction.task == c.interaction.task && log[i].change.interaction.id == c.interaction.id
                    ==> log[i].change.interaction.revision < c.interaction.revision && log[i].change.interaction.position == c.interaction.position)
  }

  /** The next number of a task: one more than the highest it has given to a stored change. */
  predicate IsNext(log: Log, task: Id, n: int) {
    (forall i :: 0 <= i < |log| && log[i].change.interaction.task == task ==> log[i].number < n)
    && (n == 1 || exists i :: 0 <= i < |log| && log[i].change.interaction.task == task && log[i].number == n - 1)
  }

  /** A proper change is skipped if its source has published it, and otherwise appended exactly if it goes on from all others, under the next number. */
  lemma AppendingTells(log: Log, task: Id, c: Change)
    requires IsLog(log)
    ensures AppendOne(log, task, c).Some? <==> IsProper(task, c) && (WasPublished(log, c) || GoesOn(log, c))
    ensures AppendOne(log, task, c).Some? ==>
              var l := AppendOne(log, task, c).value;
              if WasPublished(log, c) then l == log
              else |l| == |log| + 1 && l[..|log|] == log && l[|log|].change == c && IsNext(log, task, l[|log|].number)
  {
    TopNumberBounds(log, task);
    PublishedIff(log, c);
    if IsProper(task, c) && !WasPublished(log, c) { GoesOnIff(log, c); }
    hide IsLog, TopRevision, LatestOf, IsDuplicate, WasPublished, GoesOn;
  }

  lemma PublishedIff(log: Log, c: Change)
    ensures WasPublished(log, c) <==> IsDuplicate(log, c)
  {
  }

  lemma {:induction false} TopRevisionIsReached(log: Log, c: Change)
    ensures TopRevision(log, c) == -1 || exists i :: 0 <= i < |log| && SameSource(log[i].change, c) && log[i].change.sourceRevision == TopRevision(log, c)
    decreases |log|
  {
    if log != [] {
      var init, n := log[..|log| - 1], |log| - 1;
      TopRevisionIsReached(init, c);
      if TopRevision(log, c) != TopRevision(init, c) {
        assert SameSource(log[n].change, c) && log[n].change.sourceRevision == TopRevision(log, c);
      } else if TopRevision(init, c) != -1 {
        var i :| 0 <= i < |init| && SameSource(init[i].change, c) && init[i].change.sourceRevision == TopRevision(init, c);
        assert log[i] == init[i];
      }
    }
  }

  lemma GoesOnIff(log: Log, c: Change)
    requires IsLog(log) && c.sourceRevision >= 0
    ensures GoesOn(log, c) <==>
              (c.kind.Product? ==> c.sourceRevision > TopRevision(log, c))
              && (LatestOf(log, c).Some? ==> c.interaction.revision > LatestOf(log, c).value.change.interaction.revision
                                             && c.interaction.position == LatestOf(log, c).value.change.interaction.position)
  {
    TopRevisionBounds(log, c);
    TopRevisionIsReached(log, c);
    LatestIsLast(log, c);
    if LatestOf(log, c).Some? {
      var k :| IsLast(log, c, k) && log[k] == LatestOf(log, c).value;
      forall i | 0 <= i < |log| && SameInteraction(log[i].change, c)
        ensures log[i].change.interaction.revision <= log[k].change.interaction.revision && log[i].change.interaction.position == log[k].change.interaction.position
      {
        assert i == k || Follows(log[i], log[k]);
      }
    }
  }

  /** The changes of the task carry the numbers 1, 2, 3 and so on. */
  predicate IsNumbered(log: Log, task: Id) {
    forall k :: 0 <= k < |ChangesAfter(log, task, 0)| ==> ChangesAfter(log, task, 0)[k].number == k + 1
  }

  lemma {:induction false} TopOfNumbered(log: Log, task: Id)
    requires IsLog(log) && IsNumbered(log, task)
    ensures TopNumber(log, task) == |ChangesAfter(log, task, 0)|
  {
    var changes := ChangesAfter(log, task, 0);
    ChangesAreInOrder(log, task, 0);
    TopNumberBounds(log, task);
    if TopNumber(log, task) > 0 {
      var i :| 0 <= i < |log| && OfTask(log[i], task) && log[i].number == TopNumber(log, task);
      assert log[i] in changes;
    }
    if changes != [] {
      var last := changes[|changes| - 1];
      assert last in changes;
      assert last.number == |changes|;
    }
  }

  lemma AppendOneNumbers(log: Log, of: Id, c: Change, task: Id)
    requires IsLog(log) && IsNumbered(log, task) && AppendOne(log, of, c).Some?
    ensures IsNumbered(AppendOne(log, of, c).value, task)
  {
    var l := AppendOne(log, of, c).value;
    if l != log {
      TopOfNumbered(log, task);
      assert l[..|log|] == log;
      assert ChangesAfter(l, task, 0) == ChangesAfter(log, task, 0) + if of == task then [l[|log|]] else [];
    }
  }

  lemma {:induction false} AppendAllNumbers(log: Log, of: Id, batch: seq<Change>, task: Id)
    requires IsLog(log) && IsNumbered(log, task)
    ensures AppendAll(log, of, batch).Some? ==> IsNumbered(AppendAll(log, of, batch).value, task)
    decreases |batch|
  {
    hide IsLog, IsNumbered, AppendOne;
    if batch != [] {
      var init := batch[..|batch| - 1];
      AppendKeeps(log, of, init);
      AppendAllNumbers(log, of, init, task);
      var l := AppendAll(log, of, init);
      if l.Some? && AppendOne(l.value, of, batch[|batch| - 1]).Some? { AppendOneNumbers(l.value, of, batch[|batch| - 1], task); }
    }
  }

  /** While nothing is deleted the changes of every task are numbered without a gap, whatever is appended to which task in between. */
  lemma {:induction false} NumbersHaveNoGap(log: Log, es: seq<Event>, task: Id)
    requires IsLog(log) && IsNumbered(log, task) && OnlyAppends(es)
    ensures IsNumbered(After(log, es), task)
    decreases |es|
  {
    hide IsLog, IsNumbered, AppendAll;
    if es != [] {
      assert es[0].AppendBatch?;
      AppendKeeps(log, es[0].task, es[0].batch);
      AppendAllNumbers(log, es[0].task, es[0].batch, task);
      NumbersHaveNoGap(Step(log, es[0]), es[1..], task);
    }
  }

  /** A page is full unless the changes run out: it holds the first ones after the cursor, as many as asked for and at least one. */
  lemma PageIsFull(log: Log, task: Id, after: int, limit: int)
    requires IsLog(log)
    ensures
      var changes, wanted := ChangesAfter(log, task, after), if limit < 1 then 1 else limit;
      Page(log, task, after, limit) == if |changes| <= wanted then changes else changes[..wanted]
  {
    var changes := ChangesAfter(log, task, after);
    ChangesAreInOrder(log, task, after);
    SortStrictly(changes, ByNumber);
    StrictlySortedIsUnique(Sort(changes, ByNumber), changes, ByNumber);
  }

  predicate IsOf(e: Stored, task: Id, id: Id) {
    e.change.interaction.task == task && e.change.interaction.id == id
  }

  /** A snapshot shows exactly the interactions that are stored. */
  lemma {:induction false} SnapshotHasAll(log: Log, task: Id, id: Id)
    ensures id in Snapshot(log, task) <==> exists i :: 0 <= i < |log| && IsOf(log[i], task, id)
    decreases |log|
  {
    if log != [] {
      var init, n := log[..|log| - 1], |log| - 1;
      SnapshotHasAll(init, task, id);
      assert forall i :: 0 <= i < n ==> init[i] == log[i];
      assert IsOf(log[n], task, id) ==> id in Snapshot(log, task);
    }
  }

  /** It shows the last change of each, which is the one with the highest revision. */
  lemma {:induction false} SnapshotShowsLatest(log: Log, task: Id, id: Id) returns (i: int)
    requires IsLog(log) && id in Snapshot(log, task)
    ensures IsLatest(log, task, id, i) && Snapshot(log, task)[id] == log[i]
    decreases |log|
  {
    var init, n := log[..|log| - 1], |log| - 1;
    if IsOf(log[n], task, id) {
      i := n;
      forall j | 0 <= j < n ensures IsOf(log[j], task, id) ==> log[j].change.interaction.revision < log[n].change.interaction.revision {
        assert Follows(log[j], log[n]);
      }
      if id in Snapshot(init, task) {
        var k := SnapshotShowsLatest(init, task, id);
        assert init[k] == log[k] && IsOf(log[k], task, id);
      }
    } else {
      i := SnapshotShowsLatest(init, task, id);
    }
  }

  /** The last change of the interaction, with the highest revision. */
  predicate IsLatest(log: Log, task: Id, id: Id, i: int) {
    0 <= i < |log| && IsOf(log[i], task, id)
    && forall j :: 0 <= j < |log| && j != i && IsOf(log[j], task, id) ==> j < i && log[j].change.interaction.revision < log[i].change.interaction.revision
  }
}
