/**
 The interaction log: changes of many tasks in one list, numbered per task. Appending is idempotent per source, and a
 reader that has a snapshot needs only the later changes.
 */
module InteractionLog {
  import opened Basics
  import opened Sorting

  datatype SourceKind = Product | Botified

  datatype Interaction = Interaction(id: Id, task: Id, position: int, revision: int, body: Id)

  datatype Change = Change(kind: SourceKind, source: Id, sourceRevision: int, interaction: Interaction)

  datatype Stored = Stored(change: Change, number: nat)

  type Log = seq<Stored>

  predicate OfTask(e: Stored, task: Id) {
    e.change.interaction.task == task
  }

  predicate SameSource(a: Change, b: Change) {
    a.interaction.task == b.interaction.task && a.kind == b.kind && a.source == b.source
  }

  predicate SameInteraction(a: Change, b: Change) {
    a.interaction.task == b.interaction.task && a.interaction.id == b.interaction.id
  }

  /* ---------- appending ---------- */

  function Max(a: int, b: int): int {
    if a < b then b else a
  }

  /** The highest change number of the task. */
  function TopNumber(log: Log, task: Id): nat {
    if log == [] then 0
    else
      var e, rest := log[|log| - 1], TopNumber(log[..|log| - 1], task);
      if OfTask(e, task) then Max(rest, e.number) else rest
  }

  predicate IsDuplicate(log: Log, c: Change) {
    exists i :: 0 <= i < |log| && SameSource(log[i].change, c) && log[i].change.sourceRevision == c.sourceRevision
  }

  /** The highest revision the source has published. */
  function TopRevision(log: Log, c: Change): int {
    if log == [] then -1
    else
      var e, rest := log[|log| - 1], TopRevision(log[..|log| - 1], c);
      if SameSource(e.change, c) then Max(rest, e.change.sourceRevision) else rest
  }

  predicate IsNewer(e: Stored, than: Stored) {
    e.change.interaction.revision > than.change.interaction.revision
    || (e.change.interaction.revision == than.change.interaction.revision && e.number > than.number)
  }

  /** The change of an interaction with the highest revision, the later one where two tie. */
  function LatestOf(log: Log, c: Change): Option<Stored> {
    if log == [] then None
    else
      var e, rest := log[|log| - 1], LatestOf(log[..|log| - 1], c);
      if SameInteraction(e.change, c) && (rest.None? || IsNewer(e, rest.value)) then Some(e) else rest
  }

  predicate IsValid(task: Id, c: Change) {
    c.interaction.task == task && (c.kind.Botified? ==> c.sourceRevision == 0) && c.sourceRevision >= 0
    && c.interaction.revision >= 1 && c.interaction.position >= 0
  }

  /** The log after one change; None stands for an error, which undoes the whole batch. */
  function AppendOne(log: Log, task: Id, c: Change): Option<Log> {
    if !IsValid(task, c) then None
    else if IsDuplicate(log, c) then Some(log)
    else if c.kind.Product? && c.sourceRevision <= TopRevision(log, c) then None
    else
      var latest := LatestOf(log, c);
      if latest.Some? && (c.interaction.revision <= latest.value.change.interaction.revision
                          || c.interaction.position != latest.value.change.interaction.position) then None
      else Some(log + [Stored(c, TopNumber(log, task) + 1)])
  }

  function AppendAll(log: Log, task: Id, batch: seq<Change>): Option<Log> {
    if batch == [] then Some(log)
    else
      match AppendAll(log, task, batch[..|batch| - 1])
      case None => None
      case Some(l) => AppendOne(l, task, batch[|batch| - 1])
  }

  /** Deleting a message takes its changes out of the log. */
  function WithoutSource(log: Log, task: Id, source: Id): Log {
    if log == [] then []
    else
      var e := log[|log| - 1];
      WithoutSource(log[..|log| - 1], task, source)
      + if OfTask(e, task) && e.change.kind.Product? && e.change.source == source then [] else [e]
  }

  /* ---------- what every log keeps ---------- */

  /** How an entry relates to a later one. */
  predicate Follows(a: Stored, b: Stored) {
    (b.change.interaction.task == a.change.interaction.task ==> a.number < b.number)
    && (SameInteraction(a.change, b.change) ==>
          a.change.interaction.revision < b.change.interaction.revision && a.change.interaction.position == b.change.interaction.position)
    && (SameSource(a.change, b.change) ==>
          a.change.sourceRevision != b.change.sourceRevision && (a.change.kind.Product? ==> a.change.sourceRevision < b.change.sourceRevision))
  }

  predicate IsLog(log: Log) {
    && (forall i :: 0 <= i < |log| ==> log[i].number > 0)
    && (forall i, j :: 0 <= i < j < |log| ==> Follows(log[i], log[j]))
  }

  lemma {:induction false} TopNumberBounds(log: Log, task: Id)
    ensures forall i :: 0 <= i < |log| && OfTask(log[i], task) ==> log[i].number <= TopNumber(log, task)
    ensures TopNumber(log, task) == 0 || exists i :: 0 <= i < |log| && OfTask(log[i], task) && log[i].number == TopNumber(log, task)
    decreases |log|
  {
    if log != [] {
      var init, e := log[..|log| - 1], log[|log| - 1];
      TopNumberBounds(init, task);
      if TopNumber(log, task) == TopNumber(init, task) && TopNumber(init, task) != 0 {
        var i :| 0 <= i < |init| && OfTask(init[i], task) && init[i].number == TopNumber(init, task);
        assert log[i] == init[i];
      } else if TopNumber(log, task) != 0 {
        assert log[|log| - 1].number == TopNumber(log, task);
      }
      assert forall i :: 0 <= i < |init| ==> log[i] == init[i];
    }
  }

  lemma {:induction false} TopRevisionBounds(log: Log, c: Change)
    ensures forall i :: 0 <= i < |log| && SameSource(log[i].change, c) ==> log[i].change.sourceRevision <= TopRevision(log, c)
    decreases |log|
  {
    if log != [] {
      TopRevisionBounds(log[..|log| - 1], c);
      assert forall i :: 0 <= i < |log| - 1 ==> log[i] == log[..|log| - 1][i];
    }
  }

  /** In a log the latest change of an interaction is simply its last one. */
  predicate IsLast(log: Log, c: Change, i: int) {
    0 <= i < |log| && SameInteraction(log[i].change, c) && forall j :: i < j < |log| ==> !SameInteraction(log[j].change, c)
  }

  lemma {:induction false} LatestIsLast(log: Log, c: Change)
    requires IsLog(log)
    ensures LatestOf(log, c).None? ==> forall i :: 0 <= i < |log| ==> !SameInteraction(log[i].change, c)
    ensures LatestOf(log, c).Some? ==> exists i :: IsLast(log, c, i) && log[i] == LatestOf(log, c).value
    decreases |log|
  {
    if log != [] {
      var init, n := log[..|log| - 1], |log| - 1;
      LatestIsLast(init, c);
      if LatestOf(init, c).Some? {
        var i :| IsLast(init, c, i) && init[i] == LatestOf(init, c).value;
        assert Follows(log[i], log[n]);
        if SameInteraction(log[n].change, c) { assert IsLast(log, c, n); } else { assert IsLast(log, c, i); }
      } else if SameInteraction(log[n].change, c) {
        assert IsLast(log, c, n);
      }
    }
  }

  lemma AppendOneKeeps(log: Log, task: Id, c: Change)
    requires IsLog(log)
    ensures AppendOne(log, task, c).Some? ==> IsLog(AppendOne(log, task, c).value) && log <= AppendOne(log, task, c).value
  {
    var r := AppendOne(log, task, c);
    if r.Some? && r.value != log {
      TopNumberBounds(log, task);
      TopRevisionBounds(log, c);
      LatestIsLast(log, c);
      forall i | 0 <= i < |log| ensures Follows(log[i], r.value[|log|]) {
        assert !(SameSource(log[i].change, c) && log[i].change.sourceRevision == c.sourceRevision);
        if SameInteraction(log[i].change, c) {
          var k :| IsLast(log, c, k) && log[k] == LatestOf(log, c).value;
          assert i == k || Follows(log[i], log[k]);
        }
      }
    }
  }

  lemma {:induction false} AppendKeeps(log: Log, task: Id, batch: seq<Change>)
    requires IsLog(log)
    ensures AppendAll(log, task, batch).Some? ==> IsLog(AppendAll(log, task, batch).value) && log <= AppendAll(log, task, batch).value
    decreases |batch|
  {
    if batch != [] {
      AppendKeeps(log, task, batch[..|batch| - 1]);
      var l := AppendAll(log, task, batch[..|batch| - 1]);
      if l.Some? { AppendOneKeeps(l.value, task, batch[|batch| - 1]); }
    }
  }

  lemma {:induction false} WithoutSourceHas(log: Log, task: Id, source: Id)
    ensures forall x :: x in WithoutSource(log, task, source) <==>
                        x in log && !(OfTask(x, task) && x.change.kind.Product? && x.change.source == source)
    decreases |log|
  {
    if log != [] {
      WithoutSourceHas(log[..|log| - 1], task, source);
      assert log == log[..|log| - 1] + [log[|log| - 1]];
    }
  }

  lemma {:induction false} WithoutSourceKeeps(log: Log, task: Id, source: Id)
    requires IsLog(log)
    ensures IsLog(WithoutSource(log, task, source))
    decreases |log|
  {
    if log != [] {
      WithoutSourceKeeps(log[..|log| - 1], task, source);
      WithoutSourceHas(log[..|log| - 1], task, source);
      PartGoesOn(log, WithoutSource(log[..|log| - 1], task, source));
    }
  }

  lemma PartGoesOn(log: Log, rest: Log)
    requires log != [] && IsLog(log) && IsLog(rest) && forall i :: 0 <= i < |rest| ==> rest[i] in log[..|log| - 1]
    ensures IsLog(rest + [log[|log| - 1]])
  {
    var init, e := log[..|log| - 1], log[|log| - 1];
    hide Follows;
    forall i | 0 <= i < |rest| ensures Follows(rest[i], e) {
      var k :| 0 <= k < |init| && init[k] == rest[i];
      assert Follows(log[k], log[|log| - 1]);
    }
  }

  /* ---------- idempotence ---------- */

  lemma AppendedIsDuplicate(log: Log, task: Id, c: Change)
    requires AppendOne(log, task, c).Some?
    ensures IsValid(task, c) && IsDuplicate(AppendOne(log, task, c).value, c)
  {
    var r := AppendOne(log, task, c).value;
    if r != log { assert r[|log|].change == c; }
  }

  lemma DuplicateStays(log: Log, l: Log, c: Change)
    requires IsDuplicate(log, c) && log <= l
    ensures IsDuplicate(l, c)
  {
    var i :| 0 <= i < |log| && SameSource(log[i].change, c) && log[i].change.sourceRevision == c.sourceRevision;
    assert l[i] == log[i];
  }

  lemma {:induction false} BatchIsDuplicate(log: Log, task: Id, batch: seq<Change>, k: nat)
    requires IsLog(log) && AppendAll(log, task, batch).Some? && k < |batch|
    ensures IsValid(task, batch[k]) && IsDuplicate(AppendAll(log, task, batch).value, batch[k])
    decreases |batch|
  {
    var init := batch[..|batch| - 1];
    var l := AppendAll(log, task, init).value;
    AppendKeeps(log, task, init);
    AppendOneKeeps(l, task, batch[|batch| - 1]);
    if k < |init| {
      BatchIsDuplicate(log, task, init, k);
      DuplicateStays(l, AppendAll(log, task, batch).value, batch[k]);
    } else {
      AppendedIsDuplicate(l, task, batch[k]);
    }
  }

  lemma {:induction false} DuplicatesAppendNothing(log: Log, task: Id, batch: seq<Change>)
    requires forall k :: 0 <= k < |batch| ==> IsValid(task, batch[k]) && IsDuplicate(log, batch[k])
    ensures AppendAll(log, task, batch) == Some(log)
    decreases |batch|
  {
    if batch != [] { DuplicatesAppendNothing(log, task, batch[..|batch| - 1]); }
  }

  /** Appending a batch again changes nothing, also after other batches, as long as nothing was deleted. */
  lemma AppendingAgainIsNoOp(log: Log, task: Id, batch: seq<Change>, later: Log)
    requires IsLog(log) && AppendAll(log, task, batch).Some? && AppendAll(log, task, batch).value <= later
    ensures AppendAll(later, task, batch) == Some(later)
  {
    forall k | 0 <= k < |batch| ensures IsValid(task, batch[k]) && IsDuplicate(later, batch[k]) {
      BatchIsDuplicate(log, task, batch, k);
      DuplicateStays(AppendAll(log, task, batch).value, later, batch[k]);
    }
    DuplicatesAppendNothing(later, task, batch);
  }

  /* ---------- snapshots and change pages ---------- */

  /** What a snapshot shows: per interaction the change with the highest revision. */
  function Snapshot(log: Log, task: Id): map<Id, Stored> {
    if log == [] then map[]
    else
      var e, view := log[|log| - 1], Snapshot(log[..|log| - 1], task);
      var id := e.change.interaction.id;
      if OfTask(e, task) && (id !in view || IsNewer(e, view[id])) then view[id := e] else view
  }

  /** What a reader makes of changes: the last one of an interaction wins. */
  function Replay(view: map<Id, Stored>, changes: seq<Stored>): map<Id, Stored> {
    if changes == [] then view
    else
      var e := changes[|changes| - 1];
      Replay(view, changes[..|changes| - 1])[e.change.interaction.id := e]
  }

  /** The task's changes after a number, in the order of the log. */
  function ChangesAfter(log: Log, task: Id, after: int): seq<Stored> {
    if log == [] then []
    else
      var e := log[|log| - 1];
      ChangesAfter(log[..|log| - 1], task, after) + if OfTask(e, task) && e.number > after then [e] else []
  }

  lemma {:induction false} SnapshotHas(log: Log, task: Id)
    ensures forall id :: id in Snapshot(log, task) ==>
              Snapshot(log, task)[id] in log && OfTask(Snapshot(log, task)[id], task) && Snapshot(log, task)[id].change.interaction.id == id
    decreases |log|
  {
    if log != [] {
      SnapshotHas(log[..|log| - 1], task);
      assert forall x :: x in log[..|log| - 1] ==> x in log;
    }
  }

  /** Selecting the highest revision and letting the last write win come to the same. */
  lemma {:induction false} SnapshotIsReplay(log: Log, task: Id)
    requires IsLog(log)
    ensures Snapshot(log, task) == Replay(map[], ChangesAfter(log, task, -1))
    decreases |log|
  {
    if log != [] {
      var init, e := log[..|log| - 1], log[|log| - 1];
      var view, id := Snapshot(init, task), e.change.interaction.id;
      SnapshotIsReplay(init, task);
      SnapshotHas(init, task);
      if OfTask(e, task) && id in view {
        var k :| 0 <= k < |init| && init[k] == view[id];
        assert Follows(log[k], log[|log| - 1]);
        assert IsNewer(e, view[id]);
      }
      var changes := ChangesAfter(init, task, -1);
      assert (changes + [e])[..|changes|] == changes && changes + [] == changes;
      assert ChangesAfter(log, task, -1) == if OfTask(e, task) then changes + [e] else changes;
    }
  }

  lemma {:induction false} ReplayConcat(view: map<Id, Stored>, a: seq<Stored>, b: seq<Stored>)
    ensures Replay(view, a + b) == Replay(Replay(view, a), b)
    decreases |b|
  {
    if b == [] {
      assert a + b == a;
    } else {
      assert (a + b)[..|a + b| - 1] == a + b[..|b| - 1];
      ReplayConcat(view, a, b[..|b| - 1]);
    }
  }

  /** After any number the log has given out: the changes it had then, and those it got later. */
  lemma {:induction false} ChangesSplit(log: Log, later: Log, task: Id, after: int)
    requires IsLog(later) && log <= later && after <= TopNumber(log, task)
    ensures ChangesAfter(later, task, after) == ChangesAfter(log, task, after) + ChangesAfter(later, task, TopNumber(log, task))
    decreases |later|
  {
    if later == log {
      NothingAfterTop(log, task, TopNumber(log, task));
    } else {
      var init, e := later[..|later| - 1], later[|later| - 1];
      assert log <= init;
      ChangesSplit(log, init, task, after);
      if OfTask(e, task) { LaterIsHigher(log, later, task); }
    }
  }

  lemma LaterIsHigher(log: Log, later: Log, task: Id)
    requires IsLog(later) && log < later && OfTask(later[|later| - 1], task)
    ensures later[|later| - 1].number > TopNumber(log, task)
  {
    TopNumberBounds(log, task);
    if TopNumber(log, task) > 0 {
      var i :| 0 <= i < |log| && OfTask(log[i], task) && log[i].number == TopNumber(log, task);
      assert Follows(later[i], later[|later| - 1]);
    }
  }

  lemma {:induction false} NothingAfterTop(log: Log, task: Id, after: nat)
    requires TopNumber(log, task) <= after
    ensures ChangesAfter(log, task, after) == []
    decreases |log|
  {
    if log != [] { NothingAfterTop(log[..|log| - 1], task, after); }
  }

  /** A snapshot and the changes after it give the later snapshot, whatever was appended in between. */
  lemma SnapshotPlusChanges(log: Log, later: Log, task: Id)
    requires IsLog(log) && IsLog(later) && log <= later
    ensures Replay(Snapshot(log, task), ChangesAfter(later, task, TopNumber(log, task))) == Snapshot(later, task)
  {
    SnapshotIsReplay(log, task);
    SnapshotIsReplay(later, task);
    ChangesSplit(log, later, task, -1);
    ReplayConcat(map[], ChangesAfter(log, task, -1), ChangesAfter(later, task, TopNumber(log, task)));
  }

  datatype Event = AppendBatch(task: Id, batch: seq<Change>) | RemoveSource(task: Id, source: Id)

  function Step(log: Log, e: Event): Log {
    match e
    case AppendBatch(task, batch) => (match AppendAll(log, task, batch)
                                      case Some(l) => l
                                      case None => log)
    case RemoveSource(task, source) => WithoutSource(log, task, source)
  }

  function After(log: Log, es: seq<Event>): Log
    decreases |es|
  {
    if es == [] then log else After(Step(log, es[0]), es[1..])
  }

  predicate OnlyAppends(es: seq<Event>) {
    forall i :: 0 <= i < |es| ==> es[i].AppendBatch?
  }

  /** Over every run numbers grow per task, revisions grow per interaction, and positions stay. */
  lemma {:induction false} RunsKeepLog(log: Log, es: seq<Event>)
    requires IsLog(log)
    ensures IsLog(After(log, es)) && (OnlyAppends(es) ==> log <= After(log, es))
    decreases |es|
  {
    if es != [] {
      if es[0].AppendBatch? { AppendKeeps(log, es[0].task, es[0].batch); } else { WithoutSourceKeeps(log, es[0].task, es[0].source); }
      RunsKeepLog(Step(log, es[0]), es[1..]);
    }
  }

  /** A reader catches up with any run that deletes nothing: its snapshot and the later changes are the later snapshot. */
  lemma ReaderCatchesUp(log: Log, es: seq<Event>, task: Id)
    requires IsLog(log) && OnlyAppends(es)
    ensures Replay(Snapshot(log, task), ChangesAfter(After(log, es), task, TopNumber(log, task))) == Snapshot(After(log, es), task)
  {
    RunsKeepLog(log, es);
    SnapshotPlusChanges(log, After(log, es), task);
  }

  /* ---------- pages ---------- */

  predicate ByNumber(a: Stored, b: Stored) {
    a.number <= b.number
  }

  lemma {:induction false} ChangesAreThose(log: Log, task: Id, after: int)
    ensures forall x :: x in ChangesAfter(log, task, after) <==> x in log && OfTask(x, task) && x.number > after
    decreases |log|
  {
    if log != [] {
      var init, e := log[..|log| - 1], log[|log| - 1];
      ChangesAreThose(init, task, after);
      assert log == init + [e];
    }
  }

  lemma OneMoreInOrder(changes: seq<Stored>, e: Stored)
    requires StrictlySorted(changes, ByNumber) && forall x :: x in changes ==> x.number < e.number
    ensures StrictlySorted(changes + [e], ByNumber)
  {
    forall i | 0 <= i < |changes| ensures changes[i].number < e.number {
      assert changes[i] in changes;
    }
  }

  lemma {:induction false} ChangesAreInOrder(log: Log, task: Id, after: int)
    requires IsLog(log)
    ensures forall x :: x in ChangesAfter(log, task, after) <==> x in log && OfTask(x, task) && x.number > after
    ensures StrictlySorted(ChangesAfter(log, task, after), ByNumber)
    decreases |log|
  {
    hide StrictlySorted, ByNumber;
    ChangesAreThose(log, task, after);
    if log == [] {
      NothingIsInOrder();
    } else {
      var init, e := log[..|log| - 1], log[|log| - 1];
      ChangesAreInOrder(init, task, after);
      if OfTask(e, task) && e.number > after {
        forall x | x in ChangesAfter(init, task, after) ensures x.number < e.number {
          var k :| 0 <= k < |init| && init[k] == x;
          assert Follows(log[k], log[|log| - 1]);
        }
        OneMoreInOrder(ChangesAfter(init, task, after), e);
      } else {
        assert ChangesAfter(init, task, after) + [] == ChangesAfter(init, task, after);
      }
    }
  }

  lemma NothingIsInOrder()
    ensures StrictlySorted<Stored>([], ByNumber)
  {
  }

  /** A page has at least one change if there is one. */
  function PageSize(limit: int): nat {
    if limit < 1 then 1 else limit
  }

  function Page(log: Log, task: Id, after: int, limit: int): seq<Stored> {
    var changes := Sort(ChangesAfter(log, task, after), ByNumber);
    if |changes| <= PageSize(limit) then changes else changes[..PageSize(limit)]
  }

  function UpperNumber(page: seq<Stored>, after: int): int {
    if page == [] then after else page[|page| - 1].number
  }

  /** Sorting leaves the changes as the log has them. */
  lemma PageIsPrefix(log: Log, task: Id, after: int, limit: int)
    requires IsLog(log)
    ensures var changes, page := ChangesAfter(log, task, after), Page(log, task, after, limit);
            page <= changes && (page == [] <==> changes == [])
  {
    var changes := ChangesAfter(log, task, after);
    ChangesAreInOrder(log, task, after);
    SortStrictly(changes, ByNumber);
    StrictlySortedIsUnique(Sort(changes, ByNumber), changes, ByNumber);
  }

  lemma RestHasHigher(changes: seq<Stored>, n: nat)
    requires StrictlySorted(changes, ByNumber) && 0 < n <= |changes|
    ensures forall x :: x in changes[n..] <==> x in changes && x.number > changes[n - 1].number
  {
    forall x ensures x in changes[n..] <==> x in changes && x.number > changes[n - 1].number {
      if i :| 0 <= i < |changes| && changes[i] == x && x.number > changes[n - 1].number {
        assert i >= n && changes[n..][i - n] == x;
      }
      if j :| 0 <= j < |changes[n..]| && changes[n..][j] == x {
        assert changes[n + j] == x;
      }
    }
  }

  /** What follows a change in strict order is what has a higher number. */
  lemma RestIsAfter(log: Log, task: Id, after: int, n: nat)
    requires IsLog(log) && 0 < n <= |ChangesAfter(log, task, after)|
    ensures var changes := ChangesAfter(log, task, after);
            ChangesAfter(log, task, changes[n - 1].number) == changes[n..]
  {
    var changes := ChangesAfter(log, task, after);
    var upper, rest := changes[n - 1].number, changes[n..];
    ChangesAreInOrder(log, task, after);
    ChangesAreInOrder(log, task, upper);
    assert upper > after by { assert changes[n - 1] in changes; }
    RestHasHigher(changes, n);
    forall x ensures x in rest <==> x in ChangesAfter(log, task, upper) {}
    StrictlySortedIsUnique(rest, ChangesAfter(log, task, upper), ByNumber);
  }

  /** The next page goes on where this one ends: no change is skipped or shown twice, and only the last page is empty. */
  lemma PagesAreConsecutive(log: Log, task: Id, after: int, limit: int)
    requires IsLog(log)
    ensures var page := Page(log, task, after, limit);
            ChangesAfter(log, task, after) == page + ChangesAfter(log, task, UpperNumber(page, after))
    ensures Page(log, task, after, limit) == [] <==> ChangesAfter(log, task, after) == []
  {
    hide ChangesAfter, Page, IsLog;
    PageIsPrefix(log, task, after, limit);
    var changes, page := ChangesAfter(log, task, after), Page(log, task, after, limit);
    if page != [] {
      RestIsAfter(log, task, after, |page|);
      assert page[|page| - 1] == changes[|page| - 1];
      assert changes == page + changes[|page|..];
    }
  }

  /* ---------- a reader among writers ---------- */

  /** Between two pages of the reader any number of batches is appended. */
  datatype Turn = Write(task: Id, batch: seq<Change>) | Read(limit: int)

  /** `seen` is the cursor the last page returned, `shown` what all the pages have shown. */
  datatype Reader = Reader(seen: int, shown: seq<Stored>)

  function LogAfter(log: Log, turns: seq<Turn>): Log
    decreases |turns|
  {
    if turns == [] then log
    else LogAfter(if turns[0].Write? then Step(log, AppendBatch(turns[0].task, turns[0].batch)) else log, turns[1..])
  }

  function ReadOn(log: Log, task: Id, r: Reader, limit: int): Reader {
    var page := Page(log, task, r.seen, limit);
    Reader(UpperNumber(page, r.seen), r.shown + page)
  }

  function ReaderAfter(log: Log, task: Id, r: Reader, turns: seq<Turn>): Reader
    decreases |turns|
  {
    if turns == [] then r
    else
      match turns[0]
      case Write(of, batch) => ReaderAfter(Step(log, AppendBatch(of, batch)), task, r, turns[1..])
      case Read(limit) => ReaderAfter(log, task, ReadOn(log, task, r, limit), turns[1..])
  }

  /** What the reader was shown and what is still to come are the changes after the number it started from. */
  predicate KeepsUp(log: Log, task: Id, from: int, r: Reader) {
    IsLog(log) && from <= TopNumber(log, task) && r.seen <= TopNumber(log, task)
    && r.shown + ChangesAfter(log, task, r.seen) == ChangesAfter(log, task, from)
  }

  lemma TopGrows(log: Log, later: Log, task: Id)
    requires log <= later
    ensures TopNumber(log, task) <= TopNumber(later, task)
  {
    TopNumberBounds(log, task);
    TopNumberBounds(later, task);
    if TopNumber(log, task) > 0 {
      var i :| 0 <= i < |log| && OfTask(log[i], task) && log[i].number == TopNumber(log, task);
      assert later[i] == log[i];
    }
  }

  lemma WriteKeepsUp(log: Log, later: Log, task: Id, from: int, r: Reader)
    requires KeepsUp(log, task, from, r) && IsLog(later) && log <= later
    ensures KeepsUp(later, task, from, r)
  {
    hide IsLog, ChangesAfter, TopNumber;
    TopGrows(log, later, task);
    ChangesSplit(log, later, task, r.seen);
    ChangesSplit(log, later, task, from);
  }

  lemma ReadKeepsUp(log: Log, task: Id, from: int, r: Reader, limit: int)
    requires KeepsUp(log, task, from, r)
    ensures KeepsUp(log, task, from, ReadOn(log, task, r, limit))
  {
    hide IsLog, ChangesAfter, TopNumber, Page;
    var page := Page(log, task, r.seen, limit);
    PagesAreConsecutive(log, task, r.seen, limit);
    ChangesAreThose(log, task, r.seen);
    TopNumberBounds(log, task);
    if page != [] {
      var last := page[|page| - 1];
      assert last == ChangesAfter(log, task, r.seen)[|page| - 1];
      assert last in log && OfTask(last, task);
    }
  }

  lemma {:induction false} TurnsKeepUp(log: Log, task: Id, from: int, r: Reader, turns: seq<Turn>)
    requires KeepsUp(log, task, from, r)
    ensures KeepsUp(LogAfter(log, turns), task, from, ReaderAfter(log, task, r, turns)) && log <= LogAfter(log, turns)
    decreases |turns|
  {
    hide KeepsUp, Page;
    if turns != [] {
      match turns[0]
      case Write(of, batch) =>
        var later := Step(log, AppendBatch(of, batch));
        LogKeepsUp(log, task, from, r);
        AppendKeeps(log, of, batch);
        WriteKeepsUp(log, later, task, from, r);
        TurnsKeepUp(later, task, from, r, turns[1..]);
      case Read(limit) =>
        ReadKeepsUp(log, task, from, r, limit);
        TurnsKeepUp(log, task, from, ReadOn(log, task, r, limit), turns[1..]);
    }
  }

  lemma LogKeepsUp(log: Log, task: Id, from: int, r: Reader)
    requires KeepsUp(log, task, from, r)
    ensures IsLog(log)
  {
  }

  /**
   A reader takes a snapshot and then reads page after page while batches are appended in between: it is shown every
   later change once and in order, and once a page is empty what it has put together is the snapshot of that moment.
   */
  lemma ReaderFollowsLog(log: Log, task: Id, turns: seq<Turn>, limit: int)
    requires IsLog(log)
    ensures
      var start := TopNumber(log, task);
      var later, r := LogAfter(log, turns), ReaderAfter(log, task, Reader(start, []), turns);
      r.shown + ChangesAfter(later, task, r.seen) == ChangesAfter(later, task, start)
      && Replay(Snapshot(log, task), r.shown + ChangesAfter(later, task, r.seen)) == Snapshot(later, task)
      && (Page(later, task, r.seen, limit) == [] ==> Replay(Snapshot(log, task), r.shown) == Snapshot(later, task))
  {
    hide IsLog, Page, Snapshot, Replay, ChangesAfter, TopNumber, LogAfter, ReaderAfter;
    var start := TopNumber(log, task);
    var later, r := LogAfter(log, turns), ReaderAfter(log, task, Reader(start, []), turns);
    assert [] + ChangesAfter(log, task, start) == ChangesAfter(log, task, start);
    TurnsKeepUp(log, task, start, Reader(start, []), turns);
    SnapshotPlusChanges(log, later, task);
    PagesAreConsecutive(later, task, r.seen, limit);
    assert r.shown + [] == r.shown;
  }

  /* ---------- deletion ---------- */

  /**
   A deleted change may free the top number for the next one. A reader that had got as far as `seen` is shown the next
   change exactly if a change with that number or a later one is still stored.
   */
  lemma NextChangeIsShownIff(log: Log, task: Id, c: Change, seen: nat)
    requires IsLog(log) && AppendOne(log, task, c).Some? && AppendOne(log, task, c).value != log && seen > 0
    ensures var later := AppendOne(log, task, c).value;
            later[|log|] in ChangesAfter(later, task, seen) <==> exists i :: 0 <= i < |log| && OfTask(log[i], task) && log[i].number >= seen
  {
    var later := AppendOne(log, task, c).value;
    AppendOneKeeps(log, task, c);
    ChangesAreInOrder(later, task, seen);
    TopNumberBounds(log, task);
  }

  /** So a reader can miss a change: the message with the top number is deleted and its number given out again. */
  lemma ReusedNumberIsMissed() returns (before: seq<Event>, es: seq<Event>)
    ensures var log, later := After([], before), After(After([], before), es);
            later != [] && ChangesAfter(later, 0, TopNumber(log, 0)) == []
            && Replay(Snapshot(log, 0), ChangesAfter(later, 0, TopNumber(log, 0))) != Snapshot(later, 0)
  {
    var first, second := Change(Product, 7, 0, Interaction(1, 0, 0, 1, 10)), Change(Product, 8, 0, Interaction(2, 0, 1, 1, 20));
    before, es := [AppendBatch(0, [first])], [RemoveSource(0, 7), AppendBatch(0, [second])];
    var log, later := [Stored(first, 1)], [Stored(second, 1)];
    SingleChange(log[0]);
    SingleChange(later[0]);
    hide TopNumber, Snapshot, ChangesAfter, AppendAll;
    FirstBatch(first);
    FirstBatch(second);
    assert WithoutSource(log, 0, 7) == [] by { assert log[..0] == []; }
    assert before[1..] == [] && After([], before) == log;
    assert es[1..] == [AppendBatch(0, [second])] && es[1..][1..] == [];
    assert Step(log, es[0]) == [] && Step([], es[1]) == later && After([], es[1..]) == later;
  }

  /** A log of one change of task 0. */
  lemma SingleChange(e: Stored)
    requires OfTask(e, 0) && e.number == 1
    ensures TopNumber([e], 0) == 1 && ChangesAfter([e], 0, 1) == [] && Snapshot([e], 0) == map[e.change.interaction.id := e]
  {
    assert [e][..0] == [];
  }

  lemma FirstBatch(c: Change)
    requires IsValid(0, c)
    ensures AppendAll([], 0, [c]) == Some([Stored(c, 1)])
  {
    assert !IsDuplicate([], c) && TopRevision([], c) == -1 && LatestOf([], c).None? && TopNumber([], 0) == 0;
    assert [] + [Stored(c, 1)] == [Stored(c, 1)];
    assert [c][..0] == [];
  }

  /* ---------- the store object ---------- */

  class InteractionStore {
    var changes: Log

    ghost predicate Valid()
      reads this
    {
      IsLog(changes)
    }

    constructor ()
      ensures changes == [] && Valid()
    {
      changes := [];
    }

    static method FindTop(log: Log, task: Id) returns (top: nat)
      ensures top == TopNumber(log, task)
    {
      top := 0;
      for i := 0 to |log|
        invariant top == TopNumber(log[..i], task)
      {
        assert log[..i + 1][..i] == log[..i];
        if log[i].change.interaction.task == task && log[i].number > top { top := log[i].number; }
      }
      assert log[..|log|] == log;
    }

    static method HasDuplicate(log: Log, c: Change) returns (found: bool)
      ensures found == IsDuplicate(log, c)
    {
      for i := 0 to |log|
        invariant !IsDuplicate(log[..i], c)
      {
        if SameSource(log[i].change, c) && log[i].change.sourceRevision == c.sourceRevision { return true; }
      }
      assert log[..|log|] == log;
      return false;
    }

    static method FindTopRevision(log: Log, c: Change) returns (top: int)
      ensures top == TopRevision(log, c)
    {
      top := -1;
      for i := 0 to |log|
        invariant top == TopRevision(log[..i], c)
      {
        assert log[..i + 1][..i] == log[..i];
        if SameSource(log[i].change, c) && log[i].change.sourceRevision > top { top := log[i].change.sourceRevision; }
      }
      assert log[..|log|] == log;
    }

    static method FindLatest(log: Log, c: Change) returns (latest: Option<Stored>)
      ensures latest == LatestOf(log, c)
    {
      latest := None;
      for i := 0 to |log|
        invariant latest == LatestOf(log[..i], c)
      {
        assert log[..i + 1][..i] == log[..i];
        if SameInteraction(log[i].change, c) && (latest.None? || IsNewer(log[i], latest.value)) { latest := Some(log[i]); }
      }
      assert log[..|log|] == log;
    }

    /** Appends a batch; an error anywhere in it undoes all of it. */
    method Append(task: Id, batch: seq<Change>) returns (ok: bool)
      requires Valid()
      modifies this
      ensures ok <==> AppendAll(old(changes), task, batch).Some?
      ensures changes == if ok then AppendAll(old(changes), task, batch).value else old(changes)
      ensures Valid() && old(changes) <= changes
    {
      hide IsDuplicate, TopRevision, LatestOf, TopNumber, IsLog;
      var previous := changes;
      var next := FindTop(changes, task);
      AppendKeeps(changes, task, batch);
      for j := 0 to |batch|
        invariant AppendAll(previous, task, batch[..j]) == Some(changes) && next == TopNumber(changes, task)
      {
        var c := batch[j];
        assert batch[..j + 1][..j] == batch[..j];
        if !IsValid(task, c) { BatchFails(previous, task, batch, j); changes := previous; return false; }
        var duplicate := HasDuplicate(changes, c);
        if !duplicate {
          var top := FindTopRevision(changes, c);
          var latest := FindLatest(changes, c);
          if (c.kind.Product? && c.sourceRevision <= top)
             || (latest.Some? && (c.interaction.revision <= latest.value.change.interaction.revision
                                  || c.interaction.position != latest.value.change.interaction.position))
          {
            BatchFails(previous, task, batch, j);
            changes := previous;
            return false;
          }
          next := next + 1;
          NumberAfter(changes, task, Stored(c, next));
          changes := changes + [Stored(c, next)];
        }
      }
      assert batch[..|batch|] == batch;
      return true;
    }

    /** Deletes what a message published. */
    method Remove(task: Id, source: Id)
      requires Valid()
      modifies this
      ensures changes == WithoutSource(old(changes), task, source) && Valid()
    {
      WithoutSourceKeeps(changes, task, source);
      var kept := [];
      for i := 0 to |changes|
        invariant changes == old(changes) && kept == WithoutSource(changes[..i], task, source)
      {
        assert changes[..i + 1][..i] == changes[..i];
        var e := changes[i];
        if !(OfTask(e, task) && e.change.kind.Product? && e.change.source == source) { kept := kept + [e]; }
      }
      assert changes[..|changes|] == changes;
      changes := kept;
    }

    /** Selects the change of each interaction with the highest revision. */
    method ReadSnapshot(task: Id) returns (view: map<Id, Stored>)
      ensures view == Snapshot(changes, task)
    {
      view := map[];
      for i := 0 to |changes|
        invariant view == Snapshot(changes[..i], task)
      {
        assert changes[..i + 1][..i] == changes[..i];
        var e := changes[i];
        var id := e.change.interaction.id;
        if OfTask(e, task) && (id !in view || IsNewer(e, view[id])) { view := view[id := e]; }
      }
      assert changes[..|changes|] == changes;
    }
  }

  lemma NumberAfter(log: Log, task: Id, e: Stored)
    requires OfTask(e, task) && e.number > TopNumber(log, task)
    ensures TopNumber(log + [e], task) == e.number
  {
    assert (log + [e])[..|log|] == log;
  }

  lemma {:induction false} BatchFails(log: Log, task: Id, batch: seq<Change>, j: nat)
    requires j < |batch| && AppendAll(log, task, batch[..j]).Some? && AppendOne(AppendAll(log, task, batch[..j]).value, task, batch[j]).None?
    ensures AppendAll(log, task, batch).None?
    decreases |batch|
  {
    if j < |batch| - 1 {
      var init := batch[..|batch| - 1];
      assert init[..j] == batch[..j];
      BatchFails(log, task, init, j);
    }
  }
}
