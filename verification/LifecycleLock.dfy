/**
 The promise-chain lock: each caller waits for the promise that was the last one for its project when it arrived, and
 becomes the last one itself. A caller is suspended while it waits and while its action runs.
 */
module LifecycleLock {
  import opened Basics

  datatype Phase = Waiting | Running | Done

  /** `previous` is the caller whose promise is awaited; a promise is resolved when its caller is done. */
  datatype Caller = Caller(project: Id, previous: Option<Id>, phase: Phase)

  /** `operations` is the lock's own map; `arrivals` is history: everyone who ever called, in order, per project. */
  datatype State = State(operations: map<Id, Id>, callers: map<Id, Caller>, arrivals: map<Id, seq<Id>>)

  function Arrivals(s: State, project: Id): seq<Id> {
    if project in s.arrivals then s.arrivals[project] else []
  }

  datatype Event = Arrive(caller: Id, project: Id) | Start(caller: Id) | Finish(caller: Id)

  predicate IsResolved(s: State, previous: Option<Id>) {
    previous.Some? ==> previous.value in s.callers && s.callers[previous.value].phase.Done?
  }

  predicate Enabled(s: State, e: Event) {
    match e
    case Arrive(c, _) => c !in s.callers
    case Start(c) => c in s.callers && s.callers[c].phase.Waiting? && IsResolved(s, s.callers[c].previous)
    case Finish(c) => c in s.callers && s.callers[c].phase.Running?
  }

  function Step(s: State, e: Event): State
    requires Enabled(s, e)
  {
    match e
    case Arrive(c, p) =>
      var previous := if p in s.operations then Some(s.operations[p]) else None;
      State(s.operations[p := c], s.callers[c := Caller(p, previous, Waiting)], s.arrivals[p := Arrivals(s, p) + [c]])
    case Start(c) => s.(callers := s.callers[c := s.callers[c].(phase := Running)])
    case Finish(c) =>
      var p := s.callers[c].project;
      s.(callers := s.callers[c := s.callers[c].(phase := Done)],
         operations := if p in s.operations && s.operations[p] == c then s.operations - {p} else s.operations)
  }

  const EMPTY: State := State(map[], map[], map[])

  /* ---------- the invariant ---------- */

  predicate KnownCallers(s: State, project: Id) {
    forall i :: 0 <= i < |Arrivals(s, project)| ==> Arrivals(s, project)[i] in s.callers && s.callers[Arrivals(s, project)[i]].project == project
  }

  predicate NoneTwice(a: seq<Id>) {
    forall i, j :: 0 <= i < j < |a| ==> a[i] != a[j]
  }

  /** Everyone before `n` is done, everyone after `n` waits, and each waits for the one before. */
  predicate InTurn(s: State, project: Id, n: nat)
    requires KnownCallers(s, project)
  {
    var a := Arrivals(s, project);
    n <= |a|
    && (forall i :: 0 <= i < n ==> s.callers[a[i]].phase.Done?)
    && (n < |a| ==> !s.callers[a[n]].phase.Done? && IsResolved(s, s.callers[a[n]].previous))
    && (forall i :: n < i < |a| ==> s.callers[a[i]].phase.Waiting? && s.callers[a[i]].previous == Some(a[i - 1]))
    && (project in s.operations <==> n < |a|)
    && (n < |a| ==> s.operations[project] == a[|a| - 1])
  }

  ghost predicate ProjectInv(s: State, project: Id) {
    NoneTwice(Arrivals(s, project)) && KnownCallers(s, project) && exists n: nat :: InTurn(s, project, n)
  }

  ghost predicate Inv(s: State) {
    && (forall p :: ProjectInv(s, p))
    && (forall c :: c in s.callers ==> c in Arrivals(s, s.callers[c].project))
  }

  lemma ArriveKeeps(s: State, c: Id, p: Id)
    requires ProjectInv(s, p) && c !in s.callers
    ensures ProjectInv(Step(s, Arrive(c, p)), p)
  {
    hide Step, InTurn;
    var n: nat :| InTurn(s, p, n);
    ArrivalJoins(s, c, p, n);
  }

  lemma ArrivalJoins(s: State, c: Id, p: Id, n: nat)
    requires NoneTwice(Arrivals(s, p)) && KnownCallers(s, p) && InTurn(s, p, n) && c !in s.callers
    ensures var s' := Step(s, Arrive(c, p)); NoneTwice(Arrivals(s', p)) && KnownCallers(s', p) && InTurn(s', p, n)
  {
    var s', a := Step(s, Arrive(c, p)), Arrivals(s, p);
    assert Arrivals(s', p) == a + [c];
    forall i | 0 <= i < |a| ensures a[i] in s.callers && a[i] != c && s'.callers[a[i]] == s.callers[a[i]] {}
    assert s'.callers[c].previous == if n < |a| then Some(a[|a| - 1]) else None;
  }

  /** Whoever may start, or runs, is the one whose turn it is. */
  lemma HasTurn(s: State, p: Id, n: nat, i: nat)
    requires KnownCallers(s, p) && InTurn(s, p, n) && i < |Arrivals(s, p)|
    requires var caller := s.callers[Arrivals(s, p)[i]];
             caller.phase.Running? || (caller.phase.Waiting? && IsResolved(s, caller.previous))
    ensures i == n
  {
    var a := Arrivals(s, p);
    forall k | n < k < |a| ensures !IsResolved(s, s.callers[a[k]].previous) {
      assert !s.callers[a[k - 1]].phase.Done?;
    }
  }

  lemma StartKeeps(s: State, c: Id)
    requires Enabled(s, Start(c)) && ProjectInv(s, s.callers[c].project) && c in Arrivals(s, s.callers[c].project)
    ensures ProjectInv(Step(s, Start(c)), s.callers[c].project)
  {
    var p := s.callers[c].project;
    var i :| 0 <= i < |Arrivals(s, p)| && Arrivals(s, p)[i] == c;
    var n: nat :| InTurn(s, p, n);
    HasTurn(s, p, n, i);
    hide InTurn;
    TurnGoesOn(s, c, p, n, false);
  }

  lemma FinishKeeps(s: State, c: Id)
    requires Enabled(s, Finish(c)) && ProjectInv(s, s.callers[c].project) && c in Arrivals(s, s.callers[c].project)
    ensures ProjectInv(Step(s, Finish(c)), s.callers[c].project)
  {
    var p := s.callers[c].project;
    var i :| 0 <= i < |Arrivals(s, p)| && Arrivals(s, p)[i] == c;
    var n: nat :| InTurn(s, p, n);
    HasTurn(s, p, n, i);
    hide InTurn;
    TurnGoesOn(s, c, p, n, true);
  }

  /** The caller whose turn it is starts, or finishes and hands the turn on. */
  lemma TurnGoesOn(s: State, c: Id, p: Id, n: nat, finish: bool)
    requires NoneTwice(Arrivals(s, p)) && KnownCallers(s, p) && InTurn(s, p, n) && n < |Arrivals(s, p)| && c == Arrivals(s, p)[n]
    requires Enabled(s, if finish then Finish(c) else Start(c))
    ensures var s' := Step(s, if finish then Finish(c) else Start(c));
            Arrivals(s', p) == Arrivals(s, p) && KnownCallers(s', p) && InTurn(s', p, if finish then n + 1 else n)
  {
    assert forall k :: 0 <= k < |Arrivals(s, p)| && k != n ==> Arrivals(s, p)[k] != c;
  }

  /** A step of one project's caller leaves every other project alone. */
  lemma OtherProjectsKept(s: State, e: Event, p: Id, q: Id)
    requires Inv(s) && Enabled(s, e) && q != p
    requires if e.Arrive? then e.project == p else s.callers[e.caller].project == p
    ensures ProjectInv(Step(s, e), q)
  {
    assert ProjectInv(s, q);
    hide Inv;
    StepLeavesOthers(s, e, p, q);
    var n: nat :| InTurn(s, q, n);
    TurnStays(s, Step(s, e), q, n);
  }

  /** What the state of one project's queue depends on. */
  ghost predicate SameQueue(s: State, s': State, q: Id)
    requires KnownCallers(s, q)
  {
    && Arrivals(s', q) == Arrivals(s, q)
    && (q in s'.operations <==> q in s.operations)
    && (q in s.operations ==> s'.operations[q] == s.operations[q])
    && (forall i :: 0 <= i < |Arrivals(s, q)| ==> Arrivals(s, q)[i] in s'.callers && s'.callers[Arrivals(s, q)[i]] == s.callers[Arrivals(s, q)[i]])
    && (forall c :: c in s.callers && s.callers[c].phase.Done? ==> c in s'.callers && s'.callers[c].phase.Done?)
  }

  lemma StepLeavesOthers(s: State, e: Event, p: Id, q: Id)
    requires Enabled(s, e) && q != p && KnownCallers(s, q)
    requires if e.Arrive? then e.project == p else s.callers[e.caller].project == p
    ensures SameQueue(s, Step(s, e), q)
  {
  }

  lemma TurnStays(s: State, s': State, q: Id, n: nat)
    requires KnownCallers(s, q) && SameQueue(s, s', q) && InTurn(s, q, n)
    ensures KnownCallers(s', q) && InTurn(s', q, n)
  {
  }

  lemma StepKeeps(s: State, e: Event)
    requires Inv(s) && Enabled(s, e)
    ensures Inv(Step(s, e))
  {
    var s' := Step(s, e);
    var p := if e.Arrive? then e.project else s.callers[e.caller].project;
    assert ProjectInv(s, p);
    match e {
      case Arrive(c, _) => ArriveKeeps(s, c, p);
      case Start(c) => StartKeeps(s, c);
      case Finish(c) => FinishKeeps(s, c);
    }
    forall q ensures ProjectInv(s', q) {
      if q != p { OtherProjectsKept(s, e, p, q); }
    }
    forall c | c in s'.callers ensures c in Arrivals(s', s'.callers[c].project) {
      if c in s.callers { assert c in Arrivals(s, s.callers[c].project); }
    }
  }

  ghost predicate RunsFrom(s: State, es: seq<Event>)
    decreases |es|
  {
    es == [] || (Enabled(s, es[0]) && RunsFrom(Step(s, es[0]), es[1..]))
  }

  function After(s: State, es: seq<Event>): State
    requires RunsFrom(s, es)
    decreases |es|
  {
    if es == [] then s else After(Step(s, es[0]), es[1..])
  }

  lemma {:induction false} RunsKeep(s: State, es: seq<Event>)
    requires Inv(s) && RunsFrom(s, es)
    ensures Inv(After(s, es))
    decreases |es|
  {
    if es != [] {
      StepKeeps(s, es[0]);
      RunsKeep(Step(s, es[0]), es[1..]);
    }
  }

  lemma EmptyIsInv()
    ensures Inv(EMPTY)
  {
    forall p ensures ProjectInv(EMPTY, p) {
      assert InTurn(EMPTY, p, 0);
    }
  }

  /* ---------- theorems ---------- */

  /** For any number of callers in any interleaving, one action at most runs per project. */
  lemma OneActionAtATime(es: seq<Event>, c: Id, d: Id)
    requires RunsFrom(EMPTY, es)
    ensures var s := After(EMPTY, es);
            c in s.callers && d in s.callers && s.callers[c].phase.Running? && s.callers[d].phase.Running? && s.callers[c].project == s.callers[d].project
            ==> c == d
  {
    EmptyIsInv();
    RunsKeep(EMPTY, es);
    var s := After(EMPTY, es);
    if c in s.callers && d in s.callers && s.callers[c].project == s.callers[d].project {
      assert ProjectInv(s, s.callers[c].project);
      assert c in Arrivals(s, s.callers[c].project) && d in Arrivals(s, s.callers[c].project);
    }
  }

  /** In order of arrival: once a caller has started, everyone who arrived before it is done. */
  lemma FirstComeFirstServed(es: seq<Event>, p: Id, i: nat, j: nat)
    requires RunsFrom(EMPTY, es)
    ensures var s := After(EMPTY, es);
            var a := Arrivals(s, p);
            i < j < |a| && a[j] in s.callers && !s.callers[a[j]].phase.Waiting? ==> a[i] in s.callers && s.callers[a[i]].phase.Done?
  {
    EmptyIsInv();
    RunsKeep(EMPTY, es);
    assert ProjectInv(After(EMPTY, es), p);
  }

  /** The map holds a project exactly while someone runs or waits for it, so it never grows for good. */
  lemma MapHoldsKeyIff(es: seq<Event>, p: Id)
    requires RunsFrom(EMPTY, es)
    ensures var s := After(EMPTY, es);
            p in s.operations <==> exists c :: c in s.callers && s.callers[c].project == p && !s.callers[c].phase.Done?
  {
    EmptyIsInv();
    RunsKeep(EMPTY, es);
    var s := After(EMPTY, es);
    var a := Arrivals(s, p);
    assert ProjectInv(s, p);
    var n: nat :| InTurn(s, p, n);
    if n < |a| {
      assert a[n] in s.callers && s.callers[a[n]].project == p && !s.callers[a[n]].phase.Done?;
    } else {
      forall c | c in s.callers && s.callers[c].project == p ensures s.callers[c].phase.Done? {
        assert c in a;
      }
    }
  }

  /** Nobody is forgotten: while someone waits, either an action runs or the next caller can start. */
  lemma NobodyIsForgotten(es: seq<Event>, c: Id)
    requires RunsFrom(EMPTY, es)
    ensures var s := After(EMPTY, es);
            c in s.callers && s.callers[c].phase.Waiting? ==>
              exists d :: d in s.callers && s.callers[d].project == s.callers[c].project && (s.callers[d].phase.Running? || Enabled(s, Start(d)))
  {
    EmptyIsInv();
    RunsKeep(EMPTY, es);
    var s := After(EMPTY, es);
    if c in s.callers && s.callers[c].phase.Waiting? {
      var p := s.callers[c].project;
      var a := Arrivals(s, p);
      assert ProjectInv(s, p);
      var n: nat :| InTurn(s, p, n);
      assert c in a;
      assert n < |a|;
      assert a[n] in s.callers && s.callers[a[n]].project == p && (s.callers[a[n]].phase.Running? || Enabled(s, Start(a[n])));
    }
  }

  /* ---------- the module-level map ---------- */

  /** The three points at which a call of the lock touches shared state. */
  class Lock {
    var operations: map<Id, Id>
    var callers: map<Id, Caller>
    ghost var arrivals: map<Id, seq<Id>>

    ghost function View(): State
      reads this
    {
      State(operations, callers, arrivals)
    }

    ghost predicate Valid()
      reads this
    {
      Inv(View())
    }

    constructor ()
      ensures View() == EMPTY && Valid()
    {
      operations, callers, arrivals := map[], map[], map[];
      new;
      EmptyIsInv();
    }

    /** Up to the first await: take the last promise and become the last one. */
    method Enter(c: Id, project: Id)
      requires Valid() && c !in callers
      modifies this
      ensures View() == Step(old(View()), Arrive(c, project)) && Valid()
    {
      hide Inv;
      StepKeeps(View(), Arrive(c, project));
      var previous := if project in operations then Some(operations[project]) else None;
      operations := operations[project := c];
      callers := callers[c := Caller(project, previous, Waiting)];
      arrivals := arrivals[project := (if project in arrivals then arrivals[project] else []) + [c]];
    }

    /** The awaited promise is resolved: the action starts. */
    method Resume(c: Id)
      requires Valid() && Enabled(View(), Start(c))
      modifies this
      ensures View() == Step(old(View()), Start(c)) && Valid()
    {
      hide Inv;
      StepKeeps(View(), Start(c));
      callers := callers[c := callers[c].(phase := Running)];
    }

    /** The action has ended, well or badly: resolve the promise, and clear the map if nobody came after. */
    method Leave(c: Id)
      requires Valid() && Enabled(View(), Finish(c))
      modifies this
      ensures View() == Step(old(View()), Finish(c)) && Valid()
    {
      hide Inv;
      StepKeeps(View(), Finish(c));
      var project := callers[c].project;
      callers := callers[c := callers[c].(phase := Done)];
      if project in operations && operations[project] == c { operations := operations - {project}; }
    }
  }
}
