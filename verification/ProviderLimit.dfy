/** The rolling limits of the provider ledger, over every run and for reservations in any order of time. */
module ProviderLimit {
  import opened Basics
  import opened Sums
  import opened ProviderLedger

  /** What an entry was admitted for and still counts: a settlement below the reservation gives room back. */
  function Capped(e: Entry, m: Metric): nat {
    if WindowValue(e, m) < Reservation(e, m) then WindowValue(e, m) else Reservation(e, m)
  }

  /** What a settlement counts beyond the reservation that was admitted. */
  function Overshoot(e: Entry, m: Metric): nat {
    WindowValue(e, m) - Capped(e, m)
  }

  /** The two parts of what an entry counts, and the whole. */
  datatype Part = Admitted | Excess | Whole {
    function Of(e: Entry, m: Metric): nat {
      match this
      case Admitted => Capped(e, m)
      case Excess => Overshoot(e, m)
      case Whole => WindowValue(e, m)
    }
  }

  predicate InInterval(e: Entry, project: Id, actor: Option<Id>, w: Window, from: Time) {
    CountsFor(e, project, w.endpoint, actor) && from <= e.reservedAt <= from + 1000 * w.seconds
  }

  function IntervalTerm(entries: map<Id, Entry>, project: Id, actor: Option<Id>, w: Window, from: Time, part: Part): Id -> int {
    (k: Id) => if k in entries && InInterval(entries[k], project, actor, w, from) then part.Of(entries[k], w.metric) else 0
  }

  /** The sum of one part over one actor's stored, non-failed entries in the interval of the window's length from `from`. */
  ghost function IntervalSum(entries: map<Id, Entry>, project: Id, actor: Option<Id>, w: Window, from: Time, part: Part): int {
    Sum(entries.Keys, IntervalTerm(entries, project, actor, w, from, part))
  }

  ghost predicate Within(entries: map<Id, Entry>, project: Id, actor: Option<Id>, w: Window) {
    forall from: Time :: IntervalSum(entries, project, actor, w, from, Admitted) <= w.limit
  }

  /* ---------- the gate is enough ---------- */

  /** Every interval that holds the new reservation lies in what the gate summed up. */
  lemma GateCovers(entries: map<Id, Entry>, project: Id, actor: Option<Id>, w: Window, from: Time, at: Time)
    requires from <= at <= from + 1000 * w.seconds
    ensures IntervalSum(entries, project, actor, w, from, Admitted)
              <= WindowSum(entries, project, w.endpoint, actor, at - 1000 * w.seconds, w.metric)
  {
    SumOrder(entries.Keys, IntervalTerm(entries, project, actor, w, from, Admitted),
             WindowTerm(entries, project, w.endpoint, actor, at - 1000 * w.seconds, w.metric));
  }

  lemma AddedEntry(entries: map<Id, Entry>, id: Id, e: Entry, project: Id, actor: Option<Id>, w: Window, from: Time)
    requires id !in entries
    ensures IntervalSum(entries[id := e], project, actor, w, from, Admitted)
              == IntervalSum(entries, project, actor, w, from, Admitted) + if InInterval(e, project, actor, w, from) then Capped(e, w.metric) else 0
  {
    var after := entries[id := e];
    var term, term' := IntervalTerm(entries, project, actor, w, from, Admitted), IntervalTerm(after, project, actor, w, from, Admitted);
    assert after.Keys == entries.Keys + {id};
    SumAdd(entries.Keys, term', id);
    SumSame(entries.Keys, term, term');
  }

  /** A reservation the window's gate let through. */
  lemma GatedStaysWithin(entries: map<Id, Entry>, i: ReserveInput, project: Id, actor: Option<Id>, w: Window)
    requires i.id !in entries && Within(entries, project, actor, w)
    requires i.project == project ==> WindowGate(entries, w, i)
    ensures Within(entries[i.id := NewEntry(i)], project, actor, w)
  {
    var e := NewEntry(i);
    var after := entries[i.id := e];
    forall from: Time ensures IntervalSum(after, project, actor, w, from, Admitted) <= w.limit {
      AddedEntry(entries, i.id, e, project, actor, w, from);
      assert IntervalSum(entries, project, actor, w, from, Admitted) <= w.limit;
      if InInterval(e, project, actor, w, from) { GateCovers(entries, project, actor, w, from, i.reservedAt); }
    }
  }

  lemma ReserveStaysWithin(s: State, i: ReserveInput, project: Id, actor: Option<Id>, w: Window)
    requires Within(s.entries, project, actor, w)
    requires project in s.policies ==> w in s.policies[project].windows
    ensures Within(ReserveStep(s, i).0.entries, project, actor, w)
  {
    var (s', o) := ReserveStep(s, i);
    if o.Applied? { GatedStaysWithin(s.entries, i, project, actor, w); }
  }

  /* ---------- nothing else adds ---------- */

  /** An entry never counts for more, and never comes back once failed or detached. */
  predicate Fades(e: Entry, e': Entry) {
    e'.project == e.project && e'.actor == e.actor && e'.reservedAt == e.reservedAt
    && (e'.endpoint == e.endpoint || e'.endpoint.None?) && (e.status.Failed? ==> e'.status.Failed?)
    && Capped(e', Requests) <= Capped(e, Requests) && Capped(e', Tokens) <= Capped(e, Tokens) && Capped(e', Cost) <= Capped(e, Cost)
  }

  predicate EntriesFade(before: map<Id, Entry>, after: map<Id, Entry>) {
    forall k :: k in after ==> k in before && Fades(before[k], after[k])
  }

  lemma FadingShrinks(before: map<Id, Entry>, after: map<Id, Entry>, project: Id, actor: Option<Id>, w: Window, from: Time)
    requires EntriesFade(before, after)
    ensures IntervalSum(after, project, actor, w, from, Admitted) <= IntervalSum(before, project, actor, w, from, Admitted)
  {
    var term, term' := IntervalTerm(before, project, actor, w, from, Admitted), IntervalTerm(after, project, actor, w, from, Admitted);
    forall k | k in after.Keys ensures term'(k) <= term(k) {
      assert Fades(before[k], after[k]);
    }
    SumOrder(after.Keys, term', term);
    SumSubset(after.Keys, before.Keys, term);
  }

  lemma FadingStaysWithin(before: map<Id, Entry>, after: map<Id, Entry>, project: Id, actor: Option<Id>, w: Window)
    requires Within(before, project, actor, w) && EntriesFade(before, after)
    ensures Within(after, project, actor, w)
  {
    forall from: Time ensures IntervalSum(after, project, actor, w, from, Admitted) <= w.limit {
      FadingShrinks(before, after, project, actor, w, from);
    }
  }

  /** Every event but a reservation only lets entries fade. */
  lemma OthersFade(s: State, e: Event)
    requires !e.Reserve?
    ensures EntriesFade(s.entries, Step(s, e).0.entries)
  {
    hide EntriesFade, AdvanceStep, SettleStep, FailStep, UnknownStep, PruneStep, DeleteEndpointStep, DropProjectStep;
    NothingFades(s.entries);
    match e
    case Dispatch(id, at) => AdvanceFades(s, id, {Reserved}, Dispatched, at);
    case Deliver(id, at) => AdvanceFades(s, id, {Dispatched, Unknown}, Delivered, at);
    case MarkUnknown(id, at) => UnknownFades(s, id, at);
    case Settle(id, usage, at) => SettleFades(s, id, usage, at);
    case Fail(id, at) => FailFades(s, id, at);
    case Expire(id, at) => FailFades(s, id, at); UnknownFades(s, id, at);
    case Prune(id, at) => PruneFades(s, id, at);
    case DeleteEndpoint(endpoint) => DeleteEndpointFades(s, endpoint);
    case CreateProject(project) =>
    case DropProject(project) => DropProjectFades(s, project);
    case SetPolicy(project, policy) =>
    case SetActive(project, active) =>
  }

  lemma NothingFades(entries: map<Id, Entry>)
    ensures EntriesFade(entries, entries)
  {
  }

  lemma AdvanceFades(s: State, id: Id, allowed: set<Status>, to: Status, at: Time)
    requires Settled !in allowed && Failed !in allowed && to != Settled && to != Failed
    ensures EntriesFade(s.entries, AdvanceStep(s, id, allowed, to, at).0.entries)
  {
  }

  lemma PruneFades(s: State, id: Id, before: Time)
    ensures EntriesFade(s.entries, PruneStep(s, id, before).0.entries)
  {
  }

  lemma DeleteEndpointFades(s: State, endpoint: Id)
    ensures EntriesFade(s.entries, DeleteEndpointStep(s, endpoint).0.entries)
  {
  }

  lemma DropProjectFades(s: State, project: Id)
    ensures EntriesFade(s.entries, DropProjectStep(s, project).0.entries)
  {
  }

  lemma SettleFades(s: State, id: Id, usage: Option<Usage>, at: Time)
    ensures EntriesFade(s.entries, SettleStep(s, id, usage, at).0.entries)
  {
  }

  lemma UnknownFades(s: State, id: Id, at: Time)
    ensures EntriesFade(s.entries, UnknownStep(s, id, at).0.entries)
  {
  }

  lemma FailFades(s: State, id: Id, at: Time)
    ensures EntriesFade(s.entries, FailStep(s, id, at).0.entries)
  {
    UnknownFades(s, id, at);
  }

  lemma StepStaysWithin(s: State, e: Event, project: Id, actor: Option<Id>, w: Window)
    requires Within(s.entries, project, actor, w)
    requires project in s.policies ==> w in s.policies[project].windows
    ensures Within(Step(s, e).0.entries, project, actor, w)
  {
    if e.Reserve? {
      ReserveStaysWithin(s, e.input, project, actor, w);
    } else {
      OthersFade(s, e);
      FadingStaysWithin(s.entries, Step(s, e).0.entries, project, actor, w);
    }
  }

  /* ---------- runs ---------- */

  /** The window is part of the project's policy in every state in which an event of `es` happens. */
  ghost predicate Enforced(s: State, es: seq<Event>, project: Id, w: Window)
    decreases |es|
  {
    es == [] || ((project in s.policies ==> w in s.policies[project].windows) && Enforced(Step(s, es[0]).0, es[1..], project, w))
  }

  lemma {:induction false} RunsStayWithin(s: State, es: seq<Event>, project: Id, actor: Option<Id>, w: Window)
    requires Within(s.entries, project, actor, w) && Enforced(s, es, project, w)
    ensures Within(After(s, es).entries, project, actor, w)
    decreases |es|
  {
    if es != [] {
      StepStaysWithin(s, es[0], project, actor, w);
      RunsStayWithin(Step(s, es[0]).0, es[1..], project, actor, w);
    }
  }

  /** A ledger without entries of the project is within every window. */
  lemma FreshIsWithin(entries: map<Id, Entry>, project: Id, actor: Option<Id>, w: Window)
    requires forall k :: k in entries ==> entries[k].project != project
    ensures Within(entries, project, actor, w)
  {
    forall from: Time ensures IntervalSum(entries, project, actor, w, from, Admitted) <= w.limit {
      SumDrop(entries.Keys, entries.Keys, IntervalTerm(entries, project, actor, w, from, Admitted));
      assert entries.Keys - entries.Keys == {};
    }
  }

  function Admissions(entries: map<Id, Entry>, project: Id, actor: Option<Id>, w: Window, from: Time): set<Id> {
    set k | k in entries && InInterval(entries[k], project, actor, w, from)
  }

  /** The rate limit: in no interval of the window's length are there more requests than the limit. */
  lemma RequestsAreLimited(s: State, es: seq<Event>, project: Id, actor: Option<Id>, w: Window, from: Time)
    requires w.metric.Requests? && Within(s.entries, project, actor, w) && Enforced(s, es, project, w)
    ensures |Admissions(After(s, es).entries, project, actor, w, from)| <= w.limit
  {
    RunsStayWithin(s, es, project, actor, w);
    var entries := After(s, es).entries;
    SumCounts(entries.Keys, Admissions(entries, project, actor, w, from), IntervalTerm(entries, project, actor, w, from, Admitted));
    assert IntervalSum(entries, project, actor, w, from, Admitted) <= w.limit;
  }

  /** Tokens and cost stay within the limit but for what settlements reported beyond their reservations. */
  lemma SpendIsLimited(s: State, es: seq<Event>, project: Id, actor: Option<Id>, w: Window, from: Time)
    requires Within(s.entries, project, actor, w) && Enforced(s, es, project, w)
    ensures var entries := After(s, es).entries;
            IntervalSum(entries, project, actor, w, from, Whole) <= w.limit + IntervalSum(entries, project, actor, w, from, Excess)
  {
    RunsStayWithin(s, es, project, actor, w);
    var entries := After(s, es).entries;
    SumPlus(entries.Keys, IntervalTerm(entries, project, actor, w, from, Admitted), IntervalTerm(entries, project, actor, w, from, Excess),
            IntervalTerm(entries, project, actor, w, from, Whole));
    assert IntervalSum(entries, project, actor, w, from, Admitted) <= w.limit;
  }
}
