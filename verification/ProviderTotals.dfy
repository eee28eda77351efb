/** The limits on a project's totals and the life of a reservation, over every run of the ledger. */
module ProviderTotals {
  import opened Basics
  import opened Sums
  import opened ProviderLedger
  import opened ProviderTheorems

  /* ---------- what a reservation needs ---------- */

  /** What the entries of the same actor on the window's endpoint have spent since the window began. */
  function SpentTerm(entries: map<Id, Entry>, i: ReserveInput, w: Window): Id -> int {
    (k: Id) =>
      if k in entries && entries[k].project == i.project && entries[k].endpoint == Some(w.endpoint) && entries[k].actor == i.actor
         && entries[k].status != Failed && entries[k].reservedAt >= i.reservedAt - 1000 * w.seconds
      then match w.metric
           case Requests => 1
           case Tokens => Spent(entries[k]).0
           case Cost => Spent(entries[k]).1
      else 0
  }

  /** Tokens and cost of an entry: what was reported, where it was settled with a report, and what was reserved otherwise. */
  function Spent(e: Entry): (nat, nat) {
    (if e.status == Settled && e.usage.tokens.Some? then e.usage.tokens.value else e.tokens,
     if e.status == Settled && e.usage.cost.Some? then e.usage.cost.value else e.cost)
  }

  ghost predicate LeavesRoom(entries: map<Id, Entry>, i: ReserveInput, w: Window) {
    Sum(entries.Keys, SpentTerm(entries, i, w)) + (match w.metric case Requests => 1 case Tokens => i.tokens case Cost => i.cost) <= w.limit
  }

  predicate WithinLimits(p: Policy, requests: int, tokens: int, cost: int) {
    && (p.requests.Some? ==> requests <= p.requests.value)
    && (p.tokens.Some? ==> tokens <= p.tokens.value)
    && (p.cost.Some? ==> cost <= p.cost.value)
  }

  lemma RoomIsGate(entries: map<Id, Entry>, i: ReserveInput, w: Window)
    ensures WindowGate(entries, w, i) <==> (i.endpoint == Some(w.endpoint) ==> LeavesRoom(entries, i, w))
  {
    hide Sum;
    SumSame(entries.Keys, SpentTerm(entries, i, w),
            WindowTerm(entries, i.project, w.endpoint, i.actor, i.reservedAt - 1000 * w.seconds, w.metric));
  }

  /**
   A reservation is applied exactly if its project is active, all three totals are within their limits with it, every
   window of its endpoint has room for it, and its identifier is free; it then adds to the totals what it reserves.
   */
  lemma ReservationIff(s: State, i: ReserveInput)
    ensures
      var (s', o) := ReserveStep(s, i);
      var admitted :=
        i.project in s.active && i.project in s.policies && i.project in s.totals
        && WithinLimits(s.policies[i.project], s.totals[i.project].requests + 1, s.totals[i.project].tokens + i.tokens, s.totals[i.project].cost + i.cost)
        && forall w :: w in s.policies[i.project].windows && i.endpoint == Some(w.endpoint) ==> LeavesRoom(s.entries, i, w);
      (o == if !admitted then Refused else if i.id in s.entries then Aborted else Applied)
      && (!o.Applied? ==> s' == s)
      && (o.Applied? ==>
            s' == s.(totals := s.totals[i.project := Totals(s.totals[i.project].requests + 1, s.totals[i.project].tokens + i.tokens,
                                                            s.totals[i.project].cost + i.cost)],
                     entries := s.entries[i.id := Entry(i.project, i.endpoint, i.actor, i.tokens, i.cost, Reserved, i.reservedAt, i.expiresAt,
                                                        i.reservedAt, Usage(None, None))]))
  {
    hide WindowGate, LeavesRoom;
    forall w ensures WindowGate(s.entries, w, i) <==> (i.endpoint == Some(w.endpoint) ==> LeavesRoom(s.entries, i, w)) {
      RoomIsGate(s.entries, i, w);
    }
  }

  /* ---------- the totals over runs ---------- */

  /** What the provider reported beyond the reservation. */
  function Beyond(e: Entry, m: Metric): nat {
    match m
    case Requests => 0
    case Tokens => if Spent(e).0 > e.tokens then Spent(e).0 - e.tokens else 0
    case Cost => if Spent(e).1 > e.cost then Spent(e).1 - e.cost else 0
  }

  function BeyondTerm(entries: map<Id, Entry>, project: Id, m: Metric): Id -> int {
    (k: Id) => if k in entries && entries[k].project == project then Beyond(entries[k], m) else 0
  }

  ghost function PrunedBeyond(pruned: seq<Entry>, m: Metric): nat {
    if pruned == [] then 0 else PrunedBeyond(pruned[..|pruned| - 1], m) + Beyond(pruned[|pruned| - 1], m)
  }

  /** The overshoot of a project: of the entries it has and of those it had. */
  ghost function Overshoot(s: State, p: Id, m: Metric): int
    requires p in s.pruned
  {
    PrunedBeyond(s.pruned[p], m) + Sum(s.entries.Keys, BeyondTerm(s.entries, p, m))
  }

  function LimitOf(p: Policy, m: Metric): Option<nat> {
    match m
    case Requests => p.requests
    case Tokens => p.tokens
    case Cost => p.cost
  }

  ghost predicate Limited(s: State, p: Id, m: Metric, limit: nat) {
    p in s.totals ==> p in s.pruned && s.totals[p].Of(m) <= limit + Overshoot(s, p, m)
  }

  /** What stands below the limit does not rise, but for a reservation of the project. */
  ghost predicate Sinks(s: State, s': State, p: Id, m: Metric) {
    p in s.totals && p in s'.totals && p in s.pruned && p in s'.pruned
    ==> s'.totals[p].Of(m) - Overshoot(s', p, m) <= s.totals[p].Of(m) - Overshoot(s, p, m)
  }

  lemma OvershootIsNotNegative(s: State, p: Id, m: Metric)
    requires p in s.pruned
    ensures Overshoot(s, p, m) >= 0
  {
    SumNonNegative(s.entries.Keys, BeyondTerm(s.entries, p, m));
  }

  lemma OvershootAfter(s: State, id: Id, e: Entry, p: Id, m: Metric)
    requires id in s.entries && e.project == s.entries[id].project && p in s.pruned
    ensures Overshoot(s.(entries := s.entries[id := e]), p, m)
              == Overshoot(s, p, m) + if p == e.project then Beyond(e, m) - Beyond(s.entries[id], m) else 0
  {
    assert s.entries[id := e].Keys == s.entries.Keys;
    SumChange(s.entries.Keys, BeyondTerm(s.entries, p, m), BeyondTerm(s.entries[id := e], p, m), id);
  }

  /** The overshoot depends on entries and history alone. */
  lemma SameOvershoot(s: State, s': State, p: Id, m: Metric)
    requires p in s.pruned && s'.entries == s.entries && s'.pruned == s.pruned
    ensures Overshoot(s', p, m) == Overshoot(s, p, m)
  {
  }

  lemma ReplacementSinks(s: State, s': State, id: Id, p: Id, m: Metric)
    requires id in s.entries && id in s'.entries && s'.entries == s.entries[id := s'.entries[id]] && s'.pruned == s.pruned
    requires s'.entries[id].project == s.entries[id].project
    requires p in s.totals && p in s'.totals ==>
               s'.totals[p].Of(m) - s.totals[p].Of(m)
                 <= if p == s.entries[id].project then Beyond(s'.entries[id], m) - Beyond(s.entries[id], m) else 0
    ensures Sinks(s, s', p, m)
  {
    if p in s.pruned {
      OvershootAfter(s, id, s'.entries[id], p, m);
      SameOvershoot(s.(entries := s'.entries), s', p, m);
    }
  }

  lemma ReserveIsLimited(s: State, i: ReserveInput, p: Id, m: Metric, limit: nat)
    requires Conserved(s) && Limited(s, p, m, limit) && (p in s.policies ==> LimitOf(s.policies[p], m) == Some(limit))
    ensures Limited(ReserveStep(s, i).0, p, m, limit)
  {
    hide Conserved, ReserveStep, LeavesRoom, Overshoot;
    var s' := ReserveStep(s, i).0;
    ReservationIff(s, i);
    if s' != s && p in s'.totals {
      PrunedOfKnown(s, p);
      if i.project == p { OvershootIsNotNegative(s', p, m); } else { OvershootWithNew(s, s', i.id, p, m); }
    }
  }

  lemma PrunedOfKnown(s: State, p: Id)
    requires Conserved(s)
    ensures p in s.totals ==> p in s.pruned
  {
  }

  lemma OvershootWithNew(s: State, s': State, id: Id, p: Id, m: Metric)
    requires p in s.pruned && id !in s.entries && id in s'.entries && s'.entries == s.entries[id := s'.entries[id]] && s'.pruned == s.pruned
    requires s'.entries[id].project != p
    ensures Overshoot(s', p, m) == Overshoot(s, p, m)
  {
    var entries := s'.entries;
    assert entries.Keys == s.entries.Keys + {id};
    SameBeyond(s.entries, entries, id, p, m);
    hide Beyond, BeyondTerm, PrunedBeyond, Sum;
    SumAdd(s.entries.Keys, BeyondTerm(entries, p, m), id);
    SumSame(s.entries.Keys, BeyondTerm(s.entries, p, m), BeyondTerm(entries, p, m));
  }

  /** An entry of another project adds nothing. */
  lemma SameBeyond(before: map<Id, Entry>, after: map<Id, Entry>, id: Id, p: Id, m: Metric)
    requires id !in before && id in after && after == before[id := after[id]] && after[id].project != p
    ensures BeyondTerm(after, p, m)(id) == 0 && forall k :: k in before.Keys ==> BeyondTerm(before, p, m)(k) == BeyondTerm(after, p, m)(k)
  {
    hide Beyond;
  }

  lemma AdvanceSinks(s: State, id: Id, allowed: set<Status>, to: Status, at: Time, p: Id, m: Metric)
    requires Settled !in allowed && to != Settled
    ensures Sinks(s, AdvanceStep(s, id, allowed, to, at).0, p, m)
  {
    var (s', o) := AdvanceStep(s, id, allowed, to, at);
    hide Sinks, Overshoot;
    if o.Applied? { ReplacementSinks(s, s', id, p, m); } else { NothingSinks(s, p, m); }
  }

  lemma NothingSinks(s: State, p: Id, m: Metric)
    ensures Sinks(s, s, p, m)
  {
  }

  lemma UnknownSinks(s: State, id: Id, at: Time, p: Id, m: Metric)
    ensures Sinks(s, UnknownStep(s, id, at).0, p, m)
  {
    var (s', o) := UnknownStep(s, id, at);
    hide Sinks, Overshoot;
    if o.Applied? { ReplacementSinks(s, s', id, p, m); } else { NothingSinks(s, p, m); }
  }

  lemma SettleSinks(s: State, id: Id, usage: Option<Usage>, at: Time, p: Id, m: Metric)
    requires Conserved(s)
    ensures Sinks(s, SettleStep(s, id, usage, at).0, p, m)
  {
    var (s', o) := SettleStep(s, id, usage, at);
    hide Sinks, Overshoot, Conserved;
    if o.Applied? {
      CorrectionIsExact(s, id, usage.value);
      ReplacementSinks(s, s', id, p, m);
    } else {
      NothingSinks(s, p, m);
    }
  }

  lemma FailSinks(s: State, id: Id, at: Time, p: Id, m: Metric)
    requires Conserved(s)
    ensures Sinks(s, FailStep(s, id, at).0, p, m)
  {
    hide Sinks, Overshoot, Conserved;
    UnknownSinks(s, id, at, p, m);
    NothingSinks(s, p, m);
    if id in s.entries && s.entries[id].status.Reserved? {
      RefundIsExact(s, id);
      ReplacementSinks(s, FailStep(s, id, at).0, id, p, m);
    }
  }

  lemma PruneSinks(s: State, id: Id, before: Time, p: Id, m: Metric)
    ensures Sinks(s, PruneStep(s, id, before).0, p, m)
  {
    hide Beyond, Prunable;
    var (s', o) := PruneStep(s, id, before);
    if o.Applied? && p in s.totals && p in s.pruned {
      SumTake(s.entries.Keys, BeyondTerm(s.entries, p, m), id);
      assert s'.entries.Keys == s.entries.Keys - {id};
      SumSame(s'.entries.Keys, BeyondTerm(s.entries, p, m), BeyondTerm(s'.entries, p, m));
      if p == s.entries[id].project { assert s'.pruned[p][..|s'.pruned[p]| - 1] == s.pruned[p]; }
    }
  }

  lemma DeleteEndpointSinks(s: State, endpoint: Id, p: Id, m: Metric)
    ensures Sinks(s, DeleteEndpointStep(s, endpoint).0, p, m)
  {
    var s' := DeleteEndpointStep(s, endpoint).0;
    assert s'.entries.Keys == s.entries.Keys;
    SumSame(s.entries.Keys, BeyondTerm(s.entries, p, m), BeyondTerm(s'.entries, p, m));
  }

  lemma DropProjectSinks(s: State, project: Id, p: Id, m: Metric)
    ensures Sinks(s, DropProjectStep(s, project).0, p, m)
  {
    if p != project {
      var s' := DropProjectStep(s, project).0;
      var dropped := set k | k in s.entries && s.entries[k].project == project;
      assert s'.entries.Keys == s.entries.Keys - dropped;
      SumDrop(s.entries.Keys, dropped, BeyondTerm(s.entries, p, m));
      SumSame(s'.entries.Keys, BeyondTerm(s.entries, p, m), BeyondTerm(s'.entries, p, m));
    }
  }

  lemma StepSinks(s: State, e: Event, p: Id, m: Metric)
    requires Conserved(s) && !e.Reserve?
    ensures Sinks(s, Step(s, e).0, p, m)
  {
    hide Conserved, Sinks, AdvanceStep, SettleStep, FailStep, UnknownStep, PruneStep, DeleteEndpointStep, DropProjectStep;
    NothingSinks(s, p, m);
    match e
    case Dispatch(id, at) => AdvanceSinks(s, id, {Reserved}, Dispatched, at, p, m);
    case Deliver(id, at) => AdvanceSinks(s, id, {Dispatched, Unknown}, Delivered, at, p, m);
    case MarkUnknown(id, at) => UnknownSinks(s, id, at, p, m);
    case Settle(id, usage, at) => SettleSinks(s, id, usage, at, p, m);
    case Fail(id, at) => FailSinks(s, id, at, p, m);
    case Expire(id, at) => FailSinks(s, id, at, p, m); UnknownSinks(s, id, at, p, m);
    case Prune(id, at) => PruneSinks(s, id, at, p, m);
    case DeleteEndpoint(endpoint) => DeleteEndpointSinks(s, endpoint, p, m);
    case CreateProject(project) => OthersSink(s, Step(s, e).0, p, m);
    case DropProject(project) => DropProjectSinks(s, project, p, m);
    case SetPolicy(project, policy) => OthersSink(s, Step(s, e).0, p, m);
    case SetActive(project, active) => OthersSink(s, Step(s, e).0, p, m);
  }

  lemma OthersSink(s: State, s': State, p: Id, m: Metric)
    requires s'.entries == s.entries
    requires p in s.totals ==> p in s'.totals && s'.totals[p] == s.totals[p] && (p in s.pruned ==> p in s'.pruned && s'.pruned[p] == s.pruned[p])
    ensures Sinks(s, s', p, m)
  {
  }

  /** A total appears with nothing on it. */
  lemma NewTotalIsZero(s: State, e: Event, p: Id)
    requires p !in s.totals && p in Step(s, e).0.totals
    ensures Step(s, e).0.totals[p] == Totals(0, 0, 0)
  {
    hide ReserveStep, WindowsGate;
    if e.Reserve? { ReservationIff(s, e.input); }
  }

  lemma StepIsLimited(s: State, e: Event, p: Id, m: Metric, limit: nat)
    requires Conserved(s) && Limited(s, p, m, limit) && (p in s.policies ==> LimitOf(s.policies[p], m) == Some(limit))
    ensures Limited(Step(s, e).0, p, m, limit)
  {
    hide Conserved, Overshoot, Step;
    var s' := Step(s, e).0;
    StepConserves(s, e);
    PrunedOfKnown(s, p);
    PrunedOfKnown(s', p);
    if e.Reserve? {
      assert s' == ReserveStep(s, e.input).0 by { ReserveIs(s, e); }
      ReserveIsLimited(s, e.input, p, m, limit);
    } else if p in s'.totals {
      StepSinks(s, e, p, m);
      if p !in s.totals {
        NewTotalIsZero(s, e, p);
        OvershootIsNotNegative(s', p, m);
      }
    }
  }

  lemma ReserveIs(s: State, e: Event)
    requires e.Reserve?
    ensures Step(s, e) == ReserveStep(s, e.input)
  {
  }

  /** The limits of the project are these in every state in which an event of `es` happens. */
  ghost predicate LimitsStand(s: State, es: seq<Event>, p: Id, limits: Policy)
    decreases |es|
  {
    es == [] || ((p in s.policies ==> s.policies[p].requests == limits.requests && s.policies[p].tokens == limits.tokens && s.policies[p].cost == limits.cost)
                 && LimitsStand(Step(s, es[0]).0, es[1..], p, limits))
  }

  lemma {:induction false} RunsAreLimited(s: State, es: seq<Event>, p: Id, m: Metric, limits: Policy)
    requires Conserved(s) && LimitsStand(s, es, p, limits) && LimitOf(limits, m).Some? && Limited(s, p, m, LimitOf(limits, m).value)
    ensures Limited(After(s, es), p, m, LimitOf(limits, m).value)
    decreases |es|
  {
    hide Conserved, Limited, Step;
    if es != [] {
      StepConserves(s, es[0]);
      StepIsLimited(s, es[0], p, m, LimitOf(limits, m).value);
      RunsAreLimited(Step(s, es[0]).0, es[1..], p, m, limits);
    }
  }

  /** The totals of the project are within its limits, but for what was reported beyond the reservations. */
  ghost predicate StaysLimited(s: State, p: Id, limits: Policy) {
    p in s.totals ==>
      p in s.pruned && WithinLimits(limits, s.totals[p].requests, s.totals[p].tokens - Overshoot(s, p, Tokens), s.totals[p].cost - Overshoot(s, p, Cost))
  }

  /**
   While the limits of a project stand, no run takes its requests beyond their limit, nor its tokens and cost beyond
   theirs but for the overshoot of settlements, those of pruned entries included.
   */
  lemma TotalsStayLimited(s: State, es: seq<Event>, p: Id, limits: Policy)
    requires Conserved(s) && LimitsStand(s, es, p, limits) && StaysLimited(s, p, limits)
    ensures StaysLimited(After(s, es), p, limits)
  {
    hide Conserved, After, Step, LimitsStand;
    forall t: State | p in t.pruned ensures Overshoot(t, p, Requests) == 0 { NoRequestBeyond(t, p); }
    if limits.requests.Some? { RunsAreLimited(s, es, p, Requests, limits); }
    if limits.tokens.Some? { RunsAreLimited(s, es, p, Tokens, limits); }
    if limits.cost.Some? { RunsAreLimited(s, es, p, Cost, limits); }
    RunsConserve(s, es);
    PrunedOfKnown(After(s, es), p);
  }

  lemma NoRequestBeyond(s: State, p: Id)
    requires p in s.pruned
    ensures Overshoot(s, p, Requests) == 0
  {
    NoneBeyond(s.pruned[p]);
    SumDrop(s.entries.Keys, s.entries.Keys, BeyondTerm(s.entries, p, Requests));
    assert s.entries.Keys - s.entries.Keys == {};
  }

  lemma {:induction false} NoneBeyond(pruned: seq<Entry>)
    ensures PrunedBeyond(pruned, Requests) == 0
    decreases |pruned|
  {
    if pruned != [] { NoneBeyond(pruned[..|pruned| - 1]); }
  }
}
