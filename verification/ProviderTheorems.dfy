/** Conservation of the provider totals and the rolling limits, over every run of the ledger. */
module ProviderTheorems {
  import opened Basics
  import opened Sums
  import opened ProviderLedger

  lemma AccountedAfter(s: State, id: Id, e: Entry, p: Id, m: Metric)
    requires id in s.entries && e.project == s.entries[id].project && p in s.pruned
    ensures Accounted(s.(entries := s.entries[id := e]), p, m)
              == Accounted(s, p, m) + (if p == e.project then Contribution(e, m) - Contribution(s.entries[id], m) else 0)
  {
    assert s.entries[id := e].Keys == s.entries.Keys;
    SumChange(s.entries.Keys, ProjectTerm(s.entries, p, m), ProjectTerm(s.entries[id := e], p, m), id);
  }

  /** A stored entry is part of its project's account. */
  lemma AccountCovers(s: State, id: Id, m: Metric)
    requires id in s.entries && s.entries[id].project in s.pruned
    ensures Accounted(s, s.entries[id].project, m) >= Contribution(s.entries[id], m)
  {
    var term := ProjectTerm(s.entries, s.entries[id].project, m);
    SumTake(s.entries.Keys, term, id);
    SumNonNegative(s.entries.Keys - {id}, term);
  }

  /** Replacing an entry keeps the books when its project's total moves by the difference of the contributions. */
  lemma ReplacementConserves(s: State, id: Id, e: Entry, t: Totals)
    requires Conserved(s) && id in s.entries && e.project == s.entries[id].project
    requires forall m: Metric :: t.Of(m) == s.totals[e.project].Of(m) + Contribution(e, m) - Contribution(s.entries[id], m)
    ensures Conserved(s.(entries := s.entries[id := e], totals := s.totals[e.project := t]))
  {
    var s' := s.(entries := s.entries[id := e], totals := s.totals[e.project := t]);
    forall p, m | p in s'.totals ensures s'.totals[p].Of(m) == Accounted(s', p, m) {
      AccountedAfter(s, id, e, p, m);
      assert Accounted(s', p, m) == Accounted(s.(entries := s.entries[id := e]), p, m);
      assert s.totals[p].Of(m) == Accounted(s, p, m);
    }
  }

  /** An entry that changes without changing what it counts for. */
  lemma QuietReplacementConserves(s: State, id: Id, e: Entry)
    requires Conserved(s) && id in s.entries && e.project == s.entries[id].project
    requires forall m: Metric :: Contribution(e, m) == Contribution(s.entries[id], m)
    ensures Conserved(s.(entries := s.entries[id := e]))
  {
    ReplacementConserves(s, id, e, s.totals[e.project]);
    assert s.totals[e.project := s.totals[e.project]] == s.totals;
  }

  /** The clamp of a refund never changes a value: the reservation is still in the total. */
  lemma RefundIsExact(s: State, id: Id)
    requires Conserved(s) && id in s.entries && s.entries[id].status.Reserved?
    ensures s.entries[id].project in s.totals
    ensures var e := s.entries[id]; var t := s.totals[e.project];
            Refunded(t, e) == Totals(t.requests - 1, t.tokens - e.tokens, t.cost - e.cost)
  {
    forall m: Metric ensures s.totals[s.entries[id].project].Of(m) >= Contribution(s.entries[id], m) {
      AccountCovers(s, id, m);
      assert s.totals[s.entries[id].project].Of(m) == Accounted(s, s.entries[id].project, m);
    }
    var t := s.totals[s.entries[id].project];
    assert t.Of(Requests) == t.requests && t.Of(Tokens) == t.tokens && t.Of(Cost) == t.cost;
  }

  /** Nor does the clamp of a settlement. */
  lemma CorrectionIsExact(s: State, id: Id, usage: Usage)
    requires Conserved(s) && id in s.entries && !s.entries[id].status.Settled? && !s.entries[id].status.Failed?
    ensures s.entries[id].project in s.totals
    ensures var e := s.entries[id]; var t := s.totals[e.project];
            Corrected(t, e, usage) == Totals(t.requests, t.tokens + Correction(usage.tokens, e.tokens), t.cost + Correction(usage.cost, e.cost))
  {
    forall m: Metric ensures s.totals[s.entries[id].project].Of(m) >= Contribution(s.entries[id], m) {
      AccountCovers(s, id, m);
      assert s.totals[s.entries[id].project].Of(m) == Accounted(s, s.entries[id].project, m);
    }
    var t := s.totals[s.entries[id].project];
    assert t.Of(Tokens) == t.tokens && t.Of(Cost) == t.cost;
  }

  /** A new reservation adds what it reserves to its project's account and nothing to any other. */
  lemma AccountedWithNew(s: State, id: Id, e: Entry, p: Id, m: Metric)
    requires id !in s.entries && p in s.pruned
    ensures Accounted(s.(entries := s.entries[id := e]), p, m) == Accounted(s, p, m) + if p == e.project then Contribution(e, m) else 0
  {
    var entries := s.entries[id := e];
    assert entries.Keys == s.entries.Keys + {id};
    SumAdd(s.entries.Keys, ProjectTerm(entries, p, m), id);
    SumSame(s.entries.Keys, ProjectTerm(s.entries, p, m), ProjectTerm(entries, p, m));
  }

  lemma ReserveConserves(s: State, i: ReserveInput)
    requires Conserved(s)
    ensures Conserved(ReserveStep(s, i).0)
  {
    hide WindowsGate, ProjectGate;
    var (s', o) := ReserveStep(s, i);
    if o.Applied? {
      forall p, m | p in s'.totals ensures s'.totals[p].Of(m) == Accounted(s', p, m) {
        assert s.totals[p].Of(m) == Accounted(s, p, m);
        AccountedWithNew(s, i.id, NewEntry(i), p, m);
      }
    }
  }

  lemma AdvanceConserves(s: State, id: Id, allowed: set<Status>, to: Status, at: Time)
    requires Conserved(s) && Settled !in allowed && Failed !in allowed && to != Settled && to != Failed
    ensures Conserved(AdvanceStep(s, id, allowed, to, at).0)
  {
    var (s', o) := AdvanceStep(s, id, allowed, to, at);
    if o.Applied? { QuietReplacementConserves(s, id, s'.entries[id]); }
  }

  lemma UnknownConserves(s: State, id: Id, at: Time)
    requires Conserved(s)
    ensures Conserved(UnknownStep(s, id, at).0)
  {
    var (s', o) := UnknownStep(s, id, at);
    if o.Applied? { QuietReplacementConserves(s, id, s'.entries[id]); }
  }

  lemma SettleConserves(s: State, id: Id, usage: Option<Usage>, at: Time)
    requires Conserved(s)
    ensures Conserved(SettleStep(s, id, usage, at).0)
  {
    var (s', o) := SettleStep(s, id, usage, at);
    if o.Applied? {
      CorrectionIsExact(s, id, usage.value);
      ReplacementConserves(s, id, s'.entries[id], s'.totals[s.entries[id].project]);
    }
  }

  lemma FailConserves(s: State, id: Id, at: Time)
    requires Conserved(s)
    ensures Conserved(FailStep(s, id, at).0)
  {
    UnknownConserves(s, id, at);
    if id in s.entries && s.entries[id].status.Reserved? {
      var s' := FailStep(s, id, at).0;
      RefundIsExact(s, id);
      ReplacementConserves(s, id, s'.entries[id], s'.totals[s.entries[id].project]);
    }
  }

  /** Pruning moves an entry from the ledger into history. */
  lemma PruneConserves(s: State, id: Id, before: Time)
    requires Conserved(s)
    ensures Conserved(PruneStep(s, id, before).0)
  {
    var (s', o) := PruneStep(s, id, before);
    if o.Applied? {
      var e := s.entries[id];
      forall p, m | p in s'.totals ensures s'.totals[p].Of(m) == Accounted(s', p, m) {
        assert s.totals[p].Of(m) == Accounted(s, p, m);
        SumTake(s.entries.Keys, ProjectTerm(s.entries, p, m), id);
        assert s'.entries.Keys == s.entries.Keys - {id};
        SumSame(s'.entries.Keys, ProjectTerm(s.entries, p, m), ProjectTerm(s'.entries, p, m));
        if p == e.project { assert s'.pruned[p][..|s'.pruned[p]| - 1] == s.pruned[p]; }
      }
    }
  }

  lemma AccountedDetached(s: State, endpoint: Id, p: Id, m: Metric)
    requires p in s.pruned
    ensures Accounted(DeleteEndpointStep(s, endpoint).0, p, m) == Accounted(s, p, m)
  {
    var s' := DeleteEndpointStep(s, endpoint).0;
    assert s'.entries.Keys == s.entries.Keys;
    SumSame(s.entries.Keys, ProjectTerm(s.entries, p, m), ProjectTerm(s'.entries, p, m));
  }

  lemma DeleteEndpointConserves(s: State, endpoint: Id)
    requires Conserved(s)
    ensures Conserved(DeleteEndpointStep(s, endpoint).0)
  {
    hide Accounted;
    var s' := DeleteEndpointStep(s, endpoint).0;
    forall p, m | p in s'.totals ensures s'.totals[p].Of(m) == Accounted(s', p, m) {
      assert s.totals[p].Of(m) == Accounted(s, p, m);
      AccountedDetached(s, endpoint, p, m);
    }
  }

  lemma CreateProjectConserves(s: State, project: Id)
    requires Conserved(s)
    ensures Conserved(CreateProjectStep(s, project).0)
  {
    var (s', o) := CreateProjectStep(s, project);
    if o.Applied? {
      forall p, m | p in s'.totals ensures s'.totals[p].Of(m) == Accounted(s', p, m) {
        if p == project {
          SumDrop(s.entries.Keys, s.entries.Keys, ProjectTerm(s.entries, p, m));
          assert s.entries.Keys - s.entries.Keys == {};
        } else {
          assert s.totals[p].Of(m) == Accounted(s, p, m);
        }
      }
    }
  }

  lemma AccountedWithout(s: State, project: Id, p: Id, m: Metric)
    requires p in s.pruned && p != project
    ensures Accounted(DropProjectStep(s, project).0, p, m) == Accounted(s, p, m)
  {
    var s' := DropProjectStep(s, project).0;
    var dropped := set k | k in s.entries && s.entries[k].project == project;
    assert s'.entries.Keys == s.entries.Keys - dropped;
    SumDrop(s.entries.Keys, dropped, ProjectTerm(s.entries, p, m));
    SumSame(s'.entries.Keys, ProjectTerm(s.entries, p, m), ProjectTerm(s'.entries, p, m));
  }

  lemma DropProjectConserves(s: State, project: Id)
    requires Conserved(s)
    ensures Conserved(DropProjectStep(s, project).0)
  {
    hide Accounted;
    var s' := DropProjectStep(s, project).0;
    forall p, m | p in s'.totals ensures s'.totals[p].Of(m) == Accounted(s', p, m) {
      assert s.totals[p].Of(m) == Accounted(s, p, m);
      AccountedWithout(s, project, p, m);
    }
  }

  lemma StepConserves(s: State, e: Event)
    requires Conserved(s)
    ensures Conserved(Step(s, e).0)
  {
    match e
    case Reserve(i) => ReserveConserves(s, i);
    case Dispatch(id, at) => AdvanceConserves(s, id, {Reserved}, Dispatched, at);
    case Deliver(id, at) => AdvanceConserves(s, id, {Dispatched, Unknown}, Delivered, at);
    case MarkUnknown(id, at) => UnknownConserves(s, id, at);
    case Settle(id, usage, at) => SettleConserves(s, id, usage, at);
    case Fail(id, at) => FailConserves(s, id, at);
    case Expire(id, at) => FailConserves(s, id, at); UnknownConserves(s, id, at);
    case Prune(id, at) => PruneConserves(s, id, at);
    case DeleteEndpoint(endpoint) => DeleteEndpointConserves(s, endpoint);
    case CreateProject(project) => CreateProjectConserves(s, project);
    case DropProject(project) => DropProjectConserves(s, project);
    case SetPolicy(project, policy) => OnlyTotalsMatter(s, Step(s, e).0);
    case SetActive(project, active) => OnlyTotalsMatter(s, Step(s, e).0);
  }

  lemma OnlyTotalsMatter(s: State, s': State)
    requires Conserved(s) && s'.totals == s.totals && s'.entries == s.entries && s'.pruned == s.pruned
    ensures Conserved(s')
  {
    forall p, m | p in s'.totals ensures s'.totals[p].Of(m) == Accounted(s', p, m) {
      assert s.totals[p].Of(m) == Accounted(s, p, m);
    }
  }

  /** Every run of the ledger keeps the totals equal to what its entries, stored and pruned, contribute. */
  lemma {:induction false} RunsConserve(s: State, es: seq<Event>)
    requires Conserved(s)
    ensures Conserved(After(s, es))
    decreases |es|
  {
    if es != [] {
      StepConserves(s, es[0]);
      RunsConserve(Step(s, es[0]).0, es[1..]);
    }
  }
}
