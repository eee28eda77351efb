/** The provider ledger as the store keeps it: maps updated in place, with loops over the entries. */
module ProviderStores {
  import opened Basics
  import opened Sums
  import opened ProviderLedger
  import opened ProviderTheorems

  /** A run extended by one event. */
  lemma {:induction false} AfterOneMore(s: State, es: seq<Event>, e: Event)
    ensures After(s, es + [e]) == Step(After(s, es), e).0
    decreases |es|
  {
    if es == [] {
      assert es + [e] == [e] && [e][1..] == [];
    } else {
      assert (es + [e])[1..] == es[1..] + [e];
      AfterOneMore(Step(s, es[0]).0, es[1..], e);
    }
  }

  lemma AfterExpire(s: State, es: seq<Event>, id: Id, now: Time)
    ensures After(s, es + [Event.Expire(id, now)]) == ExpireStep(After(s, es), id, now).0
  {
    AfterOneMore(s, es, Event.Expire(id, now));
  }

  lemma AfterPrune(s: State, es: seq<Event>, id: Id, before: Time)
    ensures After(s, es + [Event.Prune(id, before)]) == PruneStep(After(s, es), id, before).0
  {
    AfterOneMore(s, es, Event.Prune(id, before));
  }

  /** What expiry makes of one entry. */
  function Expired(e: Entry, now: Time): Entry {
    if !Expires(e, now) then e else e.(status := if e.status.Reserved? then Failed else Unknown, updatedAt := now)
  }

  function Expirable(entries: map<Id, Entry>, now: Time): set<Id> {
    set k | k in entries && Expires(entries[k], now)
  }

  function PrunableIds(entries: map<Id, Entry>, before: Time): set<Id> {
    set k | k in entries && Prunable(entries[k], before)
  }

  lemma RollingStep(entries: map<Id, Entry>, project: Id, endpoint: Id, actor: Option<Id>, from: Time, metric: Metric, done: set<Id>, k: Id)
    requires k in entries && k !in done
    ensures var term := WindowTerm(entries, project, endpoint, actor, from, metric);
            Sum(done + {k}, term)
            == Sum(done, term) + if CountsFor(entries[k], project, endpoint, actor) && entries[k].reservedAt >= from then WindowValue(entries[k], metric) else 0
  {
    SumAdd(done, WindowTerm(entries, project, endpoint, actor, from, metric), k);
  }

  /** A sweep at `now` has dealt with every entry but `rest`. */
  ghost predicate Swept(before: map<Id, Entry>, after: map<Id, Entry>, rest: set<Id>, now: Time) {
    after.Keys == before.Keys && forall k :: k in after ==> after[k] == if k in rest then before[k] else Expired(before[k], now)
  }

  /** The sweep fails the reservations whose time has come, loses track of the deliveries whose time has come, and touches nothing else. */
  ghost predicate Takes(before: map<Id, Entry>, after: map<Id, Entry>, now: Time) {
    after.Keys == before.Keys
    && forall k :: k in after ==>
         after[k] == if before[k].expiresAt > now then before[k]
                     else if before[k].status == Reserved then before[k].(status := Failed, updatedAt := now)
                     else if before[k].status in {Dispatched, Delivered} then before[k].(status := Unknown, updatedAt := now)
                     else before[k]
  }

  ghost predicate SweepState(before: map<Id, Entry>, after: map<Id, Entry>, rest: set<Id>, now: Time, count: int) {
    rest <= after.Keys && Swept(before, after, rest, now) && count == |Expirable(before, now) - rest|
  }

  lemma SweepStarts(s: State, now: Time)
    ensures SweepState(s.entries, s.entries, s.entries.Keys, now, 0) && After(s, []) == s
  {
    assert Expirable(s.entries, now) - s.entries.Keys == {};
  }

  lemma SweepEnds(before: map<Id, Entry>, after: map<Id, Entry>, now: Time, count: int)
    requires SweepState(before, after, {}, now, count)
    ensures Takes(before, after, now)
    ensures count == |set k | k in before && before[k].expiresAt <= now && before[k].status in {Reserved, Dispatched, Delivered}|
  {
    assert Expirable(before, now) - {} == Expirable(before, now);
    assert Expirable(before, now) == set k | k in before && before[k].expiresAt <= now && before[k].status in {Reserved, Dispatched, Delivered};
  }

  lemma SweptOne(before: map<Id, Entry>, after: map<Id, Entry>, rest: set<Id>, now: Time, count: int, id: Id)
    requires SweepState(before, after, rest, now, count) && id in rest
    ensures id in after
    ensures SweepState(before, after[id := Expired(after[id], now)], rest - {id}, now, count + if Expires(after[id], now) then 1 else 0)
  {
    OneMore(Expirable(before, now), rest, id);
  }

  /** The prunable entries `gone` are removed; `rest` has not been looked at yet. */
  ghost predicate PrunedSoFar(before: map<Id, Entry>, after: map<Id, Entry>, rest: set<Id>, gone: set<Id>, prunable: set<Id>) {
    rest <= after.Keys && gone <= prunable && gone !! rest && after == before - gone
  }

  /** Only finished entries that nothing has touched lately are forgotten: all of them, or as many as the limit allows. */
  ghost predicate Forgets(all: map<Id, Entry>, after: map<Id, Entry>, gone: set<Id>, before: Time, count: int, limit: int) {
    && (forall k :: k in gone ==> k in all && all[k].updatedAt < before && all[k].status in {Settled, Unknown, Failed})
    && after == all - gone && count == |gone| <= limit
    && (count < limit ==> forall k :: k in after ==> after[k].updatedAt >= before || after[k].status !in {Settled, Unknown, Failed})
  }

  lemma NothingPruned(s: State, before: Time)
    ensures PrunedSoFar(s.entries, s.entries, s.entries.Keys, {}, PrunableIds(s.entries, before))
    ensures PrunableIds(s.entries, before) <= {} + s.entries.Keys && After(s, []) == s
  {
    assert s.entries - {} == s.entries;
  }

  lemma PrunedOne(before: map<Id, Entry>, after: map<Id, Entry>, rest: set<Id>, gone: set<Id>, prunable: set<Id>, id: Id)
    requires PrunedSoFar(before, after, rest, gone, prunable) && id in rest
    ensures id in after && id !in gone && PrunedSoFar(before, after, rest - {id}, gone, prunable)
    ensures id in prunable ==> PrunedSoFar(before, after - {id}, rest - {id}, gone + {id}, prunable) && |gone + {id}| == |gone| + 1
  {
    assert before - (gone + {id}) == before - gone - {id};
  }

  /** Taking one more key into account. */
  lemma OneMore(keys: set<Id>, rest: set<Id>, id: Id)
    requires id in rest
    ensures |keys - (rest - {id})| == |keys - rest| + if id in keys then 1 else 0
  {
    if id in keys {
      assert keys - (rest - {id}) == keys - rest + {id};
    } else {
      assert keys - (rest - {id}) == keys - rest;
    }
  }

  class ProviderStore {
    var active: set<Id>
    var policies: map<Id, Policy>
    var totals: map<Id, Totals>
    var entries: map<Id, Entry>
    ghost var pruned: map<Id, seq<Entry>>

    ghost function View(): State
      reads this
    {
      State(active, policies, totals, entries, pruned)
    }

    ghost predicate Valid()
      reads this
    {
      Conserved(View())
    }

    constructor ()
      ensures View() == State({}, map[], map[], map[], map[]) && Valid()
    {
      active, policies, totals, entries, pruned := {}, map[], map[], map[], map[];
    }

    method CreateProject(project: Id)
      requires Valid()
      modifies this
      ensures View() == CreateProjectStep(old(View()), project).0 && Valid()
    {
      hide Conserved;
      CreateProjectConserves(View(), project);
      if project in totals { return; }
      active := active + {project};
      policies := policies[project := Policy(None, None, None, [])];
      totals := totals[project := Totals(0, 0, 0)];
      pruned := pruned[project := []];
    }

    /* ---------- reservation ---------- */

    /** The rolling sum of one actor on one endpoint since `from`, entry by entry. */
    method RollingSum(project: Id, endpoint: Id, actor: Option<Id>, from: Time, metric: Metric) returns (sum: int)
      ensures sum == WindowSum(entries, project, endpoint, actor, from, metric)
    {
      sum := 0;
      var keys, done := entries.Keys, {};
      while done != keys
        invariant done <= keys && sum == Sum(done, WindowTerm(entries, project, endpoint, actor, from, metric))
        decreases keys - done
      {
        hide Sum, WindowTerm, CountsFor;
        var k :| k in keys && k !in done;
        RollingStep(entries, project, endpoint, actor, from, metric, done, k);
        var e := entries[k];
        if CountsFor(e, project, endpoint, actor) && e.reservedAt >= from {
          sum := sum + WindowValue(e, metric);
        }
        done := done + {k};
      }
    }

    /** Every window of the endpoint leaves room for the reservation. */
    method WindowsAllow(windows: seq<Window>, i: ReserveInput) returns (ok: bool)
      ensures ok <==> forall w :: w in windows ==> WindowGate(entries, w, i)
    {
      for j := 0 to |windows|
        invariant forall w :: w in windows[..j] ==> WindowGate(entries, w, i)
      {
        var w := windows[j];
        if i.endpoint == Some(w.endpoint) {
          var current := RollingSum(i.project, w.endpoint, i.actor, i.reservedAt - w.seconds * 1000, w.metric);
          var requested := match w.metric case Requests => 1 case Tokens => i.tokens case Cost => i.cost;
          assert WindowGate(entries, w, i) <==> current + requested <= w.limit;
          if current + requested > w.limit { return false; }
        }
        assert windows[..j + 1] == windows[..j] + [w];
      }
      assert windows[..|windows|] == windows;
      return true;
    }

    method Reserve(i: ReserveInput) returns (o: Outcome)
      requires Valid()
      modifies this
      ensures (View(), o) == ReserveStep(old(View()), i) && Valid()
    {
      hide Conserved, WindowGate;
      ReserveConserves(View(), i);
      if i.project !in active || i.project !in policies || i.project !in totals { return Refused; }
      var policy, t := policies[i.project], totals[i.project];
      if policy.requests.Some? && t.requests + 1 > policy.requests.value { return Refused; }
      if policy.tokens.Some? && t.tokens + i.tokens > policy.tokens.value { return Refused; }
      if policy.cost.Some? && t.cost + i.cost > policy.cost.value { return Refused; }
      var allowed := WindowsAllow(policy.windows, i);
      if !allowed { return Refused; }
      if i.id in entries { return Aborted; }
      totals := totals[i.project := Totals(t.requests + 1, t.tokens + i.tokens, t.cost + i.cost)];
      entries := entries[i.id := Entry(i.project, i.endpoint, i.actor, i.tokens, i.cost, Reserved, i.reservedAt, i.expiresAt, i.reservedAt, Usage(None, None))];
      return Applied;
    }

    /* ---------- the life of a reservation ---------- */

    method MarkDispatched(id: Id, at: Time) returns (o: Outcome)
      requires Valid()
      modifies `entries
      ensures (View(), o) == DispatchStep(old(View()), id, at) && Valid()
    {
      hide Conserved;
      AdvanceConserves(View(), id, {Reserved}, Dispatched, at);
      if id !in entries { return Refused; }
      if entries[id].status == Dispatched { return Unchanged; }
      if entries[id].status != Reserved { return Refused; }
      entries := entries[id := entries[id].(status := Dispatched, updatedAt := at)];
      return Applied;
    }

    method MarkDelivered(id: Id, at: Time) returns (o: Outcome)
      requires Valid()
      modifies `entries
      ensures (View(), o) == DeliverStep(old(View()), id, at) && Valid()
    {
      hide Conserved;
      AdvanceConserves(View(), id, {Dispatched, Unknown}, Delivered, at);
      if id !in entries { return Refused; }
      if entries[id].status == Delivered { return Unchanged; }
      if entries[id].status != Dispatched && entries[id].status != Unknown { return Refused; }
      entries := entries[id := entries[id].(status := Delivered, updatedAt := at)];
      return Applied;
    }

    method MarkUnknown(id: Id, at: Time) returns (o: Outcome)
      requires Valid()
      modifies `entries
      ensures (View(), o) == UnknownStep(old(View()), id, at) && Valid()
    {
      hide Conserved;
      UnknownConserves(View(), id, at);
      if id !in entries || (entries[id].status != Dispatched && entries[id].status != Delivered) { return Refused; }
      entries := entries[id := entries[id].(status := Unknown, updatedAt := at)];
      return Applied;
    }

    /** Corrects the totals by what the provider reported, never below zero. */
    method Settle(id: Id, usage: Option<Usage>, at: Time) returns (o: Outcome)
      requires Valid()
      modifies this
      ensures (View(), o) == SettleStep(old(View()), id, usage, at) && Valid()
    {
      hide Conserved;
      SettleConserves(View(), id, usage, at);
      if id !in entries { return Refused; }
      var e := entries[id];
      if e.status.Settled? { return if e.project in policies && e.project in totals then Unchanged else Refused; }
      if usage.None? || (e.status != Dispatched && e.status != Delivered && e.status != Unknown) { return Refused; }
      if e.project !in policies || e.project !in totals { return Refused; }
      var t := totals[e.project];
      var tokens := t.tokens + if usage.value.tokens.None? then 0 else usage.value.tokens.value - e.tokens;
      var cost := t.cost + if usage.value.cost.None? then 0 else usage.value.cost.value - e.cost;
      totals := totals[e.project := Totals(t.requests, if tokens < 0 then 0 else tokens, if cost < 0 then 0 else cost)];
      entries := entries[id := e.(status := Settled, usage := usage.value, updatedAt := at)];
      return Applied;
    }

    method Fail(id: Id, at: Time) returns (o: Outcome)
      requires Valid()
      modifies this
      ensures (View(), o) == FailStep(old(View()), id, at) && Valid()
    {
      hide Conserved;
      FailConserves(View(), id, at);
      if id !in entries { return Refused; }
      var e := entries[id];
      if e.status.Settled? || e.status.Failed? { return Unchanged; }
      if !e.status.Reserved? {
        o := MarkUnknown(id, at);
        return;
      }
      if e.project in totals {
        var t := totals[e.project];
        totals := totals[e.project := Totals(Clamp(t.requests - 1), Clamp(t.tokens - e.tokens), Clamp(t.cost - e.cost))];
      }
      entries := entries[id := e.(status := Failed, updatedAt := at)];
      return Applied;
    }

    /* ---------- sweeps ---------- */

    method ExpireOne(id: Id, now: Time) returns (expired: bool)
      requires Valid() && id in entries
      modifies this
      ensures Valid() && View() == ExpireStep(old(View()), id, now).0 && expired == Expires(old(entries)[id], now)
      ensures entries == old(entries)[id := Expired(old(entries)[id], now)] && pruned == old(pruned)
    {
      hide Conserved;
      var e := entries[id];
      if !(e.status.Reserved? || e.status.Dispatched? || e.status.Delivered?) || e.expiresAt > now {
        assert entries[id := e] == entries;
        return false;
      }
      if e.status.Reserved? {
        var _ := Fail(id, now);
      } else {
        var _ := MarkUnknown(id, now);
      }
      return true;
    }

    /** Expires every open entry whose time has come; the sweep is a run of single expiries. */
    method ExpireAll(now: Time) returns (count: nat, ghost es: seq<Event>)
      requires Valid()
      modifies this
      ensures Valid() && View() == After(old(View()), es)
      ensures Takes(old(entries), entries, now)
      ensures count == |set k | k in old(entries) && old(entries)[k].expiresAt <= now && old(entries)[k].status in {Reserved, Dispatched, Delivered}|
    {
      hide Conserved, After, Expires, Expirable, Expired, ExpireStep, Swept, SweepState, Takes;
      count, es := 0, [];
      var rest := entries.Keys;
      ghost var s, before := View(), entries;
      SweepStarts(s, now);
      while rest != {}
        invariant Valid() && View() == After(s, es)
        invariant SweepState(before, entries, rest, now, count)
        decreases rest
      {
        var id :| id in rest;
        AfterExpire(s, es, id, now);
        SweptOne(before, entries, rest, now, count, id);
        es := es + [Event.Expire(id, now)];
        var expired := ExpireOne(id, now);
        if expired { count := count + 1; }
        rest := rest - {id};
      }
      SweepEnds(before, entries, now, count);
    }

    method PruneOne(id: Id, before: Time) returns (pruned': bool)
      requires Valid() && id in entries
      modifies this
      ensures Valid() && View() == PruneStep(old(View()), id, before).0 && pruned' == Prunable(old(entries)[id], before)
      ensures entries == (if pruned' then old(entries) - {id} else old(entries)) && totals == old(totals)
    {
      hide Conserved;
      PruneConserves(View(), id, before);
      var e := entries[id];
      if e.updatedAt >= before || !(e.status.Settled? || e.status.Unknown? || e.status.Failed?) { return false; }
      entries := entries - {id};
      pruned := pruned[e.project := (if e.project in pruned then pruned[e.project] else []) + [e]];
      return true;
    }

    /** Forgets at most `limit` old entries that are over, all of them if there are no more; the books keep them. */
    method Prune(before: Time, limit: nat) returns (count: nat, ghost es: seq<Event>, ghost gone: set<Id>)
      requires Valid()
      modifies this
      ensures Valid() && View() == After(old(View()), es) && totals == old(totals)
      ensures Forgets(old(entries), entries, gone, before, count, limit)
    {
      hide Conserved, After, PruneStep, PrunedSoFar, Forgets;
      NothingPruned(View(), before);
      count, es, gone := 0, [], {};
      var rest := entries.Keys;
      ghost var s, all, prunable := View(), entries, PrunableIds(entries, before);
      while rest != {} && count < limit
        invariant Valid() && View() == After(s, es) && totals == s.totals
        invariant PrunedSoFar(all, entries, rest, gone, prunable) && prunable <= gone + rest && count == |gone| <= limit
        decreases rest
      {
        var id :| id in rest;
        PrunedOne(all, entries, rest, gone, prunable, id);
        AfterPrune(s, es, id, before);
        es := es + [Event.Prune(id, before)];
        var done := PruneOne(id, before);
        if done {
          count := count + 1;
          gone := gone + {id};
        }
        rest := rest - {id};
      }
      AllOrLimit(all, entries, rest, gone, before, count, limit);
    }
  }

  /** A sweep that stopped has removed everything prunable, or still had something to look at. */
  lemma AllOrLimit(all: map<Id, Entry>, after: map<Id, Entry>, rest: set<Id>, gone: set<Id>, before: Time, count: nat, limit: nat)
    requires PrunedSoFar(all, after, rest, gone, PrunableIds(all, before)) && PrunableIds(all, before) <= gone + rest
    requires count == |gone| <= limit && (rest == {} || count == limit)
    ensures Forgets(all, after, gone, before, count, limit)
  {
  }
}
