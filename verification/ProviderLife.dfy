/** The life of one reservation: which events move it, where to, and what that does to the totals. */
module ProviderLife {
  import opened Basics
  import opened Sums
  import opened ProviderLedger
  import opened ProviderTheorems

  predicate Names(e: Event, k: Id) {
    (e.Dispatch? || e.Deliver? || e.MarkUnknown? || e.Settle? || e.Fail? || e.Expire?) && e.id == k
  }

  predicate IsReport(e: Event) {
    e.Settle? && e.usage.Some?
  }

  /** The delivery can no longer be told; `due`: the entry has expired by the time of the event. */
  predicate LosesTrack(e: Event, due: bool) {
    e.MarkUnknown? || e.Fail? || (e.Expire? && due)
  }

  /** The status an entry has after an event that names it. */
  function NextStatus(from: Status, e: Event, due: bool): Status {
    match from
    case Reserved => if e.Dispatch? then Dispatched else if e.Fail? || (e.Expire? && due) then Failed else Reserved
    case Dispatched => if e.Deliver? then Delivered else if IsReport(e) then Settled else if LosesTrack(e, due) then Unknown else Dispatched
    case Delivered => if IsReport(e) then Settled else if LosesTrack(e, due) then Unknown else Delivered
    case Unknown => if e.Deliver? then Delivered else if IsReport(e) then Settled else Unknown
    case Settled => Settled
    case Failed => Failed
  }

  /** Only known projects are settled. */
  predicate Counts(s: State, e: Event, project: Id) {
    e.Settle? ==> project in s.policies && project in s.totals
  }

  /** Nothing of a reservation ever changes but its endpoint, which may be deleted. */
  predicate SameReservation(a: Entry, b: Entry) {
    b.project == a.project && b.actor == a.actor && b.tokens == a.tokens && b.cost == a.cost && b.reservedAt == a.reservedAt
    && b.expiresAt == a.expiresAt && (b.endpoint == a.endpoint || b.endpoint.None?)
  }

  /** What an event makes of a stored entry that it leaves stored. */
  predicate Moves(s: State, e: Event, k: Id, a: Entry, b: Entry) {
    && SameReservation(a, b)
    && b.status == (if Names(e, k) && Counts(s, e, a.project) then NextStatus(a.status, e, a.expiresAt <= e.at) else a.status)
    && (b.status != a.status ==> b.updatedAt == e.at)
    && (if b.status == Settled && a.status != Settled then Some(b.usage) == e.usage else b.usage == a.usage)
    && (b.status == a.status && !e.DeleteEndpoint? ==> b == a)
  }

  lemma EntryMoves(s: State, e: Event, k: Id)
    requires k in s.entries && k in Step(s, e).0.entries
    ensures Moves(s, e, k, s.entries[k], Step(s, e).0.entries[k])
  {
    hide Moves;
    if e.Settle? { SettledMoves(s, e, k); }
    else if e.Dispatch? || e.Deliver? { AdvancedMoves(s, e, k); }
    else if e.MarkUnknown? || e.Fail? || e.Expire? { LostMoves(s, e, k); }
    else { OtherMoves(s, e, k); }
  }

  lemma SettledMoves(s: State, e: Event, k: Id)
    requires e.Settle? && k in s.entries && k in Step(s, e).0.entries
    ensures Moves(s, e, k, s.entries[k], Step(s, e).0.entries[k])
  {
    hide Corrected;
  }

  lemma AdvancedMoves(s: State, e: Event, k: Id)
    requires (e.Dispatch? || e.Deliver?) && k in s.entries && k in Step(s, e).0.entries
    ensures Moves(s, e, k, s.entries[k], Step(s, e).0.entries[k])
  {
  }

  lemma LostMoves(s: State, e: Event, k: Id)
    requires (e.MarkUnknown? || e.Fail? || e.Expire?) && k in s.entries && k in Step(s, e).0.entries
    ensures Moves(s, e, k, s.entries[k], Step(s, e).0.entries[k])
  {
    hide Refunded;
  }

  lemma OtherMoves(s: State, e: Event, k: Id)
    requires !e.Settle? && !e.Dispatch? && !e.Deliver? && !e.MarkUnknown? && !e.Fail? && !e.Expire?
    requires k in s.entries && k in Step(s, e).0.entries
    ensures Moves(s, e, k, s.entries[k], Step(s, e).0.entries[k])
  {
    hide WindowsGate, ProjectGate, Charged;
  }

  /** An event that names an entry is applied exactly if it moves the entry, and changes nothing otherwise. */
  lemma AppliedIffMoved(s: State, e: Event, k: Id)
    requires Names(e, k)
    ensures Step(s, e).1.Applied? <==>
              k in s.entries && Counts(s, e, s.entries[k].project) && NextStatus(s.entries[k].status, e, s.entries[k].expiresAt <= e.at) != s.entries[k].status
    ensures !Step(s, e).1.Applied? ==> Step(s, e) == (s, if k in s.entries && IsThere(s, e, s.entries[k]) then Unchanged else Refused)
  {
    hide Corrected, Refunded;
  }

  /** The entry is where the event wants it already. */
  predicate IsThere(s: State, e: Event, a: Entry) {
    (e.Dispatch? && a.status == Dispatched) || (e.Deliver? && a.status == Delivered) || (e.Settle? && a.status == Settled && Counts(s, e, a.project))
    || (e.Fail? && a.status in {Settled, Failed})
  }

  /** Only a finished entry that nothing has touched since is pruned, and only the end of its project drops one. */
  lemma EntryLeaves(s: State, e: Event, k: Id)
    requires k in s.entries && k !in Step(s, e).0.entries
    ensures (e.Prune? && e.id == k && s.entries[k].status in {Settled, Unknown, Failed} && s.entries[k].updatedAt < e.at)
            || (e.DropProject? && e.project == s.entries[k].project)
  {
    hide WindowsGate, ProjectGate, Charged, Corrected, Refunded;
  }

  /** Pruning moves a finished entry that nothing has touched since into history. */
  lemma PruningTells(s: State, id: Id, before: Time)
    ensures
      PruneStep(s, id, before)
      == if id in s.entries && s.entries[id].status in {Settled, Unknown, Failed} && s.entries[id].updatedAt < before then
           var p := s.entries[id].project;
           (s.(entries := s.entries - {id}, pruned := s.pruned[p := (if p in s.pruned then s.pruned[p] else []) + [s.entries[id]]]), Applied)
         else (s, Refused)
  {
  }

  /** Projects come and go as a whole: a new one is active, without limits and without usage. */
  lemma ProjectsComeAndGo(s: State, project: Id)
    ensures
      CreateProjectStep(s, project)
      == if project in s.totals then (s, Refused)
         else (s.(active := s.active + {project}, policies := s.policies[project := Policy(None, None, None, [])],
                  totals := s.totals[project := Totals(0, 0, 0)], pruned := s.pruned[project := []]), Applied)
    ensures
      var (s', o) := DropProjectStep(s, project);
      o == Applied && s'.active == s.active - {project} && s'.policies == s.policies - {project} && s'.totals == s.totals - {project}
      && s'.pruned == s.pruned - {project} && (forall k :: k in s'.entries <==> k in s.entries && s.entries[k].project != project)
  {
  }

  /** Deleting an endpoint takes its windows away and detaches its entries, which go on counting for their projects. */
  lemma EndpointIsDeleted(s: State, endpoint: Id)
    ensures
      var (s', o) := DeleteEndpointStep(s, endpoint);
      o == Applied && s' == s.(entries := s'.entries, policies := s'.policies) && s'.entries.Keys == s.entries.Keys && s'.policies.Keys == s.policies.Keys
      && (forall k :: k in s.entries ==> s'.entries[k] == if s.entries[k].endpoint == Some(endpoint) then s.entries[k].(endpoint := None) else s.entries[k])
      && forall p :: p in s.policies ==>
           s'.policies[p] == s.policies[p].(windows := s'.policies[p].windows)
           && forall w :: w in s'.policies[p].windows <==> w in s.policies[p].windows && w.endpoint != endpoint
  {
  }

  /** Settling moves the totals by what was reported less what was reserved, where something was reported. */
  lemma SettlementCorrects(s: State, id: Id, usage: Option<Usage>, at: Time)
    requires Conserved(s) && SettleStep(s, id, usage, at).1.Applied?
    ensures usage.Some? && id in s.entries && s.entries[id].project in s.totals
    ensures
      var e, reported := s.entries[id], usage.value;
      var t := s.totals[e.project];
      SettleStep(s, id, usage, at).0.totals
      == s.totals[e.project := Totals(t.requests, t.tokens + (if reported.tokens.Some? then reported.tokens.value - e.tokens else 0),
                                      t.cost + (if reported.cost.Some? then reported.cost.value - e.cost else 0))]
  {
    hide Conserved;
    CorrectionIsExact(s, id, usage.value);
  }

  /** Failing a reservation that was not dispatched gives back all of it; nothing else is ever given back. */
  lemma OnlyReservedIsRefunded(s: State, e: Event, p: Id)
    requires Conserved(s) && !e.Reserve? && !e.Settle? && p in s.totals && p in Step(s, e).0.totals
    ensures
      var t, t' := s.totals[p], Step(s, e).0.totals[p];
      if (e.Fail? || e.Expire?) && Step(s, e).1.Applied? && s.entries[e.id].status == Reserved && s.entries[e.id].project == p
      then t' == Totals(t.requests - 1, t.tokens - s.entries[e.id].tokens, t.cost - s.entries[e.id].cost)
      else t' == t
  {
    hide Conserved, Corrected, Refunded;
    if (e.Fail? || e.Expire?) && e.id in s.entries && s.entries[e.id].status == Reserved { RefundIsExact(s, e.id); }
  }

  ghost predicate Stays(s: State, es: seq<Event>, k: Id)
    decreases |es|
  {
    k in s.entries && (es != [] ==> Stays(Step(s, es[0]).0, es[1..], k))
  }

  /** What no run undoes: a settlement with its report, a failure, and a dispatch, which is never refunded. */
  lemma {:induction false} LifeGoesOn(s: State, es: seq<Event>, k: Id)
    requires Stays(s, es, k)
    ensures k in After(s, es).entries
    ensures
      var a, b := s.entries[k], After(s, es).entries[k];
      SameReservation(a, b)
      && (a.status == Settled ==> b.status == Settled && b.usage == a.usage)
      && (a.status == Failed ==> b.status == Failed)
      && (a.status != Reserved ==> b.status != Reserved && (b.status == Failed ==> a.status == Failed))
    decreases |es|
  {
    hide Step;
    if es != [] {
      EntryMoves(s, es[0], k);
      LifeGoesOn(Step(s, es[0]).0, es[1..], k);
    }
  }
}
