/**
 The provider quota ledger: reservations of model-provider usage, their life until settlement, the
 project totals they add up to, and the rolling limits per actor and endpoint.
 */
module ProviderLedger {
  import opened Basics
  import opened Sums

  datatype Metric = Requests | Tokens | Cost

  datatype Status = Reserved | Dispatched | Delivered | Settled | Unknown | Failed

  /** What the provider reported; either figure may be missing. */
  datatype Usage = Usage(tokens: Option<nat>, cost: Option<nat>)

  datatype Entry = Entry(project: Id, endpoint: Option<Id>, actor: Option<Id>, tokens: nat, cost: nat,
                         status: Status, reservedAt: Time, expiresAt: Time, updatedAt: Time, usage: Usage)

  datatype Totals = Totals(requests: int, tokens: int, cost: int) {
    function Of(m: Metric): int {
      match m
      case Requests => requests
      case Tokens => tokens
      case Cost => cost
    }
  }

  datatype Window = Window(endpoint: Id, metric: Metric, limit: nat, seconds: nat)

  datatype Policy = Policy(requests: Option<nat>, tokens: Option<nat>, cost: Option<nat>, windows: seq<Window>)

  /** `pruned` is history the store forgets: the entries pruned from each project. */
  datatype State = State(active: set<Id>, policies: map<Id, Policy>, totals: map<Id, Totals>, entries: map<Id, Entry>, pruned: map<Id, seq<Entry>>)

  /* ---------- what an entry counts for ---------- */

  function Reservation(e: Entry, m: Metric): nat {
    match m
    case Requests => 1
    case Tokens => e.tokens
    case Cost => e.cost
  }

  function ReportedOr(report: Option<nat>, reserved: nat): nat {
    if report.Some? then report.value else reserved
  }

  /** A settled entry counts what the provider reported where it reported it, every other its reservation. */
  function WindowValue(e: Entry, m: Metric): nat {
    if e.status.Settled? && m.Tokens? then ReportedOr(e.usage.tokens, e.tokens)
    else if e.status.Settled? && m.Cost? then ReportedOr(e.usage.cost, e.cost)
    else Reservation(e, m)
  }

  /** Its share of the project total; a failed entry has none. */
  function Contribution(e: Entry, m: Metric): nat {
    if e.status.Failed? then 0 else WindowValue(e, m)
  }

  function ProjectTerm(entries: map<Id, Entry>, project: Id, m: Metric): Id -> int {
    (k: Id) => if k in entries && entries[k].project == project then Contribution(entries[k], m) else 0
  }

  ghost function PrunedSum(pruned: seq<Entry>, m: Metric): nat {
    if pruned == [] then 0 else PrunedSum(pruned[..|pruned| - 1], m) + Contribution(pruned[|pruned| - 1], m)
  }

  predicate CountsFor(e: Entry, project: Id, endpoint: Id, actor: Option<Id>) {
    e.project == project && e.endpoint == Some(endpoint) && e.actor == actor && !e.status.Failed?
  }

  /** The rolling sum the gate compares with the limit: everything reserved at or after `from`. */
  function WindowTerm(entries: map<Id, Entry>, project: Id, endpoint: Id, actor: Option<Id>, from: Time, m: Metric): Id -> int {
    (k: Id) => if k in entries && CountsFor(entries[k], project, endpoint, actor) && entries[k].reservedAt >= from then WindowValue(entries[k], m) else 0
  }

  ghost function WindowSum(entries: map<Id, Entry>, project: Id, endpoint: Id, actor: Option<Id>, from: Time, m: Metric): int {
    Sum(entries.Keys, WindowTerm(entries, project, endpoint, actor, from, m))
  }

  /* ---------- operations ---------- */

  datatype Outcome = Applied | Unchanged | Refused | Aborted

  datatype ReserveInput = ReserveInput(id: Id, project: Id, endpoint: Option<Id>, actor: Option<Id>, tokens: nat, cost: nat, reservedAt: Time, expiresAt: Time)

  function Requested(i: ReserveInput, m: Metric): nat {
    match m
    case Requests => 1
    case Tokens => i.tokens
    case Cost => i.cost
  }

  predicate Exceeds(limit: Option<nat>, value: int) {
    limit.Some? && value > limit.value
  }

  predicate ProjectGate(policy: Policy, totals: Totals, i: ReserveInput) {
    !Exceeds(policy.requests, totals.requests + 1) && !Exceeds(policy.tokens, totals.tokens + i.tokens) && !Exceeds(policy.cost, totals.cost + i.cost)
  }

  ghost predicate WindowGate(entries: map<Id, Entry>, w: Window, i: ReserveInput) {
    i.endpoint == Some(w.endpoint) ==>
      WindowSum(entries, i.project, w.endpoint, i.actor, i.reservedAt - 1000 * w.seconds, w.metric) + Requested(i, w.metric) <= w.limit
  }

  ghost predicate WindowsGate(s: State, i: ReserveInput)
    requires i.project in s.policies
  {
    forall w :: w in s.policies[i.project].windows ==> WindowGate(s.entries, w, i)
  }

  function NewEntry(i: ReserveInput): Entry {
    Entry(i.project, i.endpoint, i.actor, i.tokens, i.cost, Reserved, i.reservedAt, i.expiresAt, i.reservedAt, Usage(None, None))
  }

  function Charged(t: Totals, i: ReserveInput): Totals {
    Totals(t.requests + 1, t.tokens + i.tokens, t.cost + i.cost)
  }

  ghost function ReserveStep(s: State, i: ReserveInput): (State, Outcome) {
    if i.project !in s.active || i.project !in s.policies || i.project !in s.totals || !ProjectGate(s.policies[i.project], s.totals[i.project], i)
       || !WindowsGate(s, i) then (s, Refused)
    else if i.id in s.entries then (s, Aborted)
    else (s.(totals := s.totals[i.project := Charged(s.totals[i.project], i)], entries := s.entries[i.id := NewEntry(i)]), Applied)
  }

  function AdvanceStep(s: State, id: Id, allowed: set<Status>, to: Status, at: Time): (State, Outcome) {
    if id !in s.entries then (s, Refused)
    else if s.entries[id].status == to then (s, Unchanged)
    else if s.entries[id].status !in allowed then (s, Refused)
    else (s.(entries := s.entries[id := s.entries[id].(status := to, updatedAt := at)]), Applied)
  }

  function DispatchStep(s: State, id: Id, at: Time): (State, Outcome) { AdvanceStep(s, id, {Reserved}, Dispatched, at) }

  function DeliverStep(s: State, id: Id, at: Time): (State, Outcome) { AdvanceStep(s, id, {Dispatched, Unknown}, Delivered, at) }

  function UnknownStep(s: State, id: Id, at: Time): (State, Outcome) {
    if id !in s.entries || s.entries[id].status !in {Dispatched, Delivered} then (s, Refused)
    else (s.(entries := s.entries[id := s.entries[id].(status := Unknown, updatedAt := at)]), Applied)
  }

  function Clamp(x: int): int {
    if x < 0 then 0 else x
  }

  /** The correction a settlement makes: the report less the reservation, nothing where nothing was reported. */
  function Correction(report: Option<nat>, reserved: nat): int {
    if report.Some? then report.value - reserved else 0
  }

  function Corrected(t: Totals, e: Entry, usage: Usage): Totals {
    Totals(t.requests, Clamp(t.tokens + Correction(usage.tokens, e.tokens)), Clamp(t.cost + Correction(usage.cost, e.cost)))
  }

  function SettleStep(s: State, id: Id, usage: Option<Usage>, at: Time): (State, Outcome) {
    if id !in s.entries then (s, Refused)
    else
      var e := s.entries[id];
      if e.status.Settled? then (s, if e.project in s.policies && e.project in s.totals then Unchanged else Refused)
      else if usage.None? || e.status !in {Dispatched, Delivered, Unknown} || e.project !in s.policies || e.project !in s.totals then (s, Refused)
      else (s.(totals := s.totals[e.project := Corrected(s.totals[e.project], e, usage.value)],
               entries := s.entries[id := e.(status := Settled, usage := usage.value, updatedAt := at)]), Applied)
  }

  function Refunded(t: Totals, e: Entry): Totals {
    Totals(Clamp(t.requests - 1), Clamp(t.tokens - e.tokens), Clamp(t.cost - e.cost))
  }

  /** Only an undispatched reservation can fail; later ones become unknown. */
  function FailStep(s: State, id: Id, at: Time): (State, Outcome) {
    if id !in s.entries then (s, Refused)
    else
      var e := s.entries[id];
      if e.status.Settled? || e.status.Failed? then (s, Unchanged)
      else if !e.status.Reserved? then UnknownStep(s, id, at)
      else (s.(totals := if e.project in s.totals then s.totals[e.project := Refunded(s.totals[e.project], e)] else s.totals,
               entries := s.entries[id := e.(status := Failed, updatedAt := at)]), Applied)
  }

  predicate Expires(e: Entry, now: Time) {
    (e.status.Reserved? || e.status.Dispatched? || e.status.Delivered?) && e.expiresAt <= now
  }

  function ExpireStep(s: State, id: Id, now: Time): (State, Outcome) {
    if id !in s.entries || !Expires(s.entries[id], now) then (s, Refused)
    else if s.entries[id].status.Reserved? then FailStep(s, id, now)
    else UnknownStep(s, id, now)
  }

  predicate Prunable(e: Entry, before: Time) {
    e.updatedAt < before && (e.status.Settled? || e.status.Unknown? || e.status.Failed?)
  }

  function PruneStep(s: State, id: Id, before: Time): (State, Outcome) {
    if id !in s.entries || !Prunable(s.entries[id], before) then (s, Refused)
    else
      var e := s.entries[id];
      (s.(entries := s.entries - {id},
          pruned := s.pruned[e.project := (if e.project in s.pruned then s.pruned[e.project] else []) + [e]]), Applied)
  }

  /** Deleting an endpoint detaches its entries and removes its windows. */
  function DeleteEndpointStep(s: State, endpoint: Id): (State, Outcome) {
    (s.(entries := map k | k in s.entries :: if s.entries[k].endpoint == Some(endpoint) then s.entries[k].(endpoint := None) else s.entries[k],
        policies := map p | p in s.policies :: s.policies[p].(windows := WithoutEndpoint(s.policies[p].windows, endpoint))), Applied)
  }

  function WithoutEndpoint(windows: seq<Window>, endpoint: Id): (r: seq<Window>)
    ensures forall w :: w in r <==> w in windows && w.endpoint != endpoint
  {
    if windows == [] then []
    else (if windows[0].endpoint == endpoint then [] else [windows[0]]) + WithoutEndpoint(windows[1..], endpoint)
  }

  function CreateProjectStep(s: State, project: Id): (State, Outcome) {
    if project in s.totals then (s, Refused)
    else (s.(active := s.active + {project}, policies := s.policies[project := Policy(None, None, None, [])],
             totals := s.totals[project := Totals(0, 0, 0)], pruned := s.pruned[project := []]), Applied)
  }

  function DropProjectStep(s: State, project: Id): (State, Outcome) {
    (State(s.active - {project}, s.policies - {project}, s.totals - {project},
           map k | k in s.entries && s.entries[k].project != project :: s.entries[k], s.pruned - {project}), Applied)
  }

  datatype Event =
    | Reserve(input: ReserveInput)
    | Dispatch(id: Id, at: Time)
    | Deliver(id: Id, at: Time)
    | MarkUnknown(id: Id, at: Time)
    | Settle(id: Id, usage: Option<Usage>, at: Time)
    | Fail(id: Id, at: Time)
    | Expire(id: Id, at: Time)
    | Prune(id: Id, at: Time)
    | DeleteEndpoint(endpoint: Id)
    | CreateProject(project: Id)
    | DropProject(project: Id)
    | SetPolicy(project: Id, policy: Policy)
    | SetActive(project: Id, active: bool)

  ghost function Step(s: State, e: Event): (State, Outcome) {
    match e
    case Reserve(i) => ReserveStep(s, i)
    case Dispatch(id, at) => DispatchStep(s, id, at)
    case Deliver(id, at) => DeliverStep(s, id, at)
    case MarkUnknown(id, at) => UnknownStep(s, id, at)
    case Settle(id, usage, at) => SettleStep(s, id, usage, at)
    case Fail(id, at) => FailStep(s, id, at)
    case Expire(id, at) => ExpireStep(s, id, at)
    case Prune(id, at) => PruneStep(s, id, at)
    case DeleteEndpoint(endpoint) => DeleteEndpointStep(s, endpoint)
    case CreateProject(project) => CreateProjectStep(s, project)
    case DropProject(project) => DropProjectStep(s, project)
    case SetPolicy(project, policy) => if project in s.policies then (s.(policies := s.policies[project := policy]), Applied) else (s, Refused)
    case SetActive(project, active) => (s.(active := if active then s.active + {project} else s.active - {project}), Applied)
  }

  ghost function After(s: State, es: seq<Event>): State
    decreases |es|
  {
    if es == [] then s else After(Step(s, es[0]).0, es[1..])
  }

  /* ---------- conservation ---------- */

  ghost function Accounted(s: State, p: Id, m: Metric): int
    requires p in s.pruned
  {
    PrunedSum(s.pruned[p], m) + Sum(s.entries.Keys, ProjectTerm(s.entries, p, m))
  }

  ghost predicate Conserved(s: State) {
    && (forall k :: k in s.entries ==> s.entries[k].project in s.totals)
    && (forall p :: p in s.totals ==> p in s.pruned)
    && (forall p, m :: p in s.totals ==> s.totals[p].Of(m) == Accounted(s, p, m))
  }
}
