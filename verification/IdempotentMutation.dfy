/**
 The idempotent mutation protocol: any number of callers begin, run and complete under one receipt. A caller is
 suspended between its calls to the store; other callers take their steps there, also after its lease ran out.
 */
module IdempotentMutation {
  import opened Basics
  import opened Receipts
  import opened Utf16
  import opened CanonicalJson
  import opened CanonicalTheorems

  /** The request hash: the bytes that are hashed stand for their digest, which is assumed not to collide. */
  type Hash = seq<Byte>

  datatype Reply = Reply(status: nat, body: Id)

  datatype Phase =
    | Arrived
    | Running(token: Id, resource: Resource)
    | Failing(token: Id, resource: Resource, error: Reply)
    | Returned(body: Id)
    | Thrown(status: nat)

  datatype Caller = Caller(key: Key, request: Json, resource: Resource, completeServerErrors: bool, phase: Phase)

  /** `tokens` holds every claim token drawn so far. */
  datatype State = State(records: map<Key, Record<Hash, Reply>>, callers: map<Id, Caller>, tokens: set<Id>)

  const LEASE: Time := 30_000

  datatype Event =
    | Arrive(caller: Id, key: Key, request: Json, resource: Resource, completeServerErrors: bool)
    | Begin(caller: Id, token: Id, now: Time)
    | CompleteInside(caller: Id, reply: Reply)
    | Succeed(caller: Id, response: Id)
    | Fail(caller: Id, error: Reply)
    | Report(caller: Id)

  function WithPhase(s: State, c: Id, phase: Phase): State
    requires c in s.callers
  {
    s.(callers := s.callers[c := s.callers[c].(phase := phase)])
  }

  function HashOf(request: Json): Result<Hash> {
    match Canonical(request)
    case Ok(text) => Ok(Encode(text))
    case Err(e) => Err(e)
  }

  /** The hash comes first: a request without one never reaches the store. */
  function BeginStep(s: State, c: Id, token: Id, now: Time): State
    requires c in s.callers
  {
    var caller := s.callers[c];
    match HashOf(caller.request)
    case Err(_) => WithPhase(s, c, Thrown(400))
    case Ok(hash) =>
      var (records, begun) := Receipts.Begin(s.records, Claiming(caller.key, hash, caller.resource, token, now, now + LEASE));
      var s' := s.(records := records, tokens := s.tokens + {token});
      match begun
      case HashMismatch => WithPhase(s', c, Thrown(409))
      case InProgress(_) => WithPhase(s', c, Thrown(409))
      case Replay(reply) => WithPhase(s', c, if reply.status >= 400 then Thrown(reply.status) else Returned(reply.body))
      case Claimed(resource) => WithPhase(s', c, Running(token, resource))
  }

  function CompleteFor(s: State, caller: Caller, token: Id, reply: Reply): (map<Key, Record<Hash, Reply>>, bool) {
    match HashOf(caller.request)
    case Err(_) => (s.records, false)
    case Ok(hash) => Complete(s.records, caller.key, hash, token, reply)
  }

  /** A mutation may complete its receipt inside its own transaction, while it holds the open claim. */
  function CompleteInsideStep(s: State, c: Id, reply: Reply): State
    requires c in s.callers && s.callers[c].phase.Running?
  {
    var caller := s.callers[c];
    match HashOf(caller.request)
    case Err(_) => s
    case Ok(hash) =>
      if Holds(s.records, caller.key, hash, caller.phase.token) then s.(records := Completed(s.records, caller.key, reply)) else s
  }

  /** The response is returned only if the store accepted it; otherwise the caller fails with a conflict of its own. */
  function SucceedStep(s: State, c: Id, response: Id): State
    requires c in s.callers && s.callers[c].phase.Running?
  {
    var caller := s.callers[c];
    var (records, completed) := CompleteFor(s, caller, caller.phase.token, Reply(200, response));
    WithPhase(s.(records := records), c,
              if completed then Returned(response) else Failing(caller.phase.token, caller.phase.resource, Reply(409, 0)))
  }

  function ReportStep(s: State, c: Id): State
    requires c in s.callers && s.callers[c].phase.Failing?
  {
    var caller := s.callers[c];
    var error := caller.phase.error;
    var records := if caller.completeServerErrors || error.status < 500 then CompleteFor(s, caller, caller.phase.token, error).0 else s.records;
    WithPhase(s.(records := records), c, Thrown(error.status))
  }

  /** Tokens are fresh, and errors carry an error status. */
  predicate Enabled(s: State, e: Event) {
    match e
    case Arrive(c, _, request, _, _) => c !in s.callers && IsValue(request)
    case Begin(c, token, _) => c in s.callers && s.callers[c].phase.Arrived? && token !in s.tokens
    case CompleteInside(c, reply) => c in s.callers && s.callers[c].phase.Running?
    case Succeed(c, _) => c in s.callers && s.callers[c].phase.Running?
    case Fail(c, error) => c in s.callers && s.callers[c].phase.Running? && error.status >= 400
    case Report(c) => c in s.callers && s.callers[c].phase.Failing?
  }

  function Step(s: State, e: Event): State
    requires Enabled(s, e)
  {
    match e
    case Arrive(c, key, request, resource, completeErrors) =>
      s.(callers := s.callers[c := Caller(key, request, resource, completeErrors, Arrived)])
    case Begin(c, token, now) => BeginStep(s, c, token, now)
    case CompleteInside(c, reply) => CompleteInsideStep(s, c, reply)
    case Succeed(c, response) => SucceedStep(s, c, response)
    case Fail(c, error) => WithPhase(s, c, Failing(s.callers[c].phase.token, s.callers[c].phase.resource, error))
    case Report(c) => ReportStep(s, c)
  }

  ghost predicate RunsFrom(s: State, es: seq<Event>)
    decreases |es|
  {
    es == [] || (Enabled(s, es[0]) && RunsFrom(Step(s, es[0]), es[1..]))
  }

  function After(s: State, es: seq<Event>): State
    requires RunsFrom(s, es)
    decreases |es|
  {
    if es == [] then s else After(Step(s, es[0]), es[1..])
  }

  const EMPTY: State := State(map[], map[], {})

  /* ---------- invariants ---------- */

  predicate IsOwner(caller: Caller) {
    caller.phase.Running? || caller.phase.Failing?
  }

  /** A caller past its claim made the request the receipt was opened for, and works on the receipt's resource. */
  predicate Matches(records: map<Key, Record<Hash, Reply>>, tokens: set<Id>, caller: Caller)
    requires IsOwner(caller)
  {
    caller.key in records && HashOf(caller.request) == Ok(records[caller.key].hash)
    && caller.phase.resource == records[caller.key].resource && caller.phase.token in tokens
  }

  /** A returned body is the one in the completed receipt. */
  predicate ReturnIsStored(records: map<Key, Record<Hash, Reply>>, caller: Caller) {
    caller.phase.Returned? ==>
      caller.key in records && HashOf(caller.request) == Ok(records[caller.key].hash)
      && records[caller.key].reply.Some? && records[caller.key].reply.value.status < 400 && records[caller.key].reply.value.body == caller.phase.body
  }

  ghost predicate Inv(s: State) {
    && (forall c :: c in s.callers ==> IsValue(s.callers[c].request))
    && (forall c :: c in s.callers && IsOwner(s.callers[c]) ==> Matches(s.records, s.tokens, s.callers[c]))
    && (forall c :: c in s.callers ==> ReturnIsStored(s.records, s.callers[c]))
    && (forall c, d :: c in s.callers && d in s.callers && IsOwner(s.callers[c]) && IsOwner(s.callers[d]) && c != d
                       ==> s.callers[c].phase.token != s.callers[d].phase.token)
    && (forall k :: k in s.records ==> s.records[k].claim in s.tokens)
  }

  /** What no event takes from a receipt: its hash, its resource, and its reply once it has one. */
  predicate Grows(before: map<Key, Record<Hash, Reply>>, after: map<Key, Record<Hash, Reply>>) {
    forall k :: k in before ==>
      k in after && after[k].hash == before[k].hash && after[k].resource == before[k].resource
      && (before[k].reply.Some? ==> after[k] == before[k])
  }

  lemma StepGrows(s: State, e: Event)
    requires Inv(s) && Enabled(s, e)
    ensures Grows(s.records, Step(s, e).records)
  {
    hide HashOf, Inv;
  }

  lemma OthersKept(s: State, e: Event, c: Id)
    requires Enabled(s, e) && c in s.callers && c != e.caller
    ensures c in Step(s, e).callers && Step(s, e).callers[c] == s.callers[c]
  {
  }

  ghost predicate Fits(s: State, c: Id) {
    c in s.callers && IsValue(s.callers[c].request) && ReturnIsStored(s.records, s.callers[c])
    && (IsOwner(s.callers[c]) ==> Matches(s.records, s.tokens, s.callers[c]))
  }

  lemma BeginFits(s: State, c: Id, token: Id, now: Time)
    requires Inv(s) && Enabled(s, Begin(c, token, now))
    ensures Fits(BeginStep(s, c, token, now), c)
  {
    assert IsValue(s.callers[c].request);
    hide HashOf, IsValue, Inv;
  }

  lemma SucceedFits(s: State, c: Id, response: Id)
    requires Inv(s) && Enabled(s, Succeed(c, response))
    ensures Fits(SucceedStep(s, c, response), c)
  {
    assert Matches(s.records, s.tokens, s.callers[c]);
  }

  lemma InsideFits(s: State, c: Id, reply: Reply)
    requires Inv(s) && Enabled(s, CompleteInside(c, reply))
    ensures Fits(CompleteInsideStep(s, c, reply), c)
  {
    assert Matches(s.records, s.tokens, s.callers[c]);
  }

  /** The caller that took the step satisfies every invariant about it. */
  lemma MoverFits(s: State, e: Event)
    requires Inv(s) && Enabled(s, e)
    ensures Fits(Step(s, e), e.caller)
  {
    hide BeginStep, SucceedStep, CompleteInsideStep;
    match e
    case Arrive(c, key, request, resource, completeErrors) =>
    case Begin(c, token, now) => BeginFits(s, c, token, now);
    case CompleteInside(c, reply) => InsideFits(s, c, reply);
    case Succeed(c, response) => SucceedFits(s, c, response);
    case Fail(c, error) => assert Matches(s.records, s.tokens, s.callers[c]);
    case Report(c) => assert Matches(s.records, s.tokens, s.callers[c]);
  }

  /** Where the claim of a receipt comes from. */
  lemma ClaimOrigin(s: State, e: Event, k: Key)
    requires Enabled(s, e) && k in Step(s, e).records
    ensures (k in s.records && Step(s, e).records[k].claim == s.records[k].claim)
            || (e.Begin? && Step(s, e).records[k].claim == e.token && e.token in Step(s, e).tokens)
  {
    hide HashOf;
  }

  lemma TokensStay(s: State, e: Event)
    requires Enabled(s, e)
    ensures s.tokens <= Step(s, e).tokens
  {
    hide HashOf;
  }

  lemma ClaimsAreKnown(s: State, e: Event)
    requires Inv(s) && Enabled(s, e)
    ensures s.tokens <= Step(s, e).tokens && forall k :: k in Step(s, e).records ==> Step(s, e).records[k].claim in Step(s, e).tokens
  {
    hide Step;
    TokensStay(s, e);
    forall k | k in Step(s, e).records ensures Step(s, e).records[k].claim in Step(s, e).tokens {
      ClaimOrigin(s, e, k);
    }
  }

  /** A caller gets its token when it begins, and that token is new. */
  lemma MoverToken(s: State, e: Event)
    requires Inv(s) && Enabled(s, e) && e.caller in Step(s, e).callers && IsOwner(Step(s, e).callers[e.caller])
    ensures var token := Step(s, e).callers[e.caller].phase.token;
            if e.Begin? then token !in s.tokens else e.caller in s.callers && IsOwner(s.callers[e.caller]) && token == s.callers[e.caller].phase.token
  {
  }

  lemma StepKeeps(s: State, e: Event)
    requires Inv(s) && Enabled(s, e)
    ensures Inv(Step(s, e))
  {
    var s' := Step(s, e);
    StepGrows(s, e);
    ClaimsAreKnown(s, e);
    MoverFits(s, e);
    if IsOwner(s'.callers[e.caller]) { MoverToken(s, e); }
    forall c | c in s'.callers
      ensures IsValue(s'.callers[c].request) && ReturnIsStored(s'.records, s'.callers[c])
      ensures IsOwner(s'.callers[c]) ==> Matches(s'.records, s'.tokens, s'.callers[c])
    {
      if c != e.caller { OthersAreKept(s, e, c); }
    }
    forall c, d | c in s'.callers && d in s'.callers && IsOwner(s'.callers[c]) && IsOwner(s'.callers[d]) && c != d
      ensures s'.callers[c].phase.token != s'.callers[d].phase.token
    {
      if c != e.caller { OthersAreKept(s, e, c); }
      if d != e.caller { OthersAreKept(s, e, d); }
    }
  }

  lemma OthersAreKept(s: State, e: Event, c: Id)
    requires Inv(s) && Enabled(s, e) && c in Step(s, e).callers && c != e.caller
    ensures c in s.callers && Step(s, e).callers[c] == s.callers[c] && IsValue(s.callers[c].request)
    ensures ReturnIsStored(Step(s, e).records, s.callers[c])
    ensures IsOwner(s.callers[c]) ==> Matches(s.records, s.tokens, s.callers[c]) && Matches(Step(s, e).records, Step(s, e).tokens, s.callers[c])
  {
    StepGrows(s, e);
    ClaimsAreKnown(s, e);
    assert c in s.callers;
    assert ReturnIsStored(s.records, s.callers[c]);
    OthersKept(s, e, c);
  }

  lemma {:induction false} RunsKeep(s: State, es: seq<Event>)
    requires Inv(s) && RunsFrom(s, es)
    ensures Inv(After(s, es))
    decreases |es|
  {
    if es != [] {
      StepKeeps(s, es[0]);
      RunsKeep(Step(s, es[0]), es[1..]);
    }
  }

  /* ---------- theorems ---------- */

  /** Every caller that returns a value for a key returns the same value, however the callers interleave. */
  lemma ReturnsAgree(es: seq<Event>, c: Id, d: Id)
    requires RunsFrom(EMPTY, es)
    ensures var s := After(EMPTY, es);
            c in s.callers && d in s.callers && s.callers[c].phase.Returned? && s.callers[d].phase.Returned? && s.callers[c].key == s.callers[d].key
            ==> s.callers[c].phase.body == s.callers[d].phase.body && Same(s.callers[c].request, s.callers[d].request)
  {
    RunsKeep(EMPTY, es);
    var s := After(EMPTY, es);
    if c in s.callers && d in s.callers && s.callers[c].phase.Returned? && s.callers[d].phase.Returned? && s.callers[c].key == s.callers[d].key {
      assert ReturnIsStored(s.records, s.callers[c]) && ReturnIsStored(s.records, s.callers[d]);
      HashedBytesIdentifyTheRequest(s.callers[c].request, s.callers[d].request);
    }
  }

  /** Over any run a receipt keeps its hash and its resource, and a completed receipt keeps everything. */
  lemma {:induction false} ReceiptsGrow(s: State, es: seq<Event>)
    requires Inv(s) && RunsFrom(s, es)
    ensures Grows(s.records, After(s, es).records)
    decreases |es|
  {
    if es != [] {
      StepGrows(s, es[0]);
      StepKeeps(s, es[0]);
      ReceiptsGrow(Step(s, es[0]), es[1..]);
    }
  }

  /**
   Whoever runs under one key, at whatever times of a run, runs the same request on the same resource: a different
   request never runs.
   */
  lemma OwnersRunOneRequest(es: seq<Event>, more: seq<Event>, c: Id, d: Id)
    requires RunsFrom(EMPTY, es) && RunsFrom(After(EMPTY, es), more)
    requires c in After(EMPTY, es).callers && IsOwner(After(EMPTY, es).callers[c])
    requires d in After(After(EMPTY, es), more).callers && IsOwner(After(After(EMPTY, es), more).callers[d])
    ensures var first, second := After(EMPTY, es).callers[c], After(After(EMPTY, es), more).callers[d];
            first.key == second.key ==>
              Same(first.request, second.request) && first.phase.resource == second.phase.resource
              && (more == [] && c != d ==> first.phase.token != second.phase.token)
  {
    var s := After(EMPTY, es);
    var s' := After(s, more);
    RunsKeep(EMPTY, es);
    RunsKeep(s, more);
    ReceiptsGrow(s, more);
    assert Matches(s.records, s.tokens, s.callers[c]) && Matches(s'.records, s'.tokens, s'.callers[d]);
    HashedBytesIdentifyTheRequest(s.callers[c].request, s'.callers[d].request);
  }

  predicate HasLost(s: State, c: Id) {
    c in s.callers && IsOwner(s.callers[c]) && s.callers[c].key in s.records && s.records[s.callers[c].key].claim != s.callers[c].phase.token
  }

  /** A caller whose claim was taken over has no further effect on any receipt. */
  lemma LostClaimHasNoEffect(s: State, e: Event)
    requires Inv(s) && Enabled(s, e) && HasLost(s, e.caller)
    ensures Step(s, e).records == s.records
    ensures !Step(s, e).callers[e.caller].phase.Returned?
  {
    assert Matches(s.records, s.tokens, s.callers[e.caller]);
  }

  /** The claim of a stored receipt changes only when a caller begins, and then to that caller's new token. */
  lemma ClaimChanges(s: State, e: Event, k: Key)
    requires Enabled(s, e) && k in s.records
    ensures k in Step(s, e).records
    ensures Step(s, e).records[k].claim != s.records[k].claim ==> e.Begin? && Step(s, e).records[k].claim == e.token && e.token !in s.tokens
  {
    hide HashOf;
  }

  /** And it never gets its claim back. */
  lemma LostClaimStaysLost(s: State, e: Event, c: Id)
    requires Inv(s) && Enabled(s, e) && HasLost(s, c)
    ensures c in Step(s, e).callers && (IsOwner(Step(s, e).callers[c]) ==> HasLost(Step(s, e), c))
  {
    assert Matches(s.records, s.tokens, s.callers[c]);
    hide HashOf, Inv, Step;
    ClaimChanges(s, e, s.callers[c].key);
    if c != e.caller { OthersKept(s, e, c); } else { OwnerKeepsToken(s, e); }
  }

  /** Over any run a caller that lost its claim never returns a value and never holds the claim again. */
  lemma {:induction false} LostCallerNeverReturns(s: State, es: seq<Event>, c: Id)
    requires Inv(s) && RunsFrom(s, es) && c in s.callers && (HasLost(s, c) || s.callers[c].phase.Thrown?)
    ensures var s' := After(s, es); c in s'.callers && (HasLost(s', c) || s'.callers[c].phase.Thrown?)
    decreases |es|
  {
    hide Inv, HashOf;
    if es != [] {
      StepKeeps(s, es[0]);
      LostStep(s, es[0], c);
      LostCallerNeverReturns(Step(s, es[0]), es[1..], c);
    }
  }

  lemma LostStep(s: State, e: Event, c: Id)
    requires Inv(s) && Enabled(s, e) && c in s.callers && (HasLost(s, c) || s.callers[c].phase.Thrown?)
    ensures c in Step(s, e).callers && (HasLost(Step(s, e), c) || Step(s, e).callers[c].phase.Thrown?)
  {
    hide Inv, HashOf, Step;
    if c != e.caller { OthersKept(s, e, c); }
    if HasLost(s, c) {
      LostClaimStaysLost(s, e, c);
      if c == e.caller { LostMoverFails(s, e); }
    }
  }

  lemma LostMoverFails(s: State, e: Event)
    requires Inv(s) && Enabled(s, e) && HasLost(s, e.caller)
    ensures e.caller in Step(s, e).callers && (IsOwner(Step(s, e).callers[e.caller]) || Step(s, e).callers[e.caller].phase.Thrown?)
  {
    assert Matches(s.records, s.tokens, s.callers[e.caller]);
  }

  lemma OwnerKeepsToken(s: State, e: Event)
    requires Enabled(s, e) && e.caller in s.callers && IsOwner(s.callers[e.caller])
    ensures e.caller in Step(s, e).callers && Step(s, e).callers[e.caller].key == s.callers[e.caller].key
    ensures IsOwner(Step(s, e).callers[e.caller]) ==> Step(s, e).callers[e.caller].phase.token == s.callers[e.caller].phase.token
  {
    hide HashOf;
  }

  /** A request that differs from the one a receipt was opened for is turned away and changes nothing. */
  lemma DifferentRequestIsRefused(s: State, c: Id, token: Id, now: Time, v: Json)
    requires Inv(s) && Enabled(s, Begin(c, token, now)) && s.callers[c].key in s.records
    requires IsValue(v) && Hashable(v) && HashOf(v) == Ok(s.records[s.callers[c].key].hash)
    ensures !Same(s.callers[c].request, v) ==>
              Step(s, Begin(c, token, now)).records == s.records && Step(s, Begin(c, token, now)).callers[c].phase.Thrown?
  {
    HashedBytesIdentifyTheRequest(s.callers[c].request, v);
    HashedBytesIdentifyTheRequest(v, v);
  }
}
