/** What the callers of an idempotent mutation get to see, over every run: answers that stand, and claims that last. */
module MutationTheorems {
  import opened Basics
  import opened Receipts
  import opened Utf16
  import opened CanonicalJson
  import opened CanonicalTheorems
  import opened IdempotentMutation

  /* ---------- requests and their hashes ---------- */

  lemma {:induction false} SameIsHashable(v: Json, w: Json)
    requires IsValue(v) && IsValue(w) && Same(v, w) && Hashable(v)
    ensures Hashable(w)
    decreases v
  {
    match v
    case Arr(items) => forall i | 0 <= i < |items| ensures Hashable(w.items[i]) { SameIsHashable(items[i], w.items[i]); }
    case Obj(fields) =>
      forall j | 0 <= j < |w.fields| && !w.fields[j].value.Undefined? ensures Hashable(w.fields[j].value) {
        var i := SameKeyOf(fields, w.fields, j);
        var j' := SameField(fields, w.fields, i);
        assert j' == j;
        SameIsHashable(fields[i].value, w.fields[j].value);
      }
    case _ =>
  }

  /** Of two requests the first of which has a hash, the second has the same one exactly if it is the same request. */
  lemma HashesTell(v: Json, w: Json)
    requires IsValue(v) && IsValue(w) && HashOf(v).Ok?
    ensures HashOf(w) == HashOf(v) <==> Same(v, w)
    ensures HashOf(w).Ok? <==> Hashable(w)
  {
    HashedBytesIdentifyTheRequest(v, w);
    HashedBytesIdentifyTheRequest(w, v);
    if Same(v, w) { SameIsHashable(v, w); }
  }

  /* ---------- answers that stand ---------- */

  /** What someone who makes a request is told by a receipt that was completed with `reply` for the request `of`. */
  function Told(reply: Reply, of: Json, request: Json): Phase {
    if !Hashable(request) then Thrown(400)
    else if !Same(of, request) then Thrown(409)
    else if reply.status >= 400 then Thrown(reply.status)
    else Returned(reply.body)
  }

  lemma CompletedTells(s: State, d: Id, token: Id, now: Time, of: Json)
    requires Inv(s) && Enabled(s, Begin(d, token, now)) && s.callers[d].key in s.records && s.records[s.callers[d].key].reply.Some?
    requires IsValue(of) && HashOf(of) == Ok(s.records[s.callers[d].key].hash)
    ensures var s' := Step(s, Begin(d, token, now));
            s'.records == s.records && s'.callers[d].phase == Told(s.records[s.callers[d].key].reply.value, of, s.callers[d].request)
  {
    assert IsValue(s.callers[d].request);
    HashesTell(of, s.callers[d].request);
    hide Inv, Same, Hashable, IsValue, HashOf;
  }

  /** Whatever happens after a receipt was completed, it tells everyone the same, and nobody runs under its key again. */
  lemma AnswerStands(s: State, es: seq<Event>, k: Key, of: Json, d: Id, token: Id, now: Time)
    requires Inv(s) && RunsFrom(s, es) && k in s.records && s.records[k].reply.Some? && IsValue(of) && HashOf(of) == Ok(s.records[k].hash)
    requires Enabled(After(s, es), Begin(d, token, now)) && After(s, es).callers[d].key == k
    ensures var s' := Step(After(s, es), Begin(d, token, now));
            s'.records == After(s, es).records && s'.callers[d].phase == Told(s.records[k].reply.value, of, s'.callers[d].request)
  {
    hide Inv, Step, Told, HashOf, IsValue;
    RunsKeep(s, es);
    ReceiptsGrow(s, es);
    CompletedTells(After(s, es), d, token, now, of);
    OnlyPhaseMoves(After(s, es), d, token, now);
  }

  lemma OnlyPhaseMoves(s: State, d: Id, token: Id, now: Time)
    requires Enabled(s, Begin(d, token, now))
    ensures d in Step(s, Begin(d, token, now)).callers && Step(s, Begin(d, token, now)).callers[d].request == s.callers[d].request
  {
    hide HashOf;
  }

  /** The caller works under the claim its receipt is open for. */
  predicate HoldsOpen(s: State, c: Id) {
    c in s.callers && (s.callers[c].phase.Running? || s.callers[c].phase.Failing?) && s.callers[c].key in s.records
    && s.records[s.callers[c].key].reply == None && s.records[s.callers[c].key].claim == s.callers[c].phase.token
  }

  lemma OwnersHash(s: State, c: Id)
    requires Inv(s) && HoldsOpen(s, c)
    ensures IsValue(s.callers[c].request) && HashOf(s.callers[c].request) == Ok(s.records[s.callers[c].key].hash)
    ensures s.callers[c].phase.resource == s.records[s.callers[c].key].resource
  {
    assert Matches(s.records, s.tokens, s.callers[c]);
  }

  lemma ReportStores(s: State, c: Id)
    requires Inv(s) && HoldsOpen(s, c) && s.callers[c].phase.Failing?
    ensures
      var caller, s' := s.callers[c], Step(s, Report(c));
      c in s'.callers && s'.callers[c].phase == Thrown(caller.phase.error.status)
      && s'.records == if caller.completeServerErrors || caller.phase.error.status < 500
                       then s.records[caller.key := s.records[caller.key].(reply := Some(caller.phase.error))] else s.records
  {
    OwnersHash(s, c);
    hide Inv, HashOf, IsValue;
  }

  /**
   A caller that holds the open claim reports an error, and completes server errors or the error is none: from then on
   everyone who makes the request gets exactly that status, nobody runs again, and nobody has returned a value.
   */
  lemma ReportedErrorStands(s: State, c: Id, es: seq<Event>, d: Id, token: Id, now: Time)
    requires Inv(s) && FailuresAreErrors(s) && HoldsOpen(s, c) && Enabled(s, Report(c)) && RunsFrom(Step(s, Report(c)), es)
    requires s.callers[c].completeServerErrors || s.callers[c].phase.error.status < 500
    requires Enabled(After(Step(s, Report(c)), es), Begin(d, token, now)) && After(Step(s, Report(c)), es).callers[d].key == s.callers[c].key
    ensures
      var caller, before := s.callers[c], After(Step(s, Report(c)), es);
      var after := Step(before, Begin(d, token, now));
      after.records == before.records && !after.callers[d].phase.Running?
      && (Same(caller.request, after.callers[d].request) ==> after.callers[d].phase == Thrown(caller.phase.error.status))
  {
    OwnersHash(s, c);
    ReportStores(s, c);
    StepKeeps(s, Report(c));
    hide Inv, Step, HashOf, IsValue;
    AnswerStands(Step(s, Report(c)), es, s.callers[c].key, s.callers[c].request, d, token, now);
    var before := After(Step(s, Report(c)), es);
    OnlyPhaseMoves(before, d, token, now);
    RunsKeepValues(Step(s, Report(c)), es, d);
    if Same(s.callers[c].request, before.callers[d].request) { HashableOfHash(s.callers[c].request); SameIsHashable(s.callers[c].request, before.callers[d].request); }
  }

  lemma HashableOfHash(v: Json)
    requires IsValue(v) && HashOf(v).Ok?
    ensures Hashable(v)
  {
    HashesTell(v, v);
  }

  lemma RunsKeepValues(s: State, es: seq<Event>, d: Id)
    requires Inv(s) && RunsFrom(s, es) && d in After(s, es).callers
    ensures IsValue(After(s, es).callers[d].request)
  {
    RunsKeep(s, es);
  }

  /** Whoever fails has an error to report. */
  predicate FailuresAreErrors(s: State) {
    forall c :: c in s.callers && s.callers[c].phase.Failing? ==> s.callers[c].phase.error.status >= 400
  }

  lemma {:induction false} RunsKeepErrors(s: State, es: seq<Event>)
    requires FailuresAreErrors(s) && RunsFrom(s, es)
    ensures FailuresAreErrors(After(s, es))
    decreases |es|
  {
    if es != [] {
      StepKeepsErrors(s, es[0]);
      RunsKeepErrors(Step(s, es[0]), es[1..]);
    }
  }

  lemma StepKeepsErrors(s: State, e: Event)
    requires FailuresAreErrors(s) && Enabled(s, e)
    ensures FailuresAreErrors(Step(s, e))
  {
    hide HashOf;
  }

  /* ---------- what a caller meets at its receipt ---------- */

  /** A caller arrives with what it was called with, and has done nothing yet. */
  lemma ArrivalIsKept(s: State, c: Id, key: Key, request: Json, resource: Resource, completeServerErrors: bool)
    requires Enabled(s, Arrive(c, key, request, resource, completeServerErrors))
    ensures Step(s, Arrive(c, key, request, resource, completeServerErrors))
            == s.(callers := s.callers[c := Caller(key, request, resource, completeServerErrors, Arrived)])
  {
  }

  /** A request without a hash never reaches the store, a key nobody used is claimed for half a minute. */
  lemma FirstToBegin(s: State, d: Id, token: Id, now: Time)
    requires Inv(s) && Enabled(s, Begin(d, token, now))
    ensures
      var caller, s' := s.callers[d], Step(s, Begin(d, token, now));
      if !Hashable(caller.request) then s'.records == s.records && s'.callers[d].phase == Thrown(400)
      else caller.key !in s.records ==>
             HashOf(caller.request).Ok? && s'.callers[d].phase == Running(token, caller.resource)
             && s'.records == s.records[caller.key := Record(HashOf(caller.request).value, caller.resource, token, now + 30_000, None)]
  {
    assert IsValue(s.callers[d].request);
    HashedBytesIdentifyTheRequest(s.callers[d].request, s.callers[d].request);
    hide Inv, Hashable, IsValue;
  }

  /** An open receipt turns everyone away while its lease runs, and another request also later; then the first to come takes it over. */
  lemma OpenReceiptTells(s: State, d: Id, token: Id, now: Time, of: Json)
    requires Inv(s) && Enabled(s, Begin(d, token, now)) && s.callers[d].key in s.records && s.records[s.callers[d].key].reply == None
    requires IsValue(of) && HashOf(of) == Ok(s.records[s.callers[d].key].hash) && Hashable(s.callers[d].request)
    ensures
      var record, s' := s.records[s.callers[d].key], Step(s, Begin(d, token, now));
      if Same(of, s.callers[d].request) && record.lease <= now
      then s'.callers[d].phase == Running(token, record.resource)
           && s'.records == s.records[s.callers[d].key := record.(claim := token, lease := now + 30_000)]
      else s'.callers[d].phase == Thrown(409) && s'.records == s.records
  {
    assert IsValue(s.callers[d].request);
    HashesTell(of, s.callers[d].request);
    hide Inv, Same, Hashable, IsValue, HashOf;
  }

  /** A server error of a caller that wants to be retried leaves the receipt open: once the lease is over the next one runs. */
  lemma ServerErrorIsRetried(s: State, c: Id, es: seq<Event>, d: Id, token: Id, now: Time)
    requires Inv(s) && HoldsOpen(s, c) && Enabled(s, Report(c)) && RunsFrom(Step(s, Report(c)), es)
    requires !s.callers[c].completeServerErrors && s.callers[c].phase.error.status >= 500
    requires var k, before := s.callers[c].key, After(Step(s, Report(c)), es);
             k in before.records && before.records[k] == s.records[k] && Enabled(before, Begin(d, token, now)) && before.callers[d].key == k
    requires Same(s.callers[c].request, After(Step(s, Report(c)), es).callers[d].request) && now >= s.records[s.callers[c].key].lease
    ensures Step(s, Report(c)).records == s.records
    ensures
      var after := Step(After(Step(s, Report(c)), es), Begin(d, token, now));
      d in after.callers && after.callers[d].phase == Running(token, s.records[s.callers[c].key].resource)
  {
    OwnersHash(s, c);
    ReportStores(s, c);
    StepKeeps(s, Report(c));
    var before := After(Step(s, Report(c)), es);
    RunsKeep(Step(s, Report(c)), es);
    RunsKeepValues(Step(s, Report(c)), es, d);
    HashableOfHash(s.callers[c].request);
    SameIsHashable(s.callers[c].request, before.callers[d].request);
    hide Inv, Step, HashOf, IsValue, Hashable, Same;
    OpenReceiptTells(before, d, token, now, s.callers[c].request);
    OnlyPhaseMoves(before, d, token, now);
  }

  /* ---------- values ---------- */

  /** The mutation of a caller has ended: its response or its error is its own, and a response is returned only with the claim. */
  lemma EndOfMutation(s: State, c: Id, response: Id, error: Reply)
    requires Inv(s) && c in s.callers && s.callers[c].phase.Running? && error.status >= 400
    ensures s.callers[c].key in s.records
    ensures
      var caller, s1, s2 := s.callers[c], Step(s, Succeed(c, response)), Step(s, Fail(c, error));
      var record := s.records[caller.key];
      s2 == s.(callers := s.callers[c := caller.(phase := Failing(caller.phase.token, caller.phase.resource, error))])
      && (HoldsOpen(s, c) ==>
            s1.records == s.records[caller.key := record.(reply := Some(Reply(200, response)))] && s1.callers[c].phase == Returned(response))
      && (!HoldsOpen(s, c) ==>
            s1.records == s.records
            && s1.callers[c].phase == if record.claim == caller.phase.token && record.reply == Some(Reply(200, response)) then Returned(response)
                                      else Failing(caller.phase.token, caller.phase.resource, Reply(409, 0)))
  {
    assert Matches(s.records, s.tokens, s.callers[c]);
    hide Inv, HashOf, IsValue;
  }

  /** What the mutation completes inside its own transaction counts while its caller holds the open claim, and only then. */
  lemma InsideStores(s: State, c: Id, reply: Reply)
    requires Inv(s) && Enabled(s, CompleteInside(c, reply))
    ensures Step(s, CompleteInside(c, reply)).callers == s.callers
    ensures
      Step(s, CompleteInside(c, reply)).records
      == if HoldsOpen(s, c) then s.records[s.callers[c].key := s.records[s.callers[c].key].(reply := Some(reply))] else s.records
  {
    assert Matches(s.records, s.tokens, s.callers[c]);
    hide Inv, HashOf, IsValue;
  }

  /** A returned value stands: everyone who makes the request later gets it, and nobody runs again. */
  lemma ReturnedValueStands(s: State, c: Id, response: Id, es: seq<Event>, d: Id, token: Id, now: Time)
    requires Inv(s) && HoldsOpen(s, c) && Enabled(s, Succeed(c, response)) && RunsFrom(Step(s, Succeed(c, response)), es)
    requires Enabled(After(Step(s, Succeed(c, response)), es), Begin(d, token, now))
    requires After(Step(s, Succeed(c, response)), es).callers[d].key == s.callers[c].key
    ensures
      var before := After(Step(s, Succeed(c, response)), es);
      var after := Step(before, Begin(d, token, now));
      Step(s, Succeed(c, response)).callers[c].phase == Returned(response)
      && after.records == before.records && !after.callers[d].phase.Running?
      && (Same(s.callers[c].request, after.callers[d].request) ==> after.callers[d].phase == Returned(response))
  {
    var s1 := Step(s, Succeed(c, response));
    OwnersHash(s, c);
    EndOfMutation(s, c, response, Reply(400, 0));
    StepKeeps(s, Succeed(c, response));
    hide Inv, Step, HashOf, IsValue, Same, Hashable;
    AnswerStands(s1, es, s.callers[c].key, s.callers[c].request, d, token, now);
    var before := After(s1, es);
    OnlyPhaseMoves(before, d, token, now);
    RunsKeepValues(s1, es, d);
    if Same(s.callers[c].request, before.callers[d].request) { HashableOfHash(s.callers[c].request); SameIsHashable(s.callers[c].request, before.callers[d].request); }
  }

  /* ---------- claims that last ---------- */

  /** Nobody begins under the key at `until` or later. */
  ghost predicate NobodyLate(s: State, es: seq<Event>, k: Key, until: Time)
    requires RunsFrom(s, es)
    decreases |es|
  {
    es == [] || ((es[0].Begin? && s.callers[es[0].caller].key == k ==> es[0].now < until) && NobodyLate(Step(s, es[0]), es[1..], k, until))
  }

  lemma ClaimStays(s: State, e: Event, k: Key)
    requires Enabled(s, e) && k in s.records && (e.Begin? && s.callers[e.caller].key == k ==> e.now < s.records[k].lease)
    ensures k in Step(s, e).records
    ensures var a, b := s.records[k], Step(s, e).records[k]; b.claim == a.claim && b.lease == a.lease && b.hash == a.hash && b.resource == a.resource
  {
    hide HashOf;
  }

  lemma {:induction false} ClaimLasts(s: State, es: seq<Event>, k: Key)
    requires RunsFrom(s, es) && k in s.records && NobodyLate(s, es, k, s.records[k].lease)
    ensures k in After(s, es).records
    ensures var a, b := s.records[k], After(s, es).records[k]; b.claim == a.claim && b.lease == a.lease && b.hash == a.hash && b.resource == a.resource
    decreases |es|
  {
    hide Step;
    if es != [] {
      ClaimStays(s, es[0], k);
      ClaimLasts(Step(s, es[0]), es[1..], k);
    }
  }

  /**
   A claim granted at `start` lasts half a minute: until then nobody else runs, however many begin and whatever else
   happens; the first to make the request after that takes over, unless the receipt was completed.
   */
  lemma ClaimIsForHalfAMinute(s: State, c: Id, claim: Id, start: Time, es: seq<Event>, d: Id, token: Id, now: Time)
    requires Inv(s) && Enabled(s, Begin(c, claim, start)) && Step(s, Begin(c, claim, start)).callers[c].phase.Running?
    requires RunsFrom(Step(s, Begin(c, claim, start)), es) && NobodyLate(Step(s, Begin(c, claim, start)), es, s.callers[c].key, start + 30_000)
    requires Enabled(After(Step(s, Begin(c, claim, start)), es), Begin(d, token, now))
    requires After(Step(s, Begin(c, claim, start)), es).callers[d].key == s.callers[c].key
    ensures
      var k, before := s.callers[c].key, After(Step(s, Begin(c, claim, start)), es);
      k in before.records && before.records[k].claim == claim
      && (Step(before, Begin(d, token, now)).callers[d].phase.Running?
          <==> now >= start + 30_000 && before.records[k].reply == None && Same(s.callers[c].request, before.callers[d].request))
  {
    var k, s1 := s.callers[c].key, Step(s, Begin(c, claim, start));
    Claimed(s, c, claim, start);
    StepKeeps(s, Begin(c, claim, start));
    RunsKeep(s1, es);
    RunsKeepValues(s1, es, d);
    hide Inv, Step, HashOf, IsValue, Same, Hashable;
    ClaimLasts(s1, es, k);
    var before := After(s1, es);
    Meets(before, d, token, now, s.callers[c].request);
  }

  lemma Claimed(s: State, c: Id, claim: Id, start: Time)
    requires Inv(s) && Enabled(s, Begin(c, claim, start)) && Step(s, Begin(c, claim, start)).callers[c].phase.Running?
    ensures var k, s1 := s.callers[c].key, Step(s, Begin(c, claim, start));
            k in s1.records && s1.records[k].claim == claim && s1.records[k].lease == start + 30_000
            && IsValue(s.callers[c].request) && HashOf(s.callers[c].request) == Ok(s1.records[k].hash)
  {
    assert IsValue(s.callers[c].request);
    hide Inv, HashOf, IsValue;
  }

  /** Who runs after meeting a stored receipt. */
  lemma Meets(s: State, d: Id, token: Id, now: Time, of: Json)
    requires Inv(s) && Enabled(s, Begin(d, token, now)) && s.callers[d].key in s.records
    requires IsValue(of) && HashOf(of) == Ok(s.records[s.callers[d].key].hash)
    ensures var record := s.records[s.callers[d].key];
            Step(s, Begin(d, token, now)).callers[d].phase.Running?
            <==> now >= record.lease && record.reply == None && Same(of, s.callers[d].request)
  {
    RunsKeepValues(s, [], d);
    HashesTell(of, s.callers[d].request);
    if s.records[s.callers[d].key].reply.Some? {
      CompletedTells(s, d, token, now, of);
    } else if Hashable(s.callers[d].request) {
      OpenReceiptTells(s, d, token, now, of);
    } else {
      FirstToBegin(s, d, token, now);
    }
  }
}
