/**
 The protocol as the code of a caller runs it: each method is the stretch between two awaits, on a store that other
 callers share.
 */
module MutationCalls {
  import opened Basics
  import opened Receipts
  import opened CanonicalJson
  import opened IdempotentMutation

  class Calls {
    var records: map<Key, Record<Hash, Reply>>
    var callers: map<Id, Caller>
    var tokens: set<Id>

    function View(): State
      reads this
    {
      State(records, callers, tokens)
    }

    ghost predicate Valid()
      reads this
    {
      Inv(View())
    }

    constructor ()
      ensures View() == EMPTY && Valid()
    {
      records, callers, tokens := map[], map[], {};
    }

    method Arrive(c: Id, key: Key, request: Json, resource: Resource, completeServerErrors: bool)
      requires Valid() && Enabled(View(), Event.Arrive(c, key, request, resource, completeServerErrors))
      modifies `callers
      ensures View() == Step(old(View()), Event.Arrive(c, key, request, resource, completeServerErrors)) && Valid()
    {
      hide Inv;
      StepKeeps(View(), Event.Arrive(c, key, request, resource, completeServerErrors));
      callers := callers[c := Caller(key, request, resource, completeServerErrors, Arrived)];
    }

    /** Hashes the request, draws a token and begins; whoever does not get the claim is done. */
    method Begin(c: Id, token: Id, now: Time)
      requires Valid() && Enabled(View(), Event.Begin(c, token, now))
      modifies this
      ensures View() == Step(old(View()), Event.Begin(c, token, now)) && Valid()
    {
      hide Inv, HashOf;
      StepKeeps(View(), Event.Begin(c, token, now));
      var caller := callers[c];
      var hash := HashOf(caller.request);
      if hash.Err? {
        callers := callers[c := caller.(phase := Thrown(400))];
        return;
      }
      tokens := tokens + {token};
      if caller.key !in records {
        records := records[caller.key := Record(hash.value, caller.resource, token, now + LEASE, None)];
        callers := callers[c := caller.(phase := Running(token, caller.resource))];
        return;
      }
      var record := records[caller.key];
      if record.hash != hash.value {
        callers := callers[c := caller.(phase := Thrown(409))];
      } else if record.reply.Some? {
        var reply := record.reply.value;
        callers := callers[c := caller.(phase := if reply.status >= 400 then Thrown(reply.status) else Returned(reply.body))];
      } else if record.lease > now {
        callers := callers[c := caller.(phase := Thrown(409))];
      } else {
        records := records[caller.key := record.(claim := token, lease := now + LEASE)];
        callers := callers[c := caller.(phase := Running(token, record.resource))];
      }
    }

    /** The store's completion, on behalf of a caller. */
    method Complete(caller: Caller, token: Id, reply: Reply) returns (ok: bool)
      modifies `records
      ensures (records, ok) == CompleteFor(old(View()), caller, token, reply)
    {
      hide HashOf;
      var hash := HashOf(caller.request);
      if hash.Err? { return false; }
      var (completed, done) := Receipts.Complete(records, caller.key, hash.value, token, reply);
      records := completed;
      return done;
    }

    /** The mutation has a response; it is returned only if the store accepts it. */
    method Succeed(c: Id, response: Id)
      requires Valid() && Enabled(View(), Event.Succeed(c, response))
      modifies this
      ensures View() == Step(old(View()), Event.Succeed(c, response)) && Valid()
    {
      hide Inv, CompleteFor;
      StepKeeps(View(), Event.Succeed(c, response));
      var caller := callers[c];
      var completed := Complete(caller, caller.phase.token, Reply(200, response));
      if completed {
        callers := callers[c := caller.(phase := Returned(response))];
      } else {
        callers := callers[c := caller.(phase := Failing(caller.phase.token, caller.phase.resource, Reply(409, 0)))];
      }
    }

    method Fail(c: Id, error: Reply)
      requires Valid() && Enabled(View(), Event.Fail(c, error))
      modifies `callers
      ensures View() == Step(old(View()), Event.Fail(c, error)) && Valid()
    {
      hide Inv;
      StepKeeps(View(), Event.Fail(c, error));
      callers := callers[c := callers[c].(phase := Failing(callers[c].phase.token, callers[c].phase.resource, error))];
    }

    /** The error is stored, unless server errors are to be retried, and thrown whether or not that worked. */
    method Report(c: Id)
      requires Valid() && Enabled(View(), Event.Report(c))
      modifies this
      ensures View() == Step(old(View()), Event.Report(c)) && Valid()
    {
      hide Inv, CompleteFor;
      StepKeeps(View(), Event.Report(c));
      var caller := callers[c];
      var error := caller.phase.error;
      if caller.completeServerErrors || error.status < 500 { var _ := Complete(caller, caller.phase.token, error); }
      callers := callers[c := caller.(phase := Thrown(error.status))];
    }
  }
}
