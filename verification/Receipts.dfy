/**
 The idempotency receipts of the product store: one record per (actor, project, operation, key),
 claimed under a lease and completed once with a reply.
 */
module Receipts {
  import opened Basics

  datatype Operation =
    | CreateTask
    | SendMessage
    | TerminalStart
    | DeleteMessage
    | ReleaseSandbox
    | DeleteTask
    | DeleteLibrary
    | DeleteProject
    | Other(name: Id)

  /** What a receipt is about. Identifiers of different kinds carry different prefixes, so they never collide. */
  datatype Resource = OnTask(id: Id) | OnRun(id: Id) | OnMessage(id: Id) | OnLibrary(id: Id) | OnProject(id: Id) | OnOther(id: Id)

  datatype Key = Key(actor: Id, project: Id, operation: Operation, key: Id)

  /** A receipt is in progress until it has a reply. */
  datatype Record<+H, +B> = Record(hash: H, resource: Resource, claim: Id, lease: Time, reply: Option<B>)

  datatype Claiming<+H> = Claiming(key: Key, hash: H, resource: Resource, token: Id, now: Time, lease: Time)

  datatype ClaimResult<+B> = Claimed(resource: Resource) | HashMismatch | InProgress(owner: Resource) | Replay(reply: B)

  /** A first claim, which stores the caller's resource. */
  function Opened<H, B>(c: Claiming<H>): Record<H, B> {
    Record(c.hash, c.resource, c.token, c.lease, None)
  }

  /**
   The claim made inside a larger mutation: the holder of the token may claim again before its lease ends.
   */
  function Claim<H(==), B>(records: map<Key, Record<H, B>>, c: Claiming<H>): (map<Key, Record<H, B>>, ClaimResult<B>) {
    if c.key !in records then
      (records[c.key := Opened(c)], Claimed(c.resource))
    else
      var existing := records[c.key];
      if existing.hash != c.hash then (records, HashMismatch)
      else if existing.reply.Some? then (records, Replay(existing.reply.value))
      else if existing.claim != c.token && existing.lease > c.now then (records, InProgress(existing.resource))
      else (records[c.key := existing.(claim := c.token, lease := c.lease)], Claimed(existing.resource))
  }

  /** The claim made on its own: a live lease refuses everyone, its holder included. */
  function Begin<H(==), B>(records: map<Key, Record<H, B>>, c: Claiming<H>): (map<Key, Record<H, B>>, ClaimResult<B>) {
    if c.key !in records then
      (records[c.key := Opened(c)], Claimed(c.resource))
    else
      var existing := records[c.key];
      if existing.hash != c.hash then (records, HashMismatch)
      else if existing.reply.Some? then (records, Replay(existing.reply.value))
      else if existing.lease > c.now then (records, InProgress(existing.resource))
      else (records[c.key := existing.(claim := c.token, lease := c.lease)], Claimed(existing.resource))
  }

  /** Completion inside a larger mutation; it is refused unless the caller still holds an open claim. */
  predicate Holds<H(==), B>(records: map<Key, Record<H, B>>, key: Key, hash: H, token: Id) {
    key in records && records[key].reply.None? && records[key].hash == hash && records[key].claim == token
  }

  function Completed<H, B>(records: map<Key, Record<H, B>>, key: Key, reply: B): map<Key, Record<H, B>>
    requires key in records
  {
    records[key := records[key].(reply := Some(reply))]
  }

  /** Completion made on its own. Repeating it with the same reply succeeds; a different reply is refused. */
  function Complete<H(==), B(==)>(records: map<Key, Record<H, B>>, key: Key, hash: H, token: Id, reply: B)
    : (map<Key, Record<H, B>>, bool)
  {
    if key !in records || records[key].hash != hash || records[key].claim != token then (records, false)
    else if records[key].reply.Some? then (records, records[key].reply.value == reply)
    else (Completed(records, key, reply), true)
  }

  /** Completes every open receipt of one operation on one resource. */
  function CompletedWhere<H, B>(records: map<Key, Record<H, B>>, keys: set<Key>, reply: B): map<Key, Record<H, B>>
  {
    map k | k in records :: if k in keys then records[k].(reply := Some(reply)) else records[k]
  }

  /* ---------- the laws of receipts ---------- */

  /** A claim that succeeds, or finds another one in progress, names the stored resource. */
  lemma ClaimNamesResource<H, B>(records: map<Key, Record<H, B>>, c: Claiming<H>)
    ensures var (after, r) := Claim(records, c);
            c.key in after && (!r.Claimed? ==> after == records)
            && (r.Claimed? ==> after[c.key].resource == r.resource) && (r.InProgress? ==> after[c.key].resource == r.owner)
  {
  }

  /** Exactly the caller whose claim succeeded holds the receipt afterwards; any other answer changes nothing. */
  lemma ClaimDecidesHolder<H(!new), B(!new)>(records: map<Key, Record<H, B>>, c: Claiming<H>, alone: bool)
    ensures
      var (after, r) := if alone then Begin(records, c) else Claim(records, c);
      if r.Claimed? then
        (forall hash, token :: Holds(after, c.key, hash, token) <==> hash == c.hash && token == c.token)
        && after[c.key].resource == r.resource && after - {c.key} == records - {c.key}
        && (c.key in records ==> !(records[c.key].lease > c.now && (alone || records[c.key].claim != c.token)))
      else after == records && c.key in records
  {
  }

  /** The four answers to a claim, and when it is granted: for a key nobody used, or for an open receipt of the same request whose lease is over. */
  lemma ClaimTells<H, B>(records: map<Key, Record<H, B>>, c: Claiming<H>, alone: bool)
    ensures
      var (after, r) := if alone then Begin(records, c) else Claim(records, c);
      if c.key !in records then r == Claimed(c.resource) && after == records[c.key := Record(c.hash, c.resource, c.token, c.lease, None)]
      else
        var e := records[c.key];
        var refused := e.lease > c.now && (alone || e.claim != c.token);
        (r == if e.hash != c.hash then HashMismatch else if e.reply.Some? then Replay(e.reply.value) else if refused then InProgress(e.resource) else Claimed(e.resource))
        && (after == if r.Claimed? then records[c.key := Record(e.hash, e.resource, c.token, c.lease, None)] else records)
  {
  }

  /** Only the holder completes, once; the same reply again is accepted and changes nothing. */
  lemma CompletionTells<H, B>(records: map<Key, Record<H, B>>, key: Key, hash: H, token: Id, reply: B)
    ensures
      var (after, ok) := Complete(records, key, hash, token, reply);
      var mine := key in records && records[key].hash == hash && records[key].claim == token;
      (ok <==> mine && (records[key].reply == None || records[key].reply == Some(reply)))
      && (after == if mine && records[key].reply == None then records[key := Record(hash, records[key].resource, token, records[key].lease, Some(reply))] else records)
  {
  }

  /** Answering receipts in bulk answers those and leaves everything else of them, and all others, alone. */
  lemma BulkAnswers<H, B>(records: map<Key, Record<H, B>>, keys: set<Key>, reply: B, k: Key)
    ensures k in CompletedWhere(records, keys, reply) <==> k in records
    ensures k in records ==>
              CompletedWhere(records, keys, reply)[k]
              == Record(records[k].hash, records[k].resource, records[k].claim, records[k].lease, if k in keys then Some(reply) else records[k].reply)
  {
  }

  datatype Access<+H, +B> =
    | Claims(claiming: Claiming<H>)
    | Begins(claiming: Claiming<H>)
    | Completes(key: Key, hash: H, token: Id, reply: B)
  {
    function Of(): Key { if Completes? then key else claiming.key }

    function By(): Id { if Completes? then token else claiming.token }
  }

  function Accessed<H(==), B(==)>(records: map<Key, Record<H, B>>, a: Access<H, B>): map<Key, Record<H, B>> {
    match a
    case Claims(c) => Claim(records, c).0
    case Begins(c) => Begin(records, c).0
    case Completes(key, hash, token, reply) => Complete(records, key, hash, token, reply).0
  }

  function AccessedAll<H(==), B(==)>(records: map<Key, Record<H, B>>, accesses: seq<Access<H, B>>): map<Key, Record<H, B>>
    decreases |accesses|
  {
    if accesses == [] then records else AccessedAll(Accessed(records, accesses[0]), accesses[1..])
  }

  /** However callers claim and complete, a receipt keeps its request and its resource, and a completed one everything. */
  lemma {:induction false} ReceiptsOnlyGrow<H, B>(records: map<Key, Record<H, B>>, accesses: seq<Access<H, B>>, k: Key)
    requires k in records
    ensures
      var after := AccessedAll(records, accesses);
      k in after && after[k].hash == records[k].hash && after[k].resource == records[k].resource
      && (records[k].reply.Some? ==> after[k] == records[k])
    decreases |accesses|
  {
    if accesses != [] { ReceiptsOnlyGrow(Accessed(records, accesses[0]), accesses[1..], k); }
  }

  /** An access to the receipt that its holder did not make, while the lease of the holder runs. */
  predicate Intrudes<H, B>(a: Access<H, B>, holder: Id, lease: Time) {
    a.By() != holder && (!a.Completes? ==> a.claiming.now < lease)
  }

  /** While the lease of a claim runs, no other caller does anything to the receipt, however many of them try. */
  lemma {:induction false} LeaseIsExclusive<H, B>(records: map<Key, Record<H, B>>, accesses: seq<Access<H, B>>, k: Key)
    requires k in records && records[k].reply.None?
    requires forall i :: 0 <= i < |accesses| && accesses[i].Of() == k ==> Intrudes(accesses[i], records[k].claim, records[k].lease)
    ensures k in AccessedAll(records, accesses) && AccessedAll(records, accesses)[k] == records[k]
    decreases |accesses|
  {
    if accesses != [] { LeaseIsExclusive(Accessed(records, accesses[0]), accesses[1..], k); }
  }

  /**
   A successful claim lasts as long as its lease: whatever others try until then, its caller alone holds the receipt,
   for the request and the resource it was told.
   */
  lemma ClaimIsExclusive<H(!new), B(!new)>(records: map<Key, Record<H, B>>, c: Claiming<H>, alone: bool, accesses: seq<Access<H, B>>)
    requires (if alone then Begin(records, c) else Claim(records, c)).1.Claimed?
    requires forall i :: 0 <= i < |accesses| && accesses[i].Of() == c.key ==> Intrudes(accesses[i], c.token, c.lease)
    ensures
      var (claimed, r) := if alone then Begin(records, c) else Claim(records, c);
      var after := AccessedAll(claimed, accesses);
      c.key in after && after[c.key].resource == r.resource
      && forall hash, token :: Holds(after, c.key, hash, token) <==> hash == c.hash && token == c.token
  {
    ClaimDecidesHolder(records, c, alone);
    LeaseIsExclusive((if alone then Begin(records, c) else Claim(records, c)).0, accesses, c.key);
  }

  /** However callers claim and complete, a completed receipt answers everyone who makes its request with its one reply. */
  lemma ReplyIsFinal<H, B>(records: map<Key, Record<H, B>>, key: Key, hash: H, token: Id, reply: B, accesses: seq<Access<H, B>>, c: Claiming<H>, other: B)
    requires Holds(records, key, hash, token) && c.key == key
    ensures
      var after := AccessedAll(Complete(records, key, hash, token, reply).0, accesses);
      Claim(after, c) == Begin(after, c) == (after, if c.hash == hash then Replay(reply) else HashMismatch)
      && Complete(after, key, hash, token, other) == (after, other == reply)
  {
    ReceiptsOnlyGrow(Complete(records, key, hash, token, reply).0, accesses, key);
  }
}
