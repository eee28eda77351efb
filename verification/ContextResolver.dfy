/**
 The agent-context resolver: entries streamed page by page from four scopes, the first one of each key kept, and the
 size of the text known at every step without rendering it.
 */
module ContextResolver {
  import opened Basics
  import opened Utf16
  import opened Sorting
  import opened ContextText

  /** Which entries one listing is about. */
  datatype Bucket = Bucket(workspace: Id, project: Option<Id>, scope: Scope, owner: Option<Id>)

  function BucketOf(e: Entry): Bucket {
    Bucket(e.workspace, e.project, e.scope, e.owner)
  }

  /* ---------- one page of a listing ---------- */

  /** The store compares keys by their UTF-8 bytes. */
  predicate ByBytes(a: Entry, b: Entry) {
    LexLe(Encode(a.key), Encode(b.key))
  }

  predicate IsAfter(e: Entry, after: Option<Text>) {
    after.Some? ==> !LexLe(Encode(e.key), Encode(after.value))
  }

  /** `contexts` lists the stored entries in the order in which they were created. */
  function Matching(contexts: seq<Entry>, b: Bucket, after: Option<Text>): seq<Entry> {
    if contexts == [] then []
    else
      var e := contexts[|contexts| - 1];
      Matching(contexts[..|contexts| - 1], b, after) + if BucketOf(e) == b && IsAfter(e, after) then [e] else []
  }

  function Take(es: seq<Entry>, limit: nat): seq<Entry> {
    if |es| <= limit then es else es[..limit]
  }

  function Listing(contexts: seq<Entry>, b: Bucket): seq<Entry> {
    Sort(Matching(contexts, b, None), ByBytes)
  }

  /** The store keeps one entry per key and bucket; it compares keys code unit by code unit. */
  predicate KeysDiffer(contexts: seq<Entry>, b: Bucket) {
    forall i, j :: 0 <= i < j < |contexts| && BucketOf(contexts[i]) == b && BucketOf(contexts[j]) == b ==> contexts[i].key != contexts[j].key
  }

  /* ---------- the writes that keep keys apart ---------- */

  /** `current`: the version presented with an update is the stored one. */
  datatype Edit = Create(entry: Entry) | Update(entry: Entry, current: bool) | Delete(index: nat)

  predicate KeyIsTaken(contexts: seq<Entry>, e: Entry, except: Option<Id>) {
    exists i :: 0 <= i < |contexts| && Some(contexts[i].id) != except && BucketOf(contexts[i]) == BucketOf(e) && contexts[i].key == e.key
  }

  predicate IsStored(contexts: seq<Entry>, id: Id) {
    exists i :: 0 <= i < |contexts| && contexts[i].id == id
  }

  /** The entry is stored under its identifier, in the place of the one that was there. */
  function Put(contexts: seq<Entry>, e: Entry): seq<Entry> {
    if IsStored(contexts, e.id)
    then seq(|contexts|, i requires 0 <= i < |contexts| => if contexts[i].id == e.id then e else contexts[i])
    else contexts + [e]
  }

  function Edited(contexts: seq<Entry>, edit: Edit): seq<Entry> {
    match edit
    case Create(e) => if KeyIsTaken(contexts, e, None) then contexts else Put(contexts, e)
    case Update(e, current) => if !IsStored(contexts, e.id) || !current || KeyIsTaken(contexts, e, Some(e.id)) then contexts else Put(contexts, e)
    case Delete(i) => if i < |contexts| then contexts[..i] + contexts[i + 1..] else contexts
  }

  function AllEdited(contexts: seq<Entry>, edits: seq<Edit>): seq<Entry>
    decreases |edits|
  {
    if edits == [] then contexts else AllEdited(Edited(contexts, edits[0]), edits[1..])
  }

  predicate IdsDiffer(contexts: seq<Entry>) {
    forall i, j :: 0 <= i < j < |contexts| ==> contexts[i].id != contexts[j].id
  }

  lemma PutKeepsKeysApart(contexts: seq<Entry>, e: Entry, b: Bucket)
    requires IdsDiffer(contexts) && KeysDiffer(contexts, b) && !KeyIsTaken(contexts, e, Some(e.id))
    ensures IdsDiffer(Put(contexts, e)) && KeysDiffer(Put(contexts, e), b)
  {
    forall i | 0 <= i < |contexts| && contexts[i].id != e.id ensures BucketOf(contexts[i]) != BucketOf(e) || contexts[i].key != e.key {}
  }

  /** Whatever is written, every scope holds each key once. */
  lemma {:induction false} WritesKeepKeysApart(contexts: seq<Entry>, edits: seq<Edit>, b: Bucket)
    requires IdsDiffer(contexts) && KeysDiffer(contexts, b)
    ensures IdsDiffer(AllEdited(contexts, edits)) && KeysDiffer(AllEdited(contexts, edits), b)
    decreases |edits|
  {
    if edits != [] {
      if !edits[0].Delete? && !KeyIsTaken(contexts, edits[0].entry, Some(edits[0].entry.id)) { PutKeepsKeysApart(contexts, edits[0].entry, b); }
      WritesKeepKeysApart(Edited(contexts, edits[0]), edits[1..], b);
    }
  }

  /* ---------- reading a page ---------- */

  lemma MatchingSoFar(contexts: seq<Entry>, b: Bucket, after: Option<Text>)
    ensures Matching(contexts[..0], b, after) == [] && Matching(contexts[..|contexts|], b, after) == Matching(contexts, b, after)
  {
    assert contexts[..|contexts|] == contexts;
  }

  lemma OneMoreMatching(contexts: seq<Entry>, b: Bucket, after: Option<Text>, i: nat)
    requires i < |contexts|
    ensures Matching(contexts[..i + 1], b, after)
              == Matching(contexts[..i], b, after) + if BucketOf(contexts[i]) == b && IsAfter(contexts[i], after) then [contexts[i]] else []
  {
    assert contexts[..i + 1][..i] == contexts[..i];
  }

  method ListPage(contexts: seq<Entry>, b: Bucket, after: Option<Text>, limit: nat) returns (page: seq<Entry>)
    ensures page == Take(Sort(Matching(contexts, b, after), ByBytes), limit)
  {
    hide Matching, Encode, LexLe, Sort;
    var matching := [];
    MatchingSoFar(contexts, b, after);
    for i := 0 to |contexts|
      invariant matching == Matching(contexts[..i], b, after)
    {
      var e := contexts[i];
      OneMoreMatching(contexts, b, after, i);
      if BucketOf(e) == b && (after.None? || !LexLe(Encode(e.key), Encode(after.value))) { matching := matching + [e]; }
    }
    var sorted := Sort(matching, ByBytes);
    return if |sorted| <= limit then sorted else sorted[..limit];
  }

  /* ---------- the whole listing ---------- */

  lemma ByBytesIsPreorder()
    ensures TotalPreorder(ByBytes)
  {
    forall a: Entry, b: Entry ensures ByBytes(a, b) || ByBytes(b, a) { LexLeIsTotal(Encode(a.key), Encode(b.key)); }
    forall a: Entry, b: Entry, c: Entry | ByBytes(a, b) && ByBytes(b, c) ensures ByBytes(a, c) {
      LexLeIsTransitive(Encode(a.key), Encode(b.key), Encode(c.key));
    }
  }

  lemma {:induction false} MatchingHas(contexts: seq<Entry>, b: Bucket, after: Option<Text>)
    ensures forall x :: x in Matching(contexts, b, after) <==> x in contexts && BucketOf(x) == b && IsAfter(x, after)
    decreases |contexts|
  {
    if contexts != [] {
      MatchingHas(contexts[..|contexts| - 1], b, after);
      assert contexts == contexts[..|contexts| - 1] + [contexts[|contexts| - 1]];
    }
  }

  predicate DistinctKeys(es: seq<Entry>) {
    forall i, j :: 0 <= i < j < |es| ==> es[i].key != es[j].key
  }

  lemma {:induction false} InsertKeepsDistinct(es: seq<Entry>, e: Entry)
    requires DistinctKeys(es) && forall i :: 0 <= i < |es| ==> es[i].key != e.key
    ensures DistinctKeys(Insert(es, e, ByBytes))
    ensures forall i :: 0 <= i < |Insert(es, e, ByBytes)| ==> Insert(es, e, ByBytes)[i] in es + [e]
    decreases |es|
  {
    hide ByBytes;
    if es != [] && !ByBytes(es[|es| - 1], e) {
      var init := es[..|es| - 1];
      InsertKeepsDistinct(init, e);
      forall i | 0 <= i < |Insert(init, e, ByBytes)| ensures Insert(init, e, ByBytes)[i].key != es[|es| - 1].key {
        assert Insert(init, e, ByBytes)[i] in init + [e];
      }
    }
  }

  /** A listing holds exactly the stored entries of its bucket, each key once. */
  lemma ListingHas(contexts: seq<Entry>, b: Bucket)
    ensures forall x :: x in Listing(contexts, b) <==> x in contexts && BucketOf(x) == b
    ensures Sorted(Listing(contexts, b), ByBytes)
    ensures KeysDiffer(contexts, b) ==> DistinctKeys(Listing(contexts, b))
  {
    hide Listing;
    ListingIsComplete(contexts, b);
    if KeysDiffer(contexts, b) { ListingIsDistinct(contexts, b); }
  }

  lemma {:induction false} ListingIsDistinct(contexts: seq<Entry>, b: Bucket)
    requires KeysDiffer(contexts, b)
    ensures DistinctKeys(Listing(contexts, b))
    decreases |contexts|
  {
    if contexts != [] {
      var init, e := contexts[..|contexts| - 1], contexts[|contexts| - 1];
      assert KeysDiffer(init, b);
      ListingIsDistinct(init, b);
      if BucketOf(e) == b {
        LastKeyIsNew(contexts, b);
        hide KeysDiffer, ByBytes, DistinctKeys, Insert;
        SortConcat(Matching(init, b, None), e, ByBytes);
        InsertKeepsDistinct(Listing(init, b), e);
      } else {
        assert Matching(contexts, b, None) == Matching(init, b, None);
      }
    }
  }

  lemma LastKeyIsNew(contexts: seq<Entry>, b: Bucket)
    requires contexts != [] && KeysDiffer(contexts, b) && BucketOf(contexts[|contexts| - 1]) == b
    ensures var init := contexts[..|contexts| - 1];
            forall i :: 0 <= i < |Listing(init, b)| ==> Listing(init, b)[i].key != contexts[|contexts| - 1].key
  {
    var init := contexts[..|contexts| - 1];
    ListingIsComplete(init, b);
    hide Listing;
    forall i | 0 <= i < |Listing(init, b)| ensures Listing(init, b)[i].key != contexts[|contexts| - 1].key {
      assert Listing(init, b)[i] in init;
      var k :| 0 <= k < |init| && init[k] == Listing(init, b)[i];
      assert contexts[k].key != contexts[|contexts| - 1].key;
    }
  }

  lemma ListingIsComplete(contexts: seq<Entry>, b: Bucket)
    ensures forall x :: x in Listing(contexts, b) <==> x in contexts && BucketOf(x) == b
    ensures Sorted(Listing(contexts, b), ByBytes)
  {
    hide Sort, ByBytes;
    ByBytesIsPreorder();
    MatchingHas(contexts, b, None);
    SortSorts(Matching(contexts, b, None), ByBytes);
    forall x ensures x in Listing(contexts, b) <==> x in Matching(contexts, b, None) {
      assert x in multiset(Listing(contexts, b)) <==> x in multiset(Matching(contexts, b, None));
    }
  }

  /* ---------- all pages ---------- */

  const PAGE: nat := 100

  function Passes(after: Option<Text>): Entry -> bool {
    e => IsAfter(e, after)
  }

  lemma {:induction false} MatchingIsFiltered(contexts: seq<Entry>, b: Bucket, after: Option<Text>)
    ensures Matching(contexts, b, after) == Filtered(Matching(contexts, b, None), Passes(after))
    decreases |contexts|
  {
    if contexts != [] {
      var init, e := contexts[..|contexts| - 1], contexts[|contexts| - 1];
      MatchingIsFiltered(init, b, after);
      if BucketOf(e) == b {
        FilteredConcat(Matching(init, b, None), e, Passes(after));
      } else {
        assert Matching(contexts, b, None) == Matching(init, b, None) && Matching(contexts, b, after) == Matching(init, b, after);
      }
    }
  }

  /** Where the cursor stands after `n` entries. */
  function Cursor(all: seq<Entry>, n: nat): Option<Text>
    requires n <= |all|
  {
    if n == 0 then None else Some(all[n - 1].key)
  }

  /** Where a page after `n` entries starts: behind everything that ties with the last of them. */
  function Resume(all: seq<Entry>, n: nat): (m: nat)
    requires n <= |all|
    ensures n <= m <= |all|
    decreases |all| - n
  {
    if 0 < n < |all| && Ties(all[n - 1], all[n], ByBytes) then Resume(all, n + 1) else n
  }

  lemma {:induction false} ResumePassesTies(all: seq<Entry>, n: nat)
    requires Sorted(all, ByBytes) && 0 < n <= |all|
    ensures forall i :: 0 <= i < |all| ==> (!ByBytes(all[i], all[n - 1]) <==> Resume(all, n) <= i)
    decreases |all| - n
  {
    ByBytesIsPreorder();
    hide ByBytes;
    if n < |all| {
      if Ties(all[n - 1], all[n], ByBytes) {
        ResumePassesTies(all, n + 1);
        forall i | 0 <= i < |all| ensures ByBytes(all[i], all[n - 1]) <==> ByBytes(all[i], all[n]) {}
      } else {
        forall i | 0 <= i < |all| ensures !ByBytes(all[i], all[n - 1]) <==> n <= i {
          assert n < i ==> ByBytes(all[n], all[i]);
          assert i < n - 1 ==> ByBytes(all[i], all[n - 1]);
        }
      }
    } else {
      forall i | 0 <= i < |all| ensures ByBytes(all[i], all[n - 1]) { assert i < n - 1 ==> ByBytes(all[i], all[n - 1]); }
    }
  }

  /** What a listing after a cursor matches, in order: the rest of the listing, without what ties with the cursor. */
  lemma PageGoesOn(contexts: seq<Entry>, b: Bucket, n: nat)
    requires n <= |Listing(contexts, b)|
    ensures var all := Listing(contexts, b); Sort(Matching(contexts, b, Cursor(all, n)), ByBytes) == all[Resume(all, n)..]
  {
    var all := Listing(contexts, b);
    var after := Cursor(all, n);
    ListingHas(contexts, b);
    if n > 0 {
      ByBytesIsPreorder();
      MatchingIsFiltered(contexts, b, after);
      SortFiltered(Matching(contexts, b, None), ByBytes, Passes(after));
      ResumePassesTies(all, n);
      CursorPasses(all, n);
      FilteredSuffix(all, Passes(after), Resume(all, n));
    }
  }

  lemma CursorPasses(all: seq<Entry>, n: nat)
    requires 0 < n <= |all|
    ensures forall i :: 0 <= i < |all| ==> (Passes(Cursor(all, n))(all[i]) <==> !ByBytes(all[i], all[n - 1]))
  {
  }

  /** What the pages deliver once `n` entries of a listing are passed. */
  function Streamed(all: seq<Entry>, n: nat): seq<Entry>
    requires n <= |all|
    decreases |all| - n
  {
    var m := Resume(all, n);
    if |all| - m < PAGE then all[m..] else all[m..m + PAGE] + Streamed(all, m + PAGE)
  }

  function Stream(contexts: seq<Entry>, b: Bucket): seq<Entry> {
    Streamed(Listing(contexts, b), 0)
  }

  /** Only the first key of a listing can be empty. */
  lemma LaterKeysAreNotEmpty(contexts: seq<Entry>, b: Bucket, n: nat)
    requires KeysDiffer(contexts, b) && 0 < n < |Listing(contexts, b)|
    ensures Listing(contexts, b)[n].key != []
  {
    var all := Listing(contexts, b);
    ListingHas(contexts, b);
    assert ByBytes(all[0], all[n]) && all[0].key != all[n].key;
  }

  /** One page and what the pages after it deliver. */
  lemma PageOfStream(contexts: seq<Entry>, b: Bucket, n: nat)
    requires n <= |Listing(contexts, b)|
    ensures var all := Listing(contexts, b);
            var m, page := Resume(all, n), Take(Sort(Matching(contexts, b, Cursor(all, n)), ByBytes), PAGE);
            if |all| - m < PAGE then |page| < PAGE && Streamed(all, n) == page
            else |page| == PAGE && Streamed(all, n) == page + Streamed(all, m + PAGE) && page[PAGE - 1] == all[m + PAGE - 1]
  {
    hide *;
    PageGoesOn(contexts, b, n);
    FirstPage(Listing(contexts, b), n);
  }

  lemma FirstPage(all: seq<Entry>, n: nat)
    requires n <= |all|
    ensures var m, page := Resume(all, n), Take(all[Resume(all, n)..], PAGE);
            if |all| - m < PAGE then |page| < PAGE && Streamed(all, n) == page
            else |page| == PAGE && Streamed(all, n) == page + Streamed(all, m + PAGE) && page[PAGE - 1] == all[m + PAGE - 1]
  {
    hide ByBytes, Ties, Resume;
  }

  /** Page after page until one is short. */
  method StreamEntries(contexts: seq<Entry>, b: Bucket) returns (entries: seq<Entry>)
    requires KeysDiffer(contexts, b)
    ensures entries == Stream(contexts, b)
  {
    hide Sort, Matching, KeysDiffer, Take, Listing, ByBytes, Resume, Streamed;
    entries := [];
    var after := None;
    ghost var all := Listing(contexts, b);
    ghost var n := 0;
    while true
      invariant n <= |all| && after == Cursor(all, n) && entries + Streamed(all, n) == Streamed(all, 0)
      decreases |all| - n
    {
      var page := ListPage(contexts, b, after, PAGE);
      PageOfStream(contexts, b, n);
      entries := entries + page;
      if |page| < PAGE { return; }
      n := Resume(all, n) + PAGE;
      LaterKeysAreNotEmpty(contexts, b, n - 1);
      var last := page[|page| - 1];
      after := if last.key != [] then Some(last.key) else None;
    }
  }

  /** A page ends after the `n`-th hundred of a listing although the next entry ties with the last one of the page. */
  predicate SplitsTie(all: seq<Entry>, n: nat) {
    0 < n * PAGE < |all| && Ties(all[n * PAGE - 1], all[n * PAGE], ByBytes)
  }

  predicate LosesNothing(contexts: seq<Entry>, b: Bucket) {
    forall n: nat | n < |Listing(contexts, b)| :: !SplitsTie(Listing(contexts, b), n)
  }

  lemma {:induction false} StreamedIsShorter(all: seq<Entry>, n: nat)
    requires n <= |all|
    ensures |Streamed(all, n)| <= |all| - Resume(all, n)
    decreases |all| - n
  {
    hide ByBytes, Ties, Resume;
    var m := Resume(all, n);
    if |all| - m >= PAGE { StreamedIsShorter(all, m + PAGE); }
  }

  /** What happens at one boundary, and what is left to what comes after it. */
  lemma BoundaryDecides(all: seq<Entry>, k: nat)
    requires k * PAGE <= |all|
    ensures SplitsTie(all, k) ==> |Streamed(all, k * PAGE)| < |all| - k * PAGE
    ensures !SplitsTie(all, k) && |all| - k * PAGE < PAGE ==> Streamed(all, k * PAGE) == all[k * PAGE..]
    ensures !SplitsTie(all, k) && |all| - k * PAGE >= PAGE ==>
              (Streamed(all, k * PAGE) == all[k * PAGE..] <==> Streamed(all, (k + 1) * PAGE) == all[(k + 1) * PAGE..])
  {
    hide ByBytes, Ties;
    var from := k * PAGE;
    StreamedIsShorter(all, from);
    if !SplitsTie(all, k) && |all| - from >= PAGE {
      assert Streamed(all, from) == all[from..from + PAGE] + Streamed(all, from + PAGE);
      SameTail(all[from..from + PAGE], Streamed(all, from + PAGE), all[from + PAGE..]);
      assert all[from..] == all[from..from + PAGE] + all[from + PAGE..];
    }
  }

  lemma SameTail(a: seq<Entry>, b: seq<Entry>, c: seq<Entry>)
    ensures a + b == a + c <==> b == c
  {
    assert (a + b)[|a|..] == b && (a + c)[|a|..] == c;
  }

  lemma {:induction false} StreamedIff(all: seq<Entry>, k: nat)
    requires k * PAGE <= |all|
    ensures Streamed(all, k * PAGE) == all[k * PAGE..] <==> forall n: nat :: k <= n ==> !SplitsTie(all, n)
    decreases |all| - k * PAGE
  {
    hide ByBytes, Ties, Streamed;
    BoundaryDecides(all, k);
    if !SplitsTie(all, k) && |all| - k * PAGE >= PAGE { StreamedIff(all, k + 1); }
  }

  /** The stream is the whole listing exactly if no page ends between two keys that tie. */
  lemma StreamIsListingIff(contexts: seq<Entry>, b: Bucket)
    ensures Stream(contexts, b) == Listing(contexts, b) <==> LosesNothing(contexts, b)
  {
    hide ByBytes, Ties, Listing, Streamed;
    var all := Listing(contexts, b);
    StreamedIff(all, 0);
    assert all[0..] == all;
    forall n: nat | SplitsTie(all, n) ensures n < |all| {}
  }

  /** Keys that are well-formed texts never tie, so their streams lose nothing. */
  lemma WellFormedKeysAreKept(contexts: seq<Entry>, b: Bucket)
    requires KeysDiffer(contexts, b) && forall i :: 0 <= i < |contexts| ==> WellFormed(contexts[i].key)
    ensures LosesNothing(contexts, b) && Stream(contexts, b) == Listing(contexts, b)
  {
    var all := Listing(contexts, b);
    ListingHas(contexts, b);
    forall n: nat | n < |all| ensures !SplitsTie(all, n) {
      if SplitsTie(all, n) {
        var x, y := all[n * PAGE - 1], all[n * PAGE];
        assert x in contexts && y in contexts;
        LexLeIsStrict(Encode(x.key), Encode(y.key));
        EncodeIsInjective(x.key, y.key);
        assert false;
      }
    }
    StreamIsListingIff(contexts, b);
  }

  lemma {:induction false} TiedEntriesStay(es: seq<Entry>, b: Bucket)
    requires forall i :: 0 <= i < |es| ==> BucketOf(es[i]) == b
    requires forall i, j :: 0 <= i < |es| && 0 <= j < |es| ==> ByBytes(es[i], es[j])
    ensures Matching(es, b, None) == es && Sort(es, ByBytes) == es
    decreases |es|
  {
    hide ByBytes;
    if es != [] {
      TiedEntriesStay(es[..|es| - 1], b);
      assert |es| > 1 ==> ByBytes(es[|es| - 2], es[|es| - 1]);
      assert es == es[..|es| - 1] + [es[|es| - 1]];
    }
  }

  lemma SameBytesTie(x: Entry, y: Entry)
    requires Encode(x.key) == Encode(y.key)
    ensures ByBytes(x, y)
  {
    LexLeIsTotal(Encode(x.key), Encode(y.key));
  }

  /** A page and one more entry, all with keys that look alike: the one is lost. */
  lemma LastOfAlikeIsLost(es: seq<Entry>, b: Bucket)
    requires |es| == PAGE + 1 && forall i :: 0 <= i < |es| ==> BucketOf(es[i]) == b
    requires forall i, j :: 0 <= i < |es| && 0 <= j < |es| ==> ByBytes(es[i], es[j])
    ensures Listing(es, b) == es && Stream(es, b) == es[..PAGE]
  {
    hide ByBytes;
    TiedEntriesStay(es, b);
    assert Ties(es[PAGE - 1], es[PAGE], ByBytes);
    assert Resume(es, PAGE) == PAGE + 1 && Streamed(es, PAGE) == [];
  }

  /**
   Lone surrogates are different keys for the store, but all of them are encoded alike: of 101 such entries in one
   bucket the last one is never delivered.
   */
  lemma TiedKeyIsLost(b: Bucket) returns (contexts: seq<Entry>)
    ensures KeysDiffer(contexts, b) && |contexts| == 101 && Listing(contexts, b) == contexts
    ensures Stream(contexts, b) == contexts[..100] && contexts[100] !in Stream(contexts, b)
  {
    hide ByBytes, Encode, Listing, Stream;
    contexts := seq(PAGE + 1, i requires 0 <= i < PAGE + 1 => Entry(i, b.workspace, b.project, b.scope, b.owner, [0xD800 + i], []));
    LoneSurrogatesAreAlike();
    forall i, j | 0 <= i < |contexts| && 0 <= j < |contexts| ensures ByBytes(contexts[i], contexts[j]) {
      SameBytesTie(contexts[i], contexts[j]);
    }
    LastOfAlikeIsLost(contexts, b);
    forall i | 0 <= i < PAGE ensures contexts[i] != contexts[PAGE] { assert contexts[i].id != contexts[PAGE].id; }
  }

  lemma LoneSurrogatesAreAlike()
    ensures forall c: CodeUnit :: IsHigh(c) ==> Encode([c]) == [0xEF, 0xBF, 0xBD]
  {
    forall c: CodeUnit | IsHigh(c) ensures Encode([c]) == [0xEF, 0xBF, 0xBD] {
      assert Encode([c]) == EncodeUnit(c) + Encode([c][1..]);
    }
  }

  /* ---------- precedence ---------- */

  predicate HasKey(es: seq<Entry>, key: Text) {
    exists i :: 0 <= i < |es| && es[i].key == key
  }

  /** The first entry of each key, in the order of the stream. */
  function FirstPerKey(es: seq<Entry>): seq<Entry> {
    if es == [] then []
    else
      var first := FirstPerKey(es[..|es| - 1]);
      if HasKey(first, es[|es| - 1].key) then first else first + [es[|es| - 1]]
  }

  /** What `of` gives for each bucket, one after the other. */
  function Joined(of: Bucket -> seq<Entry>, buckets: seq<Bucket>): seq<Entry> {
    if buckets == [] then [] else Joined(of, buckets[..|buckets| - 1]) + of(buckets[|buckets| - 1])
  }

  function Listings(contexts: seq<Entry>): Bucket -> seq<Entry> {
    b => Listing(contexts, b)
  }

  function Streams(contexts: seq<Entry>): Bucket -> seq<Entry> {
    b => Stream(contexts, b)
  }

  /** The four scopes, the most specific one first. */
  function Buckets(workspace: Id, project: Id, user: Id): seq<Bucket> {
    [Bucket(workspace, Some(project), ProjectPersonal, Some(user)), Bucket(workspace, Some(project), ProjectShared, None),
     Bucket(workspace, None, WorkspacePersonal, Some(user)), Bucket(workspace, None, WorkspaceShared, None)]
  }

  function Effective(contexts: seq<Entry>, workspace: Id, project: Id, user: Id): seq<Entry> {
    FirstPerKey(Joined(Listings(contexts), Buckets(workspace, project, user)))
  }

  /** `x` is in the stream, and nothing before it has its key. */
  predicate ComesFirst(es: seq<Entry>, x: Entry) {
    exists k :: 0 <= k < |es| && es[k] == x && NotBefore(es, k, x.key)
  }

  predicate NotBefore(es: seq<Entry>, k: int, key: Text)
    requires 0 <= k <= |es|
  {
    forall l :: 0 <= l < k ==> es[l].key != key
  }

  /** No key is lost. */
  lemma {:induction false} KeysAreKept(es: seq<Entry>, key: Text)
    ensures HasKey(FirstPerKey(es), key) <==> HasKey(es, key)
    decreases |es|
  {
    if es != [] {
      var init, e := es[..|es| - 1], es[|es| - 1];
      KeysAreKept(init, key);
      KeysAreKept(init, e.key);
      HasKeyOfConcat(init, e, key);
      HasKeyOfConcat(FirstPerKey(init), e, key);
      assert es == init + [e];
    }
  }

  lemma HasKeyOfConcat(es: seq<Entry>, e: Entry, key: Text)
    ensures HasKey(es + [e], key) <==> HasKey(es, key) || e.key == key
  {
    if HasKey(es, key) {
      var i :| 0 <= i < |es| && es[i].key == key;
      assert (es + [e])[i].key == key;
    }
    if e.key == key { assert (es + [e])[|es|].key == key; }
  }

  lemma ComesFirstOfConcat(es: seq<Entry>, e: Entry, x: Entry)
    ensures ComesFirst(es + [e], x) <==> ComesFirst(es, x) || (x == e && !HasKey(es, e.key))
  {
    var all := es + [e];
    if ComesFirst(es, x) {
      var k :| 0 <= k < |es| && es[k] == x && NotBefore(es, k, x.key);
      assert all[k] == x && NotBefore(all, k, x.key);
    }
    if x == e && !HasKey(es, e.key) { assert all[|es|] == x && NotBefore(all, |es|, x.key); }
    if ComesFirst(all, x) {
      var k :| 0 <= k < |all| && all[k] == x && NotBefore(all, k, x.key);
      assert forall l :: 0 <= l < k ==> all[l] == es[l] && es[l].key != x.key;
      if k < |es| { assert es[k] == x && NotBefore(es, k, x.key); }
    }
  }

  /** Exactly the entries that come first with their key are kept. */
  lemma {:induction false} FirstIff(es: seq<Entry>, x: Entry)
    ensures x in FirstPerKey(es) <==> ComesFirst(es, x)
    decreases |es|
  {
    if es != [] {
      var init, e := es[..|es| - 1], es[|es| - 1];
      FirstIff(init, x);
      KeysAreKept(init, e.key);
      ComesFirstOfConcat(init, e, x);
      assert es == init + [e];
    }
  }

  lemma JoinedParts(contexts: seq<Entry>, buckets: seq<Bucket>)
    ensures Joined(Listings(contexts), buckets) ==
              if buckets == [] then []
              else Joined(Listings(contexts), buckets[..|buckets| - 1]) + Listing(contexts, buckets[|buckets| - 1])
  {
  }

  lemma {:induction false} ListingsHave(contexts: seq<Entry>, buckets: seq<Bucket>, x: Entry)
    ensures x in Joined(Listings(contexts), buckets) <==> x in contexts && BucketOf(x) in buckets
    decreases |buckets|
  {
    hide *;
    JoinedParts(contexts, buckets);
    if buckets != [] {
      var init, last := buckets[..|buckets| - 1], buckets[|buckets| - 1];
      ListingsHave(contexts, init, x);
      ListingHas(contexts, last);
      assert BucketOf(x) in buckets <==> BucketOf(x) in init || BucketOf(x) == last by { assert buckets == init + [last]; }
    }
  }

  lemma {:induction false} JoinedSplit(of: Bucket -> seq<Entry>, buckets: seq<Bucket>, i: nat) returns (rest: seq<Entry>)
    requires i < |buckets|
    ensures Joined(of, buckets) == Joined(of, buckets[..i]) + of(buckets[i]) + rest
    decreases |buckets|
  {
    if i == |buckets| - 1 {
      rest := [];
    } else {
      var init := buckets[..|buckets| - 1];
      rest := JoinedSplit(of, init, i);
      assert init[..i] == buckets[..i];
      rest := rest + of(buckets[|buckets| - 1]);
    }
  }

  lemma {:induction false} JoinedAgree(f: Bucket -> seq<Entry>, g: Bucket -> seq<Entry>, buckets: seq<Bucket>)
    requires forall i :: 0 <= i < |buckets| ==> f(buckets[i]) == g(buckets[i])
    ensures Joined(f, buckets) == Joined(g, buckets)
    decreases |buckets|
  {
    if buckets != [] { JoinedAgree(f, g, buckets[..|buckets| - 1]); }
  }

  /** A stored entry is effective exactly if no more specific scope has its key. */
  lemma MostSpecificScopeWins(contexts: seq<Entry>, buckets: seq<Bucket>, i: nat, x: Entry)
    requires forall j, k :: 0 <= j < k < |buckets| ==> buckets[j] != buckets[k]
    requires i < |buckets| && x in contexts && BucketOf(x) == buckets[i] && KeysDiffer(contexts, buckets[i])
    ensures x in FirstPerKey(Joined(Listings(contexts), buckets))
       <==> forall y :: y in contexts && BucketOf(y) in buckets[..i] ==> y.key != x.key
  {
    var all, before := Joined(Listings(contexts), buckets), Joined(Listings(contexts), buckets[..i]);
    var listing := Listing(contexts, buckets[i]);
    var rest := JoinedSplit(Listings(contexts), buckets, i);
    ListingHas(contexts, buckets[i]);
    FirstIff(all, x);
    forall y ensures y in before <==> y in contexts && BucketOf(y) in buckets[..i] { ListingsHave(contexts, buckets[..i], y); }
    assert all == before + listing + rest;
    FirstAmong(before, listing, rest, x);
  }

  lemma FirstAmong(before: seq<Entry>, listing: seq<Entry>, rest: seq<Entry>, x: Entry)
    requires x in listing && x !in before
    requires DistinctKeys(listing)
    ensures ComesFirst(before + listing + rest, x) <==> forall y :: y in before ==> y.key != x.key
  {
    var all := before + listing + rest;
    var p :| 0 <= p < |listing| && listing[p] == x;
    assert all[|before| + p] == x;
    if forall y :: y in before ==> y.key != x.key {
      assert NotBefore(all, |before| + p, x.key) by {
        forall l | 0 <= l < |before| + p ensures all[l].key != x.key {
          if l < |before| { assert all[l] == before[l] && before[l] in before; } else { assert all[l] == listing[l - |before|]; }
        }
      }
    } else {
      var y :| y in before && y.key == x.key;
      var l :| 0 <= l < |before| && before[l] == y;
      assert all[l] == y && forall i :: 0 <= i < |before| ==> all[i] in before;
      forall k | 0 <= k < |all| && all[k] == x ensures !NotBefore(all, k, x.key) {
        assert l < k && all[l].key == x.key;
      }
    }
  }

  /* ---------- the resolver ---------- */

  const MAX_BYTES: nat := 32 * 1024

  datatype Resolution = TooLarge | Resolved(text: Text)

  /** The state of the loop: the effective entries, the bytes of their full forms, and the one that sorts last. */
  datatype Tally = Tally(effective: seq<Entry>, fullBytes: nat, last: Option<Entry>)

  predicate IsTally(t: Tally, f: Format) {
    t.fullBytes == ByteLength(Prefix(f)) + FullSum(t.effective) && t.last == SortedLast(t.effective, f)
  }

  predicate Fits(es: seq<Entry>, f: Format) {
    ByteLength(Rendering(es, f)) <= MAX_BYTES
  }

  /** One entry of the stream; refused exactly if the text with it would be too large. */
  method Consider(t: Tally, e: Entry, f: Format) returns (next: Option<Tally>)
    requires IsTally(t, f)
    ensures HasKey(t.effective, e.key) ==> next == Some(t)
    ensures !HasKey(t.effective, e.key) ==> (next.Some? <==> Fits(t.effective + [e], f))
    ensures !HasKey(t.effective, e.key) && next.Some? ==> next.value.effective == t.effective + [e] && IsTally(next.value, f)
  {
    hide ByteLength, Prefix, Rendering, RenderEntry, TrimEnd, FullSum, FullBytes, TerminalBytes, SortedLast, HasKey, Sort;
    if HasKey(t.effective, e.key) { return Some(t); }
    var fullBytes := t.fullBytes + FullBytes(e);
    var last := if t.last.None? || f.collate(t.last.value.key, e.key) then e else t.last.value;
    LastAfter(t.effective, e, f);
    RenderingBytes(t.effective + [e], f);
    var renderedBytes := fullBytes - FullBytes(last) + TerminalBytes(last);
    if renderedBytes > MAX_BYTES { return None; }
    return Some(Tally(t.effective + [e], fullBytes, Some(last)));
  }

  /** The stream of one scope, added to what the scopes before it left. */
  method AddEntries(t: Tally, ghost seen: seq<Entry>, entries: seq<Entry>, f: Format) returns (next: Option<Tally>)
    requires IsTally(t, f) && t.effective == FirstPerKey(seen) && Fits(t.effective, f)
    ensures next.Some? <==> Fits(FirstPerKey(seen + entries), f)
    ensures next.Some? ==> IsTally(next.value, f) && next.value.effective == FirstPerKey(seen + entries)
  {
    hide IsTally, Fits, FirstPerKey, HasKey;
    var current := t;
    assert seen + entries[..0] == seen;
    for j := 0 to |entries|
      invariant IsTally(current, f) && current.effective == FirstPerKey(seen + entries[..j]) && Fits(current.effective, f)
    {
      OneMoreEntry(seen, entries, j);
      var considered := Consider(current, entries[j], f);
      if considered.None? {
        RestGrows(seen + entries[..j + 1], entries[j + 1..], f);
        assert seen + entries[..j + 1] + entries[j + 1..] == seen + entries;
        return None;
      }
      current := considered.value;
    }
    assert entries[..|entries|] == entries;
    return Some(current);
  }

  lemma OneMoreEntry(seen: seq<Entry>, entries: seq<Entry>, j: nat)
    requires j < |entries|
    ensures var first := FirstPerKey(seen + entries[..j]);
            FirstPerKey(seen + entries[..j + 1]) == if HasKey(first, entries[j].key) then first else first + [entries[j]]
  {
    var es := seen + entries[..j + 1];
    assert es[..|es| - 1] == seen + entries[..j] && es[|es| - 1] == entries[j];
  }

  /** What is still to come never makes the text smaller, so giving up early is sound. */
  lemma {:induction false} RestGrows(es: seq<Entry>, rest: seq<Entry>, f: Format)
    ensures !Fits(FirstPerKey(es), f) ==> !Fits(FirstPerKey(es + rest), f)
    decreases |rest|
  {
    hide Rendering, ByteLength;
    if rest == [] {
      assert es + rest == es;
    } else {
      var init, e := rest[..|rest| - 1], rest[|rest| - 1];
      RestGrows(es, init, f);
      assert (es + rest)[..|es + rest| - 1] == es + init;
      RenderingGrows(FirstPerKey(es + init), e, f);
    }
  }

  lemma OneMoreBucket(of: Bucket -> seq<Entry>, buckets: seq<Bucket>, i: nat)
    requires i < |buckets|
    ensures Joined(of, buckets[..i + 1]) == Joined(of, buckets[..i]) + of(buckets[i])
  {
    assert buckets[..i + 1][..i] == buckets[..i];
  }

  function ResolutionOf(effective: seq<Entry>, f: Format): Resolution {
    var text := Rendering(effective, f);
    if ByteLength(text) > MAX_BYTES then TooLarge else Resolved(text)
  }

  /**
   The resolver. It refuses exactly if the full text of the effective entries is larger than the limit, and returns
   that text otherwise. The entries are those the pages deliver; unless a page loses one, they are the stored ones.
   */
  method ResolveForAgent(contexts: seq<Entry>, workspace: Id, project: Id, user: Id, f: Format) returns (r: Resolution)
    requires forall i :: 0 <= i < 4 ==> KeysDiffer(contexts, Buckets(workspace, project, user)[i])
    ensures r == ResolutionOf(FirstPerKey(Joined(Streams(contexts), Buckets(workspace, project, user))), f)
    ensures (forall i :: 0 <= i < 4 ==> LosesNothing(contexts, Buckets(workspace, project, user)[i]))
            ==> r == ResolutionOf(Effective(contexts, workspace, project, user), f)
  {
    var buckets := Buckets(workspace, project, user);
    StreamsAreListings(contexts, buckets);
    ghost var streams := Streams(contexts);
    var tally := Tally([], ByteLength(Prefix(f)), None);
    assert Fits([], f) by { NothingIsNoBytes(); }
    for i := 0 to 4
      invariant IsTally(tally, f) && tally.effective == FirstPerKey(Joined(streams, buckets[..i])) && Fits(tally.effective, f)
    {
      hide IsTally, FirstPerKey, KeysDiffer, LosesNothing, Stream, Listing, Joined, Fits;
      var entries := StreamEntries(contexts, buckets[i]);
      ghost var seen := Joined(streams, buckets[..i]);
      OneMoreBucket(streams, buckets, i);
      var added := AddEntries(tally, seen, entries, f);
      if added.None? {
        ghost var rest := JoinedSplit(streams, buckets, i);
        RestGrows(seen + entries, rest, f);
        return TooLarge;
      }
      tally := added.value;
    }
    assert buckets[..4] == buckets;
    if tally.effective == [] { return Resolved([]); }
    return Resolved(Rendered(Sort(tally.effective, ByCollation(f)), f));
  }

  lemma StreamsAreListings(contexts: seq<Entry>, buckets: seq<Bucket>)
    ensures (forall i :: 0 <= i < |buckets| ==> LosesNothing(contexts, buckets[i]))
            ==> Joined(Streams(contexts), buckets) == Joined(Listings(contexts), buckets)
  {
    if forall i :: 0 <= i < |buckets| ==> LosesNothing(contexts, buckets[i]) {
      forall i | 0 <= i < |buckets| ensures Streams(contexts)(buckets[i]) == Listings(contexts)(buckets[i]) {
        StreamIsListingIff(contexts, buckets[i]);
      }
      JoinedAgree(Streams(contexts), Listings(contexts), buckets);
    }
  }
}
