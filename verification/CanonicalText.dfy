/** What the canonical text of a value looks like: JSON text without white space, the keys of every object ascending. */
module CanonicalText {
  import opened Utf16
  import opened JsonText
  import opened Sorting
  import opened CanonicalJson
  import opened CanonicalTheorems

  /* ---------- values ---------- */

  function Commas(parts: seq<Text>): Text {
    if parts == [] then [] else if |parts| == 1 then parts[0] else parts[0] + [0x2C] + Commas(parts[1..])
  }

  /** `null`, `true` and `false`; everything the format cannot hold is refused. */
  lemma ScalarTexts(v: Json)
    ensures v.Null? ==> Canonical(v) == Ok([0x6E, 0x75, 0x6C, 0x6C])
    ensures v.Bool? ==> Canonical(v) == Ok(if v.value then [0x74, 0x72, 0x75, 0x65] else [0x66, 0x61, 0x6C, 0x73, 0x65])
    ensures v.Str? ==> Canonical(v) == Ok(Quote(v.text))
    ensures v.Num? ==> Canonical(v) == Ok(NumberText(if v.number.Zero? then Zero(false) else v.number))
    ensures v.NotFinite? ==> Canonical(v) == Err(NonFiniteNumber)
    ensures v.Undefined? || v.Foreign? ==> Canonical(v) == Err(NotHashable)
  {
  }

  lemma {:induction false} ItemsAreCommas(items: seq<Norm>, parts: seq<Text>)
    requires |parts| == |items| && forall i :: 0 <= i < |items| ==> parts[i] == Print(items[i])
    ensures PrintItems(items) == Commas(parts)
    decreases |items|
  {
    hide Print;
    if |items| > 1 { ItemsAreCommas(items[1..], parts[1..]); }
  }

  lemma {:induction false} MembersAreCommas(members: seq<Member<Norm>>, parts: seq<Text>)
    requires |parts| == |members| && forall i :: 0 <= i < |members| ==> parts[i] == Quote(members[i].key) + [0x3A] + Print(members[i].value)
    ensures PrintMembers(members) == Commas(parts)
    decreases |members|
  {
    hide Print, Quote;
    if |members| > 1 { MembersAreCommas(members[1..], parts[1..]); }
  }

  /** The text of an array: the texts of its items in order, between brackets; an item without a text leaves it without one. */
  lemma ArrayIsItems(items: seq<Json>, parts: seq<Text>)
    ensures Canonical(Arr(items)).Ok? <==> forall i :: 0 <= i < |items| ==> Canonical(items[i]).Ok?
    ensures |parts| == |items| && (forall i :: 0 <= i < |items| ==> Canonical(items[i]) == Ok(parts[i]))
            ==> Canonical(Arr(items)) == Ok([0x5B] + Commas(parts) + [0x5D])
  {
    ItemsOk(items);
    assert forall i :: 0 <= i < |items| ==> (Canonical(items[i]).Ok? <==> Normalize(items[i]).Ok?);
    if |parts| == |items| && forall i :: 0 <= i < |items| ==> Canonical(items[i]) == Ok(parts[i]) {
      var norms := NormalizeItems(items).value;
      forall i | 0 <= i < |items| ensures parts[i] == Print(norms[i]) { assert Ok(norms[i]) == Normalize(items[i]); }
      ItemsAreCommas(norms, parts);
    }
  }

  /** Code unit by code unit: `x` is a proper prefix of `y`, or smaller at the first place where they differ. */
  ghost predicate Less(x: Text, y: Text) {
    exists n :: FirstDifference(x, y, n)
  }

  predicate FirstDifference(x: Text, y: Text, n: nat) {
    n <= |x| && n < |y| && x[..n] == y[..n] && (n == |x| || x[n] < y[n])
  }

  lemma {:induction false} LexLeIsLess(x: Text, y: Text) returns (n: nat)
    requires LexLe(x, y) && x != y
    ensures FirstDifference(x, y, n)
    decreases |x|
  {
    n := 0;
    if x != [] && x[0] == y[0] {
      assert x == [x[0]] + x[1..] && y == [y[0]] + y[1..];
      var m := LexLeIsLess(x[1..], y[1..]);
      n := m + 1;
      assert x[..n] == [x[0]] + x[1..][..m] && y[..n] == [y[0]] + y[1..][..m];
    }
  }

  lemma {:induction false} Places(fields: seq<Field>, ms: seq<Member<Result<Norm>>>) returns (order: seq<nat>)
    requires forall k :: 0 <= k < |ms| ==> ms[k] in NormalizeFields(fields)
    ensures |order| == |ms| && forall k :: 0 <= k < |ms| ==> order[k] < |fields| && Defines(fields[order[k]], ms[k])
    decreases |ms|
  {
    hide NormalizeFields, Normalize;
    if ms == [] {
      order := [];
    } else {
      var init := Places(fields, ms[..|ms| - 1]);
      var last := FieldOf(fields, ms[|ms| - 1]);
      order := init + [last];
    }
  }

  /** The defined fields of an object, each once, in the order in which its text names them. */
  ghost predicate IsOrder(fields: seq<Field>, order: seq<nat>) {
    && (forall k :: 0 <= k < |order| ==> order[k] < |fields| && !fields[order[k]].value.Undefined?)
    && (forall i :: 0 <= i < |fields| && !fields[i].value.Undefined? ==> i in order)
    && (forall k, l :: 0 <= k < l < |order| ==> Less(fields[order[k]].key, fields[order[l]].key))
  }

  lemma SortedFields(fields: seq<Field>) returns (order: seq<nat>)
    requires DistinctKeys(fields)
    ensures IsOrder(fields, order)
    ensures var sorted := Sort(NormalizeFields(fields), ByKey);
            |order| == |sorted| && forall k :: 0 <= k < |sorted| ==> Defines(fields[order[k]], sorted[k])
  {
    hide Normalize, NormalizeFields, LexLe, Sort, DistinctKeys;
    var sorted := Sort(NormalizeFields(fields), ByKey);
    SortedMembers(fields);
    ByKeyIsPreorder();
    FieldsDoNotTie(fields);
    SortStrictly(NormalizeFields(fields), ByKey);
    order := Places(fields, sorted);
    forall i | 0 <= i < |fields| && !fields[i].value.Undefined? ensures i in order {
      FieldIn(fields, i);
      PlaceOf(fields, sorted, order, i);
    }
    forall k, l | 0 <= k < l < |order| ensures Less(fields[order[k]].key, fields[order[l]].key) {
      KeysDiffer(sorted[k], sorted[l]);
      var n := LexLeIsLess(sorted[k].key, sorted[l].key);
    }
  }

  lemma KeysDiffer(a: Member<Result<Norm>>, b: Member<Result<Norm>>)
    requires ByKey(a, b) && !ByKey(b, a)
    ensures LexLe(a.key, b.key) && a.key != b.key
  {
  }

  /** A field that is defined is one of the sorted members, and so one of the fields the members come from. */
  lemma PlaceOf(fields: seq<Field>, sorted: seq<Member<Result<Norm>>>, order: seq<nat>, i: nat)
    requires DistinctKeys(fields) && i < |fields| && Member(fields[i].key, Normalize(fields[i].value)) in sorted
    requires |order| == |sorted| && forall k :: 0 <= k < |sorted| ==> order[k] < |fields| && fields[order[k]].key == sorted[k].key
    ensures i in order
  {
    hide Normalize;
    var k :| 0 <= k < |sorted| && sorted[k] == Member(fields[i].key, Normalize(fields[i].value));
    assert fields[order[k]].key == fields[i].key;
    assert order[k] == i;
  }

  /**
   The text of an object: between braces, for each defined field in ascending order of the keys, the quoted key, a colon
   and the text of the value. There is one unless a defined field has none.
   */
  lemma ObjectIsFields(fields: seq<Field>) returns (order: seq<nat>)
    requires DistinctKeys(fields)
    ensures IsOrder(fields, order)
    ensures Canonical(Obj(fields)).Ok? <==> forall i :: 0 <= i < |fields| && !fields[i].value.Undefined? ==> Canonical(fields[i].value).Ok?
    ensures Canonical(Obj(fields)).Ok? ==> forall parts :: ArePartsOf(fields, order, parts) ==> Canonical(Obj(fields)) == Ok([0x7B] + Commas(parts) + [0x7D])
  {
    order := SortedFields(fields);
    ObjectOk(fields);
    if Canonical(Obj(fields)).Ok? {
      forall parts | ArePartsOf(fields, order, parts) ensures Canonical(Obj(fields)) == Ok([0x7B] + Commas(parts) + [0x7D]) {
        PartsArePrinted(fields, order, parts);
      }
    }
  }

  predicate ArePartsOf(fields: seq<Field>, order: seq<nat>, parts: seq<Text>) {
    |parts| == |order|
    && forall k :: 0 <= k < |order| ==>
         order[k] < |fields| && Canonical(fields[order[k]].value).Ok?
         && parts[k] == Quote(fields[order[k]].key) + [0x3A] + Canonical(fields[order[k]].value).value
  }

  lemma PartsArePrinted(fields: seq<Field>, order: seq<nat>, parts: seq<Text>)
    requires ArePartsOf(fields, order, parts) && Normalize(Obj(fields)).Ok?
    requires var sorted := Sort(NormalizeFields(fields), ByKey);
             |order| == |sorted| && forall k :: 0 <= k < |sorted| ==> Defines(fields[order[k]], sorted[k])
    ensures Print(Normalize(Obj(fields)).value) == [0x7B] + Commas(parts) + [0x7D]
  {
    var sorted := Sort(NormalizeFields(fields), ByKey);
    CollectOk(sorted);
    var members := Collect(sorted).value;
    forall k | 0 <= k < |members| ensures parts[k] == Quote(members[k].key) + [0x3A] + Print(members[k].value) {
      assert sorted[k] == Member(members[k].key, Ok(members[k].value));
      assert Defines(fields[order[k]], sorted[k]);
    }
    MembersAreCommas(members, parts);
  }

  /* ---------- strings ---------- */

  /** A lower-case hexadecimal digit. */
  function HexValue(c: CodeUnit): int {
    if 0x30 <= c < 0x3A then c - 0x30 else if 0x61 <= c < 0x67 then c - 0x61 + 10 else -1
  }

  lemma HexReadsBack(c: CodeUnit)
    ensures var h := Hex(c);
            |h| == 4 && (forall i :: 0 <= i < 4 ==> HexValue(h[i]) >= 0)
            && HexValue(h[0]) * 0x1000 + HexValue(h[1]) * 0x100 + HexValue(h[2]) * 0x10 + HexValue(h[3]) == c
  {
    forall n: int | 0 <= n < 16 ensures HexValue(HexDigit(n)) == n {}
  }

  /** How one code unit that is no half of a pair appears between the quotes. */
  lemma QuotedUnit(c: CodeUnit)
    ensures
      var q := QuoteUnit(c);
      match c
      case 0x22 => q == [0x5C, 0x22]
      case 0x5C => q == [0x5C, 0x5C]
      case 0x08 => q == [0x5C, 0x62]
      case 0x0C => q == [0x5C, 0x66]
      case 0x0A => q == [0x5C, 0x6E]
      case 0x0D => q == [0x5C, 0x72]
      case 0x09 => q == [0x5C, 0x74]
      case _ =>
        if c < 0x20 || 0xD800 <= c < 0xE000 then
          q == [0x5C, 0x75] + Hex(c)
        else q == [c]
  {
    hide Hex;
  }

  /** A quoted text: its pairs as they are and its other units one by one, between quotes. */
  lemma QuotedText(t: Text)
    ensures Quote(t) == [0x22] + QuoteBody(t) + [0x22] && QuoteBody([]) == []
    ensures t != [] ==>
              QuoteBody(t) == if |t| >= 2 && 0xD800 <= t[0] < 0xDC00 && 0xDC00 <= t[1] < 0xE000 then [t[0], t[1]] + QuoteBody(t[2..])
                              else QuoteUnit(t[0]) + QuoteBody(t[1..])
  {
    if |t| >= 2 { assert t[..2] == [t[0], t[1]]; }
  }
}
