/** What the canonical text keeps of a request and what it forgets. */
module CanonicalTheorems {
  import opened Utf16
  import opened JsonText
  import opened Sorting
  import opened CanonicalJson

  /* ---------- the order of keys ---------- */

  lemma ByKeyIsPreorder()
    ensures TotalPreorder(ByKey)
  {
    forall a: Member<Result<Norm>>, b: Member<Result<Norm>> ensures ByKey(a, b) || ByKey(b, a) {
      LexLeIsTotal(a.key, b.key);
    }
    forall a: Member<Result<Norm>>, b: Member<Result<Norm>>, c: Member<Result<Norm>> | ByKey(a, b) && ByKey(b, c) ensures ByKey(a, c) {
      LexLeIsTransitive(a.key, b.key, c.key);
    }
  }

  /* ---------- items and fields ---------- */

  lemma {:induction false} ItemsOk(items: seq<Json>)
    ensures NormalizeItems(items).Ok? <==> forall i :: 0 <= i < |items| ==> Normalize(items[i]).Ok?
    ensures NormalizeItems(items).Ok? ==> |NormalizeItems(items).value| == |items|
    ensures NormalizeItems(items).Ok? ==> forall i :: 0 <= i < |items| ==> Ok(NormalizeItems(items).value[i]) == Normalize(items[i])
    decreases |items|
  {
    if items != [] {
      ItemsOk(items[1..]);
      assert forall i :: 1 <= i < |items| ==> items[i] == items[1..][i - 1];
      assert (forall i :: 0 <= i < |items| ==> Normalize(items[i]).Ok?)
        <==> Normalize(items[0]).Ok? && forall i :: 0 <= i < |items[1..]| ==> Normalize(items[1..][i]).Ok?;
    }
  }

  lemma {:induction false} CollectOk(ms: seq<Member<Result<Norm>>>)
    ensures Collect(ms).Ok? <==> forall i :: 0 <= i < |ms| ==> ms[i].value.Ok?
    ensures Collect(ms).Ok? ==> |Collect(ms).value| == |ms|
    ensures Collect(ms).Ok? ==> forall i :: 0 <= i < |ms| ==> ms[i] == Member(Collect(ms).value[i].key, Ok(Collect(ms).value[i].value))
    decreases |ms|
  {
    if ms != [] {
      CollectOk(ms[1..]);
      assert forall i :: 1 <= i < |ms| ==> ms[i] == ms[1..][i - 1];
      assert (forall i :: 0 <= i < |ms| ==> ms[i].value.Ok?) <==> ms[0].value.Ok? && forall i :: 0 <= i < |ms[1..]| ==> ms[1..][i].value.Ok?;
    }
  }

  lemma CollectIsInjective(s: seq<Member<Result<Norm>>>, t: seq<Member<Result<Norm>>>)
    requires Collect(s).Ok? && Collect(s) == Collect(t)
    ensures s == t
  {
    CollectOk(s);
    CollectOk(t);
  }

  predicate Defines(f: Field, m: Member<Result<Norm>>) {
    !f.value.Undefined? && m == Member(f.key, Normalize(f.value))
  }

  lemma {:induction false} FieldOf(fields: seq<Field>, m: Member<Result<Norm>>) returns (i: nat)
    requires m in NormalizeFields(fields)
    ensures i < |fields| && Defines(fields[i], m)
    decreases |fields|
  {
    if Defines(fields[0], m) {
      i := 0;
    } else {
      var j := FieldOf(fields[1..], m);
      i := j + 1;
    }
  }

  lemma {:induction false} FieldIn(fields: seq<Field>, i: nat)
    requires i < |fields| && !fields[i].value.Undefined?
    ensures Member(fields[i].key, Normalize(fields[i].value)) in NormalizeFields(fields)
    decreases |fields|
  {
    if i > 0 { FieldIn(fields[1..], i - 1); }
  }

  lemma {:induction false} FieldsDoNotTie(fields: seq<Field>)
    requires DistinctKeys(fields)
    ensures NoTies(NormalizeFields(fields), ByKey)
    decreases |fields|
  {
    if fields != [] {
      var rest := NormalizeFields(fields[1..]);
      FieldsDoNotTie(fields[1..]);
      if !fields[0].value.Undefined? {
        var first := Member(fields[0].key, Normalize(fields[0].value));
        forall j | 0 <= j < |rest| ensures !Ties(first, rest[j], ByKey) {
          var i := FieldOf(fields[1..], rest[j]);
          assert fields[0].key != fields[i + 1].key;
          if Ties(first, rest[j], ByKey) { LexLeIsStrict(first.key, rest[j].key); }
        }
        assert NormalizeFields(fields) == [first] + rest;
      }
    }
  }

  /** The sorted members of an object: exactly what its defined fields define. */
  lemma SortedMembers(fields: seq<Field>)
    requires DistinctKeys(fields)
    ensures forall m :: m in Sort(NormalizeFields(fields), ByKey) <==> m in NormalizeFields(fields)
  {
    ByKeyIsPreorder();
    FieldsDoNotTie(fields);
    SortStrictly(NormalizeFields(fields), ByKey);
  }

  /* ---------- what is forgotten ---------- */

  predicate IsField(fields: seq<Field>, f: Field) {
    f in fields && !f.value.Undefined?
  }

  /** Neither the order of fields nor undefined fields matter, even to which error is reported. */
  lemma FieldOrderIsForgotten(fs: seq<Field>, gs: seq<Field>)
    requires DistinctKeys(fs) && DistinctKeys(gs)
    requires forall f :: IsField(fs, f) <==> IsField(gs, f)
    ensures Canonical(Obj(fs)) == Canonical(Obj(gs))
  {
    ByKeyIsPreorder();
    FieldsDoNotTie(fs);
    FieldsDoNotTie(gs);
    forall m ensures m in NormalizeFields(fs) <==> m in NormalizeFields(gs) {
      if m in NormalizeFields(fs) { MemberCarriesOver(fs, gs, m); }
      if m in NormalizeFields(gs) { MemberCarriesOver(gs, fs, m); }
    }
    SortForgetsOrder(NormalizeFields(fs), NormalizeFields(gs), ByKey);
  }

  lemma MemberCarriesOver(fs: seq<Field>, gs: seq<Field>, m: Member<Result<Norm>>)
    requires m in NormalizeFields(fs) && forall f :: IsField(fs, f) ==> IsField(gs, f)
    ensures m in NormalizeFields(gs)
  {
    var i := FieldOf(fs, m);
    assert IsField(fs, fs[i]) && IsField(gs, fs[i]);
    var j :| 0 <= j < |gs| && gs[j] == fs[i];
    FieldIn(gs, j);
  }

  /* ---------- what is kept ---------- */

  /** Two requests are the same: equal but for key order, undefined fields and the sign of zero. */
  predicate Same(v: Json, w: Json)
    decreases v
  {
    match v
    case Num(x) => w.Num? && Unsigned(x) == Unsigned(w.number)
    case Arr(items) => w.Arr? && |items| == |w.items| && forall i :: 0 <= i < |items| ==> Same(items[i], w.items[i])
    case Obj(fields) =>
      w.Obj?
      && (forall i :: 0 <= i < |fields| && !fields[i].value.Undefined? ==> HasSame(fields[i], w.fields))
      && (forall j :: 0 <= j < |w.fields| && !w.fields[j].value.Undefined? ==> HasKey(fields, w.fields[j].key))
    case _ => v == w
  }

  predicate HasSame(f: Field, fields: seq<Field>)
    decreases f
  {
    exists j :: 0 <= j < |fields| && fields[j].key == f.key && !fields[j].value.Undefined? && Same(f.value, fields[j].value)
  }

  predicate HasKey(fields: seq<Field>, key: Text) {
    exists i :: 0 <= i < |fields| && fields[i].key == key && !fields[i].value.Undefined?
  }

  /** A value the printer accepts. */
  predicate Hashable(v: Json)
    decreases v
  {
    match v
    case NotFinite => false
    case Undefined => false
    case Foreign => false
    case Arr(items) => forall i :: 0 <= i < |items| ==> Hashable(items[i])
    case Obj(fields) => forall i :: 0 <= i < |fields| ==> fields[i].value.Undefined? || Hashable(fields[i].value)
    case _ => true
  }

  lemma {:induction false} HashableIff(v: Json)
    requires IsValue(v)
    ensures Normalize(v).Ok? <==> Hashable(v)
    decreases v
  {
    match v
    case Arr(items) =>
      ItemsOk(items);
      forall i | 0 <= i < |items| ensures Normalize(items[i]).Ok? <==> Hashable(items[i]) { HashableIff(items[i]); }
    case Obj(fields) =>
      forall i | 0 <= i < |fields| ensures Normalize(fields[i].value).Ok? <==> Hashable(fields[i].value) { HashableIff(fields[i].value); }
      ObjectOk(fields);
    case _ =>
  }

  lemma ObjectOk(fields: seq<Field>)
    requires DistinctKeys(fields)
    ensures Normalize(Obj(fields)).Ok? <==> forall i :: 0 <= i < |fields| && !fields[i].value.Undefined? ==> Normalize(fields[i].value).Ok?
  {
    var sorted := Sort(NormalizeFields(fields), ByKey);
    SortedMembers(fields);
    CollectOk(sorted);
    forall i | 0 <= i < |fields| && !fields[i].value.Undefined? && Collect(sorted).Ok? ensures Normalize(fields[i].value).Ok? {
      FieldIn(fields, i);
      var m := Member(fields[i].key, Normalize(fields[i].value));
      assert m in sorted;
    }
    if forall i :: 0 <= i < |fields| && !fields[i].value.Undefined? ==> Normalize(fields[i].value).Ok? {
      forall k | 0 <= k < |sorted| ensures sorted[k].value.Ok? {
        assert sorted[k] in NormalizeFields(fields);
        var i := FieldOf(fields, sorted[k]);
      }
    }
  }

  /** The normal forms of two objects agree exactly if their fields define the same members. */
  lemma ObjectsAgree(fs: seq<Field>, gs: seq<Field>)
    requires DistinctKeys(fs) && DistinctKeys(gs) && Normalize(Obj(fs)).Ok? && Normalize(Obj(gs)).Ok?
    ensures Normalize(Obj(fs)) == Normalize(Obj(gs)) <==> forall m :: m in NormalizeFields(fs) <==> m in NormalizeFields(gs)
  {
    var a, b := Sort(NormalizeFields(fs), ByKey), Sort(NormalizeFields(gs), ByKey);
    SortedMembers(fs);
    SortedMembers(gs);
    assert forall m :: m in a <==> m in NormalizeFields(fs);
    assert forall m :: m in b <==> m in NormalizeFields(gs);
    if Normalize(Obj(fs)) == Normalize(Obj(gs)) {
      CollectIsInjective(a, b);
      assert a == b;
      assert forall m :: m in NormalizeFields(fs) <==> m in NormalizeFields(gs);
    }
    if forall m :: m in NormalizeFields(fs) <==> m in NormalizeFields(gs) {
      ByKeyIsPreorder();
      FieldsDoNotTie(fs);
      FieldsDoNotTie(gs);
      SortForgetsOrder(NormalizeFields(fs), NormalizeFields(gs), ByKey);
    }
  }

  /** Normal forms are equal exactly for the same request. */
  lemma {:induction false} SameIff(v: Json, w: Json)
    requires IsValue(v) && IsValue(w) && Normalize(v).Ok? && Normalize(w).Ok?
    ensures Normalize(v) == Normalize(w) <==> Same(v, w)
    decreases v
  {
    match v
    case Arr(items) => if w.Arr? { ItemsSame(items, w.items); }
    case Obj(fields) =>
      if w.Obj? {
        ObjectsAgree(fields, w.fields);
        if Normalize(v) == Normalize(w) { MembersAreSame(fields, w.fields); }
        if Same(v, w) { SameHasMembers(fields, w.fields); }
      }
    case _ =>
  }

  lemma {:induction false} ItemsSame(ls: seq<Json>, rs: seq<Json>)
    requires IsValue(Arr(ls)) && IsValue(Arr(rs)) && Normalize(Arr(ls)).Ok? && Normalize(Arr(rs)).Ok?
    ensures Normalize(Arr(ls)) == Normalize(Arr(rs)) <==> Same(Arr(ls), Arr(rs))
    decreases ls
  {
    ItemsOk(ls);
    ItemsOk(rs);
    if |ls| == |rs| {
      forall i | 0 <= i < |ls| ensures Normalize(ls[i]) == Normalize(rs[i]) <==> Same(ls[i], rs[i]) { SameIff(ls[i], rs[i]); }
      var a, b := NormalizeItems(ls).value, NormalizeItems(rs).value;
      assert a == b <==> forall i :: 0 <= i < |ls| ==> a[i] == b[i];
      assert forall i :: 0 <= i < |ls| ==> (a[i] == b[i] <==> Same(ls[i], rs[i]));
    }
  }

  lemma {:induction false} MembersAreSame(fs: seq<Field>, gs: seq<Field>)
    requires IsValue(Obj(fs)) && IsValue(Obj(gs)) && Normalize(Obj(fs)).Ok? && Normalize(Obj(gs)).Ok?
    requires forall m :: m in NormalizeFields(fs) <==> m in NormalizeFields(gs)
    ensures Same(Obj(fs), Obj(gs))
    decreases fs
  {
    ObjectOk(fs);
    ObjectOk(gs);
    forall i | 0 <= i < |fs| && !fs[i].value.Undefined? ensures HasSame(fs[i], gs) {
      FieldIn(fs, i);
      var j := FieldOf(gs, Member(fs[i].key, Normalize(fs[i].value)));
      SameIff(fs[i].value, gs[j].value);
    }
    forall j | 0 <= j < |gs| && !gs[j].value.Undefined? ensures HasKey(fs, gs[j].key) {
      FieldIn(gs, j);
      var i := FieldOf(fs, Member(gs[j].key, Normalize(gs[j].value)));
    }
  }

  lemma SameField(fs: seq<Field>, gs: seq<Field>, i: nat) returns (j: nat)
    requires Same(Obj(fs), Obj(gs)) && i < |fs| && !fs[i].value.Undefined?
    ensures j < |gs| && gs[j].key == fs[i].key && !gs[j].value.Undefined? && Same(fs[i].value, gs[j].value)
  {
    assert HasSame(fs[i], gs);
    j :| 0 <= j < |gs| && gs[j].key == fs[i].key && !gs[j].value.Undefined? && Same(fs[i].value, gs[j].value);
  }

  lemma SameKeyOf(fs: seq<Field>, gs: seq<Field>, j: nat) returns (i: nat)
    requires Same(Obj(fs), Obj(gs)) && j < |gs| && !gs[j].value.Undefined?
    ensures i < |fs| && fs[i].key == gs[j].key && !fs[i].value.Undefined?
  {
    assert HasKey(fs, gs[j].key);
    i :| 0 <= i < |fs| && fs[i].key == gs[j].key && !fs[i].value.Undefined?;
  }

  lemma {:induction false} Counterpart(fs: seq<Field>, gs: seq<Field>, i: nat) returns (j: nat)
    requires IsValue(Obj(fs)) && IsValue(Obj(gs)) && Normalize(Obj(fs)).Ok? && Normalize(Obj(gs)).Ok?
    requires Same(Obj(fs), Obj(gs)) && i < |fs| && !fs[i].value.Undefined?
    ensures j < |gs| && gs[j].key == fs[i].key && !gs[j].value.Undefined? && Normalize(gs[j].value) == Normalize(fs[i].value)
    decreases fs, 0
  {
    ObjectOk(fs);
    ObjectOk(gs);
    hide Same, Normalize;
    j := SameField(fs, gs, i);
    SameIff(fs[i].value, gs[j].value);
  }

  lemma {:induction false} SameHasMembers(fs: seq<Field>, gs: seq<Field>)
    requires IsValue(Obj(fs)) && IsValue(Obj(gs)) && Normalize(Obj(fs)).Ok? && Normalize(Obj(gs)).Ok?
    requires Same(Obj(fs), Obj(gs))
    ensures forall m :: m in NormalizeFields(fs) <==> m in NormalizeFields(gs)
    decreases fs
  {
    hide Same, Normalize, NormalizeFields;
    forall m | m in NormalizeFields(fs) ensures m in NormalizeFields(gs) {
      var i := FieldOf(fs, m);
      var j := Counterpart(fs, gs, i);
      FieldIn(gs, j);
    }
    forall m | m in NormalizeFields(gs) ensures m in NormalizeFields(fs) {
      var j := FieldOf(gs, m);
      var i := SameKeyOf(fs, gs, j);
      var j' := Counterpart(fs, gs, i);
      assert j' == j;
      FieldIn(fs, i);
    }
  }

  /* ---------- the text, and its bytes ---------- */

  lemma {:induction false} NormalizeIsPlain(v: Json)
    requires IsValue(v) && Normalize(v).Ok?
    ensures Plain(Normalize(v).value)
    decreases v
  {
    match v
    case Arr(items) =>
      ItemsOk(items);
      forall i | 0 <= i < |items| ensures Plain(NormalizeItems(items).value[i]) { NormalizeIsPlain(items[i]); }
    case Obj(fields) =>
      var sorted := Sort(NormalizeFields(fields), ByKey);
      SortedMembers(fields);
      CollectOk(sorted);
      forall k | 0 <= k < |sorted| ensures Plain(Collect(sorted).value[k].value) {
        assert sorted[k] in NormalizeFields(fields);
        var i := FieldOf(fields, sorted[k]);
        NormalizeIsPlain(fields[i].value);
      }
    case _ =>
  }

  lemma PrintIsInjective(a: Norm, b: Norm)
    requires Plain(a) && Plain(b) && Print(a) == Print(b)
    ensures a == b
  {
    assert Print(a) + [] == Print(a) && Print(b) + [] == Print(b);
    PrintSplit(a, b, [], []);
  }

  lemma {:induction false} PrintIsWellFormed(n: Norm)
    ensures WellFormed(Print(n))
    decreases n
  {
    match n
    case NNull => PlainIsWellFormed(NULL_TEXT);
    case NBool(b) => PlainIsWellFormed(Print(n));
    case NNum(x) =>
      NumberUnits(x);
      PlainIsWellFormed(NumberText(x));
    case NStr(t) => QuoteIsWellFormed(t);
    case NArr(items) =>
      ItemsAreWellFormed(items);
      Enclosed(OPEN_BRACKET, PrintItems(items), CLOSE_BRACKET);
    case NObj(members) =>
      MembersAreWellFormed(members);
      Enclosed(OPEN_BRACE, PrintMembers(members), CLOSE_BRACE);
  }

  lemma Enclosed(c: CodeUnit, t: Text, d: CodeUnit)
    requires WellFormed(t) && !IsHigh(c) && !IsLow(c) && !IsHigh(d) && !IsLow(d)
    ensures WellFormed([c] + t + [d])
  {
    PlainIsWellFormed([c]);
    PlainIsWellFormed([d]);
    WellFormedConcat([c], t);
    WellFormedConcat([c] + t, [d]);
  }

  lemma Joined(t: Text, c: CodeUnit, u: Text)
    requires WellFormed(t) && WellFormed(u) && !IsHigh(c) && !IsLow(c)
    ensures WellFormed(t + [c] + u)
  {
    PlainIsWellFormed([c]);
    WellFormedConcat(t, [c]);
    WellFormedConcat(t + [c], u);
  }

  lemma {:induction false} ItemsAreWellFormed(items: seq<Norm>)
    ensures WellFormed(PrintItems(items))
    decreases items
  {
    if items != [] {
      PrintIsWellFormed(items[0]);
      if |items| > 1 {
        ItemsAreWellFormed(items[1..]);
        Joined(Print(items[0]), COMMA, PrintItems(items[1..]));
      }
    }
  }

  lemma {:induction false} MembersAreWellFormed(members: seq<Member<Norm>>)
    ensures WellFormed(PrintMembers(members))
    decreases members
  {
    if members != [] {
      QuoteIsWellFormed(members[0].key);
      PrintIsWellFormed(members[0].value);
      Joined(Quote(members[0].key), COLON, Print(members[0].value));
      if |members| > 1 {
        MembersAreWellFormed(members[1..]);
        Joined(PrintMember(members[0]), COMMA, PrintMembers(members[1..]));
      }
    }
  }

  /**
   The bytes under the request hash exist exactly for hashable requests, and two requests share them exactly if they
   are the same request: neither the printing nor the UTF-8 encoding confuses two of them.
   */
  lemma HashedBytesIdentifyTheRequest(v: Json, w: Json)
    requires IsValue(v) && IsValue(w)
    ensures Canonical(v).Ok? <==> Hashable(v)
    ensures Canonical(v).Ok? && Canonical(w).Ok? ==> (Encode(Canonical(v).value) == Encode(Canonical(w).value) <==> Same(v, w))
  {
    HashableIff(v);
    HashableIff(w);
    if Hashable(v) && Hashable(w) {
      SameIff(v, w);
      NormalizeIsPlain(v);
      NormalizeIsPlain(w);
      var a, b := Normalize(v).value, Normalize(w).value;
      PrintIsWellFormed(a);
      PrintIsWellFormed(b);
      if Encode(Print(a)) == Encode(Print(b)) {
        EncodeIsInjective(Print(a), Print(b));
        PrintIsInjective(a, b);
      }
    }
  }
}
