/**
 The canonical JSON text under the request hash: fields sorted by key, undefined fields dropped, everything else
 printed without white space. Two requests share a text exactly if they are the same request.
 */
module CanonicalJson {
  import opened Utf16
  import opened JsonText
  import opened Sorting

  /** A value as the runtime holds it. `Foreign` stands for functions, symbols and big integers. */
  datatype Json =
    | Null
    | Bool(value: bool)
    | Num(number: Number)
    | NotFinite
    | Str(text: Text)
    | Arr(items: seq<Json>)
    | Obj(fields: seq<Field>)
    | Undefined
    | Foreign

  datatype Field = Field(key: Text, value: Json)

  predicate DistinctKeys(fields: seq<Field>) {
    forall i, j :: 0 <= i < j < |fields| ==> fields[i].key != fields[j].key
  }

  /** What the runtime can hold: an object lists its own fields in creation order, each key once. */
  predicate IsValue(v: Json)
    decreases v
  {
    match v
    case Arr(items) => forall i :: 0 <= i < |items| ==> IsValue(items[i])
    case Obj(fields) => DistinctKeys(fields) && forall i :: 0 <= i < |fields| ==> IsValue(fields[i].value)
    case _ => true
  }

  datatype Error = NonFiniteNumber | NotHashable

  datatype Result<+T> = Ok(value: T) | Err(error: Error)

  /* ---------- normal form ---------- */

  datatype Member<+T> = Member(key: Text, value: T)

  datatype Norm =
    | NNull
    | NBool(value: bool)
    | NNum(number: Number)
    | NStr(text: Text)
    | NArr(items: seq<Norm>)
    | NObj(members: seq<Member<Norm>>)

  /** The default order of strings: code unit by code unit. */
  predicate ByKey(a: Member<Result<Norm>>, b: Member<Result<Norm>>) {
    LexLe(a.key, b.key)
  }

  /** What is left of a value when its fields are sorted and its undefined fields are dropped. */
  function Normalize(v: Json): Result<Norm>
    decreases v
  {
    match v
    case Null => Ok(NNull)
    case Bool(b) => Ok(NBool(b))
    case Num(x) => Ok(NNum(Unsigned(x)))
    case NotFinite => Err(NonFiniteNumber)
    case Str(t) => Ok(NStr(t))
    case Arr(items) => (match NormalizeItems(items)
                        case Ok(ns) => Ok(NArr(ns))
                        case Err(e) => Err(e))
    case Obj(fields) => (match Collect(Sort(NormalizeFields(fields), ByKey))
                         case Ok(ms) => Ok(NObj(ms))
                         case Err(e) => Err(e))
    case Undefined => Err(NotHashable)
    case Foreign => Err(NotHashable)
  }

  function NormalizeItems(items: seq<Json>): Result<seq<Norm>>
    decreases items
  {
    if items == [] then Ok([])
    else
      match Normalize(items[0])
      case Err(e) => Err(e)
      case Ok(n) =>
        match NormalizeItems(items[1..])
        case Err(e) => Err(e)
        case Ok(ns) => Ok([n] + ns)
  }

  function NormalizeFields(fields: seq<Field>): seq<Member<Result<Norm>>>
    decreases fields
  {
    if fields == [] then []
    else
      (if fields[0].value.Undefined? then [] else [Member(fields[0].key, Normalize(fields[0].value))]) + NormalizeFields(fields[1..])
  }

  /** The members, or the first error among them. */
  function Collect(ms: seq<Member<Result<Norm>>>): Result<seq<Member<Norm>>> {
    if ms == [] then Ok([])
    else
      match ms[0].value
      case Err(e) => Err(e)
      case Ok(n) =>
        match Collect(ms[1..])
        case Err(e) => Err(e)
        case Ok(rest) => Ok([Member(ms[0].key, n)] + rest)
  }

  /* ---------- text ---------- */

  const COMMA: CodeUnit := 0x2C
  const COLON: CodeUnit := 0x3A
  const OPEN_BRACKET: CodeUnit := 0x5B
  const CLOSE_BRACKET: CodeUnit := 0x5D
  const OPEN_BRACE: CodeUnit := 0x7B
  const CLOSE_BRACE: CodeUnit := 0x7D
  const NULL_TEXT: Text := [0x6E, 0x75, 0x6C, 0x6C]
  const TRUE_TEXT: Text := [0x74, 0x72, 0x75, 0x65]
  const FALSE_TEXT: Text := [0x66, 0x61, 0x6C, 0x73, 0x65]

  function Print(n: Norm): Text
    decreases n
  {
    match n
    case NNull => NULL_TEXT
    case NBool(b) => if b then TRUE_TEXT else FALSE_TEXT
    case NNum(x) => NumberText(x)
    case NStr(t) => Quote(t)
    case NArr(items) => [OPEN_BRACKET] + PrintItems(items) + [CLOSE_BRACKET]
    case NObj(members) => [OPEN_BRACE] + PrintMembers(members) + [CLOSE_BRACE]
  }

  function PrintItems(items: seq<Norm>): Text
    decreases items
  {
    if items == [] then []
    else if |items| == 1 then Print(items[0])
    else Print(items[0]) + [COMMA] + PrintItems(items[1..])
  }

  function PrintMembers(members: seq<Member<Norm>>): Text
    decreases members
  {
    if members == [] then []
    else if |members| == 1 then PrintMember(members[0])
    else PrintMember(members[0]) + [COMMA] + PrintMembers(members[1..])
  }

  function PrintMember(m: Member<Norm>): Text
    decreases m
  {
    Quote(m.key) + [COLON] + Print(m.value)
  }

  /** The text that is hashed, or the reason why there is none. */
  function Canonical(v: Json): Result<Text> {
    match Normalize(v)
    case Ok(n) => Ok(Print(n))
    case Err(e) => Err(e)
  }

  /* ---------- the text determines the normal form ---------- */

  /** A text at which no number goes on. */
  predicate Stops(x: Text) {
    x == [] || !IsNumberUnit(x[0])
  }

  datatype Kind = AtomKind(letter: CodeUnit) | NumberKind

  /** What kind of value a text starts with. */
  function KindOf(c: CodeUnit): Kind {
    if c == MINUS || IsDigit(c) then NumberKind else AtomKind(c)
  }

  function FirstKind(n: Norm): Kind {
    match n
    case NNull => AtomKind(0x6E)
    case NBool(b) => AtomKind(if b then 0x74 else 0x66)
    case NNum(_) => NumberKind
    case NStr(_) => AtomKind(QUOTE)
    case NArr(_) => AtomKind(OPEN_BRACKET)
    case NObj(_) => AtomKind(OPEN_BRACE)
  }

  lemma PrintBegins(n: Norm)
    ensures Print(n) != [] && KindOf(Print(n)[0]) == FirstKind(n)
  {
    if n.NNum? { NumberUnits(n.number); }
  }

  lemma NumberSplit(a: Number, b: Number, x: Text, y: Text)
    requires NumberText(a) + x == NumberText(b) + y && Stops(x) && Stops(y)
    ensures NumberText(a) == NumberText(b) && x == y
  {
    var s, t := NumberText(a), NumberText(b);
    var whole := s + x;
    NumberUnits(a);
    NumberUnits(b);
    assert forall k :: 0 <= k < |s| ==> whole[k] == s[k];
    assert forall k :: 0 <= k < |t| ==> whole[k] == t[k];
    assert |s| == |whole| || whole[|s|] == x[0];
    assert |t| == |whole| || whole[|t|] == y[0];
    assert s == whole[..|s|] && t == whole[..|t|] && x == whole[|s|..] && y == whole[|t|..];
  }

  /** Numbers in normal form have no signed zero, so that printing loses nothing. */
  predicate Plain(n: Norm)
    decreases n
  {
    match n
    case NNum(x) => Unsigned(x) == x
    case NArr(items) => forall i :: 0 <= i < |items| ==> Plain(items[i])
    case NObj(members) => forall i :: 0 <= i < |members| ==> Plain(members[i].value)
    case _ => true
  }

  lemma Regroup(a: Text, b: Text, c: Text, d: Text, e: Text)
    ensures a + b + c + d + e == a + (b + (c + d + e))
    ensures a + b + c == a + (b + c)
  {
  }

  lemma HeadSplit(c: CodeUnit, d: CodeUnit, x: Text, y: Text)
    requires [c] + x == [d] + y
    ensures c == d && x == y
  {
    assert c == ([c] + x)[0] && d == ([d] + y)[0];
    assert x == ([c] + x)[1..] && y == ([d] + y)[1..];
  }

  lemma SameKind(a: Norm, b: Norm, x: Text, y: Text)
    requires Print(a) + x == Print(b) + y
    ensures FirstKind(a) == FirstKind(b)
  {
    PrintBegins(a);
    PrintBegins(b);
    assert Print(a)[0] == (Print(a) + x)[0] && Print(b)[0] == (Print(b) + y)[0];
  }

  lemma ArrayText(items: seq<Norm>, x: Text)
    ensures Print(NArr(items)) + x == [OPEN_BRACKET] + (PrintItems(items) + [CLOSE_BRACKET] + x)
  {
  }

  lemma ObjectText(members: seq<Member<Norm>>, x: Text)
    ensures Print(NObj(members)) + x == [OPEN_BRACE] + (PrintMembers(members) + [CLOSE_BRACE] + x)
  {
  }

  lemma AtomSplit(a: Norm, b: Norm, x: Text, y: Text)
    requires (a.NNull? || a.NBool?) && Print(a) + x == Print(b) + y && FirstKind(a) == FirstKind(b)
    ensures a == b && x == y
  {
    var whole := Print(a) + x;
    assert x == whole[|Print(a)|..] && y == whole[|Print(b)|..];
  }

  /** A printed value followed by anything a number cannot run into can be read back. */
  lemma {:induction false} PrintSplit(a: Norm, b: Norm, x: Text, y: Text)
    requires Print(a) + x == Print(b) + y && Stops(x) && Stops(y) && Plain(a) && Plain(b)
    ensures a == b && x == y
    decreases a
  {
    hide Print, PrintItems, PrintMembers, NumberText, Quote, Stops;
    SameKind(a, b, x, y);
    match a
    case NNull => AtomSplit(a, b, x, y);
    case NBool(v) => AtomSplit(a, b, x, y);
    case NNum(n) => NumbersSplit(n, b.number, x, y);
    case NStr(t) => StringsSplit(t, b.text, x, y);
    case NArr(items) =>
      ArrayText(items, x);
      ArrayText(b.items, y);
      HeadSplit(OPEN_BRACKET, OPEN_BRACKET, PrintItems(items) + [CLOSE_BRACKET] + x, PrintItems(b.items) + [CLOSE_BRACKET] + y);
      ItemsSplit(items, b.items, x, y);
    case NObj(members) =>
      ObjectText(members, x);
      ObjectText(b.members, y);
      HeadSplit(OPEN_BRACE, OPEN_BRACE, PrintMembers(members) + [CLOSE_BRACE] + x, PrintMembers(b.members) + [CLOSE_BRACE] + y);
      MembersSplit(members, b.members, x, y);
  }

  lemma NumbersSplit(m: Number, n: Number, x: Text, y: Text)
    requires Print(NNum(m)) + x == Print(NNum(n)) + y && Stops(x) && Stops(y) && Plain(NNum(m)) && Plain(NNum(n))
    ensures m == n && x == y
  {
    NumberSplit(m, n, x, y);
    NumberTextIsInjective(m, n);
  }

  lemma StringsSplit(s: Text, t: Text, x: Text, y: Text)
    requires Print(NStr(s)) + x == Print(NStr(t)) + y
    ensures s == t && x == y
  {
    QuoteSplit(s, t, x, y);
  }

  /** What comes after the first item. */
  function AfterItem(items: seq<Norm>, x: Text): Text
    requires items != []
  {
    if |items| == 1 then [CLOSE_BRACKET] + x else [COMMA] + (PrintItems(items[1..]) + [CLOSE_BRACKET] + x)
  }

  lemma NoItems()
    ensures PrintItems([]) == [] && PrintMembers([]) == []
  {
  }

  lemma ItemsText(items: seq<Norm>, x: Text)
    requires items != []
    ensures PrintItems(items) + [CLOSE_BRACKET] + x == Print(items[0]) + AfterItem(items, x)
    ensures AfterItem(items, x) != [] && AfterItem(items, x)[0] in {COMMA, CLOSE_BRACKET}
  {
    hide Print;
    if |items| == 1 {
      Regroup(Print(items[0]), [CLOSE_BRACKET], x, [], []);
    } else {
      Regroup(Print(items[0]), [COMMA], PrintItems(items[1..]), [CLOSE_BRACKET], x);
    }
  }

  lemma ItemsBegin(items: seq<Norm>, x: Text)
    ensures var t := PrintItems(items) + [CLOSE_BRACKET] + x;
            if items == [] then t[0] == CLOSE_BRACKET
            else t[0] != CLOSE_BRACKET && t == Print(items[0]) + AfterItem(items, x) && Stops(AfterItem(items, x))
  {
    hide Print, FirstKind, PrintItems, AfterItem;
    if items == [] {
      NoItems();
    } else {
      PrintBegins(items[0]);
      FirstIsOpen(items[0]);
      ItemsText(items, x);
    }
  }

  lemma FirstIsOpen(n: Norm)
    ensures FirstKind(n) != AtomKind(CLOSE_BRACKET)
  {
  }

  lemma {:induction false} ItemsSplit(ls: seq<Norm>, rs: seq<Norm>, x: Text, y: Text)
    requires PrintItems(ls) + [CLOSE_BRACKET] + x == PrintItems(rs) + [CLOSE_BRACKET] + y
    requires Plain(NArr(ls)) && Plain(NArr(rs))
    ensures ls == rs && x == y
    decreases ls
  {
    ItemsBegin(ls, x);
    ItemsBegin(rs, y);
    var whole := PrintItems(ls) + [CLOSE_BRACKET] + x;
    if ls == [] {
      assert x == whole[1..] && y == whole[1..];
    } else {
      PrintSplit(ls[0], rs[0], AfterItem(ls, x), AfterItem(rs, y));
      var rest := AfterItem(ls, x);
      assert rest[0] == AfterItem(rs, y)[0];
      if |ls| == 1 {
        assert x == rest[1..] && y == rest[1..];
      } else {
        assert rest[1..] == PrintItems(ls[1..]) + [CLOSE_BRACKET] + x && rest[1..] == PrintItems(rs[1..]) + [CLOSE_BRACKET] + y;
        ItemsSplit(ls[1..], rs[1..], x, y);
      }
      assert ls == [ls[0]] + ls[1..] && rs == [rs[0]] + rs[1..];
    }
  }

  function AfterMember(members: seq<Member<Norm>>, x: Text): Text
    requires members != []
  {
    if |members| == 1 then [CLOSE_BRACE] + x else [COMMA] + (PrintMembers(members[1..]) + [CLOSE_BRACE] + x)
  }

  lemma MemberText(m: Member<Norm>, x: Text)
    ensures PrintMember(m) + x == Quote(m.key) + ([COLON] + (Print(m.value) + x))
  {
  }

  lemma MemberBegins(m: Member<Norm>)
    ensures PrintMember(m) != [] && PrintMember(m)[0] == QUOTE
  {
  }

  lemma MembersText(members: seq<Member<Norm>>, x: Text)
    requires members != []
    ensures PrintMembers(members) + [CLOSE_BRACE] + x == PrintMember(members[0]) + AfterMember(members, x)
    ensures AfterMember(members, x) != [] && AfterMember(members, x)[0] in {COMMA, CLOSE_BRACE}
  {
    hide PrintMember;
    if |members| == 1 {
      Regroup(PrintMember(members[0]), [CLOSE_BRACE], x, [], []);
    } else {
      Regroup(PrintMember(members[0]), [COMMA], PrintMembers(members[1..]), [CLOSE_BRACE], x);
    }
  }

  lemma MembersBegin(members: seq<Member<Norm>>, x: Text)
    ensures var t := PrintMembers(members) + [CLOSE_BRACE] + x;
            if members == [] then t[0] == CLOSE_BRACE
            else t[0] != CLOSE_BRACE && Stops(AfterMember(members, x)) && t == PrintMember(members[0]) + AfterMember(members, x)
  {
    hide PrintMember, PrintMembers, AfterMember;
    if members == [] {
      NoItems();
    } else {
      MemberBegins(members[0]);
      MembersText(members, x);
    }
  }

  lemma {:induction false} MembersSplit(ls: seq<Member<Norm>>, rs: seq<Member<Norm>>, x: Text, y: Text)
    requires PrintMembers(ls) + [CLOSE_BRACE] + x == PrintMembers(rs) + [CLOSE_BRACE] + y
    requires Plain(NObj(ls)) && Plain(NObj(rs))
    ensures ls == rs && x == y
    decreases ls
  {
    MembersBegin(ls, x);
    MembersBegin(rs, y);
    var whole := PrintMembers(ls) + [CLOSE_BRACE] + x;
    if ls == [] {
      assert x == whole[1..] && y == whole[1..];
    } else {
      MemberText(ls[0], AfterMember(ls, x));
      MemberText(rs[0], AfterMember(rs, y));
      var a, b := Print(ls[0].value) + AfterMember(ls, x), Print(rs[0].value) + AfterMember(rs, y);
      QuoteSplit(ls[0].key, rs[0].key, [COLON] + a, [COLON] + b);
      HeadSplit(COLON, COLON, a, b);
      PrintSplit(ls[0].value, rs[0].value, AfterMember(ls, x), AfterMember(rs, y));
      var rest := AfterMember(ls, x);
      assert rest[0] == AfterMember(rs, y)[0];
      if |ls| == 1 {
        assert x == rest[1..] && y == rest[1..];
      } else {
        assert rest[1..] == PrintMembers(ls[1..]) + [CLOSE_BRACE] + x && rest[1..] == PrintMembers(rs[1..]) + [CLOSE_BRACE] + y;
        MembersSplit(ls[1..], rs[1..], x, y);
      }
      assert ls == [ls[0]] + ls[1..] && rs == [rs[0]] + rs[1..];
    }
  }
}
