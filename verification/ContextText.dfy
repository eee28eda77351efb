/** The rendered agent context, and the byte accounting that never renders it. */
module ContextText {
  import opened Basics
  import opened Utf16
  import opened Sorting

  datatype Scope = ProjectPersonal | ProjectShared | WorkspacePersonal | WorkspaceShared

  datatype Entry = Entry(id: Id, workspace: Id, project: Option<Id>, scope: Scope, owner: Option<Id>, key: Text, content: Text)

  /** An ASCII literal. */
  function Ascii(s: string): (t: Text)
    ensures |t| == |s| && forall i :: 0 <= i < |t| ==> t[i] < 0x80
  {
    seq(|s|, i requires 0 <= i < |s| => if s[i] as int < 0x80 then s[i] as int else 0x3F)
  }

  function ScopeName(s: Scope): Text {
    match s
    case ProjectPersonal => Ascii("project_personal")
    case ProjectShared => Ascii("project_shared")
    case WorkspacePersonal => Ascii("workspace_personal")
    case WorkspaceShared => Ascii("workspace_shared")
  }

  const NEWLINE: CodeUnit := 0x0A
  const HASH: CodeUnit := 0x23

  /** An empty line after a paragraph. */
  const GAP: Text := [NEWLINE, NEWLINE]

  /** The fixed paragraphs of the text, and the runtime's collation of keys: its `localeCompare` is not positive. */
  datatype Format = Format(heading: Text, description: Text, collate: (Text, Text) -> bool)

  function Prefix(f: Format): Text {
    f.heading + GAP + f.description + GAP
  }

  /** White space and line terminators of section 12.2 and 12.3 of ECMA-262. */
  predicate IsSpace(c: CodeUnit) {
    0x09 <= c <= 0x0D || c == 0x20 || c == 0xA0 || c == 0x1680 || 0x2000 <= c <= 0x200A || c == 0x2028 || c == 0x2029
    || c == 0x202F || c == 0x205F || c == 0x3000 || c == 0xFEFF
  }

  function TrimEnd(t: Text): Text {
    if t != [] && IsSpace(t[|t| - 1]) then TrimEnd(t[..|t| - 1]) else t
  }

  function RenderEntry(e: Entry): Text {
    Ascii("## ") + e.key + Ascii("\nScope: ") + ScopeName(e.scope) + GAP + e.content
  }

  /** The lines of an entry in the full text; the last one is empty. */
  function EntryLines(e: Entry): seq<Text> {
    [Ascii("## ") + e.key, Ascii("Scope: ") + ScopeName(e.scope), [], e.content, []]
  }

  function Lines(es: seq<Entry>, f: Format): seq<Text> {
    if es == [] then [f.heading, [], f.description, []] else Lines(es[..|es| - 1], f) + EntryLines(es[|es| - 1])
  }

  function Join(lines: seq<Text>): Text {
    if lines == [] then [] else if |lines| == 1 then lines[0] else Join(lines[..|lines| - 1]) + [NEWLINE] + lines[|lines| - 1]
  }

  /** The text for a list of entries that is already in order. */
  function Rendered(es: seq<Entry>, f: Format): Text {
    TrimEnd(Join(Lines(es, f))) + [NEWLINE]
  }

  function FullBytes(e: Entry): nat {
    ByteLength(RenderEntry(e) + GAP)
  }

  function TerminalBytes(e: Entry): nat {
    ByteLength(TrimEnd(RenderEntry(e)) + [NEWLINE])
  }

  function FullSum(es: seq<Entry>): nat {
    if es == [] then 0 else FullSum(es[..|es| - 1]) + FullBytes(es[|es| - 1])
  }

  /* ---------- the shape of the text ---------- */

  /** Everything up to and including the gap after the last entry. */
  function Body(es: seq<Entry>, f: Format): Text {
    if es == [] then Prefix(f) else Body(es[..|es| - 1], f) + (RenderEntry(es[|es| - 1]) + GAP)
  }

  lemma JoinOneMore(lines: seq<Text>, line: Text)
    requires lines != []
    ensures Join(lines + [line]) == Join(lines) + [NEWLINE] + line
  {
    assert (lines + [line])[..|lines|] == lines;
  }

  lemma Regroup(j: Text, a: Text, b: Text, c: Text, d: Text)
    ensures j + [NEWLINE] + a + [NEWLINE] + b + [NEWLINE] + c + [NEWLINE] + d + [NEWLINE] + []
         == j + ([NEWLINE] + a + ([NEWLINE] + b) + ([NEWLINE] + c) + ([NEWLINE] + d) + [NEWLINE])
  {
  }

  lemma JoinFiveMore(lines: seq<Text>, a: Text, b: Text, c: Text, d: Text)
    requires lines != []
    ensures Join(lines + [a, b, c, d, []]) == Join(lines) + ([NEWLINE] + a + ([NEWLINE] + b) + ([NEWLINE] + c) + ([NEWLINE] + d) + [NEWLINE])
  {
    hide Join;
    JoinOneMore(lines, a);
    JoinOneMore(lines + [a], b);
    JoinOneMore(lines + [a] + [b], c);
    JoinOneMore(lines + [a] + [b] + [c], d);
    JoinOneMore(lines + [a] + [b] + [c] + [d], []);
    assert lines + [a, b, c, d, []] == lines + [a] + [b] + [c] + [d] + [[]];
    Regroup(Join(lines), a, b, c, d);
  }

  lemma EntryText(e: Entry)
    ensures [NEWLINE] + (Ascii("## ") + e.key) + ([NEWLINE] + (Ascii("Scope: ") + ScopeName(e.scope))) + ([NEWLINE] + []) + ([NEWLINE] + e.content) + [NEWLINE]
         == [NEWLINE] + RenderEntry(e) + [NEWLINE]
  {
    hide Ascii, ScopeName;
    ScopeLine(e.scope);
    assert [NEWLINE] + [] + ([NEWLINE] + e.content) == GAP + e.content;
  }

  lemma JoinEntry(lines: seq<Text>, e: Entry)
    requires lines != []
    ensures Join(lines + EntryLines(e)) == Join(lines) + ([NEWLINE] + RenderEntry(e) + [NEWLINE])
  {
    hide Ascii, ScopeName, Join, RenderEntry;
    JoinFiveMore(lines, Ascii("## ") + e.key, Ascii("Scope: ") + ScopeName(e.scope), [], e.content);
    EntryText(e);
  }

  lemma ScopeLine(s: Scope)
    ensures [NEWLINE] + (Ascii("Scope: ") + ScopeName(s)) == Ascii("\nScope: ") + ScopeName(s)
  {
    assert "\nScope: "[0] as int == 0x0A;
    assert Ascii("\nScope: ") == [NEWLINE] + Ascii("Scope: ") by {
      assert "\nScope: "[1..] == "Scope: ";
      forall i | 0 <= i < 7 ensures Ascii("\nScope: ")[i + 1] == Ascii("Scope: ")[i] {
        assert "\nScope: "[i + 1] == "\nScope: "[1..][i];
      }
    }
  }

  lemma PrefixLines(f: Format)
    ensures Join([f.heading, [], f.description, []]) + [NEWLINE] == Prefix(f)
  {
    JoinOneMore([f.heading], []);
    JoinOneMore([f.heading] + [[]], f.description);
    JoinOneMore([f.heading] + [[]] + [f.description], []);
    assert [f.heading, [], f.description, []] == [f.heading] + [[]] + [f.description] + [[]];
    assert [NEWLINE] + [NEWLINE] == GAP;
  }

  /** The joined lines are the body without its last line end. */
  lemma {:induction false} JoinIsBody(es: seq<Entry>, f: Format)
    ensures Lines(es, f) != [] && Join(Lines(es, f)) + [NEWLINE] == Body(es, f)
    decreases |es|
  {
    hide RenderEntry, EntryLines;
    if es == [] {
      PrefixLines(f);
    } else {
      var init, e := es[..|es| - 1], es[|es| - 1];
      JoinIsBody(init, f);
      JoinEntry(Lines(init, f), e);
      assert [NEWLINE] + [NEWLINE] == GAP;
    }
  }

  /* ---------- trimming ---------- */

  lemma {:induction false} TrimEndOfConcat(a: Text, b: Text)
    requires TrimEnd(b) != []
    ensures TrimEnd(a + b) == a + TrimEnd(b)
    decreases |b|
  {
    assert (a + b)[|a + b| - 1] == b[|b| - 1];
    if IsSpace(b[|b| - 1]) {
      assert (a + b)[..|a + b| - 1] == a + b[..|b| - 1];
      TrimEndOfConcat(a, b[..|b| - 1]);
    }
  }

  lemma {:induction false} TrimStopsAt(t: Text, i: nat)
    requires i < |t| && !IsSpace(t[i])
    ensures TrimEnd(t) != [] && TrimEnd(t)[0] == t[0]
    decreases |t|
  {
    if IsSpace(t[|t| - 1]) { TrimStopsAt(t[..|t| - 1], i); }
  }

  lemma EntryBegins(e: Entry)
    ensures RenderEntry(e) != [] && RenderEntry(e)[0] == HASH
    ensures TrimEnd(RenderEntry(e)) != [] && TrimEnd(RenderEntry(e))[0] == HASH
  {
    assert "## "[0] as int == 0x23;
    assert RenderEntry(e)[0] == Ascii("## ")[0];
    TrimStopsAt(RenderEntry(e), 0);
  }

  lemma TrimLineEnd(t: Text)
    ensures TrimEnd(t + [NEWLINE]) == TrimEnd(t)
  {
    assert (t + [NEWLINE])[..|t|] == t;
  }

  /** Trimming never makes a text longer. */
  lemma {:induction false} TrimmedBytes(t: Text)
    ensures ByteLength(TrimEnd(t)) <= ByteLength(t)
    decreases |t|
  {
    if t != [] && IsSpace(t[|t| - 1]) {
      TrimmedBytes(t[..|t| - 1]);
      EncodeConcat(t[..|t| - 1], [t[|t| - 1]]);
      assert t == t[..|t| - 1] + [t[|t| - 1]];
    }
  }

  /** The last entry in a text costs no more than it would in the middle. */
  lemma TerminalIsCheaper(e: Entry)
    ensures TerminalBytes(e) <= FullBytes(e)
  {
    TrimmedBytes(RenderEntry(e));
    EncodeConcat(RenderEntry(e), GAP);
    EncodeConcat(TrimEnd(RenderEntry(e)), [NEWLINE]);
    assert Encode([NEWLINE]) == [NEWLINE] && |Encode(GAP)| == 2 by {
      assert GAP[1..] == [NEWLINE] && [NEWLINE][1..] == [];
    }
  }

  /* ---------- the bytes of the text ---------- */

  lemma DropLast(t: Text, u: Text, c: CodeUnit)
    requires t + [c] == u + [c]
    ensures t == u
  {
    assert t == (t + [c])[..|t|] && u == (u + [c])[..|u|];
  }

  /** The text for a list that is not empty: the body up to its last entry, and that entry trimmed. */
  lemma RenderedShape(es: seq<Entry>, f: Format)
    requires es != []
    ensures var init, last := es[..|es| - 1], es[|es| - 1];
            Rendered(es, f) == Body(init, f) + (TrimEnd(RenderEntry(last)) + [NEWLINE])
  {
    var init, e := es[..|es| - 1], es[|es| - 1];
    JoinIsBody(es, f);
    EntryBegins(e);
    assert Body(init, f) + (RenderEntry(e) + GAP) == Body(init, f) + RenderEntry(e) + [NEWLINE] + [NEWLINE];
    hide Join, Lines, RenderEntry, TrimEnd;
    DropLast(Join(Lines(es, f)), Body(init, f) + RenderEntry(e) + [NEWLINE], NEWLINE);
    TrimLineEnd(Body(init, f) + RenderEntry(e));
    TrimEndOfConcat(Body(init, f), RenderEntry(e));
  }

  lemma BytesConcat(a: Text, b: Text)
    requires b != [] && b[0] == HASH
    ensures ByteLength(a + b) == ByteLength(a) + ByteLength(b)
  {
    EncodeConcat(a, b);
  }

  lemma {:induction false} BodyBytes(es: seq<Entry>, f: Format)
    ensures ByteLength(Body(es, f)) == ByteLength(Prefix(f)) + FullSum(es)
    decreases |es|
  {
    hide ByteLength, Prefix, RenderEntry, TrimEnd;
    if es != [] {
      var init, e := es[..|es| - 1], es[|es| - 1];
      BodyBytes(init, f);
      EntryBegins(e);
      BytesConcat(Body(init, f), RenderEntry(e) + GAP);
    }
  }

  /** The size of the text, from the sizes of its entries alone. */
  lemma RenderedBytes(es: seq<Entry>, f: Format)
    requires es != []
    ensures var last := es[|es| - 1];
            ByteLength(Rendered(es, f)) == ByteLength(Prefix(f)) + FullSum(es) - FullBytes(last) + TerminalBytes(last)
  {
    hide ByteLength, Prefix, RenderEntry, TrimEnd, Rendered, Body;
    var init, e := es[..|es| - 1], es[|es| - 1];
    RenderedShape(es, f);
    BodyBytes(init, f);
    EntryBegins(e);
    BytesConcat(Body(init, f), TrimEnd(RenderEntry(e)) + [NEWLINE]);
  }

  /* ---------- the text of a set of entries ---------- */

  /** The runtime's own collation decides the order; entries that tie stay in the order in which they were found. */
  function ByCollation(f: Format): (Entry, Entry) -> bool {
    (a: Entry, b: Entry) => f.collate(a.key, b.key)
  }

  function Rendering(es: seq<Entry>, f: Format): Text {
    if es == [] then [] else Rendered(Sort(es, ByCollation(f)), f)
  }

  function SortedLast(es: seq<Entry>, f: Format): Option<Entry> {
    var sorted := Sort(es, ByCollation(f));
    if sorted == [] then None else Some(sorted[|sorted| - 1])
  }

  lemma SumOneMore(s: seq<Entry>, e: Entry)
    ensures FullSum(s + [e]) == FullSum(s) + FullBytes(e)
  {
    assert (s + [e])[..|s|] == s;
  }

  lemma {:induction false} InsertSum(s: seq<Entry>, e: Entry, le: (Entry, Entry) -> bool)
    ensures FullSum(Insert(s, e, le)) == FullSum(s) + FullBytes(e)
    ensures Insert(s, e, le) != []
    ensures Insert(s, e, le)[|Insert(s, e, le)| - 1] == if s == [] || le(s[|s| - 1], e) then e else s[|s| - 1]
    decreases |s|
  {
    hide FullBytes;
    if s == [] || le(s[|s| - 1], e) {
      SumOneMore(s, e);
    } else {
      var init, last := s[..|s| - 1], s[|s| - 1];
      InsertSum(init, e, le);
      SumOneMore(Insert(init, e, le), last);
    }
  }

  lemma {:induction false} SortSum(es: seq<Entry>, le: (Entry, Entry) -> bool)
    ensures FullSum(Sort(es, le)) == FullSum(es)
    ensures Sort(es, le) == [] <==> es == []
    decreases |es|
  {
    if es != [] {
      SortSum(es[..|es| - 1], le);
      InsertSum(Sort(es[..|es| - 1], le), es[|es| - 1], le);
    }
  }

  /** What a running total over unsorted entries has to be to equal the size of the text. */
  lemma RenderingBytes(es: seq<Entry>, f: Format)
    requires es != []
    ensures SortedLast(es, f).Some?
    ensures var last := SortedLast(es, f).value;
            ByteLength(Rendering(es, f)) == ByteLength(Prefix(f)) + FullSum(es) - FullBytes(last) + TerminalBytes(last)
  {
    hide ByteLength, Prefix, Rendered, FullBytes, TerminalBytes, Sort, FullSum;
    SortSum(es, ByCollation(f));
    RenderedBytes(Sort(es, ByCollation(f)), f);
  }

  lemma LastAfter(es: seq<Entry>, e: Entry, f: Format)
    ensures var last := SortedLast(es, f);
            SortedLast(es + [e], f) == Some(if last.None? || f.collate(last.value.key, e.key) then e else last.value)
    ensures FullSum(es + [e]) == FullSum(es) + FullBytes(e)
  {
    hide FullBytes, FullSum;
    SumOneMore(es, e);
    assert (es + [e])[..|es|] == es;
    InsertSum(Sort(es, ByCollation(f)), e, ByCollation(f));
  }

  lemma NothingIsNoBytes()
    ensures ByteLength([]) == 0
  {
  }

  /** One more entry never makes the text smaller, wherever it is sorted. */
  lemma RenderingGrows(es: seq<Entry>, e: Entry, f: Format)
    ensures ByteLength(Rendering(es, f)) <= ByteLength(Rendering(es + [e], f))
  {
    hide ByteLength, Prefix, Rendered, FullBytes, TerminalBytes, Sort, FullSum;
    NothingIsNoBytes();
    RenderingBytes(es + [e], f);
    LastAfter(es, e, f);
    TerminalIsCheaper(e);
    if es != [] {
      RenderingBytes(es, f);
      TerminalIsCheaper(SortedLast(es, f).value);
    }
  }

  /** The entries of the text are in collation order, every one is there, and ties keep their order. */
  lemma RenderingOrder(es: seq<Entry>, f: Format, a: Entry, b: Entry)
    requires TotalPreorder(ByCollation(f))
    ensures Sorted(Sort(es, ByCollation(f)), ByCollation(f))
    ensures multiset(Sort(es, ByCollation(f))) == multiset(es)
    ensures Precedes(es, a, b) && f.collate(a.key, b.key) ==> Precedes(Sort(es, ByCollation(f)), a, b)
  {
    SortSorts(es, ByCollation(f));
    if Precedes(es, a, b) && f.collate(a.key, b.key) { SortIsStable(es, ByCollation(f), a, b); }
  }
}
