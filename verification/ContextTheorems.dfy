/** Which entries an agent gets to see, and the text it gets, in terms of the stored entries alone. */
module ContextTheorems {
  import opened Basics
  import opened Utf16
  import opened Sorting
  import opened ContextText
  import opened ContextResolver

  /** No two stored entries of one workspace, project, scope and owner have the same key. */
  predicate KeysAreApart(contexts: seq<Entry>) {
    forall i, j :: 0 <= i < j < |contexts| && contexts[i].workspace == contexts[j].workspace && contexts[i].project == contexts[j].project
                   && contexts[i].scope == contexts[j].scope && contexts[i].owner == contexts[j].owner
                   ==> contexts[i].key != contexts[j].key
  }

  /** The key has a stored entry in that scope, seen from a user in a project of a workspace. */
  predicate Has(contexts: seq<Entry>, scope: Scope, key: Text, workspace: Id, project: Id, user: Id) {
    exists y :: y in contexts && y.key == key && Visible(y, scope, workspace, project, user)
  }

  /** Project entries are those of the project, personal ones those of the user, all of them those of the workspace. */
  predicate Visible(x: Entry, scope: Scope, workspace: Id, project: Id, user: Id) {
    x.workspace == workspace && x.scope == scope
    && x.project == (match scope case ProjectPersonal => Some(project) case ProjectShared => Some(project)
                                 case WorkspacePersonal => None case WorkspaceShared => None)
    && x.owner == (match scope case ProjectPersonal => Some(user) case ProjectShared => None
                               case WorkspacePersonal => Some(user) case WorkspaceShared => None)
  }

  /**
   What is effective: the user's own entries of the project; the project's shared ones whose key they do not have; the
   user's own entries of the workspace whose key neither has; the workspace's shared ones whose key none of the three
   has. Nothing of another user, project or workspace.
   */
  lemma EffectiveIff(contexts: seq<Entry>, w: Id, p: Id, u: Id, x: Entry)
    requires KeysAreApart(contexts)
    ensures x in Effective(contexts, w, p, u) <==>
              x in contexts && x.workspace == w
              && match x.scope
                 case ProjectPersonal => x.project == Some(p) && x.owner == Some(u)
                 case ProjectShared => x.project == Some(p) && x.owner == None && !Has(contexts, ProjectPersonal, x.key, w, p, u)
                 case WorkspacePersonal =>
                   x.project == None && x.owner == Some(u) && !Has(contexts, ProjectPersonal, x.key, w, p, u)
                   && !Has(contexts, ProjectShared, x.key, w, p, u)
                 case WorkspaceShared =>
                   x.project == None && x.owner == None && !Has(contexts, ProjectPersonal, x.key, w, p, u)
                   && !Has(contexts, ProjectShared, x.key, w, p, u) && !Has(contexts, WorkspacePersonal, x.key, w, p, u)
  {
    var buckets := Buckets(w, p, u);
    ApartInBuckets(contexts, w, p, u);
    if x in contexts && BucketOf(x) in buckets {
      var i :| 0 <= i < 4 && BucketOf(x) == buckets[i];
      MostSpecificScopeWins(contexts, buckets, i, x);
      BucketsBefore(contexts, w, p, u, i, x.key);
    } else {
      EffectiveIsVisible(contexts, w, p, u, x);
    }
  }

  lemma ApartInBuckets(contexts: seq<Entry>, w: Id, p: Id, u: Id)
    requires KeysAreApart(contexts)
    ensures forall b: Bucket :: KeysDiffer(contexts, b)
  {
  }

  lemma BucketsBefore(contexts: seq<Entry>, w: Id, p: Id, u: Id, i: nat, key: Text)
    requires i < 4
    ensures (exists y :: y in contexts && BucketOf(y) in Buckets(w, p, u)[..i] && y.key == key)
       <==> (i > 0 && Has(contexts, ProjectPersonal, key, w, p, u)) || (i > 1 && Has(contexts, ProjectShared, key, w, p, u))
            || (i > 2 && Has(contexts, WorkspacePersonal, key, w, p, u))
  {
    var buckets := Buckets(w, p, u);
    forall y ensures BucketOf(y) in buckets[..i] <==>
                       (i > 0 && Visible(y, ProjectPersonal, w, p, u)) || (i > 1 && Visible(y, ProjectShared, w, p, u))
                       || (i > 2 && Visible(y, WorkspacePersonal, w, p, u))
    {
      InBuckets(y, w, p, u, i);
    }
  }

  lemma InBuckets(y: Entry, w: Id, p: Id, u: Id, i: nat)
    requires i < 4
    ensures BucketOf(y) in Buckets(w, p, u)[..i] <==>
              (i > 0 && Visible(y, ProjectPersonal, w, p, u)) || (i > 1 && Visible(y, ProjectShared, w, p, u))
              || (i > 2 && Visible(y, WorkspacePersonal, w, p, u))
  {
    var buckets := Buckets(w, p, u)[..i];
    assert i > 0 ==> buckets[0] == Bucket(w, Some(p), ProjectPersonal, Some(u));
    assert i > 1 ==> buckets[1] == Bucket(w, Some(p), ProjectShared, None);
    assert i > 2 ==> buckets[2] == Bucket(w, None, WorkspacePersonal, Some(u));
  }

  lemma EffectiveIsVisible(contexts: seq<Entry>, w: Id, p: Id, u: Id, x: Entry)
    ensures x in Effective(contexts, w, p, u) ==> x in contexts && BucketOf(x) in Buckets(w, p, u)
  {
    hide Listing;
    var all := Joined(Listings(contexts), Buckets(w, p, u));
    FirstIff(all, x);
    ListingsHave(contexts, Buckets(w, p, u), x);
  }

  /* ---------- writes ---------- */

  /** Some stored entry, other than the one of this identifier, has the key of `e` in the same scope of the same owner. */
  predicate Collides(contexts: seq<Entry>, e: Entry, except: Option<Id>) {
    exists i :: 0 <= i < |contexts| && except != Some(contexts[i].id) && contexts[i].key == e.key && contexts[i].workspace == e.workspace
                && contexts[i].project == e.project && contexts[i].scope == e.scope && contexts[i].owner == e.owner
  }

  predicate HasId(contexts: seq<Entry>, id: Id) {
    exists i :: 0 <= i < |contexts| && contexts[i].id == id
  }

  /** `after` is `before` with the entry in its place, or behind all others if it is new. */
  predicate Holds(before: seq<Entry>, after: seq<Entry>, e: Entry) {
    if HasId(before, e.id) then
      |after| == |before| && forall i :: 0 <= i < |before| ==> after[i] == if before[i].id == e.id then e else before[i]
    else after == before + [e]
  }

  /** An entry is written exactly if its key is free in its scope, an update only over the version it was made from; a deletion takes one entry out. */
  lemma EditsTell(contexts: seq<Entry>, e: Entry, current: bool, i: nat)
    ensures var after := Edited(contexts, Create(e)); if Collides(contexts, e, None) then after == contexts else Holds(contexts, after, e)
    ensures
      var after := Edited(contexts, Update(e, current));
      if HasId(contexts, e.id) && current && !Collides(contexts, e, Some(e.id)) then Holds(contexts, after, e) else after == contexts
    ensures Edited(contexts, Delete(i)) == if i < |contexts| then contexts[..i] + contexts[i + 1..] else contexts
  {
    assert HasId(contexts, e.id) <==> IsStored(contexts, e.id);
    forall except: Option<Id> ensures Collides(contexts, e, except) <==> KeyIsTaken(contexts, e, except) {}
  }

  /* ---------- the text ---------- */

  /** What an entry adds to the text. */
  function Section(e: Entry): Text {
    Ascii("## ") + e.key + Ascii("\nScope: ")
    + (match e.scope
       case ProjectPersonal => Ascii("project_personal")
       case ProjectShared => Ascii("project_shared")
       case WorkspacePersonal => Ascii("workspace_personal")
       case WorkspaceShared => Ascii("workspace_shared"))
    + [0x0A, 0x0A] + e.content + [0x0A, 0x0A]
  }

  function Sections(es: seq<Entry>): Text {
    if es == [] then [] else Sections(es[..|es| - 1]) + Section(es[|es| - 1])
  }

  lemma {:induction false} BodyIsSections(es: seq<Entry>, f: Format)
    ensures Body(es, f) == f.heading + [0x0A, 0x0A] + f.description + [0x0A, 0x0A] + Sections(es)
    decreases |es|
  {
    if es != [] {
      hide RenderEntry, Section;
      BodyIsSections(es[..|es| - 1], f);
      SectionIsEntry(es[|es| - 1]);
    }
  }

  /** The literals are their characters. */
  lemma AsciiIsExact(s: string, i: nat)
    requires i < |s| && s[i] as int < 0x80
    ensures Ascii(s)[i] == s[i] as int
  {
  }

  lemma SectionIsEntry(e: Entry)
    ensures Section(e) == RenderEntry(e) + GAP
  {
    hide Ascii;
  }

  /** White space and line terminators of ECMA-262, by number. */
  const SPACES: set<int> :=
    {0x09, 0x0A, 0x0B, 0x0C, 0x0D, 0x20, 0xA0, 0x1680, 0x2000, 0x2001, 0x2002, 0x2003, 0x2004, 0x2005, 0x2006, 0x2007, 0x2008, 0x2009,
     0x200A, 0x2028, 0x2029, 0x202F, 0x205F, 0x3000, 0xFEFF}

  /** Trimming drops the white space at the end, all of it and nothing else. */
  lemma {:induction false} TrimmingDropsSpaces(t: Text)
    ensures var u := TrimEnd(t);
            |u| <= |t| && u == t[..|u|] && (u != [] ==> u[|u| - 1] !in SPACES) && forall i :: |u| <= i < |t| ==> t[i] in SPACES
    decreases |t|
  {
    if t != [] && IsSpace(t[|t| - 1]) { TrimmingDropsSpaces(t[..|t| - 1]); }
  }

  /** The text of entries in order: heading, description and a section for each entry, without trailing white space, and a line end. */
  lemma TextOfEntries(es: seq<Entry>, f: Format)
    ensures Rendered(es, f) == TrimEnd(f.heading + [0x0A, 0x0A] + f.description + [0x0A, 0x0A] + Sections(es)) + [0x0A]
  {
    hide Body, Lines, Join, Sections;
    JoinIsBody(es, f);
    BodyIsSections(es, f);
    TrimLineEnd(Join(Lines(es, f)));
  }

  /**
   What an agent gets for a list of effective entries: nothing for none; otherwise their text in the order of the
   collation, refused exactly if it takes more than 32 KiB in UTF-8.
   */
  lemma ResolutionIsText(effective: seq<Entry>, f: Format)
    ensures
      var text := TrimEnd(f.heading + [0x0A, 0x0A] + f.description + [0x0A, 0x0A] + Sections(Sort(effective, (a: Entry, b: Entry) => f.collate(a.key, b.key)))) + [0x0A];
      ResolutionOf(effective, f) == if effective == [] then Resolved([]) else if |Encode(text)| > 32_768 then TooLarge else Resolved(text)
  {
    hide Sections, TrimEnd, Rendered, Sort;
    NothingIsNoBytes();
    assert ByCollation(f) == (a: Entry, b: Entry) => f.collate(a.key, b.key);
    TextOfEntries(Sort(effective, ByCollation(f)), f);
  }
}
