/**
 `client/collection/ClientCollectionState.java`: a collection snapshot pulled page by page and shown
 only once it is whole.
 */
module CollectionSnapshots {
  import opened JavaText
  import opened Wrappers

  type Id = nat
  /** UTF-16 code units. */
  type Text = seq<nat>
  /** A `DeckEligibility.Report` is only handed on. */
  type Report = nat

  datatype Summary = Summary(id: Id, name: Text, main: int, extra: int, side: int)

  datatype Header = Header(snapshotId: Id, revision: int, countPages: int, deckPages: int, activeId: Option<Id>,
                           ownershipRequired: bool, clearedActivation: Option<Report>)

  datatype PageKind = COUNTS | DECKS
  datatype Page = Page(snapshotId: Id, kind: PageKind, index: int)

  /** A deck's name and cards are only compared. */
  datatype SavedDeck = SavedDeck(id: Id, contents: nat)

  datatype Reply =
    | Opened(header: Header)
    | Counts(snapshotId: Id, revision: int, index: int, entries: map<int, int>)
    | Decks(snapshotId: Id, revision: int, index: int, summaries: seq<Summary>)
    | Deck(revision: int, deck: SavedDeck)
    | Changed(revision: int, activeId: Option<Id>, saved: Option<SavedDeck>, transferred: int, skipped: int)
    | Rejected(error: nat, revision: int)

  datatype View = View(revision: int, counts: map<int, int>, summaries: seq<Summary>, activeId: Option<Id>,
                       ownershipRequired: bool, clearedActivation: Option<Report>)

  const COUNT_PAGE := 256
  const SUMMARY_PAGE := 32
  const NAME_LENGTH := 128
  const DRAFT_CARDS := 512

  // ----- What is required of replies -----

  predicate NameAccepted(name: Text) {
    (exists u :: u in name && !IsWhitespace(u)) && |name| <= NAME_LENGTH && forall u <- name :: !IsIsoControl(u)
  }

  predicate SummaryAccepted(s: Summary) {
    && NameAccepted(s.name) && s.main >= 0 && s.extra >= 0 && s.side >= 0
    && s.main + s.extra + s.side <= DRAFT_CARDS
  }

  predicate SizeAccepted(size: nat, limit: nat, index: int, pages: int) {
    0 < size <= limit && (index == pages - 1 || size == limit)
  }

  function Ids(summaries: seq<Summary>): set<Id> { set s <- summaries :: s.id }

  predicate DistinctIds(summaries: seq<Summary>) {
    forall i, j :: 0 <= i < j < |summaries| ==> summaries[i].id != summaries[j].id
  }

  lemma IdsOfConcat(a: seq<Summary>, b: seq<Summary>)
    ensures Ids(a + b) == Ids(a) + Ids(b)
  {
    forall id | id in Ids(a) + Ids(b) ensures id in Ids(a + b) {
      var s: Summary :| (s in a || s in b) && s.id == id;
      assert s in a + b;
    }
  }

  /** One more summary keeps the ids distinct exactly when its id is new, and a repeated id is never mended by later ones. */
  lemma DistinctSnoc(a: seq<Summary>, s: Summary, rest: seq<Summary>)
    ensures DistinctIds(a) && s.id !in Ids(a) ==> DistinctIds(a + [s])
    ensures s.id in Ids(a) ==> !DistinctIds(a + [s] + rest)
  {
    if s.id in Ids(a) {
      var t :| t in a && t.id == s.id;
      var i :| 0 <= i < |a| && a[i] == t;
      var all := a + [s] + rest;
      assert all[i] == t && all[|a|] == s;
    }
    if DistinctIds(a) && s.id !in Ids(a) {
      forall i, j | 0 <= i < j < |a + [s]| ensures (a + [s])[i].id != (a + [s])[j].id {
        if j == |a| { assert a[i].id in Ids(a); }
      }
    }
  }

  lemma Inhabited(codes: set<int>)
    ensures codes == {} || exists code :: code in codes
  {
    if forall code :: code !in codes { assert codes == {}; }
  }

  // ----- What a snapshot is -----

  /** The entries of the pages together, later pages last. */
  function Union(pages: seq<map<int, int>>): map<int, int>
    decreases |pages|
  {
    if pages == [] then map[] else Union(pages[..|pages| - 1]) + pages[|pages| - 1]
  }

  function Concat(pages: seq<seq<Summary>>): seq<Summary>
    decreases |pages|
  {
    if pages == [] then [] else Concat(pages[..|pages| - 1]) + pages[|pages| - 1]
  }

  /** The pages received so far are an initial part of the snapshot `header` announces. */
  ghost predicate CountPagesFit(header: Header, pages: seq<map<int, int>>) {
    && |pages| <= header.countPages
    && (forall i :: 0 <= i < |pages| ==> SizeAccepted(|pages[i]|, COUNT_PAGE, i, header.countPages))
    && (forall i, code :: 0 <= i < |pages| && code in pages[i] ==> code > 0 && pages[i][code] > 0)
    && (forall i, j :: 0 <= i < j < |pages| ==> pages[i].Keys !! pages[j].Keys)
  }

  ghost predicate DeckPagesFit(header: Header, pages: seq<seq<Summary>>) {
    && |pages| <= header.deckPages
    && (forall i :: 0 <= i < |pages| ==> SizeAccepted(|pages[i]|, SUMMARY_PAGE, i, header.deckPages))
    && (forall i, s :: 0 <= i < |pages| && s in pages[i] ==> SummaryAccepted(s))
    && DistinctIds(Concat(pages))
  }

  /** `view` is the whole snapshot: all its pages, in order, disjoint, with its active deck among them. */
  ghost predicate Whole(view: View, header: Header, countPages: seq<map<int, int>>, deckPages: seq<seq<Summary>>) {
    && header.revision >= 0 && view.revision == header.revision
    && |countPages| == header.countPages && |deckPages| == header.deckPages
    && CountPagesFit(header, countPages) && DeckPagesFit(header, deckPages)
    && view.counts == Union(countPages) && view.summaries == Concat(deckPages)
    && view.activeId == header.activeId && (view.activeId.Some? ==> view.activeId.value in Ids(view.summaries))
    && view.ownershipRequired == header.ownershipRequired && view.clearedActivation == header.clearedActivation
  }

  /** The view these pages make. */
  function Assembled(header: Header, countPages: seq<map<int, int>>, deckPages: seq<seq<Summary>>): View {
    View(header.revision, Union(countPages), Concat(deckPages), header.activeId, header.ownershipRequired, header.clearedActivation)
  }

  lemma WholeIsAssembled(view: View, header: Header, countPages: seq<map<int, int>>, deckPages: seq<seq<Summary>>)
    requires Whole(view, header, countPages, deckPages)
    ensures view == Assembled(header, countPages, deckPages)
  {
  }

  /** The page to ask for when these pages were received: counts in order, then decks in order. */
  function Missing(header: Header, countPages: seq<map<int, int>>, deckPages: seq<seq<Summary>>): Option<Page> {
    if |countPages| < header.countPages then Some(Page(header.snapshotId, COUNTS, |countPages|))
    else if |deckPages| < header.deckPages then Some(Page(header.snapshotId, DECKS, |deckPages|))
    else None
  }

  lemma {:induction false} UnionKeys(pages: seq<map<int, int>>, code: int)
    ensures code in Union(pages) <==> exists i :: 0 <= i < |pages| && code in pages[i]
    decreases |pages|
  {
    if pages == [] {
    } else {
      var n := |pages| - 1;
      UnionKeys(pages[..n], code);
      if code in pages[n] { assert code in pages[n]; }
      if code in Union(pages[..n]) {
        var i :| 0 <= i < n && code in pages[..n][i];
        assert code in pages[i];
      }
    }
  }

  /** How many codes a part of a snapshot holds: every page but the last full, the last not empty. */
  lemma {:induction false} UnionSize(header: Header, pages: seq<map<int, int>>)
    requires CountPagesFit(header, pages)
    ensures if pages == [] then Union(pages) == map[] else COUNT_PAGE * (|pages| - 1) < |Union(pages)| <= COUNT_PAGE * |pages|
    ensures |pages| < header.countPages ==> |Union(pages)| == COUNT_PAGE * |pages|
    decreases |pages|
  {
    if pages == [] {
    } else {
      var n := |pages| - 1;
      UnionSize(header, pages[..n]);
      var before, last := Union(pages[..n]), pages[n];
      forall code | code in before ensures code !in last { UnionKeys(pages[..n], code); }
      assert (before + last).Keys == before.Keys + last.Keys;
      assert |before.Keys + last.Keys| == |before.Keys| + |last.Keys|;
      assert |(before + last).Keys| == |before + last|;
    }
  }

  lemma {:induction false} ConcatSize(header: Header, pages: seq<seq<Summary>>)
    requires |pages| <= header.deckPages
    requires forall i :: 0 <= i < |pages| ==> SizeAccepted(|pages[i]|, SUMMARY_PAGE, i, header.deckPages)
    ensures if pages == [] then Concat(pages) == [] else SUMMARY_PAGE * (|pages| - 1) < |Concat(pages)| <= SUMMARY_PAGE * |pages|
    ensures |pages| < header.deckPages ==> |Concat(pages)| == SUMMARY_PAGE * |pages|
    decreases |pages|
  {
    if pages == [] {
    } else {
      ConcatSize(header, pages[..|pages| - 1]);
    }
  }

  /** What a shown view must hold, from the number of its pages alone. */
  lemma WholeSizes(view: View, header: Header, countPages: seq<map<int, int>>, deckPages: seq<seq<Summary>>)
    requires Whole(view, header, countPages, deckPages)
    ensures header.countPages == 0 ==> view.counts == map[]
    ensures header.countPages > 0 ==> COUNT_PAGE * (header.countPages - 1) < |view.counts| <= COUNT_PAGE * header.countPages
    ensures header.deckPages == 0 ==> view.summaries == []
    ensures header.deckPages > 0 ==> SUMMARY_PAGE * (header.deckPages - 1) < |view.summaries| <= SUMMARY_PAGE * header.deckPages
  {
    UnionSize(header, countPages);
    ConcatSize(header, deckPages);
  }

  /** No page's entry is lost or overwritten by another page. */
  lemma WholeKeepsEveryEntry(view: View, header: Header, countPages: seq<map<int, int>>, deckPages: seq<seq<Summary>>, i: nat, code: int)
    requires Whole(view, header, countPages, deckPages) && i < |countPages| && code in countPages[i]
    ensures code in view.counts && view.counts[code] == countPages[i][code]
  {
    UnionKeeps(header, countPages, i, code);
  }

  lemma {:induction false} UnionKeeps(header: Header, pages: seq<map<int, int>>, i: nat, code: int)
    requires CountPagesFit(header, pages) && i < |pages| && code in pages[i]
    ensures code in Union(pages) && Union(pages)[code] == pages[i][code]
    decreases |pages|
  {
    var n := |pages| - 1;
    if i == n {
    } else {
      UnionKeeps(header, pages[..n], i, code);
      assert code !in pages[n];
    }
  }

  lemma {:induction false} ConcatPrefix(pages: seq<seq<Summary>>, k: nat)
    requires k <= |pages|
    ensures Concat(pages[..k]) <= Concat(pages)
    decreases |pages|
  {
    if k == |pages| {
      assert pages[..k] == pages;
    } else {
      var n := |pages| - 1;
      ConcatPrefix(pages[..n], k);
      assert pages[..n][..k] == pages[..k];
    }
  }

  // ----- The object -----

  class ClientCollectionState {
    var view: Option<View>
    var pulling: Option<Header>
    var counts: map<int, int>
    var summaries: seq<Summary>
    var countIndex: int
    var deckIndex: int
    // the pages accepted since `pulling` was, and those the view was made of
    ghost var countPages: seq<map<int, int>>
    ghost var deckPages: seq<seq<Summary>>
    ghost var shownHeader: Header
    ghost var shownCounts: seq<map<int, int>>
    ghost var shownDecks: seq<seq<Summary>>

    ghost predicate Blank()
      reads this
    {
      pulling.None? && counts == map[] && summaries == [] && countIndex == 0 && deckIndex == 0 && countPages == [] && deckPages == []
    }

    /** Counts come before decks, and what is held is what the pages received hold. */
    ghost predicate Gathered()
      reads this
      requires pulling.Some?
    {
      var snapshot := pulling.value;
      && snapshot.revision >= 0 && (view.Some? ==> view.value.revision <= snapshot.revision)
      && countIndex == |countPages| && deckIndex == |deckPages|
      && CountPagesFit(snapshot, countPages) && DeckPagesFit(snapshot, deckPages)
      && (deckIndex > 0 ==> countIndex >= snapshot.countPages)
      && counts == Union(countPages) && summaries == Concat(deckPages)
      && (snapshot.activeId.Some? && deckIndex == snapshot.deckPages ==> snapshot.activeId.value in Ids(summaries))
      && (view.Some? ==> Whole(view.value, shownHeader, shownCounts, shownDecks))
    }

    ghost predicate Valid()
      reads this
    {
      if pulling.Some? then Gathered() && NextPage().Some?
      else Blank() && (view.Some? ==> Whole(view.value, shownHeader, shownCounts, shownDecks))
    }

    constructor ()
      ensures Valid() && view.None? && pulling.None?
    {
      view, pulling, counts, summaries, countIndex, deckIndex := None, None, map[], [], 0, 0;
      countPages, deckPages := [], [];
    }

    method DiscardPending()
      modifies this
      ensures view == old(view) && shownHeader == old(shownHeader) && shownCounts == old(shownCounts) && shownDecks == old(shownDecks)
      ensures Blank() && (old(Valid()) ==> Valid())
    {
      pulling, counts, summaries, countIndex, deckIndex := None, map[], [], 0, 0;
      countPages, deckPages := [], [];
    }

    method Clear()
      modifies this
      ensures Valid() && view.None? && pulling.None?
    {
      DiscardPending();
      view := None;
    }

    function NextPage(): (page: Option<Page>)
      reads this
    {
      if pulling.None? then None
      else if countIndex < pulling.value.countPages then Some(Page(pulling.value.snapshotId, COUNTS, countIndex))
      else if deckIndex < pulling.value.deckPages then Some(Page(pulling.value.snapshotId, DECKS, deckIndex))
      else None
    }

    predicate HeaderAccepted(header: Header)
      reads this
    {
      && header.revision >= 0 && header.countPages >= 0 && header.deckPages >= 0
      && (view.Some? ==> header.revision >= view.value.revision)
      && (header.activeId.Some? ==> header.deckPages > 0)
    }

    /** Shown views only get newer. */
    twostate predicate Newer()
      reads this
    {
      old(view).Some? ==> view.Some? && old(view).value.revision <= view.value.revision
    }

    /** Publishes what is held once no page is missing. */
    method PublishIfComplete()
      requires pulling.Some? && Gathered()
      modifies this
      ensures Valid() && Newer()
      ensures if old(NextPage()).Some? then pulling == old(pulling) && view == old(view) && countPages == old(countPages) && deckPages == old(deckPages)
              else pulling.None? && view.Some? && view.value.revision == old(pulling).value.revision
                   && shownHeader == old(pulling).value && shownCounts == old(countPages) && shownDecks == old(deckPages)
    {
      if NextPage().Some? { return; }
      view := Some(View(pulling.value.revision, counts, summaries, pulling.value.activeId, pulling.value.ownershipRequired,
                        pulling.value.clearedActivation));
      shownHeader, shownCounts, shownDecks := pulling.value, countPages, deckPages;
      DiscardPending();
    }

    /** A header starts a snapshot over, or is refused and changes nothing. */
    method Begin(header: Header) returns (ok: bool)
      requires Valid()
      modifies this
      ensures Valid() && Newer()
      ensures ok <==> old(HeaderAccepted(header))
      ensures !ok ==> unchanged(this)
      ensures ok && header.countPages + header.deckPages > 0 ==>
                pulling == Some(header) && countPages == [] && deckPages == [] && view == old(view)
      ensures ok && header.countPages + header.deckPages == 0 ==>
                pulling.None? && view.Some? && shownHeader == header && shownCounts == [] && shownDecks == []
    {
      ok := HeaderAccepted(header);
      if !ok { return; }
      DiscardPending();
      pulling := Some(header);
      PublishIfComplete();
    }

    predicate PageExpected(snapshotId: Id, kind: PageKind, revision: int, index: int)
      reads this
    {
      NextPage() == Some(Page(snapshotId, kind, index)) && revision == pulling.value.revision
    }

    ghost predicate CountsAccepted(entries: map<int, int>)
      reads this
      requires pulling.Some?
    {
      && SizeAccepted(|entries|, COUNT_PAGE, countIndex, pulling.value.countPages)
      && forall code <- entries :: code > 0 && entries[code] > 0 && code !in counts
    }

    ghost predicate DecksAccepted(entries: seq<Summary>)
      reads this
      requires pulling.Some?
    {
      && SizeAccepted(|entries|, SUMMARY_PAGE, deckIndex, pulling.value.deckPages)
      && (forall s <- entries :: SummaryAccepted(s)) && DistinctIds(summaries + entries)
      && (deckIndex == pulling.value.deckPages - 1 && pulling.value.activeId.Some? ==>
            pulling.value.activeId.value in Ids(summaries) + Ids(entries))
    }

    /** The next page is told by the pages received. */
    lemma NextIsMissing()
      requires Valid() && pulling.Some?
      ensures NextPage() == Missing(pulling.value, countPages, deckPages) && NextPage().Some?
    {
    }

    lemma ShownIsAssembled()
      requires Valid() && pulling.None? && view.Some?
      ensures view.value == Assembled(shownHeader, shownCounts, shownDecks)
    {
      WholeIsAssembled(view.value, shownHeader, shownCounts, shownDecks);
    }

    /** What a page reply must satisfy to be taken. */
    ghost predicate PageAccepted(reply: Reply)
      reads this
    {
      match reply
      case Counts(id, revision, index, entries) => PageExpected(id, COUNTS, revision, index) && CountsAccepted(entries)
      case Decks(id, revision, index, entries) => PageExpected(id, DECKS, revision, index) && DecksAccepted(entries)
      case _ => false
    }

    /** What is held is the start of a snapshot whose pages are these. */
    ghost predicate Begins(header: Header, allCounts: seq<map<int, int>>, allDecks: seq<seq<Summary>>)
      reads this
    {
      && Whole(Assembled(header, allCounts, allDecks), header, allCounts, allDecks)
      && Valid() && pulling == Some(header) && countPages <= allCounts && deckPages <= allDecks
    }

    /** The next page of counts of a whole snapshot is taken. */
    lemma CountsTurn(header: Header, allCounts: seq<map<int, int>>, allDecks: seq<seq<Summary>>)
      requires Begins(header, allCounts, allDecks) && |countPages| < |allCounts|
      ensures PageAccepted(Counts(header.snapshotId, header.revision, |countPages|, allCounts[|countPages|]))
    {
      var i := |countPages|;
      var entries := allCounts[i];
      assert CountsAccepted(entries) by {
        forall code <- entries ensures code > 0 && entries[code] > 0 && code !in counts {
          UnionKeys(countPages, code);
        }
      }
    }

    /** The next page of decks of a whole snapshot is taken once all counts were. */
    lemma DecksTurn(header: Header, allCounts: seq<map<int, int>>, allDecks: seq<seq<Summary>>)
      requires Begins(header, allCounts, allDecks) && |countPages| == |allCounts| && |deckPages| < |allDecks|
      ensures PageAccepted(Decks(header.snapshotId, header.revision, |deckPages|, allDecks[|deckPages|]))
    {
      var j := |deckPages|;
      var entries := allDecks[j];
      ConcatPrefix(allDecks, j + 1);
      assert allDecks[..j + 1][..j] == deckPages;
      assert Concat(allDecks[..j + 1]) == summaries + entries;
      if j == header.deckPages - 1 {
        assert allDecks[..j + 1] == allDecks;
        IdsOfConcat(summaries, entries);
      }
    }

    /** The page expected next is taken, or the reply is refused and changes nothing. */
    method Accept(reply: Reply) returns (ok: bool)
      requires Valid()
      modifies this
      ensures Valid() && Newer()
      ensures ok <==> old(PageAccepted(reply))
      ensures !ok ==> unchanged(this)
      ensures ok ==> Took(reply)
    {
      ok := false;
      if NextPage().None? { return; }
      match reply
      case Counts(id, revision, index, entries) =>
        if PageExpected(id, COUNTS, revision, index) { ok := AcceptCounts(entries); }
      case Decks(id, revision, index, entries) =>
        if PageExpected(id, DECKS, revision, index) { ok := AcceptDecks(entries); }
      case _ =>
    }

    /** The page went after those taken before it: into what is held, or with them into the view if it was the last. */
    twostate predicate Took(reply: Reply)
      reads this
    {
      var cs := old(countPages) + (if reply.Counts? then [reply.entries] else []);
      var ds := old(deckPages) + (if reply.Decks? then [reply.summaries] else []);
      && old(pulling).Some?
      && if Missing(old(pulling).value, cs, ds).Some?
         then pulling == old(pulling) && countPages == cs && deckPages == ds && view == old(view)
         else pulling.None? && view.Some? && shownHeader == old(pulling).value && shownCounts == cs && shownDecks == ds
    }

    method AcceptCounts(entries: map<int, int>) returns (ok: bool)
      requires Valid() && NextPage().Some? && NextPage().value.kind == COUNTS
      modifies this
      ensures Valid() && Newer()
      ensures ok <==> old(CountsAccepted(entries))
      ensures !ok ==> unchanged(this)
      ensures ok ==> forall id, revision, index :: Took(Counts(id, revision, index, entries))
    {
      hide Whole, Blank, Gathered;
      ok := CheckCounts(entries);
      if !ok { return; }
      AddCounts(entries);
      PublishIfComplete();
    }

    method AddCounts(entries: map<int, int>)
      requires Valid() && NextPage().Some? && NextPage().value.kind == COUNTS && CountsAccepted(entries)
      modifies this`counts, this`countIndex, this`countPages
      ensures pulling.Some? && Gathered() && countPages == old(countPages) + [entries]
      ensures countIndex == |countPages| && deckIndex == |deckPages|
    {
      hide CountPagesFit, DeckPagesFit, Whole, Union, Concat;
      CountsStayWhole(entries);
      counts := counts + entries;
      countIndex := countIndex + 1;
      countPages := countPages + [entries];
    }

    method CheckCounts(entries: map<int, int>) returns (ok: bool)
      requires pulling.Some?
      ensures ok <==> CountsAccepted(entries)
    {
      ok := SizeAccepted(|entries|, COUNT_PAGE, countIndex, pulling.value.countPages);
      var left: set<int> := entries.Keys;
      while ok && left != {}
        invariant left <= entries.Keys
        invariant ok <==> SizeAccepted(|entries|, COUNT_PAGE, countIndex, pulling.value.countPages)
                          && forall code <- entries.Keys - left :: code > 0 && entries[code] > 0 && code !in counts
        decreases |left|
      {
        Inhabited(left);
        var code :| code in left;
        left := left - {code};
        ok := code > 0 && entries[code] > 0 && code !in counts;
      }
    }

    lemma CountsStayWhole(entries: map<int, int>)
      requires Valid() && NextPage().Some? && NextPage().value.kind == COUNTS && CountsAccepted(entries)
      ensures CountPagesFit(pulling.value, countPages + [entries]) && Union(countPages + [entries]) == counts + entries
    {
      var pages := countPages + [entries];
      assert pages[..|countPages|] == countPages;
      forall i | 0 <= i < |countPages| ensures countPages[i].Keys !! entries.Keys {
        forall code | code in countPages[i] ensures code !in entries { UnionKeys(countPages, code); }
      }
    }

    method AcceptDecks(entries: seq<Summary>) returns (ok: bool)
      requires Valid() && NextPage().Some? && NextPage().value.kind == DECKS
      modifies this
      ensures Valid() && Newer()
      ensures ok <==> old(DecksAccepted(entries))
      ensures !ok ==> unchanged(this)
      ensures ok ==> forall id, revision, index :: Took(Decks(id, revision, index, entries))
    {
      hide CountPagesFit, DeckPagesFit, Whole, Union, Concat;
      HeldDistinct();
      ok := CheckDecks(entries);
      if !ok { return; }
      DecksStayWhole(entries);
      summaries := summaries + entries;
      deckIndex := deckIndex + 1;
      deckPages := deckPages + [entries];
      PublishIfComplete();
    }

    method CheckDecks(entries: seq<Summary>) returns (ok: bool)
      requires pulling.Some? && DistinctIds(summaries)
      ensures ok <==> DecksAccepted(entries)
    {
      if !SizeAccepted(|entries|, SUMMARY_PAGE, deckIndex, pulling.value.deckPages) { return false; }
      var ids: set<Id> := {};
      for i := 0 to |entries|
        invariant ids == Ids(entries[..i]) && DistinctIds(summaries + entries[..i])
        invariant forall k :: 0 <= k < i ==> SummaryAccepted(entries[k])
      {
        var s := entries[i];
        var seen := summaries + entries[..i];
        IdsOfConcat(summaries, entries[..i]);
        IdsOfConcat(entries[..i], [s]);
        DistinctSnoc(seen, s, entries[i + 1..]);
        assert entries[..i + 1] == entries[..i] + [s];
        assert summaries + entries[..i + 1] == seen + [s];
        assert summaries + entries == seen + [s] + entries[i + 1..];
        if s.id in ids || s.id in Ids(summaries) { return false; }
        if !SummaryAccepted(s) { return false; }
        ids := ids + {s.id};
      }
      assert entries[..|entries|] == entries;
      ok := deckIndex == pulling.value.deckPages - 1 && pulling.value.activeId.Some? ==>
              pulling.value.activeId.value in Ids(summaries) || pulling.value.activeId.value in ids;
    }

    lemma HeldDistinct()
      requires pulling.Some? && Gathered()
      ensures DistinctIds(summaries)
    {
    }

    lemma DecksStayWhole(entries: seq<Summary>)
      requires Valid() && NextPage().Some? && NextPage().value.kind == DECKS && DecksAccepted(entries)
      ensures DeckPagesFit(pulling.value, deckPages + [entries]) && Concat(deckPages + [entries]) == summaries + entries
      ensures Ids(summaries + entries) == Ids(summaries) + Ids(entries)
    {
      assert (deckPages + [entries])[..|deckPages|] == deckPages;
      IdsOfConcat(summaries, entries);
    }
  }
}
