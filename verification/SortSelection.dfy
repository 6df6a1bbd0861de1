/**
 `client/SortSelection.java`: the order in which cards were clicked, kept as an ordinal per card and updated in
 place, against the list of the cards in click order.
 */
module SortSelections {
  import opened Basics

  // ----- The click list -----

  function IndexOf(clicks: seq<nat>, card: nat): (i: nat)
    requires card in clicks
    ensures i < |clicks| && clicks[i] == card
  {
    if clicks[0] == card then 0 else 1 + IndexOf(clicks[1..], card)
  }

  function Removed(s: seq<nat>, i: nat): seq<nat>
    requires i < |s|
  {
    s[..i] + s[i + 1..]
  }

  /** A new click goes to the end; clicking a card again takes it out and leaves the others in order. */
  function Click(clicks: seq<nat>, card: nat): seq<nat> {
    if card in clicks
    then Removed(clicks, IndexOf(clicks, card))
    else clicks + [card]
  }

  function Clicks(cards: seq<nat>): seq<nat> {
    if cards == [] then [] else Click(Clicks(cards[..|cards| - 1]), cards[|cards| - 1])
  }

  /** Where the entries of a list with one taken out were before. */
  lemma RemovedAt(s: seq<nat>, i: nat, k: nat)
    requires i < |s| && k < |s| - 1
    ensures Removed(s, i)[k] == s[if k < i then k else k + 1]
  {
  }

  lemma RemovedDistinct(s: seq<nat>, i: nat)
    requires Distinct(s) && i < |s|
    ensures Distinct(Removed(s, i))
  {
    var r := Removed(s, i);
    forall j, k | 0 <= j < k < |r| ensures r[j] != r[k] {
      RemovedAt(s, i, j);
      RemovedAt(s, i, k);
    }
  }

  lemma RemovedMembers(s: seq<nat>, i: nat, c: nat)
    requires Distinct(s) && i < |s|
    ensures c in Removed(s, i) <==> c in s && c != s[i]
  {
    var r := Removed(s, i);
    if c in r {
      var k :| 0 <= k < |r| && r[k] == c;
      RemovedAt(s, i, k);
    }
    if c in s && c != s[i] {
      var k := IndexOf(s, c);
      RemovedAt(s, i, if k < i then k else k - 1);
      assert r[if k < i then k else k - 1] == c;
    }
  }

  lemma ClickStaysDistinct(clicks: seq<nat>, card: nat)
    requires Distinct(clicks)
    ensures Distinct(Click(clicks, card))
    ensures forall c :: c in Click(clicks, card) <==> if c == card then card !in clicks else c in clicks
  {
    if card in clicks {
      var i := IndexOf(clicks, card);
      RemovedDistinct(clicks, i);
      forall c ensures c in Removed(clicks, i) <==> c in clicks && c != card { RemovedMembers(clicks, i, c); }
    }
  }

  /** A card is in the list exactly if it was clicked an odd number of times. */
  lemma {:induction false} ClicksParity(cards: seq<nat>, card: nat)
    ensures Distinct(Clicks(cards)) && (card in Clicks(cards) <==> multiset(cards)[card] % 2 == 1)
    decreases |cards|
  {
    if cards == [] {
    } else {
      var n := |cards| - 1;
      ClicksParity(cards[..n], card);
      ClickStaysDistinct(Clicks(cards[..n]), cards[n]);
      assert cards == cards[..n] + [cards[n]];
    }
  }

  // ----- The object -----

  class SortSelection {
    // a card's place among the clicked ones, counted from one, or zero while it is not clicked
    const ordinal: array<int>
    var assignedCount: int
    ghost var clicks: seq<nat>

    ghost predicate Valid()
      reads this, ordinal
    {
      && Distinct(clicks) && (forall c <- clicks :: c < ordinal.Length) && assignedCount == |clicks|
      && forall c :: 0 <= c < ordinal.Length ==> ordinal[c] == if c in clicks then IndexOf(clicks, c) + 1 else 0
    }

    constructor (cardCount: nat)
      ensures Valid() && clicks == [] && fresh(ordinal) && ordinal.Length == cardCount
    {
      ordinal := new int[cardCount](_ => 0);
      assignedCount, clicks := 0, [];
    }

    method Assign(index: nat)
      requires Valid() && index < ordinal.Length
      modifies this, ordinal
      ensures Valid() && clicks == Click(old(clicks), index)
    {
      ClickStaysDistinct(clicks, index);
      if ordinal[index] != 0 {
        Unassign(index);
        assignedCount := assignedCount - 1;
        forall c | 0 <= c < ordinal.Length && c != index && c in clicks
          ensures ordinal[c] == IndexOf(Click(clicks, index), c) + 1 {
          ShiftedIndex(clicks, index, c);
        }
      } else {
        assignedCount := assignedCount + 1;
        ordinal[index] := assignedCount;
        forall c | 0 <= c < ordinal.Length && c in Click(clicks, index)
          ensures ordinal[c] == IndexOf(Click(clicks, index), c) + 1 {
          IndexUnique(Click(clicks, index), c, if c == index then |clicks| else IndexOf(clicks, c));
        }
      }
      clicks := Click(clicks, index);
    }

    /** Every later ordinal moves down by one. */
    method Unassign(index: nat)
      requires index < ordinal.Length && ordinal[index] > 0
      modifies ordinal
      ensures ordinal[index] == 0
      ensures forall c :: 0 <= c < ordinal.Length && c != index ==>
                ordinal[c] == if old(ordinal[c]) > old(ordinal[index]) then old(ordinal[c]) - 1 else old(ordinal[c])
    {
      var removedOrdinal := ordinal[index];
      ordinal[index] := 0;
      var i := 0;
      while i < ordinal.Length
        invariant 0 <= i <= ordinal.Length
        invariant forall c :: 0 <= c < i && c != index ==>
          ordinal[c] == if old(ordinal[c]) > removedOrdinal then old(ordinal[c]) - 1 else old(ordinal[c])
        invariant forall c :: i <= c < ordinal.Length && c != index ==> ordinal[c] == old(ordinal[c])
        invariant ordinal[index] == 0
      {
        if ordinal[i] > removedOrdinal { ordinal[i] := ordinal[i] - 1; }
        i := i + 1;
      }
    }

    predicate IsComplete()
      reads this, ordinal
    {
      assignedCount == ordinal.Length
    }

    /** The zero-based rank of every card. */
    method Response() returns (result: array<int>)
      requires Valid()
      ensures fresh(result) && result.Length == ordinal.Length
      ensures forall c :: 0 <= c < ordinal.Length ==> result[c] == if c in clicks then IndexOf(clicks, c) else -1
    {
      result := new int[ordinal.Length];
      var i := 0;
      while i < ordinal.Length
        invariant 0 <= i <= ordinal.Length
        invariant forall c :: 0 <= c < i ==> result[c] == ordinal[c] - 1
      {
        result[i] := ordinal[i] - 1;
        i := i + 1;
      }
    }

    /** The numbers on the cards are 1 to the number of cards clicked, each on the card clicked in that place. */
    lemma OrdinalsExact()
      requires Valid()
      ensures forall k :: 0 <= k < assignedCount ==> clicks[k] < ordinal.Length && ordinal[clicks[k]] == k + 1
      ensures forall c :: 0 <= c < ordinal.Length && ordinal[c] != 0 ==> 1 <= ordinal[c] <= assignedCount && clicks[ordinal[c] - 1] == c
    {
      forall k | 0 <= k < assignedCount ensures clicks[k] < ordinal.Length && ordinal[clicks[k]] == k + 1 {
        assert clicks[k] in clicks;
        IndexUnique(clicks, clicks[k], k);
      }
    }

    /** Once every card is numbered the ranks are a permutation: each card has one, and no two share one. */
    lemma CompleteIsPermutation()
      requires Valid() && IsComplete()
      ensures forall c :: 0 <= c < ordinal.Length ==> c in clicks && 0 <= ordinal[c] - 1 < ordinal.Length
      ensures forall c, d :: 0 <= c < d < ordinal.Length ==> ordinal[c] != ordinal[d]
    {
      Pigeonhole(clicks, ordinal.Length);
    }
  }

  lemma IndexUnique(clicks: seq<nat>, c: nat, i: nat)
    requires Distinct(clicks) && i < |clicks| && clicks[i] == c
    ensures IndexOf(clicks, c) == i
  {
  }

  /** Taking a card out moves those after it one place forward. */
  lemma ShiftedIndex(clicks: seq<nat>, card: nat, c: nat)
    requires Distinct(clicks) && card in clicks && c in clicks && c != card
    ensures c in Click(clicks, card)
    ensures IndexOf(Click(clicks, card), c) == IndexOf(clicks, c) - if IndexOf(clicks, c) > IndexOf(clicks, card) then 1 else 0
  {
    ClickStaysDistinct(clicks, card);
    var i, k := IndexOf(clicks, card), IndexOf(clicks, c);
    IndexUnique(Click(clicks, card), c, if k < i then k else k - 1);
  }

  /** `n` different numbers below `n` are all of them. */
  lemma {:induction false} Pigeonhole(s: seq<nat>, n: nat)
    requires Distinct(s) && |s| == n && forall c <- s :: c < n
    ensures forall c :: 0 <= c < n ==> c in s
  {
    if n == 0 {
    } else {
      var last := n - 1;
      if last in s {
        var r := Click(s, last);
        ClickStaysDistinct(s, last);
        Pigeonhole(r, n - 1);
      } else {
        assert forall i :: 0 <= i < |s| ==> s[i] in s;
        TooMany(s, n - 1);
      }
    }
  }

  /** No more than `n` different numbers are below `n`. */
  lemma {:induction false} TooMany(s: seq<nat>, n: nat)
    requires Distinct(s) && forall i :: 0 <= i < |s| ==> s[i] < n
    ensures |s| <= n
    decreases n
  {
    if n == 0 {
    } else {
      if n - 1 in s {
        ClickStaysDistinct(s, n - 1);
        TooMany(Click(s, n - 1), n - 1);
      } else {
        TooMany(s, n - 1);
      }
    }
  }

  /** Any run of clicks, by the method that clicks once. */
  method AssignAll(selection: SortSelection, cards: seq<nat>)
    requires selection.Valid() && selection.clicks == [] && forall c <- cards :: c < selection.ordinal.Length
    modifies selection, selection.ordinal
    ensures selection.Valid() && selection.clicks == Clicks(cards)
  {
    for n := 0 to |cards|
      invariant selection.Valid() && selection.clicks == Clicks(cards[..n])
    {
      assert cards[..n + 1][..n] == cards[..n];
      assert cards[n] in cards;
      selection.Assign(cards[n]);
    }
    assert cards[..|cards|] == cards;
  }
}
