/**
 The messages that restructure one player's piles: drawing, resizing to a query, and reshuffling a hand.
 */
module DuelBoardPiles {
  import opened Basics
  import opened DuelBoard
  import opened DuelBoardInvariants
  import opened DuelBoardMoves

  // ----- Draw -----

  lemma PilePrefixPlaced<C>(b: Board<C>, z: Zone, k: nat)
    requires WellFormed(b) && z in b.piles && k <= |b.piles[z]|
    ensures var r := b.(piles := b.piles[z := b.piles[z][..k]]);
            WellFormed(r) && forall c <- b.piles[z][k..] :: Loose(r, c)
  {
    var r := b.(piles := b.piles[z := b.piles[z][..k]]);
    assert Closed(r);
    assert Placed(r) by {
      forall h <- r.facts, i | 0 <= i < |r.facts[h].materials| ensures MaterialPoints(r.facts[r.facts[h].materials[i]], i) {
        assert MaterialPoints(b.facts[b.facts[h].materials[i]], i);
      }
    }
    forall c <- b.piles[z][k..] ensures Loose(r, c) {
      var i :| k <= i < |b.piles[z]| && b.piles[z][i] == c;
      HeldOnlyThere(b, InPile(z, i), c);
      PileDistinct(b, z);
    }
  }

  lemma DrawOneWellFormed<C>(b: Board<C>, player: int, code: int, spare: seq<C>)
    requires WellFormed(b) && IsPlayer(player)
    requires |spare| == Shortfall(1, |Pile(b, player, LOCATION_DECK)|) && forall c <- spare :: c !in b.facts
    ensures WellFormed(DrawOne(b, player, code, spare))
  {
    var deck := Pile(b, player, LOCATION_DECK);
    var c := TopCard(b, player, spare);
    var b1 := TakeTop(b, player, spare);
    if deck == [] {
      NewCardWellFormed(b, c, NewFacts(0, player, LOCATION_HAND, 0, POS_FACEDOWN_DEFENSE));
    } else {
      PilePrefixPlaced(b, Zone(player, LOCATION_DECK), |deck| - 1);
      assert c in deck[|deck| - 1..];
    }
    var f := b1.facts[c].(code := code);
    RewriteWellFormed(b1, c, f);
    SameShapePlaced(b1, WithCard(b1, c, f));
    PutAtWellFormed(WithCard(b1, c, f), c, player, LOCATION_HAND, |Pile(b, player, LOCATION_HAND)|);
  }

  ghost predicate Unknown<C>(known: set<C>, spare: seq<C>) {
    Distinct(spare) && forall c <- spare :: c !in known
  }

  lemma LatestUnknown<C>(known: set<C>, spare: seq<C>)
    requires Unknown(known, spare)
    ensures Unknown(known, Earlier(spare)) && Unknown(known + Elements(Earlier(spare)), Latest(spare))
  {
  }

  lemma {:induction false} DrawLoopWellFormed<C>(b: Board<C>, player: int, cards: seq<Drawn>, spare: seq<C>)
    requires WellFormed(b) && IsPlayer(player) && Unknown(b.facts.Keys, spare)
    requires |spare| == Shortfall(|cards|, |Pile(b, player, LOCATION_DECK)|)
    ensures WellFormed(DrawLoop(b, player, cards, spare))
    decreases |cards|
  {
    hide DrawOne, Pile, Elements, Earlier, Latest, Shortfall, Unknown, SlotsPoint, PilesPoint, MaterialsPoint, OneHost, Linked, Closed;
    if cards == [] {
    } else {
      var k := |cards| - 1;
      SpareSplit(|cards|, |Pile(b, player, LOCATION_DECK)|, spare);
      LatestUnknown(b.facts.Keys, spare);
      var b1 := DrawLoop(b, player, cards[..k], Earlier(spare));
      assert WellFormed(b1) by { DrawLoopWellFormed(b, player, cards[..k], Earlier(spare)); }
      assert WellFormed(DrawOne(b1, player, cards[k].code, Latest(spare))) by {
        DrawOneWellFormed(b1, player, cards[k].code, Latest(spare));
      }
    }
  }

  /** Rewriting a pile with its own list changes no containment. */
  lemma RenumberPileWellFormed<C>(b: Board<C>, z: Zone)
    requires WellFormed(b) && z in b.piles
    ensures WellFormed(SetPile(b, z, b.piles[z]))
  {
    EmptyPilePlaced(b, z);
    PileDistinct(b, z);
    SetPilePlaced(b, z, b.piles[z]);
    SetPileLinks(b, z, b.piles[z]);
    SameLinksLinked(b, SetPile(b, z, b.piles[z]));
  }

  lemma DrawWellFormed<C>(b: Board<C>, player: int, cards: seq<Drawn>, spare: seq<C>)
    requires WellFormed(b) && Supplies(b, Draw(player, cards), spare)
    ensures WellFormed(ApplyDraw(b, player, cards, spare))
  {
    DrawLoopWellFormed(b, player, cards, spare);
    RenumberPileWellFormed(DrawLoop(b, player, cards, spare), Zone(player, LOCATION_DECK));
  }

  /** The drawn cards in order: off the end of the deck, then new ones. */
  ghost function Taken<C>(deck: seq<C>, spare: seq<C>, n: nat): (r: seq<C>)
    requires |spare| == Shortfall(n, |deck|)
  {
    seq(n, i requires 0 <= i < n => if i < |deck| then deck[|deck| - 1 - i] else spare[i - |deck|])
  }

  /** `r` is `b` with `drawn` at the end of the hand, off a deck cut to `rest`. */
  ghost predicate DrawnFrom<C>(b: Board<C>, r: Board<C>, player: int, rest: nat, drawn: seq<C>)
    requires Closed(b) && IsPlayer(player) && rest <= |Pile(b, player, LOCATION_DECK)|
  {
    && r.slots == b.slots && b.facts.Keys <= r.facts.Keys
    && r.piles == b.piles[Zone(player, LOCATION_DECK) := Pile(b, player, LOCATION_DECK)[..rest]]
                         [Zone(player, LOCATION_HAND) := Pile(b, player, LOCATION_HAND) + drawn]
    && (forall h <- r.facts :: r.facts[h].materials == if h in b.facts then b.facts[h].materials else [])
  }

  lemma TakeTopDrawn<C>(b: Board<C>, player: int, spare: seq<C>)
    requires Closed(b) && IsPlayer(player)
    requires |spare| == Shortfall(1, |Pile(b, player, LOCATION_DECK)|) && forall c <- spare :: c !in b.facts
    ensures var r := TakeTop(b, player, spare);
            && r.slots == b.slots && b.facts.Keys <= r.facts.Keys
            && r.piles == b.piles[Zone(player, LOCATION_DECK) := Pile(b, player, LOCATION_DECK)[..Shortfall(|Pile(b, player, LOCATION_DECK)|, 1)]]
            && (forall h <- r.facts :: r.facts[h].materials == if h in b.facts then b.facts[h].materials else [])
  {
    hide RefersWithin;
  }

  lemma CodedTop<C>(b1: Board<C>, c: C, code: int) returns (b2: Board<C>)
    requires Closed(b1) && c in b1.facts
    ensures RefersWithin(b1.facts[c].(code := code), b1.facts.Keys + {c}) && b2 == WithCard(b1, c, b1.facts[c].(code := code))
    ensures b2.slots == b1.slots && b2.piles == b1.piles && b2.facts.Keys == b1.facts.Keys
    ensures forall h <- b1.facts :: b2.facts[h].materials == b1.facts[h].materials
  {
    assert RefersWithin(b1.facts[c], b1.facts.Keys);
    b2 := WithCard(b1, c, b1.facts[c].(code := code));
  }

  lemma DrawOneDrawn<C>(b: Board<C>, player: int, code: int, spare: seq<C>)
    requires Closed(b) && IsPlayer(player)
    requires |spare| == Shortfall(1, |Pile(b, player, LOCATION_DECK)|) && forall c <- spare :: c !in b.facts
    ensures DrawnFrom(b, DrawOne(b, player, code, spare), player, Shortfall(|Pile(b, player, LOCATION_DECK)|, 1), [TopCard(b, player, spare)])
  {
    hide Closed, TakeTop, TopCard, PutAt, RefersWithin, Shortfall;
    var c := TopCard(b, player, spare);
    var b1 := TakeTop(b, player, spare);
    TakeTopDrawn(b, player, spare);
    var b2 := CodedTop(b1, c, code);
    assert Pile(b2, player, LOCATION_HAND) == Pile(b, player, LOCATION_HAND);
    PutAtEnd(b2, c, player);
  }

  lemma PutAtEnd<C>(b: Board<C>, c: C, player: int)
    requires Closed(b) && c in b.facts && IsPlayer(player)
    ensures var r := PutAt(b, c, player, LOCATION_HAND, |Pile(b, player, LOCATION_HAND)|);
            && r.slots == b.slots && r.facts.Keys == b.facts.Keys
            && r.piles == b.piles[Zone(player, LOCATION_HAND) := Pile(b, player, LOCATION_HAND) + [c]]
            && (forall h <- b.facts :: r.facts[h].materials == b.facts[h].materials)
  {
    hide RefersWithin;
    var hand := Pile(b, player, LOCATION_HAND);
    assert Insert(hand, Clamp(|hand|, 0, |hand|), c) == hand + [c];
  }

  lemma DrawnAgain<C>(b: Board<C>, b1: Board<C>, r: Board<C>, player: int, rest1: nat, drawn: seq<C>, rest: nat, c: C)
    requires Closed(b) && Closed(b1) && IsPlayer(player) && rest <= rest1 <= |Pile(b, player, LOCATION_DECK)|
    requires DrawnFrom(b, b1, player, rest1, drawn) && rest <= |Pile(b1, player, LOCATION_DECK)| && DrawnFrom(b1, r, player, rest, [c])
    ensures DrawnFrom(b, r, player, rest, drawn + [c])
  {
    hide Closed;
    var deck := Pile(b, player, LOCATION_DECK);
    assert deck[..rest1][..rest] == deck[..rest];
    assert Pile(b, player, LOCATION_HAND) + drawn + [c] == Pile(b, player, LOCATION_HAND) + (drawn + [c]);
  }

  lemma TakenNext<C>(deck: seq<C>, spare: seq<C>, n: nat, c: C)
    requires n > 0 && |spare| == Shortfall(n, |deck|) && |Earlier(spare)| == Shortfall(n - 1, |deck|)
    requires c == if n <= |deck| then deck[|deck| - n] else spare[|spare| - 1]
    ensures Taken(deck, Earlier(spare), n - 1) + [c] == Taken(deck, spare, n)
  {
  }

  /** The deck after `n - 1` draws, and the card the next one takes. */
  lemma NextTop<C>(b: Board<C>, b1: Board<C>, player: int, spare: seq<C>, n: nat, drawn: seq<C>)
    requires Closed(b) && Closed(b1) && IsPlayer(player) && n > 0
    requires |spare| == Shortfall(n, |Pile(b, player, LOCATION_DECK)|)
    requires DrawnFrom(b, b1, player, Shortfall(|Pile(b, player, LOCATION_DECK)|, n - 1), drawn)
    ensures var deck := Pile(b, player, LOCATION_DECK);
            && |Latest(spare)| == Shortfall(1, |Pile(b1, player, LOCATION_DECK)|)
            && |Pile(b1, player, LOCATION_DECK)| == Shortfall(|deck|, n - 1) && Shortfall(Shortfall(|deck|, n - 1), 1) == Shortfall(|deck|, n)
            && TopCard(b1, player, Latest(spare)) == if n <= |deck| then deck[|deck| - n] else spare[|spare| - 1]
  {
    hide Closed;
  }

  lemma DrawStepDrawn<C>(b: Board<C>, b1: Board<C>, player: int, code: int, spare: seq<C>, n: nat)
    requires Closed(b) && Closed(b1) && IsPlayer(player) && n > 0
    requires |spare| == Shortfall(n, |Pile(b, player, LOCATION_DECK)|) && |Earlier(spare)| == Shortfall(n - 1, |Pile(b, player, LOCATION_DECK)|)
    requires var deck := Pile(b, player, LOCATION_DECK);
             DrawnFrom(b, b1, player, Shortfall(|deck|, n - 1), Taken(deck, Earlier(spare), n - 1))
    requires forall c <- Latest(spare) :: c !in b1.facts
    ensures |Latest(spare)| == Shortfall(1, |Pile(b1, player, LOCATION_DECK)|)
    ensures var deck := Pile(b, player, LOCATION_DECK);
            DrawnFrom(b, DrawOne(b1, player, code, Latest(spare)), player, Shortfall(|deck|, n), Taken(deck, spare, n))
  {
    hide Closed, DrawOne, Taken, TopCard, DrawnFrom, Earlier, Latest, Pile;
    var deck := Pile(b, player, LOCATION_DECK);
    NextTop(b, b1, player, spare, n, Taken(deck, Earlier(spare), n - 1));
    var c := TopCard(b1, player, Latest(spare));
    DrawOneDrawn(b1, player, code, Latest(spare));
    TakenNext(deck, spare, n, c);
    DrawnAgain(b, b1, DrawOne(b1, player, code, Latest(spare)), player, Shortfall(|deck|, n - 1),
               Taken(deck, Earlier(spare), n - 1), Shortfall(|deck|, n), c);
  }

  lemma NoneDrawn<C>(b: Board<C>, player: int)
    requires Closed(b) && IsPlayer(player)
    ensures var deck := Pile(b, player, LOCATION_DECK);
            DrawnFrom(b, b, player, |deck|, Taken(deck, [], 0))
  {
    hide RefersWithin;
    assert Taken<C>(Pile(b, player, LOCATION_DECK), [], 0) == [];
    assert Pile(b, player, LOCATION_HAND) + [] == Pile(b, player, LOCATION_HAND);
    assert Pile(b, player, LOCATION_DECK)[..|Pile(b, player, LOCATION_DECK)|] == Pile(b, player, LOCATION_DECK);
  }

  lemma {:induction false} DrawLoopDrawn<C>(b: Board<C>, player: int, cards: seq<Drawn>, spare: seq<C>)
    requires Closed(b) && IsPlayer(player) && Unknown(b.facts.Keys, spare)
    requires |spare| == Shortfall(|cards|, |Pile(b, player, LOCATION_DECK)|)
    ensures DrawnFrom(b, DrawLoop(b, player, cards, spare), player, Shortfall(|Pile(b, player, LOCATION_DECK)|, |cards|),
                      Taken(Pile(b, player, LOCATION_DECK), spare, |cards|))
    decreases |cards|
  {
    hide Closed, DrawOne, RefersWithin, Unknown, Elements, DrawnFrom, Pile, Taken, Earlier, Latest;
    if cards == [] {
      NoneDrawn(b, player);
    } else {
      var k := |cards| - 1;
      SpareSplit(|cards|, |Pile(b, player, LOCATION_DECK)|, spare);
      LatestUnknown(b.facts.Keys, spare);
      var b1 := DrawLoop(b, player, cards[..k], Earlier(spare));
      DrawLoopDrawn(b, player, cards[..k], Earlier(spare));
      LatestApart(b1.facts.Keys, Latest(spare));
      DrawStepDrawn(b, b1, player, cards[k].code, spare, |cards|);
    }
  }

  lemma LatestApart<C>(known: set<C>, spare: seq<C>)
    requires Unknown(known, spare)
    ensures forall c <- spare :: c !in known
  {
  }

  /** Draw moves the deck's last cards, and new ones when it runs out, to the hand's end in order, and nothing else. */
  lemma DrawExact<C>(b: Board<C>, player: int, cards: seq<Drawn>, spare: seq<C>)
    requires Supplies(b, Draw(player, cards), spare)
    ensures DrawnFrom(b, ApplyDraw(b, player, cards, spare), player, Shortfall(|Pile(b, player, LOCATION_DECK)|, |cards|),
                      Taken(Pile(b, player, LOCATION_DECK), spare, |cards|))
  {
    hide Closed, RefersWithin, DrawLoop, Taken, Shortfall, Distinct;
    DrawLoopDrawn(b, player, cards, spare);
    RenumberedPile(DrawLoop(b, player, cards, spare), Zone(player, LOCATION_DECK));
  }

  lemma RenumberedPile<C>(b: Board<C>, z: Zone)
    requires Closed(b) && z in b.piles
    ensures IsZone(z) && (forall c <- b.piles[z] :: c in b.facts)
    ensures var r := SetPile(b, z, b.piles[z]);
            && r.slots == b.slots && r.piles == b.piles && r.facts.Keys == b.facts.Keys
            && (forall h <- b.facts :: r.facts[h].materials == b.facts[h].materials)
  {
    hide RefersWithin;
    assert b.piles[z := b.piles[z]] == b.piles;
  }

  // ----- UpdateData and ShuffleHand -----

  lemma {:induction false} BlanksAt<C>(facts: map<C, Facts<C>>, z: Zone, start: nat, spare: seq<C>, i: nat)
    requires Distinct(spare) && i < |spare|
    ensures Blanks(facts, z, start, spare)[spare[i]] == NewFacts(0, z.player, z.location, start + i, POS_FACEDOWN_DEFENSE)
    decreases |spare|
  {
    if i == |spare| - 1 {
    } else {
      BlanksAt(facts, z, start, spare[..|spare| - 1], i);
    }
  }

  lemma FillBlanksPlaced<C>(b: Board<C>, z: Zone, spare: seq<C>)
    requires Placed(b) && z in b.piles && Distinct(spare) && forall c <- spare :: c !in b.facts
    ensures Placed(FillBlanks(b, z, spare))
  {
    var r := FillBlanks(b, z, spare);
    assert PilesPoint(r) by {
      forall y <- r.piles, i | 0 <= i < |r.piles[y]| ensures Points(r.facts[r.piles[y][i]], y.player, y.location, i) {
        if y == z && i >= |b.piles[z]| {
          BlanksAt(b.facts, z, |b.piles[z]|, spare, i - |b.piles[z]|);
          assert r.piles[z][i] == spare[i - |b.piles[z]|];
        } else {
          assert r.piles[y][i] == b.piles[y][i];
          assert Points(b.facts[b.piles[y][i]], y.player, y.location, i);
        }
      }
    }
    assert MaterialsPoint(r) && OneHost(r) by {
      forall h <- r.facts ensures r.facts[h].materials == if h in b.facts then b.facts[h].materials else [] {
        assert h in b.facts || h in spare;
      }
      forall h <- r.facts, i | 0 <= i < |r.facts[h].materials| ensures MaterialPoints(r.facts[r.facts[h].materials[i]], i) {
        assert RefersWithin(b.facts[h], b.facts.Keys);
        assert MaterialPoints(b.facts[b.facts[h].materials[i]], i);
      }
    }
  }

  lemma FillBlanksWellFormed<C>(b: Board<C>, z: Zone, spare: seq<C>)
    requires WellFormed(b) && z in b.piles && Distinct(spare) && forall c <- spare :: c !in b.facts
    ensures WellFormed(FillBlanks(b, z, spare))
  {
    FillBlanksPlaced(b, z, spare);
    var r := FillBlanks(b, z, spare);
    forall c <- r.facts | c !in b.facts ensures NoLinks(r.facts[c]) {
      assert c in spare && RefersWithin(r.facts[c], {});
    }
    SameLinksLinked(b, r);
  }

  lemma ResizeWellFormed<C>(b: Board<C>, z: Zone, size: nat, spare: seq<C>)
    requires WellFormed(b) && z in b.piles && |spare| == Shortfall(size, |b.piles[z]|)
    requires Distinct(spare) && forall c <- spare :: c !in b.facts
    ensures WellFormed(Resize(b, z, size, spare))
  {
    if size < |b.piles[z]| {
      PilePrefixPlaced(b, z, size);
    } else {
      FillBlanksWellFormed(b, z, spare);
    }
  }

  lemma ShuffleHandWellFormed<C>(b: Board<C>, player: int, codes: seq<int>, spare: seq<C>)
    requires WellFormed(b) && Supplies(b, ShuffleHand(player, codes), spare)
    ensures WellFormed(ApplyShuffleHand(b, player, codes, spare))
  {
    ResizeWellFormed(b, Zone(player, LOCATION_HAND), |codes|, spare);
    var b1 := Resize(b, Zone(player, LOCATION_HAND), |codes|, spare);
    var r := ApplyShuffleHand(b, player, codes, spare);
    SameShapePlaced(b1, r);
    SameLinksLinked(b1, r);
  }
}
