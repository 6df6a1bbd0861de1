/**
 Every message writes exactly the codes, positions and links it is to write.
 */
module DuelBoardWritten {
  import opened Basics
  import opened Wrappers
  import opened DuelBoard
  import opened DuelBoardInvariants
  import opened DuelBoardMoves
  import opened DuelBoardLinks
  import opened DuelBoardPiles
  import opened DuelBoardRemoval
  import opened DuelBoardWrites

  // ----- Messages that leave codes, positions and links alone -----

  /** Nothing about the links of the cards before the message is to change. */
  ghost predicate LeavesLinks<C>(b: Board<C>, msg: Message)
    requires Closed(b)
  {
    && !msg.Equip? && !msg.CardTarget? && !msg.CancelTarget?
    && forall d <- b.facts :: !Untargets(b, msg, d) && !Unequips(b, msg, d) && !Sheds(b, msg, d)
  }

  lemma LinksKept<C>(b: Board<C>, msg: Message, r: Board<C>)
    requires Closed(b) && LeavesLinks(b, msg) && forall d <- r.facts :: LinksEqual(Before(b, d), r.facts[d])
    ensures LinksWritten(b, msg, r)
  {
    hide Untargets, Unequips, Sheds;
    assert forall d <- b.facts :: RefersWithin(b.facts[d], b.facts.Keys);
    hide Closed;
    forall c <- r.facts, d <- r.facts ensures d in r.facts[c].targets <==> TargetsAfter(b, msg, c, d) {
      assert LinksEqual(Before(b, c), r.facts[c]);
    }
    forall c <- r.facts ensures r.facts[c].equipTarget == EquipAfter(b, msg, c) {
      assert LinksEqual(Before(b, c), r.facts[c]);
    }
  }

  /** Only places changed: codes, positions and links are those of before. */
  lemma RearrangedIsWritten<C>(b: Board<C>, msg: Message, spare: seq<C>, r: Board<C>)
    requires Supplies(b, msg, spare) && LeavesLinks(b, msg) && (msg.Swap? || msg.UpdateData?)
    requires forall d <- r.facts :: SameAttributes(Before(b, d), r.facts[d])
    ensures Written(b, msg, spare, r)
  {
    hide Untargets, Unequips, Sheds, LeavesLinks, LinksWritten, Before, Closed;
    LinksKept(b, msg, r);
  }

  lemma SwapWritten<C>(b: Board<C>, loc1: LocInfo, loc2: LocInfo)
    requires Supplies(b, Swap(loc1, loc2), [])
    ensures Written(b, Swap(loc1, loc2), [], ApplySwap(b, loc1, loc2))
  {
    hide Closed, Resolve, RemoveFrom, PutAt, Rearranged, Written;
    var c := Resolve(b, loc1);
    var d := Resolve(b, loc2);
    RearrangedRefl(b);
    var b1 := if c.Some? then RemoveFrom(b, c.value, loc1) else b;
    if c.Some? { RemoveRearranges(b, c.value, loc1); }
    var b2 := if d.Some? then RemoveFrom(b1, d.value, loc2) else b1;
    if d.Some? { RemoveRearranges(b1, d.value, loc2); RearrangedTrans(b, b1, b2); }
    var b3 := if c.Some? then PutAt(b2, c.value, loc2.controller, loc2.location, loc2.sequence) else b2;
    if c.Some? { PutAtRearranges(b2, c.value, loc2.controller, loc2.location, loc2.sequence); RearrangedTrans(b, b2, b3); }
    var r := ApplySwap(b, loc1, loc2);
    if d.Some? { PutAtRearranges(b3, d.value, loc1.controller, loc1.location, loc1.sequence); RearrangedTrans(b, b3, r); }
    RearrangedBefore(b, r);
    RearrangedIsWritten(b, Swap(loc1, loc2), [], r);
  }

  lemma RearrangedRefl<C>(b: Board<C>)
    ensures Rearranged(b, b)
  {
  }

  lemma RearrangedBefore<C>(b: Board<C>, r: Board<C>)
    requires Rearranged(b, r)
    ensures forall d <- r.facts :: SameAttributes(Before(b, d), r.facts[d])
  {
  }

  lemma ResizedBefore<C>(b: Board<C>, z: Zone, size: nat, spare: seq<C>)
    requires Closed(b) && z in b.piles && |spare| == Shortfall(size, |b.piles[z]|) && Distinct(spare) && forall c <- spare :: c !in b.facts
    ensures var r := Resize(b, z, size, spare); forall d <- r.facts :: SameAttributes(Before(b, d), r.facts[d])
  {
    hide RefersWithin;
    var r := Resize(b, z, size, spare);
    if size >= |b.piles[z]| {
      forall d <- r.facts ensures SameAttributes(Before(b, d), r.facts[d]) {
        if d in spare {
          var i :| 0 <= i < |spare| && spare[i] == d;
          BlanksAt(b.facts, z, |b.piles[z]|, spare, i);
        }
      }
    }
  }

  lemma UpdateWritten<C>(b: Board<C>, p: int, l: Location, size: nat, spare: seq<C>)
    requires Supplies(b, UpdateData(p, l, size), spare)
    ensures Written(b, UpdateData(p, l, size), spare, Apply(b, UpdateData(p, l, size), spare))
  {
    hide Closed, Written, Resize;
    if IsPile(l) {
      ZoneThere(b, p, l);
      ResizedBefore(b, Zone(p, l), size, spare);
    } else {
      RearrangedRefl(b);
      RearrangedBefore(b, b);
    }
    RearrangedIsWritten(b, UpdateData(p, l, size), spare, Apply(b, UpdateData(p, l, size), spare));
  }

  lemma ZoneThere<C>(b: Board<C>, p: int, l: Location)
    requires Closed(b) && IsPile(l) && Readable(p, l)
    ensures Zone(p, l) in b.piles
  {
  }

  // ----- Draw and ShuffleHand -----

  lemma {:induction false} RecodeAt<C>(facts: map<C, Facts<C>>, list: seq<C>, codes: seq<int>, d: C)
    requires |list| == |codes| && Distinct(list) && (forall c <- list :: c in facts) && d in facts
    ensures d !in list ==> Recode(facts, list, codes)[d] == facts[d]
    ensures forall i :: 0 <= i < |list| && list[i] == d ==> Recode(facts, list, codes)[d].code == codes[i]
    decreases |list|
  {
    if list == [] {
    } else {
      RecodeAt(facts, list[..|list| - 1], codes[..|list| - 1], d);
    }
  }

  /** Position and links are those of before, whatever was done to codes and places. */
  ghost predicate OnlyCodes<C>(b: Board<C>, r: Board<C>) {
    forall d <- r.facts :: r.facts[d].position == Before(b, d).position && LinksEqual(Before(b, d), r.facts[d])
  }

  lemma CodedIsWritten<C>(b: Board<C>, msg: Message, spare: seq<C>, r: Board<C>)
    requires Supplies(b, msg, spare) && (msg.Draw? || msg.ShuffleHand?) && CodesWritten(b, msg, spare, r) && OnlyCodes(b, r)
    ensures Written(b, msg, spare, r)
  {
    hide Closed, LinksWritten, CodesWritten, Before;
    LinksKept(b, msg, r);
  }

  lemma ShuffleHandWritten<C>(b: Board<C>, p: int, codes: seq<int>, spare: seq<C>)
    requires WellFormed(b) && Supplies(b, ShuffleHand(p, codes), spare)
    ensures Written(b, ShuffleHand(p, codes), spare, ApplyShuffleHand(b, p, codes, spare))
  {
    hide Closed, Placed, Linked, Written, Resize, Recode, Before;
    var z := Zone(p, LOCATION_HAND);
    ZoneThere(b, p, LOCATION_HAND);
    var b1 := Resize(b, z, |codes|, spare);
    ResizedBefore(b, z, |codes|, spare);
    ResizeWellFormed(b, z, |codes|, spare);
    ResizedList(b, z, |codes|, spare);
    HandKnown(b1, z);
    var r := ApplyShuffleHand(b, p, codes, spare);
    forall d <- r.facts
      ensures d !in b1.piles[z] ==> r.facts[d].code == Before(b, d).code
      ensures forall i :: 0 <= i < |codes| && b1.piles[z][i] == d ==> r.facts[d].code == codes[i]
    {
      assert SameAttributes(Before(b, d), b1.facts[d]);
      RecodeAt(b1.facts, b1.piles[z], codes, d);
    }
    assert OnlyCodes(b, r) by {
      forall d <- r.facts ensures r.facts[d].position == Before(b, d).position && LinksEqual(Before(b, d), r.facts[d]) {
        assert SameAttributes(Before(b, d), b1.facts[d]);
      }
    }
    CodedIsWritten(b, ShuffleHand(p, codes), spare, r);
  }

  lemma HandKnown<C>(b: Board<C>, z: Zone)
    requires WellFormed(b) && z in b.piles
    ensures Distinct(b.piles[z]) && forall c <- b.piles[z] :: c in b.facts
  {
    PileDistinct(b, z);
  }

  /** A resized pile is a front of the old one with the new cards behind it. */
  lemma ResizedList<C>(b: Board<C>, z: Zone, size: nat, spare: seq<C>)
    requires Closed(b) && z in b.piles && |spare| == Shortfall(size, |b.piles[z]|)
    ensures size <= |b.piles[z] + spare| && Resize(b, z, size, spare).piles == b.piles[z := (b.piles[z] + spare)[..size]]
    ensures Resize(b, z, size, spare).slots == b.slots
  {
    hide RefersWithin;
    if size < |b.piles[z]| {
      assert (b.piles[z] + spare)[..size] == b.piles[z][..size];
    } else {
      assert (b.piles[z] + spare)[..size] == b.piles[z] + spare;
    }
  }

  lemma DrawOneWrites<C>(b: Board<C>, player: int, code: int, spare: seq<C>)
    requires Closed(b) && IsPlayer(player)
    requires |spare| == Shortfall(1, |Pile(b, player, LOCATION_DECK)|) && forall c <- spare :: c !in b.facts
    ensures var r := DrawOne(b, player, code, spare);
            var c := TopCard(b, player, spare);
            && c in r.facts && r.facts.Keys == b.facts.Keys + Elements(spare)
            && forall d <- r.facts ::
                 SameAttributes(Before(b, d).(code := if d == c then code else Before(b, d).code), r.facts[d])
  {
    hide PutAt;
    var c := TopCard(b, player, spare);
    var b1 := TakeTop(b, player, spare);
    assert RefersWithin(b1.facts[c], b1.facts.Keys);
    var b2 := WithCard(b1, c, b1.facts[c].(code := code));
    hide Closed;
    PutAtRearranges(b2, c, player, LOCATION_HAND, |Pile(b, player, LOCATION_HAND)|);
  }

  lemma TakenDistinct<C>(deck: seq<C>, spare: seq<C>, n: nat)
    requires |spare| == Shortfall(n, |deck|) && Distinct(deck) && Distinct(spare) && forall c <- spare :: c !in deck
    ensures Distinct(Taken(deck, spare, n))
  {
    var taken := Taken(deck, spare, n);
    forall i, j | 0 <= i < j < n ensures taken[i] != taken[j] {
      if j < |deck| {
        assert deck[|deck| - 1 - j] != deck[|deck| - 1 - i];
      } else if i < |deck| {
        assert spare[j - |deck|] in spare;
      } else {
        assert spare[i - |deck|] != spare[j - |deck|];
      }
    }
  }

  /** What drawing has written so far: the codes of the cards taken, in order. */
  ghost predicate DrawnWrites<C>(b: Board<C>, r: Board<C>, taken: seq<C>, codes: seq<int>) {
    Coded(b, r, taken, codes) && OnlyCodes(b, r) && b.facts.Keys <= r.facts.Keys
  }

  lemma DrawnNext<C>(b: Board<C>, b1: Board<C>, r: Board<C>, taken: seq<C>, codes: seq<int>, c: C, code: int)
    requires DrawnWrites(b, b1, taken, codes) && c !in taken
    requires c in r.facts && r.facts.Keys == b1.facts.Keys + {c}
    requires forall d <- r.facts :: SameAttributes(Before(b1, d).(code := if d == c then code else Before(b1, d).code), r.facts[d])
    ensures DrawnWrites(b, r, taken + [c], codes + [code])
  {
    forall d <- r.facts
      ensures r.facts[d].position == Before(b, d).position && LinksEqual(Before(b, d), r.facts[d])
      ensures d !in taken + [c] ==> r.facts[d].code == Before(b, d).code
    {
      assert SameAttributes(Before(b1, d).(code := if d == c then code else Before(b1, d).code), r.facts[d]);
    }
    forall i | 0 <= i < |taken + [c]| ensures (taken + [c])[i] in r.facts && r.facts[(taken + [c])[i]].code == (codes + [code])[i] {
      var d := (taken + [c])[i];
      if i < |taken| { assert taken[i] == d; }
      assert SameAttributes(Before(b1, d).(code := if d == c then code else Before(b1, d).code), r.facts[d]);
    }
  }

  lemma CodesNext(cards: seq<Drawn>)
    requires cards != []
    ensures Codes(cards) == Codes(cards[..|cards| - 1]) + [cards[|cards| - 1].code]
  {
  }

  lemma {:induction false} DrawLoopWrites<C>(b: Board<C>, player: int, cards: seq<Drawn>, spare: seq<C>)
    requires Closed(b) && IsPlayer(player) && Unknown(b.facts.Keys, spare) && Distinct(Pile(b, player, LOCATION_DECK))
    requires |spare| == Shortfall(|cards|, |Pile(b, player, LOCATION_DECK)|)
    ensures DrawnWrites(b, DrawLoop(b, player, cards, spare), Taken(Pile(b, player, LOCATION_DECK), spare, |cards|), Codes(cards))
    decreases |cards|
  {
    hide Closed, DrawOne, RefersWithin, Unknown, Elements, Pile, Taken, Earlier, Latest, Codes, DrawnWrites, TopCard, Before, DrawnFrom, Distinct;
    var deck := Pile(b, player, LOCATION_DECK);
    var n := |cards|;
    if cards == [] {
      NothingDrawn(b, deck);
      assert spare == [];
    } else {
      SpareSplit(n, |deck|, spare);
      LatestUnknown(b.facts.Keys, spare);
      var b1 := DrawLoop(b, player, cards[..n - 1], Earlier(spare));
      DrawLoopWrites(b, player, cards[..n - 1], Earlier(spare));
      DrawLoopDrawn(b, player, cards[..n - 1], Earlier(spare));
      LatestApart(b1.facts.Keys, Latest(spare));
      NextTop(b, b1, player, spare, n, Taken(deck, Earlier(spare), n - 1));
      var c := TopCard(b1, player, Latest(spare));
      TakenNext(deck, spare, n, c);
      SpareApart(b, player, spare);
      TakenDistinct(deck, spare, n);
      LastApart(Taken(deck, Earlier(spare), n - 1), c);
      DrawOneWrites(b1, player, cards[n - 1].code, Latest(spare));
      TopIsAll(b1, player, Latest(spare));
      DrawnNext(b, b1, DrawOne(b1, player, cards[n - 1].code, Latest(spare)), Taken(deck, Earlier(spare), n - 1), Codes(cards[..n - 1]), c, cards[n - 1].code);
      CodesNext(cards);
    }
  }

  lemma NothingDrawn<C>(b: Board<C>, deck: seq<C>)
    ensures DrawnWrites(b, b, Taken<C>(deck, [], 0), Codes([]))
  {
  }

  lemma LastApart<T>(s: seq<T>, x: T)
    requires Distinct(s + [x])
    ensures x !in s
  {
    forall i | 0 <= i < |s| ensures s[i] != x { assert (s + [x])[i] != (s + [x])[|s|]; }
  }

  lemma SpareApart<C>(b: Board<C>, player: int, spare: seq<C>)
    requires Closed(b) && IsPlayer(player) && Unknown(b.facts.Keys, spare)
    ensures Distinct(spare) && forall c <- spare :: c !in Pile(b, player, LOCATION_DECK)
  {
    hide RefersWithin;
  }

  lemma TopIsAll<C>(b: Board<C>, player: int, spare: seq<C>)
    requires Closed(b) && IsPlayer(player) && |spare| == Shortfall(1, |Pile(b, player, LOCATION_DECK)|)
    ensures b.facts.Keys + Elements(spare) == b.facts.Keys + {TopCard(b, player, spare)}
  {
    hide RefersWithin;
    if Pile(b, player, LOCATION_DECK) == [] { assert spare == [spare[0]]; } else { assert spare == []; }
  }

  lemma DrawWritten<C>(b: Board<C>, p: int, cards: seq<Drawn>, spare: seq<C>)
    requires WellFormed(b) && Supplies(b, Draw(p, cards), spare)
    ensures Written(b, Draw(p, cards), spare, ApplyDraw(b, p, cards, spare))
  {
    hide Closed, Placed, Linked, DrawLoop, Coded, Before, Taken, Codes, Pile;
    BoardIsClosed(b);
    ZoneThere(b, p, LOCATION_DECK);
    HandKnown(b, Zone(p, LOCATION_DECK));
    PileIs(b, p, LOCATION_DECK);
    DrawLoopWrites(b, p, cards, spare);
    var b1 := DrawLoop(b, p, cards, spare);
    var r := ApplyDraw(b, p, cards, spare);
    PileIs(b1, p, LOCATION_DECK);
    SetPileRearranges(b1, Zone(p, LOCATION_DECK), Pile(b1, p, LOCATION_DECK));
    RearrangedDrawn(b, b1, r, Taken(Pile(b, p, LOCATION_DECK), spare, |cards|), Codes(cards));
    CodedIsWritten(b, Draw(p, cards), spare, r);
  }

  lemma PileIs<C>(b: Board<C>, p: int, l: int)
    requires Closed(b) && IsZone(Zone(p, l))
    ensures Zone(p, l) in b.piles && Pile(b, p, l) == b.piles[Zone(p, l)] && forall c <- b.piles[Zone(p, l)] :: c in b.facts
  {
    hide RefersWithin;
  }

  lemma RearrangedDrawn<C>(b: Board<C>, b1: Board<C>, r: Board<C>, taken: seq<C>, codes: seq<int>)
    requires DrawnWrites(b, b1, taken, codes) && Rearranged(b1, r)
    ensures DrawnWrites(b, r, taken, codes)
  {
    forall d <- r.facts
      ensures r.facts[d].code == b1.facts[d].code && r.facts[d].position == Before(b, d).position && LinksEqual(Before(b, d), r.facts[d])
    {
      assert SameAttributes(b1.facts[d], r.facts[d]);
    }
  }

  // ----- SwapGraveDeck and ShuffleSetCard -----

  /** `positions` of the cards in `m` are face-down defence; codes, links and the others are as before. */
  ghost predicate FacedDown<C>(b: Board<C>, r: Board<C>, m: seq<C>) {
    && r.facts.Keys == b.facts.Keys
    && forall d <- b.facts ::
         SameAttributes(b.facts[d].(position := if d in m then POS_FACEDOWN_DEFENSE else b.facts[d].position), r.facts[d])
  }

  lemma ExchangedRearranges<C>(b: Board<C>, player: int)
    requires Closed(b) && IsPlayer(player)
    ensures Rearranged(b, Exchanged(b, player))
  {
    hide RefersWithin;
    SetPileRearranges(Traded(b, player), Zone(player, LOCATION_GRAVE), Pile(b, player, LOCATION_DECK));
  }

  lemma FaceDownWrites<C>(b: Board<C>, c: C)
    requires Closed(b) && c in b.facts
    ensures var f := b.facts[c].(position := POS_FACEDOWN_DEFENSE);
            && RefersWithin(f, b.facts.Keys + {c}) && FacedDown(b, WithCard(b, c, f), [c])
  {
    assert RefersWithin(b.facts[c], b.facts.Keys);
  }

  lemma FewerInPile<C>(b: Board<C>, z: Zone, list: seq<C>)
    requires Closed(b) && z in b.piles && forall c <- list :: c in b.facts
    ensures Closed(b.(piles := b.piles[z := list]))
  {
    hide RefersWithin;
  }

  lemma SwapStepWrites<C>(b: Board<C>, player: int, was: seq<C>, mask: nat -> bool, n: nat)
    requires Closed(b) && IsPlayer(player) && n < |was| && forall c <- was :: c in b.facts
    ensures FacedDown(b, SwapStep(b, player, was, mask, n), [was[n]])
  {
    var c := was[n];
    if mask(n) {
      hide PutAt, Closed, Select, RefersWithin;
      SelectSubset(was[..n], mask, false);
      ZoneThere(b, player, LOCATION_DECK);
      var b1 := b.(piles := b.piles[Zone(player, LOCATION_DECK) := Select(was[..n], mask, false) + was[n + 1..]]);
      FewerInPile(b, Zone(player, LOCATION_DECK), Select(was[..n], mask, false) + was[n + 1..]);
      FaceDownWrites(b1, c);
      var b2 := WithCard(b1, c, b1.facts[c].(position := POS_FACEDOWN_DEFENSE));
      PutAtRearranges(b2, c, player, LOCATION_EXTRA, |Pile(b2, player, LOCATION_EXTRA)|);
      forall d <- b.facts
        ensures SameAttributes(b.facts[d].(position := if d in [c] then POS_FACEDOWN_DEFENSE else b.facts[d].position),
                               SwapStep(b, player, was, mask, n).facts[d])
      {
        assert SameAttributes(b2.facts[d], SwapStep(b, player, was, mask, n).facts[d]);
      }
    }
  }

  lemma {:induction false} SwapLoopWrites<C>(b: Board<C>, player: int, was: seq<C>, mask: nat -> bool, n: nat)
    requires Closed(b) && IsPlayer(player) && n <= |was| && forall c <- was :: c in b.facts
    ensures FacedDown(b, SwapLoop(b, player, was, mask, n), was[..n])
  {
    hide Closed, SwapStep;
    if n == 0 {
    } else {
      SwapLoopWrites(b, player, was, mask, n - 1);
      var b1 := SwapLoop(b, player, was, mask, n - 1);
      SwapStepWrites(b1, player, was, mask, n - 1);
      var r := SwapLoop(b, player, was, mask, n);
      assert was[..n] == was[..n - 1] + [was[n - 1]];
      forall d <- b.facts
        ensures SameAttributes(b.facts[d].(position := if d in was[..n] then POS_FACEDOWN_DEFENSE else b.facts[d].position), r.facts[d])
      {
        assert SameAttributes(b.facts[d].(position := if d in was[..n - 1] then POS_FACEDOWN_DEFENSE else b.facts[d].position), b1.facts[d]);
        assert SameAttributes(b1.facts[d].(position := if d in [was[n - 1]] then POS_FACEDOWN_DEFENSE else b1.facts[d].position), r.facts[d]);
      }
    }
  }

  lemma GraveDeckWrites<C>(b: Board<C>, p: int, mask: seq<bv8>)
    requires Closed(b) && IsPlayer(p)
    ensures FacedDown(b, ApplySwapGraveDeck(b, p, mask), Pile(b, p, LOCATION_GRAVE))
  {
    hide Closed, SwapLoop, Exchanged;
    var was := Pile(b, p, LOCATION_GRAVE);
    PileIs(b, p, LOCATION_GRAVE);
    ExchangedRearranges(b, p);
    var b1 := Exchanged(b, p);
    SwapLoopWrites(b1, p, was, MaskFlags(mask), |was|);
    assert was[..|was|] == was;
    var b2 := SwapLoop(b1, p, was, MaskFlags(mask), |was|);
    PileIs(b2, p, LOCATION_DECK);
    var r := ApplySwapGraveDeck(b, p, mask);
    SetPileRearranges(b2, Zone(p, LOCATION_DECK), Pile(b2, p, LOCATION_DECK));
    forall d <- b.facts
      ensures SameAttributes(b.facts[d].(position := if d in was then POS_FACEDOWN_DEFENSE else b.facts[d].position), r.facts[d])
    {
      assert SameAttributes(b.facts[d], b1.facts[d]);
      assert SameAttributes(b1.facts[d].(position := if d in was then POS_FACEDOWN_DEFENSE else b1.facts[d].position), b2.facts[d]);
      assert SameAttributes(b2.facts[d], r.facts[d]);
    }
  }

  lemma GraveDeckWritten<C>(b: Board<C>, p: int, mask: seq<bv8>)
    requires Supplies(b, SwapGraveDeck(p, mask), [])
    ensures Written(b, SwapGraveDeck(p, mask), [], ApplySwapGraveDeck(b, p, mask))
  {
    hide Closed, ApplySwapGraveDeck, LinksWritten;
    var msg := SwapGraveDeck(p, mask);
    var r := ApplySwapGraveDeck(b, p, mask);
    GraveDeckWrites(b, p, mask);
    PileIs(b, p, LOCATION_GRAVE);
    forall d <- r.facts
      ensures r.facts[d].code == CodeAfter(b, msg, [], d) && r.facts[d].position == PositionAfter(b, msg, [], d)
      ensures LinksEqual(Before(b, d), r.facts[d])
    {
      assert SameAttributes(b.facts[d].(position := if d in Pile(b, p, LOCATION_GRAVE) then POS_FACEDOWN_DEFENSE else b.facts[d].position), r.facts[d]);
    }
    LinksKept(b, msg, r);
  }

  lemma ReseatRearranges<C>(b: Board<C>, c: C, row: int, to: LocInfo)
    requires Closed(b) && c in b.facts && IsField(row) && IsPlayer(to.controller)
    ensures Rearranged(b, Reseat(b, c, row, to))
  {
    hide RefersWithin;
  }

  lemma {:induction false} ReseatLoopRearranges<C>(b: Board<C>, row: int, shuffled: seq<Option<C>>, follow: seq<LocInfo>, n: nat)
    requires Closed(b) && IsField(row) && n <= |follow| && n <= |shuffled|
    requires forall to <- follow :: to.location != 0 ==> IsPlayer(to.controller)
    requires forall o <- shuffled :: o.Some? ==> o.value in b.facts
    ensures Rearranged(b, ReseatLoop(b, row, shuffled, follow, n))
  {
    hide Closed, Reseat, Rearranged;
    if n == 0 {
      RearrangedRefl(b);
    } else {
      ReseatLoopRearranges(b, row, shuffled, follow, n - 1);
      var b1 := ReseatLoop(b, row, shuffled, follow, n - 1);
      if shuffled[n - 1].Some? && follow[n - 1].location != 0 {
        ReseatRearranges(b1, shuffled[n - 1].value, row, follow[n - 1]);
        RearrangedTrans(b, b1, Reseat(b1, shuffled[n - 1].value, row, follow[n - 1]));
      }
    }
  }

  lemma ShuffleSetWritten<C>(b: Board<C>, l: Location, sources: seq<LocInfo>, follow: seq<LocInfo>)
    requires Supplies(b, ShuffleSetCard(l, sources, follow), [])
    ensures Written(b, ShuffleSetCard(l, sources, follow), [], ApplyShuffleSetCard(b, l, sources, follow))
  {
    hide Closed, ReseatLoop, Shuffled, LinksWritten, RefersWithin;
    var msg := ShuffleSetCard(l, sources, follow);
    var shuffled := Shuffled(b, l, sources);
    var b1 := Forgotten(b, shuffled);
    var n := if |follow| < |shuffled| then |follow| else |shuffled|;
    ReseatLoopRearranges(b1, RowOf(l), shuffled, follow, n);
    var r := ApplyShuffleSetCard(b, l, sources, follow);
    forall d <- r.facts
      ensures r.facts[d].code == CodeAfter(b, msg, [], d) && r.facts[d].position == PositionAfter(b, msg, [], d)
      ensures LinksEqual(Before(b, d), r.facts[d])
    {
      assert SameAttributes(b1.facts[d], r.facts[d]);
    }
    LinksKept(b, msg, r);
  }

  // ----- Leaving play -----

  /** The cards found for the first `n` entries. */
  ghost function Named<C>(resolved: seq<Option<C>>, n: nat): set<C>
    requires n <= |resolved|
  {
    set o | o in resolved[..n] && o.Some? :: o.value
  }

  lemma NamedNext<C>(resolved: seq<Option<C>>, n: nat)
    requires 0 < n <= |resolved|
    ensures Named(resolved, n) == Named(resolved, n - 1) + if resolved[n - 1].Some? then {resolved[n - 1].value} else {}
  {
    assert resolved[..n] == resolved[..n - 1] + [resolved[n - 1]];
    forall c | c in Named(resolved, n - 1) ensures c in Named(resolved, n) { assert Some(c) in resolved[..n]; }
    if resolved[n - 1].Some? { assert resolved[n - 1] in resolved[..n]; }
  }

  lemma {:induction false} RemoveLoopUnlinks<C>(b: Board<C>, locations: seq<LocInfo>, n: nat)
    requires WellFormed(b) && n <= |locations|
    ensures Unlinked(b, RemoveLoop(b, Resolved(b, locations), locations, n), Named(Resolved(b, locations), n))
  {
    hide Closed, WellFormed, Resolved, Resolve, RemoveFrom, ClearTargets, DetachEquips, Unlinked, Named, Departed, NothingAdded;
    BoardIsClosed(b);
    var resolved := Resolved(b, locations);
    if n == 0 {
      NoneNamed(b, resolved);
    } else {
      NamedNext(resolved, n);
      RemoveLoopUnlinks(b, locations, n - 1);
      RemoveLoopDeparts(b, locations, n - 1);
      var b1 := RemoveLoop(b, resolved, locations, n - 1);
      if resolved[n - 1].Some? {
        var c := resolved[n - 1].value;
        UnlinkedOne(b1, c, locations[n - 1]);
        UnlinkedNext(b, b1, RemoveLoop(b, resolved, locations, n), Named(resolved, n - 1), c);
      }
      assert Named(resolved, n - 1) + {} == Named(resolved, n - 1);
    }
  }

  lemma NoneNamed<C>(b: Board<C>, resolved: seq<Option<C>>)
    ensures Unlinked(b, b, Named(resolved, 0))
  {
    assert Named(resolved, 0) == {};
  }

  /** The cards in `m` are exactly those the message is to unlink, at both ends and of both kinds. */
  ghost predicate Unlinks<C>(b: Board<C>, msg: Message, m: set<C>)
    requires Closed(b)
  {
    && !msg.Equip? && !msg.CardTarget? && !msg.CancelTarget?
    && forall d <- b.facts :: (Untargets(b, msg, d) <==> d in m) && (Unequips(b, msg, d) <==> d in m) && (Sheds(b, msg, d) <==> d in m)
  }

  ghost predicate LinksForsaken<C>(b: Board<C>, r: Board<C>, m: set<C>) {
    r.facts.Keys == b.facts.Keys && forall d <- b.facts :: LinksEqual(Forsaken(b.facts[d], d in m, m), r.facts[d])
  }

  lemma UnlinkedTargets<C>(b: Board<C>, msg: Message, r: Board<C>, m: set<C>, c: C, d: C)
    requires Closed(b) && Unlinks(b, msg, m) && LinksForsaken(b, r, m) && c in r.facts && d in r.facts
    ensures d in r.facts[c].targets <==> TargetsAfter(b, msg, c, d)
  {
    hide Untargets, Unequips, Sheds, Closed;
    assert LinksEqual(Forsaken(b.facts[c], c in m, m), r.facts[c]);
  }

  lemma UnlinkedEquip<C>(b: Board<C>, msg: Message, r: Board<C>, m: set<C>, c: C)
    requires Closed(b) && Unlinks(b, msg, m) && LinksForsaken(b, r, m) && c in r.facts
    ensures r.facts[c].equipTarget == EquipAfter(b, msg, c)
  {
    hide Untargets, Unequips, Sheds;
    assert RefersWithin(b.facts[c], b.facts.Keys);
    hide Closed;
    assert LinksEqual(Forsaken(b.facts[c], c in m, m), r.facts[c]);
  }

  lemma ForsakenIsWritten<C>(b: Board<C>, msg: Message, r: Board<C>, m: set<C>)
    requires Closed(b) && Unlinks(b, msg, m) && LinksForsaken(b, r, m)
    ensures LinksWritten(b, msg, r)
  {
    hide Closed, Unlinks, LinksForsaken, TargetsAfter, EquipAfter;
    forall c <- r.facts, d <- r.facts ensures d in r.facts[c].targets <==> TargetsAfter(b, msg, c, d) {
      UnlinkedTargets(b, msg, r, m, c, d);
    }
    forall c <- r.facts ensures r.facts[c].equipTarget == EquipAfter(b, msg, c) {
      UnlinkedEquip(b, msg, r, m, c);
    }
  }

  lemma RemoveCardsWritten<C>(b: Board<C>, locations: seq<LocInfo>)
    requires WellFormed(b) && Supplies(b, RemoveCards(locations), [])
    ensures Written(b, RemoveCards(locations), [], ApplyRemoveCards(b, locations))
  {
    hide Closed, Placed, Linked, LinksWritten, RemoveLoop, Resolved;
    var msg := RemoveCards(locations);
    var resolved := Resolved(b, locations);
    var m := Named(resolved, |locations|);
    RemoveLoopUnlinks(b, locations, |locations|);
    assert resolved[..|locations|] == resolved;
    var r := ApplyRemoveCards(b, locations);
    forall d <- r.facts ensures r.facts[d].code == CodeAfter(b, msg, [], d) && r.facts[d].position == PositionAfter(b, msg, [], d) {
      assert SameAttributes(Forsaken(b.facts[d], d in m, m), r.facts[d]);
    }
    assert LinksForsaken(b, r, m) by {
      forall d <- b.facts ensures LinksEqual(Forsaken(b.facts[d], d in m, m), r.facts[d]) {
        assert SameAttributes(Forsaken(b.facts[d], d in m, m), r.facts[d]);
      }
    }
    ForsakenIsWritten(b, msg, r, m);
  }

  lemma LeaveWritten<C>(b: Board<C>, code: int, from: LocInfo, to: LocInfo, c: C)
    requires WellFormed(b) && Supplies(b, Move(code, from, to), []) && Resolve(b, from) == Some(c) && to.location == 0
    ensures Written(b, Move(code, from, to), [], Leave(b, c, code, from))
  {
    hide Placed, Linked, Closed, Resolve, LinksWritten, RemoveFrom, ClearTargets, DetachEquips, LinksEqual, Forsaken;
    BoardIsClosed(b);
    var msg := Move(code, from, to);
    var f := Recoded(b.facts[c], code);
    RewriteWellFormed(b, c, f);
    var b1 := WithCard(b, c, f);
    UnlinkedOne(b1, c, from);
    var r := Leave(b, c, code, from);
    LeftWritten(b, b1, r, c, f);
    ForsakenIsWritten(b, msg, r, {c});
  }

  /** Only `c` was written on before it was unlinked. */
  lemma LeftWritten<C>(b: Board<C>, b1: Board<C>, r: Board<C>, c: C, f: Facts<C>)
    requires c in b.facts && f == b.facts[c].(code := f.code) && b1.facts == b.facts[c := f] && Unlinked(b1, r, {c})
    ensures LinksForsaken(b, r, {c})
    ensures forall d <- r.facts :: r.facts[d].code == (if d == c then f.code else b.facts[d].code) && r.facts[d].position == b.facts[d].position
  {
    forall d <- b.facts
      ensures LinksEqual(Forsaken(b.facts[d], d in {c}, {c}), r.facts[d])
      ensures r.facts[d].code == (if d == c then f.code else b.facts[d].code) && r.facts[d].position == b.facts[d].position
    {
      assert SameAttributes(Forsaken(b1.facts[d], d in {c}, {c}), r.facts[d]);
    }
  }

  // ----- Single cards -----

  lemma PosChangeWritten<C>(b: Board<C>, code: int, p: int, l: Location, s: int, was: int, now: int)
    requires WellFormed(b) && Supplies(b, PosChange(code, p, l, s, was, now), [])
    ensures Written(b, PosChange(code, p, l, s, was, now), [], ApplyPosChange(b, code, p, l, s, was, now))
  {
    hide Placed, Linked, Closed, CardAt, LinksWritten, ClearTargets;
    BoardIsClosed(b);
    var msg := PosChange(code, p, l, s, was, now);
    var found := CardAt(b, p, l, s);
    var r := ApplyPosChange(b, code, p, l, s, was, now);
    if found.Some? && FaceUp(was) && FaceDown(now) {
      forall d <- b.facts ensures LinksEqual(TurnedDown(b, found.value, d), r.facts[d]) { ClearTargetsEnds(b, found.value, d); }
      forall d <- b.facts { ClearTargetsEnds(b, found.value, d); }
      TurnedDownLinks(b, code, p, l, s, was, now, found.value, r);
    } else {
      LinksKept(b, msg, r);
    }
  }

  ghost function TurnedDown<C>(b: Board<C>, c: C, d: C): Facts<C>
    requires d in b.facts
  {
    b.facts[d].(targets := if d == c then {} else b.facts[d].targets - {c},
                targetedBy := if d == c then {} else b.facts[d].targetedBy - {c})
  }

  /** `c` loses its target links and nothing else is unlinked. */
  lemma TurnedDownLinks<C>(b: Board<C>, code: int, p: int, l: Location, s: int, was: int, now: int, c: C, r: Board<C>)
    requires Closed(b) && CardAt(b, p, l, s) == Some(c) && FaceUp(was) && FaceDown(now) && r.facts.Keys == b.facts.Keys
    requires forall d <- b.facts :: LinksEqual(TurnedDown(b, c, d), r.facts[d])
    ensures LinksWritten(b, PosChange(code, p, l, s, was, now), r)
  {
    hide Closed, CardAt, FaceUp, FaceDown;
    forall x <- r.facts, d <- r.facts ensures d in r.facts[x].targets <==> TargetsAfter(b, PosChange(code, p, l, s, was, now), x, d) {
      assert LinksEqual(TurnedDown(b, c, x), r.facts[x]);
    }
    forall x <- r.facts ensures r.facts[x].equipTarget == EquipAfter(b, PosChange(code, p, l, s, was, now), x) {
      assert LinksEqual(TurnedDown(b, c, x), r.facts[x]);
    }
  }

  lemma SetWritten<C>(b: Board<C>, code: int, place: LocInfo, spare: seq<C>)
    requires WellFormed(b) && Supplies(b, Set(code, place), spare)
    ensures Written(b, Set(code, place), spare, ApplySet(b, code, place, spare))
  {
    hide Placed, Linked, Closed, CardAt, LinksWritten, ApplySet, Added;
    BoardIsClosed(b);
    var msg := Set(code, place);
    var found := CardAt(b, place.controller, place.location, place.sequence);
    NewInSpare(b, msg, spare);
    var r := ApplySet(b, code, place, spare);
    if found.None? {
      assert spare == [spare[0]];
      SetWrites(b, spare[0], code, place);
      AddedIsWritten(b, msg, spare, r);
    } else {
      SetKnown(b, code, place, found.value);
      LinksKept(b, msg, r);
    }
  }

  lemma SetKnown<C>(b: Board<C>, code: int, place: LocInfo, c: C)
    requires Closed(b) && Writable(place) && CardAt(b, place.controller, place.location, place.sequence) == Some(c)
    ensures ApplySet(b, code, place, []).facts == b.facts[c := Recoded(b.facts[c], code).(position := place.position)]
  {
    hide CardAt, RefersWithin;
  }

  lemma EquipWritten<C>(b: Board<C>, card: LocInfo, target: LocInfo)
    requires WellFormed(b) && Supplies(b, Equip(card, target), [])
    ensures Written(b, Equip(card, target), [], ApplyEquip(b, card, target))
  {
    hide Placed, Linked, Closed, Resolve, Equipped;
    BoardIsClosed(b);
    var c := Resolve(b, card);
    var t := Resolve(b, target);
    if c.Some? && t.Some? {
      forall d <- b.facts { EquipEnds(b, c.value, t.value, d); }
    }
  }

  ghost function TargetMessage(card: LocInfo, target: LocInfo, link: bool): Message {
    if link then CardTarget(card, target) else CancelTarget(card, target)
  }

  lemma TargetLinks<C>(b: Board<C>, card: LocInfo, target: LocInfo, link: bool, c: C, t: C, r: Board<C>)
    requires Closed(b) && Resolve(b, card) == Some(c) && Resolve(b, target) == Some(t) && r.facts.Keys == b.facts.Keys
    requires forall d <- b.facts :: r.facts[d] == Relinked(b.facts[d], c, t, link, d == c, d == t)
    ensures LinksWritten(b, TargetMessage(card, target, link), r)
  {
    hide Closed, Resolve;
  }

  lemma TargetWritten<C>(b: Board<C>, card: LocInfo, target: LocInfo, link: bool)
    requires WellFormed(b) && Supplies(b, TargetMessage(card, target, link), [])
    ensures Written(b, TargetMessage(card, target, link), [], ApplyTarget(b, card, target, link))
  {
    hide Placed, Linked, Closed, Resolve, Targeted, LinksWritten;
    BoardIsClosed(b);
    var c := Resolve(b, card);
    var t := Resolve(b, target);
    if c.Some? && t.Some? {
      forall d <- b.facts { TargetedEnds(b, c.value, t.value, link, d); }
      TargetLinks(b, card, target, link, c.value, t.value, ApplyTarget(b, card, target, link));
    } else {
      NoTarget(b, card, target, link);
    }
  }

  lemma NoTarget<C>(b: Board<C>, card: LocInfo, target: LocInfo, link: bool)
    requires Closed(b) && (Resolve(b, card).None? || Resolve(b, target).None?)
    ensures LinksWritten(b, TargetMessage(card, target, link), b)
  {
    hide Closed, Resolve;
  }

  // ----- Every message -----

  /** Whatever the message, every card carries the code, the position and the links it says, and all others those it had. */
  lemma ApplyWrites<C>(b: Board<C>, msg: Message, spare: seq<C>)
    requires WellFormed(b) && Supplies(b, msg, spare)
    ensures Written(b, msg, spare, Apply(b, msg, spare))
  {
    hide Placed, Linked, Closed, Resolve, Written, CardAt, ApplyDraw, ApplySet, ApplyPosChange, ApplySwap, ApplyShuffleHand, Resize,
         ApplySwapGraveDeck, ApplyShuffleSetCard, ApplyRemoveCards, ApplyEquip, ApplyTarget, Leave, Shift, Overlay, Appear, Attach, Detach, Place;
    assert msg.Draw? || msg.Move? || msg.Set? || msg.UpdateData? || msg.ShuffleHand? || spare == [];
    match msg
    case Draw(p, cards) => DrawWritten(b, p, cards, spare);
    case Move(code, from, to) => if to.location != 0 { MoveWritten(b, code, from, to, spare); } else { GoneWritten(b, code, from, to, spare); }
    case PosChange(code, p, l, s, was, now) => PosChangeWritten(b, code, p, l, s, was, now);
    case Set(code, place) => SetWritten(b, code, place, spare);
    case Swap(loc1, loc2) => SwapWritten(b, loc1, loc2);
    case UpdateData(p, l, size) => UpdateWritten(b, p, l, size, spare);
    case ShuffleHand(p, codes) => ShuffleHandWritten(b, p, codes, spare);
    case SwapGraveDeck(p, mask) => GraveDeckWritten(b, p, mask);
    case ShuffleSetCard(l, sources, follow) => ShuffleSetWritten(b, l, sources, follow);
    case RemoveCards(locations) => RemoveCardsWritten(b, locations);
    case Equip(c, t) => EquipWritten(b, c, t);
    case CardTarget(c, t) => TargetWritten(b, c, t, true);
    case CancelTarget(c, t) => TargetWritten(b, c, t, false);
  }

  lemma GoneWritten<C>(b: Board<C>, code: int, from: LocInfo, to: LocInfo, spare: seq<C>)
    requires WellFormed(b) && Supplies(b, Move(code, from, to), spare) && to.location == 0
    ensures Written(b, Move(code, from, to), spare, ApplyMove(b, code, from, to, spare))
  {
    hide Placed, Linked, Closed, Resolve, Leave, LinksWritten;
    BoardIsClosed(b);
    assert spare == [];
    if Resolve(b, from).Some? {
      LeaveWritten(b, code, from, to, Resolve(b, from).value);
    } else {
      LinksKept(b, Move(code, from, to), b);
    }
  }
}
