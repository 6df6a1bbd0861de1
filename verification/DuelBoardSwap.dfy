/**
 Swap, which keeps the board well formed exactly when it neither names one pile card at both ends nor strands a
 material: lifting the first card must not change who is found where the second card's host was.
 */
module DuelBoardSwap {
  import opened Basics
  import opened Wrappers
  import opened DuelBoard
  import opened DuelBoardInvariants
  import opened DuelBoardMoves
  import opened DuelBoardHeld

  // ----- Removing by a stale address -----

  lemma ClearAnySlotPlaced<C>(b: Board<C>, c: C, player: int, location: int, sequence: int)
    requires Placed(b)
    ensures Placed(ClearSlot(b, c, player, location, sequence))
  {
    FewerSlotsPlaced(b, ClearSlot(b, c, player, location, sequence));
  }

  /** Wherever `from` points by now, removing `c` there keeps the containers in order. */
  lemma RemoveAnywhereWellFormed<C>(b: Board<C>, c: C, from: LocInfo)
    requires WellFormed(b)
    ensures WellFormed(RemoveFrom(b, c, from))
  {
    hide SlotsPoint, PilesPoint, MaterialsPoint, OneHost, Linked;
    var z := Zone(from.controller, from.location);
    assert Placed(RemoveFrom(b, c, from)) by {
      if IsOverlay(from.location) {
        var host := HostAt(b, from);
        if host.Some? && c in b.facts[host.value].materials { DetachPlaced(b, c, from); }
      } else if IsField(from.location) {
        ClearAnySlotPlaced(b, c, from.controller, from.location, from.sequence);
      } else if z in b.piles && c in b.piles[z] {
        WithoutSubset(b.piles[z], c);
        RemoveFromPilePlaced(b, c, z);
      }
    }
    RemoveFromLinks(b, c, from);
    SameLinksLinked(b, RemoveFrom(b, c, from));
  }

  /** Removing a card that is nowhere changes nothing. */
  lemma RemoveLooseIdle<C>(b: Board<C>, c: C, from: LocInfo)
    requires Closed(b) && Loose(b, c)
    ensures RemoveFrom(b, c, from) == b
  {
    if IsField(from.location) {
      assert RemoveFrom(b, c, from).slots == b.slots;
    }
  }

  // ----- Where the second card is after the first was lifted -----

  /** The second card is a material, and lifting the first takes its host away or moves up the pile the host is in. */
  ghost predicate Strands<C>(b: Board<C>, loc1: LocInfo, loc2: LocInfo)
    requires Closed(b)
  {
    && Resolve(b, loc1).Some? && Resolve(b, loc2).Some? && Resolve(b, loc1) != Resolve(b, loc2)
    && IsOverlay(loc2.location) && Displaces(b, Resolve(b, loc1).value, loc2)
  }

  /** Exactly then the host is not found under its address any more. */
  lemma StrandsMeans<C>(b: Board<C>, c: C, loc1: LocInfo, loc2: LocInfo)
    requires WellFormed(b) && Resolve(b, loc1) == Some(c) && HostAt(b, loc2).Some?
    ensures Displaces(b, c, loc2) <==> HostAt(RemoveFrom(b, c, loc1), loc2) != HostAt(b, loc2)
  {
    hide SlotsPoint, PilesPoint, MaterialsPoint, OneHost, Linked, Closed, RemoveFrom, Resolve, Loose, Stripped, HostAt, Displaces;
    RemoveWellFormed(b, c, loc1);
    RemoveStrips(b, c, loc1);
    HostAfter(b, RemoveFrom(b, c, loc1), {c}, loc2);
  }

  /** Both ends name the same card of one pile. */
  ghost predicate NamesPileCardTwice<C>(b: Board<C>, loc1: LocInfo, loc2: LocInfo)
    requires Closed(b)
  {
    Resolve(b, loc1).Some? && Resolve(b, loc1) == Resolve(b, loc2) && IsPile(loc1.location)
  }

  /** The spot a location names. */
  ghost predicate FoundAt<C>(b: Board<C>, loc: LocInfo, spot: Spot<C>)
    requires Closed(b)
  {
    if IsOverlay(loc.location) then
      HostAt(b, loc).Some? && spot.UnderHost? && spot.host == HostAt(b, loc).value
    else if IsField(loc.location) then spot == AtSlot(Slot(loc.controller, loc.location, loc.sequence))
    else spot.InPile? && spot.zone == Zone(loc.controller, loc.location)
  }

  lemma ResolveSpot<C>(b: Board<C>, loc: LocInfo) returns (spot: Spot<C>)
    requires Closed(b) && Resolve(b, loc).Some?
    ensures Holds(b, spot, Resolve(b, loc).value) && FoundAt(b, loc, spot)
  {
    if IsOverlay(loc.location) {
      spot := UnderHost(HostAt(b, loc).value, loc.position);
    } else if IsField(loc.location) {
      spot := AtSlot(Slot(loc.controller, loc.location, loc.sequence));
    } else {
      var pile := b.piles[Zone(loc.controller, loc.location)];
      spot := InPile(Zone(loc.controller, loc.location),
        if 0 <= loc.sequence < |pile| then loc.sequence else |pile| - 1);
    }
  }

  lemma {:induction false} WithoutKeeps<T>(s: seq<T>, x: T, y: T)
    requires y in s && y != x
    ensures y in Without(s, x)
  {
    if s[0] == x || s[0] == y {
    } else {
      WithoutKeeps(s[1..], x, y);
    }
  }

  /** Removing one card leaves every other card's slot, pile and host alone. */
  lemma RemoveKeepsSlot<C>(b: Board<C>, c: C, from: LocInfo, d: C, s: Slot)
    requires Closed(b) && d != c && SlotCard(b, s) == Some(d)
    ensures SlotCard(RemoveFrom(b, c, from), s) == Some(d)
  {
  }

  lemma RemoveKeepsPile<C>(b: Board<C>, c: C, from: LocInfo, d: C, z: Zone)
    requires Closed(b) && d != c && z in b.piles && d in b.piles[z]
    ensures d in RemoveFrom(b, c, from).piles[z]
  {
    WithoutKeeps(b.piles[z], c, d);
  }

  lemma RemoveKeepsHost<C>(b: Board<C>, c: C, from: LocInfo, d: C, h: C)
    requires Closed(b) && d != c && h in b.facts && d in b.facts[h].materials
    ensures d in RemoveFrom(b, c, from).facts[h].materials
  {
    WithoutKeeps(b.facts[h].materials, c, d);
  }

  /** The second card of a swap is lifted too, unless it was stranded. */
  lemma SecondLifted<C>(b: Board<C>, loc1: LocInfo, loc2: LocInfo)
    requires WellFormed(b) && Resolve(b, loc1).Some? && Resolve(b, loc2).Some? && Resolve(b, loc1) != Resolve(b, loc2)
    requires !Strands(b, loc1, loc2)
    ensures Loose(RemoveFrom(RemoveFrom(b, Resolve(b, loc1).value, loc1), Resolve(b, loc2).value, loc2), Resolve(b, loc2).value)
  {
    hide SlotsPoint, PilesPoint, MaterialsPoint, OneHost, Linked;
    var c := Resolve(b, loc1).value;
    var d := Resolve(b, loc2).value;
    var b1 := RemoveFrom(b, c, loc1);
    RemoveAnywhereWellFormed(b, c, loc1);
    var spot := ResolveSpot(b, loc2);
    if IsOverlay(loc2.location) {
      StrandsMeans(b, c, loc1, loc2);
      RemoveKeepsHost(b, c, loc1, d, HostAt(b, loc2).value);
      DetachPlaced(b1, d, loc2);
    } else if IsField(loc2.location) {
      RemoveKeepsSlot(b, c, loc1, d, spot.slot);
      ClearSlotPlaced(b1, d, loc2.controller, loc2.location, loc2.sequence);
    } else {
      var z := Zone(loc2.controller, loc2.location);
      RemoveKeepsPile(b, c, loc1, d, z);
      WithoutSubset(b1.piles[z], d);
      RemoveFromPilePlaced(b1, d, z);
    }
  }

  /** The first card stays lifted while the second one is. */
  lemma LooseStays<C>(b: Board<C>, c: C, d: C, from: LocInfo)
    requires Closed(b) && Loose(b, c)
    ensures Loose(RemoveFrom(b, d, from), c)
  {
    hide RefersWithin, Renumber;
    var r := RemoveFrom(b, d, from);
    forall z <- r.piles ensures c !in r.piles[z] {
      WithoutSubset(b.piles[z], d);
    }
    forall h <- r.facts ensures c !in r.facts[h].materials {
      WithoutSubset(b.facts[h].materials, d);
    }
  }

  /** Placing one loose card leaves another one loose. */
  lemma PutAtElsewhere<C>(b: Board<C>, c: C, player: int, location: int, sequence: int, d: C)
    requires Closed(b) && c in b.facts && (IsField(location) ==> IsSlot(Slot(player, location, sequence)))
    requires d != c && Loose(b, d)
    ensures Loose(PutAt(b, c, player, location, sequence), d)
  {
    var z := Zone(player, location);
    if z in b.piles { InsertElements(b.piles[z], Clamp(sequence, 0, |b.piles[z]|), c); }
  }

  /** Both places of a swap filled again. */
  lemma PutBoth<C>(b: Board<C>, c: C, d: C, loc1: LocInfo, loc2: LocInfo)
    requires WellFormed(b) && c in b.facts && d in b.facts && c != d && Loose(b, c) && Loose(b, d)
    requires Writable(loc1) && Writable(loc2)
    ensures WellFormed(PutAt(PutAt(b, c, loc2.controller, loc2.location, loc2.sequence),
                             d, loc1.controller, loc1.location, loc1.sequence))
  {
    hide SlotsPoint, PilesPoint, MaterialsPoint, OneHost, Linked, Loose, Closed, PutAt;
    PutAtWellFormed(b, c, loc2.controller, loc2.location, loc2.sequence);
    PutAtElsewhere(b, c, loc2.controller, loc2.location, loc2.sequence, d);
    PutAtWellFormed(PutAt(b, c, loc2.controller, loc2.location, loc2.sequence), d, loc1.controller, loc1.location, loc1.sequence);
  }

  /** The swap of two different cards, neither stranded. */
  lemma SwapDifferent<C>(b: Board<C>, loc1: LocInfo, loc2: LocInfo)
    requires WellFormed(b) && Writable(loc1) && Writable(loc2)
    requires Resolve(b, loc1).None? || Resolve(b, loc2).None? || Resolve(b, loc1) != Resolve(b, loc2)
    requires !Strands(b, loc1, loc2)
    ensures WellFormed(ApplySwap(b, loc1, loc2))
  {
    hide SlotsPoint, PilesPoint, MaterialsPoint, OneHost, Linked, RemoveFrom, PutAt, Strands, Closed, Resolve, Loose;
    var card1 := Resolve(b, loc1);
    var card2 := Resolve(b, loc2);
    if card1.Some? {
      RemoveWellFormed(b, card1.value, loc1);
      if card2.Some? {
        var b1 := RemoveFrom(b, card1.value, loc1);
        RemoveAnywhereWellFormed(b1, card2.value, loc2);
        SecondLifted(b, loc1, loc2);
        LooseStays(b1, card1.value, card2.value, loc2);
        PutBoth(RemoveFrom(b1, card2.value, loc2), card1.value, card2.value, loc1, loc2);
      } else {
        PutAtWellFormed(RemoveFrom(b, card1.value, loc1), card1.value, loc2.controller, loc2.location, loc2.sequence);
      }
    } else if card2.Some? {
      RemoveWellFormed(b, card2.value, loc2);
      PutAtWellFormed(RemoveFrom(b, card2.value, loc2), card2.value, loc1.controller, loc1.location, loc1.sequence);
    }
  }

  // ----- Naming one card at both ends -----

  ghost function PutDownTwice<C>(b: Board<C>, c: C, loc1: LocInfo, loc2: LocInfo): Board<C>
    requires Closed(b) && c in b.facts && Writable(loc1) && Writable(loc2)
  {
    PutAt(PutAt(b, c, loc2.controller, loc2.location, loc2.sequence), c, loc1.controller, loc1.location, loc1.sequence)
  }

  /** Lifted once, the card is put down twice. */
  lemma SwapSameSteps<C>(b: Board<C>, loc1: LocInfo, loc2: LocInfo, c: C, b1: Board<C>)
    requires Closed(b) && Writable(loc1) && Writable(loc2)
    requires Resolve(b, loc1) == Some(c) && Resolve(b, loc2) == Some(c)
    requires b1 == RemoveFrom(b, c, loc1) && RemoveFrom(b1, c, loc2) == b1
    ensures Closed(b1) && c in b1.facts
    ensures ApplySwap(b, loc1, loc2) == PutDownTwice(b1, c, loc1, loc2)
  {
    hide RemoveFrom, PutAt, Closed, Resolve, IsField, IsPile, IsOverlay, SlotCount;
  }

  /** Two addresses of one card name one slot, one pile, or one host's materials. */
  lemma SameAddress<C>(b: Board<C>, loc1: LocInfo, loc2: LocInfo)
    requires WellFormed(b) && Resolve(b, loc1).Some? && Resolve(b, loc1) == Resolve(b, loc2)
    ensures if IsOverlay(loc1.location) then IsOverlay(loc2.location)
            else if IsField(loc1.location) then
              loc2.location == loc1.location && loc2.controller == loc1.controller && loc2.sequence == loc1.sequence
            else IsPile(loc1.location) && loc2.location == loc1.location && loc2.controller == loc1.controller
                 && IsPlayer(loc1.controller)
  {
    hide Linked, OneHost;
    var spot1 := ResolveSpot(b, loc1);
    var spot2 := ResolveSpot(b, loc2);
    SingleContainment(b, spot1, spot2, Resolve(b, loc1).value);
  }

  /** Inserting one card twice into a pile gives it two places. */
  lemma InsertedTwice<C>(b: Board<C>, c: C, player: int, location: int, sequence1: int, sequence2: int)
    requires Closed(b) && c in b.facts && IsZone(Zone(player, location))
    ensures !Placed(PutAt(PutAt(b, c, player, location, sequence2), c, player, location, sequence1))
  {
    hide RefersWithin;
    var z := Zone(player, location);
    var p1 := Insert(b.piles[z], Clamp(sequence2, 0, |b.piles[z]|), c);
    var b1 := PutAt(b, c, player, location, sequence2);
    assert b1.piles[z] == p1;
    var p2 := Insert(p1, Clamp(sequence1, 0, |p1|), c);
    var r := PutAt(b1, c, player, location, sequence1);
    assert r.piles[z] == p2;
    if Placed(r) {
      PileDistinct(r, z);
      InsertElements(b.piles[z], Clamp(sequence2, 0, |b.piles[z]|), c);
      InsertTwiceClashes(p1, Clamp(sequence1, 0, |p1|), c);
    }
  }

  lemma InsertTwiceClashes<T>(s: seq<T>, i: nat, x: T)
    requires x in s && i <= |s|
    ensures !Distinct(Insert(s, i, x))
  {
    var k :| 0 <= k < |s| && s[k] == x;
    var r := Insert(s, i, x);
    assert r[i] == x && r[if k < i then k else k + 1] == x;
  }

  lemma PutSlotTwice<C>(b: Board<C>, c: C, s: Slot)
    requires Closed(b) && c in b.facts && IsSlot(s)
    ensures PutAt(PutAt(b, c, s.player, s.location, s.sequence), c, s.player, s.location, s.sequence)
         == PutAt(b, c, s.player, s.location, s.sequence)
  {
    hide RefersWithin;
  }

  lemma PutNowhere<C>(b: Board<C>, c: C, loc: LocInfo)
    requires WellFormed(b) && c in b.facts && Loose(b, c) && IsOverlay(loc.location)
    ensures WellFormed(PutAt(b, c, loc.controller, loc.location, loc.sequence))
    ensures Loose(PutAt(b, c, loc.controller, loc.location, loc.sequence), c)
  {
    hide SlotsPoint, PilesPoint, MaterialsPoint, OneHost, Linked, PutAt, Loose;
    PutAtWellFormed(b, c, loc.controller, loc.location, loc.sequence);
    StillLoose(b, c, loc.controller, loc.location, loc.sequence);
  }

  lemma SwapSame<C>(b: Board<C>, loc1: LocInfo, loc2: LocInfo)
    requires WellFormed(b) && Writable(loc1) && Writable(loc2)
    requires Resolve(b, loc1).Some? && Resolve(b, loc1) == Resolve(b, loc2)
    ensures WellFormed(ApplySwap(b, loc1, loc2)) <==> !IsPile(loc1.location)
  {
    hide SlotsPoint, PilesPoint, MaterialsPoint, OneHost, Linked, RemoveFrom, PutAt, Closed, Resolve, Loose;
    var c := Resolve(b, loc1).value;
    RemoveWellFormed(b, c, loc1);
    RemoveLooseIdle(RemoveFrom(b, c, loc1), c, loc2);
    SwapSameSteps(b, loc1, loc2, c, RemoveFrom(b, c, loc1));
    SameAddress(b, loc1, loc2);
    var b1 := RemoveFrom(b, c, loc1);
    if IsOverlay(loc1.location) {
      PutNowhere(b1, c, loc2);
      PutNowhere(PutAt(b1, c, loc2.controller, loc2.location, loc2.sequence), c, loc1);
    } else if IsField(loc1.location) {
      PutSlotTwice(b1, c, Slot(loc1.controller, loc1.location, loc1.sequence));
      PutAtWellFormed(b1, c, loc1.controller, loc1.location, loc1.sequence);
    } else {
      InsertedTwice(b1, c, loc1.controller, loc1.location, loc1.sequence, loc2.sequence);
    }
  }

  // ----- A stranded material -----

  lemma PutAtWrites<C>(b: Board<C>, c: C, player: int, location: int, sequence: int, h: C)
    requires Closed(b) && c in b.facts && h in b.facts && (IsField(location) ==> IsSlot(Slot(player, location, sequence)))
    ensures PutAt(b, c, player, location, sequence).facts[h].materials == b.facts[h].materials
    ensures PutAt(b, c, player, location, sequence).facts[c].location == location
  {
  }

  /** With its host gone from the addressed spot, the second card is not lifted at all. */
  lemma StrandedStays<C>(b: Board<C>, loc1: LocInfo, loc2: LocInfo)
    requires WellFormed(b) && Strands(b, loc1, loc2)
    ensures var b1 := RemoveFrom(b, Resolve(b, loc1).value, loc1);
            RemoveFrom(b1, Resolve(b, loc2).value, loc2) == b1
            && HostAt(b, loc2).Some? && HostAt(b, loc2).value in b1.facts
            && Resolve(b, loc2).value in b1.facts[HostAt(b, loc2).value].materials
  {
    hide SlotsPoint, PilesPoint, MaterialsPoint, Linked, RefersWithin;
    var c := Resolve(b, loc1).value;
    var d := Resolve(b, loc2).value;
    RemoveAnywhereWellFormed(b, c, loc1);
    StrandsMeans(b, c, loc1, loc2);
    RemoveKeepsHost(b, c, loc1, d, HostAt(b, loc2).value);
  }

  lemma NeverBareOverlay<C>(b: Board<C>, loc: LocInfo)
    requires Closed(b) && Resolve(b, loc).Some?
    ensures loc.location != LOCATION_OVERLAY
  {
  }

  /** The stranded card is still listed by its old host, but its own fields now say otherwise. */
  lemma SwapStranded<C>(b: Board<C>, loc1: LocInfo, loc2: LocInfo)
    requires WellFormed(b) && Writable(loc1) && Writable(loc2) && Strands(b, loc1, loc2)
    ensures !WellFormed(ApplySwap(b, loc1, loc2))
  {
    hide Closed, SlotsPoint, PilesPoint, OneHost, Linked, RemoveFrom, PutAt;
    var c := Resolve(b, loc1).value;
    var d := Resolve(b, loc2).value;
    var h := HostAt(b, loc2).value;
    var b1 := RemoveFrom(b, c, loc1);
    StrandedStays(b, loc1, loc2);
    var b3 := PutAt(b1, c, loc2.controller, loc2.location, loc2.sequence);
    PutAtWrites(b1, c, loc2.controller, loc2.location, loc2.sequence, h);
    PutAtWrites(b3, d, loc1.controller, loc1.location, loc1.sequence, h);
    var r := PutAt(b3, d, loc1.controller, loc1.location, loc1.sequence);
    assert r == ApplySwap(b, loc1, loc2);
    if WellFormed(r) {
      var i :| 0 <= i < |r.facts[h].materials| && r.facts[h].materials[i] == d;
      assert MaterialPoints(r.facts[r.facts[h].materials[i]], i);
      NeverBareOverlay(b, loc1);
    }
  }

  /** Exactly when Swap keeps every card in one place. */
  lemma SwapExact<C>(b: Board<C>, loc1: LocInfo, loc2: LocInfo)
    requires WellFormed(b) && Writable(loc1) && Writable(loc2)
    ensures WellFormed(ApplySwap(b, loc1, loc2)) <==> !NamesPileCardTwice(b, loc1, loc2) && !Strands(b, loc1, loc2)
  {
    hide SlotsPoint, PilesPoint, MaterialsPoint, OneHost, Linked, Closed, Resolve, ApplySwap, HostAt;
    if Resolve(b, loc1).Some? && Resolve(b, loc1) == Resolve(b, loc2) {
      SwapSame(b, loc1, loc2);
    } else if Strands(b, loc1, loc2) {
      SwapStranded(b, loc1, loc2);
    } else {
      SwapDifferent(b, loc1, loc2);
    }
  }
}
