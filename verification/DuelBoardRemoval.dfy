/**
 RemoveCards: which cards it takes off the board, and that it does nothing else.
 */
module DuelBoardRemoval {
  import opened Wrappers
  import opened DuelBoard
  import opened DuelBoardInvariants
  import opened DuelBoardMoves
  import opened DuelBoardHeld
  import opened DuelBoardSwap

  // ----- RemoveCards -----

  /** Out of play: in no slot and no pile, and at neither end of any link. */
  ghost predicate Departed<C>(b: Board<C>, c: C) {
    && (forall s <- b.slots :: b.slots[s] != c) && (forall z <- b.piles :: c !in b.piles[z])
    && Untargeting(b, c) && Unequipping(b, c)
  }

  /** Nothing is put back while cards are removed. */
  ghost predicate NothingAdded<C>(b: Board<C>, r: Board<C>) {
    && (forall s <- r.slots :: s in b.slots && r.slots[s] == b.slots[s])
    && (forall z <- r.piles :: z in b.piles && forall c <- r.piles[z] :: c in b.piles[z])
    && r.facts.Keys == b.facts.Keys
    && (forall d <- b.facts :: r.facts[d].targets <= b.facts[d].targets && r.facts[d].targetedBy <= b.facts[d].targetedBy)
    && (forall d <- b.facts :: r.facts[d].equippedBy <= b.facts[d].equippedBy
          && (r.facts[d].equipTarget == b.facts[d].equipTarget || r.facts[d].equipTarget == None))
  }

  lemma DepartedStays<C>(b: Board<C>, r: Board<C>, c: C)
    requires Departed(b, c) && NothingAdded(b, r)
    ensures Departed(r, c)
  {
  }

  lemma NothingAddedTrans<C>(a: Board<C>, b: Board<C>, r: Board<C>)
    requires NothingAdded(a, b) && NothingAdded(b, r)
    ensures NothingAdded(a, r)
  {
  }

  lemma RemoveAddsNothing<C>(b: Board<C>, c: C, from: LocInfo)
    requires Closed(b)
    ensures NothingAdded(b, RemoveFrom(b, c, from))
  {
    hide RefersWithin;
    var r := RemoveFrom(b, c, from);
    RemoveFromLinks(b, c, from);
    forall d <- b.facts ensures LinksEqual(b.facts[d], r.facts[d]) { }
    forall z <- r.piles, d <- r.piles[z] ensures z in b.piles && d in b.piles[z] {
      WithoutSubset(b.piles[z], c);
    }
  }

  lemma UnlinkAddsNothing<C>(b: Board<C>, c: C)
    requires WellFormed(b) && c in b.facts
    ensures NothingAdded(b, DetachEquips(ClearTargets(b, c), c))
  {
    hide SlotsPoint, PilesPoint, MaterialsPoint, OneHost;
    var b1 := ClearTargets(b, c);
    ClearTargetsLinked(b, c);
    var r := DetachEquips(b1, c);
    forall d <- b.facts
      ensures r.facts[d].targets <= b.facts[d].targets && r.facts[d].targetedBy <= b.facts[d].targetedBy
      ensures r.facts[d].equippedBy <= b.facts[d].equippedBy
        && (r.facts[d].equipTarget == b.facts[d].equipTarget || r.facts[d].equipTarget == None)
    {
      ClearTargetsEnds(b, c, d);
      DetachEquipsEnds(b1, c, d);
    }
  }

  /** However stale the address, the removal takes the card out of the slot or pile it was found in. */
  lemma RemoveDeparts<C>(b: Board<C>, b1: Board<C>, c: C, from: LocInfo)
    requires WellFormed(b) && WellFormed(b1) && NothingAdded(b, b1) && Resolve(b, from) == Some(c)
    ensures var r := RemoveFrom(b1, c, from);
            (forall s <- r.slots :: r.slots[s] != c) && (forall z <- r.piles :: c !in r.piles[z])
  {
    hide RefersWithin, Linked, OneHost, MaterialsPoint;
    var spot := ResolveSpot(b, from);
    var r := RemoveFrom(b1, c, from);
    HeldOnlyThere(b, spot, c);
    RemoveAddsNothing(b1, c, from);
    forall s <- r.slots ensures r.slots[s] != c {
    }
    forall z <- r.piles ensures c !in r.piles[z] {
      if c in r.piles[z] {
        assert c in b1.piles[z] && c in b.piles[z];
        PileDistinct(b1, z);
        WithoutDistinct(b1.piles[z], c);
      }
    }
  }

  /** What has been achieved after `n` of the removals. */
  ghost predicate Cleared<C>(b: Board<C>, r: Board<C>, locations: seq<LocInfo>, n: nat)
    requires Closed(b) && n <= |locations|
  {
    && WellFormed(r) && NothingAdded(b, r)
    && forall i | 0 <= i < n && Resolve(b, locations[i]).Some? :: Departed(r, Resolve(b, locations[i]).value)
  }

  lemma ClearedNext<C>(b: Board<C>, b1: Board<C>, r: Board<C>, locations: seq<LocInfo>, n: nat)
    requires Closed(b) && n < |locations| && Cleared(b, b1, locations, n)
    requires WellFormed(r) && NothingAdded(b, r) && NothingAdded(b1, r)
    requires Resolve(b, locations[n]).Some? ==> Departed(r, Resolve(b, locations[n]).value)
    ensures Cleared(b, r, locations, n + 1)
  {
    hide WellFormed, NothingAdded, Departed, Closed, Resolve;
    forall i | 0 <= i < n + 1 && Resolve(b, locations[i]).Some? ensures Departed(r, Resolve(b, locations[i]).value) {
      if i < n { DepartedStays(b1, r, Resolve(b, locations[i]).value); }
    }
  }

  lemma RemoveStepDeparts<C>(b: Board<C>, b1: Board<C>, locations: seq<LocInfo>, n: nat)
    requires WellFormed(b) && n < |locations| && Cleared(b, b1, locations, n)
    ensures Resolve(b, locations[n]).None? ==> Cleared(b, b1, locations, n + 1)
    ensures Resolve(b, locations[n]).Some? ==>
      var c := Resolve(b, locations[n]).value;
      c in b1.facts && Cleared(b, RemoveFrom(DetachEquips(ClearTargets(b1, c), c), c, locations[n]), locations, n + 1)
  {
    hide SlotsPoint, PilesPoint, MaterialsPoint, OneHost, Linked, Closed, Departed, NothingAdded, Resolve, RemoveFrom, ClearTargets, DetachEquips;
    NothingAddedRefl(b1);
    if Resolve(b, locations[n]).Some? {
      var c := Resolve(b, locations[n]).value;
      RemoveOneDeparts(b, b1, c, locations[n]);
      ClearedNext(b, b1, RemoveFrom(DetachEquips(ClearTargets(b1, c), c), c, locations[n]), locations, n);
    } else {
      ClearedNext(b, b1, b1, locations, n);
    }
  }

  lemma {:induction false} RemoveLoopDeparts<C>(b: Board<C>, locations: seq<LocInfo>, n: nat)
    requires WellFormed(b) && n <= |locations|
    ensures Cleared(b, RemoveLoop(b, Resolved(b, locations), locations, n), locations, n)
  {
    hide Closed, SlotsPoint, PilesPoint, MaterialsPoint, OneHost, Linked, Departed, Resolve, RemoveFrom, ClearTargets, DetachEquips, NothingAdded;
    NothingAddedRefl(b);
    if n == 0 {
    } else {
      RemoveLoopDeparts(b, locations, n - 1);
      RemoveStepDeparts(b, RemoveLoop(b, Resolved(b, locations), locations, n - 1), locations, n - 1);
    }
  }

  lemma NothingAddedRefl<C>(b: Board<C>)
    ensures NothingAdded(b, b)
  {
  }

  lemma RemoveOneDeparts<C>(b: Board<C>, b1: Board<C>, c: C, from: LocInfo)
    requires WellFormed(b) && WellFormed(b1) && NothingAdded(b, b1) && Resolve(b, from) == Some(c)
    ensures c in b1.facts
    ensures var r := RemoveFrom(DetachEquips(ClearTargets(b1, c), c), c, from);
            WellFormed(r) && NothingAdded(b, r) && NothingAdded(b1, r) && Departed(r, c)
  {
    hide SlotsPoint, PilesPoint, MaterialsPoint, OneHost, Linked, RefersWithin, NothingAdded, RemoveFrom, ClearTargets, DetachEquips, SameShape;
    assert c in b1.facts by { assert NothingAdded(b, b1); SameKeys(b, b1); }
    var b2 := DetachEquips(ClearTargets(b1, c), c);
    UnlinkWellFormed(b1, c);
    UnlinkAddsNothing(b1, c);
    NothingAddedTrans(b, b1, b2);
    var r := RemoveFrom(b2, c, from);
    RemoveAnywhereWellFormed(b2, c, from);
    RemoveAddsNothing(b2, c, from);
    NothingAddedTrans(b1, b2, r);
    NothingAddedTrans(b, b1, r);
    RemoveDeparts(b, b2, c, from);
    LinksStayDropped(b2, r, c);
  }

  lemma SameKeys<C>(b: Board<C>, r: Board<C>)
    requires NothingAdded(b, r)
    ensures r.facts.Keys == b.facts.Keys
  {
  }

  lemma LinksStayDropped<C>(b: Board<C>, r: Board<C>, c: C)
    requires NothingAdded(b, r) && Untargeting(b, c) && Unequipping(b, c)
    ensures Untargeting(r, c) && Unequipping(r, c)
  {
  }

  // ----- Exactly which cards fall -----

  /**
   The cards the first `n` addresses take off the board: each card named, except a material whose host is no longer
   found at its address because an earlier removal took it or moved up its pile.
   */
  ghost function Fallen<C>(b: Board<C>, locations: seq<LocInfo>, n: nat): set<C>
    requires Closed(b) && n <= |locations|
  {
    if n == 0 then {}
    else
      var before := Fallen(b, locations, n - 1);
      var loc := locations[n - 1];
      if Resolve(b, loc).None? || (IsOverlay(loc.location) && HostMoved(b, before, loc)) then before
      else before + {Resolve(b, loc).value}
  }

  ghost predicate HostMoved<C>(b: Board<C>, gone: set<C>, loc: LocInfo)
    requires Closed(b)
  {
    exists d <- gone :: Displaces(b, d, loc)
  }

  /** Between two removals only links were dropped. */
  lemma StrippedSameShape<C>(b: Board<C>, b1: Board<C>, b2: Board<C>, m: set<C>)
    requires Stripped(b, b1, m) && SameShape(b1, b2)
    ensures Stripped(b, b2, m)
  {
    hide Except;
    forall s ensures SlotCard(b2, s) == Apart(SlotCard(b, s), m) { assert SlotCard(b1, s) == SlotCard(b2, s); }
  }

  /** A card that has not fallen yet is where it was, and its address still finds it unless its host moved. */
  lemma StillLifted<C>(b: Board<C>, b2: Board<C>, m: set<C>, c: C, loc: LocInfo)
    requires WellFormed(b) && WellFormed(b2) && Stripped(b, b2, m) && Resolve(b, loc) == Some(c) && c !in m
    requires IsOverlay(loc.location) ==> !HostMoved(b, m, loc)
    ensures Loose(RemoveFrom(b2, c, loc), c)
  {
    hide SlotsPoint, PilesPoint, MaterialsPoint, OneHost, Linked, RefersWithin, Except, Loose;
    if IsOverlay(loc.location) {
      HostAfter(b, b2, m, loc);
      assert c in b2.facts[HostAt(b, loc).value].materials;
      DetachPlaced(b2, c, loc);
    } else if IsField(loc.location) {
      var s := Slot(loc.controller, loc.location, loc.sequence);
      assert SlotCard(b2, s) == Apart(SlotCard(b, s), m);
      ClearSlotPlaced(b2, c, loc.controller, loc.location, loc.sequence);
    } else {
      var z := Zone(loc.controller, loc.location);
      assert c in b2.piles[z];
      WithoutSubset(b2.piles[z], c);
      RemoveFromPilePlaced(b2, c, z);
    }
  }

  /** With another host, or none, at its address a material is not found there. */
  lemma NotLifted<C>(b: Board<C>, b2: Board<C>, m: set<C>, c: C, loc: LocInfo)
    requires WellFormed(b) && WellFormed(b2) && Stripped(b, b2, m) && Resolve(b, loc) == Some(c)
    requires IsOverlay(loc.location) && HostMoved(b, m, loc)
    ensures RemoveFrom(b2, c, loc) == b2
  {
    hide SlotsPoint, PilesPoint, MaterialsPoint, Linked, RefersWithin, Except;
    HostAfter(b, b2, m, loc);
  }

  lemma RemoveStep<C>(b: Board<C>, b1: Board<C>, c: C, locations: seq<LocInfo>, n: nat)
    requires WellFormed(b) && WellFormed(b1) && n < |locations| && Stripped(b, b1, Fallen(b, locations, n))
    requires Resolve(b, locations[n]) == Some(c) && c in b1.facts
    ensures Stripped(b, RemoveFrom(DetachEquips(ClearTargets(b1, c), c), c, locations[n]), Fallen(b, locations, n + 1))
  {
    hide SlotsPoint, PilesPoint, MaterialsPoint, OneHost, Linked, Closed, Except, Resolve, RemoveFrom, ClearTargets, DetachEquips,
         HostMoved, Loose, Stripped, SameShape;
    var m := Fallen(b, locations, n);
    var b2 := DetachEquips(ClearTargets(b1, c), c);
    UnlinkWellFormed(b1, c);
    StrippedSameShape(b, b1, b2, m);
    if IsOverlay(locations[n].location) && HostMoved(b, m, locations[n]) {
      NotLifted(b, b2, m, c, locations[n]);
    } else {
      if c in m {
        StrippedStays(b, b2, m);
        RemoveLooseIdle(b2, c, locations[n]);
      } else {
        StillLifted(b, b2, m, c, locations[n]);
      }
      RemoveStrips(b2, c, locations[n]);
      StrippedTrans(b, b2, RemoveFrom(b2, c, locations[n]), m, {c});
    }
  }

  lemma {:induction false} RemoveLoopStrips<C>(b: Board<C>, locations: seq<LocInfo>, n: nat)
    requires WellFormed(b) && n <= |locations|
    ensures Stripped(b, RemoveLoop(b, Resolved(b, locations), locations, n), Fallen(b, locations, n))
  {
    hide Closed, SlotsPoint, PilesPoint, MaterialsPoint, OneHost, Linked, Resolve, RemoveFrom, ClearTargets, DetachEquips,
         NothingAdded, Departed, HostMoved, Stripped;
    if n == 0 {
      StrippedNone(b);
    } else {
      var b1 := RemoveLoop(b, Resolved(b, locations), locations, n - 1);
      RemoveLoopDeparts(b, locations, n - 1);
      RemoveLoopStrips(b, locations, n - 1);
      if Resolve(b, locations[n - 1]).Some? { RemoveStep(b, b1, Resolve(b, locations[n - 1]).value, locations, n - 1); }
    }
  }

  lemma {:induction false} FallenNamed<C>(b: Board<C>, locations: seq<LocInfo>, n: nat)
    requires Closed(b) && n <= |locations|
    ensures forall c <- Fallen(b, locations, n) :: exists i :: 0 <= i < n && Resolve(b, locations[i]) == Some(c)
    ensures forall i | 0 <= i < n && Resolve(b, locations[i]).Some? && !IsOverlay(locations[i].location) ::
              Resolve(b, locations[i]).value in Fallen(b, locations, n)
  {
    hide Closed, Resolve, HostMoved;
    if n == 0 {
    } else {
      FallenNamed(b, locations, n - 1);
    }
  }

  /** Every slot and list is the old one without the fallen cards, in order; the fallen are named, and every named slot or pile card falls. */
  lemma RemoveCardsExact<C>(b: Board<C>, locations: seq<LocInfo>)
    requires WellFormed(b)
    ensures var r := ApplyRemoveCards(b, locations);
            var m := Fallen(b, locations, |locations|);
            && WellFormed(r) && Stripped(b, r, m) && Held(r) == Held(b) - m
            && (forall c <- m :: exists i :: 0 <= i < |locations| && Resolve(b, locations[i]) == Some(c))
            && (forall i | 0 <= i < |locations| && Resolve(b, locations[i]).Some? && !IsOverlay(locations[i].location) ::
                  Resolve(b, locations[i]).value in m)
  {
    hide Closed, SlotsPoint, PilesPoint, MaterialsPoint, OneHost, Linked, Resolve, Departed, NothingAdded, Stripped, RemoveLoop, Held, Fallen, Stays;
    RemoveLoopDeparts(b, locations, |locations|);
    RemoveLoopStrips(b, locations, |locations|);
    StrippedStays(b, ApplyRemoveCards(b, locations), Fallen(b, locations, |locations|));
    FallenNamed(b, locations, |locations|);
  }
}
