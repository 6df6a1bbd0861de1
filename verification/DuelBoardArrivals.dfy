/**
 Where the cards a message moves come to stand: the slot, the index in a pile or the index under a host that the
 message names, with the fields of the card saying so.
 */
module DuelBoardArrivals {
  import opened Basics
  import opened Wrappers
  import opened DuelBoard
  import opened DuelBoardInvariants
  import opened DuelBoardMoves
  import opened DuelBoardHeld
  import opened DuelBoardSwap
  import opened DuelBoardConservation

  // ----- Arriving -----

  /** `c` is at index `i` of the list, counted down to the last index and up to the first. */
  ghost predicate At<T>(list: seq<T>, i: int, c: T) {
    list != [] && list[Clamp(i, 0, |list| - 1)] == c
  }

  /** `c` stands in the slot or pile `loc` names, as near to the index named as the pile allows; elsewhere it only says so. */
  ghost predicate StandsAt<C>(r: Board<C>, c: C, loc: LocInfo)
    requires Closed(r)
  {
    && c in r.facts
    && if IsField(loc.location) then
         SlotCard(r, Slot(loc.controller, loc.location, loc.sequence)) == Some(c)
         && Points(r.facts[c], loc.controller, loc.location, loc.sequence)
       else if Zone(loc.controller, loc.location) in r.piles then
         var list := r.piles[Zone(loc.controller, loc.location)];
         At(list, loc.sequence, c) && Points(r.facts[c], loc.controller, loc.location, Clamp(loc.sequence, 0, |list| - 1))
       else Points(r.facts[c], loc.controller, loc.location, loc.sequence)
  }

  /** `c` lies under the host `loc` names, as near to the index named as the host's materials allow. */
  ghost predicate LiesUnder<C>(r: Board<C>, c: C, loc: LocInfo)
    requires Closed(r)
  {
    var host := HostAt(r, loc);
    && c in r.facts && host.Some?
    && var list := r.facts[host.value].materials;
       At(list, loc.position, c) && Points(r.facts[c], loc.controller, LOCATION_OVERLAY, Clamp(loc.position, 0, |list| - 1))
  }

  ghost predicate SamePlace<C>(f: Facts<C>, g: Facts<C>) {
    g.controller == f.controller && g.location == f.location
  }

  /** No card but those in `m` says it is of another side or location. */
  ghost predicate OthersStay<C>(b: Board<C>, r: Board<C>, m: set<C>) {
    b.facts.Keys <= r.facts.Keys && forall d <- b.facts :: d !in m ==> SamePlace(b.facts[d], r.facts[d])
  }

  lemma OthersTrans<C>(a: Board<C>, b: Board<C>, r: Board<C>, m: set<C>)
    requires OthersStay(a, b, m) && OthersStay(b, r, m)
    ensures OthersStay(a, r, m)
  {
    forall d <- a.facts | d !in m ensures SamePlace(a.facts[d], r.facts[d]) {
      assert SamePlace(a.facts[d], b.facts[d]) && SamePlace(b.facts[d], r.facts[d]);
    }
  }

  lemma PutAtOthers<C>(b: Board<C>, c: C, player: int, location: int, sequence: int)
    requires Closed(b) && c in b.facts && (IsField(location) ==> IsSlot(Slot(player, location, sequence)))
    ensures OthersStay(b, PutAt(b, c, player, location, sequence), {c})
    ensures !IsContainer(location) ==> Points(PutAt(b, c, player, location, sequence).facts[c], player, location, sequence)
  {
    hide RefersWithin;
    var z := Zone(player, location);
    if !IsField(location) && z in b.piles { InsertElements(b.piles[z], Clamp(sequence, 0, |b.piles[z]|), c); }
  }

  lemma InsertedAt<T>(s: seq<T>, i: int, c: T)
    ensures At(Insert(s, Clamp(i, 0, |s|), c), i, c) && |Insert(s, Clamp(i, 0, |s|), c)| == |s| + 1
  {
  }

  /** A loose card put down stands where it was put. */
  lemma PutAtStands<C>(b: Board<C>, c: C, loc: LocInfo)
    requires WellFormed(b) && Loose(b, c) && c in b.facts && Writable(loc)
    ensures StandsAt(PutAt(b, c, loc.controller, loc.location, loc.sequence), c, loc)
  {
    hide MaterialsPoint, OneHost, Linked, PutAt, Loose, RefersWithin, Insert;
    var r := PutAt(b, c, loc.controller, loc.location, loc.sequence);
    PutAtWellFormed(b, c, loc.controller, loc.location, loc.sequence);
    PutAtSlots(b, c, loc.controller, loc.location, loc.sequence);
    PutAtOthers(b, c, loc.controller, loc.location, loc.sequence);
    var z := Zone(loc.controller, loc.location);
    if z in b.piles {
      PutAtPile(b, c, loc.controller, loc.location, loc.sequence, z);
      InsertedAt(b.piles[z], loc.sequence, c);
      assert Points(r.facts[r.piles[z][Clamp(loc.sequence, 0, |r.piles[z]| - 1)]], z.player, z.location, Clamp(loc.sequence, 0, |r.piles[z]| - 1));
    }
  }

  // ----- Move -----

  lemma PlaceStands<C>(b: Board<C>, c: C, to: LocInfo)
    requires WellFormed(b) && Loose(b, c) && c in b.facts && Writable(to)
    ensures StandsAt(Place(b, c, to), c, to) && OthersStay(b, Place(b, c, to), {c})
  {
    hide SlotsPoint, PilesPoint, MaterialsPoint, OneHost, Linked, PutAt, Closed, StandsAt;
    var f := b.facts[c].(position := to.position);
    RewriteWellFormed(b, c, f);
    var b1 := WithCard(b, c, f);
    SameShapePlaced(b, b1);
    PutAtStands(b1, c, to);
    PutAtOthers(b1, c, to.controller, to.location, to.sequence);
    assert OthersStay(b, b1, {c});
    OthersTrans(b, b1, Place(b, c, to), {c});
  }

  lemma AttachOthers<C>(b: Board<C>, c: C, to: LocInfo)
    requires Closed(b) && c in b.facts
    ensures OthersStay(b, Attach(b, c, to), {c})
    ensures HostAt(b, to).Some? ==> Attach(b, c, to).facts[c].controller == to.controller
    ensures HostAt(b, to).None? ==> Attach(b, c, to) == b
  {
  }

  lemma AttachLies<C>(b: Board<C>, c: C, to: LocInfo)
    requires WellFormed(b) && Loose(b, c) && c in b.facts && HostAt(b, to).Some?
    ensures LiesUnder(Attach(b, c, to), c, to)
  {
    hide SlotsPoint, PilesPoint, OneHost, Linked, Attach, Closed, Loose, Insert;
    var r := Attach(b, c, to);
    var h := HostAt(b, to).value;
    AttachWellFormed(b, c, to);
    AttachOthers(b, c, to);
    AttachMaterials(b, c, to, h);
    SameHost(b, r, to);
    var list := r.facts[h].materials;
    InsertedAt(b.facts[h].materials, to.position, c);
    assert MaterialPoints(r.facts[list[Clamp(to.position, 0, |list| - 1)]], Clamp(to.position, 0, |list| - 1));
  }

  lemma SameHost<C>(b: Board<C>, r: Board<C>, to: LocInfo)
    requires Closed(b) && Closed(r) && r.slots == b.slots && r.piles == b.piles
    ensures HostAt(r, to) == HostAt(b, to)
  {
    hide RefersWithin;
  }

  /** What a Move says of the card it moved: where it stands, or under which host it lies. */
  ghost predicate Arrived<C>(r: Board<C>, c: C, to: LocInfo, hosted: bool)
    requires Closed(r)
  {
    c in r.facts && if IsOverlay(to.location) then hosted ==> LiesUnder(r, c, to) else StandsAt(r, c, to)
  }

  lemma LandArrived<C>(b: Board<C>, c: C, to: LocInfo)
    requires WellFormed(b) && Loose(b, c) && c in b.facts && Writable(to)
    ensures Arrived(Land(b, c, to), c, to, HasPlace(b, to)) && OthersStay(b, Land(b, c, to), {c})
    ensures IsOverlay(to.location) && !HasPlace(b, to) ==> Land(b, c, to) == b
  {
    hide WellFormed, Closed, Loose, Attach, Place, StandsAt, LiesUnder;
    IsClosed(b);
    if IsOverlay(to.location) {
      AttachOthers(b, c, to);
      if HostAt(b, to).Some? { AttachLies(b, c, to); }
    } else {
      PlaceStands(b, c, to);
    }
  }

  lemma IsClosed<C>(b: Board<C>)
    requires WellFormed(b)
    ensures Closed(b)
  {
  }

  lemma SetPileOthers<C>(b: Board<C>, z: Zone, list: seq<C>)
    requires Closed(b) && IsZone(z) && forall c <- list :: c in b.facts
    ensures OthersStay(b, SetPile(b, z, list), {})
    ensures forall d <- b.facts :: d !in list ==> SetPile(b, z, list).facts[d] == b.facts[d]
  {
  }

  lemma SetMaterialsOthers<C>(b: Board<C>, h: C, list: seq<C>)
    requires Closed(b) && h in b.facts && forall c <- list :: c in b.facts
    ensures OthersStay(b, SetMaterials(b, h, list), {})
    ensures forall d <- b.facts :: d !in list ==> SetMaterials(b, h, list).facts[d].sequence == b.facts[d].sequence
  {
  }

  lemma MaterialsKnown<C>(b: Board<C>, h: C)
    requires Closed(b) && h in b.facts
    ensures forall c <- b.facts[h].materials :: c in b.facts
  {
    assert RefersWithin(b.facts[h], b.facts.Keys);
  }

  /** A lifted card keeps its fields, and nobody changes side or location. */
  lemma LiftOthers<C>(b: Board<C>, c: C, from: LocInfo)
    requires WellFormed(b) && Resolve(b, from) == Some(c)
    ensures OthersStay(b, RemoveFrom(b, c, from), {})
    ensures Points(RemoveFrom(b, c, from).facts[c], b.facts[c].controller, b.facts[c].location, b.facts[c].sequence)
  {
    hide SlotsPoint, MaterialsPoint, Linked, RefersWithin;
    var z := Zone(from.controller, from.location);
    if IsOverlay(from.location) {
      var h := HostAt(b, from).value;
      MaterialsDistinct(b, h);
      WithoutSubset(b.facts[h].materials, c);
      WithoutDistinct(b.facts[h].materials, c);
      MaterialsKnown(b, h);
      SetMaterialsOthers(b, h, Without(b.facts[h].materials, c));
      assert SamePlace(b.facts[c], RemoveFrom(b, c, from).facts[c]);
    } else if !IsField(from.location) && z in b.piles && c in b.piles[z] {
      PileDistinct(b, z);
      WithoutSubset(b.piles[z], c);
      WithoutDistinct(b.piles[z], c);
      SetPileOthers(b, z, Without(b.piles[z], c));
      assert SamePlace(b.facts[c], RemoveFrom(b, c, from).facts[c]);
    }
  }

  /** The card a Move moves: the one found at its start, or the one allocated for it. */
  ghost function Mover<C>(b: Board<C>, from: LocInfo, spare: seq<C>): C
    requires Closed(b) && (Resolve(b, from).None? ==> spare != [])
  {
    if Resolve(b, from).Some? then Resolve(b, from).value else spare[0]
  }

  /** There is a place to go to once the card is off the board. */
  ghost predicate HasRoom<C>(b: Board<C>, from: LocInfo, to: LocInfo)
    requires Closed(b)
  {
    if Resolve(b, from).Some? then Arrives(b, Resolve(b, from).value, to) else HasPlace(b, to)
  }

  lemma KnownMoveLands<C>(b: Board<C>, code: int, from: LocInfo, to: LocInfo, c: C)
    requires WellFormed(b) && Resolve(b, from) == Some(c) && Writable(to) && to.location != 0
    ensures var r := ApplyMove(b, code, from, to, []);
            && Arrived(r, c, to, Arrives(b, c, to)) && OthersStay(b, r, {c})
            && (IsOverlay(to.location) && !Arrives(b, c, to) ==> Points(r.facts[c], b.facts[c].controller, b.facts[c].location, b.facts[c].sequence))
  {
    hide Closed, SlotsPoint, PilesPoint, MaterialsPoint, OneHost, Linked, Resolve, ApplyMove, RemoveFrom, Land, Loose, Arrived, Arrives, HasPlace, Stripped;
    var b2 := MoveSplits(b, code, from, to, c);
    var b3 := RemoveFrom(b2, c, from);
    SameShapeStrips(b, b2, c, from);
    LiftedHost(b, b3, c, to);
    LiftOthers(b2, c, from);
    LandArrived(b3, c, to);
    assert OthersStay(b, b2, {c}) && OthersStay(b2, b3, {c});
    OthersTrans(b, b2, b3, {c});
    OthersTrans(b, b3, Land(b3, c, to), {c});
  }

  lemma NewMoveLands<C>(b: Board<C>, code: int, from: LocInfo, to: LocInfo, spare: seq<C>)
    requires WellFormed(b) && Supplies(b, Move(code, from, to), spare) && to.location != 0 && Resolve(b, from).None?
    ensures var r := ApplyMove(b, code, from, to, spare);
            && Arrived(r, spare[0], to, HasPlace(b, to)) && OthersStay(b, r, {spare[0]})
            && (IsOverlay(to.location) && !HasPlace(b, to) ==> Points(r.facts[spare[0]], to.controller, to.location, to.sequence))
  {
    hide Placed, Linked, Resolve, Arrived, Closed;
    var c := spare[0];
    IsClosed(b);
    assert c !in b.facts;
    var f := NewFacts<C>(code, to.controller, to.location, to.sequence, to.position);
    NewCardWellFormed(b, c, f);
    var b1 := WithCard(b, c, f);
    SameHost(b, b1, to);
    LandArrived(b1, c, to);
    assert OthersStay(b, b1, {c});
    OthersTrans(b, b1, Land(b1, c, to), {c});
  }

  /**
   The moved card stands in the slot or at the pile index named, or lies at the index named under the host that is found
   once it is lifted, and its fields say so.  Without a host it keeps what it said.  No other card says anything new of
   its side or location.
   */
  lemma MoveLands<C>(b: Board<C>, code: int, from: LocInfo, to: LocInfo, spare: seq<C>)
    requires WellFormed(b) && Supplies(b, Move(code, from, to), spare) && to.location != 0
    ensures var r := ApplyMove(b, code, from, to, spare);
            var c := Mover(b, from, spare);
            && Arrived(r, c, to, HasRoom(b, from, to)) && OthersStay(b, r, {c})
            && (IsOverlay(to.location) && !HasRoom(b, from, to) ==>
                  if c in b.facts then Points(r.facts[c], b.facts[c].controller, b.facts[c].location, b.facts[c].sequence)
                  else Points(r.facts[c], to.controller, to.location, to.sequence))
  {
    hide Placed, Linked, Closed, Resolve, ApplyMove, Arrived, Arrives, HasPlace, OthersStay;
    NoneSpare(b, code, from, to, spare);
    if Resolve(b, from).Some? {
      KnownMoveLands(b, code, from, to, Resolve(b, from).value);
    } else {
      NewMoveLands(b, code, from, to, spare);
    }
  }

  lemma NoneSpare<C>(b: Board<C>, code: int, from: LocInfo, to: LocInfo, spare: seq<C>)
    requires Supplies(b, Move(code, from, to), spare) && to.location != 0
    ensures if Resolve(b, from).Some? then spare == [] else spare == [spare[0]] && spare[0] !in b.facts
  {
    hide Closed, Resolve;
  }

  // ----- Set -----

  lemma SetStands<C>(b: Board<C>, code: int, place: LocInfo, spare: seq<C>)
    requires WellFormed(b) && Supplies(b, Set(code, place), spare)
    ensures var r := ApplySet(b, code, place, spare);
            if CardAt(b, place.controller, place.location, place.sequence).Some? then SameShape(b, r)
            else StandsAt(r, spare[0], place) && OthersStay(b, r, {spare[0]})
  {
    hide Placed, Linked, CardAt, StandsAt, Closed, Place;
    IsClosed(b);
    var found := CardAt(b, place.controller, place.location, place.sequence);
    if found.None? {
      var c := spare[0];
      var f := NewFacts<C>(code, place.controller, place.location, place.sequence, place.position);
      assert c !in b.facts;
      NewCardWellFormed(b, c, f);
      PlaceStands(WithCard(b, c, f), c, place);
      assert OthersStay(b, WithCard(b, c, f), {c});
      OthersTrans(b, WithCard(b, c, f), ApplySet(b, code, place, spare), {c});
    } else {
      RewriteWellFormed(b, found.value, Recoded(b.facts[found.value], code).(position := place.position));
    }
  }

  // ----- Swap -----

  /** Both cards are off the board. */
  lemma BothLifted<C>(b: Board<C>, loc1: LocInfo, loc2: LocInfo, c: C, d: C) returns (b2: Board<C>)
    requires WellFormed(b) && Resolve(b, loc1) == Some(c) && Resolve(b, loc2) == Some(d) && c != d && !Strands(b, loc1, loc2)
    ensures b2 == RemoveFrom(RemoveFrom(b, c, loc1), d, loc2)
    ensures WellFormed(b2) && c in b2.facts && d in b2.facts && Loose(b2, c) && Loose(b2, d)
  {
    hide SlotsPoint, PilesPoint, MaterialsPoint, OneHost, Linked, Closed, Resolve, RemoveFrom, Loose, Strands;
    var b1 := RemoveFrom(b, c, loc1);
    RemoveWellFormed(b, c, loc1);
    RemoveAnywhereWellFormed(b1, d, loc2);
    SecondLifted(b, loc1, loc2);
    LooseStays(b1, c, d, loc2);
    b2 := RemoveFrom(b1, d, loc2);
  }

  /** The first card stands where the second was named, moved up by one if the second came to stand before it in the same pile. */
  ghost predicate SwappedTo<C>(r: Board<C>, c: C, loc: LocInfo, other: LocInfo)
    requires Closed(r)
  {
    var z := Zone(loc.controller, loc.location);
    if z in r.piles && Zone(other.controller, other.location) == z then
      var list := r.piles[z];
      && |list| >= 2 && c in r.facts
      && var i := Clamp(loc.sequence, 0, |list| - 2);
         var k := if Clamp(other.sequence, 0, |list| - 1) <= i then i + 1 else i;
         list[k] == c && Points(r.facts[c], loc.controller, loc.location, k)
    else StandsAt(r, c, loc)
  }

  lemma InsertShifts<T>(s: seq<T>, i: nat, x: T, k: nat)
    requires i <= |s| && k < |s|
    ensures |Insert(s, i, x)| == |s| + 1 && Insert(s, i, x)[if i <= k then k + 1 else k] == s[k]
  {
  }

  /** Putting `d` down in a pile without `c`, or in no pile, leaves the fields of `c` alone. */
  lemma PutAtKeepsOther<C>(b: Board<C>, d: C, loc: LocInfo, c: C)
    requires Closed(b) && c != d && c in b.facts && d in b.facts && Writable(loc)
    requires Zone(loc.controller, loc.location) in b.piles ==> c !in b.piles[Zone(loc.controller, loc.location)]
    ensures PutAt(b, d, loc.controller, loc.location, loc.sequence).facts[c] == b.facts[c]
  {
    hide RefersWithin;
    var z := Zone(loc.controller, loc.location);
    if !IsField(loc.location) && z in b.piles { InsertElements(b.piles[z], Clamp(loc.sequence, 0, |b.piles[z]|), d); }
  }

  lemma FirstInPile<C>(b: Board<C>, c: C, d: C, loc1: LocInfo, loc2: LocInfo)
    requires WellFormed(b) && c != d && d in b.facts && Loose(b, d) && StandsAt(b, c, loc2) && Writable(loc1)
    requires Zone(loc2.controller, loc2.location) in b.piles && Zone(loc1.controller, loc1.location) == Zone(loc2.controller, loc2.location)
    ensures SwappedTo(PutAt(b, d, loc1.controller, loc1.location, loc1.sequence), c, loc2, loc1)
  {
    hide SlotsPoint, MaterialsPoint, OneHost, Linked, Loose, PutAt, RefersWithin, Insert;
    var r := PutAt(b, d, loc1.controller, loc1.location, loc1.sequence);
    PutAtWellFormed(b, d, loc1.controller, loc1.location, loc1.sequence);
    var z := Zone(loc2.controller, loc2.location);
    var list := b.piles[z];
    PutAtPile(b, d, loc1.controller, loc1.location, loc1.sequence, z);
    var i := Clamp(loc2.sequence, 0, |list| - 1);
    var j := Clamp(loc1.sequence, 0, |list|);
    InsertShifts(list, j, d, i);
    var k := if j <= i then i + 1 else i;
    assert Points(r.facts[r.piles[z][k]], z.player, z.location, k);
  }

  lemma FirstElsewhere<C>(b: Board<C>, c: C, d: C, loc1: LocInfo, loc2: LocInfo)
    requires Closed(b) && c != d && d in b.facts && StandsAt(b, c, loc2) && Writable(loc1)
    requires Zone(loc1.controller, loc1.location) != Zone(loc2.controller, loc2.location)
             || (!IsPile(loc2.location) && loc1.sequence != loc2.sequence) || (!IsField(loc2.location) && !IsPile(loc2.location))
    requires Zone(loc1.controller, loc1.location) in b.piles ==> c !in b.piles[Zone(loc1.controller, loc1.location)]
    ensures StandsAt(PutAt(b, d, loc1.controller, loc1.location, loc1.sequence), c, loc2)
  {
    hide PutAt, RefersWithin;
    PutAtSlots(b, d, loc1.controller, loc1.location, loc1.sequence);
    PutAtKeepsOther(b, d, loc1, c);
    var z := Zone(loc2.controller, loc2.location);
    if z in b.piles { PutAtPile(b, d, loc1.controller, loc1.location, loc1.sequence, z); }
  }

  /** Both cards of a Swap put down, from off the board. */
  lemma BothStand<C>(b: Board<C>, c: C, d: C, loc1: LocInfo, loc2: LocInfo)
    requires WellFormed(b) && c != d && c in b.facts && d in b.facts && Loose(b, c) && Loose(b, d) && Writable(loc1) && Writable(loc2)
    requires IsField(loc1.location) ==> Slot(loc1.controller, loc1.location, loc1.sequence) != Slot(loc2.controller, loc2.location, loc2.sequence)
    ensures var r := PutAt(PutAt(b, c, loc2.controller, loc2.location, loc2.sequence), d, loc1.controller, loc1.location, loc1.sequence);
            SwappedTo(r, c, loc2, loc1) && StandsAt(r, d, loc1) && OthersStay(b, r, {c, d})
  {
    hide SlotsPoint, PilesPoint, MaterialsPoint, OneHost, Linked, Closed, PutAt, StandsAt, Loose;
    var b1 := PutAt(b, c, loc2.controller, loc2.location, loc2.sequence);
    var r := PutAt(b1, d, loc1.controller, loc1.location, loc1.sequence);
    PutAtStands(b, c, loc2);
    PutAtWellFormed(b, c, loc2.controller, loc2.location, loc2.sequence);
    PutAtElsewhere(b, c, loc2.controller, loc2.location, loc2.sequence, d);
    PutAtStands(b1, d, loc1);
    PutAtOthers(b, c, loc2.controller, loc2.location, loc2.sequence);
    PutAtOthers(b1, d, loc1.controller, loc1.location, loc1.sequence);
    OthersTrans(b, b1, r, {c, d});
    var z1, z2 := Zone(loc1.controller, loc1.location), Zone(loc2.controller, loc2.location);
    PilesAreZones(b1, z2);
    if z2 in b1.piles && z1 == z2 {
      FirstInPile(b1, c, d, loc1, loc2);
    } else {
      if z1 in b1.piles { LooseElsewhere(b, c, loc2, z1); }
      FirstElsewhere(b1, c, d, loc1, loc2);
    }
  }

  lemma PilesAreZones<C>(b: Board<C>, z: Zone)
    requires Closed(b)
    ensures z in b.piles <==> IsZone(z)
  {
  }

  lemma LooseElsewhere<C>(b: Board<C>, c: C, loc: LocInfo, z: Zone)
    requires Closed(b) && c in b.facts && Loose(b, c) && Writable(loc) && z in b.piles && z != Zone(loc.controller, loc.location)
    ensures c !in PutAt(b, c, loc.controller, loc.location, loc.sequence).piles[z]
  {
    hide RefersWithin, PutAt;
    PutAtPile(b, c, loc.controller, loc.location, loc.sequence, z);
  }

  /** Two different cards of a Swap, neither stranded: the second stands where the first was named, and the first as `SwappedTo` says. */
  lemma SwapLands<C>(b: Board<C>, loc1: LocInfo, loc2: LocInfo, c: C, d: C)
    requires WellFormed(b) && Writable(loc1) && Writable(loc2) && !Strands(b, loc1, loc2)
    requires Resolve(b, loc1) == Some(c) && Resolve(b, loc2) == Some(d) && c != d
    ensures var r := ApplySwap(b, loc1, loc2);
            SwappedTo(r, c, loc2, loc1) && StandsAt(r, d, loc1) && OthersStay(b, r, {c, d})
  {
    hide SlotsPoint, PilesPoint, MaterialsPoint, OneHost, Linked, Closed, Resolve, RemoveFrom, PutAt, StandsAt, SwappedTo, Loose, Strands;
    var b2 := BothLifted(b, loc1, loc2, c, d);
    SlotsApart(b, loc1, loc2);
    BothStand(b2, c, d, loc1, loc2);
    AnyLiftOthers(b, c, loc1);
    AnyLiftOthers(RemoveFrom(b, c, loc1), d, loc2);
    OthersTrans(b, RemoveFrom(b, c, loc1), b2, {});
    assert OthersStay(b, b2, {c, d});
    OthersTrans(b, b2, ApplySwap(b, loc1, loc2), {c, d});
  }

  lemma SlotsApart<C>(b: Board<C>, loc1: LocInfo, loc2: LocInfo)
    requires Closed(b) && Resolve(b, loc1) != Resolve(b, loc2)
    ensures IsField(loc1.location) ==> Slot(loc1.controller, loc1.location, loc1.sequence) != Slot(loc2.controller, loc2.location, loc2.sequence)
  {
    hide RefersWithin;
  }

  /** Wherever a card is lifted from, found there or not, nobody changes side or location. */
  lemma AnyLiftOthers<C>(b: Board<C>, c: C, from: LocInfo)
    requires Closed(b)
    ensures OthersStay(b, RemoveFrom(b, c, from), {})
  {
    hide RefersWithin;
    var z := Zone(from.controller, from.location);
    if IsOverlay(from.location) {
      var h := HostAt(b, from);
      if h.Some? && c in b.facts[h.value].materials {
        MaterialsKnown(b, h.value);
        WithoutSubset(b.facts[h.value].materials, c);
        SetMaterialsOthers(b, h.value, Without(b.facts[h.value].materials, c));
      }
    } else if !IsField(from.location) && z in b.piles && c in b.piles[z] {
      WithoutSubset(b.piles[z], c);
      SetPileOthers(b, z, Without(b.piles[z], c));
    }
  }

  /** With nobody at one end, the card found at the other is put down there. */
  lemma SwapAloneLands<C>(b: Board<C>, loc1: LocInfo, loc2: LocInfo)
    requires WellFormed(b) && Writable(loc1) && Writable(loc2)
    ensures Resolve(b, loc2).None? && Resolve(b, loc1).Some? ==>
              StandsAt(ApplySwap(b, loc1, loc2), Resolve(b, loc1).value, loc2) && OthersStay(b, ApplySwap(b, loc1, loc2), {Resolve(b, loc1).value})
    ensures Resolve(b, loc1).None? && Resolve(b, loc2).Some? ==>
              StandsAt(ApplySwap(b, loc1, loc2), Resolve(b, loc2).value, loc1) && OthersStay(b, ApplySwap(b, loc1, loc2), {Resolve(b, loc2).value})
  {
    hide SlotsPoint, PilesPoint, MaterialsPoint, OneHost, Linked, Closed, Resolve, RemoveFrom, PutAt, StandsAt, Loose;
    if Resolve(b, loc2).None? && Resolve(b, loc1).Some? {
      OneLands(b, loc1, loc2, Resolve(b, loc1).value);
    } else if Resolve(b, loc1).None? && Resolve(b, loc2).Some? {
      OneLands(b, loc2, loc1, Resolve(b, loc2).value);
    }
  }

  lemma OneLands<C>(b: Board<C>, from: LocInfo, to: LocInfo, c: C)
    requires WellFormed(b) && Writable(to) && Resolve(b, from) == Some(c)
    ensures RemoveFrom(b, c, from).facts.Keys == b.facts.Keys
    ensures var r := PutAt(RemoveFrom(b, c, from), c, to.controller, to.location, to.sequence);
            StandsAt(r, c, to) && OthersStay(b, r, {c})
  {
    hide SlotsPoint, PilesPoint, MaterialsPoint, OneHost, Linked, Closed, Resolve, RemoveFrom, PutAt, StandsAt, Loose;
    var b1 := RemoveFrom(b, c, from);
    RemoveWellFormed(b, c, from);
    AnyLiftOthers(b, c, from);
    PutAtStands(b1, c, to);
    PutAtOthers(b1, c, to.controller, to.location, to.sequence);
    assert OthersStay(b, b1, {c});
    OthersTrans(b, b1, PutAt(b1, c, to.controller, to.location, to.sequence), {c});
  }

  // ----- A Swap within one pile -----

  /** The list without the entry at `i`. */
  ghost function Out<T>(s: seq<T>, i: nat): (r: seq<T>)
    requires i < |s|
    ensures |r| == |s| - 1
  {
    s[..i] + s[i + 1..]
  }

  lemma {:induction false} WithoutAt<T>(s: seq<T>, i: nat)
    requires Distinct(s) && i < |s|
    ensures Without(s, s[i]) == Out(s, i)
    decreases |s|
  {
    if i == 0 {
    } else {
      assert s[0] != s[i];
      WithoutAt(s[1..], i - 1);
      assert s[1..][i - 1] == s[i] && s[1..][..i - 1] == s[1..i] && s[1..][i..] == s[i + 1..];
      assert s[..i] == [s[0]] + s[1..i];
    }
  }

  /** The list once the entries at `lo` and `hi` are out of it. */
  ghost function Rest<T>(s: seq<T>, lo: nat, hi: nat): seq<T>
    requires lo < hi < |s|
  {
    s[..lo] + s[lo + 1..hi] + s[hi + 1..]
  }

  /** Where the entry at `j` is, and what is around it, once the entry at `i` is out. */
  lemma OneOut<T>(s: seq<T>, i: nat, j: nat)
    requires i < |s| && j < |s| && i != j
    ensures var k := if j < i then j else j - 1;
            Out(s, i)[k] == s[j] && Out(Out(s, i), k) == if i < j then Rest(s, i, j) else Rest(s, j, i)
  {
    var t := Out(s, i);
    if i < j {
      assert t[..j - 1] == s[..i] + s[i + 1..j];
      assert t[j..] == s[j + 1..];
    } else {
      assert t[..j] == s[..j];
      assert t[j + 1..] == s[j + 1..i] + s[i + 1..];
      assert s[..j] + (s[j + 1..i] + s[i + 1..]) == Rest(s, j, i);
    }
  }

  lemma WithoutBoth<T>(s: seq<T>, i: nat, j: nat)
    requires Distinct(s) && i < |s| && j < |s| && i != j
    ensures Without(Without(s, s[i]), s[j]) == if i < j then Rest(s, i, j) else Rest(s, j, i)
  {
    hide Without, Distinct, Out, Rest;
    WithoutAt(s, i);
    WithoutDistinct(s, s[i]);
    OneOut(s, i, j);
    WithoutAt(Out(s, i), if j < i then j else j - 1);
  }

  /** Both put back: the first at the second's index, then the second at the first's. */
  ghost function PutBack<T>(s: seq<T>, rest: seq<T>, i: nat, j: nat): seq<T>
    requires i < |s| && j < |s|
  {
    Insert(Insert(rest, Clamp(j, 0, |rest|), s[i]), Clamp(i, 0, |rest| + 1), s[j])
  }

  lemma PutBackDown<T>(s: seq<T>, i: nat, j: nat)
    requires j < i < |s|
    ensures PutBack(s, Rest(s, j, i), i, j) == s[i := s[j]][j := s[i]]
  {
    var rest := Rest(s, j, i);
    var t := Insert(rest, j, s[i]);
    assert t == s[..j] + [s[i]] + s[j + 1..i] + s[i + 1..];
    assert Insert(t, i, s[j]) == s[..j] + [s[i]] + s[j + 1..i] + [s[j]] + s[i + 1..];
  }

  lemma PutBackUp<T>(s: seq<T>, i: nat, j: nat)
    requires i < j < |s| && Distinct(s)
    ensures PutBack(s, Rest(s, i, j), i, j) == s[i := s[j]][j := s[i]] <==> j == |s| - 1
  {
    var rest := Rest(s, i, j);
    if j == |s| - 1 {
      var t := Insert(rest, |rest|, s[i]);
      assert t == s[..i] + s[i + 1..j] + [s[i]];
      assert Insert(t, i, s[j]) == s[..i] + [s[j]] + s[i + 1..j] + [s[i]];
    } else {
      var t := Insert(rest, j, s[i]);
      assert t[j - 1] == rest[j - 1] == s[j + 1];
      assert Insert(t, i, s[j])[j] == t[j - 1];
      assert s[i := s[j]][j := s[i]][j] == s[i];
    }
  }

  /** A Swap within one pile exchanges the two cards, and leaves the others, exactly if it names the later one first or the last one second. */
  lemma SwapInPile<C>(b: Board<C>, loc1: LocInfo, loc2: LocInfo)
    requires WellFormed(b) && Writable(loc1) && IsPile(loc1.location)
    requires loc2.controller == loc1.controller && loc2.location == loc1.location && loc1.sequence != loc2.sequence
    requires var z := Zone(loc1.controller, loc1.location);
             z in b.piles && 0 <= loc1.sequence < |b.piles[z]| && 0 <= loc2.sequence < |b.piles[z]|
    ensures var z := Zone(loc1.controller, loc1.location);
            var list := b.piles[z];
            ApplySwap(b, loc1, loc2).piles[z] == list[loc1.sequence := list[loc2.sequence]][loc2.sequence := list[loc1.sequence]]
            <==> loc1.sequence > loc2.sequence || loc2.sequence == |list| - 1
  {
    var z := Zone(loc1.controller, loc1.location);
    var list, i, j := b.piles[z], loc1.sequence, loc2.sequence;
    PileDistinct(b, z);
    SwapPile(b, loc1, loc2);
    hide WellFormed, Closed, Insert, Without, PutBack, ApplySwap;
    WithoutBoth(list, i, j);
    if i < j { PutBackUp(list, i, j); } else { PutBackDown(list, i, j); }
  }

  lemma FoundInPile<C>(b: Board<C>, loc: LocInfo)
    requires Closed(b) && IsPile(loc.location)
    requires var z := Zone(loc.controller, loc.location); z in b.piles && 0 <= loc.sequence < |b.piles[z]|
    ensures Resolve(b, loc) == Some(b.piles[Zone(loc.controller, loc.location)][loc.sequence])
  {
    hide RefersWithin;
  }

  lemma SwapPile<C>(b: Board<C>, loc1: LocInfo, loc2: LocInfo)
    requires WellFormed(b) && Writable(loc1) && IsPile(loc1.location)
    requires loc2.controller == loc1.controller && loc2.location == loc1.location && loc1.sequence != loc2.sequence
    requires var z := Zone(loc1.controller, loc1.location);
             z in b.piles && 0 <= loc1.sequence < |b.piles[z]| && 0 <= loc2.sequence < |b.piles[z]|
    ensures var z := Zone(loc1.controller, loc1.location);
            var list := b.piles[z];
            ApplySwap(b, loc1, loc2).piles[z]
              == PutBack(list, Without(Without(list, list[loc1.sequence]), list[loc2.sequence]), loc1.sequence, loc2.sequence)
  {
    hide SlotsPoint, PilesPoint, MaterialsPoint, OneHost, Linked, Closed, PutAt, Insert, RemoveFrom, Resolve, Without, Distinct;
    var z := Zone(loc1.controller, loc1.location);
    var list, i, j := b.piles[z], loc1.sequence, loc2.sequence;
    var c, d := list[i], list[j];
    FoundInPile(b, loc1);
    FoundInPile(b, loc2);
    PileDistinct(b, z);
    ApartInPile(list, i, j);
    LiftPile(b, c, loc1);
    var b1 := RemoveFrom(b, c, loc1);
    LiftPile(b1, d, loc2);
    var b2 := RemoveFrom(b1, d, loc2);
    PutAtPile(b2, c, loc2.controller, loc2.location, loc2.sequence, z);
    var b3 := PutAt(b2, c, loc2.controller, loc2.location, loc2.sequence);
    PutAtPile(b3, d, loc1.controller, loc1.location, loc1.sequence, z);
    InsertedAt(b2.piles[z], j, c);
  }

  lemma ApartInPile<T>(s: seq<T>, i: nat, j: nat)
    requires Distinct(s) && i < |s| && j < |s| && i != j
    ensures s[i] != s[j] && s[j] in Without(s, s[i])
  {
    WithoutDistinct(s, s[i]);
  }

  lemma LiftPile<C>(b: Board<C>, c: C, from: LocInfo)
    requires Closed(b) && IsPile(from.location)
    requires var z := Zone(from.controller, from.location); z in b.piles && c in b.piles[z]
    ensures var z := Zone(from.controller, from.location);
            z in RemoveFrom(b, c, from).piles && RemoveFrom(b, c, from).piles[z] == Without(b.piles[z], c)
  {
    WithoutSubset(b.piles[Zone(from.controller, from.location)], c);
  }
}
