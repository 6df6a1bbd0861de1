/**
 Which cards are on the board after each message: the new ones that found a place, and all that were there before
 except those the message loses, which can be told from the board and the message beforehand.
 */
module DuelBoardConservation {
  import opened Basics
  import opened Wrappers
  import opened DuelBoard
  import opened DuelBoardInvariants
  import opened DuelBoardMoves
  import opened DuelBoardHeld
  import opened DuelBoardSwap

  ghost function Of<C>(o: Option<C>): set<C> { if o.Some? then {o.value} else {} }

  // ----- Landing -----

  ghost function Land<C>(b: Board<C>, c: C, to: LocInfo): (r: Board<C>)
    requires Closed(b) && c in b.facts && Writable(to)
    ensures Closed(r) && r.facts.Keys == b.facts.Keys
  {
    if IsOverlay(to.location) then Attach(b, c, to) else Place(b, c, to)
  }

  /** There is a host, a slot or a pile to put a card in. */
  ghost predicate HasPlace<C>(b: Board<C>, to: LocInfo)
    requires Closed(b)
  {
    if IsOverlay(to.location) then HostAt(b, to).Some? else IsContainer(to.location)
  }

  /** The card in the slot a landing fills. */
  ghost function Occupant<C>(b: Board<C>, to: LocInfo): Option<C> {
    if IsField(to.location) then SlotCard(b, Slot(to.controller, to.location, to.sequence)) else None
  }

  lemma AttachMaterials<C>(b: Board<C>, c: C, to: LocInfo, h: C)
    requires Closed(b) && c in b.facts && h in b.facts
    ensures Attach(b, c, to).facts[h].materials ==
              if HostAt(b, to) == Some(h) then Insert(b.facts[h].materials, Clamp(to.position, 0, |b.facts[h].materials|), c)
              else b.facts[h].materials
    ensures Attach(b, c, to).slots == b.slots && Attach(b, c, to).piles == b.piles
  {
  }

  lemma AttachStays<C>(b: Board<C>, c: C, to: LocInfo, m: set<C>)
    requires Closed(b) && c in b.facts && c in m
    ensures Stays(b, Attach(b, c, to), m)
  {
    AttachMaterials(b, c, to, c);
    hide Closed, Attach, Except;
    forall h <- b.facts ensures Except(Attach(b, c, to).facts[h].materials, m) == Except(b.facts[h].materials, m) {
      AttachMaterials(b, c, to, h);
      ExceptInsert(b.facts[h].materials, Clamp(to.position, 0, |b.facts[h].materials|), c, m);
    }
  }

  lemma PlaceSplits<C>(b: Board<C>, c: C, to: LocInfo) returns (b1: Board<C>)
    requires Closed(b) && c in b.facts && Writable(to)
    ensures Closed(b1) && b1.slots == b.slots && b1.piles == b.piles && b1.facts.Keys == b.facts.Keys
    ensures forall h <- b.facts :: b1.facts[h].materials == b.facts[h].materials
    ensures Place(b, c, to) == PutAt(b1, c, to.controller, to.location, to.sequence)
  {
    hide PutAt;
    var f := b.facts[c].(position := to.position);
    assert RefersWithin(f, b.facts.Keys + {c});
    b1 := WithCard(b, c, f);
  }

  lemma LandStays<C>(b: Board<C>, c: C, to: LocInfo, m: set<C>)
    requires Closed(b) && c in b.facts && Writable(to) && {c} + Of(Occupant(b, to)) <= m
    ensures Stays(b, Land(b, c, to), m)
  {
    hide Closed, PutAt, Attach, Place, Stays;
    if IsOverlay(to.location) {
      AttachStays(b, c, to, m);
    } else {
      var b1 := PlaceSplits(b, c, to);
      SameListsStay(b, b1);
      StaysWiden(b, b1, {}, m);
      PutAtStays(b1, c, to.controller, to.location, to.sequence, m);
      StaysTrans(b, b1, Land(b, c, to), m);
    }
  }

  lemma AttachArrives<C>(b: Board<C>, c: C, to: LocInfo)
    requires Closed(b) && c in b.facts && Loose(b, c)
    ensures Loose(Attach(b, c, to), c) <==> HostAt(b, to).None?
  {
    AttachMaterials(b, c, to, c);
    if HostAt(b, to).Some? {
      var h := HostAt(b, to).value;
      AttachMaterials(b, c, to, h);
      InsertElements(b.facts[h].materials, Clamp(to.position, 0, |b.facts[h].materials|), c);
      assert c in Attach(b, c, to).facts[h].materials;
    }
  }

  lemma LandArrives<C>(b: Board<C>, c: C, to: LocInfo)
    requires Closed(b) && c in b.facts && Writable(to) && Loose(b, c)
    ensures Loose(Land(b, c, to), c) <==> !HasPlace(b, to)
  {
    hide Closed, PutAt, Place, Attach, HostAt;
    if IsOverlay(to.location) {
      AttachArrives(b, c, to);
    } else {
      var b1 := PlaceSplits(b, c, to);
      PutAtHolds(b1, c, to.controller, to.location, to.sequence);
    }
  }

  lemma PlaceSlots<C>(b: Board<C>, c: C, to: LocInfo)
    requires Closed(b) && c in b.facts && Writable(to)
    ensures Place(b, c, to).slots ==
              if IsField(to.location) then b.slots[Slot(to.controller, to.location, to.sequence) := c] else b.slots
  {
    hide PutAt;
    var b1 := PlaceSplits(b, c, to);
    PutAtSlots(b1, c, to.controller, to.location, to.sequence);
  }

  /** The occupant of the slot landed in is on the board no more. */
  lemma OccupantElsewhere<C>(b: Board<C>, to: LocInfo, d: C)
    requires WellFormed(b) && Occupant(b, to) == Some(d)
    ensures SlotCard(b, Slot(to.controller, to.location, to.sequence)) == Some(d) && !Loose(b, d)
    ensures forall s <- b.slots :: b.slots[s] == d ==> s == Slot(to.controller, to.location, to.sequence)
    ensures (forall z <- b.piles :: d !in b.piles[z]) && forall h <- b.facts :: d !in b.facts[h].materials
  {
    hide SlotsPoint, PilesPoint, MaterialsPoint, OneHost, Linked, RefersWithin;
    HeldOnlyThere(b, AtSlot(Slot(to.controller, to.location, to.sequence)), d);
  }

  lemma LandOverwrites<C>(b: Board<C>, c: C, to: LocInfo, d: C)
    requires WellFormed(b) && c in b.facts && Writable(to) && d != c && Occupant(b, to) == Some(d)
    ensures !Loose(b, d) && Loose(Land(b, c, to), d)
  {
    hide SlotsPoint, PilesPoint, MaterialsPoint, OneHost, Linked, RefersWithin, Except, PutAt, Place, Closed, HostAt, Attach, Points;
    var r := Land(b, c, to);
    PlaceSlots(b, c, to);
    OccupantElsewhere(b, to, d);
    var b1 := PlaceSplits(b, c, to);
    forall z <- r.piles ensures d !in r.piles[z] { PutAtPile(b1, c, to.controller, to.location, to.sequence, z); }
    forall h <- r.facts ensures d !in r.facts[h].materials { PutAtMaterials(b1, c, to.controller, to.location, to.sequence, h); }
  }

  /** What a landing does to who is held: the card arrives where there is a place, and pushes the occupant out. */
  lemma LandHolds<C>(b: Board<C>, c: C, to: LocInfo)
    requires WellFormed(b) && c in b.facts && Writable(to) && Loose(b, c)
    ensures Held(Land(b, c, to)) == Held(b) + (if HasPlace(b, to) then {c} else {}) - (Of(Occupant(b, to)) - {c})
  {
    hide SlotsPoint, PilesPoint, MaterialsPoint, OneHost, Linked, Closed, Loose, Land, HasPlace, Stays;
    var r := Land(b, c, to);
    var m := {c} + Of(Occupant(b, to));
    LandStays(b, c, to, m);
    LandArrives(b, c, to);
    forall d <- b.facts | d !in m ensures Loose(r, d) <==> Loose(b, d) { StaysHeld(b, r, m, d); }
    if Occupant(b, to).Some? && Occupant(b, to).value != c { LandOverwrites(b, c, to, Occupant(b, to).value); }
  }

  // ----- Moving a known card -----

  /** Once `c` is lifted the host address `to` still finds a card. */
  ghost predicate HostRemains<C>(b: Board<C>, c: C, to: LocInfo)
    requires Closed(b)
  {
    var l := HostLocation(to.location);
    if IsPile(l) && Zone(to.controller, l) in b.piles then
      var pile := b.piles[Zone(to.controller, l)];
      0 <= to.sequence < if c in pile then |pile| - 1 else |pile|
    else HostAt(b, to).Some? && HostAt(b, to) != Some(c)
  }

  /** The destination of a lifted card exists. */
  ghost predicate Arrives<C>(b: Board<C>, c: C, to: LocInfo)
    requires Closed(b)
  {
    if IsOverlay(to.location) then HostRemains(b, c, to) else IsContainer(to.location)
  }

  ghost function MoveLost<C>(b: Board<C>, c: C, to: LocInfo): set<C>
    requires Closed(b)
  {
    (if Arrives(b, c, to) then {} else {c}) + (Of(Occupant(b, to)) - {c})
  }

  lemma LiftedHost<C>(b: Board<C>, r: Board<C>, c: C, to: LocInfo)
    requires WellFormed(b) && Closed(r) && Stripped(b, r, {c})
    ensures HasPlace(r, to) <==> Arrives(b, c, to)
    ensures Of(Occupant(r, to)) == Of(Occupant(b, to)) - {c}
  {
    hide Except, SlotsPoint, PilesPoint, MaterialsPoint, OneHost, Linked, RefersWithin;
    var l := HostLocation(to.location);
    var s := Slot(to.controller, l, to.sequence);
    assert SlotCard(r, s) == Apart(SlotCard(b, s), {c});
    var z := Zone(to.controller, l);
    if z in b.piles {
      PileDistinct(b, z);
      ExceptOneShorter(b.piles[z], c);
    }
  }

  lemma {:induction false} ExceptOneShorter<T>(s: seq<T>, x: T)
    requires Distinct(s)
    ensures |Except(s, {x})| == if x in s then |s| - 1 else |s|
  {
    if s == [] {
    } else {
      ExceptOneShorter(s[1..], x);
      if s[0] == x { assert x !in s[1..]; } else { assert x in s <==> x in s[1..]; }
    }
  }

  /** Every Move of a known card is: write on it, unlink it, lift it, land it. */
  lemma MoveSplits<C>(b: Board<C>, code: int, from: LocInfo, to: LocInfo, c: C) returns (b2: Board<C>)
    requires WellFormed(b) && Resolve(b, from) == Some(c) && Writable(to) && to.location != 0
    ensures WellFormed(b2) && SameShape(b, b2) && Resolve(b2, from) == Some(c)
    ensures ApplyMove(b, code, from, to, []) == Land(RemoveFrom(b2, c, from), c, to)
  {
    hide SlotsPoint, PilesPoint, MaterialsPoint, OneHost, Linked, Closed, Resolve, ClearTargets, DetachEquipTarget, RemoveFrom;
    if IsOverlay(from.location) {
      b2 := b;
      assert RemoveFrom(b, c, from) == Detach(b, c, from) by { LiftOverlay(b, c, from); }
    } else if IsOverlay(to.location) {
      RewriteWellFormed(b, c, Recoded(b.facts[c], code));
      var b1 := WithCard(b, c, Recoded(b.facts[c], code));
      ClearTargetsWellFormed(b1, c);
      b2 := ClearTargets(b1, c);
    } else {
      var f := if code != 0 || to.location == LOCATION_EXTRA then b.facts[c].(code := code) else b.facts[c];
      RewriteWellFormed(b, c, f);
      var b1 := WithCard(b, c, f);
      ClearTargetsWellFormed(b1, c);
      DetachEquipTargetWellFormed(ClearTargets(b1, c), c);
      b2 := if to.location != from.location then DetachEquipTarget(ClearTargets(b1, c), c) else b1;
    }
    SameShapeResolve(b, b2, from);
  }

  lemma LiftOverlay<C>(b: Board<C>, c: C, from: LocInfo)
    requires Closed(b) && IsOverlay(from.location)
    ensures RemoveFrom(b, c, from) == Detach(b, c, from)
  {
  }

  lemma SameShapeStrips<C>(b: Board<C>, b2: Board<C>, c: C, from: LocInfo)
    requires WellFormed(b2) && SameShape(b, b2) && Resolve(b2, from) == Some(c)
    ensures Stripped(b, RemoveFrom(b2, c, from), {c}) && WellFormed(RemoveFrom(b2, c, from)) && Loose(RemoveFrom(b2, c, from), c)
  {
    hide SlotsPoint, PilesPoint, MaterialsPoint, OneHost, Linked, Closed, RemoveFrom, Resolve, Loose, Except;
    var r := RemoveFrom(b2, c, from);
    RemoveWellFormed(b2, c, from);
    RemoveStrips(b2, c, from);
    forall s ensures SlotCard(r, s) == Apart(SlotCard(b, s), {c}) { assert SlotCard(b2, s) == SlotCard(b, s); }
  }

  /**
   A Move of a known card leaves every other card and the order of every list as they are, the occupant of the slot
   moved to aside.  It loses no card exactly if the place moved to exists once the card is lifted and is not taken.
   */
  lemma MoveConserves<C>(b: Board<C>, code: int, from: LocInfo, to: LocInfo, c: C)
    requires WellFormed(b) && Resolve(b, from) == Some(c) && Writable(to) && to.location != 0
    ensures Stays(b, ApplyMove(b, code, from, to, []), {c} + Of(Occupant(b, to)))
    ensures Held(ApplyMove(b, code, from, to, [])) == Held(b) - MoveLost(b, c, to)
    ensures Held(ApplyMove(b, code, from, to, [])) == Held(b) <==>
              Arrives(b, c, to) && (Occupant(b, to).None? || Occupant(b, to) == Some(c))
  {
    hide SlotsPoint, PilesPoint, MaterialsPoint, OneHost, Linked, Closed, RemoveFrom, Land, ApplyMove, Resolve, Stays, Stripped,
         Loose, HasPlace, Arrives, SameShape, Occupant;
    var b2 := MoveSplits(b, code, from, to, c);
    var b1 := RemoveFrom(b2, c, from);
    SameShapeStrips(b, b2, c, from);
    LiftedHost(b, b1, c, to);
    StrippedStays(b, b1, {c});
    var m := {c} + Of(Occupant(b, to));
    StaysWiden(b, b1, {c}, m);
    LandStays(b1, c, to, m);
    StaysTrans(b, b1, Land(b1, c, to), m);
    LandHolds(b1, c, to);
    ResolvedIsHeld(b, c, from);
    OccupantHeld(b, to);
  }

  lemma OccupantHeld<C>(b: Board<C>, to: LocInfo)
    requires Closed(b)
    ensures Of(Occupant(b, to)) <= Held(b)
  {
    if Occupant(b, to).Some? {
      var s := Slot(to.controller, to.location, to.sequence);
      assert b.slots[s] in b.facts;
    }
  }

  lemma ResolvedIsHeld<C>(b: Board<C>, c: C, from: LocInfo)
    requires Closed(b) && Resolve(b, from) == Some(c)
    ensures !Loose(b, c) && c in Held(b)
  {
    var spot := ResolveSpot(b, from);
  }

  // ----- A card the client never saw -----

  lemma NewCardStays<C>(b: Board<C>, c: C, f: Facts<C>)
    requires WellFormed(b) && c !in b.facts && NoLinks(f) && f.materials == [] && RefersWithin(f, b.facts.Keys + {c})
    ensures Stays(b, WithCard(b, c, f), {c}) && Held(WithCard(b, c, f)) == Held(b)
  {
    hide Except, SlotsPoint, PilesPoint, MaterialsPoint, OneHost, Linked, Loose, RefersWithin;
    NewCardWellFormed(b, c, f);
    ExceptOne(c, {c});
    var r := WithCard(b, c, f);
    forall d <- b.facts ensures Loose(r, d) <==> Loose(b, d) { StaysHeld(b, r, {c}, d); }
  }

  /** The new card is on the board if its place exists; whoever stood in its slot is not. */
  lemma NewCardLands<C>(b: Board<C>, c: C, f: Facts<C>, to: LocInfo)
    requires WellFormed(b) && c !in b.facts && NoLinks(f) && f.materials == [] && Writable(to)
    requires RefersWithin(f, b.facts.Keys + {c})
    ensures var r := Land(WithCard(b, c, f), c, to);
            && Stays(b, r, {c} + Of(Occupant(b, to)))
            && Held(r) == Held(b) + (if HasPlace(b, to) then {c} else {}) - Of(Occupant(b, to))
  {
    hide SlotsPoint, PilesPoint, MaterialsPoint, OneHost, Linked, Closed, Land, Stays, Held, HostAt;
    NewCardStays(b, c, f);
    NewCardWellFormed(b, c, f);
    var b1 := WithCard(b, c, f);
    var m := {c} + Of(Occupant(b, to));
    LandHolds(b1, c, to);
    LandStays(b1, c, to, m);
    StaysWiden(b, b1, {c}, m);
    StaysTrans(b, b1, Land(b1, c, to), m);
    SamePlace(b, b1, to);
    OccupantHeld(b, to);
  }

  lemma SamePlace<C>(b: Board<C>, r: Board<C>, to: LocInfo)
    requires Closed(b) && Closed(r) && b.slots == r.slots && b.piles == r.piles
    ensures HasPlace(b, to) == HasPlace(r, to) && Occupant(b, to) == Occupant(r, to)
  {
  }
}
