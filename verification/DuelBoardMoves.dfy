/**
 Links follow their cards, and a Move message keeps the board well formed.
 */
module DuelBoardMoves {
  import opened Basics
  import opened Wrappers
  import opened DuelBoard
  import opened DuelBoardInvariants

  // ----- Links across container changes -----

  ghost predicate NoLinks<C>(f: Facts<C>) {
    f.equipTarget == None && f.equippedBy == {} && f.targets == {} && f.targetedBy == {}
  }

  ghost predicate LinksEqual<C>(f: Facts<C>, g: Facts<C>) {
    f.equipTarget == g.equipTarget && f.equippedBy == g.equippedBy && f.targets == g.targets && f.targetedBy == g.targetedBy
  }

  /** Old cards keep their links; new cards have none. */
  ghost predicate SameLinks<C>(b: Board<C>, r: Board<C>) {
    && b.facts.Keys <= r.facts.Keys
    && (forall c <- b.facts :: LinksEqual(b.facts[c], r.facts[c]))
    && (forall c <- r.facts :: c !in b.facts ==> NoLinks(r.facts[c]))
  }

  lemma SameLinksLinked<C>(b: Board<C>, r: Board<C>)
    requires Closed(b) && Linked(b) && SameLinks(b, r)
    ensures Linked(r)
  {
    forall c <- r.facts, d <- r.facts
      ensures d in r.facts[c].targets <==> c in r.facts[d].targetedBy
      ensures r.facts[c].equipTarget == Some(d) <==> c in r.facts[d].equippedBy
    {
      if c in b.facts {
        assert LinksEqual(b.facts[c], r.facts[c]) && RefersWithin(b.facts[c], b.facts.Keys);
      } else {
        assert NoLinks(r.facts[c]);
      }
      if d in b.facts {
        assert LinksEqual(b.facts[d], r.facts[d]) && RefersWithin(b.facts[d], b.facts.Keys);
      } else {
        assert NoLinks(r.facts[d]);
      }
    }
  }

  lemma SetPileLinks<C>(b: Board<C>, z: Zone, list: seq<C>)
    requires Closed(b) && IsZone(z) && forall c <- list :: c in b.facts
    ensures SameLinks(b, SetPile(b, z, list))
  {
  }

  lemma SetMaterialsLinks<C>(b: Board<C>, h: C, list: seq<C>)
    requires Closed(b) && h in b.facts && forall c <- list :: c in b.facts
    ensures SameLinks(b, SetMaterials(b, h, list))
  {
  }

  lemma SameLinksTrans<C>(a: Board<C>, b: Board<C>, r: Board<C>)
    requires SameLinks(a, b) && SameLinks(b, r)
    ensures SameLinks(a, r)
  {
    assert forall c <- a.facts :: LinksEqual(a.facts[c], b.facts[c]) && LinksEqual(b.facts[c], r.facts[c]);
    forall c <- r.facts | c !in a.facts ensures NoLinks(r.facts[c]) {
      if c in b.facts { assert NoLinks(b.facts[c]) && LinksEqual(b.facts[c], r.facts[c]); }
    }
  }

  lemma WithCardLinks<C>(b: Board<C>, c: C, f: Facts<C>)
    requires if c in b.facts then LinksEqual(b.facts[c], f) else NoLinks(f)
    ensures SameLinks(b, WithFacts(b, c, f))
  {
  }

  lemma PutAtLinks<C>(b: Board<C>, c: C, player: int, location: int, sequence: int)
    requires Closed(b) && c in b.facts && (IsField(location) ==> IsSlot(Slot(player, location, sequence)))
    ensures SameLinks(b, PutAt(b, c, player, location, sequence))
  {
    var z := Zone(player, location);
    var f := b.facts[c].(controller := player, location := location, sequence := sequence);
    assert RefersWithin(f, b.facts.Keys + {c});
    WithCardLinks(b, c, f);
    var b1 := WithCard(b, c, f);
    if !IsField(location) && z in b.piles {
      InsertElements(b.piles[z], Clamp(sequence, 0, |b.piles[z]|), c);
      SetPileLinks(b1, z, Insert(b.piles[z], Clamp(sequence, 0, |b.piles[z]|), c));
      SameLinksTrans(b, b1, PutAt(b, c, player, location, sequence));
    }
  }

  lemma DetachLinks<C>(b: Board<C>, c: C, from: LocInfo)
    requires Closed(b)
    ensures SameLinks(b, Detach(b, c, from))
  {
    var host := HostAt(b, from);
    if host.Some? && c in b.facts[host.value].materials {
      WithoutSubset(b.facts[host.value].materials, c);
      SetMaterialsLinks(b, host.value, Without(b.facts[host.value].materials, c));
    }
  }

  lemma RemoveFromLinks<C>(b: Board<C>, c: C, from: LocInfo)
    requires Closed(b)
    ensures SameLinks(b, RemoveFrom(b, c, from))
  {
    var z := Zone(from.controller, from.location);
    if IsOverlay(from.location) {
      DetachLinks(b, c, from);
    } else if !IsField(from.location) && z in b.piles && c in b.piles[z] {
      WithoutSubset(b.piles[z], c);
      SetPileLinks(b, z, Without(b.piles[z], c));
    }
  }

  lemma AttachLinks<C>(b: Board<C>, c: C, to: LocInfo)
    requires Closed(b) && c in b.facts
    ensures SameLinks(b, Attach(b, c, to))
  {
    var host := HostAt(b, to);
    if host.Some? {
      var f := b.facts[c].(controller := to.controller, location := LOCATION_OVERLAY);
      assert RefersWithin(f, b.facts.Keys + {c});
      WithCardLinks(b, c, f);
      var m := b.facts[host.value].materials;
      InsertElements(m, Clamp(to.position, 0, |m|), c);
      SetMaterialsLinks(WithCard(b, c, f), host.value, Insert(m, Clamp(to.position, 0, |m|), c));
      SameLinksTrans(b, WithCard(b, c, f), Attach(b, c, to));
    }
  }

  // ----- Link operations -----

  /** No target link has `c` at either end. */
  ghost predicate Untargeting<C>(b: Board<C>, c: C) {
    forall d <- b.facts :: c !in b.facts[d].targets && c !in b.facts[d].targetedBy
  }

  ghost predicate Unequipping<C>(b: Board<C>, c: C) {
    forall d <- b.facts :: b.facts[d].equipTarget != Some(c) && c !in b.facts[d].equippedBy
  }

  lemma ClearTargetsEnds<C>(b: Board<C>, c: C, d: C)
    requires Closed(b) && Linked(b) && c in b.facts && d in b.facts
    ensures ClearTargets(b, c).facts[d] == b.facts[d].(
              targets := if d == c then {} else b.facts[d].targets - {c},
              targetedBy := if d == c then {} else b.facts[d].targetedBy - {c})
  {
    assert d in b.facts[c].targets <==> c in b.facts[d].targetedBy;
    assert c in b.facts[d].targets <==> d in b.facts[c].targetedBy;
  }

  lemma ClearTargetsLinked<C>(b: Board<C>, c: C)
    requires Closed(b) && Linked(b) && c in b.facts
    ensures Linked(ClearTargets(b, c)) && SameShape(b, ClearTargets(b, c)) && Untargeting(ClearTargets(b, c), c)
  {
    var r := ClearTargets(b, c);
    forall d <- b.facts ensures r.facts[d] == b.facts[d].(
              targets := if d == c then {} else b.facts[d].targets - {c},
              targetedBy := if d == c then {} else b.facts[d].targetedBy - {c}) {
      ClearTargetsEnds(b, c, d);
    }
  }

  lemma DetachEquipTargetEnds<C>(b: Board<C>, c: C, d: C)
    requires Closed(b) && Linked(b) && c in b.facts && d in b.facts
    ensures DetachEquipTarget(b, c).facts[d] == b.facts[d].(
              equipTarget := if d == c then None else b.facts[d].equipTarget,
              equippedBy := b.facts[d].equippedBy - {c})
  {
    assert b.facts[c].equipTarget == Some(d) <==> c in b.facts[d].equippedBy;
  }

  lemma DetachEquipTargetLinked<C>(b: Board<C>, c: C)
    requires Closed(b) && Linked(b) && c in b.facts
    ensures Linked(DetachEquipTarget(b, c)) && SameShape(b, DetachEquipTarget(b, c))
    ensures Untargeting(b, c) ==> Untargeting(DetachEquipTarget(b, c), c)
  {
    hide Closed, RefersWithin;
    var r := DetachEquipTarget(b, c);
    forall d <- b.facts ensures r.facts[d] == b.facts[d].(
              equipTarget := if d == c then None else b.facts[d].equipTarget,
              equippedBy := b.facts[d].equippedBy - {c}) {
      DetachEquipTargetEnds(b, c, d);
    }
  }

  lemma DetachEquipsEnds<C>(b: Board<C>, c: C, d: C)
    requires Closed(b) && Linked(b) && c in b.facts && d in b.facts
    ensures DetachEquips(b, c).facts[d] == b.facts[d].(
              equipTarget := if d == c || b.facts[d].equipTarget == Some(c) then None else b.facts[d].equipTarget,
              equippedBy := if d == c then {} else b.facts[d].equippedBy - {c})
  {
    DetachEquipTargetEnds(b, c, c);
    DetachEquipTargetEnds(b, c, d);
    assert b.facts[d].equipTarget == Some(c) <==> d in b.facts[c].equippedBy;
  }

  /** What `detachEquips` leaves alone on every card, and what it drops. */
  ghost predicate EquipsDropped<C>(f: Facts<C>, g: Facts<C>, c: C) {
    && Points(g, f.controller, f.location, f.sequence) && g.materials == f.materials
    && g.targets == f.targets && g.targetedBy == f.targetedBy
    && g.equipTarget != Some(c) && c !in g.equippedBy
  }

  lemma DetachEquipsApart<C>(b: Board<C>, c: C)
    requires Closed(b) && Linked(b) && c in b.facts
    ensures SameShape(b, DetachEquips(b, c)) && Unequipping(DetachEquips(b, c), c)
    ensures Untargeting(b, c) ==> Untargeting(DetachEquips(b, c), c)
  {
    hide Closed;
    var r := DetachEquips(b, c);
    forall d <- b.facts ensures EquipsDropped(b.facts[d], r.facts[d], c) {
      DetachEquipsEnds(b, c, d);
    }
  }

  lemma DetachEquipsLinked<C>(b: Board<C>, c: C)
    requires Closed(b) && Linked(b) && c in b.facts
    ensures Linked(DetachEquips(b, c))
  {
    var r := DetachEquips(b, c);
    forall x <- r.facts, d <- r.facts
      ensures d in r.facts[x].targets <==> x in r.facts[d].targetedBy
      ensures r.facts[x].equipTarget == Some(d) <==> x in r.facts[d].equippedBy
    {
      DetachEquipsEnds(b, c, x);
      DetachEquipsEnds(b, c, d);
      assert d in b.facts[x].targets <==> x in b.facts[d].targetedBy;
      assert b.facts[x].equipTarget == Some(d) <==> x in b.facts[d].equippedBy;
      assert b.facts[x].equipTarget == Some(c) <==> x in b.facts[c].equippedBy;
    }
  }

  // ----- One message at a time -----

  /** The whole invariant. */
  ghost predicate WellFormed<C>(b: Board<C>) { Placed(b) && Linked(b) }

  /** Attribute writes and link changes: same containers. */
  lemma RewriteWellFormed<C>(b: Board<C>, c: C, f: Facts<C>)
    requires WellFormed(b) && c in b.facts && LinksEqual(b.facts[c], f) && f.materials == b.facts[c].materials
    requires Points(f, b.facts[c].controller, b.facts[c].location, b.facts[c].sequence)
    ensures RefersWithin(f, b.facts.Keys + {c}) && WellFormed(WithCard(b, c, f)) && SameShape(b, WithCard(b, c, f))
  {
    assert RefersWithin(b.facts[c], b.facts.Keys);
    WithCardLinks(b, c, f);
    SameLinksLinked(b, WithCard(b, c, f));
    SameShapePlaced(b, WithCard(b, c, f));
  }

  lemma NewCardWellFormed<C>(b: Board<C>, c: C, f: Facts<C>)
    requires WellFormed(b) && c !in b.facts && NoLinks(f) && f.materials == []
    ensures WellFormed(WithCard(b, c, f)) && Loose(WithCard(b, c, f), c)
  {
    assert Loose(b, c) by {
      assert forall h <- b.facts :: RefersWithin(b.facts[h], b.facts.Keys);
    }
    LoosePlaced(b, c, f);
    WithCardLinks(b, c, f);
    SameLinksLinked(b, WithCard(b, c, f));
  }

  lemma RemoveWellFormed<C>(b: Board<C>, c: C, from: LocInfo)
    requires WellFormed(b) && Resolve(b, from) == Some(c)
    ensures WellFormed(RemoveFrom(b, c, from)) && Loose(RemoveFrom(b, c, from), c)
  {
    RemoveFromPlaced(b, c, from);
    RemoveFromLinks(b, c, from);
    SameLinksLinked(b, RemoveFrom(b, c, from));
  }

  lemma PutAtWellFormed<C>(b: Board<C>, c: C, player: int, location: int, sequence: int)
    requires WellFormed(b) && Loose(b, c) && c in b.facts
    requires IsField(location) ==> IsSlot(Slot(player, location, sequence))
    ensures WellFormed(PutAt(b, c, player, location, sequence))
  {
    PutAtPlaced(b, c, player, location, sequence);
    PutAtLinks(b, c, player, location, sequence);
    SameLinksLinked(b, PutAt(b, c, player, location, sequence));
  }

  lemma PlaceWellFormed<C>(b: Board<C>, c: C, to: LocInfo)
    requires WellFormed(b) && Loose(b, c) && c in b.facts && Writable(to)
    ensures WellFormed(Place(b, c, to))
  {
    var f := b.facts[c].(position := to.position);
    RewriteWellFormed(b, c, f);
    SameShapePlaced(b, WithCard(b, c, f));
    PutAtWellFormed(WithCard(b, c, f), c, to.controller, to.location, to.sequence);
  }

  lemma AttachWellFormed<C>(b: Board<C>, c: C, to: LocInfo)
    requires WellFormed(b) && Loose(b, c) && c in b.facts
    ensures WellFormed(Attach(b, c, to))
  {
    AttachPlaced(b, c, to);
    AttachLinks(b, c, to);
    SameLinksLinked(b, Attach(b, c, to));
  }

  /** The same containers give the same answers. */
  lemma SameShapeResolve<C>(b: Board<C>, r: Board<C>, loc: LocInfo)
    requires Closed(b) && Closed(r) && SameShape(b, r)
    ensures Resolve(r, loc) == Resolve(b, loc)
  {
    hide RefersWithin;
  }

  lemma ClearTargetsWellFormed<C>(b: Board<C>, c: C)
    requires WellFormed(b) && c in b.facts
    ensures WellFormed(ClearTargets(b, c)) && SameShape(b, ClearTargets(b, c)) && Untargeting(ClearTargets(b, c), c)
  {
    ClearTargetsLinked(b, c);
    SameShapePlaced(b, ClearTargets(b, c));
  }

  lemma DetachEquipTargetWellFormed<C>(b: Board<C>, c: C)
    requires WellFormed(b) && c in b.facts
    ensures WellFormed(DetachEquipTarget(b, c)) && SameShape(b, DetachEquipTarget(b, c))
  {
    DetachEquipTargetLinked(b, c);
    SameShapePlaced(b, DetachEquipTarget(b, c));
  }

  lemma UnlinkWellFormed<C>(b: Board<C>, c: C)
    requires WellFormed(b) && c in b.facts
    ensures var r := DetachEquips(ClearTargets(b, c), c);
            WellFormed(r) && SameShape(b, r) && Untargeting(r, c) && Unequipping(r, c)
  {
    ClearTargetsWellFormed(b, c);
    var b1 := ClearTargets(b, c);
    DetachEquipsApart(b1, c);
    DetachEquipsLinked(b1, c);
    SameShapePlaced(b1, DetachEquips(b1, c));
  }

  lemma LeaveWellFormed<C>(b: Board<C>, c: C, code: int, from: LocInfo)
    requires WellFormed(b) && Resolve(b, from) == Some(c)
    ensures WellFormed(Leave(b, c, code, from)) && Loose(Leave(b, c, code, from), c)
    ensures Untargeting(Leave(b, c, code, from), c) && Unequipping(Leave(b, c, code, from), c)
  {
    RewriteWellFormed(b, c, Recoded(b.facts[c], code));
    var b1 := WithCard(b, c, Recoded(b.facts[c], code));
    UnlinkWellFormed(b1, c);
    var b2 := DetachEquips(ClearTargets(b1, c), c);
    SameShapeResolve(b, b1, from);
    SameShapeResolve(b1, b2, from);
    RemoveWellFormed(b2, c, from);
    RemoveFromLinks(b2, c, from);
    var r := RemoveFrom(b2, c, from);
    assert forall d <- r.facts :: LinksEqual(b2.facts[d], r.facts[d]);
  }

  lemma ShiftWellFormed<C>(b: Board<C>, c: C, code: int, from: LocInfo, to: LocInfo)
    requires WellFormed(b) && Resolve(b, from) == Some(c) && Writable(to)
    ensures WellFormed(Shift(b, c, code, from, to))
  {
    var f := if code != 0 || to.location == LOCATION_EXTRA then b.facts[c].(code := code) else b.facts[c];
    RewriteWellFormed(b, c, f);
    var b1 := WithCard(b, c, f);
    SameShapeResolve(b, b1, from);
    var b2 := if to.location != from.location then DetachEquipTarget(ClearTargets(b1, c), c) else b1;
    if to.location != from.location {
      ClearTargetsWellFormed(b1, c);
      SameShapeResolve(b1, ClearTargets(b1, c), from);
      DetachEquipTargetWellFormed(ClearTargets(b1, c), c);
      SameShapeResolve(ClearTargets(b1, c), b2, from);
    }
    RemoveWellFormed(b2, c, from);
    PlaceWellFormed(RemoveFrom(b2, c, from), c, to);
  }

  lemma OverlayWellFormed<C>(b: Board<C>, c: C, code: int, from: LocInfo, to: LocInfo)
    requires WellFormed(b) && Resolve(b, from) == Some(c)
    ensures WellFormed(Overlay(b, c, code, from, to))
  {
    RewriteWellFormed(b, c, Recoded(b.facts[c], code));
    var b1 := WithCard(b, c, Recoded(b.facts[c], code));
    SameShapeResolve(b, b1, from);
    ClearTargetsWellFormed(b1, c);
    SameShapeResolve(b1, ClearTargets(b1, c), from);
    RemoveWellFormed(ClearTargets(b1, c), c, from);
    AttachWellFormed(RemoveFrom(ClearTargets(b1, c), c, from), c, to);
  }

  lemma AppearWellFormed<C>(b: Board<C>, c: C, code: int, to: LocInfo)
    requires WellFormed(b) && c !in b.facts && Writable(to)
    ensures WellFormed(Appear(b, c, code, to))
  {
    var f := NewFacts<C>(code, to.controller, to.location, to.sequence, to.position);
    NewCardWellFormed(b, c, f);
    if IsOverlay(to.location) {
      AttachWellFormed(WithCard(b, c, f), c, to);
    } else {
      PlaceWellFormed(WithCard(b, c, f), c, to);
    }
  }

  lemma MoveWellFormed<C>(b: Board<C>, code: int, from: LocInfo, to: LocInfo, spare: seq<C>)
    requires WellFormed(b) && Supplies(b, Move(code, from, to), spare)
    ensures WellFormed(ApplyMove(b, code, from, to, spare))
  {
    var found := Resolve(b, from);
    if found.None? {
      if to.location != 0 { AppearWellFormed(b, spare[0], code, to); }
    } else {
      var c := found.value;
      if to.location == 0 {
        LeaveWellFormed(b, c, code, from);
      } else if !IsOverlay(from.location) {
        if IsOverlay(to.location) { OverlayWellFormed(b, c, code, from, to); } else { ShiftWellFormed(b, c, code, from, to); }
      } else {
        RemoveWellFormed(b, c, from);
        if IsOverlay(to.location) { AttachWellFormed(Detach(b, c, from), c, to); } else { PlaceWellFormed(Detach(b, c, from), c, to); }
      }
    }
  }
}
