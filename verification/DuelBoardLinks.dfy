/**
 The messages that write on cards and links, or set a single card: they keep the board in order.
 */
module DuelBoardLinks {
  import opened Wrappers
  import opened DuelBoard
  import opened DuelBoardInvariants
  import opened DuelBoardMoves

  // ----- Link messages -----

  lemma EquipEnds<C>(b: Board<C>, c: C, t: C, d: C)
    requires Closed(b) && Linked(b) && c in b.facts && t in b.facts && d in b.facts
    ensures Equipped(b, c, t).facts[d] == b.facts[d].(
              equipTarget := if d == c then Some(t) else b.facts[d].equipTarget,
              equippedBy := if d == t then b.facts[d].equippedBy - {c} + {c} else b.facts[d].equippedBy - {c})
  {
    DetachEquipTargetEnds(b, c, d);
    DetachEquipTargetEnds(b, c, c);
  }

  lemma EquipLinked<C>(b: Board<C>, c: C, t: C)
    requires Closed(b) && Linked(b) && c in b.facts && t in b.facts
    ensures Linked(Equipped(b, c, t)) && SameShape(b, Equipped(b, c, t))
  {
    hide Equipped;
    forall d <- b.facts ensures Equipped(b, c, t).facts[d] == b.facts[d].(
              equipTarget := if d == c then Some(t) else b.facts[d].equipTarget,
              equippedBy := if d == t then b.facts[d].equippedBy - {c} + {c} else b.facts[d].equippedBy - {c}) {
      EquipEnds(b, c, t, d);
    }
    EquippedShape(b, c, t);
  }

  lemma EquippedShape<C>(b: Board<C>, c: C, t: C)
    requires Closed(b) && c in b.facts && t in b.facts
    ensures Equipped(b, c, t).slots == b.slots && Equipped(b, c, t).piles == b.piles
  {
    hide RefersWithin, Closed;
  }

  ghost function Relinked<C>(f: Facts<C>, c: C, t: C, link: bool, isCard: bool, isTarget: bool): Facts<C> {
    f.(targets := if !isCard then f.targets else if link then f.targets + {t} else f.targets - {t},
       targetedBy := if !isTarget then f.targetedBy else if link then f.targetedBy + {c} else f.targetedBy - {c})
  }

  lemma TargetedEnds<C>(b: Board<C>, c: C, t: C, link: bool, d: C)
    requires Closed(b) && c in b.facts && t in b.facts && d in b.facts
    ensures Targeted(b, c, t, link).facts[d] == Relinked(b.facts[d], c, t, link, d == c, d == t)
  {
  }

  lemma TargetedShape<C>(b: Board<C>, c: C, t: C, link: bool)
    requires Closed(b) && c in b.facts && t in b.facts
    ensures Targeted(b, c, t, link).slots == b.slots && Targeted(b, c, t, link).piles == b.piles
  {
  }

  lemma TargetedLinked<C>(b: Board<C>, c: C, t: C, link: bool)
    requires Closed(b) && Linked(b) && c in b.facts && t in b.facts
    ensures Linked(Targeted(b, c, t, link)) && SameShape(b, Targeted(b, c, t, link))
  {
    hide Targeted, Closed, RefersWithin;
    var r := Targeted(b, c, t, link);
    forall d <- b.facts ensures r.facts[d] == Relinked(b.facts[d], c, t, link, d == c, d == t) {
      TargetedEnds(b, c, t, link, d);
    }
    TargetedShape(b, c, t, link);
  }

  // ----- The remaining messages -----

  lemma EquipWellFormed<C>(b: Board<C>, card: LocInfo, target: LocInfo)
    requires WellFormed(b)
    ensures WellFormed(ApplyEquip(b, card, target))
  {
    hide SlotsPoint, PilesPoint, MaterialsPoint, OneHost, Closed, Linked, Resolve, Equipped;
    var c := Resolve(b, card);
    var t := Resolve(b, target);
    if c.Some? && t.Some? {
      EquipLinked(b, c.value, t.value);
      SameShapePlaced(b, Equipped(b, c.value, t.value));
    }
  }

  lemma TargetWellFormed<C>(b: Board<C>, card: LocInfo, target: LocInfo, link: bool)
    requires WellFormed(b)
    ensures WellFormed(ApplyTarget(b, card, target, link))
  {
    hide SlotsPoint, PilesPoint, MaterialsPoint, OneHost, Closed, Linked, Resolve, Targeted;
    var c := Resolve(b, card);
    var t := Resolve(b, target);
    if c.Some? && t.Some? {
      TargetedLinked(b, c.value, t.value, link);
      SameShapePlaced(b, Targeted(b, c.value, t.value, link));
    }
  }

  lemma PosChangeWellFormed<C>(b: Board<C>, code: int, controller: int, location: Location, sequence: int, was: int, now: int)
    requires WellFormed(b)
    ensures WellFormed(ApplyPosChange(b, code, controller, location, sequence, was, now))
  {
    hide SlotsPoint, PilesPoint, MaterialsPoint, OneHost, Closed, Linked, CardAt, ClearTargets;
    var found := CardAt(b, controller, location, sequence);
    if found.Some? {
      var c := found.value;
      ClearTargetsWellFormed(b, c);
      var b1 := if FaceUp(was) && FaceDown(now) then ClearTargets(b, c) else b;
      RewriteWellFormed(b1, c, Recoded(b1.facts[c], code).(position := now));
    }
  }

  lemma SetWellFormed<C>(b: Board<C>, code: int, place: LocInfo, spare: seq<C>)
    requires WellFormed(b) && Supplies(b, Set(code, place), spare)
    ensures WellFormed(ApplySet(b, code, place, spare))
  {
    hide SlotsPoint, PilesPoint, MaterialsPoint, OneHost, Linked, CardAt;
    var found := CardAt(b, place.controller, place.location, place.sequence);
    if found.None? {
      var f := NewFacts<C>(code, place.controller, place.location, place.sequence, place.position);
      NewCardWellFormed(b, spare[0], f);
      PlaceWellFormed(WithCard(b, spare[0], f), spare[0], place);
    } else {
      RewriteWellFormed(b, found.value, Recoded(b.facts[found.value], code).(position := place.position));
    }
  }
}
