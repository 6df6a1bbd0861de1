/**
 What each message writes on the cards themselves: their codes, their positions and their links, said from the message
 and the board before it; and that a Move writes this.
 */
module DuelBoardWrites {
  import opened Basics
  import opened Wrappers
  import opened DuelBoard
  import opened DuelBoardInvariants
  import opened DuelBoardMoves
  import opened DuelBoardPiles

  // ----- What a message is to write -----

  /** A card as it was; one the client has just allocated is blank and face-down. */
  ghost function Before<C>(b: Board<C>, d: C): Facts<C> {
    if d in b.facts then b.facts[d] else Facts(0, POS_FACEDOWN_DEFENSE, 0, 0, 0, [], None, {}, {}, {})
  }

  /** The code of `d` after a message other than Draw and ShuffleHand. */
  ghost function CodeAfter<C>(b: Board<C>, msg: Message, spare: seq<C>, d: C): int
    requires Closed(b)
  {
    var was := Before(b, d).code;
    match msg
    case Move(code, from, to) =>
      if d in spare then code
      else if Resolve(b, from) != Some(d) || (IsOverlay(from.location) && to.location != 0) then was
      else if code != 0 || to.location == LOCATION_EXTRA then code else was
    case PosChange(code, p, l, s, _, _) => if CardAt(b, p, l, s) == Some(d) && code != 0 then code else was
    case Set(code, place) =>
      if d in spare || (CardAt(b, place.controller, place.location, place.sequence) == Some(d) && code != 0) then code else was
    case ShuffleSetCard(l, sources, _) => if Some(d) in Shuffled(b, l, sources) then 0 else was
    case _ => was
  }

  ghost function PositionAfter<C>(b: Board<C>, msg: Message, spare: seq<C>, d: C): int
    requires Closed(b)
  {
    var was := Before(b, d).position;
    match msg
    case Move(_, from, to) =>
      if d in spare || (Resolve(b, from) == Some(d) && to.location != 0 && !IsOverlay(to.location)) then to.position else was
    case PosChange(_, p, l, s, _, now) => if CardAt(b, p, l, s) == Some(d) then now else was
    case Set(_, place) =>
      if d in spare || CardAt(b, place.controller, place.location, place.sequence) == Some(d) then place.position else was
    case SwapGraveDeck(p, _) =>
      if Zone(p, LOCATION_GRAVE) in b.piles && d in b.piles[Zone(p, LOCATION_GRAVE)] then POS_FACEDOWN_DEFENSE else was
    case _ => was
  }

  /** The cards that lose every target link they are part of. */
  ghost predicate Untargets<C>(b: Board<C>, msg: Message, d: C)
    requires Closed(b)
  {
    match msg
    case Move(_, from, to) =>
      Resolve(b, from) == Some(d) && (to.location == 0 || (!IsOverlay(from.location) && to.location != from.location))
    case PosChange(_, p, l, s, was, now) => CardAt(b, p, l, s) == Some(d) && FaceUp(was) && FaceDown(now)
    case RemoveCards(locations) => Some(d) in Resolved(b, locations)
    case _ => false
  }

  /** The cards that stop being equipped to another. */
  ghost predicate Unequips<C>(b: Board<C>, msg: Message, d: C)
    requires Closed(b)
  {
    match msg
    case Move(_, from, to) =>
      Resolve(b, from) == Some(d)
      && (to.location == 0 || (!IsOverlay(from.location) && !IsOverlay(to.location) && to.location != from.location))
    case RemoveCards(locations) => Some(d) in Resolved(b, locations)
    case _ => false
  }

  /** The cards that others stop being equipped to. */
  ghost predicate Sheds<C>(b: Board<C>, msg: Message, d: C)
    requires Closed(b)
  {
    match msg
    case Move(_, from, to) => Resolve(b, from) == Some(d) && to.location == 0
    case RemoveCards(locations) => Some(d) in Resolved(b, locations)
    case _ => false
  }

  /** `c` targets `d` after the message. */
  ghost predicate TargetsAfter<C>(b: Board<C>, msg: Message, c: C, d: C)
    requires Closed(b)
  {
    var was := d in Before(b, c).targets;
    match msg
    case CardTarget(card, target) => was || (Resolve(b, card) == Some(c) && Resolve(b, target) == Some(d))
    case CancelTarget(card, target) => was && !(Resolve(b, card) == Some(c) && Resolve(b, target) == Some(d))
    case _ => was && !Untargets(b, msg, c) && !Untargets(b, msg, d)
  }

  ghost function EquipAfter<C>(b: Board<C>, msg: Message, c: C): Option<C>
    requires Closed(b)
  {
    var was := Before(b, c).equipTarget;
    match msg
    case Equip(card, target) => if Resolve(b, card) == Some(c) && Resolve(b, target).Some? then Resolve(b, target) else was
    case _ => if Unequips(b, msg, c) || (was.Some? && Sheds(b, msg, was.value)) then None else was
  }

  /** The cards of `list` carry `codes`, in order, and all others the codes they had. */
  ghost predicate Coded<C>(b: Board<C>, r: Board<C>, list: seq<C>, codes: seq<int>) {
    && |list| == |codes| && (forall i :: 0 <= i < |list| ==> list[i] in r.facts && r.facts[list[i]].code == codes[i])
    && forall d <- r.facts :: d !in list ==> r.facts[d].code == Before(b, d).code
  }

  ghost function Codes(cards: seq<Drawn>): (r: seq<int>)
    ensures |r| == |cards| && forall i :: 0 <= i < |r| ==> r[i] == cards[i].code
  {
    seq(|cards|, i requires 0 <= i < |cards| => cards[i].code)
  }

  ghost predicate CodesWritten<C>(b: Board<C>, msg: Message, spare: seq<C>, r: Board<C>)
    requires Supplies(b, msg, spare)
  {
    match msg
    case Draw(p, cards) => Coded(b, r, Taken(Pile(b, p, LOCATION_DECK), spare, |cards|), Codes(cards))
    case ShuffleHand(p, codes) => |codes| <= |Pile(b, p, LOCATION_HAND) + spare| && Coded(b, r, (Pile(b, p, LOCATION_HAND) + spare)[..|codes|], codes)
    case _ => forall d <- r.facts :: r.facts[d].code == CodeAfter(b, msg, spare, d)
  }

  ghost predicate PositionsWritten<C>(b: Board<C>, msg: Message, spare: seq<C>, r: Board<C>)
    requires Closed(b)
  {
    forall d <- r.facts :: r.facts[d].position == PositionAfter(b, msg, spare, d)
  }

  ghost predicate LinksWritten<C>(b: Board<C>, msg: Message, r: Board<C>)
    requires Closed(b)
  {
    && (forall c <- r.facts, d <- r.facts :: d in r.facts[c].targets <==> TargetsAfter(b, msg, c, d))
    && (forall c <- r.facts :: r.facts[c].equipTarget == EquipAfter(b, msg, c))
  }

  // ----- Steps that only move cards about -----

  /** Code, position and links are the same. */
  ghost predicate SameAttributes<C>(f: Facts<C>, g: Facts<C>) {
    g.code == f.code && g.position == f.position && LinksEqual(f, g)
  }

  ghost predicate Rearranged<C>(b: Board<C>, r: Board<C>) {
    r.facts.Keys == b.facts.Keys && forall d <- b.facts :: SameAttributes(b.facts[d], r.facts[d])
  }

  lemma RearrangedTrans<C>(a: Board<C>, b: Board<C>, r: Board<C>)
    requires Rearranged(a, b) && Rearranged(b, r)
    ensures Rearranged(a, r)
  {
    forall d <- a.facts ensures SameAttributes(a.facts[d], r.facts[d]) {
      assert SameAttributes(a.facts[d], b.facts[d]) && SameAttributes(b.facts[d], r.facts[d]);
    }
  }

  lemma SetPileRearranges<C>(b: Board<C>, z: Zone, list: seq<C>)
    requires Closed(b) && IsZone(z) && forall c <- list :: c in b.facts
    ensures Rearranged(b, SetPile(b, z, list))
  {
  }

  lemma PutAtRearranges<C>(b: Board<C>, c: C, player: int, location: int, sequence: int)
    requires Closed(b) && c in b.facts && (IsField(location) ==> IsSlot(Slot(player, location, sequence)))
    ensures Rearranged(b, PutAt(b, c, player, location, sequence))
  {
    hide RefersWithin;
    var z := Zone(player, location);
    if !IsField(location) && z in b.piles { InsertElements(b.piles[z], Clamp(sequence, 0, |b.piles[z]|), c); }
  }

  lemma RemoveRearranges<C>(b: Board<C>, c: C, from: LocInfo)
    requires Closed(b)
    ensures Rearranged(b, RemoveFrom(b, c, from))
  {
    hide RefersWithin;
    var z := Zone(from.controller, from.location);
    if IsOverlay(from.location) {
      DetachRearranges(b, c, from);
    } else if !IsField(from.location) && z in b.piles && c in b.piles[z] {
      WithoutSubset(b.piles[z], c);
      SetPileRearranges(b, z, Without(b.piles[z], c));
    }
  }

  lemma DetachRearranges<C>(b: Board<C>, c: C, from: LocInfo)
    requires Closed(b)
    ensures Rearranged(b, Detach(b, c, from))
  {
  }

  lemma AttachRearranges<C>(b: Board<C>, c: C, to: LocInfo)
    requires Closed(b) && c in b.facts
    ensures Rearranged(b, Attach(b, c, to))
  {
  }

  lemma PlaceWrites<C>(b: Board<C>, c: C, to: LocInfo)
    requires Closed(b) && c in b.facts && Writable(to)
    ensures Place(b, c, to).facts.Keys == b.facts.Keys
    ensures forall d <- b.facts ::
              SameAttributes(b.facts[d].(position := if d == c then to.position else b.facts[d].position), Place(b, c, to).facts[d])
  {
    hide PutAt;
    var f := b.facts[c].(position := to.position);
    assert RefersWithin(f, b.facts.Keys + {c});
    PutAtRearranges(WithCard(b, c, f), c, to.controller, to.location, to.sequence);
  }

  // ----- Move -----

  /** A card once `c` was written on (`code`, `position`) and its links dropped as the flags say. */
  ghost function Touched<C>(f: Facts<C>, mine: bool, c: C, code: int, position: int, untargeted: bool, unequipped: bool): Facts<C> {
    f.(code := if mine then code else f.code, position := if mine then position else f.position,
       targets := if !untargeted then f.targets else if mine then {} else f.targets - {c},
       targetedBy := if !untargeted then f.targetedBy else if mine then {} else f.targetedBy - {c},
       equipTarget := if unequipped && mine then None else f.equipTarget,
       equippedBy := if unequipped then f.equippedBy - {c} else f.equippedBy)
  }

  /** Every card of `r` is the card of `b` so written on, wherever it stands. */
  ghost predicate Rewritten<C>(b: Board<C>, r: Board<C>, c: C, code: int, position: int, untargeted: bool, unequipped: bool) {
    && r.facts.Keys == b.facts.Keys
    && forall d <- b.facts :: SameAttributes(Touched(b.facts[d], d == c, c, code, position, untargeted, unequipped), r.facts[d])
  }

  lemma CodedWrites<C>(b: Board<C>, c: C, f: Facts<C>)
    requires Closed(b) && Linked(b) && c in b.facts && f == b.facts[c].(code := f.code)
    ensures RefersWithin(f, b.facts.Keys + {c}) && Linked(WithCard(b, c, f))
    ensures Rewritten(b, WithCard(b, c, f), c, f.code, f.position, false, false)
  {
    assert RefersWithin(b.facts[c], b.facts.Keys);
    WithCardLinks(b, c, f);
    SameLinksLinked(b, WithCard(b, c, f));
  }

  lemma ClearedWrites<C>(b: Board<C>, b1: Board<C>, c: C, code: int, position: int)
    requires Closed(b1) && Linked(b1) && c in b1.facts && Rewritten(b, b1, c, code, position, false, false)
    ensures Linked(ClearTargets(b1, c)) && Rewritten(b, ClearTargets(b1, c), c, code, position, true, false)
  {
    ClearTargetsLinked(b1, c);
    hide Closed, ClearTargets, Linked;
    forall d <- b.facts
      ensures SameAttributes(Touched(b.facts[d], d == c, c, code, position, true, false), ClearTargets(b1, c).facts[d])
    {
      ClearTargetsEnds(b1, c, d);
      assert SameAttributes(Touched(b.facts[d], d == c, c, code, position, false, false), b1.facts[d]);
    }
  }

  lemma UnequippedWrites<C>(b: Board<C>, b1: Board<C>, c: C, code: int, position: int)
    requires Closed(b1) && Linked(b1) && c in b1.facts && Rewritten(b, b1, c, code, position, true, false)
    ensures Rewritten(b, DetachEquipTarget(b1, c), c, code, position, true, true)
  {
    hide Closed, DetachEquipTarget, Linked;
    forall d <- b.facts
      ensures SameAttributes(Touched(b.facts[d], d == c, c, code, position, true, true), DetachEquipTarget(b1, c).facts[d])
    {
      DetachEquipTargetEnds(b1, c, d);
      assert SameAttributes(Touched(b.facts[d], d == c, c, code, position, true, false), b1.facts[d]);
    }
  }

  lemma RearrangedRewrites<C>(b: Board<C>, b2: Board<C>, r: Board<C>, c: C, code: int, position: int, untargeted: bool, unequipped: bool)
    requires Rewritten(b, b2, c, code, position, untargeted, unequipped) && Rearranged(b2, r)
    ensures Rewritten(b, r, c, code, position, untargeted, unequipped)
  {
    forall d <- b.facts
      ensures SameAttributes(Touched(b.facts[d], d == c, c, code, position, untargeted, unequipped), r.facts[d])
    {
      assert SameAttributes(b2.facts[d], r.facts[d]);
    }
  }

  lemma PlacedRewrites<C>(b: Board<C>, b2: Board<C>, c: C, code: int, position: int, untargeted: bool, unequipped: bool, to: LocInfo)
    requires Rewritten(b, b2, c, code, position, untargeted, unequipped) && Closed(b2) && c in b2.facts && Writable(to)
    ensures Rewritten(b, Place(b2, c, to), c, code, to.position, untargeted, unequipped)
  {
    hide Closed, Place;
    PlaceWrites(b2, c, to);
    var r := Place(b2, c, to);
    forall d <- b.facts
      ensures SameAttributes(Touched(b.facts[d], d == c, c, code, to.position, untargeted, unequipped), r.facts[d])
    {
      assert SameAttributes(b2.facts[d].(position := if d == c then to.position else b2.facts[d].position), r.facts[d]);
    }
  }

  lemma Untouched<C>(b: Board<C>, c: C)
    requires c in b.facts
    ensures Rewritten(b, b, c, b.facts[c].code, b.facts[c].position, false, false)
  {
  }

  /** The code a known card carries after a Move that does not take it out of play. */
  ghost function MoveCode(was: int, code: int, from: LocInfo, to: LocInfo): int {
    if IsOverlay(from.location) then was else if code != 0 || to.location == LOCATION_EXTRA then code else was
  }

  lemma ShiftWrites<C>(b: Board<C>, c: C, code: int, from: LocInfo, to: LocInfo)
    requires WellFormed(b) && c in b.facts && Writable(to) && !IsOverlay(from.location)
    ensures var away := to.location != from.location;
            Rewritten(b, Shift(b, c, code, from, to), c, MoveCode(b.facts[c].code, code, from, to), to.position, away, away)
  {
    hide SlotsPoint, PilesPoint, MaterialsPoint, OneHost, Linked, Closed, ClearTargets, DetachEquipTarget, Rewritten, Place, RemoveFrom;
    var f := if code != 0 || to.location == LOCATION_EXTRA then b.facts[c].(code := code) else b.facts[c];
    CodedWrites(b, c, f);
    var b1 := WithCard(b, c, f);
    var away := to.location != from.location;
    var b2 := if away then DetachEquipTarget(ClearTargets(b1, c), c) else b1;
    if away {
      ClearedWrites(b, b1, c, f.code, f.position);
      UnequippedWrites(b, ClearTargets(b1, c), c, f.code, f.position);
    }
    RemoveRearranges(b2, c, from);
    RearrangedRewrites(b, b2, RemoveFrom(b2, c, from), c, f.code, f.position, away, away);
    PlacedRewrites(b, RemoveFrom(b2, c, from), c, f.code, f.position, away, away, to);
  }

  lemma OverlayWrites<C>(b: Board<C>, c: C, code: int, from: LocInfo, to: LocInfo)
    requires WellFormed(b) && c in b.facts && !IsOverlay(from.location) && IsOverlay(to.location)
    ensures Rewritten(b, Overlay(b, c, code, from, to), c, MoveCode(b.facts[c].code, code, from, to), b.facts[c].position, true, false)
  {
    hide SlotsPoint, PilesPoint, MaterialsPoint, OneHost, Linked, Closed, ClearTargets, Rewritten, Attach, RemoveFrom;
    var f := Recoded(b.facts[c], code);
    CodedWrites(b, c, f);
    var b1 := WithCard(b, c, f);
    ClearedWrites(b, b1, c, f.code, f.position);
    var b2 := ClearTargets(b1, c);
    RemoveRearranges(b2, c, from);
    var b3 := RemoveFrom(b2, c, from);
    AttachRearranges(b3, c, to);
    RearrangedTrans(b2, b3, Attach(b3, c, to));
    RearrangedRewrites(b, b2, Attach(b3, c, to), c, f.code, f.position, true, false);
  }

  lemma LiftWrites<C>(b: Board<C>, c: C, from: LocInfo, to: LocInfo)
    requires Closed(b) && c in b.facts && Writable(to) && IsOverlay(from.location)
    ensures var r := if IsOverlay(to.location) then Attach(Detach(b, c, from), c, to) else Place(Detach(b, c, from), c, to);
            Rewritten(b, r, c, b.facts[c].code, if IsOverlay(to.location) then b.facts[c].position else to.position, false, false)
  {
    hide Closed, Rewritten, Attach, Detach, Place;
    Untouched(b, c);
    var b1 := Detach(b, c, from);
    DetachRearranges(b, c, from);
    RearrangedRewrites(b, b, b1, c, b.facts[c].code, b.facts[c].position, false, false);
    if IsOverlay(to.location) {
      AttachRearranges(b1, c, to);
      RearrangedRewrites(b, b1, Attach(b1, c, to), c, b.facts[c].code, b.facts[c].position, false, false);
    } else {
      PlacedRewrites(b, b1, c, b.facts[c].code, b.facts[c].position, false, false, to);
    }
  }

  /** What a Move of a known card writes on it and on all the others. */
  lemma MoveRewrites<C>(b: Board<C>, code: int, from: LocInfo, to: LocInfo, c: C)
    requires WellFormed(b) && Resolve(b, from) == Some(c) && Writable(to) && to.location != 0
    ensures Rewritten(b, ApplyMove(b, code, from, to, []), c, MoveCode(b.facts[c].code, code, from, to),
                      if IsOverlay(to.location) then b.facts[c].position else to.position,
                      !IsOverlay(from.location) && to.location != from.location,
                      !IsOverlay(from.location) && !IsOverlay(to.location) && to.location != from.location)
  {
    hide WellFormed, Closed, Rewritten, Resolve, Attach, Detach, Place, Shift, Overlay;
    if IsOverlay(from.location) {
      BoardIsClosed(b);
      LiftWrites(b, c, from, to);
    } else if IsOverlay(to.location) {
      OverlayWrites(b, c, code, from, to);
    } else {
      ShiftWrites(b, c, code, from, to);
    }
  }

  lemma BoardIsClosed<C>(b: Board<C>)
    requires WellFormed(b)
    ensures Closed(b)
  {
  }

  // ----- Leaving, appearing -----

  /** A card once the cards in `m` are at neither end of any link. */
  ghost function Forsaken<C>(f: Facts<C>, mine: bool, m: set<C>): Facts<C> {
    f.(targets := if mine then {} else f.targets - m, targetedBy := if mine then {} else f.targetedBy - m,
       equipTarget := if mine || (f.equipTarget.Some? && f.equipTarget.value in m) then None else f.equipTarget,
       equippedBy := if mine then {} else f.equippedBy - m)
  }

  ghost predicate Unlinked<C>(b: Board<C>, r: Board<C>, m: set<C>) {
    r.facts.Keys == b.facts.Keys && forall d <- b.facts :: SameAttributes(Forsaken(b.facts[d], d in m, m), r.facts[d])
  }

  lemma UnlinkedWhereItStands<C>(b: Board<C>, c: C)
    requires WellFormed(b) && c in b.facts
    ensures Unlinked(b, DetachEquips(ClearTargets(b, c), c), {c}) && Linked(DetachEquips(ClearTargets(b, c), c))
  {
    hide Placed, Linked, ClearTargets, DetachEquips, Unequipping, Untargeting, Closed;
    BoardIsClosed(b);
    ClearTargetsLinked(b, c);
    var b1 := ClearTargets(b, c);
    DetachEquipsLinked(b1, c);
    forall d <- b.facts ensures SameAttributes(Forsaken(b.facts[d], d in {c}, {c}), DetachEquips(b1, c).facts[d]) {
      ClearTargetsEnds(b, c, d);
      DetachEquipsEnds(b1, c, d);
    }
  }

  lemma UnlinkedOne<C>(b: Board<C>, c: C, from: LocInfo)
    requires WellFormed(b) && c in b.facts
    ensures Unlinked(b, RemoveFrom(DetachEquips(ClearTargets(b, c), c), c, from), {c})
    ensures Linked(RemoveFrom(DetachEquips(ClearTargets(b, c), c), c, from))
  {
    hide Closed, ClearTargets, DetachEquips, Linked, Placed, RemoveFrom, Forsaken;
    BoardIsClosed(b);
    UnlinkedWhereItStands(b, c);
    var b2 := DetachEquips(ClearTargets(b, c), c);
    var r := RemoveFrom(b2, c, from);
    RemoveRearranges(b2, c, from);
    RearrangedLinked(b2, r);
    forall d <- b.facts ensures SameAttributes(Forsaken(b.facts[d], d in {c}, {c}), r.facts[d]) {
      assert SameAttributes(b2.facts[d], r.facts[d]);
    }
  }

  lemma RearrangedLinked<C>(b: Board<C>, r: Board<C>)
    requires Closed(b) && Linked(b) && Rearranged(b, r)
    ensures Linked(r)
  {
    hide Closed;
    assert forall d <- b.facts :: SameAttributes(b.facts[d], r.facts[d]);
    SameLinksLinked(b, r);
  }

  lemma UnlinkedNext<C>(a: Board<C>, b: Board<C>, r: Board<C>, m: set<C>, c: C)
    requires Unlinked(a, b, m) && Unlinked(b, r, {c})
    ensures Unlinked(a, r, m + {c})
  {
    forall d <- a.facts ensures SameAttributes(Forsaken(a.facts[d], d in m + {c}, m + {c}), r.facts[d]) {
      assert SameAttributes(Forsaken(a.facts[d], d in m, m), b.facts[d]);
      assert SameAttributes(Forsaken(b.facts[d], d in {c}, {c}), r.facts[d]);
    }
  }

  /** A new card came, written as `f` says, and nothing was written on the others. */
  ghost predicate Added<C>(b: Board<C>, r: Board<C>, c: C, f: Facts<C>) {
    && r.facts.Keys == b.facts.Keys + {c} && SameAttributes(f, r.facts[c])
    && forall d <- b.facts :: SameAttributes(b.facts[d], r.facts[d])
  }

  lemma AppearWrites<C>(b: Board<C>, c: C, code: int, to: LocInfo)
    requires Closed(b) && c !in b.facts && Writable(to)
    ensures Added(b, Appear(b, c, code, to), c, Facts(code, to.position, 0, 0, 0, [], None, {}, {}, {}))
  {
    hide Attach, Place;
    var f := NewFacts<C>(code, to.controller, to.location, to.sequence, to.position);
    var b1 := WithCard(b, c, f);
    hide Closed;
    if IsOverlay(to.location) { AttachRearranges(b1, c, to); } else { PlaceWrites(b1, c, to); }
    forall d <- b1.facts ensures SameAttributes(b1.facts[d], Appear(b, c, code, to).facts[d]) {
      if !IsOverlay(to.location) {
        assert SameAttributes(b1.facts[d].(position := if d == c then to.position else b1.facts[d].position), Place(b1, c, to).facts[d]);
      }
    }
  }

  lemma SetWrites<C>(b: Board<C>, c: C, code: int, place: LocInfo)
    requires Closed(b) && c !in b.facts && Writable(place) && CardAt(b, place.controller, place.location, place.sequence).None?
    ensures Added(b, ApplySet(b, code, place, [c]), c, Facts(code, place.position, 0, 0, 0, [], None, {}, {}, {}))
  {
    hide Place, CardAt;
    var f := NewFacts<C>(code, place.controller, place.location, place.sequence, place.position);
    var b1 := WithCard(b, c, f);
    hide Closed;
    PlaceWrites(b1, c, place);
    forall d <- b1.facts ensures SameAttributes(b1.facts[d], Place(b1, c, place).facts[d]) {
      assert SameAttributes(b1.facts[d].(position := if d == c then place.position else b1.facts[d].position), Place(b1, c, place).facts[d]);
    }
  }

  // ----- Message by message -----

  /** Everything a message is to write, and nothing else, is written. */
  ghost predicate Written<C>(b: Board<C>, msg: Message, spare: seq<C>, r: Board<C>)
    requires Supplies(b, msg, spare)
  {
    CodesWritten(b, msg, spare, r) && PositionsWritten(b, msg, spare, r) && LinksWritten(b, msg, r)
  }

  lemma MoveWritten<C>(b: Board<C>, code: int, from: LocInfo, to: LocInfo, spare: seq<C>)
    requires WellFormed(b) && Supplies(b, Move(code, from, to), spare) && to.location != 0
    ensures Written(b, Move(code, from, to), spare, ApplyMove(b, code, from, to, spare))
  {
    hide WellFormed, Closed, Resolve, Linked, Placed, ApplyMove;
    BoardIsClosed(b);
    var msg := Move(code, from, to);
    var found := Resolve(b, from);
    if found.None? {
      AppearedWritten(b, code, from, to, spare);
    } else {
      assert spare == [];
      MoveRewrites(b, code, from, to, found.value);
      RewrittenIsWritten(b, code, from, to, found.value, ApplyMove(b, code, from, to, spare));
    }
  }

  lemma AppearedWritten<C>(b: Board<C>, code: int, from: LocInfo, to: LocInfo, spare: seq<C>)
    requires WellFormed(b) && Supplies(b, Move(code, from, to), spare) && to.location != 0 && Resolve(b, from).None?
    ensures Written(b, Move(code, from, to), spare, ApplyMove(b, code, from, to, spare))
  {
    hide Placed, Linked, Resolve, Appear, Closed, Added;
    BoardIsClosed(b);
    NewInSpare(b, Move(code, from, to), spare);
    AppearWrites(b, spare[0], code, to);
    var r := ApplyMove(b, code, from, to, spare);
    AddedIsWritten(b, Move(code, from, to), spare, r);
  }

  lemma NewInSpare<C>(b: Board<C>, msg: Message, spare: seq<C>)
    requires Supplies(b, msg, spare)
    ensures forall d <- spare :: d !in b.facts
    ensures Closed(b) && Legal(msg) && |spare| == Needed(b, msg)
  {
    hide Closed;
  }

  /** An added card and no other was written on, and it has no links. */
  lemma AddedIsWritten<C>(b: Board<C>, msg: Message, spare: seq<C>, r: Board<C>)
    requires Supplies(b, msg, spare) && Linked(b) && |spare| == 1
    requires msg.Move? || msg.Set?
    requires Added(b, r, spare[0], Facts(CodeAfter(b, msg, spare, spare[0]), PositionAfter(b, msg, spare, spare[0]), 0, 0, 0, [], None, {}, {}, {}))
    requires forall d <- b.facts :: CodeAfter(b, msg, spare, d) == b.facts[d].code && PositionAfter(b, msg, spare, d) == b.facts[d].position
    requires forall d <- b.facts :: !Untargets(b, msg, d) && !Unequips(b, msg, d) && !Sheds(b, msg, d)
    ensures Written(b, msg, spare, r)
  {
    hide CodeAfter, PositionAfter, Untargets, Unequips, Sheds, Linked;
    forall d <- r.facts ensures SameAttributes(Facts(CodeAfter(b, msg, spare, d), PositionAfter(b, msg, spare, d), 0, 0, 0, [],
        Before(b, d).equipTarget, Before(b, d).equippedBy, Before(b, d).targets, Before(b, d).targetedBy), r.facts[d]) {
      assert d in b.facts || d == spare[0];
    }
  }

  lemma RewrittenIsWritten<C>(b: Board<C>, code: int, from: LocInfo, to: LocInfo, c: C, r: Board<C>)
    requires Supplies(b, Move(code, from, to), []) && Resolve(b, from) == Some(c) && to.location != 0
    requires Rewritten(b, r, c, MoveCode(b.facts[c].code, code, from, to),
                       if IsOverlay(to.location) then b.facts[c].position else to.position,
                       !IsOverlay(from.location) && to.location != from.location,
                       !IsOverlay(from.location) && !IsOverlay(to.location) && to.location != from.location)
    ensures Written(b, Move(code, from, to), [], r)
  {
    hide Closed, Resolve, RefersWithin;
    forall x <- r.facts, d <- r.facts ensures d in r.facts[x].targets <==> TargetsAfter(b, Move(code, from, to), x, d) {
      assert SameAttributes(Touched(b.facts[x], x == c, c, MoveCode(b.facts[c].code, code, from, to),
                       if IsOverlay(to.location) then b.facts[c].position else to.position,
                       !IsOverlay(from.location) && to.location != from.location,
                       !IsOverlay(from.location) && !IsOverlay(to.location) && to.location != from.location), r.facts[x]);
    }
  }
}
