/**
 Conservation message by message: `Lost` names, from the board and the message, the cards that will be on the board
 no more, `Landed` the new ones that will be, and `Touched` all that may change places.
 */
module DuelBoardLosses {
  import opened Basics
  import opened Wrappers
  import opened DuelBoard
  import opened DuelBoardInvariants
  import opened DuelBoardMoves
  import opened DuelBoardHeld
  import opened DuelBoardPiles
  import opened DuelBoardSwap
  import opened DuelBoardRemoval
  import opened DuelBoardGraveDeck
  import opened DuelBoardRows
  import opened DuelBoardLinks
  import opened DuelBoardConservation

  /** The tail a shorter size cuts off. */
  ghost function Cut<C>(list: seq<C>, size: nat): set<C> { if size < |list| then Elements(list[size..]) else {} }

  /** A card swapped to a place that is no slot and no pile is put down nowhere. */
  ghost function SwapLost<C>(b: Board<C>, loc1: LocInfo, loc2: LocInfo): set<C>
    requires Closed(b)
  {
    (if IsContainer(loc2.location) then {} else Of(Resolve(b, loc1))) + (if IsContainer(loc1.location) then {} else Of(Resolve(b, loc2)))
  }

  /** The cards on the board that the message takes off it. */
  ghost function Lost<C>(b: Board<C>, msg: Message): set<C>
    requires Closed(b) && Legal(msg)
  {
    match msg
    case Move(_, from, to) =>
      if to.location == 0 then Of(Resolve(b, from))
      else if Resolve(b, from).Some? then MoveLost(b, Resolve(b, from).value, to)
      else Of(Occupant(b, to))
    case Swap(loc1, loc2) => SwapLost(b, loc1, loc2)
    case UpdateData(p, l, size) => if IsPile(l) then Cut(Pile(b, p, l), size) else {}
    case ShuffleHand(p, codes) => Cut(Pile(b, p, LOCATION_HAND), |codes|)
    case RemoveCards(locations) => Fallen(b, locations, |locations|)
    case _ => {}
  }

  /** The new cards that found a place. */
  ghost function Landed<C>(b: Board<C>, msg: Message, spare: seq<C>): set<C>
    requires Supplies(b, msg, spare)
  {
    match msg
    case Move(_, _, to) => if HasPlace(b, to) then Elements(spare) else {}
    case Set(_, place) => if IsContainer(place.location) then Elements(spare) else {}
    case _ => Elements(spare)
  }

  /** The cards that may change places; a ShuffleSetCard names its row. */
  ghost function Touched<C>(b: Board<C>, msg: Message, spare: seq<C>): set<C>
    requires Supplies(b, msg, spare)
  {
    match msg
    case Draw(p, cards) => Elements(Taken(Pile(b, p, LOCATION_DECK), spare, |cards|))
    case Move(_, from, to) => Of(Resolve(b, from)) + Of(Occupant(b, to)) + Elements(spare)
    case Set(_, _) => Elements(spare)
    case Swap(loc1, loc2) => Of(Resolve(b, loc1)) + Of(Resolve(b, loc2))
    case UpdateData(_, _, _) => Lost(b, msg) + Elements(spare)
    case ShuffleHand(_, _) => Lost(b, msg) + Elements(spare)
    case SwapGraveDeck(p, _) => Elements(Pile(b, p, LOCATION_GRAVE)) + Elements(Pile(b, p, LOCATION_DECK))
    case ShuffleSetCard(l, _, _) => RowCards(b, RowOf(l), 0) + RowCards(b, RowOf(l), 1)
    case RemoveCards(_) => Lost(b, msg)
    case _ => {}
  }

  /** What conservation says of a step from `b` to `r`. */
  ghost predicate Conserves<C>(b: Board<C>, r: Board<C>, landed: set<C>, lost: set<C>, touched: set<C>) {
    Stays(b, r, touched) && Held(r) == Held(b) + landed - lost
  }

  // ----- Swap -----

  /** An empty slot, or one holding the card put down. */
  ghost predicate Free<C>(b: Board<C>, c: C, loc: LocInfo) { Of(Occupant(b, loc)) <= {c} }

  lemma PutDown<C>(b: Board<C>, c: C, loc: LocInfo, m: set<C>)
    requires Closed(b) && c in b.facts && Writable(loc) && Free(b, c, loc) && c in m
    ensures var r := PutAt(b, c, loc.controller, loc.location, loc.sequence);
            && Stays(b, r, m) && (IsContainer(loc.location) || Loose(b, c) ==> (Loose(r, c) <==> !IsContainer(loc.location)))
            && (forall d :: d != c ==> (Loose(r, d) <==> Loose(b, d)))
  {
    hide Closed, Stays, PutAt, Loose;
    var r := PutAt(b, c, loc.controller, loc.location, loc.sequence);
    PutAtStays(b, c, loc.controller, loc.location, loc.sequence, m);
    PutAtStays(b, c, loc.controller, loc.location, loc.sequence, {c});
    if IsContainer(loc.location) || Loose(b, c) { PutAtHolds(b, c, loc.controller, loc.location, loc.sequence); }
    forall d | d != c ensures Loose(r, d) <==> Loose(b, d) { StaysHeld(b, r, {c}, d); }
  }

  lemma UnchangedStays<C>(b: Board<C>, m: set<C>)
    ensures Stays(b, b, m)
  {
    hide Except;
  }

  /** Lifting one card and putting it down at a place nothing was found at. */
  lemma SwapWithNobody<C>(b: Board<C>, c: C, from: LocInfo, to: LocInfo)
    requires WellFormed(b) && Resolve(b, from) == Some(c) && Resolve(b, to).None? && Writable(to)
    ensures Conserves(b, PutAt(RemoveFrom(b, c, from), c, to.controller, to.location, to.sequence), {},
                      if IsContainer(to.location) then {} else {c}, {c})
  {
    hide SlotsPoint, PilesPoint, MaterialsPoint, OneHost, Linked, Closed, RemoveFrom, PutAt, Stays, Stripped, Loose, Resolve;
    var b1 := RemoveFrom(b, c, from);
    var r := PutAt(b1, c, to.controller, to.location, to.sequence);
    RemoveWellFormed(b, c, from);
    RemoveStrips(b, c, from);
    StrippedStays(b, b1, {c});
    LiftSlots(b, c, from);
    NobodyThere(b, to);
    PutDown(b1, c, to, {c});
    StaysTrans(b, b1, r, {c});
    ResolvedIsHeld(b, c, from);
    forall d | d != c ensures Loose(r, d) <==> Loose(b, d) { StaysHeld(b, r, {c}, d); }
  }

  lemma NobodyThere<C>(b: Board<C>, loc: LocInfo)
    requires Closed(b)
    ensures Occupant(b, loc) == if IsField(loc.location) then Resolve(b, loc) else None
  {
  }

  /** Where the same card is named twice it ends where it was, or nowhere. */
  lemma SwapWithItself<C>(b: Board<C>, loc1: LocInfo, loc2: LocInfo, c: C)
    requires WellFormed(b) && Writable(loc1) && Writable(loc2) && Resolve(b, loc1) == Some(c) && Resolve(b, loc2) == Some(c)
    ensures Conserves(b, ApplySwap(b, loc1, loc2), {}, SwapLost(b, loc1, loc2), {c})
  {
    hide SlotsPoint, PilesPoint, MaterialsPoint, OneHost, Linked, Closed, RemoveFrom, PutAt, Stays, Stripped, Loose, Resolve, ApplySwap;
    var b1 := RemoveFrom(b, c, loc1);
    RemoveWellFormed(b, c, loc1);
    RemoveStrips(b, c, loc1);
    StrippedStays(b, b1, {c});
    LiftSlots(b, c, loc1);
    RemoveLooseIdle(b1, c, loc2);
    SwapSameSteps(b, loc1, loc2, c, b1);
    SameAddress(b, loc1, loc2);
    NobodyThere(b, loc1);
    NobodyThere(b, loc2);
    PutDown(b1, c, loc2, {c});
    var b2 := PutAt(b1, c, loc2.controller, loc2.location, loc2.sequence);
    PutAtSlots(b1, c, loc2.controller, loc2.location, loc2.sequence);
    PutDown(b2, c, loc1, {c});
    var r := ApplySwap(b, loc1, loc2);
    StaysTrans(b, b1, b2, {c});
    StaysTrans(b, b2, r, {c});
    ResolvedIsHeld(b, c, loc1);
    forall d | d != c ensures Loose(r, d) <==> Loose(b, d) { StaysHeld(b, r, {c}, d); }
  }

  /** Only lifting a card of a slot or pile strands a material. */
  lemma StrandsOnlyFromContainers<C>(b: Board<C>, loc1: LocInfo, loc2: LocInfo)
    requires WellFormed(b) && Strands(b, loc1, loc2)
    ensures IsContainer(loc1.location)
  {
    hide Linked, OneHost, RefersWithin;
    var c := Resolve(b, loc1).value;
    var l := HostLocation(loc2.location);
    var spot := ResolveSpot(b, loc1);
    var k := loc2.sequence;
    if HostAt(b, loc2) != Some(c) { k :| 0 <= k < loc2.sequence && CardAt(b, loc2.controller, l, k) == Some(c); }
    if IsField(l) {
      SingleContainment(b, spot, AtSlot(Slot(loc2.controller, l, k)), c);
    } else {
      SingleContainment(b, spot, InPile(Zone(loc2.controller, l), k), c);
    }
  }

  /** Both cards of a swap lifted, as far as that goes. */
  lemma BothLifted<C>(b: Board<C>, loc1: LocInfo, loc2: LocInfo, c: C, d: C)
    requires WellFormed(b) && Resolve(b, loc1) == Some(c) && Resolve(b, loc2) == Some(d) && c != d
    ensures var b2 := RemoveFrom(RemoveFrom(b, c, loc1), d, loc2);
            && Stays(b, b2, {c, d}) && Loose(b2, c) && (Loose(b2, d) || (IsContainer(loc1.location) && IsOverlay(loc2.location)))
            && (forall s :: SlotCard(b2, s) == SlotCard(b, s) || SlotCard(b2, s) == None)
  {
    hide SlotsPoint, PilesPoint, MaterialsPoint, OneHost, Linked, Closed, RemoveFrom, Stays, Loose, Resolve, SlotCard;
    var b1 := RemoveFrom(b, c, loc1);
    var b2 := RemoveFrom(b1, d, loc2);
    RemoveWellFormed(b, c, loc1);
    RemoveStays(b, c, loc1, {c, d});
    RemoveStays(b1, d, loc2, {c, d});
    StaysTrans(b, b1, b2, {c, d});
    LooseStays(b1, c, d, loc2);
    LiftSlots(b, c, loc1);
    LiftSlots(b1, d, loc2);
    if Strands(b, loc1, loc2) { StrandsOnlyFromContainers(b, loc1, loc2); } else { SecondLifted(b, loc1, loc2); }
  }

  lemma LooseNotThere<C>(b: Board<C>, c: C)
    requires Loose(b, c)
    ensures forall s :: SlotCard(b, s) != Some(c)
  {
  }

  lemma SwapTwo<C>(b: Board<C>, loc1: LocInfo, loc2: LocInfo, c: C, d: C)
    requires WellFormed(b) && Writable(loc1) && Writable(loc2)
    requires Resolve(b, loc1) == Some(c) && Resolve(b, loc2) == Some(d) && c != d
    ensures Conserves(b, ApplySwap(b, loc1, loc2), {}, SwapLost(b, loc1, loc2), {c, d})
  {
    hide SlotsPoint, PilesPoint, MaterialsPoint, OneHost, Linked, Closed, RemoveFrom, PutAt, Stays, Loose, Resolve;
    var b2 := RemoveFrom(RemoveFrom(b, c, loc1), d, loc2);
    BothLifted(b, loc1, loc2, c, d);
    NobodyThere(b, loc1);
    NobodyThere(b, loc2);
    LooseNotThere(b2, c);
    if Loose(b2, d) { LooseNotThere(b2, d); }
    PutDown(b2, c, loc2, {c, d});
    var b3 := PutAt(b2, c, loc2.controller, loc2.location, loc2.sequence);
    PutAtSlots(b2, c, loc2.controller, loc2.location, loc2.sequence);
    PutDown(b3, d, loc1, {c, d});
    var r := ApplySwap(b, loc1, loc2);
    StaysTrans(b, b2, b3, {c, d});
    StaysTrans(b, b3, r, {c, d});
    ResolvedIsHeld(b, c, loc1);
    ResolvedIsHeld(b, d, loc2);
    forall e | e != c && e != d ensures Loose(r, e) <==> Loose(b, e) { StaysHeld(b, r, {c, d}, e); }
  }

  /** Whatever a Swap names, in order or not, it loses exactly the cards it sends to a place that is no slot and no pile. */
  lemma SwapConserves<C>(b: Board<C>, loc1: LocInfo, loc2: LocInfo)
    requires WellFormed(b) && Writable(loc1) && Writable(loc2)
    ensures Conserves(b, ApplySwap(b, loc1, loc2), {}, SwapLost(b, loc1, loc2), Of(Resolve(b, loc1)) + Of(Resolve(b, loc2)))
    ensures Held(ApplySwap(b, loc1, loc2)) == Held(b) <==>
              (Resolve(b, loc1).Some? ==> IsContainer(loc2.location)) && (Resolve(b, loc2).Some? ==> IsContainer(loc1.location))
  {
    hide SlotsPoint, PilesPoint, MaterialsPoint, OneHost, Linked, Closed, RemoveFrom, PutAt, Stays, Loose, Resolve;
    var card1, card2 := Resolve(b, loc1), Resolve(b, loc2);
    var m := Of(card1) + Of(card2);
    if card1.None? && card2.None? {
      UnchangedStays(b, m);
    } else if card2.None? {
      SwapWithNobody(b, card1.value, loc1, loc2);
      assert m == {card1.value};
    } else if card1.None? {
      SwapWithNobody(b, card2.value, loc2, loc1);
      assert m == {card2.value};
    } else if card1 == card2 {
      SwapWithItself(b, loc1, loc2, card1.value);
      assert m == {card1.value};
    } else {
      SwapTwo(b, loc1, loc2, card1.value, card2.value);
      assert m == {card1.value, card2.value};
    }
    if card1.Some? { ResolvedIsHeld(b, card1.value, loc1); }
    if card2.Some? { ResolvedIsHeld(b, card2.value, loc2); }
  }

  lemma SwapHeld<C>(b: Board<C>, loc1: LocInfo, loc2: LocInfo)
    requires WellFormed(b) && Writable(loc1) && Writable(loc2)
    ensures Held(ApplySwap(b, loc1, loc2)) == Held(b) - SwapLost(b, loc1, loc2)
  {
    hide WellFormed, Closed, Stays, Held, SwapLost, ApplySwap, Resolve, Of;
    SwapConserves(b, loc1, loc2);
  }

  // ----- The other messages -----

  lemma LeaveConserves<C>(b: Board<C>, c: C, code: int, from: LocInfo)
    requires WellFormed(b) && Resolve(b, from) == Some(c)
    ensures Conserves(b, Leave(b, c, code, from), {}, {c}, {c})
  {
    hide SlotsPoint, PilesPoint, MaterialsPoint, OneHost, Linked, Closed, RemoveFrom, ClearTargets, DetachEquips, Resolve, Stays,
         Stripped, SameShape, Loose;
    RewriteWellFormed(b, c, Recoded(b.facts[c], code));
    var b1 := WithCard(b, c, Recoded(b.facts[c], code));
    UnlinkWellFormed(b1, c);
    var b2 := DetachEquips(ClearTargets(b1, c), c);
    SameShapeTrans(b, b1, b2);
    SameShapeResolve(b, b2, from);
    SameShapeStrips(b, b2, c, from);
    StrippedStays(b, RemoveFrom(b2, c, from), {c});
  }

  lemma SameShapeTrans<C>(a: Board<C>, b: Board<C>, r: Board<C>)
    requires SameShape(a, b) && SameShape(b, r)
    ensures SameShape(a, r)
  {
  }

  lemma SameShapeConserves<C>(b: Board<C>, r: Board<C>)
    requires SameShape(b, r)
    ensures Conserves(b, r, {}, {}, {})
  {
    hide Stays, Loose;
    SameListsStay(b, r);
  }

  lemma MessageMoves<C>(b: Board<C>, code: int, from: LocInfo, to: LocInfo, spare: seq<C>)
    requires WellFormed(b) && Supplies(b, Move(code, from, to), spare)
    ensures var msg := Move(code, from, to);
            Conserves(b, ApplyMove(b, code, from, to, spare), Landed(b, msg, spare), Lost(b, msg), Touched(b, msg, spare))
  {
    hide SlotsPoint, PilesPoint, MaterialsPoint, OneHost, Linked, Closed, Resolve, Stays, Leave, Held, HasPlace, MoveLost, Occupant,
         Appear, Overlay, Shift;
    var found := Resolve(b, from);
    var msg := Move(code, from, to);
    if found.None? {
      if to.location == 0 {
        NothingToDo(b, msg, spare);
        SameListsStay(b, b);
      } else {
        AppearConserves(b, spare[0], code, to);
        assert Elements(spare) == {spare[0]};
        assert Touched(b, msg, spare) == {spare[0]} + Of(Occupant(b, to));
      }
    } else {
      var c := found.value;
      assert Elements(spare) == {};
      if to.location == 0 {
        NoOccupant(b, to);
        LeaveConserves(b, c, code, from);
        assert Touched(b, msg, spare) == {c};
      } else {
        assert spare == [];
        MoveConserves(b, code, from, to, c);
        assert Touched(b, msg, spare) == {c} + Of(Occupant(b, to));
      }
    }
  }

  lemma NoOccupant<C>(b: Board<C>, to: LocInfo)
    requires to.location == 0
    ensures Occupant(b, to).None?
  {
  }

  lemma NothingToDo<C>(b: Board<C>, msg: Message, spare: seq<C>)
    requires Supplies(b, msg, spare) && msg.Move? && Resolve(b, msg.from).None? && msg.to.location == 0
    ensures Landed(b, msg, spare) == {} && Lost(b, msg) == {} && Touched(b, msg, spare) == {}
  {
    hide Closed, Resolve;
    NoOccupant(b, msg.to);
  }

  lemma AppearConserves<C>(b: Board<C>, c: C, code: int, to: LocInfo)
    requires WellFormed(b) && c !in b.facts && Writable(to)
    ensures Conserves(b, Appear(b, c, code, to), if HasPlace(b, to) then {c} else {}, Of(Occupant(b, to)), {c} + Of(Occupant(b, to)))
  {
    hide SlotsPoint, PilesPoint, MaterialsPoint, OneHost, Linked, Closed, Stays, Held, HasPlace, Occupant, Attach, Place;
    NewCardLands(b, c, NewFacts(code, to.controller, to.location, to.sequence, to.position), to);
  }

  /** A card set where nobody is found. */
  lemma SetLands<C>(b: Board<C>, c: C, code: int, place: LocInfo)
    requires WellFormed(b) && c !in b.facts && Writable(place)
    requires CardAt(b, place.controller, place.location, place.sequence).None?
    ensures var f := NewFacts<C>(code, place.controller, place.location, place.sequence, place.position);
            Conserves(b, Place(WithCard(b, c, f), c, place), if IsContainer(place.location) then {c} else {}, {}, {c})
  {
    hide SlotsPoint, PilesPoint, MaterialsPoint, OneHost, Linked, Closed, Stays, Loose, Place, PutAt;
    var f := NewFacts<C>(code, place.controller, place.location, place.sequence, place.position);
    NewCardStays(b, c, f);
    NewCardWellFormed(b, c, f);
    var b1 := WithCard(b, c, f);
    var b2 := PlaceSplits(b1, c, place);
    SameListsStay(b1, b2);
    StaysWiden(b1, b2, {}, {c});
    PutDown(b2, c, place, {c});
    var r := Place(b1, c, place);
    StaysTrans(b, b1, b2, {c});
    StaysTrans(b, b2, r, {c});
    StaysHeld(b1, b2, {}, c);
    forall d | d != c ensures Loose(r, d) <==> Loose(b, d) { StaysHeld(b, r, {c}, d); }
    NewIsLoose(b, c);
  }

  lemma NewIsLoose<C>(b: Board<C>, c: C)
    requires Closed(b) && c !in b.facts
    ensures Loose(b, c)
  {
    assert forall h <- b.facts :: RefersWithin(b.facts[h], b.facts.Keys);
  }

  lemma SetConserves<C>(b: Board<C>, code: int, place: LocInfo, spare: seq<C>)
    requires WellFormed(b) && Supplies(b, Set(code, place), spare)
    ensures var msg := Set(code, place);
            Conserves(b, ApplySet(b, code, place, spare), Landed(b, msg, spare), Lost(b, msg), Touched(b, msg, spare))
  {
    hide SlotsPoint, PilesPoint, MaterialsPoint, OneHost, Linked, Closed, Stays, Held, Attach, CardAt, Place;
    var found := CardAt(b, place.controller, place.location, place.sequence);
    if found.None? {
      assert Elements(spare) == {spare[0]};
      SetLands(b, spare[0], code, place);
    } else {
      assert Elements(spare) == {};
      RewriteWellFormed(b, found.value, Recoded(b.facts[found.value], code).(position := place.position));
      SameShapeConserves(b, ApplySet(b, code, place, spare));
    }
  }

  // ----- Piles -----

  lemma {:induction false} ExceptAll<T>(s: seq<T>, m: set<T>)
    requires forall x <- s :: x in m
    ensures Except(s, m) == []
  {
    if s == [] {
    } else {
      assert s[0] in s;
      ExceptAll(s[1..], m);
    }
  }

  /** Cards at the end of a list make no difference if they are counted among the moved. */
  lemma ExceptTail<T>(s: seq<T>, tail: seq<T>, m: set<T>)
    requires forall x <- tail :: x in m
    ensures Except(s + tail, m) == Except(s, m)
  {
    hide Except;
    ExceptConcat(s, tail, m);
    ExceptAll(tail, m);
  }

  lemma DrawnStays<C>(b: Board<C>, r: Board<C>, player: int, rest: nat, drawn: seq<C>)
    requires Closed(b) && IsPlayer(player) && rest <= |Pile(b, player, LOCATION_DECK)|
    requires DrawnFrom(b, r, player, rest, drawn) && forall c <- Pile(b, player, LOCATION_DECK)[rest..] :: c in drawn
    ensures Stays(b, r, Elements(drawn))
  {
    var d, h := Zone(player, LOCATION_DECK), Zone(player, LOCATION_HAND);
    var m := Elements(drawn);
    assert d in b.piles && h in b.piles && Except<C>([], m) == [];
    hide Closed, Except;
    assert b.piles[d] == b.piles[d][..rest] + b.piles[d][rest..];
    ExceptTail(b.piles[d][..rest], b.piles[d][rest..], m);
    ExceptTail(b.piles[h], drawn, m);
    TwoPilesStay(b, r, d, h, m);
  }

  /** Two piles that differ only by cards of `m`, and nothing else changed. */
  lemma TwoPilesStay<C>(b: Board<C>, r: Board<C>, y: Zone, z: Zone, m: set<C>)
    requires y in b.piles && z in b.piles && y in r.piles && z in r.piles && r.piles == b.piles[y := r.piles[y]][z := r.piles[z]]
    requires Except(r.piles[y], m) == Except(b.piles[y], m) && Except(r.piles[z], m) == Except(b.piles[z], m)
    requires r.slots == b.slots && b.facts.Keys <= r.facts.Keys
    requires forall h <- r.facts :: if h in b.facts then r.facts[h].materials == b.facts[h].materials else Except(r.facts[h].materials, m) == []
    ensures Stays(b, r, m)
  {
    hide Except;
    forall x <- b.piles ensures Except(r.piles[x], m) == Except(b.piles[x], m) {
      if x != y && x != z { assert r.piles[x] == b.piles[x]; }
    }
  }

  lemma TakenElements<C>(deck: seq<C>, spare: seq<C>, n: nat)
    requires |spare| == Shortfall(n, |deck|)
    ensures forall c <- Taken(deck, spare, n) :: c in deck || c in spare
    ensures forall c <- spare :: c in Taken(deck, spare, n)
    ensures forall c <- deck[Shortfall(|deck|, n)..] :: c in Taken(deck, spare, n)
  {
    var t := Taken(deck, spare, n);
    forall c <- spare ensures c in t {
      var j :| 0 <= j < |spare| && spare[j] == c;
      assert t[|deck| + j] == c;
    }
    forall c <- deck[Shortfall(|deck|, n)..] ensures c in t {
      var i :| Shortfall(|deck|, n) <= i < |deck| && deck[i] == c;
      assert t[|deck| - 1 - i] == c;
    }
  }

  lemma ListedIsHeld<C>(b: Board<C>, z: Zone, list: seq<C>)
    requires z in b.piles && forall c <- list :: c in b.piles[z]
    ensures forall c <- list :: !Loose(b, c)
  {
  }

  lemma DrawConserves<C>(b: Board<C>, player: int, cards: seq<Drawn>, spare: seq<C>)
    requires WellFormed(b) && Supplies(b, Draw(player, cards), spare)
    ensures Conserves(b, ApplyDraw(b, player, cards, spare), Elements(spare), {}, Elements(Taken(Pile(b, player, LOCATION_DECK), spare, |cards|)))
  {
    hide Closed, SlotsPoint, PilesPoint, MaterialsPoint, OneHost, Linked, Stays, Loose, ApplyDraw, Taken, Except;
    var r := ApplyDraw(b, player, cards, spare);
    var deck := Pile(b, player, LOCATION_DECK);
    var drawn := Taken(deck, spare, |cards|);
    DrawExact(b, player, cards, spare);
    TakenElements(deck, spare, |cards|);
    DrawnStays(b, r, player, Shortfall(|deck|, |cards|), drawn);
    ListedIsHeld(r, Zone(player, LOCATION_HAND), drawn);
    assert Zone(player, LOCATION_DECK) in b.piles && Zone(player, LOCATION_HAND) in r.piles by { DeckKnown(b, player); }
    ListedIsHeld(b, Zone(player, LOCATION_DECK), deck);
    forall d | d !in drawn ensures Loose(r, d) <==> Loose(b, d) { StaysHeld(b, r, Elements(drawn), d); }
    DeckKnown(b, player);
  }

  lemma DeckKnown<C>(b: Board<C>, player: int)
    requires Closed(b) && IsPlayer(player)
    ensures Zone(player, LOCATION_DECK) in b.piles && forall c <- Pile(b, player, LOCATION_DECK) :: c in b.facts
  {
  }

  /** A pile cut to a size, or filled up with blanks. */
  lemma ResizeConserves<C>(b: Board<C>, z: Zone, size: nat, spare: seq<C>)
    requires WellFormed(b) && z in b.piles && |spare| == Shortfall(size, |b.piles[z]|)
    requires Distinct(spare) && forall c <- spare :: c !in b.facts
    ensures Conserves(b, Resize(b, z, size, spare), Elements(spare), Cut(b.piles[z], size), Cut(b.piles[z], size) + Elements(spare))
  {
    hide SlotsPoint, PilesPoint, MaterialsPoint, OneHost, Linked, RefersWithin, Conserves;
    var cut := Cut(b.piles[z], size);
    if size < |b.piles[z]| {
      CutConserves(b, z, size);
      assert Elements(spare) == {} && cut + Elements(spare) == cut;
    } else {
      FillConserves(b, z, spare);
      assert cut + Elements(spare) == Elements(spare);
    }
  }

  lemma CutConserves<C>(b: Board<C>, z: Zone, size: nat)
    requires WellFormed(b) && z in b.piles && size < |b.piles[z]|
    ensures Conserves(b, b.(piles := b.piles[z := b.piles[z][..size]]), {}, Cut(b.piles[z], size), Cut(b.piles[z], size))
  {
    hide SlotsPoint, PilesPoint, MaterialsPoint, OneHost, Linked, RefersWithin, Except, Loose, Stays;
    var r := b.(piles := b.piles[z := b.piles[z][..size]]);
    var m := Cut(b.piles[z], size);
    PilePrefixPlaced(b, z, size);
    assert b.piles[z] == b.piles[z][..size] + b.piles[z][size..];
    ExceptTail(b.piles[z][..size], b.piles[z][size..], m);
    TwoPilesStay(b, r, z, z, m);
    forall d | d !in m ensures Loose(r, d) <==> Loose(b, d) { StaysHeld(b, r, m, d); }
  }

  lemma FillConserves<C>(b: Board<C>, z: Zone, spare: seq<C>)
    requires WellFormed(b) && z in b.piles && forall c <- spare :: c !in b.facts
    ensures Conserves(b, FillBlanks(b, z, spare), Elements(spare), {}, Elements(spare))
  {
    hide SlotsPoint, PilesPoint, MaterialsPoint, OneHost, Linked, RefersWithin, Loose, Stays, Blanks;
    var r := FillBlanks(b, z, spare);
    var m := Elements(spare);
    assert Except<C>([], m) == [];
    hide Except;
    ExceptTail(b.piles[z], spare, m);
    TwoPilesStay(b, r, z, z, m);
    ListedIsHeld(r, z, spare);
    forall d | d !in m ensures Loose(r, d) <==> Loose(b, d) { StaysHeld(b, r, m, d); }
  }

  lemma ShuffleHandConserves<C>(b: Board<C>, player: int, codes: seq<int>, spare: seq<C>)
    requires WellFormed(b) && Supplies(b, ShuffleHand(player, codes), spare)
    ensures var msg := ShuffleHand(player, codes);
            Conserves(b, ApplyShuffleHand(b, player, codes, spare), Landed(b, msg, spare), Lost(b, msg), Touched(b, msg, spare))
  {
    hide SlotsPoint, PilesPoint, MaterialsPoint, OneHost, Linked, RefersWithin, Resize, Stays, Held;
    var z := Zone(player, LOCATION_HAND);
    var b1 := Resize(b, z, |codes|, spare);
    var r := ApplyShuffleHand(b, player, codes, spare);
    ResizeConserves(b, z, |codes|, spare);
    SameListsStay(b1, r);
    var m := Touched(b, ShuffleHand(player, codes), spare);
    StaysWiden(b1, r, {}, m);
    StaysTrans(b, b1, r, m);
  }

  // ----- SwapGraveDeck -----

  lemma {:induction false} SelectSplits<T>(list: seq<T>, mask: nat -> bool)
    ensures forall c <- list :: c in Select(list, mask, true) || c in Select(list, mask, false)
    decreases |list|
  {
    if list == [] {
    } else {
      SelectSplits(list[..|list| - 1], mask);
      assert list == list[..|list| - 1] + [list[|list| - 1]];
    }
  }

  lemma GraveDeckStays<C>(b: Board<C>, player: int, mask: seq<bv8>)
    requires WellFormed(b) && IsPlayer(player)
    ensures Stays(b, ApplySwapGraveDeck(b, player, mask), Elements(Pile(b, player, LOCATION_GRAVE)) + Elements(Pile(b, player, LOCATION_DECK)))
  {
    hide SlotsPoint, PilesPoint, MaterialsPoint, OneHost, Linked, RefersWithin, ApplySwapGraveDeck, Except, Select;
    var r := ApplySwapGraveDeck(b, player, mask);
    var grave, deck, extra := Pile(b, player, LOCATION_GRAVE), Pile(b, player, LOCATION_DECK), Pile(b, player, LOCATION_EXTRA);
    var m := Elements(grave) + Elements(deck);
    SwapGraveDeckExact(b, player, mask);
    SelectSubset(grave, MaskFlags(mask), true);
    SelectSubset(grave, MaskFlags(mask), false);
    ExceptAll(grave, m);
    ExceptAll(deck, m);
    ExceptAll(Select(grave, MaskFlags(mask), false), m);
    ExceptTail(extra, Select(grave, MaskFlags(mask), true), m);
    forall h <- b.facts ensures r.facts[h].materials == b.facts[h].materials { assert Kept(b.facts[h], r.facts[h]); }
    forall z <- b.piles ensures Except(r.piles[z], m) == Except(b.piles[z], m) {
      if z != Zone(player, LOCATION_GRAVE) && z != Zone(player, LOCATION_DECK) && z != Zone(player, LOCATION_EXTRA) {
        assert r.piles[z] == b.piles[z];
      }
    }
  }

  lemma GraveDeckConserves<C>(b: Board<C>, player: int, mask: seq<bv8>)
    requires WellFormed(b) && IsPlayer(player)
    ensures Conserves(b, ApplySwapGraveDeck(b, player, mask), {}, {},
                      Elements(Pile(b, player, LOCATION_GRAVE)) + Elements(Pile(b, player, LOCATION_DECK)))
  {
    hide SlotsPoint, PilesPoint, MaterialsPoint, OneHost, Linked, RefersWithin, ApplySwapGraveDeck, Except, Select, Stays, Loose;
    var r := ApplySwapGraveDeck(b, player, mask);
    var grave, deck := Pile(b, player, LOCATION_GRAVE), Pile(b, player, LOCATION_DECK);
    var m := Elements(grave) + Elements(deck);
    GraveDeckStays(b, player, mask);
    SwapGraveDeckExact(b, player, mask);
    ListedIsHeld(b, Zone(player, LOCATION_GRAVE), grave);
    ListedIsHeld(b, Zone(player, LOCATION_DECK), deck);
    ListedIsHeld(r, Zone(player, LOCATION_GRAVE), deck);
    ListedIsHeld(r, Zone(player, LOCATION_DECK), r.piles[Zone(player, LOCATION_DECK)]);
    ListedIsHeld(r, Zone(player, LOCATION_EXTRA), r.piles[Zone(player, LOCATION_EXTRA)]);
    SelectSplits(grave, MaskFlags(mask));
    forall d | d !in m ensures Loose(r, d) <==> Loose(b, d) { StaysHeld(b, r, m, d); }
  }

  // ----- ShuffleSetCard -----

  lemma ShuffleSetStays<C>(b: Board<C>, r: Board<C>, row: int)
    requires Closed(b) && Closed(r) && OnlyRow(b, r, row) && RowCards(r, row, 0) == RowCards(b, row, 0) && RowCards(r, row, 1) == RowCards(b, row, 1)
    ensures Conserves(b, r, {}, {}, RowCards(b, row, 0) + RowCards(b, row, 1))
  {
    hide Except, RefersWithin;
    var m := RowCards(b, row, 0) + RowCards(b, row, 1);
    forall s ensures Apart(SlotCard(r, s), m) == Apart(SlotCard(b, s), m) {
      if s.location == row {
        if s in b.slots { assert b.slots[s] in RowCards(b, row, s.player); }
        if s in r.slots { assert r.slots[s] in RowCards(r, row, s.player); }
      }
    }
    assert Stays(b, r, m);
    hide Stays, OnlyRow, Closed;
    forall d ensures Loose(r, d) <==> Loose(b, d) {
      if d in m { RowIsHeld(b, row, d); RowIsHeld(r, row, d); } else { StaysHeld(b, r, m, d); }
    }
  }

  lemma RowIsHeld<C>(b: Board<C>, row: int, d: C)
    ensures d in RowCards(b, row, 0) + RowCards(b, row, 1) ==> !Loose(b, d)
  {
  }

  // ----- Every message -----

  /** ShuffleSetCard is covered where it keeps the board in order after every exchange. */
  ghost predicate OneSided<C>(b: Board<C>, msg: Message)
    requires Closed(b)
  {
    msg.ShuffleSetCard? ==> SameSide(b, msg.location, msg.sources, msg.follow)
  }

  lemma NoSpare<C>(b: Board<C>, msg: Message, spare: seq<C>)
    requires Supplies(b, msg, spare) && Needed(b, msg) == 0
    ensures spare == [] && Elements(spare) == {}
  {
    hide Closed;
  }

  lemma UpdateConserves<C>(b: Board<C>, p: int, l: Location, size: nat, spare: seq<C>)
    requires WellFormed(b) && Supplies(b, UpdateData(p, l, size), spare)
    ensures var msg := UpdateData(p, l, size);
            Conserves(b, Apply(b, msg, spare), Landed(b, msg, spare), Lost(b, msg), Touched(b, msg, spare))
  {
    if IsPile(l) {
      assert Zone(p, l) in b.piles;
      hide SlotsPoint, PilesPoint, MaterialsPoint, OneHost, Linked, Closed, Conserves, Resize;
      ResizeConserves(b, Zone(p, l), size, spare);
    } else {
      hide SlotsPoint, PilesPoint, MaterialsPoint, OneHost, Linked, Closed, Stays, Held;
      NoSpare(b, UpdateData(p, l, size), spare);
      UnchangedStays(b, {});
    }
  }

  lemma ShuffleSetConserves<C>(b: Board<C>, l: Location, sources: seq<LocInfo>, follow: seq<LocInfo>)
    requires WellFormed(b) && SameSide(b, l, sources, follow) && forall to <- follow :: to.location != 0 ==> IsPlayer(to.controller)
    ensures Conserves(b, ApplyShuffleSetCard(b, l, sources, follow), {}, {}, RowCards(b, RowOf(l), 0) + RowCards(b, RowOf(l), 1))
  {
    hide SlotsPoint, PilesPoint, MaterialsPoint, OneHost, Linked, Closed, Conserves, RowCards, ApplyShuffleSetCard;
    ShuffleSetCardExact(b, l, sources, follow);
    ShuffleSetStays(b, ApplyShuffleSetCard(b, l, sources, follow), RowOf(l));
  }

  lemma RemovalConserves<C>(b: Board<C>, locations: seq<LocInfo>)
    requires WellFormed(b)
    ensures Conserves(b, ApplyRemoveCards(b, locations), {}, Fallen(b, locations, |locations|), Fallen(b, locations, |locations|))
  {
    hide SlotsPoint, PilesPoint, MaterialsPoint, OneHost, Linked, Closed, ApplyRemoveCards, Stays, Stripped, Fallen, Held;
    RemoveCardsExact(b, locations);
    StrippedStays(b, ApplyRemoveCards(b, locations), Fallen(b, locations, |locations|));
  }

  /** The messages that write on cards and links only. */
  lemma LinksConserve<C>(b: Board<C>, msg: Message)
    requires WellFormed(b) && Legal(msg) && (msg.PosChange? || msg.Equip? || msg.CardTarget? || msg.CancelTarget?)
    ensures Supplies(b, msg, []) ==> Conserves(b, Apply(b, msg, []), {}, {}, {})
  {
    hide SlotsPoint, PilesPoint, MaterialsPoint, OneHost, Linked, Closed, Resolve, CardAt, Equipped, Targeted, ClearTargets, Conserves;
    if Supplies(b, msg, []) {
      SameShapeConserves(b, b) by { SameShapeRefl(b); }
      match msg
      case PosChange(code, p, l, s, was, now) =>
        var found := CardAt(b, p, l, s);
        if found.Some? {
          ClearTargetsWellFormed(b, found.value);
          var b1 := if FaceUp(was) && FaceDown(now) then ClearTargets(b, found.value) else b;
          RewriteWellFormed(b1, found.value, Recoded(b1.facts[found.value], code).(position := now));
          SameShapeTrans(b, b1, Apply(b, msg, []));
          SameShapeConserves(b, Apply(b, msg, []));
        }
      case Equip(c, t) =>
        if Resolve(b, c).Some? && Resolve(b, t).Some? {
          EquipLinked(b, Resolve(b, c).value, Resolve(b, t).value);
          SameShapeConserves(b, Apply(b, msg, []));
        }
      case CardTarget(c, t) =>
        if Resolve(b, c).Some? && Resolve(b, t).Some? {
          TargetedLinked(b, Resolve(b, c).value, Resolve(b, t).value, true);
          SameShapeConserves(b, Apply(b, msg, []));
        }
      case CancelTarget(c, t) =>
        if Resolve(b, c).Some? && Resolve(b, t).Some? {
          TargetedLinked(b, Resolve(b, c).value, Resolve(b, t).value, false);
          SameShapeConserves(b, Apply(b, msg, []));
        }
    }
  }

  lemma SameShapeRefl<C>(b: Board<C>)
    ensures SameShape(b, b)
  {
  }

  /** Every message: on the board afterwards are the cards that were, less the lost, and the new ones that landed; who is not touched stays. */
  lemma ApplyConserves<C>(b: Board<C>, msg: Message, spare: seq<C>)
    requires WellFormed(b) && Supplies(b, msg, spare) && OneSided(b, msg)
    ensures Held(Apply(b, msg, spare)) == Held(b) + Landed(b, msg, spare) - Lost(b, msg)
    ensures Stays(b, Apply(b, msg, spare), Touched(b, msg, spare))
  {
    hide SlotsPoint, PilesPoint, MaterialsPoint, OneHost, Linked, Closed, Stays, Held, HasPlace, Fallen, MoveLost, RowCards, Cut,
         SwapLost, Taken, Resolve, Occupant, SameSide, Elements, ApplyMove, ApplyDraw, ApplySet, ApplyShuffleHand, ApplySwap,
         ApplySwapGraveDeck, ApplyShuffleSetCard, ApplyRemoveCards;
    if Needed(b, msg) == 0 { NoSpare(b, msg, spare); }
    match msg
    case Draw(p, cards) => DrawConserves(b, p, cards, spare);
    case Move(code, from, to) => MessageMoves(b, code, from, to, spare);
    case Set(code, place) => SetConserves(b, code, place, spare);
    case Swap(loc1, loc2) => SwapConserves(b, loc1, loc2);
    case UpdateData(p, l, size) => UpdateConserves(b, p, l, size, spare);
    case ShuffleHand(p, codes) => ShuffleHandConserves(b, p, codes, spare);
    case SwapGraveDeck(p, mask) => GraveDeckConserves(b, p, mask);
    case ShuffleSetCard(l, sources, follow) => ShuffleSetConserves(b, l, sources, follow);
    case RemoveCards(locations) => RemovalConserves(b, locations);
    case _ => LinksConserve(b, msg);
  }

  /** Whatever a message loses was on the board, and whatever lands is new. */
  lemma LostWasHeld<C>(b: Board<C>, msg: Message, spare: seq<C>)
    requires WellFormed(b) && Supplies(b, msg, spare)
    ensures Lost(b, msg) <= Held(b) && Landed(b, msg, spare) <= Elements(spare)
  {
    hide SlotsPoint, PilesPoint, MaterialsPoint, OneHost, Linked, Closed, Held, HasPlace, Arrives, Resolve, Occupant;
    match msg
    case Move(_, from, to) =>
      OccupantHeld(b, to);
      if Resolve(b, from).Some? { ResolvedIsHeld(b, Resolve(b, from).value, from); }
    case Swap(loc1, loc2) =>
      if Resolve(b, loc1).Some? { ResolvedIsHeld(b, Resolve(b, loc1).value, loc1); }
      if Resolve(b, loc2).Some? { ResolvedIsHeld(b, Resolve(b, loc2).value, loc2); }
    case UpdateData(p, l, size) => if IsPile(l) { CutHeld(b, p, l, size); }
    case ShuffleHand(p, codes) => CutHeld(b, p, LOCATION_HAND, |codes|);
    case RemoveCards(locations) =>
      FallenNamed(b, locations, |locations|);
      forall c <- Lost(b, msg) ensures c in Held(b) {
        var i :| 0 <= i < |locations| && Resolve(b, locations[i]) == Some(c);
        ResolvedIsHeld(b, c, locations[i]);
      }
    case _ =>
  }

  lemma CutHeld<C>(b: Board<C>, p: int, l: int, size: nat)
    requires Closed(b) && IsZone(Zone(p, l))
    ensures Cut(Pile(b, p, l), size) <= Held(b)
  {
    hide RefersWithin;
  }
}
