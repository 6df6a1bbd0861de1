/**
 The meaning of `client/ClientDuelState.java` on values: a board maps every card the client has ever
 seen to its fields, every occupied field slot to its card, and every pile to its card list.  The
 functions below are what the class in `ClientDuelState.dfy` is proved to compute in place.

 `C` is the card identity (in the class: a reference to a heap object).
 */
module DuelBoard {
  import opened Basics
  import opened Wrappers

  const LOCATION_DECK := 0x01
  const LOCATION_HAND := 0x02
  const LOCATION_MZONE := 0x04
  const LOCATION_SZONE := 0x08
  const LOCATION_GRAVE := 0x10
  const LOCATION_REMOVED := 0x20
  const LOCATION_EXTRA := 0x40
  const LOCATION_OVERLAY := 0x80
  const POS_FACEDOWN_DEFENSE := 0x8

  /** The unsigned byte messages name a place by. */
  type Location = l: int | 0 <= l < 0x100

  datatype LocInfo = LocInfo(controller: int, location: Location, sequence: int, position: int)

  datatype Zone = Zone(player: int, location: int)
  datatype Slot = Slot(player: int, location: int, sequence: int)

  /** The fields of one `ClientCard` that take part in containment and links. */
  datatype Facts<C> = Facts(
    code: int, position: int,
    controller: int, location: int, sequence: int,
    materials: seq<C>,
    equipTarget: Option<C>, equippedBy: set<C>,
    targets: set<C>, targetedBy: set<C>)

  datatype Board<C> = Board(
    facts: map<C, Facts<C>>,
    slots: map<Slot, C>,
    piles: map<Zone, seq<C>>)

  datatype Drawn = Drawn(code: int, position: int)

  datatype Message =
    | Draw(player: int, cards: seq<Drawn>)
    | Move(code: int, from: LocInfo, to: LocInfo)
    | PosChange(code: int, controller: int, location: Location, sequence: int, prevPosition: int, newPosition: int)
    | Set(code: int, place: LocInfo)
    | Swap(loc1: LocInfo, loc2: LocInfo)
    | UpdateData(player: int, location: Location, size: nat)
    | ShuffleHand(player: int, codes: seq<int>)
    | SwapGraveDeck(player: int, extraMask: seq<bv8>)
    | ShuffleSetCard(location: Location, sources: seq<LocInfo>, follow: seq<LocInfo>)
    | RemoveCards(locations: seq<LocInfo>)
    | Equip(card: LocInfo, target: LocInfo)
    | CardTarget(card: LocInfo, target: LocInfo)
    | CancelTarget(card: LocInfo, target: LocInfo)

  // ----- Bit tests on location bytes and position masks -----

  predicate IsOverlay(location: Location) { location >= LOCATION_OVERLAY }

  function HostLocation(location: Location): Location {
    if IsOverlay(location) then location - LOCATION_OVERLAY else location
  }

  predicate IsField(location: int) { location == LOCATION_MZONE || location == LOCATION_SZONE }

  function SlotCount(location: int): nat { if location == LOCATION_MZONE then 7 else 8 }

  predicate IsPile(location: int) {
    location == LOCATION_HAND || location == LOCATION_DECK || location == LOCATION_EXTRA
    || location == LOCATION_GRAVE || location == LOCATION_REMOVED
  }

  predicate IsPlayer(player: int) { player == 0 || player == 1 }

  predicate IsSlot(s: Slot) {
    IsPlayer(s.player) && IsField(s.location) && 0 <= s.sequence < SlotCount(s.location)
  }

  predicate IsZone(z: Zone) { IsPlayer(z.player) && IsPile(z.location) }

  function AllZones(): (r: set<Zone>)
    ensures forall z :: z in r <==> IsZone(z)
  {
    set p, l | p in {0, 1} && l in {LOCATION_DECK, LOCATION_HAND, LOCATION_GRAVE, LOCATION_REMOVED, LOCATION_EXTRA} :: Zone(p, l)
  }

  function AllSlots(): (r: set<Slot>)
    ensures forall s :: s in r <==> IsSlot(s)
  {
    (set p, i | p in {0, 1} && 0 <= i < 7 :: Slot(p, LOCATION_MZONE, i))
    + (set p, i | p in {0, 1} && 0 <= i < 8 :: Slot(p, LOCATION_SZONE, i))
  }

  /** Bits 0 and 2 of a 32-bit position mask. */
  predicate FaceUp(position: int) { position % 2 == 1 || position / 4 % 2 == 1 }

  /** Bits 1 and 3 of a 32-bit position mask. */
  predicate FaceDown(position: int) { position / 2 % 2 == 1 || position / 8 % 2 == 1 }

  predicate MaskBit(mask: seq<bv8>, index: nat) {
    index / 8 < |mask| && mask[index / 8] & (1 << (index % 8)) != 0
  }

  // ----- List primitives -----

  function Insert<T>(s: seq<T>, i: nat, x: T): seq<T>
    requires i <= |s|
  {
    s[..i] + [x] + s[i..]
  }

  lemma InsertElements<T>(s: seq<T>, i: nat, x: T)
    requires i <= |s|
    ensures forall y :: y in Insert(s, i, x) <==> y == x || y in s
  {
    var r := Insert(s, i, x);
    forall y <- s ensures y in r {
      var k :| 0 <= k < |s| && s[k] == y;
      assert r[if k < i then k else k + 1] == y;
    }
    assert r[i] == x;
  }

  /** `s` less the first occurrence of `x`, as a Java list removes an object. */
  function Without<T(==)>(s: seq<T>, x: T): seq<T> {
    if s == [] then []
    else if s[0] == x then s[1..]
    else [s[0]] + Without(s[1..], x)
  }

  function Elements<T(==)>(s: seq<T>): set<T> { set x | x in s }

  lemma ElementsSnoc<T>(s: seq<T>)
    requires s != []
    ensures Elements(s) == Elements(s[..|s| - 1]) + {s[|s| - 1]}
  {
    assert s == s[..|s| - 1] + [s[|s| - 1]];
  }

  /** The facts after `renumber(list)` has walked the whole list. */
  function Renumber<C(==)>(facts: map<C, Facts<C>>, list: seq<C>): (r: map<C, Facts<C>>)
    requires forall c <- list :: c in facts
    ensures r.Keys == facts.Keys
    ensures forall c <- facts :: r[c] == facts[c].(sequence := r[c].sequence)
    ensures forall c <- facts :: c !in list ==> r[c] == facts[c]
    decreases |list|
  {
    if list == [] then facts
    else
      var k := |list| - 1;
      var before := Renumber(facts, list[..k]);
      before[list[k] := before[list[k]].(sequence := k)]
  }

  /** Every card this card's fields refer to is one of `known`. */
  ghost predicate RefersWithin<C>(f: Facts<C>, known: set<C>) {
    && (forall c <- f.materials :: c in known)
    && (f.equipTarget.Some? ==> f.equipTarget.value in known)
    && f.equippedBy <= known && f.targets <= known && f.targetedBy <= known
  }

  /** Every reference on the board is to a known card; slots and piles exist where the arrays do. */
  ghost predicate Closed<C>(b: Board<C>) {
    && (forall s <- b.slots :: IsSlot(s) && b.slots[s] in b.facts)
    && (forall z :: z in b.piles <==> IsZone(z))
    && (forall z <- b.piles, c <- b.piles[z] :: c in b.facts)
    && (forall c <- b.facts :: RefersWithin(b.facts[c], b.facts.Keys))
  }

  // ----- Reading the board -----

  function SlotCard<C(==)>(b: Board<C>, s: Slot): Option<C> {
    if s in b.slots then Some(b.slots[s]) else None
  }

  /** `cardAt(player, location, sequence)` */
  function CardAt<C(==)>(b: Board<C>, player: int, location: int, sequence: int): (r: Option<C>)
    requires Closed(b)
    ensures r.Some? ==> r.value in b.facts
  {
    if IsField(location) then SlotCard(b, Slot(player, location, sequence))
    else if Zone(player, location) in b.piles && 0 <= sequence < |b.piles[Zone(player, location)]|
    then Some(b.piles[Zone(player, location)][sequence])
    else None
  }

  /** The Xyz host an overlay location names. */
  function HostAt<C(==)>(b: Board<C>, loc: LocInfo): (r: Option<C>)
    requires Closed(b)
    ensures r.Some? ==> r.value in b.facts
  {
    CardAt(b, loc.controller, HostLocation(loc.location), loc.sequence)
  }

  /** `resolveCard(loc)`, with its pile-tail fallback. */
  function Resolve<C(==)>(b: Board<C>, loc: LocInfo): (r: Option<C>)
    requires Closed(b)
    ensures r.Some? ==> r.value in b.facts
  {
    if loc.location == 0 then None
    else if IsOverlay(loc.location) then
      var host := HostAt(b, loc);
      if host.Some? && 0 <= loc.position < |b.facts[host.value].materials|
      then Some(b.facts[host.value].materials[loc.position]) else None
    else
      var z := Zone(loc.controller, loc.location);
      var exact := CardAt(b, loc.controller, loc.location, loc.sequence);
      if exact.Some? then exact
      else if z in b.piles && b.piles[z] != [] then Some(b.piles[z][|b.piles[z]| - 1])
      else None
  }

  // ----- Moving cards between containers -----

  /** Java indexes the per-player arrays with `controller` whenever the location names a container. */
  predicate Readable(controller: int, location: Location) {
    IsField(HostLocation(location)) || IsPile(HostLocation(location)) ==> IsPlayer(controller)
  }

  /** Java writes `mzone[controller][sequence]` unchecked. */
  predicate Writable(loc: LocInfo) {
    && Readable(loc.controller, loc.location)
    && (IsField(loc.location) ==> 0 <= loc.sequence < SlotCount(loc.location))
  }

  function SetPile<C(==)>(b: Board<C>, z: Zone, list: seq<C>): (r: Board<C>)
    requires Closed(b) && IsZone(z) && forall c <- list :: c in b.facts
    ensures Closed(r) && r.facts.Keys == b.facts.Keys
  {
    b.(piles := b.piles[z := list], facts := Renumber(b.facts, list))
  }

  function SetMaterials<C(==)>(b: Board<C>, host: C, list: seq<C>): (r: Board<C>)
    requires Closed(b) && host in b.facts && forall c <- list :: c in b.facts
    ensures Closed(r) && r.facts.Keys == b.facts.Keys
  {
    b.(facts := Renumber(b.facts[host := b.facts[host].(materials := list)], list))
  }

  function WithFacts<C(==)>(b: Board<C>, c: C, f: Facts<C>): Board<C> {
    b.(facts := b.facts[c := f])
  }

  lemma MovedClosed<C>(b: Board<C>, c: C, player: int, location: int, sequence: int)
    requires Closed(b) && c in b.facts
    ensures Closed(WithFacts(b, c, b.facts[c].(controller := player, location := location, sequence := sequence)))
  {
    assert RefersWithin(b.facts[c], b.facts.Keys);
    assert b.facts.Keys + {c} == b.facts.Keys;
  }

  lemma SlotFilledClosed<C>(b: Board<C>, s: Slot, c: C)
    requires Closed(b) && c in b.facts && IsSlot(s)
    ensures Closed(b.(slots := b.slots[s := c]))
  {
    hide RefersWithin, IsSlot;
  }

  lemma InsertKnown<C>(b: Board<C>, z: Zone, i: nat, c: C)
    requires Closed(b) && z in b.piles && i <= |b.piles[z]| && c in b.facts
    ensures IsZone(z) && forall d <- Insert(b.piles[z], i, c) :: d in b.facts
  {
    hide RefersWithin;
    InsertElements(b.piles[z], i, c);
  }

  function PutAt<C(==)>(b: Board<C>, c: C, player: int, location: int, sequence: int): (r: Board<C>)
    requires Closed(b) && c in b.facts && (IsField(location) ==> IsSlot(Slot(player, location, sequence)))
    ensures Closed(r) && r.facts.Keys == b.facts.Keys
    ensures forall z <- b.piles :: z != Zone(player, location) ==> r.piles[z] == b.piles[z]
    ensures r.piles.Keys == b.piles.Keys && (!IsField(location) ==> r.slots == b.slots)
  {
    hide Closed, RefersWithin, IsSlot, IsZone, Insert, IsField, Renumber;
    var z := Zone(player, location);
    var b1 := WithFacts(b, c, b.facts[c].(controller := player, location := location, sequence := sequence));
    MovedClosed(b, c, player, location, sequence);
    if IsField(location) then
      SlotFilledClosed(b1, Slot(player, location, sequence), c);
      b1.(slots := b1.slots[Slot(player, location, sequence) := c])
    else if z in b.piles then
      InsertKnown(b1, z, Clamp(sequence, 0, |b.piles[z]|), c);
      SetPile(b1, z, Insert(b.piles[z], Clamp(sequence, 0, |b.piles[z]|), c))
    else b1
  }

  function Place<C(==)>(b: Board<C>, c: C, to: LocInfo): (r: Board<C>)
    requires Closed(b) && c in b.facts && Writable(to)
    ensures Closed(r) && r.facts.Keys == b.facts.Keys
  {
    var b1 := WithFacts(b, c, b.facts[c].(position := to.position));
    PutAt(b1, c, to.controller, to.location, to.sequence)
  }

  function ClearSlot<C(==)>(b: Board<C>, c: C, player: int, location: int, sequence: int): Board<C> {
    if SlotCard(b, Slot(player, location, sequence)) == Some(c)
    then b.(slots := b.slots - {Slot(player, location, sequence)})
    else b.(slots := map s | s in b.slots && !(s.player == player && s.location == location && b.slots[s] == c) :: b.slots[s])
  }

  lemma WithoutSubset<T>(s: seq<T>, x: T)
    ensures forall y <- Without(s, x) :: y in s
  {
  }

  function Detach<C(==)>(b: Board<C>, c: C, from: LocInfo): (r: Board<C>)
    requires Closed(b)
    ensures Closed(r) && r.facts.Keys == b.facts.Keys
  {
    var host := HostAt(b, from);
    if host.Some? && c in b.facts[host.value].materials then
      WithoutSubset(b.facts[host.value].materials, c);
      SetMaterials(b, host.value, Without(b.facts[host.value].materials, c))
    else b
  }

  function Attach<C(==)>(b: Board<C>, c: C, to: LocInfo): (r: Board<C>)
    requires Closed(b) && c in b.facts
    ensures Closed(r) && r.facts.Keys == b.facts.Keys
  {
    var host := HostAt(b, to);
    if host.None? then b
    else
      var list := b.facts[host.value].materials;
      var b1 := WithFacts(b, c, b.facts[c].(controller := to.controller, location := LOCATION_OVERLAY));
      SetMaterials(b1, host.value, Insert(list, Clamp(to.position, 0, |list|), c))
  }

  function RemoveFrom<C(==)>(b: Board<C>, c: C, from: LocInfo): (r: Board<C>)
    requires Closed(b)
    ensures Closed(r) && r.facts.Keys == b.facts.Keys
  {
    var z := Zone(from.controller, from.location);
    if IsOverlay(from.location) then Detach(b, c, from)
    else if IsField(from.location) then ClearSlot(b, c, from.controller, from.location, from.sequence)
    else if z in b.piles && c in b.piles[z] then
      WithoutSubset(b.piles[z], c);
      SetPile(b, z, Without(b.piles[z], c))
    else b
  }

  // ----- Links -----

  /** One card's fields once `c` has left both ends of its target links. */
  function Untargeted<C(==)>(f: Facts<C>, c: C, out: bool, back: bool): Facts<C> {
    f.(targetedBy := if out then f.targetedBy - {c} else f.targetedBy,
       targets := if back then f.targets - {c} else f.targets)
  }

  /** No target link of `c` is left, in either direction. */
  function ClearTargets<C(==)>(b: Board<C>, c: C): (r: Board<C>)
    requires Closed(b) && c in b.facts
    ensures Closed(r) && r.facts.Keys == b.facts.Keys
  {
    var out := b.facts[c].targets;
    var back := b.facts[c].targetedBy;
    b.(facts := map d | d in b.facts ::
      if d == c then b.facts[d].(targets := {}, targetedBy := {})
      else Untargeted(b.facts[d], c, d in out, d in back))
  }

  function DetachEquipTarget<C(==)>(b: Board<C>, c: C): (r: Board<C>)
    requires Closed(b) && c in b.facts
    ensures Closed(r) && r.facts.Keys == b.facts.Keys
  {
    match b.facts[c].equipTarget
    case None => b
    case Some(t) =>
      var f := b.facts[t := b.facts[t].(equippedBy := b.facts[t].equippedBy - {c})];
      b.(facts := f[c := f[c].(equipTarget := None)])
  }

  function Unequipped<C>(f: Facts<C>, equipped: bool): Facts<C> {
    if equipped then f.(equipTarget := None) else f
  }

  function EquipsCleared<C(==)>(facts: map<C, Facts<C>>, c: C): (r: map<C, Facts<C>>)
    requires c in facts
    ensures r.Keys == facts.Keys
  {
    var equipped := facts[c].equippedBy;
    map d | d in facts ::
      if d == c then Unequipped(facts[d], d in equipped).(equippedBy := {}) else Unequipped(facts[d], d in equipped)
  }

  lemma EquipsClearedClosed<C>(b: Board<C>, c: C)
    requires Closed(b) && c in b.facts
    ensures Closed(b.(facts := EquipsCleared(b.facts, c)))
  {
    var r := b.(facts := EquipsCleared(b.facts, c));
    forall d <- r.facts ensures RefersWithin(r.facts[d], r.facts.Keys) { assert RefersWithin(b.facts[d], b.facts.Keys); }
  }

  function DetachEquips<C(==)>(b: Board<C>, c: C): (r: Board<C>)
    requires Closed(b) && c in b.facts
    ensures Closed(r) && r.facts.Keys == b.facts.Keys
  {
    hide *;
    var b1 := DetachEquipTarget(b, c);
    EquipsClearedClosed(b1, c);
    b1.(facts := EquipsCleared(b1.facts, c))
  }

  // ----- Messages -----

  function NewFacts<C>(code: int, player: int, location: int, sequence: int, position: int): Facts<C> {
    Facts(code, position, player, location, sequence, [], None, {}, {}, {})
  }

  function Recoded<C>(f: Facts<C>, code: int): Facts<C> {
    if code != 0 then f.(code := code) else f
  }

  function WithCard<C(==)>(b: Board<C>, c: C, f: Facts<C>): (r: Board<C>)
    requires Closed(b) && RefersWithin(f, b.facts.Keys + {c})
    ensures Closed(r) && r.facts.Keys == b.facts.Keys + {c}
  {
    assert forall d <- b.facts :: RefersWithin(b.facts[d], b.facts.Keys + {c});
    WithFacts(b, c, f)
  }

  /** A Move whose start finds nobody puts `c` on record and sets it down at `to`. */
  function Appear<C(==)>(b: Board<C>, c: C, code: int, to: LocInfo): (r: Board<C>)
    requires Closed(b) && Writable(to)
    ensures Closed(r) && r.facts.Keys == b.facts.Keys + {c}
  {
    var b1 := WithCard(b, c, NewFacts(code, to.controller, to.location, to.sequence, to.position));
    if IsOverlay(to.location) then Attach(b1, c, to) else Place(b1, c, to)
  }

  /** A card leaving play: every link it was part of goes with it. */
  function Leave<C(==)>(b: Board<C>, c: C, code: int, from: LocInfo): (r: Board<C>)
    requires Closed(b) && c in b.facts
    ensures Closed(r) && r.facts.Keys == b.facts.Keys
  {
    RemoveFrom(DetachEquips(ClearTargets(WithCard(b, c, Recoded(b.facts[c], code)), c), c), c, from)
  }

  /** Neither end is an overlay. */
  function Shift<C(==)>(b: Board<C>, c: C, code: int, from: LocInfo, to: LocInfo): (r: Board<C>)
    requires Closed(b) && c in b.facts && Writable(to)
    ensures Closed(r) && r.facts.Keys == b.facts.Keys
  {
    var b1 := WithCard(b, c,
      if code != 0 || to.location == LOCATION_EXTRA then b.facts[c].(code := code) else b.facts[c]);
    var b2 := if to.location != from.location then DetachEquipTarget(ClearTargets(b1, c), c) else b1;
    Place(RemoveFrom(b2, c, from), c, to)
  }

  /** `c` goes from a slot or pile under the host that `to` finds. */
  function Overlay<C(==)>(b: Board<C>, c: C, code: int, from: LocInfo, to: LocInfo): (r: Board<C>)
    requires Closed(b) && c in b.facts
    ensures Closed(r) && r.facts.Keys == b.facts.Keys
  {
    var b1 := WithCard(b, c, Recoded(b.facts[c], code));
    Attach(RemoveFrom(ClearTargets(b1, c), c, from), c, to)
  }

  lemma FewElements<C>(known: set<C>, spare: seq<C>)
    ensures spare == [] ==> known + Elements(spare) == known
    ensures |spare| == 1 ==> known + Elements(spare) == known + {spare[0]}
  {
  }

  function ApplyMove<C(==)>(b: Board<C>, code: int, from: LocInfo, to: LocInfo, spare: seq<C>): (r: Board<C>)
    requires Closed(b) && Writable(to)
    requires |spare| == if Resolve(b, from).None? && to.location != 0 then 1 else 0
    ensures Closed(r) && r.facts.Keys == b.facts.Keys + Elements(spare)
  {
    hide *;
    FewElements(b.facts.Keys, spare);
    var found := Resolve(b, from);
    if found.None? then
      if to.location == 0 then b else Appear(b, spare[0], code, to)
    else
      var c := found.value;
      if to.location == 0 then Leave(b, c, code, from)
      else if !IsOverlay(from.location) then
        if IsOverlay(to.location) then Overlay(b, c, code, from, to) else Shift(b, c, code, from, to)
      else if !IsOverlay(to.location) then Place(Detach(b, c, from), c, to)
      else Attach(Detach(b, c, from), c, to)
  }

  function Pile<C(==)>(b: Board<C>, player: int, location: int): seq<C>
    requires Closed(b) && IsZone(Zone(player, location))
  {
    b.piles[Zone(player, location)]
  }

  function Shortfall(wanted: nat, present: nat): nat { if wanted > present then wanted - present else 0 }

  /** The deck's last card, or a new blank one when the deck list is empty. */
  function TopCard<C(==)>(b: Board<C>, player: int, spare: seq<C>): (c: C)
    requires Closed(b) && IsPlayer(player)
    requires |spare| == Shortfall(1, |Pile(b, player, LOCATION_DECK)|)
    ensures c in b.facts.Keys + Elements(spare)
  {
    var deck := Pile(b, player, LOCATION_DECK);
    if deck == [] then spare[0] else deck[|deck| - 1]
  }

  /** The board once that card is off the deck list. */
  function TakeTop<C(==)>(b: Board<C>, player: int, spare: seq<C>): (r: Board<C>)
    requires Closed(b) && IsPlayer(player)
    requires |spare| == Shortfall(1, |Pile(b, player, LOCATION_DECK)|)
    ensures Closed(r) && r.facts.Keys == b.facts.Keys + Elements(spare)
    ensures |Pile(r, player, LOCATION_DECK)| == Shortfall(|Pile(b, player, LOCATION_DECK)|, 1)
  {
    var deck := Pile(b, player, LOCATION_DECK);
    if deck == [] then
      ElementsSnoc(spare);
      WithCard(b, spare[0], NewFacts(0, player, LOCATION_HAND, 0, POS_FACEDOWN_DEFENSE))
    else
      b.(piles := b.piles[Zone(player, LOCATION_DECK) := deck[..|deck| - 1]])
  }

  function DrawOne<C(==)>(b: Board<C>, player: int, code: int, spare: seq<C>): (r: Board<C>)
    requires Closed(b) && IsPlayer(player)
    requires |spare| == Shortfall(1, |Pile(b, player, LOCATION_DECK)|)
    ensures Closed(r) && r.facts.Keys == b.facts.Keys + Elements(spare)
    ensures |Pile(r, player, LOCATION_DECK)| == Shortfall(|Pile(b, player, LOCATION_DECK)|, 1)
  {
    var c := TopCard(b, player, spare);
    var b1 := TakeTop(b, player, spare);
    PutAt(WithCard(b1, c, b1.facts[c].(code := code)), c, player, LOCATION_HAND, |Pile(b, player, LOCATION_HAND)|)
  }

  /** The cards allocated for all but the last drawn card. */
  function Earlier<C>(spare: seq<C>): (r: seq<C>) {
    if spare == [] then [] else spare[..|spare| - 1]
  }

  function Latest<C>(spare: seq<C>): (r: seq<C>)
    ensures Earlier(spare) + r == spare
  {
    if spare == [] then [] else spare[|spare| - 1..]
  }

  lemma ElementsSplit<C>(known: set<C>, spare: seq<C>)
    ensures known + Elements(Earlier(spare)) + Elements(Latest(spare)) == known + Elements(spare)
  {
    assert spare == Earlier(spare) + Latest(spare);
  }

  /** How many cards the draws before the last one need, and the last one. */
  lemma SpareSplit<C>(n: nat, present: nat, spare: seq<C>)
    requires |spare| == Shortfall(n, present)
    ensures n == 0 ==> Elements(spare) == {} && Shortfall(present, n) == present
    ensures n > 0 ==> |Earlier(spare)| == Shortfall(n - 1, present) && |Latest(spare)| == Shortfall(1, Shortfall(present, n - 1))
    ensures n > 0 ==> Shortfall(Shortfall(present, n - 1), 1) == Shortfall(present, n)
  {
  }

  function DrawLoop<C(==)>(b: Board<C>, player: int, cards: seq<Drawn>, spare: seq<C>): (r: Board<C>)
    requires Closed(b) && IsPlayer(player)
    requires |spare| == Shortfall(|cards|, |Pile(b, player, LOCATION_DECK)|)
    ensures Closed(r) && r.facts.Keys == b.facts.Keys + Elements(spare)
    ensures |Pile(r, player, LOCATION_DECK)| == Shortfall(|Pile(b, player, LOCATION_DECK)|, |cards|)
    decreases |cards|
  {
    hide *;
    SpareSplit(|cards|, |Pile(b, player, LOCATION_DECK)|, spare);
    if cards == [] then b
    else
      var k := |cards| - 1;
      ElementsSplit(b.facts.Keys, spare);
      var b1 := DrawLoop(b, player, cards[..k], Earlier(spare));
      DrawOne(b1, player, cards[k].code, Latest(spare))
  }

  function ApplyDraw<C(==)>(b: Board<C>, player: int, cards: seq<Drawn>, spare: seq<C>): (r: Board<C>)
    requires Closed(b) && IsPlayer(player)
    requires |spare| == Shortfall(|cards|, |Pile(b, player, LOCATION_DECK)|)
    ensures Closed(r) && r.facts.Keys == b.facts.Keys + Elements(spare)
  {
    var b1 := DrawLoop(b, player, cards, spare);
    SetPile(b1, Zone(player, LOCATION_DECK), Pile(b1, player, LOCATION_DECK))
  }

  function ApplySet<C(==)>(b: Board<C>, code: int, place: LocInfo, spare: seq<C>): (r: Board<C>)
    requires Closed(b) && Writable(place)
    requires |spare| == if CardAt(b, place.controller, place.location, place.sequence).None? then 1 else 0
    ensures Closed(r) && r.facts.Keys == b.facts.Keys + Elements(spare)
  {
    var found := CardAt(b, place.controller, place.location, place.sequence);
    if found.None? then
      var c := spare[0];
      Place(WithCard(b, c, NewFacts(code, place.controller, place.location, place.sequence, place.position)), c, place)
    else
      WithCard(b, found.value, Recoded(b.facts[found.value], code).(position := place.position))
  }

  function ApplyPosChange<C(==)>(b: Board<C>, code: int, controller: int, location: Location, sequence: int,
                                 prevPosition: int, newPosition: int): (r: Board<C>)
    requires Closed(b)
    ensures Closed(r) && r.facts.Keys == b.facts.Keys
  {
    var found := CardAt(b, controller, location, sequence);
    if found.None? then b
    else
      var c := found.value;
      var b1 := if FaceUp(prevPosition) && FaceDown(newPosition) then ClearTargets(b, c) else b;
      WithCard(b1, c, Recoded(b1.facts[c], code).(position := newPosition))
  }

  function ApplySwap<C(==)>(b: Board<C>, loc1: LocInfo, loc2: LocInfo): (r: Board<C>)
    requires Closed(b) && Writable(loc1) && Writable(loc2)
    ensures Closed(r) && r.facts.Keys == b.facts.Keys
  {
    var card1 := Resolve(b, loc1);
    var card2 := Resolve(b, loc2);
    var b1 := if card1.Some? then RemoveFrom(b, card1.value, loc1) else b;
    var b2 := if card2.Some? then RemoveFrom(b1, card2.value, loc2) else b1;
    var b3 := if card1.Some? then PutAt(b2, card1.value, loc2.controller, loc2.location, loc2.sequence) else b2;
    if card2.Some? then PutAt(b3, card2.value, loc1.controller, loc1.location, loc1.sequence) else b3
  }

  /** The facts once blank face-down cards `spare` continue pile `z` from index `start`. */
  function Blanks<C(==)>(facts: map<C, Facts<C>>, z: Zone, start: nat, spare: seq<C>): (r: map<C, Facts<C>>)
    ensures r.Keys == facts.Keys + Elements(spare)
    ensures forall c <- facts :: c !in spare ==> r[c] == facts[c]
    ensures forall c <- spare :: r[c].materials == [] && RefersWithin(r[c], {})
    decreases |spare|
  {
    if spare == [] then facts
    else
      var k := |spare| - 1;
      ElementsSnoc(spare);
      Blanks(facts, z, start, spare[..k])
        [spare[k] := NewFacts(0, z.player, z.location, start + k, POS_FACEDOWN_DEFENSE)]
  }

  /** `fillBlanks`: appends one blank face-down card per element of `spare`. */
  function FillBlanks<C(==)>(b: Board<C>, z: Zone, spare: seq<C>): (r: Board<C>)
    requires Closed(b) && IsZone(z)
    ensures Closed(r) && r.facts.Keys == b.facts.Keys + Elements(spare)
  {
    b.(piles := b.piles[z := b.piles[z] + spare], facts := Blanks(b.facts, z, |b.piles[z]|, spare))
  }

  function Resize<C(==)>(b: Board<C>, z: Zone, size: nat, spare: seq<C>): (r: Board<C>)
    requires Closed(b) && IsZone(z) && |spare| == Shortfall(size, |b.piles[z]|)
    ensures Closed(r) && r.facts.Keys == b.facts.Keys + Elements(spare)
    ensures |r.piles[z]| == size
  {
    if size < |b.piles[z]| then b.(piles := b.piles[z := b.piles[z][..size]])
    else FillBlanks(b, z, spare)
  }

  /** Writes `codes[i]` onto `list[i]`. */
  function Recode<C(==)>(facts: map<C, Facts<C>>, list: seq<C>, codes: seq<int>): (r: map<C, Facts<C>>)
    requires |list| == |codes| && forall c <- list :: c in facts
    ensures r.Keys == facts.Keys
    ensures forall c <- facts :: r[c] == facts[c].(code := r[c].code)
    decreases |list|
  {
    if list == [] then facts
    else
      var k := |list| - 1;
      var before := Recode(facts, list[..k], codes[..k]);
      before[list[k] := before[list[k]].(code := codes[k])]
  }

  function ApplyShuffleHand<C(==)>(b: Board<C>, player: int, codes: seq<int>, spare: seq<C>): (r: Board<C>)
    requires Closed(b) && IsPlayer(player)
    requires |spare| == Shortfall(|codes|, |Pile(b, player, LOCATION_HAND)|)
    ensures Closed(r) && r.facts.Keys == b.facts.Keys + Elements(spare)
  {
    var b1 := Resize(b, Zone(player, LOCATION_HAND), |codes|, spare);
    b1.(facts := Recode(b1.facts, Pile(b1, player, LOCATION_HAND), codes))
  }

  function MaskFlags(mask: seq<bv8>): nat -> bool { (i: nat) => MaskBit(mask, i) }

  /** The cards of `list` whose mask bit equals `flagged`, in order. */
  function Select<T>(list: seq<T>, mask: nat -> bool, flagged: bool): (r: seq<T>)
    ensures |r| <= |list|
  {
    if list == [] then []
    else
      var k := |list| - 1;
      Select(list[..k], mask, flagged) + if mask(k) == flagged then [list[k]] else []
  }

  lemma {:induction false} SelectSubset<T>(list: seq<T>, mask: nat -> bool, flagged: bool)
    ensures forall c <- Select(list, mask, flagged) :: c in list
    decreases |list|
  {
    if list == [] {
    } else {
      SelectSubset(list[..|list| - 1], mask, flagged);
    }
  }

  /** One turn of the iterator: card `n` of those that came from the grave. */
  function SwapStep<C(==)>(b: Board<C>, player: int, was: seq<C>, mask: nat -> bool, n: nat): (r: Board<C>)
    requires Closed(b) && IsPlayer(player) && n < |was| && forall c <- was :: c in b.facts
    ensures Closed(r) && r.facts.Keys == b.facts.Keys
  {
    var c := was[n];
    if mask(n) then
      SelectSubset(was[..n], mask, false);
      var b1 := b.(piles := b.piles[Zone(player, LOCATION_DECK) := Select(was[..n], mask, false) + was[n + 1..]]);
      var b2 := WithCard(b1, c, b1.facts[c].(position := POS_FACEDOWN_DEFENSE));
      PutAt(b2, c, player, LOCATION_EXTRA, |Pile(b2, player, LOCATION_EXTRA)|)
    else
      WithCard(b, c, b.facts[c].(location := LOCATION_DECK, position := POS_FACEDOWN_DEFENSE))
  }

  /** The board after the iterator has passed the first `n` of the cards that came from the grave. */
  function SwapLoop<C(==)>(b: Board<C>, player: int, was: seq<C>, mask: nat -> bool, n: nat): (r: Board<C>)
    requires Closed(b) && IsPlayer(player) && n <= |was| && forall c <- was :: c in b.facts
    ensures Closed(r) && r.facts.Keys == b.facts.Keys
  {
    if n == 0 then b else SwapStep(SwapLoop(b, player, was, mask, n - 1), player, was, mask, n - 1)
  }

  /** The deck's cards, told they are in the graveyard now. */
  function Buried<C(==)>(b: Board<C>, player: int): (r: Board<C>)
    requires Closed(b) && IsPlayer(player)
    ensures Closed(r) && r.facts.Keys == b.facts.Keys
  {
    b.(facts := map c | c in b.facts ::
         if c in Pile(b, player, LOCATION_DECK) then b.facts[c].(location := LOCATION_GRAVE) else b.facts[c])
  }

  /** The two lists exchanged, with nothing renumbered yet. */
  function Traded<C(==)>(b: Board<C>, player: int): (r: Board<C>)
    requires Closed(b) && IsPlayer(player)
    ensures Closed(r) && r.facts.Keys == b.facts.Keys
  {
    b.(piles := b.piles[Zone(player, LOCATION_GRAVE) := Pile(b, player, LOCATION_DECK)]
                       [Zone(player, LOCATION_DECK) := Pile(b, player, LOCATION_GRAVE)],
       facts := Buried(b, player).facts)
  }

  /** The message up to the loop: graveyard and deck lists exchanged, the graveyard renumbered. */
  function Exchanged<C(==)>(b: Board<C>, player: int): (r: Board<C>)
    requires Closed(b) && IsPlayer(player)
    ensures Closed(r) && r.facts.Keys == b.facts.Keys
  {
    SetPile(Traded(b, player), Zone(player, LOCATION_GRAVE), Pile(b, player, LOCATION_DECK))
  }

  function ApplySwapGraveDeck<C(==)>(b: Board<C>, player: int, mask: seq<bv8>): (r: Board<C>)
    requires Closed(b) && IsPlayer(player)
    ensures Closed(r) && r.facts.Keys == b.facts.Keys
  {
    var was := Pile(b, player, LOCATION_GRAVE);
    var after := SwapLoop(Exchanged(b, player), player, was, MaskFlags(mask), |was|);
    SetPile(after, Zone(player, LOCATION_DECK), Pile(after, player, LOCATION_DECK))
  }

  lemma ExchangedClosed<C>(b: Board<C>, source: Slot, displaced: Option<C>, target: Slot, c: C)
    requires Closed(b) && IsSlot(source) && IsSlot(target) && c in b.facts && (displaced.Some? ==> displaced.value in b.facts)
    ensures Closed(b.(slots := (if displaced.Some? then b.slots[source := displaced.value] else b.slots - {source})[target := c]))
  {
    hide RefersWithin, IsSlot;
  }

  /** One step of the swap chain: `c` and whatever stands at `to` exchange their zones. */
  function Reseat<C(==)>(b: Board<C>, c: C, row: int, to: LocInfo): (r: Board<C>)
    requires Closed(b) && c in b.facts && IsField(row) && IsPlayer(to.controller)
    ensures Closed(r) && r.facts.Keys == b.facts.Keys
  {
    var previous := b.facts[c].sequence;
    if !(0 <= to.sequence < SlotCount(row)) || !(0 <= previous < SlotCount(row)) then b
    else
      var target := Slot(to.controller, row, to.sequence);
      var source := Slot(to.controller, row, previous);
      var displaced := SlotCard(b, target);
      var b2 := b.(slots := (if displaced.Some? then b.slots[source := displaced.value] else b.slots - {source})[target := c]);
      ExchangedClosed(b, source, displaced, target, c);
      var b3 := WithCard(b2, c, b2.facts[c].(sequence := to.sequence));
      if displaced.Some?
      then WithCard(b3, displaced.value, b3.facts[displaced.value].(sequence := previous))
      else b3
  }

  function RowOf(location: int): int { if location == LOCATION_MZONE then LOCATION_MZONE else LOCATION_SZONE }

  function ReseatLoop<C(==)>(b: Board<C>, row: int, shuffled: seq<Option<C>>, follow: seq<LocInfo>, n: nat): (r: Board<C>)
    requires Closed(b) && IsField(row) && n <= |follow| && n <= |shuffled|
    requires forall to <- follow :: to.location != 0 ==> IsPlayer(to.controller)
    requires forall o <- shuffled :: o.Some? ==> o.value in b.facts
    ensures Closed(r) && r.facts.Keys == b.facts.Keys
  {
    if n == 0 then b
    else
      var b1 := ReseatLoop(b, row, shuffled, follow, n - 1);
      if shuffled[n - 1].None? || follow[n - 1].location == 0 then b1
      else Reseat(b1, shuffled[n - 1].value, row, follow[n - 1])
  }

  function Shuffled<C(==)>(b: Board<C>, location: int, sources: seq<LocInfo>): (r: seq<Option<C>>)
    requires Closed(b)
    ensures |r| == |sources|
    ensures forall i :: 0 <= i < |r| ==> r[i] == CardAt(b, sources[i].controller, location, sources[i].sequence)
  {
    seq(|sources|, i requires 0 <= i < |sources| => CardAt(b, sources[i].controller, location, sources[i].sequence))
  }

  /** The codes of the cards in `shuffled` are set to zero. */
  function Forgotten<C(==)>(b: Board<C>, shuffled: seq<Option<C>>): (r: Board<C>)
    requires Closed(b)
    ensures Closed(r) && r.facts.Keys == b.facts.Keys
    ensures forall c <- b.facts :: r.facts[c] == b.facts[c].(code := r.facts[c].code)
  {
    b.(facts := map c | c in b.facts :: if Some(c) in shuffled then b.facts[c].(code := 0) else b.facts[c])
  }

  function ApplyShuffleSetCard<C(==)>(b: Board<C>, location: int, sources: seq<LocInfo>, follow: seq<LocInfo>): (r: Board<C>)
    requires Closed(b) && forall to <- follow :: to.location != 0 ==> IsPlayer(to.controller)
    ensures Closed(r) && r.facts.Keys == b.facts.Keys
  {
    var shuffled := Shuffled(b, location, sources);
    ReseatLoop(Forgotten(b, shuffled), RowOf(location), shuffled, follow, if |follow| < |shuffled| then |follow| else |shuffled|)
  }

  function RemoveLoop<C(==)>(b: Board<C>, doomed: seq<Option<C>>, locations: seq<LocInfo>, n: nat): (r: Board<C>)
    requires Closed(b) && n <= |doomed| == |locations|
    requires forall o <- doomed :: o.Some? ==> o.value in b.facts
    ensures Closed(r) && r.facts.Keys == b.facts.Keys
  {
    if n == 0 then b
    else
      var b1 := RemoveLoop(b, doomed, locations, n - 1);
      if doomed[n - 1].None? then b1
      else
        var c := doomed[n - 1].value;
        RemoveFrom(DetachEquips(ClearTargets(b1, c), c), c, locations[n - 1])
  }

  function Resolved<C(==)>(b: Board<C>, locations: seq<LocInfo>): (r: seq<Option<C>>)
    requires Closed(b)
    ensures |r| == |locations|
    ensures forall i :: 0 <= i < |r| ==> r[i] == Resolve(b, locations[i])
  {
    seq(|locations|, i requires 0 <= i < |locations| => Resolve(b, locations[i]))
  }

  function ApplyRemoveCards<C(==)>(b: Board<C>, locations: seq<LocInfo>): (r: Board<C>)
    requires Closed(b)
    ensures Closed(r) && r.facts.Keys == b.facts.Keys
  {
    RemoveLoop(b, Resolved(b, locations), locations, |locations|)
  }

  /** `c` becomes an equip of `t`, whatever it was equipped to before. */
  function Equipped<C(==)>(b: Board<C>, c: C, t: C): (r: Board<C>)
    requires Closed(b) && c in b.facts && t in b.facts
    ensures Closed(r) && r.facts.Keys == b.facts.Keys
  {
    var b1 := DetachEquipTarget(b, c);
    var b2 := WithCard(b1, c, b1.facts[c].(equipTarget := Some(t)));
    WithCard(b2, t, b2.facts[t].(equippedBy := b2.facts[t].equippedBy + {c}))
  }

  function ApplyEquip<C(==)>(b: Board<C>, card: LocInfo, target: LocInfo): (r: Board<C>)
    requires Closed(b)
    ensures Closed(r) && r.facts.Keys == b.facts.Keys
  {
    var c := Resolve(b, card);
    var t := Resolve(b, target);
    if c.None? || t.None? then b else Equipped(b, c.value, t.value)
  }

  /** The target link from `c` to `t` is made (`link`) or dropped. */
  function Targeted<C(==)>(b: Board<C>, c: C, t: C, link: bool): (r: Board<C>)
    requires Closed(b) && c in b.facts && t in b.facts
    ensures Closed(r) && r.facts.Keys == b.facts.Keys
  {
    var f := b.facts[c];
    var b1 := WithCard(b, c, f.(targets := if link then f.targets + {t} else f.targets - {t}));
    var g := b1.facts[t];
    WithCard(b1, t, g.(targetedBy := if link then g.targetedBy + {c} else g.targetedBy - {c}))
  }

  /** CardTarget (`link`) and CancelTarget (`!link`). */
  function ApplyTarget<C(==)>(b: Board<C>, card: LocInfo, target: LocInfo, link: bool): (r: Board<C>)
    requires Closed(b)
    ensures Closed(r) && r.facts.Keys == b.facts.Keys
  {
    var c := Resolve(b, card);
    var t := Resolve(b, target);
    if c.None? || t.None? then b else Targeted(b, c.value, t.value, link)
  }

  /** The indices Java would otherwise throw on. */
  ghost predicate Legal(msg: Message) {
    match msg
    case Draw(p, _) => IsPlayer(p)
    case Move(_, from, to) => Readable(from.controller, from.location) && Writable(to)
    case PosChange(_, p, l, _, _, _) => Readable(p, l)
    case Set(_, place) => Writable(place)
    case Swap(loc1, loc2) => Writable(loc1) && Writable(loc2)
    case UpdateData(p, l, _) => Readable(p, l)
    case ShuffleHand(p, _) => IsPlayer(p)
    case SwapGraveDeck(p, _) => IsPlayer(p)
    case ShuffleSetCard(l, sources, follow) =>
      && (forall s <- sources :: Readable(s.controller, l))
      && (forall to <- follow :: to.location != 0 ==> IsPlayer(to.controller))
    case RemoveCards(locations) => forall l <- locations :: Readable(l.controller, l.location)
    case Equip(c, t) => Readable(c.controller, c.location) && Readable(t.controller, t.location)
    case CardTarget(c, t) => Readable(c.controller, c.location) && Readable(t.controller, t.location)
    case CancelTarget(c, t) => Readable(c.controller, c.location) && Readable(t.controller, t.location)
  }

  /** How many new card objects the client allocates for a message. */
  ghost function Needed<C>(b: Board<C>, msg: Message): nat
    requires Closed(b) && Legal(msg)
  {
    match msg
    case Draw(p, cards) => Shortfall(|cards|, |Pile(b, p, LOCATION_DECK)|)
    case Move(_, from, to) => if Resolve(b, from).None? && to.location != 0 then 1 else 0
    case Set(_, place) => if CardAt(b, place.controller, place.location, place.sequence).None? then 1 else 0
    case UpdateData(p, l, size) => if IsPile(l) then Shortfall(size, |Pile(b, p, l)|) else 0
    case ShuffleHand(p, codes) => Shortfall(|codes|, |Pile(b, p, LOCATION_HAND)|)
    case _ => 0
  }

  ghost predicate Supplies<C>(b: Board<C>, msg: Message, spare: seq<C>) {
    && Closed(b) && Legal(msg) && |spare| == Needed(b, msg)
    && Distinct(spare) && (forall c <- spare :: c !in b.facts)
  }

  /** `applyMessage`, restricted to containers and links. */
  function Apply<C(==)>(b: Board<C>, msg: Message, spare: seq<C>): (r: Board<C>)
    requires Supplies(b, msg, spare)
    ensures Closed(r) && r.facts.Keys == b.facts.Keys + Elements(spare)
  {
    match msg
    case Draw(p, cards) => ApplyDraw(b, p, cards, spare)
    case Move(code, from, to) => ApplyMove(b, code, from, to, spare)
    case PosChange(code, p, l, s, was, now) => ApplyPosChange(b, code, p, l, s, was, now)
    case Set(code, place) => ApplySet(b, code, place, spare)
    case Swap(loc1, loc2) => ApplySwap(b, loc1, loc2)
    case UpdateData(p, l, size) => if IsPile(l) then Resize(b, Zone(p, l), size, spare) else b
    case ShuffleHand(p, codes) => ApplyShuffleHand(b, p, codes, spare)
    case SwapGraveDeck(p, mask) => ApplySwapGraveDeck(b, p, mask)
    case ShuffleSetCard(l, sources, follow) => ApplyShuffleSetCard(b, l, sources, follow)
    case RemoveCards(locations) => ApplyRemoveCards(b, locations)
    case Equip(c, t) => ApplyEquip(b, c, t)
    case CardTarget(c, t) => ApplyTarget(b, c, t, true)
    case CancelTarget(c, t) => ApplyTarget(b, c, t, false)
  }

  // ----- The opening board -----

  ghost function Empty<C>(): (b: Board<C>)
    ensures Closed(b) && b.facts.Keys == {}
  {
    Board(map[], map[], map z | z in AllZones() :: [])
  }

  /** The constructor's four `fillBlanks` calls. */
  ghost function Opening<C>(deck0: seq<C>, extra0: seq<C>, deck1: seq<C>, extra1: seq<C>): (r: Board<C>)
    ensures Closed(r) && r.facts.Keys == Elements(deck0) + Elements(extra0) + Elements(deck1) + Elements(extra1)
  {
    var b0 := FillBlanks(Empty(), Zone(0, LOCATION_DECK), deck0);
    var b1 := FillBlanks(b0, Zone(0, LOCATION_EXTRA), extra0);
    var b2 := FillBlanks(b1, Zone(1, LOCATION_DECK), deck1);
    FillBlanks(b2, Zone(1, LOCATION_EXTRA), extra1)
  }
}
