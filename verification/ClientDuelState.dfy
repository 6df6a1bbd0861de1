/**
 `client/ClientDuelState.java` and `client/ClientCard.java` as mutable objects: slot arrays, pile lists
 and link sets updated in place.  Every method is proved to take the board (`Model`) to the value that
 the function of the same name in `DuelBoard` says.
 */
module ClientDuel {
  import opened Basics
  import opened Wrappers
  import B = DuelBoard

  class ClientCard {
    var code: int
    var position: int
    var controller: int
    var location: int
    var sequence: int
    var materials: seq<ClientCard>
    var equipTarget: ClientCard?
    var equippedBy: set<ClientCard>
    var targets: set<ClientCard>
    var targetedBy: set<ClientCard>

    constructor (code: int, controller: int, location: int, sequence: int, position: int)
      ensures Facts() == B.NewFacts(code, controller, location, sequence, position)
    {
      this.code := code;
      this.controller := controller;
      this.location := location;
      this.sequence := sequence;
      this.position := position;
      materials := [];
      equipTarget := null;
      equippedBy := {};
      targets := {};
      targetedBy := {};
    }

    ghost function Facts(): B.Facts<ClientCard>
      reads this
    {
      B.Facts(code, position, controller, location, sequence, materials, Opt(equipTarget), equippedBy, targets, targetedBy)
    }
  }

  /** A nullable reference as an optional value. */
  function Opt(c: ClientCard?): Option<ClientCard> {
    if c == null then None else Some(c)
  }

  class ClientDuelState {
    const mzone: array2<ClientCard?>
    const szone: array2<ClientCard?>
    const hand: array<seq<ClientCard>>
    const deck: array<seq<ClientCard>>
    const extra: array<seq<ClientCard>>
    const grave: array<seq<ClientCard>>
    const banished: array<seq<ClientCard>>
    /** Every card object this state has ever held or linked. */
    ghost var cards: set<ClientCard>

    ghost predicate Shaped() {
      && mzone.Length0 == 2 && mzone.Length1 == 7 && szone.Length0 == 2 && szone.Length1 == 8 && mzone != szone
      && hand.Length == 2 && deck.Length == 2 && extra.Length == 2 && grave.Length == 2 && banished.Length == 2
      && hand != deck && hand != extra && hand != grave && hand != banished
      && deck != extra && deck != grave && deck != banished
      && extra != grave && extra != banished && grave != banished
    }

    ghost function Repr(): set<object>
      reads this
    {
      {this, mzone, szone, hand, deck, extra, grave, banished} + cards
    }

    function Zones(location: int): array2<ClientCard?> {
      if location == B.LOCATION_MZONE then mzone else szone
    }

    function Lists(location: int): array<seq<ClientCard>> {
      if location == B.LOCATION_HAND then hand
      else if location == B.LOCATION_DECK then deck
      else if location == B.LOCATION_EXTRA then extra
      else if location == B.LOCATION_GRAVE then grave
      else banished
    }

    ghost function Occupant(s: B.Slot): ClientCard?
      requires Shaped() && B.IsSlot(s)
      reads mzone, szone
    {
      Zones(s.location)[s.player, s.sequence]
    }

    ghost function Slots(): map<B.Slot, ClientCard>
      requires Shaped()
      reads mzone, szone
    {
      map s | s in B.AllSlots() && Occupant(s) != null :: Occupant(s)
    }

    ghost function Piles(): map<B.Zone, seq<ClientCard>>
      requires Shaped()
      reads hand, deck, extra, grave, banished
    {
      map z | z in B.AllZones() :: Lists(z.location)[z.player]
    }

    ghost function AllFacts(): (m: map<ClientCard, B.Facts<ClientCard>>)
      reads this, cards
      ensures m.Keys == cards
    {
      map c | c in cards :: c.Facts()
    }

    /** The board these objects stand for. */
    ghost function Model(): (b: B.Board<ClientCard>)
      requires Shaped()
      reads Repr()
      ensures b.facts.Keys == cards
    {
      B.Board(AllFacts(), Slots(), Piles())
    }

    ghost predicate Valid()
      reads Repr()
    {
      Shaped() && B.Closed(Model())
    }

    /** Empty arrays and lists; `Open` then deals the blanks. */
    constructor ()
      ensures Shaped() && Blank() && fresh(Repr())
    {
      mzone := new ClientCard?[2, 7]((i, j) => null);
      szone := new ClientCard?[2, 8]((i, j) => null);
      hand := new seq<ClientCard>[2](i => []);
      deck := new seq<ClientCard>[2](i => []);
      extra := new seq<ClientCard>[2](i => []);
      grave := new seq<ClientCard>[2](i => []);
      banished := new seq<ClientCard>[2](i => []);
      cards := {};
    }

    /** Nothing in any array, list or link. */
    ghost predicate Blank()
      requires Shaped()
      reads this, mzone, szone, hand, deck, extra, grave, banished
    {
      && cards == {}
      && (forall s :: B.IsSlot(s) ==> Occupant(s) == null)
      && (forall z :: B.IsZone(z) ==> Lists(z.location)[z.player] == [])
    }

    lemma Fresh()
      requires Shaped() && Blank()
      ensures Model() == B.Empty() && Valid()
    {
      assert Slots() == map[];
      assert Piles() == B.Empty<ClientCard>().piles;
    }

    // ----- How one assignment shows on the board -----

    twostate lemma OnlyCard(c: ClientCard)
      requires Shaped() && cards == old(cards) && c in cards
      requires unchanged(mzone, szone, hand, deck, extra, grave, banished, cards - {c})
      ensures Model() == B.WithFacts(old(Model()), c, c.Facts())
    {
    }

    twostate lemma OnlySlot(s: B.Slot)
      requires Shaped() && B.IsSlot(s) && cards == old(cards)
      requires unchanged(hand, deck, extra, grave, banished, cards)
      requires forall o: B.Slot :: B.IsSlot(o) && o != s ==> Occupant(o) == old(Occupant(o))
      ensures Model() == old(Model()).(slots :=
                if Occupant(s) == null then old(Model()).slots - {s} else old(Model()).slots[s := Occupant(s)])
    {
    }

    twostate lemma OnlyList(z: B.Zone)
      requires Shaped() && B.IsZone(z) && cards == old(cards)
      requires unchanged(mzone, szone, cards)
      requires forall o: B.Zone :: B.IsZone(o) && o != z ==> Lists(o.location)[o.player] == old(Lists(o.location)[o.player])
      ensures Model() == old(Model()).(piles := old(Model()).piles[z := Lists(z.location)[z.player]])
    {
    }

    // ----- Reading -----

    /** `cardAt(player, location, sequence)` */
    function CardAt(player: int, location: int, sequence: int): (r: ClientCard?)
      requires Valid() && (B.IsField(location) || B.IsPile(location) ==> B.IsPlayer(player))
      reads Repr()
      ensures Opt(r) == B.CardAt(Model(), player, location, sequence)
      ensures r != null ==> r in cards
    {
      if B.IsField(location) then
        if 0 <= sequence < Zones(location).Length1 then
          assert B.IsSlot(B.Slot(player, location, sequence));
          assert Zones(location)[player, sequence] == Occupant(B.Slot(player, location, sequence));
          Zones(location)[player, sequence]
        else
          assert B.Slot(player, location, sequence) !in Model().slots;
          null
      else if B.IsPile(location) then
        assert Model().piles[B.Zone(player, location)] == Lists(location)[player];
        if 0 <= sequence < |Lists(location)[player]| then Lists(location)[player][sequence] else null
      else null
    }

    /** The host lookup shared by the four-argument `cardAt`, `attachMaterial` and `detachMaterial`. */
    function HostAt(loc: B.LocInfo): (r: ClientCard?)
      requires Valid() && B.Readable(loc.controller, loc.location)
      reads Repr()
      ensures Opt(r) == B.HostAt(Model(), loc)
      ensures r != null ==> r in cards
    {
      CardAt(loc.controller, B.HostLocation(loc.location), loc.sequence)
    }

    function ResolveCard(loc: B.LocInfo): (r: ClientCard?)
      requires Valid() && B.Readable(loc.controller, loc.location)
      reads Repr()
      ensures Opt(r) == B.Resolve(Model(), loc)
      ensures r != null ==> r in cards
    {
      if loc.location == 0 then null
      else if B.IsOverlay(loc.location) then
        var host := HostAt(loc);
        if host != null && 0 <= loc.position < |host.materials| then
          assert Model().facts[host].materials == host.materials;
          host.materials[loc.position]
        else null
      else
        var card := CardAt(loc.controller, loc.location, loc.sequence);
        if card != null then card
        else if B.IsPile(loc.location) && Lists(loc.location)[loc.controller] != [] then
          var list := Lists(loc.location)[loc.controller];
          assert Model().piles[B.Zone(loc.controller, loc.location)] == list;
          list[|list| - 1]
        else null
    }

    lemma ListIs(z: B.Zone)
      requires Shaped() && B.IsZone(z)
      ensures z in Model().piles && Model().piles[z] == Lists(z.location)[z.player]
    {
    }

    lemma CardIs(c: ClientCard)
      requires Shaped() && c in cards
      ensures Model().facts[c] == c.Facts()
    {
    }

    /** A known card only refers to known cards. */
    lemma Refers(c: ClientCard)
      requires Valid() && c in cards
      ensures B.RefersWithin(c.Facts(), cards)
    {
      CardIs(c);
    }

    // ----- Single writes -----

    method SetSlot(s: B.Slot, card: ClientCard?)
      requires Shaped() && B.IsSlot(s)
      modifies mzone, szone
      ensures Model() == old(Model()).(slots :=
                if card == null then old(Model()).slots - {s} else old(Model()).slots[s := card])
    {
      var zones := Zones(s.location);
      zones[s.player, s.sequence] := card;
      OnlySlot(s);
    }

    method SetList(z: B.Zone, list: seq<ClientCard>)
      requires Shaped() && B.IsZone(z)
      modifies hand, deck, extra, grave, banished
      ensures Model() == old(Model()).(piles := old(Model()).piles[z := list])
    {
      var lists := Lists(z.location);
      lists[z.player] := list;
      OnlyList(z);
    }

    static lemma RenumberNone(facts: map<ClientCard, B.Facts<ClientCard>>)
      ensures B.Renumber(facts, []) == facts
    {
    }

    static lemma RenumberNext(facts: map<ClientCard, B.Facts<ClientCard>>, list: seq<ClientCard>, i: nat)
      requires i < |list| && forall c <- list :: c in facts
      ensures var before := B.Renumber(facts, list[..i]);
              B.Renumber(facts, list[..i + 1]) == before[list[i] := before[list[i]].(sequence := i)]
    {
      assert list[..i + 1][..i] == list[..i];
    }

    method Renumber(list: seq<ClientCard>)
      requires Shaped() && forall c <- list :: c in cards
      modifies cards`sequence
      ensures Shaped() && Model() == old(Model()).(facts := B.Renumber(old(Model()).facts, list))
    {
      hide AllFacts, Slots, Piles, B.Closed, B.Renumber;
      ghost var facts := Model().facts;
      RenumberNone(facts);
      for i := 0 to |list|
        invariant Model() == old(Model()).(facts := B.Renumber(facts, list[..i]))
      {
        RenumberNext(facts, list, i);
        CardIs(list[i]);
        label before:
        list[i].sequence := i;
        OnlyCard@before(list[i]);
      }
      assert list[..|list|] == list;
    }

    // ----- Containers -----

    /** Stores a list and renumbers it. */
    method StoreList(z: B.Zone, list: seq<ClientCard>)
      requires Valid() && B.IsZone(z) && forall c <- list :: c in cards
      modifies Repr()
      ensures Model() == B.SetPile(old(Model()), z, list)
      ensures Valid() && cards == old(cards)
    {
      hide AllFacts, Slots, Piles, B.Closed, B.Renumber;
      assert forall c <- list :: c in old(Model()).facts;
      SetList(z, list);
      Renumber(list);
    }

    /** Stores a host's materials and renumbers them. */
    method StoreMaterials(host: ClientCard, list: seq<ClientCard>)
      requires Valid() && host in cards && forall c <- list :: c in cards
      modifies Repr()
      ensures Model() == B.SetMaterials(old(Model()), host, list)
      ensures Valid() && cards == old(cards)
    {
      hide AllFacts, Slots, Piles, B.Closed, B.Renumber;
      assert forall c <- list :: c in old(Model()).facts;
      CardIs(host);
      host.materials := list;
      OnlyCard(host);
      Renumber(list);
    }

    method PutAt(card: ClientCard, controller: int, location: int, sequence: int)
      requires Valid() && card in cards
      requires B.IsField(location) ==> B.IsSlot(B.Slot(controller, location, sequence))
      requires B.IsPile(location) ==> B.IsPlayer(controller)
      modifies Repr()
      ensures Model() == B.PutAt(old(Model()), card, controller, location, sequence)
      ensures Valid() && cards == old(cards)
    {
      hide AllFacts, Slots, Piles, B.SetPile, B.Closed;
      Refers(card);
      CardIs(card);
      label start:
      card.controller := controller;
      card.location := location;
      card.sequence := sequence;
      OnlyCard@start(card);
      assert Model() == B.WithCard(old(Model()), card, card.Facts());
      if B.IsField(location) {
        SetSlot(B.Slot(controller, location, sequence), card);
      } else if B.IsPile(location) {
        var z := B.Zone(controller, location);
        var list := Lists(location)[controller];
        ListIs(z);
        AllKnown(z);
        B.InsertElements(list, Clamp(sequence, 0, |list|), card);
        StoreList(z, B.Insert(list, Clamp(sequence, 0, |list|), card));
      } else {
        NoSuchPile(B.Zone(controller, location));
      }
    }

    lemma NoSuchSlot(s: B.Slot)
      requires Shaped()
      ensures s in Model().slots ==> B.IsSlot(s)
    {
    }

    lemma NoSuchPile(z: B.Zone)
      requires Shaped()
      ensures z in Model().piles <==> B.IsZone(z)
    {
    }

    lemma AllKnown(z: B.Zone)
      requires Valid() && B.IsZone(z)
      ensures forall c <- Lists(z.location)[z.player] :: c in cards
    {
      ListIs(z);
    }

    method Place(card: ClientCard, to: B.LocInfo)
      requires Valid() && card in cards && B.Writable(to)
      modifies Repr()
      ensures Model() == B.Place(old(Model()), card, to)
      ensures Valid() && cards == old(cards)
    {
      hide AllFacts, Slots, Piles, B.Closed, B.PutAt;
      Refers(card);
      CardIs(card);
      card.position := to.position;
      OnlyCard(card);
      assert Model() == B.WithCard(old(Model()), card, card.Facts());
      PutAt(card, to.controller, to.location, to.sequence);
    }

    method ClearSlot(card: ClientCard, player: int, location: int, sequence: int)
      requires Valid() && B.IsField(location) && B.IsPlayer(player)
      modifies mzone, szone
      ensures Model() == B.ClearSlot(old(Model()), card, player, location, sequence)
    {
      hide AllFacts, Slots, Piles, Occupant, B.Closed, SlotsBut;
      var zones := Zones(location);
      assert forall s <- Model().slots :: B.IsSlot(s) by { assert B.Closed(Model()); forall s { NoSuchSlot(s); } }
      SlotsButNone(Model().slots, card, player, location);
      if 0 <= sequence < zones.Length1 && zones[player, sequence] == card {
        SlotIs(B.Slot(player, location, sequence));
        SetSlot(B.Slot(player, location, sequence), null);
        return;
      }
      assert B.SlotCard(Model(), B.Slot(player, location, sequence)) != Some(card) by {
        if 0 <= sequence < zones.Length1 { SlotIs(B.Slot(player, location, sequence)); } else { NoSuchSlot(B.Slot(player, location, sequence)); }
      }
      for i := 0 to zones.Length1
        invariant Model() == old(Model()).(slots := SlotsBut(old(Model()).slots, card, player, location, i))
      {
        SlotIs(B.Slot(player, location, i));
        if zones[player, i] == card {
          SetSlot(B.Slot(player, location, i), null);
        }
        SlotsButNext(old(Model()).slots, card, player, location, i);
      }
      SlotsButAll(old(Model()), card, player, location, zones.Length1);
    }

    /** `slots` once `card` has been cleared from the first `n` cells of a row. */
    static ghost function SlotsBut(slots: map<B.Slot, ClientCard>, card: ClientCard, player: int, location: int, n: nat): map<B.Slot, ClientCard> {
      map s | s in slots && !(s.player == player && s.location == location && s.sequence < n && slots[s] == card) :: slots[s]
    }

    static lemma SlotsButNone(slots: map<B.Slot, ClientCard>, card: ClientCard, player: int, location: int)
      requires forall s <- slots :: B.IsSlot(s)
      ensures SlotsBut(slots, card, player, location, 0) == slots
    {
    }

    static lemma SlotsButNext(slots: map<B.Slot, ClientCard>, card: ClientCard, player: int, location: int, n: nat)
      ensures var before := SlotsBut(slots, card, player, location, n);
              var s := B.Slot(player, location, n);
              SlotsBut(slots, card, player, location, n + 1) == if s in before && before[s] == card then before - {s} else before
    {
    }

    static lemma SlotsButAll(b: B.Board<ClientCard>, card: ClientCard, player: int, location: int, n: nat)
      requires B.Closed(b) && B.IsField(location) && n == B.SlotCount(location)
      ensures SlotsBut(b.slots, card, player, location, n)
           == map s | s in b.slots && !(s.player == player && s.location == location && b.slots[s] == card) :: b.slots[s]
    {
    }

    lemma SlotIs(s: B.Slot)
      requires Shaped() && B.IsSlot(s)
      ensures B.SlotCard(Model(), s) == Opt(Zones(s.location)[s.player, s.sequence])
    {
      assert Occupant(s) == Zones(s.location)[s.player, s.sequence];
    }

    method DetachMaterial(card: ClientCard, from: B.LocInfo)
      requires Valid() && B.Readable(from.controller, from.location)
      modifies Repr()
      ensures Model() == B.Detach(old(Model()), card, from)
      ensures Valid() && cards == old(cards)
    {
      hide AllFacts, Slots, Piles, B.Closed, B.SetMaterials;
      var host := HostAt(from);
      if host != null {
        CardIs(host);
        Refers(host);
        if card in host.materials {
          B.WithoutSubset(host.materials, card);
          StoreMaterials(host, B.Without(host.materials, card));
        }
      }
    }

    method AttachMaterial(card: ClientCard, to: B.LocInfo)
      requires Valid() && card in cards && B.Readable(to.controller, to.location)
      modifies Repr()
      ensures Model() == B.Attach(old(Model()), card, to)
      ensures Valid() && cards == old(cards)
    {
      hide AllFacts, Slots, Piles, B.SetMaterials, B.Closed;
      var host := HostAt(to);
      if host != null {
        var list := host.materials;
        CardIs(host);
        Refers(host);
        B.InsertElements(list, Clamp(to.position, 0, |list|), card);
        CardIs(card);
        Refers(card);
        label start:
        card.controller := to.controller;
        card.location := B.LOCATION_OVERLAY;
        OnlyCard@start(card);
        assert Model() == B.WithCard(old(Model()), card, card.Facts());
        StoreMaterials(host, B.Insert(list, Clamp(to.position, 0, |list|), card));
      }
    }

    method RemoveFrom(card: ClientCard, from: B.LocInfo)
      requires Valid() && B.Readable(from.controller, from.location)
      modifies Repr()
      ensures Model() == B.RemoveFrom(old(Model()), card, from)
      ensures Valid() && cards == old(cards)
    {
      hide AllFacts, Slots, Piles, B.SetPile, B.Detach, B.ClearSlot, B.Closed;
      NoSuchPile(B.Zone(from.controller, from.location));
      if B.IsOverlay(from.location) {
        DetachMaterial(card, from);
      } else if B.IsField(from.location) {
        ClearSlot(card, from.controller, from.location, from.sequence);
      } else if B.IsPile(from.location) {
        var z := B.Zone(from.controller, from.location);
        var list := Lists(from.location)[from.controller];
        ListIs(z);
        AllKnown(z);
        if card in list {
          B.WithoutSubset(list, card);
          StoreList(z, B.Without(list, card));
        }
      }
    }

    // ----- Links -----

    /** The facts once `card` has left `targetedBy` of `out` and `targets` of `back`. */
    static ghost function Unpointed(facts: map<ClientCard, B.Facts<ClientCard>>, card: ClientCard,
                                    out: set<ClientCard>, back: set<ClientCard>): map<ClientCard, B.Facts<ClientCard>> {
      map d | d in facts :: B.Untargeted(facts[d], card, d in out, d in back)
    }

    static lemma UnpointedNone(facts: map<ClientCard, B.Facts<ClientCard>>, card: ClientCard)
      ensures Unpointed(facts, card, {}, {}) == facts
    {
    }

    static lemma UnpointedOut(facts: map<ClientCard, B.Facts<ClientCard>>, card: ClientCard, out: set<ClientCard>, t: ClientCard)
      requires t in facts && t !in out
      ensures var f := Unpointed(facts, card, out, {});
              Unpointed(facts, card, out + {t}, {}) == f[t := f[t].(targetedBy := f[t].targetedBy - {card})]
    {
    }

    static lemma UnpointedBack(facts: map<ClientCard, B.Facts<ClientCard>>, card: ClientCard,
                               out: set<ClientCard>, back: set<ClientCard>, t: ClientCard)
      requires t in facts && t !in back
      ensures var f := Unpointed(facts, card, out, back);
              Unpointed(facts, card, out, back + {t}) == f[t := f[t].(targets := f[t].targets - {card})]
    {
    }

    /** Both loops and the final clearing, put together. */
    static lemma UnpointedAll(b: B.Board<ClientCard>, card: ClientCard, back: set<ClientCard>)
      requires B.Closed(b) && card in b.facts
      requires back == b.facts[card].targetedBy || back == b.facts[card].targetedBy - {card}
      ensures var f := Unpointed(b.facts, card, b.facts[card].targets, back);
              card in f && B.ClearTargets(b, card) == b.(facts := f[card := f[card].(targets := {}, targetedBy := {})])
    {
      var f := Unpointed(b.facts, card, b.facts[card].targets, back);
      assert B.ClearTargets(b, card).facts == f[card := f[card].(targets := {}, targetedBy := {})];
    }

    method ClearTargets(card: ClientCard)
      requires Valid() && card in cards
      modifies Repr()
      ensures Model() == B.ClearTargets(old(Model()), card)
      ensures Valid() && cards == old(cards)
    {
      hide AllFacts, Slots, Piles, B.Closed, Unpointed, B.ClearTargets;
      CardIs(card);
      Refers(card);
      ghost var facts := Model().facts;
      ghost var out := card.targets;
      var rest := card.targets;
      UnpointedNone(facts, card);
      assert out - rest == {};
      while rest != {}
        invariant rest <= out <= cards == old(cards) && card.targets == out
        invariant Model() == old(Model()).(facts := Unpointed(facts, card, out - rest, {}))
        invariant card.targetedBy == old(card.targetedBy) || card.targetedBy == old(card.targetedBy) - {card}
      {
        var target :| target in rest;
        CardIs(target);
        UnpointedOut(facts, card, out - rest, target);
        label step:
        target.targetedBy := target.targetedBy - {card};
        OnlyCard@step(target);
        assert out - (rest - {target}) == out - rest + {target};
        rest := rest - {target};
      }
      assert out - rest == out;
      ghost var back := card.targetedBy;
      LeaveSources(card, facts, out);
      UnpointedAll(old(Model()), card, back);
      CardIs(card);
      label last:
      card.targets := {};
      card.targetedBy := {};
      OnlyCard@last(card);
    }

    /** The cards that target `card` do so no more. */
    method LeaveSources(card: ClientCard, ghost facts: map<ClientCard, B.Facts<ClientCard>>, ghost out: set<ClientCard>)
      requires Shaped() && card in cards && card.targetedBy <= cards == facts.Keys && Model().facts == Unpointed(facts, card, out, {})
      modifies Repr()
      ensures Shaped() && cards == old(cards)
      ensures Model() == old(Model()).(facts := Unpointed(facts, card, out, old(card.targetedBy)))
    {
      hide AllFacts, Slots, Piles, B.Closed, Unpointed;
      ghost var back := card.targetedBy;
      var rest := card.targetedBy;
      assert back - rest == {};
      while rest != {}
        invariant rest <= back <= cards == old(cards)
        invariant Model() == old(Model()).(facts := Unpointed(facts, card, out, back - rest))
      {
        var source :| source in rest;
        CardIs(source);
        UnpointedBack(facts, card, out, back - rest, source);
        label step:
        source.targets := source.targets - {card};
        OnlyCard@step(source);
        assert back - (rest - {source}) == back - rest + {source};
        rest := rest - {source};
      }
      assert back - rest == back;
    }

    method DetachEquipTarget(card: ClientCard)
      requires Valid() && card in cards
      modifies Repr()
      ensures Model() == B.DetachEquipTarget(old(Model()), card)
      ensures Valid() && cards == old(cards)
    {
      hide AllFacts, Slots, Piles, B.Closed;
      CardIs(card);
      Refers(card);
      if card.equipTarget == null { return; }
      var target := card.equipTarget;
      CardIs(target);
      target.equippedBy := target.equippedBy - {card};
      OnlyCard(target);
      CardIs(card);
      label second:
      card.equipTarget := null;
      OnlyCard@second(card);
    }

    static ghost function AllUnequipped(facts: map<ClientCard, B.Facts<ClientCard>>, equipped: set<ClientCard>): map<ClientCard, B.Facts<ClientCard>> {
      map d | d in facts :: B.Unequipped(facts[d], d in equipped)
    }

    static lemma UnequippedNone(facts: map<ClientCard, B.Facts<ClientCard>>)
      ensures AllUnequipped(facts, {}) == facts
    {
    }

    static lemma UnequippedNext(facts: map<ClientCard, B.Facts<ClientCard>>, equipped: set<ClientCard>, d: ClientCard)
      requires d in facts
      ensures var f := AllUnequipped(facts, equipped);
              AllUnequipped(facts, equipped + {d}) == f[d := f[d].(equipTarget := None)]
    {
    }

    static lemma UnequippedAll(b: B.Board<ClientCard>, card: ClientCard)
      requires B.Closed(b) && card in b.facts
      ensures var b1 := B.DetachEquipTarget(b, card);
              var f := AllUnequipped(b1.facts, b1.facts[card].equippedBy);
              card in f && B.DetachEquips(b, card) == b1.(facts := f[card := f[card].(equippedBy := {})])
    {
      var b1 := B.DetachEquipTarget(b, card);
      var f := AllUnequipped(b1.facts, b1.facts[card].equippedBy);
      assert B.DetachEquips(b, card).facts == f[card := f[card].(equippedBy := {})];
    }

    method DetachEquips(card: ClientCard)
      requires Valid() && card in cards
      modifies Repr()
      ensures Model() == B.DetachEquips(old(Model()), card)
      ensures Valid() && cards == old(cards)
    {
      hide AllFacts, Slots, Piles, B.Closed, AllUnequipped, B.DetachEquips, B.DetachEquipTarget;
      DetachEquipTarget(card);
      UnequippedAll(old(Model()), card);
      ghost var b1 := Model();
      CardIs(card);
      Refers(card);
      ghost var equipped := card.equippedBy;
      var rest := card.equippedBy;
      UnequippedNone(b1.facts);
      assert equipped - rest == {};
      while rest != {}
        invariant rest <= equipped <= cards == old(cards) && card.equippedBy == equipped
        invariant Model() == b1.(facts := AllUnequipped(b1.facts, equipped - rest))
      {
        var d :| d in rest;
        CardIs(d);
        UnequippedNext(b1.facts, equipped - rest, d);
        label step:
        d.equipTarget := null;
        OnlyCard@step(d);
        assert equipped - (rest - {d}) == equipped - rest + {d};
        rest := rest - {d};
      }
      assert equipped - {} == equipped;
      CardIs(card);
      label last:
      card.equippedBy := {};
      OnlyCard@last(card);
    }

    // ----- Messages -----

    /** Allocates a card object; it is in no container yet. */
    method NewCard(code: int, player: int, location: int, sequence: int, position: int) returns (c: ClientCard)
      requires Valid()
      modifies this`cards
      ensures fresh(c) && cards == old(cards) + {c} && c !in old(cards)
      ensures Model() == B.WithCard(old(Model()), c, B.NewFacts(code, player, location, sequence, position))
      ensures Valid()
    {
      hide Slots, Piles, B.Closed;
      c := new ClientCard(code, player, location, sequence, position);
      cards := cards + {c};
      assert AllFacts() == old(AllFacts())[c := c.Facts()];
    }

    method SetCode(card: ClientCard, code: int)
      requires Valid() && card in cards
      modifies card`code
      ensures Model() == B.WithCard(old(Model()), card, old(Model()).facts[card].(code := code))
      ensures Valid() && cards == old(cards)
    {
      hide AllFacts, Slots, Piles, B.Closed;
      CardIs(card);
      Refers(card);
      card.code := code;
      OnlyCard(card);
    }

    method SetPosition(card: ClientCard, position: int)
      requires Valid() && card in cards
      modifies card`position
      ensures Model() == B.WithCard(old(Model()), card, old(Model()).facts[card].(position := position))
      ensures Valid() && cards == old(cards)
    {
      hide AllFacts, Slots, Piles, B.Closed;
      CardIs(card);
      Refers(card);
      card.position := position;
      OnlyCard(card);
    }

    /** Writes the code a message tells; zero tells none. */
    method Recode(card: ClientCard, code: int)
      requires Valid() && card in cards
      modifies card`code
      ensures Model() == B.WithCard(old(Model()), card, B.Recoded(old(Model()).facts[card], code))
      ensures Valid() && cards == old(cards)
    {
      hide AllFacts, Slots, Piles, B.Closed;
      if code != 0 {
        SetCode(card, code);
      } else {
        Rewritten(Model(), card);
      }
    }

    /** Storing what is already there changes nothing. */
    static lemma Rewritten(b: B.Board<ClientCard>, c: ClientCard)
      requires B.Closed(b) && c in b.facts
      ensures B.RefersWithin(b.facts[c], b.facts.Keys + {c}) && B.WithCard(b, c, b.facts[c]) == b
    {
      assert b.facts[c := b.facts[c]] == b.facts;
    }

    method ApplyMove(code: int, from: B.LocInfo, to: B.LocInfo) returns (ghost spare: seq<ClientCard>)
      requires Valid() && B.Readable(from.controller, from.location) && B.Writable(to)
      modifies Repr()
      ensures |spare| == if B.Resolve(old(Model()), from).None? && to.location != 0 then 1 else 0
      ensures Model() == B.ApplyMove(old(Model()), code, from, to, spare)
      ensures Valid() && cards == old(cards) + B.Elements(spare) && fresh(B.Elements(spare))
    {
      hide AllFacts, Slots, Piles, B.Closed, B.Resolve, B.ClearTargets, B.DetachEquips, B.DetachEquipTarget, B.RemoveFrom, B.Attach, B.Place, B.Detach;
      var card := ResolveCard(from);
      spare := [];
      if card == null {
        if to.location == 0 { return; }
        var appeared := NewCard(code, to.controller, to.location, to.sequence, to.position);
        spare := [appeared];
        if B.IsOverlay(to.location) { AttachMaterial(appeared, to); } else { Place(appeared, to); }
      } else if to.location == 0 {
        Recode(card, code);
        ClearTargets(card);
        DetachEquips(card);
        RemoveFrom(card, from);
      } else if !B.IsOverlay(from.location) && !B.IsOverlay(to.location) {
        MoveBetween(card, code, from, to);
      } else if !B.IsOverlay(from.location) {
        Recode(card, code);
        ClearTargets(card);
        RemoveFrom(card, from);
        AttachMaterial(card, to);
      } else if !B.IsOverlay(to.location) {
        DetachMaterial(card, from);
        Place(card, to);
      } else {
        DetachMaterial(card, from);
        AttachMaterial(card, to);
      }
    }

    /** The branch of `applyMove` in which neither end is an overlay. */
    method MoveBetween(card: ClientCard, code: int, from: B.LocInfo, to: B.LocInfo)
      requires Valid() && card in cards && B.Readable(from.controller, from.location) && B.Writable(to)
      modifies Repr()
      ensures Model() == B.Shift(old(Model()), card, code, from, to)
      ensures Valid() && cards == old(cards)
    {
      hide AllFacts, Slots, Piles, B.Closed, B.ClearTargets, B.DetachEquipTarget, B.RemoveFrom, B.Place;
      if code != 0 || to.location == B.LOCATION_EXTRA {
        SetCode(card, code);
      } else {
        Rewritten(Model(), card);
      }
      if to.location != from.location {
        ClearTargets(card);
        DetachEquipTarget(card);
      }
      RemoveFrom(card, from);
      Place(card, to);
    }

    method DrawOne(player: int, code: int) returns (ghost spare: seq<ClientCard>)
      requires Valid() && B.IsPlayer(player)
      modifies Repr()
      ensures |spare| == B.Shortfall(1, |B.Pile(old(Model()), player, B.LOCATION_DECK)|)
      ensures Model() == B.DrawOne(old(Model()), player, code, spare)
      ensures Valid() && cards == old(cards) + B.Elements(spare) && fresh(B.Elements(spare))
      ensures forall c <- spare :: c !in old(cards)
    {
      hide AllFacts, Slots, Piles, B.Closed, B.PutAt;
      var z := B.Zone(player, B.LOCATION_DECK);
      ListIs(z);
      ListIs(B.Zone(player, B.LOCATION_HAND));
      var n := |deck[player]|;
      var size := |hand[player]|;
      var card;
      spare := [];
      if n == 0 {
        card := NewCard(0, player, B.LOCATION_HAND, 0, B.POS_FACEDOWN_DEFENSE);
        spare := [card];
      } else {
        card := deck[player][n - 1];
        AllKnown(z);
        SetList(z, deck[player][..n - 1]);
      }
      assert Model() == B.TakeTop(old(Model()), player, spare);
      assert card == B.TopCard(old(Model()), player, spare);
      SetCode(card, code);
      PutAt(card, player, B.LOCATION_HAND, size);
    }

    static lemma EarlierLatest(spare: seq<ClientCard>, more: seq<ClientCard>, i: nat, present: nat)
      requires |spare| == B.Shortfall(i, present) && |spare + more| == B.Shortfall(i + 1, present)
      ensures B.Earlier(spare + more) == spare && B.Latest(spare + more) == more
    {
      if more == [] { assert spare == []; } else { assert (spare + more)[..|spare|] == spare; }
    }

    lemma SpareGrows(spare: seq<ClientCard>, more: seq<ClientCard>, i: nat, present: nat)
      requires |spare| == B.Shortfall(i, present) && |more| == B.Shortfall(1, B.Shortfall(present, i))
      ensures |spare + more| == B.Shortfall(i + 1, present)
      ensures B.Earlier(spare + more) == spare && B.Latest(spare + more) == more
      ensures B.Elements(spare + more) == B.Elements(spare) + B.Elements(more)
    {
      if more == [] { assert spare == []; } else { assert (spare + more)[..|spare|] == spare; }
    }

    static lemma DrawLoopNone(b: B.Board<ClientCard>, player: int)
      requires B.Closed(b) && B.IsPlayer(player)
      ensures B.DrawLoop(b, player, [], []) == b
    {
    }

    static lemma DrawLoopNext(b: B.Board<ClientCard>, player: int, drawn: seq<B.Drawn>, i: nat,
                              spare: seq<ClientCard>, more: seq<ClientCard>)
      requires B.Closed(b) && B.IsPlayer(player) && i < |drawn|
      requires |spare| == B.Shortfall(i, |B.Pile(b, player, B.LOCATION_DECK)|)
      requires |more| == B.Shortfall(1, |B.Pile(B.DrawLoop(b, player, drawn[..i], spare), player, B.LOCATION_DECK)|)
      requires |spare + more| == B.Shortfall(i + 1, |B.Pile(b, player, B.LOCATION_DECK)|)
      ensures B.DrawLoop(b, player, drawn[..i + 1], spare + more)
           == B.DrawOne(B.DrawLoop(b, player, drawn[..i], spare), player, drawn[i].code, more)
    {
      hide B.Closed, B.DrawOne, B.Pile, B.Elements;
      assert drawn[..i + 1][..i] == drawn[..i];
      EarlierLatest(spare, more, i, |B.Pile(b, player, B.LOCATION_DECK)|);
    }

    /** One round of the draw loop: the hand after `i` draws from `start` becomes the hand after `i + 1`. */
    method DrawNext(player: int, drawn: seq<B.Drawn>, i: nat, ghost start: B.Board<ClientCard>, ghost spare: seq<ClientCard>)
      returns (ghost next: seq<ClientCard>)
      requires Valid() && B.IsPlayer(player) && i < |drawn| && B.Closed(start) && B.Elements(spare) <= cards
      requires |spare| == B.Shortfall(i, |B.Pile(start, player, B.LOCATION_DECK)|) && Distinct(spare)
      requires Model() == B.DrawLoop(start, player, drawn[..i], spare)
      modifies Repr()
      ensures |next| == B.Shortfall(i + 1, |B.Pile(start, player, B.LOCATION_DECK)|) && Distinct(next)
      ensures Model() == B.DrawLoop(start, player, drawn[..i + 1], next)
      ensures Valid() && cards == old(cards) + B.Elements(next)
      ensures B.Elements(spare) <= B.Elements(next) && fresh(B.Elements(next) - B.Elements(spare))
    {
      hide AllFacts, Slots, Piles, Model, Valid, Repr, B.Closed, B.DrawOne, B.Pile, B.DrawLoop, Distinct;
      ghost var more := DrawOne(player, drawn[i].code);
      next := spare + more;
      SpareGrows(spare, more, i, |B.Pile(start, player, B.LOCATION_DECK)|);
      DrawLoopNext(start, player, drawn, i, spare, more);
      DistinctGrows(spare, more);
    }

    method DrawCards(player: int, drawn: seq<B.Drawn>) returns (ghost spare: seq<ClientCard>)
      requires Valid() && B.IsPlayer(player)
      modifies Repr()
      ensures |spare| == B.Shortfall(|drawn|, |B.Pile(old(Model()), player, B.LOCATION_DECK)|) && Distinct(spare)
      ensures Model() == B.DrawLoop(old(Model()), player, drawn, spare)
      ensures Valid() && cards == old(cards) + B.Elements(spare) && fresh(B.Elements(spare))
    {
      hide AllFacts, Slots, Piles, Model, B.Closed, B.DrawOne, B.Pile, B.DrawLoop, Distinct;
      DrawLoopNone(Model(), player);
      ghost var start := Model();
      spare := [];
      NoneDistinct();
      for i := 0 to |drawn|
        invariant |spare| == B.Shortfall(i, |B.Pile(start, player, B.LOCATION_DECK)|) && Distinct(spare)
        invariant Model() == B.DrawLoop(start, player, drawn[..i], spare)
        invariant Valid() && cards == old(cards) + B.Elements(spare) && fresh(B.Elements(spare))
      {
        spare := DrawNext(player, drawn, i, start, spare);
      }
      assert drawn[..|drawn|] == drawn;
    }

    static lemma NoneDistinct()
      ensures Distinct<ClientCard>([])
    {
    }

    static lemma DistinctGrows(spare: seq<ClientCard>, more: seq<ClientCard>)
      requires Distinct(spare) && |more| <= 1 && forall c <- more :: c !in spare
      ensures Distinct(spare + more)
    {
      var s := spare + more;
      forall i, j | 0 <= i < j < |s| ensures s[i] != s[j] {
        assert s[i] == spare[i];
        if j < |spare| { assert s[j] == spare[j]; } else { assert s[j] == more[j - |spare|] && spare[i] in spare; }
      }
    }

    method Draw(player: int, drawn: seq<B.Drawn>) returns (ghost spare: seq<ClientCard>)
      requires Valid() && B.IsPlayer(player)
      modifies Repr()
      ensures |spare| == B.Shortfall(|drawn|, |B.Pile(old(Model()), player, B.LOCATION_DECK)|) && Distinct(spare)
      ensures Model() == B.ApplyDraw(old(Model()), player, drawn, spare)
      ensures Valid() && cards == old(cards) + B.Elements(spare) && fresh(B.Elements(spare))
    {
      hide AllFacts, Slots, Piles, B.Closed, B.DrawLoop, B.SetPile;
      spare := DrawCards(player, drawn);
      var z := B.Zone(player, B.LOCATION_DECK);
      ListIs(z);
      AllKnown(z);
      StoreList(z, deck[player]);
    }

    method ApplySet(code: int, place: B.LocInfo) returns (ghost spare: seq<ClientCard>)
      requires Valid() && B.Writable(place)
      modifies Repr()
      ensures |spare| == if B.CardAt(old(Model()), place.controller, place.location, place.sequence).None? then 1 else 0
      ensures Model() == B.ApplySet(old(Model()), code, place, spare)
      ensures Valid() && cards == old(cards) + B.Elements(spare) && fresh(B.Elements(spare))
    {
      hide AllFacts, Slots, Piles, B.Closed, B.CardAt, B.Place;
      var card := CardAt(place.controller, place.location, place.sequence);
      spare := [];
      if card == null {
        var made := NewCard(code, place.controller, place.location, place.sequence, place.position);
        spare := [made];
        Place(made, place);
      } else {
        Recode(card, code);
        SetPosition(card, place.position);
        Rewrites(old(Model()), card, code, place.position);
      }
    }

    static lemma Rewrites(b: B.Board<ClientCard>, c: ClientCard, code: int, position: int)
      requires B.Closed(b) && c in b.facts
      ensures B.RefersWithin(B.Recoded(b.facts[c], code), b.facts.Keys + {c})
      ensures B.RefersWithin(B.Recoded(b.facts[c], code).(position := position), b.facts.Keys + {c})
      ensures B.WithCard(B.WithCard(b, c, B.Recoded(b.facts[c], code)), c, B.Recoded(b.facts[c], code).(position := position))
           == B.WithCard(b, c, B.Recoded(b.facts[c], code).(position := position))
    {
      var f := B.Recoded(b.facts[c], code);
      assert B.RefersWithin(b.facts[c], b.facts.Keys);
      assert b.facts[c := f][c := f.(position := position)] == b.facts[c := f.(position := position)];
    }

    method ApplyPosChange(code: int, controller: int, location: B.Location, sequence: int, prevPosition: int, newPosition: int)
      requires Valid() && B.Readable(controller, location)
      modifies Repr()
      ensures Model() == B.ApplyPosChange(old(Model()), code, controller, location, sequence, prevPosition, newPosition)
      ensures Valid() && cards == old(cards)
    {
      hide AllFacts, Slots, Piles, B.Closed, B.CardAt, B.ClearTargets, B.FaceUp, B.FaceDown;
      var card := CardAt(controller, location, sequence);
      if card != null {
        if B.FaceUp(prevPosition) && B.FaceDown(newPosition) { ClearTargets(card); }
        ghost var b1 := Model();
        Recode(card, code);
        SetPosition(card, newPosition);
        Rewrites(b1, card, code, newPosition);
      }
    }

    method SwapCards(loc1: B.LocInfo, loc2: B.LocInfo)
      requires Valid() && B.Writable(loc1) && B.Writable(loc2)
      modifies Repr()
      ensures Model() == B.ApplySwap(old(Model()), loc1, loc2)
      ensures Valid() && cards == old(cards)
    {
      hide AllFacts, Slots, Piles, B.Closed, B.Resolve, B.RemoveFrom, B.PutAt;
      var card1 := ResolveCard(loc1);
      var card2 := ResolveCard(loc2);
      if card1 != null { RemoveFrom(card1, loc1); }
      if card2 != null { RemoveFrom(card2, loc2); }
      if card1 != null { PutAt(card1, loc2.controller, loc2.location, loc2.sequence); }
      if card2 != null { PutAt(card2, loc1.controller, loc1.location, loc1.sequence); }
    }

    method FillBlanks(z: B.Zone, count: nat) returns (ghost spare: seq<ClientCard>)
      requires Valid() && B.IsZone(z)
      modifies Repr()
      ensures |spare| == count && Distinct(spare)
      ensures Model() == B.FillBlanks(old(Model()), z, spare)
      ensures Valid() && cards == old(cards) + B.Elements(spare) && fresh(B.Elements(spare))
      ensures B.Elements(spare) !! old(cards)
    {
      hide AllFacts, Slots, Piles, B.Closed, B.Blanks;
      ListIs(z);
      spare := [];
      assert Model().piles[z] + [] == Model().piles[z];
      for i := 0 to count
        invariant |spare| == i && Distinct(spare)
        invariant Model() == B.FillBlanks(old(Model()), z, spare)
        invariant Valid() && cards == old(cards) + B.Elements(spare) && fresh(B.Elements(spare))
        invariant B.Elements(spare) !! old(cards)
      {
        ListIs(z);
        var size := |Lists(z.location)[z.player]|;
        var made := NewCard(0, z.player, z.location, size, B.POS_FACEDOWN_DEFENSE);
        ListIs(z);
        SetList(z, Lists(z.location)[z.player] + [made]);
        NoSuchPile(z);
        BlanksNext(old(Model()), z, spare, made);
        ElementsNext(spare, made);
        spare := spare + [made];
      }
    }

    static lemma BlankFactsNext(facts: map<ClientCard, B.Facts<ClientCard>>, z: B.Zone, start: nat, spare: seq<ClientCard>, made: ClientCard)
      ensures B.Blanks(facts, z, start, spare + [made])
           == B.Blanks(facts, z, start, spare)[made := B.NewFacts(0, z.player, z.location, start + |spare|, B.POS_FACEDOWN_DEFENSE)]
    {
      hide B.Elements, B.RefersWithin;
      assert (spare + [made])[..|spare|] == spare;
    }

    static lemma ElementsNext(spare: seq<ClientCard>, made: ClientCard)
      ensures B.Elements(spare + [made]) == B.Elements(spare) + {made}
    {
    }

    static lemma BlankPilesNext(piles: map<B.Zone, seq<ClientCard>>, z: B.Zone, spare: seq<ClientCard>, made: ClientCard)
      requires z in piles
      ensures piles[z := piles[z] + spare][z := piles[z] + spare + [made]] == piles[z := piles[z] + (spare + [made])]
    {
      assert piles[z] + spare + [made] == piles[z] + (spare + [made]);
    }

    static lemma BlanksNext(b: B.Board<ClientCard>, z: B.Zone, spare: seq<ClientCard>, made: ClientCard)
      requires B.Closed(b) && B.IsZone(z) && z in b.piles && B.Closed(B.FillBlanks(b, z, spare))
      ensures var r := B.FillBlanks(b, z, spare);
              var t := B.WithCard(r, made, B.NewFacts(0, z.player, z.location, |r.piles[z]|, B.POS_FACEDOWN_DEFENSE));
              B.FillBlanks(b, z, spare + [made]) == t.(piles := t.piles[z := t.piles[z] + [made]])
    {
      hide B.Closed, B.Blanks, B.Elements;
      BlankFactsNext(b.facts, z, |b.piles[z]|, spare, made);
      BlankPilesNext(b.piles, z, spare, made);
    }

    method Resize(z: B.Zone, size: nat) returns (ghost spare: seq<ClientCard>)
      requires Valid() && B.IsZone(z)
      modifies Repr()
      ensures z in old(Model()).piles && |spare| == B.Shortfall(size, |old(Model()).piles[z]|) && Distinct(spare)
      ensures Model() == B.Resize(old(Model()), z, size, spare)
      ensures |Lists(z.location)[z.player]| == size
      ensures Valid() && cards == old(cards) + B.Elements(spare) && fresh(B.Elements(spare))
    {
      hide AllFacts, Slots, Piles, B.Closed, B.FillBlanks;
      ListIs(z);
      AllKnown(z);
      ghost var start := Lists(z.location)[z.player];
      assert start[..|start|] == start;
      while |Lists(z.location)[z.player]| > size
        invariant size <= |start| ==> size <= |Lists(z.location)[z.player]| <= |start|
        invariant size >= |start| ==> |Lists(z.location)[z.player]| == |start|
        invariant Lists(z.location)[z.player] == start[..|Lists(z.location)[z.player]|]
        invariant Model() == old(Model()).(piles := old(Model()).piles[z := Lists(z.location)[z.player]])
        invariant cards == old(cards) && Valid()
        decreases |Lists(z.location)[z.player]|
      {
        var list := Lists(z.location)[z.player];
        SetList(z, list[..|list| - 1]);
        ListIs(z);
        StillClosed(old(Model()), z, list[..|list| - 1]);
      }
      var short := B.Shortfall(size, |Lists(z.location)[z.player]|);
      if |start| > size {
        spare := [];
        NoBlanks(Model(), z);
      } else {
        Same(old(Model()), z);
      }
      spare := FillBlanks(z, short);
      ListIs(z);
    }

    static lemma StillClosed(b: B.Board<ClientCard>, z: B.Zone, list: seq<ClientCard>)
      requires B.Closed(b) && z in b.piles && forall c <- list :: c in b.facts
      ensures B.Closed(b.(piles := b.piles[z := list]))
    {
    }

    static lemma NoBlanks(b: B.Board<ClientCard>, z: B.Zone)
      requires B.Closed(b) && z in b.piles && B.IsZone(z)
      ensures B.FillBlanks(b, z, []) == b
    {
      assert b.piles[z] + [] == b.piles[z];
      Same(b, z);
    }

    static lemma Same(b: B.Board<ClientCard>, z: B.Zone)
      requires z in b.piles
      ensures b.(piles := b.piles[z := b.piles[z]]) == b
    {
      assert b.piles[z := b.piles[z]] == b.piles;
    }

    static lemma RecodeNone(facts: map<ClientCard, B.Facts<ClientCard>>)
      ensures B.Recode(facts, [], []) == facts
    {
    }

    static lemma RecodeNext(facts: map<ClientCard, B.Facts<ClientCard>>, list: seq<ClientCard>, codes: seq<int>, i: nat)
      requires |list| == |codes| && i < |list| && forall c <- list :: c in facts
      ensures var before := B.Recode(facts, list[..i], codes[..i]);
              B.Recode(facts, list[..i + 1], codes[..i + 1]) == before[list[i] := before[list[i]].(code := codes[i])]
    {
      assert list[..i + 1][..i] == list[..i] && codes[..i + 1][..i] == codes[..i];
    }

    /** Gives the `i`-th listed card the `i`-th code. */
    method RecodeAll(list: seq<ClientCard>, codes: seq<int>)
      requires Valid() && |list| == |codes| && forall c <- list :: c in cards
      modifies cards`code
      ensures Model() == old(Model()).(facts := B.Recode(old(Model()).facts, list, codes))
    {
      hide AllFacts, Slots, Piles, B.Closed, B.Recode;
      ghost var facts := Model().facts;
      RecodeNone(facts);
      for i := 0 to |list|
        invariant Model() == old(Model()).(facts := B.Recode(facts, list[..i], codes[..i]))
      {
        RecodeNext(facts, list, codes, i);
        CardIs(list[i]);
        label step:
        list[i].code := codes[i];
        OnlyCard@step(list[i]);
      }
      assert list[..|list|] == list && codes[..|list|] == codes;
    }

    method ShuffleHand(player: int, codes: seq<int>) returns (ghost spare: seq<ClientCard>)
      requires Valid() && B.IsPlayer(player)
      modifies Repr()
      ensures |spare| == B.Shortfall(|codes|, |B.Pile(old(Model()), player, B.LOCATION_HAND)|) && Distinct(spare)
      ensures Model() == B.ApplyShuffleHand(old(Model()), player, codes, spare)
      ensures Valid() && cards == old(cards) + B.Elements(spare) && fresh(B.Elements(spare))
    {
      hide AllFacts, Slots, Piles, B.Closed, B.Resize, B.Recode;
      var z := B.Zone(player, B.LOCATION_HAND);
      spare := Resize(z, |codes|);
      ListIs(z);
      AllKnown(z);
      RecodeAll(hand[player], codes);
    }

    method ApplyEquip(cardLoc: B.LocInfo, targetLoc: B.LocInfo)
      requires Valid() && B.Readable(cardLoc.controller, cardLoc.location) && B.Readable(targetLoc.controller, targetLoc.location)
      modifies Repr()
      ensures Model() == B.ApplyEquip(old(Model()), cardLoc, targetLoc)
      ensures Valid() && cards == old(cards)
    {
      hide AllFacts, Slots, Piles, B.Closed, B.Resolve, B.DetachEquipTarget;
      var card := ResolveCard(cardLoc);
      var target := ResolveCard(targetLoc);
      if card != null && target != null {
        DetachEquipTarget(card);
        CardIs(card);
        label first:
        card.equipTarget := target;
        OnlyCard@first(card);
        CardIs(target);
        label second:
        target.equippedBy := target.equippedBy + {card};
        OnlyCard@second(target);
      }
    }

    method ApplyTarget(cardLoc: B.LocInfo, targetLoc: B.LocInfo, link: bool)
      requires Valid() && B.Readable(cardLoc.controller, cardLoc.location) && B.Readable(targetLoc.controller, targetLoc.location)
      modifies Repr()
      ensures Model() == B.ApplyTarget(old(Model()), cardLoc, targetLoc, link)
      ensures Valid() && cards == old(cards)
    {
      hide AllFacts, Slots, Piles, B.Closed, B.Resolve;
      var card := ResolveCard(cardLoc);
      var target := ResolveCard(targetLoc);
      if card != null && target != null {
        CardIs(card);
        label first:
        card.targets := if link then card.targets + {target} else card.targets - {target};
        OnlyCard@first(card);
        CardIs(target);
        label second:
        target.targetedBy := if link then target.targetedBy + {card} else target.targetedBy - {card};
        OnlyCard@second(target);
      }
    }

    /** All entries are looked up before anything is removed. */
    method Doomed(locations: seq<B.LocInfo>) returns (doomed: seq<ClientCard?>)
      requires Valid() && forall l <- locations :: B.Readable(l.controller, l.location)
      ensures |doomed| == |locations| && forall c <- doomed :: c != null ==> c in cards
      ensures forall j :: 0 <= j < |doomed| ==> Opt(doomed[j]) == B.Resolved(Model(), locations)[j]
    {
      hide AllFacts, Slots, Piles, B.Closed, B.Resolve;
      doomed := [];
      for i := 0 to |locations|
        invariant |doomed| == i && forall c <- doomed :: c != null ==> c in cards
        invariant forall j :: 0 <= j < i ==> Opt(doomed[j]) == B.Resolved(Model(), locations)[j]
      {
        doomed := doomed + [ResolveCard(locations[i])];
      }
    }

    method ApplyRemoveCards(locations: seq<B.LocInfo>)
      requires Valid() && forall l <- locations :: B.Readable(l.controller, l.location)
      modifies Repr()
      ensures Model() == B.ApplyRemoveCards(old(Model()), locations)
      ensures Valid() && cards == old(cards)
    {
      hide AllFacts, Slots, Piles, B.Closed, B.Resolve, B.ClearTargets, B.DetachEquips, B.RemoveFrom;
      ghost var resolved := B.Resolved(Model(), locations);
      var doomed := Doomed(locations);
      for i := 0 to |locations|
        invariant cards == old(cards) && Valid()
        invariant Model() == B.RemoveLoop(old(Model()), resolved, locations, i)
      {
        var card := doomed[i];
        assert Opt(card) == resolved[i];
        if card != null {
          ClearTargets(card);
          DetachEquips(card);
          RemoveFrom(card, locations[i]);
        }
      }
    }

    // ----- SwapGraveDeck -----

    static ghost function Buried(facts: map<ClientCard, B.Facts<ClientCard>>, list: seq<ClientCard>): map<ClientCard, B.Facts<ClientCard>> {
      map c | c in facts :: if c in list then facts[c].(location := B.LOCATION_GRAVE) else facts[c]
    }

    static lemma BuriedNext(facts: map<ClientCard, B.Facts<ClientCard>>, list: seq<ClientCard>, i: nat)
      requires i < |list| && list[i] in facts
      ensures var f := Buried(facts, list[..i]);
              Buried(facts, list[..i + 1]) == f[list[i] := f[list[i]].(location := B.LOCATION_GRAVE)]
    {
      assert list[..i + 1] == list[..i] + [list[i]];
    }

    static lemma BuriedNone(facts: map<ClientCard, B.Facts<ClientCard>>)
      ensures Buried(facts, []) == facts
    {
    }

    /** Marks every listed card as lying in the graveyard. */
    method Bury(list: seq<ClientCard>)
      requires Shaped() && forall c <- list :: c in cards
      modifies cards`location
      ensures Model() == old(Model()).(facts := Buried(old(Model()).facts, list))
    {
      hide AllFacts, Slots, Piles, Buried;
      BuriedNone(Model().facts);
      for i := 0 to |list|
        invariant Model() == old(Model()).(facts := Buried(old(Model()).facts, list[..i]))
      {
        BuriedNext(old(Model()).facts, list, i);
        CardIs(list[i]);
        label step:
        list[i].location := B.LOCATION_GRAVE;
        OnlyCard@step(list[i]);
      }
      assert list[..|list|] == list;
    }

    /** The deck list while the iterator is before index `n` of the cards that came from the grave. */
    static ghost function DeckAt(was: seq<ClientCard>, mask: nat -> bool, n: nat): seq<ClientCard>
      requires n <= |was|
    {
      B.Select(was[..n], mask, false) + was[n..]
    }

    static lemma DeckAtNext(was: seq<ClientCard>, mask: nat -> bool, n: nat)
      requires n < |was|
      ensures var i := |B.Select(was[..n], mask, false)|;
              && DeckAt(was, mask, n)[i] == was[n]
              && (mask(n) ==> DeckAt(was, mask, n + 1) == DeckAt(was, mask, n)[..i] + DeckAt(was, mask, n)[i + 1..]
                              && |B.Select(was[..n + 1], mask, false)| == i)
              && (!mask(n) ==> DeckAt(was, mask, n + 1) == DeckAt(was, mask, n) && |B.Select(was[..n + 1], mask, false)| == i + 1)
    {
      assert was[..n + 1][..n] == was[..n];
      assert was[n..] == [was[n]] + was[n + 1..];
    }

    method SwapStep(player: int, ghost was: seq<ClientCard>, flagged: bool, ghost mask: nat -> bool, ghost n: nat, i: nat)
      requires Valid() && B.IsPlayer(player) && n < |was| && (forall c <- was :: c in cards) && flagged == mask(n)
      requires deck[player] == DeckAt(was, mask, n) && i == |B.Select(was[..n], mask, false)|
      modifies Repr()
      ensures Model() == B.SwapStep(old(Model()), player, was, mask, n)
      ensures Valid() && cards == old(cards) && deck[player] == DeckAt(was, mask, n + 1)
    {
      hide AllFacts, Slots, Piles, B.Closed, B.Select, B.PutAt, DeckAt;
      DeckAtNext(was, mask, n);
      assert i < |deck[player]| by { assert deck[player] == DeckAt(was, mask, n); DeckAtLength(was, mask, n); }
      var card := deck[player][i];
      var z := B.Zone(player, B.LOCATION_DECK);
      ListIs(z);
      AllKnown(z);
      if flagged {
        SetList(z, deck[player][..i] + deck[player][i + 1..]);
        FlaggedDeck(was, mask, n);
        B.SelectSubset(was[..n], mask, false);
        StillClosed(old(Model()), z, DeckAt(was, mask, n + 1));
        SetPosition(card, B.POS_FACEDOWN_DEFENSE);
        ListIs(B.Zone(player, B.LOCATION_EXTRA));
        ListIs(z);
        PutAt(card, player, B.LOCATION_EXTRA, |extra[player]|);
        ListIs(z);
      } else {
        CardIs(card);
        Refers(card);
        label first:
        card.location := B.LOCATION_DECK;
        card.position := B.POS_FACEDOWN_DEFENSE;
        OnlyCard@first(card);
      }
    }

    static lemma DeckAtLength(was: seq<ClientCard>, mask: nat -> bool, n: nat)
      requires n < |was|
      ensures |B.Select(was[..n], mask, false)| < |DeckAt(was, mask, n)|
    {
    }

    static lemma FlaggedDeck(was: seq<ClientCard>, mask: nat -> bool, n: nat)
      requires n < |was| && mask(n)
      ensures DeckAt(was, mask, n + 1) == B.Select(was[..n], mask, false) + was[n + 1..]
      ensures forall c <- DeckAt(was, mask, n + 1) :: c in was
    {
      assert was[..n + 1][..n] == was[..n];
      B.SelectSubset(was[..n], mask, false);
    }

    /** The message up to the iterator loop. */
    method Exchange(player: int)
      requires Valid() && B.IsPlayer(player)
      modifies Repr()
      ensures Model() == B.Exchanged(old(Model()), player)
      ensures Valid() && cards == old(cards) && deck[player] == old(grave[player])
    {
      hide AllFacts, Slots, Piles, B.Closed, B.Renumber;
      var g := B.Zone(player, B.LOCATION_GRAVE);
      var d := B.Zone(player, B.LOCATION_DECK);
      ListIs(g);
      ListIs(d);
      AllKnown(d);
      var wasGrave := grave[player];
      var wasDeck := deck[player];
      SetList(g, wasDeck);
      SetList(d, wasGrave);
      Bury(wasDeck);
      assert Model() == B.Traded(old(Model()), player);
      ListIs(g);
      StoreList(g, wasDeck);
      ListIs(d);
    }

    method ApplySwapGraveDeck(player: int, mask: seq<bv8>)
      requires Valid() && B.IsPlayer(player)
      modifies Repr()
      ensures Model() == B.ApplySwapGraveDeck(old(Model()), player, mask)
      ensures Valid() && cards == old(cards)
    {
      hide AllFacts, Slots, Piles, B.Closed, B.SetPile, B.Select, B.MaskBit, DeckAt, B.SwapStep, B.Exchanged;
      var g := B.Zone(player, B.LOCATION_GRAVE);
      var d := B.Zone(player, B.LOCATION_DECK);
      ListIs(g);
      AllKnown(g);
      ghost var was := grave[player];
      var size := |grave[player]|;
      ghost var flags := B.MaskFlags(mask);
      Exchange(player);
      ghost var start := Model();
      DeckAtStart(was, flags);
      var i := 0;
      for index := 0 to size
        invariant Valid() && cards == old(cards)
        invariant deck[player] == DeckAt(was, flags, index) && i == |B.Select(was[..index], flags, false)|
        invariant Model() == B.SwapLoop(start, player, was, flags, index)
      {
        var flagged := B.MaskBit(mask, index);
        DeckAtNext(was, flags, index);
        SwapStep(player, was, flagged, flags, index, i);
        if !flagged { i := i + 1; }
      }
      ListIs(d);
      AllKnown(d);
      StoreList(d, deck[player]);
    }

    static lemma DeckAtStart(was: seq<ClientCard>, mask: nat -> bool)
      ensures DeckAt(was, mask, 0) == was && |B.Select(was[..0], mask, false)| == 0
    {
      assert was[..0] == [];
    }

    // ----- ShuffleSetCard -----

    method Forget(shuffled: seq<ClientCard?>)
      requires Valid() && forall c <- shuffled :: c != null ==> c in cards
      modifies cards`code
      ensures Model() == B.Forgotten(old(Model()), Options(shuffled))
      ensures Valid()
    {
      hide AllFacts, Slots, Piles, B.Closed, B.Forgotten;
      ForgottenNone(Model());
      for i := 0 to |shuffled|
        invariant Model() == B.Forgotten(old(Model()), Options(shuffled[..i]))
      {
        ForgottenNext(old(Model()), shuffled, i);
        if shuffled[i] != null {
          CardIs(shuffled[i]);
          label step:
          shuffled[i].code := 0;
          OnlyCard@step(shuffled[i]);
        }
      }
      assert shuffled[..|shuffled|] == shuffled;
    }

    static ghost function Options(list: seq<ClientCard?>): (r: seq<Option<ClientCard>>)
      ensures |r| == |list| && forall i :: 0 <= i < |r| ==> r[i] == Opt(list[i])
    {
      seq(|list|, i requires 0 <= i < |list| => Opt(list[i]))
    }

    static lemma ForgottenNone(b: B.Board<ClientCard>)
      requires B.Closed(b)
      ensures B.Forgotten(b, Options([])) == b
    {
      assert B.Forgotten(b, Options([])).facts == b.facts;
    }

    static lemma ForgottenNext(b: B.Board<ClientCard>, shuffled: seq<ClientCard?>, i: nat)
      requires B.Closed(b) && i < |shuffled| && (shuffled[i] != null ==> shuffled[i] in b.facts)
      ensures var r := B.Forgotten(b, Options(shuffled[..i]));
              B.Forgotten(b, Options(shuffled[..i + 1])) ==
                if shuffled[i] == null then r
                else B.WithFacts(r, shuffled[i], r.facts[shuffled[i]].(code := 0))
    {
      hide B.Closed;
      var before, after := Options(shuffled[..i]), Options(shuffled[..i + 1]);
      forall c: ClientCard | c in b.facts ensures Some(c) in after <==> Some(c) in before || shuffled[i] == c {
        if Some(c) in after { var j :| 0 <= j < |after| && after[j] == Some(c); if j < i { assert before[j] == Some(c); } }
        if Some(c) in before { var j :| 0 <= j < |before| && before[j] == Some(c); assert after[j] == Some(c); }
        if shuffled[i] == c { assert after[i] == Some(c); }
      }
      var r := B.Forgotten(b, Options(shuffled[..i]));
      assert B.Forgotten(b, after).facts == if shuffled[i] == null then r.facts else r.facts[shuffled[i] := r.facts[shuffled[i]].(code := 0)];
    }

    method Reseat(card: ClientCard, row: int, to: B.LocInfo)
      requires Valid() && card in cards && B.IsField(row) && B.IsPlayer(to.controller)
      modifies Repr()
      ensures Model() == B.Reseat(old(Model()), card, row, to)
      ensures Valid() && cards == old(cards)
    {
      hide AllFacts, Slots, Piles, B.Closed;
      CardIs(card);
      Refers(card);
      var zone := Zones(row);
      var previous := card.sequence;
      if !(0 <= to.sequence < zone.Length1) || !(0 <= previous < zone.Length1) { return; }
      var target := B.Slot(to.controller, row, to.sequence);
      var source := B.Slot(to.controller, row, previous);
      SlotIs(target);
      var displaced := zone[to.controller, to.sequence];
      assert displaced != null ==> displaced in cards by { Occupied(target); }
      SetSlot(source, displaced);
      SetSlot(target, card);
      CardIs(card);
      label third:
      card.sequence := to.sequence;
      OnlyCard@third(card);
      if displaced != null {
        CardIs(displaced);
        label fourth:
        displaced.sequence := previous;
        OnlyCard@fourth(displaced);
      }
    }

    lemma Occupied(s: B.Slot)
      requires Valid() && B.IsSlot(s)
      ensures Zones(s.location)[s.player, s.sequence] != null ==> Zones(s.location)[s.player, s.sequence] in cards
    {
      SlotIs(s);
    }

    /** The cards now standing in the named zones. */
    method FindAll(location: B.Location, sources: seq<B.LocInfo>) returns (shuffled: seq<ClientCard?>)
      requires Valid() && forall s <- sources :: B.Readable(s.controller, location)
      ensures Options(shuffled) == B.Shuffled(Model(), location, sources)
      ensures forall c <- shuffled :: c != null ==> c in cards
    {
      hide AllFacts, Slots, Piles, Model, B.Closed, B.CardAt;
      shuffled := [];
      for i := 0 to |sources|
        invariant |shuffled| == i
        invariant forall j :: 0 <= j < i ==> Opt(shuffled[j]) == B.CardAt(Model(), sources[j].controller, location, sources[j].sequence)
        invariant forall c <- shuffled :: c != null ==> c in cards
      {
        assert B.Readable(sources[i].controller, location);
        shuffled := shuffled + [CardAt(sources[i].controller, location, sources[i].sequence)];
      }
    }

    static lemma ReseatNone(b: B.Board<ClientCard>, row: int, found: seq<Option<ClientCard>>, follow: seq<B.LocInfo>)
      requires B.Closed(b) && B.IsField(row) && forall to <- follow :: to.location != 0 ==> B.IsPlayer(to.controller)
      requires forall o <- found :: o.Some? ==> o.value in b.facts
      ensures B.ReseatLoop(b, row, found, follow, 0) == b
    {
      hide B.Closed, B.Reseat;
    }

    static lemma ReseatNext(b: B.Board<ClientCard>, row: int, found: seq<Option<ClientCard>>, follow: seq<B.LocInfo>, i: nat)
      requires B.Closed(b) && B.IsField(row) && i < |follow| && i < |found|
      requires forall to <- follow :: to.location != 0 ==> B.IsPlayer(to.controller)
      requires forall o <- found :: o.Some? ==> o.value in b.facts
      ensures var before := B.ReseatLoop(b, row, found, follow, i);
              B.ReseatLoop(b, row, found, follow, i + 1) ==
                if found[i].None? || follow[i].location == 0 then before else B.Reseat(before, found[i].value, row, follow[i])
    {
      hide B.Closed, B.Reseat;
    }

    method ApplyShuffleSetCard(location: B.Location, sources: seq<B.LocInfo>, follow: seq<B.LocInfo>)
      requires Valid() && forall s <- sources :: B.Readable(s.controller, location)
      requires forall to <- follow :: to.location != 0 ==> B.IsPlayer(to.controller)
      modifies Repr()
      ensures Model() == B.ApplyShuffleSetCard(old(Model()), location, sources, follow)
      ensures Valid() && cards == old(cards)
    {
      hide AllFacts, Slots, Piles, B.Closed, B.CardAt, B.Reseat, B.Forgotten, B.ReseatLoop;
      var row := if location == B.LOCATION_MZONE then B.LOCATION_MZONE else B.LOCATION_SZONE;
      var shuffled := FindAll(location, sources);
      ghost var found := B.Shuffled(Model(), location, sources);
      Forget(shuffled);
      ghost var start := Model();
      ReseatNone(start, row, found, follow);
      for i := 0 to if |follow| < |shuffled| then |follow| else |shuffled|
        invariant Valid() && cards == old(cards)
        invariant Model() == B.ReseatLoop(start, row, found, follow, i)
      {
        assert Opt(shuffled[i]) == found[i];
        ReseatNext(start, row, found, follow, i);
        if shuffled[i] != null && follow[i].location != 0 {
          Reseat(shuffled[i], row, follow[i]);
        }
      }
    }

    /** `applyMessage`, restricted to containers and links. */
    method ApplyMessage(msg: B.Message) returns (ghost spare: seq<ClientCard>)
      requires Valid() && B.Legal(msg)
      modifies Repr()
      ensures B.Supplies(old(Model()), msg, spare)
      ensures Model() == B.Apply(old(Model()), msg, spare)
      ensures Valid() && cards == old(cards) + B.Elements(spare) && fresh(B.Elements(spare))
    {
      hide AllFacts, Slots, Piles, B.Closed, B.Resolve, B.CardAt, B.Resize, B.ApplyDraw, B.ApplyMove, B.ApplyPosChange, B.ApplySet,
        B.ApplySwap, B.ApplyShuffleHand, B.ApplySwapGraveDeck, B.ApplyShuffleSetCard, B.ApplyRemoveCards, B.ApplyEquip, B.ApplyTarget;
      spare := [];
      match msg
      case Draw(p, drawn) => spare := Draw(p, drawn);
      case Move(code, from, to) => spare := ApplyMove(code, from, to);
      case PosChange(code, p, l, s, was, now) => ApplyPosChange(code, p, l, s, was, now);
      case Set(code, place) => spare := ApplySet(code, place);
      case Swap(loc1, loc2) => SwapCards(loc1, loc2);
      case UpdateData(p, l, size) => if B.IsPile(l) { spare := Resize(B.Zone(p, l), size); }
      case ShuffleHand(p, codes) => spare := ShuffleHand(p, codes);
      case SwapGraveDeck(p, mask) => ApplySwapGraveDeck(p, mask);
      case ShuffleSetCard(l, sources, follow) => ApplyShuffleSetCard(l, sources, follow);
      case RemoveCards(locations) => ApplyRemoveCards(locations);
      case Equip(c, t) => ApplyEquip(c, t);
      case CardTarget(c, t) => ApplyTarget(c, t, true);
      case CancelTarget(c, t) => ApplyTarget(c, t, false);
    }

    /** What the Java constructor does after the arrays exist: each of the four opening piles is filled with new blanks. */
    method Open(deckSize: nat, extraSize: nat)
        returns (ghost deck0: seq<ClientCard>, ghost extra0: seq<ClientCard>, ghost deck1: seq<ClientCard>, ghost extra1: seq<ClientCard>)
      requires Shaped() && Blank()
      modifies Repr()
      ensures |deck0| == |deck1| == deckSize && |extra0| == |extra1| == extraSize
      ensures Distinct(deck0) && Distinct(extra0) && Distinct(deck1) && Distinct(extra1)
      ensures B.Elements(deck0) !! B.Elements(extra0) !! B.Elements(deck1) !! B.Elements(extra1)
      ensures Model() == B.Opening(deck0, extra0, deck1, extra1)
      ensures Valid() && cards == old(cards) + B.Elements(deck0) + B.Elements(extra0) + B.Elements(deck1) + B.Elements(extra1)
    {
      hide AllFacts, Slots, Piles, B.Closed, B.FillBlanks, B.Elements, B.Empty, Distinct;
      Fresh();
      deck0 := FillBlanks(B.Zone(0, B.LOCATION_DECK), deckSize);
      ghost var c0 := cards;
      extra0 := FillBlanks(B.Zone(0, B.LOCATION_EXTRA), extraSize);
      ghost var c1 := cards;
      deck1 := FillBlanks(B.Zone(1, B.LOCATION_DECK), deckSize);
      extra1 := FillBlanks(B.Zone(1, B.LOCATION_EXTRA), extraSize);
    }
  }
}
