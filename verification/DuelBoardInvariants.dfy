/**
 What every message keeps true of a board: each card sits in at most one place, its own fields say
 where, numbering is gapless, and target and equip links have two ends.
 */
module DuelBoardInvariants {
  import opened Basics
  import opened Wrappers
  import opened DuelBoard

  // ----- The invariant -----

  ghost predicate Points<C>(f: Facts<C>, player: int, location: int, sequence: int) {
    f.controller == player && f.location == location && f.sequence == sequence
  }

  ghost predicate SlotsPoint<C>(b: Board<C>) requires Closed(b) {
    forall s <- b.slots :: Points(b.facts[b.slots[s]], s.player, s.location, s.sequence)
  }

  ghost predicate PilesPoint<C>(b: Board<C>) requires Closed(b) {
    forall z <- b.piles, i | 0 <= i < |b.piles[z]| :: Points(b.facts[b.piles[z][i]], z.player, z.location, i)
  }

  ghost predicate MaterialPoints<C>(f: Facts<C>, i: int) {
    f.location == LOCATION_OVERLAY && f.sequence == i
  }

  ghost predicate MaterialsPoint<C>(b: Board<C>) requires Closed(b) {
    forall h <- b.facts, i | 0 <= i < |b.facts[h].materials| :: MaterialPoints(b.facts[b.facts[h].materials[i]], i)
  }

  ghost predicate OneHost<C>(b: Board<C>) {
    forall g <- b.facts, h <- b.facts, c <- b.facts[g].materials :: c in b.facts[h].materials ==> g == h
  }

  /** Back-pointers agree with the containers, numbering is 0..n-1, and materials have one host. */
  ghost predicate Placed<C>(b: Board<C>) {
    Closed(b) && SlotsPoint(b) && PilesPoint(b) && MaterialsPoint(b) && OneHost(b)
  }

  /** Every target and equip link is recorded at both ends. */
  ghost predicate Linked<C>(b: Board<C>) {
    && (forall c <- b.facts, d <- b.facts :: d in b.facts[c].targets <==> c in b.facts[d].targetedBy)
    && (forall c <- b.facts, d <- b.facts :: b.facts[c].equipTarget == Some(d) <==> c in b.facts[d].equippedBy)
  }

  // ----- Single containment and back-pointer agreement follow -----

  datatype Spot<C> = AtSlot(slot: Slot) | InPile(zone: Zone, index: nat) | UnderHost(host: C, order: nat)

  ghost predicate Holds<C>(b: Board<C>, spot: Spot<C>, c: C) {
    match spot
    case AtSlot(s) => s in b.slots && b.slots[s] == c
    case InPile(z, i) => z in b.piles && i < |b.piles[z]| && b.piles[z][i] == c
    case UnderHost(h, i) => h in b.facts && i < |b.facts[h].materials| && b.facts[h].materials[i] == c
  }

  lemma SingleContainment<C>(b: Board<C>, spot1: Spot<C>, spot2: Spot<C>, c: C)
    requires Placed(b) && Holds(b, spot1, c) && Holds(b, spot2, c)
    ensures spot1 == spot2
  {
    if spot1.UnderHost? && spot2.UnderHost? {
      assert c in b.facts[spot1.host].materials && c in b.facts[spot2.host].materials;
    }
  }

  lemma BackPointersAgree<C>(b: Board<C>, spot: Spot<C>, c: C)
    requires Placed(b) && Holds(b, spot, c) && !spot.UnderHost?
    ensures CardAt(b, b.facts[c].controller, b.facts[c].location, b.facts[c].sequence) == Some(c)
  {
  }

  /** `c` is in no container at all. */
  ghost predicate Loose<C>(b: Board<C>, c: C) {
    && (forall s <- b.slots :: b.slots[s] != c)
    && (forall z <- b.piles :: c !in b.piles[z])
    && (forall h <- b.facts :: c !in b.facts[h].materials)
  }

  // ----- List facts -----

  lemma {:induction false} RenumberNumbers<C>(facts: map<C, Facts<C>>, list: seq<C>)
    requires Distinct(list) && forall c <- list :: c in facts
    ensures forall i :: 0 <= i < |list| ==> Renumber(facts, list)[list[i]].sequence == i
    decreases |list|
  {
    if list == [] {
    } else {
      var k := |list| - 1;
      RenumberNumbers(facts, list[..k]);
      forall i | 0 <= i < k ensures list[..k][i] == list[i] && list[i] != list[k] { }
    }
  }

  lemma {:induction false} WithoutSplits<T>(s: seq<T>, x: T) returns (k: nat)
    requires x in s
    ensures k < |s| && s[k] == x && Without(s, x) == s[..k] + s[k + 1..] && x !in s[..k]
  {
    if s[0] == x {
      k := 0;
    } else {
      var j := WithoutSplits(s[1..], x);
      k := j + 1;
      assert s[1..][..j] == s[1..k] && s[1..][j + 1..] == s[k + 1..];
      assert [s[0]] + (s[1..k] + s[k + 1..]) == s[..k] + s[k + 1..];
    }
  }

  lemma WithoutDistinct<T>(s: seq<T>, x: T)
    requires Distinct(s) && x in s
    ensures Distinct(Without(s, x)) && x !in Without(s, x)
    ensures forall y <- s :: y != x ==> y in Without(s, x)
  {
    var k := WithoutSplits(s, x);
    forall y <- s | y != x ensures y in Without(s, x) {
      var i :| 0 <= i < |s| && s[i] == y;
      assert i < k ==> (s[..k] + s[k + 1..])[i] == y;
      assert i > k ==> (s[..k] + s[k + 1..])[i - 1] == y;
    }
  }

  lemma InsertDistinct<T>(s: seq<T>, i: nat, x: T)
    requires Distinct(s) && x !in s && i <= |s|
    ensures Distinct(Insert(s, i, x))
  {
  }

  lemma PileDistinct<C>(b: Board<C>, z: Zone)
    requires Placed(b) && z in b.piles
    ensures Distinct(b.piles[z])
  {
  }

  lemma MaterialsDistinct<C>(b: Board<C>, h: C)
    requires Placed(b) && h in b.facts
    ensures Distinct(b.facts[h].materials)
  {
    var m := b.facts[h].materials;
    forall i, j | 0 <= i < j < |m| ensures m[i] != m[j] {
      assert MaterialPoints(b.facts[m[i]], i) && MaterialPoints(b.facts[m[j]], j);
    }
  }

  // ----- Changing one container -----

  /** Replaces a pile by a list of cards that already point at it. */
  /** The other piles are numbered as before, the new one from its start. */
  lemma SetPilePoints<C>(b: Board<C>, z: Zone, list: seq<C>)
    requires Closed(b) && Placed(b.(piles := b.piles[z := []])) && IsZone(z) && Distinct(list)
    requires forall c <- list :: c in b.facts && b.facts[c].controller == z.player && b.facts[c].location == z.location
    ensures PilesPoint(SetPile(b, z, list))
  {
    hide OneHost, MaterialsPoint, SlotsPoint, RefersWithin, Renumber;
    var e := b.(piles := b.piles[z := []]);
    var r := SetPile(b, z, list);
    RenumberNumbers(b.facts, list);
    forall y <- r.piles, i | 0 <= i < |r.piles[y]| ensures Points(r.facts[r.piles[y][i]], y.player, y.location, i) {
      if y != z {
        assert e.piles[y] == r.piles[y];
        assert Points(e.facts[e.piles[y][i]], y.player, y.location, i);
      }
    }
  }

  lemma SetPilePlaced<C>(b: Board<C>, z: Zone, list: seq<C>)
    requires Placed(b.(piles := b.piles[z := []])) && IsZone(z)
    requires Distinct(list)
    requires forall c <- list :: c in b.facts && b.facts[c].controller == z.player && b.facts[c].location == z.location
    ensures Closed(b) ==> Placed(SetPile(b, z, list))
  {
    hide PilesPoint, Renumber;
    if Closed(b) {
      var e := b.(piles := b.piles[z := []]);
      var r := SetPile(b, z, list);
      SetPilePoints(b, z, list);
      forall s <- r.slots ensures Points(r.facts[r.slots[s]], s.player, s.location, s.sequence) {
        assert Points(e.facts[e.slots[s]], s.player, s.location, s.sequence);
      }
      forall h <- r.facts, i | 0 <= i < |r.facts[h].materials| ensures MaterialPoints(r.facts[r.facts[h].materials[i]], i) {
        assert MaterialPoints(e.facts[e.facts[h].materials[i]], i);
      }
    }
  }

  lemma SetMaterialsOneHost<C>(b: Board<C>, h: C, list: seq<C>)
    requires Closed(b) && h in b.facts && forall c <- list :: c in b.facts
    requires OneHost(WithCard(b, h, b.facts[h].(materials := [])))
    requires forall c <- list, g <- b.facts :: g != h ==> c !in b.facts[g].materials
    ensures OneHost(SetMaterials(b, h, list))
  {
    var e := WithCard(b, h, b.facts[h].(materials := []));
    var r := SetMaterials(b, h, list);
    forall g <- r.facts, k <- r.facts, c <- r.facts[g].materials | c in r.facts[k].materials ensures g == k {
      if g != h && k != h {
        assert c in e.facts[g].materials && c in e.facts[k].materials;
      }
    }
  }

  /** What replacing a host's materials writes. */
  lemma SetMaterialsWrites<C>(b: Board<C>, h: C, list: seq<C>, c: C)
    requires Closed(b) && h in b.facts && Distinct(list) && forall d <- list :: d in b.facts
    requires c in b.facts
    ensures var r := SetMaterials(b, h, list);
            && r.facts[c].materials == (if c == h then list else b.facts[c].materials) && r.facts[c].location == b.facts[c].location
            && (c !in list ==> r.facts[c].sequence == b.facts[c].sequence)
            && forall i :: 0 <= i < |list| && list[i] == c ==> r.facts[c].sequence == i
  {
    hide Closed, RefersWithin;
    RenumberNumbers(b.facts[h := b.facts[h].(materials := list)], list);
  }

  lemma SetMaterialsPoint<C>(b: Board<C>, h: C, list: seq<C>)
    requires Closed(b) && h in b.facts && forall c <- list :: c in b.facts && b.facts[c].location == LOCATION_OVERLAY
    requires MaterialsPoint(WithCard(b, h, b.facts[h].(materials := []))) && Distinct(list)
    requires forall c <- list, g <- b.facts :: g != h ==> c !in b.facts[g].materials
    ensures MaterialsPoint(SetMaterials(b, h, list))
  {
    var e := WithCard(b, h, b.facts[h].(materials := []));
    var r := SetMaterials(b, h, list);
    forall g <- r.facts, i | 0 <= i < |r.facts[g].materials| ensures MaterialPoints(r.facts[r.facts[g].materials[i]], i) {
      hide SetMaterials, Distinct;
      SetMaterialsWrites(b, h, list, g);
      SetMaterialsWrites(b, h, list, r.facts[g].materials[i]);
      if g != h {
        assert e.facts[g].materials == r.facts[g].materials;
        assert MaterialPoints(e.facts[e.facts[g].materials[i]], i);
      }
    }
  }

  /** Renumbering overlay cards disturbs no slot and no pile. */
  lemma OverlaysApart<C>(e: Board<C>, r: Board<C>, list: seq<C>)
    requires Placed(e) && Closed(r) && r.slots == e.slots && r.piles == e.piles && r.facts.Keys == e.facts.Keys
    requires forall c <- list :: c in e.facts && e.facts[c].location == LOCATION_OVERLAY
    requires forall c <- e.facts | c !in list :: Points(r.facts[c], e.facts[c].controller, e.facts[c].location, e.facts[c].sequence)
    ensures SlotsPoint(r) && PilesPoint(r)
  {
    forall s <- r.slots ensures Points(r.facts[r.slots[s]], s.player, s.location, s.sequence) {
      assert Points(e.facts[e.slots[s]], s.player, s.location, s.sequence);
    }
    forall y <- r.piles, i | 0 <= i < |r.piles[y]| ensures Points(r.facts[r.piles[y][i]], y.player, y.location, i) {
      assert Points(e.facts[e.piles[y][i]], y.player, y.location, i);
    }
  }

  /** Replaces a host's materials by a list of overlay cards that no other host holds. */
  lemma SetMaterialsPlaced<C>(b: Board<C>, h: C, list: seq<C>)
    requires Closed(b) && h in b.facts
    requires Placed(WithCard(b, h, b.facts[h].(materials := [])))
    requires Distinct(list)
    requires forall c <- list :: c in b.facts && b.facts[c].location == LOCATION_OVERLAY
    requires forall c <- list, g <- b.facts :: g != h ==> c !in b.facts[g].materials
    ensures Placed(SetMaterials(b, h, list))
  {
    SetMaterialsOneHost(b, h, list);
    SetMaterialsPoint(b, h, list);
    OverlaysApart(WithCard(b, h, b.facts[h].(materials := [])), SetMaterials(b, h, list), list);
  }

  /** Two boards whose containers and back-pointers are the same. */
  ghost predicate SameShape<C>(b: Board<C>, r: Board<C>) {
    && r.slots == b.slots && r.piles == b.piles && r.facts.Keys == b.facts.Keys
    && forall c <- b.facts ::
         && r.facts[c].controller == b.facts[c].controller && r.facts[c].location == b.facts[c].location
         && r.facts[c].sequence == b.facts[c].sequence && r.facts[c].materials == b.facts[c].materials
  }

  lemma SameShapePlaced<C>(b: Board<C>, r: Board<C>)
    requires Placed(b) && SameShape(b, r) && Closed(r)
    ensures Placed(r)
    ensures forall c :: c in b.facts && Loose(b, c) ==> Loose(r, c)
  {
    forall h <- r.facts, i | 0 <= i < |r.facts[h].materials| ensures MaterialPoints(r.facts[r.facts[h].materials[i]], i) {
      assert MaterialPoints(b.facts[b.facts[h].materials[i]], i);
    }
  }

  /** A card in no container may be rewritten freely, as long as its own materials stay. */
  lemma LoosePlaced<C>(b: Board<C>, c: C, f: Facts<C>)
    requires Placed(b) && Loose(b, c) && RefersWithin(f, b.facts.Keys + {c})
    requires f.materials == if c in b.facts then b.facts[c].materials else []
    ensures Placed(WithCard(b, c, f)) && Loose(WithCard(b, c, f), c)
  {
    var r := WithCard(b, c, f);
    forall h <- r.facts, i | 0 <= i < |r.facts[h].materials| ensures MaterialPoints(r.facts[r.facts[h].materials[i]], i) {
      assert MaterialPoints(b.facts[b.facts[h].materials[i]], i);
    }
    forall g <- r.facts, k <- r.facts, x <- r.facts[g].materials | x in r.facts[k].materials ensures g == k {
      assert x in b.facts[g].materials && x in b.facts[k].materials;
    }
  }

  // ----- Removing and placing one card -----

  lemma FewerSlotsPlaced<C>(b: Board<C>, r: Board<C>)
    requires Placed(b) && r == b.(slots := r.slots)
    requires forall s <- r.slots :: s in b.slots && r.slots[s] == b.slots[s]
    ensures Placed(r)
  {
    assert Closed(r);
    forall h <- r.facts, i | 0 <= i < |r.facts[h].materials| ensures MaterialPoints(r.facts[r.facts[h].materials[i]], i) {
      assert MaterialPoints(b.facts[b.facts[h].materials[i]], i);
    }
  }

  lemma ClearSlotPlaced<C>(b: Board<C>, c: C, player: int, location: int, sequence: int)
    requires Placed(b) && SlotCard(b, Slot(player, location, sequence)) == Some(c)
    ensures Placed(ClearSlot(b, c, player, location, sequence)) && Loose(ClearSlot(b, c, player, location, sequence), c)
  {
    var r := ClearSlot(b, c, player, location, sequence);
    FewerSlotsPlaced(b, r);
    HeldOnlyThere(b, AtSlot(Slot(player, location, sequence)), c);
  }

  /** Single containment, in the form the removals need. */
  lemma HeldOnlyThere<C>(b: Board<C>, spot: Spot<C>, c: C)
    requires Placed(b) && Holds(b, spot, c)
    ensures forall s <- b.slots :: b.slots[s] == c ==> spot == AtSlot(s)
    ensures forall z <- b.piles :: c in b.piles[z] ==> spot.InPile? && spot.zone == z
    ensures forall h <- b.facts :: c in b.facts[h].materials ==> spot.UnderHost? && spot.host == h
  {
    forall s <- b.slots | b.slots[s] == c ensures spot == AtSlot(s) {
      SingleContainment(b, spot, AtSlot(s), c);
    }
    forall z <- b.piles | c in b.piles[z] ensures spot.InPile? && spot.zone == z {
      var i :| 0 <= i < |b.piles[z]| && b.piles[z][i] == c;
      SingleContainment(b, spot, InPile(z, i), c);
    }
    forall h <- b.facts | c in b.facts[h].materials ensures spot.UnderHost? && spot.host == h {
      var i :| 0 <= i < |b.facts[h].materials| && b.facts[h].materials[i] == c;
      SingleContainment(b, spot, UnderHost(h, i), c);
    }
  }

  lemma EmptyPilePlaced<C>(b: Board<C>, z: Zone)
    requires Placed(b) && IsZone(z)
    ensures Placed(b.(piles := b.piles[z := []]))
  {
    var e := b.(piles := b.piles[z := []]);
    assert Closed(e);
    forall y <- e.piles, i | 0 <= i < |e.piles[y]| ensures Points(e.facts[e.piles[y][i]], y.player, y.location, i) {
      assert y != z;
    }
    forall h <- e.facts, i | 0 <= i < |e.facts[h].materials| ensures MaterialPoints(e.facts[e.facts[h].materials[i]], i) {
      assert MaterialPoints(b.facts[b.facts[h].materials[i]], i);
    }
  }

  lemma EmptyMaterialsPlaced<C>(b: Board<C>, h: C)
    requires Placed(b) && h in b.facts
    ensures Placed(WithCard(b, h, b.facts[h].(materials := [])))
  {
    var e := WithFacts(b, h, b.facts[h].(materials := []));
    forall g <- e.facts, i | 0 <= i < |e.facts[g].materials| ensures MaterialPoints(e.facts[e.facts[g].materials[i]], i) {
      assert e.facts[g].materials == b.facts[g].materials;
      assert MaterialPoints(b.facts[b.facts[g].materials[i]], i);
    }
    assert forall g <- e.facts :: e.facts[g].materials == b.facts[g].materials || e.facts[g].materials == [];
  }

  lemma RemoveFromPilePlaced<C>(b: Board<C>, c: C, z: Zone)
    requires Placed(b) && z in b.piles && c in b.piles[z]
    requires forall d <- Without(b.piles[z], c) :: d in b.facts
    ensures Placed(SetPile(b, z, Without(b.piles[z], c))) && Loose(SetPile(b, z, Without(b.piles[z], c)), c)
  {
    var list := Without(b.piles[z], c);
    var i :| 0 <= i < |b.piles[z]| && b.piles[z][i] == c;
    PileDistinct(b, z);
    WithoutDistinct(b.piles[z], c);
    WithoutSubset(b.piles[z], c);
    EmptyPilePlaced(b, z);
    assert forall d <- list :: d in b.facts && b.facts[d].controller == z.player && b.facts[d].location == z.location;
    SetPilePlaced(b, z, list);
    HeldOnlyThere(b, InPile(z, i), c);
  }

  lemma DetachPlaced<C>(b: Board<C>, c: C, from: LocInfo)
    requires Placed(b) && HostAt(b, from).Some? && c in b.facts[HostAt(b, from).value].materials
    ensures Placed(Detach(b, c, from)) && Loose(Detach(b, c, from), c)
  {
    var h := HostAt(b, from).value;
    var m := b.facts[h].materials;
    var list := Without(m, c);
    var i :| 0 <= i < |m| && m[i] == c;
    MaterialsDistinct(b, h);
    WithoutDistinct(m, c);
    WithoutSubset(m, c);
    EmptyMaterialsPlaced(b, h);
    forall d <- list ensures d in b.facts && b.facts[d].location == LOCATION_OVERLAY {
      var j :| 0 <= j < |m| && m[j] == d;
      assert MaterialPoints(b.facts[m[j]], j);
    }
    SetMaterialsPlaced(b, h, list);
    HeldOnlyThere(b, UnderHost(h, i), c);
  }

  lemma RemoveFromPlaced<C>(b: Board<C>, c: C, from: LocInfo)
    requires Placed(b) && Resolve(b, from) == Some(c)
    ensures Placed(RemoveFrom(b, c, from)) && Loose(RemoveFrom(b, c, from), c)
  {
    if IsOverlay(from.location) {
      DetachPlaced(b, c, from);
    } else if IsField(from.location) {
      ClearSlotPlaced(b, c, from.controller, from.location, from.sequence);
    } else {
      WithoutSubset(b.piles[Zone(from.controller, from.location)], c);
      RemoveFromPilePlaced(b, c, Zone(from.controller, from.location));
    }
  }

  lemma FillSlotPlaced<C>(b: Board<C>, c: C, s: Slot)
    requires Placed(b) && IsSlot(s) && Loose(b, c) && c in b.facts && Points(b.facts[c], s.player, s.location, s.sequence)
    ensures Placed(b.(slots := b.slots[s := c]))
  {
    var r := b.(slots := b.slots[s := c]);
    assert Closed(r);
    forall h <- r.facts, i | 0 <= i < |r.facts[h].materials| ensures MaterialPoints(r.facts[r.facts[h].materials[i]], i) {
      assert MaterialPoints(b.facts[b.facts[h].materials[i]], i);
    }
  }

  lemma InsertIntoPilePlaced<C>(b: Board<C>, c: C, z: Zone, i: nat)
    requires Placed(b) && z in b.piles && i <= |b.piles[z]| && Loose(b, c)
    requires c in b.facts && b.facts[c].controller == z.player && b.facts[c].location == z.location
    requires forall d <- Insert(b.piles[z], i, c) :: d in b.facts
    ensures Placed(SetPile(b, z, Insert(b.piles[z], i, c)))
  {
    var list := Insert(b.piles[z], i, c);
    PileDistinct(b, z);
    InsertDistinct(b.piles[z], i, c);
    InsertElements(b.piles[z], i, c);
    EmptyPilePlaced(b, z);
    forall d <- list ensures d in b.facts && b.facts[d].controller == z.player && b.facts[d].location == z.location {
      if d != c {
        var j :| 0 <= j < |b.piles[z]| && b.piles[z][j] == d;
        assert Points(b.facts[b.piles[z][j]], z.player, z.location, j);
      }
    }
    SetPilePlaced(b, z, list);
  }

  lemma PutAtPlaced<C>(b: Board<C>, c: C, player: int, location: int, sequence: int)
    requires Placed(b) && Loose(b, c) && c in b.facts
    requires IsField(location) ==> IsSlot(Slot(player, location, sequence))
    ensures Placed(PutAt(b, c, player, location, sequence))
  {
    var z := Zone(player, location);
    var f := b.facts[c].(controller := player, location := location, sequence := sequence);
    assert RefersWithin(f, b.facts.Keys + {c});
    LoosePlaced(b, c, f);
    var b1 := WithCard(b, c, f);
    if IsField(location) {
      FillSlotPlaced(b1, c, Slot(player, location, sequence));
    } else if z in b.piles {
      InsertElements(b.piles[z], Clamp(sequence, 0, |b.piles[z]|), c);
      InsertIntoPilePlaced(b1, c, z, Clamp(sequence, 0, |b.piles[z]|));
    }
  }

  lemma InsertMaterialPlaced<C>(b: Board<C>, c: C, h: C, i: nat)
    requires Placed(b) && h in b.facts && i <= |b.facts[h].materials| && Loose(b, c)
    requires c in b.facts && b.facts[c].location == LOCATION_OVERLAY
    requires forall d <- Insert(b.facts[h].materials, i, c) :: d in b.facts
    ensures Placed(SetMaterials(b, h, Insert(b.facts[h].materials, i, c)))
  {
    var m := b.facts[h].materials;
    var list := Insert(m, i, c);
    MaterialsDistinct(b, h);
    InsertDistinct(m, i, c);
    InsertElements(m, i, c);
    EmptyMaterialsPlaced(b, h);
    forall d <- list ensures d in b.facts && b.facts[d].location == LOCATION_OVERLAY {
      if d != c {
        var j :| 0 <= j < |m| && m[j] == d;
        assert MaterialPoints(b.facts[m[j]], j);
      }
    }
    forall d <- list, g <- b.facts | g != h ensures d !in b.facts[g].materials {
    }
    SetMaterialsPlaced(b, h, list);
  }

  lemma AttachPlaced<C>(b: Board<C>, c: C, to: LocInfo)
    requires Placed(b) && Loose(b, c) && c in b.facts
    ensures Placed(Attach(b, c, to))
  {
    var host := HostAt(b, to);
    if host.Some? {
      var f := b.facts[c].(controller := to.controller, location := LOCATION_OVERLAY);
      assert RefersWithin(f, b.facts.Keys + {c});
      LoosePlaced(b, c, f);
      var m := b.facts[host.value].materials;
      InsertElements(m, Clamp(to.position, 0, |m|), c);
      InsertMaterialPlaced(WithCard(b, c, f), c, host.value, Clamp(to.position, 0, |m|));
    }
  }
}
