/**
 ShuffleSetCard: its chain of exchanges permutes the row as long as every card is re-placed on its own side, and
 breaks the board at the first step that crosses sides.
 */
module DuelBoardRows {
  import opened Wrappers
  import opened DuelBoard
  import opened DuelBoardInvariants
  import opened DuelBoardMoves

  // ----- ShuffleSetCard -----

  /** `c` stands in the row the message names, on the side `to` names. */
  ghost predicate Seated<C>(b: Board<C>, c: C, row: int, player: int)
    requires Closed(b)
  {
    c in b.facts && SlotCard(b, Slot(player, row, b.facts[c].sequence)) == Some(c)
  }

  lemma SeatedInRange<C>(b: Board<C>, c: C, row: int, player: int)
    requires Closed(b) && Seated(b, c, row, player)
    ensures c in b.facts && 0 <= b.facts[c].sequence < SlotCount(row)
  {
    hide RefersWithin;
  }

  ghost predicate Reaches(row: int, to: LocInfo) { 0 <= to.sequence < SlotCount(row) }

  ghost function SeatOf<C>(b: Board<C>, c: C, row: int, player: int): Slot
    requires c in b.facts
  {
    Slot(player, row, b.facts[c].sequence)
  }

  /**
   A step writes two slots and nothing else: the card takes its target, and what stood there takes the place of the
   card's own number on the same side. For a seated card that is an exchange.
   */
  lemma ReseatExchanges<C>(b: Board<C>, c: C, row: int, to: LocInfo)
    requires Closed(b) && IsField(row) && IsPlayer(to.controller) && Reaches(row, to)
    requires c in b.facts && 0 <= b.facts[c].sequence < SlotCount(row)
    ensures var r := Reseat(b, c, row, to);
            var target := Slot(to.controller, row, to.sequence);
            && SlotCard(r, target) == Some(c)
            && (SeatOf(b, c, row, to.controller) != target ==>
                  SlotCard(r, SeatOf(b, c, row, to.controller)) == SlotCard(b, target))
            && (forall s :: s != target && s != SeatOf(b, c, row, to.controller) ==> SlotCard(r, s) == SlotCard(b, s))
            && r.piles == b.piles
  {
    hide RefersWithin;
  }

  ghost function NewSeat<C>(b: Board<C>, c: C, row: int, to: LocInfo, d: C): int
    requires c in b.facts && d in b.facts
  {
    if SlotCard(b, Slot(to.controller, row, to.sequence)) == Some(d) then b.facts[c].sequence
    else if d == c then to.sequence
    else b.facts[d].sequence
  }

  lemma ReseatRenumbers<C>(b: Board<C>, c: C, row: int, to: LocInfo)
    requires Closed(b) && IsField(row) && IsPlayer(to.controller) && Seated(b, c, row, to.controller) && Reaches(row, to)
    ensures var f := b.facts[c := b.facts[c].(sequence := to.sequence)];
            var displaced := SlotCard(b, Slot(to.controller, row, to.sequence));
            Reseat(b, c, row, to).facts ==
              if displaced.Some? then f[displaced.value := f[displaced.value].(sequence := b.facts[c].sequence)] else f
  {
    assert IsSlot(SeatOf(b, c, row, to.controller));
  }

  /** What a step writes on the cards. */
  lemma ReseatFacts<C>(b: Board<C>, c: C, row: int, to: LocInfo, d: C)
    requires Closed(b) && IsField(row) && IsPlayer(to.controller) && Seated(b, c, row, to.controller) && Reaches(row, to)
    requires d in b.facts
    ensures Reseat(b, c, row, to).facts[d] == b.facts[d].(sequence := NewSeat(b, c, row, to, d))
  {
    hide Closed;
    ReseatRenumbers(b, c, row, to);
  }

  lemma SlotPoints<C>(b: Board<C>, s: Slot, d: C)
    requires Closed(b) && SlotsPoint(b) && SlotCard(b, s) == Some(d)
    ensures d in b.facts && Points(b.facts[d], s.player, s.location, s.sequence)
  {
    hide RefersWithin;
  }

  lemma ReseatSlotPoints<C>(b: Board<C>, c: C, row: int, to: LocInfo, s: Slot, d: C)
    requires Placed(b) && IsField(row) && IsPlayer(to.controller) && Seated(b, c, row, to.controller) && Reaches(row, to)
    requires SlotCard(Reseat(b, c, row, to), s) == Some(d)
    ensures d in b.facts && Points(Reseat(b, c, row, to).facts[d], s.player, s.location, s.sequence)
  {
    hide Closed, SlotsPoint, Reseat, PilesPoint, MaterialsPoint, OneHost;
    var target := Slot(to.controller, row, to.sequence);
    var seat := SeatOf(b, c, row, to.controller);
    SeatedInRange(b, c, row, to.controller);
    ReseatExchanges(b, c, row, to);
    SlotPoints(b, seat, c);
    SlotPoints(b, if s == target then seat else if s == seat then target else s, d);
    ReseatFacts(b, c, row, to, d);
    if SlotCard(b, target).Some? { SlotPoints(b, target, SlotCard(b, target).value); }
  }

  lemma ReseatSlotsPoint<C>(b: Board<C>, c: C, row: int, to: LocInfo)
    requires Placed(b) && IsField(row) && IsPlayer(to.controller) && Seated(b, c, row, to.controller) && Reaches(row, to)
    ensures SlotsPoint(Reseat(b, c, row, to))
  {
    hide Reseat, PilesPoint, MaterialsPoint, OneHost, RefersWithin;
    var r := Reseat(b, c, row, to);
    forall s <- r.slots ensures Points(r.facts[r.slots[s]], s.player, s.location, s.sequence) {
      ReseatSlotPoints(b, c, row, to, s, r.slots[s]);
    }
  }

  lemma ReseatElsewhere<C>(b: Board<C>, c: C, row: int, to: LocInfo)
    requires Closed(b) && SlotsPoint(b) && IsField(row) && IsPlayer(to.controller) && Seated(b, c, row, to.controller) && Reaches(row, to)
    ensures forall d <- b.facts :: Reseat(b, c, row, to).facts[d] == b.facts[d].(sequence := NewSeat(b, c, row, to, d))
    ensures forall d <- b.facts :: !IsField(b.facts[d].location) ==> Reseat(b, c, row, to).facts[d] == b.facts[d]
  {
    hide Closed, Reseat;
    forall d <- b.facts
      ensures Reseat(b, c, row, to).facts[d] == b.facts[d].(sequence := NewSeat(b, c, row, to, d))
      ensures !IsField(b.facts[d].location) ==> NewSeat(b, c, row, to, d) == b.facts[d].sequence
    {
      ReseatFacts(b, c, row, to, d);
    }
  }

  lemma ReseatPlaced<C>(b: Board<C>, c: C, row: int, to: LocInfo)
    requires Placed(b) && IsField(row) && IsPlayer(to.controller) && Seated(b, c, row, to.controller) && Reaches(row, to)
    ensures Placed(Reseat(b, c, row, to))
  {
    var r := Reseat(b, c, row, to);
    ReseatSlotsPoint(b, c, row, to);
    ReseatElsewhere(b, c, row, to);
    assert r.piles == b.piles by { ReseatExchanges(b, c, row, to); }
    OffFieldPlaced(b, r);
  }

  /** Piles and materials are untouched when only field cards were renumbered. */
  lemma OffFieldPlaced<C>(b: Board<C>, r: Board<C>)
    requires Placed(b) && Closed(r) && SlotsPoint(r) && r.piles == b.piles && r.facts.Keys == b.facts.Keys
    requires forall d <- b.facts :: r.facts[d].materials == b.facts[d].materials
    requires forall d <- b.facts :: !IsField(b.facts[d].location) ==> r.facts[d] == b.facts[d]
    ensures Placed(r)
  {
    forall z <- r.piles, i | 0 <= i < |r.piles[z]| ensures Points(r.facts[r.piles[z][i]], z.player, z.location, i) {
      assert Points(b.facts[b.piles[z][i]], z.player, z.location, i);
    }
    forall h <- r.facts, i | 0 <= i < |r.facts[h].materials| ensures MaterialPoints(r.facts[r.facts[h].materials[i]], i) {
      assert MaterialPoints(b.facts[b.facts[h].materials[i]], i);
    }
  }

  lemma ReseatWellFormed<C>(b: Board<C>, c: C, row: int, to: LocInfo)
    requires WellFormed(b) && IsField(row) && IsPlayer(to.controller) && Seated(b, c, row, to.controller)
    ensures WellFormed(Reseat(b, c, row, to))
  {
    if Reaches(row, to) {
      ReseatPlaced(b, c, row, to);
      ReseatElsewhere(b, c, row, to);
      var r := Reseat(b, c, row, to);
      assert forall d <- b.facts :: LinksEqual(b.facts[d], r.facts[d]);
      SameLinksLinked(b, r);
    }
  }

  /** The set of cards standing in one player's row. */
  ghost function RowCards<C>(b: Board<C>, row: int, player: int): set<C> {
    set s | s in b.slots && s.player == player && s.location == row :: b.slots[s]
  }

  /** A step moves no card into or out of any row, whichever row is looked at. */
  lemma ReseatPermutes<C>(b: Board<C>, c: C, row: int, to: LocInfo, other: int, player: int)
    requires Closed(b) && IsField(row) && IsPlayer(to.controller) && Seated(b, c, row, to.controller)
    ensures RowCards(Reseat(b, c, row, to), other, player) == RowCards(b, other, player)
  {
    if Reaches(row, to) {
      hide Closed, Reseat;
      SeatedInRange(b, c, row, to.controller);
      ReseatExchanges(b, c, row, to);
      var r := Reseat(b, c, row, to);
      var target := Slot(to.controller, row, to.sequence);
      var seat := SeatOf(b, c, row, to.controller);
      forall d <- RowCards(b, other, player) ensures d in RowCards(r, other, player) {
        var s :| s in b.slots && s.player == player && s.location == other && b.slots[s] == d;
        var s' := if s == target then seat else if s == seat then target else s;
        assert SlotCard(r, s') == Some(d);
        assert s' in r.slots;
      }
      forall d <- RowCards(r, other, player) ensures d in RowCards(b, other, player) {
        var s :| s in r.slots && s.player == player && s.location == other && r.slots[s] == d;
        var s' := if s == target then seat else if s == seat then target else s;
        assert SlotCard(b, s') == Some(d);
        assert s' in b.slots;
      }
    }
  }

  /** Entry `i` of the message moves a card: one is found for it, and both its number and its target's are in the row's range. */
  ghost predicate Relocates<C>(b: Board<C>, location: int, sources: seq<LocInfo>, follow: seq<LocInfo>, i: nat)
    requires Closed(b) && i < |sources| && i < |follow|
  {
    && CardAt(b, sources[i].controller, location, sources[i].sequence).Some?
    && 0 <= sources[i].sequence < SlotCount(RowOf(location))
    && follow[i].location != 0 && Reaches(RowOf(location), follow[i])
  }

  /** Every card that moves was found in the row, on the side it is sent to. */
  ghost predicate SameSide<C>(b: Board<C>, location: int, sources: seq<LocInfo>, follow: seq<LocInfo>)
    requires Closed(b)
  {
    forall i | 0 <= i < |sources| && i < |follow| && Relocates(b, location, sources, follow, i) ::
      IsField(location) && follow[i].controller == sources[i].controller
  }

  /** A card was found for entry `i`, and the entry names a place of the row. */
  ghost predicate Active<C>(row: int, shuffled: seq<Option<C>>, follow: seq<LocInfo>, i: nat)
    requires i < |shuffled| && i < |follow|
  {
    shuffled[i].Some? && follow[i].location != 0 && Reaches(row, follow[i])
  }

  ghost predicate AllSeated<C>(b: Board<C>, row: int, shuffled: seq<Option<C>>, follow: seq<LocInfo>, n: nat)
    requires Closed(b) && n <= |shuffled| && n <= |follow|
  {
    forall i :: 0 <= i < n && Active(row, shuffled, follow, i) ==>
      Seated(b, shuffled[i].value, row, follow[i].controller)
  }

  lemma ReseatSeated<C>(b: Board<C>, c: C, row: int, to: LocInfo, d: C, player: int)
    requires Placed(b) && IsField(row) && IsPlayer(to.controller) && Seated(b, c, row, to.controller)
    requires Seated(b, d, row, player)
    ensures Seated(Reseat(b, c, row, to), d, row, player)
  {
    if Reaches(row, to) {
      ReseatPlaced(b, c, row, to);
      ReseatPermutes(b, c, row, to, row, player);
      var r := Reseat(b, c, row, to);
      assert d in RowCards(b, row, player);
      assert d in RowCards(r, row, player);
    }
  }

  lemma ReseatStepWellFormed<C>(b: Board<C>, row: int, shuffled: seq<Option<C>>, follow: seq<LocInfo>, n: nat, m: nat)
    requires WellFormed(b) && IsField(row) && n < m <= |follow| && m <= |shuffled|
    requires forall to <- follow :: to.location != 0 ==> IsPlayer(to.controller)
    requires AllSeated(b, row, shuffled, follow, m) && Active(row, shuffled, follow, n)
    ensures shuffled[n].value in b.facts
    ensures WellFormed(Reseat(b, shuffled[n].value, row, follow[n]))
    ensures AllSeated(Reseat(b, shuffled[n].value, row, follow[n]), row, shuffled, follow, m)
  {
    var c := shuffled[n].value;
    var to := follow[n];
    assert Seated(b, c, row, to.controller);
    ReseatWellFormed(b, c, row, to);
    forall i | 0 <= i < m && Active(row, shuffled, follow, i)
      ensures Seated(Reseat(b, c, row, to), shuffled[i].value, row, follow[i].controller)
    {
      ReseatSeated(b, c, row, to, shuffled[i].value, follow[i].controller);
    }
  }

  lemma {:induction false} ReseatLoopWellFormed<C>(b: Board<C>, row: int, shuffled: seq<Option<C>>, follow: seq<LocInfo>, n: nat, m: nat)
    requires WellFormed(b) && IsField(row) && n <= m <= |follow| && m <= |shuffled|
    requires forall to <- follow :: to.location != 0 ==> IsPlayer(to.controller)
    requires forall o <- shuffled :: o.Some? ==> o.value in b.facts
    requires AllSeated(b, row, shuffled, follow, m)
    ensures WellFormed(ReseatLoop(b, row, shuffled, follow, n))
    ensures AllSeated(ReseatLoop(b, row, shuffled, follow, n), row, shuffled, follow, m)
  {
    hide Closed, SlotsPoint, PilesPoint, MaterialsPoint, OneHost, Linked, AllSeated;
    if n == 0 {
    } else {
      ReseatLoopWellFormed(b, row, shuffled, follow, n - 1, m);
      if Active(row, shuffled, follow, n - 1) {
        ReseatStepWellFormed(ReseatLoop(b, row, shuffled, follow, n - 1), row, shuffled, follow, n - 1, m);
      }
    }
  }

  lemma {:induction false} ReseatLoopPermutes<C>(b: Board<C>, row: int, shuffled: seq<Option<C>>, follow: seq<LocInfo>, n: nat, other: int, player: int)
    requires WellFormed(b) && IsField(row) && n <= |follow| && n <= |shuffled|
    requires forall to <- follow :: to.location != 0 ==> IsPlayer(to.controller)
    requires forall o <- shuffled :: o.Some? ==> o.value in b.facts
    requires AllSeated(b, row, shuffled, follow, n)
    ensures RowCards(ReseatLoop(b, row, shuffled, follow, n), other, player) == RowCards(b, other, player)
  {
    hide Closed, SlotsPoint, PilesPoint, MaterialsPoint, OneHost, Linked;
    if n == 0 {
    } else {
      ReseatLoopWellFormed(b, row, shuffled, follow, n - 1, n);
      ReseatLoopPermutes(b, row, shuffled, follow, n - 1, other, player);
      if Active(row, shuffled, follow, n - 1) {
        var b1 := ReseatLoop(b, row, shuffled, follow, n - 1);
        assert Seated(b1, shuffled[n - 1].value, row, follow[n - 1].controller);
        ReseatPermutes(b1, shuffled[n - 1].value, row, follow[n - 1], other, player);
      }
    }
  }

  /** A board whose row may have been rearranged, and nothing else. */
  ghost predicate OnlyRow<C>(b: Board<C>, r: Board<C>, row: int) {
    && (forall s: Slot :: s.location != row ==> SlotCard(r, s) == SlotCard(b, s)) && r.piles == b.piles
    && r.facts.Keys == b.facts.Keys && forall h <- b.facts :: r.facts[h].materials == b.facts[h].materials
  }

  lemma ReseatOnlyRow<C>(b: Board<C>, c: C, row: int, to: LocInfo)
    requires WellFormed(b) && IsField(row) && IsPlayer(to.controller) && Seated(b, c, row, to.controller)
    ensures OnlyRow(b, Reseat(b, c, row, to), row)
  {
    hide Closed, Reseat, NewSeat, Linked, OneHost, SlotsPoint, PilesPoint, MaterialsPoint;
    if Reaches(row, to) {
      SeatedInRange(b, c, row, to.controller);
      ReseatExchanges(b, c, row, to);
      ReseatElsewhere(b, c, row, to);
    } else {
      ReseatIdle(b, c, row, to);
    }
  }

  lemma ReseatIdle<C>(b: Board<C>, c: C, row: int, to: LocInfo)
    requires Closed(b) && c in b.facts && IsField(row) && IsPlayer(to.controller) && !Reaches(row, to)
    ensures Reseat(b, c, row, to) == b
  {
  }

  lemma {:induction false} ReseatLoopOnlyRow<C>(b: Board<C>, row: int, shuffled: seq<Option<C>>, follow: seq<LocInfo>, n: nat)
    requires WellFormed(b) && IsField(row) && n <= |follow| && n <= |shuffled|
    requires forall to <- follow :: to.location != 0 ==> IsPlayer(to.controller)
    requires forall o <- shuffled :: o.Some? ==> o.value in b.facts
    requires AllSeated(b, row, shuffled, follow, n)
    ensures OnlyRow(b, ReseatLoop(b, row, shuffled, follow, n), row)
  {
    hide Closed, SlotsPoint, PilesPoint, MaterialsPoint, OneHost, Linked, SlotCard;
    if n == 0 {
    } else {
      ReseatLoopWellFormed(b, row, shuffled, follow, n - 1, n);
      ReseatLoopOnlyRow(b, row, shuffled, follow, n - 1);
      if Active(row, shuffled, follow, n - 1) {
        var b1 := ReseatLoop(b, row, shuffled, follow, n - 1);
        assert Seated(b1, shuffled[n - 1].value, row, follow[n - 1].controller);
        ReseatOnlyRow(b1, shuffled[n - 1].value, row, follow[n - 1]);
      }
    }
  }

  /** Where a re-placed card is to end up. */
  ghost function Target(row: int, to: LocInfo): Slot { Slot(to.controller, row, to.sequence) }

  /** No card and no target is named twice. */
  ghost predicate DistinctMoves<C>(row: int, shuffled: seq<Option<C>>, follow: seq<LocInfo>, n: nat)
    requires n <= |shuffled| && n <= |follow|
  {
    forall i, j | 0 <= i < j < n && Active(row, shuffled, follow, i) && Active(row, shuffled, follow, j) ::
      shuffled[i] != shuffled[j] && Target(row, follow[i]) != Target(row, follow[j])
  }

  /** A later step leaves an arrived card alone. */
  lemma ReseatSparesArrived<C>(b: Board<C>, c: C, row: int, to: LocInfo, target: Slot, d: C)
    requires Closed(b) && IsField(row) && IsPlayer(to.controller) && Seated(b, c, row, to.controller) && Reaches(row, to)
    requires SlotCard(b, target) == Some(d) && d != c && target != Target(row, to)
    ensures SlotCard(Reseat(b, c, row, to), target) == Some(d)
  {
    ReseatExchanges(b, c, row, to);
  }

  /** With distinct cards and distinct targets, each re-placed card ends at its target. */
  lemma {:induction false} ReseatLoopArrives<C>(b: Board<C>, row: int, shuffled: seq<Option<C>>, follow: seq<LocInfo>, n: nat, i: nat)
    requires WellFormed(b) && IsField(row) && i < n <= |follow| && n <= |shuffled|
    requires forall to <- follow :: to.location != 0 ==> IsPlayer(to.controller)
    requires forall o <- shuffled :: o.Some? ==> o.value in b.facts
    requires AllSeated(b, row, shuffled, follow, n) && DistinctMoves(row, shuffled, follow, n)
    requires Active(row, shuffled, follow, i)
    ensures SlotCard(ReseatLoop(b, row, shuffled, follow, n), Target(row, follow[i])) == shuffled[i]
  {
    hide Closed, SlotsPoint, PilesPoint, MaterialsPoint, OneHost, Linked, Seated, Reseat, SlotCard;
    var b1 := ReseatLoop(b, row, shuffled, follow, n - 1);
    ReseatLoopWellFormed(b, row, shuffled, follow, n - 1, n);
    if i == n - 1 {
    } else {
      ReseatLoopArrives(b, row, shuffled, follow, n - 1, i);
    }
    if Active(row, shuffled, follow, n - 1) {
      var c := shuffled[n - 1].value;
      var to := follow[n - 1];
      assert Seated(b1, c, row, to.controller);
      if i == n - 1 {
        SeatedInRange(b1, c, row, to.controller);
        ReseatExchanges(b1, c, row, to);
      } else {
        ReseatSparesArrived(b1, c, row, to, Target(row, follow[i]), shuffled[i].value);
      }
    } else if shuffled[n - 1].Some? && follow[n - 1].location != 0 {
      ReseatIdle(b1, shuffled[n - 1].value, row, follow[n - 1]);
    }
  }

  lemma ForgottenWellFormed<C>(b: Board<C>, shuffled: seq<Option<C>>)
    requires WellFormed(b)
    ensures WellFormed(Forgotten(b, shuffled)) && SameShape(b, Forgotten(b, shuffled))
  {
    hide Closed, SlotsPoint, PilesPoint, MaterialsPoint, OneHost, Linked;
    SameShapePlaced(b, Forgotten(b, shuffled));
    SameLinksLinked(b, Forgotten(b, shuffled));
  }

  lemma FoundSeated<C>(b: Board<C>, r: Board<C>, location: int, source: LocInfo, c: C)
    requires WellFormed(b) && WellFormed(r) && SameShape(b, r) && IsField(location)
    requires CardAt(b, source.controller, location, source.sequence) == Some(c)
    ensures Seated(r, c, location, source.controller)
  {
  }

  lemma ShuffledSeated<C>(b: Board<C>, r: Board<C>, location: int, sources: seq<LocInfo>, follow: seq<LocInfo>, n: nat)
    requires WellFormed(b) && WellFormed(r) && SameShape(b, r) && IsField(location)
    requires SameSide(b, location, sources, follow) && n <= |sources| && n <= |follow|
    ensures AllSeated(r, location, Shuffled(b, location, sources), follow, n)
  {
    hide Closed, SlotsPoint, PilesPoint, MaterialsPoint, OneHost, Linked, Seated;
    var shuffled := Shuffled(b, location, sources);
    forall i | 0 <= i < n && Active(location, shuffled, follow, i)
      ensures Seated(r, shuffled[i].value, location, follow[i].controller)
    {
      SlotRelocates(b, location, sources, follow, i);
      FoundSeated(b, r, location, sources[i], shuffled[i].value);
    }
  }

  /** In a row of slots whatever is found is in range. */
  lemma SlotRelocates<C>(b: Board<C>, location: int, sources: seq<LocInfo>, follow: seq<LocInfo>, i: nat)
    requires Closed(b) && IsField(location) && i < |sources| && i < |follow|
    ensures Relocates(b, location, sources, follow, i) <==> Active(location, Shuffled(b, location, sources), follow, i)
  {
    hide RefersWithin;
  }

  ghost function Fewer(m: nat, n: nat): nat { if m < n then m else n }

  /** The board after the first `n` exchanges of the message. */
  ghost function AfterSteps<C>(b: Board<C>, location: int, sources: seq<LocInfo>, follow: seq<LocInfo>, n: nat): (r: Board<C>)
    requires Closed(b) && n <= |sources| && n <= |follow|
    requires forall to <- follow :: to.location != 0 ==> IsPlayer(to.controller)
    ensures Closed(r) && r.facts.Keys == b.facts.Keys
  {
    var shuffled := Shuffled(b, location, sources);
    ReseatLoop(Forgotten(b, shuffled), RowOf(location), shuffled, follow, n)
  }

  /** No card and no target is named twice by the entries that move one. */
  ghost predicate NamedOnce<C>(b: Board<C>, location: int, sources: seq<LocInfo>, follow: seq<LocInfo>)
    requires Closed(b)
  {
    forall i, j | 0 <= i < j < Fewer(|follow|, |sources|)
                  && Relocates(b, location, sources, follow, i) && Relocates(b, location, sources, follow, j) ::
      && Shuffled(b, location, sources)[i] != Shuffled(b, location, sources)[j]
      && Target(location, follow[i]) != Target(location, follow[j])
  }

  /** Every card that moves stands at its target on `r`. */
  ghost predicate Arrived<C>(b: Board<C>, r: Board<C>, location: int, sources: seq<LocInfo>, follow: seq<LocInfo>)
    requires Closed(b)
  {
    forall i | 0 <= i < Fewer(|follow|, |sources|) && Relocates(b, location, sources, follow, i) ::
      SlotCard(r, Target(location, follow[i])) == Shuffled(b, location, sources)[i]
  }

  lemma FieldNamedOnce<C>(b: Board<C>, location: int, sources: seq<LocInfo>, follow: seq<LocInfo>)
    requires Closed(b) && IsField(location) && NamedOnce(b, location, sources, follow)
    ensures DistinctMoves(location, Shuffled(b, location, sources), follow, Fewer(|follow|, |sources|))
  {
    hide Closed, Relocates, Active;
    forall i: nat | i < Fewer(|follow|, |sources|)
      ensures Relocates(b, location, sources, follow, i) <==> Active(location, Shuffled(b, location, sources), follow, i)
    {
      SlotRelocates(b, location, sources, follow, i);
    }
  }

  lemma FieldArrives<C>(b: Board<C>, location: int, sources: seq<LocInfo>, follow: seq<LocInfo>)
    requires WellFormed(b) && IsField(location) && SameSide(b, location, sources, follow) && NamedOnce(b, location, sources, follow)
    requires forall to <- follow :: to.location != 0 ==> IsPlayer(to.controller)
    ensures Arrived(b, AfterSteps(b, location, sources, follow, Fewer(|follow|, |sources|)), location, sources, follow)
  {
    hide Closed, SlotsPoint, PilesPoint, MaterialsPoint, OneHost, Linked, AllSeated, SameSide, NamedOnce, SlotCard, Relocates, Active, ReseatLoop, CardAt;
    var shuffled := Shuffled(b, location, sources);
    var n := Fewer(|follow|, |sources|);
    ForgottenWellFormed(b, shuffled);
    ShuffledSeated(b, Forgotten(b, shuffled), location, sources, follow, n);
    FieldNamedOnce(b, location, sources, follow);
    forall i: nat | i < n && Relocates(b, location, sources, follow, i)
      ensures SlotCard(AfterSteps(b, location, sources, follow, n), Target(location, follow[i])) == shuffled[i]
    {
      SlotRelocates(b, location, sources, follow, i);
      ReseatLoopArrives(Forgotten(b, shuffled), location, shuffled, follow, n, i);
    }
  }

  lemma FieldSteps<C>(b: Board<C>, location: int, sources: seq<LocInfo>, follow: seq<LocInfo>, n: nat)
    requires WellFormed(b) && IsField(location) && SameSide(b, location, sources, follow) && n <= |sources| && n <= |follow|
    requires forall to <- follow :: to.location != 0 ==> IsPlayer(to.controller)
    ensures var r := AfterSteps(b, location, sources, follow, n);
            && WellFormed(r) && OnlyRow(b, r, RowOf(location))
            && forall other, player :: RowCards(r, other, player) == RowCards(b, other, player)
  {
    hide Closed, SlotsPoint, PilesPoint, MaterialsPoint, OneHost, Linked, AllSeated, SameSide, SlotCard, ReseatLoop, RowCards;
    var shuffled := Shuffled(b, location, sources);
    var r := Forgotten(b, shuffled);
    ForgottenWellFormed(b, shuffled);
    SameShapeRows(b, r);
    ShuffledSeated(b, r, location, sources, follow, n);
    ReseatLoopWellFormed(r, location, shuffled, follow, n, n);
    ReseatLoopOnlyRow(r, location, shuffled, follow, n);
    forall other, player ensures RowCards(ReseatLoop(r, location, shuffled, follow, n), other, player) == RowCards(b, other, player) {
      ReseatLoopPermutes(r, location, shuffled, follow, n, other, player);
    }
  }

  lemma SameShapeRows<C>(b: Board<C>, r: Board<C>)
    requires SameShape(b, r)
    ensures forall s :: SlotCard(r, s) == SlotCard(b, s)
    ensures forall other, player :: RowCards(r, other, player) == RowCards(b, other, player)
  {
  }

  /** Off the field no entry moves a card, and only codes are forgotten. */
  lemma {:induction false} PileSteps<C>(b: Board<C>, location: int, sources: seq<LocInfo>, follow: seq<LocInfo>, n: nat)
    requires WellFormed(b) && !IsField(location) && SameSide(b, location, sources, follow) && n <= |sources| && n <= |follow|
    requires forall to <- follow :: to.location != 0 ==> IsPlayer(to.controller)
    ensures AfterSteps(b, location, sources, follow, n) == Forgotten(b, Shuffled(b, location, sources))
  {
    hide Closed, SlotsPoint, PilesPoint, MaterialsPoint, OneHost, Linked, Forgotten, Reseat, CardAt;
    if n == 0 {
    } else {
      PileSteps(b, location, sources, follow, n - 1);
      PileStepIdle(b, location, sources, follow, n - 1);
    }
  }

  /** An entry that moves no card: nothing was found, it names no place of the row, or the pile index is no place of it. */
  lemma PileStepIdle<C>(b: Board<C>, location: int, sources: seq<LocInfo>, follow: seq<LocInfo>, i: nat)
    requires WellFormed(b) && i < |sources| && i < |follow| && !Relocates(b, location, sources, follow, i)
    requires follow[i].location != 0 ==> IsPlayer(follow[i].controller)
    ensures var found := CardAt(b, sources[i].controller, location, sources[i].sequence);
            var r := Forgotten(b, Shuffled(b, location, sources));
            found.Some? && follow[i].location != 0 ==> Reseat(r, found.value, RowOf(location), follow[i]) == r
  {
    hide SlotsPoint, PilesPoint, MaterialsPoint, OneHost, Linked, CardAt, Closed;
    var found := CardAt(b, sources[i].controller, location, sources[i].sequence);
    if found.Some? { FoundPoints(b, sources[i].controller, location, sources[i].sequence, found.value); }
  }

  lemma StepsKeepOrder<C>(b: Board<C>, location: int, sources: seq<LocInfo>, follow: seq<LocInfo>, n: nat)
    requires WellFormed(b) && SameSide(b, location, sources, follow) && n <= |sources| && n <= |follow|
    requires forall to <- follow :: to.location != 0 ==> IsPlayer(to.controller)
    ensures var r := AfterSteps(b, location, sources, follow, n);
            && WellFormed(r) && OnlyRow(b, r, RowOf(location))
            && forall other, player :: RowCards(r, other, player) == RowCards(b, other, player)
  {
    hide Closed, SlotsPoint, PilesPoint, MaterialsPoint, OneHost, Linked, OnlyRow, RowCards, SameSide, AfterSteps;
    if IsField(location) {
      FieldSteps(b, location, sources, follow, n);
    } else {
      PileSteps(b, location, sources, follow, n);
      ForgottenKeepsRows(b, Shuffled(b, location, sources), RowOf(location));
    }
  }

  lemma ForgottenKeepsRows<C>(b: Board<C>, shuffled: seq<Option<C>>, row: int)
    requires WellFormed(b)
    ensures var r := Forgotten(b, shuffled);
            && WellFormed(r) && OnlyRow(b, r, row)
            && forall other, player :: RowCards(r, other, player) == RowCards(b, other, player)
  {
    hide Closed, SlotsPoint, PilesPoint, MaterialsPoint, OneHost, Linked, SlotCard, RowCards, Forgotten;
    ForgottenWellFormed(b, shuffled);
    SameShapeRows(b, Forgotten(b, shuffled));
  }

  /** The swap chain permutes each row, and re-places every named card. */
  lemma ShuffleSetCardExact<C>(b: Board<C>, location: int, sources: seq<LocInfo>, follow: seq<LocInfo>)
    requires WellFormed(b) && SameSide(b, location, sources, follow)
    requires forall to <- follow :: to.location != 0 ==> IsPlayer(to.controller)
    ensures var r := ApplyShuffleSetCard(b, location, sources, follow);
            && WellFormed(r) && OnlyRow(b, r, RowOf(location))
            && (forall other, player :: RowCards(r, other, player) == RowCards(b, other, player))
            && (NamedOnce(b, location, sources, follow) ==> Arrived(b, r, location, sources, follow))
  {
    hide Closed, SlotsPoint, PilesPoint, MaterialsPoint, OneHost, Linked, OnlyRow, RowCards, NamedOnce, Relocates, SlotCard;
    StepsKeepOrder(b, location, sources, follow, Fewer(|follow|, |sources|));
    if IsField(location) && NamedOnce(b, location, sources, follow) {
      FieldArrives(b, location, sources, follow);
    }
  }

  // ----- Crossing sides -----

  /** A card `cardAt` finds in the row or pile the message names, on whichever side. */
  ghost predicate Found<C>(b: Board<C>, c: C)
  {
    c in b.facts && ((exists s :: SlotCard(b, s) == Some(c)) || (exists z :: z in b.piles && c in b.piles[z]))
  }

  /** One step keeps the board in order exactly if it does nothing, or the card stands in the row on the side it is sent to. */
  lemma ReseatExact<C>(b: Board<C>, c: C, row: int, to: LocInfo)
    requires WellFormed(b) && IsField(row) && IsPlayer(to.controller) && Found(b, c)
    ensures WellFormed(Reseat(b, c, row, to)) <==>
              !Reaches(row, to) || !(0 <= b.facts[c].sequence < SlotCount(row))
              || (b.facts[c].controller == to.controller && b.facts[c].location == row)
  {
    hide PilesPoint, MaterialsPoint, OneHost, Linked;
    FoundSeat(b, c, row, to);
    if Seated(b, c, row, to.controller) {
      ReseatWellFormed(b, c, row, to);
    } else if Reaches(row, to) && 0 <= b.facts[c].sequence < SlotCount(row) {
      ReseatCrosses(b, c, row, to);
    }
  }

  lemma FoundSeat<C>(b: Board<C>, c: C, row: int, to: LocInfo)
    requires WellFormed(b) && IsField(row) && Found(b, c)
    ensures Seated(b, c, row, to.controller) <==> b.facts[c].controller == to.controller && b.facts[c].location == row
  {
    hide MaterialsPoint, OneHost, Linked, RefersWithin;
    if s :| SlotCard(b, s) == Some(c) {
    } else {
      var z :| z in b.piles && c in b.piles[z];
      var i :| 0 <= i < |b.piles[z]| && b.piles[z][i] == c;
    }
  }

  /** The card is written into the other side's row and keeps saying it is on its own. */
  lemma ReseatCrosses<C>(b: Board<C>, c: C, row: int, to: LocInfo)
    requires Closed(b) && c in b.facts && IsField(row) && IsPlayer(to.controller) && Reaches(row, to)
    requires 0 <= b.facts[c].sequence < SlotCount(row)
    requires b.facts[c].controller != to.controller || b.facts[c].location != row
    ensures !WellFormed(Reseat(b, c, row, to))
  {
    hide RefersWithin, PilesPoint, MaterialsPoint, OneHost, Linked;
    var r := Reseat(b, c, row, to);
    var target := Slot(to.controller, row, to.sequence);
    assert r.slots[target] == c && r.facts[c].controller == b.facts[c].controller && r.facts[c].location == b.facts[c].location;
  }

  // ----- The whole message -----

  /** What no step changes, wherever it writes a card. */
  ghost predicate SameSides<C>(b: Board<C>, r: Board<C>, row: int) {
    && r.facts.Keys == b.facts.Keys
    && forall c <- b.facts ::
         && r.facts[c].controller == b.facts[c].controller && r.facts[c].location == b.facts[c].location
         && (0 <= b.facts[c].sequence < SlotCount(row) ==> 0 <= r.facts[c].sequence < SlotCount(row))
  }

  lemma ReseatSameSides<C>(b: Board<C>, c: C, row: int, to: LocInfo)
    requires Closed(b) && c in b.facts && IsField(row) && IsPlayer(to.controller)
    ensures SameSides(b, Reseat(b, c, row, to), row)
  {
    hide RefersWithin;
  }

  lemma {:induction false} ReseatLoopSameSides<C>(b: Board<C>, row: int, shuffled: seq<Option<C>>, follow: seq<LocInfo>, n: nat)
    requires Closed(b) && IsField(row) && n <= |follow| && n <= |shuffled|
    requires forall to <- follow :: to.location != 0 ==> IsPlayer(to.controller)
    requires forall o <- shuffled :: o.Some? ==> o.value in b.facts
    ensures SameSides(b, ReseatLoop(b, row, shuffled, follow, n), row)
  {
    hide Closed, Reseat;
    if n == 0 {
    } else {
      ReseatLoopSameSides(b, row, shuffled, follow, n - 1);
      if shuffled[n - 1].Some? && follow[n - 1].location != 0 {
        ReseatSameSides(ReseatLoop(b, row, shuffled, follow, n - 1), shuffled[n - 1].value, row, follow[n - 1]);
      }
    }
  }

  lemma FoundPoints<C>(b: Board<C>, player: int, location: int, sequence: int, c: C)
    requires WellFormed(b) && CardAt(b, player, location, sequence) == Some(c)
    ensures Points(b.facts[c], player, location, sequence)
  {
    hide MaterialsPoint, OneHost, Linked, RefersWithin;
  }

  /** The step of an entry that crosses leaves the board out of order. */
  lemma CrossingBreaks<C>(b: Board<C>, location: int, sources: seq<LocInfo>, follow: seq<LocInfo>, i: nat)
    requires WellFormed(b) && i < |sources| && i < |follow| && Relocates(b, location, sources, follow, i)
    requires forall to <- follow :: to.location != 0 ==> IsPlayer(to.controller)
    requires !IsField(location) || follow[i].controller != sources[i].controller
    ensures !WellFormed(AfterSteps(b, location, sources, follow, i + 1))
  {
    hide Closed, SlotsPoint, PilesPoint, MaterialsPoint, OneHost, Linked, Reseat, CardAt, Forgotten;
    var shuffled := Shuffled(b, location, sources);
    var c := shuffled[i].value;
    FoundPoints(b, sources[i].controller, location, sources[i].sequence, c);
    ReseatLoopSameSides(Forgotten(b, shuffled), RowOf(location), shuffled, follow, i);
    ReseatCrosses(AfterSteps(b, location, sources, follow, i), c, RowOf(location), follow[i]);
  }

  /** Order holds after every exchange of the message exactly if no card that moves is sent to another row or side. */
  lemma ShuffleSetCardInOrder<C>(b: Board<C>, location: int, sources: seq<LocInfo>, follow: seq<LocInfo>)
    requires WellFormed(b)
    requires forall to <- follow :: to.location != 0 ==> IsPlayer(to.controller)
    ensures (forall n: nat | n <= Fewer(|follow|, |sources|) :: WellFormed(AfterSteps(b, location, sources, follow, n)))
            <==> SameSide(b, location, sources, follow)
    ensures ApplyShuffleSetCard(b, location, sources, follow) == AfterSteps(b, location, sources, follow, Fewer(|follow|, |sources|))
  {
    hide Closed, SlotsPoint, PilesPoint, MaterialsPoint, OneHost, Linked, AfterSteps, Relocates, OnlyRow, RowCards, ApplyShuffleSetCard;
    LastStep(b, location, sources, follow);
    if SameSide(b, location, sources, follow) {
      forall n: nat | n <= Fewer(|follow|, |sources|) ensures WellFormed(AfterSteps(b, location, sources, follow, n)) {
        StepsKeepOrder(b, location, sources, follow, n);
      }
    } else {
      var i :| 0 <= i < |sources| && i < |follow| && Relocates(b, location, sources, follow, i)
               && !(IsField(location) && follow[i].controller == sources[i].controller);
      CrossingBreaks(b, location, sources, follow, i);
      assert i + 1 <= Fewer(|follow|, |sources|);
    }
  }

  lemma LastStep<C>(b: Board<C>, location: int, sources: seq<LocInfo>, follow: seq<LocInfo>)
    requires Closed(b)
    requires forall to <- follow :: to.location != 0 ==> IsPlayer(to.controller)
    ensures ApplyShuffleSetCard(b, location, sources, follow) == AfterSteps(b, location, sources, follow, Fewer(|follow|, |sources|))
  {
    hide Closed, Reseat, CardAt, Forgotten;
  }
}
