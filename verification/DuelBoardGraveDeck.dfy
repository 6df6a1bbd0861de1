/**
 SwapGraveDeck, whose loop drops entries of the very list it walks, is shown to compute three lists outright: the old
 deck, the old graveyard's unflagged cards, and the extra deck followed by the flagged ones.
 */
module DuelBoardGraveDeck {
  import opened Basics
  import opened DuelBoard
  import opened DuelBoardInvariants
  import opened DuelBoardMoves

  // ----- Splitting a list by the mask -----

  /** The positions below `n` whose bit equals `flagged`, in increasing order. */
  ghost function Chosen(n: nat, mask: nat -> bool, flagged: bool): (r: seq<nat>)
    ensures forall j :: 0 <= j < |r| ==> r[j] < n && mask(r[j]) == flagged
    ensures forall j, k :: 0 <= j < k < |r| ==> r[j] < r[k]
    ensures forall i: nat :: i in r <==> i < n && mask(i) == flagged
  {
    if n == 0 then []
    else if mask(n - 1) == flagged then Chosen(n - 1, mask, flagged) + [n - 1]
    else Chosen(n - 1, mask, flagged)
  }

  ghost function Picked<T>(list: seq<T>, indices: seq<nat>): (r: seq<T>)
    requires forall j :: 0 <= j < |indices| ==> indices[j] < |list|
  {
    seq(|indices|, j requires 0 <= j < |indices| => list[indices[j]])
  }

  lemma {:induction false} SelectPicks<T>(list: seq<T>, mask: nat -> bool, flagged: bool)
    ensures Select(list, mask, flagged) == Picked(list, Chosen(|list|, mask, flagged))
    decreases |list|
  {
    if list == [] {
    } else {
      var k := |list| - 1;
      SelectPicks(list[..k], mask, flagged);
      PickedFront(list, Chosen(k, mask, flagged));
    }
  }

  lemma PickedFront<T>(list: seq<T>, before: seq<nat>)
    requires list != [] && forall j :: 0 <= j < |before| ==> before[j] < |list| - 1
    ensures Picked(list[..|list| - 1], before) == Picked(list, before)
    ensures Picked(list, before + [|list| - 1]) == Picked(list, before) + [list[|list| - 1]]
  {
  }

  /** `Select` keeps exactly the positions with that bit, in increasing order. */
  lemma SelectKeepsOrder<T>(list: seq<T>, mask: nat -> bool, flagged: bool)
    ensures var chosen := Chosen(|list|, mask, flagged);
            && Select(list, mask, flagged) == Picked(list, chosen)
            && (forall i: nat :: i in chosen <==> i < |list| && mask(i) == flagged)
            && (forall j, k :: 0 <= j < k < |chosen| ==> chosen[j] < chosen[k])
  {
    SelectPicks(list, mask, flagged);
  }

  lemma SelectDistinct<T>(list: seq<T>, mask: nat -> bool, flagged: bool)
    requires Distinct(list)
    ensures Distinct(Select(list, mask, flagged))
  {
    SelectKeepsOrder(list, mask, flagged);
  }

  // ----- The loop -----

  ghost function Hollow<C>(b: Board<C>, player: int): Board<C> {
    b.(piles := b.piles[Zone(player, LOCATION_DECK) := []])
  }

  /** The piles once the iterator has passed `n` cards of `was`, all of them in the deck at first. */
  ghost function PilesAfter<C>(piles: map<Zone, seq<C>>, player: int, was: seq<C>, mask: nat -> bool, n: nat): map<Zone, seq<C>>
    requires n <= |was| && Zone(player, LOCATION_EXTRA) in piles
  {
    piles[Zone(player, LOCATION_DECK) := Select(was[..n], mask, false) + was[n..]]
         [Zone(player, LOCATION_EXTRA) := piles[Zone(player, LOCATION_EXTRA)] + Select(was[..n], mask, true)]
  }

  ghost predicate Lists<C>(b: Board<C>, r: Board<C>, player: int, was: seq<C>, mask: nat -> bool, n: nat)
    requires n <= |was| && IsPlayer(player) && Closed(b)
  {
    r.slots == b.slots && r.piles == PilesAfter(b.piles, player, was, mask, n)
  }

  ghost predicate Kept<C>(f: Facts<C>, g: Facts<C>) {
    g.materials == f.materials && g.code == f.code && LinksEqual(f, g)
  }

  ghost predicate AllKept<C>(b: Board<C>, r: Board<C>) {
    r.facts.Keys == b.facts.Keys && forall c <- b.facts :: Kept(b.facts[c], r.facts[c])
  }

  /** A deck card, as far as the hollow board goes: in no other container, and player's. */
  ghost predicate Waiting<C>(r: Board<C>, player: int, c: C) {
    c in r.facts && r.facts[c].controller == player && Loose(Hollow(r, player), c)
  }

  ghost predicate Passed<C>(r: Board<C>, player: int, was: seq<C>, mask: nat -> bool, n: nat)
    requires n <= |was| && IsPlayer(player)
  {
    && Closed(r) && Placed(Hollow(r, player))
    && (forall i | n <= i < |was| :: Waiting(r, player, was[i]))
    && (forall i | 0 <= i < n && !mask(i) ::
         Waiting(r, player, was[i]) && r.facts[was[i]].location == LOCATION_DECK)
  }

  lemma SelectNext<T>(was: seq<T>, mask: nat -> bool, flagged: bool, n: nat)
    requires n < |was|
    ensures Select(was[..n + 1], mask, flagged)
         == Select(was[..n], mask, flagged) + if mask(n) == flagged then [was[n]] else []
  {
    assert was[..n + 1][..n] == was[..n];
  }

  ghost function Moved<C>(f: Facts<C>, player: int, sequence: int): Facts<C> {
    f.(position := POS_FACEDOWN_DEFENSE, controller := player, location := LOCATION_EXTRA, sequence := sequence)
  }

  lemma MapUpdates<K, V>(m: map<K, V>, k: K, l: K, x: V, y: V, z: V)
    requires k != l
    ensures m[k := x][l := y][k := z] == m[k := z][l := y]
  {
  }

  lemma PutAtExtraEnd<C>(r: Board<C>, c: C, player: int)
    requires Closed(r) && c in r.facts && IsPlayer(player)
    ensures PutAt(r, c, player, LOCATION_EXTRA, |Pile(r, player, LOCATION_EXTRA)|).piles
         == r.piles[Zone(player, LOCATION_EXTRA) := Pile(r, player, LOCATION_EXTRA) + [c]]
  {
    hide RefersWithin;
    var extra := Pile(r, player, LOCATION_EXTRA);
    assert Insert(extra, Clamp(|extra|, 0, |extra|), c) == extra + [c];
  }

  /** A flagged card's step shortens the deck by it and appends it to the extra deck. */
  lemma FlaggedPiles<C>(r: Board<C>, player: int, was: seq<C>, mask: nat -> bool, n: nat)
    requires IsPlayer(player) && n < |was| && Closed(r) && mask(n)
    requires forall c <- was :: c in r.facts
    ensures SwapStep(r, player, was, mask, n).piles == r.piles
              [Zone(player, LOCATION_DECK) := Select(was[..n], mask, false) + was[n + 1..]]
              [Zone(player, LOCATION_EXTRA) := Pile(r, player, LOCATION_EXTRA) + [was[n]]]
  {
    hide PutAt, Select;
    var c := was[n];
    SelectSubset(was[..n], mask, false);
    var b1 := r.(piles := r.piles[Zone(player, LOCATION_DECK) := Select(was[..n], mask, false) + was[n + 1..]]);
    assert Closed(b1);
    hide Closed;
    var f := b1.facts[c].(position := POS_FACEDOWN_DEFENSE);
    assert RefersWithin(f, b1.facts.Keys + {c}) by { KnownRefers(b1, c); }
    hide RefersWithin;
    PutAtExtraEnd(WithCard(b1, c, f), c, player);
  }

  lemma KnownRefers<C>(b: Board<C>, c: C)
    requires Closed(b) && c in b.facts
    ensures RefersWithin(b.facts[c].(position := POS_FACEDOWN_DEFENSE), b.facts.Keys + {c})
  {
    assert RefersWithin(b.facts[c], b.facts.Keys);
  }

  /** With the deck emptied, a flagged card's step is one insertion into the extra deck. */
  lemma FlaggedIsInsert<C>(r: Board<C>, player: int, was: seq<C>, mask: nat -> bool, n: nat)
    requires IsPlayer(player) && n < |was| && Closed(r) && Closed(Hollow(r, player)) && mask(n)
    requires forall c <- was :: c in r.facts
    requires RefersWithin(Moved(r.facts[was[n]], player, |Pile(r, player, LOCATION_EXTRA)|), r.facts.Keys + {was[n]})
    ensures forall d <- Insert(Pile(r, player, LOCATION_EXTRA), |Pile(r, player, LOCATION_EXTRA)|, was[n]) :: d in r.facts
    ensures Hollow(SwapStep(r, player, was, mask, n), player)
         == SetPile(WithCard(Hollow(r, player), was[n], Moved(r.facts[was[n]], player, |Pile(r, player, LOCATION_EXTRA)|)),
                    Zone(player, LOCATION_EXTRA),
                    Insert(Pile(r, player, LOCATION_EXTRA), |Pile(r, player, LOCATION_EXTRA)|, was[n]))
  {
    var c := was[n];
    var extra := Pile(r, player, LOCATION_EXTRA);
    var f := r.facts[c].(position := POS_FACEDOWN_DEFENSE);
    InsertElements(extra, |extra|, c);
    assert r.facts[c := f][c := Moved(r.facts[c], player, |extra|)] == r.facts[c := Moved(r.facts[c], player, |extra|)];
    FlaggedPiles(r, player, was, mask, n);
    assert Insert(extra, |extra|, c) == extra + [c];
    MapUpdates(r.piles, Zone(player, LOCATION_DECK), Zone(player, LOCATION_EXTRA),
               Select(was[..n], mask, false) + was[n + 1..], extra + [c], []);
  }

  lemma StepFlaggedPlaced<C>(r: Board<C>, player: int, was: seq<C>, mask: nat -> bool, n: nat)
    requires IsPlayer(player) && n < |was| && Passed(r, player, was, mask, n) && mask(n)
    requires forall c <- was :: c in r.facts
    ensures Placed(Hollow(SwapStep(r, player, was, mask, n), player))
  {
    var c := was[n];
    var extra := Pile(r, player, LOCATION_EXTRA);
    assert Waiting(r, player, c) && RefersWithin(r.facts[c], r.facts.Keys);
    var f := Moved(r.facts[c], player, |extra|);
    FlaggedIsInsert(r, player, was, mask, n);
    LoosePlaced(Hollow(r, player), c, f);
    InsertIntoPilePlaced(WithCard(Hollow(r, player), c, f), c, Zone(player, LOCATION_EXTRA), |extra|);
  }

  lemma StepShape<C>(r: Board<C>, player: int, was: seq<C>, mask: nat -> bool, n: nat)
    requires IsPlayer(player) && n < |was| && Closed(r) && forall c <- was :: c in r.facts
    ensures var s := SwapStep(r, player, was, mask, n); s.slots == r.slots && s.piles.Keys == r.piles.Keys && s.facts.Keys == r.facts.Keys
  {
    if mask(n) { FlaggedPiles(r, player, was, mask, n); }
  }

  /** What either kind of step leaves alone on the cards it is not about. */
  ghost predicate Undisturbed<C>(f: Facts<C>, g: Facts<C>) {
    g == f.(sequence := g.sequence)
  }

  lemma PutAtWrites<C>(b: Board<C>, c: C, player: int, location: int, sequence: int, d: C)
    requires Closed(b) && c in b.facts && d in b.facts && !IsField(location)
    ensures var g := PutAt(b, c, player, location, sequence).facts[d];
            if d == c then g == b.facts[d].(controller := player, location := location, sequence := g.sequence)
            else Undisturbed(b.facts[d], g)
  {
  }

  lemma StepAt<C>(r: Board<C>, player: int, was: seq<C>, mask: nat -> bool, n: nat, d: C)
    requires IsPlayer(player) && n < |was| && Closed(r)
    requires d in r.facts && forall c <- was :: c in r.facts
    ensures var g := SwapStep(r, player, was, mask, n).facts[d];
            Kept(r.facts[d], g) && (d != was[n] ==> Undisturbed(r.facts[d], g))
  {
    if mask(n) {
      SelectSubset(was[..n], mask, false);
      var b1 := r.(piles := r.piles[Zone(player, LOCATION_DECK) := Select(was[..n], mask, false) + was[n + 1..]]);
      var b2 := WithCard(b1, was[n], b1.facts[was[n]].(position := POS_FACEDOWN_DEFENSE));
      PutAtWrites(b2, was[n], player, LOCATION_EXTRA, |Pile(b2, player, LOCATION_EXTRA)|, d);
    }
  }

  lemma StepElsewhere<C>(r: Board<C>, player: int, was: seq<C>, mask: nat -> bool, n: nat)
    requires IsPlayer(player) && n < |was| && Closed(r)
    requires forall c <- was :: c in r.facts
    ensures AllKept(r, SwapStep(r, player, was, mask, n))
    ensures forall d <- r.facts :: d != was[n] ==> Undisturbed(r.facts[d], SwapStep(r, player, was, mask, n).facts[d])
  {
    var s := SwapStep(r, player, was, mask, n);
    forall d <- r.facts ensures Kept(r.facts[d], s.facts[d]) && (d != was[n] ==> Undisturbed(r.facts[d], s.facts[d])) {
      StepAt(r, player, was, mask, n, d);
    }
  }

  lemma MapOverwrites<K, V>(m: map<K, V>, k: K, l: K, x: V, y: V, z: V, w: V)
    ensures m[k := x][l := y][k := z][l := w] == m[k := z][l := w]
  {
  }

  lemma ListsNextFlagged<C>(piles: map<Zone, seq<C>>, player: int, was: seq<C>, mask: nat -> bool, n: nat)
    requires n < |was| && Zone(player, LOCATION_EXTRA) in piles && mask(n)
    ensures Zone(player, LOCATION_EXTRA) in PilesAfter(piles, player, was, mask, n)
    ensures PilesAfter(piles, player, was, mask, n)
              [Zone(player, LOCATION_DECK) := Select(was[..n], mask, false) + was[n + 1..]]
              [Zone(player, LOCATION_EXTRA) := PilesAfter(piles, player, was, mask, n)[Zone(player, LOCATION_EXTRA)] + [was[n]]]
         == PilesAfter(piles, player, was, mask, n + 1)
  {
    SelectNext(was, mask, true, n);
    SelectNext(was, mask, false, n);
    var start := piles[Zone(player, LOCATION_EXTRA)];
    assert start + Select(was[..n], mask, true) + [was[n]] == start + Select(was[..n + 1], mask, true);
    assert Select(was[..n + 1], mask, false) == Select(was[..n], mask, false);
    MapOverwrites(piles, Zone(player, LOCATION_DECK), Zone(player, LOCATION_EXTRA),
                  Select(was[..n], mask, false) + was[n..], start + Select(was[..n], mask, true),
                  Select(was[..n], mask, false) + was[n + 1..], start + Select(was[..n + 1], mask, true));
  }

  lemma ListsNextUnflagged<C>(piles: map<Zone, seq<C>>, player: int, was: seq<C>, mask: nat -> bool, n: nat)
    requires n < |was| && Zone(player, LOCATION_EXTRA) in piles && !mask(n)
    ensures PilesAfter(piles, player, was, mask, n) == PilesAfter(piles, player, was, mask, n + 1)
  {
    SelectNext(was, mask, true, n);
    SelectNext(was, mask, false, n);
    assert Select(was[..n + 1], mask, true) == Select(was[..n], mask, true);
    assert was[n..] == [was[n]] + was[n + 1..];
    assert Select(was[..n], mask, false) + was[n..] == Select(was[..n + 1], mask, false) + was[n + 1..];
  }

  lemma StepLists<C>(b: Board<C>, r: Board<C>, player: int, was: seq<C>, mask: nat -> bool, n: nat)
    requires IsPlayer(player) && n < |was| && Closed(b) && Closed(r) && Lists(b, r, player, was, mask, n)
    requires forall c <- was :: c in r.facts
    ensures Lists(b, SwapStep(r, player, was, mask, n), player, was, mask, n + 1)
  {
    if mask(n) {
      FlaggedPiles(r, player, was, mask, n);
      ListsNextFlagged(b.piles, player, was, mask, n);
    } else {
      ListsNextUnflagged(b.piles, player, was, mask, n);
    }
  }

  lemma StepMaterials<C>(r: Board<C>, player: int, was: seq<C>, mask: nat -> bool, n: nat, d: C)
    requires IsPlayer(player) && n < |was| && Closed(r) && forall c <- was :: c in r.facts
    requires forall h <- r.facts :: d !in r.facts[h].materials
    ensures forall h <- r.facts :: d !in SwapStep(r, player, was, mask, n).facts[h].materials
  {
    var s := SwapStep(r, player, was, mask, n);
    StepElsewhere(r, player, was, mask, n);
    forall h <- r.facts ensures s.facts[h].materials == r.facts[h].materials {
      assert Kept(r.facts[h], s.facts[h]);
    }
  }

  lemma StepPiles<C>(r: Board<C>, player: int, was: seq<C>, mask: nat -> bool, n: nat, d: C, z: Zone)
    requires IsPlayer(player) && n < |was| && Closed(r) && forall c <- was :: c in r.facts
    requires d != was[n] && z in r.piles && z != Zone(player, LOCATION_DECK) && d !in r.piles[z]
    ensures d !in SwapStep(r, player, was, mask, n).piles[z]
  {
    if mask(n) {
      FlaggedPiles(r, player, was, mask, n);
    }
  }

  lemma StepPilesLoose<C>(r: Board<C>, player: int, was: seq<C>, mask: nat -> bool, n: nat, d: C)
    requires IsPlayer(player) && n < |was| && Closed(r) && forall c <- was :: c in r.facts
    requires d != was[n] && Loose(Hollow(r, player), d)
    ensures forall z <- r.piles | z != Zone(player, LOCATION_DECK) :: d !in SwapStep(r, player, was, mask, n).piles[z]
  {
    forall z <- r.piles | z != Zone(player, LOCATION_DECK) ensures d !in SwapStep(r, player, was, mask, n).piles[z] {
      assert d !in Hollow(r, player).piles[z];
      StepPiles(r, player, was, mask, n, d, z);
    }
  }

  lemma LooseTransfer<C>(r: Board<C>, s: Board<C>, player: int, d: C)
    requires Loose(Hollow(r, player), d) && s.slots == r.slots && s.facts.Keys == r.facts.Keys
    requires forall h <- s.facts :: d !in s.facts[h].materials
    requires forall z <- s.piles | z != Zone(player, LOCATION_DECK) :: d !in s.piles[z]
    ensures Loose(Hollow(s, player), d)
  {
  }

  lemma StepLoose<C>(r: Board<C>, player: int, was: seq<C>, mask: nat -> bool, n: nat, d: C)
    requires IsPlayer(player) && n < |was| && Closed(r) && forall c <- was :: c in r.facts
    requires d != was[n] && Loose(Hollow(r, player), d)
    ensures Loose(Hollow(SwapStep(r, player, was, mask, n), player), d)
  {
    assert forall h <- r.facts :: Hollow(r, player).facts[h].materials == r.facts[h].materials;
    StepMaterials(r, player, was, mask, n, d);
    StepPilesLoose(r, player, was, mask, n, d);
    StepShape(r, player, was, mask, n);
    LooseTransfer(r, SwapStep(r, player, was, mask, n), player, d);
  }

  lemma StepWaiting<C>(r: Board<C>, player: int, was: seq<C>, mask: nat -> bool, n: nat, d: C)
    requires IsPlayer(player) && n < |was| && Closed(r) && forall c <- was :: c in r.facts
    requires d != was[n] && Waiting(r, player, d)
    ensures Waiting(SwapStep(r, player, was, mask, n), player, d)
    ensures SwapStep(r, player, was, mask, n).facts[d].location == r.facts[d].location
  {
    StepLoose(r, player, was, mask, n, d);
    assert Undisturbed(r.facts[d], SwapStep(r, player, was, mask, n).facts[d]) by {
      StepElsewhere(r, player, was, mask, n);
    }
  }

  lemma StepUnflagged<C>(r: Board<C>, player: int, was: seq<C>, mask: nat -> bool, n: nat)
    requires IsPlayer(player) && n < |was| && Passed(r, player, was, mask, n) && !mask(n)
    requires forall c <- was :: c in r.facts
    ensures Placed(Hollow(SwapStep(r, player, was, mask, n), player))
    ensures Waiting(SwapStep(r, player, was, mask, n), player, was[n])
    ensures SwapStep(r, player, was, mask, n).facts[was[n]].location == LOCATION_DECK
  {
    var c := was[n];
    assert Waiting(r, player, c) && RefersWithin(r.facts[c], r.facts.Keys);
    var f := r.facts[c].(location := LOCATION_DECK, position := POS_FACEDOWN_DEFENSE);
    LoosePlaced(Hollow(r, player), c, f);
    assert Hollow(SwapStep(r, player, was, mask, n), player) == WithCard(Hollow(r, player), c, f);
  }

  lemma StepPassed<C>(r: Board<C>, player: int, was: seq<C>, mask: nat -> bool, n: nat)
    requires IsPlayer(player) && n < |was| && Distinct(was) && Passed(r, player, was, mask, n)
    requires forall c <- was :: c in r.facts
    ensures Passed(SwapStep(r, player, was, mask, n), player, was, mask, n + 1)
  {
    var s := SwapStep(r, player, was, mask, n);
    if mask(n) { StepFlaggedPlaced(r, player, was, mask, n); } else { StepUnflagged(r, player, was, mask, n); }
    forall i | n + 1 <= i < |was| ensures Waiting(s, player, was[i]) {
      assert Waiting(r, player, was[i]);
      StepWaiting(r, player, was, mask, n, was[i]);
    }
    forall i | 0 <= i < n + 1 && !mask(i) ensures Waiting(s, player, was[i]) && s.facts[was[i]].location == LOCATION_DECK {
      if i < n {
        assert Waiting(r, player, was[i]);
        StepWaiting(r, player, was, mask, n, was[i]);
      }
    }
  }

  lemma StepKept<C>(b: Board<C>, r: Board<C>, player: int, was: seq<C>, mask: nat -> bool, n: nat)
    requires IsPlayer(player) && n < |was| && Closed(r) && forall c <- was :: c in r.facts
    requires AllKept(b, r)
    ensures AllKept(b, SwapStep(r, player, was, mask, n))
  {
    StepElsewhere(r, player, was, mask, n);
    var s := SwapStep(r, player, was, mask, n);
    forall c <- b.facts ensures Kept(b.facts[c], s.facts[c]) {
      assert Kept(b.facts[c], r.facts[c]) && Kept(r.facts[c], s.facts[c]);
    }
  }

  lemma LoopStart<C>(b: Board<C>, player: int, was: seq<C>, mask: nat -> bool)
    requires Closed(b) && IsPlayer(player) && b.piles[Zone(player, LOCATION_DECK)] == was
    ensures Lists(b, b, player, was, mask, 0) && AllKept(b, b)
  {
    var extra := b.piles[Zone(player, LOCATION_EXTRA)];
    assert Select(was[..0], mask, true) == [] && Select(was[..0], mask, false) == [];
    assert extra + [] == extra && [] + was[0..] == was;
  }

  lemma {:induction false} LoopPassed<C>(b: Board<C>, player: int, was: seq<C>, mask: nat -> bool, n: nat)
    requires IsPlayer(player) && n <= |was| && Distinct(was) && Passed(b, player, was, mask, 0)
    requires b.piles[Zone(player, LOCATION_DECK)] == was && forall c <- was :: c in b.facts
    ensures Passed(SwapLoop(b, player, was, mask, n), player, was, mask, n)
    ensures Lists(b, SwapLoop(b, player, was, mask, n), player, was, mask, n)
    ensures AllKept(b, SwapLoop(b, player, was, mask, n))
  {
    hide Lists, AllKept, SwapStep, Closed, Placed, Hollow, Waiting, Distinct;
    if n == 0 {
      LoopStart(b, player, was, mask);
    } else {
      LoopPassed(b, player, was, mask, n - 1);
      var r := SwapLoop(b, player, was, mask, n - 1);
      assert Passed(SwapStep(r, player, was, mask, n - 1), player, was, mask, n) by { StepPassed(r, player, was, mask, n - 1); }
      assert Lists(b, SwapStep(r, player, was, mask, n - 1), player, was, mask, n) by { StepLists(b, r, player, was, mask, n - 1); }
      assert AllKept(b, SwapStep(r, player, was, mask, n - 1)) by { StepKept(b, r, player, was, mask, n - 1); }
    }
  }

  // ----- The whole message -----

  /** The deck cards, taken out of both lists and told they are in the graveyard. */
  ghost function Emptied<C>(b: Board<C>, player: int): Board<C> {
    b.(piles := b.piles[Zone(player, LOCATION_GRAVE) := []][Zone(player, LOCATION_DECK) := []])
  }

  lemma EmptiedPlaced<C>(b: Board<C>, player: int)
    requires Placed(b) && IsPlayer(player)
    ensures Placed(Emptied(b, player))
    ensures forall c <- Pile(b, player, LOCATION_DECK) :: Loose(Emptied(b, player), c)
    ensures forall c <- Pile(b, player, LOCATION_GRAVE) :: Loose(Emptied(b, player), c)
  {
    var g := Zone(player, LOCATION_GRAVE);
    var d := Zone(player, LOCATION_DECK);
    EmptyPilePlaced(b, g);
    EmptyPilePlaced(b.(piles := b.piles[g := []]), d);
    forall c <- b.piles[d] ensures Loose(Emptied(b, player), c) {
      var i :| 0 <= i < |b.piles[d]| && b.piles[d][i] == c;
      HeldOnlyThere(b, InPile(d, i), c);
    }
    forall c <- b.piles[g] ensures Loose(Emptied(b, player), c) {
      var i :| 0 <= i < |b.piles[g]| && b.piles[g][i] == c;
      HeldOnlyThere(b, InPile(g, i), c);
    }
  }

  /** Cards in no container may be rewritten all at once. */
  lemma AllLoosePlaced<C>(b: Board<C>, r: Board<C>, loose: seq<C>)
    requires Placed(b) && Closed(r) && r.slots == b.slots && r.piles == b.piles && r.facts.Keys == b.facts.Keys
    requires forall c <- loose :: Loose(b, c)
    requires forall c <- b.facts :: r.facts[c].materials == b.facts[c].materials
    requires forall c <- b.facts :: c !in loose ==> Points(r.facts[c], b.facts[c].controller, b.facts[c].location, b.facts[c].sequence)
    ensures Placed(r)
  {
    forall s <- r.slots ensures Points(r.facts[r.slots[s]], s.player, s.location, s.sequence) {
      assert b.slots[s] !in loose;
    }
    forall z <- r.piles, i | 0 <= i < |r.piles[z]| ensures Points(r.facts[r.piles[z][i]], z.player, z.location, i) {
      assert Points(b.facts[b.piles[z][i]], z.player, z.location, i) && b.piles[z][i] in b.piles[z];
    }
    forall h <- r.facts, i | 0 <= i < |r.facts[h].materials| ensures MaterialPoints(r.facts[r.facts[h].materials[i]], i) {
      assert MaterialPoints(b.facts[b.facts[h].materials[i]], i) && b.facts[h].materials[i] in b.facts[h].materials;
    }
  }

  lemma MapExchange<K, V>(m: map<K, V>, k: K, l: K, x: V, y: V, none: V)
    requires k != l
    ensures m[k := x][l := y][k := x][l := none] == m[k := none][l := none][k := x][k := x]
  {
  }

  /** Graveyard refilled, deck still empty. */
  ghost function Refilled<C>(b: Board<C>, player: int): (r: Board<C>)
    requires Closed(b) && IsPlayer(player)
    ensures Closed(r) && r.facts.Keys == b.facts.Keys
  {
    b.(facts := Buried(b, player).facts,
       piles := Emptied(b, player).piles[Zone(player, LOCATION_GRAVE) := Pile(b, player, LOCATION_DECK)])
  }

  ghost function BuriedEmpty<C>(b: Board<C>, player: int): Board<C>
    requires Closed(b) && IsPlayer(player)
  {
    Emptied(b, player).(facts := Buried(b, player).facts)
  }

  lemma BuriedPlaced<C>(b: Board<C>, player: int)
    requires Placed(b) && IsPlayer(player)
    ensures Placed(BuriedEmpty(b, player))
  {
    EmptiedPlaced(b, player);
    AllLoosePlaced(Emptied(b, player), BuriedEmpty(b, player), Pile(b, player, LOCATION_DECK));
  }

  lemma DeckCardsBuried<C>(b: Board<C>, player: int)
    requires Placed(b) && IsPlayer(player)
    ensures forall c <- Pile(b, player, LOCATION_DECK) ::
      Buried(b, player).facts[c].controller == player && Buried(b, player).facts[c].location == LOCATION_GRAVE
  {
    var deck := Pile(b, player, LOCATION_DECK);
    forall c <- deck ensures b.facts[c].controller == player {
      var i :| 0 <= i < |deck| && deck[i] == c;
      assert Points(b.facts[deck[i]], player, LOCATION_DECK, i);
    }
  }

  lemma RefilledPlaced<C>(b: Board<C>, player: int)
    requires Placed(b) && IsPlayer(player)
    ensures Placed(SetPile(Refilled(b, player), Zone(player, LOCATION_GRAVE), Pile(b, player, LOCATION_DECK)))
  {
    var g := Zone(player, LOCATION_GRAVE);
    var r := Refilled(b, player);
    assert r.(piles := r.piles[g := []]) == BuriedEmpty(b, player);
    BuriedPlaced(b, player);
    DeckCardsBuried(b, player);
    PileDistinct(b, Zone(player, LOCATION_DECK));
    SetPilePlaced(r, g, Pile(b, player, LOCATION_DECK));
  }

  lemma ExchangedPiles<C>(b: Board<C>, player: int)
    requires Closed(b) && IsPlayer(player)
    ensures Hollow(Exchanged(b, player), player).piles
         == Refilled(b, player).piles[Zone(player, LOCATION_GRAVE) := Pile(b, player, LOCATION_DECK)]
  {
    MapExchange(b.piles, Zone(player, LOCATION_GRAVE), Zone(player, LOCATION_DECK),
                Pile(b, player, LOCATION_DECK), Pile(b, player, LOCATION_GRAVE), []);
  }

  lemma ExchangedIsRefilled<C>(b: Board<C>, player: int)
    requires Closed(b) && IsPlayer(player)
    ensures Hollow(Exchanged(b, player), player)
         == SetPile(Refilled(b, player), Zone(player, LOCATION_GRAVE), Pile(b, player, LOCATION_DECK))
  {
    ExchangedPiles(b, player);
  }

  lemma ExchangedPlaced<C>(b: Board<C>, player: int)
    requires Placed(b) && IsPlayer(player)
    ensures Placed(Hollow(Exchanged(b, player), player))
  {
    RefilledPlaced(b, player);
    ExchangedIsRefilled(b, player);
  }

  lemma ExchangedController<C>(b: Board<C>, player: int, c: C)
    requires Placed(b) && IsPlayer(player) && c in Pile(b, player, LOCATION_GRAVE) && c !in Pile(b, player, LOCATION_DECK)
    ensures Exchanged(b, player).facts[c].controller == player
  {
    hide SlotsPoint, MaterialsPoint, OneHost, RefersWithin;
    var grave := Pile(b, player, LOCATION_GRAVE);
    var i :| 0 <= i < |grave| && grave[i] == c;
    assert Points(b.facts[grave[i]], player, LOCATION_GRAVE, i);
  }

  lemma ExchangedPilesElsewhere<C>(b: Board<C>, player: int, z: Zone)
    requires Closed(b) && IsPlayer(player) && z in b.piles && z != Zone(player, LOCATION_DECK)
    ensures Exchanged(b, player).piles[z] == if z == Zone(player, LOCATION_GRAVE) then Pile(b, player, LOCATION_DECK) else b.piles[z]
  {
    hide RefersWithin;
  }

  lemma ExchangedSlots<C>(b: Board<C>, player: int)
    requires Closed(b) && IsPlayer(player)
    ensures Exchanged(b, player).slots == b.slots && Exchanged(b, player).piles.Keys == b.piles.Keys
  {
    hide RefersWithin;
  }

  lemma ExchangedWaiting<C>(b: Board<C>, player: int, c: C)
    requires Placed(b) && IsPlayer(player) && c in Pile(b, player, LOCATION_GRAVE)
    ensures Waiting(Exchanged(b, player), player, c)
  {
    hide SlotsPoint, PilesPoint, MaterialsPoint, OneHost, Exchanged, RefersWithin;
    var grave := Pile(b, player, LOCATION_GRAVE);
    var r := Exchanged(b, player);
    var i :| 0 <= i < |grave| && grave[i] == c;
    HeldOnlyThere(b, InPile(Zone(player, LOCATION_GRAVE), i), c);
    ExchangedController(b, player, c);
    ExchangedKept(b, player);
    ExchangedSlots(b, player);
    forall h <- r.facts ensures c !in r.facts[h].materials {
      assert Kept(b.facts[h], r.facts[h]);
    }
    forall z <- r.piles | z != Zone(player, LOCATION_DECK) ensures c !in r.piles[z] {
      ExchangedPilesElsewhere(b, player, z);
    }
  }

  lemma AllKeptTrans<C>(a: Board<C>, b: Board<C>, r: Board<C>)
    requires AllKept(a, b) && AllKept(b, r)
    ensures AllKept(a, r)
  {
    forall c <- a.facts ensures Kept(a.facts[c], r.facts[c]) {
      assert Kept(a.facts[c], b.facts[c]) && Kept(b.facts[c], r.facts[c]);
    }
  }

  lemma SetPileKept<C>(b: Board<C>, z: Zone, list: seq<C>)
    requires Closed(b) && IsZone(z) && forall c <- list :: c in b.facts
    ensures AllKept(b, SetPile(b, z, list))
  {
  }

  lemma ExchangedKept<C>(b: Board<C>, player: int)
    requires Closed(b) && IsPlayer(player)
    ensures AllKept(b, Exchanged(b, player))
  {
  }

  lemma {:induction false} SelectHolds<T>(was: seq<T>, mask: nat -> bool, c: T) returns (i: nat)
    requires c in Select(was, mask, false)
    ensures i < |was| && was[i] == c && !mask(i)
    decreases |was|
  {
    var k := |was| - 1;
    if c in Select(was[..k], mask, false) {
      i := SelectHolds(was[..k], mask, c);
    } else {
      i := k;
    }
  }

  /** Renumbering the new deck after the loop closes the gap the loop left. */
  lemma FinishPlaced<C>(r: Board<C>, player: int, was: seq<C>, mask: nat -> bool)
    requires IsPlayer(player) && Distinct(was) && Passed(r, player, was, mask, |was|)
    requires r.piles[Zone(player, LOCATION_DECK)] == Select(was, mask, false)
    ensures Placed(SetPile(r, Zone(player, LOCATION_DECK), Select(was, mask, false)))
  {
    var list := Select(was, mask, false);
    SelectDistinct(was, mask, false);
    forall c <- list ensures c in r.facts && r.facts[c].controller == player && r.facts[c].location == LOCATION_DECK {
      var i := SelectHolds(was, mask, c);
      assert Waiting(r, player, was[i]);
    }
    SetPilePlaced(r, Zone(player, LOCATION_DECK), list);
  }

  /** The message is the exchange, the loop, and a last renumbering. */
  lemma InThreeParts<C>(b: Board<C>, player: int, mask: seq<bv8>)
    requires Closed(b) && IsPlayer(player)
    ensures var was := Pile(b, player, LOCATION_GRAVE);
            var r := SwapLoop(Exchanged(b, player), player, was, MaskFlags(mask), |was|);
            ApplySwapGraveDeck(b, player, mask) == SetPile(r, Zone(player, LOCATION_DECK), Pile(r, player, LOCATION_DECK))
  {
  }

  lemma FinalPiles<C>(b: Board<C>, player: int, mask: nat -> bool)
    requires Closed(b) && IsPlayer(player)
    ensures PilesAfter(Exchanged(b, player).piles, player, Pile(b, player, LOCATION_GRAVE), mask, |Pile(b, player, LOCATION_GRAVE)|)
         == b.piles
              [Zone(player, LOCATION_GRAVE) := Pile(b, player, LOCATION_DECK)]
              [Zone(player, LOCATION_DECK) := Select(Pile(b, player, LOCATION_GRAVE), mask, false)]
              [Zone(player, LOCATION_EXTRA) := Pile(b, player, LOCATION_EXTRA) + Select(Pile(b, player, LOCATION_GRAVE), mask, true)]
  {
    var was := Pile(b, player, LOCATION_GRAVE);
    assert was[..|was|] == was && was[|was|..] == [];
    assert Select(was, mask, false) + [] == Select(was, mask, false);
  }

  lemma ExchangedPassed<C>(b: Board<C>, player: int, mask: nat -> bool)
    requires Placed(b) && IsPlayer(player)
    ensures Passed(Exchanged(b, player), player, Pile(b, player, LOCATION_GRAVE), mask, 0)
  {
    var was := Pile(b, player, LOCATION_GRAVE);
    ExchangedPlaced(b, player);
    forall i | 0 <= i < |was| ensures Waiting(Exchanged(b, player), player, was[i]) {
      ExchangedWaiting(b, player, was[i]);
    }
  }

  ghost function AfterLoop<C>(b: Board<C>, player: int, mask: nat -> bool): Board<C>
    requires Closed(b) && IsPlayer(player)
  {
    SwapLoop(Exchanged(b, player), player, Pile(b, player, LOCATION_GRAVE), mask, |Pile(b, player, LOCATION_GRAVE)|)
  }

  lemma AfterLoopExact<C>(b: Board<C>, player: int, mask: nat -> bool)
    requires Placed(b) && IsPlayer(player)
    ensures var was := Pile(b, player, LOCATION_GRAVE);
            Passed(AfterLoop(b, player, mask), player, was, mask, |was|)
    ensures AllKept(b, AfterLoop(b, player, mask)) && AfterLoop(b, player, mask).slots == b.slots
    ensures AfterLoop(b, player, mask).piles
         == PilesAfter(Exchanged(b, player).piles, player, Pile(b, player, LOCATION_GRAVE), mask, |Pile(b, player, LOCATION_GRAVE)|)
  {
    var was := Pile(b, player, LOCATION_GRAVE);
    ExchangedPassed(b, player, mask);
    PileDistinct(b, Zone(player, LOCATION_GRAVE));
    LoopPassed(Exchanged(b, player), player, was, mask, |was|);
    ExchangedKept(b, player);
    AllKeptTrans(b, Exchanged(b, player), AfterLoop(b, player, mask));
  }

  lemma AllKeptLinked<C>(b: Board<C>, r: Board<C>)
    requires Closed(b) && Linked(b) && AllKept(b, r)
    ensures Linked(r)
  {
    assert forall c <- b.facts :: Kept(b.facts[c], r.facts[c]);
    SameLinksLinked(b, r);
  }

  lemma RenumberKept<C>(b: Board<C>, r: Board<C>, z: Zone)
    requires Closed(r) && z in r.piles && AllKept(b, r) && r.slots == b.slots
    ensures AllKept(b, SetPile(r, z, r.piles[z])) && SetPile(r, z, r.piles[z]).slots == b.slots
    ensures SetPile(r, z, r.piles[z]).piles == r.piles
  {
    SetPileKept(r, z, r.piles[z]);
    AllKeptTrans(b, r, SetPile(r, z, r.piles[z]));
    assert r.piles[z := r.piles[z]] == r.piles;
  }

  lemma SwapGraveDeckContainers<C>(b: Board<C>, player: int, mask: seq<bv8>)
    requires WellFormed(b) && IsPlayer(player)
    ensures ApplySwapGraveDeck(b, player, mask).slots == b.slots
    ensures Placed(ApplySwapGraveDeck(b, player, mask)) && AllKept(b, ApplySwapGraveDeck(b, player, mask))
    ensures ApplySwapGraveDeck(b, player, mask).piles
         == PilesAfter(Exchanged(b, player).piles, player, Pile(b, player, LOCATION_GRAVE), MaskFlags(mask), |Pile(b, player, LOCATION_GRAVE)|)
  {
    hide AllKept, PilesAfter, Exchanged, Passed, SwapLoop, SlotsPoint, PilesPoint, MaterialsPoint, OneHost, Linked;
    var m := MaskFlags(mask);
    var r := AfterLoop(b, player, m);
    var d := Zone(player, LOCATION_DECK);
    AfterLoopExact(b, player, m);
    RenumberKept(b, r, d);
    InThreeParts(b, player, mask);
    assert Placed(SetPile(r, d, r.piles[d])) by {
      FinalPiles(b, player, m);
      PileDistinct(b, Zone(player, LOCATION_GRAVE));
      FinishPlaced(r, player, Pile(b, player, LOCATION_GRAVE), m);
    }
  }

  /** SwapGraveDeck is exact, and keeps every card in one place with the right back-pointers. */
  lemma SwapGraveDeckExact<C>(b: Board<C>, player: int, mask: seq<bv8>)
    requires WellFormed(b) && IsPlayer(player)
    ensures WellFormed(ApplySwapGraveDeck(b, player, mask)) && AllKept(b, ApplySwapGraveDeck(b, player, mask))
    ensures ApplySwapGraveDeck(b, player, mask).slots == b.slots
    ensures ApplySwapGraveDeck(b, player, mask).piles == b.piles
              [Zone(player, LOCATION_GRAVE) := Pile(b, player, LOCATION_DECK)]
              [Zone(player, LOCATION_DECK) := Select(Pile(b, player, LOCATION_GRAVE), MaskFlags(mask), false)]
              [Zone(player, LOCATION_EXTRA) :=
                Pile(b, player, LOCATION_EXTRA) + Select(Pile(b, player, LOCATION_GRAVE), MaskFlags(mask), true)]
  {
    SwapGraveDeckContainers(b, player, mask);
    FinalPiles(b, player, MaskFlags(mask));
    AllKeptLinked(b, ApplySwapGraveDeck(b, player, mask));
  }
}
