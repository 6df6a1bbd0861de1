/**
 Which cards are on the board at all, and what it means that a change leaves all others alone: the vocabulary of
 conservation, and what the primitive operations do in it.
 */
module DuelBoardHeld {
  import opened Basics
  import opened Wrappers
  import opened DuelBoard
  import opened DuelBoardInvariants
  import opened DuelBoardMoves

  // ----- Lists without some cards -----

  function Except<T(==)>(s: seq<T>, m: set<T>): (r: seq<T>)
    ensures (forall x <- r :: x in s && x !in m) && (forall x <- s :: x !in m ==> x in r)
  {
    if s == [] then [] else (if s[0] in m then [] else [s[0]]) + Except(s[1..], m)
  }

  lemma {:induction false} ExceptConcat<T>(a: seq<T>, b: seq<T>, m: set<T>)
    ensures Except(a + b, m) == Except(a, m) + Except(b, m)
  {
    if a == [] {
      assert a + b == b;
    } else {
      assert (a + b)[1..] == a[1..] + b;
      ExceptConcat(a[1..], b, m);
    }
  }

  lemma {:induction false} ExceptIdle<T>(s: seq<T>, m: set<T>)
    requires forall x <- s :: x !in m
    ensures Except(s, m) == s
  {
    if s == [] {
    } else {
      assert s[0] in s;
      ExceptIdle(s[1..], m);
    }
  }

  lemma {:induction false} ExceptWithout<T>(s: seq<T>, x: T, m: set<T>)
    requires x in m
    ensures Except(Without(s, x), m) == Except(s, m)
  {
    if s == [] {
    } else {
      ExceptWithout(s[1..], x, m);
      assert s[0] != x ==> ([s[0]] + Without(s[1..], x))[1..] == Without(s[1..], x);
    }
  }

  lemma ExceptOne<T>(x: T, m: set<T>)
    ensures Except([x], m) == if x in m then [] else [x]
    ensures Except<T>([], m) == []
  {
  }

  /** Off the head, or on to the rest. */
  lemma ExceptHead<T>(x: T, s: seq<T>, m: set<T>)
    ensures Except([x] + s, m) == if x in m then Except(s, m) else [x] + Except(s, m)
  {
    assert ([x] + s)[1..] == s;
  }

  lemma ExceptInsert<T>(s: seq<T>, i: nat, x: T, m: set<T>)
    requires x in m && i <= |s|
    ensures Except(Insert(s, i, x), m) == Except(s, m)
  {
    ExceptOne(x, m);
    hide Except;
    ExceptConcat(s[..i] + [x], s[i..], m);
    ExceptConcat(s[..i], [x], m);
    ExceptConcat(s[..i], s[i..], m);
    assert s[..i] + s[i..] == s;
  }

  lemma {:induction false} ExceptTwice<T>(s: seq<T>, m: set<T>, n: set<T>)
    ensures Except(Except(s, m), n) == Except(s, m + n)
  {
    if s == [] {
    } else {
      assert s == [s[0]] + s[1..];
      ExceptHead(s[0], s[1..], m);
      ExceptHead(s[0], s[1..], m + n);
      ExceptHead(s[0], Except(s[1..], m), n);
      hide Except;
      ExceptTwice(s[1..], m, n);
    }
  }

  lemma ExceptWiden<T>(a: seq<T>, b: seq<T>, m: set<T>, n: set<T>)
    requires Except(a, m) == Except(b, m) && m <= n
    ensures Except(a, n) == Except(b, n)
  {
    ExceptTwice(a, m, n);
    ExceptTwice(b, m, n);
    assert m + n == n;
  }

  lemma {:induction false} WithoutIsExcept<T>(s: seq<T>, x: T)
    requires x !in Without(s, x)
    ensures Without(s, x) == Except(s, {x})
  {
    if s == [] {
    } else if s[0] == x {
      ExceptIdle(s[1..], {x});
    } else {
      assert ([s[0]] + Without(s[1..], x))[1..] == Without(s[1..], x);
      WithoutIsExcept(s[1..], x);
    }
  }

  lemma {:induction false} ExceptShortens<T>(s: seq<T>, m: set<T>)
    ensures |Except(s, m)| <= |s| && (|Except(s, m)| == |s| <==> forall x <- s :: x !in m)
  {
    if s == [] {
    } else {
      assert s == [s[0]] + s[1..];
      ExceptShortens(s[1..], m);
    }
  }

  lemma ExceptFront<T>(s: seq<T>, m: set<T>, k: nat)
    requires k < |s|
    ensures Except(s, m) == Except(s[..k + 1], m) + Except(s[k + 1..], m)
    ensures |Except(s[..k + 1], m)| <= k + 1
    ensures |Except(s[..k + 1], m)| == k + 1 <==> forall j | 0 <= j <= k :: s[j] !in m
  {
    hide Except;
    assert s == s[..k + 1] + s[k + 1..];
    ExceptConcat(s[..k + 1], s[k + 1..], m);
    ExceptShortens(s[..k + 1], m);
    forall j | 0 <= j <= k ensures s[j] in s[..k + 1] { assert s[..k + 1][j] == s[j]; }
  }

  /** Of a list without repetitions, index `k` holds the same element afterwards exactly if none up to there is dropped. */
  lemma ExceptAt<T>(s: seq<T>, m: set<T>, k: nat)
    requires Distinct(s) && k < |s|
    ensures k < |Except(s, m)| && Except(s, m)[k] == s[k] <==> forall j | 0 <= j <= k :: s[j] !in m
  {
    hide Except;
    var front, rest := Except(s[..k + 1], m), Except(s[k + 1..], m);
    ExceptFront(s, m, k);
    if |front| == k + 1 {
      ExceptIdle(s[..k + 1], m);
    } else if k < |Except(s, m)| {
      assert Except(s, m)[k] == rest[k - |front|] && rest[k - |front|] in rest;
      assert Except(s, m)[k] in s[k + 1..];
    }
  }

  // ----- Held cards -----

  /** The cards that are in some slot, pile or material list. */
  ghost function Held<C>(b: Board<C>): set<C> {
    set c | c in b.facts && !Loose(b, c)
  }

  /** What a slot holds, cards of `m` aside. */
  ghost function Apart<C>(o: Option<C>, m: set<C>): Option<C> { if o.Some? && o.value in m then None else o }

  /** Every card not in `m` is where it was: in the same slot or none, and in every list in the same order. */
  ghost predicate Stays<C>(b: Board<C>, r: Board<C>, m: set<C>) {
    && (forall s :: Apart(SlotCard(r, s), m) == Apart(SlotCard(b, s), m))
    && r.piles.Keys == b.piles.Keys && b.facts.Keys <= r.facts.Keys
    && (forall z <- b.piles :: Except(r.piles[z], m) == Except(b.piles[z], m))
    && (forall h <- b.facts :: Except(r.facts[h].materials, m) == Except(b.facts[h].materials, m))
    && (forall h <- r.facts :: h !in b.facts ==> Except(r.facts[h].materials, m) == [])
  }

  lemma StaysTrans<C>(a: Board<C>, b: Board<C>, r: Board<C>, m: set<C>)
    requires Stays(a, b, m) && Stays(b, r, m)
    ensures Stays(a, r, m)
  {
    hide Except, SlotCard, Apart;
  }

  lemma StaysWiden<C>(b: Board<C>, r: Board<C>, m: set<C>, n: set<C>)
    requires Stays(b, r, m) && m <= n
    ensures Stays(b, r, n)
  {
    assert Except<C>([], n) == [];
    hide Except, SlotCard;
    forall s ensures Apart(SlotCard(r, s), n) == Apart(SlotCard(b, s), n) {
      assert Apart(SlotCard(r, s), m) == Apart(SlotCard(b, s), m);
    }
    forall z <- b.piles { ExceptWiden(r.piles[z], b.piles[z], m, n); }
    forall h <- b.facts { ExceptWiden(r.facts[h].materials, b.facts[h].materials, m, n); }
    forall h <- r.facts | h !in b.facts ensures Except(r.facts[h].materials, n) == [] {
      ExceptTwice(r.facts[h].materials, m, n);
      assert m + n == n;
    }
  }

  /** Who is not in `m` is held afterwards exactly if held before. */
  lemma StaysHeld<C>(b: Board<C>, r: Board<C>, m: set<C>, d: C)
    requires Stays(b, r, m) && d !in m
    ensures Loose(r, d) <==> Loose(b, d)
  {
    forall s ensures SlotCard(r, s) == Some(d) <==> SlotCard(b, s) == Some(d) {
      assert Apart(SlotCard(r, s), m) == Apart(SlotCard(b, s), m);
    }
    if !Loose(b, d) {
      if s :| s in b.slots && b.slots[s] == d {
        assert SlotCard(r, s) == Some(d);
      } else if z :| z in b.piles && d in b.piles[z] {
        assert d in Except(r.piles[z], m);
      } else {
        var h :| h in b.facts && d in b.facts[h].materials;
        assert d in Except(r.facts[h].materials, m);
      }
    }
    if !Loose(r, d) {
      if s :| s in r.slots && r.slots[s] == d {
        assert SlotCard(b, s) == Some(d);
      } else if z :| z in r.piles && d in r.piles[z] {
        assert d in Except(b.piles[z], m);
      } else {
        var h :| h in r.facts && d in r.facts[h].materials;
        assert d in Except(r.facts[h].materials, m);
        assert d in Except(b.facts[h].materials, m);
      }
    }
  }

  /** The same lists and slots, whatever else was written. */
  lemma SameListsStay<C>(b: Board<C>, r: Board<C>)
    requires r.slots == b.slots && r.piles == b.piles && r.facts.Keys == b.facts.Keys
    requires forall h <- b.facts :: r.facts[h].materials == b.facts[h].materials
    ensures Stays(b, r, {}) && Held(r) == Held(b)
  {
    hide Except;
  }

  // ----- Dropping cards -----

  /** `r` is `b` with the cards of `m` taken out of every slot and list. */
  ghost predicate Stripped<C>(b: Board<C>, r: Board<C>, m: set<C>) {
    && (forall s :: SlotCard(r, s) == Apart(SlotCard(b, s), m))
    && r.piles.Keys == b.piles.Keys && r.facts.Keys == b.facts.Keys
    && (forall z <- b.piles :: r.piles[z] == Except(b.piles[z], m))
    && (forall h <- b.facts :: r.facts[h].materials == Except(b.facts[h].materials, m))
  }

  lemma StrippedNone<C>(b: Board<C>)
    ensures Stripped(b, b, {})
  {
    hide Except;
    forall z <- b.piles { ExceptIdle(b.piles[z], {}); }
    forall h <- b.facts { ExceptIdle(b.facts[h].materials, {}); }
  }

  lemma StrippedTrans<C>(a: Board<C>, b: Board<C>, r: Board<C>, m: set<C>, n: set<C>)
    requires Stripped(a, b, m) && Stripped(b, r, n)
    ensures Stripped(a, r, m + n)
  {
    hide Except, SlotCard;
    forall s ensures SlotCard(r, s) == Apart(SlotCard(a, s), m + n) {
      assert SlotCard(b, s) == Apart(SlotCard(a, s), m);
    }
    forall z <- a.piles { ExceptTwice(a.piles[z], m, n); }
    forall h <- a.facts { ExceptTwice(a.facts[h].materials, m, n); }
  }

  lemma StrippedStays<C>(b: Board<C>, r: Board<C>, m: set<C>)
    requires Stripped(b, r, m)
    ensures Stays(b, r, m) && (forall d <- m :: Loose(r, d)) && Held(r) == Held(b) - m
  {
    assert Stays(b, r, m) by {
      hide Except;
      forall z <- b.piles { ExceptTwice(b.piles[z], m, m); }
      forall h <- b.facts { ExceptTwice(b.facts[h].materials, m, m); }
      assert m + m == m;
    }
    hide Except, Stays;
    forall d <- m ensures Loose(r, d) {
      forall s <- r.slots ensures r.slots[s] != d { assert SlotCard(r, s) == Some(r.slots[s]); }
    }
    forall d | d !in m ensures Loose(r, d) <==> Loose(b, d) { StaysHeld(b, r, m, d); }
  }

  // ----- The primitive operations -----

  ghost predicate ListLifted<T>(before: seq<T>, after: seq<T>, x: T) {
    after == before || after == Without(before, x)
  }

  lemma DetachLists<C>(b: Board<C>, c: C, from: LocInfo)
    requires Closed(b)
    ensures var r := Detach(b, c, from);
            && r.piles == b.piles && r.slots == b.slots
            && (forall h <- b.facts :: ListLifted(b.facts[h].materials, r.facts[h].materials, c))
  {
    hide RefersWithin, CardAt;
  }

  lemma LiftLists<C>(b: Board<C>, c: C, from: LocInfo)
    requires Closed(b)
    ensures var r := RemoveFrom(b, c, from);
            && r.piles.Keys == b.piles.Keys
            && (forall z <- b.piles :: ListLifted(b.piles[z], r.piles[z], c))
            && (forall h <- b.facts :: ListLifted(b.facts[h].materials, r.facts[h].materials, c))
  {
    hide RefersWithin, Detach;
    DetachLists(b, c, from);
  }

  lemma LiftSlots<C>(b: Board<C>, c: C, from: LocInfo)
    requires Closed(b)
    ensures var r := RemoveFrom(b, c, from);
            forall s :: SlotCard(r, s) == SlotCard(b, s) || (SlotCard(b, s) == Some(c) && SlotCard(r, s) == None)
  {
    hide RefersWithin;
  }

  /** However `c` is removed, no other card moves. */
  lemma RemoveStays<C>(b: Board<C>, c: C, from: LocInfo, m: set<C>)
    requires Closed(b) && c in m
    ensures Stays(b, RemoveFrom(b, c, from), m)
  {
    hide Closed, RemoveFrom, Except, SlotCard;
    var r := RemoveFrom(b, c, from);
    LiftLists(b, c, from);
    LiftSlots(b, c, from);
    forall z <- b.piles { ExceptWithout(b.piles[z], c, m); }
    forall h <- b.facts { ExceptWithout(b.facts[h].materials, c, m); }
  }

  /** If the removal takes `c` off the board, it does nothing else. */
  lemma RemoveStrips<C>(b: Board<C>, c: C, from: LocInfo)
    requires Closed(b) && Loose(RemoveFrom(b, c, from), c)
    ensures Stripped(b, RemoveFrom(b, c, from), {c})
  {
    hide Closed, RemoveFrom, Except;
    var r := RemoveFrom(b, c, from);
    LiftLists(b, c, from);
    LiftSlots(b, c, from);
    forall z <- b.piles ensures r.piles[z] == Except(b.piles[z], {c}) { Lifted(b.piles[z], r.piles[z], c); }
    forall h <- b.facts ensures r.facts[h].materials == Except(b.facts[h].materials, {c}) {
      Lifted(b.facts[h].materials, r.facts[h].materials, c);
    }
  }

  lemma Lifted<T>(before: seq<T>, after: seq<T>, x: T)
    requires ListLifted(before, after, x) && x !in after
    ensures after == Except(before, {x})
  {
    if after == before { ExceptIdle(before, {x}); } else { WithoutIsExcept(before, x); }
  }

  /** The places a card may be put down in without a host. */
  predicate IsContainer(location: int) { IsField(location) || IsPile(location) }

  lemma PutAtSlots<C>(b: Board<C>, c: C, player: int, location: int, sequence: int)
    requires Closed(b) && c in b.facts && (IsField(location) ==> IsSlot(Slot(player, location, sequence)))
    ensures PutAt(b, c, player, location, sequence).slots ==
              if IsField(location) then b.slots[Slot(player, location, sequence) := c] else b.slots
  {
  }

  lemma PutAtPile<C>(b: Board<C>, c: C, player: int, location: int, sequence: int, z: Zone)
    requires Closed(b) && c in b.facts && (IsField(location) ==> IsSlot(Slot(player, location, sequence))) && z in b.piles
    ensures PutAt(b, c, player, location, sequence).piles[z] ==
              if z == Zone(player, location) then Insert(b.piles[z], Clamp(sequence, 0, |b.piles[z]|), c) else b.piles[z]
  {
  }

  lemma PutAtMaterials<C>(b: Board<C>, c: C, player: int, location: int, sequence: int, h: C)
    requires Closed(b) && c in b.facts && (IsField(location) ==> IsSlot(Slot(player, location, sequence))) && h in b.facts
    ensures PutAt(b, c, player, location, sequence).facts[h].materials == b.facts[h].materials
  {
  }

  /** Putting a card down moves no other, if the slot's occupant is counted among the moved. */
  lemma PutAtStays<C>(b: Board<C>, c: C, player: int, location: int, sequence: int, m: set<C>)
    requires Closed(b) && c in b.facts && (IsField(location) ==> IsSlot(Slot(player, location, sequence))) && c in m
    requires IsField(location) && Slot(player, location, sequence) in b.slots ==> b.slots[Slot(player, location, sequence)] in m
    ensures Stays(b, PutAt(b, c, player, location, sequence), m)
  {
    var r := PutAt(b, c, player, location, sequence);
    PutAtSlots(b, c, player, location, sequence);
    hide Closed, PutAt, Except;
    forall z <- b.piles ensures Except(r.piles[z], m) == Except(b.piles[z], m) {
      PutAtPile(b, c, player, location, sequence, z);
      ExceptInsert(b.piles[z], Clamp(sequence, 0, |b.piles[z]|), c, m);
    }
    forall h <- b.facts { PutAtMaterials(b, c, player, location, sequence, h); }
  }

  /** The card put down is on the board if there was a slot or pile, or it was on it already. */
  lemma PutAtHolds<C>(b: Board<C>, c: C, player: int, location: int, sequence: int)
    requires Closed(b) && c in b.facts && (IsField(location) ==> IsSlot(Slot(player, location, sequence)))
    requires IsPile(location) ==> IsPlayer(player)
    requires IsContainer(location) || Loose(b, c)
    ensures Loose(PutAt(b, c, player, location, sequence), c) <==> !IsContainer(location)
  {
    var r := PutAt(b, c, player, location, sequence);
    PutAtSlots(b, c, player, location, sequence);
    if IsField(location) {
      var s := Slot(player, location, sequence);
      assert s in r.slots && r.slots[s] == c;
    } else if IsPile(location) {
      var z := Zone(player, location);
      PutAtPile(b, c, player, location, sequence, z);
      InsertElements(b.piles[z], Clamp(sequence, 0, |b.piles[z]|), c);
      assert c in r.piles[z];
    } else {
      StillLoose(b, c, player, location, sequence);
    }
  }

  lemma StillLoose<C>(b: Board<C>, c: C, player: int, location: int, sequence: int)
    requires Closed(b) && c in b.facts && Loose(b, c) && !IsContainer(location)
    ensures Loose(PutAt(b, c, player, location, sequence), c)
  {
    hide RefersWithin;
  }

  // ----- Who is found at an address afterwards -----

  /** Taking `c` off the board changes who is found at the host address of `loc`: it is the host, or stands before it in its pile. */
  ghost predicate Displaces<C>(b: Board<C>, c: C, loc: LocInfo)
    requires Closed(b)
  {
    && HostAt(b, loc).Some?
    && (HostAt(b, loc) == Some(c)
        || exists k :: 0 <= k < loc.sequence && IsPile(HostLocation(loc.location)) && CardAt(b, loc.controller, HostLocation(loc.location), k) == Some(c))
  }

  lemma HostAfter<C>(b: Board<C>, r: Board<C>, m: set<C>, loc: LocInfo)
    requires WellFormed(b) && Closed(r) && Stripped(b, r, m) && HostAt(b, loc).Some?
    ensures HostAt(r, loc) == HostAt(b, loc) <==> forall d <- m :: !Displaces(b, d, loc)
  {
    hide Except, SlotsPoint, PilesPoint, MaterialsPoint, OneHost, Linked, RefersWithin;
    var l := HostLocation(loc.location);
    if IsField(l) {
      var s := Slot(loc.controller, l, loc.sequence);
      assert SlotCard(r, s) == Apart(SlotCard(b, s), m);
    } else {
      var z := Zone(loc.controller, l);
      var k := loc.sequence;
      PileDistinct(b, z);
      ExceptAt(b.piles[z], m, k);
      forall j | 0 <= j <= k ensures b.piles[z][j] in m ==> Displaces(b, b.piles[z][j], loc) {
        assert CardAt(b, loc.controller, l, j) == Some(b.piles[z][j]);
      }
      forall d <- m | Displaces(b, d, loc) ensures exists j :: 0 <= j <= k && b.piles[z][j] in m {
        if HostAt(b, loc) == Some(d) { assert b.piles[z][k] in m; }
      }
    }
  }
}
