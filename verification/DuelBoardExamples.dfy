/**
 Inputs on which the client's board does lose a card or its order: two small boards, in order themselves, and a legal
 message for each way the exact conditions can fail. The last is a message whose errors cancel out.
 */
module DuelBoardExamples {
  import opened Wrappers
  import opened DuelBoard
  import opened DuelBoardInvariants
  import opened DuelBoardMoves
  import opened DuelBoardHeld
  import opened DuelBoardSwap
  import opened DuelBoardRemoval
  import opened DuelBoardRows
  import opened DuelBoardConservation
  import opened DuelBoardLosses
  import opened DuelBoardArrivals

  ghost function At(location: int, sequence: int, materials: seq<nat>): Facts<nat> {
    Facts(0, 0, 0, location, sequence, materials, None, {}, {}, {})
  }

  ghost function NoPiles(): map<Zone, seq<nat>> { map z | z in AllZones() :: [] }

  const MONSTER_0 := Slot(0, LOCATION_MZONE, 0)
  const MONSTER_1 := Slot(0, LOCATION_MZONE, 1)
  const HAND_0 := Zone(0, LOCATION_HAND)

  /** Card 0 in the first monster zone, card 1 in the second with card 2 under it. */
  ghost function Field(): Board<nat> {
    Board(map[0 := At(LOCATION_MZONE, 0, []), 1 := At(LOCATION_MZONE, 1, [2]), 2 := At(LOCATION_OVERLAY, 0, [])],
          map[MONSTER_0 := 0, MONSTER_1 := 1], NoPiles())
  }

  /** Cards 0 and 1 in hand, card 2 under card 1. */
  ghost function Hand(): Board<nat> {
    Board(map[0 := At(LOCATION_HAND, 0, []), 1 := At(LOCATION_HAND, 1, [2]), 2 := At(LOCATION_OVERLAY, 0, [])],
          map[], NoPiles()[HAND_0 := [0, 1]])
  }

  const FIRST := LocInfo(0, LOCATION_MZONE, 0, 0)
  const SECOND := LocInfo(0, LOCATION_MZONE, 1, 0)
  const MATERIAL := LocInfo(0, LOCATION_MZONE + LOCATION_OVERLAY, 1, 0)
  const HAND_FIRST := LocInfo(0, LOCATION_HAND, 0, 0)
  const HAND_MATERIAL := LocInfo(0, LOCATION_HAND + LOCATION_OVERLAY, 1, 0)

  lemma FieldClosed()
    ensures Closed(Field())
  {
  }

  lemma FieldPoints()
    ensures Closed(Field()) && SlotsPoint(Field()) && PilesPoint(Field())
  {
    FieldClosed();
    hide Closed;
  }

  lemma FieldMaterials()
    ensures Closed(Field()) && MaterialsPoint(Field()) && OneHost(Field())
  {
    FieldClosed();
    hide Closed;
    forall h <- Field().facts, i | 0 <= i < |Field().facts[h].materials|
      ensures MaterialPoints(Field().facts[Field().facts[h].materials[i]], i)
    {
      assert h == 1 && i == 0;
    }
  }

  lemma FieldLinked()
    ensures Linked(Field())
  {
  }

  lemma FieldWellFormed()
    ensures WellFormed(Field())
  {
    FieldClosed();
    FieldPoints();
    FieldMaterials();
    FieldLinked();
    hide Closed, SlotsPoint, PilesPoint, MaterialsPoint, OneHost, Linked, Field;
  }

  lemma HandClosed()
    ensures Closed(Hand())
  {
  }

  lemma HandPoints()
    ensures Closed(Hand()) && SlotsPoint(Hand()) && PilesPoint(Hand())
  {
    HandClosed();
    hide Closed;
  }

  lemma HandMaterials()
    ensures Closed(Hand()) && MaterialsPoint(Hand()) && OneHost(Hand())
  {
    HandClosed();
    hide Closed;
    forall h <- Hand().facts, i | 0 <= i < |Hand().facts[h].materials|
      ensures MaterialPoints(Hand().facts[Hand().facts[h].materials[i]], i)
    {
      assert h == 1 && i == 0;
    }
  }

  lemma HandLinked()
    ensures Linked(Hand())
  {
  }

  lemma HandWellFormed()
    ensures WellFormed(Hand())
  {
    HandPoints();
    HandMaterials();
    HandLinked();
    hide Closed, SlotsPoint, PilesPoint, MaterialsPoint, OneHost, Linked, Hand;
  }

  /** Who is found where. */
  lemma FieldReads()
    ensures Closed(Field())
    ensures Resolve(Field(), FIRST) == Some(0) && Resolve(Field(), SECOND) == Some(1) && Resolve(Field(), MATERIAL) == Some(2)
    ensures HostAt(Field(), MATERIAL) == Some(1) && CardAt(Field(), 0, LOCATION_MZONE, 0) == Some(0)
    ensures Occupant(Field(), SECOND) == Some(1) && Field().facts[0].sequence == 0 && Field().facts[0].controller == 0
  {
    FieldClosed();
    hide Closed;
  }

  lemma HandReads()
    ensures Closed(Hand())
    ensures Resolve(Hand(), HAND_FIRST) == Some(0) && Resolve(Hand(), HAND_MATERIAL) == Some(2)
    ensures HostAt(Hand(), HAND_MATERIAL) == Some(1) && CardAt(Hand(), 0, LOCATION_HAND, 0) == Some(0)
  {
    HandClosed();
    hide Closed;
  }

  /** A Swap that names one hand card at both ends gives it two places. */
  lemma SwapOfOneHandCard()
    ensures WellFormed(Hand()) && Legal(Swap(HAND_FIRST, HAND_FIRST)) && !WellFormed(ApplySwap(Hand(), HAND_FIRST, HAND_FIRST))
  {
    hide WellFormed, Closed, Field, Hand, Resolve, HostAt, CardAt, Held, ApplySwap;
    HandWellFormed();
    HandReads();
    SwapExact(Hand(), HAND_FIRST, HAND_FIRST);
  }

  /** A Swap of a host and the material under it leaves the material listed under a card out of play. */
  lemma SwapOfHostAndMaterial()
    ensures WellFormed(Field()) && Legal(Swap(SECOND, MATERIAL)) && !WellFormed(ApplySwap(Field(), SECOND, MATERIAL))
  {
    hide WellFormed, Closed, Field, Hand, Resolve, HostAt, CardAt, Held, ApplySwap;
    FieldWellFormed();
    FieldReads();
    SwapExact(Field(), SECOND, MATERIAL);
  }

  /** A Swap of the card before a host in its pile and the host's material: the pile moves up and the material stays listed. */
  lemma SwapBeforeHost()
    ensures WellFormed(Hand()) && Legal(Swap(HAND_FIRST, HAND_MATERIAL)) && !WellFormed(ApplySwap(Hand(), HAND_FIRST, HAND_MATERIAL))
  {
    hide WellFormed, Closed, Field, Hand, Resolve, HostAt, CardAt, Held, ApplySwap;
    HandWellFormed();
    HandReads();
    SwapExact(Hand(), HAND_FIRST, HAND_MATERIAL);
  }

  lemma MaterialSwapLegal()
    ensures Closed(Field()) && Legal(Swap(FIRST, MATERIAL)) && Writable(FIRST) && Writable(MATERIAL)
    ensures !NamesPileCardTwice(Field(), FIRST, MATERIAL) && !Strands(Field(), FIRST, MATERIAL)
    ensures 0 in SwapLost(Field(), FIRST, MATERIAL)
  {
    FieldReads();
    hide Closed, Field, Resolve, HostAt, CardAt;
  }

  /** A Swap with another card's material keeps the board in order and loses the first card. */
  lemma SwapWithMaterial()
    ensures WellFormed(Field()) && Legal(Swap(FIRST, MATERIAL)) && WellFormed(ApplySwap(Field(), FIRST, MATERIAL))
    ensures 0 in Held(Field()) && 0 !in Held(ApplySwap(Field(), FIRST, MATERIAL))
  {
    hide *;
    FieldWellFormed();
    FieldReads();
    MaterialSwapLegal();
    SwapExact(Field(), FIRST, MATERIAL);
    SwapHeld(Field(), FIRST, MATERIAL);
    ResolvedIsHeld(Field(), 0, FIRST);
  }

  /** A Move onto an occupied slot loses its occupant. */
  lemma MoveOntoCard()
    ensures WellFormed(Field()) && Legal(Move(0, FIRST, SECOND))
    ensures 1 in Held(Field()) && 1 !in Held(ApplyMove(Field(), 0, FIRST, SECOND, []))
  {
    hide WellFormed, Closed, Field, Hand, Resolve, HostAt, CardAt, Held, ApplyMove, Stays;
    FieldWellFormed();
    FieldReads();
    MoveConserves(Field(), 0, FIRST, SECOND, 0);
    ResolvedIsHeld(Field(), 1, SECOND);
  }

  lemma NoHostThere(to: LocInfo)
    requires to == LocInfo(0, LOCATION_MZONE + LOCATION_OVERLAY, 4, 0) || to == LocInfo(0, LOCATION_MZONE + LOCATION_SZONE, 4, 0)
    ensures Closed(Field()) && !Arrives(Field(), 0, to)
  {
    FieldClosed();
    hide Closed;
  }

  /** A Move under a host that is not there loses the card, and so does one to a byte that names no container. */
  lemma MoveNowhere(to: LocInfo)
    requires to == LocInfo(0, LOCATION_MZONE + LOCATION_OVERLAY, 4, 0) || to == LocInfo(0, LOCATION_MZONE + LOCATION_SZONE, 4, 0)
    ensures WellFormed(Field()) && Legal(Move(0, FIRST, to))
    ensures 0 in Held(Field()) && 0 !in Held(ApplyMove(Field(), 0, FIRST, to, []))
  {
    hide WellFormed, Closed, Field, Hand, Resolve, HostAt, CardAt, Held, ApplyMove, Stays;
    FieldWellFormed();
    FieldReads();
    NoHostThere(to);
    MoveConserves(Field(), 0, FIRST, to, 0);
    ResolvedIsHeld(Field(), 0, FIRST);
  }

  lemma TwoFallen()
    ensures Closed(Field()) && Fallen(Field(), [SECOND, MATERIAL], 2) == {1}
  {
    FieldReads();
    hide Closed, Field, Resolve, HostAt, CardAt;
    assert Fallen(Field(), [SECOND, MATERIAL], 1) == {1};
  }

  /** RemoveCards that names a host before its material leaves the material listed under the departed host. */
  lemma RemoveHostFirst()
    ensures WellFormed(Field()) && Legal(RemoveCards([SECOND, MATERIAL]))
    ensures 1 !in Held(ApplyRemoveCards(Field(), [SECOND, MATERIAL])) && 2 in Held(ApplyRemoveCards(Field(), [SECOND, MATERIAL]))
  {
    hide WellFormed, Closed, Field, Hand, Resolve, HostAt, CardAt, Held, ApplyRemoveCards, Stripped;
    FieldWellFormed();
    FieldReads();
    RemoveCardsExact(Field(), [SECOND, MATERIAL]);
    TwoFallen();
    ResolvedIsHeld(Field(), 1, SECOND);
    ResolvedIsHeld(Field(), 2, MATERIAL);
  }

  /** The whole message is one step. */
  lemma OneStep(c: nat, from: LocInfo, to: LocInfo)
    requires Closed(Field()) && CardAt(Field(), from.controller, LOCATION_MZONE, from.sequence) == Some(c)
    requires to.location != 0 && IsPlayer(to.controller)
    ensures c in Field().facts
    ensures ApplyShuffleSetCard(Field(), LOCATION_MZONE, [from], [to])
         == Reseat(Forgotten(Field(), Shuffled(Field(), LOCATION_MZONE, [from])), c, LOCATION_MZONE, to)
  {
    hide Closed, Reseat, CardAt, Field, Forgotten;
    var shuffled := Shuffled(Field(), LOCATION_MZONE, [from]);
    assert shuffled == [Some(c)];
    assert ReseatLoop(Forgotten(Field(), shuffled), LOCATION_MZONE, shuffled, [to], 0) == Forgotten(Field(), shuffled);
  }

  lemma SlotShape(b: Board<nat>)
    requires Closed(b) && SameShape(Field(), b)
    ensures Found(b, 0) && b.facts[0].sequence == 0 && b.facts[0].controller == 0
  {
    hide Closed;
    assert SlotCard(b, MONSTER_0) == Some(0);
  }

  /** A ShuffleSetCard that re-places a card on the other side puts it into both rows. */
  lemma ShuffleAcross()
    ensures WellFormed(Field())
    ensures var to := LocInfo(1, LOCATION_MZONE, 3, 0);
            && Legal(ShuffleSetCard(LOCATION_MZONE, [FIRST], [to]))
            && !WellFormed(ApplyShuffleSetCard(Field(), LOCATION_MZONE, [FIRST], [to]))
  {
    hide WellFormed, Closed, Field, CardAt, Reseat, Forgotten, SameShape, Found, ApplyShuffleSetCard;
    FieldWellFormed();
    FieldReads();
    var to := LocInfo(1, LOCATION_MZONE, 3, 0);
    var shuffled := Shuffled(Field(), LOCATION_MZONE, [FIRST]);
    ForgottenWellFormed(Field(), shuffled);
    var b := Forgotten(Field(), shuffled);
    SlotShape(b);
    OneStep(0, FIRST, to);
    ReseatExact(b, 0, LOCATION_MZONE, to);
  }

  // ----- A Swap that moves the cards between -----

  /** Cards 0, 1 and 2 in hand. */
  ghost function HandOfThree(): Board<nat> {
    Board(map[0 := At(LOCATION_HAND, 0, []), 1 := At(LOCATION_HAND, 1, []), 2 := At(LOCATION_HAND, 2, [])],
          map[], NoPiles()[HAND_0 := [0, 1, 2]])
  }

  const HAND_SECOND := LocInfo(0, LOCATION_HAND, 1, 0)

  lemma HandOfThreeClosed()
    ensures Closed(HandOfThree())
  {
  }

  lemma HandOfThreeLinked()
    ensures OneHost(HandOfThree()) && Linked(HandOfThree())
  {
    hide NoPiles;
  }

  lemma HandOfThreeWellFormed()
    ensures WellFormed(HandOfThree())
  {
    HandOfThreeClosed();
    HandOfThreeLinked();
    hide Closed, OneHost, Linked;
  }

  /** A Swap of the first two of three hand cards does not exchange them: the third comes to stand between. */
  lemma SwapOfNeighbours()
    ensures WellFormed(HandOfThree()) && Legal(Swap(HAND_FIRST, HAND_SECOND)) && HAND_0 in HandOfThree().piles
    ensures HandOfThree().piles[HAND_0] == [0, 1, 2] && ApplySwap(HandOfThree(), HAND_FIRST, HAND_SECOND).piles[HAND_0] != [1, 0, 2]
  {
    hide WellFormed, Closed, ApplySwap;
    HandOfThreeWellFormed();
    HandOfThreeClosed();
    assert [0, 1, 2][0 := 1][1 := 0] == [1, 0, 2];
    SwapInPile(HandOfThree(), HAND_FIRST, HAND_SECOND);
  }

  // ----- Crossing and coming back -----

  /** Card 0 in one player's first monster zone, card 1 in the other's zone `k`. */
  ghost function Facing(k: nat): Board<nat> {
    Board(map[0 := At(LOCATION_MZONE, 0, []), 1 := At(LOCATION_MZONE, k, []).(controller := 1)],
          map[MONSTER_0 := 0, Slot(1, LOCATION_MZONE, k) := 1], NoPiles())
  }

  lemma FacingClosed(k: nat)
    requires k < 7
    ensures Closed(Facing(k)) && OneHost(Facing(k)) && Linked(Facing(k))
  {
  }

  lemma FacingWellFormed(k: nat)
    requires k < 7
    ensures WellFormed(Facing(k))
  {
    FacingClosed(k);
    hide Closed, OneHost, Linked;
  }

  const THEIRS := LocInfo(1, LOCATION_MZONE, 0, 0)
  const THEIRS_NEXT := LocInfo(1, LOCATION_MZONE, 1, 0)

  ghost function CrossingFrom(): seq<LocInfo> { [FIRST, THEIRS] }

  ghost function CrossingTo(): (r: seq<LocInfo>)
    ensures forall to <- r :: IsPlayer(to.controller)
  {
    [THEIRS, THEIRS_NEXT]
  }

  /** After the first exchange card 0 is written over card 1 and stays where it was too. */
  ghost function Crossed(): Board<nat> { Facing(0).(slots := Facing(0).slots[Slot(1, LOCATION_MZONE, 0) := 0]) }

  lemma FacingShuffled()
    ensures Closed(Facing(0)) && Facing(0).facts.Keys == {0, 1}
    ensures Shuffled(Facing(0), LOCATION_MZONE, CrossingFrom()) == [Some(0), Some(1)]
  {
    FacingClosed(0);
    hide Closed;
  }

  lemma NothingForgotten(shuffled: seq<Option<nat>>)
    ensures Closed(Facing(0)) && Forgotten(Facing(0), shuffled) == Facing(0)
  {
    FacingClosed(0);
    hide Closed;
    assert Forgotten(Facing(0), shuffled).facts == Facing(0).facts;
  }

  /** An exchange with a card of the same number writes one slot. */
  lemma EvenExchange(b: Board<nat>)
    requires Closed(b) && 0 in b.facts && 1 in b.facts && b.facts[0].sequence == 0 && b.facts[1].sequence == 0
    requires SlotCard(b, Slot(1, LOCATION_MZONE, 0)) == Some(1)
    ensures Reseat(b, 0, LOCATION_MZONE, THEIRS) == b.(slots := b.slots[Slot(1, LOCATION_MZONE, 0) := 0])
  {
    hide Closed;
    assert b.facts[0].(sequence := 0) == b.facts[0] && b.facts[1].(sequence := 0) == b.facts[1];
    assert b.facts[0 := b.facts[0]] == b.facts && b.facts[1 := b.facts[1]] == b.facts;
  }

  lemma FirstCrosses()
    ensures Closed(Facing(0)) && Reseat(Facing(0), 0, LOCATION_MZONE, THEIRS) == Crossed()
  {
    FacingClosed(0);
    hide Closed, Reseat;
    EvenExchange(Facing(0));
  }

  lemma SecondReturns()
    requires Closed(Crossed())
    ensures Reseat(Crossed(), 1, LOCATION_MZONE, THEIRS_NEXT) == Facing(1)
  {
    hide Closed;
  }

  lemma FacingSteps()
    ensures Closed(Facing(0))
    ensures AfterSteps(Facing(0), LOCATION_MZONE, CrossingFrom(), CrossingTo(), 2) == Facing(1)
  {
    hide Closed, Forgotten, Reseat, Facing, Crossed, CrossingFrom, Shuffled;
    FacingShuffled();
    NothingForgotten([Some(0), Some(1)]);
    FirstCrosses();
    SecondReturns();
    TwoSteps(Facing(0), [Some(0), Some(1)]);
  }

  lemma TwoSteps(b: Board<nat>, shuffled: seq<Option<nat>>)
    requires Closed(b) && 0 in b.facts && 1 in b.facts && shuffled == [Some(0), Some(1)]
    ensures ReseatLoop(b, LOCATION_MZONE, shuffled, CrossingTo(), 2)
         == Reseat(Reseat(b, 0, LOCATION_MZONE, THEIRS), 1, LOCATION_MZONE, THEIRS_NEXT)
  {
    hide Closed, Reseat;
    assert ReseatLoop(b, LOCATION_MZONE, shuffled, CrossingTo(), 0) == b;
  }

  lemma FacingCrosses()
    ensures Closed(Facing(0)) && Relocates(Facing(0), LOCATION_MZONE, CrossingFrom(), CrossingTo(), 0)
    ensures CrossingTo()[0].controller != CrossingFrom()[0].controller
    ensures !SameSide(Facing(0), LOCATION_MZONE, CrossingFrom(), CrossingTo())
  {
    FacingClosed(0);
    hide Closed;
  }

  /** A ShuffleSetCard can cross sides and still end in order, so order at the end alone tells less than order after every step. */
  lemma ShuffleAcrossEndsInOrder()
    ensures WellFormed(Facing(0)) && Legal(ShuffleSetCard(LOCATION_MZONE, CrossingFrom(), CrossingTo()))
    ensures !SameSide(Facing(0), LOCATION_MZONE, CrossingFrom(), CrossingTo())
    ensures !WellFormed(AfterSteps(Facing(0), LOCATION_MZONE, CrossingFrom(), CrossingTo(), 1))
    ensures WellFormed(ApplyShuffleSetCard(Facing(0), LOCATION_MZONE, CrossingFrom(), CrossingTo()))
  {
    hide WellFormed, Closed, AfterSteps, ApplyShuffleSetCard, Facing, Relocates, SameSide;
    FacingWellFormed(0);
    FacingWellFormed(1);
    FacingSteps();
    FacingCrosses();
    CrossingBreaks(Facing(0), LOCATION_MZONE, CrossingFrom(), CrossingTo(), 0);
    LastStep(Facing(0), LOCATION_MZONE, CrossingFrom(), CrossingTo());
  }
}
