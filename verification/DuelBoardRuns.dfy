/**
 Every message the engine may send keeps the board well formed, hence so does every run of messages from the opening
 board, and over every run no card comes or goes that no message accounts for.
 */
module DuelBoardRuns {
  import opened Basics
  import opened Wrappers
  import opened DuelBoard
  import opened DuelBoardInvariants
  import opened DuelBoardMoves
  import opened DuelBoardPiles
  import opened DuelBoardGraveDeck
  import opened DuelBoardRows
  import opened DuelBoardLinks
  import opened DuelBoardSwap
  import opened DuelBoardRemoval
  import opened DuelBoardHeld
  import opened DuelBoardLosses

  // ----- Runs -----

  /** The two messages whose effect depends on the engine naming sensible places. */
  ghost predicate Sensible<C>(b: Board<C>, msg: Message)
    requires Closed(b)
  {
    match msg
    case Swap(loc1, loc2) => !NamesPileCardTwice(b, loc1, loc2) && !Strands(b, loc1, loc2)
    case ShuffleSetCard(_, _, _) => OneSided(b, msg)
    case _ => true
  }

  lemma ApplyWellFormed<C>(b: Board<C>, msg: Message, spare: seq<C>)
    requires WellFormed(b) && Supplies(b, msg, spare) && Sensible(b, msg)
    ensures WellFormed(Apply(b, msg, spare))
  {
    hide SlotsPoint, PilesPoint, MaterialsPoint, OneHost, Linked, Closed;
    match msg
    case Draw(p, cards) => DrawWellFormed(b, p, cards, spare);
    case Move(code, from, to) => MoveWellFormed(b, code, from, to, spare);
    case PosChange(code, p, l, s, was, now) => PosChangeWellFormed(b, code, p, l, s, was, now);
    case Set(code, place) => SetWellFormed(b, code, place, spare);
    case Swap(loc1, loc2) => SwapExact(b, loc1, loc2);
    case UpdateData(p, l, size) => if IsPile(l) { assert Zone(p, l) in b.piles by { PileExists(b, p, l); } ResizeWellFormed(b, Zone(p, l), size, spare); }
    case ShuffleHand(p, codes) => ShuffleHandWellFormed(b, p, codes, spare);
    case SwapGraveDeck(p, mask) => SwapGraveDeckExact(b, p, mask);
    case ShuffleSetCard(l, sources, follow) => ShuffleSetCardExact(b, l, sources, follow);
    case RemoveCards(locations) => RemoveCardsExact(b, locations);
    case Equip(c, t) => EquipWellFormed(b, c, t);
    case CardTarget(c, t) => TargetWellFormed(b, c, t, true);
    case CancelTarget(c, t) => TargetWellFormed(b, c, t, false);
  }

  lemma PileExists<C>(b: Board<C>, p: int, l: Location)
    requires Closed(b) && IsPile(l) && Readable(p, l)
    ensures Zone(p, l) in b.piles
  {
  }

  /** A message with the card objects the client allocates for it. */
  datatype Step<C> = Step(msg: Message, spare: seq<C>)

  /** The board after each of `steps`, or nothing when one of them is not applicable. */
  ghost function Run<C>(b: Board<C>, steps: seq<Step<C>>): (r: Option<Board<C>>)
    decreases |steps|
  {
    if steps == [] then Some(b)
    else
      match Run(b, steps[..|steps| - 1])
      case None => None
      case Some(b1) =>
        var last := steps[|steps| - 1];
        if Supplies(b1, last.msg, last.spare) && Sensible(b1, last.msg) then Some(Apply(b1, last.msg, last.spare)) else None
  }

  lemma {:induction false} RunWellFormed<C>(b: Board<C>, steps: seq<Step<C>>)
    requires WellFormed(b) && Run(b, steps).Some?
    ensures WellFormed(Run(b, steps).value)
    decreases |steps|
  {
    hide WellFormed;
    if steps == [] {
    } else {
      RunWellFormed(b, steps[..|steps| - 1]);
      var last := steps[|steps| - 1];
      ApplyWellFormed(Run(b, steps[..|steps| - 1]).value, last.msg, last.spare);
    }
  }

  ghost predicate KnowsItsPlace<C>(b: Board<C>, c: C) {
    Closed(b) && c in b.facts && CardAt(b, b.facts[c].controller, b.facts[c].location, b.facts[c].sequence) == Some(c)
  }

  /** After any run, a card sits in at most one slot, pile index or material index, and knows which. */
  lemma RunKeepsCardsSingle<C>(b: Board<C>, steps: seq<Step<C>>, spot1: Spot<C>, spot2: Spot<C>, c: C)
    requires WellFormed(b) && Run(b, steps).Some?
    requires Holds(Run(b, steps).value, spot1, c) && Holds(Run(b, steps).value, spot2, c)
    ensures spot1 == spot2
    ensures !spot1.UnderHost? ==> KnowsItsPlace(Run(b, steps).value, c)
  {
    hide SlotsPoint, PilesPoint, MaterialsPoint, OneHost, Linked, Run;
    RunWellFormed(b, steps);
    SingleContainment(Run(b, steps).value, spot1, spot2, c);
    if !spot1.UnderHost? { BackPointersAgree(Run(b, steps).value, spot1, c); }
  }

  /** After any run, every target and equip link is recorded at both ends. */
  lemma RunKeepsLinksTwoEnded<C>(b: Board<C>, steps: seq<Step<C>>, c: C, d: C)
    requires WellFormed(b) && Run(b, steps).Some?
    requires c in Run(b, steps).value.facts && d in Run(b, steps).value.facts
    ensures var f := Run(b, steps).value.facts;
            (d in f[c].targets <==> c in f[d].targetedBy) && (f[c].equipTarget == Some(d) <==> c in f[d].equippedBy)
  {
    hide SlotsPoint, PilesPoint, MaterialsPoint, OneHost, Run;
    RunWellFormed(b, steps);
  }

  // ----- Conservation over runs -----

  lemma RunStep<C>(b: Board<C>, steps: seq<Step<C>>)
    requires Run(b, steps).Some? && steps != []
    ensures var b1 := Run(b, steps[..|steps| - 1]);
            var last := steps[|steps| - 1];
            && b1.Some? && Supplies(b1.value, last.msg, last.spare) && Sensible(b1.value, last.msg)
            && Run(b, steps).value == Apply(b1.value, last.msg, last.spare)
  {
    hide Supplies, Sensible, Apply;
  }

  /** The new cards that found a place in some step of the run. */
  ghost function AllLanded<C>(b: Board<C>, steps: seq<Step<C>>): set<C>
    requires Run(b, steps).Some?
    decreases |steps|
  {
    if steps == [] then {}
    else
      var before, last := steps[..|steps| - 1], steps[|steps| - 1];
      RunStep(b, steps);
      AllLanded(b, before) + Landed(Run(b, before).value, last.msg, last.spare)
  }

  /** The cards that some step of the run loses. */
  ghost function AllLost<C>(b: Board<C>, steps: seq<Step<C>>): set<C>
    requires Run(b, steps).Some?
    decreases |steps|
  {
    if steps == [] then {}
    else
      var before, last := steps[..|steps| - 1], steps[|steps| - 1];
      RunStep(b, steps);
      AllLost(b, before) + Lost(Run(b, before).value, last.msg)
  }

  lemma HeldKnown<C>(b: Board<C>)
    ensures Held(b) <= b.facts.Keys
  {
  }

  /** On the board after any run: what was there and what landed, less what some message lost. */
  lemma {:induction false} RunConserves<C>(b: Board<C>, steps: seq<Step<C>>)
    requires WellFormed(b) && Run(b, steps).Some?
    ensures Held(Run(b, steps).value) == Held(b) + AllLanded(b, steps) - AllLost(b, steps)
    ensures AllLost(b, steps) <= Run(b, steps).value.facts.Keys
    decreases |steps|
  {
    hide WellFormed, Held, Lost, Landed, Sensible, Apply, Supplies;
    if steps == [] {
    } else {
      var before, last := steps[..|steps| - 1], steps[|steps| - 1];
      RunStep(b, steps);
      RunWellFormed(b, before);
      RunConserves(b, before);
      StepConserves(Run(b, before).value, last, AllLost(b, before));
    }
  }

  /** What a step lands was not on the board before, so it is none of the cards lost so far. */
  lemma StepConserves<C>(b: Board<C>, step: Step<C>, lost: set<C>)
    requires WellFormed(b) && Supplies(b, step.msg, step.spare) && Sensible(b, step.msg) && lost <= b.facts.Keys
    ensures Held(Apply(b, step.msg, step.spare)) == Held(b) + Landed(b, step.msg, step.spare) - Lost(b, step.msg)
    ensures Landed(b, step.msg, step.spare) !! lost
    ensures lost + Lost(b, step.msg) <= Apply(b, step.msg, step.spare).facts.Keys
  {
    hide WellFormed, Held, Lost, Landed, Apply;
    assert OneSided(b, step.msg);
    ApplyConserves(b, step.msg, step.spare);
    LostWasHeld(b, step.msg, step.spare);
    HeldKnown(b);
  }

  lemma {:induction false} LostByStep<C>(b: Board<C>, steps: seq<Step<C>>, c: C) returns (i: nat)
    requires Run(b, steps).Some? && c in AllLost(b, steps)
    ensures i < |steps| && Run(b, steps[..i]).Some?
    ensures Closed(Run(b, steps[..i]).value) && Legal(steps[i].msg) && c in Lost(Run(b, steps[..i]).value, steps[i].msg)
    decreases |steps|
  {
    hide Lost, Sensible, Apply, Closed;
    var before, last := steps[..|steps| - 1], steps[|steps| - 1];
    RunStep(b, steps);
    if c in Lost(Run(b, before).value, last.msg) {
      i := |steps| - 1;
    } else {
      i := LostByStep(b, before, c);
      assert before[..i] == steps[..i];
    }
  }

  /** Over any run a card leaves the board only by a message that loses it, and while none does all are there. */
  lemma RunLosesOnlyNamed<C>(b: Board<C>, steps: seq<Step<C>>, c: C)
    requires WellFormed(b) && Run(b, steps).Some?
    requires c in Held(b) || c in AllLanded(b, steps)
    ensures c !in Held(Run(b, steps).value) <==>
              exists i :: 0 <= i < |steps| && Run(b, steps[..i]).Some? && Closed(Run(b, steps[..i]).value) && Legal(steps[i].msg)
                          && c in Lost(Run(b, steps[..i]).value, steps[i].msg)
  {
    hide WellFormed, Held, Lost, Landed, Sensible, Apply, Supplies, Run;
    RunConserves(b, steps);
    if c !in Held(Run(b, steps).value) {
      var i := LostByStep(b, steps, c);
    }
    if i :| 0 <= i < |steps| && Run(b, steps[..i]).Some? && Closed(Run(b, steps[..i]).value) && Legal(steps[i].msg)
            && c in Lost(Run(b, steps[..i]).value, steps[i].msg) {
      StepIsCounted(b, steps, c, i);
    }
  }

  lemma {:induction false} StepIsCounted<C>(b: Board<C>, steps: seq<Step<C>>, c: C, i: nat)
    requires Run(b, steps).Some? && i < |steps| && Run(b, steps[..i]).Some?
    requires Closed(Run(b, steps[..i]).value) && Legal(steps[i].msg) && c in Lost(Run(b, steps[..i]).value, steps[i].msg)
    ensures c in AllLost(b, steps)
    decreases |steps|
  {
    hide Lost, Sensible, Apply, Closed;
    RunStep(b, steps);
    if i == |steps| - 1 {
    } else {
      assert steps[..|steps| - 1][..i] == steps[..i];
      StepIsCounted(b, steps[..|steps| - 1], c, i);
    }
  }

  // ----- The opening board -----

  lemma OpeningWellFormed<C>(deck0: seq<C>, extra0: seq<C>, deck1: seq<C>, extra1: seq<C>)
    requires Distinct(deck0) && Distinct(extra0) && Distinct(deck1) && Distinct(extra1)
    requires Elements(deck0) !! Elements(extra0) !! Elements(deck1) !! Elements(extra1)
    ensures WellFormed(Opening(deck0, extra0, deck1, extra1))
  {
    hide SlotsPoint, PilesPoint, MaterialsPoint, OneHost, Linked;
    assert WellFormed(Empty<C>()) by { EmptyWellFormed<C>(); }
    FillBlanksWellFormed(Empty(), Zone(0, LOCATION_DECK), deck0);
    var b0 := FillBlanks(Empty(), Zone(0, LOCATION_DECK), deck0);
    FillBlanksWellFormed(b0, Zone(0, LOCATION_EXTRA), extra0);
    var b1 := FillBlanks(b0, Zone(0, LOCATION_EXTRA), extra0);
    FillBlanksWellFormed(b1, Zone(1, LOCATION_DECK), deck1);
    FillBlanksWellFormed(FillBlanks(b1, Zone(1, LOCATION_DECK), deck1), Zone(1, LOCATION_EXTRA), extra1);
  }

  lemma EmptyWellFormed<C>()
    ensures WellFormed(Empty<C>())
  {
  }
}
