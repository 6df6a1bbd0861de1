/**
 `duel/MessageSanitizer.java`: recipients and copies of messages.

 What a seat may know is said first, as a relation between messages that look the same to it; the
 copies the sanitizer makes are then proved equal exactly for the messages so related.
 */
module MessageSanitizer {
  import opened Wrappers
  import opened B = DuelBoard
  import opened DuelMessages

  // ----- What a seat may know -----

  /** Bit `bit` of a location byte. */
  predicate HasBit(location: Location, bit: int)
    requires bit > 0
  {
    location / bit % 2 == 1
  }

  /** A move's destination keeps the card from everyone but its controller. */
  predicate SecretPlace(to: LocInfo) {
    && !HasBit(to.location, LOCATION_GRAVE) && !HasBit(to.location, LOCATION_OVERLAY)
    && (HasBit(to.location, LOCATION_DECK) || HasBit(to.location, LOCATION_HAND) || FaceDown(to.position))
  }

  predicate Private(flag: nat) {
    flag == QUERY_CODE || flag == QUERY_ALIAS || flag == QUERY_TYPE || flag == QUERY_LEVEL || flag == QUERY_RANK
    || flag == QUERY_ATTRIBUTE || flag == QUERY_RACE || flag == QUERY_ATTACK || flag == QUERY_DEFENSE
    || flag == QUERY_BASE_ATTACK || flag == QUERY_BASE_DEFENSE || flag == QUERY_STATUS || flag == QUERY_LSCALE
    || flag == QUERY_RSCALE || flag == QUERY_LINK
  }

  /** Anybody may know the card: it is public or face up, and not marked hidden. */
  predicate OpenlyKnown(card: QueriedCard) {
    && ((QUERY_IS_PUBLIC in card.flags && card.place.isPublic) || (QUERY_POSITION in card.flags && FaceUp(card.place.position)))
    && !(QUERY_IS_HIDDEN in card.flags && card.place.isHidden)
  }

  /** Two query results that show a stranger the same: place and links always, the rest only if openly known. */
  ghost predicate CardsAlike(a: Option<QueriedCard>, b: Option<QueriedCard>) {
    && a.Some? == b.Some?
    && (a.Some? ==>
          && a.value.place == b.value.place
          && (forall flag :: !Private(flag) ==> (flag in a.value.flags <==> flag in b.value.flags))
          && (OpenlyKnown(a.value) ==> a.value == b.value))
  }

  /** Candidates of a prompt: only the prompted player's own have their codes shown. */
  predicate CandidatesAlike(a: seq<CardInfo>, b: seq<CardInfo>, player: Seat) {
    && |a| == |b|
    && forall i :: 0 <= i < |a| ==>
         a[i].(code := 0) == b[i].(code := 0) && (a[i].controller == player ==> a[i].code == b[i].code)
  }

  predicate TributesAlike(a: seq<TributeCard>, b: seq<TributeCard>, player: Seat) {
    && |a| == |b|
    && forall i :: 0 <= i < |a| ==>
         a[i].(code := 0) == b[i].(code := 0) && (a[i].controller == player ==> a[i].code == b[i].code)
  }

  /** Seat `r`, receiving either message, may learn the same. */
  ghost predicate Alike(r: Seat, a: DuelMessage, b: DuelMessage) {
    match a
    case DrawCards(who, cards) =>
      && b.DrawCards? && b.who == who && |b.drawn| == |cards|
      && forall i :: 0 <= i < |cards| ==>
           cards[i].position == b.drawn[i].position
           && (who == r || FaceUp(cards[i].position) ==> cards[i].code == b.drawn[i].code)
    case MoveCard(code, from, to, cause) =>
      && b.MoveCard? && b.from == from && b.to == to && b.cause == cause
      && (to.controller == r || !SecretPlace(to) ==> b.code == code)
    case HandShuffled(who, codes) =>
      b.HandShuffled? && b.who == who && |b.codes| == |codes| && (who == r ==> b.codes == codes)
    case SetCard(code, place) =>
      b.SetCard? && b.place == place && (place.controller == r ==> b.code == code)
    case PositionChanged(code, controller, location, sequence, prevPosition, newPosition) =>
      && b.PositionChanged? && b == PositionChanged(b.code, controller, location, sequence, prevPosition, newPosition)
      && (controller == r || !FaceDown(newPosition) ==> b.code == code)
    case LocationQueried(who, location, cards) =>
      && b.LocationQueried? && b.who == who && b.location == location && |b.queried| == |cards|
      && (if who == r then b.queried == cards else forall i :: 0 <= i < |cards| ==> CardsAlike(cards[i], b.queried[i]))
    case CardQueried(who, location, sequence, card) =>
      && b.CardQueried? && b.who == who && b.location == location && b.sequence == sequence
      && (if who == r then b.card == card else CardsAlike(card, b.card))
    case SelectCard(player, _, _, _, cards) =>
      && b.SelectCard? && b.(cards := []) == a.(cards := []) && CandidatesAlike(cards, b.cards, player)
    case SelectTribute(player, _, _, _, cards) =>
      && b.SelectTribute? && b.(tributes := []) == a.(tributes := []) && TributesAlike(cards, b.tributes, player)
    case SelectUnselectCard(player, _, _, _, _, selectable, unselectable) =>
      && b.SelectUnselectCard? && b.(selectable := [], unselectable := []) == a.(selectable := [], unselectable := [])
      && CandidatesAlike(selectable, b.selectable, player) && CandidatesAlike(unselectable, b.unselectable, player)
    case _ => a == b
  }

  /**
   Seat `r` is among those a broadcast is for.  Hints 1, 2, 3 and 5 and the cards of a deck or extra deck are for their
   player alone, hints 4, 6, 7, 8, 9 and 11 for the other, a missed effect for the controller it names, and all else for both.
   */
  predicate MeantFor(r: Seat, msg: DuelMessage) {
    && (msg.Hint? && msg.hintType in {1, 2, 3, 5} ==> r == msg.who)
    && (msg.Hint? && msg.hintType in {4, 6, 7, 8, 9, 11} ==> r != msg.who)
    && (msg.ConfirmCards? && msg.confirmed != [] && msg.confirmed[0].location in {LOCATION_DECK, LOCATION_EXTRA} ==> r == msg.who)
    && (msg.MissedEffect? ==> r == msg.place.controller)
  }

  // ----- What is sent -----

  datatype Recipients = Both | Only(player: int) | AllExcept(player: int) {
    predicate Includes(r: Seat) {
      match this
      case Both => true
      case Only(p) => r == p
      case AllExcept(p) => r != p
    }
  }

  /** Routing of a broadcast message. */
  function RecipientsOf(msg: DuelMessage): Recipients {
    match msg
    case Hint(kind, who, _) =>
      if kind == 1 || kind == 2 || kind == 3 || kind == 5 then Only(who)
      else if kind == 4 || kind == 6 || kind == 7 || kind == 8 || kind == 9 || kind == 11 then AllExcept(who)
      else Both
    case ConfirmCards(who, cards) =>
      var location := if cards == [] then 0 else cards[0].location;
      if location == LOCATION_DECK || location == LOCATION_EXTRA then Only(who) else Both
    case MissedEffect(place, _) => Only(place.controller)
    case _ => Both
  }

  lemma RecipientsExact(msg: DuelMessage, r: Seat)
    ensures RecipientsOf(msg).Includes(r) <==> MeantFor(r, msg)
  {
  }

  function HideForeignCards(cards: seq<CardInfo>, player: Seat): seq<CardInfo> {
    seq(|cards|, i requires 0 <= i < |cards| => if cards[i].controller == player then cards[i] else cards[i].(code := 0))
  }

  function HideForeignTributes(cards: seq<TributeCard>, player: Seat): seq<TributeCard> {
    seq(|cards|, i requires 0 <= i < |cards| => if cards[i].controller == player then cards[i] else cards[i].(code := 0))
  }

  function HideCard(card: Option<QueriedCard>): Option<QueriedCard> {
    if card.None? then None
    else
      var known := (QUERY_IS_PUBLIC in card.value.flags && card.value.place.isPublic)
                   || (QUERY_POSITION in card.value.flags && FaceUp(card.value.place.position));
      var hidden := QUERY_IS_HIDDEN in card.value.flags && card.value.place.isHidden;
      if known && !hidden then card
      else Some(QueriedCard((set flag <- card.value.flags | !Private(flag)), NO_STATS, card.value.place))
  }

  /** The copy of a message that a recipient may see. */
  function ForRecipient(msg: DuelMessage, r: Seat): DuelMessage {
    match msg
    case DrawCards(who, cards) =>
      if who == r then msg
      else DrawCards(who, seq(|cards|, i requires 0 <= i < |cards| =>
                                if FaceUp(cards[i].position) then cards[i] else DrawnCard(0, cards[i].position)))
    case MoveCard(_, from, to, cause) =>
      var secret := !HasBit(to.location, LOCATION_GRAVE) && !HasBit(to.location, LOCATION_OVERLAY)
                    && (HasBit(to.location, LOCATION_DECK) || HasBit(to.location, LOCATION_HAND) || FaceDown(to.position));
      if to.controller != r && secret then MoveCard(0, from, to, cause) else msg
    case HandShuffled(who, codes) => if who == r then msg else HandShuffled(who, seq(|codes|, i => 0))
    case SetCard(_, place) => if place.controller == r then msg else SetCard(0, place)
    case PositionChanged(_, controller, location, sequence, prevPosition, newPosition) =>
      if controller == r || !FaceDown(newPosition) then msg
      else PositionChanged(0, controller, location, sequence, prevPosition, newPosition)
    case LocationQueried(who, location, cards) =>
      if who == r then msg
      else LocationQueried(who, location, seq(|cards|, i requires 0 <= i < |cards| => HideCard(cards[i])))
    case CardQueried(who, location, sequence, card) =>
      if who == r then msg else CardQueried(who, location, sequence, HideCard(card))
    case SelectCard(player, cancelable, min, max, cards) =>
      SelectCard(player, cancelable, min, max, HideForeignCards(cards, player))
    case SelectTribute(player, cancelable, min, max, cards) =>
      SelectTribute(player, cancelable, min, max, HideForeignTributes(cards, player))
    case SelectUnselectCard(player, finishable, cancelable, min, max, selectable, unselectable) =>
      SelectUnselectCard(player, finishable, cancelable, min, max, HideForeignCards(selectable, player),
                         HideForeignCards(unselectable, player))
    case _ => msg
  }

  // ----- The copies depend on exactly what may be known -----

  lemma HideCardExact(a: Option<QueriedCard>, b: Option<QueriedCard>)
    ensures HideCard(a) == HideCard(b) <==> CardsAlike(a, b)
  {
    if a.Some? && b.Some? {
      var fa, fb := (set flag <- a.value.flags | !Private(flag)), (set flag <- b.value.flags | !Private(flag));
      if HideCard(a) == HideCard(b) {
        assert forall flag :: flag in HideCard(a).value.flags <==> flag in HideCard(b).value.flags;
        assert !Private(QUERY_IS_PUBLIC) && !Private(QUERY_POSITION) && !Private(QUERY_IS_HIDDEN);
        assert forall flag :: flag in fa <==> flag in a.value.flags && !Private(flag);
        assert forall flag :: flag in fb <==> flag in b.value.flags && !Private(flag);
      }
      if CardsAlike(a, b) && !OpenlyKnown(a.value) {
        assert !Private(QUERY_IS_PUBLIC) && !Private(QUERY_POSITION) && !Private(QUERY_IS_HIDDEN);
        assert fa == fb;
      }
    }
  }

  lemma HideForeignExact(a: seq<CardInfo>, b: seq<CardInfo>, player: Seat)
    ensures HideForeignCards(a, player) == HideForeignCards(b, player) <==> CandidatesAlike(a, b, player)
  {
    var x, y := HideForeignCards(a, player), HideForeignCards(b, player);
    if x == y {
      assert |a| == |x| && |b| == |y|;
      forall i | 0 <= i < |a|
        ensures a[i].(code := 0) == b[i].(code := 0) && (a[i].controller == player ==> a[i].code == b[i].code) {
        assert x[i] == y[i];
      }
    }
  }

  lemma HideTributesExact(a: seq<TributeCard>, b: seq<TributeCard>, player: Seat)
    ensures HideForeignTributes(a, player) == HideForeignTributes(b, player) <==> TributesAlike(a, b, player)
  {
    var x, y := HideForeignTributes(a, player), HideForeignTributes(b, player);
    if x == y {
      assert |a| == |x| && |b| == |y|;
      forall i | 0 <= i < |a|
        ensures a[i].(code := 0) == b[i].(code := 0) && (a[i].controller == player ==> a[i].code == b[i].code) {
        assert x[i] == y[i];
      }
    }
  }

  lemma DrawExact(a: DuelMessage, b: DuelMessage, r: Seat)
    requires a.DrawCards? && b.DrawCards?
    ensures ForRecipient(a, r) == ForRecipient(b, r) <==> Alike(r, a, b)
  {
    var x, y := ForRecipient(a, r), ForRecipient(b, r);
    if x == y {
      assert |a.drawn| == |x.drawn| && |b.drawn| == |y.drawn|;
      forall i | 0 <= i < |a.drawn|
        ensures a.drawn[i].position == b.drawn[i].position
             && (a.who == r || FaceUp(a.drawn[i].position) ==> a.drawn[i].code == b.drawn[i].code) {
        assert x.drawn[i] == y.drawn[i];
      }
    }
  }

  lemma ShuffleExact(a: DuelMessage, b: DuelMessage, r: Seat)
    requires a.HandShuffled? && b.HandShuffled?
    ensures ForRecipient(a, r) == ForRecipient(b, r) <==> Alike(r, a, b)
  {
    if ForRecipient(a, r) == ForRecipient(b, r) {
      assert |a.codes| == |ForRecipient(a, r).codes| && |b.codes| == |ForRecipient(b, r).codes|;
    }
  }

  lemma QueryExact(a: DuelMessage, b: DuelMessage, r: Seat)
    requires a.LocationQueried? && b.LocationQueried?
    ensures ForRecipient(a, r) == ForRecipient(b, r) <==> Alike(r, a, b)
  {
    hide HideCard, CardsAlike;
    var x, y := ForRecipient(a, r), ForRecipient(b, r);
    if a.who != r && b.who == a.who {
      if x == y {
        assert |a.queried| == |x.queried| && |b.queried| == |y.queried|;
        forall i | 0 <= i < |a.queried| ensures CardsAlike(a.queried[i], b.queried[i]) {
          assert x.queried[i] == y.queried[i];
          HideCardExact(a.queried[i], b.queried[i]);
        }
      }
      if Alike(r, a, b) {
        forall i | 0 <= i < |a.queried| ensures HideCard(a.queried[i]) == HideCard(b.queried[i]) {
          HideCardExact(a.queried[i], b.queried[i]);
        }
      }
    }
  }

  lemma PromptExact(a: DuelMessage, b: DuelMessage, r: Seat)
    requires a.IsPrompt() && b.IsPrompt()
    ensures ForRecipient(a, r) == ForRecipient(b, r) <==> Alike(r, a, b)
  {
    hide HideForeignCards, HideForeignTributes, CandidatesAlike, TributesAlike;
    match a
    case SelectCard(player, _, _, _, cards) => if b.SelectCard? { HideForeignExact(cards, b.cards, player); }
    case SelectTribute(player, _, _, _, cards) => if b.SelectTribute? { HideTributesExact(cards, b.tributes, player); }
    case SelectUnselectCard(player, _, _, _, _, selectable, unselectable) =>
      if b.SelectUnselectCard? { UnselectExact(a, b, r); }
    case _ =>
  }

  lemma UnselectExact(a: DuelMessage, b: DuelMessage, r: Seat)
    requires a.SelectUnselectCard? && b.SelectUnselectCard?
    ensures ForRecipient(a, r) == ForRecipient(b, r) <==> Alike(r, a, b)
  {
    hide HideForeignCards, HideForeignTributes, CandidatesAlike, TributesAlike;
    HideForeignExact(a.selectable, b.selectable, a.player);
    HideForeignExact(a.unselectable, b.unselectable, a.player);
  }

  /** Two messages give a seat the same copy exactly if the seat may learn the same from either. */
  lemma ForRecipientExact(a: DuelMessage, b: DuelMessage, r: Seat)
    ensures ForRecipient(a, r) == ForRecipient(b, r) <==> Alike(r, a, b)
  {
    hide HideCard, CardsAlike, HideForeignCards, HideForeignTributes, CandidatesAlike, TributesAlike;
    if a.IsPrompt() || b.IsPrompt() {
      if a.IsPrompt() && b.IsPrompt() { PromptExact(a, b, r); }
    } else {
      match a
      case DrawCards(_, _) => if b.DrawCards? { DrawExact(a, b, r); }
      case HandShuffled(_, _) => if b.HandShuffled? { ShuffleExact(a, b, r); }
      case LocationQueried(_, _, _) => if b.LocationQueried? { QueryExact(a, b, r); }
      case CardQueried(_, _, _, card) => if b.CardQueried? { HideCardExact(card, b.card); }
      case _ =>
    }
  }

  /** A copy tells its recipient what the message would. */
  lemma CopyAlike(a: DuelMessage, r: Seat)
    ensures Alike(r, ForRecipient(a, r), a)
  {
  }

  /** Sanitizing again changes nothing. */
  lemma ForRecipientIdempotent(a: DuelMessage, r: Seat)
    ensures ForRecipient(ForRecipient(a, r), r) == ForRecipient(a, r)
  {
    CopyAlike(a, r);
    ForRecipientExact(ForRecipient(a, r), a, r);
  }
}
