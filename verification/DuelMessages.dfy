/**
 What the duel engine reports and what goes out to the two seats. Messages whose contents the hidden
 information policy looks at have their fields; all others are told apart by their bodies only.
 */
module DuelMessages {
  import opened Wrappers
  import opened B = DuelBoard

  type Seat = s: int | 0 <= s < 2

  /** A 32-bit query mask, as the set of its bits. */
  type Flags = set<nat>

  const QUERY_CODE: nat := 0
  const QUERY_POSITION: nat := 1
  const QUERY_ALIAS: nat := 2
  const QUERY_TYPE: nat := 3
  const QUERY_LEVEL: nat := 4
  const QUERY_RANK: nat := 5
  const QUERY_ATTRIBUTE: nat := 6
  const QUERY_RACE: nat := 7
  const QUERY_ATTACK: nat := 8
  const QUERY_DEFENSE: nat := 9
  const QUERY_BASE_ATTACK: nat := 10
  const QUERY_BASE_DEFENSE: nat := 11
  const QUERY_STATUS: nat := 19
  const QUERY_IS_PUBLIC: nat := 20
  const QUERY_LSCALE: nat := 21
  const QUERY_RSCALE: nat := 22
  const QUERY_LINK: nat := 23
  const QUERY_IS_HIDDEN: nat := 24

  /** What is printed on a card or computed from it. */
  datatype CardStats = CardStats(code: int, alias: int, kind: int, level: int, rank: int, attribute: int, race: int,
                                 attack: int, defense: int, baseAttack: int, baseDefense: int, status: int,
                                 lscale: int, rscale: int, linkRating: int, linkMarker: int)

  const NO_STATS := CardStats(0, 0, 0, 0, 0, 0, 0, 0, 0, 0, 0, 0, 0, 0, 0, 0)

  /** The fields of a query that are sent to everybody. */
  datatype CardPlace = CardPlace(position: int, reason: int, owner: int, isPublic: bool, isHidden: bool, cover: int,
                                 overlayCards: seq<int>, counters: seq<int>, reasonCard: Option<LocInfo>,
                                 equipCard: Option<LocInfo>, targetCards: seq<LocInfo>)

  datatype QueriedCard = QueriedCard(flags: Flags, stats: CardStats, place: CardPlace)

  datatype DrawnCard = DrawnCard(code: int, position: int)
  datatype ConfirmCard = ConfirmCard(code: int, controller: int, location: Location, sequence: int)
  datatype CardInfo = CardInfo(code: int, controller: int, location: Location, sequence: int, position: int)
  datatype TributeCard = TributeCard(code: int, controller: int, location: Location, sequence: int, tributeCount: int)

  datatype DuelMessage =
    | Retry
    | Waiting
    | Win(winner: int, reason: int)
    // prompts
    | SelectCard(player: Seat, cancelable: bool, min: int, max: int, cards: seq<CardInfo>)
    | SelectTribute(player: Seat, cancelable: bool, min: int, max: int, tributes: seq<TributeCard>)
    | SelectUnselectCard(player: Seat, finishable: bool, cancelable: bool, min: int, max: int,
                         selectable: seq<CardInfo>, unselectable: seq<CardInfo>)
    | SelectChain(player: Seat, forced: bool, chains: seq<nat>, body: nat)
    | OtherPrompt(player: Seat, kind: nat, body: nat)
    // everything else
    | DrawCards(who: int, drawn: seq<DrawnCard>)
    | MoveCard(code: int, from: LocInfo, to: LocInfo, cause: int)
    | HandShuffled(who: int, codes: seq<int>)
    | SetCard(code: int, place: LocInfo)
    | PositionChanged(code: int, controller: int, location: Location, sequence: int, prevPosition: int, newPosition: int)
    | LocationQueried(who: int, location: Location, queried: seq<Option<QueriedCard>>)
    | CardQueried(who: int, location: Location, sequence: int, card: Option<QueriedCard>)
    | Hint(hintType: int, who: int, data: int)
    | ConfirmCards(who: int, confirmed: seq<ConfirmCard>)
    | MissedEffect(place: LocInfo, code: int)
    | Info(kind: nat, body: nat)
  {
    /** The records that are routed to one player, who must answer. */
    predicate IsPrompt() { SelectCard? || SelectTribute? || SelectUnselectCard? || SelectChain? || OtherPrompt? }
  }

  datatype Payload =
    | Message(msg: DuelMessage)
    | DuelStart(seat: Seat)
    | DuelEnd(winner: int, reason: int)

  datatype Delivery = Delivery(seat: Seat, payload: Payload)

  /** What one seat received. */
  function Received(sent: seq<Delivery>, r: Seat): seq<Payload> {
    if sent == [] then []
    else Received(sent[..|sent| - 1], r) + if sent[|sent| - 1].seat == r then [sent[|sent| - 1].payload] else []
  }

  lemma {:induction false} ReceivedAppend(a: seq<Delivery>, b: seq<Delivery>, r: Seat)
    ensures Received(a + b, r) == Received(a, r) + Received(b, r)
    decreases |b|
  {
    if b == [] {
      assert a + b == a;
    } else {
      assert (a + b)[..|a + b| - 1] == a + b[..|b| - 1];
      ReceivedAppend(a, b[..|b| - 1], r);
    }
  }

  /** How many results a seat was told. */
  function Endings(sent: seq<Delivery>, r: Seat): nat {
    if sent == [] then 0
    else Endings(sent[..|sent| - 1], r) + if sent[|sent| - 1].seat == r && sent[|sent| - 1].payload.DuelEnd? then 1 else 0
  }

  lemma {:induction false} EndingsAppend(a: seq<Delivery>, b: seq<Delivery>, r: Seat)
    ensures Endings(a + b, r) == Endings(a, r) + Endings(b, r)
    decreases |b|
  {
    if b == [] {
      assert a + b == a;
    } else {
      assert (a + b)[..|a + b| - 1] == a + b[..|b| - 1];
      EndingsAppend(a, b[..|b| - 1], r);
    }
  }

  datatype Verdict = CONTINUE | AWAIT_RESPONSE | DUEL_ENDED

  /** The connection of one duel to its seats. */
  class Wire {
    var sent: seq<Delivery>

    constructor ()
      ensures sent == []
    {
      sent := [];
    }

    method Send(seat: Seat, payload: Payload)
      modifies this
      ensures sent == old(sent) + [Delivery(seat, payload)]
    {
      sent := sent + [Delivery(seat, payload)];
    }
  }
}
