/**
 The preparation protocol on values: what one invitation goes through from being sent to the duel it
 starts, as a machine whose steps are the atomic updates of `server/DuelPreparationService.java`
 between two calls into the host.
 */
module Preparation {
  import opened Basics
  import opened Wrappers

  type Player = nat
  /** A `UUID` drawn by the service: a flow id or a round id. */
  type Uid = nat

  datatype Mode = IDLE | INVITED | RPS | FIRST_CHOICE | STARTING | DUEL
  datatype Code = OK | OFFLINE | BUSY | INELIGIBLE | STALE | INVALID | START_FAILED

  // ----- FirstTurnLobby -----

  datatype Hand = ROCK | PAPER | SCISSORS {
    function Value(): int {
      match this
      case ROCK => 1
      case PAPER => 2
      case SCISSORS => 3
    }

    predicate Beats(other: Hand) {
      other.Value() == if Value() == 1 then 3 else Value() - 1
    }
  }

  const TIE := -1

  function Resolve(hand0: Hand, hand1: Hand): int {
    if hand0 == hand1 then TIE else if hand0.Beats(hand1) then 0 else 1
  }

  /** Paper wraps rock, scissors cut paper, rock blunts scissors. */
  predicate Wins(hand: Hand, other: Hand) {
    (hand, other) in {(PAPER, ROCK), (SCISSORS, PAPER), (ROCK, SCISSORS)}
  }

  /** The seat whose hand wins is the result, whoever is asked first, and equal hands are a tie. */
  lemma ResolveIsFair(hand0: Hand, hand1: Hand)
    ensures Resolve(hand0, hand1) == 0 <==> Wins(hand0, hand1)
    ensures Resolve(hand0, hand1) == 1 <==> Wins(hand1, hand0)
    ensures Resolve(hand0, hand1) == TIE <==> hand0 == hand1
    ensures Resolve(hand0, hand1) == TIE || Resolve(hand0, hand1) == 0 || Resolve(hand0, hand1) == 1
  {
  }

  // ----- Settings and selections -----

  datatype Options = Options(lp: int, startHand: int, drawPerTurn: int)
  datatype Settings = Settings(rule: nat, seed: int, options: Options)

  const RULES: nat := 8
  const STEP_MILLIS := 60_000
  const LONG_MODULUS := 0x1_0000_0000_0000_0000

  /** The checks of the `DuelSettings` constructor; an absent rule or options object fails them too. */
  predicate SettingsAccepted(rule: Option<nat>, options: Option<Options>) {
    && rule.Some? && rule.value < RULES && options.Some?
    && 1 <= options.value.lp <= 99999 && 0 <= options.value.startHand <= 20 && 0 <= options.value.drawPerTurn <= 10
  }

  predicate SettingsValid(s: Settings) { SettingsAccepted(Some(s.rule), Some(s.options)) }

  /** Java `long` addition of one. */
  function NextLong(seed: int): int {
    if seed == LONG_MODULUS / 2 - 1 then -(LONG_MODULUS / 2) else seed + 1
  }

  /** A saved deck is opaque here. */
  type Deck = nat
  datatype Selection = Selection(deck: Option<Deck>, eligible: bool)
  datatype PreparedPlayer = PreparedPlayer(id: Player, deck: Deck, shuffleSeed: int)
  datatype PreparedDuel = PreparedDuel(id: Uid, challenger: PreparedPlayer, accepter: PreparedPlayer, settings: Settings)

  /** `None` stands for a policy evaluation that failed. */
  predicate Eligible(s: Option<Selection>) { s.Some? && s.value.deck.Some? && s.value.eligible }

  // ----- Views -----

  datatype View = View(
    revision: nat, mode: Mode, flowId: Option<Uid>, roundId: Option<Uid>, opponentId: Option<Player>,
    opponentName: string, outgoing: bool, ownHandSubmitted: bool, canChooseFirst: bool,
    remainingMillis: int, settings: Option<Settings>)

  /** Every check of the `PreparationView` constructor. */
  predicate ViewAccepted(v: View) {
    var active := v.mode != IDLE && v.mode != DUEL;
    && |v.opponentName| <= 128 && 0 <= v.remainingMillis <= 60_000
    && (if active then v.flowId.Some? && v.opponentId.Some? && v.settings.Some?
        else v.flowId.None? && v.opponentId.None? && v.settings.None? && v.opponentName == ""
             && !v.outgoing && !v.ownHandSubmitted && !v.canChooseFirst && v.remainingMillis == 0)
    && ((v.mode == RPS) == v.roundId.Some?) && (v.canChooseFirst ==> v.mode == FIRST_CHOICE)
    && !(v.mode == INVITED && v.ownHandSubmitted) && !(v.mode == STARTING && v.remainingMillis != 0)
  }

  // ----- Flows -----

  datatype Flow = Flow(
    id: Uid, challenger: Player, accepter: Player, settings: Settings,
    mode: Mode, deadline: int, roundId: Option<Uid>,
    challengerHand: Option<Hand>, accepterHand: Option<Hand>, winner: int,
    prepared: Option<PreparedDuel>, loggedOut: bool,
    // what the winner chose, and whether the host was asked to start
    choice: Option<bool>, launched: bool)

  datatype State = State(flows: map<Player, Flow>, revisions: map<Player, nat>, used: set<Uid>)

  datatype Event =
    | Invited(id: Uid, challenger: Player, accepter: Player, settings: Settings, now: int)
    | Accepted(id: Uid, actor: Player, round: Uid, challengerPick: Selection, accepterPick: Selection, now: int)
    | Played(id: Uid, actor: Player, round: Uid, hand: Hand, nextRound: Uid, now: int)
    | Chosen(id: Uid, actor: Player, goFirst: bool)
    | Launched(id: Uid, actor: Player, seat: int)
    | LoggedOut(id: Uid, actor: Player)
    | Closed(id: Uid, actor: Player, result: Code)
    | Bumped(actor: Player)

  function RevisionOf(revisions: map<Player, nat>, p: Player): nat {
    if p in revisions then revisions[p] else 0
  }

  function Bump(revisions: map<Player, nat>, p: Player): map<Player, nat> {
    revisions[p := RevisionOf(revisions, p) + 1]
  }

  /** `flow` is stored for both participants and both revisions advance. */
  function Store(s: State, f: Flow): State {
    s.(flows := s.flows[f.challenger := f][f.accepter := f],
       revisions := Bump(Bump(s.revisions, f.challenger), f.accepter))
  }

  function Remove(s: State, f: Flow): State {
    s.(flows := s.flows - {f.challenger, f.accepter},
       revisions := Bump(Bump(s.revisions, f.challenger), f.accepter))
  }

  /** `current`: the actor's flow, if it is the one named. */
  predicate Names(s: State, actor: Player, id: Uid) { actor in s.flows && s.flows[actor].id == id }

  function NewRound(f: Flow, round: Uid, now: int): Flow {
    f.(mode := RPS, roundId := Some(round), challengerHand := None, accepterHand := None, deadline := now + STEP_MILLIS)
  }

  function NewFlow(id: Uid, challenger: Player, accepter: Player, settings: Settings, now: int): Flow {
    Flow(id, challenger, accepter, settings, INVITED, now + STEP_MILLIS, None, None, None, 0, None, false, None, false)
  }

  function Prepare(f: Flow, challengerDeck: Deck, accepterDeck: Deck): PreparedDuel {
    PreparedDuel(f.id, PreparedPlayer(f.challenger, challengerDeck, f.settings.seed),
                 PreparedPlayer(f.accepter, accepterDeck, NextLong(f.settings.seed)), f.settings)
  }

  function OwnHand(f: Flow, actor: Player): Option<Hand> {
    if actor == f.challenger then f.challengerHand else f.accepterHand
  }

  /** The hand equals the one already in: a new round is needed. */
  predicate Ties(f: Flow, actor: Player, hand: Hand) {
    (if actor == f.challenger then f.accepterHand else f.challengerHand) == Some(hand)
  }

  function Recorded(f: Flow, actor: Player, hand: Hand): Flow {
    if actor == f.challenger then f.(challengerHand := Some(hand)) else f.(accepterHand := Some(hand))
  }

  /** With both hands in, the round is decided or replayed. */
  function Settled(g: Flow, nextRound: Uid, now: int): Flow {
    if g.challengerHand.None? || g.accepterHand.None? then g
    else
      var winner := Resolve(g.challengerHand.value, g.accepterHand.value);
      if winner == TIE then NewRound(g.(winner := winner), nextRound, now)
      else g.(winner := winner, mode := FIRST_CHOICE, roundId := None, deadline := now + STEP_MILLIS)
  }

  function Play(f: Flow, actor: Player, hand: Hand, nextRound: Uid, now: int): Flow {
    Settled(Recorded(f, actor, hand), nextRound, now)
  }

  function Winner(f: Flow): Player { if f.winner == 0 then f.challenger else f.accepter }

  function Seat(f: Flow, goFirst: bool): int { if goFirst then f.winner else 1 - f.winner }

  /** When an atomic update may happen. */
  predicate Enabled(s: State, e: Event) {
    match e
    case Invited(id, c, a, settings, _) =>
      c != a && c !in s.flows && a !in s.flows && id !in s.used && SettingsValid(settings)
    case Accepted(id, actor, round, cp, ap, _) =>
      Names(s, actor, id) && s.flows[actor].mode == INVITED && s.flows[actor].accepter == actor && round !in s.used
      && Eligible(Some(cp)) && Eligible(Some(ap))
    case Played(id, actor, round, hand, nextRound, _) =>
      Names(s, actor, id) && s.flows[actor].mode == RPS && s.flows[actor].roundId == Some(round)
      && OwnHand(s.flows[actor], actor).None? && (Ties(s.flows[actor], actor, hand) ==> nextRound !in s.used)
    case Chosen(id, actor, _) =>
      Names(s, actor, id) && s.flows[actor].mode == FIRST_CHOICE && Winner(s.flows[actor]) == actor
    case Launched(id, actor, seat) =>
      Names(s, actor, id) && s.flows[actor].mode == STARTING && !s.flows[actor].launched && s.flows[actor].choice.Some?
      && seat == Seat(s.flows[actor], s.flows[actor].choice.value)
    case LoggedOut(id, actor) => Names(s, actor, id) && s.flows[actor].mode == STARTING
    case Closed(id, actor, _) => Names(s, actor, id) && (s.flows[actor].mode == STARTING ==> s.flows[actor].launched)
    case Bumped(_) => true
  }

  /** A change nobody is told about: no revision advances. */
  function StoreSilently(s: State, f: Flow): State {
    s.(flows := s.flows[f.challenger := f][f.accepter := f])
  }

  function Next(s: State, e: Event): State
    requires Enabled(s, e)
  {
    match e
    case Invited(id, c, a, settings, now) =>
      Store(s.(used := s.used + {id}), NewFlow(id, c, a, settings, now))
    case Accepted(_, actor, round, cp, ap, now) =>
      var f := s.flows[actor];
      Store(s.(used := s.used + {round}),
            NewRound(f.(prepared := Some(Prepare(f, cp.deck.value, ap.deck.value))), round, now))
    case Played(_, actor, _, hand, nextRound, now) =>
      var g := Play(s.flows[actor], actor, hand, nextRound, now);
      Store(s.(used := if Ties(s.flows[actor], actor, hand) then s.used + {nextRound} else s.used), g)
    case Chosen(_, actor, goFirst) => Store(s, s.flows[actor].(mode := STARTING, choice := Some(goFirst)))
    case Launched(_, actor, _) => StoreSilently(s, s.flows[actor].(launched := true))
    case LoggedOut(_, actor) => StoreSilently(s, s.flows[actor].(loggedOut := true))
    case Closed(_, actor, _) => Remove(s, s.flows[actor])
    case Bumped(actor) => s.(revisions := Bump(s.revisions, actor))
  }

  const INITIAL := State(map[], map[], {})

  /** The state after a history, if every update in it was enabled. */
  function Replay(history: seq<Event>): Option<State>
    decreases |history|
  {
    if history == [] then Some(INITIAL)
    else
      match Replay(history[..|history| - 1])
      case None => None
      case Some(s) =>
        var e := history[|history| - 1];
        if Enabled(s, e) then Some(Next(s, e)) else None
  }

  // ----- What a player is shown -----

  /** `view` once `expire` is done; `name` and `dueling` are the host's answers. */
  function ViewOf(s: State, viewer: Player, now: int, name: string, dueling: bool): View {
    var revision := RevisionOf(s.revisions, viewer);
    if viewer !in s.flows then
      View(revision, if dueling then DUEL else IDLE, None, None, None, "", false, false, false, 0, None)
    else
      var f := s.flows[viewer];
      var challenger := f.challenger == viewer;
      View(revision, f.mode, Some(f.id), f.roundId, Some(if challenger then f.accepter else f.challenger), name,
           challenger, (if challenger then f.challengerHand else f.accepterHand).Some?,
           f.mode == FIRST_CHOICE && f.winner == (if challenger then 0 else 1),
           if f.mode == STARTING then 0 else Clamp(f.deadline - now, 0, STEP_MILLIS), Some(f.settings))
  }
}
