/**
 `server/DuelManager.java`: which player is in which duel, from a start to the duel's one end, and never in a
 duel and a preparation flow at once.

 A session is held as the value of `DuelSession.dfy`; preparation is the machine of `Preparation.dfy`, which is
 asked what the service asks its host.
 */
module DuelManagers {
  import opened Wrappers
  import opened DuelMessages
  import opened ServerDuelHandlers
  import opened SoloDuelHandlers
  import opened DuelSessions
  import opened P = Preparation
  import opened PreparationProofs

  type DuelId = nat

  const WINNER_DRAW := 2
  const REASON_SURRENDER := 0
  const REASON_DISCONNECT := 4

  datatype Seats = Seats(first: Player, second: Option<Player>) {
    predicate Human(seat: Seat) { seat == 0 || second.Some? }

    predicate Seated(p: Player) { p == first || second == Some(p) }

    predicate Fit() { second != Some(first) }

    function SeatOf(p: Player): int { if p == first then 0 else if second == Some(p) then 1 else -1 }
  }

  /** The four maps. */
  datatype Holdings = Holdings(duels: map<DuelId, Session>, seats: map<DuelId, Seats>, solo: set<DuelId>, players: map<Player, DuelId>)

  datatype Entry = Entry(id: DuelId, seats: Seats)

  ghost predicate Added(before: Holdings, after: Holdings, e: Entry) {
    var id, seats := e.id, e.seats;
    && id in after.duels && after.duels == before.duels[id := after.duels[id]] && after.seats == before.seats[id := seats]
    && after.solo == before.solo + (if seats.second.None? then {id} else {})
    && after.players == if seats.second.Some? then before.players[seats.first := id][seats.second.value := id] else before.players[seats.first := id]
  }

  /** Every human seat was told of `n` results. */
  ghost predicate Told(s: Session, seats: Seats, n: nat) {
    forall seat: Seat :: seats.Human(seat) ==> Endings(s.sent, seat) == n
  }

  predicate Opposed(s: Session, seats: Seats) { s.listener.Versus? <==> seats.second.Some? }

  /** A duel in the maps: not over, and nobody was told it is. */
  ghost predicate Live(s: Session, seats: Seats) {
    && !s.ended && !s.closed && s.endings == 0 && !s.listener.WinSent() && !s.running
    && Opposed(s, seats) && Told(s, seats, 0)
  }

  /** A duel that is over: closed, its listener told at most once, every human told once or, if it was cut off, nobody. */
  ghost predicate Over(s: Session, seats: Seats, cutOff: bool) {
    s.closed && s.endings <= 1 && Told(s, seats, if cutOff then 0 else 1)
  }

  /** What a duel may tell as it comes to its end: nothing yet, or a win. */
  ghost predicate Ending(s: Session, seats: Seats) {
    s.endings <= 1 && Opposed(s, seats) && Told(s, seats, if s.listener.WinSent() then 1 else 0)
  }

  lemma SameTold(s: Session, t: Session, seats: Seats, n: nat)
    requires Told(s, seats, n) && t.sent == s.sent
    ensures Told(t, seats, n)
  {
  }

  /** The results a manager sends: one to each human seat. */
  function Result(seats: Seats, winner: int, reason: int): seq<Delivery> {
    [Delivery(0, DuelEnd(winner, reason))] + if seats.second.Some? then [Delivery(1, DuelEnd(winner, reason))] else []
  }

  lemma ResultTold(s: Session, seats: Seats, winner: int, reason: int)
    requires Told(s, seats, 0)
    ensures Told(s.(sent := s.sent + Result(seats, winner, reason)), seats, 1)
  {
    forall seat: Seat | seats.Human(seat) ensures Endings(s.sent + Result(seats, winner, reason), seat) == 1 {
      EndingsAppend(s.sent, Result(seats, winner, reason), seat);
      FewEndings(Result(seats, winner, reason), seat);
    }
  }

  /** One call of `process` on a live duel leaves it live, or brings it to its end. */
  lemma LoopOnLive(s: Session, seats: Seats)
    requires Live(s, seats)
    ensures var x := Loop(s.(running := true));
            && (x.outcome != Ends ==> Live(x.session.(running := false), seats))
            && (x.outcome == Ends ==> Ending(x.session, seats))
            && |x.session.script| <= |s.script|
            && (x.outcome == Awaits && x.session.listener.AnswerPending() && !s.listener.AnswerPending() ==> |x.session.script| < |s.script|)
  {
    hide Loop;
    LoopEndsOnce(s.(running := true), 0);
    LoopEndsOnce(s.(running := true), 1);
  }

  /** The session once it is over: a draw is told by the manager, a win was told by the listener, and it is closed. */
  ghost function Closing(s: Session, seats: Seats): Session {
    (if s.listener.WinSent() then s else s.(sent := s.sent + Result(seats, WINNER_DRAW, 0))).(closed := true)
  }

  /** The opponent's answer that was waiting has been taken. */
  function Answered(s: Session): Session
    requires s.listener.AnswerPending()
  {
    s.(running := false, listener := s.listener.(s := s.listener.s.(pendingAutoResponse := None)))
  }

  lemma AnsweredLive(s: Session, seats: Seats)
    requires Live(s.(running := false), seats) && s.listener.AnswerPending()
    ensures Live(Answered(s), seats)
  {
    SameTold(s.(running := false), Answered(s), seats, 0);
  }

  /** A live duel from a response on: the engine runs, and again after each answer its opponent has ready. */
  ghost function RunAll(s: Session, seats: Seats): Looped
    requires Live(s, seats)
    decreases |s.script| + (if s.listener.AnswerPending() then 1 else 0), 1
  {
    var x := Loop(s.(running := true));
    LoopOnLive(s, seats);
    if x.outcome == Awaits then AnswerAll(x.session.(running := false), seats) else x
  }

  ghost function AnswerAll(s: Session, seats: Seats): Looped
    requires Live(s, seats)
    decreases |s.script| + (if s.listener.AnswerPending() then 1 else 0), 0
  {
    if s.listener.AnswerPending() then
      AnsweredLive(s, seats);
      RunAll(Answered(s), seats)
    else Looped(s, Awaits)
  }

  /** The session of a duel that was set up and announced, before the engine first runs. */
  function Opened(seats: Seats, world: World): Session {
    var l := if seats.second.Some? then Versus(HandlerState(-1, false)) else Solo(world.ai, FRESH);
    var r := HearRefreshes(l, world.refreshes);
    Session(r.listener, false, false, world.script, Starts(seats) + r.out, false, 0)
  }

  /** Where a duel that starts between these seats first comes to rest. */
  ghost function Begun(seats: Seats, world: World): Looped {
    OpenedLive(seats, world);
    RunAll(Opened(seats, world), seats)
  }

  lemma OpenedLive(seats: Seats, world: World)
    ensures Live(Opened(seats, world), seats)
  {
    hide HearRefreshes, Starts, Live;
    FreshLive(seats, world.ai, world.script);
    var l := if seats.second.Some? then Versus(HandlerState(-1, false)) else Solo(world.ai, FRESH);
    StartsTellNothing(Session(l, false, false, world.script, [], false, 0), seats, world.refreshes);
    assert [] + Starts(seats) == Starts(seats);
  }

  /** Who sits where if `p` chose to go first or not, against `other`. */
  function ChosenSeats(p: Player, other: Player, goFirst: bool): Seats {
    if goFirst then Seats(p, Some(other)) else Seats(other, Some(p))
  }

  class DuelManager {
    var activeDuels: map<DuelId, Session>
    var playerToDuel: map<Player, DuelId>
    var duelSeats: map<DuelId, Seats>
    // the duels whose listener is a `SoloDuelHandler`
    var soloHandlers: set<DuelId>
    var startingPlayers: set<Player>
    var prep: State
    // the duels that are over, those of them whose start failed or that a shutdown cut off, and the players of a starting flow
    ghost var finished: map<DuelId, (Session, Seats)>
    ghost var cutOff: set<DuelId>
    ghost var locked: set<Player>

    /** The four maps agree: duels have seats, players are seated in the duel they are mapped to and in no other. */
    ghost predicate Owned()
      reads this`activeDuels, this`duelSeats, this`soloHandlers, this`playerToDuel
    {
      && activeDuels.Keys == duelSeats.Keys && soloHandlers <= activeDuels.Keys
      && (forall p <- playerToDuel :: playerToDuel[p] in duelSeats && duelSeats[playerToDuel[p]].Seated(p))
      && (forall id <- duelSeats :: duelSeats[id].Fit() && Maps(duelSeats[id].first, id)
                                    && (duelSeats[id].second.Some? ==> Maps(duelSeats[id].second.value, id))
                                    && (id in soloHandlers <==> duelSeats[id].second.None?))
    }

    ghost predicate Maps(p: Player, id: DuelId)
      reads this`playerToDuel
    {
      p in playerToDuel && playerToDuel[p] == id
    }

    /** Nobody who is in a flow duels or starts to, except while that flow itself is starting. */
    ghost predicate Exclusive()
      reads this`prep, this`locked, this`playerToDuel, this`startingPlayers
    {
      && Inv(prep)
      && forall p <- prep.flows :: p !in locked ==> p !in playerToDuel && p !in startingPlayers && prep.flows[p].mode != STARTING
    }

    /** The duels on record: running ones have told nobody of an end, finished ones everybody once. */
    ghost predicate LedgerBut(busy: Option<DuelId>)
      reads this`activeDuels, this`duelSeats, this`finished, this`cutOff
    {
      && activeDuels.Keys !! finished.Keys && cutOff <= finished.Keys
      && (forall id <- activeDuels :: Some(id) != busy && id in duelSeats ==> Live(activeDuels[id], duelSeats[id]))
      && (forall id <- finished :: Over(finished[id].0, finished[id].1, id in cutOff))
    }

    ghost predicate SoundBut(busy: Option<DuelId>)
      reads this
    {
      Owned() && Exclusive() && LedgerBut(busy)
    }

    ghost predicate Sound()
      reads this
    {
      SoundBut(None)
    }

    /** Between two calls from outside. */
    ghost predicate Quiescent()
      reads this
    {
      Sound() && startingPlayers == {} && locked == {}
    }

    constructor ()
      ensures Quiescent() && activeDuels == map[] && prep == INITIAL && finished == map[]
    {
      activeDuels, playerToDuel, duelSeats, soloHandlers := map[], map[], map[], {};
      startingPlayers, prep := {}, INITIAL;
      finished, cutOff, locked := map[], {}, {};
    }

    // ----- Preparation, as its host sees it -----

    /** Flows may only have been closed, and not while starting. */
    twostate predicate OnlyCloses()
      reads this`prep
    {
      && (forall p <- prep.flows :: p in old(prep.flows) && prep.flows[p] == old(prep.flows[p]))
      && (forall p <- old(prep.flows) :: old(prep.flows[p].mode) == STARTING ==> p in prep.flows)
    }

    /** A view is read, or players are told of a change: flows that are due may be closed meanwhile. */
    method Churn()
      requires Exclusive()
      modifies this`prep
      ensures Exclusive() && OnlyCloses()
    {
      hide Inv;
      var steps: nat := *;
      while steps > 0
        invariant Exclusive() && OnlyCloses()
        decreases steps
      {
        var p: Player := *;
        if p in prep.flows && prep.flows[p].mode != STARTING { CloseFlow(p); }
        steps := steps - 1;
      }
    }

    method CloseFlow(p: Player)
      requires Exclusive() && p in prep.flows && prep.flows[p].mode != STARTING
      modifies this`prep
      ensures Exclusive() && OnlyCloses() && p !in prep.flows
    {
      hide FlowFits, Bump, FlowsInv;
      OwnersOnly(prep.flows, prep.used, p);
      var e := Closed(prep.flows[p].id, p, OK);
      NextInv(prep, e);
      prep := Next(prep, e);
    }

    /** `duelEnded` and `startFinished`. */
    method Announce(p: Player)
      requires Exclusive()
      modifies this`prep
      ensures Exclusive() && OnlyCloses()
    {
      hide FlowFits, Bump, FlowsInv;
      NextInv(prep, Bumped(p));
      prep := Next(prep, Bumped(p));
      Churn();
    }

    /** A preparation step other than an invitation and a start: it never puts a player into a flow. */
    method Prepare(e: Event)
      requires Quiescent() && (e.Accepted? || e.Played? || (e.Closed? && e.actor in prep.flows && prep.flows[e.actor].mode != STARTING))
      modifies this`prep
      ensures Quiescent()
    {
      hide Inv, Owned, LedgerBut, Next, Enabled;
      Churn();
      if Enabled(prep, e) {
        Advance(e);
        Churn();
      }
    }

    method Advance(e: Event)
      requires Exclusive() && locked == {} && Enabled(prep, e) && (e.Accepted? || e.Played? || e.Closed?)
      modifies this`prep
      ensures Exclusive()
    {
      hide FlowFits, Bump, FlowsInv, Play, P.Prepare, Next, Enabled;
      NextInv(prep, e);
      StaysOut(prep, e);
      prep := Next(prep, e);
    }

    /** An invitation goes out only if neither player is in a flow, duels or starts to. */
    method Invite(id: Uid, sender: Player, target: Player, settings: Settings, now: int, online: bool, ready: bool) returns (code: Code)
      requires Quiescent() && id !in prep.used
      modifies this`prep
      ensures Quiescent()
      ensures old(IsDueling(sender)) || old(IsDueling(target)) ==> code != OK
      ensures code == OK ==> sender != target && SettingsValid(settings)
      ensures code != OK ==> prep.flows.Keys <= old(prep.flows.Keys)
    {
      hide FlowFits, Bump, FlowsInv, Owned, LedgerBut, SettingsValid;
      Churn();
      if sender == target || !SettingsValid(settings) { return INVALID; }
      if !online { return OFFLINE; }
      if sender in prep.flows || target in prep.flows || IsDueling(sender) || IsDueling(target) { return BUSY; }
      if !ready || id in prep.used {
        Churn();
        return INELIGIBLE;
      }
      var e := Invited(id, sender, target, settings, now);
      NextInv(prep, e);
      prep := Next(prep, e);
      Churn();
      code := OK;
    }

    predicate IsDueling(p: Player)
      reads this
    {
      p in playerToDuel || p in startingPlayers
    }

    predicate IsPreparing(p: Player)
      reads this
    {
      p in prep.flows && prep.flows[p].mode != INVITED
    }

    predicate IsBusy(p: Player)
      reads this
    {
      p in playerToDuel || IsPreparing(p) || p in startingPlayers
    }

    /** The duel has come as far as `x` says: it is in the maps waiting, or over and on record, with these seats. */
    ghost predicate Stands(id: DuelId, x: Looped, seats: Seats)
      reads this`activeDuels, this`duelSeats, this`finished
    {
      if x.outcome == Ends then id !in activeDuels && id in finished && finished[id] == (Closing(x.session, seats), seats)
      else id in activeDuels && id in duelSeats && duelSeats[id] == seats && activeDuels[id] == x.session.(running := false)
    }

    // ----- The end of a duel -----

    /** Nothing changed but what belongs to the duel `id`. */
    twostate predicate OnlyDuel(id: DuelId)
      reads this`activeDuels, this`duelSeats, this`soloHandlers, this`playerToDuel, this`startingPlayers, this`locked, this`finished
    {
      && activeDuels - {id} == old(activeDuels) - {id} && duelSeats - {id} == old(duelSeats) - {id}
      && soloHandlers - {id} == old(soloHandlers) - {id}
      && (forall p :: p in playerToDuel && playerToDuel[p] != id <==> p in old(playerToDuel) && old(playerToDuel)[p] != id)
      && (forall p <- playerToDuel :: playerToDuel[p] != id ==> playerToDuel[p] == old(playerToDuel)[p])
      && startingPlayers == old(startingPlayers) && locked == old(locked)
      && (forall other <- old(finished) :: other in finished && finished[other] == old(finished)[other])
    }

    /** Takes a duel out of all four maps. */
    method Disown(id: DuelId)
      requires Owned() && id in activeDuels
      modifies this`activeDuels, this`duelSeats, this`soloHandlers, this`playerToDuel
      ensures Owned() && OnlyDuel(id)
      ensures activeDuels == old(activeDuels) - {id} && duelSeats == old(duelSeats) - {id}
      ensures forall p <- playerToDuel :: p in old(playerToDuel)
    {
      hide OnlyDuel, Owned;
      OwnedKeys();
      var seats := duelSeats[id];
      activeDuels := activeDuels - {id};
      duelSeats := duelSeats - {id};
      soloHandlers := soloHandlers - {id};
      Unseat(id, seats.first);
      if seats.second.Some? { Unseat(id, seats.second.value); }
      SeatedOnly(id);
      Disowned(id);
    }

    /** The players mapped to a duel are the ones seated in it. */
    twostate lemma SeatedOnly(id: DuelId)
      requires old(Owned()) && id in old(duelSeats)
      ensures forall p :: p in old(playerToDuel) && old(playerToDuel)[p] == id ==> old(duelSeats)[id].Seated(p)
    {
    }

    twostate lemma Disowned(id: DuelId)
      requires activeDuels == old(activeDuels) - {id} && duelSeats == old(duelSeats) - {id} && soloHandlers == old(soloHandlers) - {id}
      requires forall p :: p in playerToDuel <==> p in old(playerToDuel) && old(playerToDuel)[p] != id
      requires forall p <- playerToDuel :: playerToDuel[p] == old(playerToDuel)[p]
      requires startingPlayers == old(startingPlayers) && locked == old(locked) && finished == old(finished)
      requires old(Owned())
      ensures Owned() && OnlyDuel(id)
    {
    }

    /** A player leaves the map only if still mapped to `id`. */
    method Unseat(id: DuelId, player: Player)
      modifies this`playerToDuel
      ensures forall p :: p in playerToDuel <==> p in old(playerToDuel) && (p == player ==> old(playerToDuel)[p] != id)
      ensures forall p <- playerToDuel :: playerToDuel[p] == old(playerToDuel)[p]
    {
      if player in playerToDuel && playerToDuel[player] == id { playerToDuel := playerToDuel - {player}; }
    }

    /** The duel goes from the maps onto the record, its session closed. */
    method Retire(id: DuelId, ghost cut: bool)
      requires Owned() && LedgerBut(Some(id)) && id in activeDuels && activeDuels[id].endings <= 1
      requires Told(activeDuels[id], duelSeats[id], if cut then 0 else 1)
      modifies this`activeDuels, this`duelSeats, this`soloHandlers, this`playerToDuel, this`finished, this`cutOff
      ensures Owned() && LedgerBut(None) && OnlyDuel(id) && id !in activeDuels
      ensures finished == old(finished)[id := (old(activeDuels[id]).(closed := true), old(duelSeats[id]))]
      ensures cutOff == old(cutOff) + (if cut then {id} else {})
      ensures forall p <- playerToDuel :: p in old(playerToDuel)
    {
      hide Told, Owned, Live;
      OwnedKeys();
      var session, seats := activeDuels[id], duelSeats[id];
      Disown(id);
      finished := finished[id := (session.(closed := true), seats)];
      if cut { cutOff := cutOff + {id}; }
      SameTold(session, session.(closed := true), seats, if cut then 0 else 1);
      OwnedKeys();
    }

    lemma OwnedKeys()
      requires Owned()
      ensures activeDuels.Keys == duelSeats.Keys && soloHandlers <= activeDuels.Keys
    {
    }

    method EndDuel(id: DuelId, notify: bool, ghost cut: bool)
      requires SoundBut(Some(id)) && id in activeDuels && activeDuels[id].endings <= 1
      requires Told(activeDuels[id], duelSeats[id], if cut then 0 else 1)
      modifies this
      ensures Sound() && OnlyDuel(id) && id !in activeDuels && OnlyCloses()
      ensures finished == old(finished)[id := (old(activeDuels[id]).(closed := true), old(duelSeats[id]))]
      ensures cutOff == old(cutOff) + (if cut then {id} else {})
    {
      hide Inv, Told, Owned, LedgerBut, OnlyDuel;
      OwnedKeys();
      var seats := duelSeats[id];
      Retire(id, cut);
      OnlyDuelEnds(id);
      if notify {
        Announce(seats.first);
        if seats.second.Some? { Announce(seats.second.value); }
      }
    }

    twostate lemma OnlyDuelEnds(id: DuelId)
      requires OnlyDuel(id)
      ensures startingPlayers == old(startingPlayers) && locked == old(locked)
    {
    }

    /** A result is sent to every human seat of a duel that is still on, and to nobody of any other. */
    method FinishDuel(id: DuelId, winner: int, reason: int)
      requires SoundBut(Some(id))
      requires id in activeDuels ==> activeDuels[id].endings <= 1 && Told(activeDuels[id], duelSeats[id], 0)
      modifies this
      ensures Sound() && OnlyDuel(id) && id !in activeDuels && OnlyCloses() && cutOff == old(cutOff)
      ensures if id in old(activeDuels)
              then var s := old(activeDuels[id]);
                   && id in old(duelSeats)
                   && finished == old(finished)[id := (s.(sent := s.sent + Result(old(duelSeats[id]), winner, reason), closed := true), old(duelSeats[id]))]
              else finished == old(finished)
    {
      hide Inv, Live, Told, Exclusive, Owned, LedgerBut;
      if id !in activeDuels {
        NoneBusy(id);
        return;
      }
      OwnedKeys();
      ResultTold(activeDuels[id], duelSeats[id], winner, reason);
      activeDuels := activeDuels[id := activeDuels[id].(sent := activeDuels[id].sent + Result(duelSeats[id], winner, reason))];
      Replaced(id);
      OthersLedger(id);
      EndDuel(id, true, false);
    }

    lemma NoneBusy(id: DuelId)
      requires LedgerBut(Some(id)) && id !in activeDuels
      ensures LedgerBut(None)
    {
    }

    /** What `id` is still to be told does not matter to the others. */
    twostate lemma OthersLedger(id: DuelId)
      requires old(LedgerBut(Some(id)) || LedgerBut(None))
      requires id in old(activeDuels) && id in activeDuels && activeDuels == old(activeDuels)[id := activeDuels[id]]
      requires duelSeats == old(duelSeats) && finished == old(finished) && cutOff == old(cutOff)
      ensures LedgerBut(Some(id))
      ensures id in duelSeats && Live(activeDuels[id], duelSeats[id]) ==> LedgerBut(None)
    {
      hide Live, Over;
    }

    // ----- The run of a duel -----

    /** The listener's `onDuelEnd`: a win has been sent to the seats already, a draw has not. */
    method Complete(id: DuelId, winSent: bool)
      requires SoundBut(Some(id)) && id in activeDuels && Ending(activeDuels[id], duelSeats[id])
      requires winSent == activeDuels[id].listener.WinSent()
      modifies this
      ensures Sound() && OnlyDuel(id) && id !in activeDuels && OnlyCloses()
      ensures id in old(duelSeats) && finished == old(finished)[id := (Closing(old(activeDuels[id]), old(duelSeats[id])), old(duelSeats[id]))]
      ensures cutOff == old(cutOff)
    {
      hide Inv, Told, Owned, LedgerBut, OnlyDuel;
      OwnedKeys();
      if winSent { EndDuel(id, true, false); } else { FinishDuel(id, WINNER_DRAW, 0); }
    }

    /** `process`: a session that is not running runs until a player must answer, it ends, or the engine fails. */
    method Process(id: DuelId) returns (threw: bool)
      requires Sound() && id in activeDuels && !activeDuels[id].running
      modifies this
      ensures Sound() && OnlyDuel(id) && OnlyCloses() && cutOff == old(cutOff)
      ensures if id in activeDuels then finished == old(finished) && !activeDuels[id].running else finished.Keys == old(finished).Keys + {id}
      ensures id in activeDuels && !threw ==>
                && |activeDuels[id].script| <= |old(activeDuels[id]).script|
                && (activeDuels[id].listener.AnswerPending() && !old(activeDuels[id]).listener.AnswerPending() ==>
                      |activeDuels[id].script| < |old(activeDuels[id]).script|)
      ensures threw ==> id in activeDuels
      ensures var x := Loop(old(activeDuels[id]).(running := true));
              Stands(id, x, old(duelSeats)[id]) && (threw <==> x.outcome == Throws)
    {
      hide Inv, Owned, Loop, Live, Ending, LedgerBut, Exclusive;
      OwnedKeys();
      LiveOnRecord(id);
      var session, seats := activeDuels[id], duelSeats[id];
      LoopOnLive(session, seats);
      activeDuels := activeDuels[id := session.(running := true)];
      var r := Loop(activeDuels[id]);
      activeDuels := activeDuels[id := r.session];
      Replaced(id);
      OthersLedger(id);
      threw := r.outcome == Throws;
      if r.outcome == Ends {
        Complete(id, r.session.listener.WinSent());
      } else {
        activeDuels := activeDuels[id := r.session.(running := false)];
        Replaced(id);
        OthersLedger(id);
      }
    }

    lemma LiveOnRecord(id: DuelId)
      requires LedgerBut(None) && id in activeDuels && id in duelSeats
      ensures Live(activeDuels[id], duelSeats[id])
    {
    }

    /** A session may be put in the place of another without disturbing who owns what. */
    twostate lemma Replaced(id: DuelId)
      requires old(Owned()) && id in old(activeDuels) && id in activeDuels && activeDuels == old(activeDuels)[id := activeDuels[id]]
      requires duelSeats == old(duelSeats) && soloHandlers == old(soloHandlers) && playerToDuel == old(playerToDuel)
      requires startingPlayers == old(startingPlayers) && locked == old(locked) && finished == old(finished)
      ensures Owned() && OnlyDuel(id)
    {
    }

    /** How much a duel can still do without a player: the engine's steps, and an answer that is waiting. */
    ghost function Left(id: DuelId): nat
      reads this`activeDuels
    {
      if id !in activeDuels then 0
      else |activeDuels[id].script| + if activeDuels[id].listener.AnswerPending() then 1 else 0
    }

    /** The opponent's answer, if one is waiting, goes to the engine now that it does not run. */
    method ProcessSoloAutoResponse(id: DuelId) returns (threw: bool)
      requires Sound()
      modifies this
      ensures Sound() && OnlyDuel(id) && OnlyCloses() && cutOff == old(cutOff)
      ensures if id in old(activeDuels) && id !in activeDuels then finished.Keys == old(finished).Keys + {id} else finished == old(finished)
      ensures threw ==> id in activeDuels
      ensures id in activeDuels ==> id in old(activeDuels) && (threw || !activeDuels[id].listener.AnswerPending())
      ensures id in old(activeDuels) ==>
                var x := AnswerAll(old(activeDuels[id]), old(duelSeats)[id]);
                Stands(id, x, old(duelSeats)[id]) && (threw <==> x.outcome == Throws)
      decreases Left(id), 2
    {
      hide Inv, Owned, Live, LedgerBut, RunAll, Stands;
      threw := false;
      OwnedKeys();
      OnlySoloAnswers(id);
      if id in activeDuels {
        NotRunning(id);
        LiveOnRecord(id);
        Waiting(id);
      }
      if id in soloHandlers && activeDuels[id].listener.AnswerPending() {
        Consume(id);
        threw := HandleSoloAutoResponse(id);
      }
    }

    lemma Waiting(id: DuelId)
      requires id in activeDuels && id in duelSeats && !activeDuels[id].running
      ensures Stands(id, Looped(activeDuels[id], Awaits), duelSeats[id])
    {
    }

    /** Only a solo duel's listener ever has an answer waiting. */
    lemma OnlySoloAnswers(id: DuelId)
      requires Sound()
      ensures id in activeDuels && activeDuels[id].listener.AnswerPending() ==> id in soloHandlers
    {
    }

    /** `consumePendingAutoResponse`. */
    method Consume(id: DuelId)
      requires Sound() && id in activeDuels && activeDuels[id].listener.AnswerPending()
      modifies this`activeDuels
      ensures Sound() && OnlyDuel(id) && id in activeDuels && Left(id) < old(Left(id)) && !activeDuels[id].listener.AnswerPending()
      ensures activeDuels[id] == Answered(old(activeDuels[id])) && duelSeats == old(duelSeats)
    {
      hide Inv, Owned;
      OwnedKeys();
      var session := activeDuels[id];
      NotRunning(id);
      activeDuels := activeDuels[id := session.(listener := session.listener.(s := session.listener.s.(pendingAutoResponse := None)))];
      Replaced(id);
      SameTold(session, activeDuels[id], duelSeats[id], 0);
    }

    method HandleSoloAutoResponse(id: DuelId) returns (threw: bool)
      requires Sound() && (id in activeDuels ==> !activeDuels[id].listener.AnswerPending())
      modifies this
      ensures Sound() && OnlyDuel(id) && OnlyCloses() && cutOff == old(cutOff)
      ensures if id in old(activeDuels) && id !in activeDuels then finished.Keys == old(finished).Keys + {id} else finished == old(finished)
      ensures threw ==> id in activeDuels
      ensures id in activeDuels ==> id in old(activeDuels) && (threw || !activeDuels[id].listener.AnswerPending())
      ensures id in old(activeDuels) ==>
                var x := RunAll(old(activeDuels[id]), old(duelSeats)[id]);
                Stands(id, x, old(duelSeats)[id]) && (threw <==> x.outcome == Throws)
      decreases Left(id), 4
    {
      hide Inv, Owned, LedgerBut, Live, Loop, AnswerAll;
      threw := false;
      if id in activeDuels { NotRunning(id); }
      if id !in activeDuels || activeDuels[id].ended { return; }
      threw := RunOn(id);
    }

    /** `process`, and then the opponent's answers. */
    method RunOn(id: DuelId) returns (threw: bool)
      requires Sound() && id in activeDuels && !activeDuels[id].running
      modifies this
      ensures Sound() && OnlyDuel(id) && OnlyCloses() && cutOff == old(cutOff)
      ensures if id !in activeDuels then finished.Keys == old(finished).Keys + {id} else finished == old(finished)
      ensures threw ==> id in activeDuels
      ensures id in activeDuels ==> threw || !activeDuels[id].listener.AnswerPending()
      ensures var x := RunAll(old(activeDuels[id]), old(duelSeats)[id]);
              Stands(id, x, old(duelSeats)[id]) && (threw <==> x.outcome == Throws)
      decreases Left(id), 3
    {
      hide Inv, Owned, LedgerBut, Live, Loop, AnswerAll;
      OwnedKeys();
      LiveOnRecord(id);
      threw := Process(id);
      if !threw { threw := ProcessSoloAutoResponse(id); }
    }

    lemma NotRunning(id: DuelId)
      requires Sound() && id in activeDuels
      ensures !activeDuels[id].running && !activeDuels[id].ended
    {
    }

    /** A response counts from `p` only if `p` is seated where the prompt is open. */
    predicate Accepts(p: Player)
      requires Owned()
      reads this
    {
      p in playerToDuel
      && var id := playerToDuel[p];
         !activeDuels[id].ended && activeDuels[id].listener.AcceptsResponseFrom(duelSeats[id].SeatOf(p))
    }

    /** An accepted response makes the duel run on, for as long as its opponent has answers; any other changes nothing. */
    method HandleResponse(p: Player) returns (threw: bool)
      requires Quiescent()
      modifies this
      ensures Quiescent() && cutOff == old(cutOff)
      ensures old(Accepts(p)) ==>
                var id := old(playerToDuel)[p];
                var x := RunAll(old(activeDuels)[id], old(duelSeats)[id]);
                Stands(id, x, old(duelSeats)[id]) && OnlyDuel(id) && (threw <==> x.outcome == Throws)
      ensures !old(Accepts(p)) ==>
                !threw && activeDuels == old(activeDuels) && finished == old(finished) && duelSeats == old(duelSeats) && playerToDuel == old(playerToDuel)
      ensures p in old(playerToDuel) ==> OnlyDuel(old(playerToDuel)[p])
    {
      hide Inv, LedgerBut, Live, RunAll, Owned;
      threw := false;
      if p !in playerToDuel { return; }
      var id := playerToDuel[p];
      SeatedThere(p);
      if activeDuels[id].ended || !activeDuels[id].listener.AcceptsResponseFrom(duelSeats[id].SeatOf(p)) { return; }
      NotRunning(id);
      label L:
      threw := RunOn(id);
      OnlyDuelEnds@L(id);
    }

    lemma SeatedThere(p: Player)
      requires Owned() && p in playerToDuel
      ensures playerToDuel[p] in activeDuels && playerToDuel[p] in duelSeats && duelSeats[playerToDuel[p]].Seated(p)
    {
    }

    // ----- The start of a duel -----

    /** The duel and its players go into the maps. */
    method Install(id: DuelId, seats: Seats, session: Session)
      requires Sound() && seats.Fit() && id !in activeDuels && id !in finished && Live(session, seats)
      requires forall p :: seats.Seated(p) ==> p !in playerToDuel && (p in prep.flows ==> p in locked)
      modifies this`activeDuels, this`duelSeats, this`soloHandlers, this`playerToDuel
      ensures Sound() && OnlyDuel(id) && id in activeDuels && id in duelSeats && activeDuels[id] == session && duelSeats[id] == seats
    {
      hide Inv, Live, Owned, OnlyDuel, LedgerBut, Exclusive;
      activeDuels := activeDuels[id := session];
      duelSeats := duelSeats[id := seats];
      TakeSeats(id, seats);
      InstalledOwned(Entry(id, seats));
      InstalledOnly(Entry(id, seats));
      InstalledLedger(Entry(id, seats));
      InstalledExclusive(seats);
    }

    method TakeSeats(id: DuelId, seats: Seats)
      modifies this`soloHandlers, this`playerToDuel
      ensures soloHandlers == old(soloHandlers) + (if seats.second.None? then {id} else {})
      ensures playerToDuel == if seats.second.Some? then old(playerToDuel)[seats.first := id][seats.second.value := id]
                              else old(playerToDuel)[seats.first := id]
    {
      playerToDuel := playerToDuel[seats.first := id];
      if seats.second.Some? {
        playerToDuel := playerToDuel[seats.second.value := id];
      } else {
        soloHandlers := soloHandlers + {id};
      }
    }

    ghost function Holding(): Holdings
      reads this`activeDuels, this`duelSeats, this`soloHandlers, this`playerToDuel
    {
      Holdings(activeDuels, duelSeats, soloHandlers, playerToDuel)
    }

    twostate lemma InstalledOwned(e: Entry)
      requires old(Owned()) && Added(old(Holding()), Holding(), e) && e.seats.Fit() && e.id !in old(activeDuels)
      requires forall p :: e.seats.Seated(p) ==> p !in old(playerToDuel)
      ensures Owned()
    {
      forall i <- duelSeats
        ensures duelSeats[i].Fit() && Maps(duelSeats[i].first, i) && (duelSeats[i].second.Some? ==> Maps(duelSeats[i].second.value, i))
                && (i in soloHandlers <==> duelSeats[i].second.None?) {
        if i != e.id {
          assert i in old(duelSeats) && old(Maps(duelSeats[i].first, i));
          assert old(duelSeats)[i].second.Some? ==> old(Maps(duelSeats[i].second.value, i));
        }
      }
    }

    twostate lemma InstalledOnly(e: Entry)
      requires old(Owned()) && Added(old(Holding()), Holding(), e) && e.id !in old(activeDuels) && forall p :: e.seats.Seated(p) ==> p !in old(playerToDuel)
      requires startingPlayers == old(startingPlayers) && locked == old(locked) && finished == old(finished)
      ensures OnlyDuel(e.id)
    {
    }

    twostate lemma InstalledLedger(e: Entry)
      requires old(Owned()) && old(LedgerBut(None)) && Added(old(Holding()), Holding(), e) && e.id !in old(finished) && Live(activeDuels[e.id], e.seats)
      requires finished == old(finished) && cutOff == old(cutOff)
      ensures LedgerBut(None)
    {
      hide Live, Over;
    }

    twostate lemma InstalledExclusive(seats: Seats)
      requires old(Exclusive()) && prep == old(prep) && locked == old(locked) && startingPlayers == old(startingPlayers)
      requires forall p <- playerToDuel :: p in old(playerToDuel) || seats.Seated(p)
      requires forall p :: seats.Seated(p) && p in prep.flows ==> p in locked
      ensures Exclusive()
    {
      hide Inv;
    }

    /** Every human learns of the start before anything else, and then what the first queries returned. */
    method SendStarts(id: DuelId, refreshes: seq<Refresh>)
      requires Sound() && id in activeDuels && id in duelSeats
      modifies this`activeDuels
      ensures Sound() && OnlyDuel(id) && id in activeDuels
      ensures var s := old(activeDuels[id]);
              var r := HearRefreshes(s.listener, refreshes);
              activeDuels[id] == s.(listener := r.listener, sent := s.sent + Starts(duelSeats[id]) + r.out)
    {
      hide Inv, Owned;
      var s := activeDuels[id];
      var r := HearRefreshes(s.listener, refreshes);
      activeDuels := activeDuels[id := s.(listener := r.listener, sent := s.sent + Starts(duelSeats[id]) + r.out)];
      StartsTellNothing(s, duelSeats[id], refreshes);
      Replaced(id);
    }

    lemma Untold(id: DuelId)
      requires Sound() && id in activeDuels
      ensures id in duelSeats && Told(activeDuels[id], duelSeats[id], 0) && activeDuels[id].endings <= 1 && SoundBut(Some(id))
    {
    }

    /** If nothing else changed and the duel is not there, nothing changed. */
    twostate lemma Nothing(id: DuelId)
      requires OnlyDuel(id) && id !in activeDuels && Owned() && old(Owned()) && id !in old(activeDuels)
      ensures activeDuels == old(activeDuels) && duelSeats == old(duelSeats) && soloHandlers == old(soloHandlers)
      ensures playerToDuel == old(playerToDuel)
    {
      assert activeDuels == activeDuels - {id} && old(activeDuels) == old(activeDuels) - {id};
      assert duelSeats == duelSeats - {id} && old(duelSeats) == old(duelSeats) - {id};
      assert soloHandlers == soloHandlers - {id} && old(soloHandlers) == old(soloHandlers) - {id};
      assert forall p <- playerToDuel :: playerToDuel[p] != id;
      assert forall p <- old(playerToDuel) :: old(playerToDuel)[p] != id;
    }

    /** The first `process`, with the opponent's answers; a duel that fails here is ended without a word. */
    method SetOff(id: DuelId, setUp: bool) returns (threw: bool)
      requires Sound() && id in activeDuels && !activeDuels[id].running && id !in finished
      modifies this
      ensures Sound() && OnlyDuel(id) && OnlyCloses()
      ensures if threw then id !in activeDuels else id in activeDuels || id in finished
      ensures cutOff == old(cutOff) || (threw && cutOff == old(cutOff) + {id})
      ensures !threw ==> id in old(duelSeats) && Stands(id, RunAll(old(activeDuels[id]), old(duelSeats)[id]), old(duelSeats)[id])
    {
      hide Inv, Owned, LedgerBut, Told, Live, Exclusive, RunAll;
      OwnedKeys();
      threw := !setUp;
      if !threw { threw := RunOn(id); }
      if threw && id in activeDuels {
        Untold(id);
        EndDuel(id, false, true);
      }
    }

    /** The session is made, its seats are taken, and both sides are told that the duel starts. */
    method SitDown(world: World, seats: Seats)
      requires Sound() && seats.Fit() && world.id !in activeDuels && world.id !in finished
      requires forall p :: seats.Seated(p) ==> p !in playerToDuel && (p in prep.flows ==> p in locked)
      modifies this`activeDuels, this`duelSeats, this`soloHandlers, this`playerToDuel
      ensures Sound() && OnlyDuel(world.id) && world.id in activeDuels && world.id in duelSeats
      ensures activeDuels[world.id] == Opened(seats, world) && duelSeats[world.id] == seats && !activeDuels[world.id].running
    {
      hide Inv, Owned, LedgerBut, Told, Live, Exclusive, HearRefreshes, Starts, Endings;
      FreshLive(seats, world.ai, world.script);
      Install(world.id, seats, Session(if seats.second.Some? then Versus(HandlerState(-1, false)) else Solo(world.ai, FRESH),
                                       false, false, world.script, [], false, 0));
      SendStarts(world.id, world.refreshes);
      assert [] + Starts(seats) == Starts(seats);
      NotRunning(world.id);
    }

    /** `start`: the duel is installed, announced, set up and run, or taken out of every map again. */
    method Start(world: World, seats: Seats) returns (ok: bool)
      requires Sound() && seats.Fit() && world.id !in activeDuels && world.id !in finished
      requires forall p :: seats.Seated(p) ==> p !in playerToDuel && (p in prep.flows ==> p in locked)
      modifies this
      ensures Sound() && OnlyDuel(world.id) && OnlyCloses()
      ensures !ok ==> activeDuels == old(activeDuels) && duelSeats == old(duelSeats) && soloHandlers == old(soloHandlers)
                      && playerToDuel == old(playerToDuel)
      ensures ok ==> Stands(world.id, Begun(seats, world), seats)
      ensures cutOff == old(cutOff) || (!ok && cutOff == old(cutOff) + {world.id})
    {
      hide Inv, Owned, LedgerBut, Told, Live, Exclusive, HearRefreshes, Starts, Endings, RunAll;
      OwnedKeys();
      if !world.made { return false; }
      SitDown(world, seats);
      var threw := SetOff(world.id, world.setUp);
      ok := !threw;
      if threw { Nothing(world.id); }
    }

    /** A prepared player's deck and whereabouts are checked again; whoever duels by now is turned away. */
    method Recheck(p: Player, ready: bool) returns (ok: bool)
      requires Sound()
      modifies this`prep
      ensures Sound() && OnlyCloses() && (ok ==> p !in playerToDuel)
    {
      hide Inv, Owned, LedgerBut;
      if p in playerToDuel { return false; }
      Churn();
      ok := ready;
    }

    /** `startPrepared`: the players take the seats the winner chose, or nothing happens to the maps. */
    method StartPrepared(prepared: PreparedDuel, firstSeat: int, world: World) returns (ok: bool)
      requires Sound() && world.id !in activeDuels && world.id !in finished
      requires prepared.challenger.id != prepared.accepter.id && prepared.challenger.id in locked && prepared.accepter.id in locked
      modifies this
      ensures Sound() && OnlyDuel(world.id) && OnlyCloses()
      ensures !ok ==> activeDuels == old(activeDuels) && duelSeats == old(duelSeats) && soloHandlers == old(soloHandlers)
                      && playerToDuel == old(playerToDuel)
      ensures ok ==> var seats := ChosenSeats(prepared.challenger.id, prepared.accepter.id, firstSeat == 0);
                     Stands(world.id, Begun(seats, world), seats)
      ensures cutOff == old(cutOff) || (!ok && cutOff == old(cutOff) + {world.id})
    {
      hide Inv, Owned, LedgerBut, Begun;
      var a := Recheck(prepared.challenger.id, world.firstReady);
      var b := Recheck(prepared.accepter.id, world.secondReady);
      if !a || !b { return false; }
      var first := if firstSeat == 0 then prepared.challenger.id else prepared.accepter.id;
      var second := if firstSeat == 0 then prepared.accepter.id else prepared.challenger.id;
      ok := Start(world, Seats(first, Some(second)));
    }

    /** The service's checks of a choice: the flow goes on, or is closed, or there is none. */
    method Admit(e: Event, world: World) returns (code: Code)
      requires Quiescent() && e.Chosen?
      modifies this`prep
      ensures Quiescent() && code in {OK, STALE, OFFLINE, BUSY}
      ensures code == OK ==>
                && Enabled(prep, e) && e.actor in old(prep.flows) && prep.flows[e.actor] == old(prep.flows[e.actor])
                && (e.actor == prep.flows[e.actor].challenger || e.actor == prep.flows[e.actor].accepter)
    {
      hide Inv, Owned, LedgerBut;
      Churn();
      if !Enabled(prep, e) { return STALE; }
      var f := prep.flows[e.actor];
      Participant(e.actor);
      if !world.online || IsDueling(f.challenger) || IsDueling(f.accepter) {
        CloseFlow(e.actor);
        Churn();
        return if world.online then BUSY else OFFLINE;
      }
      code := OK;
    }

    /** The winner's choice: the flow is locked, the duel started from inside the service's callback, and the flow closed. */
    method First(e: Event, world: World) returns (code: Code)
      requires Quiescent() && e.Chosen? && world.id !in activeDuels && world.id !in finished
      modifies this
      ensures Quiescent()
      ensures code != OK ==>
                activeDuels == old(activeDuels) && duelSeats == old(duelSeats) && soloHandlers == old(soloHandlers)
                && playerToDuel == old(playerToDuel)
      ensures code == OK ==>
                && e.actor in old(prep.flows)
                && var f := old(prep.flows[e.actor]);
                   var seats := ChosenSeats(e.actor, if e.actor == f.challenger then f.accepter else f.challenger, e.goFirst);
                   (e.actor == f.challenger || e.actor == f.accepter) && Stands(world.id, Begun(seats, world), seats)
      ensures code in {OK, START_FAILED, STALE, OFFLINE, BUSY}
      ensures cutOff == old(cutOff) || (code == START_FAILED && cutOff == old(cutOff) + {world.id})
    {
      hide Inv, Owned, LedgerBut, OnlyDuel, Begun, Stands;
      code := Admit(e, world);
      if code != OK { return; }
      Choose(e);
      Churn();
      var started := RunStart(e.actor, world);
      code := if started then OK else START_FAILED;
    }

    /** The service's `advance` on a flow whose first player is chosen. */
    method RunStart(actor: Player, world: World) returns (ok: bool)
      requires Sound() && world.id !in activeDuels && world.id !in finished && startingPlayers == {} && actor in prep.flows
      requires var f := prep.flows[actor];
               f.mode == STARTING && f.choice.Some? && !f.launched && locked == {f.challenger, f.accepter}
      modifies this
      ensures Quiescent()
      ensures !ok ==> activeDuels == old(activeDuels) && duelSeats == old(duelSeats) && soloHandlers == old(soloHandlers)
                      && playerToDuel == old(playerToDuel)
      ensures ok ==> var f := old(prep.flows[actor]);
                     var seats := ChosenSeats(P.Winner(f), if P.Winner(f) == f.challenger then f.accepter else f.challenger, f.choice.value);
                     Stands(world.id, Begun(seats, world), seats)
      ensures cutOff == old(cutOff) || (!ok && cutOff == old(cutOff) + {world.id})
    {
      hide Inv, Owned, LedgerBut, OnlyDuel, Begun, Stands;
      Launch(actor);
      var f := prep.flows[actor];
      FlowOf(actor);
      ChosenIsPrepared(f);
      label L:
      ok := StartPrepared(f.prepared.value, P.Seat(f, f.choice.value), world);
      OnlyDuelEnds@L(world.id);
      Unlock(actor);
      Churn();
    }

    lemma Participant(p: Player)
      requires Exclusive() && p in prep.flows
      ensures p == prep.flows[p].challenger || p == prep.flows[p].accepter
    {
    }

    method Choose(e: Event)
      requires Exclusive() && locked == {} && e.Chosen? && Enabled(prep, e)
      modifies this`prep, this`locked
      ensures Exclusive() && e.actor in prep.flows
      ensures var f := old(prep.flows[e.actor]);
              prep.flows[e.actor] == f.(mode := STARTING, choice := Some(e.goFirst)) && locked == {f.challenger, f.accepter} && !f.launched
    {
      hide Bump, FlowsInv;
      NextInv(prep, e);
      OwnersOnly(prep.flows, prep.used, e.actor);
      locked := {prep.flows[e.actor].challenger, prep.flows[e.actor].accepter};
      prep := Next(prep, e);
    }

    method Launch(actor: Player)
      requires Exclusive() && actor in prep.flows && prep.flows[actor].mode == STARTING && prep.flows[actor].choice.Some? && !prep.flows[actor].launched
      modifies this`prep
      ensures Exclusive() && actor in prep.flows && prep.flows[actor] == old(prep.flows[actor]).(launched := true)
    {
      hide FlowFits, Bump, FlowsInv;
      var f := prep.flows[actor];
      var e := Launched(f.id, actor, P.Seat(f, f.choice.value));
      OwnersOnly(prep.flows, prep.used, actor);
      NextInv(prep, e);
      prep := Next(prep, e);
    }

    lemma FlowOf(p: Player)
      requires Exclusive() && p in prep.flows
      ensures FlowFits(prep.flows[p])
    {
    }

    /** The started flow is gone, and with it the lock on its players. */
    method Unlock(actor: Player)
      requires Exclusive() && actor in prep.flows && prep.flows[actor].launched
      requires locked == {prep.flows[actor].challenger, prep.flows[actor].accepter}
      modifies this`prep, this`locked
      ensures Exclusive() && locked == {} && prep.flows.Keys <= old(prep.flows.Keys)
    {
      hide FlowFits, Bump, FlowsInv;
      var e := Closed(prep.flows[actor].id, actor, OK);
      OwnersOnly(prep.flows, prep.used, actor);
      NextInv(prep, e);
      prep := Next(prep, e);
      locked := {};
    }

    /** A solo duel starts only for a player in no duel and no accepted flow, whose invitation is withdrawn first. */
    method StartSolo(owner: Player, world: World) returns (ok: bool)
      requires Quiescent() && world.id !in activeDuels && world.id !in finished
      modifies this
      ensures Quiescent()
      ensures !ok ==> activeDuels == old(activeDuels) && duelSeats == old(duelSeats) && soloHandlers == old(soloHandlers)
                      && playerToDuel == old(playerToDuel)
      ensures ok ==> !old(IsBusy(owner)) && Stands(world.id, Begun(Seats(owner, None), world), Seats(owner, None))
      ensures cutOff == old(cutOff) || (!ok && cutOff == old(cutOff) + {world.id})
    {
      hide Inv, Owned, LedgerBut, OnlyDuel, Begun, Stands;
      if IsBusy(owner) { return false; }
      Churn();
      if owner in prep.flows {
        CloseFlow(owner);
        Churn();
      }
      ok := RunSolo(owner, world);
    }

    method RunSolo(owner: Player, world: World) returns (ok: bool)
      requires Quiescent() && world.id !in activeDuels && world.id !in finished && owner !in prep.flows && owner !in playerToDuel
      modifies this
      ensures Quiescent()
      ensures !ok ==> activeDuels == old(activeDuels) && duelSeats == old(duelSeats) && soloHandlers == old(soloHandlers)
                      && playerToDuel == old(playerToDuel)
      ensures ok ==> Stands(world.id, Begun(Seats(owner, None), world), Seats(owner, None))
      ensures cutOff == old(cutOff) || (!ok && cutOff == old(cutOff) + {world.id})
    {
      hide Inv, Owned, LedgerBut, OnlyDuel, Begun, Stands;
      startingPlayers := startingPlayers + {owner};
      label L:
      ok := TrySolo(owner, world);
      OnlyDuelEnds@L(world.id);
      startingPlayers := startingPlayers - {owner};
      Announce(owner);
    }

    method TrySolo(owner: Player, world: World) returns (ok: bool)
      requires Sound() && world.id !in activeDuels && world.id !in finished && owner !in prep.flows && owner !in playerToDuel
      modifies this
      ensures Sound() && OnlyDuel(world.id) && OnlyCloses()
      ensures !ok ==> activeDuels == old(activeDuels) && duelSeats == old(duelSeats) && soloHandlers == old(soloHandlers)
                      && playerToDuel == old(playerToDuel)
      ensures ok ==> Stands(world.id, Begun(Seats(owner, None), world), Seats(owner, None))
      ensures cutOff == old(cutOff) || (!ok && cutOff == old(cutOff) + {world.id})
    {
      hide Inv, Owned, LedgerBut;
      Churn();
      if !world.firstReady { return false; }
      var again := Recheck(owner, world.secondReady);
      if !again { return false; }
      ok := Start(world, Seats(owner, None));
    }

    /** Giving up or disconnecting: a duel is lost by it, and without a duel the flow is left. */
    method Leave(owner: Player, reason: int)
      requires Quiescent()
      modifies this
      ensures Quiescent() && cutOff == old(cutOff) && owner !in playerToDuel
      ensures owner in old(playerToDuel) ==>
                var id := old(playerToDuel)[owner];
                && id in old(activeDuels) && id in old(duelSeats) && id in finished
                && finished[id].0.sent == old(activeDuels)[id].sent + Result(old(duelSeats)[id], 1 - old(duelSeats)[id].SeatOf(owner), reason)
    {
      hide Inv, Owned, LedgerBut;
      if owner !in playerToDuel {
        Churn();
        return;
      }
      var id := playerToDuel[owner];
      SeatedThere(owner);
      Untold(id);
      FinishDuel(id, 1 - duelSeats[id].SeatOf(owner), reason);
      GoneWith(id);
    }

    lemma GoneWith(id: DuelId)
      requires Owned() && id !in activeDuels
      ensures forall p <- playerToDuel :: playerToDuel[p] != id
    {
    }

    method Forfeit(owner: Player)
      requires Quiescent()
      modifies this
      ensures Quiescent() && cutOff == old(cutOff) && owner !in playerToDuel
    {
      Leave(owner, REASON_SURRENDER);
    }

    method Logout(owner: Player)
      requires Quiescent()
      modifies this
      ensures Quiescent() && cutOff == old(cutOff) && owner !in playerToDuel
    {
      hide Inv, Owned, LedgerBut;
      if owner in prep.flows { CloseFlow(owner); }
      Churn();
      Leave(owner, REASON_DISCONNECT);
    }

    /** The server stops: every duel is cut off without a result, every flow is closed, and the revisions are forgotten. */
    method Shutdown()
      requires Quiescent()
      modifies this
      ensures Quiescent() && activeDuels == map[] && playerToDuel == map[] && cutOff == old(cutOff) + old(activeDuels).Keys
      ensures prep.flows == map[] && prep.revisions == map[]
    {
      hide Inv, Owned, LedgerBut;
      CutOffAll();
      ClearPreparation();
      NoPlayers();
    }

    method CutOffAll()
      requires Quiescent()
      modifies this
      ensures Quiescent() && activeDuels == map[] && cutOff == old(cutOff) + old(activeDuels).Keys
    {
      hide Inv, Owned, LedgerBut, OnlyDuel;
      var left := activeDuels.Keys;
      while left != {}
        invariant Quiescent() && left == activeDuels.Keys && left <= old(activeDuels).Keys
        invariant cutOff == old(cutOff) + (old(activeDuels).Keys - left)
        decreases |left|
      {
        var id :| id in left;
        Untold(id);
        label L:
        EndDuel(id, true, true);
        OnlyDuelKeys@L(id);
        OnlyDuelEnds@L(id);
        left := left - {id};
      }
    }

    /** `clear`: every flow is finished, with its participants told, and no revision is kept. */
    method ClearPreparation()
      requires Exclusive() && locked == {}
      modifies this`prep
      ensures Exclusive() && prep.flows == map[] && prep.revisions == map[]
    {
      hide Inv;
      while prep.flows != map[]
        invariant Exclusive()
        decreases |prep.flows.Keys|
      {
        var p := SomeFlow();
        ghost var before := prep.flows.Keys;
        CloseFlow(p);
        Churn();
        assert prep.flows.Keys < before;
        SmallerSet(prep.flows.Keys, before);
      }
      Unrevised(prep);
      prep := prep.(revisions := map[]);
    }

    lemma Unrevised(s: State)
      requires Inv(s)
      ensures Inv(s.(revisions := map[]))
    {
      hide FlowsInv;
    }

    method SomeFlow() returns (p: Player)
      requires prep.flows != map[]
      ensures p in prep.flows
    {
      assert prep.flows.Keys != {};
      p :| p in prep.flows;
    }

    lemma SmallerSet(a: set<Player>, b: set<Player>)
      requires a < b
      ensures |a| < |b|
    {
      assert b == a + (b - a);
    }

    twostate lemma OnlyDuelKeys(id: DuelId)
      requires OnlyDuel(id) && id !in activeDuels
      ensures activeDuels.Keys == old(activeDuels).Keys - {id}
    {
      assert activeDuels == activeDuels - {id};
      assert (old(activeDuels) - {id}).Keys == old(activeDuels).Keys - {id};
    }

    lemma NoPlayers()
      requires Owned() && activeDuels == map[]
      ensures playerToDuel == map[]
    {
      assert duelSeats.Keys == {};
      assert forall p <- playerToDuel :: playerToDuel[p] in duelSeats.Keys;
    }
  }

  /** What the world outside decides about one start: checks of decks, the new session and its engine. */
  datatype World = World(id: DuelId, online: bool, firstReady: bool, secondReady: bool, made: bool, ai: Ai, script: seq<Batch>,
                         refreshes: seq<Refresh>, setUp: bool)

  lemma ChosenIsPrepared(f: Flow)
    requires FlowFits(f) && f.mode == STARTING
    ensures f.prepared.Some? && f.prepared.value.challenger.id == f.challenger && f.prepared.value.accepter.id == f.accepter
    ensures f.challenger != f.accepter
  {
  }

  lemma FreshLive(seats: Seats, ai: Ai, script: seq<Batch>)
    ensures Live(Session(if seats.second.Some? then Versus(HandlerState(-1, false)) else Solo(ai, FRESH),
                         false, false, script, [], false, 0), seats)
  {
  }

  function Starts(seats: Seats): seq<Delivery> {
    [Delivery(0, DuelStart(0))] + if seats.second.Some? then [Delivery(1, DuelStart(1))] else []
  }

  /** A duel is as live after its start was announced as before. */
  lemma StartsTellNothing(s: Session, seats: Seats, refreshes: seq<Refresh>)
    requires Live(s, seats)
    ensures var r := HearRefreshes(s.listener, refreshes);
            Live(s.(listener := r.listener, sent := s.sent + Starts(seats) + r.out), seats)
  {
    hide HearRefreshes;
    var r := HearRefreshes(s.listener, refreshes);
    RefreshEndings(s.listener, refreshes, 0);
    forall seat: Seat | seats.Human(seat) ensures Endings(s.sent + Starts(seats) + r.out, seat) == 0 {
      RefreshEndings(s.listener, refreshes, seat);
      FewEndings(Starts(seats), seat);
      EndingsAppend(s.sent, Starts(seats), seat);
      EndingsAppend(s.sent + Starts(seats), r.out, seat);
    }
  }

  lemma StaysOut(s: State, e: Event)
    requires Inv(s) && Enabled(s, e) && (e.Accepted? || e.Played? || e.Closed? || e.Bumped?)
    ensures Next(s, e).flows.Keys <= s.flows.Keys
    ensures forall p <- Next(s, e).flows :: s.flows[p].mode != STARTING ==> Next(s, e).flows[p].mode != STARTING
  {
    hide FlowFits, Bump, FlowsInv, P.Prepare;
    if !e.Bumped? { OwnersOnly(s.flows, s.used, e.actor); }
    if e.Played? { SameOwners(s, e); }
  }
}
