/**
 What a player is shown, told from the history: who invited whom, which hands were played in the round shown, who won,
 and since when the time runs.
 */
module PreparationViews {
  import opened Basics
  import opened Wrappers
  import opened Preparation
  import opened PreparationProofs
  import opened PreparationStarts

  // ----- Where a flow's fields come from -----

  /** Both hands of one round, the second played at the time the deadline counts from. */
  predicate Decides(first: Event, second: Event, f: Flow) {
    && first.Played? && second.Played? && first.id == f.id && second.id == f.id && first.round == second.round
    && f.deadline == second.now + 60_000
    && ((first.actor == f.challenger && second.actor == f.accepter && f.challengerHand == Some(first.hand) && f.accepterHand == Some(second.hand))
        || (first.actor == f.accepter && second.actor == f.challenger && f.accepterHand == Some(first.hand) && f.challengerHand == Some(second.hand)))
  }

  /** The round shown began with this event, a minute before the deadline. */
  predicate OpensRound(e: Event, f: Flow) {
    && ((e.Accepted? && e.id == f.id && f.roundId == Some(e.round)) || (e.Played? && e.id == f.id && f.roundId == Some(e.nextRound)))
    && f.deadline == e.now + 60_000
  }

  /** Since when the time runs: the invitation, the beginning of the round, or its second hand. */
  ghost predicate Timed(history: seq<Event>, f: Flow) {
    match f.mode
    case INVITED => Invited(f.id, f.challenger, f.accepter, f.settings, f.deadline - 60_000) in history
    case RPS => exists k :: 0 <= k < |history| && OpensRound(history[k], f)
    case _ => exists j, k :: 0 <= j < k < |history| && Decides(history[j], history[k], f)
  }

  ghost predicate InvitedAs(history: seq<Event>, f: Flow) {
    exists k :: 0 <= k < |history| && Invites(history[k], f)
  }

  predicate Invites(e: Event, f: Flow) {
    e.Invited? && e.id == f.id && e.challenger == f.challenger && e.accepter == f.accepter && e.settings == f.settings
  }

  /** Whatever was played in the round under way is the hand its player has in. */
  ghost predicate HandsKept(history: seq<Event>, f: Flow) {
    f.mode == RPS ==>
      forall k :: 0 <= k < |history| && history[k].Played? && history[k].id == f.id && f.roundId == Some(history[k].round) ==>
        OwnHand(f, history[k].actor) == Some(history[k].hand)
  }

  ghost predicate Told(history: seq<Event>, f: Flow) {
    InvitedAs(history, f) && Timed(history, f) && HandsKept(history, f)
  }

  /** Every round a hand was played in has been drawn. */
  ghost predicate RoundsDrawn(history: seq<Event>, s: State) {
    forall k :: 0 <= k < |history| && history[k].Played? ==> history[k].round in s.used
  }

  // ----- One event -----

  lemma InvitedGrows(history: seq<Event>, e: Event, f: Flow, g: Flow)
    requires InvitedAs(history, f) && g.id == f.id && g.challenger == f.challenger && g.accepter == f.accepter && g.settings == f.settings
    ensures InvitedAs(history + [e], g)
  {
    var k :| 0 <= k < |history| && Invites(history[k], f);
    assert Invites((history + [e])[k], g);
  }

  lemma TimedGrows(history: seq<Event>, e: Event, f: Flow)
    requires Timed(history, f)
    ensures Timed(history + [e], f)
  {
    match f.mode
    case INVITED =>
    case RPS =>
      var k :| 0 <= k < |history| && OpensRound(history[k], f);
      assert OpensRound((history + [e])[k], f);
    case _ =>
      var j, k :| 0 <= j < k < |history| && Decides(history[j], history[k], f);
      assert Decides((history + [e])[j], (history + [e])[k], f);
  }

  /** An event that is not about the flow. */
  lemma ToldGrows(history: seq<Event>, e: Event, f: Flow)
    requires Told(history, f) && !(e.Played? && e.id == f.id)
    ensures Told(history + [e], f)
  {
    InvitedGrows(history, e, f, f);
    TimedGrows(history, e, f);
    hide InvitedAs, Timed;
  }

  /** Its first round has no hands yet. */
  lemma AcceptTold(history: seq<Event>, f: Flow, e: Event, prepared: PreparedDuel, used: set<Uid>)
    requires Told(history, f) && e.Accepted? && e.id == f.id && e.round !in used
    requires forall k :: 0 <= k < |history| && history[k].Played? ==> history[k].round in used
    ensures Told(history + [e], NewRound(f.(prepared := Some(prepared)), e.round, e.now))
  {
    var g := NewRound(f.(prepared := Some(prepared)), e.round, e.now);
    InvitedGrows(history, e, f, g);
    assert OpensRound((history + [e])[|history|], g);
    hide InvitedAs;
  }

  lemma TieTold(history: seq<Event>, f: Flow, e: Event, g: Flow, used: set<Uid>)
    requires Told(history, f) && e.Played? && e.id == f.id && e.nextRound !in used && e.round in used
    requires forall k :: 0 <= k < |history| && history[k].Played? ==> history[k].round in used
    requires g == NewRound(f.(winner := g.winner, challengerHand := g.challengerHand, accepterHand := g.accepterHand), e.nextRound, e.now)
    ensures Told(history + [e], g)
  {
    InvitedGrows(history, e, f, g);
    assert OpensRound((history + [e])[|history|], g);
    hide InvitedAs;
  }

  lemma FirstHandTold(history: seq<Event>, f: Flow, e: Event)
    requires Told(history, f) && f.mode == RPS && e.Played? && e.id == f.id && OwnHand(f, e.actor).None?
    requires e.actor == f.challenger || e.actor == f.accepter
    requires f.challenger != f.accepter
    ensures Told(history + [e], Recorded(f, e.actor, e.hand))
  {
    var g := Recorded(f, e.actor, e.hand);
    InvitedGrows(history, e, f, g);
    assert Timed(history + [e], g) by {
      var k :| 0 <= k < |history| && OpensRound(history[k], f);
      assert OpensRound((history + [e])[k], g);
    }
    hide InvitedAs, Timed;
    forall k | 0 <= k < |history + [e]| && (history + [e])[k].Played? && (history + [e])[k].id == g.id && g.roundId == Some((history + [e])[k].round)
      ensures OwnHand(g, (history + [e])[k].actor) == Some((history + [e])[k].hand)
    {
      if k < |history| { assert (history + [e])[k] == history[k]; }
    }
  }

  lemma SecondHandTold(history: seq<Event>, f: Flow, e: Event, g: Flow)
    requires Told(history, f) && Justified(history, f) && FlowFits(f) && f.mode == RPS && e.Played? && e.id == f.id && f.roundId == Some(e.round)
    requires e.actor == f.challenger || e.actor == f.accepter
    requires HandsIn(Recorded(f, e.actor, e.hand)) && OwnHand(f, e.actor).None?
    requires g == Recorded(f, e.actor, e.hand).(mode := FIRST_CHOICE, winner := g.winner, roundId := None, deadline := e.now + STEP_MILLIS)
    ensures Told(history + [e], g)
  {
    InvitedGrows(history, e, f, g);
    var other := if e.actor == f.challenger then f.accepter else f.challenger;
    assert HandPlayed(history, f.id, other, e.round, OwnHand(f, other).value);
    var j :| 0 <= j < |history| && Plays(history[j], f.id, other, e.round, OwnHand(f, other).value);
    assert (history + [e])[j] == history[j] && (history + [e])[|history|] == e;
    assert Decides((history + [e])[j], (history + [e])[|history|], g);
    hide InvitedAs;
  }

  lemma PlayTold(history: seq<Event>, f: Flow, e: Event, used: set<Uid>)
    requires Told(history, f) && Justified(history, f) && FlowFits(f) && f.mode == RPS && e.Played? && e.id == f.id && f.roundId == Some(e.round)
    requires (e.actor == f.challenger || e.actor == f.accepter) && OwnHand(f, e.actor).None? && e.round in used
    requires Ties(f, e.actor, e.hand) ==> e.nextRound !in used
    requires forall k :: 0 <= k < |history| && history[k].Played? ==> history[k].round in used
    ensures Told(history + [e], Play(f, e.actor, e.hand, e.nextRound, e.now))
  {
    hide Told, Justified;
    var r := Recorded(f, e.actor, e.hand);
    var g := Play(f, e.actor, e.hand, e.nextRound, e.now);
    if !HandsIn(r) {
      FirstHandTold(history, f, e);
    } else if Ties(f, e.actor, e.hand) {
      TieTold(history, f, e, g, used);
    } else {
      SecondHandTold(history, f, e, g);
    }
  }

  /** The flow goes on to be started, with hands and deadline as they were. */
  lemma StartTold(history: seq<Event>, f: Flow, e: Event, g: Flow)
    requires Told(history, f) && (f.mode == FIRST_CHOICE || f.mode == STARTING) && g.mode == STARTING
    requires g == f.(mode := g.mode, choice := g.choice, launched := g.launched, loggedOut := g.loggedOut)
    ensures Told(history + [e], g)
  {
    InvitedGrows(history, e, f, g);
    var j, k :| 0 <= j < k < |history| && Decides(history[j], history[k], f);
    assert Decides((history + [e])[j], (history + [e])[k], g);
    hide InvitedAs;
  }

  lemma InviteTold(history: seq<Event>, s: State, e: Event)
    requires e.Invited? && e.id !in s.used
    ensures Told(history + [e], NewFlow(e.id, e.challenger, e.accepter, e.settings, e.now))
  {
    assert Invites((history + [e])[|history|], NewFlow(e.id, e.challenger, e.accepter, e.settings, e.now));
    assert (history + [e])[|history|] == e;
  }

  ghost predicate AllTold(history: seq<Event>, s: State) {
    RoundsDrawn(history, s) && forall p <- s.flows :: Told(history, s.flows[p])
  }

  lemma NextTold(history: seq<Event>, s: State, e: Event, p: Player)
    requires Inv(s) && Enabled(s, e) && AllTold(history, s) && AllJustified(history, s) && p in Next(s, e).flows
    ensures Told(history + [e], Next(s, e).flows[p])
  {
    hide Told, Justified, FlowsInv, Resolve, Prepare, SettingsValid, Play, Bump;
    if e.Invited? {
      InviteTold(history, s, e);
      if p != e.challenger && p != e.accepter { ToldGrows(history, e, s.flows[p]); }
    } else if e.Bumped? {
      ToldGrows(history, e, s.flows[p]);
    } else {
      OwnersOnly(s.flows, s.used, e.actor);
      var f := s.flows[e.actor];
      SameOwnersPlay(f, e);
      if p != f.challenger && p != f.accepter {
        ToldGrows(history, e, s.flows[p]);
      } else {
        match e
        case Accepted(_, _, round, cp, ap, now) => AcceptTold(history, f, e, Prepare(f, cp.deck.value, ap.deck.value), s.used);
        case Played(_, _, _, _, _, _) => PlayTold(history, f, e, s.used);
        case Chosen(_, _, goFirst) => StartTold(history, f, e, f.(mode := STARTING, choice := Some(goFirst)));
        case Launched(_, _, _) => StartTold(history, f, e, f.(launched := true));
        case LoggedOut(_, _) => StartTold(history, f, e, f.(loggedOut := true));
        case _ => assert false;
      }
    }
  }

  lemma SameOwnersPlay(f: Flow, e: Event)
    ensures e.Played? ==>
              var g := Play(f, e.actor, e.hand, e.nextRound, e.now); g.challenger == f.challenger && g.accepter == f.accepter
  {
  }

  lemma RoundsStayDrawn(history: seq<Event>, s: State, e: Event)
    requires Inv(s) && Enabled(s, e) && RoundsDrawn(history, s)
    ensures RoundsDrawn(history + [e], Next(s, e))
  {
    hide FlowsInv, FlowFits, Resolve, Prepare, SettingsValid, Eligible, Play, Bump;
    if e.Played? { OwnersOnly(s.flows, s.used, e.actor); }
    forall k | 0 <= k < |history + [e]| && (history + [e])[k].Played? ensures (history + [e])[k].round in Next(s, e).used {
      if k < |history| { assert (history + [e])[k] == history[k]; }
    }
  }

  lemma {:induction false} ReplayTold(history: seq<Event>)
    requires Replay(history).Some?
    ensures AllTold(history, Replay(history).value)
    decreases |history|
  {
    hide Told, Justified, Enabled, Next, FlowsInv, RoundsDrawn;
    if history == [] {
      NoRounds();
    } else {
      var before, e := history[..|history| - 1], history[|history| - 1];
      ReplayTold(before);
      ReplayInv(before);
      ReplayJustified(before);
      var s := Replay(before).value;
      assert history == before + [e];
      RoundsStayDrawn(before, s, e);
      forall p <- Replay(history).value.flows ensures Told(history, Replay(history).value.flows[p]) {
        NextTold(before, s, e, p);
      }
    }
  }

  lemma NoRounds()
    ensures RoundsDrawn([], INITIAL)
  {
  }

  // ----- What is shown -----

  /** `winner`'s hand beat `loser`'s in one round of the flow. */
  ghost predicate Won(history: seq<Event>, id: Uid, winner: Player, loser: Player) {
    exists round, h, o :: HandPlayed(history, id, winner, round, h) && HandPlayed(history, id, loser, round, o) && Wins(h, o)
  }

  /** The one who invited, the one invited and the settings, as the view tells them to one of the two. */
  ghost predicate ShowsInvitation(history: seq<Event>, v: View, viewer: Player) {
    && v.flowId.Some? && v.opponentId.Some? && v.settings.Some? && v.opponentId.value != viewer
    && var challenger := if v.outgoing then viewer else v.opponentId.value;
       var accepter := if v.outgoing then v.opponentId.value else viewer;
       exists k :: 0 <= k < |history| && InvitesTo(history[k], v.flowId.value, challenger, accepter, v.settings.value)
  }

  predicate InvitesTo(e: Event, id: Uid, challenger: Player, accepter: Player, settings: Settings) {
    e.Invited? && e.id == id && e.challenger == challenger && e.accepter == accepter && e.settings == settings
  }

  /** When the step the view shows began. */
  predicate BeginsStep(e: Event, v: View) {
    match v.mode
    case INVITED => e.Invited? && v.flowId == Some(e.id)
    case RPS => (e.Accepted? && v.flowId == Some(e.id) && v.roundId == Some(e.round)) || (e.Played? && v.flowId == Some(e.id) && v.roundId == Some(e.nextRound))
    case _ => e.Played? && v.flowId == Some(e.id)
  }

  /** The time left of a minute from the beginning of the step; none is counted while the duel starts. */
  ghost predicate ShowsTime(history: seq<Event>, v: View, now: int) {
    if v.mode == STARTING then v.remainingMillis == 0
    else exists k :: 0 <= k < |history| && BeginsStep(history[k], v) && v.remainingMillis == Remaining(history[k].now, now)
  }

  function Remaining(since: int, now: int): int {
    var left := since + 60_000 - now;
    if left < 0 then 0 else if left > 60_000 then 60_000 else left
  }

  /** Whether the viewer's own hand is in, and who may choose. */
  ghost predicate ShowsHands(history: seq<Event>, v: View, viewer: Player) {
    && v.flowId.Some? && v.opponentId.Some?
    && (v.mode == INVITED ==> !v.ownHandSubmitted) && (v.mode == FIRST_CHOICE || v.mode == STARTING ==> v.ownHandSubmitted)
    && (v.mode == RPS ==>
          && v.roundId.Some?
          && (v.ownHandSubmitted <==> exists h :: HandPlayed(history, v.flowId.value, viewer, v.roundId.value, h)))
    && (v.mode == FIRST_CHOICE ==>
          if v.canChooseFirst then Won(history, v.flowId.value, viewer, v.opponentId.value)
          else Won(history, v.flowId.value, v.opponentId.value, viewer))
    && (v.mode != FIRST_CHOICE ==> !v.canChooseFirst)
  }

  lemma ShownInvitation(history: seq<Event>, f: Flow, viewer: Player, v: View)
    requires InvitedAs(history, f) && f.challenger != f.accepter && (viewer == f.challenger || viewer == f.accepter)
    requires v.flowId == Some(f.id) && v.settings == Some(f.settings) && v.outgoing == (f.challenger == viewer)
    requires v.opponentId == Some(if f.challenger == viewer then f.accepter else f.challenger)
    ensures ShowsInvitation(history, v, viewer)
  {
    var k :| 0 <= k < |history| && Invites(history[k], f);
    assert InvitesTo(history[k], f.id, f.challenger, f.accepter, f.settings);
  }

  lemma ShownTime(history: seq<Event>, f: Flow, v: View, now: int)
    requires Timed(history, f) && f.mode != IDLE && f.mode != DUEL
    requires v.mode == f.mode && v.flowId == Some(f.id) && v.roundId == f.roundId
    requires v.remainingMillis == if f.mode == STARTING then 0 else Clamp(f.deadline - now, 0, STEP_MILLIS)
    ensures ShowsTime(history, v, now)
  {
    if f.mode == INVITED {
      var k :| 0 <= k < |history| && history[k] == Invited(f.id, f.challenger, f.accepter, f.settings, f.deadline - 60_000);
      assert BeginsStep(history[k], v);
    } else if f.mode == RPS {
      var k :| 0 <= k < |history| && OpensRound(history[k], f);
      assert BeginsStep(history[k], v);
    } else {
      var j, k :| 0 <= j < k < |history| && Decides(history[j], history[k], f);
      assert BeginsStep(history[k], v);
    }
  }

  lemma ShownOwnHand(history: seq<Event>, f: Flow, viewer: Player)
    requires HandsKept(history, f) && Justified(history, f) && f.mode == RPS && f.roundId.Some?
    requires viewer == f.challenger || viewer == f.accepter
    ensures OwnHand(f, viewer).Some? <==> exists h :: HandPlayed(history, f.id, viewer, f.roundId.value, h)
  {
    if OwnHand(f, viewer).Some? {
      assert HandPlayed(history, f.id, viewer, f.roundId.value, OwnHand(f, viewer).value);
    }
    if h :| HandPlayed(history, f.id, viewer, f.roundId.value, h) {
      var k :| 0 <= k < |history| && Plays(history[k], f.id, viewer, f.roundId.value, h);
    }
  }

  lemma ShownWinner(history: seq<Event>, f: Flow)
    requires Justified(history, f) && Decided(f) && f.mode != RPS
    ensures Won(history, f.id, Winner(f), if Winner(f) == f.challenger then f.accepter else f.challenger) || f.challenger == f.accepter
    ensures f.winner == 0 || f.winner == 1
  {
    var h0, h1 := f.challengerHand.value, f.accepterHand.value;
    ResolveIsFair(h0, h1);
    assert RoundPlayed(history, f, h0, h1);
    var round :| HandPlayed(history, f.id, f.challenger, round, h0) && HandPlayed(history, f.id, f.accepter, round, h1);
    if f.winner == 0 {
      assert Wins(h0, h1);
    } else {
      assert Wins(h1, h0);
    }
  }

  /** Every field of the view of a player in a flow is what the history says. */
  lemma ViewTells(history: seq<Event>, viewer: Player, now: int, name: string, dueling: bool)
    requires Replay(history).Some? && viewer in Replay(history).value.flows
    ensures var v := ViewOf(Replay(history).value, viewer, now, name, dueling);
            ShowsInvitation(history, v, viewer) && ShowsTime(history, v, now) && ShowsHands(history, v, viewer) && v.opponentName == name
  {
    hide FlowsInv, Justified, ShowsInvitation, ShowsTime, InvitedAs, Timed, HandsKept, Won, HandPlayed, SettingsValid;
    ReplayInv(history);
    ReplayTold(history);
    ReplayJustified(history);
    var s := Replay(history).value;
    OwnersOnly(s.flows, s.used, viewer);
    var f := s.flows[viewer];
    var v := ViewOf(s, viewer, now, name, dueling);
    ShownInvitation(history, f, viewer, v);
    ShownTime(history, f, v, now);
    if f.mode == RPS { ShownOwnHand(history, f, viewer); }
    if f.mode == FIRST_CHOICE { ShownWinner(history, f); }
  }
}
