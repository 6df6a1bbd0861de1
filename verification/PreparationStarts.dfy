/**
 Why a duel starts: over every history, the host is asked to start a flow at most once, and only after
 an eligible acceptance, two differing hands of one round and the winner's choice.
 */
module PreparationStarts {
  import opened Wrappers
  import opened Preparation
  import opened PreparationProofs

  // ----- What a history contains -----

  /** The flow was accepted with eligible decks, and these are the decks it was prepared with. */
  ghost predicate AcceptedAs(history: seq<Event>, id: Uid, prepared: PreparedDuel) {
    exists k :: 0 <= k < |history| && AcceptsAs(history[k], id, prepared)
  }

  predicate AcceptsAs(e: Event, id: Uid, prepared: PreparedDuel) {
    && e.Accepted? && e.id == id && e.actor == prepared.accepter.id
    && Eligible(Some(e.challengerPick)) && Eligible(Some(e.accepterPick))
    && prepared.challenger.deck == e.challengerPick.deck.value && prepared.accepter.deck == e.accepterPick.deck.value
    && prepared.challenger.shuffleSeed == prepared.settings.seed && prepared.accepter.shuffleSeed == NextLong(prepared.settings.seed)
  }

  ghost predicate HandPlayed(history: seq<Event>, id: Uid, actor: Player, round: Uid, hand: Hand) {
    exists k :: 0 <= k < |history| && Plays(history[k], id, actor, round, hand)
  }

  predicate Plays(e: Event, id: Uid, actor: Player, round: Uid, hand: Hand) {
    e.Played? && e.id == id && e.actor == actor && e.round == round && e.hand == hand
  }

  /** Both participants played these hands in one and the same round. */
  ghost predicate RoundPlayed(history: seq<Event>, f: Flow, challengerHand: Hand, accepterHand: Hand) {
    exists round ::
      HandPlayed(history, f.id, f.challenger, round, challengerHand) && HandPlayed(history, f.id, f.accepter, round, accepterHand)
  }

  /** Where everything a flow records came from. */
  ghost predicate Justified(history: seq<Event>, f: Flow) {
    && (f.prepared.Some? ==> AcceptedAs(history, f.id, f.prepared.value))
    && (f.mode == RPS && f.roundId.Some? && f.challengerHand.Some? ==>
          HandPlayed(history, f.id, f.challenger, f.roundId.value, f.challengerHand.value))
    && (f.mode == RPS && f.roundId.Some? && f.accepterHand.Some? ==>
          HandPlayed(history, f.id, f.accepter, f.roundId.value, f.accepterHand.value))
    && (f.mode != RPS && HandsIn(f) ==> RoundPlayed(history, f, f.challengerHand.value, f.accepterHand.value))
    && (f.choice.Some? ==> Chosen(f.id, Winner(f), f.choice.value) in history)
  }

  lemma HandPlayedGrows(history: seq<Event>, e: Event, id: Uid, actor: Player, round: Uid, hand: Hand)
    ensures HandPlayed(history, id, actor, round, hand) ==> HandPlayed(history + [e], id, actor, round, hand)
    ensures Plays(e, id, actor, round, hand) ==> HandPlayed(history + [e], id, actor, round, hand)
  {
    if Plays(e, id, actor, round, hand) { assert Plays((history + [e])[|history|], id, actor, round, hand); }
    if HandPlayed(history, id, actor, round, hand) {
      var k :| 0 <= k < |history| && Plays(history[k], id, actor, round, hand);
      assert Plays((history + [e])[k], id, actor, round, hand);
    }
  }

  lemma AcceptedGrows(history: seq<Event>, e: Event, id: Uid, prepared: PreparedDuel)
    ensures AcceptedAs(history, id, prepared) || AcceptsAs(e, id, prepared) ==> AcceptedAs(history + [e], id, prepared)
  {
    if AcceptsAs(e, id, prepared) { assert AcceptsAs((history + [e])[|history|], id, prepared); }
    if AcceptedAs(history, id, prepared) {
      var k :| 0 <= k < |history| && AcceptsAs(history[k], id, prepared);
      assert AcceptsAs((history + [e])[k], id, prepared);
    }
  }

  lemma RoundPlayedGrows(history: seq<Event>, e: Event, f: Flow, h0: Hand, h1: Hand)
    requires RoundPlayed(history, f, h0, h1)
    ensures RoundPlayed(history + [e], f, h0, h1)
  {
    var round :| HandPlayed(history, f.id, f.challenger, round, h0) && HandPlayed(history, f.id, f.accepter, round, h1);
    HandPlayedGrows(history, e, f.id, f.challenger, round, h0);
    HandPlayedGrows(history, e, f.id, f.accepter, round, h1);
  }

  lemma JustifiedGrows(history: seq<Event>, e: Event, f: Flow)
    requires Justified(history, f)
    ensures Justified(history + [e], f)
  {
    hide HandPlayed, AcceptedAs, RoundPlayed;
    if f.prepared.Some? { AcceptedGrows(history, e, f.id, f.prepared.value); }
    if f.roundId.Some? && f.challengerHand.Some? {
      HandPlayedGrows(history, e, f.id, f.challenger, f.roundId.value, f.challengerHand.value);
    }
    if f.roundId.Some? && f.accepterHand.Some? {
      HandPlayedGrows(history, e, f.id, f.accepter, f.roundId.value, f.accepterHand.value);
    }
    if f.mode != RPS && HandsIn(f) { RoundPlayedGrows(history, e, f, f.challengerHand.value, f.accepterHand.value); }
  }

  // ----- One event -----

  lemma AcceptJustified(history: seq<Event>, s: State, e: Event)
    requires Inv(s) && Enabled(s, e) && e.Accepted?
    ensures Justified(history + [e], Next(s, e).flows[e.actor])
  {
    hide AcceptedAs;
    OwnersOnly(s.flows, s.used, e.actor);
    var f := s.flows[e.actor];
    AcceptedGrows(history, e, f.id, Prepare(f, e.challengerPick.deck.value, e.accepterPick.deck.value));
  }

  lemma PlayJustified(history: seq<Event>, f: Flow, e: Event)
    requires Justified(history, f) && FlowFits(f) && f.mode == RPS && e.Played? && e.id == f.id && f.roundId == Some(e.round)
    requires (e.actor == f.challenger || e.actor == f.accepter) && OwnHand(f, e.actor).None?
    ensures Justified(history + [e], Play(f, e.actor, e.hand, e.nextRound, e.now))
  {
    hide HandPlayed, AcceptedAs, Prepare;
    JustifiedGrows(history, e, f);
    HandPlayedGrows(history, e, f.id, e.actor, e.round, e.hand);
    var g := Play(f, e.actor, e.hand, e.nextRound, e.now);
    if g.mode == FIRST_CHOICE { PlayDecides(history + [e], f, g, e.round); }
  }

  lemma PlayDecides(history: seq<Event>, f: Flow, g: Flow, round: Uid)
    requires g.id == f.id && g.challenger == f.challenger && g.accepter == f.accepter && HandsIn(g)
    requires HandPlayed(history, f.id, f.challenger, round, g.challengerHand.value)
    requires HandPlayed(history, f.id, f.accepter, round, g.accepterHand.value)
    ensures RoundPlayed(history, g, g.challengerHand.value, g.accepterHand.value)
  {
  }

  lemma ChooseJustified(history: seq<Event>, f: Flow, e: Event)
    requires Justified(history, f) && FlowFits(f) && f.mode == FIRST_CHOICE && e.Chosen? && e.id == f.id && e.actor == Winner(f)
    ensures Justified(history + [e], f.(mode := STARTING, choice := Some(e.goFirst)))
  {
    hide HandPlayed, AcceptedAs;
    JustifiedGrows(history, e, f);
    assert (history + [e])[|history|] == Chosen(f.id, Winner(f), e.goFirst);
    SameRound(history + [e], f, f.(mode := STARTING, choice := Some(e.goFirst)), f.challengerHand.value, f.accepterHand.value);
  }

  lemma SameRound(history: seq<Event>, f: Flow, g: Flow, h0: Hand, h1: Hand)
    requires RoundPlayed(history, f, h0, h1) && g.id == f.id && g.challenger == f.challenger && g.accepter == f.accepter
    ensures RoundPlayed(history, g, h0, h1)
  {
  }

  /** A flow that only had a flag set. */
  lemma MarkJustified(history: seq<Event>, f: Flow, g: Flow)
    requires Justified(history, f) && g == f.(launched := g.launched, loggedOut := g.loggedOut)
    ensures Justified(history, g)
  {
    hide HandPlayed, AcceptedAs;
    if f.mode != RPS && HandsIn(f) { SameRound(history, f, g, f.challengerHand.value, f.accepterHand.value); }
  }

  ghost predicate AllJustified(history: seq<Event>, s: State) {
    forall p <- s.flows :: Justified(history, s.flows[p])
  }

  /** The flow an event leaves in its actor's place is the only one it changes. */
  lemma OthersUntouched(s: State, e: Event, p: Player)
    requires Inv(s) && Enabled(s, e) && p in Next(s, e).flows
    ensures (p in s.flows && Next(s, e).flows[p] == s.flows[p])
         || (e.Invited? && Next(s, e).flows[p] == NewFlow(e.id, e.challenger, e.accepter, e.settings, e.now))
         || (!e.Invited? && !e.Closed? && !e.Bumped? && e.actor in s.flows && p in s.flows && e.actor in Next(s, e).flows
             && s.flows[e.actor] == s.flows[p] && Next(s, e).flows[p] == Next(s, e).flows[e.actor])
  {
    hide FlowsInv, FlowFits, Bump, RevisionOf, Resolve, Prepare, SettingsValid, Eligible;
    if !e.Invited? && !e.Bumped? { OwnersOnly(s.flows, s.used, e.actor); }
    if e.Played? { SameOwners(s, e); }
  }

  lemma NextJustified(history: seq<Event>, s: State, e: Event, p: Player)
    requires Inv(s) && Enabled(s, e) && AllJustified(history, s) && p in Next(s, e).flows
    ensures Justified(history + [e], Next(s, e).flows[p])
  {
    hide Justified, FlowsInv, FlowFits, Resolve, Prepare, SettingsValid, Eligible;
    OthersUntouched(s, e, p);
    if p in s.flows && Next(s, e).flows[p] == s.flows[p] {
      JustifiedGrows(history, e, s.flows[p]);
    } else if e.Invited? {
      FreshJustified(history + [e], e);
    } else {
      OwnersOnly(s.flows, s.used, e.actor);
      var f := s.flows[e.actor];
      match e
      case Accepted(_, _, _, _, _, _) => AcceptJustified(history, s, e);
      case Played(_, _, _, _, _, _) => SameOwners(s, e); PlayJustified(history, f, e);
      case Chosen(_, _, _) => ChooseJustified(history, f, e);
      case Launched(_, _, _) => JustifiedGrows(history, e, f); MarkJustified(history + [e], f, f.(launched := true));
      case LoggedOut(_, _) => JustifiedGrows(history, e, f); MarkJustified(history + [e], f, f.(loggedOut := true));
      case _ => assert false;
    }
  }

  lemma FreshJustified(history: seq<Event>, e: Event)
    requires e.Invited?
    ensures Justified(history, NewFlow(e.id, e.challenger, e.accepter, e.settings, e.now))
  {
  }

  lemma {:induction false} ReplayJustified(history: seq<Event>)
    requires Replay(history).Some?
    ensures AllJustified(history, Replay(history).value)
    decreases |history|
  {
    hide Justified, Enabled, Next, FlowsInv;
    if history == [] {
    } else {
      var before, e := history[..|history| - 1], history[|history| - 1];
      ReplayJustified(before);
      ReplayInv(before);
      var s := Replay(before).value;
      assert history == before + [e];
      forall p <- Replay(history).value.flows ensures Justified(history, Replay(history).value.flows[p]) {
        NextJustified(before, s, e, p);
      }
    }
  }

  // ----- The main results -----

  /** What must have happened before the host is asked to start a flow with `seat` first. */
  ghost predicate StartEarned(history: seq<Event>, f: Flow, seat: int, h0: Hand, h1: Hand, goFirst: bool) {
    && f.prepared.Some? && AcceptedAs(history, f.id, f.prepared.value)
    && RoundPlayed(history, f, h0, h1) && (Wins(h0, h1) || Wins(h1, h0))
    && Chosen(f.id, if Wins(h0, h1) then f.challenger else f.accepter, goFirst) in history
    && seat == if Wins(h0, h1) == goFirst then 0 else 1
  }

  /** A start is earned: eligible decks at acceptance, differing hands of one round, and the winner's own choice of seat. */
  lemma StartIsEarned(history: seq<Event>, k: nat)
    requires Replay(history).Some? && k < |history| && history[k].Launched?
    ensures var e := history[k];
            && Replay(history[..k]).Some? && e.actor in Replay(history[..k]).value.flows
            && var f := Replay(history[..k]).value.flows[e.actor];
            && f.id == e.id && HandsIn(f) && f.choice.Some?
            && StartEarned(history[..k], f, e.seat, f.challengerHand.value, f.accepterHand.value, f.choice.value)
  {
    hide FlowsInv, AcceptedAs, RoundPlayed;
    ReplayAt(history, k);
    ReplayInv(history[..k]);
    ReplayJustified(history[..k]);
    var s := Replay(history[..k]).value;
    OwnersOnly(s.flows, s.used, history[k].actor);
    var f := s.flows[history[k].actor];
    ResolveIsFair(f.challengerHand.value, f.accepterHand.value);
    assert Justified(history[..k], f);
  }

  /** The flow was started, or is gone for good. */
  ghost predicate Spent(s: State, id: Uid) {
    id in s.used && forall p <- s.flows :: s.flows[p].id == id ==> s.flows[p].launched
  }

  lemma NextSpent(s: State, e: Event, id: Uid)
    requires Inv(s) && Enabled(s, e)
    requires Spent(s, id) || (e.Launched? && e.id == id)
    ensures Spent(Next(s, e), id)
  {
    hide FlowsInv, FlowFits, Bump, RevisionOf, Resolve, Prepare, SettingsValid, Eligible, Play;
    if !e.Invited? && !e.Bumped? { OwnersOnly(s.flows, s.used, e.actor); }
    forall p <- Next(s, e).flows | Next(s, e).flows[p].id == id ensures Next(s, e).flows[p].launched {
      OthersUntouched(s, e, p);
      if e.Played? { PlayKeepsId(s.flows[e.actor], e); }
    }
  }

  lemma PlayKeepsId(f: Flow, e: Event)
    requires e.Played?
    ensures var g := Play(f, e.actor, e.hand, e.nextRound, e.now); g.id == f.id && g.launched == f.launched
  {
  }

  lemma {:induction false} StaysSpent(history: seq<Event>, i: nat, j: nat)
    requires Replay(history).Some? && i < j <= |history| && history[i].Launched?
    ensures Replay(history[..j]).Some? && Spent(Replay(history[..j]).value, history[i].id)
    decreases j
  {
    hide Enabled, Next, FlowsInv, Spent;
    ReplayAt(history, j - 1);
    ReplayInv(history[..j - 1]);
    if i == j - 1 {
    } else {
      StaysSpent(history, i, j - 1);
    }
    NextSpent(Replay(history[..j - 1]).value, history[j - 1], history[i].id);
  }

  /** The host is asked to start a flow at most once. */
  lemma StartsAtMostOnce(history: seq<Event>, i: nat, j: nat)
    requires Replay(history).Some? && i < |history| && j < |history|
    requires history[i].Launched? && history[j].Launched? && history[i].id == history[j].id
    ensures i == j
  {
    if i != j {
      var a, b := if i < j then i else j, if i < j then j else i;
      ReplayAt(history, b);
      ReplayInv(history[..b]);
      StaysSpent(history, a, b);
    }
  }

  // ----- While a flow is starting -----

  /** A starting flow stays, and nothing about it changes but the record of a logout. */
  ghost predicate KeepsStarting(s: State, t: State) {
    forall p <- s.flows :: s.flows[p].mode == STARTING ==>
      p in t.flows && t.flows[p] == s.flows[p].(loggedOut := t.flows[p].loggedOut) && (s.flows[p].loggedOut ==> t.flows[p].loggedOut)
  }

  /** Only its own launch and the close that follows it touch a starting flow, whatever else happens. */
  lemma StartingIsKept(s: State, e: Event)
    requires Inv(s) && Enabled(s, e)
    requires !(e.Launched? || (e.Closed? && s.flows[e.actor].mode == STARTING))
    ensures KeepsStarting(s, Next(s, e))
  {
    hide FlowsInv, FlowFits, Bump, RevisionOf, Resolve, Prepare, SettingsValid, Eligible, Play;
    if !e.Invited? && !e.Bumped? { OwnersOnly(s.flows, s.used, e.actor); }
    if e.Played? { SameOwners(s, e); }
    forall p <- s.flows | s.flows[p].mode == STARTING ensures p in Next(s, e).flows {
      OwnersOnly(s.flows, s.used, p);
    }
    forall p <- s.flows | s.flows[p].mode == STARTING
      ensures Next(s, e).flows[p] == s.flows[p].(loggedOut := Next(s, e).flows[p].loggedOut)
           && (s.flows[p].loggedOut ==> Next(s, e).flows[p].loggedOut) {
      OthersUntouched(s, e, p);
      OwnersOnly(s.flows, s.used, p);
    }
  }
}
