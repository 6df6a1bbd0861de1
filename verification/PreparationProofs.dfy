/**
 Whole-run properties of the preparation protocol: pairing, the view's constructor checks, revisions
 that identify state, and the one justified start.
 */
module PreparationProofs {
  import opened Wrappers
  import opened Preparation

  // ----- The invariant -----

  predicate HandsIn(f: Flow) { f.challengerHand.Some? && f.accepterHand.Some? }

  /** What the fields of one flow must be in each mode. */
  predicate FlowFits(f: Flow) {
    && f.challenger != f.accepter && SettingsValid(f.settings)
    && (f.prepared.Some? ==> f.prepared.value.id == f.id && f.prepared.value.challenger.id == f.challenger
                              && f.prepared.value.accepter.id == f.accepter && f.prepared.value.settings == f.settings)
    && (f.choice.Some? <==> f.mode == STARTING) && (f.launched ==> f.mode == STARTING) && (f.loggedOut ==> f.mode == STARTING)
    && match f.mode
       case INVITED => f.roundId.None? && f.prepared.None? && f.challengerHand.None? && f.accepterHand.None?
       case RPS => f.roundId.Some? && f.prepared.Some? && !HandsIn(f)
       case FIRST_CHOICE => Decided(f)
       case STARTING => Decided(f)
       case _ => false
  }

  /** Both hands of one round are in and differ. */
  predicate Decided(f: Flow) {
    && f.roundId.None? && f.prepared.Some? && HandsIn(f)
    && f.challengerHand != f.accepterHand && f.winner == Resolve(f.challengerHand.value, f.accepterHand.value)
  }

  /** `p` is in exactly the flow both of whose participants are stored. */
  ghost predicate Paired(flows: map<Player, Flow>, used: set<Uid>, p: Player)
    requires p in flows
  {
    var f := flows[p];
    && (p == f.challenger || p == f.accepter)
    && f.challenger in flows && flows[f.challenger] == f
    && f.accepter in flows && flows[f.accepter] == f
    && f.id in used && (f.roundId.Some? ==> f.roundId.value in used)
  }

  ghost predicate FlowsInv(flows: map<Player, Flow>, used: set<Uid>) {
    && (forall p <- flows :: Paired(flows, used, p) && FlowFits(flows[p]))
    && (forall p <- flows, q <- flows :: flows[p].id == flows[q].id ==> flows[p] == flows[q])
  }

  ghost predicate Inv(s: State) { FlowsInv(s.flows, s.used) }

  /** A flow's two participants are the only players with its id. */
  lemma OwnersOnly(flows: map<Player, Flow>, used: set<Uid>, actor: Player)
    requires FlowsInv(flows, used) && actor in flows
    ensures var f := flows[actor];
            && f.challenger in flows && flows[f.challenger] == f && f.accepter in flows && flows[f.accepter] == f
            && FlowFits(f) && f.id in used && (f.roundId.Some? ==> f.roundId.value in used)
            && (actor == f.challenger || actor == f.accepter)
            && forall p <- flows :: flows[p].id == f.id <==> p == f.challenger || p == f.accepter
  {
    hide FlowFits;
    assert Paired(flows, used, actor);
    var f := flows[actor];
    forall p <- flows | flows[p].id == f.id ensures p == f.challenger || p == f.accepter {
      assert Paired(flows, used, p);
    }
  }

  /** Storing a flow, new or in place of the one with its id, keeps the flows in order. */
  lemma StoreInv(flows: map<Player, Flow>, used: set<Uid>, f: Flow, more: set<Uid>)
    requires FlowsInv(flows, used) && FlowFits(f) && used <= more
    requires f.id in more && (f.roundId.Some? ==> f.roundId.value in more)
    requires forall p <- flows :: flows[p].id == f.id <==> p == f.challenger || p == f.accepter
    ensures FlowsInv(flows[f.challenger := f][f.accepter := f], more)
  {
    hide FlowFits;
    var r := flows[f.challenger := f][f.accepter := f];
    forall p <- r ensures Paired(r, more, p) && FlowFits(r[p]) {
      if p != f.challenger && p != f.accepter {
        OwnersOnly(flows, used, p);
        assert flows[p].id != f.id;
      }
    }
  }

  lemma RemoveInv(flows: map<Player, Flow>, used: set<Uid>, f: Flow)
    requires FlowsInv(flows, used) && f.challenger in flows && flows[f.challenger] == f
    ensures FlowsInv(flows - {f.challenger, f.accepter}, used)
  {
    hide FlowFits;
    var r := flows - {f.challenger, f.accepter};
    OwnersOnly(flows, used, f.challenger);
    forall p <- r ensures Paired(r, used, p) {
      OwnersOnly(flows, used, p);
    }
  }

  /** Replacing the actor's flow by a later version of itself. */
  lemma UpdateInv(flows: map<Player, Flow>, used: set<Uid>, actor: Player, g: Flow, more: set<Uid>)
    requires FlowsInv(flows, used) && actor in flows && used <= more && FlowFits(g)
    requires g.id == flows[actor].id && g.challenger == flows[actor].challenger && g.accepter == flows[actor].accepter
    requires g.roundId.Some? ==> g.roundId.value in more
    ensures FlowsInv(flows[g.challenger := g][g.accepter := g], more)
  {
    hide FlowFits, FlowsInv;
    OwnersOnly(flows, used, actor);
    StoreInv(flows, used, g, more);
  }

  lemma NextInv(s: State, e: Event)
    requires Inv(s) && Enabled(s, e)
    ensures Inv(Next(s, e))
  {
    hide FlowsInv;
    if !e.Invited? && e.actor in s.flows { OwnersOnly(s.flows, s.used, e.actor); }
    match e
    case Invited(id, c, a, settings, now) => InvitedInv(s, e);
    case Accepted(id, actor, round, cp, ap, now) =>
      var f := s.flows[actor];
      UpdateInv(s.flows, s.used, actor,
                NewRound(f.(prepared := Some(Prepare(f, cp.deck.value, ap.deck.value))), round, now), s.used + {round});
    case Played(id, actor, round, hand, nextRound, now) =>
      PlayFits(s.flows[actor], actor, hand, nextRound, now);
      var g := Play(s.flows[actor], actor, hand, nextRound, now);
      UpdateInv(s.flows, s.used, actor, g, if Ties(s.flows[actor], actor, hand) then s.used + {nextRound} else s.used);
    case Chosen(id, actor, goFirst) =>
      UpdateInv(s.flows, s.used, actor, s.flows[actor].(mode := STARTING, choice := Some(goFirst)), s.used);
    case Launched(id, actor, seat) => UpdateInv(s.flows, s.used, actor, s.flows[actor].(launched := true), s.used);
    case LoggedOut(id, actor) => UpdateInv(s.flows, s.used, actor, s.flows[actor].(loggedOut := true), s.used);
    case Closed(id, actor, result) => RemoveInv(s.flows, s.used, s.flows[actor]);
    case Bumped(actor) =>
  }

  lemma InvitedInv(s: State, e: Event)
    requires Inv(s) && Enabled(s, e) && e.Invited?
    ensures Inv(Next(s, e))
  {
    forall p <- s.flows ensures s.flows[p].id != e.id { assert Paired(s.flows, s.used, p); }
    StoreInv(s.flows, s.used, NewFlow(e.id, e.challenger, e.accepter, e.settings, e.now), s.used + {e.id});
  }

  lemma PlayFits(f: Flow, actor: Player, hand: Hand, nextRound: Uid, now: int)
    requires FlowFits(f) && f.mode == RPS && OwnHand(f, actor).None? && (actor == f.challenger || actor == f.accepter)
    ensures var g := Play(f, actor, hand, nextRound, now);
            && FlowFits(g) && g.id == f.id && g.challenger == f.challenger && g.accepter == f.accepter
            && (g.roundId == f.roundId || g.roundId == None || (g.roundId == Some(nextRound) && Ties(f, actor, hand)))
  {
  }

  /** Every state the service can be seen in, at rest or inside a callback, is well formed. */
  lemma {:induction false} ReplayInv(history: seq<Event>)
    requires Replay(history).Some?
    ensures Inv(Replay(history).value)
    decreases |history|
  {
    if history == [] {
    } else {
      ReplayInv(history[..|history| - 1]);
      NextInv(Replay(history[..|history| - 1]).value, history[|history| - 1]);
    }
  }

  /** `view` never throws: at any time, with any name the host may give, the constructor's checks hold. */
  lemma ViewNeverThrows(history: seq<Event>, viewer: Player, now: int, name: string, dueling: bool)
    requires Replay(history).Some? && |name| <= 128
    ensures ViewAccepted(ViewOf(Replay(history).value, viewer, now, name, dueling))
  {
    ReplayInv(history);
    var s := Replay(history).value;
    if viewer in s.flows { OwnersOnly(s.flows, s.used, viewer); }
  }

  // ----- Histories -----

  lemma {:induction false} ReplayPrefix(history: seq<Event>, k: nat)
    requires Replay(history).Some? && k <= |history|
    ensures Replay(history[..k]).Some?
    decreases |history|
  {
    if k < |history| {
      assert history[..|history| - 1][..k] == history[..k];
      ReplayPrefix(history[..|history| - 1], k);
    } else {
      assert history[..k] == history;
    }
  }

  /** The state before and after event `k`. */
  lemma ReplayAt(history: seq<Event>, k: nat)
    requires Replay(history).Some? && k < |history|
    ensures Replay(history[..k]).Some? && Enabled(Replay(history[..k]).value, history[k])
    ensures Replay(history[..k + 1]) == Some(Next(Replay(history[..k]).value, history[k]))
  {
    ReplayPrefix(history, k + 1);
    assert history[..k + 1][..k] == history[..k];
  }

  // ----- Revisions identify state -----

  /** The fields of a view that come from the flow: all but the revision, the name and the clock. */
  function FlowPart(s: State, p: Player): View {
    ViewOf(s, p, 0, "", false).(revision := 0, remainingMillis := 0)
  }

  lemma BumpBoth(revisions: map<Player, nat>, f: Flow, p: Player)
    ensures var r := Bump(Bump(revisions, f.challenger), f.accepter);
            if p == f.challenger || p == f.accepter then RevisionOf(r, p) > RevisionOf(revisions, p)
            else RevisionOf(r, p) == RevisionOf(revisions, p)
  {
  }

  lemma NextRevisions(s: State, e: Event, p: Player)
    requires Inv(s) && Enabled(s, e)
    ensures RevisionOf(Next(s, e).revisions, p) >= RevisionOf(s.revisions, p)
    ensures RevisionOf(Next(s, e).revisions, p) == RevisionOf(s.revisions, p) ==> FlowPart(Next(s, e), p) == FlowPart(s, p)
  {
    hide FlowsInv, FlowFits, Bump, RevisionOf, Resolve, Prepare, SettingsValid, Play, NewFlow, Eligible;
    match e
    case Invited(id, c, a, settings, now) => BumpBoth(s.revisions, NewFlow(id, c, a, settings, now), p);
    case Bumped(actor) => BumpOne(s.revisions, actor, p);
    case _ => NextFlowRevisions(s, e, p);
  }

  /** An update of a flow bumps both participants' revisions, and shows to nobody else. */
  lemma NextFlowRevisions(s: State, e: Event, p: Player)
    requires Inv(s) && Enabled(s, e) && !e.Invited? && !e.Bumped?
    ensures RevisionOf(Next(s, e).revisions, p) >= RevisionOf(s.revisions, p)
    ensures RevisionOf(Next(s, e).revisions, p) == RevisionOf(s.revisions, p) ==> FlowPart(Next(s, e), p) == FlowPart(s, p)
  {
    hide FlowsInv, FlowFits, Bump, RevisionOf, Resolve, Prepare, SettingsValid, Play, Eligible;
    OwnersOnly(s.flows, s.used, e.actor);
    BumpBoth(s.revisions, s.flows[e.actor], p);
    if e.Played? { SameOwners(s, e); }
  }

  lemma BumpOne(revisions: map<Player, nat>, actor: Player, p: Player)
    ensures RevisionOf(Bump(revisions, actor), p) >= RevisionOf(revisions, p)
  {
  }

  lemma SameOwners(s: State, e: Event)
    requires Enabled(s, e) && e.Played?
    ensures var g := Play(s.flows[e.actor], e.actor, e.hand, e.nextRound, e.now);
            g.challenger == s.flows[e.actor].challenger && g.accepter == s.flows[e.actor].accepter
  {
  }

  /** Revisions never decrease, and two moments at which a player's revision is the same show the same flow. */
  lemma {:induction false} RevisionsIdentifyState(history: seq<Event>, i: nat, j: nat, p: Player)
    requires Replay(history).Some? && i <= j <= |history|
    ensures Replay(history[..i]).Some? && Replay(history[..j]).Some?
    ensures var s, t := Replay(history[..i]).value, Replay(history[..j]).value;
            && RevisionOf(s.revisions, p) <= RevisionOf(t.revisions, p)
            && (RevisionOf(s.revisions, p) == RevisionOf(t.revisions, p) ==> FlowPart(s, p) == FlowPart(t, p))
    decreases j - i
  {
    hide RevisionOf, FlowPart, Next, Enabled, FlowsInv;
    ReplayPrefix(history, i);
    ReplayPrefix(history, j);
    if i == j {
    } else {
      RevisionsIdentifyState(history, i, j - 1, p);
      ReplayAt(history, j - 1);
      ReplayInv(history[..j - 1]);
      NextRevisions(Replay(history[..j - 1]).value, history[j - 1], p);
    }
  }
}
