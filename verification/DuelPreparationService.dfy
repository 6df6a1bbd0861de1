/**
 `server/DuelPreparationService.java` as it runs: flow objects shared by the entries of both
 participants, updated in place, with the host re-entering the service from inside its callbacks.

 Every operation keeps `Valid`, which says that the objects and maps are the state reached by the
 history of updates so far; what is proved about histories therefore holds of the service, at rest
 and at every point where the host is given control.
 */
module PreparationServer {
  import opened Basics
  import opened Wrappers
  import opened P = Preparation
  import opened PreparationProofs

  /** What the host answers during one call. A missing selection is a policy evaluation that failed. */
  datatype Answers = Answers(online: set<Player>, dueling: set<Player>, selections: map<Player, Selection>,
                             names: map<Player, string>, drawnSeed: int, started: bool) {
    function Selected(p: Player): Option<Selection> { if p in selections then Some(selections[p]) else None }

    function Name(p: Player): string { if p in names then names[p] else "Opponent" }

    ghost predicate NamesFit() { forall p <- names :: |names[p]| <= 128 }
  }

  // ----- What each operation decides, from the state it finds once expired flows are gone -----

  datatype Step = Refuse(code: Code) | Take(event: Event, code: Code)

  function AvailabilityOf(f: P.Flow, host: Answers): Code {
    if f.challenger !in host.online || f.accepter !in host.online then OFFLINE
    else if f.challenger in host.dueling || f.accepter in host.dueling then BUSY
    else OK
  }

  function InviteStep(s: State, sender: Option<Player>, target: Option<Player>, rule: Option<nat>, seed: Option<int>,
                      options: Option<Options>, host: Answers, id: Uid, now: int): Step {
    if sender.None? || target.None? || sender == target || !SettingsAccepted(rule, options) then Refuse(INVALID)
    else if sender.value !in host.online || target.value !in host.online then Refuse(OFFLINE)
    else if sender.value in s.flows || target.value in s.flows || sender.value in host.dueling || target.value in host.dueling
    then Refuse(BUSY)
    else if !Eligible(host.Selected(sender.value)) then Refuse(INELIGIBLE)
    else
      var drawn := if seed.Some? then seed.value else host.drawnSeed;
      Take(Invited(id, sender.value, target.value, Settings(rule.value, drawn, options.value), now), OK)
  }

  function AcceptStep(s: State, actor: Player, id: Uid, host: Answers, round: Uid, now: int): Step {
    if !Names(s, actor, id) || s.flows[actor].mode != INVITED || s.flows[actor].accepter != actor then Refuse(STALE)
    else
      var f := s.flows[actor];
      var availability := AvailabilityOf(f, host);
      var challenger, accepter := host.Selected(f.challenger), host.Selected(f.accepter);
      if availability != OK then Take(Closed(id, f.challenger, availability), availability)
      else if !Eligible(challenger) || !Eligible(accepter) then Refuse(INELIGIBLE)
      else Take(Accepted(id, actor, round, challenger.value, accepter.value, now), OK)
  }

  function DeclineStep(s: State, actor: Player, id: Uid): Step {
    if !Names(s, actor, id) || s.flows[actor].mode != INVITED || s.flows[actor].accepter != actor then Refuse(STALE)
    else Take(Closed(id, s.flows[actor].challenger, OK), OK)
  }

  function CancelStep(s: State, actor: Player, id: Uid): Step {
    if !Names(s, actor, id) then Refuse(STALE)
    else if s.flows[actor].mode == STARTING then Refuse(BUSY)
    else Take(Closed(id, s.flows[actor].challenger, OK), OK)
  }

  function HandStep(s: State, actor: Player, id: Uid, round: Uid, hand: Option<Hand>, nextRound: Uid, now: int): Step {
    if !Names(s, actor, id) || s.flows[actor].mode != RPS || s.flows[actor].roundId != Some(round) then Refuse(STALE)
    else if hand.None? then Refuse(INVALID)
    else if OwnHand(s.flows[actor], actor).Some? then Refuse(STALE)
    else Take(Played(id, actor, round, hand.value, nextRound, now), OK)
  }

  /** The code of a choice that is taken is only known once the duel was started. */
  function FirstStep(s: State, actor: Player, id: Uid, goFirst: bool, host: Answers, outcome: Code): Step {
    if !Names(s, actor, id) || s.flows[actor].mode != FIRST_CHOICE || Winner(s.flows[actor]) != actor then Refuse(STALE)
    else
      var availability := AvailabilityOf(s.flows[actor], host);
      if availability != OK then Take(Closed(id, s.flows[actor].challenger, availability), availability)
      else Take(Chosen(id, actor, goFirst), outcome)
  }

  function LogoutStep(s: State, actor: Player): Option<Event> {
    if actor !in s.flows then None
    else
      var f := s.flows[actor];
      Some(if f.mode == STARTING then LoggedOut(f.id, actor) else Closed(f.id, f.challenger, OFFLINE))
  }

  /** At position `at` of the history the operation did what was decided, and nothing if it refused. */
  predicate Follows(history: seq<Event>, at: nat, step: Step, code: Code) {
    && at <= |history| && code == step.code
    && (step.Take? ==> at < |history| && history[at] == step.event)
    && (step.Refuse? && code != INELIGIBLE ==> at == |history|)
  }

  /** The history went on, with `e` first. */
  predicate Adds(past: seq<Event>, e: Event, history: seq<Event>) {
    past <= history && |past| < |history| && history[|past|] == e
  }

  /** The host was asked to start the chosen seat, and the flow was then closed with the outcome. */
  ghost predicate StartedOnce(history: seq<Event>, launchedAt: nat, closedAt: nat, f: P.Flow, goFirst: bool, started: bool, code: Code) {
    && launchedAt < closedAt < |history|
    && history[launchedAt] == Launched(f.id, Winner(f), Seat(f, goFirst))
    && history[closedAt] == Closed(f.id, f.challenger, code)
    && Replay(history[..closedAt]).Some?
    && f.challenger in Replay(history[..closedAt]).value.flows
    && code == if Replay(history[..closedAt]).value.flows[f.challenger].loggedOut then OFFLINE else if started then OK else START_FAILED
  }

  lemma ClosesStart(first: seq<Event>, past: seq<Event>, history: seq<Event>, f: P.Flow, goFirst: bool, started: bool, code: Code)
    requires Adds(first, Launched(f.id, Winner(f), Seat(f, goFirst)), past) && Adds(past, Closed(f.id, f.challenger, code), history)
    requires Replay(past).Some? && f.challenger in Replay(past).value.flows
    requires code == if Replay(past).value.flows[f.challenger].loggedOut then OFFLINE else if started then OK else START_FAILED
    ensures StartedOnce(history, |first|, |past|, f, goFirst, started, code)
  {
    hide Replay;
    assert history[..|past|] == past;
  }

  lemma SameStart(history: seq<Event>, launchedAt: nat, closedAt: nat, f: P.Flow, g: P.Flow, goFirst: bool, started: bool, code: Code)
    requires StartedOnce(history, launchedAt, closedAt, f, goFirst, started, code)
    requires f.id == g.id && f.challenger == g.challenger && f.accepter == g.accepter && f.winner == g.winner
    ensures StartedOnce(history, launchedAt, closedAt, g, goFirst, started, code)
  {
  }

  /** The name a viewer is shown: the host's name for the opponent. */
  function ShownName(s: State, viewer: Player, host: Answers): string {
    if viewer !in s.flows then ""
    else host.Name(if s.flows[viewer].challenger == viewer then s.flows[viewer].accepter else s.flows[viewer].challenger)
  }

  /** What is left when every expired flow is closed. */
  function Unexpired(flows: map<Player, P.Flow>, now: int): map<Player, P.Flow> {
    map p <- flows | flows[p].mode == STARTING || now < flows[p].deadline :: flows[p]
  }

  lemma ReplayStep(history: seq<Event>, e: Event)
    requires Replay(history).Some? && Enabled(Replay(history).value, e)
    ensures Replay(history + [e]) == Some(Next(Replay(history).value, e))
  {
    hide Enabled, Next;
    assert (history + [e])[..|history|] == history;
  }

  lemma LaunchedNext(s: State, actor: Player, seat: int)
    requires actor in s.flows && s.flows[actor].mode == STARTING && !s.flows[actor].launched && s.flows[actor].choice.Some?
    requires seat == Seat(s.flows[actor], s.flows[actor].choice.value)
    ensures var f := s.flows[actor];
            var g, e := f.(launched := true), Launched(f.id, actor, seat);
            Enabled(s, e) && Next(s, e) == State(s.flows[f.challenger := g][f.accepter := g], s.revisions, s.used)
  {
  }

  lemma LoggedOutNext(s: State, actor: Player)
    requires actor in s.flows && s.flows[actor].mode == STARTING
    ensures var f := s.flows[actor];
            var g, e := f.(loggedOut := true), LoggedOut(f.id, actor);
            Enabled(s, e) && Next(s, e) == State(s.flows[f.challenger := g][f.accepter := g], s.revisions, s.used)
  {
  }

  lemma BumpedNext(s: State, actor: Player)
    ensures Enabled(s, Bumped(actor)) && Next(s, Bumped(actor)) == State(s.flows, Bump(s.revisions, actor), s.used)
  {
  }

  lemma ChoiceIsPrepared(f: P.Flow)
    requires FlowFits(f) && f.mode == FIRST_CHOICE
    ensures f.prepared.Some? && !f.launched && !f.loggedOut
  {
  }

  // ----- The updates, each as what it does to the maps -----

  lemma InvitedNext(s: State, id: Uid, c: Player, a: Player, settings: Settings, now: int)
    requires c != a && c !in s.flows && a !in s.flows && id !in s.used && SettingsValid(settings)
    ensures var e, f := Invited(id, c, a, settings, now), NewFlow(id, c, a, settings, now);
            Enabled(s, e) && Next(s, e) == State(s.flows[c := f][a := f], Bump(Bump(s.revisions, c), a), s.used + {id})
  {
  }

  lemma AcceptedNext(s: State, actor: Player, round: Uid, c: Selection, a: Selection, now: int)
    requires actor in s.flows && s.flows[actor].mode == INVITED && s.flows[actor].accepter == actor && round !in s.used
    requires Eligible(Some(c)) && Eligible(Some(a))
    ensures var f := s.flows[actor];
            var g := NewRound(f.(prepared := Some(Prepare(f, c.deck.value, a.deck.value))), round, now);
            var e := Accepted(f.id, actor, round, c, a, now);
            Enabled(s, e) && Next(s, e) == State(s.flows[f.challenger := g][f.accepter := g],
                                                 Bump(Bump(s.revisions, f.challenger), f.accepter), s.used + {round})
  {
  }

  lemma PlayedNext(s: State, actor: Player, hand: Hand, nextRound: Uid, now: int)
    requires actor in s.flows && s.flows[actor].mode == RPS && s.flows[actor].roundId.Some?
    requires OwnHand(s.flows[actor], actor).None? && (Ties(s.flows[actor], actor, hand) ==> nextRound !in s.used)
    ensures var f := s.flows[actor];
            var g := Play(f, actor, hand, nextRound, now);
            var e := Played(f.id, actor, f.roundId.value, hand, nextRound, now);
            Enabled(s, e) && Next(s, e) == State(s.flows[f.challenger := g][f.accepter := g],
                                                 Bump(Bump(s.revisions, f.challenger), f.accepter),
                                                 if Ties(f, actor, hand) then s.used + {nextRound} else s.used)
  {
    hide Resolve;
  }

  lemma ChosenNext(s: State, actor: Player, goFirst: bool)
    requires actor in s.flows && s.flows[actor].mode == FIRST_CHOICE && Winner(s.flows[actor]) == actor
    ensures var f := s.flows[actor];
            var g := f.(mode := STARTING, choice := Some(goFirst));
            var e := Chosen(f.id, actor, goFirst);
            Enabled(s, e) && Next(s, e) == State(s.flows[f.challenger := g][f.accepter := g],
                                                 Bump(Bump(s.revisions, f.challenger), f.accepter), s.used)
  {
  }

  lemma ClosedNext(s: State, actor: Player, result: Code)
    requires actor in s.flows && (s.flows[actor].mode == STARTING ==> s.flows[actor].launched)
    ensures var f := s.flows[actor];
            var e := Closed(f.id, actor, result);
            Enabled(s, e) && Next(s, e) == State(s.flows - {f.challenger, f.accepter},
                                                 Bump(Bump(s.revisions, f.challenger), f.accepter), s.used)
  {
  }

  // ----- The objects -----

  class Flow {
    const id: Uid
    const challenger: Player
    const accepter: Player
    const settings: Settings
    var mode: Mode
    var deadline: int
    var roundId: Option<Uid>
    var challengerHand: Option<Hand>
    var accepterHand: Option<Hand>
    var winner: int
    var prepared: Option<PreparedDuel>
    var loggedOutDuringStart: bool
    ghost var choice: Option<bool>
    ghost var launched: bool

    ghost function Value(): P.Flow
      reads this
    {
      P.Flow(id, challenger, accepter, settings, mode, deadline, roundId, challengerHand, accepterHand, winner,
             prepared, loggedOutDuringStart, choice, launched)
    }

    /** Everything but the record of a logout. */
    ghost function Core(): P.Flow
      reads this
    {
      Value().(loggedOut := false)
    }

    constructor (id: Uid, challenger: Player, accepter: Player, settings: Settings, now: int)
      ensures Value() == NewFlow(id, challenger, accepter, settings, now)
    {
      this.id, this.challenger, this.accepter, this.settings := id, challenger, accepter, settings;
      mode, deadline, roundId := INVITED, now + STEP_MILLIS, None;
      challengerHand, accepterHand, winner, prepared := None, None, 0, None;
      loggedOutDuringStart, choice, launched := false, None, false;
    }

    method BeginRound(round: Uid, now: int)
      modifies this
      ensures Value() == NewRound(old(Value()), round, now)
    {
      mode := RPS;
      roundId := Some(round);
      challengerHand := None;
      accepterHand := None;
      deadline := now + STEP_MILLIS;
    }
  }

  class DuelPreparationService {
    var flows: map<Player, Flow>
    var revisions: map<Player, nat>
    // the ids drawn so far, and the updates made so far
    var used: set<Uid>
    ghost var history: seq<Event>

    ghost function Values(): map<Player, P.Flow>
      reads this, flows.Values
    {
      map p <- flows :: flows[p].Value()
    }

    ghost function Model(): State
      reads this, flows.Values
    {
      State(Values(), revisions, used)
    }

    /** An id names one object. */
    ghost predicate Identified()
      reads this, flows.Values
    {
      forall p <- flows, q <- flows :: flows[p].id == flows[q].id ==> flows[p] == flows[q]
    }

    ghost predicate Valid()
      reads this, flows.Values
    {
      Replay(history) == Some(Model()) && Identified()
    }

    constructor ()
      ensures Valid() && history == [] && flows == map[]
    {
      flows, revisions, used, history := map[], map[], {}, [];
      new;
      assert Values() == map[];
    }

    /** A flow object that was starting stays where it was and keeps everything but the record of a logout. */
    twostate predicate Keeps()
      reads this, flows.Values
    {
      forall p <- old(flows) :: old(flows[p].mode) == STARTING ==>
        p in flows && flows[p] == old(flows[p]) && flows[p].mode == STARTING
        && flows[p].Core() == old(flows[p].Core())
        && (old(flows[p].loggedOutDuringStart) ==> flows[p].loggedOutDuringStart)
    }

    twostate predicate KeepsOthers(flow: Flow)
      reads this, flows.Values
    {
      forall p <- old(flows) :: old(flows[p].mode) == STARTING && old(flows[p]) != flow ==>
        p in flows && flows[p] == old(flows[p]) && flows[p].mode == STARTING
        && flows[p].Core() == old(flows[p].Core())
        && (old(flows[p].loggedOutDuringStart) ==> flows[p].loggedOutDuringStart)
    }

    /** What any stretch of the service's execution guarantees, callbacks included. */
    twostate predicate Onward()
      reads this, flows.Values
    {
      Valid() && old(history) <= history && Keeps() && fresh(flows.Values - old(flows.Values))
    }

    twostate predicate Still()
      reads this, flows.Values
    {
      history == old(history) && flows == old(flows) && revisions == old(revisions) && used == old(used)
      && forall p <- flows :: flows[p].Value() == old(flows[p].Value())
    }

    /** No flow that is still stored has changed. */
    twostate predicate SameValues()
      reads this, flows.Values
    {
      forall p <- flows :: p in old(flows) && flows[p] == old(flows[p]) && flows[p].Value() == old(flows[p].Value())
    }

    ghost predicate Due(flow: Flow, now: int)
      reads flow
    {
      flow.mode != STARTING && now >= flow.deadline
    }

    lemma IsValid()
      requires Replay(history) == Some(Model()) && Identified()
      ensures Valid()
    {
    }

    lemma Reached()
      requires Valid()
      ensures Replay(history) == Some(Model()) && Identified()
    {
    }

    lemma ValidInv()
      requires Valid()
      ensures Inv(Model())
    {
      ReplayInv(history);
    }

    /** Over any stretch of execution a player's revision never decreases, and if it is the same, so is what is shown. */
    twostate lemma OnwardRevisions(p: Player)
      requires old(Valid()) && Onward()
      ensures RevisionOf(old(revisions), p) <= RevisionOf(revisions, p)
      ensures RevisionOf(old(revisions), p) == RevisionOf(revisions, p) ==> FlowPart(old(Model()), p) == FlowPart(Model(), p)
    {
      hide Replay, FlowPart, RevisionOf;
      assert history[..|old(history)|] == old(history) && history[..|history|] == history;
      RevisionsIdentifyState(history, |old(history)|, |history|, p);
    }

    /** The object stored for a player is stored for exactly its two participants. */
    lemma Owners(p: Player)
      requires Valid() && p in flows
      ensures var flow := flows[p];
              && flow.challenger in flows && flows[flow.challenger] == flow
              && flow.accepter in flows && flows[flow.accepter] == flow
              && FlowFits(flow.Value()) && (p == flow.challenger || p == flow.accepter)
              && forall q <- flows :: flows[q] == flow <==> q == flow.challenger || q == flow.accepter
    {
      hide FlowFits, FlowsInv, Replay;
      ValidInv();
      OwnersOnly(Values(), used, p);
      forall q <- flows | flows[q] == flows[p] ensures q == flows[p].challenger || q == flows[p].accepter {
        assert Values()[q].id == Values()[p].id;
      }
    }

    /** After one object changed, the model differs in its participants' entries only. */
    twostate lemma OneFlow(flow: Flow)
      requires flows == old(flows)
      requires forall p <- flows :: flows[p] == flow <==> p == flow.challenger || p == flow.accepter
      requires flow.challenger in flows && flow.accepter in flows
      requires forall p <- flows :: flows[p] != flow ==> flows[p].Value() == old(flows[p].Value())
      ensures Values() == old(Values())[flow.challenger := flow.Value()][flow.accepter := flow.Value()]
    {
    }

    twostate lemma StillIdentified()
      requires old(Identified()) && flows == old(flows) && forall p <- flows :: flows[p].id == old(flows[p].id)
      ensures Identified()
    {
    }

    /** While only revisions move, the stored flows are the same values. */
    twostate lemma SameFlows()
      requires flows == old(flows) && forall p <- flows :: flows[p].Value() == old(flows[p].Value())
      ensures Values() == old(Values())
    {
    }

    /** Exactly the flows that were due are gone. */
    twostate lemma DueAreGone(now: int)
      requires SameValues() && forall p <- old(flows) :: p in flows <==> !old(Due(flows[p], now))
      ensures Values() == Unexpired(old(Values()), now)
    {
      assert forall p <- Values() :: Values()[p] == old(Values())[p];
      assert forall p <- old(Values()) :: p in Unexpired(old(Values()), now) <==> !old(Due(flows[p], now));
    }

    /** An object stored for two players who had none joins the others. */
    twostate lemma Joined(new flow: Flow)
      requires flows == old(flows)[flow.challenger := flow][flow.accepter := flow]
      requires forall p <- old(flows) :: flows[p].Value() == old(flows[p].Value())
      ensures Values() == old(Values())[flow.challenger := flow.Value()][flow.accepter := flow.Value()]
    {
    }

    /** The object's id is new, so ids still name one object. */
    twostate lemma JoinedIdentified(new flow: Flow)
      requires old(Valid()) && flow.id !in old(used)
      requires flows == old(flows)[flow.challenger := flow][flow.accepter := flow]
      ensures Identified()
    {
      hide FlowFits, Replay;
      assert old(Inv(Model())) by { ReplayInv(old(history)); }
      forall p <- old(flows) ensures old(flows[p].id) in old(used) {
        assert Paired(old(Values()), old(used), p);
        assert old(Values())[p].id == old(flows[p].id);
      }
    }

    /** An id never drawn before. */
    method DrawUid() returns (id: Uid)
      ensures id !in used
    {
      id := *;
      ghost var left := used;
      while id in used
        invariant forall x <- used :: x >= id ==> x in left
        decreases left
      {
        left := left - {id};
        id := id + 1;
      }
    }

    // ----- Callbacks -----

    /** The host is in control: it may make any number of calls, whose own callbacks nest at most `depth` deep. */
    method Reenter(depth: nat)
      requires Valid()
      modifies this, flows.Values
      ensures Onward() && (depth == 0 ==> Still())
      decreases depth, 0
    {
      if depth > 0 {
        var calls: nat := *;
        while calls > 0
          invariant Onward()
          decreases calls
        {
          AnyCall(depth - 1);
          calls := calls - 1;
        }
      }
    }

    method AnyCall(depth: nat)
      requires Valid()
      modifies this, flows.Values
      ensures Onward()
      decreases depth, 9
    {
      var call: nat, actor: Player, id: Uid, now: int, host: Answers := *, *, *, *, *;
      if call == 0 {
        var sender: Option<Player>, target: Option<Player>, rule: Option<nat>, seed: Option<int>, options: Option<Options> := *, *, *, *, *;
        var _, _, _ := Invite(sender, target, rule, seed, options, now, host, depth);
      } else if call == 1 {
        var _, _, _ := Accept(actor, id, now, host, depth);
      } else if call == 2 {
        var _, _ := Decline(actor, id, now, depth);
      } else if call == 3 {
        var _, _ := Cancel(actor, id, now, depth);
      } else if call == 4 {
        var round: Uid, hand: Option<Hand> := *, *;
        var _, _, _ := Throw(actor, id, round, hand, now, depth);
      } else if call == 5 {
        var goFirst: bool := *;
        var _, _, _, _ := First(actor, id, goFirst, now, host, depth);
      } else if call == 6 {
        Expire(now, depth);
      } else if call == 7 {
        Logout(actor, depth);
      } else if call == 8 {
        DuelEnded(actor, depth);
      } else if call == 9 {
        var success: bool := *;
        StartFinished(actor, success, depth);
      } else {
        var _ := View(actor, now, host, depth);
      }
    }

    /** `host.selection`: it may look at views before an answer that will not do, and at nothing otherwise. */
    method Select(actor: Player, host: Answers, depth: nat) returns (selection: Option<Selection>)
      requires Valid()
      modifies this, flows.Values
      ensures selection == host.Selected(actor)
      ensures Onward() && (depth == 0 || Eligible(selection) ==> Still())
      decreases depth, 0
    {
      selection := host.Selected(actor);
      if depth > 0 && !Eligible(selection) {
        var looks: nat := *;
        while looks > 0
          invariant Onward()
          decreases looks
        {
          var viewer: Player, now: int, again: Answers := *, *, *;
          var _ := View(viewer, now, again, depth - 1);
          looks := looks - 1;
        }
      }
    }

    method Advance(actor: Player)
      modifies this`revisions
      ensures revisions == Bump(old(revisions), actor)
    {
      revisions := revisions[actor := if actor in revisions then revisions[actor] + 1 else 1];
    }

    /** `host.changed` for the one participant, then for the other. */
    method TellBoth(depth: nat)
      requires Valid()
      modifies this, flows.Values
      ensures Onward() && (depth == 0 ==> Still())
      decreases depth, 1
    {
      hide Valid, Replay;
      Reenter(depth);
      Reenter(depth);
    }

    /** The maps hold the outcome of `e`, but the revisions have yet to advance. */
    ghost predicate Pending(flow: Flow, e: Event, before: State)
      reads this, flows.Values
    {
      && Replay(history) == Some(before) && Enabled(before, e) && Identified()
      && Next(before, e) == State(Values(), Bump(Bump(revisions, flow.challenger), flow.accepter), used)
    }

    /** Only `flow` was rewritten. */
    twostate predicate Rewrote(flow: Flow)
      reads this, flows.Values
    {
      && history == old(history) && flows == old(flows)
      && forall p <- flows :: flows[p] != flow ==> flows[p].Value() == old(flows[p].Value())
    }

    /** Completes the update `e`: both revisions advance, then both participants are told. */
    method Changed(flow: Flow, ghost e: Event, ghost before: State, depth: nat)
      requires Pending(flow, e, before)
      modifies this, flows.Values
      ensures Valid() && Keeps() && fresh(flows.Values - old(flows.Values))
      ensures Adds(old(history), e, history)
      ensures depth == 0 ==> history == old(history) + [e] && flows == old(flows) && SameValues()
      decreases depth, 2
    {
      hide Enabled, Next, Bump, Replay;
      Advance(flow.challenger);
      Advance(flow.accepter);
      history := history + [e];
      ReplayStep(old(history), e);
      SameFlows();
      TellBoth(depth);
    }

    /** Takes a stored flow out for both participants. */
    method Unstore(flow: Flow)
      requires Valid() && flow.challenger in flows && flows[flow.challenger] == flow
      modifies this`flows
      ensures flows == old(flows) - {flow.challenger, flow.accepter} && flows.Values <= old(flows.Values) && Identified()
      ensures Values() == old(Values()) - {flow.challenger, flow.accepter}
    {
      hide FlowFits, Replay;
      Owners(flow.challenger);
      if flow.challenger in flows && flows[flow.challenger] == flow { flows := flows - {flow.challenger}; }
      if flow.accepter in flows && flows[flow.accepter] == flow { flows := flows - {flow.accepter}; }
      assert Identified() by {
        forall p <- flows, q <- flows | flows[p].id == flows[q].id ensures flows[p] == flows[q] {
          assert p in old(flows) && q in old(flows);
        }
      }
    }

    /** Removes a stored flow and tells its participants. */
    method Finish(flow: Flow, result: Code, depth: nat) returns (code: Code)
      requires Valid() && flow.challenger in flows && flows[flow.challenger] == flow
      requires flow.mode == STARTING ==> flow.launched
      modifies this, flows.Values
      ensures code == result && Valid() && fresh(flows.Values - old(flows.Values))
      ensures Adds(old(history), Closed(flow.id, flow.challenger, result), history)
      ensures KeepsOthers(flow)
      ensures depth == 0 ==> flows == old(flows) - {flow.challenger, flow.accepter} && SameValues()
      decreases depth, 3
    {
      hide Valid, FlowFits, Replay, Bump, FlowsInv, Enabled, Next;
      Reached();
      ghost var before := Model();
      Owners(flow.challenger);
      Unstore(flow);
      ClosedNext(before, flow.challenger, result);
      Changed(flow, Closed(flow.id, flow.challenger, result), before, depth);
      code := result;
    }

    // ----- Operations -----

    method ExpireOne(flow: Flow, now: int, depth: nat)
      requires Valid()
      modifies this, flows.Values
      ensures Onward()
      ensures depth == 0 ==> SameValues()
                             && forall p <- old(flows) :: p in flows <==> !(old(flows[p]) == flow && old(Due(flow, now)))
      decreases depth, 4
    {
      hide FlowFits, Replay;
      if flow.challenger in flows { Owners(flow.challenger); }
      forall p <- flows | flows[p] == flow ensures flow.challenger in flows && flows[flow.challenger] == flow { Owners(p); }
      if flow.challenger in flows && flows[flow.challenger] == flow && flow.mode != STARTING && now >= flow.deadline {
        var _ := Finish(flow, STALE, depth);
      }
    }

    method Expire(now: int, depth: nat)
      requires Valid()
      modifies this, flows.Values
      ensures Onward()
      ensures depth == 0 ==> Model().flows == Unexpired(old(Model()).flows, now)
      decreases depth, 5
    {
      hide Replay, Valid;
      var snapshot := flows.Values;
      while snapshot != {}
        invariant Onward() && snapshot <= old(flows.Values)
        invariant depth == 0 ==> SameValues()
        invariant depth == 0 ==> forall p <- old(flows) :: p in flows <==> old(flows[p]) in snapshot || !old(Due(flows[p], now))
        decreases |snapshot|
      {
        var flow :| flow in snapshot;
        snapshot := snapshot - {flow};
        ExpireOne(flow, now, depth);
      }
      if depth == 0 { DueAreGone(now); }
    }

    method Current(actor: Player, id: Uid, now: int, depth: nat) returns (flow: Flow?)
      requires Valid()
      modifies this, flows.Values
      ensures Onward()
      ensures flow != null <==> Names(Model(), actor, id)
      ensures flow != null ==> flow == flows[actor]
      decreases depth, 6
    {
      Expire(now, depth);
      flow := if actor in flows && flows[actor].id == id then flows[actor] else null;
    }

    method Invite(sender: Option<Player>, target: Option<Player>, rule: Option<nat>, seed: Option<int>,
                  options: Option<Options>, now: int, host: Answers, depth: nat)
      returns (code: Code, ghost at: nat, ghost id: Uid)
      requires Valid()
      modifies this, flows.Values
      ensures Onward() && |old(history)| <= at <= |history|
      ensures Replay(history[..at]).Some?
      ensures Follows(history, at, InviteStep(Replay(history[..at]).value, sender, target, rule, seed, options, host, id, now), code)
      decreases depth, 7
    {
      hide Valid, Replay, FlowFits, FlowsInv, Flow.Core;
      Expire(now, depth);
      ghost var past := history;
      at, id := |history|, 0;
      Reached();
      assert history[..at] == past;
      if sender.None? || target.None? || sender == target { return INVALID, at, id; }
      if !SettingsAccepted(rule, options) { return INVALID, at, id; }
      var settings := Settings(rule.value, if seed.Some? then seed.value else host.drawnSeed, options.value);
      var c, a := sender.value, target.value;
      if c !in host.online || a !in host.online { return OFFLINE, at, id; }
      if c in flows || a in flows || c in host.dueling || a in host.dueling { return BUSY, at, id; }
      var selection := Select(c, host, depth);
      if !Eligible(selection) {
        code := INELIGIBLE;
      } else {
        id := Open(c, a, settings, now, depth);
        code := OK;
      }
      assert history[..at] == past;
    }

    method Open(challenger: Player, accepter: Player, settings: Settings, now: int, depth: nat) returns (id: Uid)
      requires Valid() && challenger != accepter && challenger !in flows && accepter !in flows && SettingsValid(settings)
      modifies this, flows.Values
      ensures Onward() && Adds(old(history), Invited(id, challenger, accepter, settings, now), history)
      decreases depth, 3
    {
      hide Valid, Replay, FlowFits, FlowsInv, SettingsValid, Pending;
      ghost var before := Model();
      var flow := Insert(challenger, accepter, settings, now);
      id := flow.id;
      Changed(flow, Invited(id, challenger, accepter, settings, now), before, depth);
    }

    method Insert(challenger: Player, accepter: Player, settings: Settings, now: int) returns (flow: Flow)
      requires Valid() && challenger != accepter && challenger !in flows && accepter !in flows && SettingsValid(settings)
      modifies this
      ensures Pending(flow, Invited(flow.id, challenger, accepter, settings, now), old(Model()))
      ensures fresh(flow) && history == old(history) && flows == old(flows)[challenger := flow][accepter := flow] && Keeps()
    {
      hide Valid, Replay, FlowFits, FlowsInv, Bump, SettingsValid, Enabled, Next, Flow.Core, Identified;
      ghost var before := Model();
      Reached();
      var id := DrawUid();
      flow := new Flow(id, challenger, accepter, settings, now);
      Store(flow);
      InvitedNext(before, id, challenger, accepter, settings, now);
    }

    method Store(flow: Flow)
      requires Valid() && flow.challenger !in flows && flow.accepter !in flows && flow.id !in used
      modifies this`flows, this`used
      ensures flows == old(flows)[flow.challenger := flow][flow.accepter := flow] && used == old(used) + {flow.id}
      ensures Values() == old(Values())[flow.challenger := flow.Value()][flow.accepter := flow.Value()] && Identified() && Keeps()
    {
      hide Valid, Flow.Core, Identified, Values;
      flows := flows[flow.challenger := flow];
      flows := flows[flow.accepter := flow];
      used := used + {flow.id};
      Joined(flow);
      JoinedIdentified(flow);
    }

    method Availability(flow: Flow, host: Answers) returns (code: Code)
      ensures code == AvailabilityOf(flow.Value(), host)
    {
      if flow.challenger !in host.online || flow.accepter !in host.online { return OFFLINE; }
      code := if flow.challenger in host.dueling || flow.accepter in host.dueling then BUSY else OK;
    }

    method Accept(actor: Player, invitationId: Uid, now: int, host: Answers, depth: nat)
      returns (code: Code, ghost at: nat, ghost round: Uid)
      requires Valid()
      modifies this, flows.Values
      ensures Onward() && |old(history)| <= at <= |history|
      ensures Replay(history[..at]).Some?
      ensures Follows(history, at, AcceptStep(Replay(history[..at]).value, actor, invitationId, host, round, now), code)
      decreases depth, 7
    {
      hide Replay, FlowFits, FlowsInv, Flow.Core, Valid;
      var flow := Current(actor, invitationId, now, depth);
      ghost var past := history;
      at, round := |history|, 0;
      Reached();
      assert history[..at] == past;
      if flow == null || flow.mode != INVITED || flow.accepter != actor { return STALE, at, round; }
      code, round := Answer(flow, host, now, depth);
      assert history[..at] == past;
    }

    /** If a participant is gone or duels by now the flow is closed, else the decks are looked at. */
    method Answer(flow: Flow, host: Answers, now: int, depth: nat) returns (code: Code, ghost round: Uid)
      requires Valid() && flow.accepter in flows && flows[flow.accepter] == flow && flow.mode == INVITED
      modifies this, flows.Values
      ensures Onward()
      ensures var f := old(flow.Value());
              var availability := AvailabilityOf(f, host);
              var challenger, accepter := host.Selected(f.challenger), host.Selected(f.accepter);
              if availability != OK then code == availability && Adds(old(history), Closed(f.id, f.challenger, code), history)
              else if Eligible(challenger) && Eligible(accepter)
              then code == OK && Adds(old(history), Accepted(f.id, f.accepter, round, challenger.value, accepter.value, now), history)
              else code == INELIGIBLE
      decreases depth, 6
    {
      hide Replay, FlowFits, FlowsInv, Flow.Core, Valid;
      round := 0;
      Owners(flow.accepter);
      var availability := Availability(flow, host);
      if availability != OK {
        code := Finish(flow, availability, depth);
      } else {
        code, round := Ready(flow, host, now, depth);
      }
    }

    /** Both decks are evaluated; only if both will do does the first round open. */
    method Ready(flow: Flow, host: Answers, now: int, depth: nat) returns (code: Code, ghost round: Uid)
      requires Valid() && flow.accepter in flows && flows[flow.accepter] == flow && flow.mode == INVITED
      modifies this, flows.Values
      ensures Onward()
      ensures var challenger, accepter := host.Selected(flow.challenger), host.Selected(flow.accepter);
              if Eligible(challenger) && Eligible(accepter)
              then code == OK && Adds(old(history), Accepted(flow.id, flow.accepter, round, challenger.value, accepter.value, now), history)
              else code == INELIGIBLE
      decreases depth, 4
    {
      hide Valid, Replay;
      round := 0;
      var challenger, accepter := SelectBoth(flow, host, depth);
      if !Eligible(challenger) || !Eligible(accepter) { return INELIGIBLE, round; }
      round := Begin(flow, challenger.value, accepter.value, now, depth);
      code := OK;
    }

    method SelectBoth(flow: Flow, host: Answers, depth: nat) returns (challenger: Option<Selection>, accepter: Option<Selection>)
      requires Valid()
      modifies this, flows.Values
      ensures challenger == host.Selected(flow.challenger) && accepter == host.Selected(flow.accepter)
      ensures Onward() && (Eligible(challenger) && Eligible(accepter) ==> Still())
      decreases depth, 1
    {
      hide Valid, Replay;
      challenger := Select(flow.challenger, host, depth);
      accepter := Select(flow.accepter, host, depth);
    }

    /** The invitation becomes a prepared duel in its first round. */
    method Begin(flow: Flow, challenger: Selection, accepter: Selection, now: int, depth: nat) returns (round: Uid)
      requires Valid() && flow.accepter in flows && flows[flow.accepter] == flow && flow.mode == INVITED
      requires Eligible(Some(challenger)) && Eligible(Some(accepter))
      modifies this, flows.Values
      ensures Onward() && Adds(old(history), Accepted(flow.id, flow.accepter, round, challenger, accepter, now), history)
      decreases depth, 3
    {
      hide Valid, Replay, FlowFits, FlowsInv, Pending;
      ghost var before := Model();
      round := Lock(flow, challenger, accepter, now);
      Changed(flow, Accepted(flow.id, flow.accepter, round, challenger, accepter, now), before, depth);
    }

    /** Both decks are fixed and a round opens. */
    method Lock(flow: Flow, challenger: Selection, accepter: Selection, now: int) returns (round: Uid)
      requires Valid() && flow.accepter in flows && flows[flow.accepter] == flow && flow.mode == INVITED
      requires Eligible(Some(challenger)) && Eligible(Some(accepter))
      modifies this`used, flow
      ensures Pending(flow, Accepted(flow.id, flow.accepter, round, challenger, accepter, now), old(Model())) && Rewrote(flow)
    {
      hide Valid, Replay, FlowFits, FlowsInv, Bump, Enabled, Next;
      ghost var before := Model();
      Reached();
      Owners(flow.accepter);
      round := DrawUid();
      used := used + {round};
      flow.prepared := Some(PreparedDuel(flow.id,
                                         PreparedPlayer(flow.challenger, challenger.deck.value, flow.settings.seed),
                                         PreparedPlayer(flow.accepter, accepter.deck.value, NextLong(flow.settings.seed)),
                                         flow.settings));
      flow.BeginRound(round, now);
      OneFlow(flow);
      AcceptedNext(before, flow.accepter, round, challenger, accepter, now);
    }

    method Decline(actor: Player, invitationId: Uid, now: int, depth: nat) returns (code: Code, ghost at: nat)
      requires Valid()
      modifies this, flows.Values
      ensures Onward() && |old(history)| <= at <= |history|
      ensures Replay(history[..at]).Some?
      ensures Follows(history, at, DeclineStep(Replay(history[..at]).value, actor, invitationId), code)
      decreases depth, 7
    {
      hide Replay, FlowFits, FlowsInv, Flow.Core, Valid, Identified, Bump;
      var flow := Current(actor, invitationId, now, depth);
      ghost var past := history;
      at := |history|;
      Reached();
      assert history[..at] == past;
      if flow == null || flow.mode != INVITED || flow.accepter != actor { return STALE, at; }
      Owners(actor);
      code := Finish(flow, OK, depth);
      assert history[..at] == past;
    }

    method Cancel(actor: Player, flowId: Uid, now: int, depth: nat) returns (code: Code, ghost at: nat)
      requires Valid()
      modifies this, flows.Values
      ensures Onward() && |old(history)| <= at <= |history|
      ensures Replay(history[..at]).Some?
      ensures Follows(history, at, CancelStep(Replay(history[..at]).value, actor, flowId), code)
      decreases depth, 7
    {
      hide Replay, FlowFits, FlowsInv, Valid, Flow.Core, Identified, Bump;
      var flow := Current(actor, flowId, now, depth);
      ghost var past := history;
      at := |history|;
      Reached();
      assert history[..at] == past;
      if flow == null { return STALE, at; }
      if flow.mode == STARTING { return BUSY, at; }
      Owners(actor);
      code := Finish(flow, OK, depth);
      assert history[..at] == past;
    }

    method Throw(actor: Player, flowId: Uid, roundId: Uid, hand: Option<Hand>, now: int, depth: nat)
      returns (code: Code, ghost at: nat, ghost nextRound: Uid)
      requires Valid()
      modifies this, flows.Values
      ensures Onward() && |old(history)| <= at <= |history|
      ensures Replay(history[..at]).Some?
      ensures Follows(history, at, HandStep(Replay(history[..at]).value, actor, flowId, roundId, hand, nextRound, now), code)
      decreases depth, 8
    {
      hide Valid, Replay, FlowFits, FlowsInv, Flow.Core, Identified, HandStep, Follows, Model, Names;
      var flow := Current(actor, flowId, now, depth);
      ghost var past := history;
      at := |history|;
      Reached();
      code, nextRound := Thrown(flow, actor, flowId, roundId, hand, now, depth);
      assert history[..at] == past;
    }

    /** `hand` once the flow was looked up. */
    method Thrown(flow: Flow?, actor: Player, flowId: Uid, roundId: Uid, hand: Option<Hand>, now: int, depth: nat)
      returns (code: Code, ghost nextRound: Uid)
      requires Valid() && (flow != null <==> Names(Model(), actor, flowId)) && (flow != null ==> flow == flows[actor])
      modifies this, flows.Values
      ensures Onward() && Follows(history, |old(history)|, HandStep(old(Model()), actor, flowId, roundId, hand, nextRound, now), code)
      decreases depth, 7
    {
      hide Valid, Replay, FlowFits, FlowsInv, Flow.Core, Identified;
      nextRound := 0;
      if flow == null || flow.mode != RPS || flow.roundId != Some(roundId) { return STALE, nextRound; }
      if hand.None? { return INVALID, nextRound; }
      Owners(actor);
      if actor == flow.challenger {
        if flow.challengerHand.Some? { return STALE, nextRound; }
      } else {
        if flow.accepterHand.Some? { return STALE, nextRound; }
      }
      nextRound := Record(flow, actor, hand.value, now, depth);
      code := OK;
    }

    /** Records a hand and, with both in, decides or replays the round. */
    method Record(flow: Flow, actor: Player, hand: Hand, now: int, depth: nat) returns (ghost nextRound: Uid)
      requires Valid() && actor in flows && flows[actor] == flow && flow.mode == RPS && flow.roundId.Some?
      requires OwnHand(flow.Value(), actor).None?
      modifies this, flows.Values
      ensures Onward()
      ensures Adds(old(history), Played(flow.id, actor, old(flow.roundId).value, hand, nextRound, now), history)
      decreases depth, 3
    {
      hide Valid, Replay, FlowFits, FlowsInv, Pending;
      ghost var before, round := Model(), flow.roundId.value;
      nextRound := WriteHand(flow, actor, hand, now);
      Changed(flow, Played(flow.id, actor, round, hand, nextRound, now), before, depth);
    }

    method WriteHand(flow: Flow, actor: Player, hand: Hand, now: int) returns (ghost nextRound: Uid)
      requires Valid() && actor in flows && flows[actor] == flow && flow.mode == RPS && flow.roundId.Some?
      requires OwnHand(flow.Value(), actor).None?
      modifies this`used, flow
      ensures Pending(flow, Played(flow.id, actor, old(flow.roundId).value, hand, nextRound, now), old(Model())) && Rewrote(flow)
    {
      hide Valid, Replay, FlowFits, FlowsInv, Bump, Enabled, Next, Flow.Core, Identified, Play, Ties;
      ghost var before := Model();
      Reached();
      Owners(actor);
      nextRound := PutHand(flow, actor, hand, now);
      OneFlow(flow);
      StillIdentified();
      PlayedNext(before, actor, hand, nextRound, now);
    }

    method PutHand(flow: Flow, actor: Player, hand: Hand, now: int) returns (ghost nextRound: Uid)
      modifies this`used, flow
      ensures flow.Value() == Play(old(flow.Value()), actor, hand, nextRound, now)
      ensures if Ties(old(flow.Value()), actor, hand) then nextRound !in old(used) && used == old(used) + {nextRound} else used == old(used)
    {
      hide Settled, Resolve;
      if actor == flow.challenger {
        flow.challengerHand := Some(hand);
      } else {
        flow.accepterHand := Some(hand);
      }
      nextRound := Settle(flow, now);
    }

    /** With both hands in, a tie opens a new round and anything else decides the winner. */
    method Settle(flow: Flow, now: int) returns (ghost nextRound: Uid)
      modifies this`used, flow
      ensures flow.Value() == Settled(old(flow.Value()), nextRound, now)
      ensures if old(HandsIn(flow.Value())) && old(flow.challengerHand == flow.accepterHand)
              then nextRound !in old(used) && used == old(used) + {nextRound} else used == old(used)
    {
      nextRound := 0;
      if flow.challengerHand.Some? && flow.accepterHand.Some? {
        flow.winner := Resolve(flow.challengerHand.value, flow.accepterHand.value);
        if flow.winner == TIE {
          var round := DrawUid();
          used := used + {round};
          flow.BeginRound(round, now);
          nextRound := round;
        } else {
          flow.mode := FIRST_CHOICE;
          flow.roundId := None;
          flow.deadline := now + STEP_MILLIS;
        }
      }
    }

    method First(actor: Player, flowId: Uid, goFirst: bool, now: int, host: Answers, depth: nat)
      returns (code: Code, ghost at: nat, ghost launchedAt: nat, ghost closedAt: nat)
      requires Valid()
      modifies this, flows.Values
      ensures Onward() && |old(history)| <= at <= |history|
      ensures Replay(history[..at]).Some?
      ensures Follows(history, at, FirstStep(Replay(history[..at]).value, actor, flowId, goFirst, host, code), code)
      ensures at < |history| && history[at].Chosen? ==>
                at < launchedAt && StartedOnce(history, launchedAt, closedAt, Replay(history[..at]).value.flows[actor], goFirst, host.started, code)
      decreases depth, 8
    {
      hide Valid, Replay, FlowFits, FlowsInv, Flow.Core, StartedOnce, Identified, FirstStep, Follows, Model, Names;
      var flow := Current(actor, flowId, now, depth);
      ghost var past := history;
      at := |history|;
      Reached();
      code, launchedAt, closedAt := Resolved(flow, actor, flowId, goFirst, host, depth);
      assert history[..at] == past;
    }

    /** `first` once the flow was looked up. */
    method Resolved(flow: Flow?, actor: Player, flowId: Uid, goFirst: bool, host: Answers, depth: nat)
      returns (code: Code, ghost launchedAt: nat, ghost closedAt: nat)
      requires Valid() && (flow != null <==> Names(Model(), actor, flowId)) && (flow != null ==> flow == flows[actor])
      modifies this, flows.Values
      ensures Onward() && Follows(history, |old(history)|, FirstStep(old(Model()), actor, flowId, goFirst, host, code), code)
      ensures |old(history)| < |history| && history[|old(history)|].Chosen? ==>
                && actor in old(Model()).flows && |old(history)| < launchedAt
                && StartedOnce(history, launchedAt, closedAt, old(Model()).flows[actor], goFirst, host.started, code)
      decreases depth, 7
    {
      hide Valid, Replay, FlowFits, FlowsInv, Flow.Core, StartedOnce, Identified;
      launchedAt, closedAt := 0, 0;
      if flow == null || flow.mode != FIRST_CHOICE || (if flow.winner == 0 then flow.challenger else flow.accepter) != actor {
        return STALE, launchedAt, closedAt;
      }
      code, launchedAt, closedAt := Choice(flow, actor, goFirst, host, depth);
    }

    /** If a participant is gone or duels by now the flow is closed, else the duel is started. */
    method Choice(flow: Flow, actor: Player, goFirst: bool, host: Answers, depth: nat)
      returns (code: Code, ghost launchedAt: nat, ghost closedAt: nat)
      requires Valid() && actor in flows && flows[actor] == flow && flow.mode == FIRST_CHOICE && Winner(flow.Value()) == actor
      modifies this, flows.Values
      ensures Onward()
      ensures var f := old(flow.Value());
              var availability := AvailabilityOf(f, host);
              if availability != OK then code == availability && Adds(old(history), Closed(f.id, f.challenger, code), history)
              else
                && Adds(old(history), Chosen(f.id, actor, goFirst), history) && |old(history)| < launchedAt
                && StartedOnce(history, launchedAt, closedAt, f, goFirst, host.started, code)
      decreases depth, 6
    {
      hide Valid, Replay, FlowFits, FlowsInv, Flow.Core, StartedOnce, Identified;
      launchedAt, closedAt := 0, 0;
      Owners(actor);
      var availability := Availability(flow, host);
      if availability != OK {
        code := Finish(flow, availability, depth);
      } else {
        code, launchedAt, closedAt := Start(flow, actor, goFirst, host, depth);
      }
    }

    /** The choice is recorded and announced, the host is asked to start, and the flow is closed with the outcome. */
    method Start(flow: Flow, actor: Player, goFirst: bool, host: Answers, depth: nat)
      returns (code: Code, ghost launchedAt: nat, ghost closedAt: nat)
      requires Valid() && actor in flows && flows[actor] == flow && flow.mode == FIRST_CHOICE && Winner(flow.Value()) == actor
      modifies this, flows.Values
      ensures Onward() && Adds(old(history), Chosen(flow.id, actor, goFirst), history)
      ensures |old(history)| < launchedAt
      ensures StartedOnce(history, launchedAt, closedAt, old(flow.Value()), goFirst, host.started, code)
      decreases depth, 5
    {
      hide Valid, Replay, FlowFits, FlowsInv, StartedOnce;
      Owners(actor);
      ChoiceIsPrepared(flow.Value());
      Choose(flow, actor, goFirst, depth);
      ghost var chosen := flow.Value();
      launchedAt := |history|;
      code, closedAt := Conclude(flow, actor, goFirst, host, depth);
      SameStart(history, launchedAt, closedAt, chosen, old(flow.Value()), goFirst, host.started, code);
    }

    method Conclude(flow: Flow, actor: Player, goFirst: bool, host: Answers, depth: nat) returns (code: Code, ghost closedAt: nat)
      requires Valid() && actor in flows && flows[actor] == flow && flow.mode == STARTING && !flow.launched
      requires flow.choice == Some(goFirst) && flow.prepared.Some? && actor == Winner(flow.Value())
      modifies this, flows.Values
      ensures Valid() && fresh(flows.Values - old(flows.Values)) && KeepsOthers(flow)
      ensures old(history) <= history
      ensures StartedOnce(history, |old(history)|, closedAt, old(flow.Value()), goFirst, host.started, code)
      decreases depth, 4
    {
      hide Valid, Replay, FlowFits, FlowsInv, Flow.Core, StartedOnce, Model, Values;
      Owners(actor);
      var started := HostStart(flow, actor, flow.prepared.value, if goFirst then flow.winner else 1 - flow.winner, host, depth);
      closedAt := |history|;
      ghost var past := history;
      Owners(actor);
      LogoutRecorded(flow);
      code := Finish(flow, if flow.loggedOutDuringStart then OFFLINE else if started then OK else START_FAILED, depth);
      ClosesStart(old(history), past, history, old(flow.Value()), goFirst, started, code);
    }

    /** The history records a logout exactly if the flow object does. */
    lemma LogoutRecorded(flow: Flow)
      requires Valid() && flow.challenger in flows && flows[flow.challenger] == flow
      ensures Replay(history).Some? && flow.challenger in Replay(history).value.flows
      ensures Replay(history).value.flows[flow.challenger].loggedOut == flow.loggedOutDuringStart
    {
      hide Replay;
    }

    method Choose(flow: Flow, actor: Player, goFirst: bool, depth: nat)
      requires Valid() && actor in flows && flows[actor] == flow && flow.mode == FIRST_CHOICE && Winner(flow.Value()) == actor
      modifies this, flows.Values
      ensures Onward() && Adds(old(history), Chosen(flow.id, actor, goFirst), history)
      ensures actor in flows && flows[actor] == flow
      ensures flow.Value() == old(flow.Value()).(mode := STARTING, choice := Some(goFirst), loggedOut := flow.loggedOutDuringStart)
      decreases depth, 3
    {
      hide Valid, Replay, FlowFits, FlowsInv, Pending;
      ghost var before := Model();
      WriteChoice(flow, actor, goFirst);
      Changed(flow, Chosen(flow.id, actor, goFirst), before, depth);
    }

    method WriteChoice(flow: Flow, actor: Player, goFirst: bool)
      requires Valid() && actor in flows && flows[actor] == flow && flow.mode == FIRST_CHOICE && Winner(flow.Value()) == actor
      modifies flow
      ensures Pending(flow, Chosen(flow.id, actor, goFirst), old(Model())) && Rewrote(flow)
      ensures flow.Value() == old(flow.Value()).(mode := STARTING, choice := Some(goFirst))
    {
      hide Valid, Replay, FlowFits, FlowsInv, Bump, Enabled, Next;
      ghost var before := Model();
      Reached();
      Owners(actor);
      flow.mode := STARTING;
      flow.choice := Some(goFirst);
      OneFlow(flow);
      ChosenNext(before, actor, goFirst);
    }

    /** `host.start`, which runs with the flow locked in STARTING; a start that throws counts as one that failed. */
    method HostStart(flow: Flow, actor: Player, prepared: PreparedDuel, firstSeat: int, host: Answers, depth: nat)
      returns (started: bool)
      requires Valid() && actor in flows && flows[actor] == flow && flow.mode == STARTING && !flow.launched
      requires flow.choice.Some? && firstSeat == Seat(flow.Value(), flow.choice.value) && flow.prepared == Some(prepared)
      modifies this, flows.Values
      ensures started == host.started && Valid() && fresh(flows.Values - old(flows.Values))
      ensures Adds(old(history), Launched(flow.id, actor, firstSeat), history)
      ensures actor in flows && flows[actor] == flow && flow.launched && flow.mode == STARTING
      ensures KeepsOthers(flow)
      decreases depth, 3
    {
      hide Valid, Replay, FlowFits, FlowsInv;
      MarkLaunched(flow, actor, firstSeat);
      Reenter(depth);
      started := host.started;
    }

    ghost method MarkLaunched(flow: Flow, actor: Player, firstSeat: int)
      requires Valid() && actor in flows && flows[actor] == flow && flow.mode == STARTING && !flow.launched
      requires flow.choice.Some? && firstSeat == Seat(flow.Value(), flow.choice.value)
      modifies this`history, flow`launched
      ensures Valid() && history == old(history) + [Launched(flow.id, actor, firstSeat)]
      ensures forall p <- flows :: flows[p] != flow ==> flows[p].Value() == old(flows[p].Value())
      ensures flow.Value() == old(flow.Value()).(launched := true)
    {
      hide FlowFits, FlowsInv, Replay, Enabled, Next;
      Owners(actor);
      LaunchedNext(Model(), actor, firstSeat);
      flow.launched := true;
      history := history + [Launched(flow.id, actor, firstSeat)];
      ReplayStep(old(history), Launched(flow.id, actor, firstSeat));
      OneFlow(flow);
    }

    method Logout(actor: Player, depth: nat)
      requires Valid()
      modifies this, flows.Values
      ensures Onward()
      ensures match LogoutStep(old(Model()), actor)
              case None => history == old(history)
              case Some(e) => Adds(old(history), e, history)
      decreases depth, 7
    {
      hide Valid, Replay, FlowFits, FlowsInv;
      if actor !in flows { return; }
      var flow := flows[actor];
      Owners(actor);
      if flow.mode == STARTING {
        RecordLogout(flow, actor);
      } else {
        var _ := Finish(flow, OFFLINE, depth);
      }
    }

    method RecordLogout(flow: Flow, actor: Player)
      requires Valid() && actor in flows && flows[actor] == flow && flow.mode == STARTING
      modifies this`history, flow`loggedOutDuringStart
      ensures Onward()
      ensures Adds(old(history), LoggedOut(flow.id, actor), history)
    {
      hide Valid, FlowFits, FlowsInv, Replay, Enabled, Next, Bump, Identified, Keeps;
      Reached();
      Owners(actor);
      LoggedOutNext(Model(), actor);
      flow.loggedOutDuringStart := true;
      history := history + [LoggedOut(flow.id, actor)];
      ReplayStep(old(history), LoggedOut(flow.id, actor));
      OneFlow(flow);
      StillIdentified();
      IsValid();
      OnlyMarked(flow);
    }

    twostate lemma OnlyMarked(flow: Flow)
      requires flows == old(flows) && flow.loggedOutDuringStart && flow.mode == old(flow.mode) && flow.Core() == old(flow.Core())
      requires forall p <- flows :: flows[p] != flow ==> flows[p].Value() == old(flows[p].Value())
      ensures Keeps()
    {
    }

    /** A revision advances alone, and its player is told. */
    method Announce(actor: Player, depth: nat)
      requires Valid()
      modifies this, flows.Values
      ensures Onward() && Adds(old(history), Bumped(actor), history)
      decreases depth, 3
    {
      hide Replay, FlowFits, FlowsInv, Enabled, Next, Bump;
      BumpedNext(Model(), actor);
      Advance(actor);
      history := history + [Bumped(actor)];
      ReplayStep(old(history), Bumped(actor));
      SameFlows();
      Reenter(depth);
    }

    method DuelEnded(actor: Player, depth: nat)
      requires Valid()
      modifies this, flows.Values
      ensures Onward() && Adds(old(history), Bumped(actor), history)
      decreases depth, 7
    {
      Announce(actor, depth);
    }

    method StartFinished(actor: Player, success: bool, depth: nat)
      requires Valid()
      modifies this, flows.Values
      ensures Onward() && Adds(old(history), Bumped(actor), history)
      decreases depth, 7
    {
      Announce(actor, depth);
    }

    method IsPreparing(actor: Player) returns (preparing: bool)
      requires Valid()
      ensures preparing <==> actor in flows && flows[actor].mode != INVITED
    {
      preparing := actor in flows && flows[actor].mode != INVITED;
    }

    method View(viewer: Player, now: int, host: Answers, depth: nat) returns (view: View)
      requires Valid()
      modifies this, flows.Values
      ensures Onward()
      ensures view == ViewOf(Model(), viewer, now, ShownName(Model(), viewer, host), viewer in host.dueling)
      ensures host.NamesFit() ==> ViewAccepted(view)
      decreases depth, 7
    {
      hide *;
      Expire(now, depth);
      OnwardValid();
      view := Show(viewer, now, host);
    }

    twostate lemma OnwardValid()
      requires Onward()
      ensures Valid()
    {
    }

    /** The view of the present state. */
    method Show(viewer: Player, now: int, host: Answers) returns (view: View)
      requires Valid()
      ensures view == ViewOf(Model(), viewer, now, ShownName(Model(), viewer, host), viewer in host.dueling)
      ensures host.NamesFit() ==> ViewAccepted(view)
    {
      hide Valid, Replay, FlowFits, FlowsInv, Flow.Core;
      Reached();
      var revision := if viewer in revisions then revisions[viewer] else 0;
      if viewer !in flows {
        view := P.View.View(revision, if viewer in host.dueling then DUEL else IDLE, None, None, None, "", false, false, false, 0, None);
      } else {
        var flow := flows[viewer];
        var challenger := flow.challenger == viewer;
        var opponent := if challenger then flow.accepter else flow.challenger;
        view := P.View.View(revision, flow.mode, Some(flow.id), flow.roundId, Some(opponent), host.Name(opponent), challenger,
                            (if challenger then flow.challengerHand else flow.accepterHand).Some?,
                            flow.mode == FIRST_CHOICE && flow.winner == (if challenger then 0 else 1),
                            if flow.mode == STARTING then 0 else Clamp(flow.deadline - now, 0, STEP_MILLIS), Some(flow.settings));
      }
      if host.NamesFit() {
        ViewNeverThrows(history, viewer, now, ShownName(Model(), viewer, host), viewer in host.dueling);
      }
    }
  }
}
