/**
 `duel/DuelSession.java`: the loop that runs a duel until a player must answer or the duel is over.
 The engine behind it is the list of what it will still do, whatever that is.
 */
module DuelSessions {
  import opened Wrappers
  import opened DuelMessages
  import opened MessageSanitizer
  import opened ServerDuelHandlers
  import opened SoloDuelHandlers

  // ----- The engine and the listener -----

  datatype Status = ENGINE_END | ENGINE_AWAITING | ENGINE_CONTINUE

  predicate IsRefresh(m: DuelMessage) { m.LocationQueried? || m.CardQueried? }

  /** What a scheduled query of the engine returned. */
  type Refresh = m: DuelMessage | IsRefresh(m) witness CardQueried(0, 0, 0, None)

  /** A message and the queries scheduled before and after it. */
  datatype Item = Item(msg: DuelMessage, before: seq<Refresh>, after: seq<Refresh>)

  /** One call into the engine: its messages and status, or a failure of the call or of the parser. */
  datatype Batch = Batch(items: seq<Item>, status: Status) | Fault

  /** An optional chain with nothing to chain is passed without asking. */
  predicate AutoPassed(msg: DuelMessage) { msg.SelectChain? && msg.chains == [] && !msg.forced }

  datatype Listener = Versus(h: HandlerState) | Solo(ai: Ai, s: SoloState) {
    predicate WinSent() { if Versus? then h.winSent else s.winSent }

    predicate AnswerPending() { Solo? && s.pendingAutoResponse.Some? }

    /** Seats whose results go out over the wire. */
    predicate Serves(seat: Seat) { Versus? || seat == 0 }

    predicate AcceptsResponseFrom(seat: int) { seat >= 0 && seat == if Versus? then h.pendingPlayer else s.lastPromptTarget }
  }

  datatype Heard = Heard(listener: Listener, out: seq<Delivery>, verdict: Verdict)

  function Hear(l: Listener, msg: DuelMessage): Heard {
    match l
    case Versus(h) => var r := Handle(h, msg); Heard(Versus(r.state), r.out, r.verdict)
    case Solo(ai, s) => var r := HandleSolo(ai, s, msg); Heard(Solo(ai, r.state), r.out, r.verdict)
  }

  /** The listener over the results of scheduled queries, whose verdicts nobody looks at. */
  function HearRefreshes(l: Listener, refreshes: seq<Refresh>): Heard {
    if refreshes == [] then Heard(l, [], CONTINUE)
    else
      var before := HearRefreshes(l, refreshes[..|refreshes| - 1]);
      var last := Hear(before.listener, refreshes[|refreshes| - 1]);
      Heard(last.listener, before.out + last.out, CONTINUE)
  }

  // ----- The loop -----

  /** How the messages of a batch leave the loop. */
  datatype BatchEnd = Done | Passed | Stopped(verdict: Verdict)

  datatype Ran = Ran(listener: Listener, out: seq<Delivery>, end: BatchEnd)

  function RunItem(l: Listener, item: Item): Ran {
    if AutoPassed(item.msg) then Ran(l, [], Passed)
    else
      var b := HearRefreshes(l, item.before);
      var m := Hear(b.listener, item.msg);
      if m.verdict != CONTINUE then Ran(m.listener, b.out + m.out, Stopped(m.verdict))
      else
        var a := HearRefreshes(m.listener, item.after);
        Ran(a.listener, b.out + m.out + a.out, Done)
  }

  function RunItems(l: Listener, items: seq<Item>): Ran {
    if items == [] then Ran(l, [], Done)
    else
      var r := RunItems(l, items[..|items| - 1]);
      if r.end != Done then r
      else
        var last := RunItem(r.listener, items[|items| - 1]);
        Ran(last.listener, r.out + last.out, last.end)
  }

  /** `running` is set inside `process`; `endings` counts the calls of `onDuelEnd`. */
  datatype Session = Session(listener: Listener, ended: bool, closed: bool, script: seq<Batch>, sent: seq<Delivery>,
                             running: bool, endings: nat)

  datatype Outcome = Awaits | Ends | Throws
  datatype Looped = Looped(session: Session, outcome: Outcome)

  /** The engine is called until it waits for a player, the duel ends, or a call fails. */
  function Loop(s: Session): Looped
    decreases |s.script|
  {
    if s.script == [] then Looped(s, Awaits)
    else if s.script[0].Fault? then Looped(s.(script := s.script[1..]), Throws)
    else
      var batch := s.script[0];
      var r := RunItems(s.listener, batch.items);
      var t := s.(script := s.script[1..], listener := r.listener, sent := s.sent + r.out);
      match r.end
      case Passed => Loop(t)
      case Stopped(verdict) => if verdict == DUEL_ENDED then Ended(t) else Looped(t, Awaits)
      case Done =>
        match batch.status
        case ENGINE_CONTINUE => Loop(t)
        case ENGINE_AWAITING => Looped(t, Awaits)
        case ENGINE_END => Ended(t)
  }

  function Ended(t: Session): Looped { Looped(t.(ended := true, endings := t.endings + 1), Ends) }

  // ----- The object -----

  class DuelSession {
    const wire: Wire
    const server: ServerDuelHandler?
    const solo: SoloDuelHandler?
    var ended: bool
    var closed: bool
    var script: seq<Batch>
    ghost var running: bool
    ghost var endings: nat

    ghost predicate Valid()
      reads this
    {
      (server == null) != (solo == null) && (server != null ==> server.wire == wire) && (solo != null ==> solo.wire == wire)
    }

    ghost function Repr(): set<object> {
      {this, wire} + (if server != null then {server as object} else {}) + (if solo != null then {solo as object} else {})
    }

    ghost function Listening(): Listener
      requires Valid()
      reads this, Repr()
    {
      if server != null then Versus(server.State()) else Solo(solo.ai, solo.State())
    }

    ghost function Value(): Session
      requires Valid()
      reads this, Repr()
    {
      Session(Listening(), ended, closed, script, wire.sent, running, endings)
    }

    constructor (versus: bool, ai: Ai, script: seq<Batch>)
      ensures Valid() && fresh(Repr())
      ensures Value() == Session(if versus then Versus(HandlerState(-1, false)) else Solo(ai, FRESH), false, false, script, [], false, 0)
    {
      var w := new Wire();
      wire := w;
      if versus {
        server := new ServerDuelHandler(w);
        solo := null;
      } else {
        server := null;
        solo := new SoloDuelHandler(ai, w);
      }
      ended, closed, running, endings := false, false, false, 0;
      this.script := script;
    }

    method OnMessage(msg: DuelMessage) returns (verdict: Verdict)
      requires Valid()
      modifies Repr() - {this}
      ensures var r := Hear(old(Listening()), msg);
              Listening() == r.listener && wire.sent == old(wire.sent) + r.out && verdict == r.verdict
    {
      if server != null {
        verdict := server.OnMessage(msg);
      } else {
        verdict := solo.OnMessage(msg);
      }
    }

    method EmitRefreshes(refreshes: seq<Refresh>)
      requires Valid()
      modifies Repr() - {this}
      ensures var r := HearRefreshes(old(Listening()), refreshes);
              Listening() == r.listener && wire.sent == old(wire.sent) + r.out
    {
      for i := 0 to |refreshes|
        invariant var r := HearRefreshes(old(Listening()), refreshes[..i]);
                  Listening() == r.listener && wire.sent == old(wire.sent) + r.out
      {
        assert refreshes[..i + 1][..i] == refreshes[..i];
        var _ := OnMessage(refreshes[i]);
      }
      assert refreshes[..|refreshes|] == refreshes;
    }

    method RunBatch(items: seq<Item>) returns (end: BatchEnd)
      requires Valid()
      modifies Repr() - {this}
      ensures var r := RunItems(old(Listening()), items);
              Listening() == r.listener && wire.sent == old(wire.sent) + r.out && end == r.end
    {
      hide Hear, HearRefreshes, RunItem;
      for i := 0 to |items|
        invariant var r := RunItems(old(Listening()), items[..i]);
                  Listening() == r.listener && wire.sent == old(wire.sent) + r.out && r.end == Done
      {
        assert items[..i + 1][..i] == items[..i];
        end := RunOne(items[i]);
        if end != Done {
          StaysStopped(old(Listening()), items, i + 1);
          return;
        }
      }
      assert items[..|items|] == items;
      end := Done;
    }

    method RunOne(item: Item) returns (end: BatchEnd)
      requires Valid()
      modifies Repr() - {this}
      ensures var r := RunItem(old(Listening()), item);
              Listening() == r.listener && wire.sent == old(wire.sent) + r.out && end == r.end
    {
      hide Hear, HearRefreshes;
      if AutoPassed(item.msg) { return Passed; }
      EmitRefreshes(item.before);
      var verdict := OnMessage(item.msg);
      if verdict != CONTINUE { return Stopped(verdict); }
      EmitRefreshes(item.after);
      end := Done;
    }

    /** `processUntilInput`, up to the call of `onDuelEnd` with which it ends if the duel is over. */
    method ProcessUntilInput() returns (outcome: Outcome)
      requires Valid() && running
      modifies Repr()
      ensures Valid() && Looped(Value(), outcome) == if old(ended) then Looped(old(Value()), Awaits) else Loop(old(Value()))
    {
      hide Hear, HearRefreshes, RunItems;
      if ended { return Awaits; }
      while true
        invariant Valid() && Loop(Value()) == Loop(old(Value())) && running && !ended
        decreases |script|
      {
        if script == [] { return Awaits; }
        var batch := script[0];
        script := script[1..];
        if batch.Fault? { return Throws; }
        var end := RunBatch(batch.items);
        if end.Stopped? {
          if end.verdict == DUEL_ENDED {
            ended := true;
            endings := endings + 1;
            return Ends;
          }
          return Awaits;
        }
        if end == Done && batch.status != ENGINE_CONTINUE {
          if batch.status == ENGINE_END {
            ended := true;
            endings := endings + 1;
            return Ends;
          }
          return Awaits;
        }
      }
    }

    method Close()
      requires Valid()
      modifies this`closed
      ensures Value() == old(Value()).(closed := true)
    {
      if closed { return; }
      closed := true;
    }
  }

  lemma {:induction false} StaysStopped(l: Listener, items: seq<Item>, i: nat)
    requires i <= |items| && RunItems(l, items[..i]).end != Done
    ensures RunItems(l, items) == RunItems(l, items[..i])
    decreases |items|
  {
    if i < |items| {
      assert items[..|items| - 1][..i] == items[..i];
      StaysStopped(l, items[..|items| - 1], i);
    } else {
      assert items[..i] == items;
    }
  }

  // ----- Only a win or the end of the engine ends a duel, and only a win tells the seats -----

  lemma EndingsOne(d: Delivery, r: Seat)
    ensures Endings([d], r) == if d.seat == r && d.payload.DuelEnd? then 1 else 0
  {
    assert [d][..0] == [];
  }

  lemma EndingsTwo(d: Delivery, e: Delivery, r: Seat)
    ensures Endings([d, e], r) == Endings([d], r) + Endings([e], r)
  {
    assert [d, e] == [d] + [e];
    EndingsAppend([d], [e], r);
  }

  /** How many results a message makes the listener send a seat. */
  function Results(l: Listener, msg: DuelMessage, r: Seat): nat { if msg.Win? && l.Serves(r) then 1 else 0 }

  /** How many results are among at most two deliveries. */
  function FewResults(out: seq<Delivery>, r: Seat): nat
    requires |out| <= 2
  {
    (if |out| > 0 && out[0].seat == r && out[0].payload.DuelEnd? then 1 else 0)
    + (if |out| > 1 && out[1].seat == r && out[1].payload.DuelEnd? then 1 else 0)
  }

  lemma FewEndings(out: seq<Delivery>, r: Seat)
    requires |out| <= 2
    ensures Endings(out, r) == FewResults(out, r)
  {
    if |out| == 1 {
      assert out == [out[0]];
      EndingsOne(out[0], r);
    } else if |out| == 2 {
      assert out == [out[0], out[1]];
      EndingsTwo(out[0], out[1], r);
      EndingsOne(out[0], r);
      EndingsOne(out[1], r);
    }
  }

  lemma HearSends(l: Listener, msg: DuelMessage, r: Seat)
    ensures |Hear(l, msg).out| <= 2 && FewResults(Hear(l, msg).out, r) == Results(l, msg, r)
  {
    hide ForRecipient, RecipientsOf;
  }

  /** What a message does to the listener, and the verdict on it. */
  lemma HearKeeps(l: Listener, msg: DuelMessage)
    ensures Hear(l, msg).listener.Versus? == l.Versus? && (Hear(l, msg).listener.WinSent() <==> l.WinSent() || msg.Win?)
    ensures Hear(l, msg).verdict != AWAIT_RESPONSE ==> Hear(l, msg).listener.AnswerPending() == l.AnswerPending()
    ensures Hear(l, msg).verdict == DUEL_ENDED <==> msg.Win?
    ensures IsRefresh(msg) ==> Hear(l, msg).verdict == CONTINUE
  {
    hide ForRecipient, RecipientsOf;
  }

  lemma HearEndings(l: Listener, msg: DuelMessage, r: Seat)
    ensures Endings(Hear(l, msg).out, r) == Results(l, msg, r)
    ensures Hear(l, msg).listener.Versus? == l.Versus? && (Hear(l, msg).listener.WinSent() <==> l.WinSent() || msg.Win?)
    ensures Hear(l, msg).verdict != AWAIT_RESPONSE ==> Hear(l, msg).listener.AnswerPending() == l.AnswerPending()
    ensures Hear(l, msg).verdict == DUEL_ENDED <==> msg.Win?
    ensures IsRefresh(msg) ==> Hear(l, msg).verdict == CONTINUE
  {
    hide Hear, Endings, FewResults;
    HearSends(l, msg, r);
    HearKeeps(l, msg);
    FewEndings(Hear(l, msg).out, r);
  }

  lemma {:induction false} RefreshEndings(l: Listener, refreshes: seq<Refresh>, r: Seat)
    ensures var h := HearRefreshes(l, refreshes);
            Endings(h.out, r) == 0 && h.listener.Versus? == l.Versus? && h.listener.WinSent() == l.WinSent()
            && h.listener.AnswerPending() == l.AnswerPending()
    decreases |refreshes|
  {
    hide Hear;
    if refreshes == [] {
    } else {
      var n := |refreshes| - 1;
      RefreshEndings(l, refreshes[..n], r);
      var b := HearRefreshes(l, refreshes[..n]);
      HearEndings(b.listener, refreshes[n], r);
      EndingsAppend(b.out, Hear(b.listener, refreshes[n]).out, r);
    }
  }

  /** What a stretch of the loop did about results: none without a win, one for every seat served with it. */
  predicate Accounted(before: Listener, after: Listener, out: seq<Delivery>, r: Seat) {
    && after.Versus? == before.Versus?
    && Endings(out, r) == (if after.WinSent() && before.Serves(r) then 1 else 0)
  }

  lemma ItemEndings(l: Listener, item: Item, r: Seat)
    requires !l.WinSent()
    ensures var x := RunItem(l, item);
            && Accounted(l, x.listener, x.out, r) && (x.listener.WinSent() <==> x.end == Stopped(DUEL_ENDED))
            && (x.end != Stopped(AWAIT_RESPONSE) ==> x.listener.AnswerPending() == l.AnswerPending())
            && x.end != Stopped(CONTINUE)
  {
    hide Hear, HearRefreshes;
    if !AutoPassed(item.msg) {
      var b := HearRefreshes(l, item.before);
      RefreshEndings(l, item.before, r);
      var m := Hear(b.listener, item.msg);
      HearEndings(b.listener, item.msg, r);
      EndingsAppend(b.out, m.out, r);
      var a := HearRefreshes(m.listener, item.after);
      RefreshEndings(m.listener, item.after, r);
      EndingsAppend(b.out + m.out, a.out, r);
    }
  }

  lemma {:induction false} ItemsEndings(l: Listener, items: seq<Item>, r: Seat)
    requires !l.WinSent()
    ensures var x := RunItems(l, items);
            && Accounted(l, x.listener, x.out, r) && (x.listener.WinSent() <==> x.end == Stopped(DUEL_ENDED))
            && (x.end != Stopped(AWAIT_RESPONSE) ==> x.listener.AnswerPending() == l.AnswerPending())
            && x.end != Stopped(CONTINUE)
    decreases |items|
  {
    hide RunItem;
    if items == [] {
    } else {
      var n := |items| - 1;
      ItemsEndings(l, items[..n], r);
      var x := RunItems(l, items[..n]);
      if x.end == Done {
        ItemEndings(x.listener, items[n], r);
        EndingsAppend(x.out, RunItem(x.listener, items[n]).out, r);
      }
    }
  }

  /** What a call of `process` on `s` may come to, as far as ends and results for `r` go. */
  ghost predicate EndsOnce(s: Session, x: Looped, r: Seat) {
    && x.session.listener.Versus? == s.listener.Versus? && x.session.closed == s.closed && x.session.running == s.running
    && |x.session.script| <= |s.script|
    && Endings(x.session.sent, r) == Endings(s.sent, r) + (if x.session.listener.WinSent() && s.listener.Serves(r) then 1 else 0)
    && (x.session.ended <==> x.outcome == Ends) && x.session.endings == s.endings + (if x.outcome == Ends then 1 else 0)
    && (x.session.listener.WinSent() ==> x.outcome == Ends)
    && (x.outcome == Awaits && x.session.listener.AnswerPending() && !s.listener.AnswerPending() ==> |x.session.script| < |s.script|)
  }

  /** A batch after which the engine goes on changes nothing about ends and results. */
  lemma GoesOn(s: Session, t: Session, x: Looped, r: Seat)
    requires EndsOnce(t, x, r) && !t.listener.WinSent() && Endings(t.sent, r) == Endings(s.sent, r) && |t.script| < |s.script|
    requires t.listener.Versus? == s.listener.Versus? && t.listener.AnswerPending() == s.listener.AnswerPending()
    requires t.closed == s.closed && t.running == s.running && t.endings == s.endings
    ensures EndsOnce(s, x, r)
  {
    hide Endings;
  }

  /**
   However the engine goes on, one call of `process` tells every seat served of at most one result, exactly then if
   it ended by a win; the listener hears of the end once, and only if the loop ends the duel.
   */
  lemma {:induction false} LoopEndsOnce(s: Session, r: Seat)
    requires !s.listener.WinSent() && !s.ended
    ensures EndsOnce(s, Loop(s), r)
    decreases |s.script|
  {
    hide RunItems, Endings;
    if s.script == [] {
    } else if s.script[0].Batch? {
      var x := RunItems(s.listener, s.script[0].items);
      ItemsEndings(s.listener, s.script[0].items, r);
      EndingsAppend(s.sent, x.out, r);
      var t := s.(script := s.script[1..], listener := x.listener, sent := s.sent + x.out);
      if x.end == Passed || (x.end == Done && s.script[0].status == ENGINE_CONTINUE) {
        hide EndsOnce;
        LoopEndsOnce(t, r);
        GoesOn(s, t, Loop(t), r);
      }
    }
  }

  // ----- What a seat can tell about a whole duel -----

  ghost predicate AllIndistinct(r: Seat, a: seq<Refresh>, b: seq<Refresh>) {
    |a| == |b| && forall i :: 0 <= i < |a| ==> Indistinct(r, a[i], b[i])
  }

  /** A chain that is passed unasked for one is passed unasked for the other: being asked to wait is something a seat sees. */
  ghost predicate ItemsIndistinct(r: Seat, a: Item, b: Item) {
    && Indistinct(r, a.msg, b.msg) && (AutoPassed(a.msg) <==> AutoPassed(b.msg))
    && AllIndistinct(r, a.before, b.before) && AllIndistinct(r, a.after, b.after)
  }

  ghost predicate BatchesIndistinct(r: Seat, a: Batch, b: Batch) {
    if a.Fault? || b.Fault? then a == b
    else
      && a.status == b.status && |a.items| == |b.items|
      && forall i :: 0 <= i < |a.items| ==> ItemsIndistinct(r, a.items[i], b.items[i])
  }

  /** Two duels as far as seat `r` has been shown, and as far as it will be. */
  ghost predicate DuelsIndistinct(r: Seat, a: Session, b: Session) {
    && a.listener.Versus? && a.(script := [], sent := []) == b.(script := [], sent := [])
    && Received(a.sent, r) == Received(b.sent, r)
    && |a.script| == |b.script| && forall i :: 0 <= i < |a.script| ==> BatchesIndistinct(r, a.script[i], b.script[i])
  }

  lemma HearIndistinct(l: Listener, a: DuelMessage, b: DuelMessage, r: Seat)
    requires l.Versus? && Indistinct(r, a, b)
    ensures Hear(l, a).listener.Versus? && Hear(l, a).listener == Hear(l, b).listener && Hear(l, a).verdict == Hear(l, b).verdict
    ensures Received(Hear(l, a).out, r) == Received(Hear(l, b).out, r)
  {
    hide Handle, Indistinct, Received;
    HandleIndistinct(l.h, a, b, r);
  }

  lemma {:induction false} RefreshesIndistinct(l: Listener, a: seq<Refresh>, b: seq<Refresh>, r: Seat)
    requires l.Versus? && AllIndistinct(r, a, b)
    ensures var x, y := HearRefreshes(l, a), HearRefreshes(l, b);
            x.listener.Versus? && x.listener == y.listener && Received(x.out, r) == Received(y.out, r)
    decreases |a|
  {
    hide Hear, Indistinct, Received;
    if a == [] {
    } else {
      var n := |a| - 1;
      RefreshesIndistinct(l, a[..n], b[..n], r);
      var x, y := HearRefreshes(l, a[..n]), HearRefreshes(l, b[..n]);
      assert Indistinct(r, a[n], b[n]);
      HearIndistinct(x.listener, a[n], b[n], r);
      ReceivedAppend(x.out, Hear(x.listener, a[n]).out, r);
      ReceivedAppend(y.out, Hear(y.listener, b[n]).out, r);
    }
  }

  lemma ItemIndistinct(l: Listener, a: Item, b: Item, r: Seat)
    requires l.Versus? && ItemsIndistinct(r, a, b)
    ensures var x, y := RunItem(l, a), RunItem(l, b);
            x.listener.Versus? && x.listener == y.listener && x.end == y.end && Received(x.out, r) == Received(y.out, r)
  {
    hide Hear, HearRefreshes, Indistinct, Received, AutoPassed, AllIndistinct;
    if !AutoPassed(a.msg) {
      RefreshesIndistinct(l, a.before, b.before, r);
      var x, y := HearRefreshes(l, a.before), HearRefreshes(l, b.before);
      HearIndistinct(x.listener, a.msg, b.msg, r);
      var m, n := Hear(x.listener, a.msg), Hear(y.listener, b.msg);
      ReceivedAppend(x.out, m.out, r);
      ReceivedAppend(y.out, n.out, r);
      RefreshesIndistinct(m.listener, a.after, b.after, r);
      ReceivedAppend(x.out + m.out, HearRefreshes(m.listener, a.after).out, r);
      ReceivedAppend(y.out + n.out, HearRefreshes(n.listener, b.after).out, r);
    }
  }

  lemma {:induction false} RunIndistinct(l: Listener, a: seq<Item>, b: seq<Item>, r: Seat)
    requires l.Versus? && |a| == |b| && forall i :: 0 <= i < |a| ==> ItemsIndistinct(r, a[i], b[i])
    ensures var x, y := RunItems(l, a), RunItems(l, b);
            x.listener.Versus? && x.listener == y.listener && x.end == y.end && Received(x.out, r) == Received(y.out, r)
    decreases |a|
  {
    hide RunItem, ItemsIndistinct, Received;
    if a == [] {
    } else {
      var n := |a| - 1;
      RunIndistinct(l, a[..n], b[..n], r);
      var x, y := RunItems(l, a[..n]), RunItems(l, b[..n]);
      if x.end == Done {
        ItemIndistinct(x.listener, a[n], b[n], r);
        ReceivedAppend(x.out, RunItem(x.listener, a[n]).out, r);
        ReceivedAppend(y.out, RunItem(y.listener, b[n]).out, r);
      }
    }
  }

  /**
   Over a call of `process`, from indistinct duels to indistinct duels: what the engine keeps from a seat never shows
   in what the seat receives, in when it is asked, or in whether the duel goes on.
   */
  lemma {:induction false} LoopSeesOnlyItsOwn(a: Session, b: Session, r: Seat)
    requires DuelsIndistinct(r, a, b)
    ensures DuelsIndistinct(r, Loop(a).session, Loop(b).session) && Loop(a).outcome == Loop(b).outcome
    decreases |a.script|
  {
    hide RunItems, ItemsIndistinct, Received;
    if a.script == [] {
    } else {
      assert BatchesIndistinct(r, a.script[0], b.script[0]);
      if a.script[0].Batch? {
        RunIndistinct(a.listener, a.script[0].items, b.script[0].items, r);
        var x, y := RunItems(a.listener, a.script[0].items), RunItems(b.listener, b.script[0].items);
        ReceivedAppend(a.sent, x.out, r);
        ReceivedAppend(b.sent, y.out, r);
        if x.end == Passed || (x.end == Done && a.script[0].status == ENGINE_CONTINUE) {
          LoopSeesOnlyItsOwn(a.(script := a.script[1..], listener := x.listener, sent := a.sent + x.out),
                             b.(script := b.script[1..], listener := y.listener, sent := b.sent + y.out), r);
        }
      }
    }
  }

  /** `process` once and again after every response, whatever the responses make the engine do. */
  function Responses(s: Session, n: nat): Session {
    if n == 0 then s
    else
      var t := Responses(s, n - 1);
      if t.ended then t else Loop(t).session
  }

  /** Over a whole duel, each seat receives only what it may see. */
  lemma {:induction false} DuelSeesOnlyItsOwn(a: Session, b: Session, n: nat, r: Seat)
    requires DuelsIndistinct(r, a, b)
    ensures Received(Responses(a, n).sent, r) == Received(Responses(b, n).sent, r)
    ensures DuelsIndistinct(r, Responses(a, n), Responses(b, n))
  {
    if n == 0 {
    } else {
      DuelSeesOnlyItsOwn(a, b, n - 1, r);
      if !Responses(a, n - 1).ended { LoopSeesOnlyItsOwn(Responses(a, n - 1), Responses(b, n - 1), r); }
    }
  }
}
