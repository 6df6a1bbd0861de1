/**
 `server/ServerDuelHandler.java`: prompts to the player who must answer, everything else to whom the
 policy allows, each recipient its own copy.
 */
module ServerDuelHandlers {
  import opened DuelMessages
  import opened MessageSanitizer

  /** Whose answer is awaited; -1 before the first prompt. */
  type Pending = p: int | -1 <= p < 2

  datatype HandlerState = HandlerState(pendingPlayer: Pending, winSent: bool)

  function Copy(r: Seat, msg: DuelMessage): Delivery { Delivery(r, Message(ForRecipient(msg, r))) }

  function Prompted(player: Seat, msg: DuelMessage): seq<Delivery> { [Copy(player, msg), Copy(1 - player, Waiting)] }

  function Broadcasted(msg: DuelMessage): seq<Delivery> {
    (if RecipientsOf(msg).Includes(0) then [Copy(0, msg)] else []) + (if RecipientsOf(msg).Includes(1) then [Copy(1, msg)] else [])
  }

  datatype Handled = Handled(state: HandlerState, out: seq<Delivery>, verdict: Verdict)

  function Handle(h: HandlerState, msg: DuelMessage): (r: Handled)
  {
    if msg.Retry? then
      Handled(h, if h.pendingPlayer >= 0 then Prompted(h.pendingPlayer, msg) else [], AWAIT_RESPONSE)
    else if msg.Win? then
      var payload := DuelEnd(msg.winner, msg.reason);
      Handled(h.(winSent := true), [Delivery(0, payload), Delivery(1, payload)], DUEL_ENDED)
    else if msg.IsPrompt() then
      Handled(h.(pendingPlayer := msg.player), Prompted(msg.player, msg), AWAIT_RESPONSE)
    else
      Handled(h, Broadcasted(msg), CONTINUE)
  }

  class ServerDuelHandler {
    var pendingPlayer: Pending
    var winSent: bool
    const wire: Wire

    ghost function State(): HandlerState
      reads this
    {
      HandlerState(pendingPlayer, winSent)
    }

    constructor (wire: Wire)
      ensures this.wire == wire && State() == HandlerState(-1, false)
    {
      this.wire := wire;
      pendingPlayer, winSent := -1, false;
    }

    predicate AcceptsResponseFrom(seat: int)
      reads this
    {
      seat >= 0 && seat == pendingPlayer
    }

    method OnMessage(msg: DuelMessage) returns (verdict: Verdict)
      modifies this, wire
      ensures wire.sent == old(wire.sent) + Handle(old(State()), msg).out
      ensures State() == Handle(old(State()), msg).state && verdict == Handle(old(State()), msg).verdict
    {
      if msg.Retry? {
        if pendingPlayer >= 0 { SendToPlayer(pendingPlayer, msg); }
        verdict := AWAIT_RESPONSE;
      } else if msg.Win? {
        var payload := DuelEnd(msg.winner, msg.reason);
        wire.Send(0, payload);
        wire.Send(1, payload);
        winSent := true;
        verdict := DUEL_ENDED;
      } else if msg.IsPrompt() {
        SendToPlayer(msg.player, msg);
        verdict := AWAIT_RESPONSE;
      } else {
        Broadcast(msg);
        verdict := CONTINUE;
      }
    }

    method SendToPlayer(playerIndex: Seat, msg: DuelMessage)
      modifies this`pendingPlayer, wire
      ensures pendingPlayer == playerIndex && wire.sent == old(wire.sent) + Prompted(playerIndex, msg)
    {
      pendingPlayer := playerIndex;
      wire.Send(playerIndex, Message(ForRecipient(msg, playerIndex)));
      wire.Send(1 - playerIndex, Message(ForRecipient(Waiting, 1 - playerIndex)));
    }

    method Broadcast(msg: DuelMessage)
      modifies wire
      ensures wire.sent == old(wire.sent) + Broadcasted(msg)
    {
      var recipients := RecipientsOf(msg);
      var playerIndex := 0;
      while playerIndex < 2
        invariant 0 <= playerIndex <= 2
        invariant wire.sent == old(wire.sent)
                    + (if playerIndex > 0 && RecipientsOf(msg).Includes(0) then [Copy(0, msg)] else [])
                    + (if playerIndex > 1 && RecipientsOf(msg).Includes(1) then [Copy(1, msg)] else [])
      {
        if recipients.Includes(playerIndex) { wire.Send(playerIndex, Message(ForRecipient(msg, playerIndex))); }
        playerIndex := playerIndex + 1;
      }
    }
  }

  // ----- What a seat can tell about the engine -----

  /**
   Two engine messages that are one and the same to seat `r`: the same prompt to somebody else, whatever it
   offers; the same broadcast that does not reach it, whatever it says; otherwise messages alike to it.
   */
  ghost predicate Indistinct(r: Seat, a: DuelMessage, b: DuelMessage) {
    if a.IsPrompt() || b.IsPrompt() then
      a.IsPrompt() && b.IsPrompt() && a.player == b.player && (a.player == r ==> Alike(r, a, b))
    else if a.Retry? || a.Win? || b.Retry? || b.Win? then a == b
    else
      (MeantFor(r, a) <==> MeantFor(r, b)) && (MeantFor(r, a) ==> Alike(r, a, b))
  }

  /** The whole run of a handler over the messages it is given. */
  function HandleAll(h: HandlerState, msgs: seq<DuelMessage>): (r: Handled)
  {
    if msgs == [] then Handled(h, [], CONTINUE)
    else
      var before := HandleAll(h, msgs[..|msgs| - 1]);
      var last := Handle(before.state, msgs[|msgs| - 1]);
      Handled(last.state, before.out + last.out, last.verdict)
  }

  lemma ReceivedOne(d: Delivery, r: Seat)
    ensures Received([d], r) == if d.seat == r then [d.payload] else []
  {
    assert [d][..0] == [];
  }

  lemma ReceivedTwo(d: Delivery, e: Delivery, r: Seat)
    ensures Received([d, e], r) == (if d.seat == r then [d.payload] else []) + (if e.seat == r then [e.payload] else [])
  {
    assert [d, e][..1] == [d];
    ReceivedOne(d, r);
  }

  lemma ReceivedBroadcast(msg: DuelMessage, r: Seat)
    ensures Received(Broadcasted(msg), r) == if MeantFor(r, msg) then [Message(ForRecipient(msg, r))] else []
  {
    RecipientsExact(msg, r);
    hide RecipientsOf, ForRecipient, MeantFor;
    var a := if RecipientsOf(msg).Includes(0) then [Copy(0, msg)] else [];
    var b := if RecipientsOf(msg).Includes(1) then [Copy(1, msg)] else [];
    ReceivedAppend(a, b, r);
    ReceivedOne(Copy(0, msg), r);
    ReceivedOne(Copy(1, msg), r);
    assert Received([], r) == [];
  }

  /** Seat by seat: a prompt reaches its player, a result both, and a broadcast those it is meant for and nobody else. */
  lemma HandleReaches(h: HandlerState, msg: DuelMessage, r: Seat)
    ensures Received(Handle(h, msg).out, r) ==
              if msg.Retry? then (if h.pendingPlayer < 0 then [] else [Message(if h.pendingPlayer == r then Retry else Waiting)])
              else if msg.Win? then [DuelEnd(msg.winner, msg.reason)]
              else if msg.IsPrompt() then [Message(if msg.player == r then ForRecipient(msg, r) else Waiting)]
              else if MeantFor(r, msg) then [Message(ForRecipient(msg, r))] else []
  {
    hide Received, MeantFor, RecipientsOf;
    if msg.Retry? {
      if h.pendingPlayer >= 0 { ReceivedTwo(Copy(h.pendingPlayer, msg), Copy(1 - h.pendingPlayer, Waiting), r); }
      else { assert Received([], r) == [] by { ReceivedNone(r); } }
    } else if msg.Win? {
      ReceivedTwo(Delivery(0, DuelEnd(msg.winner, msg.reason)), Delivery(1, DuelEnd(msg.winner, msg.reason)), r);
    } else if msg.IsPrompt() {
      ReceivedTwo(Copy(msg.player, msg), Copy(1 - msg.player, Waiting), r);
    } else {
      ReceivedBroadcast(msg, r);
    }
  }

  lemma ReceivedNone(r: Seat)
    ensures Received([], r) == []
  {
  }

  /** One message: the handler's own state and everything the seat receives are the same. */
  lemma HandleIndistinct(h: HandlerState, a: DuelMessage, b: DuelMessage, r: Seat)
    requires Indistinct(r, a, b)
    ensures var x, y := Handle(h, a), Handle(h, b);
            x.state == y.state && x.verdict == y.verdict && Received(x.out, r) == Received(y.out, r)
  {
    hide RecipientsOf, ForRecipient, Alike, Received, MeantFor;
    if a.IsPrompt() {
      ReceivedTwo(Copy(a.player, a), Copy(1 - a.player, Waiting), r);
      ReceivedTwo(Copy(b.player, b), Copy(1 - b.player, Waiting), r);
      if a.player == r { ForRecipientExact(a, b, r); }
    } else if !a.Retry? && !a.Win? {
      ReceivedBroadcast(a, r);
      ReceivedBroadcast(b, r);
      if MeantFor(r, a) { ForRecipientExact(a, b, r); }
    }
  }

  /**
   Whatever the engine reports, a seat receives a function of what it may see: runs that differ only in what is
   kept from it give it the same payloads, through prompts, retries and broadcasts alike.
   */
  lemma {:induction false} SeatSeesOnlyItsOwn(h: HandlerState, a: seq<DuelMessage>, b: seq<DuelMessage>, r: Seat)
    requires |a| == |b|
    requires forall i :: 0 <= i < |a| ==> Indistinct(r, a[i], b[i])
    ensures HandleAll(h, a).state == HandleAll(h, b).state && HandleAll(h, a).verdict == HandleAll(h, b).verdict
    ensures Received(HandleAll(h, a).out, r) == Received(HandleAll(h, b).out, r)
    decreases |a|
  {
    hide Handle, Indistinct, Received;
    if a == [] {
    } else {
      var n := |a| - 1;
      SeatSeesOnlyItsOwn(h, a[..n], b[..n], r);
      var x, y := HandleAll(h, a[..n]), HandleAll(h, b[..n]);
      HandleIndistinct(x.state, a[n], b[n], r);
      ReceivedAppend(x.out, Handle(x.state, a[n]).out, r);
      ReceivedAppend(y.out, Handle(y.state, b[n]).out, r);
    }
  }

  lemma PromptStaysPrompt(a: DuelMessage, r: Seat)
    requires a.IsPrompt()
    ensures ForRecipient(a, r).IsPrompt() && ForRecipient(Waiting, r) == Waiting && !Waiting.IsPrompt()
  {
  }

  /** Conversely, of two prompts, two broadcasts or two results a seat can tell apart any that are not indistinct to it. */
  lemma DistinctIsSeen(h: HandlerState, a: DuelMessage, b: DuelMessage, r: Seat)
    requires (a.IsPrompt() <==> b.IsPrompt()) && (a.Retry? <==> b.Retry?) && (a.Win? <==> b.Win?)
    requires Received(Handle(h, a).out, r) == Received(Handle(h, b).out, r)
    ensures Indistinct(r, a, b)
  {
    hide RecipientsOf, ForRecipient, Alike, Received, MeantFor;
    if a.IsPrompt() {
      ReceivedTwo(Copy(a.player, a), Copy(1 - a.player, Waiting), r);
      ReceivedTwo(Copy(b.player, b), Copy(1 - b.player, Waiting), r);
      PromptStaysPrompt(a, r);
      PromptStaysPrompt(b, r);
      assert Received(Handle(h, a).out, r) == [Message(if a.player == r then ForRecipient(a, r) else Waiting)];
      assert Received(Handle(h, b).out, r) == [Message(if b.player == r then ForRecipient(b, r) else Waiting)];
      if a.player == r { ForRecipientExact(a, b, r); }
    } else if a.Win? {
      ReceivedTwo(Delivery(0, DuelEnd(a.winner, a.reason)), Delivery(1, DuelEnd(a.winner, a.reason)), r);
      ReceivedTwo(Delivery(0, DuelEnd(b.winner, b.reason)), Delivery(1, DuelEnd(b.winner, b.reason)), r);
      assert Received(Handle(h, a).out, r)[0] == DuelEnd(a.winner, a.reason) && Received(Handle(h, b).out, r)[0] == DuelEnd(b.winner, b.reason);
    } else if !a.Retry? {
      ReceivedBroadcast(a, r);
      ReceivedBroadcast(b, r);
      if MeantFor(r, a) && MeantFor(r, b) {
        assert [Message(ForRecipient(a, r))][0] == [Message(ForRecipient(b, r))][0];
        ForRecipientExact(a, b, r);
      }
    }
  }
}
