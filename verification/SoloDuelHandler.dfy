/**
 `server/SoloDuelHandler.java`: one human in seat 0, and an opponent in seat 1 that answers by itself.
 The answer is kept until the batch of messages is done, so that it never reaches a running engine.
 */
module SoloDuelHandlers {
  import opened Wrappers
  import opened DuelMessages
  import opened MessageSanitizer

  type Response = nat

  const MAX_AI_RETRIES: nat := 3
  const HUMAN_PLAYER: Seat := 0

  /** What the opponent answers to a prompt, and what it answers after a rejection; none if it cannot. */
  datatype Ai = Ai(answer: DuelMessage -> Option<Response>, fallback: DuelMessage -> Option<Response>)

  datatype SoloState = SoloState(lastPrompt: Option<DuelMessage>, lastPromptTarget: int, retryCount: nat, winSent: bool,
                                 pendingAutoResponse: Option<Response>)

  const FRESH := SoloState(None, -1, 0, false, None)

  datatype SoloHandled = SoloHandled(state: SoloState, out: seq<Delivery>, verdict: Verdict)

  function ToHuman(msg: DuelMessage): seq<Delivery> { [Delivery(HUMAN_PLAYER, Message(ForRecipient(msg, HUMAN_PLAYER)))] }

  /** A prompt the opponent cannot answer is handed over as it is. */
  function HandedOver(prompt: DuelMessage): seq<Delivery> { [Delivery(HUMAN_PLAYER, Message(prompt))] }

  function RoutePrompt(ai: Ai, s: SoloState, msg: DuelMessage): SoloHandled
    requires msg.IsPrompt()
  {
    var t := s.(lastPrompt := Some(msg), lastPromptTarget := msg.player, retryCount := 0);
    if msg.player == 0 then SoloHandled(t, ToHuman(msg), AWAIT_RESPONSE)
    else
      match ai.answer(msg)
      case Some(response) => SoloHandled(t.(pendingAutoResponse := Some(response)), ToHuman(Waiting), AWAIT_RESPONSE)
      case None => SoloHandled(t.(lastPromptTarget := 0), HandedOver(msg), AWAIT_RESPONSE)
  }

  function HandleRetry(ai: Ai, s: SoloState): SoloHandled {
    if s.lastPromptTarget != 1 || s.lastPrompt.None? then SoloHandled(s, ToHuman(Retry), AWAIT_RESPONSE)
    else
      var t := s.(retryCount := s.retryCount + 1);
      var response := ai.fallback(s.lastPrompt.value);
      if t.retryCount > MAX_AI_RETRIES || response.None? then
        SoloHandled(t.(lastPromptTarget := 0), HandedOver(s.lastPrompt.value), AWAIT_RESPONSE)
      else SoloHandled(t.(pendingAutoResponse := response), [], AWAIT_RESPONSE)
  }

  function HandleSolo(ai: Ai, s: SoloState, msg: DuelMessage): SoloHandled {
    if msg.Retry? then HandleRetry(ai, s)
    else if msg.Win? then
      SoloHandled(s.(winSent := true), [Delivery(HUMAN_PLAYER, DuelEnd(msg.winner, msg.reason))], DUEL_ENDED)
    else if msg.IsPrompt() then RoutePrompt(ai, s, msg)
    else SoloHandled(s, if RecipientsOf(msg).Includes(HUMAN_PLAYER) then ToHuman(msg) else [], CONTINUE)
  }

  class SoloDuelHandler {
    const ai: Ai
    const wire: Wire
    var pendingAutoResponse: Option<Response>
    var lastPrompt: Option<DuelMessage>
    var lastPromptTarget: int
    var retryCount: nat
    var winSent: bool

    ghost function State(): SoloState
      reads this
    {
      SoloState(lastPrompt, lastPromptTarget, retryCount, winSent, pendingAutoResponse)
    }

    constructor (ai: Ai, wire: Wire)
      ensures this.ai == ai && this.wire == wire && State() == FRESH
    {
      this.ai, this.wire := ai, wire;
      pendingAutoResponse, lastPrompt, lastPromptTarget, retryCount, winSent := None, None, -1, 0, false;
    }

    predicate AcceptsResponseFrom(seat: int)
      reads this
    {
      seat >= 0 && seat == lastPromptTarget
    }

    method OnMessage(msg: DuelMessage) returns (verdict: Verdict)
      modifies this, wire
      ensures wire.sent == old(wire.sent) + HandleSolo(ai, old(State()), msg).out
      ensures State() == HandleSolo(ai, old(State()), msg).state && verdict == HandleSolo(ai, old(State()), msg).verdict
    {
      if msg.Retry? {
        verdict := OnRetry(msg);
      } else if msg.Win? {
        wire.Send(HUMAN_PLAYER, DuelEnd(msg.winner, msg.reason));
        winSent := true;
        verdict := DUEL_ENDED;
      } else if msg.IsPrompt() {
        verdict := OnPrompt(msg.player, msg);
      } else {
        if RecipientsOf(msg).Includes(HUMAN_PLAYER) { SendToPlayer(msg); }
        verdict := CONTINUE;
      }
    }

    method OnPrompt(targetPlayer: Seat, msg: DuelMessage) returns (verdict: Verdict)
      requires msg.IsPrompt() && targetPlayer == msg.player
      modifies this, wire
      ensures wire.sent == old(wire.sent) + RoutePrompt(ai, old(State()), msg).out
      ensures State() == RoutePrompt(ai, old(State()), msg).state && verdict == AWAIT_RESPONSE
    {
      lastPrompt := Some(msg);
      lastPromptTarget := targetPlayer;
      retryCount := 0;
      if targetPlayer == 0 {
        SendToPlayer(msg);
      } else {
        var response := ai.answer(msg);
        if response.Some? {
          SendToPlayer(Waiting);
          pendingAutoResponse := response;
        } else {
          wire.Send(HUMAN_PLAYER, Message(msg));
          lastPromptTarget := 0;
        }
      }
      verdict := AWAIT_RESPONSE;
    }

    method OnRetry(retryMsg: DuelMessage) returns (verdict: Verdict)
      requires retryMsg.Retry?
      modifies this, wire
      ensures wire.sent == old(wire.sent) + HandleRetry(ai, old(State())).out
      ensures State() == HandleRetry(ai, old(State())).state && verdict == AWAIT_RESPONSE
    {
      verdict := AWAIT_RESPONSE;
      if lastPromptTarget != 1 || lastPrompt.None? {
        SendToPlayer(retryMsg);
        return;
      }
      retryCount := retryCount + 1;
      if retryCount > MAX_AI_RETRIES {
        wire.Send(HUMAN_PLAYER, Message(lastPrompt.value));
        lastPromptTarget := 0;
        return;
      }
      var response := ai.fallback(lastPrompt.value);
      if response.None? {
        wire.Send(HUMAN_PLAYER, Message(lastPrompt.value));
        lastPromptTarget := 0;
        return;
      }
      pendingAutoResponse := response;
    }

    method ConsumePendingAutoResponse() returns (response: Option<Response>)
      modifies this`pendingAutoResponse
      ensures response == old(pendingAutoResponse) && pendingAutoResponse.None?
    {
      response := pendingAutoResponse;
      pendingAutoResponse := None;
    }

    method SendToPlayer(msg: DuelMessage)
      modifies wire
      ensures wire.sent == old(wire.sent) + ToHuman(msg)
    {
      wire.Send(HUMAN_PLAYER, Message(ForRecipient(msg, HUMAN_PLAYER)));
    }
  }

  // ----- What reaches the human -----

  /**
   The human receives every result, its own prompts and the broadcasts meant for its seat as it may see them, and a wait
   while the opponent thinks; a prompt the opponent cannot answer is handed over as it is.  Nothing is sent to anyone else.
   */
  lemma HandleSoloReaches(ai: Ai, s: SoloState, msg: DuelMessage)
    ensures forall d <- HandleSolo(ai, s, msg).out :: d.seat == HUMAN_PLAYER
    ensures msg.Win? ==> HandleSolo(ai, s, msg).out == [Delivery(HUMAN_PLAYER, DuelEnd(msg.winner, msg.reason))]
    ensures msg.IsPrompt() ==>
              HandleSolo(ai, s, msg).out == [Delivery(HUMAN_PLAYER, Message(if msg.player == HUMAN_PLAYER then ForRecipient(msg, HUMAN_PLAYER)
                                                                            else if ai.answer(msg).Some? then Waiting else msg))]
    ensures !msg.Retry? && !msg.Win? && !msg.IsPrompt() ==>
              HandleSolo(ai, s, msg).out ==
                if MeantFor(HUMAN_PLAYER, msg) then [Delivery(HUMAN_PLAYER, Message(ForRecipient(msg, HUMAN_PLAYER)))] else []
  {
    RecipientsExact(msg, HUMAN_PLAYER);
    WaitingIsPublic();
    hide RecipientsOf, ForRecipient, MeantFor;
  }

  lemma WaitingIsPublic()
    ensures ForRecipient(Waiting, HUMAN_PLAYER) == Waiting && !Waiting.IsPrompt()
  {
  }

  // ----- The opponent never wedges the duel -----

  /** The state after the opponent's answer to a prompt was rejected `n` times, each answer taken before the next. */
  function Rejected(ai: Ai, s: SoloState, n: nat): SoloState {
    if n == 0 then s else HandleRetry(ai, Rejected(ai, s, n - 1).(pendingAutoResponse := None)).state
  }

  /** Either the opponent has another of its three answers pending, or the human holds the prompt. */
  predicate Held(t: SoloState, msg: DuelMessage, n: nat) {
    && t.lastPrompt == Some(msg) && (t.lastPromptTarget == 1 || t.lastPromptTarget == 0)
    && (t.lastPromptTarget == 1 ==> t.retryCount == n <= MAX_AI_RETRIES && t.pendingAutoResponse.Some?)
    && (n > MAX_AI_RETRIES ==> t.lastPromptTarget == 0)
    && (t.lastPromptTarget == 0 ==> t.pendingAutoResponse.None?)
  }

  lemma RetryHeld(ai: Ai, t: SoloState, msg: DuelMessage, n: nat)
    requires Held(t, msg, n)
    ensures Held(HandleRetry(ai, t.(pendingAutoResponse := None)).state, msg, n + 1)
  {
    hide ForRecipient;
  }

  /**
   However often the opponent's answers are rejected, either it is its turn to answer again, at most three times,
   or the human holds the prompt and is the one whose response is accepted.
   */
  lemma {:induction false} RetriesEndWithHuman(ai: Ai, s: SoloState, msg: DuelMessage, n: nat)
    requires msg.IsPrompt() && msg.player == 1 && ai.answer(msg).Some?
    ensures Held(Rejected(ai, RoutePrompt(ai, s, msg).state, n), msg, n)
  {
    hide ForRecipient, HandleRetry;
    if n == 0 {
    } else {
      RetriesEndWithHuman(ai, s, msg, n - 1);
      RetryHeld(ai, Rejected(ai, RoutePrompt(ai, s, msg).state, n - 1), msg, n - 1);
    }
  }
}
