/**
 * The chat panel (components/AIShoppingAssistant.tsx) as an object: its
 * state variables become fields, and `handleSend` is split at its `await`
 * into the part that runs before the call and the part that runs when the
 * call settles, so that other handlers may run in between.
 */
module ShoppingAssistant {
  import opened Types
  import opened Text
  import GeminiService

  datatype Role = Bot | User

  /** One transcript turn, `{ role, text }`. */
  datatype Message = Message(role: Role, text: string)

  /** The transcript's seed turn. */
  const Greeting :=
    "Hello! I'm Nova, your "
    + "personal shopping curator. "
    + "How can I elevate your "
    + "experience today?"

  /** The bot turn appended when the awaited call throws. */
  const CircuitsMessage :=
    "I'm having trouble connecting "
    + "to my creative circuits. "
    + "Please try again."

  /** How the awaited `getShoppingAssistantResponse` call settled. */
  datatype ServiceOutcome = Returned(reply: string) | Threw

  /** The text of the bot turn for an outcome: the `try` branch or the `catch` branch. */
  function BotReply(outcome: ServiceOutcome): string
  {
    match outcome
    case Returned(reply) => reply
    case Threw => CircuitsMessage
  }

  /**
   * The shape every transcript keeps: the greeting first, then user and bot
   * turns alternating, starting with a user turn; every user turn is
   * trimmed and not empty.
   */
  predicate WellFormed(messages: seq<Message>)
  {
    && |messages| >= 1
    && messages[0] == Message(Bot, Greeting)
    && (forall i :: 1 <= i < |messages| ==> messages[i].role == (if i % 2 == 1 then User else Bot))
    && (forall i :: 1 <= i < |messages| && messages[i].role == User ==>
          messages[i].text != "" && Trim(messages[i].text) == messages[i].text)
  }

  /** The seed transcript is well formed. */
  lemma InitialTranscript()
    ensures WellFormed([Message(Bot, Greeting)])
  {
  }

  /** A trimmed non-empty user turn keeps a settled transcript (one of odd length) well formed. */
  lemma UserTurnKeepsWellFormed(messages: seq<Message>, userText: string)
    requires WellFormed(messages) && |messages| % 2 == 1
    requires userText != "" && Trim(userText) == userText
    ensures WellFormed(messages + [Message(User, userText)])
  {
    var after := messages + [Message(User, userText)];
    forall i | 1 <= i < |after|
      ensures after[i].role == (if i % 2 == 1 then User else Bot)
      ensures after[i].role == User ==> after[i].text != "" && Trim(after[i].text) == after[i].text
    {
      if i < |messages| {
        assert after[i] == messages[i];
      }
    }
  }

  /** Any bot turn keeps a waiting transcript (one of even length) well formed. */
  lemma BotTurnKeepsWellFormed(messages: seq<Message>, reply: string)
    requires WellFormed(messages) && |messages| % 2 == 0
    ensures WellFormed(messages + [Message(Bot, reply)])
  {
    var after := messages + [Message(Bot, reply)];
    forall i | 1 <= i < |after|
      ensures after[i].role == (if i % 2 == 1 then User else Bot)
      ensures after[i].role == User ==> after[i].text != "" && Trim(after[i].text) == after[i].text
    {
      if i < |messages| {
        assert after[i] == messages[i];
      }
    }
  }

  /**
   * A completed exchange, a trimmed non-empty user turn followed by any bot
   * turn, keeps a settled transcript well formed and settled.
   */
  lemma ExchangeKeepsWellFormed(messages: seq<Message>, userText: string, reply: string)
    requires WellFormed(messages) && |messages| % 2 == 1
    requires userText != "" && Trim(userText) == userText
    ensures WellFormed(messages + [Message(User, userText), Message(Bot, reply)])
    ensures |messages + [Message(User, userText), Message(Bot, reply)]| % 2 == 1
  {
    UserTurnKeepsWellFormed(messages, userText);
    BotTurnKeepsWellFormed(messages + [Message(User, userText)], reply);
    assert messages + [Message(User, userText)] + [Message(Bot, reply)]
      == messages + [Message(User, userText), Message(Bot, reply)];
  }

  /** The user text a send takes from the input: its trimmed value, and it is never white space. */
  lemma SentTextIsTrimmed(input: string)
    requires Trim(input) != ""
    ensures Trim(Trim(input)) == Trim(input)
    ensures exists k :: 0 <= k < |input| && !IsWhiteSpace(input[k])
  {
    TrimIdempotent(input);
  }

  class AssistantPanel {
    var isOpen: bool
    var input: string
    var messages: seq<Message>
    var isLoading: bool

    /** The panel is waiting on a reply exactly when its last turn is a user turn. */
    ghost predicate Valid()
      reads this
    {
      WellFormed(messages) && (isLoading <==> |messages| % 2 == 0)
    }

    /** The initial state: closed, empty input, the greeting alone, not loading. */
    constructor()
      ensures Valid()
      ensures !isOpen && input == "" && messages == [Message(Bot, Greeting)] && !isLoading
    {
      isOpen := false;
      input := "";
      messages := [Message(Bot, Greeting)];
      isLoading := false;
    }

    /** The input's `onChange`, `setInput(e.target.value)`. */
    method SetInput(value: string)
      modifies this
      ensures input == value
      ensures unchanged(this`isOpen, this`messages, this`isLoading)
    {
      input := value;
    }

    /** The floating "Ask Nova" button, `setIsOpen(true)`. */
    method Open()
      modifies this
      ensures isOpen
      ensures unchanged(this`input, this`messages, this`isLoading)
    {
      isOpen := true;
    }

    /** The header's close button, `setIsOpen(false)`. */
    method Close()
      modifies this
      ensures !isOpen
      ensures unchanged(this`input, this`messages, this`isLoading)
    {
      isOpen := false;
    }

    /** The send button's `disabled={isLoading}`. */
    predicate SendDisabled()
      reads this
    {
      isLoading
    }

    /**
     * `handleSend` up to the `await`: with blank input or a request in
     * flight nothing happens; otherwise the trimmed input becomes a user
     * turn, the input is cleared and the panel starts loading. The accepted
     * text is returned, to be sent to the service.
     */
    method BeginSend() returns (userMsg: Option<string>)
      requires Valid()
      modifies this
      ensures Valid()
      ensures userMsg.None? <==> Trim(old(input)) == "" || old(isLoading)
      ensures userMsg.None? ==> unchanged(this)
      ensures userMsg.Some? ==>
        && userMsg.value == Trim(old(input))
        && input == ""
        && messages == old(messages) + [Message(User, userMsg.value)]
        && isLoading
        && isOpen == old(isOpen)
      ensures userMsg.Some? ==> SendDisabled()
    {
      var trimmed := Trim(input);
      if trimmed == "" || isLoading {
        return None;
      }
      TrimIdempotent(input);
      UserTurnKeepsWellFormed(messages, trimmed);
      input := "";
      messages := messages + [Message(User, trimmed)];
      isLoading := true;
      userMsg := Some(trimmed);
    }

    /**
     * `handleSend` after the `await`: exactly one bot turn, with the reply
     * or the creative-circuits message, and then `finally` clears the
     * loading flag. Whatever was typed meanwhile stays in the input.
     */
    method CompleteSend(outcome: ServiceOutcome)
      requires Valid() && isLoading
      modifies this
      ensures Valid()
      ensures messages == old(messages) + [Message(Bot, BotReply(outcome))]
      ensures !isLoading && !SendDisabled()
      ensures unchanged(this`input, this`isOpen)
    {
      BotTurnKeepsWellFormed(messages, BotReply(outcome));
      messages := messages + [Message(Bot, BotReply(outcome))];
      isLoading := false;
    }

    /**
     * `handleSend` after an accepted send: the awaited call to the service
     * of geminiService.ts, which never throws, and its reply as the bot turn.
     */
    method AwaitReply(userText: string, apiKey: string, cartItems: seq<CartItem>, remote: GeminiService.RemoteOutcome)
      returns (request: Option<GeminiService.GenerateRequest>)
      requires Valid() && isLoading
      modifies this
      ensures Valid()
      ensures messages == old(messages) + [Message(Bot, GeminiService.GetShoppingAssistantResponse(apiKey, userText, cartItems, remote).reply)]
      ensures request == GeminiService.GetShoppingAssistantResponse(apiKey, userText, cartItems, remote).request
      ensures !isLoading
      ensures unchanged(this`input, this`isOpen)
    {
      var result := GeminiService.GetShoppingAssistantResponse(apiKey, userText, cartItems, remote);
      CompleteSend(Returned(result.reply));
      request := result.request;
    }

    /**
     * `handleSend` from start to end: an accepted send grows the transcript
     * by exactly the user turn and the service's reply, and returns the
     * request that went out, if any; a rejected one changes nothing.
     */
    method HandleSend(apiKey: string, cartItems: seq<CartItem>, remote: GeminiService.RemoteOutcome)
      returns (request: Option<GeminiService.GenerateRequest>)
      requires Valid()
      modifies this
      ensures Valid()
      ensures Trim(old(input)) == "" || old(isLoading) ==> unchanged(this) && request.None?
      ensures Trim(old(input)) != "" && !old(isLoading) ==>
        var userText := Trim(old(input));
        var result := GeminiService.GetShoppingAssistantResponse(apiKey, userText, cartItems, remote);
        && messages == old(messages) + [Message(User, userText), Message(Bot, result.reply)]
        && request == result.request
        && input == "" && !isLoading && isOpen == old(isOpen)
    {
      var userMsg := BeginSend();
      if userMsg.None? {
        return None;
      }
      assert userMsg.value == Trim(old(input));
      request := AwaitReply(userMsg.value, apiKey, cartItems, remote);
      assert messages == old(messages) + [Message(User, userMsg.value)] + [messages[|messages| - 1]];
      assert messages == old(messages) + [Message(User, userMsg.value), messages[|messages| - 1]];
    }
  }
}
