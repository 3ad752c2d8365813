/** The conversation session of `TherapyChatbotView`: the turn list, the text
    input and the in-flight flag, and the send operation that drives them.
    The send is split at the `await` on the completion call inside the `Task`
    that `sendMessage` starts: `Submit` is the synchronous part, `Complete`
    the continuation that runs once the reply (or the error) is in. */
module TherapyChatbot {
  import opened Wrappers
  import opened ChatMessages
  import LLMService

  const Greeting := "Hi! I'm here to help. How are you feeling today?"
  const ApologyPrefix := "I'm sorry, something went wrong: "

  /** The text of the turn shown when the completion failed: the fixed
      apology followed by the error's description. */
  function Apology(description: string): (text: string)
    ensures |text| == |ApologyPrefix| + |description|
    ensures text[..|ApologyPrefix|] == ApologyPrefix
    ensures text[|ApologyPrefix|..] == description
  {
    ApologyPrefix + description
  }

  /** The text of the Bot turn that a completion adds. */
  function ReplyText(reply: Result<string, LLMService.Error>, errorDescription: string): (text: string)
    ensures reply.Success? ==> text == reply.value
    ensures reply.Failure? ==> text == Apology(errorDescription)
  {
    match reply
    case Success(response) => response
    case Failure(_) => Apology(errorDescription)
  }

  /** Who speaks at position `i` of a well-run conversation: the greeting
      and every reply are the Bot's, every turn in between is the User's. */
  function SenderAt(i: nat): (sender: string)
    ensures sender == "Bot" <==> i % 2 == 0
    ensures sender == "Bot" || sender == "User"
  {
    if i % 2 == 0 then "Bot" else "User"
  }

  predicate Alternates(messages: seq<ChatMessage>) {
    forall i :: 0 <= i < |messages| ==> messages[i].sender == SenderAt(i)
  }

  /** Ids grow along the list and stay below the next id to hand out, so no
      two turns share one. */
  predicate IdsBelow(messages: seq<ChatMessage>, nextId: nat) {
    (forall i, j :: 0 <= i < j < |messages| ==> messages[i].id < messages[j].id) &&
    (forall i :: 0 <= i < |messages| ==> messages[i].id < nextId)
  }

  /** The request sent from an alternating history alternates
      assistant/user, starts with the assistant's greeting, and, when the
      history ends with a User turn, ends with a user entry carrying that
      turn's text. */
  lemma {:induction false} AlternatingRequest(messages: seq<ChatMessage>)
    requires Alternates(messages)
    ensures forall i :: 0 <= i < |messages| ==>
      LLMService.FormatMessages(messages)[i].role == (if i % 2 == 0 then "assistant" else "user")
    ensures |messages| % 2 == 0 && messages != [] ==>
      LLMService.FormatMessages(messages)[|messages| - 1] ==
        LLMService.FormattedMessage("user", messages[|messages| - 1].content)
  {
    var formatted := LLMService.FormatMessages(messages);
    forall i | 0 <= i < |messages|
      ensures formatted[i].role == (if i % 2 == 0 then "assistant" else "user")
    {
      assert formatted[i] == LLMService.Format(messages[i]);
      assert messages[i].sender == SenderAt(i);
      if i % 2 == 0 {
        assert messages[i].sender == "Bot";
      } else {
        assert messages[i].sender == "User";
      }
    }
    if |messages| % 2 == 0 && messages != [] {
      var last := |messages| - 1;
      assert last % 2 == 1;
      assert messages[last].sender == SenderAt(last) == "User";
      assert formatted[last] == LLMService.Format(messages[last]);
    }
  }

  /** `@State messages`, `userInput` and `isSending`, plus the counter that
      stands in for `UUID()` and, for the proofs only, the number of sends
      that have completed. */
  class Session {
    var messages: seq<ChatMessage>
    var userInput: string
    var isSending: bool
    var nextId: nat
    ghost var completed: nat

    /** The session invariant: the greeting comes first, turns alternate
        Bot/User, every completed send added two turns and a send in flight
        one more, and ids are unique. */
    ghost predicate Valid()
      reads this
    {
      |messages| == 1 + 2 * completed + (if isSending then 1 else 0) &&
      messages[0].sender == "Bot" && messages[0].content == Greeting &&
      Alternates(messages) &&
      IdsBelow(messages, nextId)
    }

    /** The send button is enabled only with some input and no send in
        flight; in a valid session that means the user is to speak next: the
        last turn is the Bot's and every send so far has completed. */
    function SendEnabled(): (enabled: bool)
      reads this
      ensures enabled <==> userInput != "" && !isSending
      ensures enabled && Valid() ==>
        |messages| == 1 + 2 * completed && messages[|messages| - 1].sender == "Bot"
    {
      userInput != "" && !isSending
    }

    /** The initial state: the greeting alone, no input, nothing in flight. */
    constructor ()
      ensures Valid()
      ensures messages == [ChatMessage(0, "Bot", Greeting)]
      ensures userInput == "" && !isSending && nextId == 1 && completed == 0
    {
      messages := [ChatMessage(0, "Bot", Greeting)];
      userInput := "";
      isSending := false;
      nextId := 1;
      completed := 0;
    }

    /** Typing into the text field, or tapping a quick suggestion, replaces
        the input and nothing else. */
    method SetInput(text: string)
      requires Valid()
      modifies this
      ensures Valid()
      ensures userInput == text
      ensures messages == old(messages) && isSending == old(isSending)
      ensures nextId == old(nextId) && completed == old(completed)
    {
      userInput := text;
    }

    /** The synchronous part of `sendMessage`. Empty input changes nothing;
        otherwise one User turn with the input is appended, the input is
        cleared and the flag raised, and the history to hand to the
        completion client is returned. */
    method Submit() returns (history: Option<seq<ChatMessage>>)
      requires Valid() && !isSending
      modifies this
      ensures Valid()
      ensures history.Some? <==> old(SendEnabled())
      ensures old(userInput) == "" ==>
        (history == None &&
         messages == old(messages) && userInput == old(userInput) && isSending == old(isSending) &&
         nextId == old(nextId) && completed == old(completed))
      ensures old(userInput) != "" ==>
        (messages == old(messages) + [ChatMessage(old(nextId), "User", old(userInput))] &&
         userInput == "" && isSending &&
         nextId == old(nextId) + 1 && completed == old(completed) &&
         history == Some(messages))
    {
      if userInput == "" {
        return None;
      }
      var currentInput := userInput;
      messages := messages + [ChatMessage(nextId, "User", currentInput)];
      nextId := nextId + 1;
      userInput := "";
      isSending := true;
      history := Some(messages);
    }

    /** The continuation of `sendMessage`: exactly one Bot turn, holding the
        reply or the apology with the error's description, and the flag is
        lowered whatever the outcome. */
    method Complete(reply: Result<string, LLMService.Error>, errorDescription: string)
      requires Valid() && isSending
      modifies this
      ensures Valid()
      ensures messages == old(messages) + [ChatMessage(old(nextId), "Bot", ReplyText(reply, errorDescription))]
      ensures !isSending && userInput == old(userInput)
      ensures nextId == old(nextId) + 1 && completed == old(completed) + 1
    {
      var text := ReplyText(reply, errorDescription);
      messages := messages + [ChatMessage(nextId, "Bot", text)];
      nextId := nextId + 1;
      isSending := false;
      completed := completed + 1;
    }
  }

  /** One whole `sendMessage` with nothing interleaved: submit, ask the
      completion client with the history that now ends with the user's turn,
      and record its answer. Non-empty input adds exactly a User turn and a
      Bot turn and leaves the session idle again. */
  method SendMessage(session: Session, apiKey: string, exchange: LLMService.Exchange, errorDescription: string)
    returns (request: Option<LLMService.URLRequest>)
    requires session.Valid() && !session.isSending
    modifies session
    ensures session.Valid() && !session.isSending
    ensures request.Some? <==> old(session.SendEnabled())
    ensures old(session.userInput) == "" ==>
      (request == None && session.messages == old(session.messages) &&
       session.userInput == old(session.userInput) && session.completed == old(session.completed))
    ensures old(session.userInput) != "" ==>
      (request.Some? &&
      request.value.httpBody.Some? &&
      request.value.httpBody.value.messages ==
        LLMService.FormatMessages(old(session.messages)) +
        [LLMService.FormattedMessage("user", old(session.userInput))] &&
      session.messages == old(session.messages) + [
        ChatMessage(old(session.nextId), "User", old(session.userInput)),
        ChatMessage(old(session.nextId) + 1, "Bot",
          ReplyText(LLMService.ExchangeResult(exchange), errorDescription))] &&
      session.userInput == "" && session.completed == old(session.completed) + 1)
  {
    ghost var enabled := session.userInput != "";
    assert enabled == session.SendEnabled();
    var history := session.Submit();
    if history == None {
      assert !enabled;
      return None;
    }
    assert enabled;
    var sent, reply := LLMService.SendMessageToLLM(history.value, apiKey, exchange);
    LLMService.FormatMessagesAppend(old(session.messages), ChatMessage(old(session.nextId), "User", old(session.userInput)));
    session.Complete(reply, errorDescription);
    request := Some(sent);
  }
}
