# ClaudeTherapy conversation core, in Dafny

ClaudeTherapy is an iOS chat app. It forwards the user's messages to Anthropic's
messages endpoint and shows the replies as a conversation. This project models
the two parts of it that have behaviour beyond presentation.

- **The conversation session** of `TherapyChatbotView` (module `TherapyChatbot`,
  file `therapy_chatbot.dfy`). This is the class `Session`, holding the turn list
  `messages`, the text input `userInput`, the in-flight flag `isSending`, and a
  counter that replaces `UUID()`. `sendMessage` is split at the `await` on the
  completion call inside the `Task` it starts:
  - `Submit` is the synchronous part. It checks the input, appends the User turn,
    clears the input and raises the flag.
  - `Complete` is the continuation. It appends one Bot turn with the reply or an
    apology, and lowers the flag.
  - `SendMessage` composes the two with the completion client, with nothing
    interleaved.

  The invariant `Valid` holds across all of them:
  - the greeting comes first;
  - turns alternate Bot, User, Bot, …;
  - after N completed sends there are 1 + 2N turns, plus one while a send is in
    flight;
  - ids are strictly increasing, so they are unique.
- **The completion client** `LLMService.sendMessageToLLM` (module `LLMService`,
  file `llm_service.dfy`):
  - formatting the history into `{role, content}` entries;
  - building the request field by field on a `URLRequest` object (method,
    headers, body);
  - classifying the reply into the text or the error that Swift throws, in the
    code's own check order and error wrapping.

  The network and the JSON decoder are not modelled. An `Exchange` parameter
  stands for what they report: a transport failure, or a response together with
  the decoder's outcome on its data.

`ChatMessage` (file `chat_message.dfy`) is the shared datatype. `Wrappers`
(`wrappers.dfy`) holds `Option` and `Result`, which models a Swift `throws`
function's return-or-throw.

Behaviour of the code worth noting:

- An empty `content` array in a 2xx reply is `parsingError(invalidResponse)`,
  because the inner `catch` re-wraps the error thrown in its own `do`.
- Roles come from a string comparison on the sender. Any sender other than
  exactly `"Bot"` becomes `"user"`.
- The send affordance's rule (`userInput` non-empty and not `isSending`) is
  enforced by the button, and `sendMessage` re-checks only the first half. So
  `Submit` requires `!isSending`, and the empty-input guard stays part of its
  behaviour.

## Model

| member | source | states |
|---|---|---|
| `LLMService.Role` | ClaudeTherapy/LLMService.swift:35 | the role is "assistant" exactly when the sender is "Bot"; every other sender string maps to "user" |
| `LLMService.Format` | ClaudeTherapy/LLMService.swift:33-38 | one formatted entry: role "assistant" iff sender is "Bot", "user" otherwise, content equal to the message's content |
| `LLMService.FormatMessages` | ClaudeTherapy/LLMService.swift:33-38 | the formatted list has the history's length and entry i is the formatting of message i, so order is preserved exactly |
| `LLMService.FormatMessagesAppend` | ClaudeTherapy/LLMService.swift:33-38 | formatting a history with one more turn appends exactly that turn's entry to the earlier request list |
| `LLMService.FormatMessagesDeterminedBy` | ClaudeTherapy/LLMService.swift:33-38 | two equally long histories format identically iff they agree turn by turn on content and on whether the sender is "Bot" |
| `LLMService.FormatTwoTurns` | ClaudeTherapy/LLMService.swift:33-38 | [Bot "Hi", User "I'm stressed"] becomes [assistant "Hi", user "I'm stressed"] |
| `LLMService.URLRequest.constructor` | ClaudeTherapy/LLMService.swift:26 | a new request targets the given URL, is a GET, and has no headers and no body |
| `LLMService.URLRequest.SetValue` | ClaudeTherapy/LLMService.swift:28-30 | setting a header replaces that one field's value and leaves the method and body unchanged |
| `LLMService.RequestHeaders` | ClaudeTherapy/LLMService.swift:27-30 | exactly three headers: Content-Type "application/json", anthropic-version "2023-06-01", x-api-key the key |
| `LLMService.ConfigureRequest` | ClaudeTherapy/LLMService.swift:26-53 | the built request is a POST to the fixed endpoint with those headers; its body has model "claude-3-5-sonnet-20241022", max_tokens 2048, the fixed system prompt, temperature 0.7, and messages equal to the formatted history |
| `LLMService.ParseReply` | ClaudeTherapy/LLMService.swift:81-92 | succeeds iff the body decoded and its content array is non-empty, carrying content[0].text; a decode failure is parsingError of the decoder's error; an empty content array is parsingError(invalidResponse) |
| `LLMService.ValidateReply` | ClaudeTherapy/LLMService.swift:69-92 | a non-HTTP response or a status outside 200...299 is invalidResponse whatever the body; otherwise the outcome is the parse of the body |
| `LLMService.ExchangeResult` | ClaudeTherapy/LLMService.swift:61-96 | success iff the transport answered with a 2xx HTTP response and a decoded, non-empty content array, carrying content[0].text; a transport failure is rethrown unchanged; a bad status is invalidResponse |
| `LLMService.SuccessStatusFailuresAreParsingErrors` | ClaudeTherapy/LLMService.swift:81-91 | after a 2xx status every failure is a parsingError, and never a bare invalidResponse |
| `LLMService.ClassifyExampleReplies` | ClaudeTherapy/LLMService.swift:69-92 | a 200 reply with one text element yields "Try deep breathing."; the same body with status 500 is invalidResponse; an empty content array with 200 is parsingError(invalidResponse) |
| `LLMService.SendMessageToLLM` | ClaudeTherapy/LLMService.swift:18-97 | the request sent is the configured POST with the formatted history, and the outcome is the classification of the exchange |
| `TherapyChatbot.Apology` | ClaudeTherapy/TherapyChatbotView.swift:150 | the failure text is "I'm sorry, something went wrong: " followed by the error's description, unchanged |
| `TherapyChatbot.ReplyText` | ClaudeTherapy/TherapyChatbotView.swift:140-150 | a successful reply's text is used as is; any failure becomes the apology with the error's description |
| `TherapyChatbot.AlternatingRequest` | ClaudeTherapy/TherapyChatbotView.swift:133-140 | the request built from an alternating history alternates assistant/user from the greeting on, and ends with a user entry carrying the last User turn's text when a send is in flight |
| `TherapyChatbot.Session.SendEnabled` | ClaudeTherapy/TherapyChatbotView.swift:74 | the send button is enabled iff the input is non-empty and no send is in flight; in a valid session it is then the user's turn: the last turn is the Bot's and there are 1 + 2N turns |
| `TherapyChatbot.Session.constructor` | ClaudeTherapy/TherapyChatbotView.swift:4-8 | the session starts with exactly one Bot turn holding the greeting, empty input, and isSending false |
| `TherapyChatbot.Session.SetInput` | ClaudeTherapy/TherapyChatbotView.swift:57 | editing the input changes only the input, and the session invariant is kept |
| `TherapyChatbot.Session.Submit` | ClaudeTherapy/TherapyChatbotView.swift:129-135 | empty input changes nothing; otherwise exactly one User turn with the prior input is appended after the unchanged old turns, the input becomes "", isSending becomes true, and the history handed on ends with that turn; a history is handed on exactly when the send button was enabled |
| `TherapyChatbot.Session.Complete` | ClaudeTherapy/TherapyChatbotView.swift:143-152 | exactly one Bot turn is appended, holding the reply or the apology; isSending becomes false on both paths; the alternation and 1 + 2N count invariant is kept |
| `TherapyChatbot.SendMessage` | ClaudeTherapy/TherapyChatbotView.swift:128-155 | a send with non-empty input adds exactly a User turn and then a Bot turn and leaves the session idle; the request's messages are the old history's entries followed by ("user", the input); empty input changes nothing; a request is sent exactly when the send button was enabled |

## Left out

- SwiftUI layout, colours, the splash screen, the menu, the insights stub and the
  app bootstrap are presentation only and are not part of this model.
- Concurrency is not modelled: the `Task`, `async` and `MainActor.run` machinery.
  `sendMessage` is split into `Submit` and `Complete`. `SendMessage` runs them back
  to back, so it does not capture typing that happens while a send is in flight.
  `SetInput` can be called between the two and covers that case.
- The transport (`URLSession.shared.data`) and `JSONDecoder` are replaced by the
  `Exchange` parameter, which carries the response and the decoder's outcome.
- `JSONSerialization` is not modelled. The request body is a record rather than
  bytes, so the serialisation failure path (`LLMService.swift:55-57`) is left out.
  That path cannot fail on this fixed dictionary anyway.
- Loading the API key from Secrets.plist, which ends in `fatalError`, is file I/O
  followed by a process abort. The key is a string parameter instead.
- The `invalidURL` branch is unreachable because the URL is a constant. The
  `InvalidURL` case exists in the error type, but no path produces it.
- `error.localizedDescription` is Foundation's text for an error. It is the
  `errorDescription` string parameter of `Complete`.
- `debugPrint` logging is output only and is not modelled.
- The temperature 0.7 is a Swift `Double`. Here it is the exact Dafny `real` 0.7.
- `UUID()` is replaced by a counter. The model keeps the uniqueness of ids, not
  their randomness.
- The wire field `type` of a content element is named `contentType` because `type`
  is a Dafny keyword.
