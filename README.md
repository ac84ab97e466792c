# Chat widget session model

A Dafny model of the chat widget of a portfolio site (`ChatBox` in
`src/components/Chatbox.jsx`). The widget keeps three pieces of state: a transcript
of turns, each an `ai` or a `user` turn with its text; an `isLoading` flag; and the
text being typed. Pressing Send runs `handleSend`. If the input has something other
than whitespace and no request is in flight, the handler appends the input as a user
turn, raises the flag, clears the input and posts the whole transcript to a
chat-completion endpoint. Each turn becomes a `{role, content}` message. When the
request settles, exactly one AI turn is appended and the flag drops. That turn holds
the reply, a fallback text when the reply is empty, or an error text. The view shows
every turn in order, with the user's turns on the right and the AI's on the left as
markdown. A "Thinking" bubble shows while loading, and the input and the Send button
are enabled or disabled from the same state.

Modules:

- `Text` (`text.dfy`): JavaScript's `trim` and the whitespace it strips.
- `Conversation` (`conversation.dfy`): turns, the store as a value, and the two
  transitions of `handleSend`. These are `Submitted`, the part before the `await`,
  and `Resolved`, the part after it, with the settled request as an `Outcome`. The
  module also has the shape every reachable state keeps and a model of event
  sequences.
- `Request` (`request.dfy`): the `messages` array of the request body and its
  inverse.
- `Render` (`render.dfy`): the view projection.
- `Store` (`store.dfy`): the component itself as the class `ChatBox`. Its methods
  update the fields in place, as the component's setters do, and are specified by
  the `Conversation` functions.

The awaited network request is an abstract outcome passed to `Resolve`, one of:

- `Reply(content)` for an OK status, where `content` is the optional
  `choices[0].message.content`;
- `HttpError(body)` for a non-OK status;
- `Thrown(message)` when the request or the JSON parse throws.

The one `await` thus splits `handleSend` into two atomic steps. There is no hidden
"system" turn: the transcript starts with a single AI welcome turn, and the only
roles in a request are "user" and "assistant". For a non-OK status the AI turn
reads "Error: API error: " followed by the raw response text.

## Model

| member | source | states |
|---|---|---|
| Text.TrimStart | src/components/Chatbox.jsx:22 | only whitespace is removed from the front, and what is left is a suffix of the input that does not start with whitespace |
| Text.TrimEnd | src/components/Chatbox.jsx:22 | only whitespace is removed from the back, and what is left is a prefix of the input that does not end with whitespace |
| Text.Trim | src/components/Chatbox.jsx:22 | `trim()` returns a slice of the input with only whitespace before and after it cut off, and no whitespace at either end |
| Text.TrimEmptyIffBlank | src/components/Chatbox.jsx:22 | `!input.trim()` holds exactly when every character of the input is whitespace |
| Text.TrimKeepsVisible | src/components/Chatbox.jsx:22 | an input with a visible character trims to a non-empty text that still contains that character |
| Conversation.Accepts | src/components/Chatbox.jsx:22 | the guard lets a submit through exactly when no request is in flight and the input is not blank |
| Conversation.Submitted | src/components/Chatbox.jsx:20-27 | a submit leaves the state unchanged exactly when it is rejected; an accepted one keeps the old transcript as a prefix, appends exactly one user turn holding the untrimmed input, sets loading and clears the input |
| Conversation.NormalizeReply | src/components/Chatbox.jsx:49 | non-empty reply content is shown as it came; absent or empty content gives "Sorry, no reply from AI."; the result is never empty |
| Conversation.ReplyText | src/components/Chatbox.jsx:45-52 | the AI turn text is never empty; on success it is the normalised reply; on failure it starts with "Error: " and the exception message follows verbatim; for a non-OK status that message starts with "API error: " and the response text follows |
| Conversation.Resolved | src/components/Chatbox.jsx:45-54 | whatever the outcome, the old transcript stays a prefix and exactly one AI turn with the reply text is appended; loading is false afterwards and the input is untouched |
| Conversation.Edited | src/components/Chatbox.jsx:102 | typing changes only the input, and afterwards a submit is accepted exactly when nothing is in flight and the typed text is not blank |
| Conversation.SubmitKeepsWellFormed | src/components/Chatbox.jsx:22-24 | an accepted or rejected submit keeps the store well formed: turns alternate starting with the AI, loading exactly when the last turn is a question, questions non-blank, answers non-empty |
| Conversation.ResolveKeepsWellFormed | src/components/Chatbox.jsx:45-54 | settling the pending request keeps the store well formed |
| Conversation.AnswersMatchQuestions | src/components/Chatbox.jsx:20-54 | in a well-formed store the AI turns equal the user turns plus one when idle, and equal them exactly while a question is pending |
| Conversation.RunKeepsWellFormed | src/components/Chatbox.jsx:20-55 | across any sequence of keystrokes, sends and settlements, the store stays well formed and the earlier transcript stays a prefix of the later one |
| Conversation.Reachable | src/components/Chatbox.jsx:9-13 | every state reachable from the mounted widget is well formed, keeps the welcome turn first and pairs every answered question with one AI turn |
| Conversation.SettleEndsLoading | src/components/Chatbox.jsx:54 | while loading, the pending request can always settle, and settling always lowers the flag |
| Request.RoleOf | src/components/Chatbox.jsx:39 | the role is "user" exactly for the user's turns, otherwise "assistant" |
| Request.ToWire | src/components/Chatbox.jsx:38-41 | the mapping keeps the number of entries and their order; each content is the turn's text unchanged; each role is "user" exactly for user turns and otherwise "assistant", so it is never "system" |
| Request.BuildRequest | src/components/Chatbox.jsx:26 | the request has one more entry than the transcript: the mapped transcript, then a "user" message with the input |
| Request.FromWireToWire | src/components/Chatbox.jsx:38-41 | the mapping loses nothing: the transcript can be read back from the request messages |
| Request.ToWireAppend | src/components/Chatbox.jsx:38-41 | mapping a concatenation gives the concatenation of the mapped parts |
| Request.RequestMatchesTranscript | src/components/Chatbox.jsx:23-26 | the request built from the transcript and input of the render the handler was created in equals the mapped transcript the store holds after the submit |
| Request.FirstRequest | src/components/Chatbox.jsx:10-12 | the first request after mounting is the welcome text as "assistant", then the question as "user" |
| Render.TurnBubble | src/components/Chatbox.jsx:65-77 | a turn's row is right-aligned exactly for the user and rendered as markdown exactly for the AI; it shows the turn's text unchanged and is styled by the sender |
| Render.Bubbles | src/components/Chatbox.jsx:64-79 | every turn is shown, in order, as its row |
| Render.Render | src/components/Chatbox.jsx:64-109 | the rows are all turns in order, then the Thinking bubble, present exactly while loading and always last; the input is disabled exactly while loading; Send is enabled exactly when not loading and the input is not blank |
| Render.SendEnabledIffAccepted | src/components/Chatbox.jsx:109 | the Send button is enabled in exactly the states where the submit guard accepts |
| Render.RenderAfterSubmit | src/components/Chatbox.jsx:23-24 | an accepted submit adds the question, right-aligned and plain, followed by the Thinking bubble, to the rows already shown |
| Render.RenderAfterResolve | src/components/Chatbox.jsx:50-54 | when the request settles, the Thinking bubble is replaced by the answer, left-aligned as markdown, and the earlier rows stay |
| Render.ThinkingIffAwaitingAnswer | src/components/Chatbox.jsx:80-91 | in a well-formed store the last row is the Thinking bubble exactly when the last turn is an unanswered question |
| Store.ChatBox.constructor | src/components/Chatbox.jsx:9-13 | the widget mounts with one AI welcome turn, not loading, with an empty input, and that state is well formed |
| Store.ChatBox.Edit | src/components/Chatbox.jsx:102 | typing replaces the input and leaves the transcript and the flag alone |
| Store.ChatBox.Submit | src/components/Chatbox.jsx:20-41 | a request is produced exactly when the guard accepts; a rejected submit changes nothing; an accepted one appends the user turn, sets loading, clears the input and returns the mapped transcript |
| Store.ChatBox.Resolve | src/components/Chatbox.jsx:45-54 | on success or failure, exactly one AI turn with the reply text is appended, loading ends, and the input is untouched |

## Left out

- The HTTP request itself is not modelled: the endpoint URL, headers, the bearer key, JSON encoding and decoding, and reading the response text. It is network I/O and is represented by the `Outcome` value given to `Resolve`. A parsed object body without `choices[0].message.content` is a `Reply` with no content. A parsed `null` body makes the access to `choices` throw, which is a `Thrown` outcome.
- Reply content that is not a string is not modelled. Content that is truthy but not a string (a number, an array, an object) passes the `||` fallback and becomes the turn's text as it is, but `Reply` carries only string content.
- The `model` field of the request body and the environment configuration that supplies it and the key are not modelled. They are external configuration.
- Markdown rendering is not modelled beyond the choice between markdown and plain text by sender, because it is done by a foreign library.
- React re-render scheduling is not modelled. The functional update of the transcript and the handler's closure snapshot are one store. `Request.RequestMatchesTranscript` proves they agree under the guard.
- Auto-scroll is not modelled because it is commented out in the source, and the end-of-list ref does nothing.
- The 180-character `maxLength` of the input is not modelled because browsers enforce it on typing. `Store.ChatBox.Edit` accepts any text.
- The `disabled` input is a fact of the view (`Render.Render`), not a guard on `Store.ChatBox.Edit`, because the change handler itself has no guard.
- Store.ChatBox.Resolve: it has no precondition, as in the source. The invariant lemmas assume that it only runs as the continuation of an accepted submit, that is, while loading.
- `src/components/Menu.jsx` and `src/components/TechTrendsRadar.jsx` are not part of this model. They are static markup with no state or logic.
