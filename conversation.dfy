/** The chat widget's conversation store as values: the transcript of turns, the
    loading flag and the input buffer, and the two transitions `handleSend` makes on
    them, one before and one after its `await`. */
module Conversation {
  import opened Text

  datatype Option<+T> = None | Some(value: T)

  /** Who wrote a turn; the store only ever holds these two. */
  datatype Sender = Ai | User {
    /** The `sender` string kept in a turn, also used as the bubble's style class. */
    function Name(): string {
      if User? then "user" else "ai"
    }
  }

  datatype Turn = Turn(sender: Sender, text: string)

  /** How the awaited completion request settled. */
  datatype Outcome =
    /** OK status and a parsed body; `content` is `choices[0].message.content` when present. */
    | Reply(content: Option<string>)
    /** A non-OK status; `body` is the response text. */
    | HttpError(body: string)
    /** The request or the JSON parse threw; `message` is the exception's message. */
    | Thrown(message: string)

  datatype State = State(messages: seq<Turn>, isLoading: bool, input: string)

  const Welcome: string := "\U{1F44B} Welcome to my AI Portfolio chat! Ask me anything."
  const NoReply: string := "Sorry, no reply from AI."
  const ErrorPrefix: string := "Error: "
  const ApiErrorPrefix: string := "API error: "

  /** The widget as mounted: the welcome turn, idle, nothing typed. */
  const Init: State := State([Turn(Ai, Welcome)], false, "")

  function Last<T>(s: seq<T>): (x: T)
    requires s != []
  {
    s[|s| - 1]
  }

  /** The guard of `handleSend`: it lets a submit through exactly when no request is
      in flight and something other than whitespace is typed. */
  predicate Accepts(s: State): (ok: bool)
    ensures ok <==> !s.isLoading && !IsBlank(s.input)
  {
    TrimEmptyIffBlank(s.input);
    !(Trim(s.input) == [] || s.isLoading)
  }

  /** The part of `handleSend` before the `await`: a rejected submit changes nothing;
      an accepted one appends the input, untrimmed, as a user turn, raises the loading
      flag and clears the input. */
  function Submitted(s: State): (r: State)
    ensures r == s <==> !Accepts(s)
    ensures Accepts(s) ==>
      && s.messages < r.messages && |r.messages| == |s.messages| + 1
      && Last(r.messages) == Turn(User, s.input)
      && r.isLoading && r.input == ""
  {
    if Trim(s.input) == [] || s.isLoading then s
    else State(s.messages + [Turn(User, s.input)], true, "")
  }

  /** The `||` fallback on the reply content: absent or empty content gives the
      placeholder; any other content is shown as it came. */
  function NormalizeReply(content: Option<string>): (r: string)
    ensures r != ""
    ensures content.Some? && content.value != "" ==> r == content.value
    ensures content.None? || content.value == "" ==> r == NoReply
  {
    match content
    case Some(text) => if text != "" then text else NoReply
    case None => NoReply
  }

  /** The text of the one AI turn a settled request adds. It is never empty. On
      success it is the normalised reply. On failure it is marked "Error: " and the
      message of the error that reached the `catch` follows verbatim; for a non-OK
      status that message is "API error: " and then the response text. */
  function ReplyText(o: Outcome): (r: string)
    ensures r != ""
    ensures o.Reply? ==> r == NormalizeReply(o.content)
    ensures !o.Reply? ==> ErrorPrefix <= r
    ensures o.Thrown? ==> r[|ErrorPrefix|..] == o.message
    ensures o.HttpError? ==> ApiErrorPrefix <= r[|ErrorPrefix|..]
    ensures o.HttpError? ==> r[|ErrorPrefix|..][|ApiErrorPrefix|..] == o.body
  {
    match o
    case Reply(content) => NormalizeReply(content)
    case HttpError(body) => ErrorPrefix + (ApiErrorPrefix + body)
    case Thrown(message) => ErrorPrefix + message
  }

  /** The part of `handleSend` after the `await`, whatever the outcome: exactly one
      AI turn appended, the loading flag back to false, the input left alone. */
  function Resolved(s: State, o: Outcome): (r: State)
    ensures s.messages < r.messages && |r.messages| == |s.messages| + 1
    ensures Last(r.messages).sender == Ai && Last(r.messages).text == ReplyText(o)
    ensures !r.isLoading && r.input == s.input
  {
    State(s.messages + [Turn(Ai, ReplyText(o))], false, s.input)
  }

  /** The input's `onChange`: only the buffer changes, so after typing a submit is
      accepted exactly when nothing is in flight and the typed text is not blank. */
  function Edited(s: State, text: string): (r: State)
    ensures r.input == text && r.messages == s.messages && r.isLoading == s.isLoading
    ensures Accepts(r) <==> !s.isLoading && !IsBlank(text)
  {
    s.(input := text)
  }

  /** Consecutive turns come from different senders, the first from the AI. */
  ghost predicate Alternates(ms: seq<Turn>) {
    && (ms != [] ==> ms[0].sender == Ai)
    && forall i, j :: 0 <= i && j == i + 1 && j < |ms| ==> ms[i].sender != ms[j].sender
  }

  /** What every state the widget can reach looks like: turns alternate from the
      welcome turn on, so a question is never followed by another question; the flag
      is up exactly when the last turn is a question waiting for its answer; every
      question has a visible character and every AI turn some text. */
  ghost predicate WellFormed(s: State) {
    && s.messages != []
    && Alternates(s.messages)
    && (s.isLoading <==> Last(s.messages).sender == User)
    && forall i :: 0 <= i < |s.messages| ==>
         if s.messages[i].sender == User then Trim(s.messages[i].text) != []
         else s.messages[i].text != ""
  }

  /** An accepted submit keeps the shape: it only happens while the last turn is an
      answer, and what it appends has a visible character. */
  lemma SubmitKeepsWellFormed(s: State)
    requires WellFormed(s)
    ensures WellFormed(Submitted(s))
  {
  }

  /** Resolving the pending request keeps the shape and ends the wait. */
  lemma ResolveKeepsWellFormed(s: State, o: Outcome)
    requires WellFormed(s) && s.isLoading
    ensures WellFormed(Resolved(s, o))
  {
  }

  function Count(ms: seq<Turn>, who: Sender): (n: nat)
    ensures n <= |ms|
  {
    if ms == [] then 0
    else Count(ms[..|ms| - 1], who) + (if Last(ms).sender == who then 1 else 0)
  }

  /** Every question has exactly one answer except, while loading, the last one: the
      welcome turn plus one AI turn per settled request. */
  lemma AnswersMatchQuestions(s: State)
    requires WellFormed(s)
    ensures Count(s.messages, Ai) == Count(s.messages, User) + (if s.isLoading then 0 else 1)
  {
    AlternatingCounts(s.messages);
  }

  lemma {:induction false} AlternatingCounts(ms: seq<Turn>)
    requires ms != [] && Alternates(ms)
    ensures Count(ms, Ai) == Count(ms, User) + (if Last(ms).sender == Ai then 1 else 0)
  {
    var init := ms[..|ms| - 1];
    if init != [] {
      assert init[|init| - 1] == ms[|ms| - 2];
      assert Alternates(init);
      AlternatingCounts(init);
    }
  }

  /** What can happen to the widget: a keystroke, a press of Send, or the pending
      request settling. */
  datatype Event = Type(text: string) | Send | Settle(outcome: Outcome)

  /** One event; a request can only settle while one is pending, so `Settle` in an
      idle state is not a possible event. */
  function Step(s: State, e: Event): (next: Option<State>) {
    match e
    case Type(text) => Some(Edited(s, text))
    case Send => Some(Submitted(s))
    case Settle(o) => if s.isLoading then Some(Resolved(s, o)) else None
  }

  function Run(s: State, events: seq<Event>): (t: Option<State>)
    decreases |events|
  {
    if events == [] then Some(s)
    else match Step(s, events[0])
      case None => None
      case Some(next) => Run(next, events[1..])
  }

  /** Over any sequence of events the transcript only grows (earlier turns stay a
      prefix) and the store stays well formed. */
  lemma {:induction false} RunKeepsWellFormed(s: State, events: seq<Event>, t: State)
    requires WellFormed(s) && Run(s, events) == Some(t)
    ensures WellFormed(t) && s.messages <= t.messages
    decreases |events|
  {
    if events != [] {
      var e := events[0];
      match e
      case Type(text) =>
        RunKeepsWellFormed(Edited(s, text), events[1..], t);
      case Send =>
        SubmitKeepsWellFormed(s);
        RunKeepsWellFormed(Submitted(s), events[1..], t);
      case Settle(o) =>
        ResolveKeepsWellFormed(s, o);
        RunKeepsWellFormed(Resolved(s, o), events[1..], t);
    }
  }

  /** Every state reachable from the mounted widget is well formed, starts with the
      welcome turn, and pairs its questions with answers. */
  lemma Reachable(events: seq<Event>, t: State)
    requires Run(Init, events) == Some(t)
    ensures WellFormed(t) && t.messages[0] == Turn(Ai, Welcome)
    ensures Count(t.messages, Ai) == Count(t.messages, User) + (if t.isLoading then 0 else 1)
  {
    RunKeepsWellFormed(Init, events, t);
    AnswersMatchQuestions(t);
  }

  /** Settling is always possible while loading and always lowers the flag, so the
      flag cannot stay up. */
  lemma SettleEndsLoading(s: State, o: Outcome)
    requires s.isLoading
    ensures Step(s, Settle(o)).Some? && !Step(s, Settle(o)).value.isLoading
  {
  }
}
