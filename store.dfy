/** The `ChatBox` component's state and its send handler, updated in place the way the
    component's setters update it. */
module Store {
  import opened Text
  import opened Conversation
  import opened Request

  class ChatBox {
    var messages: seq<Turn>
    var isLoading: bool
    var input: string

    /** The store's current value. */
    function Snapshot(): State
      reads this
    {
      State(messages, isLoading, input)
    }

    /** Mounting: the welcome turn, idle, nothing typed. */
    constructor ()
      ensures Snapshot() == Init
      ensures WellFormed(Snapshot())
    {
      messages := [Turn(Ai, Welcome)];
      isLoading := false;
      input := "";
    }

    /** The input's `onChange`: the buffer takes the typed text, nothing else changes. */
    method Edit(text: string)
      modifies this
      ensures input == text
      ensures messages == old(messages) && isLoading == old(isLoading)
      ensures Snapshot() == Edited(old(Snapshot()), text)
    {
      input := text;
    }

    /** `handleSend` up to its `await`. A blank input or a request in flight makes it
        return at once with nothing sent and nothing changed. Otherwise the input,
        untrimmed, becomes a user turn, loading starts, the input is cleared, and the
        request messages returned are the mapped transcript with the new turn last. */
    method Submit() returns (request: Option<seq<Message>>)
      modifies this
      ensures request.Some? <==> Accepts(old(Snapshot()))
      ensures request.None? ==> unchanged(this)
      ensures request.Some? ==>
        && messages == old(messages) + [Turn(User, old(input))]
        && isLoading && input == ""
        && request.value == ToWire(messages)
      ensures Snapshot() == Submitted(old(Snapshot()))
    {
      // the handler sees the transcript and input of the render it was created in
      var rendered, typed := messages, input;
      if Trim(typed) == [] || isLoading {
        return None;
      }
      messages := messages + [Turn(User, typed)];
      isLoading := true;
      var current := BuildRequest(rendered, typed);
      input := "";
      RequestMatchesTranscript(old(Snapshot()));
      request := Some(current);
    }

    /** `handleSend` after its `await`, on success and on failure alike: exactly one AI
        turn is appended, holding the normalised reply or the error text, and loading
        ends. */
    method Resolve(outcome: Outcome)
      modifies this
      ensures messages == old(messages) + [Turn(Ai, ReplyText(outcome))]
      ensures !isLoading && input == old(input)
      ensures Snapshot() == Resolved(old(Snapshot()), outcome)
    {
      var text;
      match outcome {
        case Reply(content) =>
          text := NormalizeReply(content);
        case HttpError(body) =>
          // the thrown error's message, as the `catch` sees it
          var message := ApiErrorPrefix + body;
          text := ErrorPrefix + message;
        case Thrown(message) =>
          text := ErrorPrefix + message;
      }
      messages := messages + [Turn(Ai, text)];
      isLoading := false;
    }
  }

  /** A session as a client drives it: the first question is sent, a second press of
      Send while it is pending is ignored, and the reply lands after the question. */
  method Session(question: string, reply: string)
    requires !IsBlank(question) && reply != ""
  {
    TrimEmptyIffBlank(question);
    var chat := new ChatBox();
    chat.Edit(question);
    var sent := chat.Submit();
    FirstRequest(question);
    assert sent == Some([Message("assistant", Welcome), Message("user", question)]);
    chat.Edit(question);
    var again := chat.Submit();
    assert again == None;
    chat.Resolve(Reply(Some(reply)));
    assert chat.messages == [Turn(Ai, Welcome), Turn(User, question), Turn(Ai, reply)];
    assert !chat.isLoading;
  }
}
