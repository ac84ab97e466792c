/** The `messages` array of the completion request body: one `{role, content}` pair
    per turn of the transcript, in order. */
module Request {
  import opened Conversation

  datatype Message = Message(role: string, content: string)

  /** The wire role of a turn: "user" for the user's turns, "assistant" for all others. */
  function RoleOf(sender: Sender): (role: string)
    ensures role == "user" <==> sender == User
    ensures role == "user" || role == "assistant"
  {
    if sender == User then "user" else "assistant"
  }

  /** `turns.map(...)`: the same number of entries, in the same order, each content the
      turn's text unchanged and each role "user" exactly for the user's turns, so no
      "system" role is ever produced. */
  function ToWire(turns: seq<Turn>): (r: seq<Message>)
    ensures |r| == |turns|
    ensures forall i :: 0 <= i < |turns| ==>
      && r[i].content == turns[i].text
      && (r[i].role == "user" <==> turns[i].sender == User)
      && (r[i].role == "user" || r[i].role == "assistant")
  {
    if turns == [] then []
    else [Message(RoleOf(turns[0].sender), turns[0].text)] + ToWire(turns[1..])
  }

  /** The request built when a submit is accepted: the transcript as rendered plus the
      new user turn. */
  function BuildRequest(snapshot: seq<Turn>, input: string): (r: seq<Message>)
    ensures |r| == |snapshot| + 1
    ensures r[..|snapshot|] == ToWire(snapshot)
    ensures r[|snapshot|] == Message("user", input)
  {
    ToWireAppend(snapshot, [Turn(User, input)]);
    ToWire(snapshot + [Turn(User, input)])
  }

  /** Reads a message array back into turns: "user" is the user, anything else the AI. */
  function FromWire(ms: seq<Message>): (r: seq<Turn>)
    ensures |r| == |ms|
  {
    if ms == [] then []
    else [Turn(if ms[0].role == "user" then User else Ai, ms[0].content)] + FromWire(ms[1..])
  }

  /** The mapping loses nothing: the transcript can be read back from the request. */
  lemma {:induction false} FromWireToWire(turns: seq<Turn>)
    ensures FromWire(ToWire(turns)) == turns
  {
    if turns != [] {
      FromWireToWire(turns[1..]);
      assert ToWire(turns)[1..] == ToWire(turns[1..]);
    }
  }

  /** Mapping distributes over concatenation. */
  lemma ToWireAppend(a: seq<Turn>, b: seq<Turn>)
    ensures ToWire(a + b) == ToWire(a) + ToWire(b)
  {
  }

  /** The request an accepted submit sends is exactly the mapped transcript the store
      holds afterwards: the snapshot taken from the rendered transcript plus the input
      agrees with the transcript the functional update produces. */
  lemma RequestMatchesTranscript(s: State)
    requires Accepts(s)
    ensures BuildRequest(s.messages, s.input) == ToWire(Submitted(s).messages)
  {
  }

  /** The request for the first question after mounting: the welcome turn as the
      assistant, then the question. */
  lemma FirstRequest(question: string)
    ensures BuildRequest(Init.messages, question)
         == [Message("assistant", Welcome), Message("user", question)]
  {
  }
}
