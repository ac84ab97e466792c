/** What the widget draws for a state of the store: one bubble per turn, a "Thinking"
    bubble while a request is in flight, and whether the input and Send are usable. */
module Render {
  import opened Text
  import opened Conversation

  datatype Align = Left | Right

  /** A bubble's content: AI text goes through the markdown renderer, anything else
      is shown as plain text; `Thinking` is the animated in-flight indicator. */
  datatype Body = Markdown(text: string) | Plain(text: string) | Thinking

  /** A message row: its alignment, the bubble's style class and its content. */
  datatype Bubble = Bubble(align: Align, tone: string, body: Body)

  datatype View = View(bubbles: seq<Bubble>, inputDisabled: bool, sendDisabled: bool)

  const ThinkingBubble: Bubble := Bubble(Left, "ai", Thinking)

  /** One turn's row: right-aligned exactly for the user, markdown exactly for the AI,
      the text itself unchanged, styled by the sender. */
  function TurnBubble(t: Turn): (b: Bubble)
    ensures b.align == Right <==> t.sender == User
    ensures b.body.Markdown? <==> t.sender == Ai
    ensures !b.body.Thinking? && b.body.text == t.text
    ensures b.tone == t.sender.Name()
  {
    Bubble(if t.sender == User then Right else Left, t.sender.Name(),
           if t.sender == Ai then Markdown(t.text) else Plain(t.text))
  }

  /** `messages.map(...)`: every turn, in order, as its bubble. */
  function Bubbles(ms: seq<Turn>): (r: seq<Bubble>)
    ensures |r| == |ms|
    ensures forall i :: 0 <= i < |ms| ==> r[i] == TurnBubble(ms[i])
  {
    if ms == [] then [] else Bubbles(ms[..|ms| - 1]) + [TurnBubble(Last(ms))]
  }

  /** The whole view: every turn in order, then the Thinking bubble exactly while
      loading; the input disabled exactly while loading; Send enabled exactly when
      a submit would be accepted. */
  function Render(s: State): (v: View)
    ensures |v.bubbles| == |s.messages| + (if s.isLoading then 1 else 0)
    ensures v.bubbles[..|s.messages|] == Bubbles(s.messages)
    ensures (exists i :: 0 <= i < |v.bubbles| && v.bubbles[i].body.Thinking?) <==> s.isLoading
    ensures s.isLoading ==> Last(v.bubbles) == ThinkingBubble
    ensures v.inputDisabled <==> s.isLoading
    ensures !v.sendDisabled <==> !s.isLoading && !IsBlank(s.input)
  {
    TrimEmptyIffBlank(s.input);
    var rows := Bubbles(s.messages);
    var v := View(rows + (if s.isLoading then [ThinkingBubble] else []),
                  s.isLoading, s.isLoading || Trim(s.input) == []);
    assert v.bubbles[..|rows|] == rows;
    assert s.isLoading ==> v.bubbles[|rows|].body.Thinking?;
    assert !s.isLoading ==> forall i :: 0 <= i < |v.bubbles| ==> v.bubbles[i] == TurnBubble(s.messages[i]);
    v
  }

  /** The Send button is enabled exactly in the states where a submit is accepted. */
  lemma SendEnabledIffAccepted(s: State)
    ensures !Render(s).sendDisabled <==> Accepts(s)
  {
  }

  /** After an accepted submit the view gains the question, right-aligned and plain,
      followed by the Thinking bubble. */
  lemma RenderAfterSubmit(s: State)
    requires Accepts(s)
    ensures Render(Submitted(s)).bubbles
         == Render(s).bubbles + [Bubble(Right, "user", Plain(s.input)), ThinkingBubble]
  {
  }

  /** When the pending request settles, the Thinking bubble gives way to the answer,
      left-aligned and rendered as markdown; the rows before it stay. */
  lemma RenderAfterResolve(s: State, o: Outcome)
    requires s.isLoading
    ensures Render(Resolved(s, o)).bubbles
         == Render(s).bubbles[..|s.messages|] + [Bubble(Left, "ai", Markdown(ReplyText(o)))]
  {
  }

  /** In a well-formed state the last row is the Thinking bubble exactly when the last
      turn is an unanswered question. */
  lemma ThinkingIffAwaitingAnswer(s: State)
    requires WellFormed(s)
    ensures Last(Render(s).bubbles) == ThinkingBubble <==> Last(s.messages).sender == User
  {
  }
}
