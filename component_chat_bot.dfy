/**
 * The chat widget of `src/components/GPTChatBot.js`. It keeps the same three pieces of state as
 * the root widget, appends the user's message without any hint, and shows every message,
 * system messages included, with a label for its role.
 */
module ComponentChatBot {
  import opened Wrappers
  import opened JsText
  import opened Chat

  /** The instruction the transcript opens with. */
  const SystemPrompt: string := "You are CareCompanionAI, a friendly and helpful assistant designed to support seniors in California. You specialize in Medicare, Medicaid, and palliative care. Respond clearly, with empathy, and give concise and informative answers."

  /** The transcript the widget starts with: the opening instruction alone. */
  function InitialTranscript(): (t: seq<Message>)
    ensures |t| == 1 && t[0].role == "system" && t[0].content == SystemPrompt
  {
    [Message("system", SystemPrompt)]
  }

  /** `newMessages`: the transcript followed by the input as a user message. */
  function Assemble(transcript: seq<Message>, input: string): (r: seq<Message>)
    ensures |r| == |transcript| + 1
    ensures r[..|transcript|] == transcript
    ensures r[|transcript|] == UserMessage(input)
  {
    transcript + [UserMessage(input)]
  }

  /** The transcript once a send with `input` has finished: unchanged for blank input, otherwise
      the assembled list followed by the reply, if the request brought one. */
  function AfterSend(transcript: seq<Message>, input: string, reply: Option<Message>): seq<Message> {
    if IsBlank(input) then transcript else Assemble(transcript, input) + Replied(reply)
  }

  /** A send only appends: the old transcript is a prefix of the new one, which is longer by two
      when the request succeeded and by one when it failed. */
  lemma {:induction false} AfterSendExtends(transcript: seq<Message>, input: string, reply: Option<Message>)
    ensures |AfterSend(transcript, input, reply)| ==
            |transcript| + (if IsBlank(input) then 0 else if reply.Some? then 2 else 1)
    ensures AfterSend(transcript, input, reply)[..|transcript|] == transcript
    ensures !IsBlank(input) ==> AfterSend(transcript, input, reply)[|transcript|] == UserMessage(input)
  {
  }

  /** `msg.role === 'user' ? 'You' : msg.role === 'assistant' ? 'Bot' : 'System'` */
  function Label(role: string): (r: string)
    ensures r == "You" <==> role == "user"
    ensures r == "Bot" <==> role == "assistant"
    ensures r == "System" <==> role != "user" && role != "assistant"
  {
    if role == "user" then "You" else if role == "assistant" then "Bot" else "System"
  }

  /** `messages.map(...)`: one labelled line per message, system messages included. */
  function Render(t: seq<Message>): (r: seq<Line>)
    ensures |r| == |t|
    ensures forall j :: 0 <= j < |t| ==> r[j].content == t[j].content
    ensures forall j :: 0 <= j < |t| ==> r[j].speaker == Label(t[j].role)
  {
    seq(|t|, j requires 0 <= j < |t| => Line(Label(t[j].role), t[j].content))
  }

  /** Rendering keeps transcript order: the log of a concatenation is the concatenation of the logs. */
  lemma {:induction false} RenderAppend(a: seq<Message>, b: seq<Message>)
    ensures Render(a + b) == Render(a) + Render(b)
  {
    assert forall j :: 0 <= j < |a| + |b| ==> Render(a + b)[j] == (Render(a) + Render(b))[j];
  }

  /** The opening instruction is shown, as "System". */
  lemma InitialLog()
    ensures Render(InitialTranscript()) == [Line("System", SystemPrompt)]
  {
  }

  /** A send with non-blank input adds the line "You: input" to the log, then the reply's line. */
  lemma {:induction false} SendLog(transcript: seq<Message>, input: string, reply: Option<Message>)
    requires !IsBlank(input)
    ensures Render(AfterSend(transcript, input, reply)) ==
            Render(transcript) + [Line("You", input)] + Render(Replied(reply))
  {
    RenderAppend(transcript, [UserMessage(input)]);
    RenderAppend(Assemble(transcript, input), Replied(reply));
  }

  /** The component's state: `messages`, `input` and `loading`. */
  class ChatBot {
    var messages: seq<Message>
    var input: string
    var loading: bool
    /** The message the transcript started with. */
    ghost const opening: Message

    /** The transcript is only appended to, so it keeps its opening message. */
    ghost predicate Valid()
      reads this
    {
      |messages| >= 1 && messages[0] == opening
    }

    /** The initial state given to `useState`. */
    constructor ()
      ensures Valid()
      ensures messages == InitialTranscript() && input == "" && !loading
    {
      opening := InitialTranscript()[0];
      messages := InitialTranscript();
      input := "";
      loading := false;
    }

    /** The text box's `onChange`: `setInput(e.target.value)`. */
    method SetInput(text: string)
      modifies this`input
      ensures input == text
    {
      input := text;
    }

    /** `handleSend` up to the request: append the user message, clear the text box and mark the
        widget busy. The list is returned because the rest of the send works on it. */
    method BeginSend() returns (sent: seq<Message>)
      requires Valid() && !IsBlank(input)
      modifies this
      ensures Valid()
      ensures sent == Assemble(old(messages), old(input))
      ensures messages == sent && input == "" && loading
    {
      sent := messages + [UserMessage(input)];
      messages := sent;
      input := "";
      loading := true;
    }

    /** `handleSend` after the request: on success the transcript becomes the list that was sent
        plus the reply; on failure the transcript is left alone. Either way the widget is no
        longer busy. */
    method EndSend(sent: seq<Message>, reply: Option<Message>)
      requires Valid() && |sent| >= 1 && sent[0] == opening
      modifies this`messages, this`loading
      ensures Valid()
      ensures messages == (if reply.Some? then sent + [reply.value] else old(messages))
      ensures !loading
    {
      if reply.Some? {
        messages := sent + [reply.value];
      }
      loading := false;
    }

    /** `handleSend` as a whole, with the outcome of the request as `reply` (`None` when it
        failed). The button is disabled while `loading`, so a send never starts while busy. */
    method HandleSend(reply: Option<Message>)
      requires Valid() && !loading
      modifies this
      ensures Valid()
      ensures messages == AfterSend(old(messages), old(input), reply)
      ensures input == (if IsBlank(old(input)) then old(input) else "")
      ensures !loading
    {
      if IsBlank(input) {
        return;
      }
      var sent := BeginSend();
      EndSend(sent, reply);
    }
  }
}
