/**
 * The chat widget of `GPTChatBot.js` at the repository root. It keeps three pieces of component
 * state (the transcript, the text box and a busy flag), adds a hidden location hint in front of
 * a user message that names a place, and shows only the non-system messages.
 */
module RootChatBot {
  import opened Wrappers
  import opened JsText
  import opened Chat
  import Location

  /** The instruction the transcript opens with. */
  const SystemPrompt: string := "You are CareCompanionAI, a warm, empathetic assistant who helps seniors in California navigate UnitedHealthcare, Medicare, Medicaid, and palliative care. You ask follow-up questions when needed, offer step-by-step suggestions, and tailor your advice to a user's location. If asked about something specific like \"palliative care via UHC in Temecula\", provide sample steps, tools, and phone numbers where possible. Avoid repeating information. Speak clearly and respectfully."

  /** The transcript the widget starts with: the opening instruction alone. */
  function InitialTranscript(): (t: seq<Message>)
    ensures |t| == 1 && t[0].role == "system" && t[0].content == SystemPrompt
  {
    [Message("system", SystemPrompt)]
  }

  /** The synthetic hint sent ahead of a message that names a place. */
  function LocationMessage(location: string): (m: Message)
    ensures m.role == "system"
    ensures |m.content| == 19 + |location| + 35
    ensures m.content[..19] == "User is located in " && m.content[19..19 + |location|] == location
    ensures m.content[19 + |location|..] == ". Tailor your guidance accordingly."
  {
    Message("system", "User is located in " + location + ". Tailor your guidance accordingly.")
  }

  /** `newMessages`: the transcript, then the location hint when the input names a place, then the
      input itself as a user message. */
  function Assemble(transcript: seq<Message>, input: string): (r: seq<Message>)
    ensures |r| == |transcript| + (if Location.ExtractLocation(input).Some? then 2 else 1)
    ensures r[..|transcript|] == transcript
    ensures r[|r| - 1] == UserMessage(input)
    ensures Location.ExtractLocation(input).Some? ==>
              r[|transcript|] == LocationMessage(Location.ExtractLocation(input).value)
  {
    var hint := match Location.ExtractLocation(input)
      case Some(location) => [LocationMessage(location)]
      case None => [];
    transcript + hint + [UserMessage(input)]
  }

  /** The transcript once a send with `input` has finished: unchanged for blank input, otherwise
      the assembled list followed by the reply, if the request brought one. */
  function AfterSend(transcript: seq<Message>, input: string, reply: Option<Message>): seq<Message> {
    if IsBlank(input) then transcript else Assemble(transcript, input) + Replied(reply)
  }

  /** A send only appends: the old transcript is a prefix of the new one, which is longer by the
      location hint (if any), the user message and the reply (if any). */
  lemma {:induction false} AfterSendExtends(transcript: seq<Message>, input: string, reply: Option<Message>)
    ensures |AfterSend(transcript, input, reply)| == |transcript| +
      (if IsBlank(input) then 0
       else (if Location.ExtractLocation(input).Some? then 1 else 0) + 1 + (if reply.Some? then 1 else 0))
    ensures AfterSend(transcript, input, reply)[..|transcript|] == transcript
  {
    if IsBlank(input) {
      assert AfterSend(transcript, input, reply) == transcript;
    } else {
      var sent := Assemble(transcript, input);
      var after := sent + Replied(reply);
      assert AfterSend(transcript, input, reply) == after;
      assert after[..|transcript|] == sent[..|transcript|];
    }
  }

  /** `msg.role === 'user' ? 'You' : 'Bot'` */
  function Label(role: string): (r: string)
    ensures r == "You" <==> role == "user"
    ensures r == "Bot" <==> role != "user"
  {
    if role == "user" then "You" else "Bot"
  }

  /** How one message appears in the log: not at all when it is a system message. */
  function Shown(m: Message): (r: seq<Line>)
    ensures r == [] <==> m.role == "system"
    ensures m.role != "system" ==> r == [Line(Label(m.role), m.content)]
  {
    if m.role == "system" then [] else [Line(Label(m.role), m.content)]
  }

  /** `messages.filter((msg) => msg.role !== 'system').map(...)`: the log the widget renders. */
  function VisibleLog(t: seq<Message>): (r: seq<Line>)
    ensures |r| <= |t|
    ensures r == [] <==> forall j :: 0 <= j < |t| ==> t[j].role == "system"
    ensures forall j :: 0 <= j < |r| ==> r[j].speaker == "You" || r[j].speaker == "Bot"
  {
    if t == [] then [] else Shown(t[0]) + VisibleLog(t[1..])
  }

  /** The messages the log is made from: the non-system ones, in transcript order. */
  function NonSystem(t: seq<Message>): (r: seq<Message>)
    ensures |r| <= |t|
    ensures forall j :: 0 <= j < |r| ==> r[j].role != "system"
    ensures forall m :: m in r <==> m in t && m.role != "system"
  {
    if t == [] then []
    else if t[0].role == "system" then NonSystem(t[1..])
    else [t[0]] + NonSystem(t[1..])
  }

  /** Filtering keeps transcript order: the filter of a concatenation is the concatenation of
      the filters. */
  lemma {:induction false} NonSystemAppend(a: seq<Message>, b: seq<Message>)
    ensures NonSystem(a + b) == NonSystem(a) + NonSystem(b)
  {
    if a == [] {
      assert a + b == b;
    } else {
      assert (a + b)[1..] == a[1..] + b;
      NonSystemAppend(a[1..], b);
    }
  }

  /** The log is exactly the non-system messages, in transcript order, each as its label and its
      content. */
  lemma {:induction false} VisibleLogIsNonSystem(t: seq<Message>)
    ensures |VisibleLog(t)| == |NonSystem(t)|
    ensures forall k :: 0 <= k < |VisibleLog(t)| ==>
              VisibleLog(t)[k] == Line(Label(NonSystem(t)[k].role), NonSystem(t)[k].content)
  {
    if t != [] {
      VisibleLogIsNonSystem(t[1..]);
    }
  }

  /** The log of a concatenation is the concatenation of the logs, so messages keep their
      transcript order and each contributes exactly what `Shown` gives. */
  lemma {:induction false} VisibleLogAppend(a: seq<Message>, b: seq<Message>)
    ensures VisibleLog(a + b) == VisibleLog(a) + VisibleLog(b)
  {
    if a == [] {
      assert a + b == b;
    } else {
      assert (a + b)[1..] == a[1..] + b;
      VisibleLogAppend(a[1..], b);
    }
  }

  /** The opening instruction is never shown. */
  lemma InitialLogEmpty()
    ensures VisibleLog(InitialTranscript()) == []
  {
  }

  /** Assembling adds the line "You: input" to the log and nothing for the location hint, which
      stays hidden. */
  lemma {:induction false} AssembleLog(transcript: seq<Message>, input: string)
    ensures VisibleLog(Assemble(transcript, input)) == VisibleLog(transcript) + [Line("You", input)]
  {
    var user := [UserMessage(input)];
    assert VisibleLog(user) == [Line("You", input)] by {
      assert user[1..] == [];
    }
    var location := Location.ExtractLocation(input);
    if location.Some? {
      HiddenHintLog(transcript, LocationMessage(location.value), user);
    } else {
      assert Assemble(transcript, input) == transcript + [] + user;
      assert transcript + [] + user == transcript + user;
      VisibleLogAppend(transcript, user);
    }
  }

  /** A system message, such as the location hint, contributes nothing to the log wherever it
      stands. */
  lemma {:induction false} HiddenHintLog(transcript: seq<Message>, hint: Message, user: seq<Message>)
    requires hint.role == "system"
    ensures VisibleLog(transcript + [hint] + user) == VisibleLog(transcript) + VisibleLog(user)
  {
    assert VisibleLog([hint]) == [] by {
      assert [hint][1..] == [];
      assert VisibleLog([hint]) == Shown(hint) + VisibleLog([]);
    }
    assert transcript + [hint] + user == transcript + ([hint] + user);
    VisibleLogAppend(transcript, [hint] + user);
    VisibleLogAppend([hint], user);
  }

  /** A send with non-blank input adds to the log the line "You: input" and the reply's line. */
  lemma {:induction false} SendLog(transcript: seq<Message>, input: string, reply: Option<Message>)
    requires !IsBlank(input)
    ensures VisibleLog(AfterSend(transcript, input, reply)) ==
            VisibleLog(transcript) + [Line("You", input)] + VisibleLog(Replied(reply))
  {
    AssembleLog(transcript, input);
    VisibleLogAppend(Assemble(transcript, input), Replied(reply));
  }

  /** The component's state: `messages`, `input` and `loading`. */
  class ChatBot {
    var messages: seq<Message>
    var input: string
    var loading: bool
    /** The message the transcript started with. */
    ghost const opening: Message

    /** The transcript is only appended to, so it keeps its opening message. */
    ghost predicate Valid()
      reads this
    {
      |messages| >= 1 && messages[0] == opening
    }

    /** The initial state given to `useState`. */
    constructor ()
      ensures Valid()
      ensures messages == InitialTranscript() && input == "" && !loading
    {
      opening := InitialTranscript()[0];
      messages := InitialTranscript();
      input := "";
      loading := false;
    }

    /** The text box's `onChange`: `setInput(e.target.value)`. */
    method SetInput(text: string)
      modifies this`input
      ensures input == text
    {
      input := text;
    }

    /** `handleSend` up to the request: assemble the list, store it, clear the text box and mark
        the widget busy. The list is returned because the rest of the send works on it. */
    method BeginSend() returns (sent: seq<Message>)
      requires Valid() && !IsBlank(input)
      modifies this
      ensures Valid()
      ensures sent == Assemble(old(messages), old(input))
      ensures messages == sent && input == "" && loading
    {
      var location := Location.ExtractLocation(input);
      var hint: seq<Message> := [];
      if location.Some? {
        hint := [LocationMessage(location.value)];
      }
      sent := messages + hint + [UserMessage(input)];
      messages := sent;
      input := "";
      loading := true;
    }

    /** `handleSend` after the request: on success the transcript becomes the list that was sent
        plus the reply; on failure the transcript is left alone. Either way the widget is no
        longer busy. */
    method EndSend(sent: seq<Message>, reply: Option<Message>)
      requires Valid() && |sent| >= 1 && sent[0] == opening
      modifies this`messages, this`loading
      ensures Valid()
      ensures messages == (if reply.Some? then sent + [reply.value] else old(messages))
      ensures !loading
    {
      if reply.Some? {
        messages := sent + [reply.value];
      }
      loading := false;
    }

    /** `handleSend` as a whole, with the outcome of the request as `reply` (`None` when it
        failed). The button is disabled while `loading`, so a send never starts while busy. */
    method HandleSend(reply: Option<Message>)
      requires Valid() && !loading
      modifies this
      ensures Valid()
      ensures messages == AfterSend(old(messages), old(input), reply)
      ensures input == (if IsBlank(old(input)) then old(input) else "")
      ensures !loading
    {
      if IsBlank(input) {
        return;
      }
      var sent := BeginSend();
      EndSend(sent, reply);
    }
  }
}
