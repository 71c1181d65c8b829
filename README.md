# CareCompanionAI chat widgets, modelled in Dafny

CareCompanionAI is a browser chat front end for healthcare questions. Its two chat widgets keep
a transcript of role-tagged messages, send it to a chat service, and show the reply. This
project models what those widgets do with their state and their text:

- `extractLocation` of the root widget. It takes the leftmost match of the regular expression
  `\b(in|near|around|from|to) ([A-Z][a-z]+(?:,?\s?[A-Z]{2})?)\b` and returns its second group,
  or `null` (module `Location`).
- The send path of both widgets (`handleSend`):
  - a blank input is ignored;
  - the root widget adds a hidden system hint `User is located in X. Tailor your guidance
    accordingly.` when the input names a place;
  - the raw input is appended as a user message;
  - the text box is cleared and the busy flag raised;
  - the reply is appended if the request succeeds, and the busy flag is cleared at the end
    (modules `RootChatBot` and `ComponentChatBot`).
- The initial transcript of each widget and the log each one renders. The root widget hides
  system messages and labels `You`/`Bot`. The components widget shows everything and labels
  `You`/`Bot`/`System`.

## How the model is built

- `JsText` holds the `\s` class, word characters and `String.prototype.trim`. `IsBlank` is
  `!input.trim()`.
- `Location` describes a match declaratively, as a `Shape`:
  - which preposition alternative matched;
  - how many letters `[a-z]+` took;
  - which form the optional state-code group took.

  `ShapeMatches` says when a shape matches at a start position. `Precedes` is the order in which
  a backtracking engine tries shapes:
  - alternatives from left to right;
  - the greedy `[a-z]+` longest first;
  - the optional group before its absence, and inside it `,` and `\s` each present before absent.

  The matcher (`TryPrepositions`, `TryName`, `TryLower`, `FirstSuffix`) backtracks in exactly
  that order. Its contracts prove it sound, complete and first in that order. `FirstMatchFrom`
  scans start positions from left to right, as a non-global `String.prototype.match` does.
  `ExtractLocationIsFirstGroup` shows that the declarative description alone fixes the result.
- Each widget is a class with the component's three state variables: `messages`, `input` and
  `loading`. `handleSend` is split at its `await`:
  - `BeginSend` assembles and stores the list, clears `input` and sets `loading`;
  - `EndSend` stores the list that was sent plus the reply, or leaves the transcript alone on
    failure, and clears `loading`. It uses the list that was sent, as the JavaScript closure does.

  `HandleSend` runs both halves. Its result is tied to the function `AfterSend`, and lemmas on
  `AfterSend` state the prefix, growth and display properties.
- The network reply is a parameter of type `Option<Message>`. `None` stands for a failed request.

## Model

| member | source | states |
|---|---|---|
| `JsText.TrimStart` | GPTChatBot.js:23 | removes exactly the longest run of whitespace at the front: the result is a suffix of the input, everything removed is whitespace, and the result does not start with whitespace |
| `JsText.TrimEnd` | GPTChatBot.js:23 | removes exactly the longest run of whitespace at the back, in the same three terms |
| `JsText.BlankIffAllWhitespace` | GPTChatBot.js:23 | `!input.trim()` holds exactly when every character of the input is whitespace |
| `Location.SuffixAt` | GPTChatBot.js:5 | the state-code forms in the engine's order, with the order position recovered from each form |
| `Location.SuffixIndexInjective` | GPTChatBot.js:5 | distinct state-code forms have distinct places in the engine's order |
| `Location.PrecedesTotal` | GPTChatBot.js:5 | the engine's order on match shapes is total, so the first matching shape at a position is unique |
| `Location.LowerRun` | GPTChatBot.js:5 | the greedy `[a-z]+` first takes every lower-case letter available and stops at the first other character or the end |
| `Location.FirstSuffix` | GPTChatBot.js:5 | returns the first state-code form, in the engine's order, that fits at a position with `\b` after it, and returns none only when no form fits |
| `Location.TryLower` | GPTChatBot.js:5 | backtracking through `[a-z]+`: the longest letter count that lets the rest match, with the first suffix there, and none only when no count works |
| `Location.TryName` | GPTChatBot.js:5 | `[A-Z][a-z]+(?:,?\s?[A-Z]{2})?\b` at a position: a fitting way when one exists, first in the engine's order, and none exactly when there is none |
| `Location.TryPrepositions` | GPTChatBot.js:5 | the alternatives `in`, `near`, `around`, `from`, `to` tried in order after `\b`: a match when one exists, and no matching shape comes before it |
| `Location.MatchAt` | GPTChatBot.js:5-6 | the pattern at one start position: the first match there in the engine's order, and none exactly when nothing matches there |
| `Location.NoMatchPastEnd` | GPTChatBot.js:6 | no match starts beyond the end of the input |
| `Location.FirstMatchFrom` | GPTChatBot.js:6 | the leftmost start position with a match, tried from left to right; nothing matches before it; its shape is first in the engine's order; none exactly when nothing matches anywhere |
| `Location.ExtractLocation` | GPTChatBot.js:4-8 | `null` exactly when the pattern matches nowhere in the text |
| `Location.ExtractLocationIsFirstGroup` | GPTChatBot.js:5-7 | any match that starts leftmost and is first in the engine's order is the one found, and the result is its second group |
| `Location.GroupIsPlaceName` | GPTChatBot.js:5 | the second group of any match is a capital, one or more lower-case letters, and optionally a comma, a whitespace character and two capitals, in that order with the first two optional |
| `Location.LocationIsPlaceName` | GPTChatBot.js:5-7 | a non-null result has that shape and at least two characters, so `location ? ... : null` tests exactly for a match |
| `Location.GroupFound` | GPTChatBot.js:5 | the second group occurs in the input right after a preposition and one space; the preposition starts at the input's start or after a non-word character; the group ends at the input's end or before a non-word character |
| `Location.LocationFound` | GPTChatBot.js:5-7 | a non-null result occurs in the input in that context |
| `Location.MatchStart` | GPTChatBot.js:5 | a match starts with its preposition's first letter, at the start of the input or after a non-word character |
| `Location.NoMatchAtCapital` | GPTChatBot.js:5 | matching is case-sensitive: no match starts at a capital letter |
| `Location.NoPrepositionNoLocation` | GPTChatBot.js:5-7 | text in which no preposition is followed by a space yields `null` |
| `LocationExamples.InSacramentoFirst` | GPTChatBot.js:5 | "in Sacramento" matches at 0 with "in", nine lower-case letters and no state code, and no other match there comes first |
| `LocationExamples.InSacramento` | GPTChatBot.js:4-8 | "in Sacramento" yields "Sacramento" |
| `LocationExamples.NoMatchBeforeIn` | GPTChatBot.js:5 | "I live in Sacramento" has no match before "in" |
| `LocationExamples.LiveInSacramentoFirst` | GPTChatBot.js:5 | "I live in Sacramento" matches at 7 with "in" and nine lower-case letters and no state code, and no other match there comes first |
| `LocationExamples.LiveInSacramento` | GPTChatBot.js:4-8 | "I live in Sacramento" yields "Sacramento" |
| `LocationExamples.NearTemeculaFirst` | GPTChatBot.js:5 | "near Temecula, CA" matches at 0 with the comma-and-space state code, and no other match there comes first |
| `LocationExamples.NearTemecula` | GPTChatBot.js:4-8 | "near Temecula, CA" yields "Temecula, CA" |
| `LocationExamples.FromFresnoCatFirst` | GPTChatBot.js:5 | "from Fresno CAT" matches at 0 without a state code, and no other match there comes first |
| `LocationExamples.FromFresnoCat` | GPTChatBot.js:4-8 | "from Fresno CAT" yields "Fresno": `\b` fails inside "CAT", so the optional group is dropped |
| `LocationExamples.NoMatchInCapitalIn` | GPTChatBot.js:5 | "In Sacramento" has no match at any position |
| `LocationExamples.CapitalInFindsNothing` | GPTChatBot.js:4-8 | "In Sacramento" yields `null` |
| `Chat.UserMessage` | GPTChatBot.js:36 | the user message has role `user` and the input, untrimmed, as content |
| `Chat.Replied` | GPTChatBot.js:49-50 | a successful request contributes exactly its reply, a failed one nothing |
| `RootChatBot.InitialTranscript` | GPTChatBot.js:11-17 | the initial transcript is exactly one `system` message holding the widget's instruction |
| `RootChatBot.LocationMessage` | GPTChatBot.js:26-31 | the location hint is a `system` message whose content is "User is located in ", then the location, then ". Tailor your guidance accordingly." |
| `RootChatBot.Assemble` | GPTChatBot.js:25-37 | the old transcript is a prefix; the list grows by 2 when a location is found and by 1 otherwise; the hint for that location comes right after the old transcript; the raw input as a user message comes last |
| `RootChatBot.AfterSendExtends` | GPTChatBot.js:22-55 | a send only appends: the old transcript is a prefix, the length grows by the hint (0 or 1), the user message and the reply (0 or 1); blank input changes nothing |
| `RootChatBot.Label` | GPTChatBot.js:65 | the label is `You` exactly for role `user` and `Bot` for every other role |
| `RootChatBot.Shown` | GPTChatBot.js:62-66 | a message contributes nothing to the log exactly when it is a system message; any other message contributes the one line of its label and its content |
| `RootChatBot.VisibleLog` | GPTChatBot.js:61-67 | the log has at most one line per message; it is empty exactly when every message is a system message; every line says `You` or `Bot` |
| `RootChatBot.NonSystem` | GPTChatBot.js:62 | `filter((msg) => msg.role !== 'system')`: keeps a message exactly when it is in the transcript and not a system message, and every message kept is non-system |
| `RootChatBot.NonSystemAppend` | GPTChatBot.js:62 | the filter of a concatenation is the concatenation of the filters, so kept messages stay in transcript order |
| `RootChatBot.VisibleLogIsNonSystem` | GPTChatBot.js:61-67 | the log has one line per non-system message, in transcript order, and line k is the label and content of the k-th non-system message |
| `RootChatBot.VisibleLogAppend` | GPTChatBot.js:61-67 | the log of a concatenation is the concatenation of the logs, so lines follow transcript order |
| `RootChatBot.InitialLogEmpty` | GPTChatBot.js:11-17 | the opening instruction is never shown |
| `RootChatBot.AssembleLog` | GPTChatBot.js:33-37 | assembling adds the single line "You: input" to the log; the location hint is never shown |
| `RootChatBot.HiddenHintLog` | GPTChatBot.js:26-31 | a system message such as the location hint adds nothing to the log, wherever it stands in the transcript |
| `RootChatBot.SendLog` | GPTChatBot.js:39-55 | after a non-blank send the log is the old log, then "You: input", then the reply's line if it has one |
| `RootChatBot.ChatBot.constructor` | GPTChatBot.js:11-20 | starts with the initial transcript, an empty text box and `loading` false |
| `RootChatBot.ChatBot.SetInput` | GPTChatBot.js:71 | the text box's change handler stores the typed text |
| `RootChatBot.ChatBot.BeginSend` | GPTChatBot.js:25-41 | before the request: the transcript is the assembled list, the input is empty and `loading` is true |
| `RootChatBot.ChatBot.EndSend` | GPTChatBot.js:43-55 | after the request: the transcript is the list sent plus the reply on success and unchanged on failure; `loading` is false |
| `RootChatBot.ChatBot.HandleSend` | GPTChatBot.js:22-56 | blank input leaves all three fields unchanged; otherwise the transcript is the assembled list plus the reply if any, the input is empty and `loading` is false; a send starts only while not loading (line 75) |
| `ComponentChatBot.InitialTranscript` | src/components/GPTChatBot.js:5-11 | the initial transcript is exactly one `system` message holding the widget's instruction |
| `ComponentChatBot.Assemble` | src/components/GPTChatBot.js:19 | the old transcript is a prefix, followed by exactly one user message with the raw input |
| `ComponentChatBot.AfterSendExtends` | src/components/GPTChatBot.js:16-37 | blank input changes nothing; otherwise the old transcript is a prefix, the user message follows it, and the length grows by 2 on success and 1 on failure |
| `ComponentChatBot.Label` | src/components/GPTChatBot.js:45 | the label is `You` exactly for `user`, `Bot` exactly for `assistant` and `System` exactly for every other role |
| `ComponentChatBot.Render` | src/components/GPTChatBot.js:43-47 | one line per message, system messages included, each with the message's content and its role's label |
| `ComponentChatBot.RenderAppend` | src/components/GPTChatBot.js:43-47 | the log of a concatenation is the concatenation of the logs |
| `ComponentChatBot.InitialLog` | src/components/GPTChatBot.js:5-11 | the opening instruction is shown as a `System` line |
| `ComponentChatBot.SendLog` | src/components/GPTChatBot.js:19-31 | after a non-blank send the log is the old log, then "You: input", then the reply's line if it has one |
| `ComponentChatBot.ChatBot.constructor` | src/components/GPTChatBot.js:5-14 | starts with the initial transcript, an empty text box and `loading` false |
| `ComponentChatBot.ChatBot.SetInput` | src/components/GPTChatBot.js:51 | the text box's change handler stores the typed text |
| `ComponentChatBot.ChatBot.BeginSend` | src/components/GPTChatBot.js:19-22 | before the request: the transcript is the assembled list, the input is empty and `loading` is true |
| `ComponentChatBot.ChatBot.EndSend` | src/components/GPTChatBot.js:24-35 | after the request: the transcript is the list sent plus the reply on success and unchanged on failure; `loading` is false |
| `ComponentChatBot.ChatBot.HandleSend` | src/components/GPTChatBot.js:16-37 | blank input leaves all three fields unchanged; otherwise the transcript is the assembled list plus the reply if any, the input is empty and `loading` is false; a send starts only while not loading (line 54) |

## Left out

- The `axios.post` calls and reading `response.data.choices[0].message` are network I/O. The
  outcome is the `reply` parameter. A response without `choices[0]` throws and counts as `None`.
  A `choices[0]` without a `message` would append `undefined`; that case is not modelled.
- `console.error` on failure is logging only.
- React itself is not modelled: rendering, JSX, styles, and the scheduling of state updates.
  `HandleSend` runs its two halves back to back. A change to the text box while the request is
  in flight is `SetInput` called between `BeginSend` and `EndSend`.
- Characters are Unicode scalar values, not the UTF-16 code units of JavaScript strings.
  Surrogate pairs are therefore not modelled. `\s` and `trim` use the ECMAScript whitespace set.
  `\b` uses `[A-Za-z0-9_]`, as a regular expression without the `u` flag does.
- General regular-expression matching is left out: only this one pattern is modelled.
- `src/App.js`, `src/index.js`, `src/components/ComparisonTable.js` and
  `src/components/CoverageCheckForm.js` are left out. They are layout, static data, and a form
  posting to an external eligibility service whose trace number comes from the clock.
- An anti-repetition hint, keyword topic prompts, local-storage persistence, "new chat", speech
  input, PDF export and an alert on a failed request are not in either widget's code, so none
  of them is modelled. A failed request is only logged to the console.
