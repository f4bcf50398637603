# DocAI consultation core, in Dafny

DocAI is a single-page Streamlit app (`app.py`). A patient fills in an intake
form with age, gender, medical history, medications, allergies and symptoms.
The page checks the form. It stores the intake in the session dictionary,
puts a patient summary at the head of a chat transcript, and asks a hosted
chat-completion model for a first reply. That request holds only an
instruction prompt built from the same fields. After that, each chat message
is appended to the transcript and sent with the whole transcript. "Start
Over" deletes the consultation's three session keys, and the form appears
again.

The project has five modules:

- `Text` (`text.dfy`) models Python's `str.strip()` over the code points
  `str.isspace()` accepts. It also renders an integer in decimal, which is
  what an f-string does with `{age}`, and proves that rendering can be read
  back.
- `CompletionClient` (`completion.dfy`) models `get_openai_response`. It
  converts each transcript message to a `{role, content}` dictionary. The
  completion service is an *oracle*: a total function from the request's
  message list to the reply text, passed in as a parameter.
- `PromptBuilder` (`prompt_builder.dfy`) holds the pure half of
  `symptom_form`:
  - the submission check;
  - the patient summary, where a blank optional field is shown as `None`;
  - the instruction prompt, modelled as a filled f-string (fixed fragments
    with the six fields between them).
- `Conversation` (`conversation.dfy`) models the session dictionary
  (`st.session_state`) as a map. Its three keys are `user_data`,
  `consult_started` and `chat_history`, and any other key is widget state.
  - Step functions say what one page run does with its one user action.
    Each returns the new dictionary and the list of requests sent to the
    completion service.
  - Lemmas prove the invariants these steps keep.
  - The `Session` class performs the same updates in place, statement by
    statement, and each of its methods is proved equal to its step function.
- `Wrappers` (`wrappers.dfy`) holds `Option`.

## Model

| member | source | states |
|---|---|---|
| `Text.Strip` | app.py:94 | The stripped text is a slice of the input, and everything cut off before and after it is whitespace. It is empty exactly when every character of the input is whitespace. A non-empty result starts and ends with a non-space. |
| `Text.StripBlank` | app.py:94 | Trimming both ends leaves nothing exactly when every character is whitespace. |
| `Text.NatToStringRoundTrip` | app.py:128 | The decimal rendering of a natural number reads back as that number. |
| `Text.IntToStringRoundTrip` | app.py:128 | The rendering of any integer, with a sign for negatives, reads back as that integer, so distinct ages render differently. |
| `Text.IntToString` | app.py:128 | `{age}` renders as a minus sign exactly for a negative age, then a non-empty run of digits with no leading zero unless the age is 0. `IntToStringRoundTrip` shows it reads back as the age. |
| `CompletionClient.ToWire` | app.py:37 | The dictionary for one message has exactly the keys `role` and `content`. They hold that message's role and text. |
| `CompletionClient.ToOpenAI` | app.py:36-39 | The request has one dictionary per message, at the same position, built from that message. |
| `CompletionClient.WireRoundTrip` | app.py:37 | One message's dictionary reads back as that message. |
| `CompletionClient.OpenAIRoundTrip` | app.py:36-39 | The request reads back as exactly the transcript it was built from: roles, texts, order and length. |
| `CompletionClient.OpenAIUnique` | app.py:36-39 | A request that reads back as a transcript is exactly that transcript's conversion, so the conversion is injective. |
| `CompletionClient.GetResponse` | app.py:35-44 | The reply is the service's answer to a request that reads back as exactly the given transcript, so the service sees those messages and nothing else. |
| `PromptBuilder.Validate` | app.py:90-96 | A submission passes exactly when the age lies in 1..120 and the symptoms hold a non-whitespace character. A bad age is reported first, whatever the symptoms say. Missing symptoms are reported only for a valid age. |
| `PromptBuilder.OrNone` | app.py:130-132 | A field is shown unchanged exactly when it holds a non-space character; otherwise it is shown as `None`. What is shown is never blank. |
| `PromptBuilder.OrNoneShows` | app.py:130-132 | A whitespace-only optional field is shown as `None`. A field with any non-space character is shown verbatim. What is shown is never blank. |
| `PromptBuilder.Summary` | app.py:126-134 | No contract of its own. It is `patient_summary`: the seven pieces of `SummaryLines` joined by newlines. `SummaryInOrder`, `SummaryIgnoresBlankText` and `SummaryIsNotPrompt` state its properties. |
| `PromptBuilder.SummaryInOrder` | app.py:126-134 | The summary holds its seven lines in the written order: the heading, the age in years, the gender, the three optional fields each verbatim or `None`, and the symptoms. |
| `PromptBuilder.SummaryIgnoresBlankText` | app.py:130-132 | Two intakes that differ only in which whitespace fills a blank optional field give the same summary. |
| `PromptBuilder.FillInOrder` | app.py:110-124 | Filling a template puts its replacement fields into the text one after another, in their order. |
| `PromptBuilder.InitialPrompt` | app.py:110-124 | No contract of its own. It is `initial_prompt`: the template fragments with the six raw fields filled in by `Fill`. `PromptInOrder` and `SummaryIsNotPrompt` state its properties. |
| `PromptBuilder.PromptInOrder` | app.py:110-124 | The instruction prompt carries the age, gender, medical history, medications, allergies and symptoms raw, in that order. Blank fields are not replaced by `None` here. |
| `PromptBuilder.SummaryIsNotPrompt` | app.py:126-140 | The summary and the instruction prompt are different texts for every intake. |
| `Conversation.TranscriptAppendTurn` | app.py:157-160 | A user turn and its reply extend a transcript of a consultation to another transcript of it: it still opens with the summary, roles still alternate, and it still ends with a reply. |
| `Conversation.FormOffered` | app.py:144 | No contract of its own. It is the guard `'user_data' not in st.session_state`. `RerunStep` and `RunAllSubmit` state what the form does on each side of it. |
| `Conversation.Started` | app.py:149 | No contract of its own. It is the guard `st.session_state.get('consult_started')` being truthy. `RerunStep` states that the chat box and "Start Over" act only when it holds. |
| `Conversation.SubmitStep` | app.py:90-141 | A rejected form changes nothing and sends nothing. An accepted form does all of the following: stores exactly the six fields; sets the flag; replaces any earlier transcript with the summary followed by the reply; makes one request whose only message is the prompt; leaves every other key alone. |
| `Conversation.SendStep` | app.py:155-161 | An empty chat input changes nothing. Otherwise the message and then the reply are appended after the unchanged earlier entries. The one request is the whole earlier transcript plus the new message, and no other key changes. |
| `Conversation.ResetStore` | app.py:163-167 | After "Start Over" none of the three keys is present, whichever were present before. The form is offered again, and every other key keeps its value. |
| `Conversation.RerunStep` | app.py:144-167 | A run with no input changes nothing. The chat box and "Start Over" do nothing before a consultation has started. The form does nothing once an intake is stored. While the form is offered, a submitted form is a submission step. During a consultation, a chat message is a send step, and "Start Over" clears the three keys and sends nothing. |
| `Conversation.SubmitKeepsInv` | app.py:98-141 | A submission keeps the dictionary reachable (idle or in a consultation) and leaves other keys alone. Its request ends with a user message. |
| `Conversation.SendKeepsInv` | app.py:155-161 | A chat message keeps a consultation a consultation and leaves other keys alone. A non-empty message makes exactly one request, and that request ends with the user's message itself. |
| `Conversation.SendKeepsOthers` | app.py:155-161 | A chat message keeps a consultation a consultation and changes no key other than the transcript. |
| `Conversation.SendAsksWithMessage` | app.py:156-159 | A non-empty chat message makes exactly one request, whose last message is the user's own text. All requests are non-empty and end with a user message. |
| `Conversation.RerunKeepsInv` | app.py:144-167 | Every run keeps the dictionary reachable and leaves other keys alone. Every request it makes is non-empty and ends with a user message. |
| `Conversation.SendExtends` | app.py:155-161 | A chat message keeps the stored intake, and the old transcript is a prefix of the new one. |
| `Conversation.RerunKeepsConsultation` | app.py:144-161 | Any run other than "Start Over" keeps a consultation's intake, and the old transcript stays a prefix of the new one. |
| `Conversation.RunAllPreservesInv` | app.py:144-167 | Over any sequence of runs the dictionary stays reachable and other keys keep their values. Every request is non-empty and ends with a user message. |
| `Conversation.TranscriptOnlyGrows` | app.py:144-161 | Until "Start Over", a consultation keeps its intake across any number of runs, and every earlier transcript entry stays in place. |
| `Conversation.StartOverThenSubmit` | app.py:98-167 | "Start Over" followed by an accepted form gives a fresh consultation for the new intake. Its transcript has two entries, the first being the new summary, and the only request is the new prompt. |
| `Conversation.StartOverThenSubmitRuns` | app.py:144-167 | Those two runs amount to a submission into the cleared dictionary. |
| `Conversation.RunAllStartOver` | app.py:163-167 | "Start Over" during a consultation sends nothing. The runs after it behave exactly as they would from the cleared dictionary. |
| `Conversation.RunAllSubmit` | app.py:144-145 | A run that submits the form is exactly one submission step while no intake is stored. Once an intake is stored the form is not shown, so the run changes nothing and sends nothing. |
| `Conversation.FirstCallSeesOnlyPrompt` | app.py:136-141 | The first request holds exactly one message, the prompt, and not the summary. The prompt is never stored in the transcript. |
| `Conversation.Session.constructor` | app.py:144 | A new session has an empty dictionary, so the form is offered, and no requests have been made. |
| `Conversation.Session.Submit` | app.py:90-141 | The in-place updates (write the intake, set the flag, empty the transcript, append the summary, ask, append the reply) leave exactly the dictionary and request log that `SubmitStep` describes. |
| `Conversation.Session.SendMessage` | app.py:155-161 | Appending the message, asking with the whole transcript and appending the reply leave the state that `SendStep` describes. |
| `Conversation.Session.StartOver` | app.py:163-167 | The loop over the three keys, deleting each one that is present, leaves the dictionary that `ResetStore` describes. |
| `Conversation.Session.Rerun` | app.py:144-167 | One run in place matches `RerunStep` and keeps the dictionary reachable. |

## Left out

- The network, the client object, the API key read from secrets and the
  model name: the completion service is the `Oracle` parameter. The model
  does not cover errors or exceptions from the service. A failed request in
  the source would leave `user_data` and the flag set with a partial
  transcript.
- The page's presentation is not modelled:
  - the page layout, CSS and markdown;
  - the spinner;
  - drawing the transcript (app.py:149-153).
- The completion service is modelled as a fixed function from request to
  reply, so the model gives one reply per request and identical requests get
  identical replies. The hosted model does not promise this. Every property
  is proved for every such function.
- `st.rerun()` is modelled as the end of a run, which is why each run
  handles one user action.
- Widget behaviour is not modelled:
  - the number input's clamping of the age to 1..120;
  - the gender select box's three options;
  - `clear_on_submit`.

  The model takes any integer age and any strings, so the form's own checks
  are modelled in full.
- Session keys are the datatype `Key`. `KeyName` gives the string under
  which the page stores each key. Widget state is `Other(name)`. Widget
  names are assumed to differ from the three page keys: `Other("user_data")`
  is a different key in the model, although Python would see the same
  dictionary entry. None of the page's widgets sets a `key=`, so no run of
  the page creates such an entry.
- Conversation.SendStep: requires the transcript key to hold a transcript.
  The source would raise `KeyError` if the flag were set without one, and
  `RerunKeepsInv` shows that no reachable state has that shape.
- Conversation.RerunStep: requires a reachable dictionary (`Inv`), for the
  same reason.
- The Unicode model of `str.strip()` covers only the code points
  `str.isspace()` accepts. The rest of Python's string semantics are not
  modelled: no normalisation, and no surrogates beyond Dafny's `char`.
