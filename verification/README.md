# College enquiry chat widget — a Dafny model

This project models the conversation state machine of the single-page
"College Inquiry AI" chat widget (`script.js`). The widget holds four pieces of
state: the transcript `messages`, the draft `input`, the `loading` flag and the
`faqs` list. It re-renders all of its markup after every change except typing,
which only sets `input`, and it mutates that state from three async handlers:

- `sendMessage` appends the user's message. It then answers from the first FAQ
  whose question contains the text, case-insensitively. Failing that, it asks
  the chat endpoint.
- `handleUpload` posts a knowledge-base file.
- `loadFaqs` fetches the FAQ list once at startup, falling back to two built-in
  entries.

The model is functional. Each handler is split at its `await`:

- `SendStart` / `SendResolve`
- `UploadStart` / `UploadResolve`
- `LoadFaqs`

The network result is a parameter: `ChatOutcome`, `UploadOutcome` or
`FaqOutcome`. `render` becomes `View.Render`, an abstract `View` record:

- the bubbles;
- the "Thinking..." flag;
- the disabled flags;
- the first five FAQs;
- the fixed suggestion and category labels.

Nothing in it is markup.

`Widget` puts the pieces together as an event system. A `World` holds the
state, whether the first render has happened, and the requests still awaiting
a response. Those requests may resolve in any order. `Step` handles one
event. Typing, submitting, clicking and choosing a file run the handler bound
in `attachEventListeners`. `FaqsArrive`, `ChatArrives` and `UploadArrives` run
what `loadFaqs`, `sendMessage` and `handleUpload` do after their `await`
(script.js:253-263, 197-214, 231-245). `Run` handles a sequence of events.
`Widget.RunNoStuckLoading` and `Widget.RunAppendOnly` hold over every run.
`Widget.RunSingleFlight` holds over runs in which no file is chosen.

Files:

- `wrappers.dfy`: `Option`.
- `text.dfy`: `trim`, `toLowerCase` and `includes`.
- `conversation.dfy`: the state and the handlers.
- `view.dfy`: the projection and the text each button sends.
- `widget.dfy`: events, runs and invariants.
- `scenarios.dfy`: concrete runs.

Some behaviours of the code are easy to misread; the model follows the code:

- **Escaping.** Message text, the input value, FAQ questions and FAQ answers
  are interpolated into the markup unescaped (script.js:58, 68, 98-100). The
  model therefore makes no claim that text is shown verbatim. `Bubble.source`
  is the string interpolated, not the text displayed. Such text can also
  change the page's structure; see "## Left out".
- **Single flight.** `handleUpload` has no `loading` guard (script.js:222-223).
  Only a CSS `pointer-events-none` on the Upload label keeps it from being
  used while loading (script.js:87). `Scenarios.UploadBreaksSingleFlight` shows
  the consequence. If a file is chosen while a chat request is in flight, and
  the upload's response arrives first, it clears `loading`. A second chat
  request can then be sent while the first is still outstanding. What the code
  does guarantee:
  - `loading` implies some request is in flight (`Widget.RunNoStuckLoading`).
  - In runs without an upload, exactly one chat request is in flight while
    `loading`, and none otherwise (`Widget.RunSingleFlight`).
- **Empty replies.** `data.reply || '...'` (script.js:207) treats every falsy
  reply alike: a missing reply and an empty string both give the "could not
  find that" text. `data.filename || file.name` (script.js:237) likewise falls
  back to the chosen file's name for a missing or empty `filename`.
- **File input.** After an upload, `ev.target.value = ''` (script.js:244) clears
  the file input that existed before the intervening `render` calls. That
  element is already detached, so it has no effect on state.
- **Before the first render.** Handlers are attached only by
  `attachEventListeners`, which only `render` calls (script.js:127-128). The
  first `render` call is the one at the end of `loadFaqs` (script.js:263). No
  typing, click or file choice reaches the state before then
  (`World.mounted`).

## Model

| member | source | states |
|---|---|---|
| JsText.Trim | script.js:179 | `text.trim()` is empty exactly when every character is ECMAScript whitespace or a line terminator; otherwise it starts and ends with a non-whitespace character |
| JsText.Lower | script.js:186 | lower-casing keeps the length and maps each character separately, 'A'..'Z' to 'a'..'z' and nothing else |
| JsText.Includes | script.js:186 | `hay.includes(needle)` holds exactly when `needle` occurs at some position of `hay` |
| Conversation.Initial | script.js:4-12 | the widget starts with one bot greeting, an empty input, not loading and no FAQs |
| Conversation.Type | script.js:140-142 | typing replaces `input` with the field's value verbatim and changes nothing else |
| Conversation.FindFaq | script.js:186 | `faqs.find` returns the first FAQ whose lower-cased question contains the lower-cased text, and nothing exactly when no FAQ does |
| Conversation.SendStart | script.js:178-195 | the send is ignored exactly when the text trims to empty or a request is loading; otherwise the untrimmed text is appended as a user message and the input is cleared; then either the first matching FAQ's answer is appended with no request and no loading, or, when nothing matches, the chat request carrying the text is issued and `loading` is set |
| Conversation.ReplyText | script.js:204-210 | a 2xx reply that is present and non-empty is shown as is; a missing or empty reply gives "Sorry, I could not find that."; a non-2xx status or an exception gives the admissions@college.edu fallback |
| Conversation.SendResolve | script.js:197-214 | whatever the outcome, the chat response appends exactly one bot message and leaves `loading` false |
| Conversation.SendRoundTrip | script.js:178-215 | a send that goes to the network, followed by its response, appends the user message and then exactly one bot reply, clears the input and ends not loading, with the FAQs untouched |
| Conversation.UploadStart | script.js:221-229 | with no file nothing changes and nothing is sent; with a file, `loading` is set and the upload request carrying it is issued, whether or not something was already loading |
| Conversation.UploadReplyText | script.js:231-239 | a 2xx upload is acknowledged with "Knowledge uploaded: NAME. ..." where NAME is the server's filename, or the chosen file's name when that is missing or empty; any failure gives "Upload failed. Try again or contact the admin." |
| Conversation.UploadResolve | script.js:231-245 | whatever the outcome, the upload response appends exactly one bot message and leaves `loading` false |
| Conversation.UploadRoundTrip | script.js:221-246 | an upload followed by its response leaves the state as it was, except for one appended bot message and a cleared `loading` |
| Conversation.LoadFaqs | script.js:251-264 | the FAQ list becomes the server's list on a 2xx response and the built-in pair on a non-2xx status or an exception; nothing else changes |
| View.Render | script.js:39-125 | one bubble per message in order, user-styled exactly for user messages; "Thinking..." and the disabled input, Send button and Upload label exactly while loading; the first min(5, number of FAQs) FAQs as shortcuts; the five suggestions and six categories always |
| View.ButtonText | script.js:155-161 | a suggestion or category button sends its own label; an FAQ item sends its own question; there is no text for a button the view does not have |
| Widget.Boot | script.js:266-269 | at page load nothing is rendered and no chat or upload request is in flight; the FAQ request is pending until `FaqsArrive` |
| Widget.Step | script.js:135-170 | every handled event keeps the transcript as a prefix of the new one; once the widget is mounted, no event changes the FAQ list |
| Widget.SubmitAnsweredLocally | script.js:178-191 | submitting a non-blank input that an FAQ matches appends the user message and the first matching answer, clears the input and issues no request |
| Widget.SubmitGoesRemote | script.js:178-195 | submitting a non-blank input that no FAQ matches appends the user message, clears the input, sets `loading` and puts one chat request in flight |
| Widget.SendWhileLoadingIgnored | script.js:179 | a submit or a button click while loading leaves the whole widget unchanged |
| Widget.StepNoStuckLoading | script.js:194-245 | no event can leave `loading` set with nothing in flight |
| Widget.RunNoStuckLoading | script.js:178-264 | along every run, `loading` implies an outstanding request, so `loading` is false once every response has arrived |
| Widget.RunAppendOnly | script.js:178-264 | along every run the transcript only grows, and after the first render the FAQ list never changes |
| Widget.ArrivalAppendsOneBotMessage | script.js:197-245 | every chat or upload response appends exactly one bot message, clears `loading`, and removes from the in-flight list exactly the request that arrived, keeping the others in order |
| Widget.StepSingleFlight | script.js:179-195 | an event other than choosing a file keeps "loading exactly while one chat request is in flight" |
| Widget.RunSingleFlight | script.js:178-215 | in runs where no file is chosen, `loading` holds exactly while a chat request is in flight, and at most one is |
| Widget.FaqClickShortCircuits | script.js:155-191 | clicking FAQ shortcut k whose question is non-blank and free of `"`, `&`, CR and NUL sends that question, which always matches itself; the answer appended is that of the first matching FAQ, k or an earlier one; no request is issued and the widget is not loading |
| Widget.BlankFaqClickIgnored | script.js:155-179 | clicking FAQ shortcut k whose question is blank sends that blank text, and `sendMessage` returns at its guard: the widget is unchanged |
| Widget.BubblesAppendOnly | script.js:55-61 | a longer transcript keeps every earlier bubble in its place |
| Widget.RunView | script.js:55-62 | along every run, "Thinking..." is shown only while a request is in flight, and earlier bubbles stay in place |
| Scenarios.FaqLoadFailureScenario | script.js:251-264 | if the FAQ endpoint fails at startup, the FAQs are the built-in pair and the sidebar lists exactly that pair |
| Scenarios.DeadlineScenario | script.js:178-191 | with the fallback FAQs, sending "What is the application deadline?" appends that user message and the fallback deadline answer, with no request |
| Scenarios.HostelsScenario | script.js:178-214 | with the fallback FAQs, "Tell me about hostels" goes to the chat endpoint; after a non-2xx response the last message is the connectivity fallback and nothing is loading |
| Scenarios.UploadScenario | script.js:221-245 | a successful upload of transcript.csv is acknowledged by a bot message that contains "transcript.csv" |
| Scenarios.UploadBreaksSingleFlight | script.js:221-229 | because uploads ignore `loading`, a run exists in which two chat requests are in flight at once |

## Left out

- HTML: building the markup strings, `innerHTML`, the static headings, and the
  CSS classes other than those the `View` flags stand for. They are
  presentation, so the view is modelled as data only.
- Escaping: the model makes no claim about how interpolated text is displayed.
  The input element's `value` attribute is not modelled either. For strings
  that contain markup or quotes it does not echo `input`.
- Markup in text: a message, the draft input or an FAQ entry containing markup
  or quotes can remove controls from the page or add attributes to them. For
  example, a sent `<!--` swallows the rest of the template, so no handler is
  bound again; a draft `" disabled x="` rendered on upload disables the input
  while not loading. `Widget.Enabled` and the `View` flags assume text without
  markup: once mounted they keep every control available, and the disabled
  flags follow `loading` exactly.
- Rebinding: `scrollToBottom` and its `setTimeout`, DOM lookups, and
  re-attaching handlers on every render are browser plumbing. The model
  assumes that every event reaches the handler bound by the latest render.
- View.ButtonText: a click on an FAQ item whose question contains `"`, `&`,
  CR or NUL is not modelled. For such a question, the `data-question`
  attribute does not carry it back unchanged, and HTML attribute parsing is
  outside the model.
- JsText.Lower: `toLowerCase` uses the full Unicode case mapping. The model
  lower-cases only ASCII letters, so FAQ matching on non-ASCII letters is
  modelled as case-sensitive.
- JsText.Trim: strings are sequences of Unicode scalar values, not UTF-16 code
  units, so lone surrogates cannot be represented.
- Transport: `fetch`, JSON parsing, `FormData` and the endpoint URLs are
  external. They appear only through the outcome datatypes:
  - a malformed body counts as `ChatThrown` / `UploadThrown`;
  - a 2xx FAQ body is taken as given, without validating its shape;
  - a non-string truthy `reply` or `filename` is not representable.
- Malformed FAQ entries: the `TypeError` that `find` would throw on an entry
  without a string `q` is not modelled. FAQ entries are always pairs of
  strings.
- The file input: clearing its value after an upload is left out. It acts on a
  detached element and changes no state.
- Browser disabling: the browser does not deliver typing into a disabled input.
  The model does not rely on that. Typing and submitting stay possible while
  loading, and the guard in `sendMessage` is what ignores the submit.
