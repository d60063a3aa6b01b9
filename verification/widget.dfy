/** The whole widget as an event-driven system: the conversation state, whether
    the first render has happened, and the requests still awaiting a response.
    Responses may arrive in any order, so any in-flight request may resolve next. */
module Widget {
  import opened Wrappers
  import opened JsText
  import opened Conversation
  import opened View

  /** A handler suspended at its `await`, with what its continuation needs. */
  datatype Pending = AwaitChat(message: string) | AwaitUpload(file: File)

  /** `mounted` is false until `loadFaqs` renders for the first time; before
      that no handler is attached (script.js:127-128, 263). */
  datatype World = World(state: State, mounted: bool, inFlight: seq<Pending>)

  datatype Event =
    | FaqsArrive(faqOutcome: FaqOutcome)              // loadFaqs resumes (once, at startup)
    | Input(value: string)                             // oninput of the chat field
    | Submit                                           // onsubmit of the form: sendMessage(input)
    | Click(button: Button)                            // onclick of a suggestion, category or FAQ item
    | ChooseFile(file: Option<File>)                   // onchange of the file input
    | ChatArrives(chatIndex: nat, chatOutcome: ChatOutcome)         // a chat request resumes
    | UploadArrives(uploadIndex: nat, uploadOutcome: UploadOutcome) // an upload resumes

  function Boot(): (w: World)
    ensures !w.mounted && w.inFlight == [] && w.state == Initial()
  {
    World(Initial(), false, [])
  }

  /** The event can happen in this world. Once mounted, typing, submitting,
      clicking and choosing a file are always possible: this assumes text
      without markup, which the rendered page does not escape. */
  predicate Enabled(w: World, e: Event) {
    match e
    case FaqsArrive(_) => !w.mounted
    case Input(_) => w.mounted
    case Submit => w.mounted
    case Click(b) => w.mounted && ButtonText(Render(w.state), b).Some?
    case ChooseFile(_) => w.mounted
    case ChatArrives(k, _) => k < |w.inFlight| && w.inFlight[k].AwaitChat?
    case UploadArrives(k, _) => k < |w.inFlight| && w.inFlight[k].AwaitUpload?
  }

  function Remove(ps: seq<Pending>, k: nat): (r: seq<Pending>)
    requires k < |ps|
    ensures |r| == |ps| - 1
    ensures forall i :: 0 <= i < k ==> r[i] == ps[i]
    ensures forall i :: k <= i < |r| ==> r[i] == ps[i + 1]
  {
    ps[..k] + ps[k + 1..]
  }

  function Await(r: Request): Pending {
    match r
    case ChatRequest(m) => AwaitChat(m)
    case UploadRequest(f) => AwaitUpload(f)
  }

  /** Runs the synchronous part of a handler and records its request, if any. */
  function Issue(w: World, t: Transition): (w': World)
    ensures w'.state == t.next && w'.mounted == w.mounted
    ensures t.issued.None? ==> w'.inFlight == w.inFlight
    ensures t.issued.Some? ==> w'.inFlight == w.inFlight + [Await(t.issued.value)]
  {
    World(t.next, w.mounted, w.inFlight + (if t.issued.Some? then [Await(t.issued.value)] else []))
  }

  /** One event. Typing, submitting, clicking and choosing a file run the
      handler bound in `attachEventListeners`; `FaqsArrive`, `ChatArrives`
      and `UploadArrives` run what `loadFaqs`, `sendMessage` and
      `handleUpload` do after their `await`. */
  function Step(w: World, e: Event): (w': World)
    requires Enabled(w, e)
    ensures w'.mounted == (w.mounted || e.FaqsArrive?)
    ensures w.state.messages <= w'.state.messages
    ensures w.mounted ==> w'.state.faqs == w.state.faqs
  {
    match e
    case FaqsArrive(o) => World(LoadFaqs(w.state, o), true, w.inFlight)
    case Input(v) => w.(state := Type(w.state, v))
    case Submit => Issue(w, SendStart(w.state, w.state.input))
    case Click(b) => Issue(w, SendStart(w.state, ButtonText(Render(w.state), b).value))
    case ChooseFile(f) => Issue(w, UploadStart(w.state, f))
    case ChatArrives(k, o) =>
      World(SendResolve(w.state, o), w.mounted, Remove(w.inFlight, k))
    case UploadArrives(k, o) =>
      World(UploadResolve(w.state, w.inFlight[k].file, o), w.mounted, Remove(w.inFlight, k))
  }

  /** Handles the events in order; None if one of them cannot happen. */
  function Run(w: World, es: seq<Event>): Option<World>
    decreases |es|
  {
    if es == [] then Some(w)
    else if Enabled(w, es[0]) then Run(Step(w, es[0]), es[1..])
    else None
  }

  /** Running an enabled event first is stepping it, then running the rest. */
  lemma RunCons(w: World, e: Event, es: seq<Event>)
    requires Enabled(w, e)
    ensures Run(w, [e] + es) == Run(Step(w, e), es)
  {
  }

  /** Submitting text that some FAQ matches answers from the first such FAQ. */
  lemma SubmitAnsweredLocally(w: World, i: nat)
    requires w.mounted && !w.state.loading && !IsBlank(w.state.input)
    requires FirstMatch(w.state.faqs, w.state.input, i)
    ensures Enabled(w, Submit)
    ensures Step(w, Submit) == World(
      State(w.state.messages + [Message(User, w.state.input), Message(Bot, w.state.faqs[i].a)], "", false, w.state.faqs),
      true, w.inFlight)
  {
  }

  /** Submitting text that no FAQ matches issues a chat request and loads. */
  lemma SubmitGoesRemote(w: World)
    requires w.mounted && !w.state.loading && !IsBlank(w.state.input)
    requires forall j :: 0 <= j < |w.state.faqs| ==> !Matches(w.state.faqs[j], w.state.input)
    ensures Enabled(w, Submit)
    ensures Step(w, Submit) == World(
      State(w.state.messages + [Message(User, w.state.input)], "", true, w.state.faqs),
      true, w.inFlight + [AwaitChat(w.state.input)])
  {
  }

  /** Running two event sequences one after the other is running their concatenation. */
  lemma {:induction false} RunAppend(w: World, xs: seq<Event>, ys: seq<Event>)
    requires Run(w, xs).Some?
    ensures Run(w, xs + ys) == Run(Run(w, xs).value, ys)
    decreases |xs|
  {
    if xs == [] {
      assert xs + ys == ys;
    } else {
      assert (xs + ys)[1..] == xs[1..] + ys;
      RunAppend(Step(w, xs[0]), xs[1..], ys);
    }
  }

  // ---------------------------------------------------------------------------
  // Invariants over every run

  /** Nothing is stuck loading: `loading` is set only while some request is in flight. */
  predicate NoStuckLoading(w: World) {
    w.state.loading ==> |w.inFlight| > 0
  }

  lemma StepNoStuckLoading(w: World, e: Event)
    requires Enabled(w, e) && NoStuckLoading(w)
    ensures NoStuckLoading(Step(w, e))
  {
  }

  /** From boot, whatever happens, `loading` implies an outstanding request; so
      `loading` is false once every response has arrived. */
  lemma {:induction false} RunNoStuckLoading(w: World, es: seq<Event>)
    requires NoStuckLoading(w)
    ensures Run(w, es).Some? ==> NoStuckLoading(Run(w, es).value)
    decreases |es|
  {
    if es != [] && Enabled(w, es[0]) {
      StepNoStuckLoading(w, es[0]);
      RunNoStuckLoading(Step(w, es[0]), es[1..]);
    }
  }

  /** The transcript only grows, and once mounted the FAQ list never changes. */
  lemma {:induction false} RunAppendOnly(w: World, es: seq<Event>)
    ensures Run(w, es).Some? ==> w.state.messages <= Run(w, es).value.state.messages
    ensures Run(w, es).Some? && w.mounted ==> Run(w, es).value.state.faqs == w.state.faqs
    decreases |es|
  {
    if es != [] && Enabled(w, es[0]) {
      RunAppendOnly(Step(w, es[0]), es[1..]);
    }
  }

  /** Every response appends exactly one bot message, clears `loading`, and
      retires the request that arrived, keeping the others in order. */
  lemma ArrivalAppendsOneBotMessage(w: World, e: Event)
    requires (e.ChatArrives? || e.UploadArrives?) && Enabled(w, e)
    ensures |Step(w, e).state.messages| == |w.state.messages| + 1
    ensures Step(w, e).state.messages[|w.state.messages|].from == Bot
    ensures !Step(w, e).state.loading
    ensures Step(w, e).inFlight == Remove(w.inFlight, if e.ChatArrives? then e.chatIndex else e.uploadIndex)
  {
  }

  // ---------------------------------------------------------------------------
  // Single flight holds only while no upload is involved

  predicate IsUploadChoice(e: Event) {
    e.ChooseFile? && e.file.Some?
  }

  /** Without uploads, `loading` is exactly "a chat request is in flight", and
      there is never more than one. */
  predicate SingleFlight(w: World) {
    && (w.state.loading <==> |w.inFlight| > 0)
    && |w.inFlight| <= 1
    && forall i :: 0 <= i < |w.inFlight| ==> w.inFlight[i].AwaitChat?
  }

  lemma StepSingleFlight(w: World, e: Event)
    requires Enabled(w, e) && SingleFlight(w) && !IsUploadChoice(e)
    ensures SingleFlight(Step(w, e))
  {
  }

  lemma {:induction false} RunSingleFlight(w: World, es: seq<Event>)
    requires SingleFlight(w)
    requires forall i :: 0 <= i < |es| ==> !IsUploadChoice(es[i])
    ensures Run(w, es).Some? ==> SingleFlight(Run(w, es).value)
    decreases |es|
  {
    if es != [] && Enabled(w, es[0]) {
      StepSingleFlight(w, es[0]);
      RunSingleFlight(Step(w, es[0]), es[1..]);
    }
  }

  // ---------------------------------------------------------------------------
  // The FAQ shortcuts always answer locally

  /** Clicking FAQ shortcut `k` sends that FAQ's own question, which always
      matches itself: the widget answers at once with the first matching FAQ,
      which is `k` or an earlier one, and issues no request. */
  lemma FaqClickShortCircuits(w: World, k: nat)
    requires w.mounted && !w.state.loading
    requires k < |Render(w.state).faqShortcuts| && AttributeSafe(w.state.faqs[k].q)
    requires !IsBlank(w.state.faqs[k].q)
    ensures Enabled(w, Click(FaqItem(k)))
    ensures exists i :: (0 <= i <= k && FirstMatch(w.state.faqs, w.state.faqs[k].q, i)
      && Step(w, Click(FaqItem(k))).state.messages
         == w.state.messages + [Message(User, w.state.faqs[k].q), Message(Bot, w.state.faqs[i].a)])
    ensures !Step(w, Click(FaqItem(k))).state.loading
    ensures Step(w, Click(FaqItem(k))).inFlight == w.inFlight
  {
  }

  /** Clicking FAQ shortcut `k` whose question is blank sends that blank text,
      which `sendMessage` ignores. */
  lemma BlankFaqClickIgnored(w: World, k: nat)
    requires w.mounted
    requires k < |Render(w.state).faqShortcuts| && AttributeSafe(w.state.faqs[k].q)
    requires IsBlank(w.state.faqs[k].q)
    ensures Enabled(w, Click(FaqItem(k)))
    ensures Step(w, Click(FaqItem(k))) == w
  {
  }

  // ---------------------------------------------------------------------------
  // What the projection shows along a run

  /** Sends are ignored while a request is loading, whichever control fires. */
  lemma SendWhileLoadingIgnored(w: World, e: Event)
    requires (e.Submit? || e.Click?) && Enabled(w, e) && w.state.loading
    ensures Step(w, e) == w
  {
  }

  /** A longer transcript keeps every earlier bubble in place. */
  lemma BubblesAppendOnly(s: State, s': State)
    requires s.messages <= s'.messages
    ensures Render(s).bubbles <= Render(s').bubbles
  {
  }

  /** Along any run, "Thinking..." is shown only while a request is in flight,
      and the bubbles shown before are still shown, in the same places. */
  lemma RunView(w: World, es: seq<Event>)
    requires NoStuckLoading(w)
    requires Run(w, es).Some?
    ensures Render(Run(w, es).value.state).thinking ==> |Run(w, es).value.inFlight| > 0
    ensures Render(w.state).bubbles <= Render(Run(w, es).value.state).bubbles
  {
    RunNoStuckLoading(w, es);
    RunAppendOnly(w, es);
    BubblesAppendOnly(w.state, Run(w, es).value.state);
  }
}
