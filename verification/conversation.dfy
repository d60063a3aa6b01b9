/** The widget's conversation state and the transitions of its async handlers.
    Each `async` handler is split at its `await`: a Start function does the
    synchronous part up to the request, and a Resolve function does the
    continuation, given the network outcome as a parameter. */
module Conversation {
  import opened Wrappers
  import opened JsText

  datatype Origin = User | Bot

  /** A transcript entry `{from, text}`. */
  datatype Message = Message(from: Origin, text: string)

  /** An FAQ entry `{q, a}`: a question and its canned answer. */
  datatype Faq = Faq(q: string, a: string)

  /** A file chosen in the knowledge-base input; only its name matters here. */
  datatype File = File(name: string)

  /** The four module-level variables of the widget. */
  datatype State = State(messages: seq<Message>, input: string, loading: bool, faqs: seq<Faq>)

  const Greeting: string :=
    "Hi! I can help with admissions, courses, fees, placements and more. How can I help you today?"
  const NotFoundReply: string := "Sorry, I could not find that."
  const ConnectivityReply: string :=
    "Sorry — I'm having trouble connecting. You can contact admissions@college.edu"
  const UploadFailedReply: string := "Upload failed. Try again or contact the admin."

  /** The built-in FAQ list used when the FAQ endpoint fails. */
  const FallbackFaqs: seq<Faq> := [
    Faq("What is the application deadline?",
        "Deadlines vary by program; generally before June 30 for fall intake."),
    Faq("How do I apply for scholarship?",
        "You can apply through the scholarships page after submitting your application.")
  ]

  /** State at page load: one bot greeting, empty input, not loading, no FAQs yet. */
  function Initial(): (s: State)
    ensures |s.messages| == 1 && s.messages[0].from == Bot
    ensures s.input == [] && !s.loading && s.faqs == []
  {
    State([Message(Bot, Greeting)], "", false, [])
  }

  /** A request the widget has sent and whose response it awaits. */
  datatype Request = ChatRequest(message: string) | UploadRequest(file: File)

  /** The synchronous part of a handler: the state it leaves and the request it
      issued, if any. */
  datatype Transition = Transition(next: State, issued: Option<Request>)

  /** What `fetch('/api/chat')` came to: a 2xx response whose JSON body has the
      given `reply` field (None when absent or falsy), a non-2xx response, or an
      exception (network error, unparsable body). */
  datatype ChatOutcome = ChatOk(reply: Option<string>) | ChatNotOk | ChatThrown

  /** What `fetch('/api/upload-knowledge')` came to, `filename` as for `reply`. */
  datatype UploadOutcome = UploadOk(filename: Option<string>) | UploadNotOk | UploadThrown

  /** What `fetch('/api/faqs')` came to; a 2xx body is taken as the FAQ list. */
  datatype FaqOutcome = FaqsOk(data: seq<Faq>) | FaqsNotOk | FaqsThrown

  /** The `oninput` handler: `input` becomes the field's value. */
  function Type(s: State, value: string): (r: State)
    ensures r.input == value
    ensures r.messages == s.messages && r.loading == s.loading && r.faqs == s.faqs
  {
    s.(input := value)
  }

  /** The FAQ test of `sendMessage`: the lower-cased question contains the
      lower-cased text. */
  predicate Matches(f: Faq, text: string) {
    Includes(Lower(f.q), Lower(text))
  }

  /** `i` is the index `faqs.find` stops at: the first FAQ that matches. */
  ghost predicate FirstMatch(faqs: seq<Faq>, text: string, i: int) {
    0 <= i < |faqs| && Matches(faqs[i], text) && forall j :: 0 <= j < i ==> !Matches(faqs[j], text)
  }

  /** There is at most one first match. */
  lemma FirstMatchUnique(faqs: seq<Faq>, text: string, i: int, k: int)
    requires FirstMatch(faqs, text, i) && FirstMatch(faqs, text, k)
    ensures i == k
  {
  }

  /** `faqs.find(...)`, returning the index of the match. */
  function FindFaq(faqs: seq<Faq>, text: string): (r: Option<nat>)
    ensures r.Some? ==> FirstMatch(faqs, text, r.value)
    ensures r.None? ==> forall j :: 0 <= j < |faqs| ==> !Matches(faqs[j], text)
  {
    if faqs == [] then None
    else if Matches(faqs[0], text) then Some(0)
    else
      match FindFaq(faqs[1..], text)
      case None => None
      case Some(i) => Some(i + 1)
  }

  /** `sendMessage(text)` up to its `await`. */
  function SendStart(s: State, text: string): (t: Transition)
    // the guard: nothing happens exactly when the text trims to empty or a request is loading
    ensures (IsBlank(text) || s.loading) <==> t == Transition(s, None)
    ensures !IsBlank(text) && !s.loading ==>
      && |t.next.messages| > |s.messages|
      && t.next.messages[..|s.messages| + 1] == s.messages + [Message(User, text)]
      && t.next.input == [] && t.next.faqs == s.faqs
    // short-circuit: the first matching FAQ answers at once, no request
    ensures !IsBlank(text) && !s.loading ==>
      forall i :: FirstMatch(s.faqs, text, i) ==>
        && t.next.messages == s.messages + [Message(User, text), Message(Bot, s.faqs[i].a)]
        && !t.next.loading && t.issued == None
    // otherwise the chat request carrying the text is issued and the widget is loading
    ensures !IsBlank(text) && !s.loading && (forall j :: 0 <= j < |s.faqs| ==> !Matches(s.faqs[j], text)) ==>
      && t.next.messages == s.messages + [Message(User, text)]
      && t.next.loading && t.issued == Some(ChatRequest(text))
  {
    // `!text.trim()`: Trim's contract makes this the same test as IsBlank(text)
    if IsBlank(text) || s.loading then
      Transition(s, None)
    else
      var sent := s.(messages := s.messages + [Message(User, text)], input := "");
      match FindFaq(s.faqs, text)
      case Some(k) =>
        assert forall i :: FirstMatch(s.faqs, text, i) ==> i == k by {
          forall i | FirstMatch(s.faqs, text, i) ensures i == k {
            FirstMatchUnique(s.faqs, text, i, k);
          }
        }
        Transition(sent.(messages := sent.messages + [Message(Bot, s.faqs[k].a)]), None)
      case None =>
        Transition(sent.(loading := true), Some(ChatRequest(text)))
  }

  /** The bot message the chat continuation pushes for an outcome. */
  function ReplyText(o: ChatOutcome): (r: string)
    ensures o.ChatOk? && o.reply.Some? && o.reply.value != [] ==> r == o.reply.value
    ensures o.ChatOk? && (o.reply.None? || o.reply.value == []) ==> r == NotFoundReply
    ensures !o.ChatOk? ==> r == ConnectivityReply
    ensures r != []
  {
    match o
    case ChatOk(reply) => if reply.Some? && reply.value != [] then reply.value else NotFoundReply
    case _ => ConnectivityReply
  }

  /** `sendMessage` after its `await`: the try/catch pushes one bot message and
      the `finally` clears `loading`, whatever the outcome. */
  function SendResolve(s: State, o: ChatOutcome): (r: State)
    ensures r.messages == s.messages + [Message(Bot, ReplyText(o))]
    ensures !r.loading
    ensures r.input == s.input && r.faqs == s.faqs
  {
    s.(messages := s.messages + [Message(Bot, ReplyText(o))], loading := false)
  }

  /** `handleUpload(ev)` up to its `await`: no file, no change; otherwise loading
      and the upload request issued. There is no `loading` guard. */
  function UploadStart(s: State, file: Option<File>): (t: Transition)
    ensures file.None? <==> t == Transition(s, None)
    ensures file.Some? ==>
      && t.next == s.(loading := true)
      && t.issued == Some(UploadRequest(file.value))
  {
    match file
    case None => Transition(s, None)
    case Some(f) => Transition(s.(loading := true), Some(UploadRequest(f)))
  }

  /** The confirmation an upload gets: the server's filename when present and
      non-empty, else the chosen file's own name. */
  function UploadedReply(name: string): string {
    "Knowledge uploaded: " + name + ". I will use it to answer future questions."
  }

  /** The bot message the upload continuation pushes for an outcome. */
  function UploadReplyText(f: File, o: UploadOutcome): (r: string)
    ensures o.UploadOk? && o.filename.Some? && o.filename.value != [] ==> r == UploadedReply(o.filename.value)
    ensures o.UploadOk? && (o.filename.None? || o.filename.value == []) ==> r == UploadedReply(f.name)
    ensures !o.UploadOk? ==> r == UploadFailedReply
  {
    match o
    case UploadOk(filename) =>
      UploadedReply(if filename.Some? && filename.value != [] then filename.value else f.name)
    case _ => UploadFailedReply
  }

  /** `handleUpload` after its `await`: one bot message, `loading` cleared. */
  function UploadResolve(s: State, f: File, o: UploadOutcome): (r: State)
    ensures r.messages == s.messages + [Message(Bot, UploadReplyText(f, o))]
    ensures !r.loading
    ensures r.input == s.input && r.faqs == s.faqs
  {
    s.(messages := s.messages + [Message(Bot, UploadReplyText(f, o))], loading := false)
  }

  /** `loadFaqs`: the server's list on a 2xx response, else the fallback list. */
  function LoadFaqs(s: State, o: FaqOutcome): (r: State)
    ensures o.FaqsOk? ==> r.faqs == o.data
    ensures !o.FaqsOk? ==> r.faqs == FallbackFaqs
    ensures r.messages == s.messages && r.input == s.input && r.loading == s.loading
  {
    s.(faqs := if o.FaqsOk? then o.data else FallbackFaqs)
  }

  /** A send that goes to the network, followed by its response, appends the
      user's message and then exactly one bot reply, clears the input, and
      leaves the widget not loading, with the FAQ list untouched. */
  lemma SendRoundTrip(s: State, text: string, o: ChatOutcome)
    requires !IsBlank(text) && !s.loading
    requires forall j :: 0 <= j < |s.faqs| ==> !Matches(s.faqs[j], text)
    ensures SendStart(s, text).issued == Some(ChatRequest(text))
    ensures SendResolve(SendStart(s, text).next, o)
      == State(s.messages + [Message(User, text), Message(Bot, ReplyText(o))], "", false, s.faqs)
  {
  }

  /** An upload followed by its response restores the state it started from
      except for exactly one appended bot message and a cleared `loading`. */
  lemma UploadRoundTrip(s: State, f: File, o: UploadOutcome)
    ensures UploadStart(s, Some(f)).issued == Some(UploadRequest(f))
    ensures UploadResolve(UploadStart(s, Some(f)).next, f, o)
      == s.(messages := s.messages + [Message(Bot, UploadReplyText(f, o))], loading := false)
  {
  }
}
