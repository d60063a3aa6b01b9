/** What `render` projects from the state, as data rather than markup, and the
    text each button hands to `sendMessage` when clicked. */
module View {
  import opened Wrappers
  import opened Conversation

  /** The quick-suggestion buttons under the form. */
  const Suggestions: seq<string> :=
    ["Admission deadlines", "Courses offered", "Scholarships", "Hostel details", "Placement statistics"]

  /** The "Ask by category" buttons. */
  const Categories: seq<string> := ["Admissions", "Courses", "Fees", "Hostel", "Placements", "Scholarship"]

  /** How many FAQs the sidebar lists. */
  const FaqShortcutLimit: nat := 5

  /** One transcript bubble: right-aligned and blue for the user, left-aligned and
      white for the bot. `source` is the message string as interpolated into the
      bubble; it is not escaped, so it is not claimed to be the text displayed. */
  datatype Bubble = Bubble(fromUser: bool, source: string)

  datatype View = View(
    bubbles: seq<Bubble>,
    thinking: bool,          // the "Thinking..." line after the last bubble
    inputDisabled: bool,
    sendDisabled: bool,
    uploadLocked: bool,      // the Upload label's `pointer-events-none`
    faqShortcuts: seq<Faq>,
    suggestions: seq<string>,
    categories: seq<string>)

  function Min(a: int, b: int): int { if a <= b then a else b }

  /** `render()`, keeping the data each part of the markup is built from. */
  function Render(s: State): (v: View)
    ensures |v.bubbles| == |s.messages|
    ensures forall i :: 0 <= i < |s.messages| ==>
      v.bubbles[i].source == s.messages[i].text && (v.bubbles[i].fromUser <==> s.messages[i].from == User)
    ensures v.thinking <==> s.loading
    ensures v.inputDisabled <==> s.loading
    ensures v.sendDisabled <==> s.loading
    ensures v.uploadLocked <==> s.loading
    ensures |v.faqShortcuts| == Min(FaqShortcutLimit, |s.faqs|)
    ensures forall i :: 0 <= i < |v.faqShortcuts| ==> v.faqShortcuts[i] == s.faqs[i]
    ensures v.suggestions == Suggestions && v.categories == Categories
  {
    View(
      seq(|s.messages|, i requires 0 <= i < |s.messages| => Bubble(s.messages[i].from == User, s.messages[i].text)),
      s.loading,
      s.loading,
      s.loading,
      s.loading,
      s.faqs[..Min(FaqShortcutLimit, |s.faqs|)],
      Suggestions,
      Categories)
  }

  /** The clickable elements `attachEventListeners` binds, by position. */
  datatype Button = SuggestionButton(index: nat) | CategoryButton(index: nat) | FaqItem(index: nat)

  /** A string that survives the round trip through a double-quoted HTML
      attribute unchanged: no quote, no character reference, and nothing the
      HTML input stream normalises (CR, NUL). */
  predicate AttributeSafe(s: string) {
    forall i :: 0 <= i < |s| ==> s[i] != '"' && s[i] != '&' && s[i] != '\r' && s[i] != '\0'
  }

  /** `dataset.text || dataset.question` of the clicked element: a suggestion or
      category button carries its label in `data-text`; an FAQ item has no
      `data-text` and carries its question in `data-question`. None when the
      view has no such element, or when the question would be altered by
      attribute parsing (not modelled). */
  function ButtonText(v: View, b: Button): (r: Option<string>)
    ensures b.SuggestionButton? ==>
      (r.Some? <==> b.index < |v.suggestions|) && (r.Some? ==> r.value == v.suggestions[b.index])
    ensures b.CategoryButton? ==>
      (r.Some? <==> b.index < |v.categories|) && (r.Some? ==> r.value == v.categories[b.index])
    ensures b.FaqItem? ==>
      (r.Some? <==> b.index < |v.faqShortcuts| && AttributeSafe(v.faqShortcuts[b.index].q))
      && (r.Some? ==> r.value == v.faqShortcuts[b.index].q)
  {
    match b
    case SuggestionButton(i) => if i < |v.suggestions| then Some(v.suggestions[i]) else None
    case CategoryButton(i) => if i < |v.categories| then Some(v.categories[i]) else None
    case FaqItem(i) =>
      if i < |v.faqShortcuts| && AttributeSafe(v.faqShortcuts[i].q) then Some(v.faqShortcuts[i].q) else None
  }
}
