/** Concrete runs of the widget from page load. */
module Scenarios {
  import opened Wrappers
  import opened JsText
  import opened Conversation
  import opened View
  import opened Widget

  /** The world after a failed FAQ load: greeting only, fallback FAQs, mounted. */
  function FallbackMounted(): World {
    World(State([Message(Bot, Greeting)], "", false, FallbackFaqs), true, [])
  }

  /** A string without either case of a letter has no lower-case form of it. */
  lemma LowerLacks(s: string, lower: char, upper: char)
    requires 'a' <= lower <= 'z' && upper as int == lower as int - 32
    requires forall i :: 0 <= i < |s| ==> s[i] != lower && s[i] != upper
    ensures lower !in Lower(s)
  {
  }

  /** The FAQ endpoint fails at startup: the built-in pair is used and listed. */
  lemma FaqLoadFailureScenario(o: FaqOutcome)
    requires !o.FaqsOk?
    ensures Run(Boot(), [FaqsArrive(o)]) == Some(FallbackMounted())
    ensures Render(FallbackMounted().state).faqShortcuts == FallbackFaqs
  {
  }

  /** After a failed FAQ load, sending the first fallback question appends the
      user message and that FAQ's answer, with no request issued. */
  lemma DeadlineScenario(q: string)
    requires q == "What is the application deadline?"
    ensures
      Run(FallbackMounted(), [Input(q), Submit]) == Some(World(
        State([Message(Bot, Greeting), Message(User, q), Message(Bot, FallbackFaqs[0].a)], "", false, FallbackFaqs),
        true, []))
  {
    var w1 := FallbackMounted();
    var w2 := Step(w1, Input(q));
    NotBlank(q, 0);
    IncludesSelf(Lower(q));
    assert FirstMatch(w2.state.faqs, q, 0);
    SubmitAnsweredLocally(w2, 0);
    var w3 := Step(w2, Submit);
    assert w3.state.messages == [Message(Bot, Greeting)] + [Message(User, q), Message(Bot, FallbackFaqs[0].a)];
    RunCons(w1, Input(q), [Submit]);
    RunCons(w2, Submit, []);
    assert Run(w3, []) == Some(w3);
    assert [Input(q), Submit] == [Input(q)] + [Submit];
    assert [Submit] == [Submit] + [];
    assert Run(w2, [Submit]) == Some(w3);
    assert Run(w1, [Input(q), Submit]) == Some(w3);
    assert w3.state == State([Message(Bot, Greeting), Message(User, q), Message(Bot, FallbackFaqs[0].a)], "", false, FallbackFaqs);
    assert w3.inFlight == [];
  }

  /** After a failed FAQ load, a question that no FAQ contains goes to the chat
      endpoint; a non-2xx response leaves the connectivity fallback as the last
      message and the widget not loading. */
  lemma HostelsScenario(q: string)
    requires q == "Tell me about hostels"
    ensures
      Run(FallbackMounted(), [Input(q), Submit, ChatArrives(0, ChatNotOk)]) == Some(World(
        State([Message(Bot, Greeting), Message(User, q), Message(Bot, ConnectivityReply)], "", false, FallbackFaqs),
        true, []))
  {
    var w1 := FallbackMounted();
    var w2 := Step(w1, Input(q));
    NotBlank(q, 0);
    HostelsMatchesNoFaq(q);
    SubmitGoesRemote(w2);
    var w3 := Step(w2, Submit);
    var w4 := Step(w3, ChatArrives(0, ChatNotOk));
    assert w4.state.messages == [Message(Bot, Greeting)] + [Message(User, q)] + [Message(Bot, ConnectivityReply)];
    RunCons(w1, Input(q), [Submit, ChatArrives(0, ChatNotOk)]);
    RunCons(w2, Submit, [ChatArrives(0, ChatNotOk)]);
    RunCons(w3, ChatArrives(0, ChatNotOk), []);
    assert Run(w4, []) == Some(w4);
    assert [Input(q), Submit, ChatArrives(0, ChatNotOk)] == [Input(q)] + [Submit, ChatArrives(0, ChatNotOk)];
    assert [Submit, ChatArrives(0, ChatNotOk)] == [Submit] + [ChatArrives(0, ChatNotOk)];
    assert [ChatArrives(0, ChatNotOk)] == [ChatArrives(0, ChatNotOk)] + [];
    assert Run(w3, [ChatArrives(0, ChatNotOk)]) == Some(w4);
    assert Run(w2, [Submit, ChatArrives(0, ChatNotOk)]) == Some(w4);
    assert Run(w1, [Input(q), Submit, ChatArrives(0, ChatNotOk)]) == Some(w4);
    assert w4.state == State([Message(Bot, Greeting), Message(User, q), Message(Bot, ConnectivityReply)], "", false, FallbackFaqs);
  }

  /** "Tell me about hostels" is in neither fallback question: its 'm' (from
      "me") is absent from the first and its 't' from the second. */
  lemma HostelsMatchesNoFaq(q: string)
    requires q == "Tell me about hostels"
    ensures forall j :: 0 <= j < |FallbackFaqs| ==> !Matches(FallbackFaqs[j], q)
  {
    var lq := Lower(q);
    assert lq[5] == 'm' && lq[0] == 't';
    var q0, q1 := FallbackFaqs[0].q, FallbackFaqs[1].q;
    assert q0 == "What is the application deadline?";
    assert forall i :: 0 <= i < |q0| ==> q0[i] != 'm' && q0[i] != 'M';
    assert q1 == "How do I apply for scholarship?";
    assert forall i :: 0 <= i < |q1| ==> q1[i] != 't' && q1[i] != 'T';
    LowerLacks(q0, 'm', 'M');
    LowerLacks(q1, 't', 'T');
    MissingCharNotIncluded(Lower(FallbackFaqs[0].q), lq, 5);
    MissingCharNotIncluded(Lower(FallbackFaqs[1].q), lq, 0);
  }

  /** A successful upload of transcript.csv is acknowledged by a bot message
      that contains the file name. */
  lemma UploadScenario()
    ensures
      var f := File("transcript.csv");
      var r := Run(FallbackMounted(), [ChooseFile(Some(f)), UploadArrives(0, UploadOk(Some("transcript.csv")))]);
      && r.Some?
      && |r.value.state.messages| == 2
      && r.value.state.messages[1].from == Bot
      && Includes(r.value.state.messages[1].text, "transcript.csv")
      && !r.value.state.loading
  {
    var f := File("transcript.csv");
    var e1, e2 := ChooseFile(Some(f)), UploadArrives(0, UploadOk(Some("transcript.csv")));
    var w1 := FallbackMounted();
    var w2 := Step(w1, e1);
    var w3 := Step(w2, e2);
    assert w3.state.messages[1].text == UploadedReply("transcript.csv");
    assert OccursAt(UploadedReply("transcript.csv"), "transcript.csv", 20);
    RunCons(w1, e1, [e2]);
    RunCons(w2, e2, []);
    assert [e1, e2] == [e1] + [e2];
    assert [e2] == [e2] + [];
  }

  /** A chat request goes out (no FAQs loaded), then a file is chosen while it
      is loading: both requests are in flight. */
  lemma ChatThenUpload(a: string, f: File)
    requires !IsBlank(a)
    ensures Run(Boot(), [FaqsArrive(FaqsOk([])), Input(a), Submit, ChooseFile(Some(f))]) == Some(World(
      State([Message(Bot, Greeting), Message(User, a)], "", true, []), true, [AwaitChat(a), AwaitUpload(f)]))
  {
    var e0, e1, e2, e3 := FaqsArrive(FaqsOk([])), Input(a), Submit, ChooseFile(Some(f));
    var w0 := Boot();
    var w1 := Step(w0, e0);
    var w2 := Step(w1, e1);
    SubmitGoesRemote(w2);
    var w3 := Step(w2, e2);
    var w4 := Step(w3, e3);
    assert w4.inFlight == [AwaitChat(a), AwaitUpload(f)];
    assert w4.state.messages == [Message(Bot, Greeting)] + [Message(User, a)];
    RunCons(w3, e3, []);
    assert [e3] == [e3] + [];
    RunCons(w2, e2, [e3]);
    assert [e2, e3] == [e2] + [e3];
    RunCons(w1, e1, [e2, e3]);
    assert [e1, e2, e3] == [e1] + [e2, e3];
    RunCons(w0, e0, [e1, e2, e3]);
    assert [e0, e1, e2, e3] == [e0] + [e1, e2, e3];
    assert Run(w4, []) == Some(w4);
    assert Run(w0, [e0, e1, e2, e3]) == Some(w4);
    assert w4.state == State([Message(Bot, Greeting), Message(User, a)], "", true, []);
    assert w4.mounted;
  }

  /** Uploads are not guarded by `loading`: while a chat request is in flight a
      file can still be chosen, and when that upload's response arrives first it
      clears `loading`, so a second chat request can be sent while the first
      is still outstanding. */
  lemma UploadBreaksSingleFlight(a: string, b: string, f: File, o: UploadOutcome)
    requires !IsBlank(a) && !IsBlank(b)
    ensures
      var r := Run(Boot(), [FaqsArrive(FaqsOk([])), Input(a), Submit, ChooseFile(Some(f)),
                            UploadArrives(1, o), Input(b), Submit]);
      && r.Some?
      && r.value.inFlight == [AwaitChat(a), AwaitChat(b)]
      && r.value.state.loading
  {
    var xs := [FaqsArrive(FaqsOk([])), Input(a), Submit, ChooseFile(Some(f))];
    var e4, e5, e6 := UploadArrives(1, o), Input(b), Submit;
    ChatThenUpload(a, f);
    var w4 := Run(Boot(), xs).value;
    var w5 := Step(w4, e4);
    assert w5.inFlight == [AwaitChat(a)] && !w5.state.loading;
    var w6 := Step(w5, e5);
    SubmitGoesRemote(w6);
    var w7 := Step(w6, e6);
    assert w7.inFlight == [AwaitChat(a), AwaitChat(b)];
    RunCons(w6, e6, []);
    assert [e6] == [e6] + [];
    RunCons(w5, e5, [e6]);
    assert [e5, e6] == [e5] + [e6];
    RunCons(w4, e4, [e5, e6]);
    assert [e4, e5, e6] == [e4] + [e5, e6];
    assert Run(w7, []) == Some(w7);
    RunAppend(Boot(), xs, [e4, e5, e6]);
    assert xs + [e4, e5, e6] == [FaqsArrive(FaqsOk([])), Input(a), Submit, ChooseFile(Some(f)), e4, e5, e6];
  }
}
