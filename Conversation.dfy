/** The scripted conversation of the restaurant chat demo: its data, the
    constant script, and the state transitions of its three procedures
    (opening the chat, the automatic playback, a manual submit) as functions
    from the old chat state to the new one. Every timer delay is collapsed
    into the order in which its callback runs. */
module Conversation {
  import JsText

  datatype Sender = Ai | User

  /** One line of the script. An absent `isBookingIframe` is `false`. */
  datatype Entry = Entry(sender: Sender, content: string, isBookingIframe: bool)

  /** One chat bubble. Ids are not modelled. */
  datatype Message = Message(sender: Sender, content: string, isBookingIframe: bool)

  /** The component's state variables. */
  datatype ChatState = ChatState(
    messages: seq<Message>,
    currentStep: nat,
    input: string,
    isLoading: bool,
    isConversationComplete: bool,
    chatOpen: bool)

  /** The fixed dialogue. Entry 11 is the booking widget, an AI entry that
      directly follows another AI entry. */
  const Script: seq<Entry> :=
    [
      Entry(Ai, "Hej och välkommen till Restaurang Stella! Jag heter Sofia och finns här om du har frågor eller funderingar inför en bokning. Vad vill du veta?", false),
      Entry(User, "Hej! Var ligger restaurangen?", false),
      Entry(Ai, "Vi ligger på Storgatan 15 i centrala Stockholm, bara några minuters promenad från T-centralen. Väldigt lätt att hitta!", false),
      Entry(User, "Okej, bra att veta. Vad är det som är populärt hos er?", false),
      Entry(Ai, "Vår mest uppskattade rätt är vår grillade havsabborre med fänkålssallad – men vi har även vegetariska alternativ och en riktigt god svamprisotto! Menyn uppdateras säsongsvis med lokala råvaror.", false),
      Entry(User, "Det låter gott! Men vi har allergier i sällskapet – en är allergisk mot nötter, en annan mot skaldjur.", false),
      Entry(Ai, "Tack för att du säger till! Vi tar allergier på allvar och kan anpassa både förrätter och varmrätter. Det finns markerade alternativ i menyn, och personalen är van vid att hantera specialkost.", false),
      Entry(User, "Okej, bra! Och hur är det med tillgänglighet? En i vårt sällskap använder rullstol.", false),
      Entry(Ai, "Det är inga problem alls. Vi har rullstolsanpassad entré, hiss och flera bord med gott om utrymme. Toaletten är också tillgänglighetsanpassad.", false),
      Entry(User, "Tack, då har jag bestämt mig – jag vill boka ett bord!", false),
      Entry(Ai, "Vad roligt! Här är vårt bokningssystem – välj gärna datum och tid som passar er:", false),
      Entry(Ai, "", true),
      Entry(User, "Perfekt, tack för hjälpen!", false),
      Entry(Ai, "Jag är fortfarande här om du behöver hjälp - du kommer få bokningsbekräftelse efter du har valt datum och tid! Säg bara om det finns något jag kan hjälpa dig med!", false)
    ]

  /** The values the state hooks start with. */
  const Initial: ChatState := ChatState([], 0, "", false, false, false)

  /** The bubble for the user sending `text`; it never carries the booking flag. */
  function UserMessage(text: string): Message {
    Message(User, text, false)
  }

  /** The bubble for an AI entry of the script. */
  function AiMessage(e: Entry): Message {
    Message(Ai, e.content, e.isBookingIframe)
  }

  /** The bubble an entry is shown as when a path emits it. */
  function Render(e: Entry): Message {
    if e.sender == User then UserMessage(e.content) else AiMessage(e)
  }

  /** The bubbles of a whole run of entries, in script order. */
  function Rendered(es: seq<Entry>): seq<Message> {
    if es == [] then [] else [Render(es[0])] + Rendered(es[1..])
  }

  /** `xs` is `ys` with some elements left out, the rest kept in order. */
  predicate Subseq<T(==)>(xs: seq<T>, ys: seq<T>)
    decreases |ys|
  {
    xs == [] || (ys != [] && ((xs[0] == ys[0] && Subseq(xs[1..], ys[1..])) || Subseq(xs, ys[1..])))
  }

  /** Sending a user message: it is appended, the input box is cleared and
      the loading indicator is raised. */
  function SendUser(s: ChatState, text: string): ChatState {
    s.(messages := s.messages + [UserMessage(text)], input := "", isLoading := true)
  }

  /** An AI reply: it is appended and the loading indicator is lowered. */
  function ReplyAi(s: ChatState, e: Entry): ChatState {
    s.(messages := s.messages + [AiMessage(e)], isLoading := false)
  }

  /** `openChat` with its seeding timeout: the panel opens, the transcript
      is cleared, completion is reset, and then the transcript is replaced by
      the first script entry and the step set to 1. The input text and the
      loading indicator are left as they were. */
  function OpenChatSpec(script: seq<Entry>, s: ChatState): (r: ChatState)
    requires |script| > 0
    ensures r.chatOpen && !r.isConversationComplete
    ensures r.messages == [AiMessage(script[0])] && r.currentStep == 1
    ensures r.input == s.input && r.isLoading == s.isLoading
  {
    s.(chatOpen := true, messages := [AiMessage(script[0])], currentStep := 1,
       isConversationComplete := false)
  }

  /** The state once `startAutoConversation(step)` and every timer it
      schedules have run. A step past the end changes nothing; an AI step
      is skipped; a user step sends the entry's text and, when the next
      entry is an AI entry, appends that reply and either raises completion
      (the reply was the last entry) or carries on two entries further.
      The automatic path only ever appends, and never writes the step or
      the open flag. */
  function Auto(script: seq<Entry>, step: nat, s: ChatState): (r: ChatState)
    decreases |script| - step
    ensures |s.messages| <= |r.messages| && r.messages[..|s.messages|] == s.messages
    ensures r.currentStep == s.currentStep && r.chatOpen == s.chatOpen
    ensures s.isConversationComplete ==> r.isConversationComplete
  {
    if step >= |script| then s
    else if script[step].sender == User then
      var sent := SendUser(s, script[step].content);
      var nextStep := step + 1;
      if nextStep < |script| && script[nextStep].sender == Ai then
        var answered := ReplyAi(sent, script[nextStep]);
        if nextStep == |script| - 1 then answered.(isConversationComplete := true)
        else Auto(script, nextStep + 1, answered)
      else sent
    else Auto(script, step + 1, s)
  }

  /** `handleSubmit`. A blank input or an exhausted script leaves everything
      as it was; otherwise the input is sent as `Sent` says. */
  function Submit(script: seq<Entry>, s: ChatState): (r: ChatState)
    ensures |s.messages| <= |r.messages| && r.messages[..|s.messages|] == s.messages
    ensures s.currentStep <= r.currentStep
    ensures s.currentStep <= |script| ==> r.currentStep <= |script|
    ensures r.chatOpen == s.chatOpen
    ensures r.isConversationComplete != s.isConversationComplete ==>
              !s.isConversationComplete && 0 < r.currentStep == |script| &&
              r.messages == s.messages + [UserMessage(s.input), AiMessage(script[|script| - 1])]
  {
    if JsText.Trim(s.input) == "" || s.currentStep >= |script| then s
    else Sent(script, s)
  }

  /** The part of `handleSubmit` past its guard. The raw input is sent;
      then the entry after the current step is appended as the reply when it
      is an AI entry (the step moving two ahead, completion raised when that
      entry was the last), and otherwise the step moves one ahead with no
      reply. */
  function Sent(script: seq<Entry>, s: ChatState): (r: ChatState)
    requires s.currentStep < |script|
    ensures |r.messages| > |s.messages| && r.messages[..|s.messages|] == s.messages
    ensures r.messages[|s.messages|] == UserMessage(s.input) && r.input == "" && !r.isLoading
    ensures s.currentStep < r.currentStep <= |script|
    ensures r.chatOpen == s.chatOpen
    ensures r.isConversationComplete != s.isConversationComplete ==>
              !s.isConversationComplete && 0 < r.currentStep == |script| &&
              r.messages == s.messages + [UserMessage(s.input), AiMessage(script[|script| - 1])]
    ensures var k := s.currentStep;
      if k + 1 < |script| && script[k + 1].sender == Ai then
        r.messages == s.messages + [UserMessage(s.input), AiMessage(script[k + 1])] &&
        r.currentStep == k + 2 &&
        r.isConversationComplete == (s.isConversationComplete || k + 2 == |script|)
      else
        r.messages == s.messages + [UserMessage(s.input)] &&
        r.currentStep == k + 1 &&
        r.isConversationComplete == s.isConversationComplete
  {
    var sent := SendUser(s, s.input);
    var nextAiStep := s.currentStep + 1;
    if nextAiStep < |script| && script[nextAiStep].sender == Ai then
      var answered := ReplyAi(sent, script[nextAiStep]).(currentStep := nextAiStep + 1);
      if nextAiStep == |script| - 1 then answered.(isConversationComplete := true)
      else answered
    else sent.(isLoading := false, currentStep := nextAiStep)
  }

  /** The closing timer: three seconds after completion the panel closes. */
  function CloseSpec(s: ChatState): (r: ChatState)
    ensures r.chatOpen <==> s.chatOpen && !s.isConversationComplete
    ensures r.(chatOpen := s.chatOpen) == s
  {
    if s.isConversationComplete then s.(chatOpen := false) else s
  }

  /** One turn of the demo loop: while the panel is closed, it is opened,
      the script is played automatically from step 1, and the panel is
      closed again once completion is raised. */
  function Cycle(s: ChatState): ChatState {
    if s.chatOpen then s else CloseSpec(Auto(Script, 1, OpenChatSpec(Script, s)))
  }

  /** Who speaks each line of the demo script, in order. */
  const DemoSenders: seq<Sender> :=
    [Ai, User, Ai, User, Ai, User, Ai, User, Ai, User, Ai, Ai, User, Ai]

  /** `script` has exactly the speakers `senders`, line by line. */
  predicate HasSenders(script: seq<Entry>, senders: seq<Sender>) {
    |script| == |senders| && forall i :: 0 <= i < |script| ==> script[i].sender == senders[i]
  }

  /** The bubbles one automatic playback from step 1 appends to a script
      spoken like the demo's: lines 1 to 10, then 12 and 13. */
  function PlaybackOf(script: seq<Entry>): seq<Message>
    requires |script| == 14
  {
    FirstRounds(script) + LastRounds(script)
  }

  /** The first three question-and-answer rounds: lines 1 to 6. */
  function FirstRounds(script: seq<Entry>): seq<Message>
    requires |script| == 14
  {
    [UserMessage(script[1].content), AiMessage(script[2]),
     UserMessage(script[3].content), AiMessage(script[4]),
     UserMessage(script[5].content), AiMessage(script[6])]
  }

  /** The last three rounds: lines 7 to 10, then 12 and 13. */
  function LastRounds(script: seq<Entry>): seq<Message>
    requires |script| == 14
  {
    [UserMessage(script[7].content), AiMessage(script[8]),
     UserMessage(script[9].content), AiMessage(script[10]),
     UserMessage(script[12].content), AiMessage(script[13])]
  }

  /** The transcript one automatic playback of the demo leaves. */
  const Transcript: seq<Message> := [AiMessage(Script[0])] + PlaybackOf(Script)

  /** The state at the end of every cycle of the demo loop. */
  const EndOfCycle: ChatState := ChatState(Transcript, 1, "", false, true, false)
  /** The entries from `step` on (none when `step` is past the end). */
  function Suffix(script: seq<Entry>, step: nat): seq<Entry> {
    if step <= |script| then script[step..] else []
  }

  lemma RenderedAt(script: seq<Entry>, step: nat)
    requires step < |script|
    ensures Rendered(Suffix(script, step)) == [Render(script[step])] + Rendered(Suffix(script, step + 1))
  {
    assert script[step..][1..] == script[step + 1..];
  }

  lemma DropPrefix<T>(p: seq<T>, q: seq<T>, r: seq<T>)
    requires |p + q| <= |r| && r[..|p + q|] == p + q
    ensures r[|p|..] == q + r[|p + q|..]
  {
    assert r == r[..|p + q|] + r[|p + q|..];
  }

  lemma SubseqKeep<T>(x: T, xs: seq<T>, ys: seq<T>)
    requires Subseq(xs, ys)
    ensures Subseq([x] + xs, [x] + ys)
  {
    assert ([x] + xs)[1..] == xs;
    assert ([x] + ys)[1..] == ys;
  }

  lemma SubseqSkip<T>(y: T, xs: seq<T>, ys: seq<T>)
    requires Subseq(xs, ys)
    ensures Subseq(xs, [y] + ys)
  {
    assert ([y] + ys)[1..] == ys;
  }

  /** Order and provenance on the automatic path: the messages it appends
      are the script's entries from `step` on, rendered, with some left out
      and the rest in script order. In particular each user message carries
      exactly the text of its script entry. */
  lemma {:induction false} AutoFollowsScript(script: seq<Entry>, step: nat, s: ChatState)
    ensures Subseq(Auto(script, step, s).messages[|s.messages|..], Rendered(Suffix(script, step)))
    decreases |script| - step, 1
  {
    if step >= |script| {
      assert Auto(script, step, s).messages[|s.messages|..] == [];
    } else if script[step].sender == User {
      AutoFollowsScriptFromUser(script, step, s);
    } else {
      RenderedAt(script, step);
      AutoFollowsScript(script, step + 1, s);
      SubseqSkip(Render(script[step]), Auto(script, step, s).messages[|s.messages|..],
                 Rendered(Suffix(script, step + 1)));
    }
  }

  /** `AutoFollowsScript` at a user step. */
  lemma {:induction false} AutoFollowsScriptFromUser(script: seq<Entry>, step: nat, s: ChatState)
    requires step < |script| && script[step].sender == User
    ensures Subseq(Auto(script, step, s).messages[|s.messages|..], Rendered(Suffix(script, step)))
    decreases |script| - step, 0
  {
    var added := Auto(script, step, s).messages[|s.messages|..];
    var u := UserMessage(script[step].content);
    var nextStep := step + 1;
    RenderedAt(script, step);
    if nextStep < |script| && script[nextStep].sender == Ai {
      var a := AiMessage(script[nextStep]);
      var answered := ReplyAi(SendUser(s, script[step].content), script[nextStep]);
      RenderedAt(script, nextStep);
      var tail := Rendered(Suffix(script, nextStep + 1));
      var r := Auto(script, step, s);
      var more := r.messages[|answered.messages|..];
      if nextStep == |script| - 1 {
        assert r.messages == answered.messages;
        assert more == [];
      } else {
        assert r == Auto(script, nextStep + 1, answered);
        AutoFollowsScript(script, nextStep + 1, answered);
      }
      assert answered.messages == s.messages + [u, a];
      DropPrefix(s.messages, [u, a], r.messages);
      assert [u, a] == [u] + [a];
      assert added == [u] + ([a] + more);
      assert Rendered(Suffix(script, step)) == [u] + ([a] + tail);
      SubseqKeep(a, more, tail);
      SubseqKeep(u, [a] + more, [a] + tail);
    } else {
      assert added == [u] + [];
      SubseqKeep(u, [], Rendered(Suffix(script, step + 1)));
    }
  }

  /** The automatic path raises completion only when the script ends with
      a user entry answered by an AI entry, and only once that pair has been
      appended: the transcript then ends with those two bubbles, the input is
      empty and the loading indicator is down. */
  lemma {:induction false} AutoCompletion(script: seq<Entry>, step: nat, s: ChatState)
    requires !s.isConversationComplete
    ensures var r := Auto(script, step, s);
      r.isConversationComplete ==>
        2 <= |script| && script[|script| - 2].sender == User && script[|script| - 1].sender == Ai &&
        |r.messages| >= 2 &&
        r.messages[|r.messages| - 2..] == [UserMessage(script[|script| - 2].content), AiMessage(script[|script| - 1])] &&
        r.input == "" && !r.isLoading
    decreases |script| - step
  {
    if step < |script| {
      if script[step].sender == User {
        var sent := SendUser(s, script[step].content);
        var nextStep := step + 1;
        if nextStep < |script| && script[nextStep].sender == Ai {
          var answered := ReplyAi(sent, script[nextStep]);
          if nextStep == |script| - 1 {
            assert answered.messages == s.messages + [UserMessage(script[step].content)] + [AiMessage(script[nextStep])];
          } else {
            AutoCompletion(script, nextStep + 1, answered);
          }
        }
      } else {
        AutoCompletion(script, step + 1, s);
      }
    }
  }

  /** The automatic path neither reads nor writes `currentStep`. */
  lemma {:induction false} AutoIgnoresStep(script: seq<Entry>, step: nat, s: ChatState, c: nat)
    ensures Auto(script, step, s.(currentStep := c)) == Auto(script, step, s).(currentStep := c)
    decreases |script| - step
  {
    var t := s.(currentStep := c);
    if step < |script| {
      if script[step].sender == User {
        var nextStep := step + 1;
        if nextStep < |script| && script[nextStep].sender == Ai && nextStep != |script| - 1 {
          var answered := ReplyAi(SendUser(s, script[step].content), script[nextStep]);
          assert ReplyAi(SendUser(t, script[step].content), script[nextStep]) == answered.(currentStep := c);
          AutoIgnoresStep(script, nextStep + 1, answered, c);
        }
      } else {
        AutoIgnoresStep(script, step + 1, s, c);
      }
    }
  }

  /** The two entry points agree on a well-formed turn: submitting, at a user
      step followed by an AI entry, exactly the text the script would have
      typed yields the transcript and flags the automatic path produces,
      whether the automatic path then carries on or completes. Only the step
      differs, since the automatic path never advances it. */
  lemma ManualTurnMatchesAutomaticTurn(script: seq<Entry>, s: ChatState)
    requires s.currentStep + 1 < |script|
    requires script[s.currentStep].sender == User && script[s.currentStep + 1].sender == Ai
    requires s.input == script[s.currentStep].content && !JsText.Blank(s.input)
    ensures Auto(script, s.currentStep, s) ==
            Auto(script, s.currentStep + 2, Submit(script, s)).(currentStep := s.currentStep)
  {
    var k := s.currentStep;
    var answered := ReplyAi(SendUser(s, s.input), script[k + 1]);
    JsText.TrimEmptyIffBlank(s.input);
    if k + 1 != |script| - 1 {
      assert Submit(script, s) == answered.(currentStep := k + 2);
      AutoIgnoresStep(script, k + 2, answered, k + 2);
      AutoIgnoresStep(script, k + 2, answered.(currentStep := k + 2), k);
      assert answered.(currentStep := k + 2).(currentStep := k) == answered;
    }
  }

  /** The demo script's speakers. */
  lemma ScriptSenders()
    ensures HasSenders(Script, DemoSenders)
  {
  }

  /** Automatic playback from step 1 of any script spoken like the demo's:
      it appends lines 1 to 10, 12 and 13 in order (line 11, an AI line
      after an AI line, is skipped), raises completion, and leaves the input
      empty and the loading indicator down. */
  lemma PlaybackOfShape(script: seq<Entry>, s: ChatState)
    requires HasSenders(script, DemoSenders)
    ensures Auto(script, 1, s) ==
            s.(messages := s.messages + PlaybackOf(script), input := "", isLoading := false,
               isConversationComplete := true)
  {
    var mid := s.(messages := s.messages + FirstRounds(script), input := "", isLoading := false);
    PlaybackFirstRounds(script, s);
    PlaybackLastRounds(script, mid);
    assert mid.messages + LastRounds(script) == s.messages + PlaybackOf(script);
  }

  /** Lines 1 to 6 are played as three rounds, leaving the walk at line 7. */
  lemma {:induction false} PlaybackFirstRounds(script: seq<Entry>, s: ChatState)
    requires HasSenders(script, DemoSenders)
    ensures Auto(script, 1, s) ==
            Auto(script, 7, s.(messages := s.messages + FirstRounds(script), input := "", isLoading := false))
  {
    var s1 := ReplyAi(SendUser(s, script[1].content), script[2]);
    AutoRound(script, 1, s);
    var s2 := ReplyAi(SendUser(s1, script[3].content), script[4]);
    AutoRound(script, 3, s1);
    var s3 := ReplyAi(SendUser(s2, script[5].content), script[6]);
    AutoRound(script, 5, s2);
    assert s3.messages == s.messages + FirstRounds(script);
  }

  /** From line 7 on: two rounds, the skip of line 11, and the final round,
      which raises completion. */
  lemma {:induction false} PlaybackLastRounds(script: seq<Entry>, s: ChatState)
    requires HasSenders(script, DemoSenders)
    ensures Auto(script, 7, s) ==
            s.(messages := s.messages + LastRounds(script), input := "", isLoading := false,
               isConversationComplete := true)
  {
    var s4 := ReplyAi(SendUser(s, script[7].content), script[8]);
    AutoRound(script, 7, s);
    var s5 := ReplyAi(SendUser(s4, script[9].content), script[10]);
    AutoRound(script, 9, s4);
    assert script[11].sender == Ai;
    assert Auto(script, 11, s5) == Auto(script, 12, s5);
    assert script[12].sender == User && script[13].sender == Ai;
    var s6 := ReplyAi(SendUser(s5, script[12].content), script[13]).(isConversationComplete := true);
    assert Auto(script, 12, s5) == s6;
    assert s6.messages == s.messages + LastRounds(script);
  }

  /** The exact outcome of one automatic playback after `openChat`, from any
      state: the transcript holds every entry but the booking widget, which
      is skipped because it follows another AI entry; completion is raised
      with the input empty and the loading indicator down; the step stays
      at 1. */
  lemma AutomaticCycle(s: ChatState)
    ensures Auto(Script, 1, OpenChatSpec(Script, s)) == EndOfCycle.(chatOpen := true)
  {
    ScriptSenders();
    PlaybackOfShape(Script, OpenChatSpec(Script, s));
  }

  /** No bubble of the automatic transcript shows the booking widget, and
      the booking entry's bubble is not among them. */
  lemma BookingNeverShown()
    ensures forall i :: 0 <= i < |Transcript| ==> !Transcript[i].isBookingIframe
    ensures AiMessage(Script[11]) !in Transcript
  {
    assert Script[11].isBookingIframe;
  }

  /** One automatic round in the middle of a script: a user entry `k`
      answered by the AI entry `k + 1`, which is not the last. */
  lemma AutoRound(script: seq<Entry>, k: nat, s: ChatState)
    requires k + 2 < |script| && script[k].sender == User && script[k + 1].sender == Ai
    ensures Auto(script, k, s) == Auto(script, k + 2, ReplyAi(SendUser(s, script[k].content), script[k + 1]))
  {
  }

  /** The demo loop is periodic: from any state with the panel closed (the
      mounted component's initial state among them) one cycle ends in the
      same state, and that state leads to itself. */
  lemma CycleRepeats(s: ChatState)
    ensures !s.chatOpen ==> Cycle(s) == EndOfCycle
    ensures Cycle(EndOfCycle) == EndOfCycle
    ensures Cycle(Initial) == EndOfCycle
  {
    AutomaticCycle(s);
    AutomaticCycle(EndOfCycle);
    AutomaticCycle(Initial);
  }

  /** `handleSubmit` changes nothing exactly when the input is blank or the
      script is exhausted. */
  lemma SubmitNoOp(script: seq<Entry>, s: ChatState)
    ensures Submit(script, s) == s <==> (JsText.Blank(s.input) || s.currentStep >= |script|)
  {
    JsText.TrimEmptyIffBlank(s.input);
    if !(JsText.Blank(s.input) || s.currentStep >= |script|) {
      assert |Submit(script, s).messages| > |s.messages|;
    }
  }

  /** Submitting at the booking entry (an AI entry followed by a user entry)
      sends the typed text as a user turn and moves on with no reply: the
      booking widget is not shown on the manual path either. */
  lemma ManualAtBookingEntry(s: ChatState)
    requires s.currentStep == 11 && !JsText.Blank(s.input)
    ensures Submit(Script, s) ==
            s.(messages := s.messages + [UserMessage(s.input)], input := "", isLoading := false, currentStep := 12)
  {
    JsText.TrimEmptyIffBlank(s.input);
  }
}
