/** The `ExpandableChatDemo` component as an object: its state variables are
    fields, and each of its procedures is a method that runs the procedure
    together with the timer callbacks it schedules, in the order they fire.
    Every method is proved to implement the transition function of module
    `Conversation` whose properties are proved there. */
module ChatWidget {
  import opened Conversation
  import JsText

  class ChatDemo {
    /** The dialogue the component plays; the constructor fixes it to `Script`. */
    const script: seq<Entry>
    var messages: seq<Message>
    var currentStep: nat
    var input: string
    var isLoading: bool
    var isConversationComplete: bool
    var chatOpen: bool

    /** The fields as one value. */
    function State(): ChatState
      reads this
    {
      ChatState(messages, currentStep, input, isLoading, isConversationComplete, chatOpen)
    }

    /** Mounting: every state hook holds its initial value. */
    constructor ()
      ensures script == Script && State() == Initial
    {
      script := Script;
      messages := [];
      currentStep := 0;
      input := "";
      isLoading := false;
      isConversationComplete := false;
      chatOpen := false;
    }

    /** `openChat` and its seeding timeout: reset the cycle, then replace
        the transcript by the first script entry and move to step 1. */
    method OpenChat()
      requires |script| > 0
      modifies this
      ensures State() == OpenChatSpec(script, old(State()))
    {
      chatOpen := true;
      messages := [];
      currentStep := 0;
      isConversationComplete := false;
      // the timeout that seeds the first AI message
      messages := [AiMessage(script[0])];
      currentStep := 1;
    }

    /** One tick of the typing callback `typeMessage`: the character of
        `fullText` at the position given by the length typed so far is
        appended, and the input box shows the longer prefix. */
    method TypeTick(fullText: string, currentText: string) returns (next: string)
      requires |currentText| < |fullText| && currentText == fullText[..|currentText|]
      modifies this`input
      ensures |next| == |currentText| + 1 && next == fullText[..|next|]
      ensures input == next
    {
      next := currentText + [fullText[|currentText|]];
      input := next;
    }

    /** The typing animation: `typeMessage` reschedules itself once per
        character until the whole text is typed. `frames` records what the
        input box holds after each tick: each one a prefix of `fullText`
        one character longer than the last. An empty text has no ticks and
        leaves the input box as it was. */
    method TypeMessage(fullText: string) returns (ghost frames: seq<string>)
      modifies this`input
      ensures input == if fullText == "" then old(input) else fullText
      ensures |frames| == |fullText|
      ensures forall i :: 0 <= i < |frames| ==> frames[i] == fullText[..i + 1]
    {
      var currentText := "";
      frames := [];
      while |currentText| < |fullText|
        invariant |currentText| <= |fullText| && currentText == fullText[..|currentText|]
        invariant |frames| == |currentText|
        invariant forall i :: 0 <= i < |frames| ==> frames[i] == fullText[..i + 1]
        invariant input == if currentText == "" then old(input) else currentText
        decreases |fullText| - |currentText|
      {
        currentText := TypeTick(fullText, currentText);
        frames := frames + [input];
      }
    }

    /** `startAutoConversation(step)` with every timer it schedules. A step
        past the end changes nothing and an AI step is skipped; a user step
        is typed and sent, and when an AI entry follows it is appended,
        after which either completion is raised (it was the last entry) or
        the walk resumes two entries further on. */
    method StartAutoConversation(step: nat)
      modifies this
      ensures State() == Auto(script, step, old(State()))
      ensures step >= |script| ==> State() == old(State())
      ensures currentStep == old(currentStep) && chatOpen == old(chatOpen)
      ensures old(messages) <= messages
    {
      var s := step;
      while s < |script|
        invariant Auto(script, s, State()) == Auto(script, step, old(State()))
        decreases |script| - s
      {
        ghost var before := State();
        if script[s].sender == User {
          var fullText := script[s].content;
          ghost var frames := TypeMessage(fullText);
          // the pause before sending
          messages := messages + [UserMessage(fullText)];
          input := "";
          isLoading := true;
          var nextStep := s + 1;
          if nextStep < |script| && script[nextStep].sender == Ai {
            // the AI reply timeout
            messages := messages + [AiMessage(script[nextStep])];
            isLoading := false;
            if nextStep == |script| - 1 {
              isConversationComplete := true;
              return;
            }
            s := nextStep + 1;
          } else {
            return;
          }
        } else {
          s := s + 1;
        }
      }
    }

    /** `handleSubmit`: the manual path, guarded by a non-blank input and a
        step inside the script. */
    method HandleSubmit()
      modifies this
      ensures State() == Submit(script, old(State()))
      ensures State() == old(State()) <==> JsText.Blank(old(input)) || old(currentStep) >= |script|
    {
      SubmitNoOp(script, State());
      if JsText.Trim(input) == "" || currentStep >= |script| {
        return;
      }
      messages := messages + [UserMessage(input)];
      input := "";
      isLoading := true;
      var nextAiStep := currentStep + 1;
      if nextAiStep < |script| && script[nextAiStep].sender == Ai {
        // the AI reply timeout
        messages := messages + [AiMessage(script[nextAiStep])];
        currentStep := nextAiStep + 1;
        isLoading := false;
        if nextAiStep == |script| - 1 {
          isConversationComplete := true;
        }
      } else {
        isLoading := false;
        currentStep := nextAiStep;
      }
    }

    /** The closing effect: once completion is raised, the panel closes. */
    method CloseAfterCompletion()
      modifies this`chatOpen
      ensures State() == CloseSpec(old(State()))
    {
      if isConversationComplete {
        chatOpen := false;
      }
    }

    /** The opening effect and what follows it: while the panel is closed,
        open it, play the script from step 1 and close it on completion.
        Whatever the starting state, a cycle that runs ends in the same
        state, so the loop repeats identically forever. */
    method RunCycle()
      requires script == Script
      modifies this
      ensures State() == Cycle(old(State()))
      ensures old(chatOpen) ==> State() == old(State())
      ensures !old(chatOpen) ==> State() == EndOfCycle
    {
      CycleRepeats(State());
      if !chatOpen {
        OpenChat();
        StartAutoConversation(1);
        CloseAfterCompletion();
      }
    }
  }
}
