# Scripted restaurant chat demo — Dafny model

This project models the conversation engine of the `ExpandableChatDemo` React component. The component plays a fixed Swedish dialogue between the assistant "Sofia" of Restaurang Stella and a synthetic guest inside a chat widget. It opens the panel and seeds the first assistant message. It then types each guest line one character at a time, sends it, appends the assistant's scripted reply, and raises a completion flag after the last line. Three seconds after completion the panel closes, and the loop starts again. A second, manual entry point (`handleSubmit`) advances the same script from the submitted input. In the rendered component the input box and its submit button are both disabled, so only the automatic path runs on screen. The manual path is still modelled as the code defines it.

Modules:

- `ClassNames` (`ClassNames.dfy`) models `cn`, a pure helper that does `inputs.filter(Boolean).join(" ")`.
  - The filter follows JavaScript truthiness.
  - `true` survives the filter and is joined as the text `"true"`.
  - The proofs show that filtering distributes over concatenation.
  - Splitting the output at spaces gives the space-separated fields of the kept arguments, argument after argument, for every input.
  - When no kept argument holds a space, the split gives back exactly the kept arguments, in order.
- `JsText` (`JsText.dfy`) models `String.prototype.trim`, which the submit guard uses. It uses the white-space and line-terminator sets of ECMA-262 (sections 12.2 and 12.3). The proofs show that the result is the part between the leading and trailing white space, and that it is empty exactly when the input is blank.
- `Conversation` (`Conversation.dfy`) holds the data and the specification functions:
  - the script entries and messages;
  - the component's six state variables as a `ChatState` value;
  - the 14-entry script as a constant, including the booking widget entry at index 11;
  - one function per procedure: `OpenChatSpec`, `Auto` (the whole `startAutoConversation` chain), `Submit` and `CloseSpec`;
  - the lemmas about those functions.
- `ChatWidget` (`ChatWidget.dfy`) is the component itself: class `ChatDemo` with a field per state variable.
  - Every method except the typing methods is proved equal to a `Conversation` function.
  - The self-rescheduling typing callback becomes `TypeTick`, one tick with its own contract, called from the `while` loop of `TypeMessage`, which states its own contract.
  - The recursive walk of `startAutoConversation` becomes a `while` loop over the step.

Every timer delay is modelled only as ordering. A method runs a procedure and then the callbacks it schedules, in the order they fire.

Behaviour the proofs pin down:
- The automatic path never writes `currentStep`, so the step stays at 1 after `openChat`.
- The automatic path appends script entries in order and only appends; no message is ever removed or replaced.
- It skips any AI entry it lands on directly. Entry 11, the booking widget, follows the AI entry at 10, so it is never shown. The final transcript is entries 0–10, 12 and 13.
- Completion is raised only after the last user entry and its AI reply have been appended.
- Each cycle ends in the same state, from any starting state with the panel closed.
- The manual path agrees with the automatic path on a user turn followed by an AI reply.
- At the booking entry, the manual path takes the typed text as a user turn and moves on with no reply.

Facts about the code that the model keeps:
- There is no simulated mouse cursor, no booking date/time choreography and no token that cancels stale timers.
- The final transcript of a playback is not the whole script: the booking entry is dropped.
- The automatic path leaves `currentStep` at 1.

## Model

| member | source | states |
|---|---|---|
| `ClassNames.Text` | src/components/ExpandableChatDemo.tsx:10 | a kept argument is rendered as a non-empty piece |
| `ClassNames.Words` | src/components/ExpandableChatDemo.tsx:9-11 | the pieces `cn` joins are non-empty and no more numerous than the arguments; there are none exactly when no argument is truthy |
| `ClassNames.WordsAppend` | src/components/ExpandableChatDemo.tsx:10 | filtering keeps each argument on its own merit and keeps the original order: the pieces of `xs + ys` are those of `xs` followed by those of `ys` |
| `ClassNames.WordsSingle` | src/components/ExpandableChatDemo.tsx:10 | one argument is kept exactly when it is truthy (non-empty string or `true`); `undefined`, `null`, `false` and `""` are dropped |
| `ClassNames.JoinSpaces` | src/components/ExpandableChatDemo.tsx:10 | joining non-empty pieces yields the empty string exactly when there are no pieces |
| `ClassNames.Cn` | src/components/ExpandableChatDemo.tsx:9-11 | the class string is empty exactly when no argument is truthy |
| `ClassNames.SplitJoin` | src/components/ExpandableChatDemo.tsx:10 | splitting the space-joined words at spaces returns the words (join with a single space is invertible for space-free non-empty words) |
| `ClassNames.FieldsAtSpace` | src/components/ExpandableChatDemo.tsx:10 | a space in the joined string ends a field: the fields of `w + " " + rest` are those of `w` followed by those of `rest`, whatever `w` holds |
| `ClassNames.SplitJoinAll` | src/components/ExpandableChatDemo.tsx:10 | splitting non-empty pieces joined with single spaces yields the fields of each piece, piece after piece |
| `ClassNames.CnSplit` | src/components/ExpandableChatDemo.tsx:9-11 | for every argument list, splitting `cn`'s output at spaces yields the space-separated fields of the truthy arguments, in their original order |
| `ClassNames.CnRoundTrip` | src/components/ExpandableChatDemo.tsx:9-11 | when no kept argument holds a space, splitting `cn`'s output at spaces returns exactly the truthy arguments, in their original order |
| `ClassNames.Truthy` | src/components/ExpandableChatDemo.tsx:10 | `Boolean(x)` on an argument; by `WordsSingle` and `Words` an argument is kept exactly when it is a non-empty string or `true` |
| `JsText.Trim` | src/components/ExpandableChatDemo.tsx:530 | `input.trim()`; `TrimSpec` pins it down as the slice between the white runs and `TrimEmptyIffBlank` as empty exactly for blank input |
| `JsText.TrimStartSpec` | src/components/ExpandableChatDemo.tsx:530 | leading-trim keeps a suffix starting with a non-white character and cuts off only white space |
| `JsText.TrimEndSpec` | src/components/ExpandableChatDemo.tsx:530 | trailing-trim keeps a prefix ending with a non-white character and cuts off only white space |
| `JsText.TrimSpec` | src/components/ExpandableChatDemo.tsx:530 | `input.trim()` is the slice between the leading and trailing white runs: everything before and after it is white, and it begins and ends non-white |
| `JsText.TrimEmptyIffBlank` | src/components/ExpandableChatDemo.tsx:530 | `!input.trim()` holds exactly when every character of the input is white space or a line terminator (the empty input included) |
| `Conversation.OpenChatSpec` | src/components/ExpandableChatDemo.tsx:422-437 | opening sets the panel open, clears completion, replaces the transcript by exactly the first script entry and sets the step to 1; input and loading indicator are untouched |
| `Conversation.Auto` | src/components/ExpandableChatDemo.tsx:462-526 | the automatic chain only appends to the transcript, never writes the step or the open flag, and never lowers completion |
| `Conversation.Submit` | src/components/ExpandableChatDemo.tsx:528-569 | the manual path only appends, never moves the step back or past the script's end, never touches the open flag, and raises completion only together with appending the input and the last entry and moving the step to the end |
| `Conversation.Sent` | src/components/ExpandableChatDemo.tsx:533-568 | past the guard, the raw input is appended as a user message and the input cleared, loading ends lowered; when the entry after the current step is an AI entry it is appended as the reply, the step moves two ahead and completion is raised exactly if that entry was the last; otherwise nothing else is appended, the step moves one ahead and completion is untouched |
| `Conversation.SendUser` | src/components/ExpandableChatDemo.tsx:480-488 | sending appends a user bubble with the text, clears the input and raises loading; `Sent` and `AutoFollowsScript` state its effect on the transcript |
| `Conversation.ReplyAi` | src/components/ExpandableChatDemo.tsx:494-502 | a reply appends the AI entry's bubble, booking flag included, and lowers loading; `AutoRound`, `PlaybackOfShape` and `Sent` state its effect |
| `Conversation.CloseSpec` | src/components/ExpandableChatDemo.tsx:452-459 | the panel ends open exactly when it was open and completion was not raised; nothing else changes |
| `Conversation.AutoFollowsScript` | src/components/ExpandableChatDemo.tsx:462-526 | the messages the automatic path appends are the rendered script entries from the start step on, some left out and the rest in script order; user messages carry the script text exactly |
| `Conversation.AutoCompletion` | src/components/ExpandableChatDemo.tsx:491-514 | completion is raised only when the script ends with a user entry answered by an AI entry, and only after both were appended, with the input empty and loading off |
| `Conversation.AutoIgnoresStep` | src/components/ExpandableChatDemo.tsx:462-526 | the automatic path neither reads nor writes `currentStep` |
| `Conversation.ManualTurnMatchesAutomaticTurn` | src/components/ExpandableChatDemo.tsx:462-569 | submitting a user entry's exact text at a user step followed by an AI entry gives the same transcript and flags as the automatic path, step aside |
| `Conversation.ScriptSenders` | src/components/ExpandableChatDemo.tsx:386-401 | the dialogue has 14 lines: an AI greeting, five user lines each answered by the AI (lines 1–10), the AI booking widget at 11, a user line at 12 and the AI's closing line at 13 |
| `Conversation.PlaybackFirstRounds` | src/components/ExpandableChatDemo.tsx:462-526 | on a script spoken like the demo's, playback from step 1 sends lines 1, 3 and 5 each followed by its reply (2, 4, 6) and resumes at step 7 with the input empty and loading off |
| `Conversation.PlaybackLastRounds` | src/components/ExpandableChatDemo.tsx:462-526 | from step 7 it sends 7 and 9 with their replies, skips the AI line 11, sends 12, appends the last line 13 and raises completion |
| `Conversation.PlaybackOfShape` | src/components/ExpandableChatDemo.tsx:462-526 | for any script with the demo's speakers, playback from step 1 appends exactly lines 1–10, 12 and 13 in order, raises completion, empties the input and lowers loading; step and open flag untouched |
| `Conversation.Cycle` | src/components/ExpandableChatDemo.tsx:420-459 | one round of the two effects, starting from a closed panel: open, play from step 1 and close; with the panel already open the opening effect does nothing, and closing is then left to `CloseSpec`; `CycleRepeats` states the round's outcome |
| `Conversation.AutomaticCycle` | src/components/ExpandableChatDemo.tsx:386-526 | after `openChat`, automatic playback from step 1 ends with exactly entries 0–10, 12 and 13, completion raised, input empty, loading off, step 1, panel open |
| `Conversation.BookingNeverShown` | src/components/ExpandableChatDemo.tsx:522-524 | no bubble of that transcript shows the booking widget, and the booking entry's bubble is not in it |
| `Conversation.CycleRepeats` | src/components/ExpandableChatDemo.tsx:420-459 | from any state with the panel closed, the initial state included, one open–play–close cycle ends in the same fixed state, which leads to itself |
| `Conversation.SubmitNoOp` | src/components/ExpandableChatDemo.tsx:530 | `handleSubmit` leaves the state unchanged exactly when the input is blank or the step is at or past the end of the script |
| `Conversation.ManualAtBookingEntry` | src/components/ExpandableChatDemo.tsx:544-568 | submitting at the booking entry appends only the user's text, lowers loading and moves to step 12: no reply, no booking widget |
| `ChatWidget.ChatDemo.constructor` | src/components/ExpandableChatDemo.tsx:403-408 | the state hooks start empty, at step 0, closed, not loading, not complete; the script is the fixed dialogue |
| `ChatWidget.ChatDemo.OpenChat` | src/components/ExpandableChatDemo.tsx:422-437 | the new state is `OpenChatSpec` of the old one |
| `ChatWidget.ChatDemo.TypeTick` | src/components/ExpandableChatDemo.tsx:472-475 | one tick appends the next character of the text to the typed prefix, and the input box then holds that prefix, one character longer |
| `ChatWidget.ChatDemo.TypeMessage` | src/components/ExpandableChatDemo.tsx:469-476 | one tick per character; `frames`, which records the input box after each tick, holds the prefixes of the text one character longer each time; at the end the input box holds the whole text (unchanged for an empty text) |
| `ChatWidget.ChatDemo.StartAutoConversation` | src/components/ExpandableChatDemo.tsx:462-526 | the new state is `Auto` of the old one; a step past the end changes nothing; step and open flag are unchanged; the transcript only grows |
| `ChatWidget.ChatDemo.HandleSubmit` | src/components/ExpandableChatDemo.tsx:528-569 | the new state is `Submit` of the old one, and it equals the old state exactly when the input is blank or the script is exhausted |
| `ChatWidget.ChatDemo.CloseAfterCompletion` | src/components/ExpandableChatDemo.tsx:451-459 | the new state is `CloseSpec` of the old one |
| `ChatWidget.ChatDemo.RunCycle` | src/components/ExpandableChatDemo.tsx:420-459 | a round starts from a closed panel and ends in the fixed end-of-cycle state; with the panel open the opening effect does nothing (closing an open, completed panel is `CloseAfterCompletion`) |

## Left out

- Timer durations and the random typing jitter are not modelled. Each procedure runs its callbacks to the end, in firing order. The model does not capture interleavings between callbacks of different chains, for example a manual submit or a user toggle of the panel in the middle of an automatic playback.
- Intermediate states between two timer callbacks are not stated in the contracts. Examples are the empty transcript during `openChat`'s first second and the raised loading indicator while a reply is pending. The method bodies do write them in source order.
- Message ids (`Date.now()` and `messages.length + 1`) are left out because they come from a clock and do not affect the transcript's content or order.
- React effect scheduling and the `clearTimeout` cleanup are left out; `RunCycle` stands for one open–play–close round of the two effects.
- The panel toggle (`onToggle={setChatOpen}`) and the input's `onChange` are left out. Both are user interface events, and the input is disabled and read-only.
- The form's input and its submit button are both disabled, so nothing on screen can call `handleSubmit`. `HandleSubmit` models what the procedure would do if it were called.
- `scrollToBottom`, `handleAttachFile`, `handleMicrophoneClick`, `e.preventDefault()` and all JSX, styling, the button variants and the mock calendar grid are left out. They are DOM or presentation work with no effect on the conversation state.
- `src/components/Calendar.tsx` and `src/App.tsx` are not part of this model: one wraps an external date picker and is unused by the demo, the other only mounts the component.
- Characters are Unicode scalar values, while JavaScript indexes UTF-16 code units. Every character of the script lies in the Basic Multilingual Plane, so typing one code unit per tick is the same as one character per tick here.
- An absent `isBookingIframe` is modelled as `false`.
