# Chat widget conversation core, in Dafny

This project models the conversation state machine of the embeddable support
chat widget `ChatWidget` (`src/components/ChatWidget.jsx`). The model keeps
the logic and drops the markup. That logic is:

- the append-only message log, seeded with the bot greeting and its five
  quick-reply options;
- the draft and the send flow (button or Enter without Shift);
- quick-reply dispatch with its canned-answer table;
- the recording session: a toggle, a per-second counter and one interval;
- the unmount cleanup;
- the `m:ss` timer label.

Modules:

- `Text` (text.dfy): JavaScript's `trim` whitespace set, `${n}` rendering of
  a non-negative integer, `padStart`, and a decimal parser that serves as
  their inverse.
- `TimeFormat` (time_format.dfy): `formatTime`.
- `Script` (script.dfy): the fixed texts, the reply lookup and the
  voice-note text.
- `Conversation` (conversation.dfy): the state machine on values. It has one
  function per handler, an `Event` type, `Run` over a trace of events, and
  the lemmas about them.
- `Widget` (widget.dfy): class `ChatWidget`. Its fields are the component's
  state hooks and its interval ref. Its methods update those fields in place.
  Each method is proved to move `Snapshot()` exactly as the matching
  `Conversation` function does. Each method also states its effect on every
  field, except two cases: `KeyPress` spells out its effect only for an Enter
  without Shift on a draft with content, and otherwise refers to `SendMessage`
  or to the unchanged snapshot; `StartRecordingTimer` gives the new counter
  and interval flag and keeps every other field.

Timers are abstracted. A `setTimeout(f, d)` adds `Scheduled(d, m)` to
`pending`, where `m` is the message `f` will append; `FirePending(i)` is the
timer running callback `i`. The message is fixed when the callback is
created. For the voice note this is the code's own behaviour: the elapsed
seconds are read from the closure at the moment of stop. For the option
answer it is equivalent, because the `switch` depends only on the captured
label. `setInterval` is the flag `intervalActive`, and each firing is a
`Tick`.

A message object in the code may lack the `options` key. The model writes
this as `None`, and a message with quick-reply buttons as `Some(labels)`.

Two behaviours one might expect of this widget are not in the code, and the model follows the code:

- The unmount cleanup (lines 111-115) only clears the recording interval.
  It does not cancel `setTimeout` callbacks that are already pending, and it
  does not reset `isRecording`. `Unmount` does exactly that.
  `UnmountStopsTicks` proves the counter is frozen afterwards.
- The draft lives in a single-line `<input>`. Enter with Shift is simply not
  handled (`KeyPress` leaves the state unchanged); no newline is inserted.

## Model

| member | source | states |
|---|---|---|
| Text.TrimStart | src/components/ChatWidget.jsx:34 | result is the suffix of the draft after its leading whitespace; it is empty or starts with a non-whitespace character |
| Text.TrimEnd | src/components/ChatWidget.jsx:34 | result is the prefix before the trailing whitespace; it is empty or ends with a non-whitespace character |
| Text.TrimEmptyIffBlank | src/components/ChatWidget.jsx:34 | `trim()` gives the falsy empty string exactly when every character of the draft is whitespace (both directions) |
| Text.NatToString | src/components/ChatWidget.jsx:127 | `${n}` is a non-empty digit string; it has one digit iff n < 10, at most two below 100, and no leading zero unless n is 0 |
| Text.ParseNatToString | src/components/ChatWidget.jsx:127 | parsing the decimal rendering of n gives back n |
| Text.NatToStringInjective | src/components/ChatWidget.jsx:70 | distinct counts render to distinct strings |
| Text.Trim | src/components/ChatWidget.jsx:34 | `s.trim()` is no longer than `s`, and when non-empty it neither starts nor ends with whitespace |
| Text.PadStart | src/components/ChatWidget.jsx:127 | result has length max(width, length of s) and is filled on the left with the pad character |
| Text.PadStartEndsWith | src/components/ChatWidget.jsx:127 | the padded string ends with the original string |
| TimeFormat.FormatTime | src/components/ChatWidget.jsx:124-128 | `formatTime(n)` has at least four characters with a colon third from the end; it starts with "0" only below one minute |
| TimeFormat.PaddedSeconds | src/components/ChatWidget.jsx:127 | for seconds below 60, `String(secs).padStart(2, '0')` is exactly the tens digit followed by the units digit |
| TimeFormat.FormatTimeFields | src/components/ChatWidget.jsx:124-128 | `formatTime(n)`: the part before the colon is n div 60 written unpadded (no leading zero unless it is 0) and parses back to n div 60; the last two characters are the tens and units digits of n mod 60 and parse back to it (below 60) |
| TimeFormat.LabelFields | src/components/ChatWidget.jsx:125-127 | the same field layout for any whole minutes and seconds below 60 |
| TimeFormat.FormatTimeReadBack | src/components/ChatWidget.jsx:124-128 | reading the label back, 60 times the minutes field plus the seconds field is n |
| TimeFormat.FormatTimeExamples | src/components/ChatWidget.jsx:124-128 | `formatTime` gives "0:05", "1:05" and "2:05" for 5, 65 and 125 seconds |
| Script.Reply | src/components/ChatWidget.jsx:86-105 | the answer is never empty, and it is the fallback exactly when the label is not one of the table's five keys (both directions) |
| Script.ReplyFollowsTable | src/components/ChatWidget.jsx:86-105 | the answer to a label is its table entry when the label is one of the five keys, otherwise "How can I assist you with that?" |
| Script.GreetingOptionsAnswered | src/components/ChatWidget.jsx:14-20 | the table keys are exactly the greeting's five options; each gets an answer different from the fallback and from every other option's answer |
| Script.ReplyIsCaseSensitive | src/components/ChatWidget.jsx:97-98 | the match is case-sensitive: "pricing" gets the fallback, "Pricing" does not |
| Script.VoiceText | src/components/ChatWidget.jsx:70 | the voice-note text opens with "[Voice message recorded for ", closes with " seconds]", and holds the decimal rendering of the seconds between them |
| Script.VoiceTextSeconds | src/components/ChatWidget.jsx:70 | the voice-note text is "[Voice message recorded for " + decimal seconds + " seconds]"; the number between them is all digits, parses back to the seconds, and starts with "0" only for zero seconds |
| Script.VoiceTextInjective | src/components/ChatWidget.jsx:70 | different durations give different voice-note texts |
| Script.VoiceTextExamples | src/components/ChatWidget.jsx:70 | the texts for 0 and 2 seconds, written out |
| Conversation.Initial | src/components/ChatWidget.jsx:10-27 | the mounted state holds one bot message carrying the five quick replies; the draft is empty, nothing is scheduled, there is no recording, the counter is 0 and the interval flag agrees with the recording flag |
| Conversation.SetInput | src/components/ChatWidget.jsx:287 | the draft becomes the new text and no other field changes |
| Conversation.SendMessage | src/components/ChatWidget.jsx:33-42 | either nothing changes, or the draft is appended as a user message, the draft is cleared and one callback is added after the old queue; the recording fields are kept |
| Conversation.KeyPress | src/components/ChatWidget.jsx:44-49 | the result is the old state or a send, and the state changes only on Enter without Shift |
| Conversation.OptionClick | src/components/ChatWidget.jsx:80-109 | the label is appended as a user message; one callback is added after the old queue, for a bot message without options at 1000 ms; the draft and the recording fields are kept |
| Conversation.StartRecordingTimer | src/components/ChatWidget.jsx:51-56 | the interval is set and the counter is 0; no other field changes |
| Conversation.StopRecordingTimer | src/components/ChatWidget.jsx:58-62 | the interval is cleared and the state is valid; no other field changes |
| Conversation.ToggleRecording | src/components/ChatWidget.jsx:64-78 | the recording flag flips, the interval flag then agrees with it, and the log and the draft are kept |
| Conversation.Tick | src/components/ChatWidget.jsx:53-55 | the counter grows by at most one, and it changes exactly when the interval is set; no other field changes |
| Conversation.FirePending | src/components/ChatWidget.jsx:37-40 | the callback's message is appended; the queue loses exactly that one callback (as a multiset); the draft and the recording fields are kept |
| Conversation.Unmount | src/components/ChatWidget.jsx:111-115 | the interval is cleared and the state is valid; the log, the queue, the recording flag and the counter are kept |
| Conversation.SendBlankIsNoOp | src/components/ChatWidget.jsx:33-34 | a whitespace-only draft leaves the log, the draft, the recording session and the pending callbacks unchanged |
| Conversation.SendWithContent | src/components/ChatWidget.jsx:34-40 | a draft with content is appended untrimmed as one user message after the unchanged log; the draft becomes ""; exactly one "I received your message!" is scheduled at 1000 ms; the recording session is untouched |
| Conversation.KeyPressSends | src/components/ChatWidget.jsx:44-49 | Enter without Shift is exactly a send; any other key, or Enter with Shift, leaves the state unchanged |
| Conversation.SendThenAcknowledge | src/components/ChatWidget.jsx:35-40 | a send followed by its callback leaves the draft and then the acknowledgement after the old log, with the queue as before |
| Conversation.OptionClickSchedulesReply | src/components/ChatWidget.jsx:80-108 | any label is echoed at once as a user message, and exactly one bot answer is scheduled at 1000 ms: the table entry for a known label, the fallback otherwise |
| Conversation.OptionThenReply | src/components/ChatWidget.jsx:82-106 | an option click followed by its callback leaves the label and then its answer after the old log |
| Conversation.ToggleRecordingEffect | src/components/ChatWidget.jsx:64-77 | the toggle always flips `isRecording` and the interval is set iff recording. Starting zeroes the counter and schedules nothing. Stopping freezes the counter and schedules exactly one voice note for the counter value at 500 ms. The log is untouched |
| Conversation.TickEffect | src/components/ChatWidget.jsx:53-55 | a tick adds exactly one second while the interval is set and changes nothing once it is cleared |
| Conversation.TicksCount | src/components/ChatWidget.jsx:53-55 | k ticks while the interval is set add exactly k seconds and change nothing else |
| Conversation.RecordFor | src/components/ChatWidget.jsx:51-77 | start, k ticks, stop: the log is unchanged and exactly one voice note for k seconds is scheduled at 500 ms |
| Conversation.RecordForZero | src/components/ChatWidget.jsx:64-77 | two toggles with no tick between them schedule "[Voice message recorded for 0 seconds]" |
| Conversation.RecordForTwo | src/components/ChatWidget.jsx:64-77 | two ticks between the toggles schedule "[Voice message recorded for 2 seconds]" |
| Conversation.UnmountStopsTicks | src/components/ChatWidget.jsx:111-115 | after the cleanup the interval is cleared and any number of ticks leaves the state, including the counter, unchanged |
| Conversation.StepKeepsValid | src/components/ChatWidget.jsx:51-77 | every event keeps "interval set implies recording"; every event other than the unmount keeps "interval set iff recording" |
| Conversation.RunKeepsValid | src/components/ChatWidget.jsx:51-115 | any trace of events from a valid state ends in a valid state |
| Conversation.RunKeepsSynced | src/components/ChatWidget.jsx:64-77 | along any trace without an unmount, the interval is set exactly while recording |
| Conversation.StepAppendOnly | src/components/ChatWidget.jsx:33-108 | one event appends at most one message and keeps the old log as a prefix |
| Conversation.RunAppendOnly | src/components/ChatWidget.jsx:33-115 | along any trace the old log stays a prefix of the new one, which grows by at most one message per event |
| Conversation.GreetingStaysFirst | src/components/ChatWidget.jsx:10-22 | in every reachable state the first message is the greeting with its five options |
| Conversation.ReachableIsValid | src/components/ChatWidget.jsx:24-27 | every state reachable from mounting has the interval set only while recording |
| Widget.ChatWidget.constructor | src/components/ChatWidget.jsx:10-27 | a new widget holds only the greeting with its five options; the draft is empty, there is no recording, the counter is 0, no interval is set and nothing is scheduled |
| Widget.ChatWidget.SetInput | src/components/ChatWidget.jsx:287 | the draft becomes the new text, verbatim; nothing else changes |
| Widget.ChatWidget.SendMessage | src/components/ChatWidget.jsx:33-42 | in place: a blank draft changes nothing. Otherwise the draft is appended, the draft is cleared and the acknowledgement is scheduled at 1000 ms. The recording fields are kept |
| Widget.ChatWidget.KeyPress | src/components/ChatWidget.jsx:44-49 | Enter without Shift is a send; anything else changes nothing |
| Widget.ChatWidget.OptionClick | src/components/ChatWidget.jsx:80-109 | in place: the label is appended and its answer is scheduled at 1000 ms; the draft and the recording fields are kept |
| Widget.ChatWidget.StartRecordingTimer | src/components/ChatWidget.jsx:51-56 | the counter restarts at 0 and the interval is set |
| Widget.ChatWidget.StopRecordingTimer | src/components/ChatWidget.jsx:58-62 | the interval is cleared if set; the counter and everything else are kept |
| Widget.ChatWidget.ToggleRecording | src/components/ChatWidget.jsx:64-78 | in place: the toggle flips `isRecording` and keeps the interval in step with it. Starting zeroes the counter. Stopping keeps the counter and schedules the voice note for it at 500 ms. The log is untouched |
| Widget.ChatWidget.Tick | src/components/ChatWidget.jsx:53-55 | in place: the counter gains one second while the interval is set and is unchanged otherwise |
| Widget.ChatWidget.FirePending | src/components/ChatWidget.jsx:37-40 | running a pending callback appends its message and removes exactly that callback from the queue |
| Widget.ChatWidget.Unmount | src/components/ChatWidget.jsx:111-115 | the interval is cleared; the log, the draft, the recording flag, the counter and the pending callbacks are kept |

## Left out

- Rendering is not modelled. This covers all JSX, the CSS class strings and
  the `positionClasses` map, the `isOpen` open/close toggle, and the
  `primaryColor`, `secondaryColor` and `logo` props. None of these affects
  the conversation.
- `scrollToBottom`, `messagesEndRef` and `e.preventDefault()` are left out.
  They are DOM side effects with no effect on the state.
- The variant at `chatbot-frontend/src/components/ChatWidget.jsx` is not
  part of this model. It is static markup plus `isOpen`; its input and Send
  button have no handlers.
- Real time is not modelled. Delays are recorded on each callback, but the
  model does not decide when a callback runs: `FirePending` may run any
  pending callback. The ordering that the delays and a clock would impose
  (due time first, FIFO among equal delays) is not captured. Neither is the
  1000 ms tick period.
- React's render and batching machinery is not modelled. In particular,
  `handleSendMessage` builds the new log from the render-time `messages`
  snapshot (line 35). The model appends to the current log; this is the same
  whenever no callback's update lands between a render and the click.
- After `Unmounted` the only events a real component still sees are the
  `setTimeout` callbacks already pending (`TimeoutFired`). They still run,
  but React drops their `setMessages` update on an unmounted component.
  `Run` applies them to the model's log anyway, and it also accepts user
  events after `Unmounted`. The state after `Unmounted` therefore stands for
  no observable widget. The lemmas about traces are statements about the
  model only, and none of them needs the trace to stop at `Unmounted`.
- Widget.ChatWidget.StartRecordingTimer requires that no interval is set.
  With a single flag the model cannot represent the leaked second interval
  that the code would create otherwise. `ToggleRecording` only starts the
  timer when not recording, and there the invariant guarantees that no
  interval is set.
- Text.NatToString renders every natural number in plain decimal.
  JavaScript switches to exponent notation from 10^21 and loses precision
  above 2^53. Counts that large cannot arise from a per-second counter.
