/**
 * The chat widget's conversation state machine as values: the message
 * log, the draft, the recording session and the callbacks the widget has
 * handed to the timer. Each user gesture and each timer firing is a
 * function from state to state; `Run` plays a whole sequence of them.
 * The class in module Widget is proved against these functions.
 *
 * Timers are abstracted: `setTimeout(f, d)` adds `Scheduled(d, m)` to
 * `pending`, where `m` is the message `f` appends (fixed when the callback
 * is created), and the timer later fires any one pending callback;
 * `setInterval` is the flag `intervalActive`, and each of its firings is a
 * tick.
 */
module Conversation {
  import opened Text
  import opened Script

  /** The delay, in milliseconds, before a bot answer is appended. */
  const ReplyDelay: nat := 1000
  /** The delay, in milliseconds, before a stopped recording's voice note is appended. */
  const VoiceDelay: nat := 500

  datatype Option<+T> = None | Some(value: T)

  /** A message of the thread; only bot messages may carry quick-reply options, and most carry none. */
  datatype Message = User(text: string) | Bot(text: string, options: Option<seq<string>>)

  /** A one-shot callback handed to the timer: after `delay` ms it appends `message`. */
  datatype Scheduled = Scheduled(delay: nat, message: Message)

  datatype State = State(
    messages: seq<Message>,
    input: string,
    isRecording: bool,
    recordingTime: nat,
    intervalActive: bool,
    pending: seq<Scheduled>)

  /** The invariant of every reachable state: the tick runs only during a recording. */
  predicate Valid(st: State) {
    st.intervalActive ==> st.isRecording
  }

  /** Before teardown the tick runs exactly while recording. */
  predicate Synced(st: State) {
    st.intervalActive == st.isRecording
  }

  /** A fresh widget: the greeting with its five options, an empty draft, no recording, nothing scheduled. */
  function Initial(): (r: State)
    ensures Valid(r) && Synced(r) && !r.isRecording && r.recordingTime == 0
    ensures |r.messages| == 1 && r.messages[0].Bot? && r.messages[0].options == Some(QuickReplies)
    ensures r.input == "" && r.pending == []
  {
    State([Bot(Greeting, Some(QuickReplies))], "", false, 0, false, [])
  }

  /** The input field's change handler stores the new draft verbatim and touches nothing else. */
  function SetInput(st: State, text: string): (r: State)
    ensures r.input == text && r == st.(input := r.input)
  {
    st.(input := text)
  }

  /**
   * `handleSendMessage`: either nothing changes, or exactly the draft is
   * appended to the log and exactly one callback is added; the recording
   * session is never touched.
   */
  function SendMessage(st: State): (r: State)
    ensures r == st || (r.messages == st.messages + [User(st.input)] && r.input == "" &&
                        |r.pending| == |st.pending| + 1 && r.pending[..|st.pending|] == st.pending)
    ensures r.isRecording == st.isRecording && r.recordingTime == st.recordingTime
    ensures r.intervalActive == st.intervalActive
  {
    if Trim(st.input) != "" then
      st.(messages := st.messages + [User(st.input)],
          input := "",
          pending := st.pending + [Scheduled(ReplyDelay, Bot(Acknowledgement, None))])
    else
      st
  }

  /** `handleKeyPress`: a key press either sends the draft or changes nothing. */
  function KeyPress(st: State, key: string, shift: bool): (r: State)
    ensures r == st || r == SendMessage(st)
    ensures r != st ==> key == "Enter" && !shift
  {
    if key == "Enter" && !shift then SendMessage(st) else st
  }

  /**
   * `handleOptionClick`: the label is echoed at once, whatever it is, and
   * exactly one bot answer without options is scheduled after the reply delay.
   */
  function OptionClick(st: State, option: string): (r: State)
    ensures r.messages == st.messages + [User(option)]
    ensures |r.pending| == |st.pending| + 1 && r.pending[..|st.pending|] == st.pending
    ensures var s := r.pending[|st.pending|]; s.delay == 1000 && s.message.Bot? && s.message.options == None
    ensures r.input == st.input && r.isRecording == st.isRecording
    ensures r.recordingTime == st.recordingTime && r.intervalActive == st.intervalActive
  {
    var r := st.(messages := st.messages + [User(option)],
                 pending := st.pending + [Scheduled(ReplyDelay, Bot(Reply(option), None))]);
    assert r.pending[..|st.pending|] == st.pending;
    r
  }

  /** `startRecordingTimer`: the counter restarts and the interval runs; nothing else changes. */
  function StartRecordingTimer(st: State): (r: State)
    ensures r.intervalActive && r.recordingTime == 0
    ensures r == st.(recordingTime := r.recordingTime, intervalActive := r.intervalActive)
  {
    st.(recordingTime := 0, intervalActive := true)
  }

  /** `stopRecordingTimer`: afterwards no interval runs, so the invariant holds whatever it was before. */
  function StopRecordingTimer(st: State): (r: State)
    ensures !r.intervalActive && Valid(r)
    ensures r == st.(intervalActive := r.intervalActive)
  {
    st.(intervalActive := false)
  }

  /**
   * `toggleRecording`: from any state, the recording flag flips and the
   * interval runs exactly while recording; the log and the draft stay.
   */
  function ToggleRecording(st: State): (r: State)
    ensures r.isRecording == !st.isRecording && Synced(r) && Valid(r)
    ensures r.messages == st.messages && r.input == st.input
  {
    var next :=
      if st.isRecording then
        StopRecordingTimer(st).(pending := st.pending + [Scheduled(VoiceDelay, User(VoiceText(st.recordingTime)))])
      else
        StartRecordingTimer(st);
    next.(isRecording := !st.isRecording)
  }

  /** One firing of the recording interval: only the counter may change, and by at most one second. */
  function Tick(st: State): (r: State)
    ensures st.recordingTime <= r.recordingTime <= st.recordingTime + 1
    ensures r == st.(recordingTime := r.recordingTime)
    ensures r.recordingTime != st.recordingTime <==> st.intervalActive
  {
    if st.intervalActive then st.(recordingTime := st.recordingTime + 1) else st
  }

  /**
   * The timer fires pending callback `i`: its message is appended to the
   * log, and exactly that one callback leaves the queue.
   */
  function FirePending(st: State, i: nat): (r: State)
    requires i < |st.pending|
    ensures r.messages == st.messages + [st.pending[i].message]
    ensures |r.pending| + 1 == |st.pending|
    ensures multiset(r.pending) + multiset{st.pending[i]} == multiset(st.pending)
    ensures r == st.(messages := r.messages, pending := r.pending)
  {
    assert st.pending == st.pending[..i] + [st.pending[i]] + st.pending[i + 1..];
    st.(messages := st.messages + [st.pending[i].message],
        pending := st.pending[..i] + st.pending[i + 1..])
  }

  /** The unmount cleanup clears the recording interval and nothing else; pending callbacks stay. */
  function Unmount(st: State): (r: State)
    ensures !r.intervalActive && Valid(r)
    ensures r.messages == st.messages && r.pending == st.pending
    ensures r.isRecording == st.isRecording && r.recordingTime == st.recordingTime
  {
    StopRecordingTimer(st)
  }

  /** What can happen to a mounted widget. */
  datatype Event =
    | InputChanged(text: string)
    | SendClicked
    | KeyPressed(key: string, shift: bool)
    | OptionClicked(option: string)
    | MicClicked
    | IntervalFired
    | TimeoutFired(index: nat)
    | Unmounted

  function Step(st: State, e: Event): State {
    match e
    case InputChanged(text) => SetInput(st, text)
    case SendClicked => SendMessage(st)
    case KeyPressed(key, shift) => KeyPress(st, key, shift)
    case OptionClicked(option) => OptionClick(st, option)
    case MicClicked => ToggleRecording(st)
    case IntervalFired => Tick(st)
    case TimeoutFired(i) => if i < |st.pending| then FirePending(st, i) else st
    case Unmounted => Unmount(st)
  }

  function Run(st: State, events: seq<Event>): State
    decreases |events|
  {
    if events == [] then st else Run(Step(st, events[0]), events[1..])
  }

  /** `k` firings of the recording interval. */
  function Ticks(k: nat): seq<Event> {
    seq(k, _ => IntervalFired)
  }

  // ---------------------------------------------------------------------------
  // Sending a draft

  /** A draft of nothing but whitespace sends nothing: log, draft and timer queue are as before. */
  lemma SendBlankIsNoOp(st: State)
    requires !HasContent(st.input)
    ensures SendMessage(st) == st
  {
    TrimEmptyIffBlank(st.input);
  }

  /**
   * A draft with content is appended untrimmed as one user message after
   * the unchanged log, the draft is cleared, and exactly one acknowledgement
   * is scheduled after the reply delay; the recording session is untouched.
   */
  lemma SendWithContent(st: State)
    requires HasContent(st.input)
    ensures var r := SendMessage(st);
      r.messages == st.messages + [User(st.input)] &&
      r.input == "" &&
      r.pending == st.pending + [Scheduled(1000, Bot("I received your message!", None))] &&
      r.isRecording == st.isRecording && r.recordingTime == st.recordingTime &&
      r.intervalActive == st.intervalActive
  {
    TrimEmptyIffBlank(st.input);
  }

  /** Enter without Shift sends the draft; any other key, or Enter with Shift, changes nothing. */
  lemma KeyPressSends(st: State, key: string, shift: bool)
    ensures key == "Enter" && !shift ==> KeyPress(st, key, shift) == SendMessage(st)
    ensures key != "Enter" || shift ==> KeyPress(st, key, shift) == st
  {
  }

  /** Sending a draft and then firing its acknowledgement leaves the draft and the answer, in that order, after the old log. */
  lemma SendThenAcknowledge(st: State)
    requires HasContent(st.input)
    ensures var sent := SendMessage(st);
      |sent.pending| == |st.pending| + 1 &&
      var r := FirePending(sent, |st.pending|);
      r.messages == st.messages + [User(st.input), Bot(Acknowledgement, None)] &&
      r.pending == st.pending && r.input == ""
  {
    TrimEmptyIffBlank(st.input);
    var sent := SendMessage(st);
    assert sent.pending[..|st.pending|] == st.pending;
  }

  // ---------------------------------------------------------------------------
  // Quick replies

  /**
   * Any label, known or not, is echoed at once as a user message, and
   * exactly one answer is scheduled after the reply delay: the table's
   * answer for a known label, the fallback for any other.
   */
  lemma OptionClickSchedulesReply(st: State, option: string)
    ensures var r := OptionClick(st, option);
      r.messages == st.messages + [User(option)] &&
      r.input == st.input &&
      r.pending == st.pending + [Scheduled(1000, Bot(Reply(option), None))] &&
      (option in ReplyTable ==> r.pending[|st.pending|].message.text == ReplyTable[option]) &&
      (option !in ReplyTable ==> r.pending[|st.pending|].message.text == "How can I assist you with that?")
  {
    ReplyFollowsTable(option);
  }

  /** Choosing an option and firing its answer leaves the label and the answer, in that order, after the old log. */
  lemma OptionThenReply(st: State, option: string)
    ensures var clicked := OptionClick(st, option);
      |clicked.pending| == |st.pending| + 1 &&
      var r := FirePending(clicked, |st.pending|);
      r.messages == st.messages + [User(option), Bot(Reply(option), None)] &&
      r.pending == st.pending
  {
    var clicked := OptionClick(st, option);
    assert clicked.pending[..|st.pending|] == st.pending;
  }

  // ---------------------------------------------------------------------------
  // The recording session

  /**
   * The microphone button always flips the recording state and leaves the
   * tick running exactly while recording. Starting resets the counter and
   * schedules nothing; stopping freezes the counter and schedules exactly
   * one voice note carrying the count, after the voice delay. Neither
   * appends to the log.
   */
  lemma ToggleRecordingEffect(st: State)
    ensures var r := ToggleRecording(st);
      Valid(r) && Synced(r) &&
      r.isRecording == !st.isRecording &&
      r.messages == st.messages && r.input == st.input &&
      (r.isRecording ==> r.recordingTime == 0 && r.pending == st.pending) &&
      (!r.isRecording ==>
         r.recordingTime == st.recordingTime &&
         r.pending == st.pending + [Scheduled(500, User(VoiceText(st.recordingTime)))])
  {
  }

  /** While the interval is set each tick adds exactly one second; once cleared, a tick changes nothing. */
  lemma TickEffect(st: State)
    ensures st.intervalActive ==> Tick(st) == st.(recordingTime := st.recordingTime + 1)
    ensures !st.intervalActive ==> Tick(st) == st
  {
  }

  /** Playing `a` then `b` is playing `a + b`. */
  lemma {:induction false} RunConcat(st: State, a: seq<Event>, b: seq<Event>)
    ensures Run(st, a + b) == Run(Run(st, a), b)
    decreases |a|
  {
    if a != [] {
      assert (a + b)[0] == a[0];
      assert (a + b)[1..] == a[1..] + b;
      RunConcat(Step(st, a[0]), a[1..], b);
    } else {
      assert a + b == b;
    }
  }

  /** `k` ticks while the interval is set add exactly `k` seconds and change nothing else. */
  lemma {:induction false} TicksCount(st: State, k: nat)
    requires st.intervalActive
    ensures Run(st, Ticks(k)) == st.(recordingTime := st.recordingTime + k)
    decreases k
  {
    if k > 0 {
      assert Ticks(k)[0] == IntervalFired;
      assert Ticks(k)[1..] == Ticks(k - 1);
      TicksCount(Tick(st), k - 1);
    }
  }

  /**
   * Start a recording, let the interval fire `k` times, stop it: the log is
   * as before and exactly one voice note reporting `k` seconds waits on
   * the timer.
   */
  lemma RecordFor(st: State, k: nat)
    requires Valid(st) && !st.isRecording
    ensures var r := Run(st, [MicClicked] + Ticks(k) + [MicClicked]);
      r.messages == st.messages && r.input == st.input &&
      !r.isRecording && !r.intervalActive && r.recordingTime == k &&
      r.pending == st.pending + [Scheduled(VoiceDelay, User(VoiceText(k)))]
  {
    var started := ToggleRecording(st);
    assert Run(st, [MicClicked]) == started;
    RunConcat(st, [MicClicked], Ticks(k));
    TicksCount(started, k);
    RunConcat(st, [MicClicked] + Ticks(k), [MicClicked]);
    assert Run(st, [MicClicked] + Ticks(k)) == started.(recordingTime := k);
  }

  /** Toggling twice with no tick in between schedules the voice note for 0 seconds. */
  lemma RecordForZero(st: State)
    requires Valid(st) && !st.isRecording
    ensures Run(st, [MicClicked, MicClicked]).pending ==
      st.pending + [Scheduled(500, User("[Voice message recorded for 0 seconds]"))]
  {
    RecordFor(st, 0);
    assert [MicClicked] + Ticks(0) + [MicClicked] == [MicClicked, MicClicked];
    VoiceTextExamples();
  }

  /** Two ticks between the toggles give the voice note for 2 seconds. */
  lemma RecordForTwo(st: State)
    requires Valid(st) && !st.isRecording
    ensures Run(st, [MicClicked, IntervalFired, IntervalFired, MicClicked]).pending ==
      st.pending + [Scheduled(500, User("[Voice message recorded for 2 seconds]"))]
  {
    RecordFor(st, 2);
    assert [MicClicked] + Ticks(2) + [MicClicked] == [MicClicked, IntervalFired, IntervalFired, MicClicked];
    VoiceTextExamples();
  }

  /** After the unmount cleanup the counter never moves again, however often the interval would have fired. */
  lemma {:induction false} UnmountStopsTicks(st: State, k: nat)
    ensures Run(Unmount(st), Ticks(k)) == Unmount(st)
    ensures !Unmount(st).intervalActive && Unmount(st).recordingTime == st.recordingTime
    decreases k
  {
    if k > 0 {
      assert Ticks(k)[1..] == Ticks(k - 1);
      UnmountStopsTicks(st, k - 1);
    }
  }

  // ---------------------------------------------------------------------------
  // Whole runs

  /** Every event keeps the tick confined to a recording; every event but the unmount keeps them in step. */
  lemma StepKeepsValid(st: State, e: Event)
    requires Valid(st)
    ensures Valid(Step(st, e))
    ensures Synced(st) && e != Unmounted ==> Synced(Step(st, e))
  {
  }

  /** From any valid state, any run ends in a valid state. */
  lemma {:induction false} RunKeepsValid(st: State, events: seq<Event>)
    requires Valid(st)
    ensures Valid(Run(st, events))
    decreases |events|
  {
    if events != [] {
      StepKeepsValid(st, events[0]);
      RunKeepsValid(Step(st, events[0]), events[1..]);
    }
  }

  /** Without an unmount, the tick runs exactly while recording throughout a run. */
  lemma {:induction false} RunKeepsSynced(st: State, events: seq<Event>)
    requires Synced(st)
    requires forall i :: 0 <= i < |events| ==> events[i] != Unmounted
    ensures Synced(Run(st, events))
    decreases |events|
  {
    if events != [] {
      assert events[0] != Unmounted;
      RunKeepsSynced(Step(st, events[0]), events[1..]);
    }
  }

  /** One event appends at most one message and never edits, removes or reorders the log. */
  lemma StepAppendOnly(st: State, e: Event)
    ensures var r := Step(st, e);
      |st.messages| <= |r.messages| <= |st.messages| + 1 &&
      r.messages[..|st.messages|] == st.messages
  {
  }

  /** The log is append-only: whatever happens, the old log stays a prefix of the new one. */
  lemma {:induction false} RunAppendOnly(st: State, events: seq<Event>)
    ensures var r := Run(st, events);
      |st.messages| <= |r.messages| <= |st.messages| + |events| &&
      r.messages[..|st.messages|] == st.messages
    decreases |events|
  {
    if events != [] {
      var next := Step(st, events[0]);
      StepAppendOnly(st, events[0]);
      RunAppendOnly(next, events[1..]);
      var r := Run(next, events[1..]);
      assert r.messages[..|st.messages|] == r.messages[..|next.messages|][..|st.messages|];
    }
  }

  /** Every conversation opens with the greeting and its five options, for the lifetime of the widget. */
  lemma GreetingStaysFirst(events: seq<Event>)
    ensures var r := Run(Initial(), events);
      |r.messages| >= 1 && r.messages[0] == Bot("Hello! How can I help you today?",
        Some(["Book A Demo", "Services", "Ask a Question", "Pricing", "Leads"]))
  {
    RunAppendOnly(Initial(), events);
    var r := Run(Initial(), events);
    assert r.messages[..1][0] == r.messages[0];
  }

  /** Every state a widget reaches is valid. */
  lemma ReachableIsValid(events: seq<Event>)
    ensures Valid(Run(Initial(), events))
  {
    RunKeepsValid(Initial(), events);
  }
}
