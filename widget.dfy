/**
 * The chat widget as an object: its state hooks become fields that the
 * event handlers update in place, and each handler is proved to move the
 * widget exactly as the corresponding function of module Conversation
 * moves its `Snapshot()`.
 */
module Widget {
  import opened Text
  import opened Script
  import opened Conversation

  class ChatWidget {
    var messages: seq<Message>
    var input: string
    var isRecording: bool
    var recordingTime: nat
    /** Whether `recordingIntervalRef` holds an interval that has not been cleared. */
    var intervalActive: bool
    /** The `setTimeout` callbacks the widget has created and the timer has not yet run. */
    var pending: seq<Scheduled>

    /** The widget's state as a value. */
    function Snapshot(): State
      reads this
    {
      State(messages, input, isRecording, recordingTime, intervalActive, pending)
    }

    ghost predicate Valid()
      reads this
    {
      Conversation.Valid(Snapshot())
    }

    /** Mounting: the greeting with its five options, an empty draft, no recording, nothing scheduled. */
    constructor ()
      ensures Valid() && Synced(Snapshot())
      ensures Snapshot() == Initial()
      ensures messages == [Bot("Hello! How can I help you today?",
                Some(["Book A Demo", "Services", "Ask a Question", "Pricing", "Leads"]))]
      ensures input == "" && !isRecording && recordingTime == 0 && !intervalActive && pending == []
    {
      messages := [Bot(Greeting, Some(QuickReplies))];
      input := "";
      isRecording := false;
      recordingTime := 0;
      intervalActive := false;
      pending := [];
    }

    /** The input field's change handler: the draft becomes `text`, verbatim. */
    method SetInput(text: string)
      requires Valid()
      modifies this
      ensures Valid() && Snapshot() == Conversation.SetInput(old(Snapshot()), text)
      ensures input == text
      ensures messages == old(messages) && pending == old(pending)
      ensures isRecording == old(isRecording) && recordingTime == old(recordingTime)
      ensures intervalActive == old(intervalActive)
    {
      input := text;
    }

    /** `handleSendMessage`. */
    method SendMessage()
      requires Valid()
      modifies this
      ensures Valid() && Snapshot() == Conversation.SendMessage(old(Snapshot()))
      ensures !HasContent(old(input)) ==> Snapshot() == old(Snapshot())
      ensures HasContent(old(input)) ==>
        messages == old(messages) + [User(old(input))] &&
        input == "" &&
        pending == old(pending) + [Scheduled(ReplyDelay, Bot(Acknowledgement, None))]
      ensures isRecording == old(isRecording) && recordingTime == old(recordingTime)
      ensures intervalActive == old(intervalActive)
    {
      TrimEmptyIffBlank(input);
      if Trim(input) != "" {
        messages := messages + [User(input)];
        input := "";
        pending := pending + [Scheduled(ReplyDelay, Bot(Acknowledgement, None))];
      }
    }

    /** `handleKeyPress`: Enter without Shift sends the draft; any other key press changes nothing. */
    method KeyPress(key: string, shift: bool)
      requires Valid()
      modifies this
      ensures Valid() && Snapshot() == Conversation.KeyPress(old(Snapshot()), key, shift)
      ensures key == "Enter" && !shift ==> Snapshot() == Conversation.SendMessage(old(Snapshot()))
      ensures key != "Enter" || shift ==> Snapshot() == old(Snapshot())
      ensures key == "Enter" && !shift && HasContent(old(input)) ==>
        messages == old(messages) + [User(old(input))] &&
        input == "" &&
        pending == old(pending) + [Scheduled(ReplyDelay, Bot(Acknowledgement, None))]
      ensures isRecording == old(isRecording) && recordingTime == old(recordingTime)
      ensures intervalActive == old(intervalActive)
    {
      if key == "Enter" && !shift {
        SendMessage();
      }
    }

    /** `handleOptionClick`: the label is echoed now and its answer is scheduled after the reply delay. */
    method OptionClick(option: string)
      requires Valid()
      modifies this
      ensures Valid() && Snapshot() == Conversation.OptionClick(old(Snapshot()), option)
      ensures messages == old(messages) + [User(option)]
      ensures pending == old(pending) + [Scheduled(ReplyDelay, Bot(Reply(option), None))]
      ensures input == old(input)
      ensures isRecording == old(isRecording) && recordingTime == old(recordingTime)
      ensures intervalActive == old(intervalActive)
    {
      messages := messages + [User(option)];
      pending := pending + [Scheduled(ReplyDelay, Bot(Reply(option), None))];
    }

    /** `startRecordingTimer`: the counter restarts at zero and the one interval is set. */
    method StartRecordingTimer()
      requires !intervalActive
      modifies this
      ensures Snapshot() == Conversation.StartRecordingTimer(old(Snapshot()))
      ensures recordingTime == 0 && intervalActive
      ensures messages == old(messages) && input == old(input) && pending == old(pending)
      ensures isRecording == old(isRecording)
    {
      recordingTime := 0;
      intervalActive := true;
    }

    /** `stopRecordingTimer`: the interval, if set, is cleared; nothing else changes. */
    method StopRecordingTimer()
      modifies this
      ensures Snapshot() == Conversation.StopRecordingTimer(old(Snapshot()))
      ensures !intervalActive && recordingTime == old(recordingTime)
      ensures messages == old(messages) && input == old(input) && pending == old(pending)
      ensures isRecording == old(isRecording)
    {
      if intervalActive {
        intervalActive := false;
      }
    }

    /** `toggleRecording`. */
    method ToggleRecording()
      requires Valid()
      modifies this
      ensures Valid() && Synced(Snapshot())
      ensures Snapshot() == Conversation.ToggleRecording(old(Snapshot()))
      ensures isRecording == !old(isRecording)
      ensures messages == old(messages) && input == old(input)
      ensures isRecording ==> recordingTime == 0 && pending == old(pending)
      ensures !isRecording ==>
        recordingTime == old(recordingTime) &&
        pending == old(pending) + [Scheduled(VoiceDelay, User(VoiceText(old(recordingTime))))]
    {
      if isRecording {
        StopRecordingTimer();
        pending := pending + [Scheduled(VoiceDelay, User(VoiceText(recordingTime)))];
      } else {
        StartRecordingTimer();
      }
      isRecording := !isRecording;
    }

    /** One firing of the recording interval: one more second while it is set, nothing once cleared. */
    method Tick()
      requires Valid()
      modifies this
      ensures Valid() && Snapshot() == Conversation.Tick(old(Snapshot()))
      ensures old(intervalActive) ==> recordingTime == old(recordingTime) + 1
      ensures !old(intervalActive) ==> recordingTime == old(recordingTime)
      ensures messages == old(messages) && input == old(input) && pending == old(pending)
      ensures isRecording == old(isRecording) && intervalActive == old(intervalActive)
    {
      if intervalActive {
        recordingTime := recordingTime + 1;
      }
    }

    /** The timer runs pending callback `i`: its message is appended and the callback is gone. */
    method FirePending(i: nat)
      requires Valid() && i < |pending|
      modifies this
      ensures Valid() && Snapshot() == Conversation.FirePending(old(Snapshot()), i)
      ensures messages == old(messages) + [old(pending[i]).message]
      ensures pending == old(pending[..i]) + old(pending[i + 1..])
      ensures input == old(input)
      ensures isRecording == old(isRecording) && recordingTime == old(recordingTime)
      ensures intervalActive == old(intervalActive)
    {
      messages := messages + [pending[i].message];
      pending := pending[..i] + pending[i + 1..];
    }

    /** The unmount cleanup: the interval is cleared; callbacks already handed to the timer stay. */
    method Unmount()
      requires Valid()
      modifies this
      ensures Valid() && Snapshot() == Conversation.Unmount(old(Snapshot()))
      ensures !intervalActive
      ensures messages == old(messages) && input == old(input) && pending == old(pending)
      ensures isRecording == old(isRecording) && recordingTime == old(recordingTime)
    {
      StopRecordingTimer();
    }
  }

  /** A client that sees the widget only through the contracts above: record for two seconds, then let the note arrive. */
  method RecordTwoSeconds()
  {
    var w := new ChatWidget();
    w.ToggleRecording();
    w.Tick();
    w.Tick();
    w.ToggleRecording();
    assert w.pending == [Scheduled(500, User(VoiceText(2)))];
    w.FirePending(0);
    VoiceTextExamples();
    assert w.messages[1] == User("[Voice message recorded for 2 seconds]");
    assert w.pending == [];
  }
}
