/** The bot's fixed lines: the greeting and its quick replies, the canned answers, and the voice-note text. */
module Script {
  import opened Text

  /** The text of the greeting that seeds every new conversation. */
  const Greeting: string := "Hello! How can I help you today?"

  /** The quick-reply options the greeting offers, in display order. */
  const QuickReplies: seq<string> := ["Book A Demo", "Services", "Ask a Question", "Pricing", "Leads"]

  /** The acknowledgement that follows every sent draft. */
  const Acknowledgement: string := "I received your message!"

  /** The answer to an option label the lookup does not know. */
  const Fallback: string := "How can I assist you with that?"

  /** The answer to a quick reply: an exact, case-sensitive match on the label, else the fallback. */
  function Reply(option: string): (r: string)
    ensures r != ""
    ensures r == Fallback <==> option !in ReplyTable
  {
    if option == "Book A Demo" then
      "I can help you schedule a demo. Please let me know your preferred date and time."
    else if option == "Services" then
      "We offer a wide range of services including AI chatbots, automation, and custom solutions. Which area interests you?"
    else if option == "Ask a Question" then
      "Feel free to ask any question! I'm here to help."
    else if option == "Pricing" then
      "Our pricing plans are flexible and tailored to your needs. Would you like to see our pricing packages?"
    else if option == "Leads" then
      "I can help you with lead generation and management. What specific information are you looking for?"
    else
      Fallback
  }

  /** The canned answers as a table, keyed by label. */
  const ReplyTable: map<string, string> := map[
    "Book A Demo" := "I can help you schedule a demo. Please let me know your preferred date and time.",
    "Services" := "We offer a wide range of services including AI chatbots, automation, and custom solutions. Which area interests you?",
    "Ask a Question" := "Feel free to ask any question! I'm here to help.",
    "Pricing" := "Our pricing plans are flexible and tailored to your needs. Would you like to see our pricing packages?",
    "Leads" := "I can help you with lead generation and management. What specific information are you looking for?"
  ]

  /** The lookup answers from the table for its labels and with the fallback for every other label. */
  lemma ReplyFollowsTable(option: string)
    ensures option in ReplyTable ==> Reply(option) == ReplyTable[option]
    ensures option !in ReplyTable ==> Reply(option) == Fallback
  {
  }

  /**
   * The table covers exactly the options the greeting offers, and each of
   * them gets its own answer, different from the fallback and from the
   * answer to every other option.
   */
  lemma GreetingOptionsAnswered()
    ensures ReplyTable.Keys == set i | 0 <= i < |QuickReplies| :: QuickReplies[i]
    ensures forall i :: 0 <= i < |QuickReplies| ==> Reply(QuickReplies[i]) != Fallback
    ensures forall i, j :: 0 <= i < j < |QuickReplies| ==> Reply(QuickReplies[i]) != Reply(QuickReplies[j])
  {
    var keys := set i | 0 <= i < |QuickReplies| :: QuickReplies[i];
    assert QuickReplies[0] in keys && QuickReplies[1] in keys && QuickReplies[2] in keys;
    assert QuickReplies[3] in keys && QuickReplies[4] in keys;
  }

  /** The match is case-sensitive: a label differing only in case gets the fallback. */
  lemma ReplyIsCaseSensitive()
    ensures Reply("pricing") == Fallback && Reply("Pricing") != Fallback
  {
  }

  /** The opening and the closing of the voice-note text around the elapsed seconds. */
  const VoicePrefix: string := "[Voice message recorded for "
  const VoiceSuffix: string := " seconds]"

  /** The text of the user message that a stopped recording of `seconds` seconds produces. */
  function VoiceText(seconds: nat): (t: string)
    ensures |t| > |VoicePrefix| + |VoiceSuffix|
    ensures t[..|VoicePrefix|] == VoicePrefix && t[|t| - |VoiceSuffix|..] == VoiceSuffix
    ensures t[|VoicePrefix|..|t| - |VoiceSuffix|] == NatToString(seconds)
  {
    VoicePrefix + NatToString(seconds) + VoiceSuffix
  }

  /** The voice-note text carries the elapsed seconds in decimal between its fixed opening and closing. */
  lemma VoiceTextSeconds(seconds: nat)
    ensures var t := VoiceText(seconds);
      |t| > |VoicePrefix| + |VoiceSuffix| &&
      t[..|VoicePrefix|] == VoicePrefix && t[|t| - |VoiceSuffix|..] == VoiceSuffix &&
      AllDigits(t[|VoicePrefix|..|t| - |VoiceSuffix|]) &&
      ParseDecimal(t[|VoicePrefix|..|t| - |VoiceSuffix|]) == seconds &&
      (t[|VoicePrefix|] == '0' ==> seconds == 0)
  {
    var t := VoiceText(seconds);
    assert t[|VoicePrefix|..|t| - |VoiceSuffix|] == NatToString(seconds);
    ParseNatToString(seconds);
  }

  /** Different durations give different voice-note texts. */
  lemma VoiceTextInjective(m: nat, n: nat)
    requires VoiceText(m) == VoiceText(n)
    ensures m == n
  {
    VoiceTextSeconds(m);
    VoiceTextSeconds(n);
  }

  /** The texts of the zero- and two-second voice notes. */
  lemma VoiceTextExamples()
    ensures VoiceText(0) == "[Voice message recorded for 0 seconds]"
    ensures VoiceText(2) == "[Voice message recorded for 2 seconds]"
  {
  }
}
