/** The SOS text message (HandsUpSOS/EmergencyMessageBuilder.swift): a fixed
    header, the chosen template, who and where the person is, the time and
    fixed instructions, one item per line. */
module EmergencyMessages {
  import opened Text

  /** An `EmergencyTemplate`: the situation the user picked. */
  datatype EmergencyTemplate = EmergencyTemplate(emoji: string, title: string, message: string)

  const Header := "🚨 EMERGENCY SOS 🚨"
  const PersonLabel := "Person: "
  const LocationLabel := "Location: "
  const TimeLabel := "Time: "

  /** Who the message is about when the profile has no name. */
  const DefaultName := "Emergency Contact"

  const AutomatedNotice := "This is an automated emergency message from HandsUpSOS app."
  const CallNow := "Please call emergency services (000) immediately."
  const IfReceived := "If you receive this message, please:"
  const StepCall := "1. Call 000 for emergency services"
  const StepLocation := "2. Provide the location coordinates above"
  const StepContact := "3. Contact the person if possible"

  /** The closing lines, the same in every message. */
  const FooterLines: seq<string> := [AutomatedNotice, CallNow, "", IfReceived, StepCall, StepLocation, StepContact]

  /** The name shown: the user's name as given, unless it is empty. */
  function DisplayName(userName: string): (name: string)
    ensures userName == "" ==> name == DefaultName
    ensures userName != "" ==> name == userName
  {
    if userName == "" then DefaultName else userName
  }

  /** The lines of `createMessage`'s multi-line literal before the closing
      instructions: the header, the template's emoji and title, its
      message, the person, the location and the time, with blank lines
      between the groups. */
  function DetailLines(template: EmergencyTemplate, userName: string, location: string, time: string): (lines: seq<string>)
    ensures |lines| == 8
  {
    [ Header, "",
      template.emoji + " " + template.title,
      template.message, "",
      PersonLabel + DisplayName(userName),
      LocationLabel + location,
      TimeLabel + time ]
  }

  /** All lines of the literal: the details, a blank line and the fixed
      instructions. */
  function MessageLines(template: EmergencyTemplate, userName: string, location: string, time: string): (lines: seq<string>)
    ensures |lines| == 16
  {
    DetailLines(template, userName, location, time) + [""] + FooterLines
  }

  /** The message is the details, a blank line and the instructions. */
  lemma MessageParts(template: EmergencyTemplate, userName: string, location: string, time: string)
    ensures Join(MessageLines(template, userName, location, time), "\n")
            == Join(DetailLines(template, userName, location, time), "\n") + "\n\n" + Join(FooterLines, "\n")
  {
    JoinAroundEmpty(DetailLines(template, userName, location, time), FooterLines, "\n");
  }

  /** The message opens with the header and a blank line. */
  lemma MessageStartsWithHeader(template: EmergencyTemplate, userName: string, location: string, time: string)
    ensures Header + "\n\n" <= Join(MessageLines(template, userName, location, time), "\n")
  {
    var lines := MessageLines(template, userName, location, time);
    assert lines[0] == Header && lines[1] == "";
    JoinOpensWith(lines, "\n");
  }

  /** The message closes with a blank line and the fixed instructions. */
  lemma MessageEndsWithInstructions(template: EmergencyTemplate, userName: string, location: string, time: string)
    ensures IsSuffix("\n\n" + Join(FooterLines, "\n"), Join(MessageLines(template, userName, location, time), "\n"))
  {
    MessageParts(template, userName, location, time);
  }

  /** The fixed detail lines hold no line break. */
  lemma FixedLinesUnbroken()
    ensures '\n' !in Header && '\n' !in PersonLabel && '\n' !in LocationLabel && '\n' !in TimeLabel
    ensures '\n' !in DefaultName
  {
  }

  /** None of the texts filled into the message contains a line break. */
  predicate SingleLineInputs(template: EmergencyTemplate, userName: string, location: string, time: string) {
    && '\n' !in template.emoji && '\n' !in template.title && '\n' !in template.message
    && '\n' !in userName && '\n' !in location && '\n' !in time
  }

  /** When none of the user's inputs contains a line break, the message
      splits back into its detail lines and a blank line before the
      instructions: the name (or the default) is the whole of the person
      line and the location the whole of the location line. */
  lemma MessageSplitsIntoLines(template: EmergencyTemplate, userName: string, location: string, time: string)
    requires SingleLineInputs(template, userName, location, time)
    ensures var lines := Split(Join(MessageLines(template, userName, location, time), "\n"), '\n');
            && |lines| > 9
            && lines[..9] == DetailLines(template, userName, location, time) + [""]
            && lines[5] == PersonLabel + DisplayName(userName)
            && lines[6] == LocationLabel + location
  {
    var details := DetailLines(template, userName, location, time) + [""];
    FixedLinesUnbroken();
    forall k | 0 <= k < |details| ensures '\n' !in details[k] {
    }
    SplitJoinPrefix(details, FooterLines, '\n');
  }

  /** `createMessage`, with the formatted current time given as `time`: the
      lines joined by newlines, which is what the multi-line literal
      denotes. It opens with the header and closes with the instructions;
      when the inputs are single lines, its lines are the detail lines, so
      the person line names the user (or the default) and the location line
      carries the location, each whole. */
  function CreateMessage(template: EmergencyTemplate, userName: string, location: string, time: string): (message: string)
    ensures Header + "\n\n" <= message
    ensures IsSuffix("\n\n" + Join(FooterLines, "\n"), message)
    ensures SingleLineInputs(template, userName, location, time) ==>
              var lines := Split(message, '\n');
              && |lines| > 9
              && lines[..9] == DetailLines(template, userName, location, time) + [""]
              && lines[5] == PersonLabel + DisplayName(userName)
              && lines[6] == LocationLabel + location
  {
    MessageStartsWithHeader(template, userName, location, time);
    MessageEndsWithInstructions(template, userName, location, time);
    if SingleLineInputs(template, userName, location, time) then
      MessageSplitsIntoLines(template, userName, location, time);
      Join(MessageLines(template, userName, location, time), "\n")
    else
      Join(MessageLines(template, userName, location, time), "\n")
  }
}
