/** The code editor's header: the countdown clock and the submission status badge. */
module CodeEditor {
  import opened Types
  import Text

  /** `getFormattedTime(seconds)`: the countdown as `m:ss` (see `Text.Clock`). */
  function GetFormattedTime(seconds: int): string
  {
    Text.Clock(seconds)
  }

  /** For a non-negative countdown, the badge reads back as the number of seconds shown: the
      minutes before the colon, exactly two second digits after it. */
  lemma FormattedTimeReadsBack(seconds: nat)
    ensures var r := GetFormattedTime(seconds);
      && |r| >= 4 && r[|r| - 3] == ':'
      && r[..|r| - 3] == Text.NatToString(seconds / 60)
      && Text.AllDigits(r[|r| - 2..])
      && Text.DigitsValue(r[|r| - 2..]) == seconds % 60
      && (r[|r| - 2] == '0' <==> seconds % 60 < 10)
  {
    Text.ClockReadBack(seconds);
  }

  /** `getStatusColor()`: the colour class of the status badge, one colour per family of
      verdicts, and no colour when there is no submission. */
  function GetStatusColor(status: Option<SubmissionStatus>): (c: string)
    ensures c == "" <==> status.None?
    ensures c == "text-green-600" <==> status == Some(ACCEPTED)
    ensures c == "text-red-600" <==>
      status.Some? && status.value in {WRONG_ANSWER, RUNTIME_ERROR, COMPILATION_ERROR}
    ensures c == "text-yellow-600" <==>
      status.Some? && status.value in {TIME_LIMIT_EXCEEDED, MEMORY_LIMIT_EXCEEDED}
    ensures c == "text-blue-600" <==> status.Some? && status.value in {PENDING, RUNNING}
  {
    match status
    case None => ""
    case Some(s) =>
      match s
      case ACCEPTED => "text-green-600"
      case WRONG_ANSWER | RUNTIME_ERROR | COMPILATION_ERROR => "text-red-600"
      case TIME_LIMIT_EXCEEDED | MEMORY_LIMIT_EXCEEDED => "text-yellow-600"
      case PENDING | RUNNING => "text-blue-600"
  }

  /** `getStatusText()`: the label of the status badge. */
  function GetStatusText(status: Option<SubmissionStatus>): (t: string)
    ensures t == "" <==> status.None?
  {
    match status
    case None => ""
    case Some(s) =>
      match s
      case ACCEPTED => "Accepted"
      case WRONG_ANSWER => "Wrong Answer"
      case TIME_LIMIT_EXCEEDED => "Time Limit Exceeded"
      case MEMORY_LIMIT_EXCEEDED => "Memory Limit Exceeded"
      case RUNTIME_ERROR => "Runtime Error"
      case COMPILATION_ERROR => "Compilation Error"
      case PENDING => "Pending"
      case RUNNING => "Running Tests..."
  }

  /** Each of the eight statuses has its own label: the label determines the status. */
  lemma StatusTextDistinct(a: SubmissionStatus, b: SubmissionStatus)
    ensures GetStatusText(Some(a)) == GetStatusText(Some(b)) ==> a == b
  {
  }
}
