/** Entities shared by every component: tasks, duels, players and submission verdicts.
    Strings are `seq<char>`; timestamps are integer milliseconds since the epoch. */
module Types {

  /** An optional value, standing for a field that may be `undefined` or `null`. */
  datatype Option<+T> = None | Some(value: T)

  datatype TaskDifficulty = EASY | MEDIUM | HARD

  /** The string value each difficulty has at run time. */
  function DifficultyName(d: TaskDifficulty): string
  {
    match d
    case EASY => "easy"
    case MEDIUM => "medium"
    case HARD => "hard"
  }

  datatype ProgrammingLanguage = JAVASCRIPT | PYTHON | JAVA | CPP | CSHARP

  /** The string value each language has at run time. */
  function LanguageName(l: ProgrammingLanguage): string
  {
    match l
    case JAVASCRIPT => "javascript"
    case PYTHON => "python"
    case JAVA => "java"
    case CPP => "cpp"
    case CSHARP => "csharp"
  }

  datatype DuelStatus = WAITING | IN_PROGRESS | FINISHED | CANCELLED

  /** The string value each duel status has at run time. */
  function StatusName(s: DuelStatus): string
  {
    match s
    case WAITING => "waiting"
    case IN_PROGRESS => "in_progress"
    case FINISHED => "finished"
    case CANCELLED => "cancelled"
  }

  datatype SubmissionStatus =
    | PENDING
    | RUNNING
    | ACCEPTED
    | WRONG_ANSWER
    | TIME_LIMIT_EXCEEDED
    | MEMORY_LIMIT_EXCEEDED
    | RUNTIME_ERROR
    | COMPILATION_ERROR

  datatype TestCase = TestCase(id: string, input: string, expectedOutput: string, isPublic: bool)

  datatype Task = Task(
    id: string,
    title: string,
    description: string,
    difficulty: TaskDifficulty,
    timeLimit: int,
    memoryLimit: int,
    sampleTestCases: seq<TestCase>,
    createdAt: int,
    upvotes: int,
    downvotes: int)

  datatype DuelPlayer = DuelPlayer(
    userId: string,
    username: string,
    avatarUrl: Option<string>,
    isReady: bool,
    hasSubmitted: bool,
    hasCompleted: bool,
    submissionTime: Option<int>)

  datatype Duel = Duel(
    id: string,
    status: DuelStatus,
    task: Task,
    player1: DuelPlayer,
    player2: Option<DuelPlayer>,
    startTime: Option<int>,
    endTime: Option<int>,
    winnerId: Option<string>,
    isPrivate: bool,
    inviteCode: Option<string>)
}
