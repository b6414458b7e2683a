/** The card listing one task: its shortened description and its difficulty badge. */
module TaskCard {
  import opened Types

  const PreviewLength: nat := 120

  /** `task.description.substring(0, 120)` followed by "..." when the description is longer. */
  function Preview(description: string): (shown: string)
    ensures |description| <= PreviewLength ==> shown == description
    ensures |description| > PreviewLength ==> shown == description[..PreviewLength] + "..."
    ensures |shown| <= PreviewLength + 3
    ensures var kept := if |description| < PreviewLength then |description| else PreviewLength;
      |shown| >= kept && shown[..kept] == description[..kept]
  {
    var kept := if |description| < PreviewLength then |description| else PreviewLength;
    description[..kept] + (if |description| > PreviewLength then "..." else "")
  }

  /** `difficultyColors`: the badge colours of each difficulty. */
  function DifficultyColor(d: TaskDifficulty): (c: string)
    ensures c != ""
  {
    match d
    case EASY => "bg-green-100 text-green-800"
    case MEDIUM => "bg-yellow-100 text-yellow-800"
    case HARD => "bg-red-100 text-red-800"
  }

  /** The three difficulties get three different colours. */
  lemma DifficultyColorsDistinct(a: TaskDifficulty, b: TaskDifficulty)
    ensures DifficultyColor(a) == DifficultyColor(b) ==> a == b
  {
  }
}
