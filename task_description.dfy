/** The task panel of the duel page: the description split into paragraphs, and the
    difficulty badge looked up by the difficulty's string value. */
module TaskDescription {
  import opened Types
  import TaskCard

  /** A paragraph break "\n\n" starts at index `j` of `s`. */
  predicate BreakAt(s: string, j: int)
  {
    0 <= j && j + 1 < |s| && s[j] == '\n' && s[j + 1] == '\n'
  }

  /** Index of the first paragraph break in `s`, or `|s|` when there is none. */
  function FirstBreak(s: string): (i: nat)
    ensures i <= |s|
    ensures i < |s| ==> BreakAt(s, i)
    ensures forall j :: 0 <= j < i ==> !BreakAt(s, j)
  {
    if |s| < 2 then |s|
    else if s[0] == '\n' && s[1] == '\n' then 0
    else
      var r := FirstBreak(s[1..]);
      assert forall j :: 0 < j <= r ==> (BreakAt(s, j) <==> BreakAt(s[1..], j - 1));
      1 + r
  }

  /** `text.split('\n\n')`: the pieces between successive breaks, scanning from the left; a
      break found is consumed whole, so "\n\n\n" splits into "" and "\n". */
  function Paragraphs(text: string): (ps: seq<string>)
    decreases |text|
  {
    var i := FirstBreak(text);
    if i == |text| then [text] else [text[..i]] + Paragraphs(text[i + 2..])
  }

  /** The paragraphs put back together with "\n\n" between them. */
  function Join(ps: seq<string>): string
  {
    if |ps| == 0 then "" else if |ps| == 1 then ps[0] else ps[0] + "\n\n" + Join(ps[1..])
  }

  /** Joining the paragraphs with "\n\n" gives back the description exactly, and there is
      always at least one paragraph, even for an empty description. */
  lemma {:induction false} ParagraphsRoundTrip(text: string)
    ensures |Paragraphs(text)| >= 1
    ensures Join(Paragraphs(text)) == text
    decreases |text|
  {
    var i := FirstBreak(text);
    if i < |text| {
      var rest := text[i + 2..];
      ParagraphsRoundTrip(rest);
      BreakSplits(text, i);
      JoinCons(text[..i], Paragraphs(rest));
    }
  }

  /** The text around a break at `i` is the part before it, the break, and the part after it. */
  lemma BreakSplits(text: string, i: nat)
    requires i + 2 <= |text| && BreakAt(text, i)
    ensures text == text[..i] + "\n\n" + text[i + 2..]
  {
    assert text[i..i + 2] == "\n\n";
    assert text == text[..i] + text[i..i + 2] + text[i + 2..];
  }

  /** Joining a paragraph in front of a non-empty list puts one break between them. */
  lemma JoinCons(p: string, ps: seq<string>)
    requires |ps| >= 1
    ensures Join([p] + ps) == p + "\n\n" + Join(ps)
  {
    assert ([p] + ps)[1..] == ps;
  }

  /** No paragraph contains a break. */
  lemma {:induction false} ParagraphsHaveNoBreak(text: string)
    ensures forall k, j :: 0 <= k < |Paragraphs(text)| ==> !BreakAt(Paragraphs(text)[k], j)
    decreases |text|
  {
    var i := FirstBreak(text);
    if i < |text| {
      var rest := text[i + 2..];
      ParagraphsHaveNoBreak(rest);
      var ps := Paragraphs(text);
      assert ps == [text[..i]] + Paragraphs(rest);
      forall k, j | 0 <= k < |ps| ensures !BreakAt(ps[k], j) {
        if k == 0 {
          if BreakAt(text[..i], j) {
            assert BreakAt(text, j);
          }
        } else {
          assert ps[k] == Paragraphs(rest)[k - 1];
        }
      }
    }
  }

  /** A description without a break is a single paragraph, itself. */
  lemma SingleParagraphWithoutBreak(text: string)
    requires forall j :: !BreakAt(text, j)
    ensures Paragraphs(text) == [text]
  {
  }

  /** `difficultyColors[task.difficulty as keyof typeof difficultyColors]`: the colour is
      looked up by the difficulty's string value; any other string finds nothing. */
  function DifficultyColorByName(name: string): (c: Option<string>)
    ensures c.Some? <==> name in {"easy", "medium", "hard"}
  {
    var colors := map["easy" := "bg-green-100 text-green-800",
                      "medium" := "bg-yellow-100 text-yellow-800",
                      "hard" := "bg-red-100 text-red-800"];
    if name in colors then Some(colors[name]) else None
  }

  /** Every difficulty has a colour here, and it is the colour the task card shows. */
  lemma DifficultyColorMatchesTaskCard(d: TaskDifficulty)
    ensures DifficultyColorByName(DifficultyName(d)) == Some(TaskCard.DifficultyColor(d))
  {
  }
}
