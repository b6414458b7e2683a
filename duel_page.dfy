/** The duel page: starter code per language, the 30-minute countdown and its tick, and the
    join and submit messages it sends. */
module DuelPage {
  import opened Types
  import WebSocketContext

  // The starter templates, character for character.

  const JavaScriptStarter: string :=
    "\n"
    + "function solution(nums, target) {\n"
    + "  // Your code here\n"
    + "  \n"
    + "  return [];\n"
    + "}\n"
    + "\n"
    + "// Example usage:\n"
    + "// console.log(solution([2, 7, 11, 15], 9)); // [0, 1]\n"

  const PythonStarter: string :=
    "\n"
    + "def solution(nums, target):\n"
    + "    # Your code here\n"
    + "    \n"
    + "    return []\n"
    + "\n"
    + "# Example usage:\n"
    + "# print(solution([2, 7, 11, 15], 9))  # [0, 1]\n"

  const JavaStarter: string :=
    "\n"
    + "import java.util.*;\n"
    + "\n"
    + "class Solution {\n"
    + "    public int[] twoSum(int[] nums, int target) {\n"
    + "        // Your code here\n"
    + "        \n"
    + "        return new int[]{0, 0};\n"
    + "    }\n"
    + "    \n"
    + "    // Example usage:\n"
    + "    public static void main(String[] args) {\n"
    + "        Solution sol = new Solution();\n"
    + "        int[] result = sol.twoSum(new int[]{2, 7, 11, 15}, 9);\n"
    + "        System.out.println(Arrays.toString(result));  // [0, 1]\n"
    + "    }\n"
    + "}\n"

  const CppStarter: string :=
    "\n"
    + "#include <vector>\n"
    + "#include <iostream>\n"
    + "\n"
    + "using namespace std;\n"
    + "\n"
    + "vector<int> solution(vector<int>& nums, int target) {\n"
    + "    // Your code here\n"
    + "    \n"
    + "    return {0, 0};\n"
    + "}\n"
    + "\n"
    + "// Example usage:\n"
    + "// int main() {\n"
    + "//     vector<int> nums = {2, 7, 11, 15};\n"
    + "//     vector<int> result = solution(nums, 9);\n"
    + "//     cout << \"[\" << result[0] << \", \" << result[1] << \"]\" << endl;  // [0, 1]\n"
    + "//     return 0;\n"
    + "// }\n"

  const CSharpStarter: string :=
    "\n"
    + "using System;\n"
    + "using System.Collections.Generic;\n"
    + "\n"
    + "public class Solution {\n"
    + "    public int[] TwoSum(int[] nums, int target) {\n"
    + "        // Your code here\n"
    + "        \n"
    + "        return new int[]{0, 0};\n"
    + "    }\n"
    + "    \n"
    + "    // Example usage:\n"
    + "    // public static void Main() {\n"
    + "    //     Solution sol = new Solution();\n"
    + "    //     int[] result = sol.TwoSum(new int[]{2, 7, 11, 15}, 9);\n"
    + "    //     Console.WriteLine($\"[{result[0]}, {result[1]}]\");  // [0, 1]\n"
    + "    // }\n"
    + "}\n"

  /** `starterCode[language]`: every language has a template, and each starts on a new line. */
  function StarterCode(language: ProgrammingLanguage): (code: string)
    ensures |code| > 0 && code[0] == '\n'
  {
    match language
    case JAVASCRIPT => JavaScriptStarter
    case PYTHON => PythonStarter
    case JAVA => JavaStarter
    case CPP => CppStarter
    case CSHARP => CSharpStarter
  }

  /** The duel window the page assumes: 30 minutes, in seconds. */
  const DuelLengthSeconds: int := 30 * 60

  /** `Math.floor((now - startTime) / 1000)`: whole seconds since the start. */
  function Elapsed(startTime: int, now: int): (e: int)
    ensures e * 1000 <= now - startTime < e * 1000 + 1000
  {
    (now - startTime) / 1000
  }

  /** `Math.max(0, totalSeconds - elapsed)`: the seconds left, never negative, at most the
      window once the duel has started, and the exact difference while time is left. */
  function Remaining(startTime: int, now: int): (r: int)
    ensures r >= 0
    ensures now >= startTime ==> r <= DuelLengthSeconds
    ensures r == 0 <==> Elapsed(startTime, now) >= DuelLengthSeconds
    ensures r > 0 ==> r + Elapsed(startTime, now) == DuelLengthSeconds
  {
    var left := DuelLengthSeconds - Elapsed(startTime, now);
    if left > 0 then left else 0
  }

  /** The countdown is set up for a current duel that has a start time and whose status string
      is 'in_progress'. */
  predicate CountdownRuns(duel: Option<Duel>)
  {
    duel.Some? && duel.value.startTime.Some? && StatusName(duel.value.status) == "in_progress"
  }

  /** Comparing the status string with 'in_progress' is the same as comparing with the
      IN_PROGRESS status. */
  lemma CountdownRunsIff(duel: Option<Duel>)
    ensures CountdownRuns(duel) <==>
      duel.Some? && duel.value.startTime.Some? && duel.value.status == IN_PROGRESS
  {
  }

  /** The `setTimeLeft` updater of one tick: a missing or non-positive value becomes 0, any
      other value goes down by one. The value is never negative. */
  function NextTimeLeft(prev: Option<int>): (next: int)
    ensures next >= 0
    ensures prev.Some? && prev.value > 0 ==> next == prev.value - 1
    ensures prev.None? || prev.value <= 0 ==> next == 0
  {
    if prev.None? || prev.value <= 0 then 0 else prev.value - 1
  }

  /** The value after `n` ticks. */
  function TickN(prev: Option<int>, n: nat): Option<int>
    decreases n
  {
    if n == 0 then prev else TickN(Some(NextTimeLeft(prev)), n - 1)
  }

  /** After `n` ticks from `r >= 0` the countdown shows max(0, r - n). */
  lemma {:induction false} TickNClosedForm(r: int, n: nat)
    requires r >= 0
    ensures TickN(Some(r), n) == Some(if r - n > 0 then r - n else 0)
  {
    if n > 0 {
      TickNClosedForm(NextTimeLeft(Some(r)), n - 1);
    }
  }

  /** One more tick is one more application of the updater. */
  lemma {:induction false} TickNStep(prev: Option<int>, n: nat)
    ensures TickN(prev, n + 1) == Some(NextTimeLeft(TickN(prev, n)))
    decreases n
  {
    if n > 0 {
      TickNStep(Some(NextTimeLeft(prev)), n - 1);
    }
  }

  /** The page's state. `ticking` says whether the interval is still installed. */
  class Page {
    var language: ProgrammingLanguage
    var isSubmitting: bool
    var timeLeft: Option<int>
    var ticking: bool

    constructor ()
      ensures language == JAVASCRIPT && !isSubmitting && timeLeft.None? && !ticking
    {
      language, isSubmitting, timeLeft, ticking := JAVASCRIPT, false, None, false;
    }

    /** `handleLanguageChange`. */
    method HandleLanguageChange(newLanguage: ProgrammingLanguage)
      modifies this`language
      ensures language == newLanguage
    {
      language := newLanguage;
    }

    /** One run of the join effect: when connected, with a duel id in the route, join that duel. */
    method JoinWhenConnected(ws: WebSocketContext.Provider, duelId: Option<string>, now: int)
      requires ws.Valid()
      modifies ws`currentDuel, ws`submissionStatus
      ensures ws.Valid()
      ensures ws.isConnected && duelId.Some? && duelId.value != "" ==>
        ws.currentDuel == Some(WebSocketContext.JoinedDuel(duelId.value, ws.user, now))
      ensures ws.submissionStatus == old(ws.submissionStatus)
      ensures !(ws.isConnected && duelId.Some? && duelId.value != "") ==> ws.currentDuel == old(ws.currentDuel)
    {
      if ws.isConnected && duelId.Some? && duelId.value != "" {
        ws.SendMessage("JOIN_DUEL", WebSocketContext.Payload(duelId.value, "", ""), now);
      }
    }

    /** One run of the countdown effect, which runs whenever the current duel changes: the
        previous interval is
        cleared; for a running duel the value is set to the seconds remaining and a new interval
        is installed; otherwise the value is left as it was. */
    method StartCountdown(duel: Option<Duel>, now: int)
      modifies this`timeLeft, this`ticking
      ensures ticking == CountdownRuns(duel)
      ensures CountdownRuns(duel) ==> timeLeft == Some(Remaining(duel.value.startTime.value, now))
      ensures !CountdownRuns(duel) ==> timeLeft == old(timeLeft)
    {
      ticking := false;
      if CountdownRuns(duel) {
        timeLeft := Some(Remaining(duel.value.startTime.value, now));
        ticking := true;
      }
    }

    /** One firing of the interval: the updater runs, and clears the interval when it finds
        nothing left. An interval that was cleared does not fire. */
    method Tick()
      modifies this`timeLeft, this`ticking
      ensures old(ticking) ==> timeLeft == Some(NextTimeLeft(old(timeLeft)))
      ensures old(ticking) ==> (ticking <==> old(timeLeft).Some? && old(timeLeft).value > 0)
      ensures !old(ticking) ==> timeLeft == old(timeLeft) && !ticking
    {
      if !ticking {
        return;
      }
      if timeLeft.None? || timeLeft.value <= 0 {
        ticking := false;
      }
      timeLeft := Some(NextTimeLeft(timeLeft));
    }

    /** `n` firings of the interval, one second apart: the value is the updater applied `n`
        times, even when the interval clears itself on the way. */
    method RunFor(n: nat)
      modifies this`timeLeft, this`ticking
      ensures old(ticking) ==> timeLeft == TickN(old(timeLeft), n)
      ensures !old(ticking) ==> timeLeft == old(timeLeft) && !ticking
    {
      var i := 0;
      while i < n
        invariant 0 <= i <= n
        invariant old(ticking) ==> timeLeft == TickN(old(timeLeft), i)
        invariant old(ticking) && !ticking ==> timeLeft == Some(0)
        invariant !old(ticking) ==> timeLeft == old(timeLeft) && !ticking
      {
        TickNStep(old(timeLeft), i);
        Tick();
        i := i + 1;
      }
    }

    /** `handleSubmit`: without a duel id nothing happens; otherwise the page is submitting and
        the solution is sent. */
    method HandleSubmit(ws: WebSocketContext.Provider, duelId: Option<string>, code: string,
                        language: ProgrammingLanguage, now: int)
      requires ws.Valid()
      modifies this`isSubmitting, ws`currentDuel, ws`submissionStatus
      ensures ws.Valid()
      ensures ws.currentDuel == old(ws.currentDuel)
      ensures duelId.None? || duelId.value == "" ==>
        isSubmitting == old(isSubmitting) && ws.submissionStatus == old(ws.submissionStatus)
      ensures duelId.Some? && duelId.value != "" ==>
        isSubmitting && ws.submissionStatus == (if ws.isConnected then Some(PENDING) else old(ws.submissionStatus))
    {
      if duelId.None? || duelId.value == "" {
        return;
      }
      isSubmitting := true;
      ws.SendMessage("SUBMIT_SOLUTION", WebSocketContext.Payload(duelId.value, code, LanguageName(language)), now);
    }
  }
}
