/** The profile header's win rate. */
module ProfileHeader {
  import JsMath
  import LeaderboardTable

  /** `calculateWinRate()`: the percentage of all duels that were won, rounded half up, and 0
      for a player without duels. The denominator is `totalDuels`, not wins plus losses. */
  function CalculateWinRate(wins: int, totalDuels: int): (r: int)
    ensures totalDuels == 0 ==> r == 0
    ensures totalDuels > 0 ==> (2 * r - 1) * totalDuels <= 200 * wins < (2 * r + 1) * totalDuels
    ensures totalDuels < 0 ==> (2 * r - 1) * -totalDuels <= 2 * -(100 * wins) < (2 * r + 1) * -totalDuels
  {
    if totalDuels == 0 then 0 else JsMath.RoundRatio(100 * wins, totalDuels)
  }

  /** With 0 <= wins <= totalDuels the rate is a percentage; 100 when every duel was won, 0
      when none was. */
  lemma CalculateWinRateBounds(wins: int, totalDuels: int)
    requires 0 <= wins <= totalDuels
    ensures 0 <= CalculateWinRate(wins, totalDuels) <= 100
    ensures wins == totalDuels > 0 ==> CalculateWinRate(wins, totalDuels) == 100
    ensures wins == 0 ==> CalculateWinRate(wins, totalDuels) == 0
  {
    var r := CalculateWinRate(wins, totalDuels);
    if totalDuels > 0 {
      JsMath.PercentBounds(wins, totalDuels, r);
      if wins == totalDuels {
        JsMath.HalfUpUnique(100 * wins, totalDuels, r, 100);
      }
      if wins == 0 {
        JsMath.HalfUpUnique(0, totalDuels, r, 0);
      }
    }
  }

  /** The profile rate and the leaderboard rate agree when every duel was a win or a loss. */
  lemma AgreesWithLeaderboardWithoutDraws(wins: int, losses: int)
    requires wins >= 0 && losses >= 0
    ensures CalculateWinRate(wins, wins + losses) == LeaderboardTable.WinRate(wins, losses)
  {
  }

  /** They can differ otherwise: one win, one loss and one undecided duel shows 33 on the
      profile and 50 on the leaderboard. */
  lemma DiffersFromLeaderboard()
    ensures CalculateWinRate(1, 3) == 33 && LeaderboardTable.WinRate(1, 1) == 50
  {
    JsMath.HalfUpUnique(100, 3, CalculateWinRate(1, 3), 33);
    JsMath.HalfUpUnique(100, 2, LeaderboardTable.WinRate(1, 1), 50);
  }
}
