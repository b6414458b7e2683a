/** The leaderboard table: win rate, rank icon and rank-change indicator of each row. */
module LeaderboardTable {
  import JsMath
  import Text

  /** The win rate of a row: the percentage of decided duels that were won, rounded half up,
      and 0 when the row has no wins or losses. */
  function WinRate(wins: int, losses: int): (r: int)
    ensures wins + losses <= 0 ==> r == 0
    ensures wins + losses > 0 ==>
      (2 * r - 1) * (wins + losses) <= 200 * wins < (2 * r + 1) * (wins + losses)
  {
    if wins + losses > 0 then JsMath.RoundRatio(100 * wins, wins + losses) else 0
  }

  /** With non-negative counts the rate is a percentage, 100 for an unbeaten player with at
      least one win and 0 for a player without a win. */
  lemma WinRateBounds(wins: int, losses: int)
    requires wins >= 0 && losses >= 0
    ensures 0 <= WinRate(wins, losses) <= 100
    ensures losses == 0 && wins > 0 ==> WinRate(wins, losses) == 100
    ensures wins == 0 ==> WinRate(wins, losses) == 0
  {
    var t := wins + losses;
    if t > 0 {
      var r := WinRate(wins, losses);
      JsMath.PercentBounds(wins, t, r);
      if losses == 0 {
        JsMath.HalfUpUnique(100 * wins, t, r, 100);
      }
      if wins == 0 {
        JsMath.HalfUpUnique(0, t, r, 0);
      }
    }
  }

  datatype RankIcon = Trophy(colour: string) | Position(n: int)

  /** `getRankIcon(position)`: gold, silver and bronze trophies for the podium, the number for
      everyone else. */
  function GetRankIcon(position: int): (icon: RankIcon)
    ensures icon.Trophy? <==> 1 <= position <= 3
    ensures icon.Position? ==> icon.n == position
    ensures position == 1 ==> icon == Trophy("text-yellow-500")
    ensures position == 2 ==> icon == Trophy("text-gray-400")
    ensures position == 3 ==> icon == Trophy("text-amber-600")
  {
    if position == 1 then Trophy("text-yellow-500")
    else if position == 2 then Trophy("text-gray-400")
    else if position == 3 then Trophy("text-amber-600")
    else Position(position)
  }

  datatype RankChange = Up | Down | Unchanged

  /** `getRankChangeIcon(change)`: the arrow follows the sign of the change. */
  function GetRankChangeIcon(change: int): (icon: RankChange)
    ensures icon == Up <==> change > 0
    ensures icon == Down <==> change < 0
    ensures icon == Unchanged <==> change == 0
  {
    if change > 0 then Up else if change < 0 then Down else Unchanged
  }

  /** `Math.abs(rankChange) || ''`: the size of the change, blank when there is none. */
  function ChangeMagnitude(change: int): (s: string)
    ensures s == "" <==> change == 0
    ensures change != 0 ==> Text.AllDigits(s) && Text.DigitsValue(s) == if change < 0 then -change else change
  {
    var magnitude := if change < 0 then -change else change;
    if magnitude == 0 then "" else Text.IntToString(magnitude)
  }
}
