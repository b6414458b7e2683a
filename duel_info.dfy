/** The duel status panel: duration of a finished duel and each player's status label. */
module DuelInfo {
  import opened Types
  import Text

  /** `getDurationInSeconds()`: whole seconds between start and end, 0 when either is missing. */
  function DurationInSeconds(duel: Duel): (d: int)
    ensures duel.startTime.None? || duel.endTime.None? ==> d == 0
    ensures duel.startTime.Some? && duel.endTime.Some? ==>
      var elapsed := duel.endTime.value - duel.startTime.value;
      d * 1000 <= elapsed < d * 1000 + 1000
  {
    if duel.startTime.None? || duel.endTime.None? then 0
    else (duel.endTime.value - duel.startTime.value) / 1000
  }

  /** `formatDuration()`: the duration as `m:ss` (see `Text.Clock`). */
  function FormatDuration(duel: Duel): string
  {
    Text.Clock(DurationInSeconds(duel))
  }

  /** A duel that has not both started and ended shows a duration of "0:00". */
  lemma FormatDurationWithoutTimes(duel: Duel)
    requires duel.startTime.None? || duel.endTime.None?
    ensures FormatDuration(duel) == "0:00"
  {
    assert Text.NatToString(0) == "0";
  }

  /** When the duel ended no earlier than it started, the shown duration reads back as the
      whole seconds elapsed: minutes * 60 + seconds, with exactly two second digits. */
  lemma FormatDurationReadsBack(duel: Duel)
    requires duel.startTime.Some? && duel.endTime.Some?
    requires duel.startTime.value <= duel.endTime.value
    ensures var r := FormatDuration(duel);
      var elapsed := duel.endTime.value - duel.startTime.value;
      && |r| >= 4 && r[|r| - 3] == ':'
      && Text.AllDigits(r[..|r| - 3]) && Text.AllDigits(r[|r| - 2..])
      && Text.DigitsValue(r[|r| - 2..]) < 60
      && (Text.DigitsValue(r[..|r| - 3]) * 60 + Text.DigitsValue(r[|r| - 2..])) * 1000 <= elapsed
      && elapsed < (Text.DigitsValue(r[..|r| - 3]) * 60 + Text.DigitsValue(r[|r| - 2..]) + 1) * 1000
  {
    Text.ClockReadBack(DurationInSeconds(duel));
  }

  datatype PlayerLabel = Winner | Completed | Cancelled | InProgress

  /** Whether the player with this id appears in the duel and has submitted. */
  predicate HasSubmitted(duel: Duel, playerId: string)
  {
    || (duel.player1.userId == playerId && duel.player1.hasSubmitted)
    || (duel.player2.Some? && duel.player2.value.userId == playerId && duel.player2.value.hasSubmitted)
  }

  /** `getPlayerStatus(playerId)`: the label shown beside a player. Winner outranks Completed,
      which outranks Cancelled; everything else is In Progress. */
  function GetPlayerStatus(duel: Duel, playerId: string): (l: PlayerLabel)
    ensures l == Winner <==> duel.status == FINISHED && duel.winnerId == Some(playerId)
    ensures l == Completed <==> l != Winner && HasSubmitted(duel, playerId)
    ensures l == Cancelled <==>
      duel.status == CANCELLED && !HasSubmitted(duel, playerId)
    ensures l == InProgress <==>
      !(duel.status == FINISHED && duel.winnerId == Some(playerId))
      && !HasSubmitted(duel, playerId) && duel.status != CANCELLED
  {
    if duel.status == FINISHED && duel.winnerId == Some(playerId) then Winner
    else if duel.player1.userId == playerId && duel.player1.hasSubmitted then Completed
    else if duel.player2.Some? && duel.player2.value.userId == playerId && duel.player2.value.hasSubmitted then Completed
    else if duel.status == CANCELLED then Cancelled
    else InProgress
  }

  /** The label reads `hasSubmitted` only: flipping either player's `hasCompleted` never
      changes it. */
  lemma LabelIgnoresHasCompleted(duel: Duel, playerId: string, c1: bool, c2: bool)
    ensures var p2 := if duel.player2.Some? then Some(duel.player2.value.(hasCompleted := c2)) else None;
      GetPlayerStatus(duel.(player1 := duel.player1.(hasCompleted := c1), player2 := p2), playerId)
        == GetPlayerStatus(duel, playerId)
  {
  }

  /** In a finished duel, a player who neither won nor submitted is still shown In Progress. */
  lemma FinishedLoserWithoutSubmissionShowsInProgress(duel: Duel, playerId: string)
    requires duel.status == FINISHED && duel.winnerId != Some(playerId)
    requires !HasSubmitted(duel, playerId)
    ensures GetPlayerStatus(duel, playerId) == InProgress
  {
  }
}
