/** The card listing one duel: whether it can be joined, its status badge and its button. */
module DuelCard {
  import opened Types

  /** `isJoinable`: a waiting duel with no second player. */
  predicate IsJoinable(duel: Duel)
  {
    duel.status == WAITING && duel.player2.None?
  }

  /** The class the `default` branch of `getStatusClass` would give; no status reaches it. */
  const FallbackStatusClass: string := "bg-gray-100 text-gray-800"

  /** `getStatusClass()`: the badge colours of a duel status. */
  function GetStatusClass(status: DuelStatus): (c: string)
    ensures c != FallbackStatusClass
  {
    match status
    case WAITING => "bg-yellow-100 text-yellow-800"
    case IN_PROGRESS => "bg-blue-100 text-blue-800"
    case FINISHED => "bg-green-100 text-green-800"
    case CANCELLED => "bg-red-100 text-red-800"
  }

  /** The four statuses get four different classes. */
  lemma StatusClassesDistinct(a: DuelStatus, b: DuelStatus)
    ensures GetStatusClass(a) == GetStatusClass(b) ==> a == b
  {
  }

  /** The footer of a card: a Join button, or a link to the duel page with a label and a
      button variant. */
  datatype FooterButton = JoinButton | ViewLink(caption: string, variant: string)

  /** The footer chosen from `isJoinable`, whether an `onJoin` handler was given, and the status. */
  function Footer(duel: Duel, hasOnJoin: bool): (b: FooterButton)
    ensures b.JoinButton? <==> IsJoinable(duel) && hasOnJoin
    ensures b.ViewLink? ==> (b.caption == "View Results" <==> duel.status == FINISHED)
    ensures b.ViewLink? ==> (b.caption == "View Duel" <==> duel.status != FINISHED)
    ensures b.ViewLink? ==> (b.variant == "secondary" <==> duel.status == FINISHED)
  {
    if IsJoinable(duel) && hasOnJoin then JoinButton
    else if duel.status == FINISHED then ViewLink("View Results", "secondary")
    else ViewLink("View Duel", "primary")
  }

  /** A joinable duel is never finished, so its card never offers "View Results". */
  lemma JoinableNeverShowsResults(duel: Duel, hasOnJoin: bool)
    requires IsJoinable(duel)
    ensures Footer(duel, hasOnJoin) == (if hasOnJoin then JoinButton else ViewLink("View Duel", "primary"))
  {
  }
}
