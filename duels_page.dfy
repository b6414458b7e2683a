/** The duel list page: search by task title or player name, and filter by status. */
module DuelsPage {
  import opened Types
  import Text
  import Seqs

  /** The status drop-down: every status, or one status. */
  datatype StatusFilter = AllStatuses | OnlyStatus(status: DuelStatus)

  /** The search predicate: the query occurs, ignoring case, in the task title, in player 1's
      name, or in player 2's name when there is a player 2. */
  predicate MatchesSearch(duel: Duel, query: string)
  {
    || Text.ContainsIgnoringCase(duel.task.title, query)
    || Text.ContainsIgnoringCase(duel.player1.username, query)
    || (duel.player2.Some? && Text.ContainsIgnoringCase(duel.player2.value.username, query))
  }

  predicate MatchesStatus(duel: Duel, filter: StatusFilter)
  {
    filter.AllStatuses? || duel.status == filter.status
  }

  /** What a duel must satisfy to be listed: the search (skipped for an empty query) and the
      status filter. */
  predicate Listed(duel: Duel, query: string, filter: StatusFilter)
  {
    (query == "" || MatchesSearch(duel, query)) && MatchesStatus(duel, filter)
  }

  /** The filter effect: `duels`, filtered by the search when the query is non-empty, then by
      the status unless it is 'all'. The result is the order-preserving subsequence of the
      duels that are listed, each kept as often as it occurs. */
  function FilterDuels(duels: seq<Duel>, query: string, filter: StatusFilter): (result: seq<Duel>)
    ensures Seqs.IsSubsequence(result, duels)
    ensures forall i :: 0 <= i < |result| ==> Listed(result[i], query, filter)
    ensures forall d :: multiset(result)[d] == if Listed(d, query, filter) then multiset(duels)[d] else 0
  {
    var afterSearch := if query != "" then Seqs.Filter(duels, d => MatchesSearch(d, query)) else duels;
    var result := if filter.OnlyStatus? then Seqs.Filter(afterSearch, d => MatchesStatus(d, filter)) else afterSearch;
    assert result == Seqs.Filter(duels, d => Listed(d, query, filter)) by {
      if query != "" && filter.OnlyStatus? {
        Seqs.FilterFilter(duels, d => MatchesSearch(d, query), d => MatchesStatus(d, filter),
                          d => Listed(d, query, filter));
      } else if query != "" {
        Seqs.FilterExtensional(duels, d => MatchesSearch(d, query), d => Listed(d, query, filter));
      } else if filter.OnlyStatus? {
        Seqs.FilterExtensional(duels, d => MatchesStatus(d, filter), d => Listed(d, query, filter));
      } else {
        Seqs.FilterKeepsAll(duels, d => Listed(d, query, filter));
      }
    }
    result
  }

  /** An empty query with 'all' lists every duel, in order. */
  lemma NoFilterListsEverything(duels: seq<Duel>)
    ensures FilterDuels(duels, "", AllStatuses) == duels
  {
  }

  /** A duel without a second player matches only through its title or player 1's name. */
  lemma SearchWithoutPlayer2(duel: Duel, query: string)
    requires duel.player2.None?
    ensures MatchesSearch(duel, query) <==>
      Text.ContainsIgnoringCase(duel.task.title, query) || Text.ContainsIgnoringCase(duel.player1.username, query)
  {
  }

  /** The `if (searchQuery)` guard changes nothing: the empty query occurs in every task title,
      so searching with it would keep every duel as well. */
  lemma SearchGuardRedundant(duel: Duel, query: string, filter: StatusFilter)
    ensures Listed(duel, query, filter) <==> MatchesSearch(duel, query) && MatchesStatus(duel, filter)
  {
    Text.EmptyNeedleOccurs(duel.task.title);
  }
}
