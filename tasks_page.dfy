/** The task list page: search, difficulty filter and sorting, applied to a copy of the tasks. */
module TasksPage {
  import opened Types
  import Text
  import Seqs

  /** The difficulty drop-down: every difficulty, or one. */
  datatype DifficultyFilter = AllDifficulties | OnlyDifficulty(difficulty: TaskDifficulty)

  /** The sort drop-down. */
  datatype SortBy = Newest | Popular

  /** The search predicate: the query occurs, ignoring case, in the title or the description. */
  predicate MatchesSearch(task: Task, query: string)
  {
    Text.ContainsIgnoringCase(task.title, query) || Text.ContainsIgnoringCase(task.description, query)
  }

  predicate MatchesDifficulty(task: Task, filter: DifficultyFilter)
  {
    filter.AllDifficulties? || task.difficulty == filter.difficulty
  }

  /** What a task must satisfy to be listed: the search (skipped for an empty query) and the
      difficulty filter. */
  predicate Listed(task: Task, query: string, filter: DifficultyFilter)
  {
    (query == "" || MatchesSearch(task, query)) && MatchesDifficulty(task, filter)
  }

  /** The number the comparator orders by, larger first: the creation time for 'newest', the
      score upvotes - downvotes for 'popular'. */
  function SortKey(task: Task, sortBy: SortBy): int
  {
    match sortBy
    case Newest => task.createdAt
    case Popular => task.upvotes - task.downvotes
  }

  /** The keys never increase along `s`. */
  predicate SortedDescending(s: seq<Task>, sortBy: SortBy)
  {
    forall i, j :: 0 <= i < j < |s| ==> SortKey(s[i], sortBy) >= SortKey(s[j], sortBy)
  }

  /** The two `result.filter` steps: by the search when the query is non-empty, then by the
      difficulty unless it is 'all'. */
  function FilteredTasks(tasks: seq<Task>, query: string, filter: DifficultyFilter): (r: seq<Task>)
    ensures Seqs.IsSubsequence(r, tasks)
    ensures forall i :: 0 <= i < |r| ==> Listed(r[i], query, filter)
    ensures forall t :: multiset(r)[t] == if Listed(t, query, filter) then multiset(tasks)[t] else 0
  {
    var afterSearch := if query != "" then Seqs.Filter(tasks, t => MatchesSearch(t, query)) else tasks;
    var r := if filter.OnlyDifficulty? then Seqs.Filter(afterSearch, t => MatchesDifficulty(t, filter)) else afterSearch;
    assert r == Seqs.Filter(tasks, t => Listed(t, query, filter)) by {
      if query != "" && filter.OnlyDifficulty? {
        Seqs.FilterFilter(tasks, t => MatchesSearch(t, query), t => MatchesDifficulty(t, filter),
                          t => Listed(t, query, filter));
      } else if query != "" {
        Seqs.FilterExtensional(tasks, t => MatchesSearch(t, query), t => Listed(t, query, filter));
      } else if filter.OnlyDifficulty? {
        Seqs.FilterExtensional(tasks, t => MatchesDifficulty(t, filter), t => Listed(t, query, filter));
      } else {
        Seqs.FilterKeepsAll(tasks, t => Listed(t, query, filter));
      }
    }
    r
  }

  /** `result.sort(comparator)`: sorts the array in place, larger keys first. Equal keys are
      never swapped, as in the stable sort JavaScript engines use. */
  method SortInPlace(a: array<Task>, sortBy: SortBy)
    modifies a
    ensures SortedDescending(a[..], sortBy)
    ensures multiset(a[..]) == old(multiset(a[..]))
  {
    var i := 0;
    while i < a.Length
      invariant 0 <= i <= a.Length
      invariant SortedDescending(a[..i], sortBy)
      invariant multiset(a[..]) == old(multiset(a[..]))
    {
      InsertAt(a, i, sortBy);
      i := i + 1;
    }
    assert a[..a.Length] == a[..];
  }

  /** One insertion step: the sorted prefix `a[..i]` grows to `a[..i + 1]` by moving `a[i]`
      left past every smaller key. */
  method InsertAt(a: array<Task>, i: nat, sortBy: SortBy)
    requires i < a.Length
    requires SortedDescending(a[..i], sortBy)
    modifies a
    ensures SortedDescending(a[..i + 1], sortBy)
    ensures a[i + 1..] == old(a[i + 1..])
    ensures multiset(a[..]) == old(multiset(a[..]))
  {
    var j := i;
    while j > 0 && SortKey(a[j - 1], sortBy) < SortKey(a[j], sortBy)
      invariant 0 <= j <= i
      invariant forall k :: i < k < a.Length ==> a[k] == old(a[k])
      invariant multiset(a[..]) == old(multiset(a[..]))
      invariant forall p, q :: 0 <= p < q <= i && p != j && q != j ==>
        SortKey(a[p], sortBy) >= SortKey(a[q], sortBy)
      invariant forall q :: j < q <= i ==> SortKey(a[j], sortBy) > SortKey(a[q], sortBy)
    {
      Swap(a, j - 1, j);
      j := j - 1;
    }
    assert a[i + 1..] == old(a[i + 1..]);
  }

  /** Exchanges two elements. */
  method Swap(a: array<Task>, i: nat, j: nat)
    requires i < j < a.Length
    modifies a
    ensures a[..] == old(a[..])[i := old(a[j])][j := old(a[i])]
    ensures a[i] == old(a[j]) && a[j] == old(a[i])
    ensures forall k :: 0 <= k < a.Length && k != i && k != j ==> a[k] == old(a[k])
    ensures multiset(a[..]) == old(multiset(a[..]))
  {
    a[i], a[j] := a[j], a[i];
  }

  /** The filter-and-sort effect. The search and difficulty filters pick the listed tasks; a
      fresh array holding them is sorted in place, so `tasks` itself is never reordered. The
      result holds exactly the listed tasks, as often as `tasks` does, sorted by the key. */
  method ApplyFiltersAndSorting(tasks: seq<Task>, query: string, filter: DifficultyFilter, sortBy: SortBy)
    returns (result: seq<Task>)
    ensures forall i :: 0 <= i < |result| ==> Listed(result[i], query, filter)
    ensures forall t :: multiset(result)[t] == if Listed(t, query, filter) then multiset(tasks)[t] else 0
    ensures SortedDescending(result, sortBy)
  {
    var filtered := FilteredTasks(tasks, query, filter);
    var a := new Task[|filtered|](k requires 0 <= k < |filtered| => filtered[k]);
    assert a[..] == filtered;
    SortInPlace(a, sortBy);
    result := a[..];
    PermutationOfFiltered(result, tasks, query, filter);
  }

  /** Any reordering of the filtered tasks still holds exactly the listed tasks. */
  lemma PermutationOfFiltered(s: seq<Task>, tasks: seq<Task>, query: string, filter: DifficultyFilter)
    requires multiset(s) == multiset(FilteredTasks(tasks, query, filter))
    ensures forall i :: 0 <= i < |s| ==> Listed(s[i], query, filter)
    ensures forall t :: multiset(s)[t] == if Listed(t, query, filter) then multiset(tasks)[t] else 0
  {
    var filtered := FilteredTasks(tasks, query, filter);
    forall i | 0 <= i < |s|
      ensures Listed(s[i], query, filter)
    {
      assert s[i] in multiset(s);
      assert s[i] in multiset(filtered);
    }
  }

  /** An empty query and 'all' keep every task; only the order can change. */
  lemma NoFilterKeepsEveryTask(tasks: seq<Task>)
    ensures FilteredTasks(tasks, "", AllDifficulties) == tasks
  {
  }

  /** The `if (searchQuery)` guard changes nothing: the empty query occurs in every title, so
      searching with it would keep every task as well. */
  lemma SearchGuardRedundant(task: Task, query: string, filter: DifficultyFilter)
    ensures Listed(task, query, filter) <==> MatchesSearch(task, query) && MatchesDifficulty(task, filter)
  {
    Text.EmptyNeedleOccurs(task.title);
  }
}
