/** The task store the provider shares with every component: the canonical
    list `tasks`, the displayed list `filteredTasks`, the durable snapshot,
    and the search that derives `filteredTasks` from `tasks`. */
module TaskContext {
  import opened Tasks
  import opened Text

  /** The message `useTaskContext` throws outside a provider. */
  const OutsideProvider: string := "useTaskContext must be used within a TaskProvider"

  /** `useTaskContext`: the provider's value, or the error it throws when no
      provider is above the caller. */
  function UseTaskContext<C>(context: Option<C>): (r: Result<C, string>)
    ensures r.Success? <==> context.Some?
    ensures r.Success? ==> r.value == context.value
    ensures r.Failure? ==> r.error == OutsideProvider
  {
    match context
    case Some(c) => Success(c)
    case None => Failure(OutsideProvider)
  }

  /** The `map` in `updateSingleTask`: every task whose id is the updated
      task's id is replaced by the updated task. */
  function ReplaceById(ts: seq<Task>, updated: Task): (r: seq<Task>)
    ensures |r| == |ts|
    ensures forall i :: 0 <= i < |ts| && ts[i].id == updated.id ==> r[i] == updated
    ensures forall i :: 0 <= i < |ts| && ts[i].id != updated.id ==> r[i] == ts[i]
  {
    if ts == [] then []
    else [if ts[0].id == updated.id then updated else ts[0]] + ReplaceById(ts[1..], updated)
  }

  /** An id that no task carries leaves the list as it is. */
  lemma ReplaceAbsentId(ts: seq<Task>, updated: Task)
    requires forall t :: t in ts ==> t.id != updated.id
    ensures ReplaceById(ts, updated) == ts
  {
  }

  /** Replacing twice with the same task is replacing once. */
  lemma ReplaceByIdIdempotent(ts: seq<Task>, updated: Task)
    ensures ReplaceById(ReplaceById(ts, updated), updated) == ReplaceById(ts, updated)
  {
  }

  /** The search regex `^\d{2}\.\d{2}\.\d{4}$`: exactly ten characters,
      dots at positions 2 and 5 and digits everywhere else. A date query
      has no upper-case letter, so lower-casing leaves it as it is. */
  predicate IsDateQuery(query: string): (b: bool)
    ensures b ==> ToLower(query) == query
  {
    assert (|query| == 10 && forall i :: 0 <= i < 10 ==>
             if i == 2 || i == 5 then query[i] == '.' else IsDigit(query[i]))
           ==> ToLower(query) == query by {
      assert forall i :: 0 <= i < |query| ==> LowerChar(query[i]) == query[i] || 'A' <= query[i] <= 'Z';
    }
    |query| == 10 && forall i :: 0 <= i < 10 ==>
      if i == 2 || i == 5 then query[i] == '.' else IsDigit(query[i])
  }

  /** The regex read piece by piece: two digits, a dot, two digits, a dot,
      four digits, and nothing else. */
  lemma IsDateQueryPieces(query: string)
    ensures IsDateQuery(query) <==>
      |query| == 10
      && AllDigits(query[0..2]) && query[2] == '.'
      && AllDigits(query[3..5]) && query[5] == '.'
      && AllDigits(query[6..10])
  {
    if |query| == 10 && AllDigits(query[0..2]) && AllDigits(query[3..5]) && AllDigits(query[6..10]) {
      forall i | 0 <= i < 10 && i != 2 && i != 5
        ensures IsDigit(query[i])
      {
        if i < 2 {
          assert query[0..2][i] == query[i];
        } else if i < 5 {
          assert query[3..5][i - 3] == query[i];
        } else {
          assert query[6..10][i - 6] == query[i];
        }
      }
    }
    if IsDateQuery(query) {
      assert forall i :: 0 <= i < 2 ==> query[0..2][i] == query[i];
      assert forall i :: 0 <= i < 2 ==> query[3..5][i] == query[i + 3];
      assert forall i :: 0 <= i < 4 ==> query[6..10][i] == query[i + 6];
    }
  }

  /** The predicate the search filters `tasks` with. A date query keeps the
      tasks whose start or end day renders to exactly the query; any other
      query keeps the tasks whose lower-cased text contains the lower-cased
      query somewhere, so the empty query keeps every task. `render` stands for `new Date(d).toLocaleDateString('en-GB')`. */
  predicate Matches(t: Task, query: string, render: Num -> string): (b: bool)
    ensures !IsDateQuery(query) ==>
      (b <==> exists i :: OccursAt(ToLower(t.text), ToLower(query), i))
    ensures query == [] ==> b
  {
    if IsDateQuery(query) then render(t.startDay) == query || render(t.endDay) == query
    else Includes(ToLower(t.text), ToLower(query))
  }

  /** The list the search stores in `filteredTasks` for a non-blank query. */
  function Search(tasks: seq<Task>, query: string, render: Num -> string): (r: seq<Task>)
    ensures |r| <= |tasks|
    ensures forall t :: t in r <==> t in tasks && Matches(t, query, render)
  {
    Filter(tasks, t => Matches(t, query, render))
  }

  /** The text search ignores the case of the query. */
  lemma SearchIgnoresCase(tasks: seq<Task>, query: string, render: Num -> string)
    ensures Search(tasks, ToLower(query), render) == Search(tasks, query, render)
  {
    ToLowerIdempotent(query);
    var lower := ToLower(query);
    assert IsDateQuery(lower) <==> IsDateQuery(query) by {
      if IsDateQuery(lower) {
        assert forall i :: 0 <= i < |query| ==> lower[i] == LowerChar(query[i]);
        forall i | 0 <= i < |query| {
          LowerCharKeepsDigitsAndDots(query[i]);
        }
      }
    }
    FilterAgrees(tasks, t => Matches(t, lower, render), t => Matches(t, query, render));
  }

  /** If the date renderer never writes a dot (en-GB renders with slashes),
      a date query matches nothing. */
  lemma DateQueryMatchesNothing(tasks: seq<Task>, query: string, render: Num -> string)
    requires forall d :: '.' !in render(d)
    requires IsDateQuery(query)
    ensures Search(tasks, query, render) == []
  {
    forall t | t in tasks
      ensures !Matches(t, query, render)
    {
      assert query[2] == '.';
    }
    FilterDropsAll(tasks, t => Matches(t, query, render));
  }

  /** The provider's state. `storage` is the `tasks` entry of local storage:
      absent, or the list last written there. */
  class TaskStore {
    var tasks: seq<Task>
    var filteredTasks: seq<Task>
    var storage: Option<seq<Task>>

    /** Both lists start empty; local storage holds whatever an earlier
        session left. */
    constructor (stored: Option<seq<Task>>)
      ensures tasks == [] && filteredTasks == [] && storage == stored
    {
      tasks, filteredTasks, storage := [], [], stored;
    }

    /** The startup load. A stored snapshot becomes both lists and the seed
        document is not fetched; otherwise the fetched seed (`None` when the
        fetch or its parse fails, which is only logged) becomes both lists. */
    method LoadTasks(seed: Option<seq<Task>>) returns (fetched: bool)
      modifies this`tasks, this`filteredTasks
      ensures fetched <==> storage.None?
      ensures storage.Some? ==> tasks == storage.value && filteredTasks == storage.value
      ensures storage.None? && seed.Some? ==> tasks == seed.value && filteredTasks == seed.value
      ensures storage.None? && seed.None? ==>
        tasks == old(tasks) && filteredTasks == old(filteredTasks)
    {
      if storage.Some? {
        tasks := storage.value;
        filteredTasks := storage.value;
        fetched := false;
      } else {
        fetched := true;
        if seed.Some? {
          tasks := seed.value;
          filteredTasks := seed.value;
        }
      }
    }

    /** The persistence effect, run whenever `tasks` changes: a non-empty
        list overwrites local storage, an empty one is never written. */
    method Persist()
      modifies this`storage
      ensures storage == if |tasks| > 0 then Some(tasks) else old(storage)
    {
      if |tasks| == 0 {
        return;
      }
      storage := Some(tasks);
    }

    /** `updateTask`: the list is replaced wholesale; the displayed list is
        left alone. */
    method UpdateTask(updatedTasks: seq<Task>)
      modifies this`tasks
      ensures tasks == updatedTasks
      ensures filteredTasks == old(filteredTasks) && storage == old(storage)
    {
      tasks := updatedTasks;
    }

    /** `updateSingleTask`: the task with the updated task's id is replaced
        in both lists. */
    method UpdateSingleTask(updatedTask: Task)
      modifies this`tasks, this`filteredTasks
      ensures tasks == ReplaceById(old(tasks), updatedTask)
      ensures filteredTasks == ReplaceById(old(filteredTasks), updatedTask)
      ensures storage == old(storage)
    {
      tasks := ReplaceById(tasks, updatedTask);
      filteredTasks := ReplaceById(filteredTasks, updatedTask);
    }

    /** The body of the debounced `searchTasks`. A blank query reloads the
        seed document into `filteredTasks` (`seed` is the fetch's outcome;
        a failed fetch rejects and changes nothing); any other query stores
        the search over `tasks`, never over the current `filteredTasks`. */
    method SearchTasks(query: string, seed: Option<seq<Task>>, render: Num -> string)
      modifies this`filteredTasks
      ensures IsBlank(query) && seed.Some? ==> filteredTasks == seed.value
      ensures IsBlank(query) && seed.None? ==> filteredTasks == old(filteredTasks)
      ensures !IsBlank(query) ==> filteredTasks == Search(tasks, query, render)
      ensures tasks == old(tasks) && storage == old(storage)
    {
      if IsBlank(query) {
        if seed.Some? {
          filteredTasks := seed.value;
        }
        return;
      }
      filteredTasks := Search(tasks, query, render);
    }
  }
}
