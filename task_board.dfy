/** The board: four ordered columns derived from the displayed task list,
    the drag-and-drop transition between them, adding a task, clearing the
    done column, and publishing the flattened columns back to the store. */
module TaskBoard {
  import opened Tasks
  import opened TaskContext

  /** The four droppable columns, in the order the board lists them. */
  datatype ColumnId = TodoColumn | InProgressColumn | ReviewColumn | DoneColumn

  const ColumnOrder: seq<ColumnId> := [TodoColumn, InProgressColumn, ReviewColumn, DoneColumn]

  /** The position of a column in `ColumnOrder`. */
  function Rank(c: ColumnId): (k: nat)
    ensures k < |ColumnOrder| && ColumnOrder[k] == c
  {
    match c
    case TodoColumn => 0
    case InProgressColumn => 1
    case ReviewColumn => 2
    case DoneColumn => 3
  }

  /** The droppable id of a column. */
  function DroppableId(c: ColumnId): string {
    match c
    case TodoColumn => "todo"
    case InProgressColumn => "in-progress"
    case ReviewColumn => "review"
    case DoneColumn => "done"
  }

  /** The stage the drag handler writes into a task dropped on `c`: the
      column's droppable id, verbatim. */
  function DroppedStage(c: ColumnId): (s: Stage)
    ensures Spelling(s) == DroppableId(c)
  {
    match c
    case TodoColumn => Todo
    case InProgressColumn => InProgressHyphen
    case ReviewColumn => Review
    case DoneColumn => Done
  }

  /** The stage the partition keeps in a column. For the in-progress column
      it is spelled with an underscore, unlike the droppable id. */
  function StageKey(c: ColumnId): (s: Stage)
    ensures c != InProgressColumn <==> s == DroppedStage(c)
    ensures s != InProgressHyphen
  {
    match c
    case TodoColumn => Todo
    case InProgressColumn => InProgress
    case ReviewColumn => Review
    case DoneColumn => Done
  }

  /** The task type declares exactly the four partition keys. */
  predicate HasDeclaredStage(t: Task) {
    t.stage != InProgressHyphen
  }

  /** The board's `columns` state. */
  datatype Columns = Columns(todo: seq<Task>, inProgress: seq<Task>, review: seq<Task>, done: seq<Task>)
  {
    function Get(c: ColumnId): seq<Task> {
      match c
      case TodoColumn => todo
      case InProgressColumn => inProgress
      case ReviewColumn => review
      case DoneColumn => done
    }

    /** The same columns with `c` replaced by `s`. */
    function Set(c: ColumnId, s: seq<Task>): (r: Columns)
      ensures r.Get(c) == s
      ensures forall d :: d != c ==> r.Get(d) == Get(d)
      ensures r.Size() == Size() - |Get(c)| + |s|
    {
      match c
      case TodoColumn => this.(todo := s)
      case InProgressColumn => this.(inProgress := s)
      case ReviewColumn => this.(review := s)
      case DoneColumn => this.(done := s)
    }

    /** The number of tasks on the board. */
    function Size(): nat {
      |todo| + |inProgress| + |review| + |done|
    }
  }

  const NoColumns: Columns := Columns([], [], [], [])

  /** The list the board publishes: todo, in-progress, review and done
      concatenated in that order. */
  function Flatten(cols: Columns): (r: seq<Task>)
    ensures |r| == cols.Size()
  {
    cols.todo + cols.inProgress + cols.review + cols.done
  }

  /** The published list holds every task of every column, each as often
      as the columns hold it. */
  lemma FlattenMultiset(cols: Columns)
    ensures multiset(Flatten(cols)) == multiset(cols.todo) + multiset(cols.inProgress)
                                       + multiset(cols.review) + multiset(cols.done)
  {
  }

  /** A task is in the published list exactly when some column holds it. */
  lemma FlattenMembership(cols: Columns, t: Task)
    ensures t in Flatten(cols) <==> exists c :: t in cols.Get(c)
  {
    FlattenMultiset(cols);
    if t in Flatten(cols) {
      assert t in multiset(Flatten(cols));
      if t in cols.todo { assert t in cols.Get(TodoColumn); }
      else if t in cols.inProgress { assert t in cols.Get(InProgressColumn); }
      else if t in cols.review { assert t in cols.Get(ReviewColumn); }
      else { assert t in cols.Get(DoneColumn); }
    }
  }

  /** The filter callback of one partition column. */
  function StageIs(key: Stage): Task -> bool {
    (t: Task) => t.stage == key
  }

  /** The partition callback compares the stored strings: a task passes
      exactly when its `type` is spelled as the column's key. */
  lemma StageIsComparesSpelling(c: ColumnId, t: Task)
    ensures StageIs(StageKey(c))(t) <==> Spelling(t.stage) == Spelling(StageKey(c))
  {
    SpellingInjective(t.stage, StageKey(c));
  }

  /** The partition effect: each column keeps, in order, the tasks whose
      `type` is that column's stage key. */
  function Partition(tasks: seq<Task>): (r: Columns)
    ensures forall c :: r.Get(c) == Filter(tasks, StageIs(StageKey(c)))
  {
    Columns(
      Filter(tasks, StageIs(StageKey(TodoColumn))),
      Filter(tasks, StageIs(StageKey(InProgressColumn))),
      Filter(tasks, StageIs(StageKey(ReviewColumn))),
      Filter(tasks, StageIs(StageKey(DoneColumn))))
  }

  /** A task sits in a partition column exactly when it is in the input and
      its `type` is that column's key. */
  lemma PartitionMembership(tasks: seq<Task>, c: ColumnId, t: Task)
    ensures t in Partition(tasks).Get(c) <==> t in tasks && t.stage == StageKey(c)
  {
  }

  /** Re-partitioning keeps exactly the tasks with a declared stage, each as
      often as it occurs. */
  lemma PartitionKeepsDeclared(tasks: seq<Task>)
    ensures multiset(Flatten(Partition(tasks))) == multiset(Filter(tasks, HasDeclaredStage))
  {
    var p := Partition(tasks);
    var k := multiset(Filter(tasks, HasDeclaredStage));
    forall t
      ensures multiset(p.todo)[t] + multiset(p.inProgress)[t] + multiset(p.review)[t]
              + multiset(p.done)[t] == k[t]
    {
      FilterCount(tasks, StageIs(StageKey(TodoColumn)), t);
      FilterCount(tasks, StageIs(StageKey(InProgressColumn)), t);
      FilterCount(tasks, StageIs(StageKey(ReviewColumn)), t);
      FilterCount(tasks, StageIs(StageKey(DoneColumn)), t);
      FilterCount(tasks, HasDeclaredStage, t);
    }
    SumOfFour(multiset(p.todo), multiset(p.inProgress), multiset(p.review), multiset(p.done), k);
    FlattenMultiset(p);
  }

  /** Four multisets whose counts add up, element by element, to a fifth
      sum to it. */
  lemma SumOfFour<X>(a: multiset<X>, b: multiset<X>, c: multiset<X>, d: multiset<X>, k: multiset<X>)
    requires forall x :: a[x] + b[x] + c[x] + d[x] == k[x]
    ensures a + b + c + d == k
  {
  }

  /** When every task has a declared stage, the four columns hold every
      task exactly once: their lengths sum to the input's length and the
      published list is a permutation of the input. */
  lemma PartitionIsPermutation(tasks: seq<Task>)
    requires forall t :: t in tasks ==> HasDeclaredStage(t)
    ensures multiset(Flatten(Partition(tasks))) == multiset(tasks)
    ensures Partition(tasks).Size() == |tasks|
  {
    PartitionKeepsDeclared(tasks);
    FilterKeepsAll(tasks, HasDeclaredStage);
    assert |multiset(Flatten(Partition(tasks)))| == |Flatten(Partition(tasks))|;
  }

  /** A task whose `type` is the hyphenated droppable id of the in-progress
      column is in no partition column, so re-partitioning a list that holds
      it shrinks the board. */
  lemma PartitionDropsHyphenated(tasks: seq<Task>, t: Task)
    requires t in tasks && t.stage == InProgressHyphen
    ensures t !in Flatten(Partition(tasks))
    ensures Partition(tasks).Size() < |tasks|
  {
    PartitionKeepsDeclared(tasks);
    FilterCount(tasks, HasDeclaredStage, t);
    FilterShrinks(tasks, HasDeclaredStage, t);
    assert |multiset(Flatten(Partition(tasks)))| == |Filter(tasks, HasDeclaredStage)|;
  }

  /** Filtering the published list filters each column in turn. */
  lemma FilterFlatten(cols: Columns, p: Task -> bool)
    ensures Filter(Flatten(cols), p)
            == Filter(cols.todo, p) + Filter(cols.inProgress, p) + Filter(cols.review, p) + Filter(cols.done, p)
  {
    FilterAppend(cols.todo + cols.inProgress + cols.review, cols.done, p);
    FilterAppend(cols.todo + cols.inProgress, cols.review, p);
    FilterAppend(cols.todo, cols.inProgress, p);
  }

  /** Every task of `s` carries the stage key of column `c`. */
  predicate StagedAs(s: seq<Task>, c: ColumnId) {
    forall t :: t in s ==> t.stage == StageKey(c)
  }

  /** Every task of every column carries that column's stage key. */
  predicate WellStaged(cols: Columns) {
    StagedAs(cols.todo, TodoColumn) && StagedAs(cols.inProgress, InProgressColumn)
    && StagedAs(cols.review, ReviewColumn) && StagedAs(cols.done, DoneColumn)
  }

  /** The partition filter of column `c` run over a column whose tasks all
      carry the key of column `d`: all of it when `c` is `d`, none of it
      otherwise. */
  function Kept(s: seq<Task>, c: ColumnId, d: ColumnId): (r: seq<Task>)
    requires StagedAs(s, d)
    ensures r == Filter(s, StageIs(StageKey(c)))
  {
    if c == d then
      FilterKeepsAll(s, StageIs(StageKey(c)));
      s
    else
      assert StageKey(c) != StageKey(d);
      FilterDropsAll(s, StageIs(StageKey(c)));
      []
  }

  /** One column of the round trip below. */
  lemma RoundTripColumn(cols: Columns, c: ColumnId)
    requires WellStaged(cols)
    ensures Filter(Flatten(cols), StageIs(StageKey(c))) == cols.Get(c)
  {
    FilterFlatten(cols, StageIs(StageKey(c)));
    var a := Kept(cols.todo, c, TodoColumn);
    var b := Kept(cols.inProgress, c, InProgressColumn);
    var r := Kept(cols.review, c, ReviewColumn);
    var d := Kept(cols.done, c, DoneColumn);
    assert a + b + r + d == cols.Get(c) by {
      match c
      case TodoColumn => assert a + [] + [] + [] == a;
      case InProgressColumn => assert [] + b + [] + [] == b;
      case ReviewColumn => assert [] + [] + r + [] == r;
      case DoneColumn => assert [] + [] + [] + d == d;
    }
  }

  /** Columns whose tasks all carry their column's stage key are what
      partitioning their flattened list gives back. */
  lemma PartitionFlattenRoundTrip(cols: Columns)
    requires WellStaged(cols)
    ensures Partition(Flatten(cols)) == cols
  {
    RoundTripColumn(cols, TodoColumn);
    RoundTripColumn(cols, InProgressColumn);
    RoundTripColumn(cols, ReviewColumn);
    RoundTripColumn(cols, DoneColumn);
  }

  /** Every task the partition puts in a column carries that column's key. */
  lemma PartitionIsWellStaged(tasks: seq<Task>)
    ensures WellStaged(Partition(tasks))
  {
  }

  /** Partitioning the list a partitioned board publishes gives the same
      board. The published list is partitioned again once it reaches
      `filteredTasks`, which happens after a reload restores it from local
      storage into both lists. */
  lemma RepartitionIsStable(tasks: seq<Task>)
    ensures Partition(Flatten(Partition(tasks))) == Partition(tasks)
  {
    PartitionIsWellStaged(tasks);
    PartitionFlattenRoundTrip(Partition(tasks));
  }

  /** `splice(i, 1)` with `i` inside the list: the element at `i` is cut
      out and the rest closes up. */
  function RemoveAt(s: seq<Task>, i: nat): (r: seq<Task>)
    requires i < |s|
    ensures |r| == |s| - 1
    ensures r[..i] == s[..i] && r[i..] == s[i + 1..]
    ensures multiset(r) + multiset{s[i]} == multiset(s)
  {
    assert s == s[..i] + [s[i]] + s[i + 1..];
    s[..i] + s[i + 1..]
  }

  /** `splice(i, 0, x)`: `x` goes in front of position `i`, or at the end
      when `i` is past the end. */
  function InsertAt(s: seq<Task>, i: nat, x: Task): (r: seq<Task>)
    ensures |r| == |s| + 1
    ensures var k := if i <= |s| then i else |s|;
      r[k] == x && r[..k] == s[..k] && r[k + 1..] == s[k..]
    ensures multiset(r) == multiset(s) + multiset{x}
  {
    var k := if i <= |s| then i else |s|;
    assert s == s[..k] + s[k..];
    s[..k] + [x] + s[k..]
  }

  /** A drop position as the drag library reports it. */
  datatype Location = Location(droppableId: ColumnId, index: nat)

  /** The fields of the library's `DropResult` the handler reads; the
      destination is absent when the task is dropped outside every column. */
  datatype DropResult = DropResult(source: Location, destination: Option<Location>)

  /** How `handleDragEnd` ends: it returns early, it throws because the
      source slot is empty (the moved task is `undefined`), or it moves. */
  datatype DropOutcome = Ignored | Threw | Moved

  /** The early-return test of the drag handler: the task was dropped
      outside every column, or back on the very slot it came from. */
  predicate IsNoOpDrop(result: DropResult): (b: bool)
    ensures b <==> result.destination == None || result.destination == Some(result.source)
  {
    result.destination.None?
    || (result.destination.value.droppableId == result.source.droppableId
        && result.destination.value.index == result.source.index)
  }

  /** The task a drag moves, with its `type` set to the destination's
      droppable id. */
  function Retyped(cols: Columns, src: Location, dst: Location): (t: Task)
    requires src.index < |cols.Get(src.droppableId)|
    ensures t.stage == DroppedStage(dst.droppableId)
    ensures t == cols.Get(src.droppableId)[src.index].(stage := t.stage)
  {
    cols.Get(src.droppableId)[src.index].(stage := DroppedStage(dst.droppableId))
  }

  /** The columns after the source column has lost the dragged task. */
  function AfterRemoval(cols: Columns, src: Location): Columns
    requires src.index < |cols.Get(src.droppableId)|
  {
    cols.Set(src.droppableId, RemoveAt(cols.Get(src.droppableId), src.index))
  }

  /** The drag transition on the column values. The handler binds the
      destination column before the removal, but in a move within one
      column it is the same array as the source column, so the insertion
      sees the shortened list; `Move` reads it after the removal to match.
      A move keeps the number of tasks on the board and leaves every column
      other than the source and destination as it was. */
  function Move(cols: Columns, src: Location, dst: Location): (r: Columns)
    requires src.index < |cols.Get(src.droppableId)|
    ensures r.Size() == cols.Size()
    ensures forall c :: c != src.droppableId && c != dst.droppableId ==> r.Get(c) == cols.Get(c)
  {
    var removed := AfterRemoval(cols, src);
    removed.Set(dst.droppableId,
                InsertAt(removed.Get(dst.droppableId), dst.index, Retyped(cols, src, dst)))
  }

  /** Replacing one column changes the board's multiset of tasks by what
      that column loses and gains. */
  lemma FlattenSet(cols: Columns, c: ColumnId, s: seq<Task>)
    ensures multiset(Flatten(cols.Set(c, s))) + multiset(cols.Get(c))
            == multiset(Flatten(cols)) + multiset(s)
  {
  }

  /** The bookkeeping of a move on multisets: removing `t` from one column
      and adding `t'` to another changes the whole board by exactly that. */
  lemma RemoveThenAdd<X>(board: multiset<X>, removed: multiset<X>, moved: multiset<X>,
                         src: multiset<X>, shortened: multiset<X>,
                         dst: multiset<X>, widened: multiset<X>, t: X, t': X)
    requires removed + src == board + shortened
    requires shortened + multiset{t} == src
    requires moved + dst == removed + widened
    requires widened == dst + multiset{t'}
    ensures moved + multiset{t} == board + multiset{t'}
  {
    forall x
      ensures (moved + multiset{t})[x] == (board + multiset{t'})[x]
    {
      assert (removed + src)[x] == (board + shortened)[x];
      assert (shortened + multiset{t})[x] == src[x];
      assert (moved + dst)[x] == (removed + widened)[x];
      assert widened[x] == (dst + multiset{t'})[x];
    }
  }

  /** A move takes the dragged task out of the board and puts back its
      retyped copy. */
  lemma MoveRetypesOneTask(cols: Columns, src: Location, dst: Location)
    requires src.index < |cols.Get(src.droppableId)|
    ensures multiset(Flatten(Move(cols, src, dst))) + multiset{cols.Get(src.droppableId)[src.index]}
            == multiset(Flatten(cols)) + multiset{Retyped(cols, src, dst)}
  {
    var col := cols.Get(src.droppableId);
    var t, t' := col[src.index], Retyped(cols, src, dst);
    var shortened := RemoveAt(col, src.index);
    var removed := cols.Set(src.droppableId, shortened);
    var dstCol := removed.Get(dst.droppableId);
    var widened := InsertAt(dstCol, dst.index, t');
    FlattenSet(cols, src.droppableId, shortened);
    FlattenSet(removed, dst.droppableId, widened);
    RemoveThenAdd(multiset(Flatten(cols)), multiset(Flatten(removed)),
                  multiset(Flatten(removed.Set(dst.droppableId, widened))),
                  multiset(col), multiset(shortened), multiset(dstCol), multiset(widened), t, t');
  }

  /** The dragged task lands in the destination column at the drop index,
      or at its end when the index is past the end, carrying the
      destination's droppable id as its `type`; the destination column is
      the post-removal column with the task spliced in, so the tasks before
      the slot keep their places and the later ones shift right in order. */
  lemma MoveLandsAtDestination(cols: Columns, src: Location, dst: Location)
    requires src.index < |cols.Get(src.droppableId)|
    ensures var col := AfterRemoval(cols, src).Get(dst.droppableId);
      var k := if dst.index <= |col| then dst.index else |col|;
      var landed := Move(cols, src, dst).Get(dst.droppableId);
      k < |landed| && landed[k] == Retyped(cols, src, dst)
      && landed[k].stage == DroppedStage(dst.droppableId)
    ensures Move(cols, src, dst).Get(dst.droppableId)
            == InsertAt(AfterRemoval(cols, src).Get(dst.droppableId), dst.index, Retyped(cols, src, dst))
  {
  }

  /** Between two columns, the source column closes up over the dragged
      task's slot. */
  lemma MoveClosesSourceGap(cols: Columns, src: Location, dst: Location)
    requires src.index < |cols.Get(src.droppableId)|
    requires src.droppableId != dst.droppableId
    ensures Move(cols, src, dst).Get(src.droppableId)
            == RemoveAt(cols.Get(src.droppableId), src.index)
  {
  }

  /** Within the todo, review or done column, a task that already carries
      the column's key keeps its `type`: the move only reorders, and the
      board holds the same tasks. */
  lemma MoveWithinColumnReorders(cols: Columns, src: Location, dst: Location)
    requires src.index < |cols.Get(src.droppableId)|
    requires src.droppableId == dst.droppableId && src.droppableId != InProgressColumn
    requires cols.Get(src.droppableId)[src.index].stage == StageKey(src.droppableId)
    ensures multiset(Flatten(Move(cols, src, dst))) == multiset(Flatten(cols))
  {
  }

  /** A task dropped on the in-progress column carries "in-progress", which
      no partition filter keeps: once the published list is partitioned
      again, the task is gone from the board. */
  lemma DropOnInProgressIsLost(cols: Columns, src: Location, dst: Location)
    requires src.index < |cols.Get(src.droppableId)|
    requires dst.droppableId == InProgressColumn
    ensures Retyped(cols, src, dst) !in Flatten(Partition(Flatten(Move(cols, src, dst))))
    ensures Partition(Flatten(Move(cols, src, dst))).Size() < cols.Size()
  {
    var moved := Move(cols, src, dst);
    MoveLandsAtDestination(cols, src, dst);
    assert Retyped(cols, src, dst) in moved.Get(InProgressColumn);
    PartitionDropsHyphenated(Flatten(moved), Retyped(cols, src, dst));
  }

  /** Membership in a column after a move: apart from the retyped task in
      the destination, every task of a column was in that column before. */
  lemma MoveMembership(cols: Columns, src: Location, dst: Location, c: ColumnId, t: Task)
    requires src.index < |cols.Get(src.droppableId)|
    requires t in Move(cols, src, dst).Get(c)
    ensures t in cols.Get(c) || (c == dst.droppableId && t == Retyped(cols, src, dst))
  {
    var removed := AfterRemoval(cols, src);
    var col := cols.Get(src.droppableId);
    var shortened := RemoveAt(col, src.index);
    assert multiset(shortened) <= multiset(col);
    if c == dst.droppableId {
      var widened := InsertAt(removed.Get(c), dst.index, Retyped(cols, src, dst));
      assert t in multiset(widened);
      if t != Retyped(cols, src, dst) {
        assert t in multiset(removed.Get(c));
        if c == src.droppableId {
          assert t in multiset(col);
        }
      }
    } else if c == src.droppableId {
      assert t in multiset(shortened);
    }
  }

  /** One column of the lemma below. */
  lemma MoveKeepsColumnStaged(cols: Columns, src: Location, dst: Location, c: ColumnId)
    requires src.index < |cols.Get(src.droppableId)|
    requires StagedAs(cols.Get(c), c) && dst.droppableId != InProgressColumn
    ensures StagedAs(Move(cols, src, dst).Get(c), c)
  {
    forall t | t in Move(cols, src, dst).Get(c)
      ensures t.stage == StageKey(c)
    {
      MoveMembership(cols, src, dst, c, t);
    }
  }

  /** A drop on the todo, review or done column keeps every task in a
      column that carries that column's key. */
  lemma MoveKeepsWellStaged(cols: Columns, src: Location, dst: Location)
    requires src.index < |cols.Get(src.droppableId)|
    requires WellStaged(cols) && dst.droppableId != InProgressColumn
    ensures WellStaged(Move(cols, src, dst))
  {
    MoveKeepsColumnStaged(cols, src, dst, TodoColumn);
    MoveKeepsColumnStaged(cols, src, dst, InProgressColumn);
    MoveKeepsColumnStaged(cols, src, dst, ReviewColumn);
    MoveKeepsColumnStaged(cols, src, dst, DoneColumn);
  }

  /** A drop on the todo, review or done column survives a later
      re-partition of the published list (after a reload restores it into
      both lists): partitioning it gives back exactly the moved board. */
  lemma DropSettles(tasks: seq<Task>, src: Location, dst: Location)
    requires src.index < |Partition(tasks).Get(src.droppableId)|
    requires dst.droppableId != InProgressColumn
    ensures var moved := Move(Partition(tasks), src, dst);
      Partition(Flatten(moved)) == moved
  {
    PartitionIsWellStaged(tasks);
    MoveKeepsWellStaged(Partition(tasks), src, dst);
    PartitionFlattenRoundTrip(Move(Partition(tasks), src, dst));
  }

  /** The task `handleAddTask` creates at time `now`. */
  function NewTask(now: int): (t: Task)
    ensures t.id == now && t.startDay == Int(now) && t.endDay == Int(0)
    ensures t.text == "New Task" && t.stage == StageKey(TodoColumn) && HasDeclaredStage(t)
  {
    Task(now, Todo, Int(now), Int(0), "New Task")
  }

  /** Clearing the done column removes exactly the tail of the published
      list. */
  lemma ClearDoneDropsTail(cols: Columns)
    ensures Flatten(cols.Set(DoneColumn, [])) + cols.done == Flatten(cols)
  {
  }

  /** The board component's state. `store` is the provider's value it reads
      through `useTaskContext`. */
  class Board {
    const store: TaskStore
    var columns: Columns

    /** The board mounts with four empty columns. */
    constructor (store: TaskStore)
      ensures this.store == store && columns == NoColumns
    {
      this.store := store;
      columns := NoColumns;
    }

    /** The effect on `initialTasks`: the columns become its partition. */
    method Repartition(initialTasks: seq<Task>)
      modifies this`columns
      ensures columns == Partition(initialTasks)
    {
      columns := Partition(initialTasks);
    }

    /** The effect on `columns`: when some column holds a task, the store's
        list becomes the flattened columns; an empty board publishes
        nothing. */
    method Publish()
      modifies store`tasks
      ensures columns.Size() > 0 ==> store.tasks == Flatten(columns)
      ensures columns.Size() == 0 ==> store.tasks == old(store.tasks)
      ensures store.filteredTasks == old(store.filteredTasks)
      ensures store.storage == old(store.storage)
    {
      if |columns.todo| > 0 || |columns.inProgress| > 0 || |columns.review| > 0
         || |columns.done| > 0 {
        store.UpdateTask(Flatten(columns));
      }
    }

    /** `handleDragEnd`. The two `splice` calls work on the column arrays
        themselves. The destination column is bound before the removal, but
        in a move within a column it is the same array as the source, so
        the insertion sees the shortened list; here it is read after the
        removal, which gives the same list. */
    method DragEnd(result: DropResult) returns (outcome: DropOutcome)
      modifies this`columns
      ensures outcome == Ignored <==> IsNoOpDrop(result)
      ensures outcome == Threw <==>
        !IsNoOpDrop(result) && result.source.index >= |old(columns).Get(result.source.droppableId)|
      ensures outcome != Moved ==> columns == old(columns)
      ensures outcome == Moved ==>
        columns == Move(old(columns), result.source, result.destination.value)
    {
      if IsNoOpDrop(result) {
        return Ignored;
      }
      var source, destination := result.source, result.destination.value;
      var sourceColumn := columns.Get(source.droppableId);
      if source.index >= |sourceColumn| {
        // splice removes nothing and the moved task is undefined
        return Threw;
      }
      var movedTask := sourceColumn[source.index];
      columns := columns.Set(source.droppableId, RemoveAt(sourceColumn, source.index));
      movedTask := movedTask.(stage := DroppedStage(destination.droppableId));
      var destinationColumn := columns.Get(destination.droppableId);
      columns := columns.Set(destination.droppableId,
                             InsertAt(destinationColumn, destination.index, movedTask));
      outcome := Moved;
    }

    /** `handleAddTask`: a fresh task stamped `now` goes to the end of the
        todo column. */
    method AddTask(now: int)
      modifies this`columns
      ensures columns.todo == old(columns.todo) + [NewTask(now)]
      ensures forall c :: c != TodoColumn ==> columns.Get(c) == old(columns.Get(c))
      ensures columns.Size() == old(columns.Size()) + 1
    {
      columns := columns.(todo := columns.todo + [NewTask(now)]);
    }

    /** `handleClearDoneTasks`: the done column is emptied. */
    method ClearDoneTasks()
      modifies this`columns
      ensures columns.done == []
      ensures forall c :: c != DoneColumn ==> columns.Get(c) == old(columns.Get(c))
    {
      columns := columns.(done := []);
    }
  }
}
