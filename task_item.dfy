/** One task card: its edit mode, the draft record its inputs change, and
    saving the draft into every column of the board. */
module TaskItem {
  import opened Tasks
  import opened Text
  import opened TaskBoard
  import opened TaskContext

  /** The draft fields the edit form's inputs are wired to. */
  datatype Field = StartDayField | EndDayField | TextField

  /** `handleTaskChange`: the text input is stored as typed; a day input is
      stored as `parseInt` reads it. Nothing else in the draft changes. */
  function Changed(draft: Task, field: Field, input: string): (r: Task)
    ensures r.id == draft.id && r.stage == draft.stage
    ensures r.text == (if field == TextField then input else draft.text)
    ensures r.startDay == (if field == StartDayField then ParseInt(input) else draft.startDay)
    ensures r.endDay == (if field == EndDayField then ParseInt(input) else draft.endDay)
  {
    match field
    case TextField => draft.(text := input)
    case StartDayField => draft.(startDay := ParseInt(input))
    case EndDayField => draft.(endDay := ParseInt(input))
  }

  /** What the save does to one task: a task with the edited id takes the
      draft's text and days; any other task is returned as it is. */
  function Edited(t: Task, id: int, draft: Task): (r: Task)
    ensures r.id == t.id && r.stage == t.stage
    ensures t.id == id ==> r.text == draft.text && r.startDay == draft.startDay && r.endDay == draft.endDay
    ensures t.id != id ==> r == t
  {
    if t.id == id then t.(text := draft.text, startDay := draft.startDay, endDay := draft.endDay)
    else t
  }

  /** The `map` the save applies to one column. */
  function Saved(column: seq<Task>, id: int, draft: Task): (r: seq<Task>)
    ensures |r| == |column|
    ensures forall i :: 0 <= i < |column| ==> r[i] == Edited(column[i], id, draft)
  {
    seq(|column|, i requires 0 <= i < |column| => Edited(column[i], id, draft))
  }

  /** Saving keeps every task in its place: ids and stages are unchanged
      position by position, so no task changes column or order. */
  lemma SavedKeepsPlaces(column: seq<Task>, id: int, draft: Task)
    ensures forall i :: 0 <= i < |column| ==>
      Saved(column, id, draft)[i].id == column[i].id
      && Saved(column, id, draft)[i].stage == column[i].stage
  {
  }

  /** Saving the same draft twice is saving it once. */
  lemma SavedIdempotent(column: seq<Task>, id: int, draft: Task)
    ensures Saved(Saved(column, id, draft), id, draft) == Saved(column, id, draft)
  {
  }

  /** A column without the edited id is left as it is. */
  lemma SavedWithoutMatch(column: seq<Task>, id: int, draft: Task)
    requires forall t :: t in column ==> t.id != id
    ensures Saved(column, id, draft) == column
  {
  }

  /** The save applied to every column of the board. */
  function SaveAll(cols: Columns, id: int, draft: Task): (r: Columns)
    ensures forall c :: r.Get(c) == Saved(cols.Get(c), id, draft)
    ensures r.Size() == cols.Size()
  {
    Columns(Saved(cols.todo, id, draft), Saved(cols.inProgress, id, draft),
            Saved(cols.review, id, draft), Saved(cols.done, id, draft))
  }

  /** Saving column by column and then publishing gives the published list
      with the save applied to it. */
  lemma SaveAllCommutesWithFlatten(cols: Columns, id: int, draft: Task)
    ensures Flatten(SaveAll(cols, id, draft)) == Saved(Flatten(cols), id, draft)
  {
  }

  /** The save agrees with the store's replace-by-id whenever the draft is
      the edited task with the draft's fields, that is, when the draft keeps
      the edited task's id and type. */
  lemma SavedIsReplaceById(column: seq<Task>, draft: Task)
    requires forall t :: t in column && t.id == draft.id ==> t.stage == draft.stage
    ensures Saved(column, draft.id, draft) == ReplaceById(column, draft)
  {
  }

  /** The `map` callback run over one column, one task at a time. */
  method SaveInColumn(column: seq<Task>, id: int, draft: Task) returns (r: seq<Task>)
    ensures r == Saved(column, id, draft)
  {
    r := [];
    var i := 0;
    while i < |column|
      invariant 0 <= i <= |column|
      invariant |r| == i
      invariant forall k :: 0 <= k < i ==> r[k] == Edited(column[k], id, draft)
    {
      var t := column[i];
      if t.id == id {
        t := t.(text := draft.text, startDay := draft.startDay, endDay := draft.endDay);
      }
      r := r + [t];
      i := i + 1;
    }
  }

  /** The card's state: the task it shows, the id being edited (null when
      not editing) and the draft record the inputs change. */
  class TaskCard {
    const task: Task
    var editTaskId: Option<int>
    var draft: Task

    /** The draft starts as a copy of the task; the card is not editing. */
    constructor (task: Task)
      ensures this.task == task && draft == task && editTaskId == None
    {
      this.task := task;
      draft := task;
      editTaskId := None;
    }

    /** `handleEditTask`: the card enters edit mode for its task. */
    method EditTask()
      modifies this`editTaskId
      ensures editTaskId == Some(task.id)
    {
      editTaskId := Some(task.id);
    }

    /** `handleCancelChange`: edit mode ends; the draft is kept. */
    method CancelChange()
      modifies this`editTaskId
      ensures editTaskId == None && draft == old(draft)
    {
      editTaskId := None;
    }

    /** `handleTaskChange`: one draft field takes the input's value. */
    method TaskChange(field: Field, input: string)
      modifies this`draft
      ensures draft == Changed(old(draft), field, input)
      ensures editTaskId == old(editTaskId)
    {
      draft := Changed(draft, field, input);
    }

    /** The draft-sync effect: the draft is always a record, which is
        truthy, so the effect returns at its guard and never reaches
        `updateSingleTask`; the store is left as it is. The method has no
        `modifies` clause, so its frame alone gives the ensures: with no
        reachable call, there is nothing for the body to do. */
    method SyncDraft(store: TaskStore)
      ensures store.tasks == old(store.tasks) && store.filteredTasks == old(store.filteredTasks)
    {
    }

    /** `handleSaveTask`: every column of the board, in key order, is mapped
        through the save for this card's task id; then edit mode ends. */
    method SaveTask(board: Board)
      modifies board`columns, this`editTaskId
      ensures board.columns == SaveAll(old(board.columns), task.id, draft)
      ensures editTaskId == None && draft == old(draft)
    {
      ghost var before := board.columns;
      var keys := ColumnOrder;
      for k := 0 to |keys|
        invariant forall c ::
          board.columns.Get(c) == (if Rank(c) < k then Saved(before.Get(c), task.id, draft) else before.Get(c))
      {
        var key := keys[k];
        assert Rank(key) == k;
        var column := SaveInColumn(board.columns.Get(key), task.id, draft);
        board.columns := board.columns.Set(key, column);
      }
      assert board.columns.todo == board.columns.Get(TodoColumn);
      assert board.columns.inProgress == board.columns.Get(InProgressColumn);
      assert board.columns.review == board.columns.Get(ReviewColumn);
      assert board.columns.done == board.columns.Get(DoneColumn);
      editTaskId := None;
    }
  }
}
