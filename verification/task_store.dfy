/**
 * The Kanban task store (src/store/tasks.ts): four ordered task lists, the
 * lookups from column identifiers to boards and statuses, and the operations
 * that add, move, import, export and reset tasks.
 *
 * Each state-changing operation is specified by a pure function on `Boards`
 * (AfterAdd, AfterMove, AfterImport, AfterChange); the lemmas below state what
 * the store promises about those functions, and the methods of class `Store`
 * are proved to change their state exactly as the functions say.
 */
module TaskStore {
  import opened Wrappers
  import opened TaskTypes
  import LS = LocalStorage

  // ---------------------------------------------------------------------
  // Column identifiers, boards and statuses
  // ---------------------------------------------------------------------

  /** The identifier the presentation layer uses for column `b`. */
  function ColumnId(b: Board): string {
    match b
    case TodosBoard => "todos"
    case InProgressBoard => "in-progress"
    case TestingBoard => "testing"
    case FinishedBoard => "finished"
  }

  /** The status a task carries while it sits in column `b`. */
  function StatusOf(b: Board): Status {
    match b
    case TodosBoard => ToDo
    case InProgressBoard => InProgress
    case TestingBoard => Testing
    case FinishedBoard => Finished
  }

  /**
   * getBoardByType: the board named by `boardType`, or None for a string that
   * names no column.
   */
  function GetBoardByType(boardType: string): (r: Option<Board>)
    ensures r.Some? ==> ColumnId(r.value) == boardType
    ensures r.None? <==> forall b :: ColumnId(b) != boardType
  {
    if boardType == "todos" then Some(TodosBoard)
    else if boardType == "in-progress" then Some(InProgressBoard)
    else if boardType == "testing" then Some(TestingBoard)
    else if boardType == "finished" then Some(FinishedBoard)
    else None
  }

  /** Each column identifier is mapped back to its own board. */
  lemma GetBoardByColumnId(b: Board)
    ensures GetBoardByType(ColumnId(b)) == Some(b)
  {
  }

  /**
   * getStatusByBoardType: total; the status of the named column, and the to-do
   * status for a string that names no column.
   */
  function GetStatusByBoardType(boardType: string): (s: Status)
    ensures forall b :: ColumnId(b) == boardType ==> s == StatusOf(b)
    ensures GetBoardByType(boardType).None? ==> s == ToDo
  {
    if boardType == "todos" then ToDo
    else if boardType == "in-progress" then InProgress
    else if boardType == "testing" then Testing
    else if boardType == "finished" then Finished
    else ToDo
  }

  // ---------------------------------------------------------------------
  // Whole-store views
  // ---------------------------------------------------------------------

  /** Number of tasks on the columns before `b` in display order. */
  function Offset(bs: Boards, b: Board): nat {
    match b
    case TodosBoard => 0
    case InProgressBoard => |bs.todos|
    case TestingBoard => |bs.todos| + |bs.inProgress|
    case FinishedBoard => |bs.todos| + |bs.inProgress| + |bs.testing|
  }

  /**
   * getAllTasks: every task of the four boards, column by column in display
   * order, each column's tasks in their own order.
   */
  function AllTasks(bs: Boards): (r: seq<Task>)
    ensures |r| == bs.Count()
    ensures forall b, i :: 0 <= i < |bs.Get(b)| ==> r[Offset(bs, b) + i] == bs.Get(b)[i]
  {
    var r := bs.todos + bs.inProgress + bs.testing + bs.finished;
    assert forall b, i | 0 <= i < |bs.Get(b)| :: r[Offset(bs, b) + i] == bs.Get(b)[i] by {
      forall b, i | 0 <= i < |bs.Get(b)| ensures r[Offset(bs, b) + i] == bs.Get(b)[i] {
        ConcatAt(bs, b, i);
      }
    }
    r
  }

  /** Position `i` of column `b` sits at `Offset(bs, b) + i` of the concatenation. */
  lemma ConcatAt(bs: Boards, b: Board, i: int)
    requires 0 <= i < |bs.Get(b)|
    ensures Offset(bs, b) + i < |bs.todos + bs.inProgress + bs.testing + bs.finished|
    ensures (bs.todos + bs.inProgress + bs.testing + bs.finished)[Offset(bs, b) + i] == bs.Get(b)[i]
  {
  }

  /** A task is among all tasks exactly when it is on one of the boards. */
  lemma AllTasksMembership(bs: Boards, t: Task)
    ensures t in AllTasks(bs) <==> exists b :: t in bs.Get(b)
  {
    assert AllTasks(bs) == bs.todos + bs.inProgress + bs.testing + bs.finished;
    if t in bs.todos {
      assert t in bs.Get(TodosBoard);
    } else if t in bs.inProgress {
      assert t in bs.Get(InProgressBoard);
    } else if t in bs.testing {
      assert t in bs.Get(TestingBoard);
    } else if t in bs.finished {
      assert t in bs.Get(FinishedBoard);
    } else {
      forall b ensures t !in bs.Get(b) {
        match b
        case TodosBoard =>
        case InProgressBoard =>
        case TestingBoard =>
        case FinishedBoard =>
      }
    }
  }

  /** Every task's status matches the column it sits in. */
  predicate Consistent(bs: Boards) {
    forall b, i :: 0 <= i < |bs.Get(b)| ==> bs.Get(b)[i].status == StatusOf(b)
  }

  // ---------------------------------------------------------------------
  // addTask
  // ---------------------------------------------------------------------

  /** Math.max over the ids of a non-empty list. */
  function MaxId(s: seq<Task>): (m: int)
    requires |s| > 0
    ensures forall i :: 0 <= i < |s| ==> s[i].id <= m
    ensures exists i :: 0 <= i < |s| && s[i].id == m
  {
    if |s| == 1 then s[0].id
    else
      var rest := MaxId(s[1..]);
      if s[0].id >= rest then s[0].id else rest
  }

  /** The id addTask assigns: one more than the largest id, or 1 when there are no tasks. */
  function NextId(all: seq<Task>): (n: int)
    ensures all == [] ==> n == 1
    ensures forall i :: 0 <= i < |all| ==> all[i].id < n
    ensures all != [] ==> exists i :: 0 <= i < |all| && all[i].id == n - 1
  {
    if |all| > 0 then MaxId(all) + 1 else 1
  }

  /** Tasks with ids 1, 3 and 7 on the store: the next fresh id is 8. */
  lemma NextIdExample(a: Task, b: Task, c: Task)
    requires a.id == 1 && b.id == 3 && c.id == 7
    ensures NextId([a, b, c]) == 8
  {
    var all := [a, b, c];
    var n := NextId(all);
    assert all[2].id < n;
    var k :| 0 <= k < |all| && all[k].id == n - 1;
  }

  /**
   * The task as addTask stores it: a falsy (zero) id is replaced by a fresh
   * one, a non-zero id is kept; no other field, the status included, changes.
   */
  function AssignId(task: Task, all: seq<Task>): (t: Task)
    ensures t == task.(id := t.id)
    ensures task.id != 0 ==> t == task
    ensures task.id == 0 ==> t.id == NextId(all)
    ensures task.id == 0 ==> forall i :: 0 <= i < |all| ==> all[i].id != t.id
  {
    if task.id == 0 then task.(id := NextId(all)) else task
  }

  /** The boards after addTask(task, boardType). */
  function AfterAdd(bs: Boards, task: Task, boardType: string): Boards {
    match GetBoardByType(boardType)
    case None => bs
    case Some(b) => bs.With(b, bs.Get(b) + [AssignId(task, AllTasks(bs))])
  }

  /**
   * addTask on an unknown column changes nothing; on column `b` it appends
   * the task (with its id assigned) at the end of `b`, leaves the other
   * columns alone and adds one to the task count.
   */
  lemma AddTaskEffect(bs: Boards, task: Task, boardType: string)
    ensures GetBoardByType(boardType).None? ==> AfterAdd(bs, task, boardType) == bs
    ensures forall b :: ColumnId(b) == boardType ==>
      var r := AfterAdd(bs, task, boardType);
      && r.Get(b) == bs.Get(b) + [AssignId(task, AllTasks(bs))]
      && (forall c :: c != b ==> r.Get(c) == bs.Get(c))
      && r.Count() == bs.Count() + 1
  {
  }

  /**
   * A fresh id is larger than every id on every board before the call, so it
   * differs from all of them; on a store without tasks it is 1.
   */
  lemma AddTaskFreshId(bs: Boards, task: Task)
    requires task.id == 0
    ensures var t := AssignId(task, AllTasks(bs));
      && (forall c, i :: 0 <= i < |bs.Get(c)| ==> bs.Get(c)[i].id < t.id)
      && (bs.Count() == 0 ==> t.id == 1)
  {
  }

  /**
   * addTask keeps the store consistent exactly when the caller's task already
   * carries the destination column's status: it does not rewrite the status.
   */
  lemma {:induction false} AddTaskConsistency(bs: Boards, task: Task, b: Board)
    requires Consistent(bs)
    ensures Consistent(AfterAdd(bs, task, ColumnId(b))) <==> task.status == StatusOf(b)
  {
    GetBoardByColumnId(b);
    var r := AfterAdd(bs, task, ColumnId(b));
    var t := AssignId(task, AllTasks(bs));
    assert r.Get(b) == bs.Get(b) + [t];
    assert r.Get(b)[|bs.Get(b)|] == t;
    if task.status == StatusOf(b) {
      forall c, i | 0 <= i < |r.Get(c)| ensures r.Get(c)[i].status == StatusOf(c) {
        if c == b && i < |bs.Get(b)| {
          assert r.Get(c)[i] == bs.Get(b)[i];
        }
      }
    }
  }

  // ---------------------------------------------------------------------
  // moveTask
  // ---------------------------------------------------------------------

  /** Array.prototype.findIndex by id: the first position holding `taskId`, or -1. */
  function FindIndex(s: seq<Task>, taskId: int): (r: int)
    ensures -1 <= r < |s|
    ensures r == -1 <==> forall i :: 0 <= i < |s| ==> s[i].id != taskId
    ensures r >= 0 ==> s[r].id == taskId && forall j :: 0 <= j < r ==> s[j].id != taskId
  {
    if s == [] then -1
    else if s[0].id == taskId then 0
    else
      var k := FindIndex(s[1..], taskId);
      if k == -1 then -1 else k + 1
  }

  /** splice(i, 1): the list without its element at position `i`. */
  function RemoveAt(s: seq<Task>, i: int): (r: seq<Task>)
    requires 0 <= i < |s|
    ensures |r| == |s| - 1
    ensures forall j :: 0 <= j < i ==> r[j] == s[j]
    ensures forall j :: i <= j < |r| ==> r[j] == s[j + 1]
  {
    s[..i] + s[i + 1..]
  }

  /** The boards after moveTask(taskId, fromBoard, toBoard). */
  function AfterMove(bs: Boards, taskId: int, fromBoard: string, toBoard: string): Boards {
    match (GetBoardByType(fromBoard), GetBoardByType(toBoard))
    case (Some(source), Some(target)) =>
      var i := FindIndex(bs.Get(source), taskId);
      if i == -1 then bs
      else
        var task := bs.Get(source)[i].(status := GetStatusByBoardType(toBoard));
        var removed := bs.With(source, RemoveAt(bs.Get(source), i));
        removed.With(target, removed.Get(target) + [task])
    case _ => bs
  }

  /**
   * moveTask changes nothing when either column identifier is unknown or the
   * source column holds no task with the id.
   */
  lemma MoveTaskNoOp(bs: Boards, taskId: int, fromBoard: string, toBoard: string)
    requires || GetBoardByType(fromBoard).None?
             || GetBoardByType(toBoard).None?
             || forall t :: t in bs.Get(GetBoardByType(fromBoard).value) ==> t.id != taskId
    ensures AfterMove(bs, taskId, fromBoard, toBoard) == bs
  {
  }

  /**
   * A successful moveTask takes the FIRST task with the id out of the source
   * column, gives it the target column's status, and appends it to the target
   * column; the two other columns are untouched. When source and target are
   * the same column the task ends up at the end of that column.
   */
  lemma MoveTaskEffect(bs: Boards, taskId: int, source: Board, target: Board, i: int)
    requires 0 <= i < |bs.Get(source)| && bs.Get(source)[i].id == taskId
    requires forall j :: 0 <= j < i ==> bs.Get(source)[j].id != taskId
    ensures var r := AfterMove(bs, taskId, ColumnId(source), ColumnId(target));
      var moved := bs.Get(source)[i].(status := StatusOf(target));
      && (source != target ==> r.Get(source) == RemoveAt(bs.Get(source), i))
      && (source != target ==> r.Get(target) == bs.Get(target) + [moved])
      && (source == target ==> r.Get(target) == RemoveAt(bs.Get(source), i) + [moved])
      && (forall c :: c != source && c != target ==> r.Get(c) == bs.Get(c))
  {
  }

  /** A move never changes the number of tasks. */
  lemma MoveTaskCount(bs: Boards, taskId: int, fromBoard: string, toBoard: string)
    ensures AfterMove(bs, taskId, fromBoard, toBoard).Count() == bs.Count()
  {
  }

  /** The multiset of ids of one list. */
  function Bag(s: seq<Task>): multiset<int> {
    multiset(Ids(s))
  }

  /** The multiset of ids on all boards, column by column. */
  function IdBag(bs: Boards): multiset<int> {
    Bag(bs.todos) + Bag(bs.inProgress) + Bag(bs.testing) + Bag(bs.finished)
  }

  lemma {:induction false} IdBagOfAllTasks(bs: Boards)
    ensures Bag(AllTasks(bs)) == IdBag(bs)
  {
    IdsAppend(bs.todos, bs.inProgress);
    IdsAppend(bs.todos + bs.inProgress, bs.testing);
    IdsAppend(bs.todos + bs.inProgress + bs.testing, bs.finished);
  }

  lemma IdBagWith(bs: Boards, b: Board, s: seq<Task>)
    ensures IdBag(bs.With(b, s)) + Bag(bs.Get(b)) == IdBag(bs) + Bag(s)
  {
  }

  lemma {:induction false} IdsRemoveAt(s: seq<Task>, i: int)
    requires 0 <= i < |s|
    ensures Bag(RemoveAt(s, i)) + multiset{s[i].id} == Bag(s)
  {
    assert s == s[..i] + [s[i]] + s[i + 1..];
    IdsAppend(s[..i], [s[i]]);
    IdsAppend(s[..i] + [s[i]], s[i + 1..]);
    IdsAppend(s[..i], s[i + 1..]);
  }

  lemma {:induction false} BagPush(s: seq<Task>, t: Task)
    ensures Bag(s + [t]) == Bag(s) + multiset{t.id}
  {
    IdsAppend(s, [t]);
    assert [t][1..] == [];
    assert Ids([t]) == [t.id];
  }

  /** Taking the task at `i` out of `source` and pushing a copy with the same id onto `target` keeps the id bag. */
  lemma {:induction false} IdBagSpliceAndPush(bs: Boards, source: Board, target: Board, i: int, task: Task)
    requires 0 <= i < |bs.Get(source)| && task.id == bs.Get(source)[i].id
    ensures var removed := bs.With(source, RemoveAt(bs.Get(source), i));
      IdBag(removed.With(target, removed.Get(target) + [task])) == IdBag(bs)
  {
    var src := bs.Get(source);
    var removed := bs.With(source, RemoveAt(src, i));
    var x := multiset{task.id};
    IdBagWith(bs, source, RemoveAt(src, i));
    IdsRemoveAt(src, i);
    Rebalance(IdBag(removed), IdBag(bs), Bag(src), Bag(RemoveAt(src, i)), x);
    var pushed := removed.Get(target) + [task];
    IdBagWith(removed, target, pushed);
    BagPush(removed.Get(target), task);
    Absorb(IdBag(removed.With(target, pushed)), IdBag(removed), Bag(removed.Get(target)), Bag(pushed), x);
  }

  /** From a + s == b + r and r + x == s it follows that a + x == b. */
  lemma Rebalance(a: multiset<int>, b: multiset<int>, s: multiset<int>, r: multiset<int>, x: multiset<int>)
    requires a + s == b + r && r + x == s
    ensures a + x == b
  {
    forall k ensures (a + x)[k] == b[k] {
      assert (a + s)[k] == (b + r)[k];
      assert (r + x)[k] == s[k];
    }
  }

  /** From c + t == a + p and p == t + x it follows that c == a + x. */
  lemma Absorb(c: multiset<int>, a: multiset<int>, t: multiset<int>, p: multiset<int>, x: multiset<int>)
    requires c + t == a + p && p == t + x
    ensures c == a + x
  {
    forall k ensures c[k] == (a + x)[k] {
      assert (c + t)[k] == (a + p)[k];
    }
  }

  /**
   * A move loses and duplicates no task: the multiset of ids over all boards
   * is the same before and after.
   */
  lemma {:induction false} MoveTaskKeepsIds(bs: Boards, taskId: int, fromBoard: string, toBoard: string)
    ensures Bag(AllTasks(AfterMove(bs, taskId, fromBoard, toBoard))) == Bag(AllTasks(bs))
  {
    var r := AfterMove(bs, taskId, fromBoard, toBoard);
    IdBagOfAllTasks(bs);
    IdBagOfAllTasks(r);
    match (GetBoardByType(fromBoard), GetBoardByType(toBoard))
    case (Some(source), Some(target)) =>
      var i := FindIndex(bs.Get(source), taskId);
      if i != -1 {
        IdBagSpliceAndPush(bs, source, target, i, bs.Get(source)[i].(status := GetStatusByBoardType(toBoard)));
      }
    case _ =>
  }

  /** A move keeps a consistent store consistent: the moved task takes its new column's status. */
  lemma {:induction false} MoveTaskConsistency(bs: Boards, taskId: int, fromBoard: string, toBoard: string)
    requires Consistent(bs)
    ensures Consistent(AfterMove(bs, taskId, fromBoard, toBoard))
  {
    match (GetBoardByType(fromBoard), GetBoardByType(toBoard))
    case (Some(source), Some(target)) =>
      var i := FindIndex(bs.Get(source), taskId);
      if i != -1 {
        var task := bs.Get(source)[i].(status := GetStatusByBoardType(toBoard));
        assert task.status == StatusOf(target);
        var removed := bs.With(source, RemoveAt(bs.Get(source), i));
        assert Consistent(removed) by {
          forall c, j | 0 <= j < |removed.Get(c)| ensures removed.Get(c)[j].status == StatusOf(c) {
            if c == source {
              assert removed.Get(c)[j] == bs.Get(c)[if j < i then j else j + 1];
            }
          }
        }
        var r := removed.With(target, removed.Get(target) + [task]);
        forall c, j | 0 <= j < |r.Get(c)| ensures r.Get(c)[j].status == StatusOf(c) {
          if c == target && j < |removed.Get(target)| {
            assert r.Get(c)[j] == removed.Get(target)[j];
          }
        }
      }
    case _ =>
  }

  // ---------------------------------------------------------------------
  // importData / exportData
  // ---------------------------------------------------------------------

  /**
   * The import payload: each field is `None` when it is absent or falsy
   * (`null`, `undefined`), and is then not imported. A present list, even an
   * empty one, is truthy in JavaScript and therefore imported.
   */
  datatype ImportPayload = ImportPayload(
    todos: Option<seq<Task>>,
    inProgress: Option<seq<Task>>,
    testing: Option<seq<Task>>,
    finished: Option<seq<Task>>)
  {
    function Get(b: Board): Option<seq<Task>> {
      match b
      case TodosBoard => todos
      case InProgressBoard => inProgress
      case TestingBoard => testing
      case FinishedBoard => finished
    }
  }

  /** An exported snapshot (without its timestamp) read back as an import payload. */
  function AsPayload(exported: Boards): (p: ImportPayload)
    ensures forall b :: p.Get(b) == Some(exported.Get(b))
  {
    ImportPayload(Some(exported.todos), Some(exported.inProgress), Some(exported.testing), Some(exported.finished))
  }

  /**
   * The boards after importData(data). `None` stands for a null or undefined
   * argument, on which reading a field throws and the error is swallowed.
   */
  function AfterImport(bs: Boards, data: Option<ImportPayload>): (r: Boards)
    ensures data.None? ==> r == bs
    ensures data.Some? ==> forall b :: r.Get(b) == if data.value.Get(b).Some? then data.value.Get(b).value else bs.Get(b)
  {
    match data
    case None => bs
    case Some(p) =>
      Boards(
        if p.todos.Some? then p.todos.value else bs.todos,
        if p.inProgress.Some? then p.inProgress.value else bs.inProgress,
        if p.testing.Some? then p.testing.value else bs.testing,
        if p.finished.Some? then p.finished.value else bs.finished)
  }

  /** Importing what was exported leaves every board as it was. */
  lemma ImportExportRoundTrip(bs: Boards)
    ensures AfterImport(bs, Some(AsPayload(bs))) == bs
  {
  }

  // ---------------------------------------------------------------------
  // change (drag-and-drop commit)
  // ---------------------------------------------------------------------

  /**
   * The part of a drag library change event the store reads: either an
   * element was added to column `into` at position `newIndex`, or something
   * else happened (a removal or a reorder).
   */
  datatype DragChange = DragAdded(into: Board, newIndex: int) | DragOther

  /** The boards after change(evt, currentBoardType). */
  function AfterChange(bs: Boards, evt: DragChange, currentBoardType: string): Boards
    requires evt.DragAdded? ==> 0 <= evt.newIndex < |bs.Get(evt.into)|
  {
    match evt
    case DragOther => bs
    case DragAdded(into, k) =>
      var s := bs.Get(into);
      bs.With(into, s[k := s[k].(status := GetStatusByBoardType(currentBoardType))])
  }

  /**
   * When the drag library has dropped a task with a stale status into a
   * column and reports that column's identifier, change restores consistency.
   */
  lemma ChangeRestoresConsistency(bs: Boards, into: Board, k: int)
    requires 0 <= k < |bs.Get(into)|
    requires forall b, i :: 0 <= i < |bs.Get(b)| && (b != into || i != k) ==> bs.Get(b)[i].status == StatusOf(b)
    ensures Consistent(AfterChange(bs, DragAdded(into, k), ColumnId(into)))
  {
  }

  // ---------------------------------------------------------------------
  // The store object
  // ---------------------------------------------------------------------

  class Store {
    var todos: seq<Task>
    var inProgress: seq<Task>
    var testing: seq<Task>
    var finished: seq<Task>
    /** The browser storage, as far as it holds task lists. */
    var storage: LS.Storage
    /** Whether browser storage could be written when the store was created. */
    const storageAvailable: bool
    /** The seed lists, used when nothing is persisted and by resetToDefault. */
    const seeds: Boards

    /** The four boards as one value. */
    function State(): Boards
      reads this
    {
      Boards(todos, inProgress, testing, finished)
    }

    /** getAllTasks: a fresh list of every task, column by column in display order. */
    function GetAllTasks(): (r: seq<Task>)
      reads this
      ensures |r| == |todos| + |inProgress| + |testing| + |finished|
      ensures forall b, i :: 0 <= i < |State().Get(b)| ==> r[Offset(State(), b) + i] == State().Get(b)[i]
    {
      AllTasks(State())
    }

    /** exportData, without its generation timestamp. */
    function ExportData(): (r: Boards)
      reads this
      ensures r.todos == todos && r.inProgress == inProgress
      ensures r.testing == testing && r.finished == finished
      ensures AfterImport(State(), Some(AsPayload(r))) == State()
    {
      State()
    }

    /**
     * The store's initialisation: load every board from storage when storage
     * is available, falling back to the seed list for a key that is absent.
     */
    constructor (seeds: Boards, storageAvailable: bool, storage: LS.Storage)
      ensures this.seeds == seeds && this.storageAvailable == storageAvailable
      ensures this.storage == storage
      ensures State() == if storageAvailable then LS.LoadAllBoards(storage, seeds) else seeds
    {
      var initial := if storageAvailable then LS.LoadAllBoards(storage, seeds) else seeds;
      this.seeds := seeds;
      this.storageAvailable := storageAvailable;
      this.storage := storage;
      todos := initial.todos;
      inProgress := initial.inProgress;
      testing := initial.testing;
      finished := initial.finished;
    }

    /** Assigns the `.value` of board `b`. */
    method SetBoard(b: Board, s: seq<Task>)
      modifies this
      ensures State() == old(State()).With(b, s)
      ensures storage == old(storage)
    {
      match b
      case TodosBoard => todos := s;
      case InProgressBoard => inProgress := s;
      case TestingBoard => testing := s;
      case FinishedBoard => finished := s;
    }

    /** saveAllToStorage: writes all four boards, unless storage is unavailable. */
    method SaveAllToStorage()
      modifies this`storage
      ensures storage == if storageAvailable then LS.SaveAllBoards(old(storage), State()) else old(storage)
    {
      if !storageAvailable {
        return;
      }
      storage := LS.SaveAllBoards(storage, State());
    }

    /** clearStorage: removes the four persisted boards, leaving the in-memory ones alone. */
    method ClearStorage()
      modifies this`storage
      ensures storage == if storageAvailable then LS.ClearAllBoardStorage(old(storage)) else old(storage)
    {
      if !storageAvailable {
        return;
      }
      storage := LS.ClearAllBoardStorage(storage);
    }

    /** addTask: returns whether `boardType` named a column. */
    method AddTask(task: Task, boardType: string) returns (ok: bool)
      modifies this
      ensures ok <==> GetBoardByType(boardType).Some?
      ensures State() == AfterAdd(old(State()), task, boardType)
      ensures storage == if ok && storageAvailable then LS.SaveAllBoards(old(storage), State()) else old(storage)
    {
      var board := GetBoardByType(boardType);
      if board.Some? {
        var t := AssignId(task, GetAllTasks());
        SetBoard(board.value, State().Get(board.value) + [t]);
        if storageAvailable {
          SaveAllToStorage();
        }
        ok := true;
      } else {
        ok := false;
      }
    }

    /** resetToDefault: every board back to its seed list; persisted boards are cleared. */
    method ResetToDefault()
      modifies this
      ensures State() == seeds
      ensures storage == if storageAvailable then LS.ClearAllBoardStorage(old(storage)) else old(storage)
    {
      todos := seeds.todos;
      inProgress := seeds.inProgress;
      testing := seeds.testing;
      finished := seeds.finished;
      if storageAvailable {
        storage := LS.ClearAllBoardStorage(storage);
      }
    }

    /** importData: replaces each board whose list is present; persists nothing. */
    method ImportData(data: Option<ImportPayload>)
      modifies this
      ensures State() == AfterImport(old(State()), data)
      ensures storage == old(storage)
    {
      if data.None? {
        return;
      }
      var p := data.value;
      if p.todos.Some? { todos := p.todos.value; }
      if p.inProgress.Some? { inProgress := p.inProgress.value; }
      if p.testing.Some? { testing := p.testing.value; }
      if p.finished.Some? { finished := p.finished.value; }
    }

    /** moveTask: persists nothing itself. */
    method MoveTask(taskId: int, fromBoard: string, toBoard: string)
      modifies this
      ensures State() == AfterMove(old(State()), taskId, fromBoard, toBoard)
      ensures storage == old(storage)
    {
      var sourceBoard := GetBoardByType(fromBoard);
      var targetBoard := GetBoardByType(toBoard);
      if sourceBoard.None? || targetBoard.None? {
        return;
      }
      var source := State().Get(sourceBoard.value);
      var taskIndex := FindIndex(source, taskId);
      if taskIndex == -1 {
        return;
      }
      var task := source[taskIndex];
      SetBoard(sourceBoard.value, RemoveAt(source, taskIndex));
      task := task.(status := GetStatusByBoardType(toBoard));
      SetBoard(targetBoard.value, State().Get(targetBoard.value) + [task]);
    }

    /**
     * change: for an "added" event, the added task takes the status of the
     * reported column and all boards are persisted; other events change nothing.
     */
    method Change(evt: DragChange, currentBoardType: string)
      requires evt.DragAdded? ==> 0 <= evt.newIndex < |State().Get(evt.into)|
      modifies this
      ensures State() == AfterChange(old(State()), evt, currentBoardType)
      ensures storage == if evt.DragAdded? && storageAvailable then LS.SaveAllBoards(old(storage), State()) else old(storage)
    {
      if evt.DragAdded? {
        var s := State().Get(evt.into);
        var addedTask := s[evt.newIndex];
        var newStatus := GetStatusByBoardType(currentBoardType);
        addedTask := addedTask.(status := newStatus);
        SetBoard(evt.into, s[evt.newIndex := addedTask]);
        if storageAvailable {
          SaveAllToStorage();
        }
      }
    }
  }
}
