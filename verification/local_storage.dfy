/**
 * The persistence adapter over the browser's key-value storage. The store is
 * modelled as a map from key to the task list last written under it; the JSON
 * encoding in between is taken to be lossless, and a failing write is not modelled.
 */
module LocalStorage {
  import opened TaskTypes

  type Storage = map<string, seq<Task>>

  const TODOS_KEY: string := "kanban_todos"
  const IN_PROGRESS_KEY: string := "kanban_in_progress"
  const TESTING_KEY: string := "kanban_testing"
  const FINISHED_KEY: string := "kanban_finished"

  /** The key under which column `b` is persisted. */
  function KeyOf(b: Board): string {
    match b
    case TodosBoard => TODOS_KEY
    case InProgressBoard => IN_PROGRESS_KEY
    case TestingBoard => TESTING_KEY
    case FinishedBoard => FINISHED_KEY
  }

  /** Distinct columns are persisted under distinct keys. */
  lemma KeysDistinct()
    ensures forall a, b :: KeyOf(a) == KeyOf(b) ==> a == b
  {
  }

  /** The four well-known keys, and no others. */
  function BoardKeys(): (keys: set<string>)
    ensures forall b :: KeyOf(b) in keys
    ensures forall k :: k in keys ==> exists b :: KeyOf(b) == k
    ensures |keys| == 4
  {
    KeysDistinct();
    var keys := {TODOS_KEY, IN_PROGRESS_KEY, TESTING_KEY, FINISHED_KEY};
    assert forall k :: k in keys ==>
      k == KeyOf(TodosBoard) || k == KeyOf(InProgressBoard) || k == KeyOf(TestingBoard) || k == KeyOf(FinishedBoard);
    keys
  }

  /** Writes all four boards, each under its own key; other keys are kept. */
  function SaveAllBoards(st: Storage, boards: Boards): (r: Storage)
    ensures r.Keys == st.Keys + BoardKeys()
    ensures forall b :: r[KeyOf(b)] == boards.Get(b)
    ensures forall k :: k in st && k !in BoardKeys() ==> r[k] == st[k]
  {
    KeysDistinct();
    st[TODOS_KEY := boards.todos]
      [IN_PROGRESS_KEY := boards.inProgress]
      [TESTING_KEY := boards.testing]
      [FINISHED_KEY := boards.finished]
  }

  /** Reads all four boards; a key that is absent yields the fallback for its column. */
  function LoadAllBoards(st: Storage, fallback: Boards): (r: Boards)
    ensures forall b :: KeyOf(b) in st ==> r.Get(b) == st[KeyOf(b)]
    ensures forall b :: KeyOf(b) !in st ==> r.Get(b) == fallback.Get(b)
  {
    Boards(
      if TODOS_KEY in st then st[TODOS_KEY] else fallback.todos,
      if IN_PROGRESS_KEY in st then st[IN_PROGRESS_KEY] else fallback.inProgress,
      if TESTING_KEY in st then st[TESTING_KEY] else fallback.testing,
      if FINISHED_KEY in st then st[FINISHED_KEY] else fallback.finished)
  }

  /** Removes the four well-known keys; other keys are kept. */
  function ClearAllBoardStorage(st: Storage): (r: Storage)
    ensures r.Keys == st.Keys - BoardKeys()
    ensures forall k :: k in r ==> r[k] == st[k]
  {
    map k | k in st && k !in BoardKeys() :: st[k]
  }

  /** Loading what was just saved gives back exactly the saved boards. */
  lemma LoadAfterSave(st: Storage, boards: Boards, fallback: Boards)
    ensures LoadAllBoards(SaveAllBoards(st, boards), fallback) == boards
  {
  }

  /** After clearing, loading falls back on every column. */
  lemma LoadAfterClear(st: Storage, fallback: Boards)
    ensures LoadAllBoards(ClearAllBoardStorage(st), fallback) == fallback
  {
  }
}
