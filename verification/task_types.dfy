/**
 * The shape of a Kanban task (src/types/Task.ts) and of the four-board record
 * that the store, its export/import payloads and the storage layer all share.
 */
module TaskTypes {
  import opened Wrappers

  /** The four values of a task's `status` field. */
  datatype Status = ToDo | InProgress | Testing | Finished

  datatype Priority = Low | Medium | High

  datatype Assignee = Assignee(name: string, src: string)

  /**
   * A task card. Only `id` and `status` are interpreted by the store; the
   * remaining fields are carried along unchanged. `progress` is a JavaScript
   * number, modelled as an integer.
   */
  datatype Task = Task(
    id: int,
    title: string,
    description: Option<string>,
    status: Status,
    dueDate: Option<string>,
    priority: Option<Priority>,
    progress: int,
    category: Option<string>,
    createdAt: string,
    assignedTo: seq<Assignee>)

  /** The four columns of the board, in their fixed display order. */
  datatype Board = TodosBoard | InProgressBoard | TestingBoard | FinishedBoard

  /** The four ordered task lists, one per column. */
  datatype Boards = Boards(
    todos: seq<Task>,
    inProgress: seq<Task>,
    testing: seq<Task>,
    finished: seq<Task>)
  {
    /** The list of column `b`. */
    function Get(b: Board): seq<Task> {
      match b
      case TodosBoard => todos
      case InProgressBoard => inProgress
      case TestingBoard => testing
      case FinishedBoard => finished
    }

    /** These boards with the list of column `b` replaced by `s`. */
    function With(b: Board, s: seq<Task>): (r: Boards)
      ensures r.Get(b) == s
      ensures forall c :: c != b ==> r.Get(c) == Get(c)
    {
      match b
      case TodosBoard => this.(todos := s)
      case InProgressBoard => this.(inProgress := s)
      case TestingBoard => this.(testing := s)
      case FinishedBoard => this.(finished := s)
    }

    /** Total number of tasks on all four boards. */
    function Count(): nat {
      |todos| + |inProgress| + |testing| + |finished|
    }
  }

  /** The ids of `s`, in order. */
  function Ids(s: seq<Task>): (r: seq<int>)
    ensures |r| == |s|
  {
    if s == [] then [] else [s[0].id] + Ids(s[1..])
  }

  lemma {:induction false} IdsAppend(a: seq<Task>, b: seq<Task>)
    ensures Ids(a + b) == Ids(a) + Ids(b)
  {
    if a == [] {
      assert a + b == b;
    } else {
      assert (a + b)[0] == a[0];
      assert (a + b)[1..] == a[1..] + b;
      calc {
        Ids(a + b);
        [a[0].id] + Ids(a[1..] + b);
        { IdsAppend(a[1..], b); }
        [a[0].id] + (Ids(a[1..]) + Ids(b));
        ([a[0].id] + Ids(a[1..])) + Ids(b);
        Ids(a) + Ids(b);
      }
    }
  }
}
