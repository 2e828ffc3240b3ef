/**
 * The task record and the list transformations the task-list handlers apply
 * to the collection: toggle, delete and edit (each keyed by id, acting on
 * every task that carries that id) and the generation of a bulk batch.
 */
module Todos {
  import opened Text
  import opened Seqs

  datatype Option<T> = None | Some(value: T)

  /** One task. Ids are clock readings in milliseconds; urgency is the raw
      string the urgency selector or the bulk generator put there. */
  datatype Todo = Todo(
    id: int,
    title: string,
    description: string,
    completed: bool,
    urgency: string,
    timestamp: string)

  const Urgent: string := "urgent"
  const Medium: string := "medium"
  const NotUrgent: string := "not urgent"

  /** The three urgency levels, in the order the bulk generator indexes them. */
  const UrgencyLevels: seq<string> := [Urgent, Medium, NotUrgent]

  /** No two tasks in the list share an id. */
  predicate UniqueIds(todos: seq<Todo>) {
    forall i, j :: 0 <= i < j < |todos| ==> todos[i].id != todos[j].id
  }

  predicate HasId(todos: seq<Todo>, id: int) {
    exists k :: 0 <= k < |todos| && todos[k].id == id
  }

  // ---------------------------------------------------------------- toggle

  /** `todos.map(todo => todo.id === id ? {...todo, completed: !todo.completed} : todo)`:
      position by position, a task with that id has its completion flipped and
      every other field kept; any other task is kept as it is. */
  function ToggleById(todos: seq<Todo>, id: int): (r: seq<Todo>)
    ensures |r| == |todos|
    ensures forall i :: 0 <= i < |todos| ==>
      r[i] == if todos[i].id == id then todos[i].(completed := !todos[i].completed) else todos[i]
  {
    if todos == [] then []
    else
      var t := todos[0];
      [if t.id == id then t.(completed := !t.completed) else t] + ToggleById(todos[1..], id)
  }

  /** Toggling the same id twice restores the list. */
  lemma ToggleTwice(todos: seq<Todo>, id: int)
    ensures ToggleById(ToggleById(todos, id), id) == todos
  {
  }

  /** Toggling an id no task carries changes nothing. */
  lemma ToggleAbsent(todos: seq<Todo>, id: int)
    requires !HasId(todos, id)
    ensures ToggleById(todos, id) == todos
  {
  }

  /** Toggling keeps the id at every position, so it keeps ids unique. */
  lemma ToggleKeepsUniqueIds(todos: seq<Todo>, id: int)
    requires UniqueIds(todos)
    ensures UniqueIds(ToggleById(todos, id))
  {
  }

  // ---------------------------------------------------------------- delete

  predicate KeptBy(id: int, t: Todo) {
    t.id != id
  }

  /** `todos.filter(todo => todo.id !== id)`: what is left is every task with
      another id, in its original relative order, and no task with that id. */
  function DeleteById(todos: seq<Todo>, id: int): (r: seq<Todo>)
    ensures forall t :: t in r ==> t in todos && t.id != id
    ensures forall t :: t in todos && t.id != id ==> t in r
    ensures IsSubsequence(r, todos)
  {
    FilterIsSubsequence(todos, t => KeptBy(id, t));
    Filter(todos, t => KeptBy(id, t))
  }

  /** Delete removes every copy of a task with that id and keeps every copy
      of every other task. */
  lemma DeleteKeepsCounts(todos: seq<Todo>, id: int, t: Todo)
    ensures multiset(DeleteById(todos, id))[t] == if t.id == id then 0 else multiset(todos)[t]
  {
    FilterCount(todos, u => KeptBy(id, u), t);
  }

  /** Deleting the same id a second time changes nothing. */
  lemma DeleteIdempotent(todos: seq<Todo>, id: int)
    ensures DeleteById(DeleteById(todos, id), id) == DeleteById(todos, id)
  {
    FilterIdempotent(todos, t => KeptBy(id, t));
  }

  /** Deleting an id no task carries changes nothing. */
  lemma DeleteAbsent(todos: seq<Todo>, id: int)
    requires !HasId(todos, id)
    ensures DeleteById(todos, id) == todos
  {
    forall t | t in todos
      ensures KeptBy(id, t)
    {
      var k :| 0 <= k < |todos| && todos[k] == t;
    }
    FilterAllPass(todos, t => KeptBy(id, t));
  }

  /** When ids are unique, deleting an id that is present removes exactly
      one task. */
  lemma {:induction false} DeleteUniqueRemovesOne(todos: seq<Todo>, id: int)
    requires UniqueIds(todos) && HasId(todos, id)
    ensures |DeleteById(todos, id)| == |todos| - 1
  {
    var rest := todos[1..];
    assert UniqueIds(rest) by {
      forall i, j | 0 <= i < j < |rest| ensures rest[i].id != rest[j].id {
        assert rest[i] == todos[i + 1] && rest[j] == todos[j + 1];
      }
    }
    assert todos == [todos[0]] + rest;
    if todos[0].id == id {
      assert !HasId(rest, id) by {
        forall k | 0 <= k < |rest| ensures rest[k].id != id {
          assert rest[k] == todos[k + 1];
        }
      }
      DeleteAbsent(rest, id);
    } else {
      var k :| 0 <= k < |todos| && todos[k].id == id;
      assert rest[k - 1].id == id;
      DeleteUniqueRemovesOne(rest, id);
    }
  }

  // ------------------------------------------------------------------ edit

  /** `todos.map(todo => todo.id === id ? {...todo, title, description} : todo)`:
      position by position, a task with that id gets the new title and
      description and keeps its id, completion, urgency and timestamp; any
      other task is kept as it is. */
  function EditById(todos: seq<Todo>, id: int, title: string, description: string): (r: seq<Todo>)
    ensures |r| == |todos|
    ensures forall i :: 0 <= i < |todos| ==>
      r[i] == if todos[i].id == id then todos[i].(title := title, description := description) else todos[i]
  {
    if todos == [] then []
    else
      var t := todos[0];
      [if t.id == id then t.(title := title, description := description) else t]
        + EditById(todos[1..], id, title, description)
  }

  /** Editing changes only titles and descriptions. */
  lemma EditKeepsOtherFields(todos: seq<Todo>, id: int, title: string, description: string, i: int)
    requires 0 <= i < |todos|
    ensures var r := EditById(todos, id, title, description)[i];
      r.id == todos[i].id && r.completed == todos[i].completed
      && r.urgency == todos[i].urgency && r.timestamp == todos[i].timestamp
  {
  }

  /** Editing an id no task carries changes nothing. */
  lemma EditAbsent(todos: seq<Todo>, id: int, title: string, description: string)
    requires !HasId(todos, id)
    ensures EditById(todos, id, title, description) == todos
  {
  }

  /** Applying the same edit twice is applying it once. */
  lemma EditIdempotent(todos: seq<Todo>, id: int, title: string, description: string)
    ensures EditById(EditById(todos, id, title, description), id, title, description)
         == EditById(todos, id, title, description)
  {
  }

  /** Toggling and editing do not interfere: either order gives the same list. */
  lemma ToggleEditCommute(todos: seq<Todo>, a: int, b: int, title: string, description: string)
    ensures ToggleById(EditById(todos, b, title, description), a)
         == EditById(ToggleById(todos, a), b, title, description)
  {
  }

  // ------------------------------------------------------------- bulk add

  /** Number of tasks one bulk request creates. */
  const BulkCount: nat := 1000

  function BulkTitle(index: nat): string {
    "Задача " + Decimal(index + 1)
  }

  function BulkDescription(index: nat): string {
    "Описание задачи " + Decimal(index + 1)
  }

  /** Task `index` of a batch, given the clock reading and timestamp taken
      while it was built and the urgency level drawn for it. */
  function BulkTodo(clock: int, index: nat, pick: nat, stamp: string): Todo
    requires pick < |UrgencyLevels|
  {
    Todo(clock + index, BulkTitle(index), BulkDescription(index), false, UrgencyLevels[pick], stamp)
  }

  /** `Array.from({length}, (_, index) => ...)`: one generated task per
      index, each reading the clock and drawing an urgency of its own. */
  function BulkTodos(clock: seq<int>, picks: seq<nat>, stamps: seq<string>): (r: seq<Todo>)
    requires |clock| == |picks| == |stamps|
    requires forall i :: 0 <= i < |picks| ==> picks[i] < |UrgencyLevels|
    ensures |r| == |picks|
    ensures forall i :: 0 <= i < |r| ==>
      r[i].id == clock[i] + i && !r[i].completed
      && r[i].urgency == UrgencyLevels[picks[i]] && r[i].urgency in UrgencyLevels
      && r[i].title == BulkTitle(i) && r[i].description == BulkDescription(i)
      && r[i].timestamp == stamps[i]
  {
    seq(|picks|, i requires 0 <= i < |picks| => BulkTodo(clock[i], i, picks[i], stamps[i]))
  }

  predicate NonDecreasing(clock: seq<int>) {
    forall i, j :: 0 <= i <= j < |clock| ==> clock[i] <= clock[j]
  }

  /** With a clock that never goes back, the ids of a batch strictly
      increase, so they are pairwise distinct. */
  lemma BulkIdsIncrease(clock: seq<int>, picks: seq<nat>, stamps: seq<string>)
    requires |clock| == |picks| == |stamps|
    requires forall i :: 0 <= i < |picks| ==> picks[i] < |UrgencyLevels|
    requires NonDecreasing(clock)
    ensures var r := BulkTodos(clock, picks, stamps);
      (forall i, j :: 0 <= i < j < |r| ==> r[i].id < r[j].id) && UniqueIds(r)
  {
  }

  /** When every reading falls in the same millisecond `base`, task `i` has
      id `base + i`. */
  lemma BulkSameTick(base: int, clock: seq<int>, picks: seq<nat>, stamps: seq<string>)
    requires |clock| == |picks| == |stamps|
    requires forall i :: 0 <= i < |picks| ==> picks[i] < |UrgencyLevels|
    requires forall i :: 0 <= i < |clock| ==> clock[i] == base
    ensures var r := BulkTodos(clock, picks, stamps);
      forall i :: 0 <= i < |r| ==> r[i].id == base + i
  {
  }

  /** Two different positions of a batch get different titles. */
  lemma BulkTitlesDistinct(i: nat, j: nat)
    requires i != j
    ensures BulkTitle(i) != BulkTitle(j)
  {
    var prefix := "Задача ";
    if BulkTitle(i) == BulkTitle(j) {
      assert BulkTitle(i)[|prefix|..] == Decimal(i + 1);
      assert BulkTitle(j)[|prefix|..] == Decimal(j + 1);
      DecimalInjective(i + 1, j + 1);
    }
  }
}
