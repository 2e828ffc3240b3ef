/**
 * The list the task-list component displays, as a function of its state:
 * the tasks that match the search text and the urgency filter, open tasks
 * first, completed tasks after them (or not at all).
 */
module TodoView {
  import opened Text
  import opened Seqs
  import opened Todos

  /** The search text occurs, ignoring case, in the title or in the description. */
  predicate TextMatch(t: Todo, query: string) {
    Contains(ToLower(t.title), ToLower(query)) || Contains(ToLower(t.description), ToLower(query))
  }

  /** `!selectedUrgency || todo.urgency === selectedUrgency`: no filter, or the
      empty string (which is falsy), lets every task through. */
  predicate UrgencyMatch(t: Todo, selected: Option<string>) {
    selected.None? || selected.value == "" || t.urgency == selected.value
  }

  predicate Matches(t: Todo, query: string, selected: Option<string>) {
    TextMatch(t, query) && UrgencyMatch(t, selected)
  }

  predicate IsOpen(t: Todo) {
    !t.completed
  }

  predicate IsDone(t: Todo) {
    t.completed
  }

  /** The tasks that match the search and the urgency filter, in list order. */
  function Filtered(todos: seq<Todo>, query: string, selected: Option<string>): (r: seq<Todo>)
    ensures forall t :: t in r <==> t in todos && Matches(t, query, selected)
    ensures IsSubsequence(r, todos)
  {
    FilterIsSubsequence(todos, t => Matches(t, query, selected));
    Filter(todos, t => Matches(t, query, selected))
  }

  /** The displayed list: the open matching tasks, followed by the completed
      matching tasks when completed tasks are shown. */
  function Displayed(todos: seq<Todo>, query: string, selected: Option<string>, showCompleted: bool): (d: seq<Todo>)
    ensures forall t :: t in d ==> t in todos && Matches(t, query, selected)
    ensures !showCompleted ==> forall t :: t in d ==> !t.completed
  {
    var filtered := Filtered(todos, query, selected);
    if showCompleted then Filter(filtered, IsOpen) + Filter(filtered, IsDone)
    else Filter(filtered, IsOpen)
  }

  /** A task is displayed exactly when it is in the list, matches the search
      and the urgency filter, and is open or completed tasks are shown. */
  lemma DisplayedMembers(todos: seq<Todo>, query: string, selected: Option<string>, showCompleted: bool, t: Todo)
    ensures t in Displayed(todos, query, selected, showCompleted)
        <==> t in todos && Matches(t, query, selected) && (showCompleted || !t.completed)
  {
  }

  /** Every displayed open task comes before every displayed completed task. */
  lemma DisplayedOpenFirst(todos: seq<Todo>, query: string, selected: Option<string>, showCompleted: bool)
    ensures var d := Displayed(todos, query, selected, showCompleted);
      forall i, j :: 0 <= i < |d| && 0 <= j < |d| && !d[i].completed && d[j].completed ==> i < j
  {
    var filtered := Filtered(todos, query, selected);
    var open := Filter(filtered, IsOpen);
    var d := Displayed(todos, query, selected, showCompleted);
    forall i | 0 <= i < |d|
      ensures i < |open| ==> !d[i].completed
      ensures i >= |open| ==> d[i].completed
    {
      if i < |open| {
        assert d[i] == open[i] && open[i] in open;
      } else {
        var done := Filter(filtered, IsDone);
        assert d[i] == done[i - |open|] && done[i - |open|] in done;
      }
    }
  }

  /** Within each group the displayed tasks keep the order they have in the
      task list. */
  lemma DisplayedGroupsInOrder(todos: seq<Todo>, query: string, selected: Option<string>, showCompleted: bool)
    ensures var d := Displayed(todos, query, selected, showCompleted);
      IsSubsequence(Filter(d, IsOpen), todos) && IsSubsequence(Filter(d, IsDone), todos)
  {
    var filtered := Filtered(todos, query, selected);
    var open := Filter(filtered, IsOpen);
    var done := Filter(filtered, IsDone);
    FilterIsSubsequence(todos, t => Matches(t, query, selected));
    FilterIsSubsequence(filtered, IsOpen);
    FilterIsSubsequence(filtered, IsDone);
    SubsequenceTransitive(open, filtered, todos);
    SubsequenceTransitive(done, filtered, todos);
    FilterIdempotent(filtered, IsOpen);
    FilterIdempotent(filtered, IsDone);
    FilterNonePass(open, IsDone);
    FilterNonePass(done, IsOpen);
    if showCompleted {
      FilterAppend(open, done, IsOpen);
      FilterAppend(open, done, IsDone);
      assert open + [] == open;
      assert [] + done == done;
    } else {
      assert IsSubsequence([], todos);
    }
  }

  /** With completed tasks shown, the display holds exactly the matching
      tasks, each as often as in the list: it is a reordering of them. */
  lemma DisplayedIsPermutation(todos: seq<Todo>, query: string, selected: Option<string>)
    ensures multiset(Displayed(todos, query, selected, true)) == multiset(Filtered(todos, query, selected))
  {
    FilterPartition(Filtered(todos, query, selected), IsOpen, IsDone);
  }

  /** The search ignores case: lower-casing the search text changes nothing. */
  lemma SearchIgnoresCase(todos: seq<Todo>, query: string, selected: Option<string>, showCompleted: bool)
    ensures Displayed(todos, ToLower(query), selected, showCompleted) == Displayed(todos, query, selected, showCompleted)
  {
    ToLowerIdempotent(query);
    assert forall t :: Matches(t, ToLower(query), selected) == Matches(t, query, selected);
    FilterSamePredicate(todos, t => Matches(t, ToLower(query), selected), t => Matches(t, query, selected));
  }

  lemma {:induction false} FilterSamePredicate(xs: seq<Todo>, p: Todo -> bool, q: Todo -> bool)
    requires forall t :: p(t) == q(t)
    ensures Filter(xs, p) == Filter(xs, q)
  {
    if xs != [] {
      FilterSamePredicate(xs[1..], p, q);
    }
  }

  /** An empty search with no urgency filter lets every task through. */
  lemma EmptySearchKeepsAll(todos: seq<Todo>)
    ensures Filtered(todos, "", None) == todos
  {
    forall t | t in todos
      ensures Matches(t, "", None)
    {
      ContainsEmpty(ToLower(t.title));
    }
    FilterAllPass(todos, t => Matches(t, "", None));
  }

  /** A worked case: two tasks whose titles both contain "Buy", the first
      open and urgent, the second completed and medium, listed completed
      first. Searching "buy" shows both, the open one first; hiding
      completed tasks leaves the open one; filtering on medium leaves the
      completed one. */
  lemma BuyExample(milk: Todo, bread: Todo)
    requires milk.title == "Buy milk" && !milk.completed && milk.urgency == Urgent
    requires bread.title == "Buy bread" && bread.completed && bread.urgency == Medium
    ensures Displayed([bread, milk], "buy", None, true) == [milk, bread]
    ensures Displayed([bread, milk], "buy", None, false) == [milk]
    ensures Displayed([bread, milk], "buy", Some(Medium), true) == [bread]
  {
    BuyMatches(milk, bread);
    OpenAfterDone(milk, bread, "buy", None);
    assert !UrgencyMatch(milk, Some(Medium)) by {
      assert milk.urgency[0] != Medium[0];
    }
    assert UrgencyMatch(bread, Some(Medium));
    OpenAfterDone(milk, bread, "buy", Some(Medium));
  }

  lemma BuyMatches(milk: Todo, bread: Todo)
    requires milk.title == "Buy milk" && bread.title == "Buy bread"
    ensures TextMatch(milk, "buy") && TextMatch(bread, "buy")
  {
  }

  /** A completed task listed before an open one is displayed after it. */
  lemma OpenAfterDone(open: Todo, done: Todo, query: string, selected: Option<string>)
    requires !open.completed && done.completed
    requires TextMatch(open, query) && TextMatch(done, query)
    ensures UrgencyMatch(open, selected) && UrgencyMatch(done, selected)
      ==> Displayed([done, open], query, selected, true) == [open, done]
          && Displayed([done, open], query, selected, false) == [open]
    ensures !UrgencyMatch(open, selected) && UrgencyMatch(done, selected)
      ==> Displayed([done, open], query, selected, true) == [done]
  {
    var xs := [done, open];
    var f := Filtered(xs, query, selected);
    assert xs[1..] == [open] && [open][1..] == [];
    if UrgencyMatch(open, selected) && UrgencyMatch(done, selected) {
      assert Filtered([open], query, selected) == [open];
      assert f == [done, open];
      assert f[1..] == [open] && [done][1..] == [];
      assert Filter([open], IsOpen) == [open] && Filter([open], IsDone) == [];
      assert Filter(f, IsOpen) == [open];
      assert Filter(f, IsDone) == [done];
    } else if !UrgencyMatch(open, selected) && UrgencyMatch(done, selected) {
      assert Filtered([open], query, selected) == [];
      assert f == [done];
      assert [done][1..] == [];
      assert Filter(f, IsOpen) == [];
      assert Filter(f, IsDone) == [done];
    }
  }
}
