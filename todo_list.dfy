/**
 * The task-list component: the collection of tasks, the draft of the next
 * task, the display filters and the last validation error, and the handlers
 * that change them. Each handler is one atomic state change.
 */
module TodoListComponent {
  import opened Text
  import opened Todos
  import opened TodoView
  import opened TodoItemComponent

  /** Shown when an add is attempted with a blank title. */
  const EmptyTitleError: string := "Название задачи не может быть пустым."

  /** The component's state, as one value. */
  datatype ListState = ListState(
    todos: seq<Todo>,
    title: string,
    description: string,
    showCompleted: bool,
    searchQuery: string,
    selectedUrgency: Option<string>,
    currentUrgency: string,
    errorMessage: string)

  const InitialState: ListState :=
    ListState([], "", "", true, "", None, Medium, "")

  /** The add handler. A title that is blank after trimming leaves the tasks
      and the draft as they are and records the error. Otherwise one task is
      appended (trimmed title, draft description, open, draft urgency, the
      clock reading as id) and the draft and the error are reset. */
  function Add(s: ListState, now: int, stamp: string): (r: ListState)
    ensures r.showCompleted == s.showCompleted && r.searchQuery == s.searchQuery
         && r.selectedUrgency == s.selectedUrgency
    ensures AllWhitespace(s.title) ==>
      r.todos == s.todos && r.title == s.title && r.description == s.description
      && r.currentUrgency == s.currentUrgency && r.errorMessage != ""
    ensures !AllWhitespace(s.title) ==>
      |r.todos| == |s.todos| + 1 && r.todos[..|s.todos|] == s.todos
      && r.todos[|s.todos|] == Todo(now, Trim(s.title), s.description, false, s.currentUrgency, stamp)
      && r.todos[|s.todos|].title != ""
      && r.title == "" && r.description == "" && r.errorMessage == "" && r.currentUrgency == Medium
  {
    var trimmed := Trim(s.title);
    if trimmed == "" then
      s.(errorMessage := EmptyTitleError)
    else
      var added := Todo(now, trimmed, s.description, false, s.currentUrgency, stamp);
      s.(todos := s.todos + [added], title := "", description := "", errorMessage := "",
         currentUrgency := Medium)
  }

  /** The bulk handler: appends a generated batch after the existing tasks
      and changes nothing else. */
  function AddBulk(s: ListState, clock: seq<int>, picks: seq<nat>, stamps: seq<string>): (r: ListState)
    requires |clock| == |picks| == |stamps| == BulkCount
    requires forall i :: 0 <= i < |picks| ==> picks[i] < |UrgencyLevels|
    ensures r == s.(todos := s.todos + BulkTodos(clock, picks, stamps))
    ensures |r.todos| == |s.todos| + BulkCount && r.todos[..|s.todos|] == s.todos
    ensures forall i :: 0 <= i < BulkCount ==>
      var t := r.todos[|s.todos| + i];
      t.id == clock[i] + i && t.title == BulkTitle(i) && !t.completed && t.urgency in UrgencyLevels
  {
    var batch := BulkTodos(clock, picks, stamps);
    var r := s.(todos := s.todos + batch);
    assert forall i :: 0 <= i < BulkCount ==> r.todos[|s.todos| + i] == batch[i];
    r
  }

  /** The list handler a row intent is wired to. */
  function ApplyIntent(todos: seq<Todo>, intent: RowIntent): (r: seq<Todo>)
    ensures !intent.DeleteIntent? ==> |r| == |todos|
    ensures intent.DeleteIntent? ==> forall t :: t in r <==> t in todos && t.id != intent.id
  {
    match intent
    case ToggleIntent(id) => ToggleById(todos, id)
    case DeleteIntent(id) => DeleteById(todos, id)
    case EditIntent(id, newTitle, newDescription) => EditById(todos, id, newTitle, newDescription)
  }

  /** Ids come from the clock, so they can collide: after a bulk add that
      read `base` throughout, an add at any time within the next second
      (`base + k`, `k < 1000`) gets the id of bulk task `k`. */
  lemma AddAfterBulkCollides(s: ListState, base: int, k: nat, picks: seq<nat>, stamps: seq<string>, stamp: string)
    requires |picks| == |stamps| == BulkCount
    requires forall i :: 0 <= i < |picks| ==> picks[i] < |UrgencyLevels|
    requires k < BulkCount
    requires !AllWhitespace(s.title)
    ensures var clock := seq(BulkCount, _ => base);
      !UniqueIds(Add(AddBulk(s, clock, picks, stamps), base + k, stamp).todos)
  {
    var clock := seq(BulkCount, _ => base);
    var b := AddBulk(s, clock, picks, stamps);
    var r := Add(b, base + k, stamp);
    assert r.todos[|s.todos| + k].id == base + k;
    assert r.todos[|b.todos|].id == base + k;
  }

  /** Every task and the draft carry one of the three urgency levels. */
  predicate UrgenciesKnown(s: ListState) {
    s.currentUrgency in UrgencyLevels && forall t :: t in s.todos ==> t.urgency in UrgencyLevels
  }

  /** Adding keeps every urgency a known level. */
  lemma AddKeepsUrgenciesKnown(s: ListState, now: int, stamp: string)
    requires UrgenciesKnown(s)
    ensures UrgenciesKnown(Add(s, now, stamp))
  {
  }

  /** A bulk add keeps every urgency a known level. */
  lemma AddBulkKeepsUrgenciesKnown(s: ListState, clock: seq<int>, picks: seq<nat>, stamps: seq<string>)
    requires |clock| == |picks| == |stamps| == BulkCount
    requires forall i :: 0 <= i < |picks| ==> picks[i] < |UrgencyLevels|
    requires UrgenciesKnown(s)
    ensures UrgenciesKnown(AddBulk(s, clock, picks, stamps))
  {
  }

  /** When every urgency is a known level, no displayed task falls back to
      the "unknown" label or the black colour. */
  lemma KnownUrgenciesHaveLabels(s: ListState)
    requires UrgenciesKnown(s)
    ensures forall t :: t in Displayed(s.todos, s.searchQuery, s.selectedUrgency, s.showCompleted) ==>
      UrgencyText(t.urgency) != UnknownLabel && UrgencyColor(t.urgency) != UnknownColour
  {
    forall t | t in Displayed(s.todos, s.searchQuery, s.selectedUrgency, s.showCompleted)
      ensures t.urgency in UrgencyLevels
    {
      DisplayedMembers(s.todos, s.searchQuery, s.selectedUrgency, s.showCompleted, t);
    }
  }

  class TodoList {
    var todos: seq<Todo>
    var title: string
    var description: string
    var showCompleted: bool
    var searchQuery: string
    var selectedUrgency: Option<string>
    var currentUrgency: string
    var errorMessage: string

    function State(): ListState
      reads this
    {
      ListState(todos, title, description, showCompleted, searchQuery, selectedUrgency,
                currentUrgency, errorMessage)
    }

    /** The urgency selector offers only the three levels, and every way a
        task is created or changed keeps its urgency one of them. */
    ghost predicate Valid()
      reads this
    {
      UrgenciesKnown(State())
    }

    /** The tasks the component displays for its current state. None of
        them is labelled with the fallback "unknown" urgency. */
    function DisplayedTodos(): (d: seq<Todo>)
      reads this
      requires Valid()
      ensures forall t :: t in d ==> UrgencyText(t.urgency) != UnknownLabel
    {
      KnownUrgenciesHaveLabels(State());
      Displayed(todos, searchQuery, selectedUrgency, showCompleted)
    }

    constructor ()
      ensures Valid() && State() == InitialState
    {
      todos := [];
      title := "";
      description := "";
      showCompleted := true;
      searchQuery := "";
      selectedUrgency := None;
      currentUrgency := Medium;
      errorMessage := "";
    }

    /** `now` is the clock reading and `stamp` the formatted date and time
        taken while the task is built. */
    method HandleAdd(now: int, stamp: string)
      requires Valid()
      modifies this
      ensures Valid() && State() == Add(old(State()), now, stamp)
    {
      ghost var before := State();
      ghost var after := Add(before, now, stamp);
      AddKeepsUrgenciesKnown(before, now, stamp);
      var trimmed := Trim(title);
      if trimmed == "" {
        assert after == before.(errorMessage := EmptyTitleError);
        errorMessage := EmptyTitleError;
        assert State() == after;
        return;
      }
      var added := Todo(now, trimmed, description, false, currentUrgency, stamp);
      ghost var expected := ListState(before.todos + [added], "", "", before.showCompleted,
                                      before.searchQuery, before.selectedUrgency, Medium, "");
      assert after == expected;
      todos := todos + [added];
      title := "";
      description := "";
      errorMessage := "";
      currentUrgency := Medium;
      assert State() == expected;
    }

    /** `clock[i]`, `picks[i]` and `stamps[i]` are the clock reading, the
        urgency index drawn and the timestamp taken for task `i`. */
    method HandleCreateBulkTodos(clock: seq<int>, picks: seq<nat>, stamps: seq<string>)
      requires Valid()
      requires |clock| == |picks| == |stamps| == BulkCount
      requires forall i :: 0 <= i < |picks| ==> picks[i] < |UrgencyLevels|
      modifies this
      ensures Valid() && State() == AddBulk(old(State()), clock, picks, stamps)
    {
      AddBulkKeepsUrgenciesKnown(State(), clock, picks, stamps);
      todos := todos + BulkTodos(clock, picks, stamps);
    }

    method HandleToggle(id: int)
      requires Valid()
      modifies this
      ensures Valid() && State() == old(State()).(todos := ToggleById(old(todos), id))
    {
      todos := ToggleById(todos, id);
    }

    method HandleDelete(id: int)
      requires Valid()
      modifies this
      ensures Valid() && State() == old(State()).(todos := DeleteById(old(todos), id))
    {
      todos := DeleteById(todos, id);
    }

    /** Flips whether completed tasks are displayed; applying it twice
        restores the flag. */
    method HandleFilter()
      requires Valid()
      modifies this
      ensures Valid() && State() == old(State()).(showCompleted := !old(showCompleted))
    {
      showCompleted := !showCompleted;
    }

    method HandleEdit(id: int, newTitle: string, newDescription: string)
      requires Valid()
      modifies this
      ensures Valid()
      ensures State() == old(State()).(todos := EditById(old(todos), id, newTitle, newDescription))
    {
      todos := EditById(todos, id, newTitle, newDescription);
    }

    /** Stores the search text as typed, untrimmed. */
    method HandleSearch(query: string)
      requires Valid()
      modifies this
      ensures Valid() && State() == old(State()).(searchQuery := query)
    {
      searchQuery := query;
    }

    /** Selects an urgency filter, lower-cased. The filter is always set
        afterwards: no handler clears it. */
    method HandleUrgencyChange(urgency: string)
      requires Valid()
      modifies this
      ensures Valid() && State() == old(State()).(selectedUrgency := Some(ToLower(urgency)))
      ensures selectedUrgency.Some?
    {
      selectedUrgency := Some(ToLower(urgency));
    }

    /** Receives an intent sent by one of the displayed rows. */
    method HandleRowIntent(intent: RowIntent)
      requires Valid()
      modifies this
      ensures Valid() && State() == old(State()).(todos := ApplyIntent(old(todos), intent))
    {
      match intent
      case ToggleIntent(id) => HandleToggle(id);
      case DeleteIntent(id) => HandleDelete(id);
      case EditIntent(id, newTitle, newDescription) => HandleEdit(id, newTitle, newDescription);
    }

    /** Typing in the title field. */
    method HandleTitleChange(value: string)
      requires Valid()
      modifies this
      ensures Valid() && State() == old(State()).(title := value)
    {
      title := value;
    }

    /** Typing in the description field. */
    method HandleDescriptionChange(value: string)
      requires Valid()
      modifies this
      ensures Valid() && State() == old(State()).(description := value)
    {
      description := value;
    }

    /** Choosing an option of the urgency selector, whose options are the
        three levels. */
    method HandleCurrentUrgencyChange(value: string)
      requires Valid()
      requires value in UrgencyLevels
      modifies this
      ensures Valid() && State() == old(State()).(currentUrgency := value)
    {
      currentUrgency := value;
    }
  }
}
