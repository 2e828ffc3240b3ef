/**
 * One row of the task list: the hover flag, the editing flag and the local
 * drafts of title and description, the urgency label and colour, and the
 * intents the row sends to the list (recorded in the order sent).
 */
module TodoItemComponent {
  import opened Todos

  const UnknownLabel: string := "Неизвестно"
  const UnknownColour: string := "black"

  /** The label shown for an urgency; any value that is not one of the three
      levels gets the "unknown" label. */
  function UrgencyText(urgency: string): (r: string)
    ensures urgency == Urgent ==> r == "Срочно"
    ensures urgency == Medium ==> r == "Средне"
    ensures urgency == NotUrgent ==> r == "Не срочно"
    ensures r == UnknownLabel <==> urgency !in UrgencyLevels
  {
    if urgency == Urgent then "Срочно"
    else if urgency == Medium then "Средне"
    else if urgency == NotUrgent then "Не срочно"
    else UnknownLabel
  }

  /** The colour the label is drawn in; any value that is not one of the
      three levels is drawn in black. */
  function UrgencyColor(urgency: string): (r: string)
    ensures urgency == Urgent ==> r == "red"
    ensures urgency == Medium ==> r == "orange"
    ensures urgency == NotUrgent ==> r == "green"
    ensures r == UnknownColour <==> urgency !in UrgencyLevels
  {
    if urgency == Urgent then "red"
    else if urgency == Medium then "orange"
    else if urgency == NotUrgent then "green"
    else UnknownColour
  }

  /** The three levels get three different labels and three different
      colours, so label and colour each identify the level. */
  lemma UrgencyLookupsInjective(a: string, b: string)
    requires a in UrgencyLevels && b in UrgencyLevels && a != b
    ensures UrgencyText(a) != UrgencyText(b) && UrgencyColor(a) != UrgencyColor(b)
  {
  }

  /** What a row asks the list to do. */
  datatype RowIntent =
    | ToggleIntent(id: int)
    | DeleteIntent(id: int)
    | EditIntent(id: int, title: string, description: string)

  /** The row's state, as one value; `sent` is every intent sent so far. */
  datatype RowState = RowState(
    item: Todo,
    isHovered: bool,
    isEditing: bool,
    title: string,
    description: string,
    sent: seq<RowIntent>)

  /** What the row shows. In view mode: the item's title, the urgency label
      in its colour, and the local description draft (not the item's). In
      edit mode: the two fields holding the drafts, and no urgency label. */
  datatype RowBody =
    | Viewing(title: string, urgencyLabel: string, urgencyColour: string, description: string)
    | Editing(titleField: string, descriptionField: string)

  datatype RowView = RowView(
    checked: bool,
    body: RowBody,
    timestamp: string,
    actionsVisible: bool)

  /** The edit and delete controls are shown only while the pointer is over
      the row and the row is not being edited. */
  predicate ActionsVisible(s: RowState) {
    s.isHovered && !s.isEditing
  }

  /** The row as rendered. */
  function Render(s: RowState): (v: RowView)
    ensures v.body.Editing? <==> s.isEditing
    ensures v.body.Viewing? ==> v.body.title == s.item.title && v.body.description == s.description
    ensures v.body.Editing? ==> v.body.titleField == s.title && v.body.descriptionField == s.description
    ensures v.actionsVisible <==> s.isHovered && !s.isEditing
    ensures v.body.Viewing? ==>
      (v.body.urgencyLabel == UnknownLabel <==> s.item.urgency !in UrgencyLevels)
      && (v.body.urgencyColour == UnknownColour <==> s.item.urgency !in UrgencyLevels)
    ensures v.body.Viewing? ==>
      v.body.urgencyLabel == UrgencyText(s.item.urgency) && v.body.urgencyColour == UrgencyColor(s.item.urgency)
    ensures v.checked == s.item.completed && v.timestamp == s.item.timestamp
  {
    RowView(
      s.item.completed,
      if s.isEditing then Editing(s.title, s.description)
      else Viewing(s.item.title, UrgencyText(s.item.urgency), UrgencyColor(s.item.urgency), s.description),
      s.item.timestamp,
      ActionsVisible(s))
  }

  class TodoItem {
    var item: Todo
    var isHovered: bool
    var isEditing: bool
    var title: string
    var description: string
    var sent: seq<RowIntent>

    function State(): RowState
      reads this
    {
      RowState(item, isHovered, isEditing, title, description, sent)
    }

    /** A new row is in view mode, not hovered, with drafts seeded from the
        item. This is the only place the drafts are seeded. */
    constructor (item: Todo)
      ensures State() == RowState(item, false, false, item.title, item.description, [])
    {
      this.item := item;
      isHovered := false;
      isEditing := false;
      title := item.title;
      description := item.description;
      sent := [];
    }

    /** The parent renders the row again with a (possibly changed) item of the
        same id: the local state is kept. */
    method ReceiveItem(newItem: Todo)
      modifies this
      ensures State() == old(State()).(item := newItem)
    {
      item := newItem;
    }

    /** Enters edit mode and leaves the drafts as they are; they are not
        taken again from the item. Its control is shown only while the
        actions are visible. */
    method HandleEdit()
      requires ActionsVisible(State())
      modifies this
      ensures State() == old(State()).(isEditing := true)
      ensures !ActionsVisible(State())
    {
      isEditing := true;
    }

    /** Sends one edit carrying the item's id and the current drafts, then
        leaves edit mode. Its control is shown only in edit mode. */
    method HandleSave()
      requires isEditing
      modifies this
      ensures State() == old(State()).(isEditing := false,
        sent := old(sent) + [EditIntent(old(item).id, old(title), old(description))])
      ensures ActionsVisible(State()) == isHovered
    {
      sent := sent + [EditIntent(item.id, title, description)];
      isEditing := false;
    }

    /** Typing in the title field of edit mode. */
    method HandleTitleInput(value: string)
      requires isEditing
      modifies this
      ensures State() == old(State()).(title := value)
    {
      title := value;
    }

    /** Typing in the description field of edit mode. */
    method HandleDescriptionInput(value: string)
      requires isEditing
      modifies this
      ensures State() == old(State()).(description := value)
    {
      description := value;
    }

    method HandleMouseEnter()
      modifies this
      ensures State() == old(State()).(isHovered := true)
      ensures ActionsVisible(State()) == !isEditing
    {
      isHovered := true;
    }

    method HandleMouseLeave()
      modifies this
      ensures State() == old(State()).(isHovered := false)
      ensures !ActionsVisible(State())
    {
      isHovered := false;
    }

    /** The checkbox forwards a toggle of this item. */
    method HandleCheckbox()
      modifies this
      ensures State() == old(State()).(sent := old(sent) + [ToggleIntent(old(item).id)])
    {
      sent := sent + [ToggleIntent(item.id)];
    }

    /** The delete control, shown only while the actions are visible,
        forwards a delete of this item. */
    method HandleDeleteClick()
      requires ActionsVisible(State())
      modifies this
      ensures State() == old(State()).(sent := old(sent) + [DeleteIntent(old(item).id)])
    {
      sent := sent + [DeleteIntent(item.id)];
    }
  }
}
