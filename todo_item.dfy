/** One row of the list (`TodoItem`): the edit drafts seeded from the todo,
    the save payload, and the switch between showing and editing. */
module TodoItemComponent {
  import opened Wrappers
  import opened Text
  import opened UseTodos

  /** The three draft fields of the edit form. */
  datatype Draft = Draft(title: string, description: string, deadline: string)

  /** The drafts a fresh item starts with: the title, the description or ""
      when null, and the date part (first 10 characters) of a non-empty
      deadline or "". */
  function SeedDraft(todo: Todo): (d: Draft)
    ensures d.title == todo.title
    ensures d.description == todo.description.GetOr("")
    ensures |d.deadline| <= 10
    ensures todo.deadline.Some? && todo.deadline.value.text != "" ==>
      d.deadline == Prefix(todo.deadline.value.text, 10) && d.deadline <= todo.deadline.value.text && d.deadline != ""
    ensures !(todo.deadline.Some? && todo.deadline.value.text != "") ==> d.deadline == ""
  {
    Draft(
      todo.title,
      todo.description.GetOr(""),
      if todo.deadline.Some? && todo.deadline.value.text != "" then Prefix(todo.deadline.value.text, 10) else "")
  }

  /** The payload `handleSave` passes to `onEdit`: title and description as
      typed (untrimmed), the deadline or null when empty, and never a status. */
  function SavePayload(d: Draft): (p: TodoPatch)
    ensures p.status.None?
    ensures p.title == Some(d.title) && p.description == Some(Some(d.description))
    ensures p.deadline.Some? && (p.deadline.value.None? <==> d.deadline == "")
    ensures p.deadline.value.Some? ==> p.deadline.value.value == d.deadline
  {
    TodoPatch(Some(d.title), Some(Some(d.description)), None, Some(if d.deadline == "" then None else Some(d.deadline)))
  }

  /** Saving without editing sends the todo's own title, its description with
      null turned into "", and its deadline cut to the date part (null when
      it had none); the status is left alone. */
  lemma UneditedSave(todo: Todo)
    ensures var p := SavePayload(SeedDraft(todo));
      && p.title == Some(todo.title)
      && p.description == Some(Some(todo.description.GetOr("")))
      && p.status.None?
      && (p.deadline == Some(None) <==> todo.deadline.None? || todo.deadline.value.text == "")
      && (p.deadline.value.Some? ==> p.deadline.value.value == Prefix(todo.deadline.value.text, 10))
  {
  }

  class TodoItem {
    const todo: Todo
    var isEditing: bool
    var title: string
    var description: string
    var deadline: string

    function Drafts(): Draft
      reads this
    {
      Draft(title, description, deadline)
    }

    constructor(todo: Todo)
      ensures this.todo == todo && !isEditing && Drafts() == SeedDraft(todo)
    {
      this.todo := todo;
      isEditing := false;
      var d := SeedDraft(todo);
      title, description, deadline := d.title, d.description, d.deadline;
    }

    /** The edit button. */
    method Edit()
      modifies this
      ensures isEditing && Drafts() == old(Drafts())
    {
      isEditing := true;
    }

    /** The cancel button: leaves edit mode, calls nothing and keeps the drafts. */
    method Cancel()
      modifies this
      ensures !isEditing && Drafts() == old(Drafts())
    {
      isEditing := false;
    }

    /** `handleSave`: calls `onEdit(todo.id, payload)`; edit mode ends only
        once `onEdit` has resolved (`saved`), and the drafts stay as typed. */
    method HandleSave(saved: bool) returns (id: string, payload: TodoPatch)
      modifies this
      ensures id == todo.id && payload == SavePayload(old(Drafts()))
      ensures isEditing == (if saved then false else old(isEditing))
      ensures Drafts() == old(Drafts())
    {
      id, payload := todo.id, SavePayload(Drafts());
      if saved {
        isEditing := false;
      }
    }
  }
}
