/** The status toggle the home page wires to a click on a todo. */
module Page {
  import opened Wrappers
  import opened UseTodos

  /** DONE goes back to TODO; anything else becomes DONE. */
  function ToggledStatus(s: TodoStatus): (r: TodoStatus)
    ensures r != DOING && r != s
    ensures r == TODO <==> s == DONE
  {
    if s == DONE then TODO else DONE
  }

  /** The update a click sends: the toggled status and nothing else. */
  function TogglePatch(todo: Todo): (p: TodoPatch)
    ensures p.title.None? && p.description.None? && p.deadline.None?
    ensures p.status == Some(ToggledStatus(todo.status))
  {
    TodoPatch(None, None, Some(ToggledStatus(todo.status)), None)
  }

  /** Two clicks bring TODO and DONE back; DOING lands on TODO. */
  lemma ToggleTwice(s: TodoStatus)
    ensures ToggledStatus(ToggledStatus(s)) == if s == DOING then TODO else s
  {
  }
}
