/** The create form (`TodoForm`): three text fields and the submit handler
    that guards on a blank title, normalises the fields, calls `onCreate`
    and clears the fields once it has resolved. */
module TodoFormComponent {
  import opened Wrappers
  import opened Text
  import TodosRoute

  /** What `onCreate` receives. */
  datatype CreateTodoInput = CreateTodoInput(title: string, description: Option<string>, deadline: Option<string>)

  /** The payload `handleSubmit` passes to `onCreate`, or `None` when the
      blank-title guard returns early. The title is sent trimmed, the
      description trimmed or null when nothing is left, the deadline as typed
      or null when empty. */
  function SubmitPayload(title: string, description: string, deadline: string): (r: Option<CreateTodoInput>)
    ensures r.None? <==> IsBlank(title)
    ensures r.Some? ==>
      && r.value.title == Trim(title) && r.value.title != ""
      && (r.value.description.None? <==> IsBlank(description))
      && (r.value.description.Some? ==> r.value.description.value == Trim(description))
      && (r.value.deadline.None? <==> deadline == "")
      && (r.value.deadline.Some? ==> r.value.deadline.value == deadline)
  {
    TrimEmptyIffBlank(title);
    TrimEmptyIffBlank(description);
    if Trim(title) == "" then None
    else
      Some(CreateTodoInput(
        Trim(title),
        if Trim(description) == "" then None else Some(Trim(description)),
        if deadline == "" then None else Some(deadline)))
  }

  /** The request body `createTodo` sends for a payload, as the server parses it. */
  function AsJson(p: CreateTodoInput): (r: TodosRoute.Value)
    ensures r.Obj?
    ensures TodosRoute.Property(r, "title") == TodosRoute.Str(p.title)
    ensures TodosRoute.Property(r, "description") == if p.description.Some? then TodosRoute.Str(p.description.value) else TodosRoute.Null
    ensures TodosRoute.Property(r, "deadline") == if p.deadline.Some? then TodosRoute.Str(p.deadline.value) else TodosRoute.Null
  {
    TodosRoute.Obj(map[
      "title" := TodosRoute.Str(p.title),
      "description" := if p.description.Some? then TodosRoute.Str(p.description.value) else TodosRoute.Null,
      "deadline" := if p.deadline.Some? then TodosRoute.Str(p.deadline.value) else TodosRoute.Null])
  }

  /** Whatever the form submits passes the server's checks for a signed-in
      user with an account: the stored title is the one the form sent, and
      the stored deadline is null exactly when the field was left empty. */
  lemma SubmittedFormIsAccepted(title: string, description: string, deadline: string,
                                session: Option<TodosRoute.Session>, users: map<string, TodosRoute.UserId>)
    requires SubmitPayload(title, description, deadline).Some?
    requires TodosRoute.SignedInEmail(session).Some? && TodosRoute.SignedInEmail(session).value in users
    ensures var d := TodosRoute.PostDecision(session, users, Some(AsJson(SubmitPayload(title, description, deadline).value)));
      && d.Accept?
      && d.data.title == SubmitPayload(title, description, deadline).value.title
      && (d.data.deadline.None? <==> deadline == "")
  {
    var p := SubmitPayload(title, description, deadline).value;
    var body := AsJson(p);
    TrimIdempotent(title);
    assert TodosRoute.Property(body, "title") == TodosRoute.Str(p.title);
    assert TodosRoute.Property(body, "deadline") == if p.deadline.Some? then TodosRoute.Str(deadline) else TodosRoute.Null;
  }

  /** How a submit ends: the guard returned early, or `onCreate` was called
      with a payload and resolved or threw. */
  datatype SubmitOutcome = Skipped | Resolved(sent: CreateTodoInput) | Rejected(sent: CreateTodoInput)

  class TodoForm {
    var title: string
    var description: string
    var deadline: string

    constructor()
      ensures title == "" && description == "" && deadline == ""
    {
      title, description, deadline := "", "", "";
    }

    /** `handleSubmit`; `created` says whether `onCreate` resolves. */
    method HandleSubmit(created: bool) returns (outcome: SubmitOutcome)
      modifies this
      ensures var p := SubmitPayload(old(title), old(description), old(deadline));
        && (p.None? ==> outcome == Skipped && unchanged(this))
        && (p.Some? && created ==> outcome == Resolved(p.value) && title == "" && description == "" && deadline == "")
        && (p.Some? && !created ==> outcome == Rejected(p.value) && unchanged(this))
    {
      var payload := SubmitPayload(title, description, deadline);
      if payload.None? {
        return Skipped;
      }
      if !created {
        return Rejected(payload.value);
      }
      title := "";
      description := "";
      deadline := "";
      outcome := Resolved(payload.value);
    }
  }
}
