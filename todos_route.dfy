/** The `/api/todos` route handlers. The session, the JSON parse of the
    request body and the user table come in as parameters; the todo table is
    an object the handlers read and append to. */
module TodosRoute {
  import opened Wrappers
  import opened Text
  import opened Seqs

  /** A JavaScript value as `req.json()` produces it. `Undefined` is what
      reading a property the object does not have gives. */
  datatype Value =
    | Undefined
    | Null
    | Bool(b: bool)
    | Num(n: real)
    | Str(s: string)
    | Arr(items: seq<Value>)
    | Obj(fields: map<string, Value>)

  /** JavaScript truthiness. */
  predicate Truthy(v: Value)
    ensures Truthy(v) ==> !v.Undefined? && !v.Null?
    ensures v.Str? ==> (Truthy(v) <==> v.s != "")
    ensures v.Arr? || v.Obj? ==> Truthy(v)
  {
    match v
    case Undefined => false
    case Null => false
    case Bool(b) => b
    case Num(n) => n != 0.0
    case Str(s) => s != ""
    case Arr(_) => true
    case Obj(_) => true
  }

  /** Reading property `name` of a value that is neither null nor undefined. */
  function Property(v: Value, name: string): (r: Value)
    requires !v.Null? && !v.Undefined?
    ensures !r.Undefined? ==> v.Obj? && name in v.fields && r == v.fields[name]
    ensures v.Obj? && name in v.fields ==> r == v.fields[name]
  {
    if v.Obj? && name in v.fields then v.fields[name] else Undefined
  }

  /** What the auth provider returns for a signed-in visitor. */
  datatype Session = Session(email: Option<string>)

  type UserId = string

  /** A stored todo. `id` and `createdAt` are assigned by the store. */
  datatype TodoRow = TodoRow(
    id: nat,
    title: string,
    description: Value,
    deadline: Option<Value>,
    userId: UserId,
    createdAt: int)

  /** The data a POST hands to the store; `deadline` is `Some(v)` for
      `new Date(v)` and `None` for null. */
  datatype NewTodo = NewTodo(title: string, description: Value, deadline: Option<Value>, userId: UserId)

  datatype Response =
    | Message(code: nat, message: string)
    | Created(todo: TodoRow)
    | Listed(todos: seq<TodoRow>)
  {
    function Status(): nat
    {
      match this
      case Message(code, _) => code
      case Created(_) => 201
      case Listed(_) => 200
    }
  }

  const Unauthorized := Message(401, "Unauthorized")
  const InvalidJson := Message(400, "Invalid JSON body")
  const TitleRequired := Message(400, "Title is required")
  const UserNotFound := Message(404, "User not found")
  /** Destructuring a `null` body throws a TypeError that the handler does
      not catch; the framework answers such a handler with a 500. */
  const UncaughtError := Message(500, "Internal Server Error")

  /** The signed-in email, if the session has a non-empty one
      (`!session || !session.user?.email` is the negation). */
  function SignedInEmail(session: Option<Session>): (r: Option<string>)
    ensures r.Some? ==> session.Some? && r == session.value.email && r.value != ""
    ensures r.None? <==> session.None? || session.value.email.None? || session.value.email.value == ""
  {
    if session.Some? && session.value.email.Some? && session.value.email.value != ""
    then session.value.email
    else None
  }

  /** The title check: present, truthy, a string, and not blank once trimmed. */
  predicate TitleOk(title: Value)
    ensures TitleOk(title) <==> title.Str? && !IsBlank(title.s)
  {
    var blank := title.Str? && (TrimEmptyIffBlank(title.s); Trim(title.s) == "");
    !(!Truthy(title) || !title.Str? || blank)
  }

  /** What POST does short of writing: a rejection, or the record to create. */
  datatype Decision = Reject(response: Response) | Accept(data: NewTodo)

  /** POST's checks, in the handler's order: session (401), body parse (400),
      title (400), user lookup (404). `body` is `None` when the body is not
      JSON. */
  function PostDecision(session: Option<Session>, users: map<string, UserId>, body: Option<Value>): (r: Decision)
    ensures r.Accept? <==>
      && SignedInEmail(session).Some?
      && body.Some? && !body.value.Null? && !body.value.Undefined?
      && TitleOk(Property(body.value, "title"))
      && SignedInEmail(session).value in users
    ensures r.Accept? ==>
      var title := Property(body.value, "title");
      var deadline := Property(body.value, "deadline");
      && r.data.title != "" && Trim(r.data.title) == r.data.title
      && r.data.title == Trim(title.s)
      && r.data.description == Property(body.value, "description")
      && (r.data.deadline.None? <==> !Truthy(deadline))
      && (r.data.deadline.Some? ==> r.data.deadline.value == deadline)
      && r.data.userId == users[SignedInEmail(session).value]
    ensures r.Reject? ==> r.response.Status() in {400, 401, 404, 500}
  {
    var email := SignedInEmail(session);
    if email.None? then Reject(Unauthorized)
    else if body.None? then Reject(InvalidJson)
    else if body.value.Null? || body.value.Undefined? then Reject(UncaughtError)
    else
      var title := Property(body.value, "title");
      var description := Property(body.value, "description");
      var deadline := Property(body.value, "deadline");
      if !TitleOk(title) then Reject(TitleRequired)
      else if email.value !in users then Reject(UserNotFound)
      else
        TrimIdempotent(title.s);
        TrimEmptyIffBlank(title.s);
        Accept(NewTodo(Trim(title.s), description, if Truthy(deadline) then Some(deadline) else None, users[email.value]))
  }

  /** Without a signed-in email the answer is 401, whatever the body and the
      user table hold: neither is consulted. */
  lemma UnauthorizedBeforeAnything(session: Option<Session>, users: map<string, UserId>, body: Option<Value>,
                                   users': map<string, UserId>, body': Option<Value>)
    requires SignedInEmail(session).None?
    ensures PostDecision(session, users, body) == PostDecision(session, users', body') == Reject(Unauthorized)
  {
  }

  /** A body that is not JSON gets 400 "Invalid JSON body" whatever the user table holds. */
  lemma InvalidJsonBeforeLookup(session: Option<Session>, users: map<string, UserId>, users': map<string, UserId>)
    requires SignedInEmail(session).Some?
    ensures PostDecision(session, users, None) == PostDecision(session, users', None) == Reject(InvalidJson)
  {
  }

  /** A bad title gets 400 "Title is required" before the user lookup: the
      user table is not consulted. */
  lemma TitleBeforeLookup(session: Option<Session>, users: map<string, UserId>, users': map<string, UserId>, body: Value)
    requires SignedInEmail(session).Some? && !body.Null? && !body.Undefined?
    requires !TitleOk(Property(body, "title"))
    ensures PostDecision(session, users, Some(body)) == PostDecision(session, users', Some(body)) == Reject(TitleRequired)
  {
  }

  /** A whitespace-only title string is refused. */
  lemma BlankTitleRefused(session: Option<Session>, users: map<string, UserId>, fields: map<string, Value>)
    requires SignedInEmail(session).Some?
    requires "title" in fields && fields["title"].Str? && IsBlank(fields["title"].s)
    ensures PostDecision(session, users, Some(Obj(fields))) == Reject(TitleRequired)
  {
    TrimEmptyIffBlank(fields["title"].s);
  }

  /** A signed-in caller with a valid title but no user row gets 404. */
  lemma MissingUserIsNotFound(session: Option<Session>, users: map<string, UserId>, body: Value)
    requires SignedInEmail(session).Some? && SignedInEmail(session).value !in users
    requires !body.Null? && !body.Undefined? && TitleOk(Property(body, "title"))
    ensures PostDecision(session, users, Some(body)) == Reject(UserNotFound)
  {
  }

  function OwnedBy(userId: UserId): TodoRow -> bool
  {
    (r: TodoRow) => r.userId == userId
  }

  function NewestFirst(): TodoRow -> int
  {
    (r: TodoRow) => -r.createdAt
  }

  /** No two rows share an id. */
  ghost predicate UniqueIds(rows: seq<TodoRow>)
  {
    forall i, j :: 0 <= i < j < |rows| ==> rows[i].id != rows[j].id
  }

  /** A row added under a fresh id is listed for its owner exactly once. */
  lemma {:induction false} CreatedListedOnce(rows: seq<TodoRow>, row: TodoRow)
    requires forall i :: 0 <= i < |rows| ==> rows[i].id != row.id
    ensures multiset(Filter(rows + [row], OwnedBy(row.userId)))[row] == 1
  {
    FilterCount(rows + [row], OwnedBy(row.userId), row);
    assert row !in rows;
    assert multiset(rows + [row])[row] == multiset(rows)[row] + 1;
  }

  /** The todo table: its rows, and the id the next row gets. */
  class TodoTable {
    var rows: seq<TodoRow>
    var nextId: nat

    ghost predicate Valid()
      reads this
    {
      && (forall i :: 0 <= i < |rows| ==> rows[i].id < nextId)
      && UniqueIds(rows)
    }

    constructor()
      ensures Valid() && rows == []
    {
      rows := [];
      nextId := 0;
    }

    /** `prisma.todo.create`: appends one row under a fresh id, created `now`. */
    method Create(data: NewTodo, now: int) returns (row: TodoRow)
      requires Valid()
      modifies this
      ensures Valid()
      ensures row == TodoRow(old(nextId), data.title, data.description, data.deadline, data.userId, now)
      ensures forall i :: 0 <= i < |old(rows)| ==> old(rows)[i].id != row.id
      ensures rows == old(rows) + [row]
    {
      row := TodoRow(nextId, data.title, data.description, data.deadline, data.userId, now);
      rows := rows + [row];
      nextId := nextId + 1;
    }
  }

  /** GET /api/todos: the caller's rows, newest first; the table is only read. */
  method Get(session: Option<Session>, users: map<string, UserId>, table: TodoTable) returns (resp: Response)
    ensures SignedInEmail(session).None? ==> resp == Unauthorized
    ensures SignedInEmail(session).Some? && SignedInEmail(session).value !in users ==> resp == UserNotFound
    ensures SignedInEmail(session).Some? && SignedInEmail(session).value in users ==>
      var owner := users[SignedInEmail(session).value];
      && resp.Listed? && resp.Status() == 200
      && multiset(resp.todos) == multiset(Filter(table.rows, OwnedBy(owner)))
      && (forall r :: r in resp.todos <==> r in table.rows && r.userId == owner)
      && (forall i, j :: 0 <= i < j < |resp.todos| ==> resp.todos[i].createdAt >= resp.todos[j].createdAt)
  {
    var email := SignedInEmail(session);
    if email.None? {
      return Unauthorized;
    }
    if email.value !in users {
      return UserNotFound;
    }
    var owner := users[email.value];
    var owned := Filter(table.rows, OwnedBy(owner));
    var listed := SortByKey(owned, NewestFirst());
    forall r ensures r in listed <==> r in table.rows && r.userId == owner {
      FilterCount(table.rows, OwnedBy(owner), r);
    }
    forall i, j | 0 <= i < j < |listed| ensures listed[i].createdAt >= listed[j].createdAt {
      assert NewestFirst()(listed[i]) <= NewestFirst()(listed[j]);
    }
    resp := Listed(listed);
  }

  /** POST /api/todos: on acceptance one row is appended and returned with
      201; every rejection leaves the table as it was. */
  method Post(session: Option<Session>, users: map<string, UserId>, body: Option<Value>, table: TodoTable, now: int)
    returns (resp: Response)
    requires table.Valid()
    modifies table
    ensures table.Valid()
    ensures var d := PostDecision(session, users, body);
      && (d.Reject? ==> resp == d.response && table.rows == old(table.rows) && table.nextId == old(table.nextId))
      && (d.Accept? ==>
            && resp == Created(TodoRow(old(table.nextId), d.data.title, d.data.description, d.data.deadline, d.data.userId, now))
            && table.rows == old(table.rows) + [resp.todo])
  {
    var decision := PostDecision(session, users, body);
    if decision.Reject? {
      resp := decision.response;
    } else {
      var row := table.Create(decision.data, now);
      resp := Created(row);
    }
  }
}
