# Todo app core, modelled in Dafny

A model of the logic of a small Next.js todo app: the client hook that holds a
signed-in user's todo list and derives the filtered, sorted view of it; the
`/api/todos` route that lists a user's todos and creates new ones; the create
form's submit handler; and the inline editor of one todo.

| file | module | models |
|---|---|---|
| `wrappers.dfy` | `Wrappers` | `Option`, for the nullable fields |
| `text.dfy` | `Text` | `trim`, ASCII `toLowerCase`, `includes`, `slice(0, n)` |
| `seqs.dfy` | `Seqs` | `Array.prototype.filter` and the stable `Array.prototype.sort` with a numeric comparator |
| `use_todos.dfy` | `UseTodos` | `src/hooks/useTodos.ts`: the types, `visibleTodos`, and the list state as class `TodosHook` |
| `todos_route.dfy` | `TodosRoute` | `src/app/api/todos/route.ts`: POST's checks as `PostDecision`, the todo table as class `TodoTable`, the handlers `Get` and `Post` |
| `todo_form.dfy` | `TodoFormComponent` | `src/components/TodoForm.tsx`: class `TodoForm` and its submit payload |
| `todo_item.dfy` | `TodoItemComponent` | `src/components/TodoItem.tsx`: class `TodoItem`, its seeded drafts and save payload |
| `page.dfy` | `Page` | the status toggle of `src/app/page.tsx` |

Modelling choices:

- Dates are integer millisecond timestamps. A client deadline is a `DateText`:
  the ISO text the API sends (which the editor cuts to its first 10
  characters) and the timestamp `new Date` reads from it. `createdAt` is
  always present.
- Every server call the client makes is a parameter, a `Reply`. It is either
  a response with `res.ok` and its parsed body, a response without `res.ok`,
  or a rejected `fetch` with its error message. `onCreate` and `onEdit` are
  a flag saying whether the promise resolved.
- On the server, the session, the parsed body (`None` when it is not JSON)
  and the user table (email to user id) are parameters. The todo table is an
  object whose rows the handlers read and append to. The store gives each
  row the next number as its id and the `now` parameter as its creation time.
- A descending sort is modelled as the stable ascending sort on the negated
  key. A stable sort with comparator `b - a` keeps ties in input order, and
  so does this. Reversing an ascending sort would not.
- A todo with no deadline (null or "") sorts as if due at the epoch, as the
  code has it. In ascending deadline order it comes after todos due before
  1970 and before all later ones (`UndatedAtEpoch`).

Behaviour of the code worth knowing, which the model keeps as written:

- A POST body that is the JSON value `null` is answered 500, not 400. The
  destructuring of `body` throws, the handler does not catch it, and the
  framework answers 500.
- POST does not reject a deadline that does not parse. Any truthy value is
  passed to `new Date`, and a falsy one is stored as null.
- `deleteTodo` restores its snapshot only when a response arrives without
  `res.ok`. When the `fetch` itself is rejected (a network error), it throws
  with the todo still removed from the local list (`DeleteTodo`, the
  `Rejected` case).
- Neither the default `status` nor `createdAt` of a new row is asserted. Both
  come from the database schema, which is not part of this model.

## Model

| member | source | states |
|---|---|---|
| `Text.TrimStartSpec` | src/app/api/todos/route.ts:61 | trimming the front keeps a suffix that does not start with whitespace; everything cut off is whitespace |
| `Text.TrimEndSpec` | src/app/api/todos/route.ts:61 | trimming the end keeps a prefix that does not end with whitespace; everything cut off is whitespace |
| `Text.TrimSpec` | src/app/api/todos/route.ts:79-81 | `trim()` returns the slice between a blank prefix and a blank suffix, with no whitespace at either end |
| `Text.TrimIdempotent` | src/components/TodoForm.tsx:27-30 | trimming an already trimmed title changes nothing |
| `Text.TrimEmptyIffBlank` | src/components/TodoForm.tsx:27 | a string trims to "" exactly when every character is whitespace |
| `Text.Trim` | src/app/api/todos/route.ts:61 | `trim()` is no longer than its input and neither starts nor ends with whitespace |
| `Text.Contains` | src/hooks/useTodos.ts:136-137 | `includes` finds the empty string in every string, and never a query longer than the text |
| `Text.Lower` | src/hooks/useTodos.ts:133-137 | lower-casing keeps the length and lower-cases each character on its own |
| `Text.LowerIdempotent` | src/hooks/useTodos.ts:133-137 | lower-casing twice is lower-casing once |
| `Text.Prefix` | src/components/TodoItem.tsx:25-27 | `slice(0, n)` is a prefix of length `min(n, |s|)` |
| `Seqs.Filter` | src/hooks/useTodos.ts:134-142 | `filter` keeps exactly the elements that pass, and nothing new |
| `Seqs.FilterIsSubsequence` | src/hooks/useTodos.ts:115 | `filter` keeps the relative order of what it keeps |
| `Seqs.FilterCount` | src/hooks/useTodos.ts:134-143 | `filter` keeps every copy of an element that passes and none of one that fails |
| `Seqs.FilterCongruent` | src/hooks/useTodos.ts:134-138 | two filters whose tests agree everywhere give the same list |
| `Seqs.FilterFilter` | src/hooks/useTodos.ts:132-143 | filtering twice is filtering once by the conjunction |
| `Seqs.FilterAll` | src/hooks/useTodos.ts:132 | a filter that keeps everything returns its input |
| `Seqs.Insert` | src/hooks/useTodos.ts:145-167 | inserting into a sorted list gives a sorted list holding one more copy of the element |
| `Seqs.SortByKey` | src/hooks/useTodos.ts:145-167 | `sort` with comparator `key(a) - key(b)` returns a permutation whose keys never decrease |
| `Seqs.InsertWithKey` | src/hooks/useTodos.ts:145-167 | an inserted element goes in front of its whole tie class |
| `Seqs.SortStable` | src/hooks/useTodos.ts:145-167 | the sort is stable: each tie class keeps its input order |
| `UseTodos.DeadlineTime` | src/hooks/useTodos.ts:154 | `+new Date(deadline \|\| 0)`: 0 for a null or empty deadline, else the deadline's timestamp |
| `UseTodos.Rank` | src/hooks/useTodos.ts:145-166 | the key of each sort order: `createdAt` or the deadline time, negated for the descending orders |
| `UseTodos.MatchesSearch` | src/hooks/useTodos.ts:132-138 | an empty query matches; a title containing the lower-cased query matches; a todo with a null description matches exactly when its title does |
| `UseTodos.Keeps` | src/hooks/useTodos.ts:132-143 | an empty query with `ALL` keeps everything; a kept todo matches the search and, under a status choice, has that status |
| `UseTodos.Visible` | src/hooks/useTodos.ts:129-170 | `visibleTodos` is a permutation of the filtered list, sorted by the chosen key |
| `UseTodos.KeptIsOneFilter` | src/hooks/useTodos.ts:130-143 | the search stage and the status stage together are one filter by their conjunction; an empty query and `ALL` keep everything |
| `UseTodos.VisibleCount` | src/hooks/useTodos.ts:130-169 | the view holds a todo as often as the list does when the filters keep it, and not at all otherwise; membership is "stored and kept" |
| `UseTodos.VisibleSubMultiset` | src/hooks/useTodos.ts:130-169 | the view is a permutation of a sub-multiset of the stored list |
| `UseTodos.VisibleOrder` | src/hooks/useTodos.ts:145-167 | `createdAt_asc` gives non-decreasing `createdAt`, the default `createdAt_desc` non-increasing; `deadline_asc`/`deadline_desc` order by `deadline || 0` up or down |
| `UseTodos.UndatedAtEpoch` | src/hooks/useTodos.ts:152-161 | a todo without a deadline ranks at the epoch: in ascending order only todos due at or before the epoch precede it, in descending order only those follow it |
| `UseTodos.VisibleStable` | src/hooks/useTodos.ts:130-167 | todos that tie on the sort key keep their order from the filtered list, which keeps the stored list's order |
| `UseTodos.DefaultFilterShowsAll` | src/hooks/useTodos.ts:26-30 | the default filter shows every todo, newest first |
| `UseTodos.SearchIgnoresCase` | src/hooks/useTodos.ts:133 | two queries that lower-case alike give the same view |
| `UseTodos.SearchExample` | src/hooks/useTodos.ts:132-139 | searching "foo" over "Foo bar", "baz", "FOOD" keeps "Foo bar" and "FOOD" |
| `UseTodos.ReplaceById` | src/hooks/useTodos.ts:104 | the update keeps length and positions; each todo with the id becomes the server's copy, every other is unchanged |
| `UseTodos.ReplaceByIdIdempotent` | src/hooks/useTodos.ts:104 | applying the same update twice is applying it once |
| `UseTodos.RemoveById` | src/hooks/useTodos.ts:115 | after a delete no todo has the id |
| `UseTodos.RemoveByIdKeepsOthers` | src/hooks/useTodos.ts:115 | a delete keeps every todo with another id, as often as before and in relative order |
| `UseTodos.TodosHook.constructor` | src/hooks/useTodos.ts:32-36 | the hook starts with an empty list and the default filter |
| `UseTodos.TodosHook.VisibleTodos` | src/hooks/useTodos.ts:129-170 | the derived view changes nothing, is a sub-multiset of the list, and holds exactly the stored todos the filter keeps |
| `UseTodos.TodosHook.SetFilter` | src/hooks/useTodos.ts:36 | replacing the filter leaves the list alone |
| `UseTodos.TodosHook.FetchTodos` | src/hooks/useTodos.ts:41-58 | disabled, the list becomes empty; enabled, it becomes the server's list, or stays as it was when the response is not ok or the request is rejected |
| `UseTodos.TodosHook.CreateTodo` | src/hooks/useTodos.ts:73-82 | on success the created todo is prepended and the rest is unchanged; otherwise it throws ("Create todo failed", or the network error) and nothing changes |
| `UseTodos.TodosHook.UpdateTodo` | src/hooks/useTodos.ts:95-104 | on success the list is `ReplaceById` of the old one; otherwise it throws before any change |
| `UseTodos.TodosHook.DeleteTodo` | src/hooks/useTodos.ts:114-121 | on success the list is `RemoveById` of the old one; a response without `res.ok` restores the snapshot exactly and throws; a rejected request throws with the todo still removed |
| `TodosRoute.Truthy` | src/app/api/todos/route.ts:61 | JavaScript truthiness: null and undefined are falsy, a string is truthy exactly when non-empty, arrays and objects are truthy |
| `TodosRoute.Property` | src/app/api/todos/route.ts:59 | destructuring reads an object's own field, and undefined for anything else |
| `TodosRoute.SignedInEmail` | src/app/api/todos/route.ts:14 | a caller is signed in exactly when there is a session with a non-empty email, which is then the email used |
| `TodosRoute.TitleOk` | src/app/api/todos/route.ts:61 | the title passes exactly when it is a string that is not all whitespace |
| `TodosRoute.PostDecision` | src/app/api/todos/route.ts:42-88 | POST accepts exactly a signed-in caller with a parseable non-null body, a valid title and a user row; the record then has the trimmed, non-empty title, the body's description, a null deadline exactly when the given one is falsy, and the caller's user id; every rejection is 400, 401, 404 or 500 |
| `TodosRoute.UnauthorizedBeforeAnything` | src/app/api/todos/route.ts:45-47 | without a signed-in email POST answers 401 whatever the body and the user table |
| `TodosRoute.InvalidJsonBeforeLookup` | src/app/api/todos/route.ts:49-57 | a body that is not JSON gets 400 "Invalid JSON body" whatever the user table |
| `TodosRoute.TitleBeforeLookup` | src/app/api/todos/route.ts:61-66 | a missing, falsy, non-string or blank title gets 400 "Title is required" before the user lookup |
| `TodosRoute.BlankTitleRefused` | src/app/api/todos/route.ts:61 | a whitespace-only title string is refused with 400 |
| `TodosRoute.MissingUserIsNotFound` | src/app/api/todos/route.ts:68-77 | a valid request from an email without a user row gets 404 |
| `TodosRoute.CreatedListedOnce` | src/app/api/todos/route.ts:30-33 | a row added under a fresh id appears exactly once among its owner's rows |
| `TodosRoute.TodoTable.constructor` | src/app/api/todos/route.ts:79-86 | the table starts empty with unique ids |
| `TodosRoute.TodoTable.Create` | src/app/api/todos/route.ts:79-86 | create appends exactly one row with a fresh id and the given data; ids stay unique |
| `TodosRoute.Get` | src/app/api/todos/route.ts:11-36 | GET answers 401 without a session, 404 without a user row, else 200 with exactly the caller's rows, newest first, leaving the table untouched |
| `TodosRoute.Post` | src/app/api/todos/route.ts:42-89 | a rejected POST returns its error and leaves the rows and the id counter as they were; an accepted one appends exactly one row and returns it with 201 |
| `TodoFormComponent.SubmitPayload` | src/components/TodoForm.tsx:27-33 | a blank title sends nothing; otherwise the title is trimmed and non-empty, the description trimmed or null exactly when blank, the deadline as typed or null exactly when "" |
| `TodoFormComponent.AsJson` | src/hooks/useTodos.ts:73-77 | the body `createTodo` sends for a form payload reads back as the payload: title, description or null, deadline or null |
| `TodoFormComponent.SubmittedFormIsAccepted` | src/components/TodoForm.tsx:29-33 | whatever the form sends passes POST's checks for a caller with an account; the stored title is the one sent and the stored deadline is null exactly when the field was empty |
| `TodoFormComponent.TodoForm.constructor` | src/components/TodoForm.tsx:20-22 | the three fields start empty |
| `TodoFormComponent.TodoForm.HandleSubmit` | src/components/TodoForm.tsx:24-38 | a blank title returns early with nothing changed; otherwise `onCreate` gets `SubmitPayload`; the fields are cleared only if it resolves |
| `TodoItemComponent.SeedDraft` | src/components/TodoItem.tsx:23-27 | the drafts start as the title, the description or "", and exactly the first 10 characters of a non-empty deadline (a non-empty prefix of it), else "" |
| `TodoItemComponent.SavePayload` | src/components/TodoItem.tsx:30-34 | save sends title and description untrimmed, the deadline or null when empty, and never a status |
| `TodoItemComponent.UneditedSave` | src/components/TodoItem.tsx:23-34 | saving unedited drafts sends the todo's title, its description with null turned into "", exactly the first 10 characters of its deadline or null when it has none, and no status |
| `TodoItemComponent.TodoItem.constructor` | src/components/TodoItem.tsx:22-27 | an item starts out of edit mode with the seeded drafts |
| `TodoItemComponent.TodoItem.Edit` | src/components/TodoItem.tsx:100 | edit enters edit mode and keeps the drafts |
| `TodoItemComponent.TodoItem.Cancel` | src/components/TodoItem.tsx:71 | cancel leaves edit mode, calls nothing and keeps the drafts |
| `TodoItemComponent.TodoItem.HandleSave` | src/components/TodoItem.tsx:29-36 | save calls `onEdit` with the todo's id and `SavePayload`; edit mode ends only if `onEdit` resolved |
| `Page.ToggledStatus` | src/app/page.tsx:121-123 | a click turns DONE into TODO and anything else into DONE; never DOING, never the same status |
| `Page.TogglePatch` | src/app/page.tsx:121-123 | the toggle sends the toggled status and no other field |
| `Page.ToggleTwice` | src/app/page.tsx:121-123 | two clicks bring TODO and DONE back, and take DOING to TODO |

## Left out

- The network, HTTP and JSON encoding: every `fetch` is an ok response with its parsed body, a response that is not ok, or a rejection. A `res.json()` that fails to parse is not modelled.
- The `loading` and `error` flags of the hook, and the React machinery around the state.
- Overlapping calls. Operations run one at a time, so the delete snapshot is the current list. The stale-closure snapshot of concurrent calls is not modelled.
- Sessions, the user table and the database are parameters or a plain object. Database ids and the default `status` and `createdAt` are not modelled.
- `new Date` parsing, invalid dates and `NaN` timestamps. A deadline or creation date is a timestamp.
- `Text.Lower`: lower-cases ASCII letters only, not all of Unicode.
- The PATCH and DELETE handlers of `/api/todos/{id}` are not part of this model.
- The `onChange` handlers of the form and the editor, each of which replaces one field, and the form's `submitting` flag.
- The editor's drafts are seeded once from the todo it was created with. A later change of the `todo` prop is not modelled.
- Rendering: the page's session gating and layout, the list component, and the filter controls. Each control replaces one filter field, as `SetFilter` does.
