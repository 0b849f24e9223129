# Song API: request checks, the dynamic UPDATE builder and status mapping

This project models the logic of a small Express/PostgreSQL service that keeps
one `songs` table (`id`, `name`, `artist`, `album`, `poster`, `preview_url`)
and exposes POST `/songs`, PUT `/songs/:id` and DELETE `/songs/:id`.

- **POST** checks that all five fields are truthy, answers 400
  `All fields are required` otherwise, and else sends one INSERT with the five
  values in column order and answers 201 with `rows[0]`.
- **PUT** builds its UPDATE statement at run time. For each of `name`,
  `artist`, `preview_url`, `poster` that is truthy, in that fixed order, it
  pushes an assignment `column = $n` onto one list and the value onto a second
  list. The counter `n` starts at 1. With nothing pushed it answers 400
  `No fields to update` and sends nothing. Otherwise it writes
  `UPDATE songs SET <assignments joined by ", "> WHERE id = $<n> RETURNING *`,
  pushes `id` last, and answers 404 `Song not found` when `rowCount` is 0,
  else 200 with `rows[0]`.
- **DELETE** sends `DELETE FROM songs WHERE id = $1` and answers 404 when
  `rowCount` is 0, else 204 with no body.
- Any store failure gives 500 `Internal Server Error`, whatever the failure.

The database is not modelled. A handler is a function of the request and of
the answer the store would give (`Store.QueryResult`: a failure with its
detail, or a row count with rows). It returns an `Http.Exchange`: the
statement it sent, if any, and its response. A request rejected before the
store is asked has `issued == None`.

JavaScript truthiness of a body field is modelled on `Option<string>`. A field
is truthy when it is present and not the empty string (`Request.Truthy`).

Modules, one per component of `server.js`:

- `Wrappers`: `Option`.
- `Numerals`: the decimal text of a placeholder number, and its parser.
- `Request`: the body's fields and truthiness.
- `Store`: rows, statements, and what the store answers.
- `Http`: status codes, messages, responses, plans and exchanges.
- `UpdateBuilder`: the PUT statement. `UpdatePlan` is the specification, a
  filter of the fixed field order followed by numbering. `BuildUpdate` is the
  handler's imperative code: two growing lists and a counter, run through
  four `if` blocks. It is proved to produce exactly `UpdatePlan`.
- `Handlers`: the three handlers and their status mapping.

PUT is rejected when none of the four fields is *truthy* (server.js:55-77),
so a field that is present but empty counts as missing.

## Model

| member | source | states |
|---|---|---|
| `Request.Truthy` | server.js:55-73 | no ensures: the truthiness test of each `if (field)` (and of the check at line 30), present and non-empty; specified through `ChosenMembers` and `MissingFieldIffSomeRequiredFalsy` |
| `Store.FirstRow` | server.js:88 | `result.rows[0]` (also at line 39): a row exactly when `rows` is non-empty, and then the first one; otherwise JavaScript's `undefined` |
| `Numerals.Decimal` | server.js:56 | the number written into a placeholder is a non-empty string of digits with no leading zero |
| `Numerals.ParseDecimalInverse` | server.js:56-79 | reading a placeholder's digits back gives the counter value that was written |
| `Numerals.DecimalInjective` | server.js:53-79 | two counter values give the same digits exactly when they are equal |
| `UpdateBuilder.Chosen` | server.js:55-73 | no ensures: the fields the chain of `if` blocks pushes, a filter of the fixed order; specified by `ChosenMembers`, `ChosenInOrder`, `ChosenSnoc` and `ChosenIgnoresAlbum` |
| `UpdateBuilder.ChosenMembers` | server.js:55-73 | a field is chosen exactly when it is in the examined order and truthy in the body; never more fields than examined |
| `UpdateBuilder.ChosenInOrder` | server.js:55-73 | chosen fields keep the relative order of the examined order |
| `UpdateBuilder.ChosenSnoc` | server.js:55-73 | examining one more field appends it exactly when it is truthy, as each `if` block does |
| `UpdateBuilder.ChosenIgnoresAlbum` | server.js:49 | the value of `album` never changes which fields are chosen |
| `UpdateBuilder.Assignment` | server.js:56-71 | no ensures: one template `column = $${index}`; its numbering is stated by `AssignmentsNumbered` |
| `UpdateBuilder.Assignments` | server.js:53-71 | no ensures: the assignments for a list of fields with the counter advanced once per field; specified by `AssignmentsNumbered` and `AssignmentsSnoc` |
| `UpdateBuilder.AssignmentsNumbered` | server.js:53-71 | assignment i uses the counter's start value plus i, so numbering is contiguous |
| `UpdateBuilder.AssignmentsSnoc` | server.js:53-71 | pushing one more assignment numbers it with the counter's start value plus the number already pushed |
| `UpdateBuilder.Join` | server.js:79 | no ensures: `fieldsToUpdate.join(', ')`; specified by `JoinSnoc` |
| `UpdateBuilder.JoinSnoc` | server.js:79 | joining one more part after a non-empty list adds exactly one separator and then the part |
| `UpdateBuilder.UpdateText` | server.js:79 | no ensures: the statement text around the joined assignments, with `id` at the next placeholder; specified by `UpdatePlaceholdersContiguous` |
| `UpdateBuilder.UpdatePlan` | server.js:49-80 | a rejection is the 400 "No fields to update" response; a planned statement has one parameter per chosen field plus `id`, last; the rest is stated by the lemmas below and `BuildUpdate` |
| `UpdateBuilder.UpdateRejectedIffNothingToSet` | server.js:75-77 | PUT answers 400 "No fields to update" and sends nothing exactly when none of name, artist, preview_url, poster is truthy |
| `UpdateBuilder.UpdateAssignsTruthyFieldsInOrder` | server.js:55-73 | the statement assigns exactly the truthy updatable fields, each once, in the order name, artist, preview_url, poster |
| `UpdateBuilder.UpdatePlaceholdersContiguous` | server.js:53-80 | with k assignments the i-th (from 1) uses `$i` and the WHERE clause `$(k+1)`; there are k+1 parameters, the last is `id`, and parameter j is the body's value of the field assigned by assignment j+1 |
| `UpdateBuilder.UpdatePlaceholdersDistinct` | server.js:53-79 | different counter values give different placeholders |
| `UpdateBuilder.UpdateNeverSetsAlbum` | server.js:49-73 | `album` is never assigned, and changing it in the body changes neither the statement nor its parameters |
| `UpdateBuilder.UpdateNameOnly` | server.js:47-80 | a body with only name "X" gives `UPDATE songs SET name = $1 WHERE id = $2 RETURNING *` with parameters ["X", id] |
| `UpdateBuilder.BuildUpdate` | server.js:51-80 | the push-and-count code produces exactly the planned statement and parameters, or the 400 rejection |
| `Handlers.MissingField` | server.js:30 | no ensures: the five-way presence check; specified by `MissingFieldIffSomeRequiredFalsy` |
| `Handlers.MissingFieldIffSomeRequiredFalsy` | server.js:30 | the presence check fails exactly when some one of name, artist, album, poster, preview_url is falsy |
| `Handlers.CreatePlan` | server.js:30-37 | rejects with 400 "All fields are required" exactly when some required field is falsy; otherwise plans the INSERT of line 36 with the five body values in column order |
| `Handlers.CreateResponse` | server.js:34-43 | a store failure gives the generic 500; otherwise 201 with the first returned row |
| `Handlers.HandleCreate` | server.js:25-44 | POST sends no statement and answers 400 "All fields are required" exactly when a required field is falsy; otherwise it sends the INSERT with the five body values in column order and answers from the store's result |
| `Handlers.UpdateResponse` | server.js:82-92 | 500 exactly on store failure, 404 "Song not found" exactly when rowCount is 0, 200 with the first row exactly when rowCount is positive |
| `Handlers.HandleUpdate` | server.js:47-93 | PUT sends no statement and answers 400 exactly when no updatable field is truthy; otherwise it sends the planned UPDATE and answers from the store's result |
| `Handlers.DeleteResponse` | server.js:98-107 | 500 exactly on store failure, 404 exactly when rowCount is 0, 204 with no body exactly when rowCount is positive |
| `Handlers.HandleDelete` | server.js:96-108 | DELETE always sends `DELETE FROM songs WHERE id = $1` bound to `id` and answers from the store's result |
| `Handlers.HandlersAnswerWellFormed` | server.js:25-108 | every response of every handler has one of the six statuses, an error body exactly when the status is 400 or above, and the message that goes with its status |
| `Handlers.StoreFailureIsInternalError` | server.js:40-106 | whenever a statement was sent and the store failed, every handler answers the same generic 500, whatever the failure's detail |
| `Handlers.RejectionIgnoresStore` | server.js:30-77 | a rejected POST or PUT gets the same exchange whatever the store would have answered |

## Left out

- The Express application, routing, CORS, JSON body parsing and `app.listen` (server.js:1-22, 121-123): framework set-up with no logic of its own.
- The `pg` connection pool, its connection string and TLS options, and running SQL (server.js:9-14, 35, 83, 99, 113): the store's behaviour is outside the service, so its answer is an input to each handler.
- GET `/songs` and GET `/` (server.js:20-22, 111-119): they pass data through unchanged.
- Logging with `console.log` and `console.error`: output only.
- `async`/`await` and concurrent requests: the handlers share no in-memory state.
- Full JavaScript truthiness: a body field that is a number, boolean, object or `null` is not modelled; fields are optional strings.
- `rowCount` is a natural number; the driver's `null` row count for other statement kinds does not arise for UPDATE or DELETE and is not modelled.
- `result.rows[0]` of an empty array is JavaScript's `undefined`; it is modelled as `SongJson(None)`, not as the empty body Express then sends.
- The effect of the statements on the table (which row changes, which `id` is generated) is the store's and is not modelled.
