# Issue tracker: statement building, handler responses and page state

This project models the core of a small issue tracker. The tracker has a
REST backend over one `issues` table and a single-page frontend that lists,
creates, edits and deletes issues.

Backend (`handlers.ts`). Each handler is modelled as a method that builds one
parameterized SQL statement from the request, passes it to the store, and
maps the outcome to an HTTP status code and a JSON body:

- A statement is a sequence of literal text pieces and `$n` placeholders,
  plus its parameter list. `Render` spells it out, with `$n` written in
  decimal.
- The store is a function parameter from statement to result: rows, or a
  failure that becomes the 500 response.
- The main property is alignment between placeholders and parameters.
  Every list query and every update query uses exactly `$1` to `$k` for
  its `k` parameters. In the update builder, the counter that hands out
  placeholder numbers stays in step with the pushed values
  (`UpdatePlaceholders`, `UpdateSetList`).

Frontend (`IssueList.tsx`, `IssueForm.tsx`). The page is modelled as:

- pure list transforms: prepend a new issue, replace by id, remove by id;
- the filter normalisation `s || undefined`;
- the empty-state hint;
- the form's initial values and its single-field change;
- the component state as a class. Its fields are the page's `useState`
  variables, and its methods are the handlers.

Each API call is a function parameter that either returns its data or
fails. `window.confirm` is a boolean input.

Module `EndToEnd` connects the two halves: what the page sends, and the
statement the backend builds from it.

Files:

| file | module | contents |
|---|---|---|
| `types.dfy` | `Types` | `Option`, JavaScript truthiness, `Status`, `Issue`, the request records |
| `decimal.dfy` | `Decimal` | decimal spelling of placeholder numbers, and reading it back |
| `sql_text.dfy` | `SqlText` | statement pieces, rendering, placeholders, alignment |
| `handlers.dfy` | `Handlers` | the five handlers and the statements they build |
| `issue_form.dfy` | `IssueForm` | form data, initial values, `handleChange`, status options |
| `issue_list.dfy` | `IssueList` | list transforms, filters, hint, the page-state class |
| `end_to_end.dfy` | `EndToEnd` | properties linking page requests to backend statements |

A note on rendered statements: contracts state the rendered SQL as a
concatenation of its fragments. Each fragment is a named constant of
`Handlers`, defined with its literal text at the top of `handlers.dfy`. For
example, `SelectAllSql + OrderBySql` is
`"SELECT * FROM issues" + " ORDER BY created_at DESC"`. Each concatenation is
the same string that the handler sends.

## Model

| member | source | states |
|---|---|---|
| Types.OrDefault | frontend/src/components/IssueForm.tsx:14-16 | The or-default of a JavaScript optional string: the value when it is truthy (present and non-empty), otherwise the default |
| Types.Truthy | backend/src/handlers.ts:12 | JavaScript truthiness of an optional string: present and not the empty string |
| Types.StatusName | frontend/src/types.ts:5 | The literal each status is written as: "open", "in-progress", "closed" |
| Types.ParseStatus | frontend/src/types.ts:5 | A recognised string is exactly the name of the status it parses to; every other string is none of the three names |
| Types.ParseStatusName | frontend/src/types.ts:5 | Parsing a status's name gives that status back |
| Decimal.DigitChar | backend/src/handlers.ts:89 | The character for a digit is a digit of that value |
| Decimal.Digits | backend/src/handlers.ts:89 | How `${paramIndex}` spells a number: non-empty, digits only, no leading zero unless the number is 0 |
| Decimal.ValueOfDigits | backend/src/handlers.ts:112 | Reading the spelling of n back gives n |
| Decimal.DigitsInjective | backend/src/handlers.ts:112 | Different placeholder numbers are spelled differently |
| SqlText.Placeholders | backend/src/handlers.ts:29 | A statement has at most as many placeholders as pieces |
| SqlText.RenderPiece | backend/src/handlers.ts:89 | A literal piece is its text; a placeholder is `$` followed by the decimal spelling of its number, as `$${paramIndex}` writes it |
| SqlText.Render | backend/src/handlers.ts:29 | The statement string handed to the store: the pieces' texts, in order |
| SqlText.Aligned | backend/src/handlers.ts:110-113 | Every placeholder names an existing parameter (`$1` to `$n` for n parameters), and every parameter is named by some placeholder |
| SqlText.RenderAppend | backend/src/handlers.ts:13 | The text of `query += clause` is the old text followed by the clause's text |
| SqlText.PlaceholdersAppend | backend/src/handlers.ts:13 | Appending a clause appends its placeholders, in order |
| SqlText.RenderCons | backend/src/handlers.ts:66 | A statement's text and placeholders are those of its first piece followed by those of the rest |
| SqlText.RenderedText | backend/src/handlers.ts:9 | A literal piece renders as itself and has no placeholder |
| SqlText.RenderedParams | backend/src/handlers.ts:66 | Placeholders 1, 2 and 3 are written `$1`, `$2` and `$3` |
| SqlText.MaxOf | backend/src/handlers.ts:112 | The result is an upper bound of the sequence, is one of its elements when the sequence is non-empty, and is 0 otherwise |
| SqlText.AlignedMax | backend/src/handlers.ts:110-112 | In an aligned statement the highest placeholder equals the number of parameters |
| Handlers.SearchPattern | backend/src/handlers.ts:20 | The pattern is the search term with one `%` before it and one after |
| Handlers.ListQuery | backend/src/handlers.ts:9-27 | The list statement and its parameters for each of the four combinations of truthy filters: the status clause at `$1`, the search clause at `$2` after a status and at `$1` without one, then the ordering |
| Handlers.GetIssues | backend/src/handlers.ts:6-35 | Building by `+=` and `push` gives `ListQuery` of the filters; the rows are answered with 200; a store failure, and only that, gives 500 |
| Handlers.RenderedWhereStatus | backend/src/handlers.ts:13 | The status clause reads ` WHERE status = $1` and uses only `$1` |
| Handlers.RenderedAndSearch | backend/src/handlers.ts:19 | The AND search clause uses `$2` twice, for title and description |
| Handlers.RenderedWhereSearch | backend/src/handlers.ts:22 | The WHERE search clause uses `$1` twice, for title and description |
| Handlers.ListWithoutFilters | backend/src/handlers.ts:9-27 | With neither filter truthy, the statement selects every issue newest first, with no parameters |
| Handlers.ListStatusOnly | backend/src/handlers.ts:12-15 | With only a status, the statement adds ` WHERE status = $1` and binds the status |
| Handlers.ListSearchOnly | backend/src/handlers.ts:17-24 | With only a search term, the WHERE search clause uses `$1`, bound to `%term%` |
| Handlers.ListBothFilters | backend/src/handlers.ts:12-20 | With both filters, the status is at `$1` and the pattern at `$2`, each bound in that order |
| Handlers.ListPlaceholders | backend/src/handlers.ts:12-25 | The placeholders in order are [1,2,2], [1], [1,1] or [], by which filters are truthy |
| Handlers.ListQueryAligned | backend/src/handlers.ts:9-29 | For any filters: the list statement is aligned, its highest placeholder is its parameter count, and there is one parameter per truthy filter |
| Handlers.ListNewestFirst | backend/src/handlers.ts:27 | For any filters, the statement ends with ` ORDER BY created_at DESC` |
| Handlers.RenderedSelectById | backend/src/handlers.ts:41 | The lookup statement reads `SELECT * FROM issues WHERE id = $1` |
| Handlers.GetIssueById | backend/src/handlers.ts:38-53 | It binds the id at `$1` and is aligned; 500 exactly when the store fails, 404 exactly when no row comes back, otherwise 200 with the first row |
| Handlers.RenderedInsertIssue | backend/src/handlers.ts:66 | The insert statement names the three columns and uses `$1`, `$2`, `$3` in order |
| Handlers.OrNull | backend/src/handlers.ts:67 | The description's or-null: the value when it is truthy, otherwise NULL |
| Handlers.InsertQuery | backend/src/handlers.ts:60-68 | No statement for a falsy title. Otherwise: the title at `$1`; NULL at `$2` exactly when the description is falsy; the status or "open" at `$3` |
| Handlers.CreateIssue | backend/src/handlers.ts:56-75 | 400 "Title is required" with no statement for a falsy title; otherwise an aligned insert of the three values, 201 with the first row, and 500 exactly when the store fails |
| Handlers.SpelledColumns | backend/src/handlers.ts:89-97 | How the three SET assignments begin |
| Handlers.ColumnName | backend/src/handlers.ts:89-97 | The column each request field sets: title, description, status |
| Handlers.Rank | backend/src/handlers.ts:88-99 | The order in which the handler tests the fields: title, description, status |
| Handlers.FieldOf | backend/src/handlers.ts:81 | The request field that supplies each column |
| Handlers.AssignmentSql | backend/src/handlers.ts:89-102 | An entry of the SET list: `column = $n`, or `updated_at = CURRENT_TIMESTAMP` |
| Handlers.JoinAssignments | backend/src/handlers.ts:112 | `updates.join(', ')`: the entries separated by `, `, with no separator before the first or after the last |
| Handlers.Supplied | backend/src/handlers.ts:88-99 | A column is supplied exactly when its field is present, even as an empty string; the order is title, description, status |
| Handlers.SetList | backend/src/handlers.ts:88-102 | The `updates` array: the supplied columns numbered from `$1` in order, then the timestamp refresh |
| Handlers.UpdateText | backend/src/handlers.ts:112 | `UPDATE issues SET `, the joined SET list, ` WHERE id = $n`, ` RETURNING *` |
| Handlers.Numbered | backend/src/handlers.ts:89-97 | One numbered assignment per supplied column |
| Handlers.FieldValue | backend/src/handlers.ts:90-98 | A present field is bound as its own string |
| Handlers.BoundValues | backend/src/handlers.ts:90-98 | One value per column |
| Handlers.SuppliedValues | backend/src/handlers.ts:90-98 | One value per supplied column |
| Handlers.NumberedPush | backend/src/handlers.ts:89 | Pushing `column = $paramIndex` for the next column extends the numbering by one |
| Handlers.BoundPush | backend/src/handlers.ts:90 | Pushing the next column's value extends the bound values by that value |
| Handlers.BuiltUpdate | backend/src/handlers.ts:102-112 | Once the assignments and values are pushed, the list with the refresh has one entry exactly when nothing was supplied; otherwise the statement joined around it is `UpdateQuery` |
| Handlers.UpdateQuery | backend/src/handlers.ts:104-112 | There is no statement exactly when all three fields are absent |
| Handlers.UpdateIssue | backend/src/handlers.ts:78-125 | The pushes with `paramIndex++` build exactly `UpdateQuery`. Responses: 400 "No fields to update" with no statement; 500 exactly when the store fails; 404 exactly when no row comes back; otherwise 200 with the first row |
| Handlers.AssignmentPlaceholders | backend/src/handlers.ts:89 | A column assignment uses only its own placeholder; the timestamp refresh uses none |
| Handlers.IndicesCons | backend/src/handlers.ts:112 | The assignments' indices are the first one's index followed by the rest's |
| Handlers.JoinedPlaceholders | backend/src/handlers.ts:112 | `updates.join(', ')` with the refresh last has the assignments' placeholders in order |
| Handlers.UpdateTextPlaceholders | backend/src/handlers.ts:112 | The update statement's placeholders are the SET list's, then the id's |
| Handlers.SetListPlaceholders | backend/src/handlers.ts:86-102 | The SET list of k columns uses `$1` to `$k` in order |
| Handlers.UpdatePlaceholders | backend/src/handlers.ts:86-112 | With k supplied fields, the placeholders are exactly `$1` to `$k+1` in order. The id is the (k+1)-th and last value, the statement is aligned, and the highest placeholder is k+1 |
| Handlers.CountingUp | backend/src/handlers.ts:110-112 | A statement with k+1 parameters whose placeholders count up from `$1` to `$k+1` is aligned, with highest placeholder k+1 |
| Handlers.UpdateSetList | backend/src/handlers.ts:88-102 | The SET list has exactly the supplied columns, in rank order, numbered from 1; each placeholder is bound to its own field's value; the timestamp refresh is last |
| Handlers.DescriptionOnlyUpdate | backend/src/handlers.ts:92-95 | An update that supplies only the description sets that column at `$1` and binds the id at `$2` |
| Handlers.RenderedDescriptionOnly | backend/src/handlers.ts:112 | That statement reads `UPDATE issues SET description = $1, updated_at = CURRENT_TIMESTAMP WHERE id = $2 RETURNING *` |
| Handlers.PresenceVersusTruthiness | backend/src/handlers.ts:92-95 | An update with description "" writes `description = $1` with "" bound, whereas create binds NULL for "" |
| Handlers.RenderedDeleteById | backend/src/handlers.ts:132 | The delete statement reads `DELETE FROM issues WHERE id = $1 RETURNING *` |
| Handlers.DeleteIssue | backend/src/handlers.ts:128-144 | It binds the id at `$1` and is aligned; 500 exactly when the store fails, 404 exactly when no row comes back, otherwise 200 with the message and the deleted row |
| IssueForm.InitialForm | frontend/src/components/IssueForm.tsx:13-17 | With no issue: blank title and description, status "open". With an issue: its title and status, its description, and "" for a null description |
| IssueForm.HandleChange | frontend/src/components/IssueForm.tsx:19-25 | The named input gets the value; the other two keep theirs |
| IssueForm.FieldName | frontend/src/components/IssueForm.tsx:41 | The `name` attribute of each input: "title", "description", "status" |
| IssueForm.Get | frontend/src/components/IssueForm.tsx:42 | The value each controlled input shows |
| IssueForm.FormExtensionality | frontend/src/components/IssueForm.tsx:13-17 | Two forms agree exactly when all three inputs agree |
| IssueForm.ChangeOverwrites | frontend/src/components/IssueForm.tsx:19-25 | A later change to an input overrides an earlier one |
| IssueForm.ChangesCommute | frontend/src/components/IssueForm.tsx:19-25 | Changes to different inputs commute |
| IssueForm.ChangeToSameValue | frontend/src/components/IssueForm.tsx:19-25 | Setting an input to its current value leaves the form unchanged |
| IssueForm.StatusOptionsExact | frontend/src/components/IssueForm.tsx:76-78 | The selector offers exactly the three status names, each once |
| IssueForm.InitialStatusReadsBack | frontend/src/components/IssueForm.tsx:16 | An edited issue's status is shown as an offered option that parses back to that status |
| IssueList.Prepend | frontend/src/components/IssueList.tsx:44 | The new issue comes first and the old issues follow in order: one longer |
| IssueList.ReplaceById | frontend/src/components/IssueList.tsx:65 | Same length. Every entry with the id becomes the updated issue; every other entry is unchanged and stays in place |
| IssueList.RemoveById | frontend/src/components/IssueList.tsx:83 | An issue is kept exactly when it was there and has a different id; the list gets no longer |
| IssueList.RemoveAppend | frontend/src/components/IssueList.tsx:83 | Removing distributes over concatenation, so kept issues keep their order |
| IssueList.RemoveAbsent | frontend/src/components/IssueList.tsx:83 | With no issue of that id, the list is unchanged |
| IssueList.RemoveIdempotent | frontend/src/components/IssueList.tsx:83 | Deleting twice is the same as deleting once |
| IssueList.RemoveUndoesPrepend | frontend/src/components/IssueList.tsx:44 | Deleting a just-created issue whose id was new gives the old list back |
| IssueList.RemoveAfterReplace | frontend/src/components/IssueList.tsx:65 | Removing by an id after replacing by that id is the same as removing before |
| IssueList.ReplaceAbsent | frontend/src/components/IssueList.tsx:65 | With no issue of that id, replacing changes nothing |
| IssueList.FilterArg | frontend/src/components/IssueList.tsx:22 | An empty filter becomes undefined and any other is passed as it is |
| IssueList.EmptyHint | frontend/src/components/IssueList.tsx:179 | "Try adjusting your filters" exactly when search or status is non-empty; "Create your first issue to get started" exactly when both are empty |
| IssueList.CreateRequestOf | frontend/src/components/IssueList.tsx:39-43 | The create request carries the form's three values unmodified |
| IssueList.UpdateRequestOf | frontend/src/components/IssueList.tsx:60-64 | The update request carries the form's three values unmodified |
| IssueList.IssueListState.constructor | frontend/src/components/IssueList.tsx:9-16 | Initial state: no issues, not loading, no error, nothing edited, form closed, empty filters, nothing being deleted |
| IssueList.IssueListState.EditingShown | frontend/src/components/IssueList.tsx:130-134 | The issue being edited is shown in the open form; the handlers that open, close, edit and submit keep this |
| IssueList.IssueListState.EmptyState | frontend/src/components/IssueList.tsx:175 | "No issues found" shows exactly when not loading and the list is empty |
| IssueList.IssueListState.Hint | frontend/src/components/IssueList.tsx:179 | The hint under the empty state, from the current search and status filters |
| IssueList.IssueListState.LoadIssues | frontend/src/components/IssueList.tsx:18-30 | Asks with (status, search) normalised, in that order. On success shows exactly the data and clears the error; on failure keeps the list and sets "Failed to load issues"; ends not loading; nothing else changes |
| IssueList.IssueListState.OnStatusChange | frontend/src/components/IssueList.tsx:32-34 | Sets the status filter. Reloads, as `LoadIssues` does, exactly when the value changed |
| IssueList.IssueListState.OnSearchChange | frontend/src/components/IssueList.tsx:32-34 | Sets the search filter. Reloads, as `LoadIssues` does, exactly when the value changed |
| IssueList.IssueListState.HandleCreateIssue | frontend/src/components/IssueList.tsx:36-53 | On success the new issue is prepended, the form closes and the error clears; on failure only the error changes; ends not loading |
| IssueList.IssueListState.HandleEditIssue | frontend/src/components/IssueList.tsx:55-75 | Does nothing when no issue is being edited. On success replaces by id, stops editing, closes the form and clears the error; on failure only the error changes; ends not loading |
| IssueList.IssueListState.HandleDeleteIssue | frontend/src/components/IssueList.tsx:77-91 | Does nothing unless confirmed. On success removes by id and clears the error; on failure keeps the list and sets the error; once confirmed, nothing is marked as being deleted afterwards |
| IssueList.IssueListState.HandleEditClick | frontend/src/components/IssueList.tsx:93-96 | Edits the chosen issue in the open form; nothing else changes |
| IssueList.IssueListState.HandleCloseForm | frontend/src/components/IssueList.tsx:98-101 | Closes the form and forgets the edited issue; nothing else changes |
| IssueList.IssueListState.OpenCreateForm | frontend/src/components/IssueList.tsx:122 | Opens the form; nothing else changes |
| IssueList.IssueListState.Submit | frontend/src/components/IssueList.tsx:134 | Routes to edit exactly when an issue is being edited, otherwise to create, passing the form unmodified. It then gives the new state as the chosen handler does: the list, the error, whether the form is open and which issue is being edited, on success and on failure; it ends not loading. It keeps "the edited issue is in the open form" |
| EndToEnd.FilterNormalisationPreservesQuery | frontend/src/components/IssueList.tsx:22 | Leaving an empty filter out gives the backend the same list statement as sending it |
| EndToEnd.PageFiltersBound | frontend/src/api.ts:13-14 | The page's filters bind one parameter per non-empty filter, in an aligned statement |
| EndToEnd.CreateFromBlankForm | frontend/src/components/IssueForm.tsx:13-17 | A new issue with only a title typed is inserted with NULL description and status "open" |
| EndToEnd.CreateWithoutTitle | backend/src/handlers.ts:60-63 | Submitting without a title issues no statement |
| EndToEnd.EditUntouched | frontend/src/components/IssueForm.tsx:15 | Saving an untouched edit form writes back the issue's own values, the id last, with a NULL description written as "" |

## Left out

- Server bootstrap in `backend/src/index.ts` is not part of this model. That covers routing, CORS, body parsing, configuration, `listen` and the health route, all framework plumbing.
- Database semantics: the store is an uninterpreted function parameter, so `ILIKE` matching, `ORDER BY` row order, `RETURNING *`, `CURRENT_TIMESTAMP` and id assignment are not modelled. Only the statement and its parameters are.
- Logging with `console.error` is not modelled; an exception from the store is modelled only as the `Raised` result.
- `req.query` values that arrive as arrays or as parsed objects are not modelled: status and search are optional strings. The route id is an uninterpreted string.
- createIssue does not check that the status is one of the three values. The model adds no such check, and `CreateIssueRequest.status` is a raw optional string.
- Async behaviour, the intermediate state of the page while a request is pending, and concurrent or duplicate requests are not modelled. Each API call completes inside the method that makes it. The handlers' closures over a stale `issues` value are therefore not modelled either.
- `frontend/src/api.ts` is not modelled beyond its key appends at lines 13-14. Its HTTP transport and URL encoding are library code.
- `IssueCard.tsx` and `SearchFilter.tsx` are presentation only. Date formatting depends on locale and clock.
- JSX rendering, the loading spinner, the visibility rules of the form and the grid, and the browser's `required` check on the title input are not modelled. `window.confirm` is the boolean parameter of `HandleDeleteIssue`.
- The mount-time `useEffect` load is not a separate member: it is `LoadIssues` called on a freshly constructed state. A re-run of the effect is modelled only through `OnStatusChange` and `OnSearchChange`, and only when the value really changes, as React's dependency check does.
- JSON serialization is not modelled. Issues arrive parsed, and the frontend's status union is assumed to match what the server returns. A request field, when present, is a string. JSON null and non-string values are not modelled: updateIssue would include a null field, because it passes `!== undefined`, and bind NULL, so `{"description": null}` clears the description.
- IssueForm.HandleChange: the event target's `name` is restricted to the three inputs the form renders. An arbitrary key added to the form object is not modelled.
- The form's state after it mounts is not modelled. The `useState` initialiser in `IssueForm.tsx` runs only when the form mounts, and `IssueList.tsx` mounts the form without a `key`. So clicking Edit while the create form is open keeps the typed values, and Save sends them as an edit of the clicked issue. `IssueListState.Submit` takes the form as a free parameter. `EndToEnd.EditUntouched` describes a freshly mounted edit form, and its `id` is the route parameter, not tied to `issue.id`.
- No lemma connects the rendered string back to its pieces: for example, that a placeholder is never followed by literal text that starts with a digit. Distinct placeholder numbers are spelled differently (`DigitsInjective`), but the model does not prove that the SQL string can be parsed back into the same placeholders.
