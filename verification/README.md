# Notes app core, modelled in Dafny

A model of the logic layer of a small React Native note-taking app backed by a
hosted account and document service. The app signs a user in, then lists,
adds, edits and deletes that user's text notes. Under the screens sit:

- two state stores (`noteStore`, `authStore`), modelled as immutable records with pure reducers;
- three gateways over the backend SDK (`databaseService`, `noteService`, `authService`). The document gateway turns every backend failure into an `ErrorResponse` value and refuses an empty id for deletion. The note gateway's `getNotes` checks the owner, and its `addNote` checks the owner and then the text, before any request; `updateNote` and `deleteNote` do no checks of their own. The auth gateway does no local checks: it turns a failed registration or login into an `ErrorResponse`, answers `null` for a failed user lookup and swallows a failed logout;
- the auth controller (`AuthContext`), which chains gateway calls with store updates (auto-login after registration, a session re-check after login and logout);
- the screen controllers: the notes screen's fetch/add/edit/delete flows and its redirect rule, the sign-in form's `handleAuth`, and the edit state machine of a single note row.

Modelling choices:

- **Backend as an oracle.** Every backend request is a `Call` value. Its outcome (`Returned(v)` or `Threw(e)`) is a parameter of the operation that makes it. Every operation returns the list of calls it made, so "no backend request" is the statement `calls == []`.
- **Duck-typed responses.** `Response<T>` has four shapes: `null`, a payload, `{ error }`, and a payload that also carries `error`. `DatabaseService.IsErrorResponse` is the source's test: the value is truthy and its `error` field is not null. So `{ error: '' }` counts as an error, and `null` does not.
- **JavaScript string tests.** `Text.Trim` implements `String.prototype.trim` over the ECMAScript white-space and line-terminator code points. `Text.Truthy` implements the truthiness of an optional string.
- **Parameters.** Generated ids (`ID.unique()`), the `createdAt` timestamp, and the configured database and collection ids are parameters.
- **Screen effects.** Alerts, the delete confirmation prompt and route changes are emitted as `Event` values. The user's answer to the prompt is a `confirmed` parameter.
- **Every setter call is applied.** Flows that set the loading flag to `true` and later to `false` apply both setters in order.

Behaviour that is easy to misread, which the model follows as the code has it:

- The note gateway's `addNote` refuses only the exact empty string. A whitespace-only text passes it; only the screens trim.
- An unsaved note (empty `$id`) passed to the screen's delete flow raises an alert, and then the confirmation prompt is still shown. On confirmation, the document gateway refuses the empty id without a request.
- A `Note` has the three fields of the app's `Note` interface: `$id`, `text`, `createdAt`. The owner id is written when a note is created but is not part of the record the screens read.
- `handleAuth` does not clear an earlier form error when a later submission passes validation.

## Model

| member | source | states |
|---|---|---|
| Text.Trim | app/notes/index.tsx:47 | The result of `trim` is empty exactly when the input is all white space. Otherwise it starts and ends with a non-space character, and it is never longer than the input. |
| Text.TrimIsSlice | app/notes/index.tsx:47 | The result of `trim` is one contiguous slice of the input, and only white space is cut on either side of it. |
| Text.BlankIffAllSpace | components/NoteItem.tsx:18 | The `!text.trim()` guard holds exactly when the text is all white space, i.e. every character is ECMAScript white space or a line terminator. |
| NoteStore.Initial | stores/noteStore.ts:6-12 | The store starts with no notes, no error, the modal closed, the spinner on and an empty draft. |
| NoteStore.SetNotes | stores/noteStore.ts:16-22 | The list is replaced. The error is cleared only when the new list is non-empty, and otherwise keeps its old value. No other field changes. |
| NoteStore.AddNote | stores/noteStore.ts:23-29 | The new note follows the untouched old list. The modal closes and the draft empties. The error and loading flag are unchanged. |
| NoteStore.ReplaceById | stores/noteStore.ts:32-38 | Length and positions are preserved. Position i holds the updated note exactly when the old note there had the same `$id`, and is otherwise unchanged. |
| NoteStore.EditNote | stores/noteStore.ts:30-40 | Replace-by-id on the list, with every other field unchanged. |
| NoteStore.RemoveById | stores/noteStore.ts:42 | A note is in the result exactly when it was in the input and its id differs from the removed id. |
| NoteStore.RemoveKeepsOrder | stores/noteStore.ts:42 | The filtered list is a subsequence of the input, so survivors keep their relative order. |
| NoteStore.RemoveKeepsCounts | stores/noteStore.ts:42 | Every note with another id keeps its number of occurrences. |
| NoteStore.RemoveAppend | stores/noteStore.ts:42 | Filtering a list with one note appended is filtering the list, then keeping the appended note only if its id differs. |
| NoteStore.DeleteNote | stores/noteStore.ts:41-43 | Remove-by-id on the list, with every other field unchanged. |
| NoteStore.ShowModal | stores/noteStore.ts:44-46 | Opens the modal and changes no other field. |
| NoteStore.HideModal | stores/noteStore.ts:47-49 | Closes the modal and changes no other field. |
| NoteStore.SetLoading | stores/noteStore.ts:50-52 | Sets the loading flag and changes no other field. |
| NoteStore.SetNewNote | stores/noteStore.ts:53-55 | Sets the draft text and changes no other field. |
| NoteStore.SetError | stores/noteStore.ts:56-58 | Sets the error and changes no other field. |
| NoteStore.ReplaceAbsentId | stores/noteStore.ts:32-38 | Mapping with an id no note carries returns the list unchanged. |
| NoteStore.ReplaceKeepsIds | stores/noteStore.ts:32-38 | Replace-by-id never changes which id sits at which position. |
| NoteStore.ReplaceIdempotent | stores/noteStore.ts:32-38 | Replacing twice with the same note is the same as replacing once. |
| NoteStore.RemoveAbsentId | stores/noteStore.ts:42 | Filtering out an id no note carries returns the list unchanged. |
| NoteStore.EditAbsentIsIdentity | stores/noteStore.ts:30-40 | `editNote` with an id absent from the list leaves the whole state unchanged. |
| NoteStore.DeleteUndoesAdd | stores/noteStore.ts:23-43 | Deleting a note whose id was new to the list restores the list as it was before adding it. |
| NoteStore.HideAfterShow | stores/noteStore.ts:44-49 | Opening then closing the modal is the same as only closing it. |
| NoteStore.DeleteIdempotent | stores/noteStore.ts:41-43 | Applying `deleteNote` twice gives the same state as applying it once. |
| NoteStore.EditIdempotent | stores/noteStore.ts:30-40 | Applying `editNote` twice with the same note gives the same state as applying it once. |
| AuthStore.Initial | stores/authStore.ts:12-15 | The store starts with no user and loading on. |
| AuthStore.SetUser | stores/authStore.ts:19-21 | Sets the user; the loading flag is unchanged. |
| AuthStore.SetLoading | stores/authStore.ts:22-24 | Sets the loading flag; the user is unchanged. |
| AuthStore.SettersIdempotent | stores/authStore.ts:19-24 | Each setter applied twice with the same value equals one application. |
| AuthStore.SettersCommute | stores/authStore.ts:19-24 | The two setters touch disjoint fields, so their order does not matter. |
| DatabaseService.ErrorText | services/databaseService.ts:6 | The document gateway keeps an Error's message, and the `String()` text of any other thrown value. |
| DatabaseService.GetErrorResponse | services/databaseService.ts:5-12 | A thrown value becomes an `ErrorResponse` whose `error` is the Error's message, or the `String()` form of any other value. |
| DatabaseService.ListDocuments | services/databaseService.ts:15-22 | One listing request with the given filters. Success returns the backend's `documents`, or `[]` when absent. A failure is an error response carrying its message. |
| DatabaseService.CreateDocument | services/databaseService.ts:23-29 | A missing id argument is sent as `''`. The result is an error exactly when the backend threw, and otherwise is the created document. |
| DatabaseService.UpdateDocument | services/databaseService.ts:30-36 | One update request. The result is an error exactly when the backend threw, and otherwise is the updated document. |
| DatabaseService.DeleteDocument | services/databaseService.ts:37-48 | An empty id returns `{error: 'Id cannot be empty'}` with no request. Otherwise one request is made; success is `{success: true}` and a failure carries its message. |
| DatabaseService.IsErrorResponse | services/databaseService.ts:51-53 | `isErrorResponse` holds exactly for the `{ error }` shape and the payload that also carries `error`. |
| DatabaseService.IsErrorResponseShapes | services/databaseService.ts:51-53 | `null` is not an error, while `{error: ''}` is one although its message is falsy. |
| DatabaseService.DeleteNeverSendsEmptyId | services/databaseService.ts:37-44 | Every request `deleteDocument` makes has a non-empty id. |
| NoteService.GetNotes | services/noteService.ts:14-29 | A missing or empty user id gives `{data: [], error: 'userId is missing'}` with no request. Otherwise exactly one listing is made, filtered on `userId = u`. A failure keeps its message; the array becomes `{data}`. |
| NoteService.AddNoteGate | services/noteService.ts:30-36 | The owner check comes before the text check, each with its own message. Only a present owner and non-empty text pass. |
| NoteService.AddNote | services/noteService.ts:30-51 | After the gate, exactly one create request is made with the text and owner unchanged plus the timestamp. Per the finding below, the result is an error exactly when the backend threw; otherwise it is the created note. |
| NoteService.UpdateNote | services/noteService.ts:52-60 | Sends only `{text}`, addressed to the note's `$id`. A failure's message passes through unchanged. |
| NoteService.DeleteNote | services/noteService.ts:61-69 | Success is `{success: true}`. The gateway's error, including the empty-id refusal, passes through. |
| NoteService.MissingUserIsError | services/noteService.ts:15-18 | The missing-user answer of `getNotes` is classified as an error by `isErrorResponse`. |
| NoteService.WhitespaceTextPassesGate | services/noteService.ts:34-36 | Whitespace-only text passes the `addNote` gate. |
| NoteService.AddNoteAsWritten | services/noteService.ts:30-51 | `addNote` as written, with the create response tested by `response.error` truthiness. |
| NoteService.AddNoteAsWrittenLeaksEmptyError | services/noteService.ts:46-50 | A create request that throws a value with empty text (`new Error()` or `throw ''`) comes back from the as-written version as non-error data. The corrected version reports it as an error. |
| NoteService.AddNoteAsWrittenAgreesOtherwise | services/noteService.ts:44-50 | On every other input, both versions make the same requests and report the same failures and the same note. |
| AuthService.ErrorText | services/authService.ts:7-8 | The auth gateway keeps an Error's stack trace, not its message. For any other thrown value it keeps the same `String()` text as the document gateway. |
| AuthService.GetErrorResponse | services/authService.ts:7-14 | A thrown value becomes an `ErrorResponse`, classified as an error, whose `error` is that text. |
| AuthService.Register | services/authService.ts:17-24 | One account-creation request with a generated id. The result is an error exactly when the backend threw, and otherwise is the backend's account unchanged. |
| AuthService.Login | services/authService.ts:25-32 | One session request. The result is an error exactly when the backend threw, and otherwise is the backend's session unchanged. |
| AuthService.GetUser | services/authService.ts:33-39 | Never an `ErrorResponse`: the result is `null` exactly when the lookup failed, and otherwise is the account. |
| AuthService.Logout | services/authService.ts:40-46 | Exactly one session-deletion request, for `'current'`. It completes with no value whatever the backend does. |
| AuthContext.CheckUser | contexts/AuthContext.tsx:35-45 | Exactly one lookup is made. Loading ends false and the user is the lookup's account, or none when there is no session. |
| AuthContext.Login | contexts/AuthContext.tsx:47-59 | On failure: the same error is returned, the user is unchanged and no check is made. On success: the check runs, the user is the looked-up account and `{success: true}` is returned. Loading always ends false. |
| AuthContext.Register | contexts/AuthContext.tsx:61-72 | On failure: the error is returned and no login is attempted. On success: reply, final state and later requests are exactly those of `login` with the same credentials. Loading always ends false. |
| AuthContext.Logout | contexts/AuthContext.tsx:74-81 | Makes one session deletion, then one lookup. Loading ends false and the user is the post-logout lookup result. |
| AuthContext.Mount | contexts/AuthContext.tsx:31-33 | The session check on mount ends with loading false and the looked-up user. |
| AuthContext.RegisterThenSignedIn | contexts/AuthContext.tsx:61-72 | A successful registration, login and lookup leave the looked-up account signed in. This takes exactly three requests in order: create, session, lookup. |
| NotesScreen.RedirectEvents | app/notes/index.tsx:20-24 | A navigation to `/auth` is emitted exactly when auth loading is false and there is no user. |
| NotesScreen.SettledSessionRedirectsOrFetches | app/notes/index.tsx:20-30 | Once the session check has settled, the screen does exactly one of redirect and fetch. |
| NotesScreen.FetchNotes | app/notes/index.tsx:32-44 | Loading ends false. On error: the message becomes the error, the list is unchanged and an alert is emitted. On success: the list is replaced and the error ends cleared. |
| NotesScreen.FetchClearsStaleError | app/notes/index.tsx:40-43 | A successful fetch of an empty list still clears an earlier error. That is due to the explicit `setError(null)`: `setNotes([])` alone keeps the error. |
| NotesScreen.AddNote | app/notes/index.tsx:46-58 | A blank draft makes no request and leaves the state unchanged. Success applies the store's append. An error leaves the state unchanged and emits an alert. |
| NotesScreen.BlankDraftIsNoOp | app/notes/index.tsx:47-49 | A whitespace-only draft is a complete no-op: same state, no events, no requests. |
| NotesScreen.AddNoteAppends | app/notes/index.tsx:51-57 | A successful add for a signed-in user sends the draft and the user's id. It appends exactly the created note, closes the modal and clears the draft. |
| NotesScreen.EditNote | app/notes/index.tsx:60-73 | Blank text emits `'Note text cannot be empty'` with no request. Otherwise exactly one update is made. Success applies replace-by-id; an error leaves the state unchanged and emits an alert. |
| NotesScreen.DeleteNote | app/notes/index.tsx:75-95 | A missing `$id` emits an alert, and the prompt still follows. The gateway is called only on confirm. Success removes the note by id and emits nothing after the prompt. A failure leaves the state unchanged and adds exactly one alert carrying the gateway's message: the empty-id refusal for an unsaved note, the backend's message otherwise. |
| NotesScreen.ConfirmedDeleteRemovesId | app/notes/index.tsx:85-91 | After a confirmed, successful delete, no note with the deleted note's id remains. |
| NotesScreen.DeleteNeverSendsEmptyId | app/notes/index.tsx:75-94 | The delete flow never sends an empty id to the backend. |
| AuthScreen.Validate | app/auth/index.tsx:17-26 | Blank email or password gives `'Email and password are required'`, which takes precedence. Otherwise registering with a mismatched confirmation gives `'Passwords do not match'`. |
| AuthScreen.HandleAuth | app/auth/index.tsx:17-36 | A validation failure is shown in the form with no request. Register mode calls `register` and login mode calls `login`. A reply that is not an error gives exactly one event, the navigation to `/notes`. An error gives exactly one alert carrying its message instead. |
| AuthScreen.LoginIgnoresConfirmation | app/auth/index.tsx:23-28 | In login mode, the confirmation field has no effect on the outcome. |
| AuthScreen.RequestsOnlyAfterValidation | app/auth/index.tsx:18-21 | A backend request is made only when both credentials are non-blank. |
| AuthScreen.NavigationSettlesSession | app/auth/index.tsx:30-35 | Whenever the screen navigates to `/notes`, a controller flow has run and the session check has settled (loading is false). |
| AuthScreen.ToggleMode | app/auth/index.tsx:80-83 | Flips `isRegistering` and changes nothing else. |
| AuthScreen.ToggleTwiceIsIdentity | app/auth/index.tsx:80-83 | Toggling twice returns the original form. |
| NoteItem.Mount | components/NoteItem.tsx:13-14 | A row starts out of edit mode, with the draft equal to the note's text. |
| NoteItem.PressEdit | components/NoteItem.tsx:51-55 | The edit button enters edit mode and keeps the draft. |
| NoteItem.ChangeText | components/NoteItem.tsx:33 | Typing replaces the draft and keeps the mode. |
| NoteItem.Save | components/NoteItem.tsx:17-24 | A blank draft leaves the row unchanged and calls nothing. Otherwise `onEdit(note, draft)` is called once and edit mode ends. |
| NoteItem.BlankSaveStaysEditing | components/NoteItem.tsx:17-20 | A whitespace-only draft keeps the row in edit mode and calls nothing. |
| NoteItem.PressDelete | components/NoteItem.tsx:59-62 | The delete button calls `onDelete(note)` once, in either mode, and leaves the row unchanged. |
| NoteItem.SavedEditReachesGateway | components/NoteItem.tsx:22 | Every edit a row hands up passes the screen's blank-text guard and reaches the gateway. Only a backend failure then raises an alert. |

## Left out

- NotesScreen.AddNote: follows the corrected `NoteService.AddNote`, not the code as written. When the create request throws a value with empty text, the app as written appends the object `{error: ''}` to the list. The model alerts an empty message instead and leaves the list unchanged, because a note list cannot hold a non-note value. `NoteService.AddNoteAsWrittenLeaksEmptyError` records the as-written gateway result for that input.

- The backend SDK itself (`account`, `database`, `Query.equal` encoding, `ID.unique()`): outcomes are parameters, filters are `Equal(attribute, value)` values, generated ids are opaque strings.
- The clock read for `createdAt`: it is a parameter.
- `console.error` logging in every gateway: it has no effect on results.
- `AuthService.ErrorText`: an `Error` whose `stack` is undefined is not modelled; the stack is always a string here.
- The dialogs and navigation themselves: only the events asking for them are modelled. The add-note modal, list rendering, styling and the root layout's header button are presentation.
- Interleaving of in-flight requests, such as a slow edit racing a delete of the same note. Every flow is modelled as running to completion before the next one starts.
- End-to-end properties that depend on what the backend stores, such as a note read back after creation. The backend has no state in this model.
- `AuthContext` as a React context: its default value (unsigned stubs) is never used by the screens.

## Findings

| source | as written | input that shows it | evidently intended | confidence | as-written member | corrected member |
|---|---|---|---|---|---|---|
| services/noteService.ts:46 | The create response is tested with `if (response.error)`, i.e. by truthiness of the message. | The create request throws `new Error()`, whose message is `''`. The same holds for `throw ''`. The gateway yields `{error: ''}`, the test is false, and `addNote` returns `{data: {error: ''}}`. The screen would then append that object as a note. | Classify the response with `isErrorResponse`, as `updateNote` and `deleteNote` do, so that every backend failure is reported as an error. | medium; not executed | NoteService.AddNoteAsWritten (shown by NoteService.AddNoteAsWrittenLeaksEmptyError) | NoteService.AddNote (used by NotesScreen.AddNote) |
