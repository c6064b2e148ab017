/**
 * The note gateway: note operations over the document gateway, fixed to the
 * configured notes collection, with the local validation each one performs
 * before any backend request.
 */
module NoteService {
  import opened Types
  import opened Text
  import DatabaseService

  const MissingUserIdError := "userId is missing"
  const AddWithoutUserError := "UserId require to add note"
  const EmptyTextError := "Note text cannot be empty"

  /**
   * `getNotes`: a missing or empty user id yields the dual-shape
   * `{ data: [], error }` without a request; otherwise one listing filtered on
   * `userId = u`, whose failure keeps its message.
   */
  function GetNotes(cfg: Config, userId: Option<string>, outcome: Outcome<Option<seq<Note>>>)
    : (r: Traced<Response<seq<Note>>>)
    ensures !Truthy(userId) ==> r.result == Partial([], MissingUserIdError) && r.calls == []
    ensures Truthy(userId) ==> r.calls == [DbList(cfg.db, cfg.notesCollection, [Equal("userId", userId.value)])]
    ensures Truthy(userId) ==> (DatabaseService.IsErrorResponse(r.result) <==> outcome.Threw?)
    ensures Truthy(userId) && outcome.Threw? ==>
              r.result == Failure(DatabaseService.ErrorText(outcome.thrown))
    ensures Truthy(userId) && outcome.Returned? ==>
              r.result == Value(if outcome.value.Some? then outcome.value.value else [])
  {
    if !Truthy(userId) then Traced(Partial([], MissingUserIdError), [])
    else
      var listed := DatabaseService.ListDocuments(cfg.db, cfg.notesCollection,
                                                  [Equal("userId", userId.value)], outcome);
      match listed.result
      case Value(docs) => Traced(Value(docs), listed.calls)
      case Failure(e) => Traced(Failure(e), listed.calls)
  }

  /** The validation `addNote` performs, in its order: owner first, then text. */
  function AddNoteGate(userId: Option<string>, text: string): (g: Option<string>)
    ensures g.None? <==> Truthy(userId) && text != ""
    ensures !Truthy(userId) ==> g == Some(AddWithoutUserError)
    ensures Truthy(userId) && text == "" ==> g == Some(EmptyTextError)
  {
    if !Truthy(userId) then Some(AddWithoutUserError)
    else if text == "" then Some(EmptyTextError)
    else None
  }

  /**
   * `addNote` exactly as written: after a successful gate it tests the
   * create response's `error` field by truthiness, so a failure whose message
   * is the empty string is handed back as if it were the created document.
   */
  function AddNoteAsWritten(cfg: Config, userId: Option<string>, text: string, createdAt: string,
                            newId: string, outcome: Outcome<Note>): (r: Traced<Response<Response<Note>>>)
    ensures AddNoteGate(userId, text).Some? ==> r == Traced(Failure(AddNoteGate(userId, text).value), [])
    ensures AddNoteGate(userId, text).None? ==>
              r.calls == [DbCreate(cfg.db, cfg.notesCollection, newId, NoteFields(text, userId.value, createdAt))]
  {
    var gate := AddNoteGate(userId, text);
    if gate.Some? then Traced(Failure(gate.value), [])
    else
      var created := DatabaseService.CreateDocument(cfg.db, cfg.notesCollection,
                                                    NoteFields(text, userId.value, createdAt), Some(newId), outcome);
      if Truthy(DatabaseService.ErrorField(created.result)) then
        Traced(Failure(DatabaseService.ErrorField(created.result).value), created.calls)
      else
        Traced(Value(created.result), created.calls)
  }

  /**
   * `addNote` with the create response classified by `isErrorResponse`, as
   * `updateNote` and `deleteNote` classify theirs: every backend failure is
   * reported as a failure, and only a created document is reported as data.
   */
  function AddNote(cfg: Config, userId: Option<string>, text: string, createdAt: string,
                   newId: string, outcome: Outcome<Note>): (r: Traced<Response<Note>>)
    ensures !Truthy(userId) ==> r == Traced(Failure(AddWithoutUserError), [])
    ensures Truthy(userId) && text == "" ==> r == Traced(Failure(EmptyTextError), [])
    ensures Truthy(userId) && text != "" ==>
              r.calls == [DbCreate(cfg.db, cfg.notesCollection, newId, NoteFields(text, userId.value, createdAt))]
    ensures Truthy(userId) && text != "" ==> (DatabaseService.IsErrorResponse(r.result) <==> outcome.Threw?)
    ensures Truthy(userId) && text != "" && outcome.Threw? ==>
              r.result == Failure(DatabaseService.ErrorText(outcome.thrown))
    ensures Truthy(userId) && text != "" && outcome.Returned? ==> r.result == Value(outcome.value)
  {
    var gate := AddNoteGate(userId, text);
    if gate.Some? then Traced(Failure(gate.value), [])
    else
      var created := DatabaseService.CreateDocument(cfg.db, cfg.notesCollection,
                                                    NoteFields(text, userId.value, createdAt), Some(newId), outcome);
      if DatabaseService.IsErrorResponse(created.result) then
        Traced(Failure(DatabaseService.ErrorField(created.result).value), created.calls)
      else
        Traced(created.result, created.calls)
  }

  /** `updateNote`: sends only the new text, addressed to the note's id. */
  function UpdateNote(cfg: Config, note: Note, text: string, outcome: Outcome<Note>): (r: Traced<Response<Note>>)
    ensures r.calls == [DbUpdate(cfg.db, cfg.notesCollection, note.id, TextField(text))]
    ensures DatabaseService.IsErrorResponse(r.result) <==> outcome.Threw?
    ensures outcome.Threw? ==> r.result == Failure(DatabaseService.ErrorText(outcome.thrown))
    ensures outcome.Returned? ==> r.result == Value(outcome.value)
  {
    var updated := DatabaseService.UpdateDocument(cfg.db, cfg.notesCollection, note.id, TextField(text), outcome);
    if DatabaseService.IsErrorResponse(updated.result) then
      Traced(Failure(DatabaseService.ErrorField(updated.result).value), updated.calls)
    else
      Traced(updated.result, updated.calls)
  }

  /** `deleteNote`: `{ success: true }` on success; the gateway's error, including the empty-id refusal, otherwise. */
  function DeleteNote(cfg: Config, note: Note, outcome: Outcome<()>): (r: Traced<Response<bool>>)
    ensures note.id == "" ==> r == Traced(Failure(DatabaseService.EmptyIdError), [])
    ensures note.id != "" ==> r.calls == [DbDelete(cfg.db, cfg.notesCollection, note.id)]
    ensures note.id != "" ==> (DatabaseService.IsErrorResponse(r.result) <==> outcome.Threw?)
    ensures note.id != "" && outcome.Threw? ==> r.result == Failure(DatabaseService.ErrorText(outcome.thrown))
    ensures note.id != "" && outcome.Returned? ==> r.result == Value(true)
  {
    var deleted := DatabaseService.DeleteDocument(cfg.db, cfg.notesCollection, note.id, outcome);
    if DatabaseService.IsErrorResponse(deleted.result) then
      Traced(Failure(DatabaseService.ErrorField(deleted.result).value), deleted.calls)
    else
      Traced(Value(true), deleted.calls)
  }

  /** The missing-user answer of `getNotes` still reads as an error to `isErrorResponse`. */
  lemma MissingUserIsError(cfg: Config, outcome: Outcome<Option<seq<Note>>>)
    ensures DatabaseService.IsErrorResponse(GetNotes(cfg, None, outcome).result)
    ensures DatabaseService.IsErrorResponse(GetNotes(cfg, Some(""), outcome).result)
  {
  }

  /** Whitespace-only text passes the `addNote` gate: only `''` is refused. */
  lemma WhitespaceTextPassesGate(userId: Option<string>, text: string)
    requires Truthy(userId) && text != "" && Blank(text)
    ensures AddNoteGate(userId, text).None?
  {
  }

  /**
   * The defect of `AddNoteAsWritten`: a create request that throws a value
   * whose text is empty (`new Error()`, or `throw ''`) comes back as data,
   * which `isErrorResponse` does not classify as an error.
   */
  lemma AddNoteAsWrittenLeaksEmptyError(cfg: Config, userId: string, text: string, createdAt: string,
                                        newId: string, e: Thrown)
    requires userId != "" && text != "" && DatabaseService.ErrorText(e) == ""
    ensures var r := AddNoteAsWritten(cfg, Some(userId), text, createdAt, newId, Threw(e));
            r.result == Value(Failure("")) && !DatabaseService.IsErrorResponse(r.result)
    ensures DatabaseService.IsErrorResponse(AddNote(cfg, Some(userId), text, createdAt, newId, Threw(e)).result)
  {
  }

  /**
   * Outside that one input the two versions agree: same requests, same
   * failures, and the as-written data wraps exactly the corrected data.
   */
  lemma AddNoteAsWrittenAgreesOtherwise(cfg: Config, userId: Option<string>, text: string, createdAt: string,
                                        newId: string, outcome: Outcome<Note>)
    requires outcome.Threw? ==> DatabaseService.ErrorText(outcome.thrown) != ""
    ensures var w := AddNoteAsWritten(cfg, userId, text, createdAt, newId, outcome);
            var c := AddNote(cfg, userId, text, createdAt, newId, outcome);
            && w.calls == c.calls
            && (c.result.Failure? ==> w.result == Failure(c.result.error))
            && (c.result.Value? ==> w.result == Value(c.result))
  {
  }
}
