/**
 * The notes screen controller: the redirect and fetch rules driven by the
 * session, and the fetch, add, edit and delete flows, each a transition of
 * the notes store driven by a note-gateway result. Alerts, the delete prompt
 * and navigation are emitted as events.
 */
module NotesScreen {
  import opened Types
  import opened Text
  import opened NoteStore
  import AuthStore
  import NoteService
  import DatabaseService

  const UnsavedNoteMessage := "Cannot delete a note that has't been saved to the db"
  const DeleteTitle := "Delete Note"
  const DeleteQuestion := "Are you sure you want to delete this note?"
  /** The screen's own refusal of blank edit text; the same words as the note gateway's, raised before any request. */
  const BlankEditMessage := "Note text cannot be empty"

  /** A flow's final store state, the events it emitted and the requests it made. */
  datatype ScreenStep = ScreenStep(state: NoteState, events: seq<Event>, calls: seq<Call>)

  /** `user?.$id`. */
  function UserId(user: Option<UserSession>): Option<string> {
    if user.Some? then Some(user.value.id) else None
  }

  function ErrorAlert(message: string): Event {
    Alert("Error", Some(message))
  }

  /** The screen leaves for `/auth` once the session check has settled with nobody signed in. */
  predicate ShouldRedirect(auth: AuthStore.AuthState) {
    !auth.loading && auth.user.None?
  }

  /** The screen fetches notes whenever a user is present. */
  predicate ShouldFetch(auth: AuthStore.AuthState) {
    auth.user.Some?
  }

  /** The effect of the redirect rule: one navigation to `/auth`, or nothing. */
  function RedirectEvents(auth: AuthStore.AuthState): (es: seq<Event>)
    ensures Navigate("/auth") in es <==> !auth.loading && auth.user.None?
    ensures |es| <= 1
  {
    if ShouldRedirect(auth) then [Navigate("/auth")] else []
  }

  /**
   * `fetchNotes`: the spinner ends off; a failure stores its message as the
   * error and alerts it, leaving the list alone; a success replaces the list
   * and clears the error.
   */
  function FetchNotes(cfg: Config, s: NoteState, user: Option<UserSession>,
                      outcome: Outcome<Option<seq<Note>>>): (r: ScreenStep)
    ensures !r.state.loading
    ensures r.state.modalVisible == s.modalVisible && r.state.newNote == s.newNote
    ensures var got := NoteService.GetNotes(cfg, UserId(user), outcome).result;
            && r.calls == NoteService.GetNotes(cfg, UserId(user), outcome).calls
            && (DatabaseService.IsErrorResponse(got) ==>
                  r.state.notes == s.notes && r.state.error == Some(got.error) && r.events == [ErrorAlert(got.error)])
            && (!DatabaseService.IsErrorResponse(got) ==>
                  got.Value? && r.state.notes == got.value && r.state.error == None && r.events == [])
  {
    var s1 := SetLoading(s, true);
    var got := NoteService.GetNotes(cfg, UserId(user), outcome);
    var s2 := SetLoading(s1, false);
    if DatabaseService.IsErrorResponse(got.result) then
      var message := DatabaseService.ErrorField(got.result).value;
      ScreenStep(SetError(s2, Some(message)), [ErrorAlert(message)], got.calls)
    else
      match got.result
      case Value(docs) => ScreenStep(SetError(SetNotes(s2, docs), None), [], got.calls)
  }

  /**
   * `addNote`: a blank draft is ignored outright; otherwise the draft is sent
   * for the signed-in user, a success is appended by the store (which closes
   * the modal and clears the draft), a failure is alerted.
   */
  function AddNote(cfg: Config, s: NoteState, user: Option<UserSession>, createdAt: string,
                   newId: string, outcome: Outcome<Note>): (r: ScreenStep)
    ensures Blank(s.newNote) ==> r == ScreenStep(s, [], [])
    ensures !Blank(s.newNote) ==>
              var sent := NoteService.AddNote(cfg, UserId(user), s.newNote, createdAt, newId, outcome);
              && r.calls == sent.calls
              && (DatabaseService.IsErrorResponse(sent.result) ==>
                    r.state == s && r.events == [ErrorAlert(sent.result.error)])
              && (!DatabaseService.IsErrorResponse(sent.result) ==>
                    sent.result.Value? && r.state == NoteStore.AddNote(s, sent.result.value) && r.events == [])
  {
    if Blank(s.newNote) then ScreenStep(s, [], [])
    else
      var sent := NoteService.AddNote(cfg, UserId(user), s.newNote, createdAt, newId, outcome);
      if DatabaseService.IsErrorResponse(sent.result) then
        ScreenStep(s, [ErrorAlert(DatabaseService.ErrorField(sent.result).value)], sent.calls)
      else
        match sent.result
        case Value(note) => ScreenStep(NoteStore.AddNote(s, note), [], sent.calls)
  }

  /**
   * `editNote`: blank text is refused with an alert and no request;
   * otherwise the text is sent, a success replaces the note by id in place,
   * a failure is alerted and the list stays as it was.
   */
  function EditNote(cfg: Config, s: NoteState, note: Note, text: string, outcome: Outcome<Note>): (r: ScreenStep)
    ensures Blank(text) ==> r == ScreenStep(s, [ErrorAlert(BlankEditMessage)], [])
    ensures !Blank(text) ==> r.calls == [DbUpdate(cfg.db, cfg.notesCollection, note.id, TextField(text))]
    ensures !Blank(text) && outcome.Threw? ==>
              r.state == s && r.events == [ErrorAlert(DatabaseService.ErrorText(outcome.thrown))]
    ensures !Blank(text) && outcome.Returned? ==>
              r.state == NoteStore.EditNote(s, outcome.value) && r.events == []
  {
    if Blank(text) then ScreenStep(s, [ErrorAlert(BlankEditMessage)], [])
    else
      var sent := NoteService.UpdateNote(cfg, note, text, outcome);
      if DatabaseService.IsErrorResponse(sent.result) then
        ScreenStep(s, [ErrorAlert(DatabaseService.ErrorField(sent.result).value)], sent.calls)
      else
        match sent.result
        case Value(updated) => ScreenStep(NoteStore.EditNote(s, updated), [], sent.calls)
  }

  /**
   * `deleteNote`: an unsaved note (empty id) is alerted but the prompt is
   * still shown; only a confirmed prompt reaches the gateway, a success
   * removes the note by id, a failure is alerted.
   */
  function DeleteNote(cfg: Config, s: NoteState, note: Note, confirmed: bool, outcome: Outcome<()>): (r: ScreenStep)
    ensures var warn := if note.id == "" then [ErrorAlert(UnsavedNoteMessage)] else [];
            |r.events| > |warn| && r.events[..|warn| + 1] == warn + [Prompt(DeleteTitle, DeleteQuestion)]
    ensures !confirmed ==> r.state == s && r.calls == [] && |r.events| == (if note.id == "" then 2 else 1)
    ensures confirmed ==> r.calls == NoteService.DeleteNote(cfg, note, outcome).calls
    ensures confirmed && note.id != "" && outcome.Returned? ==> r.state == NoteStore.DeleteNote(s, note)
    ensures confirmed && note.id == "" ==>
              r.state == s && r.events == [ErrorAlert(UnsavedNoteMessage), Prompt(DeleteTitle, DeleteQuestion),
                                           ErrorAlert(DatabaseService.EmptyIdError)]
    ensures confirmed && note.id != "" && outcome.Returned? ==> r.events == [Prompt(DeleteTitle, DeleteQuestion)]
    ensures confirmed && note.id != "" && outcome.Threw? ==>
              r.state == s && r.events == [Prompt(DeleteTitle, DeleteQuestion),
                                           ErrorAlert(DatabaseService.ErrorText(outcome.thrown))]
  {
    var warn := if note.id == "" then [ErrorAlert(UnsavedNoteMessage)] else [];
    var prompted := warn + [Prompt(DeleteTitle, DeleteQuestion)];
    if !confirmed then ScreenStep(s, prompted, [])
    else
      var sent := NoteService.DeleteNote(cfg, note, outcome);
      if DatabaseService.IsErrorResponse(sent.result) then
        ScreenStep(s, prompted + [ErrorAlert(DatabaseService.ErrorField(sent.result).value)], sent.calls)
      else
        ScreenStep(NoteStore.DeleteNote(s, note), prompted, sent.calls)
  }

  /** Once the session check has settled, the screen does exactly one of: redirect to `/auth`, or fetch. */
  lemma SettledSessionRedirectsOrFetches(auth: AuthStore.AuthState)
    requires !auth.loading
    ensures ShouldRedirect(auth) != ShouldFetch(auth)
  {
  }

  /** A whitespace-only draft never reaches the gateway and changes nothing. */
  lemma BlankDraftIsNoOp(cfg: Config, s: NoteState, user: Option<UserSession>, createdAt: string,
                         newId: string, outcome: Outcome<Note>)
    requires forall i :: 0 <= i < |s.newNote| ==> IsSpace(s.newNote[i])
    ensures AddNote(cfg, s, user, createdAt, newId, outcome) == ScreenStep(s, [], [])
  {
    BlankIffAllSpace(s.newNote);
  }

  /** A successful add for a signed-in user appends exactly the created note and closes the modal. */
  lemma AddNoteAppends(cfg: Config, s: NoteState, user: UserSession, createdAt: string, newId: string, created: Note)
    requires !Blank(s.newNote) && user.id != ""
    ensures var r := AddNote(cfg, s, Some(user), createdAt, newId, Returned(created));
            && r.state.notes == s.notes + [created]
            && !r.state.modalVisible && r.state.newNote == ""
            && r.calls == [DbCreate(cfg.db, cfg.notesCollection, newId, NoteFields(s.newNote, user.id, createdAt))]
  {
    NotBlankIsNonEmpty(s.newNote);
  }

  /** Deleting through the screen never sends an empty id to the backend. */
  lemma DeleteNeverSendsEmptyId(cfg: Config, s: NoteState, note: Note, confirmed: bool, outcome: Outcome<()>)
    ensures forall c :: c in DeleteNote(cfg, s, note, confirmed, outcome).calls ==> c.DbDelete? && c.id != ""
  {
  }

  /**
   * A successful fetch ends with the error cleared even when the list is
   * empty: `setNotes` alone would keep a stale error, the explicit
   * `setError(null)` after it does not.
   */
  lemma FetchClearsStaleError(cfg: Config, s: NoteState, user: UserSession)
    requires s.error.Some? && user.id != ""
    ensures var r := FetchNotes(cfg, s, Some(user), Returned(Some([])));
            r.state.error == None && r.state.notes == []
    ensures NoteStore.SetNotes(s, []).error == s.error
  {
  }

  /** After a confirmed, successful delete no note with the deleted note's id is left. */
  lemma ConfirmedDeleteRemovesId(cfg: Config, s: NoteState, note: Note)
    requires note.id != ""
    ensures forall m :: m in DeleteNote(cfg, s, note, true, Returned(())).state.notes ==> m.id != note.id
  {
  }
}
