/**
 * One row of the notes list: a display/edit state machine with a draft of
 * the note's text, a blank-text save guard, and callbacks to the screen.
 */
module NoteItem {
  import opened Types
  import opened Text
  import NotesScreen
  import NoteStore
  import DatabaseService

  datatype Row = Row(isEditing: bool, editedText: string)

  /** A call the row makes into its parent screen. */
  datatype Callback = OnEdit(note: Note, text: string) | OnDelete(note: Note)

  /** A row's new state and the callbacks it fired. */
  datatype RowStep = RowStep(row: Row, callbacks: seq<Callback>)

  /** A freshly rendered row shows the note, with the draft holding its text. */
  function Mount(note: Note): (r: Row)
    ensures !r.isEditing && r.editedText == note.text
  {
    Row(false, note.text)
  }

  /** The pencil button: enter edit mode, keeping the draft. */
  function PressEdit(r: Row): (r': Row)
    ensures r'.isEditing && r'.editedText == r.editedText
  {
    r.(isEditing := true)
  }

  /** Typing into the input replaces the draft. */
  function ChangeText(r: Row, text: string): (r': Row)
    ensures r'.editedText == text && r'.isEditing == r.isEditing
  {
    r.(editedText := text)
  }

  /**
   * `handleSave`: a blank draft is ignored and the row stays as it is;
   * otherwise `onEdit(note, draft)` fires once and edit mode ends.
   */
  function Save(note: Note, r: Row): (s: RowStep)
    ensures Blank(r.editedText) ==> s == RowStep(r, [])
    ensures !Blank(r.editedText) ==> s.callbacks == [OnEdit(note, r.editedText)]
    ensures !Blank(r.editedText) ==> !s.row.isEditing && s.row.editedText == r.editedText
  {
    if Blank(r.editedText) then RowStep(r, [])
    else RowStep(r.(isEditing := false), [OnEdit(note, r.editedText)])
  }

  /** The delete button: `onDelete(note)` in either mode, the row unchanged. */
  function PressDelete(note: Note, r: Row): (s: RowStep)
    ensures s.row == r && s.callbacks == [OnDelete(note)]
  {
    RowStep(r, [OnDelete(note)])
  }

  /** A whitespace-only draft keeps the row in edit mode and calls nothing. */
  lemma BlankSaveStaysEditing(note: Note, r: Row)
    requires r.isEditing
    requires forall i :: 0 <= i < |r.editedText| ==> IsSpace(r.editedText[i])
    ensures Save(note, r).row.isEditing && Save(note, r).callbacks == []
  {
    BlankIffAllSpace(r.editedText);
  }

  /**
   * Every edit a row hands to the screen passes the screen's own blank-text
   * guard: the screen sends it to the gateway, and only a backend failure
   * raises an alert.
   */
  lemma SavedEditReachesGateway(cfg: Config, s: NoteStore.NoteState, note: Note, r: Row, outcome: Outcome<Note>)
    requires Save(note, r).callbacks != []
    ensures var cb := Save(note, r).callbacks[0];
            var step := NotesScreen.EditNote(cfg, s, cb.note, cb.text, outcome);
            && step.calls == [DbUpdate(cfg.db, cfg.notesCollection, note.id, TextField(r.editedText))]
            && (outcome.Returned? ==> step.events == [] && step.state == NoteStore.EditNote(s, outcome.value))
            && (outcome.Threw? ==> step.events == [NotesScreen.ErrorAlert(DatabaseService.ErrorText(outcome.thrown))])
  {
  }
}
