/**
 * The notes store: one immutable record and the reducers the notes screen
 * dispatches. Every reducer returns the next state and leaves the fields it
 * does not name exactly as they were.
 */
module NoteStore {
  import opened Types

  datatype NoteState = NoteState(
    notes: seq<Note>,
    error: Option<string>,
    modalVisible: bool,
    loading: bool,
    newNote: string)

  /** The store before any action: no notes, no error, modal closed, spinner on, empty draft. */
  function Initial(): (s: NoteState)
    ensures s.notes == [] && s.error == None
    ensures !s.modalVisible && s.loading && s.newNote == ""
  {
    NoteState([], None, false, true, "")
  }

  /** `a` can be obtained from `b` by deleting elements, without reordering what remains. */
  predicate IsSubsequence<T(==)>(a: seq<T>, b: seq<T>)
    decreases |b|
  {
    if b == [] then a == []
    else (a != [] && a[0] == b[0] && IsSubsequence(a[1..], b[1..])) || IsSubsequence(a, b[1..])
  }

  /** The `$id`s of a note list, position by position. */
  function Ids(ns: seq<Note>): (ids: seq<string>)
    ensures |ids| == |ns|
    ensures forall i :: 0 <= i < |ns| ==> ids[i] == ns[i].id
  {
    if ns == [] then [] else [ns[0].id] + Ids(ns[1..])
  }

  /**
   * `notes.map(n => n.$id === u.$id ? u : n)`: every note sharing `u`'s id is
   * replaced by `u`, every other note stays where it was.
   */
  function ReplaceById(ns: seq<Note>, u: Note): (r: seq<Note>)
    ensures |r| == |ns|
    ensures forall i :: 0 <= i < |ns| ==> r[i] == (if ns[i].id == u.id then u else ns[i])
  {
    if ns == [] then []
    else [if ns[0].id == u.id then u else ns[0]] + ReplaceById(ns[1..], u)
  }

  /**
   * `notes.filter(n => n.$id !== id)`: a note survives exactly when its id
   * differs; `RemoveKeepsOrder` and `RemoveKeepsCounts` add that survivors
   * keep their order and multiplicity.
   */
  function RemoveById(ns: seq<Note>, id: string): (r: seq<Note>)
    ensures forall n: Note :: n in r <==> n in ns && n.id != id
  {
    if ns == [] then []
    else if ns[0].id == id then RemoveById(ns[1..], id)
    else [ns[0]] + RemoveById(ns[1..], id)
  }

  /** The survivors of a filter appear in their original relative order. */
  lemma {:induction false} RemoveKeepsOrder(ns: seq<Note>, id: string)
    ensures IsSubsequence(RemoveById(ns, id), ns)
  {
    if ns != [] {
      RemoveKeepsOrder(ns[1..], id);
      if ns[0].id != id {
        assert RemoveById(ns, id)[1..] == RemoveById(ns[1..], id);
      }
    }
  }

  /** Every note with another id survives as many times as it occurred. */
  lemma {:induction false} RemoveKeepsCounts(ns: seq<Note>, id: string)
    ensures forall n: Note :: n.id != id ==> multiset(RemoveById(ns, id))[n] == multiset(ns)[n]
  {
    if ns != [] {
      RemoveKeepsCounts(ns[1..], id);
      assert ns == [ns[0]] + ns[1..];
    }
  }

  /** `setNotes`: replaces the list; clears the error only when the new list is non-empty. */
  function SetNotes(s: NoteState, ns: seq<Note>): (r: NoteState)
    ensures r.notes == ns
    ensures |ns| > 0 ==> r.error == None
    ensures |ns| == 0 ==> r.error == s.error
    ensures r.modalVisible == s.modalVisible && r.loading == s.loading && r.newNote == s.newNote
  {
    var s1 := s.(notes := ns);
    if |ns| > 0 then s1.(error := None) else s1
  }

  /** `addNote`: appends one note after the untouched old list, closes the modal and clears the draft. */
  function AddNote(s: NoteState, n: Note): (r: NoteState)
    ensures |r.notes| == |s.notes| + 1
    ensures r.notes[..|s.notes|] == s.notes && r.notes[|s.notes|] == n
    ensures !r.modalVisible && r.newNote == ""
    ensures r.error == s.error && r.loading == s.loading
  {
    s.(notes := s.notes + [n], modalVisible := false, newNote := "")
  }

  /** `editNote`: replaces the notes sharing the updated note's id, in place. */
  function EditNote(s: NoteState, u: Note): (r: NoteState)
    ensures |r.notes| == |s.notes|
    ensures forall i :: 0 <= i < |s.notes| ==>
              (s.notes[i].id == u.id ==> r.notes[i] == u) && (s.notes[i].id != u.id ==> r.notes[i] == s.notes[i])
    ensures r.error == s.error && r.modalVisible == s.modalVisible
    ensures r.loading == s.loading && r.newNote == s.newNote
  {
    s.(notes := ReplaceById(s.notes, u))
  }

  /** `deleteNote`: drops every note sharing the given note's id, keeping the others in order. */
  function DeleteNote(s: NoteState, n: Note): (r: NoteState)
    ensures forall m :: m in r.notes <==> m in s.notes && m.id != n.id
    ensures IsSubsequence(r.notes, s.notes)
    ensures r.error == s.error && r.modalVisible == s.modalVisible
    ensures r.loading == s.loading && r.newNote == s.newNote
  {
    RemoveKeepsOrder(s.notes, n.id);
    s.(notes := RemoveById(s.notes, n.id))
  }

  function ShowModal(s: NoteState): (r: NoteState)
    ensures r.modalVisible
    ensures r.notes == s.notes && r.error == s.error && r.loading == s.loading && r.newNote == s.newNote
  {
    s.(modalVisible := true)
  }

  function HideModal(s: NoteState): (r: NoteState)
    ensures !r.modalVisible
    ensures r.notes == s.notes && r.error == s.error && r.loading == s.loading && r.newNote == s.newNote
  {
    s.(modalVisible := false)
  }

  function SetLoading(s: NoteState, loading: bool): (r: NoteState)
    ensures r.loading == loading
    ensures r.notes == s.notes && r.error == s.error && r.modalVisible == s.modalVisible && r.newNote == s.newNote
  {
    s.(loading := loading)
  }

  function SetNewNote(s: NoteState, text: string): (r: NoteState)
    ensures r.newNote == text
    ensures r.notes == s.notes && r.error == s.error && r.modalVisible == s.modalVisible && r.loading == s.loading
  {
    s.(newNote := text)
  }

  function SetError(s: NoteState, error: Option<string>): (r: NoteState)
    ensures r.error == error
    ensures r.notes == s.notes && r.modalVisible == s.modalVisible && r.loading == s.loading && r.newNote == s.newNote
  {
    s.(error := error)
  }

  /** Replacing by an id no note carries leaves the list as it was. */
  lemma ReplaceAbsentId(ns: seq<Note>, u: Note)
    requires forall n :: n in ns ==> n.id != u.id
    ensures ReplaceById(ns, u) == ns
  {
  }

  /** Replacing by id never changes which id sits at which position. */
  lemma ReplaceKeepsIds(ns: seq<Note>, u: Note)
    ensures Ids(ReplaceById(ns, u)) == Ids(ns)
  {
  }

  /** Replacing twice with the same note is replacing once. */
  lemma ReplaceIdempotent(ns: seq<Note>, u: Note)
    ensures ReplaceById(ReplaceById(ns, u), u) == ReplaceById(ns, u)
  {
  }

  /** Removing an id no note carries leaves the list as it was. */
  lemma {:induction false} RemoveAbsentId(ns: seq<Note>, id: string)
    requires forall n :: n in ns ==> n.id != id
    ensures RemoveById(ns, id) == ns
  {
    if ns != [] {
      RemoveAbsentId(ns[1..], id);
    }
  }

  /** Filtering distributes over appending one note at the end. */
  lemma {:induction false} RemoveAppend(ns: seq<Note>, n: Note, id: string)
    ensures RemoveById(ns + [n], id) == RemoveById(ns, id) + (if n.id == id then [] else [n])
  {
    if ns != [] {
      assert (ns + [n])[1..] == ns[1..] + [n];
      RemoveAppend(ns[1..], n, id);
    }
  }

  /** The store's `editNote` with an id absent from the list changes nothing. */
  lemma EditAbsentIsIdentity(s: NoteState, u: Note)
    requires forall n :: n in s.notes ==> n.id != u.id
    ensures EditNote(s, u) == s
  {
  }

  /** The store's `editNote` is idempotent. */
  lemma EditIdempotent(s: NoteState, u: Note)
    ensures EditNote(EditNote(s, u), u) == EditNote(s, u)
  {
  }

  /** The store's `deleteNote` is idempotent. */
  lemma DeleteIdempotent(s: NoteState, n: Note)
    ensures DeleteNote(DeleteNote(s, n), n) == DeleteNote(s, n)
  {
    RemoveAbsentId(DeleteNote(s, n).notes, n.id);
  }

  /**
   * Deleting a note whose id was new to the list undoes adding it: the list
   * is back to what it was before the add.
   */
  lemma DeleteUndoesAdd(s: NoteState, n: Note)
    requires forall m :: m in s.notes ==> m.id != n.id
    ensures DeleteNote(AddNote(s, n), n).notes == s.notes
  {
    RemoveAppend(s.notes, n, n.id);
    RemoveAbsentId(s.notes, n.id);
  }

  /** Opening then closing the modal is the same as just closing it. */
  lemma HideAfterShow(s: NoteState)
    ensures HideModal(ShowModal(s)) == HideModal(s)
  {
  }
}
