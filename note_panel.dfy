/**
 * The notes panel of one lead (`NotePanel`): the list of notes as the panel
 * holds it, and how a successful add, update or delete changes that list.
 * A server reply is `Some(note)` when the request succeeded and `None` when it
 * failed or threw; a failure leaves the list as it was.
 */
module NotePanel {
  import opened Wrappers
  import opened JsString

  /** A note as the panel receives it; the dates are the server's ISO strings. */
  datatype Note = Note(id: string, content: string, createdAt: string, updatedAt: string)

  /** The panel's state: the notes, the new-note draft and whether its form is open, and the note being edited. */
  datatype Panel = Panel(notes: seq<Note>, newNote: string, showNewNote: bool,
                         editingNote: Option<string>, editContent: string)

  /** `!newNote.trim()`: a draft of whitespace only is not sent. */
  predicate Blank(draft: string) {
    Trim(draft) == ""
  }

  /** A draft is blank exactly when every character of it is whitespace. */
  lemma BlankSpec(draft: string)
    ensures Blank(draft) <==> forall k :: 0 <= k < |draft| ==> IsWhitespace(draft[k])
  {
    var t := TrimStart(draft);
    TrimStartSpec(draft);
    TrimEndSpec(t);
    if t != [] {
      assert t[0] == draft[|draft| - |t|];
    }
  }

  /**
   * `addNote`: a blank draft sends nothing and changes nothing; a created
   * note goes in front of the list, the draft is cleared and its form closed;
   * a failed request changes nothing.
   */
  function AddNote(panel: Panel, created: Option<Note>): Panel {
    if Blank(panel.newNote) then panel
    else match created
      case Some(note) => panel.(notes := [note] + panel.notes, newNote := "", showNewNote := false)
      case None => panel
  }

  /** Whether `addNote` sends its request at all. */
  predicate AddSends(panel: Panel) {
    !Blank(panel.newNote)
  }

  /**
   * After a successful add the new note is at index 0, the list grew by one
   * and the old notes follow in their order; after a blank draft or a failure
   * nothing changes.
   */
  lemma AddNoteSpec(panel: Panel, created: Option<Note>)
    ensures var after := AddNote(panel, created);
            && (AddSends(panel) && created.Some? ==>
                  |after.notes| == |panel.notes| + 1 && after.notes[0] == created.value &&
                  after.notes[1..] == panel.notes && after.newNote == "" && !after.showNewNote)
            && (!AddSends(panel) || created.None? ==> after == panel)
  {
    if AddSends(panel) && created.Some? {
      assert ([created.value] + panel.notes)[1..] == panel.notes;
    }
  }

  /** `notes.map(n => n.id === noteId ? data.note : n)`. */
  function ReplaceNote(notes: seq<Note>, noteId: string, updated: Note): seq<Note> {
    if notes == [] then [] else [if notes[0].id == noteId then updated else notes[0]] + ReplaceNote(notes[1..], noteId, updated)
  }

  /** `updateNote(noteId)`: a successful update replaces the note and closes the editor; a failure changes nothing. */
  function UpdateNote(panel: Panel, noteId: string, updated: Option<Note>): Panel {
    match updated
    case Some(note) => panel.(notes := ReplaceNote(panel.notes, noteId, note), editingNote := None, editContent := "")
    case None => panel
  }

  /**
   * The replacement keeps the length and every position: the notes with the
   * id become the updated note, every other note stays where it was.
   */
  lemma {:induction false} ReplaceNoteSpec(notes: seq<Note>, noteId: string, updated: Note)
    ensures |ReplaceNote(notes, noteId, updated)| == |notes|
    ensures forall k :: 0 <= k < |notes| ==>
              ReplaceNote(notes, noteId, updated)[k] == if notes[k].id == noteId then updated else notes[k]
  {
    if notes != [] {
      ReplaceNoteSpec(notes[1..], noteId, updated);
      assert forall k :: 1 <= k < |notes| ==> notes[k] == notes[1..][k - 1];
    }
  }

  /**
   * When the server's note carries the requested id — the update writes that
   * note — updating it twice is updating it once.
   */
  lemma {:induction false} ReplaceNoteIdempotent(notes: seq<Note>, noteId: string, updated: Note)
    requires updated.id == noteId
    ensures ReplaceNote(ReplaceNote(notes, noteId, updated), noteId, updated) == ReplaceNote(notes, noteId, updated)
  {
    if notes != [] {
      ReplaceNoteIdempotent(notes[1..], noteId, updated);
    }
  }

  /** `notes.filter(n => n.id !== noteId)`. */
  function RemoveNote(notes: seq<Note>, noteId: string): seq<Note> {
    if notes == [] then [] else (if notes[0].id == noteId then [] else [notes[0]]) + RemoveNote(notes[1..], noteId)
  }

  /** `deleteNote(noteId)` once confirmed: a successful delete removes the note; a failure changes nothing. */
  function DeleteNote(panel: Panel, noteId: string, deleted: bool): Panel {
    if deleted then panel.(notes := RemoveNote(panel.notes, noteId)) else panel
  }

  /**
   * After a delete no note carries the id, and every other note stays, as
   * often as it was there.
   */
  lemma {:induction false} RemoveNoteSpec(notes: seq<Note>, noteId: string)
    ensures forall n :: n in RemoveNote(notes, noteId) ==> n.id != noteId
    ensures forall n :: multiset(RemoveNote(notes, noteId))[n] == if n.id == noteId then 0 else multiset(notes)[n]
  {
    if notes != [] {
      RemoveNoteSpec(notes[1..], noteId);
      assert notes == [notes[0]] + notes[1..];
    }
  }

  /** Removing an id that no note carries leaves the list exactly as it was. */
  lemma {:induction false} RemoveNoteKeepsOthers(notes: seq<Note>, noteId: string)
    requires forall k :: 0 <= k < |notes| ==> notes[k].id != noteId
    ensures RemoveNote(notes, noteId) == notes
  {
    if notes != [] {
      RemoveNoteKeepsOthers(notes[1..], noteId);
      assert [notes[0]] + notes[1..] == notes;
    }
  }

  /** Removal works piece by piece, so the notes that stay keep their relative order. */
  lemma {:induction false} RemoveNoteSplits(before: seq<Note>, after: seq<Note>, noteId: string)
    ensures RemoveNote(before + after, noteId) == RemoveNote(before, noteId) + RemoveNote(after, noteId)
  {
    if before != [] {
      RemoveNoteSplits(before[1..], after, noteId);
      assert (before + after)[1..] == before[1..] + after;
    } else {
      assert before + after == after;
    }
  }

  /** The `(edited)` marker next to a note's date. */
  function EditedMarker(note: Note): (marker: string)
    ensures marker != "" <==> note.updatedAt != note.createdAt
  {
    if note.updatedAt != note.createdAt then " (edited)" else ""
  }
}
