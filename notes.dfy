/** The notes page (src/pages/Notes.tsx): a list of notes, newest first. */
module Notes {
  import opened Seqs

  datatype Note = Note(id: string, title: string, content: string, createdAt: string)

  function NoteIdIsNot(id: string): Note -> bool {
    (n: Note) => n.id != id
  }

  /** `prev.filter(note => note.id !== id)`. */
  function RemoveNote(notes: seq<Note>, id: string): seq<Note> {
    Filter(notes, NoteIdIsNot(id))
  }

  /**
   * Deleting removes every note with that id, keeps each other note as often as it was there,
   * and keeps their order: it distributes over any split of the list.
   */
  lemma RemoveNoteSpec(notes: seq<Note>, id: string, n: Note, front: seq<Note>, back: seq<Note>)
    ensures multiset(RemoveNote(notes, id))[n] == if n.id == id then 0 else multiset(notes)[n]
    ensures forall i :: 0 <= i < |RemoveNote(notes, id)| ==> RemoveNote(notes, id)[i].id != id
    ensures RemoveNote(front + back, id) == RemoveNote(front, id) + RemoveNote(back, id)
  {
    FilterMultiplicity(notes, NoteIdIsNot(id), n);
    FilterConcat(front, back, NoteIdIsNot(id));
  }

  /** Deleting an id no note has leaves the list as it was. */
  lemma RemoveMissingIsNoOp(notes: seq<Note>, id: string)
    requires forall i :: 0 <= i < |notes| ==> notes[i].id != id
    ensures RemoveNote(notes, id) == notes
  {
    FilterKeepsAll(notes, NoteIdIsNot(id));
  }

  /** Adding a note under a fresh id and then deleting that id restores the list. */
  lemma AddThenDeleteRestores(notes: seq<Note>, note: Note)
    requires forall i :: 0 <= i < |notes| ==> notes[i].id != note.id
    ensures RemoveNote([note] + notes, note.id) == notes
  {
    FilterCons(note, notes, NoteIdIsNot(note.id));
    RemoveMissingIsNoOp(notes, note.id);
  }

  class NotesPage {
    var notes: seq<Note>

    constructor ()
      ensures notes == []
    {
      notes := [];
    }

    /** `handleAddNote`: the new note, under the given id and time, goes first. */
    method AddNote(title: string, content: string, newId: string, createdAt: string)
      modifies this`notes
      ensures notes == [Note(newId, title, content, createdAt)] + old(notes)
      ensures |notes| == |old(notes)| + 1 && notes[1..] == old(notes)
    {
      var newNote := Note(newId, title, content, createdAt);
      notes := [newNote] + notes;
    }

    method DeleteNote(id: string)
      modifies this`notes
      ensures notes == RemoveNote(old(notes), id)
    {
      notes := Filter(notes, NoteIdIsNot(id));
    }
  }
}
