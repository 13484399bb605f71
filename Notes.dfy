/** The client-side notes store: in-place mutations and filtering getters. */
module Notes {
  import opened Base
  import opened RecordList

  datatype Note = Note(id: string, title: string, content: string, category: string, pinned: bool)

  function NoteId(n: Note): string { n.id }

  predicate IsPinned(n: Note) { n.pinned }

  class NoteStore {
    /** `state.notes`; `None` stands for `null`/`undefined`, which SET_NOTES can store. */
    var notes: Option<seq<Note>>
    var loading: bool
    var error: Option<string>

    constructor ()
      ensures notes == Some([]) && !loading && error == None
    {
      notes, loading, error := Some([]), false, None;
    }

    /** SET_NOTES. */
    method SetNotes(list: Option<seq<Note>>)
      modifies this`notes
      ensures notes == list
    {
      notes := list;
    }

    /**
     * ADD_NOTE: `unshift`, so the new note comes first and every other note
     * moves back one place. On a `null` list the call throws a TypeError
     * (`thrown`) and the state is left as it was.
     */
    method AddNote(note: Note) returns (thrown: bool)
      modifies this`notes
      ensures thrown <==> old(notes).None?
      ensures thrown ==> notes == old(notes)
      ensures !thrown ==> notes.Some? && |notes.value| == |old(notes).value| + 1
      ensures !thrown ==> notes.value[0] == note
      ensures !thrown ==> forall j :: 0 <= j < |old(notes).value| ==> notes.value[j + 1] == old(notes).value[j]
    {
      thrown := notes.None?;
      if !thrown {
        notes := Some([note] + notes.value);
      }
    }

    /**
     * UPDATE_NOTE: the first note with the same id is replaced; otherwise
     * nothing changes. A `null` list throws and stays `null`.
     */
    method UpdateNote(updated: Note) returns (thrown: bool)
      modifies this`notes
      ensures thrown <==> old(notes).None?
      ensures thrown ==> notes == old(notes)
      ensures !thrown ==> notes == Some(ReplaceFirst(old(notes).value, NoteId, updated))
    {
      thrown := notes.None?;
      if !thrown {
        var index := FindIndex(notes.value, NoteId, updated.id);
        if index.Some? {
          notes := Some(notes.value[index.value := updated]);
        }
      }
    }

    /**
     * DELETE_NOTE: every note with the id is filtered out, the rest keep their
     * order. A `null` list throws and stays `null`.
     */
    method DeleteNote(id: string) returns (thrown: bool)
      modifies this`notes
      ensures thrown <==> old(notes).None?
      ensures thrown ==> notes == old(notes)
      ensures !thrown ==> notes == Some(RemoveId(old(notes).value, NoteId, id))
    {
      thrown := notes.None?;
      if !thrown {
        notes := Some(RemoveId(notes.value, NoteId, id));
      }
    }

    /** SET_LOADING. */
    method SetLoading(status: bool)
      modifies this`loading
      ensures loading == status
    {
      loading := status;
    }

    /** SET_ERROR. */
    method SetError(message: Option<string>)
      modifies this`error
      ensures error == message
    {
      error := message;
    }

    /** Getter allNotes: `state.notes || []`. */
    function AllNotes(): (r: seq<Note>)
      reads this
      ensures notes.None? ==> r == []
      ensures notes.Some? ==> r == notes.value
    {
      if notes.Some? then notes.value else []
    }

    /** Getter pinnedNotes. */
    function PinnedNotes(): (r: seq<Note>)
      reads this
      ensures forall j :: 0 <= j < |r| ==> r[j].pinned && r[j] in AllNotes()
      ensures forall j :: 0 <= j < |AllNotes()| && AllNotes()[j].pinned ==> AllNotes()[j] in r
    {
      Keep(AllNotes(), IsPinned)
    }

    /** Getter notesByCategory. */
    function NotesByCategory(category: string): (r: seq<Note>)
      reads this
      ensures forall j :: 0 <= j < |r| ==> r[j].category == category && r[j] in AllNotes()
      ensures forall j :: 0 <= j < |AllNotes()| && AllNotes()[j].category == category ==> AllNotes()[j] in r
    {
      Keep(AllNotes(), (n: Note) => n.category == category)
    }
  }
}
