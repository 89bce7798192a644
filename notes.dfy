/** The appointment's notes card: a toggled input, the save handler that
    refuses blank content before any request, and the list of notes. */
module Notes {
  import opened Common
  import opened AppointmentData

  /** The toggle's text. */
  function ToggleLabel(showInput: bool, notes: Option<seq<Note>>): (s: string)
    ensures s == "Cancel" <==> showInput
    ensures s == "Add First Note" <==> !showInput && (notes.None? || notes.value == [])
    ensures s == "Add Note" <==> !showInput && notes.Some? && notes.value != []
  {
    if showInput then "Cancel"
    else if notes.Some? && |notes.value| > 0 then "Add Note"
    else "Add First Note"
  }

  datatype NoteRow = NoteRow(note: Note, author: string, topBorder: bool)

  datatype NotesBody = NoteList(rows: seq<NoteRow>) | NoNotes | Blank

  /** Below the input: the notes in order (author falls back to 'System',
      every row but the first has a top border); without notes, the empty
      state unless the input is open. */
  function NotesBodyView(notes: Option<seq<Note>>, showInput: bool): (b: NotesBody)
    ensures b.NoteList? <==> notes.Some? && notes.value != []
    ensures b.NoNotes? <==> (notes.None? || notes.value == []) && !showInput
    ensures b.NoteList? ==>
              |b.rows| == |notes.value| &&
              forall i :: 0 <= i < |b.rows| ==>
                b.rows[i].note == notes.value[i] && (b.rows[i].topBorder <==> i != 0) &&
                (b.rows[i].author == "System" <==> !Truthy(notes.value[i].addedBy) || notes.value[i].addedBy.value == "System") &&
                (Truthy(notes.value[i].addedBy) ==> b.rows[i].author == notes.value[i].addedBy.value)
  {
    if notes.Some? && |notes.value| > 0 then
      var ns := notes.value;
      NoteList(seq(|ns|, i requires 0 <= i < |ns| =>
        NoteRow(ns[i], OrElse(if ns[i].addedBy.Some? then ns[i].addedBy.value else "", "System"), i != 0)))
    else if !showInput then NoNotes
    else Blank
  }

  const EmptyNote := "Empty Note"

  class NoteEditor {
    var showNoteInput: bool
    var newNoteContent: string
    var isSavingNote: bool
    var error: Option<string>

    constructor ()
      ensures !showNoteInput && newNoteContent == "" && !isSavingNote && error.None?
    {
      showNoteInput := false;
      newNoteContent := "";
      isSavingNote := false;
      error := None;
    }

    method Toggle()
      modifies this
      ensures showNoteInput == !old(showNoteInput)
      ensures newNoteContent == old(newNoteContent) && isSavingNote == old(isSavingNote) && error == old(error)
    {
      showNoteInput := !showNoteInput;
    }

    method Type(text: string)
      modifies this
      ensures newNoteContent == text
      ensures showNoteInput == old(showNoteInput) && isSavingNote == old(isSavingNote) && error == old(error)
    {
      newNoteContent := text;
    }

    /** `handleSaveNote`. Blank content only sets the 'Empty Note' error: no
        request, no saving flag. Otherwise the content is posted as typed;
        success calls the callback (when given), clears the content and hides
        the input; failure keeps both. The handler never clears `error`. */
    method SaveNote(hasCallback: bool, posted: Outcome<()>) returns (requested: bool, calledBack: bool)
      modifies this
      ensures requested <==> !IsBlank(old(newNoteContent))
      ensures !requested ==>
                error == Some(EmptyNote) && !calledBack &&
                newNoteContent == old(newNoteContent) && showNoteInput == old(showNoteInput) &&
                isSavingNote == old(isSavingNote)
      ensures requested ==> error == old(error) && !isSavingNote
      ensures requested && posted.Ok? ==> newNoteContent == "" && !showNoteInput && calledBack == hasCallback
      ensures requested && posted.Fail? ==>
                newNoteContent == old(newNoteContent) && showNoteInput == old(showNoteInput) && !calledBack
    {
      calledBack := false;
      if TrimsToEmpty(newNoteContent) {
        error := Some(EmptyNote);
        requested := false;
        return;
      }
      requested := true;
      isSavingNote := true;
      if posted.Ok? {
        if hasCallback {
          calledBack := true;
        }
        newNoteContent := "";
        showNoteInput := false;
        isSavingNote := false;
      }
      isSavingNote := false;
    }
  }
}
