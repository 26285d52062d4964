/** The `Notes` component: the notes collection bound to storage, the draft
    being typed and the id of the note being edited, and the handlers that
    move between them. Whether the form adds or updates is decided by whether
    an id is being edited. */
module NotesComponent {
  import opened Wrappers
  import opened Text
  import opened NoteList
  import opened Persistence

  /** The form's title and content (`newNote`). */
  datatype Draft = Draft(title: string, content: string)

  const EMPTY_DRAFT: Draft := Draft("", "")

  /** The storage key of the notes collection. */
  const STORAGE_KEY: string := "notes"

  /** Creating a new note, or editing the note with `id`. */
  datatype Mode = Creating | Editing(id: int)

  /** Both fields of the draft keep something after `trim()`. */
  predicate Submittable(d: Draft)
  {
    Trim(d.title) != [] && Trim(d.content) != []
  }

  /** A draft is accepted exactly when neither field is blank. */
  lemma SubmittableIffNotBlank(d: Draft)
    ensures Submittable(d) <==> !IsBlank(d.title) && !IsBlank(d.content)
  {
  }

  class Notes {
    /** `[notes, setNotes] = useLocalStorage("notes", defaultNotes)`. */
    const store: PersistentState<seq<Note>>
    /** `newNote`. */
    var draft: Draft
    /** `editingNoteId`; `None` is `null`. */
    var editingId: Option<int>

    /** Mounting: the collection is loaded from storage (or is the seed
        collection), the draft is empty and nothing is being edited. */
    constructor (hasBackend: bool, entry: Option<Item<seq<Note>>>)
      ensures fresh(store) && store.key == STORAGE_KEY
      ensures store.hasBackend == hasBackend && store.entry == entry
      ensures store.value == Load(hasBackend, entry, DEFAULT_NOTES)
      ensures draft == EMPTY_DRAFT && editingId == None
    {
      store := new PersistentState(STORAGE_KEY, DEFAULT_NOTES, hasBackend, entry);
      draft := EMPTY_DRAFT;
      editingId := None;
    }

    /** The form's mode, read off `editingId`. */
    function CurrentMode(): (m: Mode)
      reads this
      ensures m == Creating <==> editingId == None
      ensures m.Editing? ==> editingId == Some(m.id)
    {
      if editingId.None? then Creating else Editing(editingId.value)
    }

    /** The submit button's label. */
    function SubmitLabel(): (caption: string)
      reads this
      ensures caption == "Add Note" <==> editingId == None
      ensures caption == "Update Note" <==> editingId != None
    {
      if editingId == None then "Add Note" else "Update Note"
    }

    // The transitions, each stated once as a relation between the state
    // before and after a handler runs.

    /** `handleAddNote`: with a submittable draft, one note with id `now` and
        the draft's title and content is appended, the draft is cleared and
        the new collection is written; otherwise nothing changes. */
    twostate predicate AddedNote(now: int, writeOk: bool)
      reads this, store
    {
      && editingId == old(editingId)
      && if Submittable(old(draft)) then
           && store.value == old(store.value) + [Note(now, old(draft).title, old(draft).content)]
           && draft == EMPTY_DRAFT
           && store.entry == Written(store.hasBackend, writeOk, old(store.entry), store.value)
         else
           && store.value == old(store.value)
           && draft == old(draft)
           && store.entry == old(store.entry)
    }

    /** `handleUpdateNote`: with a submittable draft, the notes whose id is
        `editingId` take the draft's title and content in place, the draft is
        cleared, edit mode ends and the new collection is written; otherwise
        nothing changes and edit mode stays. */
    twostate predicate UpdatedNote(writeOk: bool)
      reads this, store
    {
      if Submittable(old(draft)) then
        && store.value == Revise(old(store.value), old(editingId), old(draft).title, old(draft).content)
        && draft == EMPTY_DRAFT
        && editingId == None
        && store.entry == Written(store.hasBackend, writeOk, old(store.entry), store.value)
      else
        && store.value == old(store.value)
        && draft == old(draft)
        && editingId == old(editingId)
        && store.entry == old(store.entry)
    }

    /** The title input's `onChange`. */
    method ChangeTitle(title: string)
      modifies this
      ensures draft == Draft(title, old(draft).content)
      ensures editingId == old(editingId)
    {
      draft := Draft(title, draft.content);
    }

    /** The content input's `onChange`. */
    method ChangeContent(content: string)
      modifies this
      ensures draft == Draft(old(draft).title, content)
      ensures editingId == old(editingId)
    {
      draft := Draft(draft.title, content);
    }

    /** `handleAddNote`, with `now` standing for `Date.now()` and `writeOk` for
        whether `setItem` succeeds. When `now` is not yet an id, the ids stay
        unique. */
    method AddNote(now: int, writeOk: bool)
      modifies this, store
      ensures AddedNote(now, writeOk)
      ensures Submittable(old(draft)) ==> |store.value| == |old(store.value)| + 1
      ensures UniqueIds(old(store.value)) && !HasId(old(store.value), now) ==> UniqueIds(store.value)
    {
      if Trim(draft.title) != [] && Trim(draft.content) != [] {
        var note := Note(now, draft.title, draft.content);
        if UniqueIds(store.value) && !HasId(store.value, now) {
          AppendKeepsUnique(store.value, note);
        }
        store.Set(store.value + [note], writeOk);
        draft := EMPTY_DRAFT;
      }
    }

    /** `handleEditNote`: when some note carries `id`, the first such note is
        loaded into the draft and edit mode starts with `id`; otherwise
        nothing changes. */
    method EditNote(id: int)
      modifies this
      ensures HasId(store.value, id) ==>
                var n := store.value[FirstIndex(store.value, id)];
                draft == Draft(n.title, n.content) && editingId == Some(id)
      ensures !HasId(store.value, id) ==> draft == old(draft) && editingId == old(editingId)
      ensures HasId(store.value, id) ==> CurrentMode() == Editing(id) && SubmitLabel() == "Update Note"
    {
      var found := Find(store.value, id);
      if found.Some? {
        draft := Draft(found.value.title, found.value.content);
        editingId := Some(id);
      }
    }

    /** `handleUpdateNote`. The collection keeps its length, ids and their
        uniqueness; when the edited note has been deleted meanwhile, a
        submittable draft leaves the collection as it is and still ends edit
        mode. */
    method UpdateNote(writeOk: bool)
      modifies this, store
      ensures UpdatedNote(writeOk)
      ensures Ids(store.value) == Ids(old(store.value))
      ensures UniqueIds(old(store.value)) ==> UniqueIds(store.value)
      ensures Submittable(old(draft)) && (old(editingId).None? || !HasId(old(store.value), old(editingId).value)) ==>
                store.value == old(store.value) && draft == EMPTY_DRAFT && editingId == None
    {
      if Trim(draft.title) != [] && Trim(draft.content) != [] {
        var revised := Revise(store.value, editingId, draft.title, draft.content);
        ReviseKeepsIds(store.value, editingId, draft.title, draft.content);
        if editingId.None? || !HasId(store.value, editingId.value) {
          ReviseAbsent(store.value, editingId, draft.title, draft.content);
        }
        store.Set(revised, writeOk);
        draft := EMPTY_DRAFT;
        editingId := None;
      }
    }

    /** `handleDeleteNote`: every note carrying `id` is removed, the rest keep
        their order, and the collection is written even when nothing was
        removed. The draft and edit mode are left alone, even when the note
        being edited is the one removed. */
    method DeleteNote(id: int, writeOk: bool)
      modifies store
      ensures store.value == Without(old(store.value), id)
      ensures store.entry == Written(store.hasBackend, writeOk, old(store.entry), store.value)
      ensures !HasId(old(store.value), id) ==> store.value == old(store.value)
      ensures UniqueIds(old(store.value)) && HasId(old(store.value), id) ==> |store.value| == |old(store.value)| - 1
      ensures UniqueIds(old(store.value)) ==> UniqueIds(store.value)
    {
      if !HasId(store.value, id) {
        WithoutAbsent(store.value, id);
      }
      if UniqueIds(store.value) {
        WithoutKeepsUnique(store.value, id);
        if HasId(store.value, id) {
          WithoutRemovesOne(store.value, id);
        }
      }
      store.Set(Without(store.value, id), writeOk);
    }

    /** The submit button: "Add Note" runs `AddNote` and leaves the form in
        create mode; "Update Note" runs `UpdateNote`, which returns the form
        to create mode when the draft is accepted and otherwise keeps it in
        edit mode. */
    method Submit(now: int, writeOk: bool)
      modifies this, store
      ensures old(SubmitLabel()) == "Add Note" ==> AddedNote(now, writeOk) && CurrentMode() == Creating
      ensures old(SubmitLabel()) == "Update Note" ==> UpdatedNote(writeOk)
      ensures old(CurrentMode()).Editing? && Submittable(old(draft)) ==> CurrentMode() == Creating
      ensures old(CurrentMode()).Editing? && !Submittable(old(draft)) ==> CurrentMode() == old(CurrentMode())
    {
      if editingId == None {
        AddNote(now, writeOk);
      } else {
        UpdateNote(writeOk);
      }
    }
  }

  /** With no backend, or an entry that is missing, empty or unparsable, the
      component starts from the three seed notes with ids 1, 2, 3, in order. */
  lemma LoadFallsBackToSeed(hasBackend: bool, entry: Option<Item<seq<Note>>>)
    requires !hasBackend || entry == None || entry == Some(Blank) || entry == Some(Malformed)
    ensures Load(hasBackend, entry, DEFAULT_NOTES) == DEFAULT_NOTES
    ensures Ids(DEFAULT_NOTES) == [1, 2, 3] && UniqueIds(DEFAULT_NOTES)
    ensures DEFAULT_NOTES[0].title == "Workout Plan" && DEFAULT_NOTES[1].title == "Books to Read"
    ensures DEFAULT_NOTES[2].title == "Vacation Destinations"
  {
  }

  // The seed-collection scenarios: first the collection transforms on the
  // seed notes, then the component driven through them.

  /** The second seed note is the first one with id 2. */
  lemma SeedFind()
    ensures HasId(DEFAULT_NOTES, 2) && FirstIndex(DEFAULT_NOTES, 2) == 1
    ensures Find(DEFAULT_NOTES, 2) == Some(DEFAULT_NOTES[1])
  {
    assert DEFAULT_NOTES[1].id == 2;
  }

  /** Revising id 2 of the seed notes changes only the second note. */
  lemma SeedRevise(title: string, content: string)
    ensures Revise(DEFAULT_NOTES, Some(2), title, content)
            == [DEFAULT_NOTES[0], Note(2, title, content), DEFAULT_NOTES[2]]
  {
  }

  /** Deleting id 3 from the seed notes leaves the first two, in order. */
  lemma SeedWithout()
    ensures Without(DEFAULT_NOTES, 3) == DEFAULT_NOTES[..2]
  {
  }

  /** The drafts of the scenarios: two accepted, one with a blank title
      refused. */
  lemma ScenarioDrafts()
    ensures Submittable(Draft("A", "B")) && Submittable(Draft("Reading List", "X"))
    ensures !Submittable(Draft(" \t", "B"))
  {
    SubmittableIffNotBlank(Draft("A", "B"));
    SubmittableIffNotBlank(Draft("Reading List", "X"));
    SubmittableIffNotBlank(Draft(" \t", "B"));
    assert !IsWhitespace("A"[0]) && !IsWhitespace("B"[0]);
    assert !IsWhitespace("Reading List"[0]) && !IsWhitespace("X"[0]);
  }

  /** An empty store loads the three seed notes, in order, in create mode. */
  method LoadScenario()
  {
    var view := new Notes(true, None);
    assert view.store.value == DEFAULT_NOTES;
    assert view.SubmitLabel() == "Add Note";
  }

  /** On the seed notes, adding "A"/"B" gives four notes ending with it. */
  method AddScenario()
  {
    var view := new Notes(true, None);
    view.ChangeTitle("A");
    view.ChangeContent("B");
    assert view.draft == Draft("A", "B");
    ScenarioDrafts();
    view.Submit(2000, true);
    assert view.store.value == DEFAULT_NOTES + [Note(2000, "A", "B")];
  }

  /** A draft with a blank title is refused and stays in the form. */
  method BlankTitleScenario()
  {
    var view := new Notes(true, None);
    view.ChangeTitle(" \t");
    view.ChangeContent("B");
    assert view.draft == Draft(" \t", "B");
    ScenarioDrafts();
    view.Submit(3000, true);
    assert view.store.value == DEFAULT_NOTES && view.draft == Draft(" \t", "B");
  }

  /** Editing "Books to Read" into "Reading List" keeps its id and position. */
  method UpdateScenario()
  {
    var view := new Notes(true, None);
    SeedFind();
    view.EditNote(2);
    assert view.draft.title == "Books to Read" && view.SubmitLabel() == "Update Note";
    view.ChangeTitle("Reading List");
    view.ChangeContent("X");
    ScenarioDrafts();
    SeedRevise("Reading List", "X");
    view.Submit(1000, true);
    assert view.store.value == [DEFAULT_NOTES[0], Note(2, "Reading List", "X"), DEFAULT_NOTES[2]];
    assert view.CurrentMode() == Creating;
  }

  /** Deleting "Vacation Destinations" leaves the first two notes in order. */
  method DeleteScenario()
  {
    var view := new Notes(true, None);
    SeedWithout();
    view.DeleteNote(3, true);
    assert view.store.value == DEFAULT_NOTES[..2];
  }
}
