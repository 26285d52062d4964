# Notes Taker: the note-collection state machine

A model of the `Notes` component of a small note-taking web page and of the
`useLocalStorage` hook it stores its notes through.

- The component holds an ordered collection of notes (`id`, `title`,
  `content`), a draft (`title`, `content`) and an optional `editingNoteId`.
- The form adds a note when no id is being edited and updates that note
  otherwise.
- Every change to the collection goes through the hook. The hook sets the
  in-memory value and then writes the whole collection to one entry of the
  browser's key-value store.
- At mount the hook reads that entry once. When the entry is missing, empty
  or unreadable, it falls back to three seed notes.

Layout:

- `wrappers.dfy`: `Option`.
- `text.dfy` (module `Text`): `String.prototype.trim`, with the exact
  ECMAScript white-space set, and the "non-blank" test built on it.
- `note_list.dfy` (module `NoteList`): `Note`, the seed notes and the pure
  transforms the handlers use. These are append, `find` (`Find`), `map`
  (`Revise`) and `filter` (`Without`). The module also holds their lemmas:
  idempotence, no-op cases, order preserved, exactly one note removed, and ids
  kept unique.
- `persistence.dfy` (module `Persistence`): the hook. `Load` is the lazy
  initialiser. `PersistentState` is a class holding the in-memory value and
  the storage entry, with `Set` and `Update`.
- `notes_component.dfy` (module `NotesComponent`): the class `Notes` with the
  draft, `editingId` and the handlers. The add and update transitions are
  each stated once as a two-state predicate (`AddedNote`, `UpdatedNote`),
  shared by the handler and by the submit button; the other handlers state
  their new state in their own `ensures`. The module ends with the
  seed-collection scenarios.

Environment inputs become parameters:

- `Date.now()` becomes `now`.
- Whether `setItem` succeeds becomes `writeOk`.
- Whether a `window` exists becomes `hasBackend`.
- The stored text becomes an `Item`. `Blank` is the empty text, which the
  `item ?` test at components/Notes.tsx:36 turns into the fallback before
  `JSON.parse` sees it. `Encoded(v)` is text that `JSON.parse` turns into
  `v`, and `Malformed` is text on which it throws.

## Model

| member | source | states |
|---|---|---|
| Text.TrimStart | components/Notes.tsx:78 | result is a suffix of the input, starts with no white space, and only white space was dropped |
| Text.TrimEnd | components/Notes.tsx:78 | result is a prefix of the input, ends with no white space, and only white space was dropped |
| Text.Trim | components/Notes.tsx:78 | `trim()` is no longer than its input and neither starts nor ends with white space |
| Text.TrimIsSlice | components/Notes.tsx:78 | `trim()` keeps one contiguous slice of the input; what it cut on both sides is blank |
| Text.TrimEmptyIffBlank | components/Notes.tsx:78 | `trim()` is empty exactly when the input is blank, so the truthiness test means "has a non-white-space character" |
| NoteList.FirstIndex | components/Notes.tsx:86 | the position of the first note with the id: that note carries it and no earlier note does |
| NoteList.Find | components/Notes.tsx:86 | `find` returns nothing exactly when no note has the id, otherwise the first note that has it |
| NoteList.Revise | components/Notes.tsx:96-100 | the `map`: same length; notes with the target id keep id and position and take the new title and content; all others unchanged; a null target matches nothing |
| NoteList.Without | components/Notes.tsx:108 | the `filter`: exactly the notes without the id, as a subsequence (order kept), one fewer per note that had the id |
| NoteList.AppendKeepsUnique | components/Notes.tsx:79-80 | appending a note whose id is new keeps ids unique |
| NoteList.ReviseKeepsIds | components/Notes.tsx:96-100 | the `map` keeps every id in place, so it keeps uniqueness and the set of present ids |
| NoteList.ReviseAbsent | components/Notes.tsx:96-100 | with a target no note has (or none), the `map` changes nothing |
| NoteList.WithoutAbsent | components/Notes.tsx:108 | filtering out an absent id changes nothing |
| NoteList.WithoutIdempotent | components/Notes.tsx:108 | deleting twice by the same id equals deleting once |
| NoteList.WithoutKeepsUnique | components/Notes.tsx:108 | deleting keeps ids unique |
| NoteList.WithoutRemovesOne | components/Notes.tsx:108 | with unique ids, deleting a present id removes exactly one note |
| NoteList.ReviseAfterDelete | components/Notes.tsx:93-109 | after deleting an id, updating by that id leaves the collection as it is |
| Persistence.Load | components/Notes.tsx:32-44 | initial value is the entry's decoded value when there is a backend and the entry decodes; otherwise the fallback |
| Persistence.ReloadAfterSet | components/Notes.tsx:36-52 | loading what a successful write stored gives back the value that was set |
| Persistence.PersistentState.constructor | components/Notes.tsx:31-44 | the hook starts with `Load` of its entry and leaves the entry as it was |
| Persistence.PersistentState.Set | components/Notes.tsx:46-59 | memory takes the new value whether or not the write succeeds; the entry encodes it after a successful write and is untouched otherwise |
| Persistence.PersistentState.Update | components/Notes.tsx:46-59 | with a function, memory takes `f(current)`, then as `Set` |
| NotesComponent.SubmittableIffNotBlank | components/Notes.tsx:78 | a draft is accepted exactly when neither its title nor its content is blank |
| NotesComponent.LoadFallsBackToSeed | components/Notes.tsx:13-44 | with no backend or a missing, empty or unreadable entry, the collection is the seed: ids 1, 2, 3 titled "Workout Plan", "Books to Read", "Vacation Destinations" |
| NotesComponent.Notes.constructor | components/Notes.tsx:64-70 | mount: the collection is loaded under key "notes" with the seed as fallback; the draft is empty; not editing |
| NotesComponent.Notes.CurrentMode | components/Notes.tsx:138-146 | the form's mode read off `editingNoteId`; `EditNote` and `Submit` state through it that starting an edit enters Editing(id), that "Add Note" stays in Creating, and that an accepted update returns to Creating while a refused one keeps the mode |
| NotesComponent.Notes.SubmitLabel | components/Notes.tsx:138-146 | the button's label; `Submit` states through it that the "Add Note" button runs the add transition and the "Update Note" button the update transition, and `EditNote` that starting an edit turns the label to "Update Note" |
| NotesComponent.Notes.ChangeTitle | components/Notes.tsx:126 | only the draft title changes |
| NotesComponent.Notes.ChangeContent | components/Notes.tsx:132-134 | only the draft content changes |
| NotesComponent.Notes.AddNote | components/Notes.tsx:77-83 | valid draft: one note with id `now` and the draft's fields appended at the end, earlier notes untouched, draft cleared, collection written; invalid draft: notes, draft and entry unchanged; a fresh `now` keeps ids unique |
| NotesComponent.Notes.EditNote | components/Notes.tsx:85-91 | if some note has the id, the first such note's title and content become the draft, the mode becomes Editing that id and the button reads "Update Note"; otherwise nothing changes |
| NotesComponent.Notes.UpdateNote | components/Notes.tsx:93-105 | valid draft: the `map` is applied, the draft is cleared, edit mode ends and the collection is written; a deleted target leaves the notes unchanged but still ends edit mode; invalid draft: nothing changes and edit mode stays; ids and their uniqueness are kept |
| NotesComponent.Notes.DeleteNote | components/Notes.tsx:107-109 | the collection becomes the `filter` and is written even when nothing was removed; an absent id leaves the notes unchanged; with unique ids a present id removes one note; the draft and edit mode are untouched |
| NotesComponent.Notes.Submit | components/Notes.tsx:138-146 | the "Add Note" button runs the add transition and stays in create mode; the "Update Note" button runs the update transition, returning to create mode for an accepted draft and keeping the edit mode for a refused one |
| NotesComponent.SeedFind | components/Notes.tsx:13-29 | on the seed notes, id 2 is found at position 1 |
| NotesComponent.SeedRevise | components/Notes.tsx:13-29 | updating id 2 of the seed notes changes only the second note |
| NotesComponent.SeedWithout | components/Notes.tsx:13-29 | deleting id 3 from the seed notes leaves the first two, in order |
| NotesComponent.ScenarioDrafts | components/Notes.tsx:78 | "A"/"B" and "Reading List"/"X" are accepted; a title of a space and a tab is refused |

## Left out

- Rendering, styling and icons (components/Notes.tsx:115-176), and the `Button`, `Card` and `lucide-react` components. These are presentation only.
- The `isMounted` gate (components/Notes.tsx:71-75, 111-113). It is React lifecycle timing and only suppresses output on the first render.
- `JSON.stringify`/`JSON.parse`. The entry is modelled by what parsing its text yields (`Item`), so the round trip of the codec is taken as given. Stored JSON that parses to a value of another shape (`"null"`, `"5"`) is not modelled; the model treats every non-encoding text as `Malformed`.
- `Date.now()` becomes the parameter `now`. Unique ids are proved only when `now` is not already an id, because the code does not check it.
- A `getItem` that throws is not modelled separately. It gives the fallback, as having no backend does.
- Write failures (`setItem` throwing) are the boolean `writeOk`. The `console.log` error logging is left out.
- React state batching and the closures of the `useState` setters are left out. Each handler runs to completion on the state of the previous one.
- Id width: ids are unbounded integers, not IEEE doubles.

Two facts about the code that the model keeps as they are:

- `filter` removes every note carrying the id. `NoteList.WithoutRemovesOne` shows that exactly one goes only when ids are unique.
- Nothing in the code keeps ids unique: `Date.now()` can repeat, and a stored collection is taken as it is.
