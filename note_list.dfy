/** The notes collection of the editor as a value: an ordered sequence of
    notes (insertion order is display order), the seed collection, and the
    pure transforms the handlers apply to it (spread-append, `find`, `map`,
    `filter`). */
module NoteList {
  import opened Wrappers

  /** One note; `id` is the creation timestamp and serves as its key. */
  datatype Note = Note(id: int, title: string, content: string)

  /** The collection shown when storage holds nothing usable. */
  const DEFAULT_NOTES: seq<Note> := [
    Note(1, "Workout Plan", "Monday: Chest, Tuesday: Back, Wednesday: Legs"),
    Note(2, "Books to Read", "Atomic Habits, Clean Code, The Pragmatic Programmer"),
    Note(3, "Vacation Destinations", "Japan, Switzerland, New Zealand")
  ]

  /** The ids of `s`, position by position. */
  function Ids(s: seq<Note>): (r: seq<int>)
    ensures |r| == |s|
    ensures forall i :: 0 <= i < |s| ==> r[i] == s[i].id
  {
    if s == [] then [] else [s[0].id] + Ids(s[1..])
  }

  /** Some note of `s` carries `id`. */
  predicate HasId(s: seq<Note>, id: int)
  {
    exists i :: 0 <= i < |s| && s[i].id == id
  }

  /** No two notes of `s` share an id. */
  predicate UniqueIds(s: seq<Note>)
  {
    forall i, j :: 0 <= i < j < |s| ==> s[i].id != s[j].id
  }

  /** `r` is `s` with some elements dropped and the rest in their order. */
  ghost predicate IsSubsequence<T>(r: seq<T>, s: seq<T>)
    decreases |s|
  {
    r == [] || (s != [] && ((r[0] == s[0] && IsSubsequence(r[1..], s[1..])) || IsSubsequence(r, s[1..])))
  }

  /** The position of the first note carrying `id`. */
  function FirstIndex(s: seq<Note>, id: int): (k: nat)
    requires HasId(s, id)
    ensures k < |s| && s[k].id == id
    ensures forall j :: 0 <= j < k ==> s[j].id != id
  {
    if s[0].id == id then 0
    else
      assert HasId(s[1..], id) by {
        var i :| 0 <= i < |s| && s[i].id == id;
        assert s[1..][i - 1] == s[i];
      }
      1 + FirstIndex(s[1..], id)
  }

  /** `notes.find(note => note.id === id)`: the first note carrying `id`, or
      nothing when no note carries it. */
  function Find(s: seq<Note>, id: int): (r: Option<Note>)
    ensures r.None? <==> !HasId(s, id)
    ensures r.Some? ==> HasId(s, id) && r.value == s[FirstIndex(s, id)]
  {
    if s == [] then None
    else if s[0].id == id then Some(s[0])
    else
      var r := Find(s[1..], id);
      assert HasId(s[1..], id) <==> HasId(s, id) by {
        if HasId(s, id) {
          var i :| 0 <= i < |s| && s[i].id == id;
          assert s[1..][i - 1] == s[i];
        }
      }
      r
  }

  /** `notes.map(note => note.id === target ? {id, title, content} : note)`:
      the same length; each note whose id equals `target` keeps its id and
      position and takes `title` and `content`; every other note is kept as
      it is. A `None` target (the component's `null`) matches no note. */
  function Revise(s: seq<Note>, target: Option<int>, title: string, content: string): (r: seq<Note>)
    ensures |r| == |s|
    ensures forall i :: 0 <= i < |s| && target == Some(s[i].id) ==> r[i] == Note(s[i].id, title, content)
    ensures forall i :: 0 <= i < |s| && target != Some(s[i].id) ==> r[i] == s[i]
  {
    if s == [] then []
    else
      var head := if target == Some(s[0].id) then Note(s[0].id, title, content) else s[0];
      [head] + Revise(s[1..], target, title, content)
  }

  /** `notes.filter(note => note.id !== id)`: exactly the notes not carrying
      `id`, in their original relative order, one fewer for each note that
      carried it. */
  function Without(s: seq<Note>, id: int): (r: seq<Note>)
    ensures forall n :: n in r <==> n in s && n.id != id
    ensures IsSubsequence(r, s)
    ensures |r| == |s| - multiset(Ids(s))[id]
  {
    if s == [] then []
    else
      var rest := Without(s[1..], id);
      assert Ids(s) == [s[0].id] + Ids(s[1..]);
      if s[0].id == id then rest
      else
        var r := [s[0]] + rest;
        assert r[1..] == rest;
        r
  }

  // Properties of the transforms.

  /** Appending a note whose id is not yet used keeps the ids unique: the
      component's guarantee of unique ids rests on the timestamp being new. */
  lemma AppendKeepsUnique(s: seq<Note>, n: Note)
    requires UniqueIds(s) && !HasId(s, n.id)
    ensures UniqueIds(s + [n])
  {
  }

  /** Revising keeps every id in its position, so it keeps ids unique and
      keeps which ids are present. */
  lemma ReviseKeepsIds(s: seq<Note>, target: Option<int>, title: string, content: string)
    ensures Ids(Revise(s, target, title, content)) == Ids(s)
    ensures UniqueIds(s) ==> UniqueIds(Revise(s, target, title, content))
    ensures forall id :: HasId(Revise(s, target, title, content), id) <==> HasId(s, id)
  {
  }

  /** Revising with a target no note carries (the note was deleted while it
      was being edited, or there is no target) changes nothing. */
  lemma ReviseAbsent(s: seq<Note>, target: Option<int>, title: string, content: string)
    requires target.None? || !HasId(s, target.value)
    ensures Revise(s, target, title, content) == s
  {
  }

  /** Filtering out an id no note carries gives back the same collection. */
  lemma {:induction false} WithoutAbsent(s: seq<Note>, id: int)
    requires !HasId(s, id)
    ensures Without(s, id) == s
  {
    if s != [] {
      assert s[0].id != id;
      assert !HasId(s[1..], id) by {
        forall i | 0 <= i < |s| - 1
          ensures s[1..][i].id != id
        {
          assert s[1..][i] == s[i + 1];
        }
      }
      WithoutAbsent(s[1..], id);
    }
  }

  /** Deleting twice by the same id is the same as deleting once. */
  lemma WithoutIdempotent(s: seq<Note>, id: int)
    ensures Without(Without(s, id), id) == Without(s, id)
  {
    var r := Without(s, id);
    assert !HasId(r, id) by {
      forall i | 0 <= i < |r|
        ensures r[i].id != id
      {
        assert r[i] in r;
      }
    }
    WithoutAbsent(r, id);
  }

  /** The tail of a collection with unique ids has unique ids. */
  lemma TailKeepsUnique(s: seq<Note>)
    requires s != [] && UniqueIds(s)
    ensures UniqueIds(s[1..])
    ensures forall n :: n in s[1..] ==> n.id != s[0].id
  {
  }

  /** Putting in front a note whose id no note of `s` carries keeps ids unique. */
  lemma ConsKeepsUnique(x: Note, s: seq<Note>)
    requires UniqueIds(s)
    requires forall n :: n in s ==> n.id != x.id
    ensures UniqueIds([x] + s)
  {
  }

  /** Deleting keeps the ids of the remaining notes unique. */
  lemma {:induction false} WithoutKeepsUnique(s: seq<Note>, id: int)
    requires UniqueIds(s)
    ensures UniqueIds(Without(s, id))
  {
    if s != [] {
      TailKeepsUnique(s);
      WithoutKeepsUnique(s[1..], id);
      if s[0].id != id {
        ConsKeepsUnique(s[0], Without(s[1..], id));
      }
    }
  }

  /** In a collection with unique ids an id occurs at most once, and once
      exactly when some note carries it. */
  lemma {:induction false} UniqueIdCount(s: seq<Note>, id: int)
    requires UniqueIds(s)
    ensures multiset(Ids(s))[id] == if HasId(s, id) then 1 else 0
  {
    if s == [] {
    } else {
      var tail := s[1..];
      assert Ids(s) == [s[0].id] + Ids(tail);
      TailKeepsUnique(s);
      UniqueIdCount(tail, id);
      assert HasId(tail, id) ==> HasId(s, id) by {
        if HasId(tail, id) {
          var i :| 0 <= i < |tail| && tail[i].id == id;
          assert s[i + 1].id == id;
        }
      }
      if s[0].id == id {
        assert !HasId(tail, id) by {
          forall i | 0 <= i < |tail|
            ensures tail[i].id != id
          {
            assert tail[i] == s[i + 1];
          }
        }
      } else {
        assert HasId(s, id) ==> HasId(tail, id) by {
          if HasId(s, id) {
            var i :| 0 <= i < |s| && s[i].id == id;
            assert tail[i - 1].id == id;
          }
        }
      }
    }
  }

  /** With unique ids, deleting an id that is present removes exactly one
      note. */
  lemma WithoutRemovesOne(s: seq<Note>, id: int)
    requires UniqueIds(s) && HasId(s, id)
    ensures |Without(s, id)| == |s| - 1
  {
    UniqueIdCount(s, id);
  }

  /** Once a note is deleted, revising by its id leaves the collection as it
      is: an edit of a deleted note is a silent no-op on submit. */
  lemma ReviseAfterDelete(s: seq<Note>, id: int, title: string, content: string)
    ensures Revise(Without(s, id), Some(id), title, content) == Without(s, id)
  {
  }
}
