/**
 * The note store: the in-memory note list and the settings record, and the
 * operations that replace them (add, update, soft delete, settings update,
 * load). Every replacement is a pure sequence expression, defined here as a
 * function; the store's methods assign the function's result.
 */
module NotesContext {
  import opened Types
  import Constants

  /** The provider's own copy of the default settings. */
  const ProviderDefaults: UserSettings := UserSettings(System, 16, Grid, CreatedDesc, false)

  lemma ProviderDefaultsAgree()
    ensures ProviderDefaults == Constants.DefaultSettings
    ensures ProviderDefaults.theme == System && ProviderDefaults.fontSize == 16
    ensures ProviderDefaults.viewMode == Grid && ProviderDefaults.sortBy == CreatedDesc
    ensures !ProviderDefaults.backupEnabled
  {
  }

  predicate HasId(notes: seq<Note>, id: string) {
    exists i :: 0 <= i < |notes| && notes[i].id == id
  }

  /** The number of entries carrying `id`. */
  function CountId(notes: seq<Note>, id: string): (c: nat)
    ensures c <= |notes|
    ensures c == 0 <==> !HasId(notes, id)
  {
    if notes == [] then 0
    else
      assert forall i :: 1 <= i < |notes| ==> notes[i] == notes[1..][i - 1];
      (if notes[0].id == id then 1 else 0) + CountId(notes[1..], id)
  }

  /** `[note, ...prev]`: most recent first. */
  function Prepend(notes: seq<Note>, note: Note): (r: seq<Note>)
    ensures |r| == |notes| + 1
    ensures r[0] == note && r[1..] == notes
  {
    [note] + notes
  }

  /**
   * No uniqueness check: adding a note adds one more entry with its id, so
   * adding a note whose id is taken leaves two entries with that id.
   */
  lemma AddNoteAllowsDuplicateIds(notes: seq<Note>, note: Note)
    ensures CountId(Prepend(notes, note), note.id) == CountId(notes, note.id) + 1
    ensures HasId(notes, note.id) ==> CountId(Prepend(notes, note), note.id) >= 2
  {
    assert Prepend(notes, note)[1..] == notes;
  }

  function Reversed(s: seq<Note>): (r: seq<Note>)
    ensures |r| == |s|
    ensures forall i :: 0 <= i < |s| ==> r[i] == s[|s| - 1 - i]
  {
    if s == [] then [] else Reversed(s[1..]) + [s[0]]
  }

  /** A run of `addNote` calls, in call order. */
  function AddAll(notes: seq<Note>, added: seq<Note>): seq<Note>
    decreases |added|
  {
    if added == [] then notes else AddAll(Prepend(notes, added[0]), added[1..])
  }

  /** After any run of adds the newest note comes first: the adds, reversed, then the old list. */
  lemma {:induction false} AddAllMostRecentFirst(notes: seq<Note>, added: seq<Note>)
    ensures AddAll(notes, added) == Reversed(added) + notes
    decreases |added|
  {
    if added != [] {
      AddAllMostRecentFirst(Prepend(notes, added[0]), added[1..]);
      assert Reversed(added) == Reversed(added[1..]) + [added[0]];
    }
  }

  /** `prev.map(n => n.id === updated.id ? updated : n)`. */
  function ReplaceById(notes: seq<Note>, updated: Note): (r: seq<Note>)
    ensures |r| == |notes|
    ensures forall i :: 0 <= i < |notes| && notes[i].id == updated.id ==> r[i] == updated
    ensures forall i :: 0 <= i < |notes| && notes[i].id != updated.id ==> r[i] == notes[i]
  {
    if notes == [] then []
    else [if notes[0].id == updated.id then updated else notes[0]] + ReplaceById(notes[1..], updated)
  }

  /** Updating an id that is not in the list changes nothing. */
  lemma ReplaceAbsentIsNoop(notes: seq<Note>, updated: Note)
    requires !HasId(notes, updated.id)
    ensures ReplaceById(notes, updated) == notes
  {
  }

  /** Updating twice with the same note is the same as updating once. */
  lemma ReplaceIdempotent(notes: seq<Note>, updated: Note)
    ensures ReplaceById(ReplaceById(notes, updated), updated) == ReplaceById(notes, updated)
  {
  }

  /** After an update, every entry that can be found by the id is the new note. */
  lemma ReplaceThenRead(notes: seq<Note>, updated: Note)
    ensures HasId(ReplaceById(notes, updated), updated.id) == HasId(notes, updated.id)
    ensures forall i :: 0 <= i < |notes| && ReplaceById(notes, updated)[i].id == updated.id ==>
              ReplaceById(notes, updated)[i] == updated
  {
  }

  /** The tombstone `{ ...note, isDeleted: true, deletedAt: now }`. */
  function Tombstone(note: Note, now: Timestamp): (t: Note)
    ensures t.isDeleted && t.deletedAt == Some(now)
    ensures t.id == note.id && t.title == note.title && t.content == note.content
    ensures t.noteType == note.noteType && t.color == note.color
    ensures t.isArchived == note.isArchived
    ensures t.createdAt == note.createdAt && t.updatedAt == note.updatedAt
    ensures t.todoItems == note.todoItems
  {
    note.(isDeleted := true, deletedAt := Some(now))
  }

  /** `prev.map(n => n.id === id ? tombstone(n) : n)`: entries are never removed. */
  function SoftDelete(notes: seq<Note>, id: string, now: Timestamp): (r: seq<Note>)
    ensures |r| == |notes|
    ensures forall i :: 0 <= i < |notes| && notes[i].id == id ==> r[i] == Tombstone(notes[i], now)
    ensures forall i :: 0 <= i < |notes| && notes[i].id != id ==> r[i] == notes[i]
  {
    if notes == [] then []
    else [if notes[0].id == id then Tombstone(notes[0], now) else notes[0]] + SoftDelete(notes[1..], id, now)
  }

  /** Deleting an id that is not in the list changes nothing. */
  lemma SoftDeleteAbsentIsNoop(notes: seq<Note>, id: string, now: Timestamp)
    requires !HasId(notes, id)
    ensures SoftDelete(notes, id, now) == notes
  {
  }

  /** A run of deletes, each with its own id and instant, applied in order. */
  function ApplyDeletes(notes: seq<Note>, deletes: seq<(string, Timestamp)>): (r: seq<Note>)
    decreases |deletes|
  {
    if deletes == [] then notes
    else ApplyDeletes(SoftDelete(notes, deletes[0].0, deletes[0].1), deletes[1..])
  }

  /**
   * However many deletes follow, the list keeps its length and its ids, and an
   * entry that is deleted stays deleted.
   */
  lemma {:induction false} DeletedStaysDeleted(notes: seq<Note>, deletes: seq<(string, Timestamp)>)
    ensures |ApplyDeletes(notes, deletes)| == |notes|
    ensures forall i :: 0 <= i < |notes| ==> ApplyDeletes(notes, deletes)[i].id == notes[i].id
    ensures forall i :: 0 <= i < |notes| && notes[i].isDeleted ==> ApplyDeletes(notes, deletes)[i].isDeleted
    decreases |deletes|
  {
    if deletes != [] {
      DeletedStaysDeleted(SoftDelete(notes, deletes[0].0, deletes[0].1), deletes[1..]);
    }
  }

  /** Once an id has been deleted, every entry with it is deleted from then on. */
  lemma {:induction false} DeleteIsPermanent(notes: seq<Note>, id: string, now: Timestamp,
                                             later: seq<(string, Timestamp)>, i: int)
    requires 0 <= i < |notes| && notes[i].id == id
    ensures |ApplyDeletes(SoftDelete(notes, id, now), later)| == |notes|
    ensures ApplyDeletes(SoftDelete(notes, id, now), later)[i].isDeleted
  {
    DeletedStaysDeleted(SoftDelete(notes, id, now), later);
  }

  /** The saved settings replace the current ones only when a record exists. */
  function LoadedSettings(current: UserSettings, saved: Option<UserSettings>): (s: UserSettings)
    ensures saved.None? ==> s == current
    ensures saved.Some? ==> s == saved.value
  {
    saved.GetOr(current)
  }

  /**
   * The store. `notes` and `settings` are the provider's two pieces of state;
   * each operation replaces one of them.
   */
  class NotesStore {
    var notes: seq<Note>
    var settings: UserSettings

    /** Initially no notes and the default settings. */
    constructor ()
      ensures notes == [] && settings == ProviderDefaults
    {
      notes := [];
      settings := ProviderDefaults;
    }

    /**
     * `loadData`: the notes read from storage replace the list (storage
     * yields an empty list when nothing is saved or the read fails); the
     * settings are replaced only when a saved record exists.
     */
    method LoadData(savedNotes: seq<Note>, savedSettings: Option<UserSettings>)
      modifies this
      ensures notes == savedNotes
      ensures settings == LoadedSettings(old(settings), savedSettings)
    {
      notes := savedNotes;
      settings := LoadedSettings(settings, savedSettings);
    }

    method AddNote(note: Note)
      modifies this
      ensures notes == Prepend(old(notes), note)
      ensures settings == old(settings)
    {
      notes := Prepend(notes, note);
    }

    method UpdateNote(updated: Note)
      modifies this
      ensures notes == ReplaceById(old(notes), updated)
      ensures !HasId(old(notes), updated.id) ==> notes == old(notes)
      ensures settings == old(settings)
    {
      if !HasId(notes, updated.id) { ReplaceAbsentIsNoop(notes, updated); }
      notes := ReplaceById(notes, updated);
    }

    method DeleteNote(id: string, now: Timestamp)
      modifies this
      ensures notes == SoftDelete(old(notes), id, now)
      ensures !HasId(old(notes), id) ==> notes == old(notes)
      ensures settings == old(settings)
    {
      if !HasId(notes, id) { SoftDeleteAbsentIsNoop(notes, id, now); }
      notes := SoftDelete(notes, id, now);
    }

    /** The settings are replaced wholesale. */
    method UpdateSettings(newSettings: UserSettings)
      modifies this
      ensures settings == newSettings
      ensures notes == old(notes)
    {
      settings := newSettings;
    }
  }
}
