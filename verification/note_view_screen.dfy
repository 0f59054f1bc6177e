/**
 * The note editor: the note being viewed or edited and whether it is in
 * edit mode, the checklist edits, and saving or deleting through the store.
 */
module NoteViewScreen {
  import opened Types
  import opened Seqs
  import Constants
  import opened NotesContext

  /** `notes.find(n => n.id === noteId)`: the first note with the id; none without an id. */
  function FindById(notes: seq<Note>, noteId: Option<string>): (r: Option<Note>)
    ensures noteId.None? ==> r.None?
    ensures noteId.Some? ==> (r.None? <==> !HasId(notes, noteId.value))
    ensures r.Some? ==> exists i :: 0 <= i < |notes| && notes[i] == r.value && r.value.id == noteId.value &&
                                    forall j :: 0 <= j < i ==> notes[j].id != noteId.value
  {
    if noteId.None? || notes == [] then None
    else if notes[0].id == noteId.value then Some(notes[0])
    else
      var r := FindById(notes[1..], noteId);
      assert forall j :: 1 <= j < |notes| ==> notes[j] == notes[1..][j - 1];
      if r.Some? then
        var i :| 0 <= i < |notes[1..]| && notes[1..][i] == r.value && r.value.id == noteId.value &&
                 forall j :: 0 <= j < i ==> notes[1..][j].id != noteId.value;
        assert notes[i + 1] == r.value;
        r
      else
        r
  }

  /** `noteId || Date.now().toString()`: the route's id unless it is absent or empty. */
  function EditorId(noteId: Option<string>, freshId: string): (id: string)
    ensures noteId.Some? && noteId.value != "" ==> id == noteId.value
    ensures noteId.None? || noteId == Some("") ==> id == freshId
  {
    if noteId.Some? && noteId.value != "" then noteId.value else freshId
  }

  /** The blank note the editor starts from when no note has the route's id. */
  function NewNote(id: string, now: Timestamp): (n: Note)
    ensures n.id == id && n.title == Some("") && n.content == Some("")
    ensures n.noteType == Standard && n.color == Constants.Colors[0].value
    ensures !n.isArchived && !n.isDeleted && n.deletedAt.None?
    ensures n.createdAt == now && n.updatedAt == now && n.todoItems == Some([])
  {
    Note(id, Some(""), Some(""), Standard, Constants.Colors[0].value, false, false, now, now, None, Some([]))
  }

  /** A partial checklist item: an absent field is `None`. */
  datatype TodoPatch = TodoPatch(
    id: Option<string>,
    text: Option<string>,
    completed: Option<bool>,
    createdAt: Option<Timestamp>
  )

  function CompletedPatch(completed: bool): TodoPatch {
    TodoPatch(None, None, Some(completed), None)
  }

  /** `{ ...item, ...updates }`. */
  function PatchTodo(item: TodoItem, patch: TodoPatch): (r: TodoItem)
    ensures r.id == patch.id.GetOr(item.id) && r.text == patch.text.GetOr(item.text)
    ensures r.completed == patch.completed.GetOr(item.completed)
    ensures r.createdAt == patch.createdAt.GetOr(item.createdAt)
  {
    TodoItem(patch.id.GetOr(item.id), patch.text.GetOr(item.text),
             patch.completed.GetOr(item.completed), patch.createdAt.GetOr(item.createdAt))
  }

  /** `[...(items || []), newItem]`: a missing checklist counts as empty. */
  function AppendTodo(items: Option<seq<TodoItem>>, newItem: TodoItem): (r: seq<TodoItem>)
    ensures |r| == |items.GetOr([])| + 1
    ensures r[..|r| - 1] == items.GetOr([]) && r[|r| - 1] == newItem
  {
    items.GetOr([]) + [newItem]
  }

  /** `items.map(item => item.id === itemId ? { ...item, ...updates } : item)`. */
  function MergeTodoItems(items: seq<TodoItem>, itemId: string, patch: TodoPatch): (r: seq<TodoItem>)
    ensures |r| == |items|
    ensures forall i :: 0 <= i < |items| && items[i].id == itemId ==> r[i] == PatchTodo(items[i], patch)
    ensures forall i :: 0 <= i < |items| && items[i].id != itemId ==> r[i] == items[i]
  {
    if items == [] then []
    else [if items[0].id == itemId then PatchTodo(items[0], patch) else items[0]] +
         MergeTodoItems(items[1..], itemId, patch)
  }

  /** `items?.map(...)`: a missing checklist stays missing. */
  function MergeTodo(items: Option<seq<TodoItem>>, itemId: string, patch: TodoPatch): (r: Option<seq<TodoItem>>)
    ensures items.None? <==> r.None?
    ensures items.Some? ==> r.value == MergeTodoItems(items.value, itemId, patch)
  {
    match items
    case None => None
    case Some(s) => Some(MergeTodoItems(s, itemId, patch))
  }

  /** `items?.filter(item => item.id !== itemId)`: a missing checklist stays missing. */
  function RemoveTodo(items: Option<seq<TodoItem>>, itemId: string): (r: Option<seq<TodoItem>>)
    ensures items.None? <==> r.None?
    ensures r.Some? ==> |r.value| <= |items.value|
    ensures r.Some? ==> forall i :: 0 <= i < |r.value| ==> r.value[i].id != itemId && r.value[i] in items.value
    ensures r.Some? ==> forall i :: 0 <= i < |items.value| && items.value[i].id != itemId ==> items.value[i] in r.value
    ensures r.Some? ==> forall x :: multiset(r.value)[x] == if x.id != itemId then multiset(items.value)[x] else 0
  {
    match items
    case None => None
    case Some(s) => Some(Filter(s, (item: TodoItem) => item.id != itemId))
  }

  /** Removing keeps the other items in their order; an unknown id changes nothing. */
  lemma RemoveTodoKeepsOrder(items: seq<TodoItem>, itemId: string)
    ensures IsSubsequence(RemoveTodo(Some(items), itemId).value, items)
    ensures (forall i :: 0 <= i < |items| ==> items[i].id != itemId) ==> RemoveTodo(Some(items), itemId) == Some(items)
  {
    FilterIsSubsequence(items, (item: TodoItem) => item.id != itemId);
    if forall i :: 0 <= i < |items| ==> items[i].id != itemId {
      FilterKeepsAll(items, (item: TodoItem) => item.id != itemId);
    }
  }

  /**
   * Pressing an item's checkbox twice restores the list, when the items that
   * share its id agree on `completed` (true in particular when ids are unique).
   */
  lemma ToggleCompletedTwiceRestores(items: seq<TodoItem>, k: nat)
    requires k < |items|
    requires forall j :: 0 <= j < |items| && items[j].id == items[k].id ==> items[j].completed == items[k].completed
    ensures var once := MergeTodoItems(items, items[k].id, CompletedPatch(!items[k].completed));
            MergeTodoItems(once, once[k].id, CompletedPatch(!once[k].completed)) == items
  {
    var once := MergeTodoItems(items, items[k].id, CompletedPatch(!items[k].completed));
    var twice := MergeTodoItems(once, once[k].id, CompletedPatch(!once[k].completed));
    forall i | 0 <= i < |items| ensures twice[i] == items[i] {
      if items[i].id == items[k].id {
        assert once[i] == items[i].(completed := !items[k].completed);
      }
    }
  }

  /** Saving a note whose id is not in the list leaves the list as it was. */
  lemma SaveOfAbsentNoteIsNoop(notes: seq<Note>, note: Note, now: Timestamp)
    requires !HasId(notes, note.id)
    ensures ReplaceById(notes, note.(updatedAt := now)) == notes
  {
    ReplaceAbsentIsNoop(notes, note.(updatedAt := now));
  }

  class NoteEditor {
    /** The route's `noteId` parameter, if any. */
    const noteId: Option<string>
    var note: Note
    var isEditing: bool

    /**
     * Opening the editor: the stored note with the route's id, not in edit
     * mode; otherwise a blank note, in edit mode.
     */
    constructor (notes: seq<Note>, routeId: Option<string>, freshId: string, now: Timestamp)
      ensures noteId == routeId
      ensures FindById(notes, routeId).Some? ==> note == FindById(notes, routeId).value && !isEditing
      ensures FindById(notes, routeId).None? ==> note == NewNote(EditorId(routeId, freshId), now) && isEditing
    {
      noteId := routeId;
      var existing := FindById(notes, routeId);
      if existing.Some? {
        note := existing.value;
      } else {
        note := NewNote(EditorId(routeId, freshId), now);
      }
      isEditing := existing.None?;
    }

    /** The effect that reloads the note when the store holds one with the route's id. */
    method SyncExisting(notes: seq<Note>)
      modifies this
      ensures FindById(notes, noteId).Some? ==> note == FindById(notes, noteId).value
      ensures FindById(notes, noteId).None? ==> note == old(note)
      ensures isEditing == old(isEditing)
    {
      var existing := FindById(notes, noteId);
      if existing.Some? {
        note := existing.value;
      }
    }

    /**
     * `handleSave`: hand the note, with a fresh `updatedAt`, to `updateNote`
     * and leave edit mode. The editor's own note is not changed.
     */
    method Save(store: NotesStore, now: Timestamp)
      modifies this, store
      ensures store.notes == ReplaceById(old(store.notes), old(note).(updatedAt := now))
      ensures store.settings == old(store.settings)
      ensures note == old(note) && !isEditing
    {
      var updated := note.(updatedAt := now);
      store.UpdateNote(updated);
      isEditing := false;
    }

    /**
     * Save as evidently intended: a note the store does not hold yet is
     * added; one it holds is replaced. Either way the saved note is stored.
     */
    method SaveOrAdd(store: NotesStore, now: Timestamp)
      modifies this, store
      ensures HasId(old(store.notes), old(note).id) ==>
                store.notes == ReplaceById(old(store.notes), old(note).(updatedAt := now))
      ensures !HasId(old(store.notes), old(note).id) ==>
                store.notes == Prepend(old(store.notes), old(note).(updatedAt := now))
      ensures exists i :: 0 <= i < |store.notes| && store.notes[i] == old(note).(updatedAt := now)
      ensures store.settings == old(store.settings)
      ensures note == old(note) && !isEditing
    {
      var updated := note.(updatedAt := now);
      if HasId(store.notes, updated.id) {
        store.UpdateNote(updated);
        ghost var i :| 0 <= i < |old(store.notes)| && old(store.notes)[i].id == updated.id;
        assert store.notes[i] == updated;
      } else {
        store.AddNote(updated);
        assert store.notes[0] == updated;
      }
      isEditing := false;
    }

    /** The confirmed branch of `handleDelete`: soft-delete the note by its id. */
    method ConfirmDelete(store: NotesStore, now: Timestamp)
      modifies store
      ensures store.notes == SoftDelete(old(store.notes), note.id, now)
      ensures store.settings == old(store.settings)
    {
      store.DeleteNote(note.id, now);
    }

    method StartEditing()
      modifies this
      ensures isEditing && note == old(note)
    {
      isEditing := true;
    }

    method SetTitle(text: string)
      modifies this
      ensures note == old(note).(title := Some(text)) && isEditing == old(isEditing)
    {
      note := note.(title := Some(text));
    }

    method SetContent(text: string)
      modifies this
      ensures note == old(note).(content := Some(text)) && isEditing == old(isEditing)
    {
      note := note.(content := Some(text));
    }

    method SetColor(value: string)
      modifies this
      ensures note == old(note).(color := value) && isEditing == old(isEditing)
    {
      note := note.(color := value);
    }

    /** `handleAddTodoItem`: append a blank, open item; everything else is kept. */
    method AddTodoItem(itemId: string, now: Timestamp)
      modifies this
      ensures note == old(note).(todoItems := Some(AppendTodo(old(note).todoItems, TodoItem(itemId, "", false, now))))
      ensures isEditing == old(isEditing)
    {
      note := note.(todoItems := Some(AppendTodo(note.todoItems, TodoItem(itemId, "", false, now))));
    }

    /** `handleUpdateTodoItem`: merge the update into the items with the id. */
    method UpdateTodoItem(itemId: string, patch: TodoPatch)
      modifies this
      ensures note == old(note).(todoItems := MergeTodo(old(note).todoItems, itemId, patch))
      ensures isEditing == old(isEditing)
    {
      note := note.(todoItems := MergeTodo(note.todoItems, itemId, patch));
    }

    /** `handleDeleteTodoItem`: drop the items with the id. */
    method DeleteTodoItem(itemId: string)
      modifies this
      ensures note == old(note).(todoItems := RemoveTodo(old(note).todoItems, itemId))
      ensures isEditing == old(isEditing)
    {
      note := note.(todoItems := RemoveTodo(note.todoItems, itemId));
    }
  }

  /**
   * Opening the editor on an id the store does not hold and saving changes
   * nothing in the store: save only ever calls `updateNote`.
   */
  method SaveFreshNote(store: NotesStore, routeId: Option<string>, freshId: string,
                       openedAt: Timestamp, savedAt: Timestamp) returns (editor: NoteEditor)
    requires FindById(store.notes, routeId).None?
    requires !HasId(store.notes, EditorId(routeId, freshId))
    modifies store
    ensures fresh(editor) && !editor.isEditing
    ensures store.notes == old(store.notes) && store.settings == old(store.settings)
  {
    editor := new NoteEditor(store.notes, routeId, freshId, openedAt);
    assert editor.note.id == EditorId(routeId, freshId);
    editor.Save(store, savedAt);
    SaveOfAbsentNoteIsNoop(old(store.notes), editor.note, savedAt);
  }
}
