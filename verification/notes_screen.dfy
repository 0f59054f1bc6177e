/**
 * The note list view: the active/archived split of the notes and the list
 * layout arithmetic for the current view mode.
 */
module NotesScreen {
  import opened Types
  import opened Seqs

  predicate IsActive(note: Note) {
    !note.isDeleted && !note.isArchived
  }

  predicate IsArchivedLive(note: Note) {
    !note.isDeleted && note.isArchived
  }

  predicate IsLive(note: Note) {
    !note.isDeleted
  }

  /** `notes.filter(note => !note.isDeleted && !note.isArchived)`. */
  function ActiveNotes(notes: seq<Note>): (r: seq<Note>)
    ensures forall i :: 0 <= i < |r| ==> r[i] in notes && !r[i].isDeleted && !r[i].isArchived
    ensures forall i :: 0 <= i < |notes| && !notes[i].isDeleted && !notes[i].isArchived ==> notes[i] in r
    ensures forall x :: multiset(r)[x] == if IsActive(x) then multiset(notes)[x] else 0
  {
    Filter(notes, IsActive)
  }

  /** `notes.filter(note => !note.isDeleted && note.isArchived)`. */
  function ArchivedNotes(notes: seq<Note>): (r: seq<Note>)
    ensures forall i :: 0 <= i < |r| ==> r[i] in notes && !r[i].isDeleted && r[i].isArchived
    ensures forall i :: 0 <= i < |notes| && !notes[i].isDeleted && notes[i].isArchived ==> notes[i] in r
    ensures forall x :: multiset(r)[x] == if IsArchivedLive(x) then multiset(notes)[x] else 0
  {
    Filter(notes, IsArchivedLive)
  }

  /**
   * The two lists keep the order of the notes and share no note; together
   * they hold every note that is not deleted, each as often as it occurs,
   * so their lengths add up to the number of such notes.
   */
  lemma PartitionOfLiveNotes(notes: seq<Note>)
    ensures IsSubsequence(ActiveNotes(notes), notes)
    ensures IsSubsequence(ArchivedNotes(notes), notes)
    ensures forall x :: x in ActiveNotes(notes) ==> x !in ArchivedNotes(notes)
    ensures forall x :: multiset(ActiveNotes(notes))[x] + multiset(ArchivedNotes(notes))[x] ==
                        if x.isDeleted then 0 else multiset(notes)[x]
    ensures |ActiveNotes(notes)| + |ArchivedNotes(notes)| == Count(notes, IsLive)
  {
    FilterIsSubsequence(notes, IsActive);
    FilterIsSubsequence(notes, IsArchivedLive);
    FilterSplitCount(notes, IsLive, (n: Note) => n.isArchived, IsArchivedLive, IsActive);
  }

  function NumColumns(mode: ViewMode): (n: nat)
    ensures mode == Grid ==> n == 2
    ensures mode == List ==> n == 1
  {
    if mode == Grid then 2 else 1
  }

  datatype ItemLayout = ItemLayout(length: nat, offset: nat, index: nat)

  /** Fixed-height rows: 120 in the grid, 80 in the list. */
  function ItemHeight(mode: ViewMode): nat {
    if mode == Grid then 120 else 80
  }

  /** `getItemLayout`: row `i` starts after `i` rows of the mode's height. */
  function GetItemLayout(mode: ViewMode, index: nat): (l: ItemLayout)
    ensures l.length == (if mode == Grid then 120 else 80)
    ensures l.offset == l.length * index && l.index == index
  {
    var h := ItemHeight(mode);
    ItemLayout(h, h * index, index)
  }

  /** Consecutive rows abut: each starts where the previous one ends. */
  lemma LayoutRowsAbut(mode: ViewMode, index: nat)
    ensures GetItemLayout(mode, index + 1).offset ==
            GetItemLayout(mode, index).offset + GetItemLayout(mode, index).length
  {
  }
}
