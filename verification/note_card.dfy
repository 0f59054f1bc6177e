/**
 * What a note card shows: the preview line, the title and the status icon.
 * Its background entry is `Constants.ColorFor(colorScheme, note.color)`.
 */
module NoteCard {
  import opened Types
  import opened Text
  import opened Seqs

  function IsCompleted(item: TodoItem): bool {
    item.completed
  }

  /** `items.filter(item => item.completed).length`. */
  function CompletedCount(items: seq<TodoItem>): (c: nat)
    ensures c == Count(items, IsCompleted) <= |items|
    ensures c == 0 <==> forall i :: 0 <= i < |items| ==> !items[i].completed
    ensures c == |items| <==> forall i :: 0 <= i < |items| ==> items[i].completed
  {
    var done := Filter(items, IsCompleted);
    assert |done| > 0 ==> done[0] in items;
    FilterKeepsAllOnlyIfAll(items, IsCompleted);
    |done|
  }

  /**
   * Adding an item to a checklist adds one to the completed count exactly
   * when the item is completed; a new, open item leaves the count as it was.
   */
  lemma CompletedCountAppend(items: seq<TodoItem>, item: TodoItem)
    ensures CompletedCount(items + [item]) == CompletedCount(items) + if item.completed then 1 else 0
  {
    CountAppend(items, [item], IsCompleted);
    assert [item][1..] == [];
  }

  const PreviewLimit: nat := 100

  /**
   * `content.substring(0, 100) + (content.length > 100 ? '...' : '')`: the
   * first hundred characters, followed by "..." exactly when some were cut.
   */
  function ContentPreview(content: string): (r: string)
    ensures |r| == if |content| > PreviewLimit then PreviewLimit + 3 else |content|
    ensures |r| <= PreviewLimit + 3
    ensures |content| <= PreviewLimit ==> r == content
    ensures |content| > PreviewLimit ==> r[..PreviewLimit] == content[..PreviewLimit] && r[PreviewLimit..] == "..."
  {
    if |content| > PreviewLimit then content[..PreviewLimit] + "..." else content
  }

  /** The checklist summary "c/t completed". */
  function ChecklistSummary(items: seq<TodoItem>): string {
    NatToDecimal(CompletedCount(items)) + "/" + NatToDecimal(|items|) + " completed"
  }

  /**
   * `getPreviewText`: a TODO note with a checklist summarises it (an empty
   * checklist says so); any other note, including a TODO note without a
   * checklist, shows its content preview, or nothing when there is no content.
   */
  function PreviewText(note: Note): (r: string)
    ensures note.noteType == Todo && note.todoItems == Some([]) ==> r == "Empty checklist"
    ensures note.noteType == Todo && note.todoItems.Some? && note.todoItems.value != [] ==>
              r == ChecklistSummary(note.todoItems.value)
    ensures !(note.noteType == Todo && note.todoItems.Some?) && (note.content.None? || note.content == Some("")) ==>
              r == ""
    ensures !(note.noteType == Todo && note.todoItems.Some?) && note.content.Some? ==>
              r == ContentPreview(note.content.value)
  {
    if note.noteType == Todo && note.todoItems.Some? then
      var items := note.todoItems.value;
      if |items| == 0 then "Empty checklist" else ChecklistSummary(items)
    else
      match note.content
      case None => ""
      case Some(c) => if c == "" then "" else ContentPreview(c)
  }

  /** Where the two numerals, the slash and the suffix sit in "c/t completed". */
  lemma SummaryLayout(c: string, t: string)
    ensures var r := c + "/" + t + " completed";
            && |r| == |c| + 1 + |t| + 10
            && r[..|c|] == c && r[|c|] == '/' && r[|c| + 1..|c| + 1 + |t|] == t
            && r[|c| + 1 + |t|..] == " completed"
  {
    var r := c + "/" + t + " completed";
    assert r == c + ("/" + (t + " completed"));
    assert r[|c| + 1..] == t + " completed";
  }

  /**
   * The summary reads back: the digits before the slash are the number of
   * completed items, those after it the number of items, and 0 <= c <= t.
   */
  lemma {:induction false} ChecklistSummaryReadsBack(items: seq<TodoItem>)
    ensures var c, t := NatToDecimal(CompletedCount(items)), NatToDecimal(|items|);
            var r := ChecklistSummary(items);
            && |r| == |c| + 1 + |t| + 10
            && r[..|c|] == c && r[|c|] == '/' && r[|c| + 1..|c| + 1 + |t|] == t
            && r[|c| + 1 + |t|..] == " completed"
            && DecimalValue(c) == CompletedCount(items) <= |items| == DecimalValue(t)
  {
    SummaryLayout(NatToDecimal(CompletedCount(items)), NatToDecimal(|items|));
    DecimalRoundTrip(CompletedCount(items));
    DecimalRoundTrip(|items|);
  }

  /** A checklist of two items, one of them done, previews as "1/2 completed". */
  lemma OneOfTwoCompleted(note: Note, a: TodoItem, b: TodoItem)
    requires note.noteType == Todo && note.todoItems == Some([a, b])
    requires a.completed && !b.completed
    ensures PreviewText(note) == "1/2 completed"
  {
    var items := [a, b];
    assert Filter(items, IsCompleted) == [a] by {
      assert Filter(items[1..], IsCompleted) == [] by {
        assert items[1..][1..] == [];
      }
    }
  }

  /** `note.title || 'Untitled'`. */
  function DisplayTitle(note: Note): (r: string)
    ensures note.title.Some? && note.title.value != "" ==> r == note.title.value
    ensures note.title.None? || note.title == Some("") ==> r == "Untitled"
    ensures r != ""
  {
    if note.title.Some? && note.title.value != "" then note.title.value else "Untitled"
  }

  /**
   * The status icon: shown only for archived or deleted notes, and the
   * archive icon wins when both flags are set.
   */
  function StatusIcon(note: Note): (r: Option<string>)
    ensures r.Some? <==> note.isArchived || note.isDeleted
    ensures note.isArchived ==> r == Some("archive-outline")
    ensures !note.isArchived && note.isDeleted ==> r == Some("trash-outline")
  {
    if note.isArchived || note.isDeleted then
      Some(if note.isArchived then "archive-outline" else "trash-outline")
    else None
  }
}
