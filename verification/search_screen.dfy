/**
 * The search view: the notes whose title or content contains the query,
 * ignoring case, with deleted notes left out.
 */
module SearchScreen {
  import opened Types
  import opened Text
  import opened Seqs

  /** `field?.toLowerCase().includes(query)`: an absent field never matches. */
  predicate FieldMatches(field: Option<string>, query: string) {
    field.Some? && Contains(ToLower(field.value), query)
  }

  /** The filter's test, for an already lower-cased query. */
  predicate Matches(note: Note, query: string) {
    !note.isDeleted && (FieldMatches(note.title, query) || FieldMatches(note.content, query))
  }

  /**
   * `filteredNotes`: nothing for a blank query; otherwise the notes that are
   * not deleted and whose lower-cased title or content contains the
   * lower-cased query. Only the blank test trims; the match uses the query
   * as typed. Archived notes are not excluded.
   */
  function SearchResults(notes: seq<Note>, searchQuery: string): (r: seq<Note>)
    ensures IsBlank(searchQuery) ==> r == []
    ensures |r| <= |notes|
    ensures forall i :: 0 <= i < |r| ==> r[i] in notes && !r[i].isDeleted
    ensures !IsBlank(searchQuery) ==>
              forall i :: 0 <= i < |notes| ==> (notes[i] in r <==> Matches(notes[i], ToLower(searchQuery)))
    ensures !IsBlank(searchQuery) ==>
              forall x :: multiset(r)[x] == if Matches(x, ToLower(searchQuery)) then multiset(notes)[x] else 0
  {
    if Trim(searchQuery) == [] then []
    else
      var query := ToLower(searchQuery);
      Filter(notes, n => Matches(n, query))
  }

  /** The results keep the order of the note list. */
  lemma SearchResultsInOrder(notes: seq<Note>, searchQuery: string)
    ensures IsSubsequence(SearchResults(notes, searchQuery), notes)
  {
    if Trim(searchQuery) != [] {
      var query := ToLower(searchQuery);
      FilterIsSubsequence(notes, n => Matches(n, query));
    }
  }

  /**
   * Search ignores the case of the query: two queries that agree after
   * lower-casing find the same notes, and so does the lower-cased query.
   */
  lemma SearchIgnoresCase(notes: seq<Note>, q1: string, q2: string)
    requires ToLower(q1) == ToLower(q2)
    ensures SearchResults(notes, q1) == SearchResults(notes, q2)
    ensures SearchResults(notes, ToLower(q1)) == SearchResults(notes, q1)
  {
    LowerKeepsBlank(q1);
    LowerKeepsBlank(q2);
    LowerKeepsBlank(ToLower(q1));
    ToLowerIdempotent(q1);
  }

  /** Archived notes are not excluded: any archived, live note that matches is found. */
  lemma ArchivedNotesAreSearched(notes: seq<Note>, searchQuery: string, i: int)
    requires !IsBlank(searchQuery) && 0 <= i < |notes|
    requires notes[i].isArchived && !notes[i].isDeleted
    requires FieldMatches(notes[i].title, ToLower(searchQuery)) ||
             FieldMatches(notes[i].content, ToLower(searchQuery))
    ensures notes[i] in SearchResults(notes, searchQuery)
  {
  }

  /** The query is not trimmed for matching: " milk" does not find a note titled "milk". */
  lemma SurroundingSpacesMustMatch(note: Note)
    requires note.title == Some("milk") && note.content.None?
    ensures SearchResults([note], " milk") == []
  {
    assert !IsSpace(" milk"[1]);
    assert ToLower("milk") == "milk";
  }
}
