/**
 * The domain records and enumerations shared by every other module:
 * notes, checklist items, user settings, and the string-tagged enums
 * (Theme, ViewMode, SortBy, NoteType).
 */
module Types {

  /** An optional field (`x?: T` in the record declarations). */
  datatype Option<T> = None | Some(value: T) {
    function GetOr(default: T): (r: T)
      ensures Some? ==> r == value
      ensures None? ==> r == default
    {
      match this
      case Some(v) => v
      case None => default
    }
  }

  /** Wall-clock instants are opaque numbers supplied by the caller. */
  type Timestamp = int

  datatype Theme = Light | Dark | System
  datatype ViewMode = Grid | List
  datatype SortBy = CreatedDesc | CreatedAsc | ModifiedDesc | AlphaAsc | AlphaDesc
  datatype NoteType = Standard | Todo

  datatype TodoItem = TodoItem(id: string, text: string, completed: bool, createdAt: Timestamp)

  /**
   * A note. `title`, `content`, `deletedAt` and `todoItems` may be absent;
   * `isArchived` and `isDeleted` are independent flags.
   */
  datatype Note = Note(
    id: string,
    title: Option<string>,
    content: Option<string>,
    noteType: NoteType,
    color: string,
    isArchived: bool,
    isDeleted: bool,
    createdAt: Timestamp,
    updatedAt: Timestamp,
    deletedAt: Option<Timestamp>,
    todoItems: Option<seq<TodoItem>>
  )

  datatype UserSettings = UserSettings(
    theme: Theme,
    fontSize: int,
    viewMode: ViewMode,
    sortBy: SortBy,
    backupEnabled: bool
  )

  // ---------------------------------------------------------------------
  // The string value behind each enum member, and decoding back from it.
  // ---------------------------------------------------------------------

  function ThemeTag(t: Theme): string {
    match t
    case Light => "light"
    case Dark => "dark"
    case System => "system"
  }

  function ThemeFromTag(s: string): (r: Option<Theme>)
    ensures r.Some? ==> ThemeTag(r.value) == s
    ensures r.None? ==> s != "light" && s != "dark" && s != "system"
  {
    if s == "light" then Some(Light)
    else if s == "dark" then Some(Dark)
    else if s == "system" then Some(System)
    else None
  }

  function ViewModeTag(v: ViewMode): string {
    match v
    case Grid => "grid"
    case List => "list"
  }

  function ViewModeFromTag(s: string): (r: Option<ViewMode>)
    ensures r.Some? ==> ViewModeTag(r.value) == s
    ensures r.None? ==> s != "grid" && s != "list"
  {
    if s == "grid" then Some(Grid)
    else if s == "list" then Some(List)
    else None
  }

  function SortByTag(b: SortBy): string {
    match b
    case CreatedDesc => "created_desc"
    case CreatedAsc => "created_asc"
    case ModifiedDesc => "modified_desc"
    case AlphaAsc => "alpha_asc"
    case AlphaDesc => "alpha_desc"
  }

  function SortByFromTag(s: string): (r: Option<SortBy>)
    ensures r.Some? ==> SortByTag(r.value) == s
    ensures r.None? ==> forall b: SortBy :: SortByTag(b) != s
  {
    if s == "created_desc" then Some(CreatedDesc)
    else if s == "created_asc" then Some(CreatedAsc)
    else if s == "modified_desc" then Some(ModifiedDesc)
    else if s == "alpha_asc" then Some(AlphaAsc)
    else if s == "alpha_desc" then Some(AlphaDesc)
    else None
  }

  function NoteTypeTag(t: NoteType): string {
    match t
    case Standard => "standard"
    case Todo => "todo"
  }

  function NoteTypeFromTag(s: string): (r: Option<NoteType>)
    ensures r.Some? ==> NoteTypeTag(r.value) == s
    ensures r.None? ==> s != "standard" && s != "todo"
  {
    if s == "standard" then Some(Standard)
    else if s == "todo" then Some(Todo)
    else None
  }

  /** Decoding a tag is a left inverse of encoding, for every enum. */
  lemma TagsRoundTrip(t: Theme, v: ViewMode, b: SortBy, n: NoteType)
    ensures ThemeFromTag(ThemeTag(t)) == Some(t)
    ensures ViewModeFromTag(ViewModeTag(v)) == Some(v)
    ensures SortByFromTag(SortByTag(b)) == Some(b)
    ensures NoteTypeFromTag(NoteTypeTag(n)) == Some(n)
  {
  }

  /** Distinct members carry distinct tags (so each tag names one member). */
  lemma TagsInjective(b1: SortBy, b2: SortBy, t1: Theme, t2: Theme,
                      v1: ViewMode, v2: ViewMode, n1: NoteType, n2: NoteType)
    ensures SortByTag(b1) == SortByTag(b2) ==> b1 == b2
    ensures ThemeTag(t1) == ThemeTag(t2) ==> t1 == t2
    ensures ViewModeTag(v1) == ViewModeTag(v2) ==> v1 == v2
    ensures NoteTypeTag(n1) == NoteTypeTag(n2) ==> n1 == n2
  {
    TagsRoundTrip(t1, v1, b1, n1);
    TagsRoundTrip(t2, v2, b2, n2);
  }

  /** The five SortBy members, as a set. */
  function SortByMembers(): set<SortBy> {
    {CreatedDesc, CreatedAsc, ModifiedDesc, AlphaAsc, AlphaDesc}
  }

  /** SortBy has exactly five members (their tags are distinct by TagsInjective). */
  lemma SortByHasFiveMembers()
    ensures forall b: SortBy :: b in SortByMembers()
    ensures |SortByMembers()| == 5
  {
    forall b: SortBy ensures b in SortByMembers() {
      match b
      case CreatedDesc =>
      case CreatedAsc =>
      case ModifiedDesc =>
      case AlphaAsc =>
      case AlphaDesc =>
    }
    var s1 := {CreatedDesc};
    var s2 := s1 + {CreatedAsc};
    var s3 := s2 + {ModifiedDesc};
    var s4 := s3 + {AlphaAsc};
    assert |s4 + {AlphaDesc}| == 5;
    assert SortByMembers() == s4 + {AlphaDesc};
  }

  /**
   * The archived and deleted flags are independent: every combination of the
   * two is a note, and setting one leaves the other as it was.
   */
  lemma FlagsIndependent(n: Note, archived: bool, deleted: bool)
    ensures n.(isArchived := archived, isDeleted := deleted).isArchived == archived
    ensures n.(isArchived := archived, isDeleted := deleted).isDeleted == deleted
    ensures n.(isDeleted := deleted).isArchived == n.isArchived
    ensures n.(isArchived := archived).isDeleted == n.isDeleted
  {
  }
}
