/**
 * The sort and filter sheet: its local copy of the filter options, the
 * single-option updates the controls make, reset, and the labels and icons
 * of the orderings.
 */
module SortFilterModal {
  import opened Types

  datatype FilterOptions = FilterOptions(
    sortBy: SortBy,
    viewMode: ViewMode,
    showArchived: bool,
    showDeleted: bool,
    noteType: Option<NoteType>
  )

  const DefaultFilters: FilterOptions := FilterOptions(CreatedDesc, Grid, false, false, None)

  /** `updateFilter(key, value)`: one option key together with its new value. */
  datatype FilterUpdate =
    | SetSortBy(sortBy: SortBy)
    | SetViewMode(viewMode: ViewMode)
    | SetShowArchived(showArchived: bool)
    | SetShowDeleted(showDeleted: bool)
    | SetNoteType(noteType: Option<NoteType>)

  /** `{ ...prev, [key]: value }`: the named option changes and no other. */
  function ApplyUpdate(f: FilterOptions, u: FilterUpdate): (r: FilterOptions)
    ensures r.sortBy == (if u.SetSortBy? then u.sortBy else f.sortBy)
    ensures r.viewMode == (if u.SetViewMode? then u.viewMode else f.viewMode)
    ensures r.showArchived == (if u.SetShowArchived? then u.showArchived else f.showArchived)
    ensures r.showDeleted == (if u.SetShowDeleted? then u.showDeleted else f.showDeleted)
    ensures r.noteType == (if u.SetNoteType? then u.noteType else f.noteType)
  {
    match u
    case SetSortBy(v) => f.(sortBy := v)
    case SetViewMode(v) => f.(viewMode := v)
    case SetShowArchived(v) => f.(showArchived := v)
    case SetShowDeleted(v) => f.(showDeleted := v)
    case SetNoteType(v) => f.(noteType := v)
  }

  /** The "Archived Notes" row: flip the option. */
  function ToggleArchived(f: FilterOptions): FilterOptions {
    ApplyUpdate(f, SetShowArchived(!f.showArchived))
  }

  /** The "Deleted Notes" row: flip the option. */
  function ToggleDeleted(f: FilterOptions): FilterOptions {
    ApplyUpdate(f, SetShowDeleted(!f.showDeleted))
  }

  /** Pressing either row twice restores the options. */
  lemma ToggleTwiceRestores(f: FilterOptions)
    ensures ToggleArchived(ToggleArchived(f)) == f
    ensures ToggleDeleted(ToggleDeleted(f)) == f
    ensures ToggleArchived(f) != f && ToggleDeleted(f) != f
  {
  }

  /** The same update twice is the same update once. */
  lemma ApplyUpdateIdempotent(f: FilterOptions, u: FilterUpdate)
    ensures ApplyUpdate(ApplyUpdate(f, u), u) == ApplyUpdate(f, u)
  {
  }

  /** `getSortLabel`. */
  function SortLabel(b: SortBy): (s: string)
    ensures b == CreatedDesc ==> s == "Newest First"
    ensures b == CreatedAsc ==> s == "Oldest First"
    ensures b == ModifiedDesc ==> s == "Recently Modified"
    ensures b == AlphaAsc ==> s == "A to Z"
    ensures b == AlphaDesc ==> s == "Z to A"
  {
    match b
    case CreatedDesc => "Newest First"
    case CreatedAsc => "Oldest First"
    case ModifiedDesc => "Recently Modified"
    case AlphaAsc => "A to Z"
    case AlphaDesc => "Z to A"
  }

  /** Every ordering has its own label. */
  lemma SortLabelInjective(b1: SortBy, b2: SortBy)
    ensures SortLabel(b1) == SortLabel(b2) ==> b1 == b2
  {
  }

  /** `getSortIcon`. */
  function SortIcon(b: SortBy): (s: string)
    ensures b == CreatedDesc || b == ModifiedDesc ==> s == "arrow-down-outline"
    ensures b == CreatedAsc ==> s == "arrow-up-outline"
    ensures b == AlphaAsc || b == AlphaDesc ==> s == "text-outline"
  {
    match b
    case CreatedDesc => "arrow-down-outline"
    case ModifiedDesc => "arrow-down-outline"
    case CreatedAsc => "arrow-up-outline"
    case AlphaAsc => "text-outline"
    case AlphaDesc => "text-outline"
  }

  /** The icon tells apart only the three kinds of ordering, not their directions. */
  lemma SortIconSharing()
    ensures SortIcon(CreatedDesc) == SortIcon(ModifiedDesc)
    ensures SortIcon(AlphaAsc) == SortIcon(AlphaDesc)
    ensures SortIcon(CreatedAsc) != SortIcon(CreatedDesc)
    ensures SortIcon(CreatedAsc) != SortIcon(AlphaAsc)
    ensures SortIcon(CreatedDesc) != SortIcon(AlphaAsc)
  {
  }

  /** The sheet's state: the options being edited before they are applied. */
  class FilterPanel {
    var localFilters: FilterOptions

    /** The options passed in, or the defaults when none are. */
    constructor (filters: Option<FilterOptions>)
      ensures filters.Some? ==> localFilters == filters.value
      ensures filters.None? ==> localFilters == DefaultFilters
    {
      localFilters := filters.GetOr(DefaultFilters);
    }

    /** The effect that follows the prop: defined options replace the local ones. */
    method SyncFilters(filters: Option<FilterOptions>)
      modifies this
      ensures filters.Some? ==> localFilters == filters.value
      ensures filters.None? ==> localFilters == old(localFilters)
    {
      if filters.Some? {
        localFilters := filters.value;
      }
    }

    method UpdateFilter(u: FilterUpdate)
      modifies this
      ensures localFilters == ApplyUpdate(old(localFilters), u)
    {
      localFilters := ApplyUpdate(localFilters, u);
    }

    /** `handleReset`: back to the defaults. */
    method Reset()
      modifies this
      ensures localFilters == DefaultFilters
      ensures localFilters.sortBy == CreatedDesc && localFilters.viewMode == Grid
      ensures !localFilters.showArchived && !localFilters.showDeleted && localFilters.noteType.None?
    {
      localFilters := DefaultFilters;
    }

    /** `handleApply`: the local options are what is handed back. */
    method Apply() returns (applied: FilterOptions)
      ensures applied == localFilters
    {
      applied := localFilters;
    }
  }
}
