# Notes app core, modelled in Dafny

This project models the core of a React Native notes app.

- **Notes store** (`NotesContext`): an ordered list of notes and the user settings. Notes are added at the head, replaced by id, and soft-deleted by id. A deleted note is kept with a deletion timestamp.
- **Settings store** (`SettingsContext`): partial updates are merged over the previous settings. Reset returns to the defaults.
- **Theme store** (`ThemeContext`): holds the chosen theme and resolves it against the operating system's colour scheme. Light and dark are fixed. System takes the scheme the platform reports, and light when the platform reports none; so the result is light or dark whenever the platform reports light, dark or nothing.
- **Shared types and constants**: the enumerations, the two colour palettes and the default settings.
- **Screens and the note card**:
  - the card's preview text, title, status icon and palette entry;
  - the search filter;
  - the active/archived split and list layout of the notes list;
  - the note editor: new-note defaults, the selected palette entry (the same lookup as the card's), save, delete and the checklist handlers;
  - the sort and filter sheet.

Each source file has a module of its own:
- `Types`, `Constants`, `NotesContext`, `SettingsContext`, `ThemeContext`, `NoteCard`, `SearchScreen`, `NotesScreen`, `NoteViewScreen` and `SortFilterModal`.
- Two helper modules support them. `Seqs` provides an order-keeping filter and the subsequence relation. `Text` provides ASCII lower-casing, trimming, substring search and decimal rendering.

Some source components hold state that their handlers replace: the three providers, the note editor and the filter sheet. Each is a class whose methods state the new state through pure functions. The properties of those functions are proved as lemmas.

## Model

| member | source | states |
|---|---|---|
| Types.ThemeFromTag | src/types/index.ts:2-6 | a decoded theme has exactly the tag that was decoded; no other string decodes |
| Types.ViewModeFromTag | src/types/index.ts:8-11 | a decoded view mode has exactly the tag that was decoded; no other string decodes |
| Types.SortByFromTag | src/types/index.ts:13-19 | a decoded ordering has exactly the tag that was decoded; no other string decodes |
| Types.NoteTypeFromTag | src/types/index.ts:21-24 | a decoded note type has exactly the tag that was decoded; no other string decodes |
| Types.TagsRoundTrip | src/types/index.ts:2-24 | decoding the tag of any theme, view mode, ordering or note type gives that member back |
| Types.TagsInjective | src/types/index.ts:2-24 | distinct members of each enumeration have distinct string tags |
| Types.SortByHasFiveMembers | src/types/index.ts:13-19 | the orderings are exactly five, and each of them is one of the five listed |
| Types.FlagsIndependent | src/types/index.ts:39-40 | the archived and deleted flags take any of the four combinations, and setting one keeps the other |
| Constants.PalettesAligned | src/utils/constants.ts:4-24 | both palettes have 8 entries with the same labels in the same order |
| Constants.PaletteValuesDistinct | src/utils/constants.ts:4-24 | within each palette no two entries share a colour value |
| Constants.PalettesDisjoint | src/utils/constants.ts:4-24 | no colour value appears in both palettes |
| Constants.PaletteFor | src/components/notes/NoteCard.tsx:29-31 | the dark palette is chosen exactly when the scheme is "dark"; any other scheme, or none, gives the light palette |
| Constants.FindByValue | src/screens/NoteViewScreen.tsx:172 | the palette `find` of the editor's selected colour, which is also the card's lookup: a found entry has the colour value and is the first such entry; nothing is found only when no entry has the value |
| Constants.ColorFor | src/components/notes/NoteCard.tsx:33 | the palette entry whose value is the note's colour, or the palette's first entry when there is none |
| Constants.ColorForSelectsUniqueEntry | src/utils/constants.ts:4-24 | when entry k of the scheme's palette has the colour, the lookup returns exactly entry k |
| Constants.LightColorFallsBackInDark | src/components/notes/NoteCard.tsx:33 | under the dark scheme a light-palette colour always falls back to the first dark entry |
| NotesContext.ProviderDefaultsAgree | src/utils/constants.ts:64-70 | the notes provider's default settings equal the shared defaults field by field |
| NotesContext.Prepend | src/context/NotesContext.tsx:50-52 | the new note is the head, the previous list is the unchanged tail, and the length grows by one |
| NotesContext.AddNoteAllowsDuplicateIds | src/context/NotesContext.tsx:51 | adding a note whose id is present gives one more entry with that id; there is no uniqueness check |
| NotesContext.AddAllMostRecentFirst | src/context/NotesContext.tsx:50-52 | adding several notes one by one puts them in reverse order in front of the old list |
| NotesContext.ReplaceById | src/context/NotesContext.tsx:54-58 | same length and order; every entry with the id becomes the updated note and every other entry is unchanged |
| NotesContext.ReplaceAbsentIsNoop | src/context/NotesContext.tsx:55-57 | updating an id that is not present leaves the list unchanged |
| NotesContext.ReplaceIdempotent | src/context/NotesContext.tsx:54-58 | applying the same update twice equals applying it once |
| NotesContext.ReplaceThenRead | src/context/NotesContext.tsx:54-58 | after an update the note with that id is present exactly when it was before, and it is then the updated note |
| NotesContext.Tombstone | src/context/NotesContext.tsx:62 | the note is marked deleted with the given deletion time; every other field is unchanged |
| NotesContext.SoftDelete | src/context/NotesContext.tsx:60-64 | same length and order; entries with the id are tombstoned and other entries are untouched |
| NotesContext.SoftDeleteAbsentIsNoop | src/context/NotesContext.tsx:61-63 | deleting an unknown id leaves the list unchanged |
| NotesContext.DeletedStaysDeleted | src/context/NotesContext.tsx:60-64 | any sequence of deletes keeps the length and every id, and keeps deleted entries deleted |
| NotesContext.DeleteIsPermanent | src/context/NotesContext.tsx:61-63 | after deleting an id, the entries with that id stay deleted through any later deletes |
| NotesContext.LoadedSettings | src/context/NotesContext.tsx:44-47 | saved settings replace the current ones; without saved settings the current ones are kept |
| NotesContext.NotesStore.constructor | src/context/NotesContext.tsx:25-26 | the store starts with no notes and the default settings |
| NotesContext.NotesStore.LoadData | src/context/NotesContext.tsx:40-48 | the loaded notes replace the list; settings change only when saved settings exist |
| NotesContext.NotesStore.AddNote | src/context/NotesContext.tsx:50-52 | the list becomes the note prepended to the old list; settings are unchanged |
| NotesContext.NotesStore.UpdateNote | src/context/NotesContext.tsx:54-58 | the list is replaced by id, and is unchanged when the id is absent |
| NotesContext.NotesStore.DeleteNote | src/context/NotesContext.tsx:60-64 | the list is soft-deleted by id at the given time |
| NotesContext.NotesStore.UpdateSettings | src/context/NotesContext.tsx:66-68 | settings become exactly the given record; notes are unchanged |
| SettingsContext.ProviderDefaultsAgree | src/context/SettingsContext.tsx:11-17 | the settings provider's defaults equal the shared defaults field by field |
| SettingsContext.Merge | src/context/SettingsContext.tsx:39-41 | each field present in the patch takes its value; each absent field keeps the previous value |
| SettingsContext.MergeEmptyIsIdentity | src/context/SettingsContext.tsx:40 | an empty patch leaves the settings unchanged |
| SettingsContext.MergeIdempotent | src/context/SettingsContext.tsx:40 | merging the same patch twice equals merging it once |
| SettingsContext.MergeFullPatchOverrides | src/context/SettingsContext.tsx:40 | a patch with every field present gives exactly its values, whatever the previous settings |
| SettingsContext.MergeAlphaIntoDefaults | src/context/SettingsContext.tsx:11-41 | merging an A-to-Z ordering into the defaults changes only the ordering |
| SettingsContext.SettingsStore.constructor | src/context/SettingsContext.tsx:22 | the store starts with the default settings |
| SettingsContext.SettingsStore.LoadSettings | src/context/SettingsContext.tsx:32-37 | saved settings replace the current ones; with none the current ones are kept |
| SettingsContext.SettingsStore.UpdateSettings | src/context/SettingsContext.tsx:39-41 | the settings become the patch merged over the previous settings |
| SettingsContext.SettingsStore.ResetSettings | src/context/SettingsContext.tsx:43-45 | the settings become the defaults, whatever they were |
| ThemeContext.EffectiveTheme | src/context/ThemeContext.tsx:18-22 | light and dark are fixed; system follows the OS scheme, or is light when there is none |
| ThemeContext.FixedThemesIgnoreSystem | src/context/ThemeContext.tsx:20-22 | the light and dark themes resolve the same way under any two OS schemes |
| ThemeContext.EffectiveThemeIsLightOrDark | src/context/ThemeContext.tsx:18-22 | when the OS scheme is light, dark or absent, the result is always light or dark |
| ThemeContext.ThemeStore.constructor | src/context/ThemeContext.tsx:15 | the theme starts as system |
| ThemeContext.ThemeStore.LoadTheme | src/context/ThemeContext.tsx:32-41 | a non-empty saved value replaces the theme; an absent or empty value, or a failed read, keeps it |
| ThemeContext.ThemeStore.SetTheme | src/context/ThemeContext.tsx:52 | the theme becomes the chosen one |
| NoteCard.CompletedCount | src/components/notes/NoteCard.tsx:38 | exactly the number of completed items, counted with repetition; so at most the number of items, zero exactly when none is completed, and all exactly when every item is |
| NoteCard.CompletedCountAppend | src/components/notes/NoteCard.tsx:38 | adding an item raises the completed count by one exactly when the item is completed |
| NoteCard.ContentPreview | src/components/notes/NoteCard.tsx:43 | the first 100 characters, with "..." exactly when the content is longer; at most 103 characters |
| NoteCard.PreviewText | src/components/notes/NoteCard.tsx:36-44 | an empty checklist says so; a non-empty one is summarised; any other note shows its content preview, or "" without content |
| NoteCard.ChecklistSummaryReadsBack | src/components/notes/NoteCard.tsx:37-41 | the summary is "c/t completed", where c reads back as the completed count, t as the item count, and c <= t |
| NoteCard.OneOfTwoCompleted | src/components/notes/NoteCard.tsx:37-41 | a checklist of two items with one done previews as "1/2 completed" |
| NoteCard.DisplayTitle | src/components/notes/NoteCard.tsx:89 | the title when it is non-empty, otherwise "Untitled"; never empty |
| NoteCard.StatusIcon | src/components/notes/NoteCard.tsx:93-95 | an icon shows exactly for archived or deleted notes, and the archive icon wins when both flags are set |
| SearchScreen.SearchResults | src/screens/SearchScreen.tsx:27-36 | a blank query finds nothing; results are non-deleted notes from the list; otherwise a note is found exactly when its lower-cased title or content contains the lower-cased query, and kept as often as it occurs |
| SearchScreen.SearchResultsInOrder | src/screens/SearchScreen.tsx:31 | the results are a subsequence of the notes, in their order |
| SearchScreen.SearchIgnoresCase | src/screens/SearchScreen.tsx:28-34 | two queries that agree after lower-casing find the same notes, and the lower-cased query finds what the query finds |
| SearchScreen.ArchivedNotesAreSearched | src/screens/SearchScreen.tsx:31-35 | any archived note in the list that is not deleted and whose lower-cased title or content contains the lower-cased query is found |
| SearchScreen.SurroundingSpacesMustMatch | src/screens/SearchScreen.tsx:28-30 | the query is trimmed only for the blank test: " milk" does not find a note titled "milk" |
| NotesScreen.ActiveNotes | src/screens/NotesScreen.tsx:36 | exactly the notes that are neither deleted nor archived, each kept as often as it occurs |
| NotesScreen.ArchivedNotes | src/screens/NotesScreen.tsx:37 | exactly the notes that are archived and not deleted, each kept as often as it occurs |
| NotesScreen.PartitionOfLiveNotes | src/screens/NotesScreen.tsx:36-37 | both lists keep the notes' order and share no note; together they hold each non-deleted note as often as it occurs, and their lengths add up to the count of non-deleted notes |
| NotesScreen.NumColumns | src/screens/NotesScreen.tsx:68 | two columns in the grid, one in the list |
| NotesScreen.GetItemLayout | src/screens/NotesScreen.tsx:59-66 | row height 120 in the grid and 80 in the list; the offset is height times index |
| NotesScreen.LayoutRowsAbut | src/screens/NotesScreen.tsx:59-66 | each row starts where the previous one ends |
| NoteViewScreen.FindById | src/screens/NoteViewScreen.tsx:36 | the first note with the route's id; nothing when there is no id or no such note |
| NoteViewScreen.EditorId | src/screens/NoteViewScreen.tsx:40 | the route's id when it is given and non-empty, otherwise the fresh id |
| NoteViewScreen.NewNote | src/screens/NoteViewScreen.tsx:38-51 | a standard note with empty title, content and checklist, the first palette colour, not archived or deleted, created and modified now |
| NoteViewScreen.PatchTodo | src/screens/NoteViewScreen.tsx:105 | each field present in the patch takes its value; absent fields are kept |
| NoteViewScreen.AppendTodo | src/screens/NoteViewScreen.tsx:88-99 | the item goes at the end, earlier items are unchanged, and a missing checklist counts as empty |
| NoteViewScreen.MergeTodoItems | src/screens/NoteViewScreen.tsx:104-106 | same length and order; every item with the id is patched and every other item is unchanged |
| NoteViewScreen.MergeTodo | src/screens/NoteViewScreen.tsx:101-108 | a missing checklist stays missing; otherwise items are merged by id |
| NoteViewScreen.RemoveTodo | src/screens/NoteViewScreen.tsx:110-115 | every item with the id is removed and every other item is kept as often as it occurs; a missing checklist stays missing |
| NoteViewScreen.RemoveTodoKeepsOrder | src/screens/NoteViewScreen.tsx:113 | the kept items are a subsequence in the original order, and an unknown id removes nothing |
| NoteViewScreen.ToggleCompletedTwiceRestores | src/screens/NoteViewScreen.tsx:125 | toggling an item's completed flag twice restores the checklist, when the items sharing its id agree on that flag |
| NoteViewScreen.SaveOfAbsentNoteIsNoop | src/screens/NoteViewScreen.tsx:61-66 | saving a note whose id is not in the store leaves the store's notes unchanged |
| NoteViewScreen.NoteEditor.constructor | src/screens/NoteViewScreen.tsx:35-53 | the editor shows the stored note when found, else a new note; editing starts exactly when none was found |
| NoteViewScreen.NoteEditor.SyncExisting | src/screens/NoteViewScreen.tsx:55-59 | a found note replaces the editor's note; otherwise it is kept |
| NoteViewScreen.NoteEditor.Save | src/screens/NoteViewScreen.tsx:61-68 | the store receives the note with only its modified time changed, by id replacement; editing ends |
| NoteViewScreen.NoteEditor.SaveOrAdd | src/screens/NoteViewScreen.tsx:61-68 | as Save, except that a note whose id is absent is added at the head of the store |
| NoteViewScreen.NoteEditor.ConfirmDelete | src/screens/NoteViewScreen.tsx:79-82 | the store soft-deletes the editor's note id at the given time |
| NoteViewScreen.NoteEditor.StartEditing | src/screens/NoteViewScreen.tsx:196 | editing starts; the note is unchanged |
| NoteViewScreen.NoteEditor.SetTitle | src/screens/NoteViewScreen.tsx:218 | only the title changes |
| NoteViewScreen.NoteEditor.SetContent | src/screens/NoteViewScreen.tsx:232 | only the content changes |
| NoteViewScreen.NoteEditor.SetColor | src/screens/NoteViewScreen.tsx:254 | only the colour changes |
| NoteViewScreen.NoteEditor.AddTodoItem | src/screens/NoteViewScreen.tsx:88-99 | an empty, uncompleted item is appended to the checklist; nothing else changes |
| NoteViewScreen.NoteEditor.UpdateTodoItem | src/screens/NoteViewScreen.tsx:101-108 | the checklist is merged by id; nothing else changes |
| NoteViewScreen.NoteEditor.DeleteTodoItem | src/screens/NoteViewScreen.tsx:110-115 | items with the id leave the checklist; nothing else changes |
| NoteViewScreen.SaveFreshNote | src/screens/NoteViewScreen.tsx:61-66 | opening the editor on an unknown id and saving leaves the store's notes unchanged |
| SortFilterModal.ApplyUpdate | src/components/notes/SortFilterModal.tsx:74-79 | the named option takes the value and every other option is unchanged |
| SortFilterModal.ToggleTwiceRestores | src/components/notes/SortFilterModal.tsx:397-403 | flipping archived or deleted twice restores the options, and once always changes them |
| SortFilterModal.ApplyUpdateIdempotent | src/components/notes/SortFilterModal.tsx:78 | the same update twice equals it once |
| SortFilterModal.SortLabel | src/components/notes/SortFilterModal.tsx:81-96 | the label of each of the five orderings |
| SortFilterModal.SortLabelInjective | src/components/notes/SortFilterModal.tsx:81-96 | different orderings have different labels |
| SortFilterModal.SortIcon | src/components/notes/SortFilterModal.tsx:98-112 | newest and recently modified share the down arrow, oldest has the up arrow, both alphabetical orders have the text icon |
| SortFilterModal.SortIconSharing | src/components/notes/SortFilterModal.tsx:98-112 | the icon distinguishes the three kinds of ordering but not the two directions |
| SortFilterModal.FilterPanel.constructor | src/components/notes/SortFilterModal.tsx:54-56 | the local options are the given ones, or the defaults when none are given |
| SortFilterModal.FilterPanel.SyncFilters | src/components/notes/SortFilterModal.tsx:58-63 | given options replace the local ones; otherwise they are kept |
| SortFilterModal.FilterPanel.UpdateFilter | src/components/notes/SortFilterModal.tsx:74-79 | the local options receive the single-option update |
| SortFilterModal.FilterPanel.Reset | src/components/notes/SortFilterModal.tsx:35-41 | newest first, grid, archived and deleted hidden, no type filter |
| SortFilterModal.FilterPanel.Apply | src/components/notes/SortFilterModal.tsx:65-68 | the options handed back are the local ones |

## Left out

- Persistence is not modelled: the AsyncStorage reads and writes in `src/utils/storage.ts` and the effects that save state whenever it changes.
  - A load is a parameter that holds a value or nothing, and a failed theme read is `ThemeRead.ReadFailed`.
  - The JSON encoding is not modelled. It is not lossless, because dates come back as strings.
- Clocks are parameters. The times from `new Date()` and `Date.now()` are integers passed in. One instant stands for each group of reads made by one operation.
- NoteViewScreen.NewNote uses one instant for both `createdAt` and `updatedAt`. The source reads the clock twice, so it does not guarantee that the two are equal.
- NotesContext.SoftDelete uses one instant for every matching entry. The source reads the clock once per entry inside the `map`.
- The card's relative-time label (`formatDistanceToNow`) is not modelled. It is date formatting from an external library.
- Text handling is ASCII only.
  - `toLowerCase` and `trim` are modelled on ASCII letters and ASCII whitespace.
  - `substring` counts characters, not UTF-16 code units.
- `fontSize` is an integer. In the source it is a floating-point number that no core operation computes with.
- SettingsContext.Merge: a key that is present in the patch with the value `undefined` overwrites the field in the source. Here an absent field and an `undefined` field are the same.
- NoteViewScreen.PatchTodo: for the same reason, a patch key holding `undefined` is not modelled.
- The `NotesScreen` and `SearchScreen` note-update handlers are not modelled. They call `updateNote` with two arguments, which the store does not accept. The `notes` prop that `NotesScreen` passes to the filter sheet is not a declared prop and is ignored.
- The hooks `useNotes` and `useSettings` are not modelled: they only forward the context values.
- The `STORAGE_KEYS` constant is not modelled. It is configuration that the storage helpers do not use.
- The two settings providers write the same storage key asynchronously. That race is concurrency and is not modelled.
- Rendering, styles, modals, animations and navigation are not modelled. This covers going back after a delete and the confirmation dialog before it. `ConfirmDelete` is the confirmed branch.
- The note card's colour bar and note-type icon are not modelled. They are presentation only.
- The colour picker, button, floating action button, app shell and placeholder screens are not modelled.
- NoteViewScreen.ToggleCompletedTwiceRestores: requires that the items sharing the toggled item's id agree on `completed`. The toggle merges into every item with that id, so with ids that disagree a second toggle does not restore them. Unique ids satisfy the condition.
- NoteViewScreen.NoteEditor.SyncExisting: React runs this effect when the looked-up note changes. Here it is a method the caller invokes.
- The shared default settings appear three times as literals in the source. Here each is a constant in its own module, and a lemma proves each agrees with `Constants.DefaultSettings`.

## Findings

| source | as written | input that shows it | evidently intended | confidence | as-written member | corrected member |
|---|---|---|---|---|---|---|
| src/screens/NoteViewScreen.tsx:61-68 | saving hands the note only to `updateNote`, which replaces by id, and no code in the app calls `addNote` | open the editor without a note id (a new note), then save | the new note is added to the store | low, not executed: no screen in the app opens the editor for a new note | NoteViewScreen.SaveFreshNote | NoteViewScreen.NoteEditor.SaveOrAdd |
