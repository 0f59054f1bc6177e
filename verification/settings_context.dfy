/**
 * The separate settings store: one settings record, updated by a shallow
 * merge of a partial record, reset to the defaults, and loaded from storage.
 */
module SettingsContext {
  import opened Types
  import Constants

  /** The provider's own copy of the default settings. */
  const ProviderDefaults: UserSettings := UserSettings(System, 16, Grid, CreatedDesc, false)

  lemma ProviderDefaultsAgree()
    ensures ProviderDefaults == Constants.DefaultSettings
  {
  }

  /** A partial settings record: an absent field is `None`. */
  datatype SettingsPatch = SettingsPatch(
    theme: Option<Theme>,
    fontSize: Option<int>,
    viewMode: Option<ViewMode>,
    sortBy: Option<SortBy>,
    backupEnabled: Option<bool>
  )

  const EmptyPatch: SettingsPatch := SettingsPatch(None, None, None, None, None)

  /** `{ ...prev, ...patch }`: each present field overrides, each absent field is kept. */
  function Merge(prev: UserSettings, patch: SettingsPatch): (s: UserSettings)
    ensures s.theme == (if patch.theme.Some? then patch.theme.value else prev.theme)
    ensures s.fontSize == (if patch.fontSize.Some? then patch.fontSize.value else prev.fontSize)
    ensures s.viewMode == (if patch.viewMode.Some? then patch.viewMode.value else prev.viewMode)
    ensures s.sortBy == (if patch.sortBy.Some? then patch.sortBy.value else prev.sortBy)
    ensures s.backupEnabled == (if patch.backupEnabled.Some? then patch.backupEnabled.value else prev.backupEnabled)
  {
    UserSettings(
      patch.theme.GetOr(prev.theme),
      patch.fontSize.GetOr(prev.fontSize),
      patch.viewMode.GetOr(prev.viewMode),
      patch.sortBy.GetOr(prev.sortBy),
      patch.backupEnabled.GetOr(prev.backupEnabled))
  }

  /** Merging the empty partial changes nothing. */
  lemma MergeEmptyIsIdentity(prev: UserSettings)
    ensures Merge(prev, EmptyPatch) == prev
  {
  }

  /** Merging the same partial twice is the same as merging it once. */
  lemma MergeIdempotent(prev: UserSettings, patch: SettingsPatch)
    ensures Merge(Merge(prev, patch), patch) == Merge(prev, patch)
  {
  }

  /** A patch that names every field determines the result whatever came before. */
  lemma MergeFullPatchOverrides(prev: UserSettings, s: UserSettings)
    ensures Merge(prev, SettingsPatch(Some(s.theme), Some(s.fontSize), Some(s.viewMode),
                                      Some(s.sortBy), Some(s.backupEnabled))) == s
  {
  }

  /** Merging `{sortBy: ALPHA_ASC}` into the defaults changes only the ordering. */
  lemma MergeAlphaIntoDefaults()
    ensures Merge(ProviderDefaults, EmptyPatch.(sortBy := Some(AlphaAsc))) ==
            UserSettings(System, 16, Grid, AlphaAsc, false)
  {
  }

  class SettingsStore {
    var settings: UserSettings

    constructor ()
      ensures settings == ProviderDefaults
    {
      settings := ProviderDefaults;
    }

    /** `loadSettings`: a saved record replaces the settings; none keeps them. */
    method LoadSettings(saved: Option<UserSettings>)
      modifies this
      ensures saved.Some? ==> settings == saved.value
      ensures saved.None? ==> settings == old(settings)
    {
      if saved.Some? {
        settings := saved.value;
      }
    }

    method UpdateSettings(patch: SettingsPatch)
      modifies this
      ensures settings == Merge(old(settings), patch)
    {
      settings := Merge(settings, patch);
    }

    /** The defaults, whatever the settings were before. */
    method ResetSettings()
      modifies this
      ensures settings == ProviderDefaults
    {
      settings := ProviderDefaults;
    }
  }
}
