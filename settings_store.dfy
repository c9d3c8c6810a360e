/** The client's settings store: the settings on screen, the loading and error flags, and
    the switch to local mode (settings kept in the browser's storage) once the server
    refuses global changes. What each API call answers is a parameter; `apiCalls` counts
    the calls made. */
module SettingsStoreModule {
  import opened Wrappers
  import opened Settings
  import Text
  import SettingsRoutes

  /** The answer of an API call: its value, or the message of the thrown error. */
  datatype ApiResult<T> = ApiOk(value: T) | ApiFailed(message: string)

  /** What `apiService.getSettings()` yields. */
  datatype LoadedSettings = LoadedSettings(settings: AppSettings, globalSettingsDisabled: bool)

  /** The section argument of `updateSection` together with its partial update. */
  datatype SectionUpdate =
    | DrawingSection(drawing: PartialDrawing)
    | UISection(ui: PartialUI)
    | CollaborationSection(collaboration: PartialCollaboration)
    | AccountSection(account: PartialAccount)
    | AccessibilitySection(accessibility: PartialAccessibility)
    | ShortcutsSection(shortcuts: PartialShortcuts)

  /** The marker the store looks for in an error message. */
  predicate IsGlobalSettingsError(message: string) {
    Text.Contains(message, SettingsRoutes.GlobalSettings)
  }

  /** The update as a plain partial record. */
  function AsPartial(u: SectionUpdate): PartialSettings {
    match u
    case DrawingSection(d) => NoKeys.(drawing := Some(d))
    case UISection(x) => NoKeys.(ui := Some(x))
    case CollaborationSection(c) => NoKeys.(collaboration := Some(c))
    case AccountSection(a) => NoKeys.(account := Some(a))
    case AccessibilitySection(a) => NoKeys.(accessibility := Some(a))
    case ShortcutsSection(s) => NoKeys.(shortcuts := Some(s))
  }

  /** `{ [section]: { ...settings[section], ...updates } }`: the whole current section with
      the update laid over it (for shortcuts, a group the update names replaces the current
      group in this object). */
  function SectionUpdates(current: AppSettings, u: SectionUpdate): PartialSettings {
    var all := AllKeys(MergeUpdates(current, AsPartial(u)));
    match u
    case DrawingSection(_) => NoKeys.(drawing := all.drawing)
    case UISection(_) => NoKeys.(ui := all.ui)
    case CollaborationSection(_) => NoKeys.(collaboration := all.collaboration)
    case AccountSection(_) => NoKeys.(account := all.account)
    case AccessibilitySection(_) => NoKeys.(accessibility := all.accessibility)
    case ShortcutsSection(s) =>
      var current := AllKeys(current).shortcuts.value;
      NoKeys.(shortcuts := Some(PartialShortcuts(
        if s.tools.Some? then s.tools else current.tools,
        if s.canvas.Some? then s.canvas else current.canvas,
        if s.ui.Some? then s.ui else current.ui)))
  }

  /** Merged into the same settings it was built from, the section object has exactly the
      effect of the partial update itself. */
  lemma SectionUpdateAbsorbed(current: AppSettings, u: SectionUpdate)
    ensures MergeUpdates(current, SectionUpdates(current, u)) == MergeUpdates(current, AsPartial(u))
  {
    match u {
      case ShortcutsSection(s) =>
        var r1 := MergeUpdates(current, SectionUpdates(current, u));
        var r2 := MergeUpdates(current, AsPartial(u));
        assert r1.shortcuts.tools == r2.shortcuts.tools;
        assert r1.shortcuts.canvas == r2.shortcuts.canvas;
        assert r1.shortcuts.ui == r2.shortcuts.ui;
      case DrawingSection(d) =>
        assert MergeUpdates(current, SectionUpdates(current, u)).drawing == MergeUpdates(current, AsPartial(u)).drawing;
      case _ =>
    }
  }

  class SettingsStore {
    var settings: AppSettings
    var isLoading: bool
    var error: Option<string>
    var globalSettingsDisabled: bool
    var isLocalMode: bool
    /** The browser's saved local settings. */
    var local: Option<AppSettings>
    /** How many API calls the store has made. */
    var apiCalls: nat

    /** A fresh store shows the defaults and is in server mode. */
    constructor(saved: Option<AppSettings>)
      ensures settings == Defaults && !isLoading && error.None? && !globalSettingsDisabled && !isLocalMode
      ensures local == saved && apiCalls == 0
    {
      settings := Defaults;
      isLoading := false;
      error := None;
      globalSettingsDisabled := false;
      isLocalMode := false;
      local := saved;
      apiCalls := 0;
    }

    /** `#loadLocalSettings`: saved local settings, filled from the defaults, replace the
        current ones; without any, nothing changes. */
    method LoadLocal()
      modifies this`settings
      ensures local.Some? ==> settings == ValidateAndMerge(AllKeys(local.value))
      ensures local.None? ==> settings == old(settings)
    {
      if local.Some? {
        settings := ValidateAndMerge(AllKeys(local.value));
      }
    }

    /** `#updateLocalSettings`: the update merged into the current settings, then saved. */
    method UpdateLocal(updates: PartialSettings)
      modifies this`settings, this`local
      ensures settings == MergeUpdates(old(settings), updates) && local == Some(settings)
    {
      settings := MergeUpdates(settings, updates);
      local := Some(settings);
    }

    /** `initializeSettings`: the server-rendered settings, replaced by the local ones in
        local mode. */
    method InitializeSettings(initial: AppSettings)
      modifies this`settings
      ensures !globalSettingsDisabled ==> settings == initial
      ensures globalSettingsDisabled && local.Some? ==> settings == ValidateAndMerge(AllKeys(local.value))
      ensures globalSettingsDisabled && local.None? ==> settings == initial
    {
      settings := initial;
      if globalSettingsDisabled {
        LoadLocal();
      }
    }

    /** `loadSettings`: on success the server's settings and flag are taken, local mode
        follows the flag, and in local mode saved local settings win; on failure the error
        is recorded and the settings are kept. Never rethrows; loading ends false. */
    method LoadSettings(outcome: ApiResult<LoadedSettings>)
      modifies this
      ensures !isLoading && apiCalls == old(apiCalls) + 1 && local == old(local)
      ensures outcome.ApiOk? ==>
        && error.None?
        && globalSettingsDisabled == outcome.value.globalSettingsDisabled
        && isLocalMode == globalSettingsDisabled
        && (globalSettingsDisabled && local.Some? ==> settings == ValidateAndMerge(AllKeys(local.value)))
        && (!(globalSettingsDisabled && local.Some?) ==> settings == outcome.value.settings)
      ensures outcome.ApiFailed? ==>
        && error == Some(outcome.message) && settings == old(settings)
        && globalSettingsDisabled == old(globalSettingsDisabled) && isLocalMode == old(isLocalMode)
    {
      isLoading := true;
      error := None;
      apiCalls := apiCalls + 1;
      match outcome {
        case ApiOk(result) =>
          settings := result.settings;
          globalSettingsDisabled := result.globalSettingsDisabled;
          isLocalMode := globalSettingsDisabled;
          if globalSettingsDisabled {
            LoadLocal();
          }
        case ApiFailed(message) =>
          error := Some(message);
      }
      isLoading := false;
    }

    /** `updateSettings`. In local mode the update is merged locally and the API is not
        called. Otherwise the server's answer is taken; a refusal naming 'Global settings'
        switches to local mode and merges locally without an error; any other error is
        recorded and rethrown with the settings unchanged. Loading always ends false. */
    method UpdateSettings(updates: PartialSettings, outcome: ApiResult<AppSettings>) returns (r: Result<bool>)
      modifies this
      ensures !isLoading
      ensures old(globalSettingsDisabled) ==>
        && apiCalls == old(apiCalls) && r.Ok? && error.None?
        && settings == MergeUpdates(old(settings), updates) && local == Some(settings)
        && globalSettingsDisabled && isLocalMode == old(isLocalMode)
      ensures !old(globalSettingsDisabled) ==> apiCalls == old(apiCalls) + 1
      ensures !old(globalSettingsDisabled) && outcome.ApiOk? ==>
        r.Ok? && error.None? && settings == outcome.value && local == old(local)
        && !globalSettingsDisabled && isLocalMode == old(isLocalMode)
      ensures !old(globalSettingsDisabled) && outcome.ApiFailed? && IsGlobalSettingsError(outcome.message) ==>
        && r.Ok? && error.None? && globalSettingsDisabled && isLocalMode
        && settings == MergeUpdates(old(settings), updates) && local == Some(settings)
      ensures !old(globalSettingsDisabled) && outcome.ApiFailed? && !IsGlobalSettingsError(outcome.message) ==>
        && r == Err(outcome.message) && error == Some(outcome.message)
        && settings == old(settings) && local == old(local)
        && !globalSettingsDisabled && isLocalMode == old(isLocalMode)
    {
      isLoading := true;
      error := None;
      r := Ok(true);
      if globalSettingsDisabled {
        UpdateLocal(updates);
      } else {
        apiCalls := apiCalls + 1;
        match outcome {
          case ApiOk(updated) =>
            settings := updated;
          case ApiFailed(message) =>
            if IsGlobalSettingsError(message) {
              globalSettingsDisabled := true;
              isLocalMode := true;
              UpdateLocal(updates);
            } else {
              error := Some(message);
              r := Err(message);
            }
        }
      }
      isLoading := false;
    }

    /** `resetToDefaults`: as `updateSettings`, with the defaults taken locally. */
    method ResetToDefaults(outcome: ApiResult<AppSettings>) returns (r: Result<bool>)
      modifies this
      ensures !isLoading
      ensures old(globalSettingsDisabled) ==>
        && apiCalls == old(apiCalls) && r.Ok? && error.None?
        && settings == Defaults && local == Some(Defaults)
        && globalSettingsDisabled && isLocalMode == old(isLocalMode)
      ensures !old(globalSettingsDisabled) ==> apiCalls == old(apiCalls) + 1
      ensures !old(globalSettingsDisabled) && outcome.ApiOk? ==>
        r.Ok? && error.None? && settings == outcome.value && local == old(local)
        && !globalSettingsDisabled && isLocalMode == old(isLocalMode)
      ensures !old(globalSettingsDisabled) && outcome.ApiFailed? && IsGlobalSettingsError(outcome.message) ==>
        && r.Ok? && error.None? && globalSettingsDisabled && isLocalMode
        && settings == Defaults && local == Some(Defaults)
      ensures !old(globalSettingsDisabled) && outcome.ApiFailed? && !IsGlobalSettingsError(outcome.message) ==>
        && r == Err(outcome.message) && error == Some(outcome.message)
        && settings == old(settings) && local == old(local)
        && !globalSettingsDisabled && isLocalMode == old(isLocalMode)
    {
      isLoading := true;
      error := None;
      r := Ok(true);
      if globalSettingsDisabled {
        settings := Defaults;
        local := Some(settings);
      } else {
        apiCalls := apiCalls + 1;
        match outcome {
          case ApiOk(reset) =>
            settings := reset;
          case ApiFailed(message) =>
            if IsGlobalSettingsError(message) {
              globalSettingsDisabled := true;
              isLocalMode := true;
              settings := Defaults;
              local := Some(settings);
            } else {
              error := Some(message);
              r := Err(message);
            }
        }
      }
      isLoading := false;
    }

    /** `importSettings`: as `updateSettings`, with the imported record taken as it is
        locally (not filled from the defaults). */
    method ImportSettings(importData: AppSettings, outcome: ApiResult<AppSettings>) returns (r: Result<bool>)
      modifies this
      ensures !isLoading
      ensures old(globalSettingsDisabled) ==>
        && apiCalls == old(apiCalls) && r.Ok? && error.None?
        && settings == importData && local == Some(importData)
        && globalSettingsDisabled && isLocalMode == old(isLocalMode)
      ensures !old(globalSettingsDisabled) ==> apiCalls == old(apiCalls) + 1
      ensures !old(globalSettingsDisabled) && outcome.ApiOk? ==>
        r.Ok? && error.None? && settings == outcome.value && local == old(local)
        && !globalSettingsDisabled && isLocalMode == old(isLocalMode)
      ensures !old(globalSettingsDisabled) && outcome.ApiFailed? && IsGlobalSettingsError(outcome.message) ==>
        && r.Ok? && error.None? && globalSettingsDisabled && isLocalMode
        && settings == importData && local == Some(importData)
      ensures !old(globalSettingsDisabled) && outcome.ApiFailed? && !IsGlobalSettingsError(outcome.message) ==>
        && r == Err(outcome.message) && error == Some(outcome.message)
        && settings == old(settings) && local == old(local)
        && !globalSettingsDisabled && isLocalMode == old(isLocalMode)
    {
      isLoading := true;
      error := None;
      r := Ok(true);
      if globalSettingsDisabled {
        settings := importData;
        local := Some(settings);
      } else {
        apiCalls := apiCalls + 1;
        match outcome {
          case ApiOk(imported) =>
            settings := imported;
          case ApiFailed(message) =>
            if IsGlobalSettingsError(message) {
              globalSettingsDisabled := true;
              isLocalMode := true;
              settings := importData;
              local := Some(settings);
            } else {
              error := Some(message);
              r := Err(message);
            }
        }
      }
      isLoading := false;
    }

    /** `updateSection`: the current section with the update laid over it, sent through
        `updateSettings`. */
    method UpdateSection(u: SectionUpdate, outcome: ApiResult<AppSettings>) returns (r: Result<bool>)
      modifies this
      ensures !isLoading
      ensures old(globalSettingsDisabled) ==>
        && apiCalls == old(apiCalls) && r.Ok? && error.None?
        && settings == MergeUpdates(old(settings), AsPartial(u)) && local == Some(settings)
        && globalSettingsDisabled && isLocalMode == old(isLocalMode)
      ensures !old(globalSettingsDisabled) ==> apiCalls == old(apiCalls) + 1
      ensures !old(globalSettingsDisabled) && outcome.ApiOk? ==>
        r.Ok? && error.None? && settings == outcome.value && local == old(local)
        && !globalSettingsDisabled && isLocalMode == old(isLocalMode)
      ensures !old(globalSettingsDisabled) && outcome.ApiFailed? && IsGlobalSettingsError(outcome.message) ==>
        && r.Ok? && error.None? && globalSettingsDisabled && isLocalMode
        && settings == MergeUpdates(old(settings), AsPartial(u)) && local == Some(settings)
      ensures !old(globalSettingsDisabled) && outcome.ApiFailed? && !IsGlobalSettingsError(outcome.message) ==>
        && r == Err(outcome.message) && error == Some(outcome.message)
        && settings == old(settings) && local == old(local)
        && !globalSettingsDisabled && isLocalMode == old(isLocalMode)
    {
      var sectionUpdates := SectionUpdates(settings, u);
      SectionUpdateAbsorbed(settings, u);
      r := UpdateSettings(sectionUpdates, outcome);
    }
  }

  /** The refusals of a server whose global settings are disabled are exactly the errors
      that switch the store to local mode. */
  lemma RefusalsSwitchToLocal()
    ensures IsGlobalSettingsError(SettingsRoutes.UpdateDisabledMessage)
    ensures IsGlobalSettingsError(SettingsRoutes.ResetDisabledMessage)
    ensures IsGlobalSettingsError(SettingsRoutes.ImportDisabledMessage)
  {
    SettingsRoutes.RefusalsMentionGlobalSettings();
  }
}
