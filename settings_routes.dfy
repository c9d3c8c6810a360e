/** The `/api/settings` routes: each is a branch on the `disableGlobalSettings` flag that
    either refuses with 403 or delegates to the settings holder and shapes its answer. */
module SettingsRoutes {
  import opened Wrappers
  import opened Settings
  import opened SettingsConfigModule
  import Text

  /** A response body: the settings with the flag beside them, or an error. */
  datatype Body =
    | SettingsBody(settings: AppSettings, globalSettingsDisabled: bool)
    | ErrorBody(error: string, code: Option<string>)

  datatype Response = Response(status: int, body: Body)

  const DisabledCode: string := "GLOBAL_SETTINGS_DISABLED"
  const GlobalSettings: string := "Global settings"
  const UpdateDisabledMessage: string := GlobalSettings + " updates are disabled by configuration"
  const ResetDisabledMessage: string := GlobalSettings + " reset is disabled by configuration"
  const ImportDisabledMessage: string := GlobalSettings + " import is disabled by configuration"

  /** The refusal of a route while global settings are disabled. */
  function Forbidden(message: string): Response {
    Response(403, ErrorBody(message, Some(DisabledCode)))
  }

  /** Every refusal names 'Global settings', the words the client looks for before it
      switches to local mode. */
  lemma RefusalsMentionGlobalSettings()
    ensures Text.Contains(UpdateDisabledMessage, GlobalSettings)
    ensures Text.Contains(ResetDisabledMessage, GlobalSettings)
    ensures Text.Contains(ImportDisabledMessage, GlobalSettings)
  {
    StartsWith(GlobalSettings, " updates are disabled by configuration");
    StartsWith(GlobalSettings, " reset is disabled by configuration");
    StartsWith(GlobalSettings, " import is disabled by configuration");
  }

  lemma StartsWith(prefix: string, rest: string)
    ensures Text.Contains(prefix + rest, prefix)
  {
    assert prefix <= (prefix + rest)[0..];
  }

  /** `GET /`: the settings and the flag, whatever the flag. */
  method GetRoute(cfg: SettingsConfig, disabled: bool) returns (resp: Response)
    ensures resp == Response(200, SettingsBody(cfg.settings, disabled))
  {
    var settings := cfg.GetSettings();
    return Response(200, SettingsBody(settings, disabled));
  }

  /** `PUT /`: refused with 403 without touching the holder when disabled; otherwise the
      merged settings with the flag, or 500 when they could not be written. */
  method PutRoute(cfg: SettingsConfig, disabled: bool, updates: PartialSettings, now: string, writeOk: bool)
    returns (resp: Response)
    modifies cfg
    ensures disabled ==> resp == Forbidden(UpdateDisabledMessage) && unchanged(cfg)
    ensures !disabled ==> cfg.settings == MergeUpdates(old(cfg.settings), updates).(exportDate := Some(now))
    ensures !disabled ==> cfg.file == (if writeOk then Some(cfg.settings) else old(cfg.file))
    ensures !disabled && writeOk ==> resp == Response(200, SettingsBody(cfg.settings, false))
    ensures !disabled && !writeOk ==> resp == Response(500, ErrorBody("Failed to update settings", None))
  {
    if disabled {
      return Forbidden(UpdateDisabledMessage);
    }
    var r := cfg.UpdateSettings(updates, now, writeOk);
    if r.Err? {
      return Response(500, ErrorBody("Failed to update settings", None));
    }
    return Response(200, SettingsBody(r.value, disabled));
  }

  /** `POST /reset`: refused with 403 when disabled; otherwise the defaults with the flag,
      or 500. */
  method ResetRoute(cfg: SettingsConfig, disabled: bool, now: string, writeOk: bool) returns (resp: Response)
    modifies cfg
    ensures disabled ==> resp == Forbidden(ResetDisabledMessage) && unchanged(cfg)
    ensures !disabled ==> cfg.settings == Defaults.(exportDate := Some(now))
    ensures !disabled ==> cfg.file == (if writeOk then Some(cfg.settings) else old(cfg.file))
    ensures !disabled && writeOk ==> resp == Response(200, SettingsBody(cfg.settings, false))
    ensures !disabled && !writeOk ==> resp == Response(500, ErrorBody("Failed to reset settings", None))
  {
    if disabled {
      return Forbidden(ResetDisabledMessage);
    }
    var r := cfg.ResetToDefaults(now, writeOk);
    if r.Err? {
      return Response(500, ErrorBody("Failed to reset settings", None));
    }
    return Response(200, SettingsBody(r.value, disabled));
  }

  /** `POST /import`: refused with 403 when disabled; otherwise the imported settings filled
      from the defaults, with the flag, or 400 (not 500) when they could not be written. */
  method ImportRoute(cfg: SettingsConfig, disabled: bool, imported: PartialSettings, now: string, writeOk: bool)
    returns (resp: Response)
    modifies cfg
    ensures disabled ==> resp == Forbidden(ImportDisabledMessage) && unchanged(cfg)
    ensures !disabled ==> cfg.settings == ValidateAndMerge(imported).(exportDate := Some(now))
    ensures !disabled ==> cfg.file == (if writeOk then Some(cfg.settings) else old(cfg.file))
    ensures !disabled && writeOk ==> resp == Response(200, SettingsBody(cfg.settings, false))
    ensures !disabled && !writeOk ==> resp == Response(400, ErrorBody("Failed to import settings", None))
  {
    if disabled {
      return Forbidden(ImportDisabledMessage);
    }
    var r := cfg.ImportSettings(imported, now, writeOk);
    if r.Err? {
      return Response(400, ErrorBody("Failed to import settings", None));
    }
    return Response(200, SettingsBody(r.value, disabled));
  }
}
