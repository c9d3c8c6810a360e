/** The server's settings holder: the settings in memory and the `config.json` file behind
    them. The file is a field; whether a write succeeds, what a read yields and the clock
    are parameters. */
module SettingsConfigModule {
  import opened Wrappers
  import opened Settings

  class SettingsConfig {
    var settings: AppSettings
    /** The content of `config.json`, `None` while there is no file. */
    var file: Option<AppSettings>

    /** A fresh holder starts from the defaults. */
    constructor(existing: Option<AppSettings>)
      ensures settings == Defaults && file == existing
    {
      settings := Defaults;
      file := existing;
    }

    /** `getSettings`: a copy of the current settings. */
    function GetSettings(): AppSettings
      reads this
    {
      settings
    }

    /** `initialize`: an existing file is loaded (`loaded` is what parsing it yields, `None`
        when it cannot be read or parsed, which falls back to the defaults); without a file,
        the defaults stamped with `now` are written and taken, and a failed write is
        reported as 'Could not create configuration file' with the settings left as they
        were. */
    method Initialize(loaded: Option<PartialSettings>, now: string, writeOk: bool) returns (r: Result<bool>)
      modifies this
      ensures old(file).Some? ==> r.Ok? && file == old(file)
      ensures old(file).Some? && loaded.Some? ==> settings == ValidateAndMerge(loaded.value)
      ensures old(file).Some? && loaded.None? ==> settings == Defaults
      ensures old(file).None? && writeOk ==>
        r.Ok? && settings == Defaults.(exportDate := Some(now)) && file == Some(settings)
      ensures old(file).None? && !writeOk ==>
        r == Err("Could not create configuration file") && settings == old(settings) && file == old(file)
    {
      if file.Some? {
        if loaded.Some? {
          settings := ValidateAndMerge(loaded.value);
        } else {
          settings := Defaults;
        }
        return Ok(true);
      }
      var defaultConfig := Defaults.(exportDate := Some(now));
      if !writeOk {
        return Err("Could not create configuration file");
      }
      file := Some(defaultConfig);
      settings := defaultConfig;
      return Ok(true);
    }

    /** `updateSettings`: the update merged into the current settings (sections and shortcut
        groups key by key) with a fresh `exportDate`. The new settings are assigned before
        they are written, so a failed write still leaves them in memory and only the file
        keeps the old content. */
    method UpdateSettings(updates: PartialSettings, now: string, writeOk: bool) returns (r: Result<AppSettings>)
      modifies this
      ensures settings == MergeUpdates(old(settings), updates).(exportDate := Some(now))
      ensures writeOk ==> r == Ok(settings) && file == Some(settings)
      ensures !writeOk ==> r == Err("Could not update settings") && file == old(file)
    {
      settings := MergeUpdates(settings, updates).(exportDate := Some(now));
      r := Save("Could not update settings", writeOk);
    }

    /** `resetToDefaults`: the defaults with a fresh `exportDate`. */
    method ResetToDefaults(now: string, writeOk: bool) returns (r: Result<AppSettings>)
      modifies this
      ensures settings == Defaults.(exportDate := Some(now))
      ensures writeOk ==> r == Ok(settings) && file == Some(settings)
      ensures !writeOk ==> r == Err("Could not reset settings") && file == old(file)
    {
      settings := Defaults.(exportDate := Some(now));
      r := Save("Could not reset settings", writeOk);
    }

    /** `importSettings`: the imported object filled from the defaults, with a fresh
        `exportDate`. */
    method ImportSettings(imported: PartialSettings, now: string, writeOk: bool) returns (r: Result<AppSettings>)
      modifies this
      ensures settings == ValidateAndMerge(imported).(exportDate := Some(now))
      ensures writeOk ==> r == Ok(settings) && file == Some(settings)
      ensures !writeOk ==> r == Err("Could not import settings") && file == old(file)
    {
      settings := ValidateAndMerge(imported).(exportDate := Some(now));
      r := Save("Could not import settings", writeOk);
    }

    /** `saveSettings`, with the caller's error message on failure. */
    method Save(failure: string, writeOk: bool) returns (r: Result<AppSettings>)
      modifies this`file
      ensures writeOk ==> r == Ok(settings) && file == Some(settings)
      ensures !writeOk ==> r == Err(failure) && file == old(file)
    {
      if !writeOk {
        return Err(failure);
      }
      file := Some(settings);
      return Ok(settings);
    }
  }
}
