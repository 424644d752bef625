/** The application settings: a fixed dictionary of defaults, overlaid by
    whatever `app_settings.json` holds; saving writes the whole dictionary
    back, and updating one key loads, assigns and saves. */
module Settings {

  /** A JSON value as the settings hold it. */
  datatype Value = Null | Flag(b: bool) | Number(n: int) | Text(s: string) | Composite(json: string)

  const Defaults: map<string, Value> := map[
    "update_interval" := Number(30 * 60),
    "update_interval_name" := Text("30分钟"),
    "focus_mode" := Flag(false),
    "last_update" := Null
  ]

  /** The settings file on disk: missing, present but not a JSON object (or
      not readable), or a saved object. */
  datatype SettingsFile = Absent | Unreadable | Saved(entries: map<string, Value>)

  /** What `load_settings` returns for a file: a copy of the defaults, updated
      with the saved object when there is one. */
  function Loaded(f: SettingsFile): map<string, Value> {
    match f
    case Saved(m) => Defaults + m
    case _ => Defaults
  }

  /** The settings file, which these operations read and write. */
  class SettingsStore {
    var file: SettingsFile

    constructor(existing: SettingsFile)
      ensures file == existing
    {
      file := existing;
    }

    /** `load_settings`: start from a copy of the defaults and apply every
        saved entry to it. */
    method LoadSettings() returns (settings: map<string, Value>)
      ensures settings == Loaded(file)
    {
      settings := Defaults;
      if file.Saved? {
        var saved := file.entries;
        var keys := saved.Keys;
        ghost var done: set<string> := {};
        while keys != {}
          invariant keys + done == saved.Keys && keys !! done
          invariant settings == Defaults + map k | k in done :: saved[k]
          decreases keys
        {
          var k :| k in keys;
          settings := settings[k := saved[k]];
          keys := keys - {k};
          done := done + {k};
        }
        assert (map k | k in done :: saved[k]) == saved;
      }
    }

    /** `save_settings`: writes the whole dictionary when the file can be
        written (canWrite) and reports whether it could. */
    method SaveSettings(settings: map<string, Value>, canWrite: bool) returns (ok: bool)
      modifies this
      ensures ok == canWrite
      ensures file == if canWrite then Saved(settings) else old(file)
    {
      if canWrite {
        file := Saved(settings);
        ok := true;
      } else {
        ok := false;
      }
    }

    /** `update_setting`: load, assign the one key, save. */
    method UpdateSetting(key: string, value: Value, canWrite: bool) returns (ok: bool)
      modifies this
      ensures ok == canWrite
      ensures file == if canWrite then Saved(Loaded(old(file))[key := value]) else old(file)
    {
      var settings := LoadSettings();
      settings := settings[key := value];
      ok := SaveSettings(settings, canWrite);
    }
  }

  // ---------------------------------------------------------------------------
  // What the store promises
  // ---------------------------------------------------------------------------

  /** Without a usable file the settings are exactly the defaults. */
  lemma {:induction false} NoFileDefaults(f: SettingsFile)
    requires !f.Saved?
    ensures Loaded(f) == Defaults
    ensures Loaded(f)["update_interval"] == Number(1800) && Loaded(f)["focus_mode"] == Flag(false)
  {
  }

  /** Saved keys override the defaults, default keys the file lacks keep their
      default, and nothing else appears. */
  lemma {:induction false} SavedOverridesDefaults(m: map<string, Value>)
    ensures Loaded(Saved(m)).Keys == Defaults.Keys + m.Keys
    ensures forall k :: k in m ==> Loaded(Saved(m))[k] == m[k]
    ensures forall k :: k in Defaults && k !in m ==> Loaded(Saved(m))[k] == Defaults[k]
  {
  }

  /** Every key of the defaults is always present. */
  lemma {:induction false} DefaultKeysPresent(f: SettingsFile)
    ensures Defaults.Keys <= Loaded(f).Keys
  {
  }

  /** What was loaded and saved loads back unchanged. */
  lemma {:induction false} LoadSaveLoad(f: SettingsFile)
    ensures Loaded(Saved(Loaded(f))) == Loaded(f)
  {
    var m := Loaded(f);
    assert Defaults.Keys <= m.Keys;
    assert Defaults + m == m;
  }

  /** After a successful update of key to v, loading gives v for key and the
      previously loaded value for every other key. */
  lemma {:induction false} UpdateThenLoad(f: SettingsFile, key: string, v: Value)
    ensures var after := Loaded(Saved(Loaded(f)[key := v]));
            after.Keys == Loaded(f).Keys + {key} &&
            after[key] == v &&
            forall k :: k in Loaded(f) && k != key ==> after[k] == Loaded(f)[k]
  {
    var m := Loaded(f)[key := v];
    assert Defaults.Keys <= m.Keys;
    assert Defaults + m == m;
  }
}
