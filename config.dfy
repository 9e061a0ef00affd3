/** The persistent settings store (src/utils/config.py): a string-keyed
    dictionary held in memory, filled with ten defaults and written to a JSON
    file after every change. The file is modelled by what it holds. */
module ConfigStore {

  /** A JSON value, as json.load produces and json.dump writes. */
  datatype Value =
    | JNull
    | JBool(b: bool)
    | JInt(i: int)
    | JFloat(f: real)
    | JString(s: string)
    | JArray(items: seq<Value>)
    | JObject(fields: map<string, Value>)

  /** The settings file: not there, there but not loadable JSON (any
      exception raised while opening or parsing it), or a JSON object. */
  datatype ConfigFile = Absent | Unreadable | Stored(content: map<string, Value>)

  /** The keys of the defaults dictionary, in its insertion order. */
  const DefaultKeys: seq<string> := [
    "fps", "format", "quality", "sample_rate", "audio_channels",
    "enable_system_audio", "enable_microphone", "output_directory",
    "last_audio_device", "last_region"]

  /** The value the defaults dictionary of set_defaults gives a key. */
  function DefaultValue(k: string): Value
  {
    if k == "fps" then JInt(30)
    else if k == "format" then JString("mp4")
    else if k == "quality" then JString("Alta")
    else if k == "sample_rate" then JInt(44100)
    else if k == "audio_channels" then JInt(2)
    else if k == "enable_system_audio" then JBool(false)
    else if k == "enable_microphone" then JBool(false)
    else if k == "output_directory" then JString(".")
    else JNull  // last_audio_device, last_region
  }

  /** The defaults dictionary of set_defaults. */
  function DefaultsMap(): (d: map<string, Value>)
    ensures d.Keys == set k | k in DefaultKeys
    ensures forall k :: k in d ==> d[k] == DefaultValue(k)
  {
    map k | k in DefaultKeys :: DefaultValue(k)
  }

  /** The defaults whose keys are among the first n keys of ks. */
  ghost function DefaultsUpTo(ks: seq<string>, n: nat): map<string, Value>
    requires n <= |ks|
  {
    map k | k in ks[..n] :: DefaultValue(k)
  }

  /** What set_defaults leaves: every key already present keeps its value, and
      every default key that was missing gets the default. */
  function WithDefaults(m: map<string, Value>): (r: map<string, Value>)
    ensures r.Keys == m.Keys + DefaultsMap().Keys
    ensures forall k :: k in m ==> r[k] == m[k]
    ensures forall k :: k in DefaultsMap() && k !in m ==> r[k] == DefaultsMap()[k]
  {
    DefaultsMap() + m
  }

  /** Filling in the defaults twice is filling them in once. */
  lemma WithDefaultsIdempotent(m: map<string, Value>)
    ensures WithDefaults(WithDefaults(m)) == WithDefaults(m)
  {
  }

  /** One more round of the insertion loop over the keys ks. */
  lemma DefaultsUpToStep(ks: seq<string>, m: map<string, Value>, config: map<string, Value>, i: nat)
    requires i < |ks|
    requires config == DefaultsUpTo(ks, i) + m
    ensures var k := ks[i];
      DefaultsUpTo(ks, i + 1) + m == if k in config then config else config[k := DefaultValue(k)]
  {
    var k := ks[i];
    var p := DefaultsUpTo(ks, i);
    assert ks[..i + 1] == ks[..i] + [k];
    assert DefaultsUpTo(ks, i + 1) == p[k := DefaultValue(k)];
    if k in m {
      assert p[k := DefaultValue(k)] + m == p + m;
    } else if k in p {
      assert p[k := DefaultValue(k)] == p;
    } else {
      assert p[k := DefaultValue(k)] + m == (p + m)[k := DefaultValue(k)];
    }
  }

  class Config {
    const configFile: string
    /** self.config. */
    var config: map<string, Value>
    /** The current contents of configFile. */
    var file: ConfigFile

    /** __init__(config_file): start empty, then load. */
    constructor (configFile: string, file: ConfigFile)
      ensures this.configFile == configFile && this.file == file
      ensures file.Absent? ==> config == DefaultsMap()
      ensures file.Unreadable? ==> config == map[]
      ensures file.Stored? ==> config == file.content
    {
      this.configFile := configFile;
      this.file := file;
      this.config := map[];
      new;
      Load();
    }

    /** load(): a missing file gives the defaults, an unreadable one the empty
        dictionary (with no defaults), a readable one exactly its contents. */
    method Load()
      modifies this
      ensures file == old(file)
      ensures file.Absent? ==> config == DefaultsMap()
      ensures file.Unreadable? ==> config == map[]
      ensures file.Stored? ==> config == file.content
    {
      match file
      case Absent =>
        config := map[];
        SetDefaults();
        assert config == DefaultsMap() + map[];
      case Unreadable =>
        config := map[];
      case Stored(content) =>
        config := content;
    }

    /** save(): the file now holds the dictionary. */
    method Save()
      modifies this
      ensures file == Stored(config) && config == old(config)
    {
      file := Stored(config);
    }

    /** set_defaults(): insert each default key that is absent. */
    method SetDefaults()
      modifies this
      ensures config == WithDefaults(old(config)) && file == old(file)
    {
      ghost var m := config;
      assert DefaultKeys[..0] == [];
      assert config == DefaultsUpTo(DefaultKeys, 0) + m;
      var i := 0;
      while i < |DefaultKeys|
        invariant 0 <= i <= |DefaultKeys|
        invariant config == DefaultsUpTo(DefaultKeys, i) + m && file == old(file)
      {
        var key := DefaultKeys[i];
        DefaultsUpToStep(DefaultKeys, m, config, i);
        if key !in config {
          config := config[key := DefaultValue(key)];
        }
        i := i + 1;
      }
      assert DefaultKeys[..|DefaultKeys|] == DefaultKeys;
      assert DefaultsUpTo(DefaultKeys, |DefaultKeys|) == DefaultsMap();
    }

    /** get(key, default): the stored value, or the default when the key is
        absent. */
    function Get(key: string, default: Value := JNull): (v: Value)
      reads this
      ensures key in config ==> v == config[key]
      ensures key !in config ==> v == default
    {
      if key in config then config[key] else default
    }

    /** set(key, value): bind one key and save; every other key keeps its
        value. */
    method Set(key: string, value: Value)
      modifies this
      ensures config == old(config)[key := value]
      ensures Get(key) == value
      ensures forall k :: k != key ==> Get(k) == old(Get(k)) && (k in config <==> k in old(config))
      ensures file == Stored(config)
    {
      config := config[key := value];
      Save();
    }

    /** update(updates): dict.update, where the new values win, then save. */
    method Update(updates: map<string, Value>)
      modifies this
      ensures config == old(config) + updates
      ensures forall k :: k in updates ==> Get(k) == updates[k]
      ensures forall k :: k !in updates ==> Get(k) == old(Get(k)) && (k in config <==> k in old(config))
      ensures file == Stored(config)
    {
      config := config + updates;
      Save();
    }

    /** reset(): start over from the defaults alone and save them. */
    method Reset()
      modifies this
      ensures config == DefaultsMap()
      ensures file == Stored(DefaultsMap())
    {
      config := map[];
      SetDefaults();
      assert config == DefaultsMap() + map[];
      Save();
    }
  }

  /** Saving and then loading gives back the dictionary that was saved. The
      file is modelled by the dictionary it holds, so this holds by the
      construction of that model; it illustrates the save/load pairing, not
      the JSON text round trip, which is not modelled. */
  method SaveThenLoad(c: Config)
    modifies c
    ensures c.config == old(c.config) && c.file == Stored(c.config)
  {
    c.Save();
    c.Load();
  }
}
