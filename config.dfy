/** The application settings: a dict of sections, each normally a dict of
    keys, read with a default and written with the section created on
    demand. */
module Settings {
  import opened PyJson

  /** The settings as loaded from the configuration file. */
  type Sections = map<string, Json>

  /** The settings written when there is no configuration file yet. */
  const DefaultConfig: Sections := map[
    "woocommerce" := JObj(map["base_url" := JStr(""), "consumer_key" := JStr(""), "consumer_secret" := JStr("")]),
    "app" := JObj(map["sync_interval" := JInt(60), "per_page" := JInt(100), "first_run" := JBool(true)])]

  /** `if key`: None and the empty string select the whole section. */
  predicate HasKey(key: Option<string>) {
    key.Some? && key.value != ""
  }

  /** get(section, key, default): with a key, the key's value in the section
      ({} when the section is missing), AttributeError when the section is
      not a dict; without one, the section itself. */
  function Lookup(config: Sections, section: string, key: Option<string>, default: Json): Result<Json> {
    if HasKey(key) then
      var s := Get(config, section, JObj(map[]));
      if !s.JObj? then Err(AttributeError) else Ok(Get(s.fields, key.value, default))
    else Ok(Get(config, section, default))
  }

  /** set(section, key, value): a missing section is created empty first;
      assigning into a section that is not a dict raises TypeError. */
  function Assign(config: Sections, section: string, key: string, value: Json): Result<Sections> {
    var s := if section in config then config[section] else JObj(map[]);
    if !s.JObj? then Err(TypeError)
    else Ok(config[section := JObj(s.fields[key := value])])
  }

  /** get_encrypted: the stored text decrypted, or the default when the
      stored value is empty or missing; the decryption is a parameter. */
  function LookupEncrypted(config: Sections, section: string, key: string, default: string,
    decrypt: string -> Result<string>): Result<string>
  {
    var encrypted :- Lookup(config, section, Some(key), JStr(""));
    if !Truthy(encrypted) then Ok(default)
    else if !encrypted.JStr? then Err(AttributeError)
    else decrypt(encrypted.s)
  }

  /** The assignment fails exactly when the section exists and is not a
      dict; otherwise it creates a missing section, sets the key, and leaves
      every other section and every other key of the section as it was. */
  lemma AssignEffect(config: Sections, section: string, key: string, value: Json)
    ensures Assign(config, section, key, value).Err? <==> section in config && !config[section].JObj?
    ensures Assign(config, section, key, value).Ok? ==>
      var c := Assign(config, section, key, value).value;
      && c.Keys == config.Keys + {section}
      && c[section].JObj? && key in c[section].fields && c[section].fields[key] == value
      && (section !in config ==> c[section] == JObj(map[key := value]))
      && (forall s :: s in config && s != section ==> c[s] == config[s])
      && (section in config ==> forall k :: k in config[section].fields && k != key ==>
            k in c[section].fields && c[section].fields[k] == config[section].fields[k])
  {
  }

  /** A value set is what get then returns, for any default. */
  lemma GetAfterSet(config: Sections, section: string, key: string, value: Json, default: Json)
    requires key != "" && Assign(config, section, key, value).Ok?
    ensures Lookup(Assign(config, section, key, value).value, section, Some(key), default) == Ok(value)
  {
  }

  /** Setting one key does not change what get returns for another key or
      another section. */
  lemma SetLeavesOthers(config: Sections, section: string, key: string, value: Json,
    otherSection: string, otherKey: Option<string>, default: Json)
    requires Assign(config, section, key, value).Ok?
    requires otherSection != section || (HasKey(otherKey) && otherKey.value != key)
    ensures Lookup(Assign(config, section, key, value).value, otherSection, otherKey, default) ==
      Lookup(config, otherSection, otherKey, default)
  {
    var c := Assign(config, section, key, value).value;
    if otherSection == section {
      if section in config {
        assert c[section].fields == config[section].fields[key := value];
      } else {
        assert c[section].fields == map[key := value];
      }
    }
  }

  /** get returns the default when the section or the key is missing, and
      the whole section, or the default, when no key is given. */
  lemma LookupDefaults(config: Sections, section: string, key: Option<string>, default: Json)
    ensures HasKey(key) && section !in config ==> Lookup(config, section, key, default) == Ok(default)
    ensures HasKey(key) && section in config && config[section].JObj? && key.value !in config[section].fields ==>
      Lookup(config, section, key, default) == Ok(default)
    ensures !HasKey(key) ==>
      Lookup(config, section, key, default) == Ok(if section in config then config[section] else default)
  {
  }

  /** An empty or missing stored value gives the default and is never
      decrypted: the result is the same whatever the decryption does. */
  lemma EncryptedDefault(config: Sections, section: string, key: string, default: string,
    decrypt: string -> Result<string>, other: string -> Result<string>)
    requires Lookup(config, section, Some(key), JStr("")).Ok?
    requires !Truthy(Lookup(config, section, Some(key), JStr("")).value)
    ensures LookupEncrypted(config, section, key, default, decrypt) == Ok(default)
    ensures LookupEncrypted(config, section, key, default, decrypt) == LookupEncrypted(config, section, key, default, other)
  {
  }

  /** A fresh configuration: the connection settings are empty, the sync
      runs every 60 seconds, 100 orders per page, and this is the first run. */
  lemma DefaultValues(default: Json)
    ensures Lookup(DefaultConfig, "woocommerce", Some("base_url"), default) == Ok(JStr(""))
    ensures Lookup(DefaultConfig, "app", Some("sync_interval"), default) == Ok(JInt(60))
    ensures Lookup(DefaultConfig, "app", Some("per_page"), default) == Ok(JInt(100))
    ensures Lookup(DefaultConfig, "app", Some("first_run"), default) == Ok(JBool(true))
    ensures forall d: string, dec: string -> Result<string> ::
      LookupEncrypted(DefaultConfig, "woocommerce", "consumer_key", d, dec) == Ok(d)
  {
    var w := map["base_url" := JStr(""), "consumer_key" := JStr(""), "consumer_secret" := JStr("")];
    var a := map["sync_interval" := JInt(60), "per_page" := JInt(100), "first_run" := JBool(true)];
    assert DefaultConfig["woocommerce"] == JObj(w) && DefaultConfig["app"] == JObj(a);
    assert w["base_url"] == JStr("") && w["consumer_key"] == JStr("");
    assert a["sync_interval"] == JInt(60) && a["per_page"] == JInt(100) && a["first_run"] == JBool(true);
  }

  class Config {
    /** The sections, as loaded or as created. */
    var config: Sections

    /** Loads the configuration file, or starts from the defaults when there
        is none; `stored` is the file's content. */
    constructor (stored: Option<Sections>)
      ensures config == (if stored.Some? then stored.value else DefaultConfig)
    {
      config := if stored.Some? then stored.value else DefaultConfig;
    }

    function Get(section: string, key: Option<string>, default: Json): Result<Json>
      reads this
    {
      Lookup(config, section, key, default)
    }

    /** set: the new sections are those of the assignment; a failed
        assignment changes nothing. */
    method Set(section: string, key: string, value: Json) returns (r: Result<()>)
      modifies this
      ensures r.Ok? <==> Assign(old(config), section, key, value).Ok?
      ensures r.Ok? ==> config == Assign(old(config), section, key, value).value
      ensures r.Err? ==> config == old(config) && r.error == TypeError
    {
      if section !in config {
        config := config[section := JObj(map[])];
      }
      var s := config[section];
      if !s.JObj? {
        return Err(TypeError);
      }
      config := config[section := JObj(s.fields[key := value])];
      r := Ok(());
    }

    function GetEncrypted(section: string, key: string, default: string, decrypt: string -> Result<string>): Result<string>
      reads this
    {
      LookupEncrypted(config, section, key, default, decrypt)
    }
  }
}
