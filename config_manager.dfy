/** The configuration manager of the DomainTools client library: where a
    configuration comes from (a YAML file, the JSON file in the configuration
    directory, DOMAINTOOLS_* environment variables, defaults), how it is
    validated, and how it is updated, read and cleared.

    The file system is a map from path to what reading that file gives; the
    environment is a map from variable to value, passed to each operation
    that reads it. */
module Config {
  import opened Wrappers
  import opened Text
  import opened Json

  /** A validated DomainToolsConfig. */
  datatype Settings = Settings(
    apiKey: string,
    apiSecret: string,
    apiUrl: Option<string>,
    timeout: int,
    maxRetries: int,
    outputFormat: string)

  /** Why load() raised: `Invalid` is a ValueError (the data did not
      validate, or a file was not valid UTF-8), which is_configured catches;
      `Unhandled` names any other exception, which escapes. */
  datatype Failure = Invalid | Unhandled(exception: string)

  /** The keyword arguments handed to DomainToolsConfig(**data). */
  type ConfigData = map<string, Json>

  const YamlConfigFiles: seq<string> :=
    ["config.yaml", "config.yml", "domaintools.yaml", "domaintools.yml"]

  const DefaultConfigFile: string := "config.json"

  /** Environment variable and the configuration key it overrides, in the
      order load() applies them. */
  const EnvMappings: seq<(string, string)> := [
    ("DOMAINTOOLS_API_KEY", "api_key"),
    ("DOMAINTOOLS_API_SECRET", "api_secret"),
    ("DOMAINTOOLS_API_URL", "api_url"),
    ("DOMAINTOOLS_TIMEOUT", "timeout"),
    ("DOMAINTOOLS_MAX_RETRIES", "max_retries"),
    ("DOMAINTOOLS_OUTPUT_FORMAT", "output_format")
  ]

  /** The fields of DomainToolsConfig. */
  const FieldNames: set<string> :=
    {"api_key", "api_secret", "api_url", "timeout", "max_retries", "output_format"}

  predicate IsNumericKey(key: string) {
    key == "timeout" || key == "max_retries"
  }

  function Lookup(d: ConfigData, k: string): Option<Json> {
    if k in d then Some(d[k]) else None
  }

  // ---------------------------------------------------------------------
  // Validation

  /** The value an int field accepts: an int, a bool, a float without a
      fractional part, or a string holding an integer. */
  function AsInt(v: Json): (r: Option<int>)
    ensures v.JInt? ==> r == Some(v.i)
    ensures v.JNull? || v.JList? || v.JObject? ==> r.None?
  {
    match v
    case JInt(i) => Some(i)
    case JBool(b) => Some(if b then 1 else 0)
    case JFloat(f) => if f.value == f.value.Floor as real then Some(f.value.Floor) else None
    case JStr(s) => ParseInt(s)
    case _ => None
  }

  /** A required str field. */
  function RequiredStr(d: ConfigData, k: string): Option<string> {
    if k in d && d[k].JStr? then Some(d[k].s) else None
  }

  /** An Optional[str] field defaulting to None. */
  function OptionalStr(d: ConfigData, k: string): Option<Option<string>> {
    if k !in d || d[k].JNull? then Some(None)
    else if d[k].JStr? then Some(Some(d[k].s))
    else None
  }

  /** An int field with a default. */
  function IntOr(d: ConfigData, k: string, default: int): Option<int> {
    if k in d then AsInt(d[k]) else Some(default)
  }

  /** A str field with a default. */
  function StrOr(d: ConfigData, k: string, default: string): Option<string> {
    if k !in d then Some(default)
    else if d[k].JStr? then Some(d[k].s)
    else None
  }

  /** DomainToolsConfig(**d): every field must validate; keys that are not
      fields are ignored. */
  function Validate(d: ConfigData): (r: Result<Settings, Failure>)
    ensures r.Err? ==> r == Err(Invalid)
    ensures "api_key" !in d || "api_secret" !in d ==> r.Err?
    ensures r.Ok? ==> d["api_key"] == JStr(r.value.apiKey) && d["api_secret"] == JStr(r.value.apiSecret)
    ensures r.Ok? && "api_url" in d && d["api_url"].JStr? ==> r.value.apiUrl == Some(d["api_url"].s)
    ensures r.Ok? && Lookup(d, "api_url") in {None, Some(JNull)} ==> r.value.apiUrl.None?
    ensures r.Ok? && "timeout" in d && d["timeout"].JInt? ==> r.value.timeout == d["timeout"].i
    ensures r.Ok? && "max_retries" in d && d["max_retries"].JInt? ==> r.value.maxRetries == d["max_retries"].i
    ensures r.Ok? && "output_format" in d ==> d["output_format"] == JStr(r.value.outputFormat)
    ensures r.Ok? && "timeout" !in d ==> r.value.timeout == 30
    ensures r.Ok? && "max_retries" !in d ==> r.value.maxRetries == 3
    ensures r.Ok? && "output_format" !in d ==> r.value.outputFormat == "json"
  {
    var key := RequiredStr(d, "api_key");
    var secret := RequiredStr(d, "api_secret");
    var url := OptionalStr(d, "api_url");
    var timeout := IntOr(d, "timeout", 30);
    var retries := IntOr(d, "max_retries", 3);
    var format := StrOr(d, "output_format", "json");
    if key.Some? && secret.Some? && url.Some? && timeout.Some? && retries.Some? && format.Some? then
      Ok(Settings(key.value, secret.value, url.value, timeout.value, retries.value, format.value))
    else
      Err(Invalid)
  }

  /** model_dump(), with the secret's value in place of the SecretStr. */
  function Dump(s: Settings): (d: ConfigData)
    ensures d.Keys == FieldNames
    ensures Validate(d) == Ok(s)
  {
    map[
      "api_key" := JStr(s.apiKey),
      "api_secret" := JStr(s.apiSecret),
      "api_url" := (if s.apiUrl.Some? then JStr(s.apiUrl.value) else JNull),
      "timeout" := JInt(s.timeout),
      "max_retries" := JInt(s.maxRetries),
      "output_format" := JStr(s.outputFormat)]
  }

  /** A value a field keeps unchanged through validation: the form Dump
      gives it. */
  predicate Canonical(k: string, v: Json) {
    match k
    case "api_key" => v.JStr?
    case "api_secret" => v.JStr?
    case "api_url" => v.JStr? || v.JNull?
    case "timeout" => v.JInt?
    case "max_retries" => v.JInt?
    case "output_format" => v.JStr?
    case _ => true
  }

  /** update(): the current values, overwritten by the keyword arguments,
      validated again. */
  function Updated(s: Settings, kwargs: ConfigData): Result<Settings, Failure> {
    Validate(Dump(s) + kwargs)
  }

  /** Updating with well-formed values for some fields sets exactly those
      fields and keeps every other field; unknown keys change nothing. */
  lemma UpdateSetsExactly(s: Settings, kwargs: ConfigData)
    requires forall k :: k in kwargs ==> Canonical(k, kwargs[k])
    ensures Updated(s, kwargs).Ok?
    ensures forall f :: f in FieldNames ==>
      Dump(Updated(s, kwargs).value)[f] == (if f in kwargs then kwargs[f] else Dump(s)[f])
  {
    var d := Dump(s) + kwargs;
    forall f | f in FieldNames
      ensures f in d && Canonical(f, d[f])
    {
      if f !in kwargs {
        assert d[f] == Dump(s)[f];
      }
    }
    ValidateCanonical(d);
  }

  /** Data holding every field in the form Dump gives it validates, and
      dumping the result gives the fields back. */
  lemma ValidateCanonical(d: ConfigData)
    requires forall f :: f in FieldNames ==> f in d && Canonical(f, d[f])
    ensures Validate(d).Ok?
    ensures forall f :: f in FieldNames ==> Dump(Validate(d).value)[f] == d[f]
  {
    assert "api_key" in FieldNames && "api_secret" in FieldNames && "api_url" in FieldNames;
    assert "timeout" in FieldNames && "max_retries" in FieldNames && "output_format" in FieldNames;
    var t := Validate(d).value;
    var e := Dump(t);
    assert e["api_key"] == d["api_key"] && e["api_secret"] == d["api_secret"];
    assert e["api_url"] == d["api_url"];
    assert e["timeout"] == d["timeout"] && e["max_retries"] == d["max_retries"];
    assert e["output_format"] == d["output_format"];
  }

  // ---------------------------------------------------------------------
  // Reading the files

  /** Turns the name of a Python exception into an escaping failure. */
  function Raised<T>(r: Result<T, string>): (e: Result<T, Failure>)
    ensures r.Ok? <==> e.Ok?
    ensures r.Ok? ==> e.value == r.value
    ensures r.Err? ==> e == Err(Unhandled(r.error))
  {
    match r
    case Ok(v) => Ok(v)
    case Err(name) => Err(Unhandled(name))
  }

  /** The `api` section: key, secret and url, None where absent. */
  function ApiSection(y: Json): (r: Result<ConfigData, Failure>)
    ensures y.JObject? && Has(y.entries, "api") ==>
      (r.Ok? <==> Get(y.entries, "api").JObject?) && (r.Err? ==> r.error == Unhandled("AttributeError"))
    ensures r.Ok? ==>
      y.JObject? && Has(y.entries, "api") &&
      var a := Get(y.entries, "api").entries;
      r.value.Keys == {"api_key", "api_secret", "api_url"} &&
      r.value["api_key"] == Get(a, "key") && r.value["api_secret"] == Get(a, "secret") &&
      r.value["api_url"] == Get(a, "url")
  {
    var api :- Raised(Subscript(y, "api"));
    match api
    case JObject(a) =>
      Ok(map["api_key" := GetOr(a, "key", JNull), "api_secret" := GetOr(a, "secret", JNull),
             "api_url" := GetOr(a, "url", JNull)])
    case _ => Err(Unhandled("AttributeError"))
  }

  /** The `settings` section, with its own defaults. */
  function SettingsSection(y: Json): (r: Result<ConfigData, Failure>)
    ensures y.JObject? && Has(y.entries, "settings") ==>
      (r.Ok? <==> Get(y.entries, "settings").JObject?) && (r.Err? ==> r.error == Unhandled("AttributeError"))
    ensures r.Ok? ==>
      y.JObject? && Has(y.entries, "settings") &&
      var t := Get(y.entries, "settings").entries;
      r.value.Keys == {"timeout", "max_retries", "output_format"} &&
      r.value["timeout"] == GetOr(t, "timeout", JInt(30)) &&
      r.value["max_retries"] == GetOr(t, "max_retries", JInt(3)) &&
      r.value["output_format"] == GetOr(t, "output_format", JStr("table"))
  {
    var settings :- Raised(Subscript(y, "settings"));
    match settings
    case JObject(t) =>
      Ok(map["timeout" := GetOr(t, "timeout", JInt(30)), "max_retries" := GetOr(t, "max_retries", JInt(3)),
             "output_format" := GetOr(t, "output_format", JStr("table"))])
    case _ => Err(Unhandled("AttributeError"))
  }

  /** The data a parsed YAML document contributes. */
  function YamlSections(y: Json): (r: Result<ConfigData, Failure>)
    ensures y.JObject? ==>
      (r.Ok? <==> (Has(y.entries, "api") ==> Get(y.entries, "api").JObject?) &&
                  (Has(y.entries, "settings") ==> Get(y.entries, "settings").JObject?)) &&
      (r.Err? ==> r.error == Unhandled("AttributeError"))
    ensures !y.JObject? && r.Err? ==> r.error == Unhandled("TypeError")
  {
    match y
    case JObject(e) =>
      var api :- if Has(e, "api") then ApiSection(y) else Ok(map[]);
      var settings :- if Has(e, "settings") then SettingsSection(y) else Ok(map[]);
      Ok(api + settings)
    // `in` on a list or a string answers, and subscripting it with "api"
    // or "settings" then raises TypeError; other values have no `in`.
    case JList(items) =>
      if JStr("api") in items || JStr("settings") in items then Err(Unhandled("TypeError")) else Ok(map[])
    case JStr(text) =>
      if Contains(text, "api") || Contains(text, "settings") then Err(Unhandled("TypeError")) else Ok(map[])
    case _ => Err(Unhandled("TypeError"))
  }

  /** No api field is also a setting. */
  lemma SectionKeysDiffer()
    ensures {"api_key", "api_secret", "api_url"} !! {"timeout", "max_retries", "output_format"}
  {
    assert "timeout"[0] != "api_key"[0] && "timeout"[0] != "api_url"[0];
  }

  /** A mapping's data is its api fields joined with its settings. */
  lemma YamlSectionsUnion(y: Json)
    requires y.JObject? && YamlSections(y).Ok?
    ensures var e := y.entries;
      (Has(e, "api") ==> ApiSection(y).Ok?) && (Has(e, "settings") ==> SettingsSection(y).Ok?) &&
      YamlSections(y).value ==
        (if Has(e, "api") then ApiSection(y).value else map[]) +
        (if Has(e, "settings") then SettingsSection(y).value else map[])
  {
  }

  /** What a parsed mapping contributes: the three api fields exactly when
      it has an "api" section, None where the section lacks them; the
      three settings exactly when it has a "settings" section, with the
      section's defaults 30, 3 and "table". */
  lemma YamlSectionsOfMapping(y: Json)
    requires y.JObject? && YamlSections(y).Ok?
    ensures var e, d := y.entries, YamlSections(y).value;
      d.Keys ==
        (if Has(e, "api") then {"api_key", "api_secret", "api_url"} else {}) +
        (if Has(e, "settings") then {"timeout", "max_retries", "output_format"} else {}) &&
      (Has(e, "api") ==>
        var a := Get(e, "api").entries;
        d["api_key"] == Get(a, "key") && d["api_secret"] == Get(a, "secret") && d["api_url"] == Get(a, "url")) &&
      (Has(e, "settings") ==>
        var t := Get(e, "settings").entries;
        d["timeout"] == GetOr(t, "timeout", JInt(30)) &&
        d["max_retries"] == GetOr(t, "max_retries", JInt(3)) &&
        d["output_format"] == GetOr(t, "output_format", JStr("table")))
  {
    var e := y.entries;
    YamlSectionsUnion(y);
    var api := if Has(e, "api") then ApiSection(y).value else map[];
    var settings := if Has(e, "settings") then SettingsSection(y).value else map[];
    SectionKeysDiffer();
  }

  /** Reading the selected YAML file: an unreadable or unparsable file is
      reported and contributes nothing; an empty document contributes
      nothing. */
  function YamlData(doc: Document): (r: Result<ConfigData, Failure>)
    ensures doc.Unreadable? || doc.Malformed? ==> r == Ok(map[])
    ensures doc.Undecodable? ==> r == Err(Invalid)
    ensures doc.Parsed? && !Truthy(doc.doc) ==> r == Ok(map[])
    ensures doc.Parsed? && Truthy(doc.doc) ==> r == YamlSections(doc.doc)
    ensures doc.Parsed? && doc.doc.JObject? && Truthy(doc.doc) && r.Ok? ==>
      var e := doc.doc.entries;
      ("api_key" in r.value <==> Has(e, "api")) && ("timeout" in r.value <==> Has(e, "settings")) &&
      (Has(e, "api") ==> r.value["api_key"] == Get(Get(e, "api").entries, "key")) &&
      (Has(e, "settings") ==> r.value["timeout"] == GetOr(Get(e, "settings").entries, "timeout", JInt(30)))
  {
    match doc
    case Unreadable => Ok(map[])
    case Malformed => Ok(map[])
    case Undecodable => Err(Invalid)
    case Parsed(y) =>
      if !Truthy(y) then Ok(map[])
      else if y.JObject? && YamlSections(y).Ok? then
        YamlSectionsOfMapping(y);
        YamlSections(y)
      else YamlSections(y)
  }

  /** Reading config.json: malformed JSON contributes nothing; a document
      that is not an object is rejected when load() stores into it or
      unpacks it (TypeError); a read error escapes. */
  function JsonData(doc: Document): (r: Result<ConfigData, Failure>)
    ensures r.Ok? <==> doc.Malformed? || (doc.Parsed? && doc.doc.JObject?)
  {
    match doc
    case Unreadable => Err(Unhandled("OSError"))
    case Undecodable => Err(Invalid)
    case Malformed => Ok(map[])
    case Parsed(JObject(entries)) => Ok(ToMap(entries))
    case Parsed(_) => Err(Unhandled("TypeError"))
  }

  /** The data the files contribute: the YAML file when one is selected and
      exists, else config.json when it exists, else nothing. */
  function FileData(yaml: Option<Document>, json: Option<Document>): Result<ConfigData, Failure> {
    if yaml.Some? then YamlData(yaml.value)
    else if json.Some? then JsonData(json.value)
    else Ok(map[])
  }

  // ---------------------------------------------------------------------
  // The environment overlay

  /** os.getenv(var), with "" for an unset variable (both are falsy). */
  function EnvValue(env: map<string, string>, name: string): string {
    if name in env then env[name] else ""
  }

  /** One mapping of the overlay: a non-empty value replaces the key; for
      the numeric keys only a value int() accepts does. */
  function EnvStep(d: ConfigData, env: map<string, string>, m: (string, string)): ConfigData {
    var value := EnvValue(env, m.0);
    if value == "" then d
    else if IsNumericKey(m.1) then
      (match ParseInt(value)
       case Some(n) => d[m.1 := JInt(n)]
       case None => d)
    else d[m.1 := JStr(value)]
  }

  /** The overlay of the mappings `ms`, applied in order. */
  function ApplyEnv(d: ConfigData, env: map<string, string>, ms: seq<(string, string)>): ConfigData
    decreases |ms|
  {
    if ms == [] then d else EnvStep(ApplyEnv(d, env, ms[..|ms| - 1]), env, ms[|ms| - 1])
  }

  /** What load() returns or raises for the given selected YAML file, JSON
      file and environment. */
  function Resolve(yaml: Option<Document>, json: Option<Document>, env: map<string, string>): Result<Settings, Failure> {
    var d :- FileData(yaml, json);
    Validate(ApplyEnv(d, env, EnvMappings))
  }

  lemma EnvKeysDistinct()
    ensures forall a, b :: 0 <= a < b < |EnvMappings| ==> EnvMappings[a].1 != EnvMappings[b].1
  {
  }

  /** A mapping for another key leaves a key as it was. */
  lemma {:induction false} ApplyEnvOther(d: ConfigData, env: map<string, string>, ms: seq<(string, string)>, k: string)
    requires forall i :: 0 <= i < |ms| ==> ms[i].1 != k
    ensures Lookup(ApplyEnv(d, env, ms), k) == Lookup(d, k)
    decreases |ms|
  {
    if ms != [] {
      ApplyEnvOther(d, env, ms[..|ms| - 1], k);
    }
  }

  /** With none of the variables set the overlay changes nothing. */
  lemma {:induction false} ApplyEnvUnset(d: ConfigData, env: map<string, string>, ms: seq<(string, string)>)
    requires forall i :: 0 <= i < |ms| ==> EnvValue(env, ms[i].0) == ""
    ensures ApplyEnv(d, env, ms) == d
    decreases |ms|
  {
    if ms != [] {
      ApplyEnvUnset(d, env, ms[..|ms| - 1]);
    }
  }

  /** Where each key is mapped once, the overlay's value for a key is its
      own mapping's step applied to the file data. */
  lemma {:induction false} ApplyEnvAt(d: ConfigData, env: map<string, string>, ms: seq<(string, string)>, j: int)
    requires 0 <= j < |ms|
    requires forall a, b :: 0 <= a < b < |ms| ==> ms[a].1 != ms[b].1
    ensures Lookup(ApplyEnv(d, env, ms), ms[j].1) == Lookup(EnvStep(d, env, ms[j]), ms[j].1)
    decreases |ms|
  {
    var init := ms[..|ms| - 1];
    if j == |ms| - 1 {
      ApplyEnvOther(d, env, init, ms[j].1);
    } else {
      ApplyEnvAt(d, env, init, j);
    }
  }

  /** Environment variables take priority over the files: a set variable
      decides its field whenever the configuration validates, and for
      timeout and max_retries a value that int() accepts does. */
  lemma EnvOverridesFiles(yaml: Option<Document>, json: Option<Document>, env: map<string, string>)
    ensures var r := Resolve(yaml, json, env);
      r.Ok? ==>
        (EnvValue(env, "DOMAINTOOLS_API_KEY") != "" ==> r.value.apiKey == EnvValue(env, "DOMAINTOOLS_API_KEY")) &&
        (EnvValue(env, "DOMAINTOOLS_API_SECRET") != "" ==> r.value.apiSecret == EnvValue(env, "DOMAINTOOLS_API_SECRET")) &&
        (EnvValue(env, "DOMAINTOOLS_API_URL") != "" ==> r.value.apiUrl == Some(EnvValue(env, "DOMAINTOOLS_API_URL"))) &&
        (EnvValue(env, "DOMAINTOOLS_OUTPUT_FORMAT") != "" ==> r.value.outputFormat == EnvValue(env, "DOMAINTOOLS_OUTPUT_FORMAT")) &&
        (forall n :: ParseInt(EnvValue(env, "DOMAINTOOLS_TIMEOUT")) == Some(n) ==> r.value.timeout == n) &&
        (forall n :: ParseInt(EnvValue(env, "DOMAINTOOLS_MAX_RETRIES")) == Some(n) ==> r.value.maxRetries == n)
  {
    EnvSetsKey(yaml, json, env);
    EnvSetsSecret(yaml, json, env);
    EnvSetsUrl(yaml, json, env);
    EnvSetsFormat(yaml, json, env);
    EnvSetsTimeout(yaml, json, env);
    EnvSetsRetries(yaml, json, env);
  }

  lemma EnvSetsKey(yaml: Option<Document>, json: Option<Document>, env: map<string, string>)
    ensures var r := Resolve(yaml, json, env);
      r.Ok? && EnvValue(env, "DOMAINTOOLS_API_KEY") != "" ==> r.value.apiKey == EnvValue(env, "DOMAINTOOLS_API_KEY")
  {
    var base := FileData(yaml, json);
    if base.Ok? {
      EnvApplied(base.value, env, 0);
    }
  }

  lemma EnvSetsSecret(yaml: Option<Document>, json: Option<Document>, env: map<string, string>)
    ensures var r := Resolve(yaml, json, env);
      r.Ok? && EnvValue(env, "DOMAINTOOLS_API_SECRET") != "" ==> r.value.apiSecret == EnvValue(env, "DOMAINTOOLS_API_SECRET")
  {
    var base := FileData(yaml, json);
    if base.Ok? {
      EnvApplied(base.value, env, 1);
    }
  }

  lemma EnvSetsUrl(yaml: Option<Document>, json: Option<Document>, env: map<string, string>)
    ensures var r := Resolve(yaml, json, env);
      r.Ok? && EnvValue(env, "DOMAINTOOLS_API_URL") != "" ==> r.value.apiUrl == Some(EnvValue(env, "DOMAINTOOLS_API_URL"))
  {
    var base := FileData(yaml, json);
    if base.Ok? {
      EnvApplied(base.value, env, 2);
    }
  }

  lemma EnvSetsFormat(yaml: Option<Document>, json: Option<Document>, env: map<string, string>)
    ensures var r := Resolve(yaml, json, env);
      r.Ok? && EnvValue(env, "DOMAINTOOLS_OUTPUT_FORMAT") != "" ==> r.value.outputFormat == EnvValue(env, "DOMAINTOOLS_OUTPUT_FORMAT")
  {
    var base := FileData(yaml, json);
    if base.Ok? {
      EnvApplied(base.value, env, 5);
    }
  }

  lemma EnvSetsTimeout(yaml: Option<Document>, json: Option<Document>, env: map<string, string>)
    ensures var r := Resolve(yaml, json, env);
      r.Ok? ==> forall n :: ParseInt(EnvValue(env, "DOMAINTOOLS_TIMEOUT")) == Some(n) ==> r.value.timeout == n
  {
    var base := FileData(yaml, json);
    if base.Ok? {
      EnvApplied(base.value, env, 3);
    }
  }

  lemma EnvSetsRetries(yaml: Option<Document>, json: Option<Document>, env: map<string, string>)
    ensures var r := Resolve(yaml, json, env);
      r.Ok? ==> forall n :: ParseInt(EnvValue(env, "DOMAINTOOLS_MAX_RETRIES")) == Some(n) ==> r.value.maxRetries == n
  {
    var base := FileData(yaml, json);
    if base.Ok? {
      EnvApplied(base.value, env, 4);
    }
  }

  /** The overlay's value for the key of mapping j is that mapping's step
      on the file data. */
  lemma EnvApplied(d: ConfigData, env: map<string, string>, j: int)
    requires 0 <= j < |EnvMappings|
    ensures Lookup(ApplyEnv(d, env, EnvMappings), EnvMappings[j].1) ==
      Lookup(EnvStep(d, env, EnvMappings[j]), EnvMappings[j].1)
  {
    EnvKeysDistinct();
    ApplyEnvAt(d, env, EnvMappings, j);
  }

  /** An unset or empty variable, or a numeric one that int() rejects, keeps
      the value the files gave. */
  lemma EnvKeepsFileValue(d: ConfigData, env: map<string, string>, j: int)
    requires 0 <= j < |EnvMappings|
    requires EnvValue(env, EnvMappings[j].0) == "" ||
      (IsNumericKey(EnvMappings[j].1) && ParseInt(EnvValue(env, EnvMappings[j].0)).None?)
    ensures Lookup(ApplyEnv(d, env, EnvMappings), EnvMappings[j].1) == Lookup(d, EnvMappings[j].1)
  {
    EnvApplied(d, env, j);
  }

  /** With no files and only the credentials in the environment, the
      model's defaults apply. */
  lemma DefaultsWithoutFiles(key: string, secret: string)
    requires key != "" && secret != ""
    ensures var env := map["DOMAINTOOLS_API_KEY" := key, "DOMAINTOOLS_API_SECRET" := secret];
      Resolve(None, None, env) == Ok(Settings(key, secret, None, 30, 3, "json"))
  {
    var env := map["DOMAINTOOLS_API_KEY" := key, "DOMAINTOOLS_API_SECRET" := secret];
    EnvApplied(map[], env, 0);
    EnvApplied(map[], env, 1);
    EnvKeepsFileValue(map[], env, 2);
    EnvKeepsFileValue(map[], env, 3);
    EnvKeepsFileValue(map[], env, 4);
    EnvKeepsFileValue(map[], env, 5);
    ValidateCredentialsOnly(ApplyEnv(map[], env, EnvMappings), key, secret);
  }

  /** Data holding only a key and a secret validates with every other
      field at its default. */
  lemma ValidateCredentialsOnly(d: ConfigData, key: string, secret: string)
    requires Lookup(d, "api_key") == Some(JStr(key)) && Lookup(d, "api_secret") == Some(JStr(secret))
    requires Lookup(d, "api_url") == None && Lookup(d, "timeout") == None
    requires Lookup(d, "max_retries") == None && Lookup(d, "output_format") == None
    ensures Validate(d) == Ok(Settings(key, secret, None, 30, 3, "json"))
  {
  }

  /** A YAML file with an api section holding only key and secret and an
      empty settings section. */
  function YamlExample(key: string, secret: string): Json {
    JObject([
      ("api", JObject([("key", JStr(key)), ("secret", JStr(secret))])),
      ("settings", JObject([]))])
  }

  lemma YamlExampleData(key: string, secret: string)
    ensures YamlData(Parsed(YamlExample(key, secret))) == Ok(map[
      "api_key" := JStr(key), "api_secret" := JStr(secret), "api_url" := JNull,
      "timeout" := JInt(30), "max_retries" := JInt(3), "output_format" := JStr("table")])
  {
    var doc := YamlExample(key, secret);
    var m1 := map["api_key" := JStr(key), "api_secret" := JStr(secret), "api_url" := JNull];
    var m2 := map["timeout" := JInt(30), "max_retries" := JInt(3), "output_format" := JStr("table")];
    YamlExampleApi(key, secret);
    YamlExampleSettings(key, secret);
    assert Keys(doc.entries)[0] == "api" && Keys(doc.entries)[1] == "settings";
    assert PyIn("api", doc) == Ok(true) && PyIn("settings", doc) == Ok(true);
    assert YamlSections(doc) == Ok(m1 + m2);
    MergeThree(m1, "timeout", "max_retries", "output_format", JInt(30), JInt(3), JStr("table"));
  }

  /** Merging a three-entry mapping is updating with its entries in turn. */
  lemma MergeThree<K, V>(m: map<K, V>, a: K, b: K, c: K, x: V, y: V, z: V)
    ensures m + map[a := x, b := y, c := z] == m[a := x][b := y][c := z]
  {
  }

  /** The example's api section gives key and secret, and None for the url. */
  lemma YamlExampleApi(key: string, secret: string)
    ensures ApiSection(YamlExample(key, secret)) ==
      Ok(map["api_key" := JStr(key), "api_secret" := JStr(secret), "api_url" := JNull])
  {
    var doc := YamlExample(key, secret);
    var api := JObject([("key", JStr(key)), ("secret", JStr(secret))]);
    assert doc.entries[0] == ("api", api);
    assert Subscript(doc, "api") == Ok(api);
    assert DictGet(api, "key", JNull) == Ok(JStr(key));
    assert api.entries[1..] == [("secret", JStr(secret))];
    assert Find(api.entries[1..], "secret") == Some(JStr(secret));
    assert DictGet(api, "secret", JNull) == Ok(JStr(secret));
    assert Keys(api.entries) == ["key", "secret"];
    assert DictGet(api, "url", JNull) == Ok(JNull);
  }

  /** The example's empty settings section gives the YAML defaults. */
  lemma YamlExampleSettings(key: string, secret: string)
    ensures SettingsSection(YamlExample(key, secret)) ==
      Ok(map["timeout" := JInt(30), "max_retries" := JInt(3), "output_format" := JStr("table")])
  {
    var doc := YamlExample(key, secret);
    assert Keys(doc.entries) == ["api", "settings"];
    assert Get(doc.entries, "settings") == JObject([]);
    assert Subscript(doc, "settings") == Ok(JObject([]));
  }

  /** The YAML settings section has defaults of its own: an empty section
      gives output format "table" where no section gives "json"; the YAML
      file hides config.json entirely. */
  lemma YamlSettingsDefaults(key: string, secret: string, json: Option<Document>)
    ensures Resolve(Some(Parsed(YamlExample(key, secret))), json, map[]) ==
      Ok(Settings(key, secret, None, 30, 3, "table"))
  {
    YamlExampleData(key, secret);
    var y := map["api_key" := JStr(key), "api_secret" := JStr(secret), "api_url" := JNull,
      "timeout" := JInt(30), "max_retries" := JInt(3), "output_format" := JStr("table")];
    ResolveWithoutEnv(Some(Parsed(YamlExample(key, secret))), json, y);
    ValidateExample(key, secret);
  }

  lemma ResolveWithoutEnv(yaml: Option<Document>, json: Option<Document>, d: ConfigData)
    requires FileData(yaml, json) == Ok(d)
    ensures Resolve(yaml, json, map[]) == Validate(d)
  {
    ApplyEnvUnset(d, map[], EnvMappings);
  }

  lemma ValidateExample(key: string, secret: string)
    ensures Validate(map["api_key" := JStr(key), "api_secret" := JStr(secret), "api_url" := JNull,
      "timeout" := JInt(30), "max_retries" := JInt(3), "output_format" := JStr("table")]) ==
      Ok(Settings(key, secret, None, 30, 3, "table"))
  {
  }

  /** An explicit non-empty config_file that exists overrides the first
      existing YAML name of the working directory. */
  function SelectYaml(explicit: Option<string>, files: map<string, Document>): Option<string> {
    if explicit.Some? && explicit.value != "" && explicit.value in files then explicit
    else FirstExisting(YamlConfigFiles, files)
  }

  /** The first of `names` that exists. */
  function FirstExisting(names: seq<string>, files: map<string, Document>): (r: Option<string>)
    ensures r.Some? ==> r.value in names && r.value in files
    ensures r.None? <==> forall i :: 0 <= i < |names| ==> names[i] !in files
    ensures r.Some? && names != [] && names[0] in files ==> r == Some(names[0])
  {
    if names == [] then None
    else if names[0] in files then Some(names[0])
    else
      var r := FirstExisting(names[1..], files);
      assert forall i :: 0 < i < |names| ==> names[i] == names[1..][i - 1];
      r
  }

  /** A found value of is_configured(): the credentials are present and
      non-empty. */
  function CredentialsSet(s: Settings): bool {
    s.apiKey != "" && s.apiSecret != ""
  }

  /** is_configured() as written: a ValueError from load() gives False,
      any other exception escapes. */
  function IsConfiguredAsWritten(loaded: Result<Settings, Failure>): (r: Result<bool, Failure>)
    ensures r.Err? <==> loaded.Err? && loaded.error.Unhandled?
    ensures r == Ok(true) <==> loaded.Ok? && CredentialsSet(loaded.value)
  {
    match loaded
    case Ok(s) => Ok(CredentialsSet(s))
    case Err(Invalid) => Ok(false)
    case Err(Unhandled(e)) => Err(Unhandled(e))
  }

  /** A config.json holding the empty list `[]` makes is_configured() raise
      TypeError instead of answering False, with or without environment
      variables. */
  lemma IsConfiguredRaisesOnListFile(env: map<string, string>)
    ensures IsConfiguredAsWritten(Resolve(None, Some(Parsed(JList([]))), env)) == Err(Unhandled("TypeError"))
  {
  }

  /** The environment loop of load(), over the mappings `ms`: each in
      order, a non-empty value replacing its key, a numeric key only by a
      value int() accepts. */
  method Overlay(d: ConfigData, env: map<string, string>, ms: seq<(string, string)>) returns (data: ConfigData)
    ensures data == ApplyEnv(d, env, ms)
  {
    data := d;
    var i := 0;
    while i < |ms|
      invariant 0 <= i <= |ms|
      invariant data == ApplyEnv(d, env, ms[..i])
    {
      ghost var prev := data;
      var name, key := ms[i].0, ms[i].1;
      var value := EnvValue(env, name);
      if value != "" {
        if IsNumericKey(key) {
          var n := ParseInt(value);
          if n.Some? {
            data := data[key := JInt(n.value)];
          }
        } else {
          data := data[key := JStr(value)];
        }
      }
      assert data == EnvStep(prev, env, ms[i]);
      assert ms[..i + 1][..i] == ms[..i];
      i := i + 1;
    }
    assert ms[..i] == ms;
  }

  class ConfigManager {
    const configDir: string
    const configFile: string
    const yamlConfigFile: Option<string>
    var config: Option<Settings>
    /** The file system: each existing path and what reading it gives. */
    var files: map<string, Document>

    /** The selected YAML file, when it exists. */
    function YamlDocument(): Option<Document>
      reads this
    {
      if yamlConfigFile.Some? && yamlConfigFile.value in files then Some(files[yamlConfigFile.value]) else None
    }

    /** config.json, when it exists. */
    function JsonDocument(): Option<Document>
      reads this
    {
      if configFile in files then Some(files[configFile]) else None
    }

    /** What load() would give now. */
    function Loaded(env: map<string, string>): Result<Settings, Failure>
      reads this
    {
      Resolve(YamlDocument(), JsonDocument(), env)
    }

    /** The loaded configuration, loading when there is none yet. */
    function Current(env: map<string, string>): Result<Settings, Failure>
      reads this
    {
      if config.Some? then Ok(config.value) else Loaded(env)
    }

    constructor(home: string, dir: Option<string>, explicit: Option<string>, files: map<string, Document>)
      ensures configDir == dir.GetOr(home + "/.domaintools")
      ensures configFile == configDir + "/" + DefaultConfigFile
      ensures yamlConfigFile == SelectYaml(explicit, files)
      ensures config.None? && this.files == files
    {
      configDir := dir.GetOr(home + "/.domaintools");
      configFile := dir.GetOr(home + "/.domaintools") + "/" + DefaultConfigFile;
      var found: Option<string> := None;
      var i := 0;
      while i < |YamlConfigFiles|
        invariant 0 <= i <= |YamlConfigFiles|
        invariant found.None?
        invariant FirstExisting(YamlConfigFiles[i..], files) == FirstExisting(YamlConfigFiles, files)
      {
        if YamlConfigFiles[i] in files {
          found := Some(YamlConfigFiles[i]);
          break;
        }
        assert YamlConfigFiles[i..][1..] == YamlConfigFiles[i + 1..];
        i := i + 1;
      }
      if explicit.Some? && explicit.value != "" && explicit.value in files {
        found := explicit;
      }
      yamlConfigFile := found;
      config := None;
      this.files := files;
    }

    /** load(): file data, then the environment overlay, then validation;
        the configuration is stored only when it validates. */
    method Load(env: map<string, string>) returns (r: Result<Settings, Failure>)
      modifies this`config
      ensures r == Loaded(env)
      ensures config == (if r.Ok? then Some(r.value) else old(config))
    {
      var base := FileData(YamlDocument(), JsonDocument());
      if base.Err? {
        return Err(base.error);
      }
      var data := Overlay(base.value, env, EnvMappings);
      r := Validate(data);
      if r.Ok? {
        config := Some(r.value);
      }
    }

    /** update(**kwargs): loads when nothing is loaded, then validates the
        current values overwritten by the keyword arguments. */
    method Update(env: map<string, string>, kwargs: ConfigData) returns (r: Result<Settings, Failure>)
      modifies this`config
      ensures var base := old(Current(env));
        r == (if base.Err? then Err(base.error) else Updated(base.value, kwargs))
      ensures var base := old(Current(env));
        config == (if r.Ok? then Some(r.value) else if base.Ok? then Some(base.value) else old(config))
    {
      if config.None? {
        var loaded := Load(env);
        if loaded.Err? {
          return loaded;
        }
      }
      var current := config.value;
      r := Validate(Dump(current) + kwargs);
      if r.Ok? {
        config := Some(r.value);
      }
    }

    /** get(key, default): a field's value, or the default for any other
        name. */
    method Get(env: map<string, string>, key: string, default: Json) returns (r: Result<Json, Failure>)
      modifies this`config
      ensures var base := old(Current(env));
        r == (if base.Err? then Err(base.error)
              else Ok(if key in FieldNames then Dump(base.value)[key] else default))
      ensures var base := old(Current(env));
        config == (if base.Ok? then Some(base.value) else old(config))
    {
      if config.None? {
        var loaded := Load(env);
        if loaded.Err? {
          return Err(loaded.error);
        }
      }
      var d := Dump(config.value);
      if key in d {
        r := Ok(d[key]);
      } else {
        r := Ok(default);
      }
    }

    /** is_configured() as written: it loads and catches only ValueError. */
    method IsConfigured(env: map<string, string>) returns (r: Result<bool, Failure>)
      modifies this`config
      ensures r == IsConfiguredAsWritten(old(Loaded(env)))
      ensures config == (if old(Loaded(env)).Ok? then Some(old(Loaded(env)).value) else old(config))
    {
      var loaded := Load(env);
      match loaded
      case Ok(s) => r := Ok(s.apiKey != "" && s.apiSecret != "");
      case Err(Invalid) => r := Ok(false);
      case Err(Unhandled(e)) => r := Err(Unhandled(e));
    }

    /** is_configured() as documented: True exactly when the configuration
        loads with non-empty credentials, False on every failure. */
    method IsConfiguredChecked(env: map<string, string>) returns (r: bool)
      modifies this`config
      ensures r <==> old(Loaded(env)).Ok? && CredentialsSet(old(Loaded(env)).value)
      ensures config == (if old(Loaded(env)).Ok? then Some(old(Loaded(env)).value) else old(config))
    {
      var loaded := Load(env);
      r := loaded.Ok? && loaded.value.apiKey != "" && loaded.value.apiSecret != "";
    }

    /** clear(): removes config.json and forgets the loaded configuration. */
    method Clear()
      modifies this
      ensures files == old(files) - {configFile}
      ensures config.None? && JsonDocument().None?
    {
      if configFile in files {
        files := files - {configFile};
      }
      config := None;
    }
  }
}
