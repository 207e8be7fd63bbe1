/** The stand-alone CLI wrapper (dt-cli.py): it discovers API credentials in
    a `.env` file, the process environment, or the first YAML/JSON
    configuration file that yields an API key, exports them to the
    environment, masks the key for the status display, decides whether a
    command needs credentials, and maps the CLI's outcome to an exit code.

    The file system is a map from path to what reading the file gives; the
    `.env` file is the list of its lines (those read before any read
    error). */
module Wrapper {
  import opened Wrappers
  import opened Text
  import opened Json

  /** The variables a configuration file can export. */
  datatype Var = ApiKey | ApiSecret | ApiUrl | Timeout | MaxRetries | OutputFormat

  function VarName(v: Var): string {
    match v
    case ApiKey => "DOMAINTOOLS_API_KEY"
    case ApiSecret => "DOMAINTOOLS_API_SECRET"
    case ApiUrl => "DOMAINTOOLS_API_URL"
    case Timeout => "DOMAINTOOLS_TIMEOUT"
    case MaxRetries => "DOMAINTOOLS_MAX_RETRIES"
    case OutputFormat => "DOMAINTOOLS_OUTPUT_FORMAT"
  }

  const KeyVar: string := "DOMAINTOOLS_API_KEY"
  const SecretVar: string := "DOMAINTOOLS_API_SECRET"

  /** Exported items in insertion order. */
  type Items = seq<(Var, Json)>

  const KeyPlaceholder: string := "your_api_key_here"
  const SecretPlaceholder: string := "your_api_secret_here"

  /** The first arguments that let a command run without credentials. */
  const SkipCommands: seq<string> := ["config", "--help", "-h", "help", "version", "--version"]

  // ---------------------------------------------------------------------
  // The .env file

  /** The key and value a `.env` line assigns: the stripped line must be
      non-empty, not a comment, and hold `=`; it splits at the first `=`,
      the key is trimmed, and the value is trimmed and then loses
      surrounding double quotes and then surrounding single quotes. */
  function EnvAssignment(line: string): (r: Option<(string, string)>)
    ensures r.Some? <==> Strip(line) != "" && !StartsWith(Strip(line), "#") && '=' in Strip(line)
  {
    var t := Strip(line);
    if t == "" || StartsWith(t, "#") then None
    else
      match SplitFirst(t, '=')
      case None => None
      case Some((k, v)) => Some((Strip(k), CleanValue(v)))
  }

  /** value.strip().strip('"').strip("'") */
  function CleanValue(v: string): string {
    StripChar(StripChar(Strip(v), '"'), '\'')
  }

  /** A value the wrapper keeps: non-empty and not a placeholder. */
  predicate Storable(value: string) {
    value != "" && value != KeyPlaceholder && value != SecretPlaceholder
  }

  /** The entry a line stores, if any. */
  function EnvEntry(line: string): (r: Option<(string, string)>)
    ensures r.Some? ==> Storable(r.value.1)
  {
    match EnvAssignment(line)
    case Some((k, v)) => if Storable(v) then Some((k, v)) else None
    case None => None
  }

  /** A name os.environ accepts. */
  predicate LegalEnvName(k: string) {
    k != "" && '\0' !in k
  }

  /** An assignment `os.environ[k] = v` carries out: a legal name and a
      value without an embedded null byte (otherwise it raises ValueError). */
  predicate LegalEnvEntry(k: string, v: string) {
    LegalEnvName(k) && '\0' !in v
  }

  /** The result of scanning the lines: the stored variables, the entries
      that reached the environment, and the entry the environment refused,
      if any (the exception is caught and ends the loop, after the entry
      was stored). */
  datatype EnvScan = EnvScan(vars: map<string, string>, exported: map<string, string>,
                             refused: Option<(string, string)>)

  /** One line of the scan. */
  function ScanStep(prev: EnvScan, line: string): EnvScan {
    if prev.refused.Some? then prev
    else
      match EnvEntry(line)
      case None => prev
      case Some((k, v)) =>
        if LegalEnvEntry(k, v) then EnvScan(prev.vars[k := v], prev.exported[k := v], None)
        else EnvScan(prev.vars[k := v], prev.exported, Some((k, v)))
  }

  function ScanEnv(lines: seq<string>): EnvScan
    decreases |lines|
  {
    if lines == [] then EnvScan(map[], map[], None)
    else ScanStep(ScanEnv(lines[..|lines| - 1]), lines[|lines| - 1])
  }

  /** The scan of one more line is one more step of the scan. */
  lemma ScanEnvNext(lines: seq<string>, i: nat)
    requires i < |lines|
    ensures ScanEnv(lines[..i + 1]) == ScanStep(ScanEnv(lines[..i]), lines[i])
  {
    assert lines[..i + 1][..i] == lines[..i];
  }

  /** Every stored variable reached the environment, except the refused
      entry, which is stored but illegal. */
  lemma {:induction false} ScanEnvShape(lines: seq<string>)
    ensures var s := ScanEnv(lines);
      (s.refused.None? ==> s.vars == s.exported) &&
      (s.refused.Some? ==>
        !LegalEnvEntry(s.refused.value.0, s.refused.value.1) &&
        s.vars == s.exported[s.refused.value.0 := s.refused.value.1])
    decreases |lines|
  {
    if lines != [] {
      var init := lines[..|lines| - 1];
      ScanEnvShape(init);
      var prev, line := ScanEnv(init), lines[|lines| - 1];
      assert ScanEnv(lines) == ScanStep(prev, line);
    }
  }

  /** Every entry of `m` is one the environment accepts. */
  predicate AllLegal(m: map<string, string>) {
    forall k :: k in m ==> LegalEnvEntry(k, m[k])
  }

  lemma AllLegalUpdate(m: map<string, string>, k: string, v: string)
    requires AllLegal(m) && LegalEnvEntry(k, v)
    ensures AllLegal(m[k := v])
  {
  }

  /** Setting a key after a merge is setting it in the merged map. */
  lemma MergeUpdate(a: map<string, string>, b: map<string, string>, k: string, v: string)
    ensures (a + b)[k := v] == a + b[k := v]
  {
  }

  /** Only legal entries reach the environment. */
  lemma {:induction false} ScanEnvExportsLegal(lines: seq<string>)
    ensures AllLegal(ScanEnv(lines).exported)
    decreases |lines|
  {
    if lines != [] {
      var init := lines[..|lines| - 1];
      ScanEnvExportsLegal(init);
      var prev, line := ScanEnv(init), lines[|lines| - 1];
      assert ScanEnv(lines) == ScanStep(prev, line);
      if prev.refused.None? && EnvEntry(line).Some? {
        var (k, v) := EnvEntry(line).value;
        if LegalEnvEntry(k, v) {
          AllLegalUpdate(prev.exported, k, v);
        }
      }
    }
  }

  /** Once the scan has stopped, later lines change nothing. */
  lemma {:induction false} ScanEnvStops(lines: seq<string>, n: nat)
    requires n <= |lines|
    requires ScanEnv(lines[..n]).refused.Some?
    ensures ScanEnv(lines) == ScanEnv(lines[..n])
    decreases |lines|
  {
    if n < |lines| {
      var init := lines[..|lines| - 1];
      assert init[..n] == lines[..n];
      ScanEnvStops(init, n);
    } else {
      assert lines[..n] == lines;
    }
  }

  /** Empty values and the placeholders are never stored. */
  lemma {:induction false} ScanEnvStorable(lines: seq<string>)
    ensures forall k :: k in ScanEnv(lines).vars ==> Storable(ScanEnv(lines).vars[k])
    decreases |lines|
  {
    if lines != [] {
      var init := lines[..|lines| - 1];
      ScanEnvStorable(init);
      var prev, line := ScanEnv(init), lines[|lines| - 1];
      assert ScanEnv(lines) == ScanStep(prev, line);
      if prev.refused.None? && EnvEntry(line).Some? {
        var (k, v) := EnvEntry(line).value;
        assert Storable(v);
        assert ScanEnv(lines).vars == prev.vars[k := v];
      }
    }
  }

  /** A later line for a key overwrites an earlier one. */
  lemma ScanEnvOverwrites(lines: seq<string>, line: string, k: string, v: string)
    requires ScanEnv(lines).refused.None?
    requires EnvEntry(line) == Some((k, v))
    ensures ScanEnv(lines + [line]).vars == ScanEnv(lines).vars[k := v]
  {
    var all := lines + [line];
    assert all[..|all| - 1] == lines && all[|all| - 1] == line;
    assert ScanEnv(all) == ScanStep(ScanEnv(lines), line);
    assert ScanStep(ScanEnv(lines), line).vars == ScanEnv(lines).vars[k := v];
  }

  /** Stripping a string whose ends are outside the strip set and which is
      wrapped in one stripped character at each end gives the string. */
  lemma StripWrapped(v: string, c: char, strip: char -> bool)
    requires strip(c)
    requires v != [] && !strip(v[0]) && !strip(v[|v| - 1])
    ensures StripBy([c] + v + [c], strip) == v
  {
    var s := [c] + v + [c];
    assert LeadingCount(s[1..], strip) == 0;
    assert LeadingCount(s, strip) == 1;
    assert s[1..] == v + [c];
    assert TrailingCount((v + [c])[..|v|], strip) == 0 by {
      assert (v + [c])[..|v|] == v;
    }
    assert TrailingCount(v + [c], strip) == 1;
    assert (v + [c])[..|v|] == v;
  }

  /** A clean value (no surrounding blanks or quotes). */
  predicate Clean(v: string) {
    v != [] && !IsSpace(v[0]) && !IsSpace(v[|v| - 1]) &&
    v[0] != '"' && v[|v| - 1] != '"' && v[0] != '\'' && v[|v| - 1] != '\''
  }

  /** A clean key. */
  predicate KeyText(k: string) {
    k != [] && !IsSpace(k[0]) && !IsSpace(k[|k| - 1]) && k[0] != '#' && '=' !in k
  }

  /** A line `k=q` with a clean key assigns the cleaned-up q to k. */
  lemma AssignmentOf(k: string, q: string)
    requires KeyText(k) && q != [] && !IsSpace(q[|q| - 1])
    ensures EnvAssignment(k + "=" + q) == Some((k, CleanValue(q)))
  {
    var line := k + "=" + q;
    assert line == k + ['='] + q;
    assert line[0] == k[0] && line[|line| - 1] == q[|q| - 1];
    StripByNoop(line, IsSpace);
    assert line[..1] == [k[0]];
    SplitFirstAt(k, q, '=');
    StripByNoop(k, IsSpace);
  }

  lemma CleanValueOfClean(v: string)
    requires Clean(v)
    ensures CleanValue(v) == v
  {
    StripByNoop(v, IsSpace);
    StripByNoop(v, x => x == '"');
    StripByNoop(v, x => x == '\'');
  }

  lemma CleanValueOfQuoted(v: string)
    requires Clean(v)
    ensures CleanValue("\"" + v + "\"") == v
  {
    var q := ['"'] + v + ['"'];
    assert "\"" + v + "\"" == q;
    StripByNoop(q, IsSpace);
    StripWrapped(v, '"', x => x == '"');
    StripByNoop(v, x => x == '\'');
  }

  /** `KEY=value` assigns the value, and the value may itself hold `=`. */
  lemma EnvLineRoundTrip(k: string, v: string)
    requires KeyText(k) && Clean(v) && Storable(v)
    ensures EnvEntry(k + "=" + v) == Some((k, v))
  {
    AssignmentOf(k, v);
    CleanValueOfClean(v);
  }

  /** `KEY="value"` assigns the value without its double quotes. */
  lemma EnvLineDoubleQuoted(k: string, v: string)
    requires KeyText(k) && Clean(v) && Storable(v)
    ensures EnvEntry(k + "=\"" + v + "\"") == Some((k, v))
  {
    var q := "\"" + v + "\"";
    assert k + "=\"" + v + "\"" == k + "=" + q;
    AssignmentOf(k, q);
    CleanValueOfQuoted(v);
  }

  // ---------------------------------------------------------------------
  // YAML and JSON configuration files

  /** The exported items of a file, in insertion order, and whether the
      extraction finished (an exception part-way keeps what was already
      extracted). */
  datatype Extracted = Extracted(items: Items, complete: bool)

  /** What the extraction may emit for a variable: a key or secret only
      when truthy and not a placeholder, a URL only when truthy, timeout
      and max_retries as strings. */
  predicate ItemOk(x: Var, v: Json) {
    match x
    case ApiKey => Truthy(v) && v != JStr(KeyPlaceholder)
    case ApiSecret => Truthy(v) && v != JStr(SecretPlaceholder)
    case ApiUrl => Truthy(v)
    case Timeout => v.JStr?
    case MaxRetries => v.JStr?
    case OutputFormat => true
  }

  /** Every item is allowed and each variable appears at most once. */
  predicate WellFormed(items: Items) {
    (forall i :: 0 <= i < |items| ==> ItemOk(items[i].0, items[i].1)) &&
    (forall i, j :: 0 <= i < j < |items| ==> items[i].0 != items[j].0)
  }

  /** config.get(name) */
  function Value(items: Items, x: Var): (r: Option<Json>)
    ensures r.Some? ==> exists i :: 0 <= i < |items| && items[i] == (x, r.value)
    ensures r.None? <==> forall i :: 0 <= i < |items| ==> items[i].0 != x
  {
    if items == [] then None
    else if items[0].0 == x then Some(items[0].1)
    else
      var r := Value(items[1..], x);
      assert forall i :: 0 < i < |items| ==> items[i] == items[1..][i - 1];
      assert r.Some? ==> exists i :: 0 <= i < |items| && items[i] == (x, r.value) by {
        if r.Some? {
          var i :| 0 <= i < |items| - 1 && items[1..][i] == (x, r.value);
          assert items[i + 1] == (x, r.value);
        }
      }
      r
  }

  /** A lookup in a concatenation reads the first part when the second
      does not hold the variable. */
  lemma {:induction false} ValuePrefix(a: Items, b: Items, x: Var)
    requires forall j :: 0 <= j < |b| ==> b[j].0 != x
    ensures Value(a + b, x) == Value(a, x)
  {
    if a == [] {
      assert a + b == b;
    } else {
      assert (a + b)[1..] == a[1..] + b;
      ValuePrefix(a[1..], b, x);
    }
  }

  /** At most one item for each of three different variables, each item
      one the extraction may emit: together they are well-formed. */
  lemma ThreeWellFormed(a: Items, b: Items, c: Items, x: Var, y: Var, z: Var)
    requires x != y && y != z && x != z
    requires |a| <= 1 && |b| <= 1 && |c| <= 1
    requires forall i :: 0 <= i < |a| ==> a[i].0 == x && ItemOk(x, a[i].1)
    requires forall i :: 0 <= i < |b| ==> b[i].0 == y && ItemOk(y, b[i].1)
    requires forall i :: 0 <= i < |c| ==> c[i].0 == z && ItemOk(z, c[i].1)
    ensures WellFormed(a) && WellFormed(a + b) && WellFormed(a + b + c)
    ensures forall i :: 0 <= i < |a + b + c| ==> (a + b + c)[i].0 in {x, y, z}
  {
    AppendWellFormed(a, b, y);
    AppendWellFormed(a + b, c, z);
  }

  /** A well-formed sequence followed by at most one allowed item for a
      variable it lacks is well-formed. */
  lemma AppendWellFormed(a: Items, c: Items, z: Var)
    requires WellFormed(a) && |c| <= 1
    requires forall i :: 0 <= i < |a| ==> a[i].0 != z
    requires forall i :: 0 <= i < |c| ==> c[i].0 == z && ItemOk(z, c[i].1)
    ensures WellFormed(a + c)
    ensures forall i :: 0 <= i < |a + c| ==> (a + c)[i] == (if i < |a| then a[i] else c[i - |a|])
  {
  }

  /** Key, secret and URL taken from a mapping under the given names. */
  function CredentialItems(m: Entries, keyName: string, secretName: string, urlName: string): (r: Items)
    ensures WellFormed(r)
    ensures forall i :: 0 <= i < |r| ==> r[i].0.ApiKey? || r[i].0.ApiSecret? || r[i].0.ApiUrl?
    ensures Value(r, ApiKey) == (var key := Get(m, keyName);
      if Truthy(key) && key != JStr(KeyPlaceholder) then Some(key) else None)
  {
    var key := Get(m, keyName);
    var secret := Get(m, secretName);
    var url := Get(m, urlName);
    var a := if Truthy(key) && key != JStr(KeyPlaceholder) then [(ApiKey, key)] else [];
    var b := if Truthy(secret) && secret != JStr(SecretPlaceholder) then [(ApiSecret, secret)] else [];
    var c := if Truthy(url) then [(ApiUrl, url)] else [];
    ThreeWellFormed(a, b, c, ApiKey, ApiSecret, ApiUrl);
    a + b + c
  }

  /** `v[k] if k in v`: Ok(None) when absent; Err when either step raises. */
  function Member(v: Json, k: string): (r: Result<Option<Json>, string>)
    ensures v.JObject? ==> r.Ok?
  {
    var has :- PyIn(k, v);
    if has then
      var x :- Subscript(v, k);
      Ok(Some(x))
    else Ok(None)
  }

  /** The item for one setting when present, converted with str() when
      `asText`. */
  function Item(x: Var, v: Option<Json>, asText: bool): (r: Items)
    ensures |r| <= 1
    ensures forall i :: 0 <= i < |r| ==> r[i].0 == x
    ensures asText ==> forall i :: 0 <= i < |r| ==> r[i].1.JStr?
  {
    if v.None? then [] else [(x, if asText then JStr(PyStr(v.value)) else v.value)]
  }

  /** The variables a settings section feeds. */
  predicate IsSetting(x: Var) {
    x.Timeout? || x.MaxRetries? || x.OutputFormat?
  }

  /** What a mapping's settings give a variable: the value under its name
      when present, converted with str() for timeout and max_retries. */
  function SettingOf(m: Entries, x: Var): Option<Json>
    requires IsSetting(x)
  {
    var name := match x
      case Timeout => "timeout"
      case MaxRetries => "max_retries"
      case _ => "output_format";
    if !Has(m, name) then None
    else if x.OutputFormat? then Some(Get(m, name))
    else Some(JStr(PyStr(Get(m, name))))
  }

  /** The three items of a settings mapping give each setting its value. */
  lemma SettingsValues(s: Json, a: Items, b: Items, c: Items)
    requires a == (var t := Member(s, "timeout"); if t.Ok? then Item(Timeout, t.value, true) else [])
    requires b == (var m := Member(s, "max_retries"); if m.Ok? then Item(MaxRetries, m.value, true) else [])
    requires c == (var f := Member(s, "output_format"); if f.Ok? then Item(OutputFormat, f.value, false) else [])
    ensures s.JObject? ==> forall x :: IsSetting(x) ==> Value(a + b + c, x) == SettingOf(s.entries, x)
  {
    if s.JObject? {
      forall x | IsSetting(x)
        ensures Value(a + b + c, x) == SettingOf(s.entries, x)
      {
        assert a + b + c == a + (b + c);
        ValueOfParts(a, b, c, x);
      }
    }
  }

  /** timeout, max_retries and output_format of a settings section; the
      first lookup that raises ends the extraction. */
  function SettingsItems(s: Json): (r: Extracted)
    ensures WellFormed(r.items)
    ensures forall i :: 0 <= i < |r.items| ==> IsSetting(r.items[i].0)
    ensures s.JObject? ==> r.complete
    ensures s.JObject? ==> forall x :: IsSetting(x) ==> Value(r.items, x) == SettingOf(s.entries, x)
    ensures !s.JObject? ==> r.items == []
  {
    var t, m, f := Member(s, "timeout"), Member(s, "max_retries"), Member(s, "output_format");
    var a := if t.Ok? then Item(Timeout, t.value, true) else [];
    var b := if m.Ok? then Item(MaxRetries, m.value, true) else [];
    var c := if f.Ok? then Item(OutputFormat, f.value, false) else [];
    ThreeWellFormed(a, b, c, Timeout, MaxRetries, OutputFormat);
    SettingsValues(s, a, b, c);
    if t.Err? then Extracted([], false)
    else if m.Err? then Extracted(a, false)
    else if f.Err? then Extracted(a + b, false)
    else Extracted(a + b + c, true)
  }

  /** Credentials followed by settings: well-formed, and the key is the
      credentials' key. */
  function Combine(creds: Items, settings: Items): (r: Items)
    requires WellFormed(creds) && WellFormed(settings)
    requires forall i :: 0 <= i < |creds| ==> creds[i].0.ApiKey? || creds[i].0.ApiSecret? || creds[i].0.ApiUrl?
    requires forall i :: 0 <= i < |settings| ==>
      settings[i].0.Timeout? || settings[i].0.MaxRetries? || settings[i].0.OutputFormat?
    ensures WellFormed(r)
    ensures Value(r, ApiKey) == Value(creds, ApiKey)
    ensures forall x :: IsSetting(x) ==> Value(r, x) == Value(settings, x)
  {
    var r := creds + settings;
    assert forall i :: 0 <= i < |r| ==> r[i] == (if i < |creds| then creds[i] else settings[i - |creds|]);
    ValuePrefix(creds, settings, ApiKey);
    forall x | IsSetting(x)
      ensures Value(r, x) == Value(settings, x)
    {
      ValueSuffix(creds, settings, x);
    }
    r
  }

  /** A lookup in a concatenation reads the second part when the first
      does not hold the variable. */
  lemma {:induction false} ValueSuffix(a: Items, b: Items, x: Var)
    requires forall j :: 0 <= j < |a| ==> a[j].0 != x
    ensures Value(a + b, x) == Value(b, x)
  {
    if a == [] {
      assert a + b == b;
    } else {
      assert (a + b)[1..] == a[1..] + b;
      ValueSuffix(a[1..], b, x);
    }
  }

  /** A lookup reads the first item when it holds the variable, else the rest. */
  lemma ValueCons(p: (Var, Json), rest: Items, x: Var)
    ensures Value([p] + rest, x) == if p.0 == x then Some(p.1) else Value(rest, x)
  {
    assert ([p] + rest)[1..] == rest;
  }

  /** Reading a variable from at most one item of each of three parts
      takes the first part that holds it. */
  lemma ValueOfParts(a: Items, b: Items, c: Items, x: Var)
    requires |a| <= 1 && |b| <= 1 && |c| <= 1
    ensures Value(a + (b + c), x) ==
      if a != [] && a[0].0 == x then Some(a[0].1)
      else if b != [] && b[0].0 == x then Some(b[0].1)
      else if c != [] && c[0].0 == x then Some(c[0].1)
      else None
  {
    if c != [] {
      assert c == [c[0]] + [];
      ValueCons(c[0], [], x);
    }
    if b == [] {
      assert b + c == c;
    } else {
      assert b == [b[0]];
      ValueCons(b[0], c, x);
    }
    if a == [] {
      assert a + (b + c) == b + c;
    } else {
      assert a == [a[0]];
      ValueCons(a[0], b + c, x);
    }
  }



  /** load_yaml_config on a parsed document. */
  function YamlItems(y: Json): (r: Items)
    ensures WellFormed(r)
    ensures y.JObject? && !Has(y.entries, "api") ==> Value(r, ApiKey) == None
    ensures y.JObject? && Has(y.entries, "api") && Get(y.entries, "api").JObject? ==>
      Value(r, ApiKey) == (var key := Get(Get(y.entries, "api").entries, "key");
        if Truthy(key) && key != JStr(KeyPlaceholder) then Some(key) else None)
    ensures y.JObject? && Has(y.entries, "api") && !Get(y.entries, "api").JObject? ==> r == []
    ensures y.JObject? && (Has(y.entries, "api") ==> Get(y.entries, "api").JObject?) && Has(y.entries, "settings") ==>
      forall x :: IsSetting(x) ==> Value(r, x) == Value(SettingsItems(Get(y.entries, "settings")).items, x)
  {
    if !Truthy(y) then []
    else
      var hasApi := PyIn("api", y);
      if hasApi.Err? then []
      else
        var api :=
          if !hasApi.value then Extracted([], true)
          else
            var a := Subscript(y, "api");
            if a.Err? then Extracted([], false)
            else if a.value.JObject? then Extracted(CredentialItems(a.value.entries, "key", "secret", "url"), true)
            else Extracted([], false);
        assert forall i :: 0 <= i < |api.items| ==>
          api.items[i].0.ApiKey? || api.items[i].0.ApiSecret? || api.items[i].0.ApiUrl?;
        if !api.complete then api.items
        else
          var hasSettings := PyIn("settings", y);
          if hasSettings.Err? || !hasSettings.value then api.items
          else
            var sub := Subscript(y, "settings");
            if sub.Err? then api.items
            else Combine(api.items, SettingsItems(sub.value).items)
  }

  /** load_json_config on a parsed document. */
  function JsonItems(j: Json): (r: Items)
    ensures WellFormed(r)
    ensures !j.JObject? ==> r == []
    ensures j.JObject? ==> Value(r, ApiKey) == (var key := Get(j.entries, "api_key");
      if Truthy(key) && key != JStr(KeyPlaceholder) then Some(key) else None)
    ensures j.JObject? ==> forall x :: IsSetting(x) ==> Value(r, x) == SettingOf(j.entries, x)
  {
    if !Truthy(j) || !j.JObject? then []
    else Combine(CredentialItems(j.entries, "api_key", "api_secret", "api_url"), SettingsItems(j).items)
  }

  /** What load_yaml_config / load_json_config return: any read or parse
      error is reported and gives nothing. */
  function YamlConfig(doc: Document): (r: Items)
    ensures WellFormed(r)
    ensures !doc.Parsed? ==> r == []
    ensures doc.Parsed? && !Truthy(doc.doc) ==> r == []
  {
    if doc.Parsed? then YamlItems(doc.doc) else []
  }

  function JsonConfig(doc: Document): (r: Items)
    ensures WellFormed(r)
    ensures !doc.Parsed? || !doc.doc.JObject? ==> r == []
    ensures doc.Parsed? && doc.doc.JObject? ==>
      Value(r, ApiKey) == (var key := Get(doc.doc.entries, "api_key");
        if Truthy(key) && key != JStr(KeyPlaceholder) then Some(key) else None)
    ensures doc.Parsed? && doc.doc.JObject? ==>
      forall x :: IsSetting(x) ==> Value(r, x) == SettingOf(doc.doc.entries, x)
  {
    if doc.Parsed? then JsonItems(doc.doc) else []
  }

  // ---------------------------------------------------------------------
  // Discovery over the candidate files

  /** The candidate files, in search order: path and file name. */
  function Candidates(projectDir: string, home: string): seq<(string, string)> {
    [(projectDir + "/config.yaml", "config.yaml"),
     (projectDir + "/config.yml", "config.yml"),
     (projectDir + "/domaintools.yaml", "domaintools.yaml"),
     (projectDir + "/domaintools.yml", "domaintools.yml"),
     (home + "/.domaintools/config.json", "config.json")]
  }

  /** What a candidate contributes when it exists and its suffix is known. */
  function FileItems(files: map<string, Document>, c: (string, string)): (r: Option<Items>)
    ensures r.Some? ==> WellFormed(r.value)
    ensures r.Some? <==> c.0 in files && (EndsWith(c.1, ".yaml") || EndsWith(c.1, ".yml") || EndsWith(c.1, ".json"))
    ensures r.Some? && (EndsWith(c.1, ".yaml") || EndsWith(c.1, ".yml")) ==> r.value == YamlConfig(files[c.0])
    ensures r.Some? && !EndsWith(c.1, ".yaml") && !EndsWith(c.1, ".yml") ==> r.value == JsonConfig(files[c.0])
  {
    if c.0 !in files then None
    else if EndsWith(c.1, ".yaml") || EndsWith(c.1, ".yml") then Some(YamlConfig(files[c.0]))
    else if EndsWith(c.1, ".json") then Some(JsonConfig(files[c.0]))
    else None
  }

  /** `config.get("DOMAINTOOLS_API_KEY")` is truthy. */
  predicate HasKey(items: Items) {
    Value(items, ApiKey).Some? && Truthy(Value(items, ApiKey).value)
  }

  /** A candidate's contribution has a truthy key. */
  predicate Yields(found: Option<Items>) {
    found.Some? && HasKey(found.value)
  }

  /** What each candidate contributes, in search order. */
  function Found(files: map<string, Document>, cs: seq<(string, string)>): (r: seq<Option<Items>>)
    ensures |r| == |cs|
    ensures forall i :: 0 <= i < |cs| ==> r[i] == FileItems(files, cs[i])
  {
    seq(|cs|, i requires 0 <= i < |cs| => FileItems(files, cs[i]))
  }

  /** The index of the first contribution with a key. */
  function FirstYielding(found: seq<Option<Items>>): (r: Option<nat>)
    ensures r.Some? ==> r.value < |found| && Yields(found[r.value])
    ensures r.Some? ==> forall j :: 0 <= j < r.value ==> !Yields(found[j])
    ensures r.None? ==> forall j :: 0 <= j < |found| ==> !Yields(found[j])
  {
    if found == [] then None
    else if Yields(found[0]) then Some(0)
    else
      match FirstYielding(found[1..])
      case None => None
      case Some(i) =>
        assert forall j :: 1 <= j <= i ==> found[j] == found[1..][j - 1];
        Some(i + 1)
  }

  /** The first contribution with a key is the one at `i` when none before
      it has one. */
  lemma {:induction false} FirstYieldingAt(found: seq<Option<Items>>, i: nat)
    requires i < |found| && Yields(found[i])
    requires forall j :: 0 <= j < i ==> !Yields(found[j])
    ensures FirstYielding(found) == Some(i)
  {
    if i > 0 {
      assert forall j :: 0 <= j < i - 1 ==> found[1..][j] == found[j + 1];
      FirstYieldingAt(found[1..], i - 1);
    }
  }

  lemma NoneYieldsYet(found: seq<Option<Items>>, i: nat)
    requires i < |found| && !Yields(found[i])
    requires forall j :: 0 <= j < i ==> !Yields(found[j])
    ensures forall j :: 0 <= j < i + 1 ==> !Yields(found[j])
  {
  }

  /** `os.environ[name] = value` for each item in order; a value that is
      not a string raises TypeError there, and a string holding a null
      byte raises ValueError, after the earlier items were set. */
  datatype EnvExport = EnvExport(environ: map<string, string>, raised: Option<string>) {
    predicate Complete() {
      raised.None?
    }
  }

  function Export(environ: map<string, string>, items: Items): EnvExport
    decreases |items|
  {
    if items == [] then EnvExport(environ, None)
    else
      var prev := Export(environ, items[..|items| - 1]);
      var last := items[|items| - 1];
      if !prev.Complete() then prev
      else if !last.1.JStr? then EnvExport(prev.environ, Some("TypeError"))
      else if '\0' in last.1.s then EnvExport(prev.environ, Some("ValueError"))
      else EnvExport(prev.environ[VarName(last.0) := last.1.s], None)
  }

  lemma {:induction false} ExportStops(environ: map<string, string>, items: Items, n: nat)
    requires n <= |items|
    requires !Export(environ, items[..n]).Complete()
    ensures Export(environ, items) == Export(environ, items[..n])
    decreases |items|
  {
    if n < |items| {
      var init := items[..|items| - 1];
      assert init[..n] == items[..n];
      ExportStops(environ, init, n);
    } else {
      assert items[..n] == items;
    }
  }

  /** A complete export means every value was a string without a null
      byte. */
  lemma {:induction false} ExportCompleteStrings(environ: map<string, string>, items: Items)
    requires Export(environ, items).Complete()
    ensures forall i :: 0 <= i < |items| ==> Settable(items[i].1)
    decreases |items|
  {
    if items != [] {
      ExportCompleteStrings(environ, items[..|items| - 1]);
      assert forall i :: 0 <= i < |items| - 1 ==> items[i] == items[..|items| - 1][i];
    }
  }

  /** A value `os.environ` accepts as set: a string without a null byte. */
  predicate Settable(v: Json) {
    v.JStr? && '\0' !in v.s
  }

  /** An export of settable values completes. */
  lemma {:induction false} ExportAllSettable(environ: map<string, string>, items: Items)
    requires forall i :: 0 <= i < |items| ==> Settable(items[i].1)
    ensures Export(environ, items).Complete()
    decreases |items|
  {
    if items != [] {
      var init := items[..|items| - 1];
      assert forall i :: 0 <= i < |init| ==> init[i] == items[i];
      ExportAllSettable(environ, init);
    }
  }

  /** The first value that cannot be set decides the exception: TypeError
      for a value that is not a string, ValueError for a string holding a
      null byte. */
  lemma ExportRaisesAt(environ: map<string, string>, items: Items, i: nat)
    requires i < |items|
    requires forall j :: 0 <= j < i ==> Settable(items[j].1)
    requires !Settable(items[i].1)
    ensures Export(environ, items).raised == Some(if items[i].1.JStr? then "ValueError" else "TypeError")
  {
    var init := items[..i];
    assert forall j :: 0 <= j < |init| ==> init[j] == items[j];
    ExportAllSettable(environ, init);
    assert items[..i + 1][..i] == init;
    ExportStops(environ, items, i + 1);
  }

  /** The items as a dict keyed by variable name. */
  function Named(items: Items): (r: Entries)
    ensures |r| == |items|
    ensures forall i :: 0 <= i < |items| ==> r[i] == (VarName(items[i].0), items[i].1)
  {
    seq(|items|, i requires 0 <= i < |items| => (VarName(items[i].0), items[i].1))
  }

  lemma KeyNameOnlyApiKey(x: Var)
    ensures VarName(x) == KeyVar <==> x == ApiKey
  {
  }

  /** The credentials map of the `.env` source. */
  function Lift(vars: map<string, string>): map<string, Json> {
    map k | k in vars :: JStr(vars[k])
  }

  function EnvValue(environ: map<string, string>, name: string): string {
    if name in environ then environ[name] else ""
  }

  /** The credentials of the environment source: the key and the secret
      (None when the secret is unset). */
  function EnvCredentials(environ: map<string, string>): map<string, Json> {
    map[KeyVar := JStr(EnvValue(environ, KeyVar)),
        SecretVar := if SecretVar in environ then JStr(environ[SecretVar]) else JNull]
  }

  /** What load_configuration returns (Err names an escaping exception),
      the environment afterwards, and the source and credentials it
      records when it succeeds. */
  datatype Outcome = Outcome(
    result: Result<bool, string>,
    environ: map<string, string>,
    loaded: Option<(string, map<string, Json>)>)

  function LoadOutcome(lines: seq<string>, environ: map<string, string>,
                       files: map<string, Document>, cs: seq<(string, string)>): Outcome
  {
    var vars := ScanEnv(lines).vars;
    var env1 := environ + ScanEnv(lines).exported;
    if KeyVar in vars && vars[KeyVar] != "" then
      Outcome(Ok(true), env1, Some((".env file", Lift(vars))))
    else if EnvValue(env1, KeyVar) != "" then
      Outcome(Ok(true), env1, Some(("environment variables", EnvCredentials(env1))))
    else FileOutcome(env1, files, cs)
  }

  /** The file stage of load_configuration: the first candidate that yields
      a key is exported and recorded; an export that raises (TypeError or
      ValueError) leaves nothing recorded. */
  function FileOutcome(environ: map<string, string>, files: map<string, Document>,
                       cs: seq<(string, string)>): Outcome
  {
    match FirstYielding(Found(files, cs))
    case None => Outcome(Ok(false), environ, None)
    case Some(i) =>
      var items := FileItems(files, cs[i]).value;
      var e := Export(environ, items);
      if e.Complete() then Outcome(Ok(true), e.environ, Some((cs[i].1, ToMap(Named(items)))))
      else Outcome(Err(e.raised.value), e.environ, None)
  }

  /** The wrapper's fields that loading sets. */
  datatype WrapperState = WrapperState(
    environ: map<string, string>,
    configLoaded: bool,
    configSource: Option<string>,
    apiCredentials: map<string, Json>)

  /** The state after an outcome: its environment, and the source and
      credentials it records when it records any. */
  function Applied(o: Outcome, before: WrapperState): WrapperState {
    match o.loaded
    case Some((source, creds)) => WrapperState(o.environ, true, Some(source), creds)
    case None => before.(environ := o.environ)
  }

  /** A well-formed file config whose export completed holds the key as a
      non-empty string under its variable name. */
  lemma FileKeyIsString(environ: map<string, string>, items: Items)
    requires WellFormed(items) && HasKey(items) && Export(environ, items).Complete()
    ensures var d := ToMap(Named(items));
      KeyVar in d && d[KeyVar].JStr? && d[KeyVar].s != ""
  {
    ExportCompleteStrings(environ, items);
    var named := Named(items);
    var i :| 0 <= i < |items| && items[i] == (ApiKey, Value(items, ApiKey).value);
    assert named[i].0 == KeyVar;
    assert Keys(named)[i] == KeyVar;
    var w := Find(named, KeyVar).value;
    var j :| 0 <= j < |named| && named[j] == (KeyVar, w);
    KeyNameOnlyApiKey(items[j].0);
    assert items[j].0 == ApiKey && items[j].1 == w;
    assert ItemOk(items[j].0, items[j].1);
  }

  /** Whatever source wins, the recorded credentials hold a non-empty API
      key string: the value show_status masks. */
  lemma LoadedHasKey(lines: seq<string>, environ: map<string, string>,
                     files: map<string, Document>, cs: seq<(string, string)>)
    ensures var o := LoadOutcome(lines, environ, files, cs);
      o.loaded.Some? ==>
        (o.result == Ok(true) && KeyVar in o.loaded.value.1 &&
         o.loaded.value.1[KeyVar].JStr? && o.loaded.value.1[KeyVar].s != "")
  {
    var vars := ScanEnv(lines).vars;
    var env1 := environ + ScanEnv(lines).exported;
    if !(KeyVar in vars && vars[KeyVar] != "") && EnvValue(env1, KeyVar) == "" {
      var first := FirstYielding(Found(files, cs));
      if first.Some? {
        var items := FileItems(files, cs[first.value]).value;
        if Export(env1, items).Complete() {
          FileKeyIsString(env1, items);
        }
      }
    }
  }

  // ---------------------------------------------------------------------
  // Status masking, the skip-config decision, exit codes

  /** The key as show_status displays it: its first ten characters and
      "..." for a longer key, "***" otherwise. */
  function Mask(key: string): (r: string)
    ensures |key| <= 10 ==> r == "***"
    ensures |key| > 10 ==> |r| == 13 && StartsWith(r, key[..10]) && EndsWith(r, "...")
  {
    if |key| > 10 then key[..10] + "..." else "***"
  }

  /** The API-key row of show_status, when it is shown: the masked key,
      for a loaded configuration whose recorded key is a non-empty
      string. */
  function MaskedKey(configLoaded: bool, creds: map<string, Json>): (r: Option<string>)
    ensures r.Some? ==> configLoaded && KeyVar in creds && Truthy(creds[KeyVar])
    ensures configLoaded && KeyVar in creds && creds[KeyVar].JStr? && Truthy(creds[KeyVar]) ==>
      r == Some(Mask(creds[KeyVar].s))
    ensures !configLoaded || KeyVar !in creds || !Truthy(creds[KeyVar]) ==> r == None
  {
    if configLoaded && KeyVar in creds && creds[KeyVar].JStr? && creds[KeyVar].s != "" then
      Some(Mask(creds[KeyVar].s))
    else None
  }

  /** Whatever source wins, show_status shows the recorded key masked. */
  lemma LoadedKeyShown(lines: seq<string>, environ: map<string, string>,
                       files: map<string, Document>, cs: seq<(string, string)>)
    requires LoadOutcome(lines, environ, files, cs).loaded.Some?
    ensures var creds := LoadOutcome(lines, environ, files, cs).loaded.value.1;
      KeyVar in creds && creds[KeyVar].JStr? && MaskedKey(true, creds) == Some(Mask(creds[KeyVar].s))
  {
    LoadedHasKey(lines, environ, files, cs);
  }

  function Min(a: int, b: int): int {
    if a < b then a else b
  }

  /** A command needs credentials unless a skip command is among its first
      two arguments. */
  predicate NeedsConfigSpec(args: seq<string>) {
    forall c :: c in SkipCommands ==> c !in args[..Min(2, |args|)]
  }

  /** How the CLI finished: it returned, it raised SystemExit with a code,
      it was interrupted, or it raised any other exception. */
  datatype CliOutcome = Returned | Exited(code: Json) | Interrupted | Failed

  /** run_cli's exit code: int(code) of a SystemExit (0 for None), 130 on
      interrupt, 1 on any other exception; Err when int(code) itself
      raises. */
  function RunCliCode(o: CliOutcome): (r: Result<int, string>)
    ensures o.Returned? || o == Exited(JNull) ==> r == Ok(0)
    ensures o.Interrupted? ==> r == Ok(130)
    ensures o.Failed? ==> r == Ok(1)
    ensures o.Exited? && o.code.JInt? ==> r == Ok(o.code.i)
    ensures forall n: int :: o == Exited(JStr(IntToString(n))) ==> r == Ok(n)
  {
    match o
    case Returned => Ok(0)
    case Interrupted => Ok(130)
    case Failed => Ok(1)
    case Exited(code) =>
      match code
      case JNull => Ok(0)
      case JInt(i) => Ok(i)
      case JBool(b) => Ok(if b then 1 else 0)
      case JFloat(f) => Ok(Trunc(f.value))
      case JStr(s) =>
        (ParseIntToStringAll();
         match ParseInt(s)
         case Some(n) => Ok(n)
         case None => Err("ValueError"))
      case _ => Err("TypeError")
  }

  lemma ParseIntToStringAll()
    ensures forall n: int :: ParseInt(IntToString(n)) == Some(n)
  {
    forall n: int
      ensures ParseInt(IntToString(n)) == Some(n)
    {
      ParseIntToString(n);
    }
  }

  /** main()'s exit status once the configuration has been looked for:
      `status` always gives 0; a command that needs credentials gives 1
      when none were found; anything else runs the CLI. */
  function MainCode(args: seq<string>, loaded: Result<bool, string>, cli: CliOutcome): Result<int, string>
    requires args != []
  {
    if loaded.Err? then Err(loaded.error)
    else if args[0] == "status" then Ok(0)
    else if NeedsConfigSpec(args) && !loaded.value then Ok(1)
    else RunCliCode(cli)
  }

  class DomainToolsWrapper {
    const projectDir: string
    const home: string
    /** The `.env` file's lines; None when it does not exist. */
    const envFile: Option<seq<string>>
    const files: map<string, Document>
    /** The configuration files looked for, in order. */
    const candidates: seq<(string, string)>
    var environ: map<string, string>
    var configLoaded: bool
    var configSource: Option<string>
    var apiCredentials: map<string, Json>

    constructor(projectDir: string, home: string, envFile: Option<seq<string>>,
                files: map<string, Document>, environ: map<string, string>)
      ensures this.projectDir == projectDir && this.home == home
      ensures this.envFile == envFile && this.files == files && this.environ == environ
      ensures candidates == Candidates(projectDir, home)
      ensures !configLoaded && configSource.None? && apiCredentials == map[]
    {
      this.projectDir := projectDir;
      this.home := home;
      this.envFile := envFile;
      this.files := files;
      candidates := Candidates(projectDir, home);
      this.environ := environ;
      configLoaded := false;
      configSource := None;
      apiCredentials := map[];
    }

    function EnvLines(): seq<string> {
      if envFile.Some? then envFile.value else []
    }

    /** load_env_file(): stores each accepted line, later lines winning, and
        exports it; an entry the environment refuses is stored and ends the
        scan. */
    method LoadEnvFile() returns (vars: map<string, string>)
      modifies this`environ
      ensures vars == ScanEnv(EnvLines()).vars
      ensures environ == old(environ) + ScanEnv(EnvLines()).exported
    {
      ghost var env0 := environ;
      var lines := EnvLines();
      vars := map[];
      assert env0 + vars == env0;
      var i := 0;
      while i < |lines|
        invariant 0 <= i <= |lines|
        invariant ScanEnv(lines[..i]) == EnvScan(vars, vars, None)
        invariant environ == env0 + vars
      {
        ScanEnvNext(lines, i);
        var stop;
        vars, stop := StoreLine(lines[i], env0, vars);
        if stop {
          ScanEnvStops(lines, i + 1);
          return;
        }
        i := i + 1;
      }
      assert lines[..i] == lines;
    }

    /** One line of load_env_file(): a stored entry goes into the variables
        and, when the environment accepts it, into the environment; a
        refused entry stops the scan. */
    method StoreLine(line: string, ghost env0: map<string, string>, vars: map<string, string>)
      returns (next: map<string, string>, stop: bool)
      requires environ == env0 + vars
      modifies this`environ
      ensures var s := ScanStep(EnvScan(vars, vars, None), line);
        s.vars == next && (s.refused.Some? <==> stop) &&
        (!stop ==> s.exported == next) &&
        environ == env0 + s.exported
    {
      next, stop := vars, false;
      var entry := EnvEntry(line);
      if entry.Some? {
        var key, value := entry.value.0, entry.value.1;
        next := vars[key := value];
        if LegalEnvEntry(key, value) {
          assert ScanStep(EnvScan(vars, vars, None), line) == EnvScan(next, next, None);
          MergeUpdate(env0, vars, key, value);
          environ := environ[key := value];
        } else {
          assert ScanStep(EnvScan(vars, vars, None), line) == EnvScan(next, vars, Some((key, value)));
          stop := true;
        }
      }
    }

    /** The `os.environ` export loop of load_configuration. */
    method ExportItems(items: Items) returns (raised: Option<string>)
      modifies this`environ
      ensures Export(old(environ), items) == EnvExport(environ, raised)
    {
      var k := 0;
      while k < |items|
        invariant 0 <= k <= |items|
        invariant Export(old(environ), items[..k]) == EnvExport(environ, None)
      {
        assert items[..k + 1][..k] == items[..k];
        var (name, value) := items[k];
        if !value.JStr? {
          ExportStops(old(environ), items, k + 1);
          return Some("TypeError");
        }
        if '\0' in value.s {
          ExportStops(old(environ), items, k + 1);
          return Some("ValueError");
        }
        environ := environ[VarName(name) := value.s];
        k := k + 1;
      }
      assert items[..k] == items;
      return None;
    }

    /** The fields load_configuration() sets. */
    function State(): WrapperState
      reads this
    {
      WrapperState(environ, configLoaded, configSource, apiCredentials)
    }

    /** load_configuration(): `.env`, then the environment, then the first
        candidate file that yields a key. */
    method LoadConfiguration() returns (r: Result<bool, string>)
      modifies this
      ensures var o := LoadOutcome(EnvLines(), old(environ), files, candidates);
        r == o.result && State() == Applied(o, old(State()))
    {
      ghost var o := LoadOutcome(EnvLines(), environ, files, candidates);
      var vars := LoadEnvFile();
      if KeyVar in vars && vars[KeyVar] != "" {
        assert o == Outcome(Ok(true), environ, Some((".env file", Lift(vars))));
        Record(".env file", Lift(vars));
        r := Ok(true);
      } else if EnvValue(environ, KeyVar) != "" {
        assert o == Outcome(Ok(true), environ, Some(("environment variables", EnvCredentials(environ))));
        Record("environment variables", EnvCredentials(environ));
        r := Ok(true);
      } else {
        assert o == FileOutcome(environ, files, candidates);
        r := LoadFromFiles();
      }
    }

    /** The file stage of load_configuration(). */
    method LoadFromFiles() returns (r: Result<bool, string>)
      modifies this`environ, this`configLoaded, this`configSource, this`apiCredentials
      ensures var o := FileOutcome(old(environ), files, candidates);
        r == o.result && State() == Applied(o, old(State()))
    {
      var found := FindCandidate(candidates);
      if found.None? {
        return Ok(false);
      }
      var (name, config) := found.value;
      var raised := ExportItems(config);
      if raised.Some? {
        return Err(raised.value);
      }
      Record(name, ToMap(Named(config)));
      return Ok(true);
    }

    /** Records where the configuration came from and its credentials. */
    method Record(source: string, creds: map<string, Json>)
      modifies this`configLoaded, this`configSource, this`apiCredentials
      ensures State() == old(State()).(configLoaded := true, configSource := Some(source), apiCredentials := creds)
    {
      configLoaded := true;
      configSource := Some(source);
      apiCredentials := creds;
    }

    /** The search loop of load_configuration over the candidates `cs`: the
        first existing one whose extracted configuration has a truthy key. */
    method FindCandidate(cs: seq<(string, string)>) returns (found: Option<(string, Items)>)
      ensures var first := FirstYielding(Found(files, cs));
        found == (if first.None? then None
                  else Some((cs[first.value].1, FileItems(files, cs[first.value]).value)))
    {
      ghost var contributions := Found(files, cs);
      var i := 0;
      while i < |cs|
        invariant 0 <= i <= |cs|
        invariant forall j :: 0 <= j < i ==> !Yields(contributions[j])
      {
        var (path, name) := cs[i];
        var config := ReadCandidate(path, name);
        assert config == contributions[i];
        if config.Some? {
          var key := Value(config.value, ApiKey);
          if key.Some? && Truthy(key.value) {
            FirstYieldingAt(contributions, i);
            return Some((name, config.value));
          }
        }
        NoneYieldsYet(contributions, i);
        i := i + 1;
      }
      return None;
    }

    /** One candidate of the search: skipped when the file is missing or its
        suffix is neither YAML nor JSON, otherwise read by its format. */
    method ReadCandidate(path: string, name: string) returns (config: Option<Items>)
      ensures config == FileItems(files, (path, name))
    {
      if path !in files {
        return None;
      }
      if EndsWith(name, ".yaml") || EndsWith(name, ".yml") {
        return Some(YamlConfig(files[path]));
      } else if EndsWith(name, ".json") {
        return Some(JsonConfig(files[path]));
      }
      return None;
    }

    /** The skip-command loop of main(). */
    method NeedsConfig(args: seq<string>) returns (needs: bool)
      ensures needs <==> NeedsConfigSpec(args)
    {
      needs := true;
      var head := args[..Min(2, |args|)];
      var i := 0;
      while i < |SkipCommands|
        invariant 0 <= i <= |SkipCommands|
        invariant forall j :: 0 <= j < i ==> SkipCommands[j] !in head
      {
        if SkipCommands[i] in head {
          needs := false;
          break;
        }
        i := i + 1;
      }
    }

    /** main(): no arguments means `--help`; `status` loads and reports;
        otherwise credentials are looked for, required unless a skip
        command is present, and the CLI runs with the given outcome. */
    method Run(argv: seq<string>, cli: CliOutcome) returns (r: Result<int, string>)
      modifies this
      ensures var args := if argv == [] then ["--help"] else argv;
        var o := LoadOutcome(EnvLines(), old(environ), files, candidates);
        r == MainCode(args, o.result, cli) && environ == o.environ
    {
      var args := argv;
      if args == [] {
        args := ["--help"];
      }
      var loaded := LoadConfiguration();
      if loaded.Err? {
        return Err(loaded.error);
      }
      if args[0] == "status" {
        return Ok(0);
      }
      var needs := NeedsConfig(args);
      if needs && !loaded.value {
        return Ok(1);
      }
      r := RunCliCode(cli);
    }
  }
}
