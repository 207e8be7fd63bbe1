# DomainTools client: a verified model of its rule sets

DomainTools-Client is a Python command-line client for the DomainTools
domain-intelligence API. Around the vendor SDK it adds the following
pieces, and this project models each one and proves properties of it:

- A configuration manager (`ConfigManager`). It merges a YAML file or
  `config.json` with `DOMAINTOOLS_*` environment variables, then
  validates the result.
- A stand-alone wrapper script (`dt-cli.py`). It finds credentials in a
  `.env` file, the environment or the first configuration file that has
  a key. It exports them, masks the key for display, decides whether a
  command needs credentials and maps the CLI's outcome to an exit code.
- The API client (`DomainToolsClient`). It classifies the SDK's
  exceptions into its own error kinds and forwards each endpoint call.
  Its batch of domain profiles has one slot per domain.
- The rich-output formatter (`OutputFormatter`). It covers the data
  tree, value display, result tables, search results, the reputation
  panel and the sections of a domain profile.
- An in-process metrics collector (`MetricsCollector`). It keeps
  counters, gauges, bounded histories and timing statistics, keyed by
  name and labels. The `track_performance` decorator feeds it.
- The `reputation`, `monitor` and `iris` CLI commands. They build
  keyword arguments from flags, band and colour risk scores, cap and
  partition tables, and run a batch loop that survives a failing domain.
- The code-quality script (`check_quality.py`). It applies the pass
  rules of its two tools, counts blank, comment and code lines per file,
  sets the overall score and chooses the exit code.

## How the model is built

**One module per core source file.** They are `Config`, `Wrapper`,
`Client`, `Output`, `Metrics`, `Reputation`, `Monitor`, `Iris` and
`Quality`. Five shared modules support them:

- `Wrappers`: `Option` and `Result`.
- `Text`: strings, and Python's `int()`/`str()` on integers.
- `Json`: one value type for parsed YAML/JSON and vendor replies.
- `Ordering`: string order and sorting.
- `Commands`: the slicing, row loops, notices and flag-built keyword
  arguments that the commands share.

**Classes where the source mutates state.** Objects whose methods update
their fields are classes with `modifies` clauses:
`Config.ConfigManager`, `Wrapper.DomainToolsWrapper`,
`Metrics.MetricsCollector` and `Metrics.PerformanceStats`. Their loops
(the `.env` scan, the candidate search, the export loop, the environment
overlay, the line counting) are `while` loops. Each is proved against a
function that specifies it.

**Dicts keep insertion order.** The collector's stored keys are kept in
Python's insertion order as well as in a map, because `get_all_metrics`
raises the exception of the first failing key in that order.

**Inputs instead of I/O.** The file system, the process environment,
the vendor SDK, subprocess results and clocks are parameters: maps from
path to document, a map of variables, a function from request to reply,
and a duration.

**Exceptions are values.** A Python exception that escapes is an `Err`
holding the exception's class name. An exception caught by a command's
`except` block becomes that command's failure outcome.

**Output is abstract.** Printed output is a value: styled spans, tree
nodes, table rows, or a view datatype per command.

**Code over tests.** Where the repository's tests and its code
disagree, the model follows the code. For example, `_format_value(None)`
shows `None`, not `N/A`.

## Model

| member | source | states |
|---|---|---|
| Client.HandleException | domaintools_client/api/client.py:32-43 | NotAuthorized gives AuthenticationError and BadRequest gives InvalidRequestError (each iff). A ServiceException gives RateLimitError iff its lower-cased message contains "rate limit", else DomainToolsError. Any other exception gives DomainToolsError with "Unexpected error: " prefixed. NotFoundError never results. |
| Client.RateLimitIgnoresCase | domaintools_client/api/client.py:39 | Lower-casing a service exception's message does not change its classification. |
| Client.RateLimitAnyCase | domaintools_client/api/client.py:39-40 | A message containing "rate limit" in any mix of letter case is a RateLimitError. |
| Client.NewClient | domaintools_client/api/client.py:27-30 | Construction succeeds iff the SDK constructor does, and keeps the credentials. A failure is an AuthenticationError "Failed to initialize API client: " + message. |
| Client.Call | domaintools_client/api/client.py:54-58 | The SDK receives the endpoint, query and keyword arguments unchanged. Its data comes back as is; its exception comes back as HandleException classifies it, always a DomainToolsError. |
| Client.BatchDomainProfiles | domaintools_client/api/client.py:293-305 | Exactly one slot per domain, in input order. Slot i is domain i's profile or the error it raised. |
| Client.BatchConcat | domaintools_client/api/client.py:304-305 | The batch over a + b is the batch over a, then the batch over b: a slot depends only on its own domain. |
| Config.AsInt | domaintools_client/config/manager.py:19-20 | An int field accepts an int as itself and rejects None, lists and mappings. |
| Config.Validate | domaintools_client/config/manager.py:13-21 | A missing key or secret fails with the ValueError of load. The defaults are timeout 30, max_retries 3 and output_format "json". A missing or None url gives None. Every given field is taken as given. |
| Config.Dump | domaintools_client/config/manager.py:177 | model_dump has exactly the six fields, and validating it gives the same configuration back. |
| Config.UpdateSetsExactly | domaintools_client/config/manager.py:177-180 | Updating with well-formed values sets exactly those fields and keeps every other field; unknown keys change nothing. |
| Config.ValidateCanonical | domaintools_client/config/manager.py:177-180 | Data holding every field in dumped form validates, and dumping gives the fields back. |
| Config.YamlData | domaintools_client/config/manager.py:81-100 | An unreadable or unparsable file only warns and contributes nothing. Undecodable text is rejected. A falsy document contributes nothing. A truthy one contributes its sections, with the api key and timeout of a mapping's sections. |
| Config.JsonData | domaintools_client/config/manager.py:103-108 | config.json contributes iff it is malformed (nothing) or an object. Top-level non-objects are rejected. |
| Config.ApiSection | domaintools_client/config/manager.py:87-90 | An api section that is a mapping gives exactly key, secret and url, None where absent. Any other value raises AttributeError. |
| Config.SettingsSection | domaintools_client/config/manager.py:93-97 | A settings section that is a mapping gives exactly timeout, max_retries and output_format, defaulting to 30, 3 and "table". Any other value raises AttributeError. |
| Config.YamlSections | domaintools_client/config/manager.py:85-97 | A mapping contributes iff each section present is a mapping; otherwise AttributeError. Any other document raises TypeError or contributes nothing: a list or string raises only when a section name is in it, and other values always raise. |
| Config.YamlSectionsOfMapping | domaintools_client/config/manager.py:85-97 | A mapping contributes exactly the api fields iff it has an api section, and the settings iff it has a settings section, with their values and defaults. |
| Config.EnvKeysDistinct | domaintools_client/config/manager.py:111-118 | The six mappings name six different configuration keys. |
| Config.ApplyEnvOther | domaintools_client/config/manager.py:120-129 | A mapping for another key leaves a key as it was. |
| Config.ApplyEnvUnset | domaintools_client/config/manager.py:120-122 | With none of the variables set, the overlay changes nothing. |
| Config.ApplyEnvAt | domaintools_client/config/manager.py:120-129 | A key's final value is what its own mapping's step makes of the file data. |
| Config.EnvApplied | domaintools_client/config/manager.py:120-129 | The same, for the six mappings of load. |
| Config.EnvOverridesFiles | domaintools_client/config/manager.py:111-129 | When load succeeds, each non-empty variable for key, secret, url or format decides its field. A timeout or max_retries value that int() accepts decides its field. |
| Config.EnvSetsKey | domaintools_client/config/manager.py:112 | A non-empty DOMAINTOOLS_API_KEY is the loaded api_key. |
| Config.EnvSetsSecret | domaintools_client/config/manager.py:113 | A non-empty DOMAINTOOLS_API_SECRET is the loaded api_secret. |
| Config.EnvSetsUrl | domaintools_client/config/manager.py:114 | A non-empty DOMAINTOOLS_API_URL is the loaded api_url. |
| Config.EnvSetsTimeout | domaintools_client/config/manager.py:123-125 | A DOMAINTOOLS_TIMEOUT that int() parses to n gives timeout n. |
| Config.EnvSetsRetries | domaintools_client/config/manager.py:123-125 | A DOMAINTOOLS_MAX_RETRIES that int() parses to n gives max_retries n. |
| Config.EnvSetsFormat | domaintools_client/config/manager.py:117 | A non-empty DOMAINTOOLS_OUTPUT_FORMAT is the loaded output_format. |
| Config.EnvKeepsFileValue | domaintools_client/config/manager.py:122-127 | An empty variable, or a numeric one int() rejects, keeps the file's value for its key. |
| Config.DefaultsWithoutFiles | domaintools_client/config/manager.py:19-21 | With no files and only key and secret in the environment, the result is the model defaults 30, 3 and "json", with no url. |
| Config.ValidateCredentialsOnly | domaintools_client/config/manager.py:16-21 | Data holding only key and secret validates with every other field at its default. |
| Config.YamlExampleData | domaintools_client/config/manager.py:87-98 | An api section with key and secret, plus an empty settings section, yields the credentials, url None and the settings defaults 30, 3 and "table". |
| Config.YamlExampleApi | domaintools_client/config/manager.py:87-90 | The api section's absent url is None. |
| Config.YamlExampleSettings | domaintools_client/config/manager.py:93-98 | An empty settings section yields 30, 3 and "table". |
| Config.YamlSettingsDefaults | domaintools_client/config/manager.py:93-98 | With that YAML file, load gives output format "table" whatever config.json holds: the YAML file hides the JSON file. |
| Config.ResolveWithoutEnv | domaintools_client/config/manager.py:120-135 | Without environment variables, load validates the file data as it is. |
| Config.ValidateExample | domaintools_client/config/manager.py:132-135 | The example data validates to the expected configuration. |
| Config.FirstExisting | domaintools_client/config/manager.py:50-53 | The first existing YAML name in list order, or None iff none exists. |
| Config.IsConfiguredAsWritten | domaintools_client/config/manager.py:204-208 | As written: an error escapes iff load raised something other than ValueError. The answer is true iff load succeeded with non-empty credentials. |
| Config.IsConfiguredRaisesOnListFile | domaintools_client/config/manager.py:103-108 | A config.json holding `[]` makes is_configured raise TypeError, with any environment. |
| Config.Overlay | domaintools_client/config/manager.py:120-129 | The environment loop of load computes the overlay of the mappings in order. |
| Config.ConfigManager.constructor | domaintools_client/config/manager.py:37-57 | The directory defaults to ~/.domaintools, and the JSON file is config.json in it. The YAML file is an explicit, existing config_file, else the first existing YAML name. Nothing is loaded yet. |
| Config.ConfigManager.Load | domaintools_client/config/manager.py:66-137 | Returns what the files, the overlay and validation give. The configuration is stored only on success. |
| Config.ConfigManager.Update | domaintools_client/config/manager.py:162-181 | Loads when nothing is loaded, then validates the current values overwritten by the keyword arguments, and stores the result. |
| Config.ConfigManager.Get | domaintools_client/config/manager.py:183-196 | After loading if nothing is held, a field's value, or the default for a name that is not a field. A failed load is returned as its error. |
| Config.ConfigManager.IsConfigured | domaintools_client/config/manager.py:198-208 | Exactly IsConfiguredAsWritten of what load gives, with the same stored state as load. |
| Config.ConfigManager.IsConfiguredChecked | domaintools_client/config/manager.py:198-208 | As documented: true iff load succeeds with non-empty credentials, false on every failure. |
| Config.ConfigManager.Clear | domaintools_client/config/manager.py:210-214 | config.json is gone from the files and no configuration is held. |
| Wrapper.EnvAssignment | dt-cli.py:68-72 | A line assigns iff its stripped form is non-empty, not a comment and holds `=`. It splits at the first `=`; the key is trimmed; the value is trimmed, then loses `"` and then `'` at its ends. |
| Wrapper.EnvEntry | dt-cli.py:68-78 | A stored entry never has an empty or placeholder value. |
| Wrapper.ScanEnvNext | dt-cli.py:67-79 | Scanning one more line is one more step of the scan. |
| Wrapper.ScanEnvShape | dt-cli.py:78-81 | Every stored variable reached the environment, except the one refused entry. That entry is stored, and its name is illegal or its value holds a NUL. |
| Wrapper.ScanEnvExportsLegal | dt-cli.py:79 | Only entries with a legal name and a NUL-free value reach the environment. |
| Wrapper.ScanEnvStops | dt-cli.py:79-81 | Once the environment refuses an entry (an illegal name, or a value holding NUL), later lines change nothing: the caught ValueError ends the loop. |
| Wrapper.ScanEnvStorable | dt-cli.py:73-78 | No stored value is empty or a placeholder. |
| Wrapper.ScanEnvOverwrites | dt-cli.py:78 | A later line for a key overwrites the earlier value. |
| Wrapper.StripWrapped | dt-cli.py:72 | Stripping a string wrapped in one strip character at each end gives the string. |
| Wrapper.AssignmentOf | dt-cli.py:70-72 | `k=q` with a clean key assigns the cleaned q to k. |
| Wrapper.CleanValueOfClean | dt-cli.py:72 | A clean value is unchanged by the clean-up. |
| Wrapper.CleanValueOfQuoted | dt-cli.py:72 | A double-quoted clean value loses its quotes. |
| Wrapper.EnvLineRoundTrip | dt-cli.py:70-78 | `KEY=value` stores value as KEY, and the value may itself hold `=`. |
| Wrapper.EnvLineDoubleQuoted | dt-cli.py:70-78 | `KEY="value"` stores value without its quotes. |
| Wrapper.Value | dt-cli.py:173 | config.get(name) is the item for that name, or None iff there is none. |
| Wrapper.CredentialItems | dt-cli.py:94-102 | Key and secret are emitted only when truthy and not placeholders, and the URL only when truthy. |
| Wrapper.Member | dt-cli.py:107-111 | `v[k] if k in v` is absent or the value, and never raises on a mapping. |
| Wrapper.Item | dt-cli.py:107-112 | One setting is emitted at most once, as a string when converted with str(). |
| Wrapper.SettingsItems | dt-cli.py:105-112 | For a mapping, each setting present gives one item: timeout and max_retries as str() of the value, output_format as it is. A mapping never raises, and a settings value that is not a mapping yields nothing. |
| Wrapper.Combine | dt-cli.py:92-112 | Credentials followed by settings are well-formed. The key is the credentials' key and each setting is the settings' value. |
| Wrapper.YamlItems | dt-cli.py:90-112 | Only allowed items, each variable at most once. Without an api section there is no key. An api mapping gives its key when truthy and not a placeholder; an api value that is not a mapping gives nothing at all. Otherwise the settings are those of the settings section. |
| Wrapper.JsonItems | dt-cli.py:123-138 | A non-object gives nothing. An object gives its key when truthy and not a placeholder, and each setting present, with timeout and max_retries as strings. |
| Wrapper.YamlConfig | dt-cli.py:84-115 | A file that cannot be read or parsed, or a falsy document, gives nothing. The result is well-formed. |
| Wrapper.JsonConfig | dt-cli.py:117-141 | A file that cannot be read or parsed, or a document that is not an object, gives nothing. An object gives its key and settings as JsonItems states. |
| Wrapper.FileItems | dt-cli.py:164-172 | A candidate contributes iff it exists and its name ends in .yaml, .yml or .json. YAML names are read as YAML and the .json name as JSON. |
| Wrapper.Found | dt-cli.py:164-172 | One contribution per candidate, in search order. |
| Wrapper.FirstYielding | dt-cli.py:164-183 | The first contribution with a truthy key, and none before it has one. None means no candidate has one. |
| Wrapper.FirstYieldingAt | dt-cli.py:173-181 | The search stops at the first candidate whose key is truthy. |
| Wrapper.ExportStops | dt-cli.py:175-176 | A value that is not a string (TypeError) or a string holding NUL (ValueError) ends the export. Later items are not set. |
| Wrapper.ExportCompleteStrings | dt-cli.py:175-176 | A completed export had only NUL-free string values. |
| Wrapper.ExportAllSettable | dt-cli.py:175-176 | An export whose values are all NUL-free strings completes. |
| Wrapper.ExportRaisesAt | dt-cli.py:175-176 | The first value that cannot be set decides the exception: ValueError for a string holding NUL, TypeError for anything else. |
| Wrapper.Named | dt-cli.py:180 | The recorded credentials are the items keyed by variable name. |
| Wrapper.FileKeyIsString | dt-cli.py:173-181 | A file configuration whose export completed holds the key as a non-empty string. |
| Wrapper.LoadedHasKey | dt-cli.py:143-183 | Whichever source wins, the recorded credentials hold a non-empty API-key string. |
| Wrapper.Mask | dt-cli.py:227 | A key of more than 10 characters shows its first 10 plus "..." (13 characters). Any other key shows "***". |
| Wrapper.MaskedKey | dt-cli.py:223-228 | The API-key row appears only when configuration is loaded and a truthy key is recorded. A recorded non-empty string key is always shown, masked by Mask. |
| Wrapper.LoadedKeyShown | dt-cli.py:223-228 | Whatever configuration source wins, show_status shows the recorded key masked. |
| Wrapper.RunCliCode | dt-cli.py:247-260 | Returning gives 0, as does SystemExit(None). SystemExit(n) gives n, a string code gives int() of it, an interrupt gives 130 and any other exception gives 1. |
| Wrapper.ParseIntToStringAll | dt-cli.py:251 | int(str(n)) == n for every integer. |
| Wrapper.DomainToolsWrapper.constructor | dt-cli.py:23-40 | Nothing is loaded, and the candidates are the four project YAML files, then ~/.domaintools/config.json. |
| Wrapper.DomainToolsWrapper.LoadEnvFile | dt-cli.py:61-82 | The stored variables are the scan of the file's lines. The scan stops after the first entry the environment refuses, which is stored but not exported. The environment gains exactly the exported entries. |
| Wrapper.DomainToolsWrapper.StoreLine | dt-cli.py:68-81 | One scan step: an accepted entry is stored and exported. A refused entry (illegal name or NUL in the value) is stored only, and stops the scan. |
| Wrapper.DomainToolsWrapper.ExportItems | dt-cli.py:175-176 | The export loop leaves the environment and the exception that Export specifies. |
| Wrapper.DomainToolsWrapper.LoadConfiguration | dt-cli.py:143-183 | The .env file with a key wins, then DOMAINTOOLS_API_KEY in the environment, then the first candidate file with a key. A file value that is not a string, or that holds NUL, raises out of it and nothing is recorded. The result, the environment and the recorded source and credentials are LoadOutcome's. |
| Wrapper.DomainToolsWrapper.LoadFromFiles | dt-cli.py:163-183 | The file stage: the first candidate whose key is truthy is exported and recorded. A value the environment refuses raises TypeError or ValueError, and nothing is recorded. |
| Wrapper.DomainToolsWrapper.Record | dt-cli.py:178-180 | Sets config_loaded, the source and the credentials, and nothing else. |
| Wrapper.DomainToolsWrapper.FindCandidate | dt-cli.py:164-173 | The search loop finds the first candidate with a truthy key. |
| Wrapper.DomainToolsWrapper.ReadCandidate | dt-cli.py:165-171 | A missing file or an unknown suffix is skipped; any other file is read by its format. |
| Wrapper.DomainToolsWrapper.NeedsConfig | dt-cli.py:282-288 | Credentials are needed iff no skip command is among the first two arguments. |
| Wrapper.DomainToolsWrapper.Run | dt-cli.py:262-302 | No arguments become `--help`; `status` gives 0. A command needing credentials exits 1 when none are found; otherwise the exit code is run_cli's. |
| Output.FormatValue | domaintools_client/formatters/output.py:111-131 | None is dim. A bool is tested before the numbers and shows True or False. Numbers are magenta. A string of at most 100 characters is itself; a longer one is its first 100 plus "...". |
| Output.FormatValueTruncates | domaintools_client/formatters/output.py:127-128 | A long string shows exactly 103 characters, starting with its first 100. |
| Output.BuildTree | domaintools_client/formatters/output.py:79-109 | At depth ≥ max_depth: exactly one "..." node. A mapping gives one node per entry. A list gives min(len, 10) nodes, plus one more iff len > 10. A scalar gives none. |
| Output.EntryNode | domaintools_client/formatters/output.py:94-100 | Each mapping entry is a branch with children iff its value is a non-empty mapping or list. Otherwise it is a leaf with the formatted value. |
| Output.NonEmptyTree | domaintools_client/formatters/output.py:94-109 | A non-empty container always adds at least one node. |
| Output.ItemNode | domaintools_client/formatters/output.py:101-106 | Each of the first 10 list items is a branch under "[i]" holding its own tree iff it is a mapping or list, even an empty one. Any other item is a leaf showing "[i]: " and its formatted value. |
| Output.ListTail | domaintools_client/formatters/output.py:101-109 | A list longer than 10 shows its first 10 items, node i captioned "[i]" in bold blue when item i is a mapping or list and "[i]: value" otherwise, then "... and N more items" with N = len − 10. |
| Output.TreeHeight | domaintools_client/formatters/output.py:90-109 | From depth d, the tree has at most max_depth − d levels of data and one level of "..." below them. |
| Output.DictTreeHeight | domaintools_client/formatters/output.py:94-100 | The height bound, for a mapping. |
| Output.ListTreeHeight | domaintools_client/formatters/output.py:101-109 | The height bound, for a list. |
| Output.HeaderHasNoUnderscore | domaintools_client/formatters/output.py:54 | A column header holds no underscore. |
| Output.RowOf | domaintools_client/formatters/output.py:59-63 | One cell per value of the item, in order. |
| Output.BuildRow | domaintools_client/formatters/output.py:57-64 | A row exists iff the item is a mapping; otherwise AttributeError. |
| Output.BuildColumns | domaintools_client/formatters/output.py:53-54 | One header per key of the first item: underscores become spaces, then title case. |
| Output.BuildRows | domaintools_client/formatters/output.py:57-64 | One row per item, in order, iff every item is a mapping; otherwise AttributeError. |
| Output.FormatTable | domaintools_client/formatters/output.py:38-66 | Empty data gives only "No results found". Otherwise the columns come from the first item and there is one row per item, nested values dumped with indent 2. |
| Output.FirstItem | domaintools_client/formatters/output.py:219-221 | `items[0]` has keys only when the results are a list. |
| Output.FormatSearchResults | domaintools_client/formatters/output.py:199-235 | No "results" key prints only the banner, and falsy results print the notice. A non-empty results list is listed iff its first min(N, 20) items are mappings. The columns are the headers of the first item's keys, with one row per shown item. At most 20 rows are shown, and "Showing 20 of N" appears iff N > 20. |
| Output.RiskLevelOf | domaintools_client/formatters/output.py:247-255 | Low iff the score is below 30, Medium iff 30 ≤ score < 70, High iff the score is at least 70. |
| Output.FormatReputation | domaintools_client/formatters/output.py:237-270 | Succeeds iff the reputation is a mapping with a numeric score (0 when missing) whose risk factors, when present, can be iterated. The domain defaults to "Unknown"; the score is shown in its band's colour; the risk factors appear iff the key is present, one "  • " line per factor. A score that is not a number raises TypeError. |
| Output.MissingScoreIsLow | domaintools_client/formatters/output.py:244-249 | A reputation without a score is in the Low band. |
| Output.FieldRows | domaintools_client/formatters/output.py:154-157 | One row per (label, key): str of get(key, "N/A"). Only a mapping has get. |
| Output.WhoisRows | domaintools_client/formatters/output.py:168-173 | Exactly one row per WHOIS field present in the section, in the order Registrant, Admin, Tech, each showing the value as it is. It fails iff a present value is neither a string nor None. |
| Output.RegistrationSection | domaintools_client/formatters/output.py:148-159 | Succeeds iff "registration" is absent or holds a mapping. The table appears iff the key is present, with its four rows in order, each showing str() of the field's value or "N/A". |
| Output.WhoisSection | domaintools_client/formatters/output.py:162-175 | Succeeds iff "whois" is absent or its rows can be built; for a mapping, iff every present WHOIS field is a string or None. The table appears iff the key is present, with at most three rows, those WhoisRows gives. |
| Output.WebsiteSection | domaintools_client/formatters/output.py:187-197 | Succeeds iff "website" is absent or holds a mapping. The table appears iff the key is present, with its three rows in order, each showing str() of the field's value or "N/A". |
| Output.NameserverLines | domaintools_client/formatters/output.py:178-184 | Succeeds iff `"nameservers" in dns` can be evaluated and, when true, dns is a mapping whose nameservers can be iterated. The lines appear iff dns holds "nameservers", one "  • " line per nameserver. |
| Output.FormatDomainProfile | domaintools_client/formatters/output.py:133-197 | Succeeds iff the profile is a mapping whose "domain" value (when present) is a mapping and every section succeeds. The title is "Domain Profile: " and the inner domain ("Unknown" when absent). Each section is the one its own function gives, and is present iff its key is; the nameserver section needs "dns" holding "nameservers". |
| Metrics.RenderPairs | domaintools_client/logging/metrics.py:217 | One `k=v` piece per label, in order. |
| Metrics.Assign | domaintools_client/logging/metrics.py:229 | `labels[k] = v`: a new key goes last, and an existing key keeps its place and takes v. |
| Metrics.ParsePairs | domaintools_client/logging/metrics.py:226-229 | Parsing succeeds iff every pair holds `=`; otherwise ValueError. The keys come out distinct. |
| Metrics.ParseLabels | domaintools_client/logging/metrics.py:220-230 | None iff the key has no "\|". A malformed pair raises ValueError. |
| Metrics.MakeKeyOrderFree | domaintools_client/logging/metrics.py:212-218 | The key does not depend on the order the labels were given in. |
| Metrics.ParseRenderedPairs | domaintools_client/logging/metrics.py:226-229 | Parsing the rendered pairs of encodable labels gives the labels back. |
| Metrics.SortedEncodable | domaintools_client/logging/metrics.py:217 | Sorting keeps labels encodable. |
| Metrics.RenderedPairsHaveNoComma | domaintools_client/logging/metrics.py:217 | No rendered piece holds a comma, so the join can be split back. |
| Metrics.ParseLabelPart | domaintools_client/logging/metrics.py:225-227 | The labels part of a key splits back into the rendered pieces. |
| Metrics.ParseMakeKey | domaintools_client/logging/metrics.py:212-230 | `_parse_labels(_make_key(n, L))` is L sorted by key (None for no labels), when the name and labels are encodable. |
| Metrics.RebuiltKey | domaintools_client/logging/metrics.py:189 | Rebuilding a stored key fails iff its labels do not parse. |
| Metrics.RebuiltKeyOfMakeKey | domaintools_client/logging/metrics.py:189 | A key made from an encodable name and labels rebuilds to itself. |
| Metrics.Push | domaintools_client/logging/metrics.py:52 | `deque(maxlen).append`: the new value goes last, and the oldest are dropped beyond maxlen. |
| Metrics.Recent | domaintools_client/logging/metrics.py:52 | The last n values: at most n, and at most all of them. |
| Metrics.PushRecent | domaintools_client/logging/metrics.py:52 | A bounded history always holds the most recent max_history values ever appended. |
| Metrics.ValuesOf | domaintools_client/logging/metrics.py:151 | The values of a history, one per entry, in order. |
| Metrics.Median | domaintools_client/logging/metrics.py:161 | The median lies between the least and the greatest value. |
| Metrics.Rank | domaintools_client/logging/metrics.py:235 | The rank k lies in [0, n − 1], and below n − 1 for p < 1 and n ≥ 2. |
| Metrics.PercentileAsWritten | domaintools_client/logging/metrics.py:232-240 | As written: IndexError iff there is at most one value or p = 1. |
| Metrics.PercentileOfOneValueRaises | domaintools_client/logging/metrics.py:236-240 | One recorded value makes the as-written percentile raise IndexError. |
| Metrics.Upper | domaintools_client/logging/metrics.py:237-238 | The corrected upper neighbour is ceil(k): it equals floor(k) iff k is whole, else floor(k) + 1. |
| Metrics.Interpolate | domaintools_client/logging/metrics.py:240 | The interpolation lies between its two neighbours. |
| Metrics.Percentile | domaintools_client/logging/metrics.py:232-240 | The corrected percentile interpolates between floor(k) and ceil(k) of the sorted values. |
| Metrics.InterpolateAsWritten | domaintools_client/logging/metrics.py:240 | Where int(k) + 1 is an index, the as-written formula equals the interpolation. |
| Metrics.PercentileAgrees | domaintools_client/logging/metrics.py:232-240 | With two or more values and p below 1, the as-written and corrected percentiles agree. |
| Metrics.IntendedHistogramStats | domaintools_client/logging/metrics.py:150-165 | Intended: empty iff there are no values. count is the number of values. min and max are values that bound them all, and the median and p90 lie between min and max. |
| Metrics.HistogramStats | domaintools_client/logging/metrics.py:150-165 | As written: IndexError iff there is exactly one value (the p90 percentile reads past the end). Otherwise it gives the intended statistics, None for no values. |
| Metrics.Lowest | domaintools_client/logging/metrics.py:29 | The least duration, or inf iff there is none. |
| Metrics.Highest | domaintools_client/logging/metrics.py:30 | At least 0.0 and every duration, and either 0.0 or a duration. |
| Metrics.StatsOfDurations | domaintools_client/logging/metrics.py:33-39 | After any run of updates: count is the number of durations, total their sum, min the least (inf for none), max the greatest (at least 0.0) and avg their mean. |
| Metrics.PerformanceStats.constructor | domaintools_client/logging/metrics.py:27-31 | The field defaults: 0, 0.0, inf, 0.0, 0.0. |
| Metrics.PerformanceStats.Update | domaintools_client/logging/metrics.py:33-39 | The fields become Updated of the old ones, and the duration is appended to the record. |
| Metrics.SummaryOfDurations | domaintools_client/logging/metrics.py:192-200 | The reported statistics are the count, sum, least (0.0 for none), greatest and mean of the durations. |
| Metrics.KeyStats | domaintools_client/logging/metrics.py:188-191 | A stored key's statistics raise iff the key does not rebuild, or the rebuilt key's history holds exactly one value. The exception is ValueError or IndexError. Otherwise they are the intended statistics of the rebuilt key's history. |
| Metrics.Histograms | domaintools_client/logging/metrics.py:186-191 | The comprehension walks the stored keys in insertion order. On success it has exactly one entry per key: that key's statistics, the intended statistics of its rebuilt key's history. An exception is ValueError or IndexError. |
| Metrics.HistogramsRaiseFirst | domaintools_client/logging/metrics.py:188-191 | When the comprehension raises, some key fails first, with every earlier key succeeding. The exception raised is that key's. |
| Metrics.HistogramsRaise | domaintools_client/logging/metrics.py:188-191 | The comprehension raises iff some stored key's statistics raise. It then raises the exception of the first failing key in insertion order. |
| Metrics.HistogramsOfStored | domaintools_client/logging/metrics.py:188-191 | Over the stored keys, the comprehension raises iff some stored key's statistics raise, with the first failing key's exception; otherwise it holds each stored key's statistics. |
| Metrics.FirstFailingKeyWins | domaintools_client/logging/metrics.py:188-191 | With a key that fails to rebuild and a key with a one-value history, the exception depends on insertion order: IndexError when the one-value key came first, ValueError otherwise. |
| Metrics.OneValueHistoryRaises | domaintools_client/logging/metrics.py:162 | A stored key holding a single recorded value, as one record_counter leaves behind, makes the histograms of get_all_metrics raise. |
| Metrics.MetricsCollector.constructor | domaintools_client/logging/metrics.py:45-56 | All four maps are empty, with the given max_history. |
| Metrics.AppendMatches | domaintools_client/logging/metrics.py:52-71 | Appending to a key keeps the bounded deques equal to the last max_history values of the full histories. The key order gains the key iff it is new. |
| Metrics.MetricsCollector.Append | domaintools_client/logging/metrics.py:52-71 | The key's deque is pushed with the new value (the oldest dropped beyond max_history), the key joins the insertion order if new, and every other map is unchanged. |
| Metrics.MetricsCollector.RecordCounter | domaintools_client/logging/metrics.py:58-71 | The counter grows by value, and its history gains the new running total. A new key joins the insertion order. Gauges and performance are unchanged. |
| Metrics.MetricsCollector.RecordGauge | domaintools_client/logging/metrics.py:73-86 | The gauge becomes value, and its history gains it. Counters and performance are unchanged. |
| Metrics.MetricsCollector.RecordHistogram | domaintools_client/logging/metrics.py:88-100 | The value joins the key's history, and nothing else changes. |
| Metrics.MetricsCollector.RecordPerformance | domaintools_client/logging/metrics.py:102-110 | The operation's statistics take the duration. They are created on first use, and every other operation's are unchanged. |
| Metrics.MetricsCollector.UpdateStats | domaintools_client/logging/metrics.py:110 | A known operation's own statistics object takes the duration. |
| Metrics.MetricsCollector.AddStats | domaintools_client/logging/metrics.py:53 | A new operation gets a fresh statistics object holding the duration. |
| Metrics.MetricsCollector.NewStats | domaintools_client/logging/metrics.py:53 | The statistics of an operation's first call hold exactly its duration. |
| Metrics.MetricsCollector.GetCounter | domaintools_client/logging/metrics.py:112-123 | The key's counter, or 0 for a key never counted. |
| Metrics.MetricsCollector.GetGauge | domaintools_client/logging/metrics.py:125-136 | The key's gauge, or 0.0 for a key never set. |
| Metrics.MetricsCollector.GetHistogramStats | domaintools_client/logging/metrics.py:138-165 | None iff the key's history is empty, and IndexError iff it holds exactly one value. Otherwise the intended statistics of its values. |
| Metrics.MetricsCollector.GetPerformanceStats | domaintools_client/logging/metrics.py:167-176 | Some iff the operation was timed, holding all its durations. |
| Metrics.MetricsCollector.GetAllMetrics | domaintools_client/logging/metrics.py:178-202 | Raises iff some stored key's statistics raise, and then with the exception of the first failing key in insertion order. Otherwise counters and gauges are copied, the histograms are exactly the comprehension over the stored keys (each key's statistics), and performance is every timed operation's summary. |
| Metrics.MetricsCollector.Summaries | domaintools_client/logging/metrics.py:192-201 | One summary per timed operation, of its own statistics. |
| Metrics.MetricsCollector.Reset | domaintools_client/logging/metrics.py:204-210 | All four maps are empty. |
| Metrics.FunctionKeyForm | domaintools_client/logging/metrics.py:269-271 | The key of a metric labelled only with the function is "name\|function=f". |
| Metrics.ErrorKeyForm | domaintools_client/logging/metrics.py:284-287 | An error counter's key lists error_type before function, whatever the dict order. |
| Metrics.ErrorKeyInjective | domaintools_client/logging/metrics.py:284-287 | Two error keys of one function are equal only for the same error type. |
| Metrics.TrackedKeysDiffer | domaintools_client/logging/metrics.py:264-298 | The total, success, error and duration keys of one call are pairwise different. |
| Metrics.TrackedCounts | domaintools_client/logging/metrics.py:264-288 | One tracked call adds 1 to the total. It adds 1 to success iff the call returned, and 1 to an error type's counter iff the call raised that Exception. Every other counter is unchanged. A BaseException outside Exception adds to the total alone. |
| Metrics.CountOne | domaintools_client/logging/metrics.py:68-71 | record_counter with the default increment bumps one counter by 1. Its history gains the new total with the labels, and a new key joins the order. |
| Metrics.CountedHistoriesPushed | domaintools_client/logging/metrics.py:264-288 | After the decorated call's counters, the total's history gains its new total. So does the success counter's iff the call returned, and the raised type's error counter's iff it raised an Exception. Every other history is unchanged, and only those keys are added. |
| Metrics.CountCall | domaintools_client/logging/metrics.py:264-288 | The counters after the decorated call are Tracked of those before, for every outcome including an uncounted BaseException. The histories are those CountedHistoriesPushed describes, and the counted keys join the order. |
| Metrics.TrackPerformance | domaintools_client/logging/metrics.py:262-298 | On every exit, including a BaseException outside Exception, the counters and their histories follow the decorated call. The duration then joins its histogram after them and joins the operation's timings. Gauges are unchanged. |
| Metrics.FreshTrackedTotal | domaintools_client/logging/metrics.py:267-271 | On a fresh collector, one tracked call leaves the total counter as the first stored key, with a one-value history. |
| Metrics.OneTrackedCallRaises | domaintools_client/logging/metrics.py:262-298 | On a fresh collector with max_history at least 1, a single tracked call, whatever its outcome, makes get_all_metrics raise IndexError, provided the total's key parses back into its name and labels. |
| Commands.Slice | domaintools_client/cli/commands/monitor.py:69 | `v[:n]` succeeds iff v is a list or a string, with at most n items; otherwise TypeError. |
| Commands.Len | domaintools_client/cli/commands/iris.py:87 | len(v) exists iff v is a container or a string. |
| Commands.Cut | domaintools_client/cli/commands/monitor.py:81 | A string cell cut to n is a prefix of at most n characters. A list is not renderable, and anything else cannot be sliced. |
| Commands.Cell | domaintools_client/cli/commands/monitor.py:79 | rich accepts a string or None as a cell, and nothing else. |
| Commands.RowsShape | domaintools_client/cli/commands/monitor.py:69-83 | The table loop succeeds iff every item's row does, giving one row per item in order. |
| Commands.RowsFirstError | domaintools_client/cli/commands/iris.py:230-239 | A failing loop raises the exception of the first failing item. |
| Commands.RowsConcat | domaintools_client/cli/commands/monitor.py:69-83 | The rows of two runs of items are the rows of each run in turn. |
| Commands.AddRows | domaintools_client/cli/commands/monitor.py:156-165 | The row loop computes Rows. |
| Commands.RowsPrefixError | domaintools_client/cli/commands/iris.py:230-239 | A failing prefix decides the loop's exception. |
| Commands.RowsOfSlice | domaintools_client/cli/commands/monitor.py:69 | A loop over `items[:limit]` adds min(limit, len) rows. |
| Commands.EachAt | domaintools_client/cli/commands/iris.py:95-96 | A printing loop gives one line per item, in order. |
| Commands.ShowingNotice | domaintools_client/cli/commands/monitor.py:95-96 | "Showing L of N total …" appears iff N > L. |
| Commands.SetFlags | domaintools_client/cli/commands/iris.py:41-45 | The keyword arguments hold exactly the flags that are set, each as True. |
| Reputation.CheckKwargs | domaintools_client/cli/commands/reputation.py:40-42 | include_reasons is present iff its flag is set, and is True. |
| Reputation.CheckBand | domaintools_client/cli/commands/reputation.py:59-70 | LOW RISK iff the score is below 30, MEDIUM RISK iff 30 ≤ score < 70, HIGH RISK iff the score is at least 70. |
| Reputation.CheckBandMatchesFormatter | domaintools_client/cli/commands/reputation.py:59-70 | check colours a score as format_reputation does. |
| Reputation.BarCells | domaintools_client/cli/commands/reputation.py:73-75 | For 0 ≤ score ≤ 100 the bar is 50 characters. Cell i is filled iff 2(i + 1) ≤ score, so floor(score/2) cells are filled. |
| Reputation.BarOverflows | domaintools_client/cli/commands/reputation.py:73-75 | A score of 102 or more draws more than 50 filled cells and no empty ones. |
| Reputation.BarUnderflows | domaintools_client/cli/commands/reputation.py:73-75 | A score of −2 or less draws more than 50 empty cells. |
| Reputation.RiskPanel | domaintools_client/cli/commands/reputation.py:55-83 | The panel appears iff "risk_score" is present, with the band and bar of the score. A number always renders, and a non-number raises TypeError. |
| Reputation.BatchLevel | domaintools_client/cli/commands/reputation.py:171-173 | High iff the score is at least 70, Medium iff 30 ≤ score < 70, Low iff the score is below 30. |
| Reputation.BatchLevelMatchesFormatter | domaintools_client/cli/commands/reputation.py:171-173 | The batch levels have format_reputation's boundaries. |
| Reputation.JoinStrings | domaintools_client/cli/commands/reputation.py:175 | `", ".join(v)` succeeds iff v is iterable and holds only strings, and is then their texts separated by ", "; otherwise TypeError. |
| Reputation.JoinStringsTwo | domaintools_client/cli/commands/reputation.py:175 | Two categories are shown as "a, b". |
| Reputation.JoinStringsOfText | domaintools_client/cli/commands/reputation.py:175 | A categories value that is one string is joined character by character. |
| Reputation.Assess | domaintools_client/cli/commands/reputation.py:164-182 | The record built from a reply, or the message of the exception: the client's error, AttributeError, or TypeError. A mapping reply with a numeric score (0 when missing) whose categories, when present, can be joined always succeeds. The categories are the ", " join of the value, or "N/A" without the key. |
| Reputation.RecordOf | domaintools_client/cli/commands/reputation.py:164-192 | The record for a domain has that domain, and its level is "Error" iff the check raised. |
| Reputation.BatchCheck | domaintools_client/cli/commands/reputation.py:157-192 | The loop's results are Results and its alert list is HighRisk. |
| Reputation.ResultsPerDomain | domaintools_client/cli/commands/reputation.py:161-192 | Exactly one record per domain, in order, each built from that domain's own reply. |
| Reputation.FailedDomainRecord | domaintools_client/cli/commands/reputation.py:184-192 | A failing domain gets score "Error", level "Error" and the message as categories. |
| Reputation.MissingScoreIsLow | domaintools_client/cli/commands/reputation.py:166-176 | A reply without score or categories is a Low record with score 0 and categories "N/A". |
| Reputation.Above | domaintools_client/cli/commands/reputation.py:181-182 | The records that reach the threshold, in order, never more than the records. |
| Reputation.HighRiskIsAbove | domaintools_client/cli/commands/reputation.py:181-182 | The alert list is exactly the ordered subsequence of the results that reach the threshold. Error records never do. |
| Reputation.AboveConcat | domaintools_client/cli/commands/reputation.py:181-182 | Filtering distributes over concatenation. |
| Reputation.AboveMembers | domaintools_client/cli/commands/reputation.py:181-182 | A record is alerted iff it is a result and reaches the threshold. |
| Reputation.AboveNested | domaintools_client/cli/commands/reputation.py:181-182 | Raising the threshold only filters the alert list further. |
| Reputation.DisplayRowOf | domaintools_client/cli/commands/reputation.py:203-221 | Score and level in the level's colour, and categories cut to at most 50 characters, as a prefix. |
| Reputation.DisplayColour | domaintools_client/cli/commands/reputation.py:207-219 | A successful record is coloured as format_reputation colours its score; an error record is dim. |
| Reputation.HighRiskWarning | domaintools_client/cli/commands/reputation.py:227-232 | The warning appears iff some domain reached the threshold, with their count and each domain and score. |
| Monitor.MonitorKwargs | domaintools_client/cli/commands/monitor.py:131 | Exactly days_back and limit, in that order. |
| Monitor.BrandKwargs | domaintools_client/cli/commands/monitor.py:42-44 | days_back and limit always; include_deleted iff its flag is set, as True. |
| Monitor.BrandColour | domaintools_client/cli/commands/monitor.py:70-76 | Red iff the score is at least 70, yellow iff 40 ≤ score < 70, green iff the score is below 40. |
| Monitor.BrandRowOf | domaintools_client/cli/commands/monitor.py:69-83 | A mapping gives a row iff its score (0 when missing) is a number, its domain is a string or None and its registrar a string. The score is shown in its colour, the domain as it is, and the registrar as its first 30 characters. A non-mapping raises AttributeError and a non-number TypeError. |
| Monitor.ScoreOf | domaintools_client/cli/commands/monitor.py:89 | `d.get("risk_score", 0)` as a number, iff the item is a mapping and the value is a number. |
| Monitor.CountAtLeast | domaintools_client/cli/commands/monitor.py:89 | The count of scores reaching a bound is at most their number. |
| Monitor.HighRiskCount | domaintools_client/cli/commands/monitor.py:89 | The high-risk count over all domains, at most their number. |
| Monitor.RedRowsCount | domaintools_client/cli/commands/monitor.py:70-76 | Rows red exactly where the scores reach 70 are as many as those scores. |
| Monitor.HighRiskCountIsRedRows | domaintools_client/cli/commands/monitor.py:69-89 | The high-risk count equals the number of red rows the table would have if it showed every domain. |
| Monitor.Brand | domaintools_client/cli/commands/monitor.py:57-100 | No "domains" gives the no-results notice and a falsy list the all-clear. A table has the Rows of `domains[:limit]`, the total, the high-risk count, and a notice iff total > limit. |
| Monitor.RegistrantRowOf | domaintools_client/cli/commands/monitor.py:156-165 | A row exists iff the item is a mapping with a renderable domain and a string registrar. status defaults to "active" and is green iff it equals "active", red otherwise. The domain is shown as it is, created as str(), and the registrar as its first 30 characters. |
| Monitor.MissingStatusIsActive | domaintools_client/cli/commands/monitor.py:157-158 | A domain without a status shows a green "active". |
| Monitor.Registrant | domaintools_client/cli/commands/monitor.py:144-175 | The notices, or the Rows of `domains[:limit]` with a "Showing" notice iff total > limit. |
| Monitor.IsNew | domaintools_client/cli/commands/monitor.py:224 | `d.get("is_new", False)` exists iff d is a mapping. |
| Monitor.Pick | domaintools_client/cli/commands/monitor.py:224-225 | The items whose flag is the wanted one, in order. |
| Monitor.PickMember | domaintools_client/cli/commands/monitor.py:224-225 | A picked item came with the wanted flag. |
| Monitor.PickPartition | domaintools_client/cli/commands/monitor.py:224-225 | Picking both ways splits the items as a multiset, and the sizes sum to the total. |
| Monitor.PickConcat | domaintools_client/cli/commands/monitor.py:224-225 | Picking is order-preserving over concatenation. |
| Monitor.Select | domaintools_client/cli/commands/monitor.py:224-225 | The comprehension succeeds iff every domain is a mapping. |
| Monitor.SelectWanted | domaintools_client/cli/commands/monitor.py:224-225 | Every new domain has a true is_new, and every existing one a false one. |
| Monitor.SelectPartition | domaintools_client/cli/commands/monitor.py:224-225 | The new and existing lists hold every domain, each as often as it occurs, and their sizes sum to the total. |
| Monitor.SelectDisjoint | domaintools_client/cli/commands/monitor.py:224-225 | No domain is in both lists. |
| Monitor.SelectConcat | domaintools_client/cli/commands/monitor.py:224-225 | Each list keeps the domains in their original order. |
| Monitor.NewRowOf | domaintools_client/cli/commands/monitor.py:237-241 | A mapping gives a row iff its domain is a string or None and its registrar a string; a non-mapping raises AttributeError. The row shows the domain as it is, first_seen, and the registrar's first 30 characters. |
| Monitor.ExistingRowOf | domaintools_client/cli/commands/monitor.py:256-260 | An existing domain's row exists iff the item is a mapping with a renderable domain. It shows the domain as it is, first_seen and last_seen. |
| Monitor.Nameserver | domaintools_client/cli/commands/monitor.py:219-272 | A new table iff there are new domains, with `new[:limit//2]`. An existing table iff there are existing ones and limit > len(new), with `existing[:limit − len(new)]`. The three counts. An iterable domains list whose partitions and rows render always succeeds, and a non-iterable one raises TypeError. |
| Monitor.NameserverShowsAtMostLimit | domaintools_client/cli/commands/monitor.py:236-268 | new + existing = total. For a limit ≥ 0, the two tables together show at most limit rows. |
| Iris.InvestigateKwargs | domaintools_client/cli/commands/iris.py:41-45 | include_whois and include_dns are present iff their flags are set, each True. |
| Iris.EnrichKwargs | domaintools_client/cli/commands/iris.py:132 | data_type is present iff it is not "all". |
| Iris.DetectKwargs | domaintools_client/cli/commands/iris.py:204 | Exactly days_back, risk_score_threshold and limit, under those names and with those values. |
| Iris.CallsForward | domaintools_client/cli/commands/iris.py:48 | The three commands' calls succeed iff the SDK does on the unchanged keyword arguments. |
| Iris.ScoreColour | domaintools_client/cli/commands/iris.py:59-67 | Green iff the score is below 30, yellow iff 30 ≤ score < 70, red iff the score is at least 70. |
| Iris.ScoreColourMatchesFormatter | domaintools_client/cli/commands/iris.py:61-66 | The investigate colour is format_reputation's band colour. |
| Iris.ConnectedLine | domaintools_client/cli/commands/iris.py:83-85 | A connected domain's line exists iff it is a mapping, showing domain and score with "N/A" defaults. |
| Iris.ScoreLine | domaintools_client/cli/commands/iris.py:59-67 | The score line appears iff "risk_score" is present, in its colour. A present score that is not a number raises TypeError, and a number always renders. |
| Iris.InfrastructureLines | domaintools_client/cli/commands/iris.py:70-75 | For a result mapping, the three counts appear iff "infrastructure" is present. A value that is not a mapping raises AttributeError. Each count is str() of its value, "0" when absent. |
| Iris.Threats | domaintools_client/cli/commands/iris.py:91-96 | An absent or falsy list shows nothing. A truthy one renders iff it is iterable, with one "⚠ " line per threat indicator with str() of it, in order. Otherwise TypeError. |
| Iris.ConnectedSection | domaintools_client/cli/commands/iris.py:78-88 | Nothing for an absent or falsy value. Otherwise it renders iff `connected[:10]` slices and each of its lines renders. At most 10 lines, those of `connected[:10]`. "... and N more" with N = len − 10 iff len > 10. |
| Iris.Investigate | domaintools_client/cli/commands/iris.py:58-96 | The score, infrastructure and threat sections are their functions' results. The connected section appears iff connected_domains is present and truthy, capped at 10 lines with the "more" count. It succeeds iff every section renders. |
| Iris.DetectColour | domaintools_client/cli/commands/iris.py:231-232 | Red iff the score is at least 80, else yellow. |
| Iris.DetectRowOf | domaintools_client/cli/commands/iris.py:230-239 | A row exists iff the item is a mapping whose score is a number (0 when missing) and whose domain ("N/A") and threat type ("Unknown") are valid cells. The row holds those cells, and the score in its colour. A non-mapping raises AttributeError. |
| Iris.Detect | domaintools_client/cli/commands/iris.py:218-249 | The notices. Otherwise the Rows of `domains[:limit]`, the total, and "Showing L of N detected threats" iff N > L. |
| Quality.RunCommand | check_quality.py:16-24 | Exit code 0 iff the tool ran and exited 0. A tool that ran passes its output on. One that could not be started gives a non-zero code, no stdout and the exception's text as stderr. |
| Quality.PassRules | check_quality.py:36 | Bandit passes iff stderr contains "No issues identified" or the exit code is 0. Ruff passes iff the exit code is 0 and stdout contains "All checks passed". |
| Quality.LaunchFailureFails | check_quality.py:23-24 | A tool that cannot be started never passes Ruff. It passes Bandit only when the exception's own text holds Bandit's marker. |
| Quality.ToolScore | check_quality.py:158-167 | "100%" iff the tool passed, else "0%". |
| Quality.OverallScore | check_quality.py:168-172 | 100 iff both pass, 50 iff exactly one passes, and 0 iff neither passes. |
| Quality.Status | check_quality.py:161 | Green "✅ PASSED" iff passed, else red "❌ FAILED". |
| Quality.ScoreRows | check_quality.py:158-172 | The rows are Security, Code Quality and Overall. A tool row scores 100% iff its tool passed. Overall is 100% iff both tool rows are, and 50% iff exactly one is. Every row is green iff its score is 100%. |
| Quality.Headline | check_quality.py:110-129 | "✅ CODE QUALITY: 100%" in green iff both pass, else "❌ QUALITY CHECKS FAILED" in red. |
| Quality.OverallGreenIffBothGreen | check_quality.py:168-172 | The Overall row is green iff both tools' rows are. |
| Quality.StripFirst | check_quality.py:93 | The stripped line is empty iff every character is whitespace. Otherwise it starts with the first non-blank character. |
| Quality.Classify | check_quality.py:92-99 | Blank iff every character is whitespace. Comment iff the first non-blank character is `#`. Otherwise code. |
| Quality.Kept | check_quality.py:82-83 | A path is kept iff it was given and does not contain "venv". |
| Quality.KeptConcat | check_quality.py:82-83 | Filtering a joined list keeps each part's survivors, in order. |
| Quality.KeptCounts | check_quality.py:82-83 | A kept path appears as often as it was given, and a path containing "venv" not at all. |
| Quality.TallyAllGrows | check_quality.py:90-99 | blank + comment + code grows by exactly the number of lines; the file count and the total are unchanged. |
| Quality.Step | check_quality.py:87-102 | A read file adds its lines and an unreadable file adds a warning. A file that does not decode raises UnicodeDecodeError, and after an error nothing changes. |
| Quality.RunFailsIffUndecodable | check_quality.py:86-102 | The count fails iff some file does not decode, with UnicodeDecodeError. |
| Quality.RunBalanced | check_quality.py:86-102 | Every count keeps total = blank + comment + code. |
| Quality.CodeStatsSound | check_quality.py:64-104 | python_files is the number of kept paths and total_lines the lines of the files read, and the buckets add up to the total. |
| Quality.WarningsListUnopened | check_quality.py:100-102 | The warnings are those of the unreadable files, in order. |
| Quality.RunStep | check_quality.py:86-102 | One more file is one more Step. |
| Quality.FailureIsFinal | check_quality.py:86-102 | After UnicodeDecodeError the remaining files change nothing. |
| Quality.CountLines | check_quality.py:92-99 | The line loop computes TallyAll. |
| Quality.CountFile | check_quality.py:87-102 | One body of the file loop is one Step. |
| Quality.GetCodeStats | check_quality.py:64-104 | The statistics and warnings are CodeStats of the paths. |
| Quality.ExitCode | check_quality.py:199 | 0 iff both checks pass, otherwise 1. |
| Quality.Main | check_quality.py:177-199 | A tool whose `--version` fails stops the run, bandit checked first. Otherwise both checks and the statistics are reported. |
| Quality.ExitZeroIffFullScore | check_quality.py:168-199 | The exit code is 0 iff the overall score is 100. |
| Quality.UnstartableToolIsMissing | check_quality.py:182-188 | A tool that cannot be started is reported as not installed. |

## Left out

- Vendor SDK: the SDK, its responses and its exception classes are a
  parameter (`Client.Sdk`) and an input datatype.
- Concurrency: `asyncio.gather` in `batch_domain_profiles` and the lock
  in the metrics collector are modelled sequentially.
- Rendering: rich panels, tables, trees, status spinners and colours are
  abstract spans, rows and nodes. The emoji and header lines of the
  commands are not modelled.
- Output dispatch: the raw/json/tree output modes of every command and
  `format_json`/`format_tree` are not modelled, nor CSV export in
  `batch_check`.
- Reputation `check` display: the risk-factor, threat-indicator,
  category, reason and recommendation sections are not modelled
  (reputation.py:85-132).
- Iris `enrich` display: the enrich display is not modelled
  (iris.py:146-172); only its keyword arguments are.
- Credential guard: the `if not client` guard of every command and its
  `sys.exit(1)` are click wiring.
- Partial output: text a command prints before an exception is not kept.
  The outcome is the exception.
- File I/O, parsing and validation: opening files, `mkdir`, `chmod`,
  `unlink`, `load_dotenv`, YAML/JSON parsing and pydantic coercion are
  inputs or simplified. Documents are given already parsed. An int field
  accepts ints, bools, whole floats and integer strings. `SecretStr` is a
  plain string. `save` is outside this model.
- Exception messages: they are modelled by exception name.
  `_handle_exception` keeps `str(e)`.
- Metrics time: timestamps of recorded values are dropped (MetricValue
  keeps the value and labels), and `time.time()` durations are an input.
- Metrics.MetricsCollector.constructor: takes max_history as a natural
  number. A negative maxlen raises only when a deque is created, and that
  case is not modelled.
- Metrics.MetricsCollector.GetPerformanceStats: returns the shared
  statistics object. Aliasing through the returned object is captured
  only by the object identity in the map.
- Module-level metrics helpers: `get_metrics_collector`,
  `increment_counter`, `set_gauge` and `observe_histogram` forward to a
  global collector. They are the Record methods on a given collector.
- Wrapper.MaskedKey: a truthy key that is not a string (a number, a list)
  shows no row. Python would take `len()` of it and slice it, raising for
  a number. The loaded credentials' key is always a string here
  (Wrapper.LoadedKeyShown), so show_status never meets one.
- Output.FormatReputation: compares the score as a real number. Python
  compares int and float exactly; strings and other types raise TypeError
  in both.
- Reputation.BarCells: a real score's product `50 * score / 100` is
  computed exactly. Float rounding in the bar is not modelled.
- Metrics.HistogramStats: statistics.mean and median are exact on reals.
  Float rounding is not modelled, and it states bounds, not exact values,
  for p95 and p99.
- Text.ParseInt: Python's `int()` is modelled on optional surrounding
  whitespace, a sign and ASCII digits. Underscores and non-ASCII digits
  are not modelled.
- Text helpers: `lower`, `title` and `strip` follow ASCII rules. `repr` of
  a string inside a container uses single quotes without escaping.
- Output.BuildTree: returns the children it would add instead of
  appending them to a mutable rich Tree.
- Quality.GetCodeStats: the glob expansion of the three patterns is an
  input (the list of paths), and `readlines()` splitting is an input
  (each file's lines).
- Config.ConfigManager.Get: for a name that is an attribute of the
  settings class itself (`model_dump`, `model_fields`, `json`, …)
  `getattr` returns that attribute. Methods are not values here, so the
  model gives the default for every name that is not one of the six
  fields.
- Json objects: an object is a list of entries that may repeat a key,
  which a parsed document cannot. Lookups take the first entry, and no
  distinct-keys condition is placed on inputs.
- Statistics table: the thousands separators and the code density
  percentage of `display_results` are not modelled.

## Findings

| source | as written | input that shows it | evidently intended | confidence | as-written member | corrected member |
|---|---|---|---|---|---|---|
| domaintools_client/logging/metrics.py:232-240 | `_percentile` always reads `sorted_values[int(k) + 1]`, so the `f == c` branch can never run | a history with one value: `record_histogram("x", 1.0)` then `get_histogram_stats("x")` raises IndexError, and so does `get_all_metrics()` after a single `record_counter("x")` (the same happens for p = 1) | the upper neighbour is ceil(k), so one value gives that value | not executed | Metrics.PercentileOfOneValueRaises | Metrics.PercentileAgrees |
| domaintools_client/config/manager.py:103-108 | `config_data = json.load(f)` accepts any JSON value, and `is_configured` catches only ValueError and ValidationError | a config.json holding `[]`: load raises TypeError when it stores the environment values into the list or unpacks it, and is_configured raises instead of returning False | is_configured answers False for any configuration that does not load | not executed | Config.IsConfiguredRaisesOnListFile | Config.ConfigManager.IsConfiguredChecked |
