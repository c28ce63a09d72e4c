# Verified model of the AWS automation tools configuration editor

The repository keeps one JSON file with a default `region`, a table
`account_ids` that maps aliases to AWS account IDs, and a table `kms_keys` that
maps aliases to KMS key ARNs. There are two ways to read it:

- `setup.py` is the interactive editor. Its `load_config` is lenient. It starts
  from `{}` when the file is missing or is not valid JSON, then fills in any
  missing top-level key with `setdefault`. Its editors `set_region`,
  `add_account` and `add_kms_key` trim what the user types and write into the
  configuration dictionary in place.
- `source/libs/load_config.py` is the strict reader used by other tools. It
  turns a missing file, invalid JSON and a missing `account_ids` or `region`
  into three distinct errors, and otherwise returns the parsed object
  unchanged.

The model is split into five modules:

- `Json` (json.dfy) holds JSON values and `ParseResult`. `ParseResult` stands in
  for `os.path.exists`/`open` plus `json.load`: there is no file, the file is not
  JSON, or it parsed to an object.
- `Schema` (schema.dfy) holds the three key names and the shape predicates
  `Populated`, `HasTable` and `WellFormed`.
- `Text` (text.dfy) holds `Trim`, which is `str.strip()`. Like CPython's
  implementation, it scans forward past leading whitespace (`SkipSpace`), then
  backward past trailing whitespace (`SkipSpaceBack`), and takes the slice in
  between. `IsSpace` is the exact set of characters for which Python's
  `str.isspace` holds.
- `Setup` (setup.dfy, modelling setup.py) holds the lenient load and the editors. The dictionary is
  the class `Config` with a map field `entries`. `load_config` is its
  constructor `Load`, and each editor is a method that `modifies` the object.
  Each method's postcondition ties the new map and the reported `Outcome`
  (`Set`, `Skipped`, `AliasEmpty`, standing for the printed messages) to a
  specification function (`Defaulted`, `RegionEdit`, `EntryEdit`). The
  properties are proved about those functions.
- `ConfigReader` (config_reader.dfy, modelling source/libs/load_config.py) holds the strict loader as a function that
  returns a `Result`, plus lemmas that relate it to the lenient loader.

A user's answer to an `input()` prompt becomes a method parameter. When the
alias is blank, `add_account` and `add_kms_key` do not ask for the second
answer. The model then ignores the second parameter.

The KeyError message of the strict loader names the keys `'accounts'` and
`'region'`, but the code looks up `account_ids` and `region`. The model follows
the lookup. The message text is not modelled.

## Model

| member | source | states |
|---|---|---|
| Text.SkipSpace | setup.py:42 | the forward scan of `strip()` stops at the first non-whitespace position at or after its start, or at the end; everything it passes is whitespace |
| Text.SkipSpaceBack | setup.py:42 | the backward scan of `strip()` stops just after the last non-whitespace character above its lower bound; everything it passes is whitespace |
| Text.Trim | setup.py:42 | `strip()` leaves no whitespace at either end and is empty exactly when the input is all whitespace |
| Text.TrimRemovesOnlyPadding | setup.py:42 | the input is its leading whitespace, then the trimmed string, then its trailing whitespace |
| Text.TrimOfPadded | setup.py:42 | any string with no whitespace at its ends, padded with whitespace, trims back to itself, so Trim is determined by its contract |
| Text.TrimsTo | setup.py:42 | a string of spaces, a core with no whitespace at its ends, and more spaces trims to the core |
| Text.TrimIdempotent | setup.py:42 | trimming an already trimmed alias or value changes nothing |
| Setup.WithDefault | setup.py:23-25 | `setdefault` adds the key only when it is absent and keeps every present key's value, falsy or not |
| Setup.Defaulted | setup.py:22-25 | after defaulting, all three keys are present, every key of the parsed object keeps its value, and only the missing top-level keys are added, with `""`, `{}` and `{}` |
| Setup.LoadWithoutUsableFile | setup.py:14-20 | a missing file and invalid JSON both load as exactly `{"region": "", "account_ids": {}, "kms_keys": {}}` |
| Setup.DefaultedKeepsPopulated | setup.py:23-25 | a configuration that already has all three keys loads unchanged |
| Setup.DefaultedIdempotent | setup.py:23-25 | defaulting twice is the same as defaulting once |
| Setup.DefaultedWellFormed | setup.py:23-25 | the loaded configuration has both alias tables as objects exactly when each table present in the file is an object |
| Setup.RegionEdit | setup.py:42-47 | a blank answer is skipped and changes nothing; otherwise `region` becomes the trimmed answer and no other key changes; the region editor never reports an alias error |
| Setup.Put | setup.py:59 | the nested assignment `config[table][alias] = value` maps the alias to the value, replacing any old value, and leaves every other alias and every other top-level key unchanged |
| Setup.EntryEdit | setup.py:53-77 | a blank alias is the alias error and changes nothing; a blank value is a skip, distinct from the error, and changes nothing; otherwise it is `Put` of the trimmed alias and the trimmed value into that table |
| Setup.PutTwice | setup.py:59 | putting an alias twice leaves the table as putting only the second value |
| Setup.LastWriteWins | setup.py:58-59 | adding alias A with one value and then A again with another ends in the same configuration and outcome as adding only the second |
| Setup.BlankRegionSession | setup.py:42-47 | answering the region prompt with `"  "` is a skip and keeps the configuration, including its region |
| Setup.AddAccountSession | setup.py:53-62 | on a fresh configuration, alias `""` with ID `"123"` is the alias error and changes nothing; alias `" PROD "` with ID `""` is a skip and changes nothing; `PROD` with `999` and then `PROD` with `" 888"` leaves `account_ids` as exactly `{"PROD": "888"}` |
| Setup.PutDistinctTablesCommute | setup.py:59-74 | writes into two different tables give the same configuration in either order |
| Setup.AccountAndKeyEditsCommute | setup.py:59-74 | an account edit and a KMS key edit give the same configuration in either order |
| Setup.Config.Load | setup.py:9-27 | `load_config` starts from the parsed object, or from `{}` when there is no usable file, and ends with `Defaulted` of it |
| Setup.Config.SetDefault | setup.py:23-25 | the map becomes `WithDefault` of the old map, and the returned value is the one now stored under the key |
| Setup.Config.SetRegion | setup.py:38-47 | the new map and the outcome are those of `RegionEdit` on the old map |
| Setup.Config.AddAccount | setup.py:49-62 | the new map and the outcome are those of `EntryEdit` on `account_ids`; it needs `account_ids` to be an object only when the write is reached |
| Setup.Config.AddKmsKey | setup.py:64-77 | the new map and the outcome are those of `EntryEdit` on `kms_keys`; it needs `kms_keys` to be an object only when the write is reached |
| ConfigReader.Load | source/libs/load_config.py:6-22 | a missing file is FileNotFound, invalid JSON is InvalidJson, an object without `account_ids` or `region` is MissingRequiredKeys, and success returns the parsed object exactly; it never succeeds without both required keys |
| ConfigReader.KmsKeysNotRequired | source/libs/load_config.py:18 | an object with `region` and `account_ids` but no `kms_keys` loads successfully |
| ConfigReader.AcceptsLenientResult | source/libs/load_config.py:18-22 | every configuration the setup tool loads passes the strict loader unchanged |
| ConfigReader.LenientAddsAtMostKmsKeys | source/libs/load_config.py:18-22 | where the strict loader succeeds, the lenient loader returns the same object, plus an empty `kms_keys` if it was absent |
| ConfigReader.LenientRecoversWhereStrictFails | source/libs/load_config.py:10-19 | where the strict loader fails, the lenient loader still gives all three keys: the all-defaults configuration after a parse failure, and a strictly larger key set after a missing-key failure |

## Left out

- File I/O is not modelled: `os.path.exists`, `open`, `json.load`, `os.makedirs` and `json.dump` with four-space indentation (setup.py:15-18, 29-36, source/libs/load_config.py:11-12). These are library calls. The loaders take their outcome as a `ParseResult` instead. So `save_config` is not modelled, and neither is the save-then-load JSON round trip. `DefaultedKeepsPopulated` states the part of that round trip that belongs to the model: reloading a saved configuration adds nothing.
- Other I/O errors are not modelled, such as a file that exists but cannot be opened or decoded (OSError, UnicodeDecodeError). They propagate out of both loaders as exceptions.
- File paths are not modelled: `CONFIG_DIR`, `CONFIG_FILE` and `expanduser`. The strict reader names its file with a literal, unexpanded `~`. That only affects which `ParseResult` it sees, so the path stays opaque.
- A top-level JSON value that is not an object is out of scope: `Parsed` always carries an object. In `setup.py` such a value makes `setdefault` raise. In the strict reader the `in` test would apply to a list or string instead.
- Setup.Config.AddAccount and Setup.Config.AddKmsKey require their table to be an object when the write happens. If it is not, Python raises TypeError, and that crash is not modelled. `DefaultedWellFormed` shows exactly when a loaded configuration meets these preconditions.
- Messages are not modelled. `print` and `logging.debug` output becomes the `Outcome` tags, or is dropped. This includes the warning `load_config` prints on invalid JSON, which has no other effect.
- The interactive menu loop `main` (setup.py:79-105) is not modelled. It is a driver that calls the modelled editors in the order the user picks.
- JSON numbers are modelled as integers. Floats never appear in the configuration and are not modelled.
- Nested tables are modelled as values inside the map, not as shared objects. Dictionaries produced by `json.load` share no sub-objects, so there is no aliasing for an in-place write to expose.
