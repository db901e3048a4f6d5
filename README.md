# tg8chan configuration loader, modelled in Dafny

tg8chan is a Telegram bot. Its configuration holds credentials, file paths, and posting and media thresholds. `src/config.rs` loads it in a fixed order:

1. The `.env` file, which dotenvy merges into the process environment.
2. If that fails, the JSON snapshot `config/config.json`.
3. If that fails too, it overwrites `.env` with a built-in template and loads the environment once more. If this step fails, the process aborts.

`src/bot.rs` takes the bot's name and API credentials from the result.

The model has five files:

- `wrappers.dfy` (module `Wrappers`): `Option` and `Result`. `Result` supports `:-`, which plays the part of Rust's `?`.
- `u64.dfy` (module `U64`): Rust's `str::parse::<u64>`, which every integer key goes through.
  - The `u64` type is the integers from 0 to 2^64 − 1.
  - `ParseU64` follows the library's checked digit loop.
  - It is proved equal to an independent positional reading, `IsU64Text` / `DecimalValue`. It is also proved to be the inverse of decimal rendering.
- `config.dfy` (module `Configuration`): the section structs, their loaders and the `.env` template.
  - The section loaders are pure functions of the populated environment (`Vars`).
  - `MergeDotenv` is dotenvy's `dotenv()`: the file's variables are added, and variables already set keep their values.
  - `Schema` is the table of the 15 keys, in the order the code reads them. It is the independent reference against which the loaders' success and error results are proved.
- `resolution.dfy` (module `Resolution`): `load_config`.
  - `World` is the state the pipeline works on:
    - the variables of `.env`, or `None` when the file is missing or unreadable;
    - the process environment;
    - the snapshot files that deserialize to a `Config`, by path;
    - whether file writes succeed.
  - `Resolve` specifies `load_config` over that state. It returns the outcome (`Resolved(config)` or `Fatal(reason)`), the new state, and the ordered list of steps taken.
  - Class `Host` holds the same state in fields. It performs `dotenv`, `var`, each section's `load`, `load_from_dotenv`, `load_from_json`, `save_to_json`, `init_config` and `load_config` in place. Each method is proved against these functions.
- `bot.dfy` (module `Bots`): `Bot::from_config`.

Regeneration exists to give the run a working `.env`, and the `unwrap` on the retry (src/config.rs:157) assumes the retry cannot fail. As written, though, the retry does not override variables that the first load already put into the process environment, so a broken `.env` can survive regeneration. The model follows the code, and "## Findings" states the corrected behaviour.

## Model

| member | source | states |
|---|---|---|
| `U64.ParseU64` | src/config.rs:21 | definition of `str::parse::<u64>` (`u64::from_str`): optional `+`, then Rust's checked digit loop; characterised by `ParseU64Meaning`, `ParseFormat`, `NegativeRejected` and `OverflowRejected` |
| `U64.ParseU64Meaning` | src/config.rs:88-92 | `parse::<u64>()` succeeds exactly on an optional `+` followed by one or more digits whose value is at most 2^64 − 1, and returns that value |
| `U64.AccumulateMeaning` | src/config.rs:48 | the checked digit loop computes `acc·10^n + value(s)` and fails exactly on a non-digit or when that exceeds 2^64 − 1 |
| `U64.ParseFormat` | src/config.rs:21 | parsing the decimal rendering of any `u64` gives the number back |
| `U64.NegativeRejected` | src/config.rs:21 | any text starting with `-` is rejected, `-0` included; nothing is clamped to 0 |
| `U64.OverflowRejected` | src/config.rs:106 | digit text whose value exceeds 2^64 − 1 is rejected, never saturated |
| `U64.ParseExamples` | src/config.rs:67 | `+7` and `007` give 7; the empty string, `+`, `-0`, ` 1`, `abc` and `1.5` are rejected |
| `U64.ParseMaxExample` | src/config.rs:67 | 18446744073709551615 is accepted |
| `U64.ParseOverflowExample` | src/config.rs:67 | 18446744073709551616 is rejected |
| `Configuration.Lookup` | src/config.rs:22 | definition of `var(key)?` on a populated environment; characterised by `Host.Var`, `HeadScan` and `LoadedFieldsMatchKeys` |
| `Configuration.LookupU64` | src/config.rs:21 | definition of `var(key)?.parse()?` for a `u64` field; characterised by `Host.VarU64`, `HeadScan` and `MalformedIntegerFails` |
| `Configuration.LoadApi` | src/config.rs:45-52 | definition of `ApiConfig::load` on a populated environment; characterised by `ApiScan` and `LoadedFieldsMatchKeys` |
| `Configuration.LoadFile` | src/config.rs:64-72 | definition of `FileConfig::load` on a populated environment; characterised by `FileScan` and `LoadedFieldsMatchKeys` |
| `Configuration.LoadPolicy` | src/config.rs:85-94 | definition of `PostPolicy::load` on a populated environment; characterised by `PolicyScan` and `LoadedFieldsMatchKeys` |
| `Configuration.LoadMedia` | src/config.rs:103-108 | definition of `MediaPolicy::load` on a populated environment; characterised by `MediaScan` and `LoadedFieldsMatchKeys` |
| `Configuration.LoadFromVars` | src/config.rs:20-27 | definition of the struct literal of `load_from_dotenv`, fields in source order; characterised by `LoadErrorIsFirstProblem`, `LoadSucceedsIffWellFormed`, `LoadedFieldsMatchKeys` and `OnlySchemaKeysMatter` |
| `Configuration.LoadFromDotenv` | src/config.rs:18-28 | definition of `Config::load_from_dotenv`: `Unavailable` without a `.env`, otherwise `LoadFromVars` of the merged environment; characterised through `MergeDotenv` and the `LoadFromVars` lemmas |
| `Configuration.SchemaKeysMatchSchema` | src/config.rs:20-27 | the key set used by `OnlySchemaKeysMatter` is exactly the set of keys in the `Schema` table |
| `Configuration.DefaultVars` | src/config.rs:111-137 | definition of `DEFAULT_CONFIG` as the variables dotenvy reads from it; characterised by `DefaultTemplateLoads` |
| `Configuration.MergeDotenv` | src/config.rs:19 | after `dotenv()` the environment has the file's keys and its own; a variable already set keeps its value |
| `Configuration.MergeDotenvIdempotent` | src/config.rs:44-46 | the sections' repeated `dotenv()` calls change nothing after the first |
| `Configuration.HeadScan` | src/config.rs:21-22 | the `OWNER_ID` lookup-and-parse and the `NAME` lookup fail exactly when that key is missing or (for `OWNER_ID`) not `u64` text; the model's error records which key and which of the two |
| `Configuration.ApiScan` | src/config.rs:45-52 | `ApiConfig::load` fails exactly when one of its keys is missing or malformed, with the first such key's error |
| `Configuration.FileScan` | src/config.rs:64-72 | the same for `FileConfig::load` |
| `Configuration.PolicyScan` | src/config.rs:85-94 | the same for `PostPolicy::load` |
| `Configuration.MediaScan` | src/config.rs:103-108 | the same for `MediaPolicy::load` |
| `Configuration.LoadErrorIsFirstProblem` | src/config.rs:18-28 | the load fails exactly when some key is missing or malformed, and it stops at the first such key in the order OWNER_ID, NAME, API_ID, …, MAX_MEDIA_SIZE; the model's error records that key and whether it was missing or malformed (the source's error carries only the category) |
| `Configuration.LoadSucceedsIffWellFormed` | src/config.rs:18-28 | the load succeeds exactly when all 15 keys are present and all 9 integer keys hold `u64` text |
| `Configuration.LoadedFieldsMatchKeys` | src/config.rs:20-27 | on success every field equals its key's value: strings verbatim, integers as parsed |
| `Configuration.MalformedIntegerFails` | src/config.rs:88-92 | one present but malformed integer key makes the whole load fail; it is not defaulted or partly applied |
| `Configuration.OnlySchemaKeysMatter` | src/config.rs:20-27 | two environments that agree on the 15 keys load identically; other keys are ignored |
| `Configuration.DefaultTemplateLoads` | src/config.rs:111-137 | the template loads to name TG8CHAN, owner 123, API id 0, interval 300, media limit 2000000 and so on; `POST_ID` is ignored, and a delete limit of 5 below a restrict limit of 10 is accepted |
| `Resolution.AfterDotenv` | src/config.rs:19 | definition of the state after `dotenv()`: unchanged without a `.env`, otherwise the process environment merged with it; characterised by `MergeDotenv`, `MergeDotenvIdempotent` and `Host.Dotenv` |
| `Resolution.EnvLoad` | src/config.rs:18-28 | definition of `load_from_dotenv` on a world; characterised by `EnvSourceWins`, `BadKeyFallsBack` and `Host.LoadFromDotenv` |
| `Resolution.SnapshotLoad` | src/config.rs:32-34 | definition of `load_from_json` over the abstract store; characterised by `SnapshotRoundTrip`, `SnapshotIsSecond` and `Host.LoadFromJson` |
| `Resolution.AfterSave` | src/config.rs:29-31 | definition of `save_to_json`'s effect on the abstract store; characterised by `SnapshotRoundTrip` and `Host.SaveToJson` |
| `Resolution.AfterInit` | src/config.rs:139-143 | definition of `init_config`'s effect: `.env` becomes `DEFAULT_CONFIG` when writes succeed; characterised by `WritesOnlyTemplate` and `Host.InitConfig` |
| `Resolution.Resolve` | src/config.rs:145-167 | definition of `load_config` as written; characterised by `FixedPriority`, `FatalExactly`, `ResolvedIsComplete`, `FirstRunUsesTemplate` and `PoisonedRetryIsFatal` |
| `Resolution.OverrideDotenv` | src/config.rs:157 | the corrected retry's merge (`dotenv_override()`): the file's variables replace those already set, and variables only in the environment keep their values |
| `Resolution.ResolveWithOverride` | src/config.rs:153-157 | corrected definition of `load_config`: the retry reads the regenerated `.env` with override; characterised by `RegenerationRecovers` and `OverrideOnlyAffectsRetry` |
| `Resolution.EnvSourceWins` | src/config.rs:146-147 | when the environment load succeeds, its config is the result and nothing else is read or written |
| `Resolution.FixedPriority` | src/config.rs:145-167 | the steps taken are always a prefix of: load env, read `config/config.json`, create `.env`, load env again. The snapshot is read exactly when the env load failed; `.env` is created exactly when both failed; the env is loaded at most twice |
| `Resolution.SnapshotIsSecond` | src/config.rs:148-152 | after a failed env load, a present snapshot is the result |
| `Resolution.BadKeyFallsBack` | src/config.rs:146-151 | a missing or malformed key makes the env source fail, and the snapshot is read next |
| `Resolution.WritesOnlyTemplate` | src/config.rs:139-143 | `load_config` never writes a snapshot; `.env` changes only through `init_config`, and then to exactly the template |
| `Resolution.FatalExactly` | src/config.rs:153-161 | the run aborts exactly when the env load fails, no snapshot exists, and the template write or the retry fails; a failed write gives `InitFailed` |
| `Resolution.ResolvedIsComplete` | src/config.rs:145-167 | a resolved config is the snapshot, or the complete load of a well-formed environment; never a partial one |
| `Resolution.FirstRunUsesTemplate` | src/config.rs:153-157 | with no `.env`, no snapshot and no schema key in the process environment, `.env` becomes the template and the result is exactly the template's config (name TG8CHAN, media limit 2000000) |
| `Resolution.PoisonedRetryIsFatal` | src/config.rs:156-157 | as written: a malformed integer merged from the old `.env` survives regeneration, and the run aborts |
| `Resolution.PoisonedRetryExample` | src/config.rs:157 | the template with `SEED = abc`, an empty process environment and no snapshot ends in `Fatal` |
| `Resolution.RetryKeepsEarlierValues` | src/config.rs:156-157 | as written: when the retry after regeneration loads, the run resolves, and its `name` is the value the old environment held, not the template's |
| `Resolution.RegenerationRecovers` | src/config.rs:156-157 | corrected (`ResolveWithOverride`): once the template is written, the retry always resolves to exactly the template's config |
| `Resolution.OverrideOnlyAffectsRetry` | src/config.rs:146-160 | the correction behaves like the code whenever the retry is not reached |
| `Resolution.SnapshotRoundTrip` | src/config.rs:29-34 | `load_from_json(p)` after a successful `save_to_json(c, p)` gives `c`; other paths are unchanged |
| `Resolution.Host.Dotenv` | src/config.rs:19 | fails exactly when `.env` is unavailable, and otherwise adds the file's unset variables to the process environment |
| `Resolution.Host.Var` | src/config.rs:22 | returns the variable's value, or a missing-variable error when it is not set (the model's `MissingKey(key)` records the key; dotenvy's `NotPresent` does not) |
| `Resolution.Host.VarU64` | src/config.rs:21 | returns the parsed value, a missing-variable error, or a parse error (any `ParseIntError` kind); the model's error records the key |
| `Resolution.Host.LoadApi` | src/config.rs:45-52 | runs `dotenv()` and then gives `Unavailable` or the API section of the populated environment |
| `Resolution.Host.LoadFile` | src/config.rs:64-72 | the same for the file section |
| `Resolution.Host.LoadPolicy` | src/config.rs:85-94 | the same for the posting policy |
| `Resolution.Host.LoadMedia` | src/config.rs:103-108 | the same for the media policy |
| `Resolution.Host.LoadFromDotenv` | src/config.rs:18-28 | returns `LoadFromDotenv` of the old `.env` and process environment; the environment is merged once, whatever the outcome |
| `Resolution.Host.LoadFromJson` | src/config.rs:32-34 | returns the snapshot stored at the path, or `Unavailable` |
| `Resolution.Host.SaveToJson` | src/config.rs:29-31 | when writes succeed, it stores `c` at the path and reading the path back gives `c`; otherwise nothing changes |
| `Resolution.Host.InitConfig` | src/config.rs:139-143 | when writes succeed, `.env` becomes exactly the template; otherwise nothing changes |
| `Resolution.Host.LoadConfig` | src/config.rs:145-167 | the outcome, the new state and the steps taken are those of `Resolve` on the old state |
| `Bots.FromConfig` | src/bot.rs:11-18 | the bot's name is the config's name; its id, token and secret are `api.id`, `api.token` and `api.secret` |
| `Bots.FromConfigDependsOnNameAndApi` | src/bot.rs:11-18 | two configs give the same bot exactly when their names and API sections are equal |
| `Bots.FromConfigIgnoresOtherSections` | src/bot.rs:11-18 | changing `owner_id`, `file`, `policy` or `media` leaves the bot unchanged |
| `Bots.DefaultBot` | src/bot.rs:13-16 | the template's bot is named TG8CHAN, with id 0, token `wxyz` and secret `abcd` |

## Left out

- dotenvy's file discovery is left out: it searches the current and parent directories. The model has one `.env`, the one `init_config` writes.
- dotenvy's `.env` grammar (quoting, comments, escapes) is left out. The file is given as the map of variables it defines, and the template as the transcribed map with quotes removed.
- A `.env` that cannot be parsed is modelled as unavailable. The model does not capture that dotenvy sets the variables of lines before the syntax error.
- `var` failing on a value that is not valid Unicode is not modelled. Values are `string`s.
- The JSON encoding (`jsonutils`' `read_json`/`write_json`, serde derives) is a foreign library. The snapshot store maps paths to `Config` values, and a file that does not deserialize counts as absent. `SnapshotRoundTrip` therefore says only that the store returns what was last written to a path.
- Filesystem failure modes collapse into one `writable` flag. The model does not capture a write that fails after `File::create` has already truncated `.env`: on failure, `.env` is left unchanged.
- The `eprintln!` diagnostics and `anyhow`'s message texts are output only. The model keeps the error category. The key in `MissingKey(k)` and `ParseError(k)` records which lookup failed; the source's error (dotenvy's `VarError::NotPresent`, `ParseIntError`) does not name it. `ParseIntError`'s kinds (empty, invalid digit, overflow) become one `ParseError`. The `panic!` and the `unwrap` panic become `Fatal(InitFailed)` and `Fatal(RetryFailed(error))`.
- `Bot`'s borrowed `&str` fields and their lifetime are modelled as copied strings.
- src/main.rs declares `db`, `error` and `log` modules and an empty async `main`. These are not part of this model.

## Findings

| source | as written | input that shows it | evidently intended | confidence | as-written member | corrected member |
|---|---|---|---|---|---|---|
| src/config.rs:156-157 | after `init_config`, the retry loads with `dotenv()`, which keeps every variable the failed first load had already merged into the process environment | `.env` is the template with `SEED = abc`, the process environment is empty, there is no snapshot, and writes succeed: the retry still reads `SEED=abc` and `unwrap` aborts | the retry reads the regenerated template and resolves to its values | medium, not executed; it rests on dotenvy's documented rule that `dotenv()` does not override set variables | `Resolution.PoisonedRetryIsFatal` | `Resolution.RegenerationRecovers` |

The corrected definition is `Resolution.ResolveWithOverride`. Its retry reads the new file with override, as dotenvy's `dotenv_override()` does. `Resolution.Host.LoadConfig` still models the code as written.
