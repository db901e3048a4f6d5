/**
 * The configuration resolution of src/config.rs: `load_config` tries the `.env`
 * environment, then the JSON snapshot `config/config.json`, then regenerates `.env`
 * from the template (`init_config`) and loads the environment once more; a failed
 * write or a failed retry aborts the process (`panic!` / `unwrap`).
 *
 * `World` is the state these steps read and change; `Resolve` is the specification
 * of `load_config` over it, and class `Host` performs the same steps in place.
 */
module Resolution {
  import opened Wrappers
  import opened U64
  import opened Configuration

  /** The snapshot path `load_config` reads. */
  const ConfigJson: string := "config/config.json"

  /** The externally visible steps of resolution, in the order they happen. */
  datatype Effect = LoadEnv | ReadSnapshot(path: string) | CreateEnv | WriteSnapshot(path: string)

  /** Why the process aborts: the template could not be written, or the retry after writing it failed. */
  datatype Fatality = InitFailed | RetryFailed(error: LoadError)

  datatype Outcome = Resolved(config: Config) | Fatal(reason: Fatality)

  /**
   * `envFile`: the variables of `.env`, `None` when it is missing or unreadable;
   * `processEnv`: the process environment; `jsonFiles`: the snapshot files that
   * deserialize to a `Config`, by path; `writable`: whether file writes succeed.
   */
  datatype World = World(envFile: Option<Vars>, processEnv: Vars, jsonFiles: map<string, Config>, writable: bool)

  datatype Run = Run(outcome: Outcome, after: World, effects: seq<Effect>)

  /** The world after dotenvy's `dotenv()`; without a `.env` nothing changes. */
  function AfterDotenv(w: World): World {
    match w.envFile
    case None => w
    case Some(f) => w.(processEnv := MergeDotenv(f, w.processEnv))
  }

  /** `Config::load_from_dotenv` in world `w`. */
  function EnvLoad(w: World): Result<Config, LoadError> {
    LoadFromDotenv(w.envFile, w.processEnv)
  }

  /** `Config::load_from_json(path)`: an absent or undecodable file is unavailable. */
  function SnapshotLoad(w: World, path: string): Result<Config, LoadError> {
    if path in w.jsonFiles then Ok(w.jsonFiles[path]) else Err(Unavailable)
  }

  /** The world after `c.save_to_json(path)`; a failed write leaves it unchanged. */
  function AfterSave(w: World, c: Config, path: string): World {
    if w.writable then w.(jsonFiles := w.jsonFiles[path := c]) else w
  }

  /** The world after `init_config()`: `.env` holds exactly the template, if the write succeeds. */
  function AfterInit(w: World): World {
    if w.writable then w.(envFile := Some(DefaultVars)) else w
  }

  /** Every step `load_config` can take, in order; each run performs a prefix of it. */
  const AllSteps: seq<Effect> := [LoadEnv, ReadSnapshot(ConfigJson), CreateEnv, LoadEnv]

  /** `load_config` as written. */
  function Resolve(w: World): Run {
    var first := EnvLoad(w);
    var w1 := AfterDotenv(w);
    if first.Ok? then
      Run(Resolved(first.value), w1, AllSteps[..1])
    else if SnapshotLoad(w1, ConfigJson).Ok? then
      Run(Resolved(SnapshotLoad(w1, ConfigJson).value), w1, AllSteps[..2])
    else if !w1.writable then
      Run(Fatal(InitFailed), w1, AllSteps[..3])
    else
      var w2 := AfterInit(w1);
      var retry := EnvLoad(w2);
      Run(if retry.Ok? then Resolved(retry.value) else Fatal(RetryFailed(retry.error)),
          AfterDotenv(w2), AllSteps)
  }

  /** The environment the retry after regeneration reads, in `load_config` as written. */
  function RetryVars(w: World): Vars {
    MergeDotenv(DefaultVars, AfterDotenv(w).processEnv)
  }

  // ---------------------------------------------------------------------------
  // Properties of `load_config`.

  /** A successful environment load is the result, and nothing else is read or written. */
  lemma EnvSourceWins(w: World)
    requires EnvLoad(w).Ok?
    ensures Resolve(w).outcome == Resolved(EnvLoad(w).value)
    ensures Resolve(w).effects == [LoadEnv]
  {
  }

  /**
   * The order of the sources is fixed: the snapshot is read exactly when the environment
   * failed, `.env` is regenerated exactly when both failed, and the environment is
   * loaded at most twice.
   */
  lemma FixedPriority(w: World)
    ensures Resolve(w).effects <= AllSteps
    ensures ReadSnapshot(ConfigJson) in Resolve(w).effects <==> EnvLoad(w).Err?
    ensures CreateEnv in Resolve(w).effects <==> EnvLoad(w).Err? && ConfigJson !in w.jsonFiles
    ensures |Resolve(w).effects| == 4 <==> EnvLoad(w).Err? && ConfigJson !in w.jsonFiles && w.writable
  {
    assert AllSteps[..1] == [LoadEnv];
    assert AllSteps[..2] == [LoadEnv, ReadSnapshot(ConfigJson)];
    assert AllSteps[..3] == [LoadEnv, ReadSnapshot(ConfigJson), CreateEnv];
  }

  /** The snapshot is used only when the environment failed, and then it is the result. */
  lemma SnapshotIsSecond(w: World)
    requires EnvLoad(w).Err? && ConfigJson in w.jsonFiles
    ensures Resolve(w).outcome == Resolved(w.jsonFiles[ConfigJson])
  {
  }

  /** `load_config` never writes a snapshot, and only `init_config` touches `.env`, writing the template. */
  lemma WritesOnlyTemplate(w: World)
    ensures forall e :: e in Resolve(w).effects ==> !e.WriteSnapshot?
    ensures Resolve(w).after.jsonFiles == w.jsonFiles
    ensures Resolve(w).after.writable == w.writable
    ensures Resolve(w).after.envFile ==
              if CreateEnv in Resolve(w).effects && w.writable then Some(DefaultVars) else w.envFile
  {
  }

  /** A missing or malformed key is never defaulted: the environment source counts as failed and the snapshot is read. */
  lemma BadKeyFallsBack(w: World, i: nat)
    requires w.envFile.Some? && i < |Schema|
    requires Problem(AfterDotenv(w).processEnv, Schema[i]).Some?
    ensures EnvLoad(w).Err?
    ensures ReadSnapshot(ConfigJson) in Resolve(w).effects
  {
    LoadSucceedsIffWellFormed(AfterDotenv(w).processEnv);
    FixedPriority(w);
  }

  /** The run aborts exactly when all three sources fail; a failed write is reported as such. */
  lemma FatalExactly(w: World)
    ensures Resolve(w).outcome.Fatal? <==>
              EnvLoad(w).Err? && ConfigJson !in w.jsonFiles && (!w.writable || LoadFromVars(RetryVars(w)).Err?)
    ensures Resolve(w).outcome == Fatal(InitFailed) <==>
              EnvLoad(w).Err? && ConfigJson !in w.jsonFiles && !w.writable
  {
  }

  /**
   * A resolved configuration is never partial: it is the snapshot, or the complete load
   * of a well-formed environment (the first one or the one after regeneration).
   */
  lemma ResolvedIsComplete(w: World)
    requires Resolve(w).outcome.Resolved?
    ensures var c := Resolve(w).outcome.config;
      || (w.envFile.Some? && WellFormed(AfterDotenv(w).processEnv) && LoadFromVars(AfterDotenv(w).processEnv) == Ok(c))
      || (ConfigJson in w.jsonFiles && w.jsonFiles[ConfigJson] == c)
      || (WellFormed(RetryVars(w)) && LoadFromVars(RetryVars(w)) == Ok(c))
  {
    LoadSucceedsIffWellFormed(AfterDotenv(w).processEnv);
    LoadSucceedsIffWellFormed(RetryVars(w));
  }

  /**
   * First run: no `.env`, no snapshot, and no schema key set in the process environment.
   * `.env` is generated and the retry yields exactly the template's values.
   */
  lemma FirstRunUsesTemplate(w: World)
    requires w.envFile.None? && ConfigJson !in w.jsonFiles && w.writable
    requires forall k :: k in SchemaKeys ==> k !in w.processEnv
    ensures Resolve(w).outcome == Resolved(DefaultConfig)
    ensures Resolve(w).after.envFile == Some(DefaultVars)
    ensures DefaultConfig.name == "TG8CHAN" && DefaultConfig.media.maxMediaSize == 2000000
  {
    OnlySchemaKeysMatter(RetryVars(w), DefaultVars);
    DefaultTemplateLoads();
  }

  /**
   * As written, the retry does not start from the template: values the first load merged
   * into the process environment win over the regenerated file. A malformed integer in
   * the old `.env` therefore survives regeneration and the run aborts.
   */
  lemma PoisonedRetryIsFatal(w: World, i: nat)
    requires w.envFile.Some? && ConfigJson !in w.jsonFiles && w.writable
    requires i < |Schema| && Schema[i].kind == Integer
    requires Schema[i].key in AfterDotenv(w).processEnv
    requires !IsU64Text(AfterDotenv(w).processEnv[Schema[i].key])
    ensures Resolve(w).outcome.Fatal?
  {
    MalformedIntegerFails(AfterDotenv(w).processEnv, i);
    MalformedIntegerFails(RetryVars(w), i);
  }

  /** A concrete instance: `.env` is the template with `SEED = abc`, the process environment is empty. */
  lemma PoisonedRetryExample()
    ensures Resolve(World(Some(DefaultVars["SEED" := "abc"]), map[], map[], true)).outcome.Fatal?
  {
    assert Schema[5].key == "SEED";
    var w := World(Some(DefaultVars["SEED" := "abc"]), map[], map[], true);
    assert AfterDotenv(w).processEnv["SEED"] == "abc";
    PoisonedRetryIsFatal(w, 5);
  }

  /**
   * As written, the retry also keeps earlier values of well-formed keys: the resolved
   * name is the one the old environment held, not the template's.
   */
  lemma RetryKeepsEarlierValues(w: World)
    requires EnvLoad(w).Err? && ConfigJson !in w.jsonFiles && w.writable
    requires LoadFromVars(RetryVars(w)).Ok? && "NAME" in AfterDotenv(w).processEnv
    ensures Resolve(w).outcome.Resolved?
    ensures Resolve(w).outcome.config.name == AfterDotenv(w).processEnv["NAME"]
  {
    LoadedFieldsMatchKeys(RetryVars(w));
  }

  // ---------------------------------------------------------------------------
  // The evidently intended regeneration: the retry reads the freshly written file with
  // its values taking precedence (dotenvy's `dotenv_override()`).

  /** dotenvy's `dotenv_override()`: the file's variables replace those already set. */
  function OverrideDotenv(file: Vars, env: Vars): (merged: Vars)
    ensures merged.Keys == file.Keys + env.Keys
    ensures forall k :: k in file ==> merged[k] == file[k]
    ensures forall k :: k in env && k !in file ==> merged[k] == env[k]
  {
    env + file
  }

  /** `load_config` with the retry after regeneration reading the new `.env` with override. */
  function ResolveWithOverride(w: World): Run {
    var first := EnvLoad(w);
    var w1 := AfterDotenv(w);
    if first.Ok? || SnapshotLoad(w1, ConfigJson).Ok? || !w1.writable then
      Resolve(w)
    else
      var w2 := AfterInit(w1);
      var w3 := w2.(processEnv := OverrideDotenv(DefaultVars, w2.processEnv));
      var retry := EnvLoad(w3);
      Run(if retry.Ok? then Resolved(retry.value) else Fatal(RetryFailed(retry.error)),
          AfterDotenv(w3), AllSteps)
  }

  /** With override, a successful regeneration always resolves to exactly the template's values. */
  lemma RegenerationRecovers(w: World)
    requires EnvLoad(w).Err? && ConfigJson !in w.jsonFiles && w.writable
    ensures ResolveWithOverride(w).outcome == Resolved(DefaultConfig)
  {
    var w1 := AfterDotenv(w);
    var w3 := AfterInit(w1).(processEnv := OverrideDotenv(DefaultVars, w1.processEnv));
    var vars := MergeDotenv(DefaultVars, w3.processEnv);
    assert EnvLoad(w3) == LoadFromVars(vars);
    TemplateOverridesSchema(w1.processEnv);
    OnlySchemaKeysMatter(vars, DefaultVars);
    DefaultTemplateLoads();
    assert EnvLoad(w3) == Ok(DefaultConfig);
  }

  /** After an override with the template, every schema key holds the template's value. */
  lemma TemplateOverridesSchema(env: Vars)
    ensures forall k :: k in SchemaKeys ==>
              Lookup(MergeDotenv(DefaultVars, OverrideDotenv(DefaultVars, env)), k) == Lookup(DefaultVars, k)
  {
    assert SchemaKeys <= DefaultVars.Keys;
  }

  /** The correction changes nothing before the regeneration step. */
  lemma OverrideOnlyAffectsRetry(w: World)
    requires EnvLoad(w).Ok? || ConfigJson in w.jsonFiles || !w.writable
    ensures ResolveWithOverride(w) == Resolve(w)
  {
  }

  // ---------------------------------------------------------------------------

  /** The snapshot store returns what was last saved at a path; other paths are untouched. */
  lemma SnapshotRoundTrip(w: World, c: Config, path: string, other: string)
    requires w.writable && other != path
    ensures SnapshotLoad(AfterSave(w, c, path), path) == Ok(c)
    ensures SnapshotLoad(AfterSave(w, c, path), other) == SnapshotLoad(w, other)
  {
  }

  /**
   * The process, its `.env` file and its snapshot files. Each method performs one
   * function of src/config.rs on this state and is specified by the functions above.
   */
  class Host {
    var envFile: Option<Vars>
    var processEnv: Vars
    var jsonFiles: map<string, Config>
    var writable: bool
    /** The steps performed so far. */
    ghost var effects: seq<Effect>

    function State(): World
      reads this
    {
      World(envFile, processEnv, jsonFiles, writable)
    }

    constructor (envFile: Option<Vars>, processEnv: Vars, jsonFiles: map<string, Config>, writable: bool)
      ensures State() == World(envFile, processEnv, jsonFiles, writable)
      ensures effects == []
    {
      this.envFile := envFile;
      this.processEnv := processEnv;
      this.jsonFiles := jsonFiles;
      this.writable := writable;
      effects := [];
    }

    /** dotenvy's `dotenv()`: fails without a `.env`, otherwise adds its unset variables. */
    method Dotenv() returns (loaded: bool)
      modifies this`processEnv
      ensures loaded == old(envFile).Some?
      ensures State() == AfterDotenv(old(State()))
    {
      match envFile {
        case None =>
          loaded := false;
        case Some(f) =>
          processEnv := MergeDotenv(f, processEnv);
          loaded := true;
      }
    }

    /** dotenvy's `var(key)`. */
    method Var(key: string) returns (r: Result<string, LoadError>)
      ensures r.Ok? <==> key in processEnv
      ensures r.Ok? ==> r.value == processEnv[key]
      ensures r.Err? ==> r.error == MissingKey(key)
    {
      if key in processEnv {
        r := Ok(processEnv[key]);
      } else {
        r := Err(MissingKey(key));
      }
    }

    /** `var(key)?.parse()?` into a `u64`. */
    method VarU64(key: string) returns (r: Result<u64, LoadError>)
      ensures r == LookupU64(processEnv, key)
    {
      var text :- Var(key);
      var n := ParseU64(text);
      if n.Some? {
        r := Ok(n.value);
      } else {
        r := Err(ParseError(key));
      }
    }

    /** `ApiConfig::load`. */
    method LoadApi() returns (r: Result<ApiConfig, LoadError>)
      modifies this`processEnv
      ensures State() == AfterDotenv(old(State()))
      ensures r == if envFile.None? then Err(Unavailable) else Configuration.LoadApi(processEnv)
    {
      var loaded := Dotenv();
      if !loaded {
        return Err(Unavailable);
      }
      var id :- VarU64("API_ID");
      var secret :- Var("API_HASH");
      var token :- Var("BOT_TOKEN");
      return Ok(ApiConfig(id, secret, token));
    }

    /** `FileConfig::load`. */
    method LoadFile() returns (r: Result<FileConfig, LoadError>)
      modifies this`processEnv
      ensures State() == AfterDotenv(old(State()))
      ensures r == if envFile.None? then Err(Unavailable) else Configuration.LoadFile(processEnv)
    {
      var loaded := Dotenv();
      if !loaded {
        return Err(Unavailable);
      }
      var seed :- VarU64("SEED");
      var db :- Var("DATABASE_FILE");
      var log :- Var("LOG_FILE");
      var media :- Var("MEDIA_DIR");
      return Ok(FileConfig(seed, db, log, media));
    }

    /** `PostPolicy::load`. */
    method LoadPolicy() returns (r: Result<PostPolicy, LoadError>)
      modifies this`processEnv
      ensures State() == AfterDotenv(old(State()))
      ensures r == if envFile.None? then Err(Unavailable) else Configuration.LoadPolicy(processEnv)
    {
      var loaded := Dotenv();
      if !loaded {
        return Err(Unavailable);
      }
      var interval :- VarU64("POST_INTERVAL");
      var restrict :- VarU64("RESTRICT_DISLIKE_LIMIT");
      var delete :- VarU64("DELETE_DISLIKE_LIMIT");
      var pin :- VarU64("PIN_LIKE_LIMIT");
      var autoDelete :- VarU64("AUTODELETE_COUNT");
      return Ok(PostPolicy(interval, restrict, delete, pin, autoDelete));
    }

    /** `MediaPolicy::load`. */
    method LoadMedia() returns (r: Result<MediaPolicy, LoadError>)
      modifies this`processEnv
      ensures State() == AfterDotenv(old(State()))
      ensures r == if envFile.None? then Err(Unavailable) else Configuration.LoadMedia(processEnv)
    {
      var loaded := Dotenv();
      if !loaded {
        return Err(Unavailable);
      }
      var size :- VarU64("MAX_MEDIA_SIZE");
      return Ok(MediaPolicy(size));
    }

    /** `Config::load_from_dotenv`: every section re-runs `dotenv()`, which changes nothing the second time. */
    method LoadFromDotenv() returns (r: Result<Config, LoadError>)
      modifies this`processEnv, this`effects
      ensures State() == AfterDotenv(old(State()))
      ensures effects == old(effects) + [LoadEnv]
      ensures r == EnvLoad(old(State()))
    {
      effects := effects + [LoadEnv];
      var loaded := Dotenv();
      if !loaded {
        return Err(Unavailable);
      }
      MergeDotenvIdempotent(envFile.value, old(processEnv));
      var ownerId :- VarU64("OWNER_ID");
      var name :- Var("NAME");
      var api :- LoadApi();
      var file :- LoadFile();
      var policy :- LoadPolicy();
      var media :- LoadMedia();
      return Ok(Config(ownerId, name, api, file, policy, media));
    }

    /** `Config::load_from_json(path)`. */
    method LoadFromJson(path: string) returns (r: Result<Config, LoadError>)
      modifies this`effects
      ensures effects == old(effects) + [ReadSnapshot(path)]
      ensures r == SnapshotLoad(State(), path)
    {
      effects := effects + [ReadSnapshot(path)];
      if path in jsonFiles {
        r := Ok(jsonFiles[path]);
      } else {
        r := Err(Unavailable);
      }
    }

    /** `c.save_to_json(path)`: overwrites the file; afterwards loading `path` yields `c`. */
    method SaveToJson(c: Config, path: string) returns (ok: bool)
      modifies this`jsonFiles, this`effects
      ensures ok == writable
      ensures State() == AfterSave(old(State()), c, path)
      ensures ok ==> SnapshotLoad(State(), path) == Ok(c)
      ensures effects == old(effects) + [WriteSnapshot(path)]
    {
      effects := effects + [WriteSnapshot(path)];
      ok := writable;
      if ok {
        jsonFiles := jsonFiles[path := c];
      }
    }

    /** `init_config`: replaces `.env` with exactly the template. */
    method InitConfig() returns (ok: bool)
      modifies this`envFile, this`effects
      ensures ok == writable
      ensures State() == AfterInit(old(State()))
      ensures ok ==> envFile == Some(DefaultVars)
      ensures effects == old(effects) + [CreateEnv]
    {
      effects := effects + [CreateEnv];
      ok := writable;
      if ok {
        envFile := Some(DefaultVars);
      }
    }

    /** `load_config`. */
    method LoadConfig() returns (outcome: Outcome)
      modifies this
      ensures outcome == Resolve(old(State())).outcome
      ensures State() == Resolve(old(State())).after
      ensures effects == old(effects) + Resolve(old(State())).effects
    {
      var env := LoadFromDotenv();
      if env.Ok? {
        return Resolved(env.value);
      }
      var snapshot := LoadFromJson(ConfigJson);
      if snapshot.Ok? {
        return Resolved(snapshot.value);
      }
      var created := InitConfig();
      if !created {
        return Fatal(InitFailed);
      }
      var retry := LoadFromDotenv();
      if retry.Ok? {
        outcome := Resolved(retry.value);
      } else {
        outcome := Fatal(RetryFailed(retry.error));
      }
    }
  }
}
