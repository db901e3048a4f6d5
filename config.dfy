/**
 * The typed configuration of src/config.rs and its loading from a key/value
 * environment. Every section loader reads a fixed list of keys; a string key is
 * taken verbatim, an integer key is parsed as `u64`, and the first key that is
 * missing or malformed aborts the whole load (Rust's `?`).
 */
module Configuration {
  import opened Wrappers
  import opened U64

  /** A process environment, or the variables of one `.env` file. */
  type Vars = map<string, string>

  datatype ApiConfig = ApiConfig(id: u64, secret: string, token: string)

  datatype FileConfig = FileConfig(seed: u64, db: string, log: string, media: string)

  datatype PostPolicy = PostPolicy(
    interval: u64,
    restrictDislikeLimit: u64,
    deleteDislikeLimit: u64,
    pinLikeLimit: u64,
    autoDeleteCnt: u64)

  datatype MediaPolicy = MediaPolicy(maxMediaSize: u64)

  datatype Config = Config(
    ownerId: u64,
    name: string,
    api: ApiConfig,
    file: FileConfig,
    policy: PostPolicy,
    media: MediaPolicy)

  /**
   * Why a load from the environment failed: no `.env`, an absent key, or a value that is
   * not a `u64`. The key records which lookup failed; the program's own error does not name it.
   */
  datatype LoadError = Unavailable | MissingKey(key: string) | ParseError(key: string)

  /** `var(key)?` */
  function Lookup(vars: Vars, key: string): Result<string, LoadError> {
    if key in vars then Ok(vars[key]) else Err(MissingKey(key))
  }

  /** `var(key)?.parse()?` for a `u64` field. */
  function LookupU64(vars: Vars, key: string): Result<u64, LoadError> {
    var text :- Lookup(vars, key);
    match ParseU64(text)
    case Some(n) => Ok(n)
    case None => Err(ParseError(key))
  }

  /** `ApiConfig::load`, once the environment is populated. */
  function LoadApi(vars: Vars): Result<ApiConfig, LoadError> {
    var id :- LookupU64(vars, "API_ID");
    var secret :- Lookup(vars, "API_HASH");
    var token :- Lookup(vars, "BOT_TOKEN");
    Ok(ApiConfig(id, secret, token))
  }

  /** `FileConfig::load`, once the environment is populated. */
  function LoadFile(vars: Vars): Result<FileConfig, LoadError> {
    var seed :- LookupU64(vars, "SEED");
    var db :- Lookup(vars, "DATABASE_FILE");
    var log :- Lookup(vars, "LOG_FILE");
    var media :- Lookup(vars, "MEDIA_DIR");
    Ok(FileConfig(seed, db, log, media))
  }

  /** `PostPolicy::load`, once the environment is populated. */
  function LoadPolicy(vars: Vars): Result<PostPolicy, LoadError> {
    var interval :- LookupU64(vars, "POST_INTERVAL");
    var restrict :- LookupU64(vars, "RESTRICT_DISLIKE_LIMIT");
    var delete :- LookupU64(vars, "DELETE_DISLIKE_LIMIT");
    var pin :- LookupU64(vars, "PIN_LIKE_LIMIT");
    var autoDelete :- LookupU64(vars, "AUTODELETE_COUNT");
    Ok(PostPolicy(interval, restrict, delete, pin, autoDelete))
  }

  /** `MediaPolicy::load`, once the environment is populated. */
  function LoadMedia(vars: Vars): Result<MediaPolicy, LoadError> {
    var size :- LookupU64(vars, "MAX_MEDIA_SIZE");
    Ok(MediaPolicy(size))
  }

  /** The body of `Config::load_from_dotenv` after `dotenv()` has populated the environment. */
  function LoadFromVars(vars: Vars): Result<Config, LoadError> {
    var ownerId :- LookupU64(vars, "OWNER_ID");
    var name :- Lookup(vars, "NAME");
    var api :- LoadApi(vars);
    var file :- LoadFile(vars);
    var policy :- LoadPolicy(vars);
    var media :- LoadMedia(vars);
    Ok(Config(ownerId, name, api, file, policy, media))
  }

  /**
   * The environment after dotenvy's `dotenv()`: the file's variables are added to the
   * process environment, and a variable already set there keeps its value.
   */
  function MergeDotenv(file: Vars, env: Vars): (merged: Vars)
    ensures merged.Keys == file.Keys + env.Keys
    ensures forall k :: k in env ==> merged[k] == env[k]
    ensures forall k :: k in file && k !in env ==> merged[k] == file[k]
  {
    file + env
  }

  /**
   * `Config::load_from_dotenv`: `None` is a `.env` that cannot be found or read, so the
   * first `dotenv()?` fails. The section loaders' own `dotenv()` calls merge the same
   * file again, which changes nothing (see `MergeDotenvIdempotent`).
   */
  function LoadFromDotenv(file: Option<Vars>, env: Vars): Result<Config, LoadError> {
    match file
    case None => Err(Unavailable)
    case Some(f) => LoadFromVars(MergeDotenv(f, env))
  }

  lemma MergeDotenvIdempotent(file: Vars, env: Vars)
    ensures MergeDotenv(file, MergeDotenv(file, env)) == MergeDotenv(file, env)
  {
  }

  // ---------------------------------------------------------------------------
  // The key schema: an independent, table-driven reading of what the loaders check.

  datatype Kind = Text | Integer

  datatype Field = Field(key: string, kind: Kind)

  /** The keys in the order the loaders read them (Rust evaluates struct fields in order). */
  const Schema: seq<Field> := [
    Field("OWNER_ID", Integer), Field("NAME", Text),
    Field("API_ID", Integer), Field("API_HASH", Text), Field("BOT_TOKEN", Text),
    Field("SEED", Integer), Field("DATABASE_FILE", Text), Field("LOG_FILE", Text), Field("MEDIA_DIR", Text),
    Field("POST_INTERVAL", Integer), Field("RESTRICT_DISLIKE_LIMIT", Integer),
    Field("DELETE_DISLIKE_LIMIT", Integer), Field("PIN_LIKE_LIMIT", Integer), Field("AUTODELETE_COUNT", Integer),
    Field("MAX_MEDIA_SIZE", Integer)
  ]

  /** What is wrong with one field of `vars`, if anything. */
  function Problem(vars: Vars, f: Field): Option<LoadError> {
    if f.key !in vars then Some(MissingKey(f.key))
    else if f.kind == Integer && ParseU64(vars[f.key]).None? then Some(ParseError(f.key))
    else None
  }

  /** The problem of the earliest field in `fields` that has one. */
  function FirstProblem(vars: Vars, fields: seq<Field>): Option<LoadError> {
    if fields == [] then None
    else if Problem(vars, fields[0]).Some? then Problem(vars, fields[0])
    else FirstProblem(vars, fields[1..])
  }

  /** Every schema key is present and every integer key holds `u64` text. */
  predicate WellFormed(vars: Vars) {
    forall i :: 0 <= i < |Schema| ==> Problem(vars, Schema[i]).None?
  }

  /** Scanning in order finds a problem exactly when some field has one. */
  lemma {:induction false} FirstProblemNoneIff(vars: Vars, fields: seq<Field>)
    ensures FirstProblem(vars, fields).None? <==>
              forall i :: 0 <= i < |fields| ==> Problem(vars, fields[i]).None?
  {
    if fields != [] {
      FirstProblemNoneIff(vars, fields[1..]);
      assert forall i :: 1 <= i < |fields| ==> fields[i] == fields[1..][i - 1];
    }
  }

  /** Scanning a concatenation: the first part's problem wins. */
  lemma {:induction false} FirstProblemAppend(vars: Vars, a: seq<Field>, b: seq<Field>)
    ensures FirstProblem(vars, a + b) ==
              if FirstProblem(vars, a).Some? then FirstProblem(vars, a) else FirstProblem(vars, b)
  {
    if a != [] {
      assert (a + b)[1..] == a[1..] + b;
      FirstProblemAppend(vars, a[1..], b);
    } else {
      assert a + b == b;
    }
  }

  function ErrorOf<T>(r: Result<T, LoadError>): Option<LoadError> {
    if r.Err? then Some(r.error) else None
  }

  const HeadFields: seq<Field> := [Field("OWNER_ID", Integer), Field("NAME", Text)]
  const ApiFields: seq<Field> := [Field("API_ID", Integer), Field("API_HASH", Text), Field("BOT_TOKEN", Text)]
  const FileFields: seq<Field> :=
    [Field("SEED", Integer), Field("DATABASE_FILE", Text), Field("LOG_FILE", Text), Field("MEDIA_DIR", Text)]
  const PolicyFields: seq<Field> :=
    [Field("POST_INTERVAL", Integer), Field("RESTRICT_DISLIKE_LIMIT", Integer),
     Field("DELETE_DISLIKE_LIMIT", Integer), Field("PIN_LIKE_LIMIT", Integer), Field("AUTODELETE_COUNT", Integer)]
  const MediaFields: seq<Field> := [Field("MAX_MEDIA_SIZE", Integer)]

  /** One step of the scan. */
  lemma ScanStep(vars: Vars, fields: seq<Field>, k: nat)
    requires k < |fields|
    ensures FirstProblem(vars, fields[k..]) ==
              if Problem(vars, fields[k]).Some? then Problem(vars, fields[k]) else FirstProblem(vars, fields[k + 1..])
  {
    assert fields[k..][1..] == fields[k + 1..];
  }

  lemma HeadScan(vars: Vars)
    ensures ErrorOf(LookupU64(vars, "OWNER_ID")) == Problem(vars, HeadFields[0])
    ensures ErrorOf(Lookup(vars, "NAME")) == Problem(vars, HeadFields[1])
  {
  }

  lemma ApiScan(vars: Vars)
    ensures ErrorOf(LoadApi(vars)) == FirstProblem(vars, ApiFields)
  {
    assert ApiFields[0..] == ApiFields;
    ScanStep(vars, ApiFields, 0);
    ScanStep(vars, ApiFields, 1);
    ScanStep(vars, ApiFields, 2);
  }

  lemma FileScan(vars: Vars)
    ensures ErrorOf(LoadFile(vars)) == FirstProblem(vars, FileFields)
  {
    assert FileFields[0..] == FileFields;
    ScanStep(vars, FileFields, 0);
    ScanStep(vars, FileFields, 1);
    ScanStep(vars, FileFields, 2);
    ScanStep(vars, FileFields, 3);
  }

  lemma PolicyScan(vars: Vars)
    ensures ErrorOf(LoadPolicy(vars)) == FirstProblem(vars, PolicyFields)
  {
    assert PolicyFields[0..] == PolicyFields;
    ScanStep(vars, PolicyFields, 0);
    ScanStep(vars, PolicyFields, 1);
    ScanStep(vars, PolicyFields, 2);
    ScanStep(vars, PolicyFields, 3);
    ScanStep(vars, PolicyFields, 4);
  }

  lemma MediaScan(vars: Vars)
    ensures ErrorOf(LoadMedia(vars)) == FirstProblem(vars, MediaFields)
  {
    assert MediaFields[0..] == MediaFields;
    ScanStep(vars, MediaFields, 0);
  }

  /**
   * The load fails exactly when some schema key is missing or malformed, and then with
   * the error of the earliest such key in the fixed order.
   */
  lemma LoadErrorIsFirstProblem(vars: Vars)
    ensures ErrorOf(LoadFromVars(vars)) == FirstProblem(vars, Schema)
  {
    assert Schema == HeadFields + (ApiFields + (FileFields + (PolicyFields + MediaFields)));
    assert HeadFields[0..] == HeadFields;
    ScanStep(vars, HeadFields, 0);
    ScanStep(vars, HeadFields, 1);
    HeadScan(vars);
    FirstProblemAppend(vars, HeadFields, ApiFields + (FileFields + (PolicyFields + MediaFields)));
    FirstProblemAppend(vars, ApiFields, FileFields + (PolicyFields + MediaFields));
    FirstProblemAppend(vars, FileFields, PolicyFields + MediaFields);
    FirstProblemAppend(vars, PolicyFields, MediaFields);
    ApiScan(vars);
    FileScan(vars);
    PolicyScan(vars);
    MediaScan(vars);
  }

  /** `load_from_dotenv` succeeds on a populated environment exactly when it is well formed. */
  lemma LoadSucceedsIffWellFormed(vars: Vars)
    ensures LoadFromVars(vars).Ok? <==> WellFormed(vars)
  {
    LoadErrorIsFirstProblem(vars);
    FirstProblemNoneIff(vars, Schema);
  }

  /** On success every field is its key's value: strings verbatim, integers as parsed. */
  lemma LoadedFieldsMatchKeys(vars: Vars)
    requires LoadFromVars(vars).Ok?
    ensures var c := LoadFromVars(vars).value;
      && Some(c.ownerId) == ParseU64(vars["OWNER_ID"])
      && c.name == vars["NAME"]
      && Some(c.api.id) == ParseU64(vars["API_ID"])
      && c.api.secret == vars["API_HASH"]
      && c.api.token == vars["BOT_TOKEN"]
      && Some(c.file.seed) == ParseU64(vars["SEED"])
      && c.file.db == vars["DATABASE_FILE"]
      && c.file.log == vars["LOG_FILE"]
      && c.file.media == vars["MEDIA_DIR"]
      && Some(c.policy.interval) == ParseU64(vars["POST_INTERVAL"])
      && Some(c.policy.restrictDislikeLimit) == ParseU64(vars["RESTRICT_DISLIKE_LIMIT"])
      && Some(c.policy.deleteDislikeLimit) == ParseU64(vars["DELETE_DISLIKE_LIMIT"])
      && Some(c.policy.pinLikeLimit) == ParseU64(vars["PIN_LIKE_LIMIT"])
      && Some(c.policy.autoDeleteCnt) == ParseU64(vars["AUTODELETE_COUNT"])
      && Some(c.media.maxMediaSize) == ParseU64(vars["MAX_MEDIA_SIZE"])
  {
  }

  /** A present integer key that is not `u64` text fails the whole load: no clamping, no default. */
  lemma MalformedIntegerFails(vars: Vars, i: nat)
    requires i < |Schema| && Schema[i].kind == Integer
    requires Schema[i].key in vars && !IsU64Text(vars[Schema[i].key])
    ensures LoadFromVars(vars).Err?
  {
    ParseU64Meaning(vars[Schema[i].key]);
    LoadSucceedsIffWellFormed(vars);
  }

  /** Only schema keys matter: two environments that agree on them load identically. */
  lemma OnlySchemaKeysMatter(v1: Vars, v2: Vars)
    requires forall k :: k in SchemaKeys ==> Lookup(v1, k) == Lookup(v2, k)
    ensures LoadFromVars(v1) == LoadFromVars(v2)
  {
  }

  /** The keys of `Schema`, as a set. */
  const SchemaKeys: set<string> := {
    "OWNER_ID", "NAME", "API_ID", "API_HASH", "BOT_TOKEN", "SEED", "DATABASE_FILE", "LOG_FILE",
    "MEDIA_DIR", "POST_INTERVAL", "RESTRICT_DISLIKE_LIMIT", "DELETE_DISLIKE_LIMIT", "PIN_LIKE_LIMIT",
    "AUTODELETE_COUNT", "MAX_MEDIA_SIZE"
  }

  /** `SchemaKeys` is exactly the set of keys the `Schema` table lists. */
  lemma SchemaKeysMatchSchema()
    ensures SchemaKeys == set i | 0 <= i < |Schema| :: Schema[i].key
  {
    var listed := set i | 0 <= i < |Schema| :: Schema[i].key;
    forall i | 0 <= i < |Schema| ensures Schema[i].key in SchemaKeys {
    }
    forall k | k in SchemaKeys ensures k in listed {
      var i :| 0 <= i < |Schema| && Schema[i].key == k by {
        if k == "OWNER_ID" { assert Schema[0].key == k; }
        else if k == "NAME" { assert Schema[1].key == k; }
        else if k == "API_ID" { assert Schema[2].key == k; }
        else if k == "API_HASH" { assert Schema[3].key == k; }
        else if k == "BOT_TOKEN" { assert Schema[4].key == k; }
        else if k == "SEED" { assert Schema[5].key == k; }
        else if k == "DATABASE_FILE" { assert Schema[6].key == k; }
        else if k == "LOG_FILE" { assert Schema[7].key == k; }
        else if k == "MEDIA_DIR" { assert Schema[8].key == k; }
        else if k == "POST_INTERVAL" { assert Schema[9].key == k; }
        else if k == "RESTRICT_DISLIKE_LIMIT" { assert Schema[10].key == k; }
        else if k == "DELETE_DISLIKE_LIMIT" { assert Schema[11].key == k; }
        else if k == "PIN_LIKE_LIMIT" { assert Schema[12].key == k; }
        else if k == "AUTODELETE_COUNT" { assert Schema[13].key == k; }
        else { assert Schema[14].key == k; }
      }
    }
  }

  // ---------------------------------------------------------------------------
  // The template `init_config` writes to `.env`, as the variables dotenvy reads from it
  // (quotes removed). `POST_ID` is not a schema key.

  const DefaultVars: Vars := map[
    "NAME" := "TG8CHAN",
    "API_ID" := "0",
    "API_HASH" := "abcd",
    "BOT_TOKEN" := "wxyz",
    "SEED" := "10",
    "OWNER_ID" := "123",
    "DATABASE_FILE" := "database.db",
    "LOG_FILE" := "stats.log",
    "POST_ID" := "-456",
    "MEDIA_DIR" := "media",
    "POST_INTERVAL" := "300",
    "RESTRICT_DISLIKE_LIMIT" := "10",
    "DELETE_DISLIKE_LIMIT" := "5",
    "PIN_LIKE_LIMIT" := "10",
    "AUTODELETE_COUNT" := "50",
    "MAX_MEDIA_SIZE" := "2000000"
  ]

  const DefaultConfig: Config := Config(
    123, "TG8CHAN",
    ApiConfig(0, "abcd", "wxyz"),
    FileConfig(10, "database.db", "stats.log", "media"),
    PostPolicy(300, 10, 5, 10, 50),
    MediaPolicy(2000000))

  /** The template loads, with its literal values; `DELETE_DISLIKE_LIMIT` below `RESTRICT_DISLIKE_LIMIT` is accepted. */
  lemma DefaultTemplateLoads()
    ensures LoadFromVars(DefaultVars) == Ok(DefaultConfig)
    ensures DefaultConfig.policy.deleteDislikeLimit < DefaultConfig.policy.restrictDislikeLimit
  {
    DefaultHeadLoads();
    DefaultApiLoads();
    DefaultFileLoads();
    DefaultPolicyLoads();
    DefaultMediaLoads();
  }

  lemma DefaultHeadLoads()
    ensures LookupU64(DefaultVars, "OWNER_ID") == Ok(123)
    ensures Lookup(DefaultVars, "NAME") == Ok("TG8CHAN")
  {
  }

  lemma DefaultApiLoads()
    ensures LoadApi(DefaultVars) == Ok(DefaultConfig.api)
  {
  }

  lemma DefaultFileLoads()
    ensures LoadFile(DefaultVars) == Ok(DefaultConfig.file)
  {
  }

  lemma DefaultMediaLoads()
    ensures LoadMedia(DefaultVars) == Ok(DefaultConfig.media)
  {
  }

  lemma DefaultPolicyLoads()
    ensures LoadPolicy(DefaultVars) == Ok(DefaultConfig.policy)
  {
  }
}
