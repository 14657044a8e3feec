/** `load_config`: builds a `Config` from the process environment, which is
    modelled as a map from variable names to values. */
module Loader {
  import opened Wrappers
  import opened PyBuiltins
  import opened Sections

  type Environment = map<string, string>

  /** `int(os.getenv('OWNER_ID', 0))` raised `ValueError`. */
  datatype LoadError = OwnerIdNotInteger

  const DefaultDatabasePath: string := "shadowkz.db"

  /** `os.getenv(key, default)`. */
  function GetEnv(env: Environment, key: string, default: string): (v: string)
    ensures key in env ==> v == env[key]
    ensures key !in env ==> v == default
  {
    if key in env then env[key] else default
  }

  /** `load_dotenv` with its default `override=False`: variables from the file
      are added, but a variable already in the environment keeps its value. */
  function LoadDotenv(environ: Environment, fileVars: Environment): (r: Environment)
    ensures r.Keys == environ.Keys + fileVars.Keys
    ensures forall k | k in environ :: r[k] == environ[k]
    ensures forall k | k in fileVars && k !in environ :: r[k] == fileVars[k]
  {
    fileVars + environ
  }

  /** The body of `load_config` once the environment is primed: every field is
      the environment's value when the variable is set and a fixed default
      otherwise; only an `OWNER_ID` that is not an integer makes it fail. */
  function LoadConfig(env: Environment): (r: Result<Config, LoadError>)
    ensures r.Err? <==> "OWNER_ID" in env && !IsIntLiteral(env["OWNER_ID"])
    ensures r.Ok? ==>
      && ("BOT_TOKEN" in env ==> r.value.tgBot.token == env["BOT_TOKEN"])
      && ("BOT_TOKEN" !in env ==> r.value.tgBot.token == "")
      && ("OWNER_ID" in env ==> ParseInt(env["OWNER_ID"]) == Some(r.value.tgBot.ownerId))
      && ("OWNER_ID" !in env ==> r.value.tgBot.ownerId == 0)
      && (r.value.tgBot.paymentToken.Some? <==> "PAYMENT_TOKEN" in env)
      && ("PAYMENT_TOKEN" in env ==> r.value.tgBot.paymentToken.value == env["PAYMENT_TOKEN"])
      && ("DATABASE_PATH" in env ==> r.value.db.path == env["DATABASE_PATH"])
      && ("DATABASE_PATH" !in env ==> r.value.db.path == DefaultDatabasePath)
      && r.value.game == NewGameConfig()
      && r.value.economy == NewEconomyConfig()
      && (r.value.debug <==> "DEBUG" in env && IsTrueIgnoringCase(env["DEBUG"]))
  {
    var owner := if "OWNER_ID" in env then ParseInt(env["OWNER_ID"]) else Some(0);
    if owner.None? then
      Err(OwnerIdNotInteger)
    else
      var debugText := GetEnv(env, "DEBUG", "False");
      LowerIsTrue(debugText);
      Ok(Config(
        TgBot(
          GetEnv(env, "BOT_TOKEN", ""),
          owner.value,
          if "PAYMENT_TOKEN" in env then Some(env["PAYMENT_TOKEN"]) else None),
        DatabaseConfig(GetEnv(env, "DATABASE_PATH", DefaultDatabasePath)),
        NewGameConfig(),
        NewEconomyConfig(),
        Lower(debugText) == "true"))
  }

  /** The variables a file at `path` defines: none when `path` names no file. */
  function FileVars(path: string, files: map<string, Environment>): (vars: Environment) {
    if path in files then files[path] else map[]
  }

  /** The variables `load_config(path)` adds from a file: none unless `path`
      is a non-empty string. */
  function PathVars(path: Option<string>, files: map<string, Environment>): (vars: Environment) {
    if path.Some? && path.value != "" then FileVars(path.value, files) else map[]
  }

  /** The value a variable has once the file is loaded, stated without the
      merge: the live value when set, otherwise the file's, otherwise none. */
  function Primed(environ: Environment, fileVars: Environment, key: string): (v: Option<string>) {
    if key in environ then Some(environ[key])
    else if key in fileVars then Some(fileVars[key])
    else None
  }

  /** `load_config(path)`: a non-empty `path` first primes the environment from
      that file (`files` maps a path to the variables the file defines), then
      the configuration is built.  A variable set in the live environment is
      read from it; one set only in the file is read from the file. */
  function LoadConfigAt(environ: Environment, path: Option<string>, files: map<string, Environment>)
    : (r: Result<Config, LoadError>)
    ensures path.None? || path.value == "" ==> r == LoadConfig(environ)
    ensures var owner := Primed(environ, PathVars(path, files), "OWNER_ID");
      r.Err? <==> owner.Some? && !IsIntLiteral(owner.value)
    ensures r.Ok? ==> var fileVars := PathVars(path, files);
      && r.value.tgBot.token == Primed(environ, fileVars, "BOT_TOKEN").GetOr("")
      && (Primed(environ, fileVars, "OWNER_ID").Some? ==>
            ParseInt(Primed(environ, fileVars, "OWNER_ID").value) == Some(r.value.tgBot.ownerId))
      && (Primed(environ, fileVars, "OWNER_ID").None? ==> r.value.tgBot.ownerId == 0)
      && r.value.tgBot.paymentToken == Primed(environ, fileVars, "PAYMENT_TOKEN")
      && r.value.db.path == Primed(environ, fileVars, "DATABASE_PATH").GetOr(DefaultDatabasePath)
      && r.value.game == NewGameConfig()
      && r.value.economy == NewEconomyConfig()
      && (r.value.debug <==>
            Primed(environ, fileVars, "DEBUG").Some? && IsTrueIgnoringCase(Primed(environ, fileVars, "DEBUG").value))
  {
    if path.Some? && path.value != "" then
      LoadPrimed(environ, FileVars(path.value, files));
      LoadConfig(LoadDotenv(environ, FileVars(path.value, files)))
    else
      LoadPrimed(environ, map[]);
      LoadConfig(environ)
  }

  /** The fields `load_config` reads from an environment primed with `fileVars`,
      stated through `Primed`. */
  lemma LoadPrimed(environ: Environment, fileVars: Environment)
    ensures fileVars == map[] ==> LoadDotenv(environ, fileVars) == environ
    ensures var r := LoadConfig(LoadDotenv(environ, fileVars));
      var owner := Primed(environ, fileVars, "OWNER_ID");
      && (r.Err? <==> owner.Some? && !IsIntLiteral(owner.value))
      && (r.Ok? ==>
        && r.value.tgBot.token == Primed(environ, fileVars, "BOT_TOKEN").GetOr("")
        && (owner.Some? ==> ParseInt(owner.value) == Some(r.value.tgBot.ownerId))
        && (owner.None? ==> r.value.tgBot.ownerId == 0)
        && r.value.tgBot.paymentToken == Primed(environ, fileVars, "PAYMENT_TOKEN")
        && r.value.db.path == Primed(environ, fileVars, "DATABASE_PATH").GetOr(DefaultDatabasePath)
        && (r.value.debug <==>
              Primed(environ, fileVars, "DEBUG").Some? && IsTrueIgnoringCase(Primed(environ, fileVars, "DEBUG").value)))
  {
    PrimedIsMerged(environ, fileVars, "BOT_TOKEN");
    PrimedIsMerged(environ, fileVars, "OWNER_ID");
    PrimedIsMerged(environ, fileVars, "PAYMENT_TOKEN");
    PrimedIsMerged(environ, fileVars, "DATABASE_PATH");
    PrimedIsMerged(environ, fileVars, "DEBUG");
  }

  /** Looking a variable up in the merged environment gives its primed value. */
  lemma PrimedIsMerged(environ: Environment, fileVars: Environment, key: string)
    ensures Primed(environ, fileVars, key).Some? <==> key in LoadDotenv(environ, fileVars)
    ensures key in LoadDotenv(environ, fileVars) ==>
      Primed(environ, fileVars, key).value == LoadDotenv(environ, fileVars)[key]
  {
  }

  /** Without `DATABASE_PATH` the database is `shadowkz.db`; with it set to
      `custom.db` it is `custom.db`. */
  lemma DatabasePathDefault(env: Environment)
    requires "OWNER_ID" !in env || IsIntLiteral(env["OWNER_ID"])
    ensures "DATABASE_PATH" !in env ==> LoadConfig(env).value.db.path == "shadowkz.db"
    ensures LoadConfig(env["DATABASE_PATH" := "custom.db"]).value.db.path == "custom.db"
  {
  }

  /** An `OWNER_ID` written as any integer, negative ones included, is read back exactly. */
  lemma OwnerIdEchoed(env: Environment, id: int)
    ensures LoadConfig(env["OWNER_ID" := ShowInt(id)]).Ok?
    ensures LoadConfig(env["OWNER_ID" := ShowInt(id)]).value.tgBot.ownerId == id
  {
    ParseShowRoundTrip(id);
  }
}
