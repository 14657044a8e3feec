/** `validate_config`: four guard checks, evaluated in a fixed order; the first
    one that fails is the error reported. */
module Validator {
  import opened Wrappers
  import opened PyBuiltins
  import opened Sections
  import opened Loader

  /** The rules, in the order they are checked; each constructor names the
      error raised when its rule fails. */
  datatype ConfigError = TokenMissing | OwnerMissing | MinTooLow | MaxTooHigh

  const MinPlayersFloor: int := 9
  const MaxPlayersCeiling: int := 30

  /** Position of a rule in the checking order. */
  function Rank(rule: ConfigError): (n: nat) {
    match rule
    case TokenMissing => 0
    case OwnerMissing => 1
    case MinTooLow => 2
    case MaxTooHigh => 3
  }

  /** Whether `c` satisfies `rule` (Python truthiness: an empty token and an
      owner id of 0 are false). */
  predicate Passes(c: Config, rule: ConfigError) {
    match rule
    case TokenMissing => c.tgBot.token != ""
    case OwnerMissing => c.tgBot.ownerId != 0
    case MinTooLow => c.game.minPlayers >= MinPlayersFloor
    case MaxTooHigh => c.game.maxPlayers <= MaxPlayersCeiling
  }

  /** The `ValueError` message raised for each rule: the two credential
      messages name their variable, the two range messages start with the
      words for "minimum" and "maximum", and every message ends in `!`. */
  function Reason(e: ConfigError): (m: string)
    ensures |m| > 0 && m[|m| - 1] == '!'
    ensures e == TokenMissing ==> |m| >= 9 && m[..9] == "BOT_TOKEN"
    ensures e == OwnerMissing ==> |m| >= 8 && m[..8] == "OWNER_ID"
    ensures e == MinTooLow ==> |m| >= 9 && m[..9] == "Минималды"
    ensures e == MaxTooHigh ==> |m| >= 10 && m[..10] == "Максималды"
  {
    match e
    case TokenMissing => "BOT_TOKEN орнатылмаған!"
    case OwnerMissing => "OWNER_ID орнатылмаған!"
    // the first word of each range message is kept apart so that it can be named
    case MinTooLow => "Минималды" + " ойыншылар саны 9-дан кем болмауы керек!"
    case MaxTooHigh => "Максималды" + " ойыншылар саны 30-дан көп болмауы керек!"
  }

  /** `True` exactly when every rule passes; otherwise the error of a failing
      rule all of whose predecessors pass, i.e. the first failing one. */
  function Validate(c: Config): (r: Result<bool, ConfigError>)
    ensures r.Ok? <==> forall rule: ConfigError :: Passes(c, rule)
    ensures r.Ok? ==> r.value
    ensures r.Err? ==> !Passes(c, r.error)
    ensures r.Err? ==> forall rule: ConfigError :: Rank(rule) < Rank(r.error) ==> Passes(c, rule)
  {
    if c.tgBot.token == "" then
      assert !Passes(c, TokenMissing);
      Err(TokenMissing)
    else if c.tgBot.ownerId == 0 then
      assert !Passes(c, OwnerMissing);
      Err(OwnerMissing)
    else if c.game.minPlayers < MinPlayersFloor then
      assert !Passes(c, MinTooLow);
      Err(MinTooLow)
    else if c.game.maxPlayers > MaxPlayersCeiling then
      assert !Passes(c, MaxTooHigh);
      Err(MaxTooHigh)
    else
      Ok(true)
  }

  /** The error is determined by the rules: the first failing one in order,
      so two configurations that pass and fail the same rules get the same verdict. */
  lemma ValidateDeterminedByRules(c: Config, d: Config)
    requires forall rule: ConfigError :: Passes(c, rule) == Passes(d, rule)
    ensures Validate(c) == Validate(d)
  {
    assert Passes(c, TokenMissing) == Passes(d, TokenMissing);
    assert Passes(c, OwnerMissing) == Passes(d, OwnerMissing);
    assert Passes(c, MinTooLow) == Passes(d, MinTooLow);
    assert Passes(c, MaxTooHigh) == Passes(d, MaxTooHigh);
  }

  /** Each message names a different rule, so the message identifies the failure. */
  lemma ReasonsDistinct(e1: ConfigError, e2: ConfigError)
    requires e1 != e2
    ensures Reason(e1) != Reason(e2)
  {
  }

  /** The bounds are inclusive: 9 and 30 pass, 8 and 31 fail with their own error. */
  lemma PlayerBounds(c: Config)
    requires c.tgBot.token != "" && c.tgBot.ownerId != 0
    ensures c.game.minPlayers == 9 && c.game.maxPlayers == 30 ==> Validate(c) == Ok(true)
    ensures c.game.minPlayers == 8 ==> Validate(c) == Err(MinTooLow)
    ensures c.game.minPlayers >= 9 && c.game.maxPlayers == 31 ==> Validate(c) == Err(MaxTooHigh)
  {
  }

  /** The validator checks no more than its four rules: a game section with
      minPlayers above maxPlayers still validates. */
  lemma ValidateAllowsInvertedRange(c: Config)
    requires c.tgBot.token != "" && c.tgBot.ownerId != 0
    requires c.game.minPlayers == 20 && c.game.maxPlayers == 10
    ensures !WellFormedGame(c.game) && Validate(c) == Ok(true)
  {
  }

  // ---------------------------------------------------------------------------
  // Loading followed by validation

  /** `validate_config(load_config())` returns `True` exactly when `BOT_TOKEN`
      is set and non-empty and `OWNER_ID` is set to a non-zero integer: the
      default 9..30 player range always passes its two checks. */
  lemma LoadThenValidate(env: Environment)
    ensures
      (LoadConfig(env).Ok? && Validate(LoadConfig(env).value).Ok?)
      <==>
      (&& "BOT_TOKEN" in env && env["BOT_TOKEN"] != ""
       && "OWNER_ID" in env && ParseInt(env["OWNER_ID"]).Some?
       && ParseInt(env["OWNER_ID"]).value != 0)
  {
    var r := LoadConfig(env);
    if r.Ok? {
      var c := r.value;
      assert c.game.minPlayers == 9 && c.game.maxPlayers == 30;
      if c.tgBot.token != "" && c.tgBot.ownerId != 0 {
        assert Validate(c).Ok?;
      }
    }
  }

  /** An empty or absent `BOT_TOKEN` is reported as the token error, whatever
      else is wrong with the configuration. */
  lemma MissingTokenReportedFirst(env: Environment)
    requires LoadConfig(env).Ok?
    requires "BOT_TOKEN" !in env || env["BOT_TOKEN"] == ""
    ensures Validate(LoadConfig(env).value) == Err(TokenMissing)
  {
  }

  /** With a token, an `OWNER_ID` that is absent or `0` is reported as the
      owner error; one that is not an integer stops loading itself. */
  lemma MissingOwnerRejected(env: Environment)
    requires "BOT_TOKEN" in env && env["BOT_TOKEN"] != ""
    ensures "OWNER_ID" !in env ==> Validate(LoadConfig(env).value) == Err(OwnerMissing)
    ensures "OWNER_ID" in env && env["OWNER_ID"] == "0" ==> Validate(LoadConfig(env).value) == Err(OwnerMissing)
    ensures "OWNER_ID" in env && !IsIntLiteral(env["OWNER_ID"]) ==> LoadConfig(env) == Err(OwnerIdNotInteger)
  {
    if "OWNER_ID" in env && env["OWNER_ID"] == "0" {
      assert DigitsValue("0") == 0;
    }
  }

  /** Any non-empty token with any non-zero owner id, written in decimal, loads
      and validates, and the configuration echoes both. */
  lemma ValidCredentialsAccepted(token: string, id: int)
    requires token != "" && id != 0
    ensures var r := LoadConfig(map["BOT_TOKEN" := token, "OWNER_ID" := ShowInt(id)]);
      && r.Ok? && r.value.tgBot.token == token && r.value.tgBot.ownerId == id
      && Validate(r.value) == Ok(true)
  {
    ParseShowRoundTrip(id);
  }

  /** `BOT_TOKEN=abc123`, `OWNER_ID=555` and nothing else: the database is
      `shadowkz.db`, debugging is off, and the configuration validates. */
  lemma StartupScenario()
    ensures var r := LoadConfig(map["BOT_TOKEN" := "abc123", "OWNER_ID" := "555"]);
      && r.Ok? && r.value.tgBot.ownerId == 555
      && r.value.db.path == "shadowkz.db" && !r.value.debug
      && Validate(r.value) == Ok(true)
  {
    assert ShowInt(555) == "555" by {
      assert ShowNat(5) == "5";
      assert ShowNat(55) == "55";
    }
    ValidCredentialsAccepted("abc123", 555);
  }
}
