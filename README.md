# ShadowKZ bot configuration: a Dafny model

This project models `config.py` of the ShadowKZ Telegram bot in Dafny. That file is the configuration layer
of a social-deduction game bot. It has five parts:

- An import-time `load_dotenv()` that primes the process environment from a `.env` file.
- Dataclasses for the bot connection (`TgBot`), the database location (`DatabaseConfig`), the game rules
  (`GameConfig`), the in-game economy (`EconomyConfig`) and the aggregate (`Config`).
- `__post_init__` hooks that fill in the built-in tables when the caller passes none. The tables are the role
  split per player-count tier, the diamond/coin exchange rates and the shop prices.
- `load_config`, which builds a `Config` from environment variables.
- `validate_config`, which checks four rules in order and raises on the first one that fails.

The model is purely functional:

- Every section is an immutable `datatype`.
- The environment is a `map<string, string>`.
- `None` is `Option.None`.
- A raised `ValueError` is an `Err` of a `Result`.
- The `__post_init__` defaulting is a constructor function, `NewGameConfig` or `NewEconomyConfig`, whose
  parameters carry the dataclass defaults.

Files:

- `wrappers.dfy`: the `Option` and `Result` types.
- `builtins.dfy`: Python's `int()` on strings and ASCII `str.lower()`. The round-trip property `int(str(n)) == n` is proved there.
- `sections.dfy`: the data model, the default tables, the constructors and the facts about the tables.
- `loader.dfy`: `load_config`, and `load_dotenv`'s merge of file variables into the environment.
- `validator.dfy`: `validate_config`, plus lemmas about loading followed by validation.

Notes on config.py's behaviour:

- Loading can fail: `int(OWNER_ID)` raises on a non-integer value, so `LoadConfig` returns
  `Err(OwnerIdNotInteger)`.
- An empty `BOT_TOKEN` is not rejected while loading. Only `validate_config` rejects it.
- Only an owner id of `0` is rejected. Negative owner ids load and validate.
- Role counts and item costs are Python dicts with fixed string keys. The model uses records for them
  (`RoleCounts`, `ItemCost`, and `ExchangeRates` and `ShopPrices` for the two outer dicts).

## Model

| member | source | states |
|---|---|---|
| `PyBuiltins.ParseInt` | config.py:135 | `int(s)` succeeds exactly on an optional `+`/`-` followed by one or more decimal digits. The value is the decimal value of the digits, negated after `-` (so `+5` is 5, `-05` is -5, `-0` is 0) |
| `PyBuiltins.ParseShowRoundTrip` | config.py:135 | `int(str(n)) == n` for every integer `n`, negative ones included |
| `PyBuiltins.ParseIntRejects` | config.py:135 | a non-digit anywhere except a leading sign, or a sign alone, makes `int()` fail |
| `PyBuiltins.Lower` | config.py:143 | lower-casing keeps the length and lower-cases each ASCII capital, leaving every other character unchanged |
| `PyBuiltins.LowerIsTrue` | config.py:143 | `s.lower() == "true"` holds exactly for the four letters t, r, u, e in any mix of cases |
| `Sections.DefaultRoleDistribution` | config.py:40-49 | the default tiers are exactly 9, 12, 15, 20, 25 and 30; each lies in [9, 30], its three camp counts are non-negative, and they sum to the tier (e.g. 20 = 11 + 6 + 3) |
| `Sections.DefaultExchangeRates` | config.py:69-82 | coin-to-diamond is the exact inverse of diamond-to-coin in both directions, and both tables strictly increase |
| `Sections.DefaultShopPrices` | config.py:84-106 | the diamond and coin packs cost strictly more the larger they are; the five named items each cost a non-negative amount with at least one positive component |
| `Sections.NewGameConfig` | config.py:29-49 | scalar fields take the given values (defaults 9, 30, 60, 30); a supplied role table, even an empty one, is kept unchanged; only `None` is replaced by the default table |
| `Sections.NewEconomyConfig` | config.py:52-106 | scalar fields take the given values (defaults 100, -50, 10, -5, 5, 5); each table is kept when supplied and defaulted only when `None`, each from its own argument alone |
| `Sections.DefaultGameWellFormed` | config.py:31-49 | the argument-free game section has min <= max, positive timers, and every default tier within [min, max] with camps summing to it |
| `Sections.DefaultEconomyWellFormed` | config.py:56-106 | the argument-free economy section has positive win rewards, negative loss deltas, a positive streak threshold, mutually inverse exchange tables and well-formed shop prices |
| `Sections.DefaultExchangeCycleGains` | config.py:70-82 | the default rates are not proportional: 5 diamonds fetch more than five times what 1 diamond fetches; if exchanges may be repeated in lots of the player's choosing, 1000 coins in 200-coin lots and back in 5-diamond lots return 2000 coins |
| `Loader.LoadDotenv` | config.py:129-130 | merging a file's variables adds the keys of both; a variable already in the environment keeps its value; a file variable fills only a missing one |
| `Loader.LoadConfig` | config.py:132-144 | loading fails exactly when `OWNER_ID` is set to a non-integer. Otherwise each field is the variable's value when set and its default when not: token `""`, owner id `0`, payment token `None`, path `shadowkz.db`. Game and economy are the argument-free sections, and debug holds exactly when `DEBUG` is set to "true" in some mix of cases |
| `Loader.GetEnv` | config.py:134-143 | `os.getenv(key, default)`: the variable's value when it is set, the default otherwise |
| `Loader.LoadConfigAt` | config.py:119-144 | without a path, or with an empty one, the environment is used as is. With a path, each of `BOT_TOKEN`, `OWNER_ID`, `PAYMENT_TOKEN`, `DATABASE_PATH` and `DEBUG` takes the live value when set, else the file's value, else its default. Loading fails exactly when that primed `OWNER_ID` is not an integer |
| `Loader.LoadPrimed` | config.py:129-143 | for an environment primed with any file variables, every field read by `load_config` and its single failure condition, stated per variable as live value, else file value, else default |
| `Loader.DatabasePathDefault` | config.py:138-140 | an unset `DATABASE_PATH` gives `shadowkz.db`; `custom.db` gives `custom.db` |
| `Loader.OwnerIdEchoed` | config.py:135 | an `OWNER_ID` written as any integer loads and is read back as that integer |
| `Validator.Validate` | config.py:148-170 | `True` exactly when all four rules hold: non-empty token, owner id != 0, min players >= 9, max players <= 30. Otherwise the error is a failing rule all of whose predecessors in the order token, owner, min, max pass |
| `Validator.ValidateDeterminedByRules` | config.py:158-170 | two configurations that pass and fail the same rules get the same verdict |
| `Validator.Reason` | config.py:158-168 | the message of each `ValueError`: the credential messages begin with `BOT_TOKEN` and `OWNER_ID`, the range messages with the Kazakh words for "minimum" and "maximum", and each ends in `!` |
| `Validator.ReasonsDistinct` | config.py:158-168 | the four error messages are pairwise different |
| `Validator.PlayerBounds` | config.py:164-168 | both bounds are inclusive: 9/30 validate, min 8 fails with `MinTooLow`, max 31 with `MaxTooHigh` |
| `Validator.ValidateAllowsInvertedRange` | config.py:148-170 | the validator does not check min <= max: a section with min 20 and max 10 is not well formed yet validates |
| `Validator.LoadThenValidate` | config.py:119-170 | loading then validating succeeds exactly when `BOT_TOKEN` is set and non-empty and `OWNER_ID` is set to a non-zero integer |
| `Validator.MissingTokenReportedFirst` | config.py:134-159 | an absent or empty `BOT_TOKEN` is always reported as `TokenMissing`, whatever else fails |
| `Validator.MissingOwnerRejected` | config.py:135-162 | with a token set: an absent or `"0"` owner id fails with `OwnerMissing`, and a non-integer one fails loading |
| `Validator.ValidCredentialsAccepted` | config.py:132-170 | any non-empty token and non-zero decimal owner id load, are echoed exactly, and validate |
| `Validator.StartupScenario` | config.py:119-170 | `BOT_TOKEN=abc123`, `OWNER_ID=555`: owner 555, path `shadowkz.db`, debug off, validates |

## Left out

- Reading `.env` files (`load_dotenv()` when the module is imported, and `load_dotenv(path)`) is file I/O in the
  python-dotenv library. The model takes the already-primed environment, or a map from paths to the variables each
  file defines. A path that names no file adds nothing.
- Loader.LoadDotenv: the rule that existing variables win (`override=False`) is python-dotenv's documented default.
  It is not visible in config.py, so this contract is an assumption about that library.
- The `__main__` block only prints a summary, so it is not modelled.
- `load_dotenv(path)` writes the file's variables into `os.environ` for the rest of the process, so a later
  `load_config()` without a path still sees them. `LoadConfigAt` returns no environment, so this lasting effect is
  not captured: each call starts from the environment it is given.
- Whether the game lets a player repeat exchanges in lots of their choosing is up to the game engine, which is not
  part of this model; `Sections.DefaultExchangeCycleGains` only states the cycle under that assumption.
- PyBuiltins.ParseInt: does not model all of Python's `int()`. Surrounding whitespace, `_` digit separators and
  non-ASCII decimal digits, which `int()` accepts, are treated as failures here. Strings longer than Python's
  4300-digit conversion limit, which `int()` rejects, parse here.
- PyBuiltins.Lower: lower-cases ASCII letters only. Python's `str.lower()` follows full Unicode case mapping.
- Python dataclasses are mutable, and a caller-supplied table is shared with the caller, not copied. The model's
  values are immutable, so later mutation and aliasing are not captured.
- Callers can pass any dict as `exchange_rates` or `shop_prices`, including one without the expected keys. The model
  types these tables as records with the expected fields, so such malformed tables cannot be expressed.
- `validate_config` is called on a `Config` whose fields are already typed. A token of `None`, which Python
  would also treat as missing, has no counterpart in the model.
