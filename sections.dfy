/** The configuration sections of config.py as immutable values, the default
    tables that `GameConfig.__post_init__` and `EconomyConfig.__post_init__`
    fill in, and the facts those tables satisfy. */
module Sections {
  import opened Wrappers

  /** Connection to the Telegram bot API. */
  datatype TgBot = TgBot(token: string, ownerId: int, paymentToken: Option<string> := None)

  /** Where the persistence layer keeps its database file. */
  datatype DatabaseConfig = DatabaseConfig(path: string)

  /** How many players of each camp a match of a given size gets. */
  datatype RoleCounts = RoleCounts(peaceful: int, shadow: int, neutral: int) {
    function Total(): (n: int) {
      peaceful + shadow + neutral
    }
  }

  /** Player-count tier to its role split. */
  type RoleTable = map<int, RoleCounts>

  datatype GameConfig = GameConfig(
    minPlayers: int,
    maxPlayers: int,
    registrationTime: int,   // seconds
    extendTime: int,         // seconds added by /extend
    roleDistribution: RoleTable)

  /** The two directions of the diamond/coin exchange: lot size to what it buys. */
  datatype ExchangeRates = ExchangeRates(diamondToCoin: map<int, int>, coinToDiamond: map<int, int>)

  /** Price of a named shop item, in coins and in diamonds. */
  datatype ItemCost = ItemCost(coins: int, diamonds: int)

  /** Real-money prices of currency packs (quantity to price) and in-game item prices. */
  datatype ShopPrices = ShopPrices(diamonds: map<int, int>, coins: map<int, int>, items: map<string, ItemCost>)

  datatype EconomyConfig = EconomyConfig(
    winCoins: int,
    loseCoins: int,
    winRating: int,
    loseRating: int,
    streakDiamonds: int,
    streakRequired: int,
    exchangeRates: ExchangeRates,
    shopPrices: ShopPrices)

  datatype Config = Config(
    tgBot: TgBot,
    db: DatabaseConfig,
    game: GameConfig,
    economy: EconomyConfig,
    debug: bool := false)

  // ---------------------------------------------------------------------------
  // Properties of the tables

  /** Every tier lies in the playable range and its camps add up to the tier. */
  predicate RolesFitTiers(roles: RoleTable, minPlayers: int, maxPlayers: int) {
    forall k | k in roles ::
      && minPlayers <= k <= maxPlayers
      && roles[k].Total() == k
      && roles[k].peaceful >= 0 && roles[k].shadow >= 0 && roles[k].neutral >= 0
  }

  /** The internal consistency a game section is meant to have. */
  predicate WellFormedGame(g: GameConfig) {
    && g.minPlayers <= g.maxPlayers
    && g.registrationTime > 0 && g.extendTime > 0
    && RolesFitTiers(g.roleDistribution, g.minPlayers, g.maxPlayers)
  }

  /** A larger quantity always maps to a larger value. */
  predicate StrictlyIncreasing(m: map<int, int>) {
    forall a, b | a in m && b in m && a < b :: m[a] < m[b]
  }

  /** Each table undoes the other: converting a lot and converting back gives the lot. */
  predicate MutualInverse(forth: map<int, int>, back: map<int, int>) {
    && (forall d | d in forth :: forth[d] in back && back[forth[d]] == d)
    && (forall c | c in back :: back[c] in forth && forth[back[c]] == c)
  }

  /** No item is free and no cost is negative. */
  predicate ItemsHaveCost(items: map<string, ItemCost>) {
    forall name | name in items ::
      items[name].coins >= 0 && items[name].diamonds >= 0
      && (items[name].coins > 0 || items[name].diamonds > 0)
  }

  // ---------------------------------------------------------------------------
  // Default tables

  const DefaultTiers: set<int> := {9, 12, 15, 20, 25, 30}

  /** The role split for each supported player count. */
  function DefaultRoleDistribution(): (roles: RoleTable)
    ensures roles.Keys == DefaultTiers
    ensures RolesFitTiers(roles, 9, 30)
  {
    map[
      9 := RoleCounts(4, 4, 1),
      12 := RoleCounts(6, 4, 2),
      15 := RoleCounts(8, 5, 2),
      20 := RoleCounts(11, 6, 3),
      25 := RoleCounts(14, 7, 4),
      30 := RoleCounts(17, 9, 4)]
  }

  /** The built-in exchange tables: each is increasing and the other's inverse. */
  function DefaultExchangeRates(): (r: ExchangeRates)
    ensures r.diamondToCoin.Keys == {1, 2, 5} && r.coinToDiamond.Keys == {100, 200, 1000}
    ensures MutualInverse(r.diamondToCoin, r.coinToDiamond)
    ensures StrictlyIncreasing(r.diamondToCoin) && StrictlyIncreasing(r.coinToDiamond)
  {
    ExchangeRates(
      map[1 := 100, 2 := 200, 5 := 1000],
      map[100 := 1, 200 := 2, 1000 := 5])
  }

  /** The built-in price lists: packs cost more the larger they are, items are never free. */
  function DefaultShopPrices(): (s: ShopPrices)
    ensures s.diamonds.Keys == {1, 2, 5} && s.coins.Keys == {200, 500, 1000}
    ensures StrictlyIncreasing(s.diamonds) && StrictlyIncreasing(s.coins)
    ensures s.items.Keys == {"fake_document", "shield", "role_peaceful", "role_neutral", "role_shadow"}
    ensures ItemsHaveCost(s.items)
  {
    ShopPrices(
      map[1 := 250, 2 := 500, 5 := 750],
      map[200 := 500, 500 := 750, 1000 := 1000],
      map[
        "fake_document" := ItemCost(200, 0),
        "shield" := ItemCost(500, 0),
        "role_peaceful" := ItemCost(0, 5),
        "role_neutral" := ItemCost(0, 10),
        "role_shadow" := ItemCost(0, 20)])
  }

  // ---------------------------------------------------------------------------
  // Construction: the dataclass defaults plus __post_init__

  /** `GameConfig(...)`: the role table is the caller's when one is given
      (even an empty one) and the default table only when it is `None`. */
  function NewGameConfig(
    minPlayers: int := 9,
    maxPlayers: int := 30,
    registrationTime: int := 60,
    extendTime: int := 30,
    roleDistribution: Option<RoleTable> := None): (g: GameConfig)
    ensures g.minPlayers == minPlayers && g.maxPlayers == maxPlayers
    ensures g.registrationTime == registrationTime && g.extendTime == extendTime
    ensures roleDistribution.Some? ==> g.roleDistribution == roleDistribution.value
    ensures roleDistribution.None? ==> g.roleDistribution == DefaultRoleDistribution()
  {
    GameConfig(minPlayers, maxPlayers, registrationTime, extendTime,
      roleDistribution.GetOr(DefaultRoleDistribution()))
  }

  /** `EconomyConfig(...)`: each of the two tables is defaulted on its own,
      from its own argument only. */
  function NewEconomyConfig(
    winCoins: int := 100,
    loseCoins: int := -50,
    winRating: int := 10,
    loseRating: int := -5,
    streakDiamonds: int := 5,
    streakRequired: int := 5,
    exchangeRates: Option<ExchangeRates> := None,
    shopPrices: Option<ShopPrices> := None): (e: EconomyConfig)
    ensures e.winCoins == winCoins && e.loseCoins == loseCoins
    ensures e.winRating == winRating && e.loseRating == loseRating
    ensures e.streakDiamonds == streakDiamonds && e.streakRequired == streakRequired
    ensures exchangeRates.Some? ==> e.exchangeRates == exchangeRates.value
    ensures exchangeRates.None? ==> e.exchangeRates == DefaultExchangeRates()
    ensures shopPrices.Some? ==> e.shopPrices == shopPrices.value
    ensures shopPrices.None? ==> e.shopPrices == DefaultShopPrices()
  {
    EconomyConfig(winCoins, loseCoins, winRating, loseRating, streakDiamonds, streakRequired,
      exchangeRates.GetOr(DefaultExchangeRates()), shopPrices.GetOr(DefaultShopPrices()))
  }

  // ---------------------------------------------------------------------------
  // Facts about the defaults

  /** The argument-free game section is consistent: 9 <= 30, positive timers,
      and every tier of the default table inside [9, 30] with camps summing to it. */
  lemma DefaultGameWellFormed()
    ensures WellFormedGame(NewGameConfig())
    ensures NewGameConfig().roleDistribution.Keys == DefaultTiers
  {
    var g := NewGameConfig();
    assert g.roleDistribution == DefaultRoleDistribution();
  }

  /** The argument-free economy section: rewards are positive, losses negative,
      and the default tables satisfy all the properties above. */
  lemma DefaultEconomyWellFormed()
    ensures var e := NewEconomyConfig();
      && e.winCoins > 0 && e.loseCoins < 0 && e.winRating > 0 && e.loseRating < 0
      && e.streakDiamonds >= 0 && e.streakRequired > 0
      && MutualInverse(e.exchangeRates.diamondToCoin, e.exchangeRates.coinToDiamond)
      && StrictlyIncreasing(e.shopPrices.diamonds) && StrictlyIncreasing(e.shopPrices.coins)
      && ItemsHaveCost(e.shopPrices.items)
  {
    var e := NewEconomyConfig();
    assert e.exchangeRates == DefaultExchangeRates();
    assert e.shopPrices == DefaultShopPrices();
  }

  /** The default exchange is not proportional: a 5-diamond lot is worth 200 coins
      per diamond, a 1-diamond lot 100.  Should the game let a player exchange
      repeatedly in lots of its choosing (that is up to the game engine, which is
      not part of this model), 1000 coins taken as five 200-coin lots and the
      resulting diamonds taken as 5-diamond lots come back as twice the coins. */
  lemma DefaultExchangeCycleGains()
    ensures var r := DefaultExchangeRates();
      && 5 * r.diamondToCoin[1] < r.diamondToCoin[5]
      && (1000 / 200) * r.coinToDiamond[200] / 5 * r.diamondToCoin[5] == 2 * 1000
  {
  }
}
