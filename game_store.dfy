/**
 * The progression store `useGameStore` (src/store/gameStore.ts) as a class
 * with one method per action. zustand keeps the store's fields in one state
 * object that each `set` replaces by a merged copy, so the class holds that
 * object, every modelled store field a field of it. The wall clock is
 * passed in: `now` for `Date.now()` and `today` for
 * `new Date().toDateString()`.
 */
module GameStore {
  import opened Wrappers
  import opened Types
  import opened JsNumber
  import opened Lists
  import opened StoreRules
  import Recipes
  import Ingredients
  import Orders
  import Customers
  import ScreenUtils
  import Rng

  /** Every modelled field of the store, as one value. */
  datatype StoreState = StoreState(
    gameState: GameState,
    currentScore: int,
    customersServed: int,
    combo: int,
    timeRemaining: int,
    gameStartTime: int,
    isPaused: bool,
    coins: int,
    level: int,
    exp: int,
    energy: int,
    maxEnergy: int,
    lastEnergyAt: Option<int>,
    lastEnergyResetDate: Option<string>,
    playerName: string,
    playerId: string,
    highScore: int,
    totalGamesPlayed: int,
    customers: seq<Customer>,
    settings: Settings,
    recentRecipeIds: seq<string>,
    sessionCoins: int,
    highCoins: int,
    leaderboard: seq<LeaderboardEntry>,
    recipeQueue: seq<string>,
    journeyDay: int,
    journal: seq<JournalEntry>,
    stats: Stats,
    hintTokens: int,
    dailyFreeHints: int,
    lastHintResetDate: Option<string>,
    recipeFreeHintUsed: map<string, bool>)

  const InitialSettings: Settings := Settings(Vi, 0.7, 0.5, true, true, Medium, true)

  const InitialStats: Stats :=
    Stats(map["student" := 0, "worker" := 0, "elderly" := 0, "tourist" := 0], map[], 0, 0, 0, 0, [])

  /** The store's initial state (gameStore.ts:152-195). */
  function Fresh(now: int, today: string): StoreState {
    StoreState(Menu, 0, 0, 0, 60, 0, false,
      0, 1, 0, 5, 5, Some(now), Some(today),
      "Player", "", 0, 0,
      [], InitialSettings,
      [], 0, 0, [], [], 0, [], InitialStats,
      0, 3, Some(today), map[])
  }

  /**
   * The daily check at the start of `startGame` (gameStore.ts:205-249): on a
   * new date, full energy, a new journey day and a rebuilt journal;
   * otherwise same-day regeneration.
   */
  function DayChecked(s: StoreState, today: string, now: int): StoreState {
    if s.lastEnergyResetDate != Some(today) then
      s.(energy := s.maxEnergy, lastEnergyResetDate := Some(today), lastEnergyAt := Some(now),
         journeyDay := s.journeyDay + 1,
         journal := RebuildJournal(s.journal, s.journeyDay + 1, s.coins, today))
    else
      var r := Regenerate(s.energy, s.maxEnergy, s.lastEnergyAt, now);
      s.(energy := r.energy, lastEnergyAt := r.lastEnergyAt)
  }

  /** What `partialize` writes to storage (gameStore.ts:689-713); collectibles are not modelled. */
  datatype Persisted = Persisted(
    playerName: string,
    playerId: string,
    highScore: int,
    highCoins: int,
    leaderboard: seq<LeaderboardEntry>,
    totalGamesPlayed: int,
    settings: Settings,
    coins: int,
    level: int,
    exp: int,
    energy: int,
    maxEnergy: int,
    lastEnergyAt: Option<int>,
    lastEnergyResetDate: Option<string>,
    journal: seq<JournalEntry>,
    journeyDay: int,
    stats: Stats,
    hintTokens: int,
    dailyFreeHints: int,
    lastHintResetDate: Option<string>,
    recipeFreeHintUsed: map<string, bool>)

  /** `partialize`: the persisted projection of a state. */
  function Partialize(s: StoreState): Persisted {
    Persisted(s.playerName, s.playerId, s.highScore, s.highCoins, s.leaderboard, s.totalGamesPlayed,
      s.settings, s.coins, s.level, s.exp, s.energy, s.maxEnergy, s.lastEnergyAt, s.lastEnergyResetDate,
      s.journal, s.journeyDay, s.stats, s.hintTokens, s.dailyFreeHints, s.lastHintResetDate,
      s.recipeFreeHintUsed)
  }

  /** Rehydration: the stored fields laid over a state, as the persist layer merges them. */
  function Rehydrate(s: StoreState, p: Persisted): StoreState {
    s.(playerName := p.playerName, playerId := p.playerId, highScore := p.highScore,
       highCoins := p.highCoins, leaderboard := p.leaderboard, totalGamesPlayed := p.totalGamesPlayed,
       settings := p.settings, coins := p.coins, level := p.level, exp := p.exp, energy := p.energy,
       maxEnergy := p.maxEnergy, lastEnergyAt := p.lastEnergyAt, lastEnergyResetDate := p.lastEnergyResetDate,
       journal := p.journal, journeyDay := p.journeyDay, stats := p.stats, hintTokens := p.hintTokens,
       dailyFreeHints := p.dailyFreeHints, lastHintResetDate := p.lastHintResetDate,
       recipeFreeHintUsed := p.recipeFreeHintUsed)
  }

  /**
   * Storing and restoring round-trips: what is restored is what was stored,
   * restoring a state's own projection changes nothing, and the session
   * fields (score, combo, timer, queue of customers) are never restored.
   */
  lemma PersistRoundTrip(s: StoreState, p: Persisted)
    ensures Partialize(Rehydrate(s, p)) == p
    ensures Rehydrate(s, Partialize(s)) == s
    ensures var r := Rehydrate(s, p);
      r.gameState == s.gameState && r.currentScore == s.currentScore && r.combo == s.combo &&
      r.timeRemaining == s.timeRemaining && r.customers == s.customers &&
      r.recipeQueue == s.recipeQueue && r.recentRecipeIds == s.recentRecipeIds && r.sessionCoins == s.sessionCoins
  {
  }

  /**
   * What every action keeps: at most five waiting customers, each with
   * patience in [0, 100] and an order of one or two items with a
   * non-negative total; exp below the threshold; no negative counters;
   * a ranked leaderboard; a recency buffer of at most three distinct ids;
   * and a journal that is empty or follows the milestones.
   */
  predicate Consistent(s: StoreState) {
    |s.customers| <= MaxCustomers &&
    (forall c :: c in s.customers ==>
       0 <= c.patience <= BasePatience && 1 <= |c.order.items| <= 2 && c.order.totalPrice >= 0) &&
    s.level >= 1 && 0 <= s.exp < LevelUpThreshold &&
    s.energy >= 0 && s.maxEnergy >= 0 &&
    s.coins >= 0 && s.sessionCoins >= 0 && s.currentScore >= 0 && s.combo >= 0 && s.timeRemaining >= 0 &&
    RankedBoard(s.leaderboard) &&
    |s.recentRecipeIds| <= 3 && NoDup(s.recentRecipeIds) &&
    (s.journal == [] || Aligned(s.journal)) &&
    s.hintTokens >= 0 && s.dailyFreeHints >= 0
  }

  /** `customers.filter(c => c.id !== customerId)` (gameStore.ts:470-475). */
  function WithoutCustomer(cs: seq<Customer>, id: string): (r: seq<Customer>)
    ensures forall c :: c in r <==> c in cs && c.id != id
    ensures |r| <= |cs|
    ensures (forall c :: c in cs ==> c.id != id) ==> r == cs
  {
    if |cs| == 0 then []
    else if cs[0].id == id then WithoutCustomer(cs[1..], id)
    else [cs[0]] + WithoutCustomer(cs[1..], id)
  }

  /**
   * A customer as `createCustomer` draws it at clock `now` (no seed),
   * carrying the order `generateOrder` builds for the difficulty with the
   * given exclusions: one item, or two when hard, each scaled from a
   * catalog recipe, the dishes picked in turn, and the total, time limit
   * and complexity summed from the items.
   */
  predicate NewcomerAt(c: Customer, d: Difficulty, now: int, exclude: seq<string>) {
    var start := Rng.InitialState(None, now);
    c == Customers.CustomerFrom(start, now).(order := c.order) &&
    |c.order.items| == Orders.ItemCount(d) &&
    Orders.ItemIds(c.order.items) == Orders.PicksInTurn(Recipes.RecipeCatalog, start, exclude, |c.order.items|) &&
    Orders.AllScaled(c.order.items, Recipes.RecipeCatalog, d) &&
    c.order.totalPrice == Orders.TotalPrice(c.order.items) &&
    c.order.timeLimit == Max(25, Orders.TotalPrep(c.order.items) + 10) &&
    c.order.complexity == Orders.Complexity(c.order.items) &&
    c.order.id == "order_" + IntString(now)
  }

  /** `createCustomer` and `generateOrder` joined (gameStore.ts:324-352). */
  method NewCustomer(d: Difficulty, now: int, exclude: seq<string>) returns (c: Customer)
    ensures NewcomerAt(c, d, now, exclude)
  {
    var customer := Customers.CreateCustomer(None, now);
    var order := Orders.GenerateOrder(d, None, now, exclude);
    c := customer.(order := order);
  }

  /**
   * A newcomer fits the store's invariant: patience within [0, 100], one or
   * two items with a non-negative total, and a first dish that is a catalog
   * id, never the empty string, so the recency buffer always takes it.
   */
  lemma NewcomerFacts(c: Customer, d: Difficulty, now: int, exclude: seq<string>)
    requires NewcomerAt(c, d, now, exclude)
    ensures 0 <= c.patience <= BasePatience && 1 <= |c.order.items| <= 2 && c.order.totalPrice >= 0
    ensures c.order.items[0].id in Recipes.CatalogIds && c.order.items[0].id != ""
  {
    var start := Rng.InitialState(None, now);
    Customers.PatienceAtLeast90(start, now);
    Orders.GeneratedTotalNonNegative(c.order.items, d);
    Orders.FirstItemIsCatalogId(c.order.items, d, start, exclude);
  }

  /** A newcomer joining a store with room for one more keeps the store's invariant. */
  lemma JoinKeepsConsistent(s: StoreState, c: Customer, recent: seq<string>, queue: seq<string>)
    requires Consistent(s) && |s.customers| < MaxCustomers
    requires 0 <= c.patience <= BasePatience && 1 <= |c.order.items| <= 2 && c.order.totalPrice >= 0
    requires |recent| <= 3 && NoDup(recent)
    ensures Consistent(s.(customers := s.customers + [c], recentRecipeIds := recent, recipeQueue := queue))
  {
    var cs := s.customers + [c];
    assert forall x :: x in cs ==> x in s.customers || x == c;
  }

  /** Changing only counters, within their bounds, keeps the store's invariant. */
  lemma CountersKeepConsistent(s: StoreState, t: StoreState)
    requires Consistent(s)
    requires t.customers == s.customers && t.leaderboard == s.leaderboard
    requires t.recentRecipeIds == s.recentRecipeIds && t.journal == s.journal
    requires t.energy == s.energy && t.maxEnergy == s.maxEnergy && t.timeRemaining == s.timeRemaining
    requires t.hintTokens == s.hintTokens && t.dailyFreeHints == s.dailyFreeHints
    requires t.level >= 1 && 0 <= t.exp < LevelUpThreshold
    requires t.coins >= 0 && t.sessionCoins >= 0 && t.currentScore >= 0 && t.combo >= 0
    ensures Consistent(t)
  {
  }

  /**
   * The zustand store: one mutable cell holding the state object. Every
   * `set({...})` of an action replaces it by a copy with the named fields
   * overwritten, written here as `state := state.(...)`; `get()` reads it.
   */
  class Store {
    var state: StoreState

    ghost predicate Valid()
      reads this
    {
      Consistent(state)
    }

    /** The store as created, with the clock read once. */
    constructor (now: int, today: string)
      ensures state == Fresh(now, today)
      ensures Valid()
    {
      state := Fresh(now, today);
    }

    /**
     * `startGame` (gameStore.ts:200-281): the daily check, then, unless
     * energy is used up, one energy point is spent and a session starts
     * with a full recipe queue and level and exp back at 1 and 0.
     */
    method StartGame(today: string, now: int)
      requires Valid()
      modifies this
      ensures Valid()
      ensures var d := DayChecked(old(state), today, now);
        if d.energy <= 0 then state == d
        else state == d.(energy := d.energy - 1, gameState := Playing, currentScore := 0,
          customersServed := 0, combo := 0,
          timeRemaining := ScreenUtils.GetTotalTime(ScreenUtils.DifficultyName(d.settings.difficulty)),
          gameStartTime := now, isPaused := false, customers := [], recentRecipeIds := [],
          level := 1, exp := 0, sessionCoins := 0, recipeQueue := Recipes.CatalogIds,
          stats := d.stats.(coinsEarnedThisSession := 0))
    {
      var s := state;
      if s.lastEnergyResetDate != Some(today) {
        state := state.(energy := s.maxEnergy, lastEnergyResetDate := Some(today), lastEnergyAt := Some(now));
        var nextDay := s.journeyDay + 1;
        state := state.(journeyDay := nextDay, journal := RebuildJournal(s.journal, nextDay, s.coins, today));
      } else {
        var r := Regenerate(s.energy, s.maxEnergy, s.lastEnergyAt, now);
        state := state.(energy := r.energy, lastEnergyAt := r.lastEnergyAt);
      }
      var check := state;
      if check.energy <= 0 {
        return;
      }
      state := state.(energy := Max(0, check.energy - 1));
      state := state.(gameState := Playing, currentScore := 0, customersServed := 0, combo := 0,
        timeRemaining := ScreenUtils.GetTotalTime(ScreenUtils.DifficultyName(s.settings.difficulty)),
        gameStartTime := now, isPaused := false, customers := [], recentRecipeIds := [],
        level := 1, exp := 0, sessionCoins := 0, recipeQueue := Recipes.CatalogIds,
        stats := s.stats.(coinsEarnedThisSession := 0));
    }

    /** `pauseGame` (gameStore.ts:283). */
    method PauseGame()
      modifies this
      ensures state == old(state).(isPaused := true)
    {
      state := state.(isPaused := true);
    }

    /** `resumeGame` (gameStore.ts:284). */
    method ResumeGame()
      modifies this
      ensures state == old(state).(isPaused := false)
    {
      state := state.(isPaused := false);
    }

    /**
     * `endGame` (gameStore.ts:286-318): the session's coins go on the
     * leaderboard, which is re-sorted and re-ranked; the high marks are
     * raised and the game is over.
     */
    method EndGame(now: int)
      requires Valid()
      modifies this
      ensures Valid()
      ensures var s := old(state);
        var e := LeaderboardEntry(0, s.playerName, s.sessionCoins, DurationSec(now, s.gameStartTime), s.customersServed);
        state == s.(gameState := GameOver, highScore := Max(s.highScore, s.currentScore),
          totalGamesPlayed := s.totalGamesPlayed + 1, isPaused := false,
          highCoins := Max(s.highCoins, s.sessionCoins), leaderboard := NewLeaderboard(s.leaderboard, e),
          stats := s.stats.(coinsEarnedThisSession := s.sessionCoins))
    {
      var s := state;
      var e := LeaderboardEntry(0, s.playerName, s.sessionCoins, DurationSec(now, s.gameStartTime), s.customersServed);
      LeaderboardAfterGame(s.leaderboard, e);
      state := state.(gameState := GameOver, highScore := Max(s.highScore, s.currentScore),
        totalGamesPlayed := s.totalGamesPlayed + 1, isPaused := false,
        highCoins := Max(s.highCoins, s.sessionCoins), leaderboard := NewLeaderboard(s.leaderboard, e),
        stats := s.stats.(coinsEarnedThisSession := s.sessionCoins));
    }

    /**
     * `spawnCustomerWithOrder` (gameStore.ts:321-359): with fewer than five
     * customers, one new customer with a generated order joins the end of
     * the queue, the others unchanged; the recipe queue rotates and the
     * recency buffer takes the order's first dish. The order excludes the
     * recent dishes and the first dishes of the waiting customers.
     */
    method SpawnCustomerWithOrder(now: int)
      requires Valid()
      modifies this
      ensures Valid()
      ensures |old(state.customers)| >= MaxCustomers ==> state == old(state)
      ensures |old(state.customers)| < MaxCustomers ==>
        var s := old(state);
        |state.customers| == |s.customers| + 1 && state.customers[..|s.customers|] == s.customers &&
        var c := state.customers[|s.customers|];
        NewcomerAt(c, s.settings.difficulty, now, ExcludeIds(s.recentRecipeIds, s.customers)) &&
        state == s.(customers := state.customers,
          recentRecipeIds := NextRecent(c.order.items[0].id, s.recentRecipeIds),
          recipeQueue := NextQueue(s.recipeQueue, Recipes.CatalogIds))
    {
      var s := state;
      if |s.customers| >= MaxCustomers {
        return;
      }
      var allIds := Recipes.CatalogIds;
      var nextQueue := NextQueue(s.recipeQueue, allIds);
      var exclude := ExcludeIds(s.recentRecipeIds, s.customers);
      var withOrder := NewCustomer(s.settings.difficulty, now, exclude);
      NewcomerFacts(withOrder, s.settings.difficulty, now, exclude);
      var firstId := withOrder.order.items[0].id;
      var nextRecent := if firstId != "" then NextRecent(firstId, s.recentRecipeIds) else s.recentRecipeIds;
      state := s.(customers := s.customers + [withOrder], recentRecipeIds := nextRecent, recipeQueue := nextQueue);
      assert state.customers[..|s.customers|] == s.customers;
      JoinKeepsConsistent(s, withOrder, nextRecent, nextQueue);
    }

    /**
     * `serveCurrentCustomerCorrect` (gameStore.ts:361-409): the head
     * customer's order is paid and scored at the current combo, the combo
     * and the served count go up, exp grows by max(1, items) with at most
     * one level-up, and the sales statistics are updated. The queue of
     * customers is left as it is.
     */
    method ServeCurrentCustomerCorrect()
      requires Valid()
      modifies this
      ensures Valid()
      ensures |old(state.customers)| == 0 ==> state == old(state)
      ensures |old(state.customers)| > 0 ==>
        var s := old(state);
        var head := s.customers[0];
        var p := ServeExp(Progress(s.level, s.exp), Max(1, |head.order.items|));
        var key := TypeKey(head.ctype);
        state == s.(
          currentScore := s.currentScore + SumScores(head.order.items, s.timeRemaining, s.combo),
          customersServed := s.customersServed + 1,
          combo := s.combo + 1,
          coins := s.coins + head.order.totalPrice,
          sessionCoins := s.sessionCoins + head.order.totalPrice,
          exp := p.exp, level := p.level,
          stats := s.stats.(
            customerTypeCounts := s.stats.customerTypeCounts[key := Get(s.stats.customerTypeCounts, key) + 1],
            itemSoldCounts := CountSold(s.stats.itemSoldCounts, head.order.items),
            totalSodaChaiSold := s.stats.totalSodaChaiSold + Occurrences(head.order.items, "soda_chai")))
    {
      var s := state;
      if |s.customers| == 0 {
        return;
      }
      var current := s.customers[0];
      assert current in s.customers;
      var points := SumScores(current.order.items, s.timeRemaining, s.combo);
      var coinsGain := current.order.totalPrice;
      var p := ServeExp(Progress(s.level, s.exp), Max(1, |current.order.items|));
      var key := TypeKey(current.ctype);
      var nextStats := s.stats.(
        customerTypeCounts := s.stats.customerTypeCounts[key := Get(s.stats.customerTypeCounts, key) + 1],
        itemSoldCounts := CountSold(s.stats.itemSoldCounts, current.order.items),
        totalSodaChaiSold := s.stats.totalSodaChaiSold + Occurrences(current.order.items, "soda_chai"));
      state := s.(currentScore := s.currentScore + points, customersServed := s.customersServed + 1,
        combo := s.combo + 1, coins := s.coins + coinsGain, sessionCoins := s.sessionCoins + coinsGain,
        exp := p.exp, level := p.level, stats := nextStats);
      CountersKeepConsistent(s, state);
    }

    /** `finalizeServeCurrentCustomer` (gameStore.ts:411-415): the head customer leaves. */
    method FinalizeServeCurrentCustomer()
      requires Valid()
      modifies this
      ensures Valid()
      ensures |old(state.customers)| == 0 ==> state == old(state)
      ensures |old(state.customers)| > 0 ==> state == old(state).(customers := old(state.customers[1..]))
    {
      var s := state;
      if |s.customers| == 0 {
        return;
      }
      state := state.(customers := s.customers[1..]);
    }

    /**
     * `serveCurrentCustomerWrong` (gameStore.ts:417-451): the head customer
     * loses 20 patience (not below 0) and turns angry at 20 or less, else
     * impatient; the combo breaks; coins fall by a tenth of the order and
     * the score by 50, neither below 0; the wrong-serve count goes up, and
     * the out-of-stock count by `missingCount` clamped to [0, 1]. An absent
     * `missingCount` is None.
     */
    method ServeCurrentCustomerWrong(missingCount: Option<int>)
      requires Valid()
      modifies this
      ensures Valid()
      ensures |old(state.customers)| == 0 ==> state == old(state)
      ensures |old(state.customers)| > 0 ==>
        var s := old(state);
        var head := s.customers[0];
        var patience := Max(0, head.patience - 20);
        var penalty := ScreenUtils.ComputePenalty(head.order.totalPrice);
        var missing := if missingCount.Some? then missingCount.value else 0;
        state == s.(
          customers := [head.(patience := patience, mood := if patience <= 20 then Angry else Impatient)] + s.customers[1..],
          combo := 0,
          coins := Max(0, s.coins - penalty),
          sessionCoins := Max(0, s.sessionCoins - penalty),
          currentScore := Max(0, s.currentScore - 50),
          stats := s.stats.(wrongServeCount := s.stats.wrongServeCount + 1,
                            outOfStockCount := s.stats.outOfStockCount + Max(0, Min(1, missing))))
    {
      var s := state;
      if |s.customers| == 0 {
        return;
      }
      var current := s.customers[0];
      assert current in s.customers;
      var updatedPatience := Max(0, current.patience - 20);
      var updatedMood := if updatedPatience <= 20 then Angry else Impatient;
      var updated := current.(patience := updatedPatience, mood := updatedMood);
      var penaltyCoins := ScreenUtils.ComputePenalty(current.order.totalPrice);
      var missing := if missingCount.Some? then missingCount.value else 0;
      var nextStats := s.stats.(wrongServeCount := s.stats.wrongServeCount + 1,
        outOfStockCount := s.stats.outOfStockCount + Max(0, Min(1, missing)));
      state := s.(customers := [updated] + s.customers[1..], combo := 0,
        coins := Max(0, s.coins - penaltyCoins), sessionCoins := Max(0, s.sessionCoins - penaltyCoins),
        currentScore := Max(0, s.currentScore - 50), stats := nextStats);
      assert forall c :: c in state.customers ==> c == updated || c in s.customers[1..];
    }

    /** `incrementCustomersServed` (gameStore.ts:462-465). */
    method IncrementCustomersServed()
      requires Valid()
      modifies this
      ensures Valid()
      ensures state == old(state).(customersServed := old(state.customersServed) + 1)
    {
      state := state.(customersServed := state.customersServed + 1);
    }

    /** `incrementCombo` (gameStore.ts:467-470). */
    method IncrementCombo()
      requires Valid()
      modifies this
      ensures Valid()
      ensures state == old(state).(combo := old(state.combo) + 1)
    {
      state := state.(combo := state.combo + 1);
    }

    /** `resetCombo` (gameStore.ts:472). */
    method ResetCombo()
      requires Valid()
      modifies this
      ensures Valid()
      ensures state == old(state).(combo := 0)
    {
      state := state.(combo := 0);
    }

    /**
     * `addCustomer` (gameStore.ts:475-478): appends without the five-customer
     * cap that `spawnCustomerWithOrder` applies, so it does not keep `Valid`.
     */
    method AddCustomer(customer: Customer)
      modifies this
      ensures state == old(state).(customers := old(state.customers) + [customer])
    {
      state := state.(customers := state.customers + [customer]);
    }

    /** `removeCustomer` (gameStore.ts:480-485): every customer with that id leaves, the rest keep their order. */
    method RemoveCustomer(customerId: string)
      requires Valid()
      modifies this
      ensures Valid()
      ensures state == old(state).(customers := WithoutCustomer(old(state.customers), customerId))
    {
      state := state.(customers := WithoutCustomer(state.customers, customerId));
    }

    /** `decrementTime` (gameStore.ts:538-542): one second off, not below 0, unless paused. */
    method DecrementTime()
      requires Valid()
      modifies this
      ensures Valid()
      ensures old(state.isPaused) ==> state == old(state)
      ensures !old(state.isPaused) ==> state == old(state).(timeRemaining := Max(0, old(state.timeRemaining) - 1))
    {
      var s := state;
      if s.isPaused {
        return;
      }
      state := state.(timeRemaining := Max(0, s.timeRemaining - 1));
    }

    /** `resetGame` (gameStore.ts:557-571): back to the menu with an empty session; free recipe hints return. */
    method ResetGame()
      requires Valid()
      modifies this
      ensures Valid()
      ensures state == old(state).(gameState := Menu, currentScore := 0, customersServed := 0,
        combo := 0, timeRemaining := 60, gameStartTime := 0, isPaused := false, customers := [],
        recipeFreeHintUsed := map[])
    {
      state := state.(gameState := Menu, currentScore := 0, customersServed := 0, combo := 0,
        timeRemaining := 60, gameStartTime := 0, isPaused := false, customers := [],
        recipeFreeHintUsed := map[]);
    }

    /** `addCoins` (gameStore.ts:574-577): negative amounts add nothing. */
    method AddCoins(amount: int)
      requires Valid()
      modifies this
      ensures Valid()
      ensures state == old(state).(coins := old(state.coins) + Max(0, amount))
    {
      state := state.(coins := state.coins + Max(0, amount));
    }

    /**
     * `addExp` (gameStore.ts:578-584): the gain, never negative, is carried
     * into levels by floor division, so exp stays below the threshold.
     */
    method AddExpPoints(amount: int)
      requires Valid()
      modifies this
      ensures Valid()
      ensures var p := AddExp(Progress(old(state.level), old(state.exp)), amount);
        state == old(state).(level := p.level, exp := p.exp)
      ensures state.level * LevelUpThreshold + state.exp ==
        old(state.level) * LevelUpThreshold + old(state.exp) + Max(0, amount)
    {
      var s := state;
      var p := AddExp(Progress(s.level, s.exp), amount);
      state := state.(exp := p.exp, level := p.level);
    }

    /** `consumeEnergy` (gameStore.ts:585-588): never below 0. */
    method ConsumeEnergy(amount: int)
      requires Valid()
      modifies this
      ensures Valid()
      ensures state == old(state).(energy := Max(0, old(state.energy) - Max(0, amount)))
    {
      state := state.(energy := Max(0, state.energy - Max(0, amount)));
    }

    /** `restoreEnergy` (gameStore.ts:589-594): never above `maxEnergy`. */
    method RestoreEnergy(amount: int)
      requires Valid()
      modifies this
      ensures Valid()
      ensures state == old(state).(energy := Min(old(state.maxEnergy), old(state.energy) + Max(0, amount)))
    {
      state := state.(energy := Min(state.maxEnergy, state.energy + Max(0, amount)));
    }

    /** `restoreEnergyOverflow` (gameStore.ts:595-598): no cap, so energy may pass `maxEnergy`. */
    method RestoreEnergyOverflow(amount: int)
      requires Valid()
      modifies this
      ensures Valid()
      ensures state == old(state).(energy := old(state.energy) + Max(0, amount))
    {
      state := state.(energy := state.energy + Max(0, amount));
    }

    /** `watchAdEnergy` (gameStore.ts:599-603): one point, capped, and the regeneration clock restarts. */
    method WatchAdEnergy(now: int)
      requires Valid()
      modifies this
      ensures Valid()
      ensures state == old(state).(energy := Min(old(state.maxEnergy), old(state.energy) + 1), lastEnergyAt := Some(now))
    {
      state := state.(energy := Min(state.maxEnergy, state.energy + 1), lastEnergyAt := Some(now));
    }

    /**
     * `refreshEnergy` (gameStore.ts:604-625): on a new date, full energy and
     * three free hints; otherwise same-day regeneration.
     */
    method RefreshEnergy(today: string, now: int)
      requires Valid()
      modifies this
      ensures Valid()
      ensures old(state.lastEnergyResetDate) != Some(today) ==>
        state == old(state).(energy := old(state.maxEnergy), lastEnergyResetDate := Some(today),
          lastEnergyAt := Some(now), dailyFreeHints := 3)
      ensures old(state.lastEnergyResetDate) == Some(today) ==>
        var r := Regenerate(old(state.energy), old(state.maxEnergy), old(state.lastEnergyAt), now);
        state == old(state).(energy := r.energy, lastEnergyAt := r.lastEnergyAt)
    {
      var s := state;
      if s.lastEnergyResetDate != Some(today) {
        state := state.(energy := s.maxEnergy, lastEnergyResetDate := Some(today), lastEnergyAt := Some(now));
        state := state.(dailyFreeHints := 3);
        return;
      }
      var r := Regenerate(s.energy, s.maxEnergy, s.lastEnergyAt, now);
      state := state.(energy := r.energy, lastEnergyAt := r.lastEnergyAt);
    }

    /** `resetRoundTimer` (gameStore.ts:626-636). */
    method ResetRoundTimer()
      requires Valid()
      modifies this
      ensures Valid()
      ensures state == old(state).(timeRemaining := RoundTime(old(state.settings.difficulty), old(state.level)))
    {
      state := state.(timeRemaining := RoundTime(state.settings.difficulty, state.level));
    }

    /** `resetDailyHints` (gameStore.ts:638-644). */
    method ResetDailyHints(today: string)
      requires Valid()
      modifies this
      ensures Valid()
      ensures old(state.lastHintResetDate) != Some(today) ==>
        state == old(state).(dailyFreeHints := 3, lastHintResetDate := Some(today))
      ensures old(state.lastHintResetDate) == Some(today) ==> state == old(state)
    {
      if state.lastHintResetDate != Some(today) {
        state := state.(dailyFreeHints := 3, lastHintResetDate := Some(today));
      }
    }

    /**
     * `getRecipeHint` (gameStore.ts:646-684): for a catalog dish, spend one
     * hint budget, in the order per-dish free hint, daily free hints, hint
     * tokens, and return the hint list `HintIds` of the dish's ingredient
     * ids: up to three distinct ids, the category picks first, then the
     * dish's ids in order. An unknown dish or exhausted budgets give None
     * and change nothing.
     */
    method GetRecipeHint(itemId: string) returns (r: Option<seq<string>>)
      requires Valid()
      modifies this
      ensures Valid()
      ensures var s := old(state);
        var used := itemId in s.recipeFreeHintUsed && s.recipeFreeHintUsed[itemId];
        if itemId !in Recipes.CatalogIds || (used && s.dailyFreeHints <= 0 && s.hintTokens <= 0) then
          r.None? && state == s
        else
          r.Some? &&
          (!used ==> state == s.(recipeFreeHintUsed := s.recipeFreeHintUsed[itemId := true])) &&
          (used && s.dailyFreeHints > 0 ==> state == s.(dailyFreeHints := s.dailyFreeHints - 1)) &&
          (used && s.dailyFreeHints <= 0 ==> state == s.(hintTokens := s.hintTokens - 1))
      ensures r.Some? ==>
        var recipe := Recipes.GetRecipeById(itemId).value;
        var ids := IdsOf(recipe.ingredients, IngredientId);
        r.value == HintIds(ids)
    {
      var rec := Recipes.GetRecipeById(itemId);
      if rec.None? {
        return None;
      }
      var charged := ChargeHint(itemId);
      if !charged {
        return None;
      }
      var picks := HintPicks(IdsOf(rec.value.ingredients, IngredientId));
      r := Some(picks);
    }

    /**
     * The budget half of `getRecipeHint` (gameStore.ts:652-662): the
     * per-dish free hint if unused, else a daily free hint, else a hint
     * token; false, with nothing changed, when all three are spent.
     */
    method ChargeHint(itemId: string) returns (charged: bool)
      requires Valid()
      modifies this
      ensures Valid()
      ensures var s := old(state);
        var used := itemId in s.recipeFreeHintUsed && s.recipeFreeHintUsed[itemId];
        if used && s.dailyFreeHints <= 0 && s.hintTokens <= 0 then
          !charged && state == s
        else
          charged &&
          (!used ==> state == s.(recipeFreeHintUsed := s.recipeFreeHintUsed[itemId := true])) &&
          (used && s.dailyFreeHints > 0 ==> state == s.(dailyFreeHints := s.dailyFreeHints - 1)) &&
          (used && s.dailyFreeHints <= 0 ==> state == s.(hintTokens := s.hintTokens - 1))
    {
      var s := state;
      var wasFreeUsed := itemId in s.recipeFreeHintUsed && s.recipeFreeHintUsed[itemId];
      charged := true;
      if !wasFreeUsed {
        state := state.(recipeFreeHintUsed := s.recipeFreeHintUsed[itemId := true]);
      } else if s.dailyFreeHints > 0 {
        var left := Max(0, s.dailyFreeHints - 1);
        assert left == s.dailyFreeHints - 1;
        state := s.(dailyFreeHints := left);
      } else if s.hintTokens > 0 {
        var left := Max(0, s.hintTokens - 1);
        assert left == s.hintTokens - 1;
        state := s.(hintTokens := left);
      } else {
        charged := false;
      }
    }

    /** `partialize` applied to the current state. */
    function Persist(): (p: Persisted)
      reads this
      ensures Rehydrate(state, p) == state
    {
      Partialize(state)
    }
  }

  /**
   * The in-session actions that only touch session fields leave the stored
   * projection as it was: spawning, finishing a serve, the timer, pausing.
   */
  method SessionActionsKeepPersisted(st: Store, now: int)
    requires st.Valid()
    modifies st
    ensures st.Valid()
    ensures st.Persist() == old(st.Persist())
  {
    st.SpawnCustomerWithOrder(now);
    st.FinalizeServeCurrentCustomer();
    st.DecrementTime();
    st.PauseGame();
    st.DecrementTime();
    st.ResumeGame();
  }
}
