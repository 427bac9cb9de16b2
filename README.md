# VintageVendor game logic in Dafny

This project models the game logic of VintageVendor, a street-food stall game.
The player serves customers. Each customer arrives with an order of one or two
dishes. The player picks the right ingredients before the customer's patience
runs out, and earns coins, score, combo, experience and journey milestones.

The model covers:

- the progression store `useGameStore` (src/store/gameStore.ts). This is a
  class whose methods are the store's actions. The pure rules inside those
  actions are in `StoreRules`: energy regeneration, the journal rebuild, the
  leaderboard sort and rank, the recency buffer, the recipe queue, recipe
  hints, experience and sales statistics;
- the order generator (src/game/orders.ts), with recipe pick, exclusion,
  difficulty scaling and requirements;
- the seedable generator (src/game/rng.ts), as a class over its state;
- serve validation and scoring (src/game/serve.ts);
- customer creation (src/game/customers.ts);
- the recipe, ingredient and category tables (src/game/recipes.ts,
  src/game/ingredients.ts, src/game/categories.ts);
- dish compilation (src/game/combine.ts);
- the screen helpers (src/screens/helpers/GameScreen.utils.ts);
- stall-image and food/ingredient-image selection (src/game/assets.ts).

One Dafny module stands for each source file. `Types` holds the records of
src/types/index.ts. `Wrappers`, `JsNumber` and `Lists` hold `Option`/`Result`,
the JavaScript number operations the code relies on (`Math.round`, the
truncating `%`, `${n}`), and array idioms (`new Set` de-duplication, `slice`).

Modelling choices:

- **Store state.** zustand holds the store's fields in one state object.
  Every `set({...})` replaces that object with a merged copy, and `get()`
  reads it. `GameStore.Store` therefore holds one field, `state`, of the
  record type `StoreState`, with one component per modelled store field. Each
  action's `ensures` states the whole new state as
  `old(state).(field := ...)`. That way "nothing else changes" is part of
  every contract. `Valid()` is the invariant `Consistent`, which every action
  except `addCustomer` keeps:
  - at most five customers, each with patience in [0, 100] and one or two
    items;
  - exp below 10 and level at least 1;
  - no negative counters;
  - a ranked, sorted leaderboard;
  - a recency buffer of at most three distinct ids;
  - a journal aligned with the milestones.
- **Clock.** `now` stands for `Date.now()` and `today` for
  `new Date().toDateString()`. Both are parameters, and one action reads one
  `now`.
- **Generator.** The generator is `Rng.Lcg`, whose field `s` is the closure
  variable of `createRng`. The `& 0xffffffff` of rng.ts:12 applies
  ECMAScript's ToInt32 (section 7.1.6 of ECMA-262). ToInt32 is a signed
  reinterpretation, so `nextFloat` lies in [-1/2, 1/2), not in [0, 1), and
  `nextInt(min, max)` reaches about half an interval below `min`. The model
  keeps this. Its consequences are proved where they appear:
  - customer patience is always at least 90;
  - only 'student', 'worker' or no type can occur;
  - a pick is always among the first half of the candidates, or is the
    fallback `cafe_vot`;
  - a requirement count can be negative.
- **Double rounding in the generator.** The step `s * 1664525 + 1013904223`
  is computed on doubles. The game seeds the generator with `Date.now()`
  (about 1.76e12) or `Date.now() + i`, so the product exceeds 2^53 and loses
  its low bits. `JsNumber.ToDouble` rounds an integer to the nearest double,
  ties to even, as IEEE 754 does, and `Rng.Step` applies it to the product
  and again to the sum. Every draw the model fixes from a seed (customers,
  picks, orders) is the draw of this rounded recurrence.
  `Rng.ClockSeedRounds` shows a clock seed where rounding changes the state.
  From a state in [0, 2^32), which every state after the first step from a
  non-negative seed is, the arithmetic is exact (`Rng.StepExact`).
- **Exact numbers.** Outside the generator step, doubles become exact
  integers and rationals: the combo multiplier `(10 + combo) / 10`, the time
  bonus `t / 2`, the difficulty multipliers 9/10, 1 and 115/100, and the
  penalty `price / 10`. `Math.round` rounds half-way cases up.
- **Shuffle.** The random-comparator `sort` used as a shuffle
  (orders.ts:39-41) depends on the JavaScript engine. The model takes it as
  an arbitrary rearrangement of the pool.
- **Images.** Images are opaque tokens naming the file each `require` loads.

Behaviour of the code that the model keeps, and proves where it matters:

- `nextFloat` is signed, so `nextFloat` and `nextInt` do not stay in [0, 1)
  and [min, max].
- A hard order can name `cafe_vot` twice. Both picks can fall back to
  `RECIPE_CATALOG[0]`, which ignores the exclusion list.
- `forceRecipeId` and `customerType` are passed to `generateOrder` at
  gameStore.ts:343-348. `OrderOptions` does not declare them, so they have no
  effect.
- `restoreEnergyOverflow` can raise energy above `maxEnergy`.
- The correct-serve path wraps exp at 10 only once. `addExp` carries into
  levels by division.
- `addCustomer` appends without the five-customer cap.
- `startGame` sets level and exp back to 1 and 0 in every session.
- `getCandidateRequiredId` treats an empty-string id as missing, because
  `||` tests truthiness.
- `ITEM_IMAGES` and `INGREDIENT_IMAGES` are plain object literals, so an id
  such as "constructor" or "toString" finds a member inherited from
  `Object.prototype` (`Assets.Inherited`).

## Model

| member | source | states |
|---|---|---|
| Rng.Step | src/game/rng.ts:11 | One step, with the product and then the sum rounded to the nearest double (ties to even) before the truncating `%`, stays strictly between -2^32 and 2^32 |
| Rng.ToInt32 | src/game/rng.ts:12 | `x & 0xffffffff` is the signed 32-bit value congruent to x modulo 2^32, in [-2^31, 2^31) |
| Rng.StepExact | src/game/rng.ts:11 | From a state in [0, 2^32), the product stays below 2^53, so the step is the exact LCG recurrence and the state stays in [0, 2^32) |
| Rng.ClockSeedRounds | src/game/rng.ts:11 | For the clock value 1760000000123 the rounded step gives 124304384, where the exact recurrence would give 124304286 |
| Rng.FloatRange | src/game/rng.ts:12 | A float lies in [-1/2, 1/2), and it is negative exactly when bit 31 of the new state is set |
| Rng.Lcg.constructor | src/game/rng.ts:7-8 | The initial state is the seed when one is given, else the clock value |
| Rng.Lcg.NextFloat | src/game/rng.ts:9-13 | Advances the state by exactly one rounded step and returns the signed float of the new state, in [-1/2, 1/2) |
| Rng.Lcg.NextInt | src/game/rng.ts:15-18 | One rounded step, then `floor(min + r * (max - min + 1))` of that step's float |
| Rng.Lcg.Chance | src/game/rng.ts:20-22 | One rounded step; true exactly when that step's float is below the probability |
| Rng.IntOfRange | src/game/rng.ts:17 | With n = max - min + 1, a draw lies in [min - ceil(n/2), min + ceil(n/2) - 1], not in [min, max] |
| Rng.NextIntRange | src/game/rng.ts:15-18 | Every `nextInt(min, max)` draw from any state lies in that shifted range |
| Rng.IntOfIsFloor | src/game/rng.ts:17 | The draw as the model computes it is `floor(min + r * (max - min + 1))` with a real product |
| Rng.NextIntBelowMin | src/game/rng.ts:11-17 | Seed 700: the first float is negative and `nextInt(0, 3)` returns -2, below `min` |
| Rng.SameSeedSameDraws | src/game/rng.ts:7-13 | Two generators built from the same seed yield the same k floats: the floats `Floats(seed, k)` of the rounded recurrence, for any seed, clock-sized ones included |
| Rng.TimesIsProduct | src/game/rng.ts:17 | Repeated addition of a draw equals its product with the interval width |
| Rng.TimesBounds | src/game/rng.ts:17 | n draws in [-1/2, 1/2) sum to at least -n/2, and to less than n/2 when n > 0 |
| JsNumber.JsRem | src/game/rng.ts:11 | `a % b` for b > 0 lies strictly between -b and b, is the ordinary remainder for a >= 0, and is never positive for a <= 0 |
| JsNumber.Spacing | src/game/rng.ts:11 | The gap between neighbouring doubles is at least 1, and exactly 1 below 2^53 |
| JsNumber.SpacingOfBinade | src/game/rng.ts:11 | In the binade [2^(52+e), 2^(53+e)) neighbouring doubles are 2^e apart |
| JsNumber.RoundTo | src/game/rng.ts:11 | Rounding to multiples of 1 changes nothing |
| JsNumber.RoundToNearest | src/game/rng.ts:11 | The rounded value is a multiple of the spacing and lies within half a spacing of the exact value (round to nearest) |
| JsNumber.RoundToSpacing | src/game/rng.ts:11 | A natural number below 2^53 is its own double |
| JsNumber.ToDouble | src/game/rng.ts:11 | An integer below 2^53 in magnitude is its own double |
| JsNumber.NatString | src/game/customers.ts:13 | `${n}` of a natural number is a non-empty string of decimal digits |
| JsNumber.IntString | src/game/customers.ts:13 | `${n}` of an integer is non-empty |
| JsNumber.Round | src/game/serve.ts:27 | `Math.round` returns the integer within half a unit of x, and takes the upper one at a tie |
| JsNumber.RoundMonotone | src/game/serve.ts:27 | `Math.round` never reverses the order of its arguments |
| JsNumber.RoundOfInt | src/game/serve.ts:27 | `Math.round` leaves an integer unchanged |
| Serve.ToLower | src/game/serve.ts:10-11 | Lower-casing keeps a name's length |
| Serve.LowerNames | src/game/serve.ts:10-11 | One lower-cased name per ingredient |
| Serve.Absent | src/game/serve.ts:13-14 | The `filter`; its contents, multiplicity and order are stated by `Serve.AbsentSpec` |
| Serve.AbsentSpec | src/game/serve.ts:13-14 | The `filter` keeps exactly the names absent from the other list, each as often as it occurs, in their order (a subsequence) |
| Serve.ValidateServe | src/game/serve.ts:9-21 | `missing` is the expected names absent from the provided ones, `extra` the provided names absent from the expected ones; each keeps its list's order (a subsequence) and each kept name's full multiplicity, which fixes the list. `ok` holds iff both lists are empty |
| Serve.ValidateIsSetEquality | src/game/serve.ts:13-20 | A serve is accepted iff the two lower-cased name lists hold the same set of names |
| Serve.OkDependsOnlyOnNameSets | src/game/serve.ts:13-14 | Permuting or duplicating entries of either list never changes `ok` |
| Serve.CoveredSidesEmpty | src/game/serve.ts:13-20 | No extra name when every provided name is expected, and nothing missing when every expected name is provided |
| Serve.TimeBonus | src/game/serve.ts:25 | The bonus is never negative, and it is (t + 1) / 2 for t >= 0, i.e. t/2 rounded half up |
| Serve.ComboMultiplier | src/game/serve.ts:26 | The multiplier is at least 1 |
| Serve.CalculateServeScore | src/game/serve.ts:23-28 | The score is at least 100 + 20 per ingredient + the time bonus, and exactly that when combo <= 0 |
| Serve.ComboScoreAtLeastSum | src/game/serve.ts:26-27 | The combo multiplier never lowers a non-negative sum, and leaves it unchanged when combo <= 0 |
| Serve.ScoreExample | src/game/serve.ts:23-28 | Three ingredients, 20 s left and combo 2 give round(170 * 1.2) = 204 |
| Serve.ScoreMonotoneInCombo | src/game/serve.ts:23-28 | The score never falls as the combo grows |
| Serve.ComboScoreMonotoneInCombo | src/game/serve.ts:26-27 | For a fixed non-negative sum, the rounded product never falls as the combo grows |
| Serve.ScoreMonotoneInTime | src/game/serve.ts:23-28 | The score never falls when more time remains |
| Serve.ComboScoreMonotoneInSum | src/game/serve.ts:26-27 | For a fixed combo, the rounded product never falls as the sum grows |
| Serve.TimeBonusMonotone | src/game/serve.ts:25 | More time never gives less bonus |
| Combine.StrLeTotal | src/game/combine.ts:4 | The default sort order compares any two ids |
| Combine.StrLeReflexive | src/game/combine.ts:4 | The default sort order is reflexive |
| Combine.StrLeAntisymmetric | src/game/combine.ts:4 | Two ids that each precede the other are equal |
| Combine.StrLeTransitive | src/game/combine.ts:4 | The default sort order is transitive |
| Combine.Insert | src/game/combine.ts:4 | Insertion into a sorted list keeps it sorted and adds exactly the one id |
| Combine.SortIds | src/game/combine.ts:3-5 | The sorted copy is sorted and a permutation of its input; the input is a value and is left unchanged |
| Combine.SortedUnique | src/game/combine.ts:16-17 | Two sorted lists with the same multiset of ids are equal |
| Combine.SortIdsEqualIffSameMultiset | src/game/combine.ts:14-17 | The sorted copies are equal iff the lists hold the same multiset of ids |
| Combine.IdsOfRecipe | src/game/combine.ts:7-11 | The ids of the recipe's ingredients, position by position |
| Combine.SameList | src/game/combine.ts:17 | The length test plus `every` by index holds iff the two lists are equal |
| Combine.SortedIdsEqual | src/game/combine.ts:16-17 | The test of one recipe holds iff the selection has the recipe's ids with the same multiplicities |
| Combine.FirstMatch | src/game/combine.ts:15-21 | Returns the first recipe of the list that matches the selection, or none iff no recipe matches |
| Combine.CompileSelectedDish | src/game/combine.ts:13-22 | Returns the first catalog recipe whose id multiset equals the selection's, or none iff there is none |
| Combine.MatchIgnoresOrder | src/game/combine.ts:14 | Whether a selection makes a recipe does not depend on the selection's order |
| Combine.DuplicatesMatter | src/game/combine.ts:17 | `["soda"]` makes `soda_chai`, but `["soda", "soda"]` makes no recipe: lengths must match |
| Ingredients.GetIngredientById | src/game/ingredients.ts:29-33 | A result is a catalog entry with that id; `undefined` iff the id is not in the catalog |
| Ingredients.CatalogIdsDistinct | src/game/ingredients.ts:3-27 | The catalog has 23 entries with pairwise-distinct ids |
| Ingredients.IdsListed | src/game/ingredients.ts:3-27 | The catalog's ids, in order, are the listed constant |
| Ingredients.IdsDistinctLow | src/game/ingredients.ts:4-11 | The first eight ids occur nowhere later in the catalog |
| Ingredients.IdsDistinctMid | src/game/ingredients.ts:12-19 | Ids 8 to 15 occur nowhere later in the catalog |
| Ingredients.IdsDistinctHigh | src/game/ingredients.ts:20-26 | Ids 16 to 22 occur nowhere later in the catalog |
| Ingredients.GetIngredientByIdExact | src/game/ingredients.ts:29-33 | Each catalog id finds exactly its own entry |
| Recipes.GetRecipeById | src/game/recipes.ts:132-134 | A result is a catalog recipe with that id; `undefined` iff no recipe has the id |
| Recipes.ToOrderItem | src/game/recipes.ts:136-153 | `undefined` gives the "unknown" placeholder with no ingredients, price 0 and time 0. A recipe gives a copy of its id, name and ingredients, with base price, preparation time and no requirements |
| Recipes.GetRecipeByIdExact | src/game/recipes.ts:132-134 | Each catalog id finds exactly the recipe at its position |
| Recipes.CatalogNonEmpty | src/game/recipes.ts:11-130 | The catalog holds 11 recipes, so `RECIPE_CATALOG[0]` exists |
| Recipes.CatalogIdsMatch | src/game/recipes.ts:11-130 | The catalog's ids, in order, are the listed constant |
| Recipes.CatalogIdsNoDup | src/game/recipes.ts:11-130 | No two recipes share an id |
| Recipes.CatalogIdsNonEmpty | src/game/recipes.ts:11-130 | No recipe id is the empty string |
| Recipes.RecipesWellFormedLow | src/game/recipes.ts:12-57 | Recipes 0 to 3 have ingredients, distinct ingredient ids, and positive price and time |
| Recipes.RecipesWellFormedMid | src/game/recipes.ts:58-97 | Recipes 4 to 7 are well formed |
| Recipes.RecipesWellFormedHigh | src/game/recipes.ts:98-129 | Recipes 8 to 10 are well formed |
| Recipes.CatalogRecipesWellFormed | src/game/recipes.ts:11-130 | Every recipe has at least one ingredient, distinct ingredient ids, and positive base price and time |
| Recipes.CatalogWellFormed | src/game/recipes.ts:11-130 | 11 well-formed recipes with pairwise-distinct ids |
| Recipes.CatalogRecipeWellFormed | src/game/recipes.ts:11-130 | Any recipe drawn from the catalog is well formed |
| Recipes.RecipeIngredientsInCatalog | src/game/recipes.ts:11-130 | Every ingredient id a recipe uses is in the ingredient catalog |
| Recipes.CatalogCopyMayDiffer | src/game/recipes.ts:112 | The recipe's copy of `ca_vien` weighs 80 g, while the catalog entry (ingredients.ts:22) weighs 60 g |
| Lists.IdsOf | src/screens/helpers/GameScreen.utils.ts:147-149 | `map(i => i.id)`: one id per entry, position by position |
| Lists.FindIndex | src/game/recipes.ts:132-134 | `find` by id: the first entry with that id, or -1 iff none has it |
| Lists.Dedupe | src/store/gameStore.ts:352 | `Array.from(new Set(s))`: no repeats, the same elements, no longer than s, and the first element first |
| Lists.DedupeNoDup | src/store/gameStore.ts:352 | A list without repeats is its own de-duplication |
| Lists.DedupeExtends | src/store/gameStore.ts:677-682 | De-duplicating a longer list only appends to the de-duplication of its prefix |
| Lists.Take | src/store/gameStore.ts:683 | `slice(0, n)`: the first min(n, length) entries |
| Lists.SliceTo | src/game/orders.ts:42 | `slice(0, end)`: a prefix, of length `end` clamped to the list, or length plus `end` (at least 0) for a negative `end` |
| Lists.TakeDedupeFacts | src/store/gameStore.ts:670-683 | The first n distinct entries of `first + ids` begin with `first`, come from `ids`, and number min(n, distinct ids) |
| Categories.KeysComplete | src/game/categories.ts:1-29 | Exactly five distinct keys with distinct names, each with a non-empty label |
| Categories.KeyIndex | src/game/categories.ts:1-6 | Each key's position in the declaration order |
| Categories.CategoryIds | src/game/categories.ts:8-21 | The id lists; disjointness and coverage are stated by the lemmas below |
| Categories.CategoryLabel | src/game/categories.ts:23-29 | The labels; `Categories.KeysComplete` states they are non-empty |
| Categories.CategoriesDisjoint | src/game/categories.ts:8-21 | An id listed under one key is listed under no other |
| Categories.BaseDisjoint | src/game/categories.ts:9 | The base ids appear in no other category |
| Categories.ProteinDisjoint | src/game/categories.ts:10 | The protein ids appear in no other category |
| Categories.LiquidDisjoint | src/game/categories.ts:11-18 | The liquid ids appear in no other category |
| Categories.ToppingDisjoint | src/game/categories.ts:19 | The topping ids appear in no other category |
| Categories.SpicesDisjoint | src/game/categories.ts:20 | The spice ids appear in no other category |
| Categories.CategoriesCoverCatalog | src/game/categories.ts:8-21 | An id is listed under some key iff it is an id of the ingredient catalog |
| Customers.TypeAt | src/game/customers.ts:9 | `CUSTOMER_TYPES[i]` is a type iff 0 <= i < 4, and `undefined` otherwise |
| Customers.PatienceOf | src/game/customers.ts:15 | Patience is clamped to [30, 100], and is 100 - draw when that is already in range |
| Customers.CreateCustomer | src/game/customers.ts:11-32 | The customer built from five draws of the rounded generator in order (suffix, type, patience, x, y), with patience in [30, 100], mood neutral and the placeholder order |
| Customers.PatienceAtLeast90 | src/game/customers.ts:15 | With the signed draw, patience is always in [90, 100] |
| Customers.TypeIsStudentWorkerOrNone | src/game/customers.ts:9-14 | Only 'student', 'worker' or no type can occur |
| Customers.PositionRange | src/game/customers.ts:16 | Each coordinate lies in [-31, 50], not in [10, 90] |
| Customers.SuffixRange | src/game/customers.ts:13 | The id suffix lies in [-3500, 5499] and can be negative |
| Customers.Seed700Suffix | src/game/customers.ts:13 | Seed 700 gives the suffix -3434 |
| Customers.Seed700HasNoType | src/game/customers.ts:14 | Seed 700 draws type index -1, so that customer has no type |
| Orders.AllowedSpec | src/game/orders.ts:12-15 | The candidates are exactly the catalog recipes whose id is not excluded |
| Orders.Allowed | src/game/orders.ts:12-15 | The candidate filter; stated by `Orders.AllowedSpec` and `Orders.AllowedBySet` |
| Orders.PickFrom | src/game/orders.ts:12-19 | The pick from a state; stated by `Orders.PickFromIsCatalogId`, `Orders.PickRespectsExclusion` and `Orders.PickAmongFirstHalf` |
| Orders.PickRecipeIdFrom | src/game/orders.ts:11-20 | The pick from a given recipe list is always one of that list's ids |
| Orders.PickRecipeId | src/game/orders.ts:11-20 | The pick is the drawn candidate or the fallback, and always a catalog id |
| Orders.PickFromIsCatalogId | src/game/orders.ts:16-19 | Every pick is an id of the list it was drawn from |
| Orders.PickRespectsExclusion | src/game/orders.ts:17-18 | An excluded id can be returned only as the fallback `cafe_vot` |
| Orders.PickAmongFirstHalf | src/game/orders.ts:17 | A pick is the fallback or one of the first ceil(n/2) candidates |
| Orders.NegativeIndex | src/game/orders.ts:17 | A negative float makes the index negative |
| Orders.NegativeDrawFallsBack | src/game/orders.ts:17-18 | A negative draw always yields `cafe_vot` |
| Orders.FallbackIgnoresExclusion | src/game/orders.ts:18 | Seed 700 returns `cafe_vot` even when `cafe_vot` is excluded |
| Orders.RequirementPool | src/game/orders.ts:23-35 | Each pool has distinct entries and at most three of them |
| Orders.BanhBoHasNoPool | src/game/orders.ts:35-36 | `banh_bo` is a catalog dish without a pool, so it gets no requirements |
| Orders.GenerateRequirements | src/game/orders.ts:22-43 | The result is distinct, drawn from the pool, and at most min(2, pool size) long. Because `slice` takes a negative count from the end, it is never the whole pool |
| Orders.Multiplier | src/game/orders.ts:50 | The difficulty multiplier lies in [9/10, 115/100] |
| Orders.Scale | src/game/orders.ts:53-54 | Medium leaves a value unchanged. For x >= 0 the scaled value lies between x * 9/10 and x * 115/100, rounded |
| Orders.ItemIds | src/game/orders.ts:66-67 | One id per item |
| Orders.GenerateOrderItemFrom | src/game/orders.ts:45-57 | The item is the recipe picked from the list, scaled for the difficulty, with distinct requirements from its pool |
| Orders.GenerateOrderItem | src/game/orders.ts:45-57 | The item is the picked catalog recipe with scaled price and time, id, name and ingredients copied, and requirements from its pool |
| Orders.AllowedBySet | src/game/orders.ts:12 | The filter depends only on the set of excluded ids |
| Orders.PickBySet | src/game/orders.ts:12-19 | The pick depends only on the set of excluded ids, so neither order nor repeats matter |
| Orders.PicksInTurnStep | src/game/orders.ts:64-67 | Turn n picks with seed state + n, excluding the given ids plus the distinct earlier picks |
| Orders.PicksInTurn | src/game/orders.ts:63-68 | n picks for n turns; what each pick excludes is stated by `Orders.PicksInTurnStep` |
| Orders.FirstTwoPicks | src/game/orders.ts:63-68 | The second pick of a hard order excludes the first |
| Orders.OrderStep | src/game/orders.ts:64-67 | One turn keeps the items in step with the reference picks, and `picked` with their distinct ids |
| Orders.PicksStep | src/game/orders.ts:64-66 | One turn extends the reference picks by the new item's id |
| Orders.PickedStep | src/game/orders.ts:67 | `picked.add` adds the id only if it is new |
| Orders.ItemIdsAppend | src/game/orders.ts:66 | `push` appends the item's id to the ids |
| Orders.AllScaledStep | src/game/orders.ts:65-66 | Appending a scaled item keeps every item scaled from some recipe |
| Orders.NextItem | src/game/orders.ts:64-67 | One loop turn draws the next reference pick and updates `picked` as the Set does |
| Orders.DrawItems | src/game/orders.ts:60-68 | The loop draws `itemCount` items whose ids are the reference picks in turn, each scaled from a recipe |
| Orders.Assemble | src/game/orders.ts:70-80 | The order holds the items, their summed price and complexity, and the time limit max(25, prep + 10) |
| Orders.GenerateOrderFrom | src/game/orders.ts:59-81 | 1 item (2 when hard), picked in turn and scaled. Total price, complexity and time limit max(25, prep + 10) are summed from the items, and the time limit is at least 25 |
| Orders.GenerateOrder | src/game/orders.ts:59-81 | The same over the game's catalog |
| Orders.TotalPriceNonNegative | src/game/orders.ts:70 | Items scaled from recipes with non-negative prices have a non-negative total |
| Orders.GeneratedTotalNonNegative | src/game/orders.ts:70 | A generated order's total is never negative |
| Orders.FirstItemIsCatalogId | src/game/orders.ts:63-68 | The first item is a catalog dish, never the empty id |
| Orders.OrderPicks | src/game/orders.ts:63-68 | The first item is the first pick, and a hard order's second item is the pick that excludes the first |
| Orders.HardOrderCanRepeatDish | src/game/orders.ts:17-18 | With seed 700 both items of a hard order are `cafe_vot`, although the second excludes it |
| Assets.HighestReached | src/game/assets.ts:116-123 | The greatest index whose cost the coins reach (no later index is reached), or -1 when none is |
| Assets.GetStallImage | src/game/assets.ts:113-131 | The downward scan returns the upgrade at the greatest reached index, else the base stall |
| Assets.HighestReachedUnique | src/game/assets.ts:116-123 | The index that contract describes is the only one |
| Assets.StallTiers | src/game/assets.ts:113-131 | Below 2 200 000 coins the base stall. Below 3 000 000 the upgrade at index 3. From 3 000 000 on the upgrade at index 4. Indices 0-2 never show |
| Assets.GetItemImage | src/game/assets.ts:67-69 | The id's own food image when `ITEM_IMAGES` has it, the inherited member for an `Object.prototype` name, else `undefined` |
| Assets.ItemImagesMatchRecipes | src/game/assets.ts:53-69 | Exactly the recipe ids have a food image; any other id gives `undefined` unless it is an `Object.prototype` name ("constructor" gives the inherited member); `soda_chanh_muoi` shares the image of `soda_da_chanh` |
| Assets.GetIngredientImage | src/game/assets.ts:97-99 | The id's own image; else the inherited member for an `Object.prototype` name, which is truthy; else the boiling-water image |
| Assets.IngredientImagesCoverCatalog | src/game/assets.ts:71-99 | Exactly the catalog ingredients have an image. The fallback serves every other id that is not an `Object.prototype` name; "toString" gives the inherited member |
| ScreenUtils.BuildProvidedIngredients | src/screens/helpers/GameScreen.utils.ts:10-19 | The provided list; stated by `ScreenUtils.ProvidedSpec`, `ScreenUtils.ProvidedKeepsOrder` and `ScreenUtils.ProvideAll` |
| ScreenUtils.ProvidedSpec | src/screens/helpers/GameScreen.utils.ts:10-19 | The provided list holds exactly the item's selected ingredients, each as often as the item lists it |
| ScreenUtils.ProvidedKeepsOrder | src/screens/helpers/GameScreen.utils.ts:14-18 | The provided entries sit at strictly increasing positions of the item's list (order preserved) |
| ScreenUtils.ProvideAll | src/screens/helpers/GameScreen.utils.ts:14-18 | Selecting every ingredient provides the item's list unchanged |
| ScreenUtils.ProvidedServes | src/screens/helpers/GameScreen.utils.ts:10-19 | What the screen provides never has an extra name, and selecting every ingredient passes `validateServe` |
| ScreenUtils.ComputePenalty | src/screens/helpers/GameScreen.utils.ts:35-37 | Never negative, and (price + 5) / 10 (a tenth, rounded half up) for a non-negative price |
| ScreenUtils.PenaltyBounds | src/screens/helpers/GameScreen.utils.ts:35-37 | At most the price, at least 1 from a price of 5, and worked values (12000 to 1200, 7005 to 701, 4 to 0) |
| ScreenUtils.FirstAllowed | src/screens/helpers/GameScreen.utils.ts:73-91 | The first requirement that passes the filter, or -1 iff none does |
| ScreenUtils.GetNpcHintMessage | src/screens/helpers/GameScreen.utils.ts:59-97 | The first allowed requirement's message. Failing that, the hot default, the ice default, or the plain default (when there is no recipe) |
| ScreenUtils.HintMessagesDistinct | src/screens/helpers/GameScreen.utils.ts:63-72 | The eight messages are distinct, so a message identifies its requirement |
| ScreenUtils.HintRespectsTemperature | src/screens/helpers/GameScreen.utils.ts:73-97 | Never empty. A hot recipe never gets a cold or ice message, and a cold recipe never gets the hot one |
| ScreenUtils.HintExamples | src/screens/helpers/GameScreen.utils.ts:59-97 | Worked cases for a hot, a cold, no recipe and an unknown requirement |
| ScreenUtils.GetMissingRequiredIds | src/screens/helpers/GameScreen.utils.ts:99-109 | The missing ids; stated by `ScreenUtils.MissingSpec` |
| ScreenUtils.MissingSpec | src/screens/helpers/GameScreen.utils.ts:99-109 | The missing ids are the required ids neither selected nor hinted, each as often as required, in the required order (a subsequence) |
| ScreenUtils.MissingIsAbsentFromBoth | src/screens/helpers/GameScreen.utils.ts:104-108 | The two-list filter equals the one-list filter against selected plus hinted |
| ScreenUtils.MissingExtremes | src/screens/helpers/GameScreen.utils.ts:99-109 | Nothing selected or hinted leaves every id missing; selecting all leaves none |
| ScreenUtils.FirstNotHinted | src/screens/helpers/GameScreen.utils.ts:115-117 | The first required id that is not hinted, or -1 iff all are hinted |
| ScreenUtils.GetCandidateRequiredId | src/screens/helpers/GameScreen.utils.ts:111-119 | The candidate id; stated by `ScreenUtils.CandidateWithRealIds` and `ScreenUtils.CandidateEmptyIdIsNull` |
| ScreenUtils.CandidateWithRealIds | src/screens/helpers/GameScreen.utils.ts:111-119 | With non-empty ids: the first unhinted id, else the first id, and null iff the list is empty |
| ScreenUtils.CandidateEmptyIdIsNull | src/screens/helpers/GameScreen.utils.ts:118 | `[""]` yields null, because the empty string is falsy |
| ScreenUtils.FindCategory | src/screens/helpers/GameScreen.utils.ts:122-125 | An index of the keys, or -1 |
| ScreenUtils.FindCategorySpec | src/screens/helpers/GameScreen.utils.ts:122-125 | The index found is the first key listing the id, and -1 iff no key lists it |
| ScreenUtils.GetCategoryKeyForIngredient | src/screens/helpers/GameScreen.utils.ts:121-127 | A key returned lists the id; null iff no category lists it |
| ScreenUtils.NotFoundInAnyKey | src/screens/helpers/GameScreen.utils.ts:122-126 | The search over the keys fails iff no category lists the id |
| ScreenUtils.CategoryKeyIsUnique | src/screens/helpers/GameScreen.utils.ts:121-127 | A key is found iff the id is a catalog ingredient, and it is the only key listing the id |
| ScreenUtils.GetTotalTime | src/screens/helpers/GameScreen.utils.ts:129-133 | 90 iff "easy", 45 iff "hard", 60 for anything else |
| ScreenUtils.TotalTimeByDifficulty | src/screens/helpers/GameScreen.utils.ts:129-133 | Harder settings give less time, and medium gets the base 60 s |
| ScreenUtils.GetRequiredIngredientIds | src/screens/helpers/GameScreen.utils.ts:145-150 | [] for an empty queue. Otherwise the ids of the head customer's first item, and a TypeError (Failure) iff that order has no items |
| ScreenUtils.RequiredIdsAreItemIds | src/screens/helpers/GameScreen.utils.ts:99-150 | With nothing selected, every required id is missing, and selecting them all provides the whole item |
| StoreRules.Regenerate | src/store/gameStore.ts:241-248 | Without a timestamp or before a full interval, nothing changes. Otherwise the timestamp advances by whole 10-minute ticks, to within one tick of `now`, and energy rises by the ticks, capped at `maxEnergy` |
| StoreRules.RegenComposes | src/store/gameStore.ts:617-624 | Regenerating at t1 then at t2 equals regenerating at t2 once: no tick is lost or counted twice |
| StoreRules.RegenIdempotent | src/store/gameStore.ts:617-624 | A second regeneration at the same `now` changes nothing |
| StoreRules.RegenClipsOverflow | src/store/gameStore.ts:245 | Energy above the cap drops to the cap once a tick is credited |
| StoreRules.FindEntry | src/store/gameStore.ts:223-225 | The first journal entry matching the milestone's day and title, or -1 iff none matches |
| StoreRules.MakeEntry | src/store/gameStore.ts:222-237 | The entry matches the milestone. It is achieved iff it already was, the day reaches the milestone, or coins reach 2 200 000. It keeps an existing entry's id and date, else it gets `journal_<day>` and today |
| StoreRules.RebuildJournal | src/store/gameStore.ts:211-239 | The rebuilt journal lists the five milestones in order |
| StoreRules.FindInAligned | src/store/gameStore.ts:223-225 | In an aligned journal, milestone i finds entry i |
| StoreRules.AchievedNeverReverts | src/store/gameStore.ts:222-237 | Rebuilding keeps ids and dates, and an achieved milestone never becomes unachieved |
| StoreRules.FreshJournalOnDayThree | src/store/gameStore.ts:211-239 | On day 3 from an empty journal, only the first two milestones are achieved |
| StoreRules.InsertByScore | src/store/gameStore.ts:302-304 | Insertion adds exactly the one entry |
| StoreRules.InsertKeepsSorted | src/store/gameStore.ts:302-304 | Insertion keeps scores non-increasing |
| StoreRules.SortByScore | src/store/gameStore.ts:302-304 | The sort by `b.score - a.score` gives a permutation with non-increasing scores |
| StoreRules.UnrankMultiset | src/store/gameStore.ts:302-307 | Blanking ranks maps permutations to permutations |
| StoreRules.LeaderboardAfterGame | src/store/gameStore.ts:296-307 | The new board is one entry longer. Scores do not increase, ranks are exactly 1..n, and the entries are the old ones plus the new one (ranks aside) |
| StoreRules.RankingKeepsOrder | src/store/gameStore.ts:305-307 | Numbering a sorted list gives ranks 1..n on the same entries |
| StoreRules.UnrankWithNew | src/store/gameStore.ts:302-304 | A permutation of the old board plus the new entry holds exactly those entries |
| StoreRules.NewLeaderboard | src/store/gameStore.ts:302-307 | The new board; stated by `StoreRules.LeaderboardAfterGame` |
| StoreRules.Without | src/store/gameStore.ts:351-353 | Removes every occurrence of one id and keeps the rest |
| StoreRules.NextRecent | src/store/gameStore.ts:351-353 | The new buffer has at most three distinct ids, starts with the new dish, and holds only it and earlier ids |
| StoreRules.DedupeFront | src/store/gameStore.ts:352 | De-duplicating `[f, ...s]` for a distinct s puts f first, followed by s without f |
| StoreRules.RecentMovesToFront | src/store/gameStore.ts:351-353 | The dish moves (or is added) to the front, and the three most recent ids are kept |
| StoreRules.CurrentIds | src/store/gameStore.ts:337-339 | Exactly the truthy first-dish ids of the waiting customers |
| StoreRules.ExcludeIds | src/store/gameStore.ts:340-342 | A distinct list of exactly the recent ids and the current first dishes |
| StoreRules.KeepKnown | src/store/gameStore.ts:330-332 | Keeps each known id as often as the queue holds it, and drops unknown ids |
| StoreRules.Rotate | src/store/gameStore.ts:334-336 | A left rotation by one: same length, same ids, and the head moves to the tail |
| StoreRules.NextQueue | src/store/gameStore.ts:330-336 | The next queue; stated by `StoreRules.QueueStaysPermutation` |
| StoreRules.QueueStaysPermutation | src/store/gameStore.ts:330-336 | From an empty queue or a permutation of the catalog ids, the next queue is again a permutation of them |
| StoreRules.FirstInCategory | src/store/gameStore.ts:665-669 | The first recipe ingredient id in the category, or -1 iff none is |
| StoreRules.CategoryPick | src/store/gameStore.ts:665-676 | At most one pick, taken from the recipe's ids and the category |
| StoreRules.CategoryPicks | src/store/gameStore.ts:670-676 | The base, liquid and topping picks: at most three, distinct, from the recipe's ids |
| StoreRules.PicksDistinct | src/store/gameStore.ts:670-676 | Picks from three different categories are distinct |
| StoreRules.HintIds | src/store/gameStore.ts:664-683 | The list the source returns, defined without the loop: `Take(Dedupe(CategoryPicks(ids) + ids), 3)` |
| StoreRules.HintIdsFacts | src/store/gameStore.ts:670-683 | That list has no repeats, comes from the recipe's ids, begins with the category picks, and holds min(3, number of distinct ids) ids |
| StoreRules.HintPicks | src/store/gameStore.ts:670-683 | The picks are exactly `HintIds(ids)`: the category picks, then the recipe's further ids in order without repeats, cut to three |
| StoreRules.FillPicks | src/store/gameStore.ts:677-683 | The filling loop, then `slice(0, 3)`, returns exactly the first three distinct ids of the first picks followed by the recipe's ids |
| StoreRules.ServeExp | src/store/gameStore.ts:377-385 | Total experience (level * 10 + exp) grows by the gain; at most one level-up; exp stays below 10 only for gains up to 10 |
| StoreRules.AddExp | src/store/gameStore.ts:578-584 | Total experience grows by the non-negative gain, and exp stays in [0, 10) |
| StoreRules.ExpRulesAgreeOnSmallGains | src/store/gameStore.ts:377-385 | The two rules agree while one level-up suffices |
| StoreRules.ServeExpWrapsOnce | src/store/gameStore.ts:380-385 | 9 exp plus 12 gives level+1 with 11 exp on a serve, but level+2 with 1 exp through `addExp` |
| StoreRules.OccurrencesSpec | src/store/gameStore.ts:394-400 | At most one count per item, and 0 iff no item carries the id |
| StoreRules.Occurrences | src/store/gameStore.ts:394-400 | The per-item count; stated by `StoreRules.OccurrencesSpec` |
| StoreRules.CountSold | src/store/gameStore.ts:390-393 | The sold tally; stated by `StoreRules.CountSoldSpec` |
| StoreRules.CountSoldSpec | src/store/gameStore.ts:390-393 | Each id's count grows by the number of items carrying it; the table gains exactly the ids sold |
| StoreRules.SumScores | src/store/gameStore.ts:366-370 | A correct serve scores at least 100 per item |
| StoreRules.SumScoresMonotoneInCombo | src/store/gameStore.ts:366-370 | A higher combo never lowers a serve's points |
| StoreRules.RoundTime | src/store/gameStore.ts:626-636 | At least 20 s, and never more than the difficulty's base time for a non-negative level |
| StoreRules.RoundTimeMonotone | src/store/gameStore.ts:626-636 | Higher levels never get more time |
| StoreRules.DurationSec | src/store/gameStore.ts:290-293 | Never negative, and the elapsed milliseconds rounded to seconds |
| GameStore.PersistRoundTrip | src/store/gameStore.ts:689-712 | What is restored is what was stored. Restoring a state's own projection changes nothing. Session fields are never restored |
| GameStore.Partialize | src/store/gameStore.ts:689-712 | The stored projection; stated by `GameStore.PersistRoundTrip` |
| GameStore.Rehydrate | src/store/gameStore.ts:689-712 | The merge on restore; stated by `GameStore.PersistRoundTrip` |
| GameStore.DayChecked | src/store/gameStore.ts:205-249 | The daily check; stated by `GameStore.Store.StartGame` |
| GameStore.WithoutCustomer | src/store/gameStore.ts:480-485 | Exactly the customers with another id, unchanged when none has the id |
| GameStore.NewCustomer | src/store/gameStore.ts:324-348 | The new customer is `createCustomer`'s customer from the clock-seeded rounded generator, carrying `generateOrder`'s order for the difficulty and exclusions |
| GameStore.NewcomerFacts | src/store/gameStore.ts:324-353 | A newcomer has patience in [0, 100] and one or two items with a non-negative total, and its first dish is a non-empty catalog id |
| GameStore.Store.constructor | src/store/gameStore.ts:152-195 | The initial state, which is consistent |
| GameStore.Store.StartGame | src/store/gameStore.ts:200-281 | The daily check comes first. With no energy, nothing else happens. Otherwise one energy point is spent and a playing session starts: time 90/60/45 by difficulty, zero score and combo, no customers, full recipe queue, level 1 and exp 0 |
| GameStore.Store.PauseGame | src/store/gameStore.ts:283 | Sets only the pause flag |
| GameStore.Store.ResumeGame | src/store/gameStore.ts:284 | Clears only the pause flag |
| GameStore.Store.EndGame | src/store/gameStore.ts:286-318 | Game over. The leaderboard gains the session's entry and is re-sorted and re-ranked. The high marks become maxima and the games played go up by one |
| GameStore.Store.SpawnCustomerWithOrder | src/store/gameStore.ts:321-359 | A no-op with five customers. Otherwise exactly one new customer joins the tail, others unchanged. The queue rotates and the recency buffer takes the first dish |
| GameStore.JoinKeepsConsistent | src/store/gameStore.ts:350-356 | A newcomer with patience in [0, 100] and one or two items, joining fewer than five customers, with a recency buffer of at most three distinct ids, keeps the store's invariant |
| GameStore.Store.ServeCurrentCustomerCorrect | src/store/gameStore.ts:361-409 | A no-op on an empty queue. Otherwise customers are unchanged, and score, coins, combo, served count, exp/level and stats update as the rules state |
| GameStore.CountersKeepConsistent | src/store/gameStore.ts:372-405 | Changing only the session counters, coins, stats and exp/level (exp kept in [0, 10), level at least 1, counters non-negative) keeps the store's invariant |
| GameStore.Store.FinalizeServeCurrentCustomer | src/store/gameStore.ts:411-415 | The head customer leaves; nothing else changes |
| GameStore.Store.ServeCurrentCustomerWrong | src/store/gameStore.ts:417-451 | A no-op on an empty queue. Otherwise only the head's patience (-20, floored) and mood change. Combo resets, coins lose a tenth of the order and score loses 50 (floored at 0), and the counters update |
| GameStore.Store.IncrementCustomersServed | src/store/gameStore.ts:462-465 | Served count + 1, nothing else |
| GameStore.Store.IncrementCombo | src/store/gameStore.ts:467-470 | Combo + 1, nothing else |
| GameStore.Store.ResetCombo | src/store/gameStore.ts:472 | Combo 0, nothing else |
| GameStore.Store.AddCustomer | src/store/gameStore.ts:475-478 | Appends one customer, uncapped |
| GameStore.Store.RemoveCustomer | src/store/gameStore.ts:480-485 | Drops the customers with that id |
| GameStore.Store.DecrementTime | src/store/gameStore.ts:538-542 | One second off, floored at 0, unless paused |
| GameStore.Store.ResetGame | src/store/gameStore.ts:557-571 | Back to the menu with an empty session and the per-dish free hints restored |
| GameStore.Store.AddCoins | src/store/gameStore.ts:574-577 | Adds the non-negative part of the amount |
| GameStore.Store.AddExpPoints | src/store/gameStore.ts:578-584 | Level and exp as `addExp` computes them, with total experience up by the gain |
| GameStore.Store.ConsumeEnergy | src/store/gameStore.ts:585-588 | Energy falls by the amount, floored at 0 |
| GameStore.Store.RestoreEnergy | src/store/gameStore.ts:589-594 | Energy rises by the amount, capped at `maxEnergy` |
| GameStore.Store.RestoreEnergyOverflow | src/store/gameStore.ts:595-598 | Energy rises by the amount, with no cap |
| GameStore.Store.WatchAdEnergy | src/store/gameStore.ts:599-603 | One capped point, and the regeneration clock restarts at `now` |
| GameStore.Store.RefreshEnergy | src/store/gameStore.ts:604-625 | On a new date: full energy, clock at `now`, three free hints. Otherwise same-day regeneration |
| GameStore.Store.ResetRoundTimer | src/store/gameStore.ts:626-636 | The round time for the difficulty and level |
| GameStore.Store.ResetDailyHints | src/store/gameStore.ts:638-644 | On a new date, three free hints; otherwise nothing |
| GameStore.Store.GetRecipeHint | src/store/gameStore.ts:646-684 | Null with no change for an unknown dish or exhausted budgets. Otherwise exactly one budget is spent (per-dish flag, then daily hints, then tokens), and the result is exactly `HintIds` of the dish's ingredient ids |
| GameStore.Store.ChargeHint | src/store/gameStore.ts:652-663 | With the per-dish hint used and no daily hints or tokens left, nothing changes and no charge is made. Otherwise exactly one budget is spent: the per-dish flag, else a daily hint, else a token |
| GameStore.Store.Persist | src/store/gameStore.ts:689-712 | Restoring the projection into the state changes nothing |
| GameStore.SessionActionsKeepPersisted | src/store/gameStore.ts:411-415 | Finishing a serve, spawning, the timer and pausing leave the stored projection unchanged |

## Left out

- Screens, components, timers, hooks, ads, sound, permissions, logging and
  localisation are out of scope. Whatever uses the translations module
  (`getConfirmContent`, `getCategoryLabel`) is out too.
- `clamp01`, `computeTimeRatio`, `getTimerFillColor` and `animateCoinChange`
  are left out. They are float-only display helpers and an animation.
- The `persist` middleware and AsyncStorage are modelled only as the
  `partialize` projection and a merge on restore. `collectibles` is not
  projected, since collectibles are not modelled.
- These store fields and actions are left out:
  - drag items, collectibles, `isLoading`, `error`, `showSettings` and
    `showLeaderboard`;
  - their setters and toggles;
  - `setGameState`, `setTimeRemaining`, `setPlayerName`, `updateSettings`
    and `updateCustomer`.

  Each is a plain field write with nothing to prove.
- `addScore` is left out. It rounds a float product that is not part of the
  game's scoring path.
- Doubles outside the generator step are exact rationals. IEEE rounding of
  a decimal constant such as 1.15, or at a .5 boundary of `Math.round` (for
  example, a preparation time times 1.15), may differ from the exact result.
- Several `Date.now()` reads inside one action are one `now`.
- A store action is modelled by its final state. The intermediate states
  between its successive `set` calls are not observable to callers.
- The clock-built ids (`order_${now}`, `customer_${now}_${suffix}`) are
  modelled as strings built from the clock parameter.
- The shuffle in `generateRequirements` is any rearrangement of the pool.
  The engine-specific order is not modelled.
- The leaderboard sort is modelled as a stable sort, as ECMAScript 2019 and
  later require of `Array.prototype.sort`. An older engine's tie order is not
  modelled.
- `getStallImage` takes the coin balance as a parameter. Its read of the
  global store and its `catch` branch are not modelled, since the read
  cannot fail here.
- The empty-catalog guard of `spawnCustomerWithOrder` is left out. The
  catalog is a constant of 11 recipes (`Recipes.CatalogNonEmpty`), so the
  guard never fires.
- ServeCurrentCustomerWrong: `missingCount` is an integer or absent. The
  NaN case is not modelled; it behaves like 0 in the source.
- ScreenUtils.GetCandidateRequiredId: its function carries no contract. Its
  properties are stated by `ScreenUtils.CandidateWithRealIds` and
  `ScreenUtils.CandidateEmptyIdIsNull`.
- ScreenUtils.GetNpcHintMessage: the recipe argument is reduced to its
  temperature (Hot, Cold, another value), or None for a falsy recipe.
- Serve.ToLower: lower-cases ASCII, Latin-1 and U+0100..U+0137 capitals only.
  Other Unicode case mappings are not modelled.
- src/types/index.ts is used only as the source of the datatypes.
