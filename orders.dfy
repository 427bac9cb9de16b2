/**
 * Order generation (src/game/orders.ts): a recipe pick that avoids excluded
 * ids, difficulty scaling of price and time, and up to two requirement
 * strings drawn from a per-recipe pool.
 *
 * Each of `pickRecipeId` and `generateRequirements` builds its own generator
 * with `createRng(seed)`; an absent seed means the clock value `now`.
 */
module Orders {
  import opened Wrappers
  import opened Types
  import opened JsNumber
  import opened Lists
  import opened Rng
  import opened Recipes

  /** `recipes.filter(r => !exclude.has(r.id))` (orders.ts:12-15). */
  function Allowed(recipes: seq<Recipe>, exclude: seq<string>): seq<Recipe> {
    if |recipes| == 0 then []
    else (if recipes[0].id in exclude then [] else [recipes[0]]) + Allowed(recipes[1..], exclude)
  }

  /** The candidates are exactly the recipes whose id is not excluded. */
  lemma {:induction false} AllowedSpec(recipes: seq<Recipe>, exclude: seq<string>)
    ensures forall x :: x in Allowed(recipes, exclude) <==> x in recipes && x.id !in exclude
    ensures |Allowed(recipes, exclude)| <= |recipes|
  {
    if |recipes| > 0 {
      AllowedSpec(recipes[1..], exclude);
      assert forall x :: x in recipes <==> x == recipes[0] || x in recipes[1..];
    }
  }

  /** `nextInt(0, Math.max(0, count - 1))` from a fresh generator whose state is `state` (orders.ts:16-17). */
  function PickIndex(state: int, count: nat): int {
    IntOf(FloatOf(Step(state)), 0, Max(0, count - 1))
  }

  /**
   * The id `pickRecipeId` returns for a generator seeded with `state`, when
   * the recipes are `catalog` (orders.ts:12-19): the candidate at the drawn
   * index, or the first recipe when that index holds none.
   */
  function PickFrom(catalog: seq<Recipe>, state: int, exclude: seq<string>): string
    requires |catalog| > 0
  {
    var c := Allowed(catalog, exclude);
    var idx := PickIndex(state, |c|);
    if 0 <= idx < |c| then c[idx].id else catalog[0].id
  }

  /** The id `pickRecipeId` returns over the game's catalog. */
  function PickedId(state: int, exclude: seq<string>): string {
    PickFrom(RecipeCatalog, state, exclude)
  }

  /** `pickRecipeId` (orders.ts:11-20) over the recipes `catalog`. */
  method PickRecipeIdFrom(catalog: seq<Recipe>, seed: Option<int>, now: int, exclude: seq<string>) returns (id: string)
    requires |catalog| > 0
    ensures id == PickFrom(catalog, InitialState(seed, now), exclude)
    ensures id in IdsOf(catalog, RecipeId)
  {
    var candidates := Allowed(catalog, exclude);
    var rng := new Lcg(seed, now);
    var idx := rng.NextInt(0, Max(0, |candidates| - 1));
    id := if 0 <= idx < |candidates| then candidates[idx].id else catalog[0].id;
    PickFromIsCatalogId(catalog, InitialState(seed, now), exclude);
  }

  /** `pickRecipeId` (orders.ts:11-20). */
  method PickRecipeId(seed: Option<int>, now: int, exclude: seq<string>) returns (id: string)
    ensures id == PickedId(InitialState(seed, now), exclude)
    ensures id in CatalogIds
  {
    CatalogIdsMatch();
    id := PickRecipeIdFrom(RecipeCatalog, seed, now, exclude);
  }

  /** Every pick is the id of a recipe of the catalog it was drawn from. */
  lemma PickFromIsCatalogId(catalog: seq<Recipe>, state: int, exclude: seq<string>)
    requires |catalog| > 0
    ensures PickFrom(catalog, state, exclude) in IdsOf(catalog, RecipeId)
  {
    var c := Allowed(catalog, exclude);
    var idx := PickIndex(state, |c|);
    AllowedSpec(catalog, exclude);
    if 0 <= idx < |c| {
      assert c[idx] in catalog;
      var k :| 0 <= k < |catalog| && catalog[k] == c[idx];
      assert IdsOf(catalog, RecipeId)[k] == c[idx].id;
    } else {
      assert IdsOf(catalog, RecipeId)[0] == catalog[0].id;
    }
  }

  /** The candidate recipes of `pickRecipeId` over the game's catalog. */
  function Candidates(exclude: seq<string>): seq<Recipe> {
    Allowed(RecipeCatalog, exclude)
  }

  /**
   * An excluded id can come back only as the fallback `RECIPE_CATALOG[0]`:
   * a pick taken from the candidates is never excluded.
   */
  lemma PickRespectsExclusion(state: int, exclude: seq<string>)
    ensures PickedId(state, exclude) in exclude ==> PickedId(state, exclude) == "cafe_vot"
  {
    var c := Candidates(exclude);
    var idx := PickIndex(state, |c|);
    AllowedSpec(RecipeCatalog, exclude);
    if 0 <= idx < |c| {
      assert c[idx] in c;
    }
  }

  /**
   * Because a draw lies in [-1/2, 1/2), `nextInt(0, n - 1)` never reaches the
   * upper half of the candidates: a pick that is not the fallback is one of
   * the first ceil(n/2) candidates.
   */
  lemma PickAmongFirstHalf(state: int, exclude: seq<string>)
    ensures var c := Candidates(exclude);
      PickedId(state, exclude) == RecipeCatalog[0].id ||
      exists k :: 0 <= k < (|c| + 1) / 2 && c[k].id == PickedId(state, exclude)
  {
    var c := Candidates(exclude);
    var idx := PickIndex(state, |c|);
    if 0 <= idx < |c| {
      NextIntRange(Step(state), 0, |c| - 1);
      assert c[idx].id == PickedId(state, exclude);
    }
  }

  /** A negative draw: the state after one step from `state` has bit 31 set, so the index is below 0. */
  lemma NegativeDrawFallsBack(state: int, exclude: seq<string>)
    requires Step(state) % TwoPow32 >= TwoPow31
    ensures PickedId(state, exclude) == "cafe_vot"
  {
    NegativeIndex(state, |Candidates(exclude)|);
  }

  lemma NegativeIndex(state: int, count: nat)
    requires Step(state) % TwoPow32 >= TwoPow31
    ensures PickIndex(state, count) < 0
  {
    FloatRange(Step(state));
    var r := FloatOf(Step(state));
    var n := (Max(0, count - 1) + 1) as real;
    assert r < 0.0 && n >= 1.0;
    assert r * n <= r by {
      assert r * n - r == r * (n - 1.0);
    }
    TimesIsProduct(r, Max(0, count - 1) + 1);
  }

  /** Seed 700 picks the fallback even when `cafe_vot` itself is excluded. */
  lemma FallbackIgnoresExclusion()
    ensures PickedId(700, ["cafe_vot"]) == "cafe_vot"
  {
    assert Step(700) == 2179071723;
    NegativeDrawFallsBack(700, ["cafe_vot"]);
  }

  /** `pool[id] ?? []` (orders.ts:23-35): the requirement strings a recipe may ask for. */
  function RequirementPool(id: string): (pool: seq<string>)
    ensures NoDup(pool)
    ensures |pool| <= 3
  {
    match id
    case "soda_da_chanh" => ["Ít đá", "Thêm chanh"]
    case "soda_chai" => ["Ướp lạnh", "Không đá"]
    case "soda_chanh_muoi" => ["Ít đá", "Ít muối", "Thêm chanh"]
    case "xien_que" => ["Ít gia vị"]
    case "xien_que_tuong_ot" => ["Ít tiêu", "Thêm tương ớt"]
    case "ca_vien_chien" => ["Không rau", "Thêm dưa leo"]
    case "banh_mi_thit" => ["Ít tương ớt", "Thêm đồ chua"]
    case "che" => ["Ít ngọt", "Thêm đá"]
    case "cafe_vot" => ["Ít ngọt"]
    case "sua_dau_nanh" => ["Ít ngọt"]
    case _ => []
  }

  /** `banh_bo` has no pool entry, so its orders never carry requirements. */
  lemma BanhBoHasNoPool()
    ensures "banh_bo" in CatalogIds
    ensures RequirementPool("banh_bo") == []
  {
  }

  /**
   * `generateRequirements` (orders.ts:22-43). The random-comparator `sort`
   * shuffles in an engine-dependent way, so the shuffle is an arbitrary
   * rearrangement of the pool. Because `count` is drawn with the signed
   * generator it lies in [-2, 1], and a negative count cuts from the end
   * (`slice(0, -k)`): the result never holds the whole pool, so a recipe
   * with a single pool entry never gets a requirement.
   */
  method GenerateRequirements(id: string, seed: Option<int>, now: int) returns (reqs: seq<string>)
    ensures NoDup(reqs)
    ensures forall r :: r in reqs ==> r in RequirementPool(id)
    ensures |reqs| <= Min(2, |RequirementPool(id)|)
    ensures RequirementPool(id) != [] ==> |reqs| < |RequirementPool(id)|
  {
    var base := RequirementPool(id);
    if |base| == 0 {
      return [];
    }
    var rng := new Lcg(seed, now);
    var count := rng.NextInt(0, Min(2, |base|));
    NextIntRange(rng.s, 0, Min(2, |base|));
    var shuffled :| multiset(shuffled) == multiset(base);
    PermutationNoDup(base, shuffled);
    assert |shuffled| == |base| by {
      assert |multiset(shuffled)| == |multiset(base)|;
    }
    reqs := SliceTo(shuffled, count);
    forall r | r in reqs ensures r in base {
      assert r in shuffled;
      assert r in multiset(shuffled);
    }
  }

  /** The price and time multiplier of a difficulty (orders.ts:50), as an exact rational. */
  function Multiplier(d: Difficulty): (m: real)
    ensures 0.9 <= m <= 1.15
  {
    match d
    case Easy => 0.9
    case Medium => 1.0
    case Hard => 1.15
  }

  /** `Math.round(x * multiplier)` (orders.ts:53-54). */
  function Scale(x: int, d: Difficulty): (r: int)
    ensures d == Medium ==> r == x
    ensures x >= 0 ==> 0 <= r && (x * 9 + 5) / 10 <= r
    ensures x >= 0 ==> r <= x + (x * 15 + 50) / 100
  {
    Round(x as real * Multiplier(d))
  }

  /**
   * The item is recipe `r` priced and timed for the difficulty, with
   * distinct requirements from the recipe's pool.
   */
  predicate ScaledFrom(item: OrderItem, r: Recipe, d: Difficulty) {
    item.id == r.id && item.name == r.name && item.ingredients == r.ingredients &&
    item.price == Scale(r.basePrice, d) &&
    item.preparationTime == Scale(r.preparationTime, d) &&
    item.requirements.Some? && NoDup(item.requirements.value) &&
    (forall q :: q in item.requirements.value ==> q in RequirementPool(r.id))
  }

  /** The item is some recipe of `catalog`, scaled for the difficulty. */
  predicate ScaledFromSome(item: OrderItem, catalog: seq<Recipe>, d: Difficulty) {
    exists k :: 0 <= k < |catalog| && ScaledFrom(item, catalog[k], d)
  }

  /** The item is some recipe of the game's catalog, scaled for the difficulty. */
  predicate ScaledFromCatalog(item: OrderItem, d: Difficulty) {
    ScaledFromSome(item, RecipeCatalog, d)
  }

  /**
   * `generateOrderItem` (orders.ts:45-57) over the recipes `catalog`: the
   * picked id is looked up with `find`, falling back to the first recipe.
   */
  method GenerateOrderItemFrom(catalog: seq<Recipe>, d: Difficulty, seed: Option<int>, now: int, exclude: seq<string>)
    returns (item: OrderItem)
    requires |catalog| > 0
    ensures item.id == PickFrom(catalog, InitialState(seed, now), exclude)
    ensures ScaledFromSome(item, catalog, d)
  {
    var recipeId := PickRecipeIdFrom(catalog, seed, now, exclude);
    var i := FindIndex(catalog, RecipeId, recipeId);
    assert i >= 0 by {
      var k :| 0 <= k < |catalog| && IdsOf(catalog, RecipeId)[k] == recipeId;
      assert catalog[k].id == recipeId;
    }
    var recipe := catalog[i];  // the `?? RECIPE_CATALOG[0]` fallback cannot be taken: a picked id is always found
    var base := ToOrderItem(Some(recipe));
    var reqs := GenerateRequirements(recipe.id, seed, now);
    item := base.(price := Scale(base.price, d),
                  preparationTime := Scale(base.preparationTime, d),
                  requirements := Some(reqs));
    assert ScaledFrom(item, catalog[i], d);
  }

  /** `generateOrderItem` (orders.ts:45-57). */
  method GenerateOrderItem(d: Difficulty, seed: Option<int>, now: int, exclude: seq<string>) returns (item: OrderItem)
    ensures item.id == PickedId(InitialState(seed, now), exclude)
    ensures ScaledFromCatalog(item, d)
  {
    CatalogNonEmpty();
    item := GenerateOrderItemFrom(RecipeCatalog, d, seed, now, exclude);
  }

  /** `itemCount` (orders.ts:60). */
  function ItemCount(d: Difficulty): nat {
    match d
    case Easy => 1
    case Medium => 1
    case Hard => 2
  }

  function ItemIds(items: seq<OrderItem>): (r: seq<string>)
    ensures |r| == |items|
  {
    seq(|items|, i requires 0 <= i < |items| => items[i].id)
  }

  /** `items.reduce((sum, c) => sum + c.price, 0)` (orders.ts:70). */
  function TotalPrice(items: seq<OrderItem>): int {
    if |items| == 0 then 0 else TotalPrice(items[..|items| - 1]) + items[|items| - 1].price
  }

  /** `items.reduce((sum, c) => sum + c.ingredients.length, 0)` (orders.ts:71). */
  function Complexity(items: seq<OrderItem>): int {
    if |items| == 0 then 0 else Complexity(items[..|items| - 1]) + |items[|items| - 1].ingredients|
  }

  /** The sum of the items' preparation times (orders.ts:72). */
  function TotalPrep(items: seq<OrderItem>): int {
    if |items| == 0 then 0 else TotalPrep(items[..|items| - 1]) + items[|items| - 1].preparationTime
  }

  /** `filter` against an exclusion list depends only on which ids the list holds. */
  lemma {:induction false} AllowedBySet(recipes: seq<Recipe>, e1: seq<string>, e2: seq<string>)
    requires forall x :: x in e1 <==> x in e2
    ensures Allowed(recipes, e1) == Allowed(recipes, e2)
  {
    if |recipes| > 0 {
      AllowedBySet(recipes[1..], e1, e2);
    }
  }

  /**
   * The pick depends only on the SET of excluded ids, so neither the order
   * of `new Set` nor repeated ids change it.
   */
  lemma PickBySet(catalog: seq<Recipe>, state: int, e1: seq<string>, e2: seq<string>)
    requires |catalog| > 0
    requires forall x :: x in e1 <==> x in e2
    ensures PickFrom(catalog, state, e1) == PickFrom(catalog, state, e2)
  {
    AllowedBySet(catalog, e1, e2);
  }

  /**
   * The first `n` ids `generateOrder` picks (orders.ts:63-68): pick `j` uses
   * generator state `state + j` and excludes the given ids followed by the
   * distinct picks before it, in the order the `picked` set holds them.
   */
  function PicksInTurn(catalog: seq<Recipe>, state: int, exclude: seq<string>, n: nat): (r: seq<string>)
    requires |catalog| > 0
    ensures |r| == n
  {
    if n == 0 then []
    else
      var before := PicksInTurn(catalog, state, exclude, n - 1);
      before + [PickFrom(catalog, state + n - 1, exclude + Dedupe(before))]
  }

  /** One more pick extends the picks so far. */
  lemma PicksInTurnStep(catalog: seq<Recipe>, state: int, exclude: seq<string>, n: nat)
    requires |catalog| > 0
    ensures var before := PicksInTurn(catalog, state, exclude, n);
      PicksInTurn(catalog, state, exclude, n + 1) == before + [PickFrom(catalog, state + n, exclude + Dedupe(before))]
  {
  }

  /** The first two picks: the first excludes only the given ids and the second also excludes the first. */
  lemma FirstTwoPicks(catalog: seq<Recipe>, state: int, exclude: seq<string>)
    requires |catalog| > 0
    ensures PicksInTurn(catalog, state, exclude, 1) == [PickFrom(catalog, state, exclude)]
    ensures var two := PicksInTurn(catalog, state, exclude, 2);
      two == [two[0], PickFrom(catalog, state + 1, exclude + [two[0]])]
  {
    assert PicksInTurn(catalog, state, exclude, 0) == [];
    assert Dedupe<string>([]) == [];
    assert exclude + [] == exclude;
    var one := PicksInTurn(catalog, state, exclude, 1);
    assert Dedupe(one) == one by {
      assert one[..0] == [];
    }
  }

  /** Every item is some recipe of `catalog` scaled for the difficulty. */
  predicate AllScaled(items: seq<OrderItem>, catalog: seq<Recipe>, d: Difficulty) {
    forall j :: 0 <= j < |items| ==> ScaledFromSome(items[j], catalog, d)
  }

  /**
   * One turn of the loop of `generateOrder` keeps the picks in step with the
   * items, and `picked` with their distinct ids in order of first pick.
   */
  lemma OrderStep(catalog: seq<Recipe>, state: int, exclude: seq<string>, items: seq<OrderItem>, item: OrderItem,
                  pickState: int, excluded: seq<string>)
    requires |catalog| > 0
    requires ItemIds(items) == PicksInTurn(catalog, state, exclude, |items|)
    requires pickState == state + |items| && excluded == exclude + Dedupe(ItemIds(items))
    requires item.id == PickFrom(catalog, pickState, excluded)
    ensures ItemIds(items + [item]) == PicksInTurn(catalog, state, exclude, |items| + 1)
    ensures var picked := Dedupe(ItemIds(items));
      Dedupe(ItemIds(items + [item])) == if item.id in picked then picked else picked + [item.id]
  {
    PicksStep(catalog, state, exclude, items, item, pickState, excluded);
    PickedStep(items, item);
  }

  lemma PicksStep(catalog: seq<Recipe>, state: int, exclude: seq<string>, items: seq<OrderItem>, item: OrderItem,
                  pickState: int, excluded: seq<string>)
    requires |catalog| > 0
    requires ItemIds(items) == PicksInTurn(catalog, state, exclude, |items|)
    requires pickState == state + |items| && excluded == exclude + Dedupe(ItemIds(items))
    requires item.id == PickFrom(catalog, pickState, excluded)
    ensures ItemIds(items + [item]) == PicksInTurn(catalog, state, exclude, |items| + 1)
  {
    PicksInTurnStep(catalog, state, exclude, |items|);
    ItemIdsAppend(items, item);
  }

  lemma PickedStep(items: seq<OrderItem>, item: OrderItem)
    ensures var picked := Dedupe(ItemIds(items));
      Dedupe(ItemIds(items + [item])) == if item.id in picked then picked else picked + [item.id]
  {
    ItemIdsAppend(items, item);
    var ids := ItemIds(items) + [item.id];
    assert ids[..|ids| - 1] == ItemIds(items);
  }

  lemma ItemIdsAppend(items: seq<OrderItem>, item: OrderItem)
    ensures ItemIds(items + [item]) == ItemIds(items) + [item.id]
  {
    assert forall j :: 0 <= j < |items| ==> ItemIds(items + [item])[j] == items[j].id;
  }

  lemma AllScaledStep(items: seq<OrderItem>, item: OrderItem, catalog: seq<Recipe>, d: Difficulty)
    requires AllScaled(items, catalog, d)
    requires ScaledFromSome(item, catalog, d)
    ensures AllScaled(items + [item], catalog, d)
  {
    assert forall j :: 0 <= j < |items| ==> (items + [item])[j] == items[j];
  }

  /**
   * `generateOrder` (orders.ts:59-81) over the recipes `catalog`. Item `i` is
   * drawn with seed `(seed ?? now) + i` and excludes the given ids plus the
   * ids already picked.
   */
  method GenerateOrderFrom(catalog: seq<Recipe>, d: Difficulty, seed: Option<int>, now: int, exclude: seq<string>)
    returns (order: Order)
    requires |catalog| > 0
    ensures |order.items| == ItemCount(d)
    ensures ItemIds(order.items) == PicksInTurn(catalog, InitialState(seed, now), exclude, |order.items|)
    ensures AllScaled(order.items, catalog, d)
    ensures order.totalPrice == TotalPrice(order.items)
    ensures order.complexity == Complexity(order.items)
    ensures order.timeLimit == Max(25, TotalPrep(order.items) + 10)
    ensures order.timeLimit >= 25
    ensures order.id == "order_" + IntString(now)
  {
    var items := DrawItems(catalog, d, seed, now, exclude);
    order := Assemble(items, now);
  }

  /** The order `generateOrder` returns around its items (orders.ts:70-80). */
  method Assemble(items: seq<OrderItem>, now: int) returns (order: Order)
    ensures order.items == items
    ensures order.totalPrice == TotalPrice(items)
    ensures order.complexity == Complexity(items)
    ensures order.timeLimit == Max(25, TotalPrep(items) + 10)
    ensures order.timeLimit >= 25
    ensures order.id == "order_" + IntString(now)
  {
    order := Order("order_" + IntString(now), items, TotalPrice(items), Max(25, TotalPrep(items) + 10), Complexity(items));
  }

  /** The loop of `generateOrder` (orders.ts:60-68): `ItemCount(d)` items, each excluding the ids before it. */
  method DrawItems(catalog: seq<Recipe>, d: Difficulty, seed: Option<int>, now: int, exclude: seq<string>)
    returns (items: seq<OrderItem>)
    requires |catalog| > 0
    ensures |items| == ItemCount(d)
    ensures ItemIds(items) == PicksInTurn(catalog, InitialState(seed, now), exclude, |items|)
    ensures AllScaled(items, catalog, d)
  {
    var itemCount := ItemCount(d);
    items := [];
    var picked: seq<string> := [];
    var i := 0;
    while i < itemCount
      invariant 0 <= i <= itemCount && |items| == i
      invariant picked == Dedupe(ItemIds(items))
      invariant ItemIds(items) == PicksInTurn(catalog, InitialState(seed, now), exclude, |items|)
      invariant AllScaled(items, catalog, d)
    {
      var item := NextItem(catalog, d, seed, now, exclude, items, picked);
      AllScaledStep(items, item, catalog, d);
      items := items + [item];
      picked := if item.id in picked then picked else picked + [item.id];
      i := i + 1;
    }
  }

  /** One turn of the loop of `generateOrder` (orders.ts:64-67): item `|items|` drawn with its own seed. */
  method NextItem(catalog: seq<Recipe>, d: Difficulty, seed: Option<int>, now: int, exclude: seq<string>,
                  items: seq<OrderItem>, picked: seq<string>) returns (item: OrderItem)
    requires |catalog| > 0
    requires ItemIds(items) == PicksInTurn(catalog, InitialState(seed, now), exclude, |items|)
    requires picked == Dedupe(ItemIds(items))
    ensures ItemIds(items + [item]) == PicksInTurn(catalog, InitialState(seed, now), exclude, |items + [item]|)
    ensures Dedupe(ItemIds(items + [item])) == if item.id in picked then picked else picked + [item.id]
    ensures ScaledFromSome(item, catalog, d)
  {
    var nextSeed := InitialState(seed, now) + |items|;
    item := GenerateOrderItemFrom(catalog, d, Some(nextSeed), now, exclude + picked);
    OrderStep(catalog, InitialState(seed, now), exclude, items, item, InitialState(Some(nextSeed), now), exclude + picked);
    assert |items + [item]| == |items| + 1;
  }

  /** `generateOrder` (orders.ts:59-81): one item, or two for a hard order, priced, timed and summed. */
  method GenerateOrder(d: Difficulty, seed: Option<int>, now: int, exclude: seq<string>) returns (order: Order)
    ensures |order.items| == ItemCount(d)
    ensures ItemIds(order.items) == PicksInTurn(RecipeCatalog, InitialState(seed, now), exclude, |order.items|)
    ensures AllScaled(order.items, RecipeCatalog, d)
    ensures order.totalPrice == TotalPrice(order.items)
    ensures order.complexity == Complexity(order.items)
    ensures order.timeLimit == Max(25, TotalPrep(order.items) + 10)
    ensures order.timeLimit >= 25
    ensures order.id == "order_" + IntString(now)
  {
    CatalogNonEmpty();
    order := GenerateOrderFrom(RecipeCatalog, d, seed, now, exclude);
  }

  /** Items scaled from recipes with non-negative prices have a non-negative total. */
  lemma {:induction false} TotalPriceNonNegative(items: seq<OrderItem>, catalog: seq<Recipe>, d: Difficulty)
    requires AllScaled(items, catalog, d)
    requires forall k :: 0 <= k < |catalog| ==> catalog[k].basePrice >= 0
    ensures TotalPrice(items) >= 0
  {
    if |items| > 0 {
      var init := items[..|items| - 1];
      forall j | 0 <= j < |init| ensures ScaledFromSome(init[j], catalog, d) {
        assert init[j] == items[j];
      }
      TotalPriceNonNegative(init, catalog, d);
      var k :| 0 <= k < |catalog| && ScaledFrom(items[|items| - 1], catalog[k], d);
    }
  }

  /** A generated order never has a negative total price. */
  lemma GeneratedTotalNonNegative(items: seq<OrderItem>, d: Difficulty)
    requires AllScaled(items, RecipeCatalog, d)
    ensures TotalPrice(items) >= 0
  {
    CatalogRecipesWellFormed();
    forall k | 0 <= k < |RecipeCatalog| ensures RecipeCatalog[k].basePrice >= 0 {
      assert WellFormed(RecipeCatalog[k]);
    }
    TotalPriceNonNegative(items, RecipeCatalog, d);
  }

  /** The first item of a generated order is a catalog dish, so its id is never the empty string. */
  lemma FirstItemIsCatalogId(items: seq<OrderItem>, d: Difficulty, state: int, exclude: seq<string>)
    requires |items| == ItemCount(d)
    requires ItemIds(items) == PicksInTurn(RecipeCatalog, state, exclude, ItemCount(d))
    ensures items[0].id in CatalogIds && items[0].id != ""
  {
    OrderPicks(items, d, state, exclude);
    CatalogIdsMatch();
    CatalogIdsNonEmpty();
    PickFromIsCatalogId(RecipeCatalog, state, exclude);
  }

  /** The ids of items picked in turn from the game's catalog, as `generateOrder` draws them. */
  lemma OrderPicks(items: seq<OrderItem>, d: Difficulty, state: int, exclude: seq<string>)
    requires |items| == ItemCount(d)
    requires ItemIds(items) == PicksInTurn(RecipeCatalog, state, exclude, ItemCount(d))
    ensures items[0].id == PickedId(state, exclude)
    ensures d == Hard ==> items[1].id == PickedId(state + 1, exclude + [items[0].id])
  {
    CatalogNonEmpty();
    FirstTwoPicks(RecipeCatalog, state, exclude);
    var ids := ItemIds(items);
    assert ids[0] == items[0].id;
    if d == Hard {
      assert PicksInTurn(RecipeCatalog, state, exclude, 2)[0] == items[0].id;
      assert ids[1] == items[1].id;
    }
  }

  /**
   * A hard order can name the same dish twice: with seed 700 both draws are
   * negative, so both items fall back to `cafe_vot`, whatever the excluded
   * ids, although the second item excludes it.
   */
  lemma HardOrderCanRepeatDish(exclude: seq<string>)
    ensures PickedId(700, exclude) == "cafe_vot"
    ensures PickedId(700 + 1, exclude + ["cafe_vot"]) == "cafe_vot"
  {
    assert Step(700) == 2179071723;
    NegativeDrawFallsBack(700, exclude);
    assert Step(701) == 2180736248;
    NegativeDrawFallsBack(701, exclude + ["cafe_vot"]);
  }
}
