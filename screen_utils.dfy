/**
 * The pure helpers the game screen uses between taps
 * (src/screens/helpers/GameScreen.utils.ts).
 */
module ScreenUtils {
  import opened Wrappers
  import opened Types
  import opened JsNumber
  import opened Lists
  import Ingredients
  import Categories
  import Serve

  /** `currentOrderItem.ingredients.filter(i => selectedIds.includes(i.id))` (GameScreen.utils.ts:10-19). */
  function BuildProvidedIngredients(ingredients: seq<Ingredient>, selectedIds: seq<string>): seq<Ingredient> {
    if |ingredients| == 0 then []
    else
      var rest := BuildProvidedIngredients(ingredients[..|ingredients| - 1], selectedIds);
      var last := ingredients[|ingredients| - 1];
      if last.id in selectedIds then rest + [last] else rest
  }

  /**
   * The provided list holds exactly the item's selected ingredients, each as
   * often as the item lists it.
   */
  lemma {:induction false} ProvidedSpec(ingredients: seq<Ingredient>, selectedIds: seq<string>)
    ensures var r := BuildProvidedIngredients(ingredients, selectedIds);
      forall x :: multiset(r)[x] == if x.id in selectedIds then multiset(ingredients)[x] else 0
    ensures var r := BuildProvidedIngredients(ingredients, selectedIds);
      forall x :: x in r <==> x in ingredients && x.id in selectedIds
  {
    if |ingredients| > 0 {
      var init := ingredients[..|ingredients| - 1];
      var last := ingredients[|ingredients| - 1];
      ProvidedSpec(init, selectedIds);
      assert ingredients == init + [last];
      assert multiset(ingredients) == multiset(init) + multiset{last};
    }
  }

  /**
   * The provided list keeps the item's order: its entries sit at strictly
   * increasing positions of the item's ingredients.
   */
  lemma {:induction false} ProvidedKeepsOrder(ingredients: seq<Ingredient>, selectedIds: seq<string>)
    returns (pos: seq<int>)
    ensures var r := BuildProvidedIngredients(ingredients, selectedIds);
      |pos| == |r| &&
      (forall k :: 0 <= k < |pos| ==> 0 <= pos[k] < |ingredients| && r[k] == ingredients[pos[k]]) &&
      (forall k, l :: 0 <= k < l < |pos| ==> pos[k] < pos[l])
  {
    if |ingredients| == 0 {
      pos := [];
    } else {
      var init := ingredients[..|ingredients| - 1];
      var last := ingredients[|ingredients| - 1];
      var p := ProvidedKeepsOrder(init, selectedIds);
      if last.id in selectedIds {
        pos := p + [|init|];
      } else {
        pos := p;
      }
    }
  }

  /** Selecting every ingredient of the item provides the item's list unchanged. */
  lemma {:induction false} ProvideAll(ingredients: seq<Ingredient>, selectedIds: seq<string>)
    requires forall k :: 0 <= k < |ingredients| ==> ingredients[k].id in selectedIds
    ensures BuildProvidedIngredients(ingredients, selectedIds) == ingredients
  {
    if |ingredients| > 0 {
      var init := ingredients[..|ingredients| - 1];
      ProvideAll(init, selectedIds);
      assert init + [ingredients[|ingredients| - 1]] == ingredients;
    }
  }

  /**
   * What the screen provides is drawn from the item, so `validateServe` never
   * reports an extra ingredient; and selecting every ingredient of the item
   * makes the serve pass.
   */
  lemma ProvidedServes(item: OrderItem, selectedIds: seq<string>)
    ensures Serve.ValidateServe(item, BuildProvidedIngredients(item.ingredients, selectedIds)).extra == []
    ensures (forall x :: x in item.ingredients ==> x.id in selectedIds) ==>
      Serve.ValidateServe(item, BuildProvidedIngredients(item.ingredients, selectedIds)).ok
  {
    var provided := BuildProvidedIngredients(item.ingredients, selectedIds);
    ProvidedSpec(item.ingredients, selectedIds);
    var e, p := Serve.LowerNames(item.ingredients), Serve.LowerNames(provided);
    forall n | n in p ensures n in e {
      var k :| 0 <= k < |p| && p[k] == n;
      assert provided[k] in item.ingredients;
      var j :| 0 <= j < |item.ingredients| && item.ingredients[j] == provided[k];
      assert e[j] == n;
    }
    if forall x :: x in item.ingredients ==> x.id in selectedIds {
      forall k | 0 <= k < |item.ingredients| ensures item.ingredients[k].id in selectedIds {
        assert item.ingredients[k] in item.ingredients;
      }
      ProvideAll(item.ingredients, selectedIds);
    }
    Serve.CoveredSidesEmpty(item, provided);
  }

  /**
   * `computePenalty` (GameScreen.utils.ts:35-37): `Math.max(0,
   * Math.round(basePrice * 0.1))`, with the product taken as the exact
   * rational basePrice / 10.
   */
  function ComputePenalty(basePrice: int): (p: int)
    ensures p >= 0
    ensures basePrice >= 0 ==> p == (basePrice + 5) / 10
    ensures basePrice < -5 ==> p == 0
  {
    Max(0, Round(basePrice as real / 10.0))
  }

  /** A tenth of the price, rounded half up, never more than the price and never negative. */
  lemma PenaltyBounds(basePrice: int)
    ensures 0 <= ComputePenalty(basePrice)
    ensures basePrice >= 1 ==> ComputePenalty(basePrice) <= basePrice
    ensures basePrice >= 5 ==> ComputePenalty(basePrice) >= 1
    ensures ComputePenalty(12000) == 1200 && ComputePenalty(7005) == 701 && ComputePenalty(4) == 0
  {
  }

  /** The `temperature` the screen reads from the recipe object it is given. */
  datatype Temperature = Hot | Cold | Unspecified

  /** The eight requirements the hint table knows, with their messages (GameScreen.utils.ts:63-72). */
  const HintMessages: map<string, string> := map[
    "Thêm đá" := "Nhớ cho đúng phần đá nghen!",
    "Ít đá" := "Cho ít đá thôi nghen!",
    "Không đá" := "Không cho đá nhé!",
    "Ít đường" := "Ít đường thôi!",
    "Không cay" := "Không cay dùm nhé!",
    "Cay" := "Cho cay cay nhé!",
    "Nóng" := "Làm nóng nhé!",
    "Lạnh" := "Làm lạnh nhé!"
  ]

  /** Requirements a hot drink must not hint at. */
  const BlockedHot: seq<string> := ["Lạnh", "Thêm đá", "Ít đá", "Không đá"]

  /** The filter `isAllowed` (GameScreen.utils.ts:73-90); `recipe` None is a falsy recipe. */
  predicate AllowedHint(requirement: string, recipe: Option<Temperature>) {
    requirement in HintMessages &&
    !(recipe == Some(Hot) && requirement in BlockedHot) &&
    !(recipe == Some(Cold) && requirement == "Nóng")
  }

  /** Index of the first allowed requirement, or -1. */
  function FirstAllowed(requirements: seq<string>, recipe: Option<Temperature>): (i: int)
    ensures -1 <= i < |requirements|
    ensures i >= 0 ==>
      AllowedHint(requirements[i], recipe) && forall j :: 0 <= j < i ==> !AllowedHint(requirements[j], recipe)
    ensures i < 0 <==> forall j :: 0 <= j < |requirements| ==> !AllowedHint(requirements[j], recipe)
  {
    if |requirements| == 0 then -1
    else if AllowedHint(requirements[0], recipe) then 0
    else
      var k := FirstAllowed(requirements[1..], recipe);
      if k < 0 then -1 else k + 1
  }

  /** `getNpcHintMessage` (GameScreen.utils.ts:59-97). */
  function GetNpcHintMessage(requirements: seq<string>, recipe: Option<Temperature>): (msg: string)
    ensures var i := FirstAllowed(requirements, recipe);
      i >= 0 ==> msg == HintMessages[requirements[i]]
    ensures (forall j :: 0 <= j < |requirements| ==> !AllowedHint(requirements[j], recipe)) ==>
      msg == (if recipe == Some(Hot) then "Làm nóng giùm nhé!"
              else if recipe.Some? then "Nhớ cho đúng phần đá nhé!"
              else "Nhớ pha cho đúng nhé!")
  {
    var i := FirstAllowed(requirements, recipe);
    if i >= 0 then HintMessages[requirements[i]]
    else if recipe.Some? then (if recipe.value == Hot then "Làm nóng giùm nhé!" else "Nhớ cho đúng phần đá nhé!")
    else "Nhớ pha cho đúng nhé!"
  }

  /** The table's eight messages are distinct, so a message names its requirement. */
  lemma HintMessagesDistinct(a: string, b: string)
    requires a in HintMessages && b in HintMessages && a != b
    ensures HintMessages[a] != HintMessages[b]
  {
  }

  /**
   * The hint is never empty; for a hot recipe it never asks for cold or ice,
   * and for a cold recipe it never asks for it hot, whatever the customer's
   * requirements say.
   */
  lemma HintRespectsTemperature(requirements: seq<string>, recipe: Option<Temperature>)
    ensures |GetNpcHintMessage(requirements, recipe)| > 0
    ensures recipe == Some(Hot) ==> forall b :: b in BlockedHot ==> GetNpcHintMessage(requirements, recipe) != HintMessages[b]
    ensures recipe == Some(Cold) ==> GetNpcHintMessage(requirements, recipe) != HintMessages["Nóng"]
  {
    var i := FirstAllowed(requirements, recipe);
    if i >= 0 {
      forall b | b in BlockedHot && recipe == Some(Hot)
        ensures GetNpcHintMessage(requirements, recipe) != HintMessages[b]
      {
        HintMessagesDistinct(requirements[i], b);
      }
      if recipe == Some(Cold) {
        HintMessagesDistinct(requirements[i], "Nóng");
      }
    }
  }

  /** A hot recipe asked for ice gets the hot default; the same requirement on no recipe gets its own message. */
  lemma HintExamples()
    ensures GetNpcHintMessage(["Thêm đá"], Some(Hot)) == "Làm nóng giùm nhé!"
    ensures GetNpcHintMessage(["Thêm đá"], None) == "Nhớ cho đúng phần đá nghen!"
    ensures GetNpcHintMessage(["Nóng", "Cay"], Some(Cold)) == "Cho cay cay nhé!"
    ensures GetNpcHintMessage(["Size L"], None) == "Nhớ pha cho đúng nhé!"
  {
    assert ["Thêm đá"][1..] == [];
    assert ["Nóng", "Cay"][1..] == ["Cay"];
    assert ["Size L"][1..] == [];
  }

  /** `getMissingRequiredIds` (GameScreen.utils.ts:99-109): required ids neither selected nor hinted, in order. */
  function GetMissingRequiredIds(required: seq<string>, selected: seq<string>, hinted: seq<string>): seq<string> {
    if |required| == 0 then []
    else
      var rest := GetMissingRequiredIds(required[..|required| - 1], selected, hinted);
      var last := required[|required| - 1];
      if last !in selected && last !in hinted then rest + [last] else rest
  }

  /**
   * The missing ids are the required ids neither selected nor hinted, each
   * as often as it is required and in the required order.
   */
  lemma {:induction false} MissingSpec(required: seq<string>, selected: seq<string>, hinted: seq<string>)
    ensures var r := GetMissingRequiredIds(required, selected, hinted);
      forall x :: multiset(r)[x] == if x in selected || x in hinted then 0 else multiset(required)[x]
    ensures var r := GetMissingRequiredIds(required, selected, hinted);
      forall x :: x in r <==> x in required && x !in selected && x !in hinted
    ensures Subsequence(GetMissingRequiredIds(required, selected, hinted), required)
  {
    if |required| > 0 {
      var init := required[..|required| - 1];
      var last := required[|required| - 1];
      MissingSpec(init, selected, hinted);
      assert required == init + [last];
      assert multiset(required) == multiset(init) + multiset{last};
      var rest := GetMissingRequiredIds(init, selected, hinted);
      if last !in selected && last !in hinted {
        assert (rest + [last])[..|rest|] == rest;
      }
    }
  }

  /** The two-list filter equals the one-list filter against `selected + hinted`. */
  lemma {:induction false} MissingIsAbsentFromBoth(required: seq<string>, selected: seq<string>, hinted: seq<string>)
    ensures GetMissingRequiredIds(required, selected, hinted) == Serve.Absent(required, selected + hinted)
  {
    if |required| > 0 {
      MissingIsAbsentFromBoth(required[..|required| - 1], selected, hinted);
    }
  }

  /** Nothing selected or hinted: every required id is missing; everything selected: none is. */
  lemma {:induction false} MissingExtremes(required: seq<string>, hinted: seq<string>)
    ensures GetMissingRequiredIds(required, [], []) == required
    ensures GetMissingRequiredIds(required, required, hinted) == []
  {
    if |required| > 0 {
      var init := required[..|required| - 1];
      MissingExtremes(init, hinted);
      assert init + [required[|required| - 1]] == required;
    }
    MissingSpec(required, required, hinted);
    NoMemberIsEmpty(GetMissingRequiredIds(required, required, hinted));
  }

  /** `requiredIdsInput.find(id => !hintIdsInput.includes(id))`, as an index or -1. */
  function FirstNotHinted(required: seq<string>, hinted: seq<string>): (i: int)
    ensures -1 <= i < |required|
    ensures i >= 0 ==> required[i] !in hinted && forall j :: 0 <= j < i ==> required[j] in hinted
    ensures i < 0 <==> forall j :: 0 <= j < |required| ==> required[j] in hinted
  {
    if |required| == 0 then -1
    else if required[0] !in hinted then 0
    else
      var k := FirstNotHinted(required[1..], hinted);
      if k < 0 then -1 else k + 1
  }

  /**
   * `getCandidateRequiredId` (GameScreen.utils.ts:111-119): `found ||
   * required[0] || null`. The `||` tests truthiness, so an empty-string id
   * counts as absent.
   */
  function GetCandidateRequiredId(required: seq<string>, hinted: seq<string>): Option<string> {
    var i := FirstNotHinted(required, hinted);
    if i >= 0 && required[i] != "" then Some(required[i])
    else if |required| > 0 && required[0] != "" then Some(required[0])
    else None
  }

  /**
   * With non-empty ids (every catalog id is), the candidate is the first
   * unhinted required id, else the first required id, and it is null exactly
   * when the required list is empty.
   */
  lemma CandidateWithRealIds(required: seq<string>, hinted: seq<string>)
    requires forall x :: x in required ==> x != ""
    ensures GetCandidateRequiredId(required, hinted).None? <==> |required| == 0
    ensures GetCandidateRequiredId(required, hinted).Some? ==> GetCandidateRequiredId(required, hinted).value in required
    ensures forall i ::
      (0 <= i < |required| && required[i] !in hinted && forall j :: 0 <= j < i ==> required[j] in hinted) ==>
      GetCandidateRequiredId(required, hinted) == Some(required[i])
    ensures (forall x :: x in required ==> x in hinted) && |required| > 0 ==>
      GetCandidateRequiredId(required, hinted) == Some(required[0])
  {
    if |required| > 0 {
      assert required[0] in required;
    }
    var f := FirstNotHinted(required, hinted);
    if f >= 0 {
      assert required[f] in required;
    }
    forall i | 0 <= i < |required| && required[i] !in hinted && forall j :: 0 <= j < i ==> required[j] in hinted
      ensures f == i
    {
    }
  }

  /** An empty-string id is falsy: `[""]` with nothing hinted yields null although the list is not empty. */
  lemma CandidateEmptyIdIsNull()
    ensures GetCandidateRequiredId([""], []) == None
  {
  }

  /** Index of the first key, in `Object.entries` order, whose id list holds `id`, or -1. */
  function FindCategory(keys: seq<Categories.CategoryKey>, id: string): (i: int)
    ensures -1 <= i < |keys|
  {
    if |keys| == 0 then -1
    else if id in Categories.CategoryIds(keys[0]) then 0
    else
      var k := FindCategory(keys[1..], id);
      if k < 0 then -1 else k + 1
  }

  /** The index found is the first key listing `id`; -1 means no key lists it. */
  lemma {:induction false} FindCategorySpec(keys: seq<Categories.CategoryKey>, id: string)
    ensures var i := FindCategory(keys, id);
      (i >= 0 ==> id in Categories.CategoryIds(keys[i]) && forall j :: 0 <= j < i ==> id !in Categories.CategoryIds(keys[j])) &&
      (i < 0 <==> forall j :: 0 <= j < |keys| ==> id !in Categories.CategoryIds(keys[j]))
  {
    if |keys| > 0 && id !in Categories.CategoryIds(keys[0]) {
      FindCategorySpec(keys[1..], id);
      var k := FindCategory(keys[1..], id);
      if k < 0 {
        forall j | 0 <= j < |keys| ensures id !in Categories.CategoryIds(keys[j]) {
          if j > 0 {
            assert keys[j] == keys[1..][j - 1];
          }
        }
      } else {
        forall j | 0 <= j < k + 1 ensures id !in Categories.CategoryIds(keys[j]) {
          if j > 0 {
            assert keys[j] == keys[1..][j - 1];
          }
        }
      }
    }
  }

  /**
   * `getCategoryKeyForIngredient` (GameScreen.utils.ts:121-127); the key's
   * property name is `Categories.KeyName` of the result.
   */
  function GetCategoryKeyForIngredient(id: string): (r: Option<Categories.CategoryKey>)
    ensures r.Some? ==> id in Categories.CategoryIds(r.value)
    ensures r.None? <==> forall k: Categories.CategoryKey :: id !in Categories.CategoryIds(k)
  {
    var i := FindCategory(Categories.Keys, id);
    FindCategorySpec(Categories.Keys, id);
    NotFoundInAnyKey(id, i);
    if i < 0 then None else Some(Categories.Keys[i])
  }

  /** The search over `Categories.Keys` fails exactly when no category lists the id. */
  lemma NotFoundInAnyKey(id: string, i: int)
    requires i == FindCategory(Categories.Keys, id)
    ensures i < 0 <==> forall k: Categories.CategoryKey :: id !in Categories.CategoryIds(k)
  {
    FindCategorySpec(Categories.Keys, id);
    if i < 0 {
      forall k: Categories.CategoryKey ensures id !in Categories.CategoryIds(k) {
        var j := Categories.KeyIndex(k);
        assert Categories.Keys[j] == k;
      }
    }
  }

  /**
   * The lists are disjoint, so the key found is the only one holding the id;
   * and a key is found exactly for the ingredient catalog's ids.
   */
  lemma CategoryKeyIsUnique(id: string)
    ensures GetCategoryKeyForIngredient(id).Some? <==> id in Ingredients.IngredientIds
    ensures forall k: Categories.CategoryKey :: id in Categories.CategoryIds(k) ==> GetCategoryKeyForIngredient(id) == Some(k)
  {
    Categories.CategoriesCoverCatalog();
    var r := GetCategoryKeyForIngredient(id);
    forall k: Categories.CategoryKey | id in Categories.CategoryIds(k)
      ensures r == Some(k)
    {
      if r.value != k {
        Categories.CategoriesDisjoint(k, r.value, id);
      }
    }
  }

  /** The difficulty setting as the string the screen passes. */
  function DifficultyName(d: Difficulty): string {
    match d
    case Easy => "easy"
    case Medium => "medium"
    case Hard => "hard"
  }

  /** `getTotalTime` (GameScreen.utils.ts:129-133): 90 s for "easy", 45 s for "hard", 60 s for anything else. */
  function GetTotalTime(difficulty: string): (t: int)
    ensures t in {45, 60, 90}
    ensures t == 90 <==> difficulty == "easy"
    ensures t == 45 <==> difficulty == "hard"
  {
    if difficulty == "easy" then 90
    else if difficulty == "hard" then 45
    else 60
  }

  /** Harder settings give less time, and medium gets the base game time. */
  lemma TotalTimeByDifficulty()
    ensures GetTotalTime(DifficultyName(Easy)) > GetTotalTime(DifficultyName(Medium)) > GetTotalTime(DifficultyName(Hard))
    ensures GetTotalTime(DifficultyName(Medium)) == BaseGameTime
  {
  }

  /**
   * `getRequiredIngredientIds` (GameScreen.utils.ts:145-150): [] for an empty
   * queue, else the ids of the head customer's first item. Reading the first
   * item of an order without items throws a TypeError, the Failure here.
   */
  function GetRequiredIngredientIds(customers: seq<Customer>): (r: Result<seq<string>, string>)
    ensures |customers| == 0 ==> r == Success([])
    ensures r.Failure? <==> |customers| > 0 && |customers[0].order.items| == 0
    ensures |customers| > 0 && r.Success? ==>
      r.value == IdsOf(customers[0].order.items[0].ingredients, IngredientId)
  {
    if |customers| == 0 then Success([])
    else if |customers[0].order.items| == 0 then Failure("TypeError")
    else Success(IdsOf(customers[0].order.items[0].ingredients, IngredientId))
  }

  /**
   * The screen's hint flow: with nothing selected, the missing ids are the
   * head item's ids, and every one of them is one the provided list would
   * keep once selected.
   */
  lemma RequiredIdsAreItemIds(customers: seq<Customer>)
    requires |customers| > 0 && |customers[0].order.items| > 0
    ensures var item := customers[0].order.items[0];
      var ids := GetRequiredIngredientIds(customers).value;
      GetMissingRequiredIds(ids, [], []) == ids &&
      BuildProvidedIngredients(item.ingredients, ids) == item.ingredients
  {
    var item := customers[0].order.items[0];
    var ids := GetRequiredIngredientIds(customers).value;
    MissingExtremes(ids, []);
    forall x | x in item.ingredients ensures x.id in ids {
      var j :| 0 <= j < |item.ingredients| && item.ingredients[j] == x;
      assert ids[j] == x.id;
    }
    ProvideAll(item.ingredients, ids);
  }
}
