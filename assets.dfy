/**
 * Image selection (src/game/assets.ts). Images are opaque tokens: the file
 * each `require` names. The two image tables are plain object literals, so a
 * lookup by an id that names a member of Object.prototype ("constructor",
 * "toString", "__proto__", ...) finds that inherited member.
 */
module Assets {
  import opened Wrappers
  import Recipes
  import Ingredients

  datatype Image =
    | StallBase
    | StallUpgrade(index: nat)
    | Food(file: string)
    | IngredientPicture(file: string)
      /** The member of Object.prototype named `key`: a function, or the prototype itself for "__proto__". */
    | Inherited(key: string)

  /** The names an object literal inherits from Object.prototype (section 20.1.3 of ECMA-262, with Annex B). */
  const ObjectPrototypeKeys: set<string> := {
    "constructor", "hasOwnProperty", "isPrototypeOf", "propertyIsEnumerable",
    "toLocaleString", "toString", "valueOf", "__proto__",
    "__defineGetter__", "__defineSetter__", "__lookupGetter__", "__lookupSetter__"
  }

  /** `STORE_ITEMS.map(item => item.cost)` (src/game/store.ts:8-14): not sorted. */
  const StoreCosts: seq<int> := [2500000, 2800000, 3000000, 2200000, 3000000]

  /**
   * The greatest index `i` of `costs` with `coins >= costs[i]`, or -1 when
   * `coins` is below every cost.
   */
  function HighestReached(costs: seq<int>, coins: int): (i: int)
    ensures -1 <= i < |costs|
    ensures i >= 0 ==> coins >= costs[i]
    ensures forall j :: i < j < |costs| ==> coins < costs[j]
  {
    if |costs| == 0 then -1
    else if coins >= costs[|costs| - 1] then |costs| - 1
    else HighestReached(costs[..|costs| - 1], coins)
  }

  /**
   * `getStallImage` (assets.ts:113-131) for the current coin balance: the
   * upgrade image at the last index whose cost is reached, scanning from the
   * end, or the base stall.
   */
  method GetStallImage(coins: int) returns (img: Image)
    ensures img == if HighestReached(StoreCosts, coins) >= 0 then StallUpgrade(HighestReached(StoreCosts, coins)) else StallBase
  {
    var thresholds := StoreCosts;
    var idx := -1;
    var i := |thresholds| - 1;
    while i >= 0
      invariant -1 <= i < |thresholds|
      invariant forall j :: i < j < |thresholds| ==> coins < thresholds[j]
    {
      if coins >= thresholds[i] {
        idx := i;
        break;
      }
      i := i - 1;
    }
    assert idx == HighestReached(thresholds, coins) by {
      HighestReachedUnique(thresholds, coins, idx);
    }
    if idx >= 0 {
      return StallUpgrade(idx);
    }
    return StallBase;
  }

  /** The index that HighestReached's contract describes is the only one. */
  lemma HighestReachedUnique(costs: seq<int>, coins: int, i: int)
    requires -1 <= i < |costs|
    requires i >= 0 ==> coins >= costs[i]
    requires forall j :: i < j < |costs| ==> coins < costs[j]
    ensures i == HighestReached(costs, coins)
  {
  }

  /**
   * Only two upgrades can ever show: below 2 200 000 coins the base stall,
   * up to 3 000 000 the fourth (index 3), from 3 000 000 on the fifth.
   */
  lemma StallTiers(coins: int)
    ensures coins < 2200000 ==> HighestReached(StoreCosts, coins) == -1
    ensures 2200000 <= coins < 3000000 ==> HighestReached(StoreCosts, coins) == 3
    ensures coins >= 3000000 ==> HighestReached(StoreCosts, coins) == 4
  {
    if coins < 2200000 {
      HighestReachedUnique(StoreCosts, coins, -1);
    } else if coins < 3000000 {
      HighestReachedUnique(StoreCosts, coins, 3);
    } else {
      HighestReachedUnique(StoreCosts, coins, 4);
    }
  }

  /** `ITEM_IMAGES` (assets.ts:53-65). */
  const ItemImages: map<string, string> := map[
    "cafe_vot" := "cafe_vot.webp",
    "sua_dau_nanh" := "sua_dau_nanh.webp",
    "banh_mi_thit" := "banh_mi_thit.webp",
    "che" := "che.webp",
    "xien_que" := "xien_que.webp",
    "banh_bo" := "banh_bo.webp",
    "soda_da_chanh" := "soda_da_chanh.webp",
    "soda_chai" := "soda_chai.webp",
    "xien_que_tuong_ot" := "xien_que_tuong_ot.webp",
    "ca_vien_chien" := "ca_vien_chien.webp",
    "soda_chanh_muoi" := "soda_da_chanh.webp"
  ]

  /**
   * `getItemImage` (assets.ts:67-69): the id's own image, the inherited
   * member for an Object.prototype name, otherwise `undefined` (None).
   */
  function GetItemImage(id: string): (r: Option<Image>)
    ensures r.Some? <==> id in ItemImages || id in ObjectPrototypeKeys
    ensures id in ItemImages ==> r == Some(Food(ItemImages[id]))
    ensures id !in ItemImages && id in ObjectPrototypeKeys ==> r == Some(Inherited(id))
  {
    if id in ItemImages then Some(Food(ItemImages[id]))
    else if id in ObjectPrototypeKeys then Some(Inherited(id))
    else None
  }

  /**
   * Every recipe has a food image, and nothing else does;
   * `soda_chanh_muoi` reuses the image of `soda_da_chanh`. Any other id
   * yields `undefined` unless it names an inherited member, as "constructor"
   * does.
   */
  lemma ItemImagesMatchRecipes()
    ensures forall id :: (GetItemImage(id).Some? && GetItemImage(id).value.Food?) <==> id in Recipes.CatalogIds
    ensures forall id :: id !in Recipes.CatalogIds && id !in ObjectPrototypeKeys ==> GetItemImage(id).None?
    ensures GetItemImage("soda_chanh_muoi") == GetItemImage("soda_da_chanh")
    ensures GetItemImage("constructor") == Some(Inherited("constructor"))
  {
  }

  /** `INGREDIENT_IMAGES` (assets.ts:71-95). */
  const IngredientImages: map<string, string> := map[
    "bot_ca_phe" := "bot_ca_phe.webp",
    "nuoc_soi" := "nuoc_soi.webp",
    "nuoc" := "nuoc.webp",
    "duong" := "duong.webp",
    "dau_nanh" := "dau_nanh.webp",
    "banh_mi" := "banh_mi.webp",
    "thit_nguoi" := "thit_nguoi.webp",
    "do_chua" := "do_chua.webp",
    "tuong_ot" := "tuong_ot.webp",
    "hat_che" := "hat_che.webp",
    "nuoc_duong" := "nuoc_duong.webp",
    "da_vien" := "da_vien.webp",
    "thit_xien" := "thit_xien.webp",
    "gia_vi" := "gia_vi.webp",
    "banh_bo_nguyen_lieu" := "banh_bo_nguyen_lieu.webp",
    "nuoc_cot_dua" := "nuoc_cot_dua.webp",
    "soda" := "soda.webp",
    "chanh" := "chanh.webp",
    "ca_vien" := "ca_vien.webp",
    "dua_leo" := "dua_leo.webp",
    "rau_que" := "rau_que.webp",
    "muoi" := "muoi.webp",
    "tieu" := "tieu.webp"
  ]

  /**
   * `getIngredientImage` (assets.ts:97-99): `INGREDIENT_IMAGES[id] ||
   * INGREDIENT_IMAGES.nuoc_soi`. An image and an inherited member are both
   * truthy, so only an id with neither falls back to the boiling-water image.
   */
  function GetIngredientImage(id: string): (r: Image)
    ensures id in IngredientImages ==> r == IngredientPicture(IngredientImages[id])
    ensures id !in IngredientImages && id in ObjectPrototypeKeys ==> r == Inherited(id)
    ensures id !in IngredientImages && id !in ObjectPrototypeKeys ==> r == IngredientPicture("nuoc_soi.webp")
  {
    if id in IngredientImages then IngredientPicture(IngredientImages[id])
    else if id in ObjectPrototypeKeys then Inherited(id)
    else IngredientPicture(IngredientImages["nuoc_soi"])
  }

  /**
   * Every catalog ingredient has its own image, and no other id has one; the
   * fallback serves the other ids except the inherited names, which yield
   * the inherited member ("toString" does not fall back).
   */
  lemma IngredientImagesCoverCatalog()
    ensures forall id :: id in Ingredients.IngredientIds <==> id in IngredientImages
    ensures forall id :: id !in Ingredients.IngredientIds && id !in ObjectPrototypeKeys ==>
      GetIngredientImage(id) == IngredientPicture("nuoc_soi.webp")
    ensures GetIngredientImage("toString") == Inherited("toString")
  {
  }
}
