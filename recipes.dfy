/** The recipe catalog, its lookup and `toOrderItem` (src/game/recipes.ts). */
module Recipes {
  import opened Wrappers
  import opened Types
  import opened Lists
  import Ingredients

  datatype Recipe = Recipe(
    id: string,
    name: string,
    ingredients: seq<Ingredient>,
    basePrice: int,
    preparationTime: int)

  /** A recipe's `id`, the key of `map(r => r.id)` and `find(r => r.id === id)`. */
  function RecipeId(r: Recipe): string {
    r.id
  }

  const RecipeCatalog: seq<Recipe> := [
    Recipe("cafe_vot", "Cà phê vợt", [
      Ingredient("bot_ca_phe", "Bột cà phê", Powder, 15, G),
      Ingredient("nuoc_soi", "Nước sôi", Liquid, 150, Ml),
      Ingredient("duong", "Đường", Powder, 10, G)], 12000, 18),
    Recipe("sua_dau_nanh", "Sữa đậu nành", [
      Ingredient("dau_nanh", "Đậu nành", Solid, 50, G),
      Ingredient("nuoc", "Nước", Liquid, 200, Ml),
      Ingredient("duong", "Đường", Powder, 10, G)], 8000, 12),
    Recipe("banh_mi_thit", "Bánh mì thịt", [
      Ingredient("banh_mi", "Bánh mì", Solid, 1, Piece),
      Ingredient("thit_nguoi", "Thịt nguội", Solid, 50, G),
      Ingredient("do_chua", "Đồ chua", Solid, 30, G),
      Ingredient("tuong_ot", "Tương ớt", Liquid, 10, Ml)], 18000, 15),
    Recipe("che", "Chè", [
      Ingredient("hat_che", "Hạt chè", Solid, 50, G),
      Ingredient("nuoc_duong", "Nước đường", Liquid, 150, Ml),
      Ingredient("da_vien", "Đá viên", Solid, 6, Piece)], 10000, 10),
    Recipe("xien_que", "Xiên que", [
      Ingredient("thit_xien", "Thịt xiên", Solid, 60, G),
      Ingredient("gia_vi", "Gia vị", Powder, 5, G)], 15000, 8),
    Recipe("banh_bo", "Bánh bò", [
      Ingredient("banh_bo_nguyen_lieu", "Bánh bò", Solid, 1, Piece),
      Ingredient("nuoc_cot_dua", "Nước cốt dừa", Liquid, 20, Ml)], 7000, 6),
    Recipe("soda_da_chanh", "Soda đá chanh", [
      Ingredient("soda", "Soda", Liquid, 200, Ml),
      Ingredient("chanh", "Chanh", Solid, 1, Piece),
      Ingredient("da_vien", "Đá viên", Solid, 6, Piece)], 12000, 9),
    Recipe("soda_chai", "Soda chai", [
      Ingredient("soda", "Soda", Liquid, 330, Ml)], 10000, 3),
    Recipe("xien_que_tuong_ot", "Xiên que tương ớt", [
      Ingredient("thit_xien", "Thịt xiên", Solid, 60, G),
      Ingredient("tuong_ot", "Tương ớt", Liquid, 10, Ml),
      Ingredient("tieu", "Tiêu", Powder, 2, G)], 17000, 9),
    Recipe("ca_vien_chien", "Cá viên chiên", [
      Ingredient("ca_vien", "Cá viên", Solid, 80, G),
      Ingredient("dua_leo", "Dưa leo", Solid, 20, G),
      Ingredient("rau_que", "Rau quế", Garnish, 5, G)], 16000, 8),
    Recipe("soda_chanh_muoi", "Soda chanh muối", [
      Ingredient("soda", "Soda", Liquid, 200, Ml),
      Ingredient("chanh", "Chanh", Solid, 1, Piece),
      Ingredient("muoi", "Muối", Powder, 2, G)], 13000, 9)
  ]

  /** The catalog's ids, in catalog order. */
  const CatalogIds: seq<string> := [
    "cafe_vot", "sua_dau_nanh", "banh_mi_thit", "che", "xien_que", "banh_bo",
    "soda_da_chanh", "soda_chai", "xien_que_tuong_ot", "ca_vien_chien", "soda_chanh_muoi"
  ]

  /** `getRecipeById` (recipes.ts:132-134). */
  function GetRecipeById(id: string): (r: Option<Recipe>)
    ensures r.Some? ==> r.value in RecipeCatalog && r.value.id == id
    ensures r.None? <==> id !in CatalogIds
  {
    CatalogIdsMatch();
    var i := FindIndex(RecipeCatalog, RecipeId, id);
    if i < 0 then None else Some(RecipeCatalog[i])
  }

  /** `toOrderItem` (recipes.ts:136-153): a placeholder for a missing recipe, else a copy with base price and time. */
  function ToOrderItem(recipe: Option<Recipe>): (item: OrderItem)
    ensures recipe.None? ==> item == OrderItem("unknown", "Món không xác định", [], 0, 0, None)
    ensures recipe.Some? ==>
      item.id == recipe.value.id && item.name == recipe.value.name &&
      item.ingredients == recipe.value.ingredients &&
      item.price == recipe.value.basePrice &&
      item.preparationTime == recipe.value.preparationTime &&
      item.requirements.None?
  {
    match recipe
    case None => OrderItem("unknown", "Món không xác định", [], 0, 0, None)
    case Some(r) => OrderItem(r.id, r.name, r.ingredients, r.basePrice, r.preparationTime, None)
  }

  /** `getRecipeById` returns, for each catalog id, the recipe at that position. */
  lemma {:induction false} GetRecipeByIdExact(k: nat)
    requires k < |RecipeCatalog|
    ensures GetRecipeById(RecipeCatalog[k].id) == Some(RecipeCatalog[k])
  {
    CatalogIdsMatch();
    CatalogIdsNoDup();
    var i := FindIndex(RecipeCatalog, RecipeId, RecipeCatalog[k].id);
    assert i >= 0;
    assert i == k;
  }

  /** The catalog is not empty, so `RECIPE_CATALOG[0]` always exists. */
  lemma CatalogNonEmpty()
    ensures |RecipeCatalog| == 11
  {
  }

  /** A well-formed recipe: some ingredients, distinct ingredient ids, positive price and time. */
  predicate WellFormed(r: Recipe) {
    |r.ingredients| >= 1 &&
    NoDup(IdsOf(r.ingredients, IngredientId)) &&
    r.basePrice > 0 && r.preparationTime > 0
  }

  /** The catalog's ids are `CatalogIds`, in order. */
  lemma CatalogIdsMatch()
    ensures |RecipeCatalog| == 11
    ensures IdsOf(RecipeCatalog, RecipeId) == CatalogIds
  {
  }

  /** No two catalog recipes share an id. */
  lemma CatalogIdsNoDup()
    ensures NoDup(CatalogIds)
  {
  }

  /** No catalog id is the empty string. */
  lemma CatalogIdsNonEmpty()
    ensures forall id :: id in CatalogIds ==> id != ""
  {
  }

  /** Every catalog recipe is well formed. */
  lemma CatalogRecipesWellFormed()
    ensures forall r :: r in RecipeCatalog ==> WellFormed(r)
  {
    RecipesWellFormedLow();
    RecipesWellFormedMid();
    RecipesWellFormedHigh();
    forall r | r in RecipeCatalog ensures WellFormed(r) {
      var i :| 0 <= i < |RecipeCatalog| && RecipeCatalog[i] == r;
    }
  }

  /** Recipes 0 to 3 are well formed. */
  lemma RecipesWellFormedLow()
    ensures forall i :: 0 <= i < 4 ==> WellFormed(RecipeCatalog[i])
  {
  }

  /** Recipes 4 to 7 are well formed. */
  lemma RecipesWellFormedMid()
    ensures forall i :: 4 <= i < 8 ==> WellFormed(RecipeCatalog[i])
  {
  }

  /** Recipes 8 to 10 are well formed. */
  lemma RecipesWellFormedHigh()
    ensures |RecipeCatalog| == 11
    ensures forall i :: 8 <= i < 11 ==> WellFormed(RecipeCatalog[i])
  {
  }

  /** The catalog holds 11 well-formed recipes with pairwise-distinct ids. */
  lemma CatalogWellFormed()
    ensures |RecipeCatalog| == 11
    ensures IdsOf(RecipeCatalog, RecipeId) == CatalogIds
    ensures NoDup(CatalogIds)
    ensures forall r :: r in RecipeCatalog ==> WellFormed(r)
  {
    CatalogIdsMatch();
    CatalogIdsNoDup();
    CatalogRecipesWellFormed();
  }

  /** Any recipe taken from the catalog is well formed. */
  lemma CatalogRecipeWellFormed(r: Recipe)
    requires r in RecipeCatalog
    ensures WellFormed(r)
  {
    CatalogRecipesWellFormed();
  }

  /** Every ingredient id a recipe uses is in the ingredient catalog. */
  lemma RecipeIngredientsInCatalog()
    ensures forall i, j :: 0 <= i < |RecipeCatalog| && 0 <= j < |RecipeCatalog[i].ingredients| ==>
      RecipeCatalog[i].ingredients[j].id in IdsOf(Ingredients.IngredientCatalog, IngredientId)
  {
    Ingredients.CatalogIdsDistinct();
  }

  /**
   * A recipe's copy of an ingredient need not equal the catalog entry: the
   * fish balls weigh 80 g in `ca_vien_chien` but 60 g in the catalog.
   */
  lemma CatalogCopyMayDiffer()
    ensures Ingredients.GetIngredientById("ca_vien").Some?
    ensures Ingredients.GetIngredientById("ca_vien").value.quantity == 60
    ensures RecipeCatalog[9].ingredients[0].id == "ca_vien"
    ensures RecipeCatalog[9].ingredients[0].quantity == 80
  {
    var fish := Ingredients.IngredientCatalog[18];
    assert fish == Ingredient("ca_vien", "Cá viên", Solid, 60, G);
    Ingredients.GetIngredientByIdExact(18);
  }
}
