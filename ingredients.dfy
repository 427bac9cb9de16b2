/** The ingredient catalog and its lookup (src/game/ingredients.ts). */
module Ingredients {
  import opened Wrappers
  import opened Types
  import opened Lists

  const IngredientCatalog: seq<Ingredient> := [
    Ingredient("bot_ca_phe", "Bột cà phê", Powder, 15, G),
    Ingredient("nuoc_soi", "Nước sôi", Liquid, 150, Ml),
    Ingredient("duong", "Đường", Powder, 10, G),
    Ingredient("dau_nanh", "Đậu nành", Solid, 50, G),
    Ingredient("nuoc", "Nước", Liquid, 200, Ml),
    Ingredient("banh_mi", "Bánh mì", Solid, 1, Piece),
    Ingredient("thit_nguoi", "Thịt nguội", Solid, 50, G),
    Ingredient("do_chua", "Đồ chua", Solid, 30, G),
    Ingredient("tuong_ot", "Tương ớt", Liquid, 10, Ml),
    Ingredient("hat_che", "Hạt chè", Solid, 50, G),
    Ingredient("nuoc_duong", "Nước đường", Liquid, 150, Ml),
    Ingredient("da_vien", "Đá viên", Solid, 6, Piece),
    Ingredient("thit_xien", "Thịt xiên", Solid, 60, G),
    Ingredient("gia_vi", "Gia vị", Powder, 5, G),
    Ingredient("banh_bo_nguyen_lieu", "Bánh bò", Solid, 1, Piece),
    Ingredient("nuoc_cot_dua", "Nước cốt dừa", Liquid, 20, Ml),
    Ingredient("soda", "Soda", Liquid, 200, Ml),
    Ingredient("chanh", "Chanh", Solid, 1, Piece),
    Ingredient("ca_vien", "Cá viên", Solid, 60, G),
    Ingredient("dua_leo", "Dưa leo", Solid, 20, G),
    Ingredient("rau_que", "Rau quế", Garnish, 5, G),
    Ingredient("muoi", "Muối", Powder, 2, G),
    Ingredient("tieu", "Tiêu", Powder, 2, G)
  ]

  /** The catalog's ids, in catalog order. */
  const IngredientIds: seq<string> := [
    "bot_ca_phe", "nuoc_soi", "duong", "dau_nanh", "nuoc", "banh_mi", "thit_nguoi",
    "do_chua", "tuong_ot", "hat_che", "nuoc_duong", "da_vien", "thit_xien", "gia_vi",
    "banh_bo_nguyen_lieu", "nuoc_cot_dua", "soda", "chanh", "ca_vien", "dua_leo",
    "rau_que", "muoi", "tieu"
  ]

  /** `getIngredientById` (ingredients.ts:29-33). */
  function GetIngredientById(id: string): (r: Option<Ingredient>)
    ensures r.Some? ==> r.value in IngredientCatalog && r.value.id == id
    ensures r.None? <==> id !in IngredientIds
  {
    CatalogIdsDistinct();
    var i := FindIndex(IngredientCatalog, IngredientId, id);
    if i < 0 then None else Some(IngredientCatalog[i])
  }

  /** The catalog holds 23 entries with pairwise-distinct ids, listed by IngredientIds. */
  lemma CatalogIdsDistinct()
    ensures |IngredientCatalog| == 23
    ensures IdsOf(IngredientCatalog, IngredientId) == IngredientIds
    ensures forall i, j :: 0 <= i < j < |IngredientCatalog| ==> IngredientCatalog[i].id != IngredientCatalog[j].id
  {
    IdsListed();
    IdsDistinctLow();
    IdsDistinctMid();
    IdsDistinctHigh();
  }

  /** `IngredientIds` lists the catalog's ids in order. */
  lemma IdsListed()
    ensures |IngredientCatalog| == 23
    ensures IdsOf(IngredientCatalog, IngredientId) == IngredientIds
  {
  }

  /** The first eight ids occur nowhere later in the list. */
  lemma IdsDistinctLow()
    ensures forall i, j :: 0 <= i < 8 && i < j < |IngredientIds| ==> IngredientIds[i] != IngredientIds[j]
  {
  }

  /** Ids 8 to 15 occur nowhere later in the list. */
  lemma IdsDistinctMid()
    ensures forall i, j :: 8 <= i < 16 && i < j < |IngredientIds| ==> IngredientIds[i] != IngredientIds[j]
  {
  }

  /** Ids 16 to 22 occur nowhere later in the list. */
  lemma IdsDistinctHigh()
    ensures forall i, j :: 16 <= i < j < |IngredientIds| ==> IngredientIds[i] != IngredientIds[j]
  {
  }

  /** `getIngredientById` finds an entry exactly for the catalog's ids, and it is the entry with that id. */
  lemma {:induction false} GetIngredientByIdExact(k: nat)
    requires k < |IngredientCatalog|
    ensures GetIngredientById(IngredientCatalog[k].id) == Some(IngredientCatalog[k])
  {
    CatalogIdsDistinct();
    var i := FindIndex(IngredientCatalog, IngredientId, IngredientCatalog[k].id);
    assert i >= 0;
    assert i == k;
  }
}
