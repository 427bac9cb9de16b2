/** The partition of ingredient ids into five shelf categories (src/game/categories.ts). */
module Categories {
  import opened Lists
  import Ingredients

  datatype CategoryKey = BaseKey | ProteinKey | LiquidKey | ToppingKey | SpicesKey

  /** The keys in declaration order, the order `Object.entries` visits them. */
  const Keys: seq<CategoryKey> := [BaseKey, ProteinKey, LiquidKey, ToppingKey, SpicesKey]

  /** The position of a key in `Keys`. */
  function KeyIndex(k: CategoryKey): (j: nat)
    ensures j < |Keys| && Keys[j] == k
  {
    match k
    case BaseKey => 0
    case ProteinKey => 1
    case LiquidKey => 2
    case ToppingKey => 3
    case SpicesKey => 4
  }

  /** The property name of a key. */
  function KeyName(k: CategoryKey): string {
    match k
    case BaseKey => "base"
    case ProteinKey => "protein"
    case LiquidKey => "liquid"
    case ToppingKey => "topping"
    case SpicesKey => "spices"
  }

  /** `INGREDIENT_CATEGORIES[k]` (categories.ts:8-21). */
  function CategoryIds(k: CategoryKey): seq<string> {
    match k
    case BaseKey => ["banh_mi", "banh_bo_nguyen_lieu", "dau_nanh"]
    case ProteinKey => ["thit_nguoi", "thit_xien", "ca_vien"]
    case LiquidKey => ["nuoc", "nuoc_soi", "nuoc_duong", "nuoc_cot_dua", "soda", "tuong_ot"]
    case ToppingKey => ["do_chua", "hat_che", "da_vien", "chanh", "dua_leo", "rau_que"]
    case SpicesKey => ["duong", "gia_vi", "bot_ca_phe", "muoi", "tieu"]
  }

  /** `CATEGORY_LABELS[k]` (categories.ts:23-29). */
  function CategoryLabel(k: CategoryKey): string {
    match k
    case BaseKey => "Cơ bản"
    case ProteinKey => "Thịt"
    case LiquidKey => "Chất lỏng"
    case ToppingKey => "Topping"
    case SpicesKey => "Gia vị"
  }

  /** Exactly five keys, with distinct names and a non-empty label each. */
  lemma KeysComplete()
    ensures |Keys| == 5 && NoDup(Keys)
    ensures forall k: CategoryKey :: k in Keys
    ensures forall i, j :: 0 <= i < j < |Keys| ==> KeyName(Keys[i]) != KeyName(Keys[j])
    ensures forall k: CategoryKey :: |CategoryLabel(k)| > 0
  {
    forall k: CategoryKey ensures k in Keys {
      match k
      case BaseKey => assert Keys[0] == k;
      case ProteinKey => assert Keys[1] == k;
      case LiquidKey => assert Keys[2] == k;
      case ToppingKey => assert Keys[3] == k;
      case SpicesKey => assert Keys[4] == k;
    }
  }

  /** The five id lists are pairwise disjoint. */
  lemma CategoriesDisjoint(a: CategoryKey, b: CategoryKey, id: string)
    requires a != b
    requires id in CategoryIds(a)
    ensures id !in CategoryIds(b)
  {
    match a
    case BaseKey => BaseDisjoint(b, id);
    case ProteinKey => ProteinDisjoint(b, id);
    case LiquidKey => LiquidDisjoint(b, id);
    case ToppingKey => ToppingDisjoint(b, id);
    case SpicesKey => SpicesDisjoint(b, id);
  }

  /** The ids of one category appear in no other (one lemma per category). */
  lemma BaseDisjoint(b: CategoryKey, id: string)
    requires b != BaseKey && id in CategoryIds(BaseKey)
    ensures id !in CategoryIds(b)
  {
  }

  lemma ProteinDisjoint(b: CategoryKey, id: string)
    requires b != ProteinKey && id in CategoryIds(ProteinKey)
    ensures id !in CategoryIds(b)
  {
  }

  lemma LiquidDisjoint(b: CategoryKey, id: string)
    requires b != LiquidKey && id in CategoryIds(LiquidKey)
    ensures id !in CategoryIds(b)
  {
  }

  lemma ToppingDisjoint(b: CategoryKey, id: string)
    requires b != ToppingKey && id in CategoryIds(ToppingKey)
    ensures id !in CategoryIds(b)
  {
  }

  lemma SpicesDisjoint(b: CategoryKey, id: string)
    requires b != SpicesKey && id in CategoryIds(SpicesKey)
    ensures id !in CategoryIds(b)
  {
  }

  /** Together the five lists hold exactly the ingredient catalog's ids. */
  lemma CategoriesCoverCatalog()
    ensures forall id :: (exists k: CategoryKey :: id in CategoryIds(k)) <==> id in Ingredients.IngredientIds
  {
    forall id
      ensures (exists k: CategoryKey :: id in CategoryIds(k)) <==> id in Ingredients.IngredientIds
    {
      if id in Ingredients.IngredientIds {
        assert id in CategoryIds(BaseKey) || id in CategoryIds(ProteinKey) || id in CategoryIds(LiquidKey) ||
               id in CategoryIds(ToppingKey) || id in CategoryIds(SpicesKey);
      }
    }
  }
}
