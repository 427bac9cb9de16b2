/**
 * Dish compilation from selected ingredient ids (src/game/combine.ts).
 *
 * `sortIds` is JavaScript's default `sort` on a copy: strings compared code
 * unit by code unit. The catalog's ids are ASCII, so comparing `char`s is the
 * same order.
 */
module Combine {
  import opened Wrappers
  import opened Types
  import opened Lists
  import opened Recipes
  import Ingredients

  /** The default string order of `Array.prototype.sort`: lexicographic by character. */
  predicate StrLe(a: string, b: string) {
    |a| == 0 || (|b| > 0 && (a[0] < b[0] || (a[0] == b[0] && StrLe(a[1..], b[1..]))))
  }

  lemma {:induction false} StrLeTotal(a: string, b: string)
    ensures StrLe(a, b) || StrLe(b, a)
  {
    if |a| > 0 && |b| > 0 && a[0] == b[0] {
      StrLeTotal(a[1..], b[1..]);
    }
  }

  lemma {:induction false} StrLeReflexive(a: string)
    ensures StrLe(a, a)
  {
    if |a| > 0 {
      StrLeReflexive(a[1..]);
    }
  }

  lemma {:induction false} StrLeAntisymmetric(a: string, b: string)
    requires StrLe(a, b) && StrLe(b, a)
    ensures a == b
  {
    if |a| > 0 && |b| > 0 {
      StrLeAntisymmetric(a[1..], b[1..]);
      assert a == [a[0]] + a[1..];
      assert b == [b[0]] + b[1..];
    }
  }

  lemma {:induction false} StrLeTransitive(a: string, b: string, c: string)
    requires StrLe(a, b) && StrLe(b, c)
    ensures StrLe(a, c)
  {
    if |a| > 0 && |b| > 0 && |c| > 0 && a[0] == b[0] && b[0] == c[0] {
      StrLeTransitive(a[1..], b[1..], c[1..]);
    }
  }

  predicate Sorted(s: seq<string>) {
    forall i, j :: 0 <= i < j < |s| ==> StrLe(s[i], s[j])
  }

  /** Inserts `x` before the first element it does not follow. */
  function Insert(x: string, s: seq<string>): (r: seq<string>)
    requires Sorted(s)
    ensures Sorted(r)
    ensures multiset(r) == multiset(s) + multiset{x}
  {
    if |s| == 0 then [x]
    else if StrLe(x, s[0]) then
      InsertFront(x, s);
      [x] + s
    else
      var rest := Insert(x, s[1..]);
      InsertBehind(x, s, rest);
      [s[0]] + rest
  }

  /** The head of a sorted `s` that `x` does not precede, before `x` inserted in the tail, is sorted. */
  lemma InsertBehind(x: string, s: seq<string>, rest: seq<string>)
    requires Sorted(s) && |s| > 0 && !StrLe(x, s[0])
    requires Sorted(rest) && multiset(rest) == multiset(s[1..]) + multiset{x}
    ensures Sorted([s[0]] + rest)
    ensures multiset([s[0]] + rest) == multiset(s) + multiset{x}
  {
    StrLeTotal(x, s[0]);
    assert s == [s[0]] + s[1..];
    forall k | 0 <= k < |rest| ensures StrLe(s[0], rest[k]) {
      assert rest[k] in multiset(rest);
      if rest[k] != x {
        assert rest[k] in multiset(s[1..]);
        var j :| 0 <= j < |s[1..]| && s[1..][j] == rest[k];
        assert s[j + 1] == rest[k];
      }
    }
    var t := [s[0]] + rest;
    forall i, j | 0 <= i < j < |t| ensures StrLe(t[i], t[j]) {
      if i > 0 {
        assert t[i] == rest[i - 1] && t[j] == rest[j - 1];
      } else {
        assert t[j] == rest[j - 1];
      }
    }
  }

  /** `x` before a sorted `s` whose head it does not follow is sorted. */
  lemma InsertFront(x: string, s: seq<string>)
    requires Sorted(s) && |s| > 0 && StrLe(x, s[0])
    ensures Sorted([x] + s)
  {
    forall j | 0 <= j < |s| ensures StrLe(x, s[j]) {
      if j > 0 { StrLeTransitive(x, s[0], s[j]); }
    }
  }

  /** `sortIds` (combine.ts:3-5): a sorted copy with the same elements; the input is a value and stays as it was. */
  function SortIds(ids: seq<string>): (r: seq<string>)
    ensures Sorted(r)
    ensures multiset(r) == multiset(ids)
  {
    if |ids| == 0 then []
    else
      assert ids == [ids[0]] + ids[1..];
      Insert(ids[0], SortIds(ids[1..]))
  }

  /** Two sorted lists with the same elements are the same list. */
  lemma {:induction false} SortedUnique(a: seq<string>, b: seq<string>)
    requires Sorted(a) && Sorted(b)
    requires multiset(a) == multiset(b)
    ensures a == b
  {
    if |a| == 0 {
      assert |multiset(b)| == 0;
    } else {
      SortedSameHead(a, b);
      MultisetTail(a);
      MultisetTail(b);
      SortedTail(a);
      SortedTail(b);
      SortedUnique(a[1..], b[1..]);
      assert a == [a[0]] + a[1..];
      assert b == [b[0]] + b[1..];
    }
  }

  /** Two sorted non-empty lists with the same elements start alike. */
  lemma SortedSameHead(a: seq<string>, b: seq<string>)
    requires Sorted(a) && Sorted(b) && |a| > 0
    requires multiset(a) == multiset(b)
    ensures |b| > 0 && a[0] == b[0]
  {
    assert a[0] in multiset(b);
    assert |b| > 0;
    assert b[0] in multiset(a);
    var i :| 0 <= i < |b| && b[i] == a[0];
    var j :| 0 <= j < |a| && a[j] == b[0];
    if i > 0 { assert StrLe(b[0], b[i]); } else { StrLeReflexive(b[0]); }
    if j > 0 { assert StrLe(a[0], a[j]); } else { StrLeReflexive(a[0]); }
    StrLeAntisymmetric(a[0], b[0]);
  }

  lemma MultisetTail(s: seq<string>)
    requires |s| > 0
    ensures multiset(s[1..]) == multiset(s) - multiset{s[0]}
  {
    assert s == [s[0]] + s[1..];
  }

  lemma SortedTail(s: seq<string>)
    requires Sorted(s) && |s| > 0
    ensures Sorted(s[1..])
  {
    forall i, j | 0 <= i < j < |s| - 1 ensures StrLe(s[1..][i], s[1..][j]) {
      assert s[1..][i] == s[i + 1] && s[1..][j] == s[j + 1];
    }
  }

  /** Sorting two lists gives equal results exactly when they hold the same multiset of ids. */
  lemma SortIdsEqualIffSameMultiset(a: seq<string>, b: seq<string>)
    ensures SortIds(a) == SortIds(b) <==> multiset(a) == multiset(b)
  {
    if multiset(a) == multiset(b) {
      SortedUnique(SortIds(a), SortIds(b));
    }
  }

  /** `idsOfRecipe` (combine.ts:7-11). */
  function IdsOfRecipe(recipe: Recipe): (r: seq<string>)
    ensures |r| == |recipe.ingredients|
    ensures forall i :: 0 <= i < |r| ==> r[i] == recipe.ingredients[i].id
  {
    IdsOf(recipe.ingredients, IngredientId)
  }

  /** A selection makes a recipe when it holds the recipe's ids with the same multiplicities. */
  predicate Matches(selected: seq<string>, recipe: Recipe) {
    multiset(selected) == multiset(IdsOfRecipe(recipe))
  }

  /** `a.length === b.length && a.every((id, index) => id === b[index])` (combine.ts:17). */
  predicate SameList(a: seq<string>, b: seq<string>)
    ensures SameList(a, b) <==> a == b
  {
    |a| == |b| && forall k :: 0 <= k < |a| ==> a[k] == b[k]
  }

  /**
   * `compileSelectedDish` (combine.ts:13-22): the first catalog recipe whose
   * sorted ids equal the sorted selection, or none.
   */
  method CompileSelectedDish(selectedIngredientIds: seq<string>) returns (r: Option<Recipe>)
    ensures r.Some? ==> exists k ::
      0 <= k < |RecipeCatalog| && r.value == RecipeCatalog[k] && Matches(selectedIngredientIds, RecipeCatalog[k]) &&
      (forall j :: 0 <= j < k ==> !Matches(selectedIngredientIds, RecipeCatalog[j]))
    ensures r.None? ==> forall k :: 0 <= k < |RecipeCatalog| ==> !Matches(selectedIngredientIds, RecipeCatalog[k])
  {
    r := FirstMatch(selectedIngredientIds, RecipeCatalog);
  }

  /**
   * The test of combine.ts:16-17 for one recipe: the sorted selection equals
   * the recipe's sorted ids. It holds exactly when the selection has the
   * recipe's ids with the same multiplicities.
   */
  predicate SortedIdsEqual(selected: seq<string>, recipe: Recipe)
    ensures SortedIdsEqual(selected, recipe) <==> Matches(selected, recipe)
  {
    SortIdsEqualIffSameMultiset(selected, IdsOfRecipe(recipe));
    SameList(SortIds(selected), SortIds(IdsOfRecipe(recipe)))
  }

  /** The loop of `compileSelectedDish`, over any list of recipes. */
  method FirstMatch(selectedIngredientIds: seq<string>, catalog: seq<Recipe>) returns (r: Option<Recipe>)
    ensures r.Some? ==> exists k ::
      0 <= k < |catalog| && r.value == catalog[k] && Matches(selectedIngredientIds, catalog[k]) &&
      (forall j :: 0 <= j < k ==> !Matches(selectedIngredientIds, catalog[j]))
    ensures r.None? ==> forall k :: 0 <= k < |catalog| ==> !Matches(selectedIngredientIds, catalog[k])
  {
    var i := 0;
    while i < |catalog|
      invariant 0 <= i <= |catalog|
      invariant forall j :: 0 <= j < i ==> !Matches(selectedIngredientIds, catalog[j])
    {
      var same := SortedIdsEqual(selectedIngredientIds, catalog[i]);
      if same {
        ghost var k := i;
        assert 0 <= k < |catalog| && Matches(selectedIngredientIds, catalog[k]) &&
          (forall j :: 0 <= j < k ==> !Matches(selectedIngredientIds, catalog[j]));
        return Some(catalog[i]);
      }
      i := i + 1;
    }
    return None;
  }

  /**
   * Whether a selection makes a recipe does not depend on the order of the
   * selection, so neither does the result of CompileSelectedDish.
   */
  lemma MatchIgnoresOrder(a: seq<string>, b: seq<string>, recipe: Recipe)
    requires multiset(a) == multiset(b)
    ensures Matches(a, recipe) <==> Matches(b, recipe)
  {
  }

  /** Duplicates matter: selecting soda twice makes no recipe, though soda once makes `soda_chai`. */
  lemma DuplicatesMatter()
    ensures Matches(["soda"], RecipeCatalog[7])
    ensures forall k :: 0 <= k < |RecipeCatalog| ==> !Matches(["soda", "soda"], RecipeCatalog[k])
  {
    forall k | 0 <= k < |RecipeCatalog|
      ensures !Matches(["soda", "soda"], RecipeCatalog[k])
    {
      var ids := IdsOfRecipe(RecipeCatalog[k]);
      if |ids| != 2 {
        assert |multiset(ids)| != |multiset(["soda", "soda"])|;
      } else {
        assert multiset(ids)["soda"] <= 1;
      }
    }
  }
}
