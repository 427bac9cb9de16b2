/** Serve validation and scoring (src/game/serve.ts). */
module Serve {
  import opened Types
  import opened JsNumber
  import opened Lists

  datatype ServeResult = ServeResult(ok: bool, missing: seq<string>, extra: seq<string>)

  /**
   * `toLowerCase` on one character, for the letters the catalog's names can
   * start with: ASCII capitals, the Latin-1 capitals and the capitals of
   * U+0100..U+0137 (among them U+0110, the 'Đ' of "Đường").
   */
  function LowerChar(c: char): char {
    if 'A' <= c <= 'Z' then (c as int + 32) as char
    else if 'À' <= c <= 'Þ' && c != '×' then (c as int + 32) as char
    else if 'Ā' <= c <= 'ķ' && (c as int) % 2 == 0 then (c as int + 1) as char
    else c
  }

  function ToLower(s: string): (r: string)
    ensures |r| == |s|
  {
    seq(|s|, i requires 0 <= i < |s| => LowerChar(s[i]))
  }

  /** `ingredients.map(i => i.name.toLowerCase())` (serve.ts:10-11). */
  function LowerNames(s: seq<Ingredient>): (r: seq<string>)
    ensures |r| == |s|
  {
    seq(|s|, i requires 0 <= i < |s| => ToLower(s[i].name))
  }

  /**
   * `xs.filter(x => !ys.includes(x))`: the entries of `xs` absent from `ys`,
   * in order and with their multiplicity.
   */
  function Absent(xs: seq<string>, ys: seq<string>): seq<string> {
    if |xs| == 0 then []
    else
      var rest := Absent(xs[..|xs| - 1], ys);
      var last := xs[|xs| - 1];
      if last in ys then rest else rest + [last]
  }

  /**
   * The filter keeps exactly the entries of `xs` absent from `ys`, each as
   * often as `xs` holds it and in the order of `xs`.
   */
  lemma {:induction false} AbsentSpec(xs: seq<string>, ys: seq<string>)
    ensures forall x :: multiset(Absent(xs, ys))[x] == if x in ys then 0 else multiset(xs)[x]
    ensures forall x :: x in Absent(xs, ys) <==> x in xs && x !in ys
    ensures Subsequence(Absent(xs, ys), xs)
  {
    if |xs| > 0 {
      var init := xs[..|xs| - 1];
      var last := xs[|xs| - 1];
      AbsentSpec(init, ys);
      assert xs == init + [last];
      assert multiset(xs) == multiset(init) + multiset{last};
      var rest := Absent(init, ys);
      if last !in ys {
        assert (rest + [last])[..|rest|] == rest;
      }
    }
  }

  /**
   * `validateServe` (serve.ts:9-21). `missing` is the expected names absent
   * from the provided ones, and `extra` the provided names absent from the
   * expected ones, each list in its source's order and multiplicity.
   */
  function ValidateServe(expected: OrderItem, provided: seq<Ingredient>): (r: ServeResult)
    ensures var e, p := LowerNames(expected.ingredients), LowerNames(provided);
      (forall x :: x in r.missing <==> x in e && x !in p) &&
      (forall x :: multiset(r.missing)[x] == if x in p then 0 else multiset(e)[x]) &&
      Subsequence(r.missing, e)
    ensures var e, p := LowerNames(expected.ingredients), LowerNames(provided);
      (forall x :: x in r.extra <==> x in p && x !in e) &&
      (forall x :: multiset(r.extra)[x] == if x in e then 0 else multiset(p)[x]) &&
      Subsequence(r.extra, p)
    ensures r.ok <==> r.missing == [] && r.extra == []
  {
    var expectedNames := LowerNames(expected.ingredients);
    var providedNames := LowerNames(provided);
    AbsentSpec(expectedNames, providedNames);
    AbsentSpec(providedNames, expectedNames);
    var missing := Absent(expectedNames, providedNames);
    var extra := Absent(providedNames, expectedNames);
    ServeResult(|missing| == 0 && |extra| == 0, missing, extra)
  }

  /** A serve is accepted exactly when the two lower-cased name lists hold the same SET of names. */
  lemma ValidateIsSetEquality(expected: OrderItem, provided: seq<Ingredient>)
    ensures ValidateServe(expected, provided).ok <==>
      Elems(LowerNames(expected.ingredients)) == Elems(LowerNames(provided))
  {
    var r := ValidateServe(expected, provided);
    var e, p := LowerNames(expected.ingredients), LowerNames(provided);
    if r.ok {
      forall x | x in e ensures x in p {
        assert x !in r.missing;
      }
      forall x | x in p ensures x in e {
        assert x !in r.extra;
      }
    } else {
      if |r.missing| > 0 {
        assert r.missing[0] in r.missing;
        assert r.missing[0] in Elems(e) - Elems(p);
      } else {
        assert r.extra[0] in r.extra;
        assert r.extra[0] in Elems(p) - Elems(e);
      }
    }
  }

  /**
   * A side is empty when the other list names everything on it: no extra
   * ingredient when every provided name is expected, nothing missing when
   * every expected name is provided.
   */
  lemma CoveredSidesEmpty(expected: OrderItem, provided: seq<Ingredient>)
    ensures var e, p := LowerNames(expected.ingredients), LowerNames(provided);
      (forall x :: x in p ==> x in e) ==> ValidateServe(expected, provided).extra == []
    ensures var e, p := LowerNames(expected.ingredients), LowerNames(provided);
      (forall x :: x in e ==> x in p) ==> ValidateServe(expected, provided).missing == []
  {
    var r := ValidateServe(expected, provided);
    NoMemberIsEmpty(r.extra);
    NoMemberIsEmpty(r.missing);
  }

  /**
   * Reordering or duplicating entries of either list never changes `ok`: it
   * depends only on the two sets of names.
   */
  lemma OkDependsOnlyOnNameSets(e1: OrderItem, p1: seq<Ingredient>, e2: OrderItem, p2: seq<Ingredient>)
    requires Elems(LowerNames(e1.ingredients)) == Elems(LowerNames(e2.ingredients))
    requires Elems(LowerNames(p1)) == Elems(LowerNames(p2))
    ensures ValidateServe(e1, p1).ok == ValidateServe(e2, p2).ok
  {
    ValidateIsSetEquality(e1, p1);
    ValidateIsSetEquality(e2, p2);
  }

  /** `Math.max(0, Math.round(timeRemaining * 0.5))` (serve.ts:25). */
  function TimeBonus(timeRemaining: int): (b: int)
    ensures b >= 0
    ensures timeRemaining >= 0 ==> b == (timeRemaining + 1) / 2
  {
    Max(0, Round(timeRemaining as real / 2.0))
  }

  /** `1 + combo * 0.1` for a positive combo, else 1, as an exact rational (serve.ts:26). */
  function ComboMultiplier(combo: int): (m: real)
    ensures m >= 1.0
  {
    if combo > 0 then (10 + combo) as real / 10.0 else 1.0
  }

  /** `Math.round(sum * multiplier)` for the combo's multiplier (serve.ts:27). */
  function ComboScore(sum: int, combo: int): int {
    Round(sum as real * ComboMultiplier(combo))
  }

  /** `calculateServeScore` (serve.ts:23-28), with exact rationals in place of doubles. */
  function CalculateServeScore(item: OrderItem, timeRemaining: int, combo: int): (score: int)
    ensures score >= 100 + 20 * |item.ingredients| + TimeBonus(timeRemaining)
    ensures combo <= 0 ==> score == 100 + 20 * |item.ingredients| + TimeBonus(timeRemaining)
  {
    var base := 100 + |item.ingredients| * 20;
    var sum := base + TimeBonus(timeRemaining);
    ComboScoreAtLeastSum(sum, combo);
    ComboScore(sum, combo)
  }

  /** The multiplier never lowers a non-negative sum, and a combo of 0 or less leaves it as it is. */
  lemma ComboScoreAtLeastSum(sum: int, combo: int)
    requires sum >= 0
    ensures ComboScore(sum, combo) >= sum
    ensures combo <= 0 ==> ComboScore(sum, combo) == sum
  {
    var x, m := sum as real, ComboMultiplier(combo);
    ScaleMonotone(1.0, m, x);
    assert x == x * 1.0;
    RoundMonotone(x, x * m);
    RoundOfInt(sum);
  }

  /** Three ingredients, 20 seconds left and a combo of 2 score round(170 * 1.2) = 204. */
  lemma ScoreExample(item: OrderItem)
    requires |item.ingredients| == 3
    ensures CalculateServeScore(item, 20, 2) == 204
  {
    assert TimeBonus(20) == 10;
    assert 170.0 * ComboMultiplier(2) == 204.0;
    RoundOfInt(204);
  }

  /** The score never falls when the combo grows. */
  lemma ScoreMonotoneInCombo(item: OrderItem, t: int, c1: int, c2: int)
    requires c1 <= c2
    ensures CalculateServeScore(item, t, c1) <= CalculateServeScore(item, t, c2)
  {
    var sum := 100 + |item.ingredients| * 20 + TimeBonus(t);
    ComboScoreMonotoneInCombo(sum, c1, c2);
  }

  lemma ComboScoreMonotoneInCombo(sum: int, c1: int, c2: int)
    requires sum >= 0 && c1 <= c2
    ensures ComboScore(sum, c1) <= ComboScore(sum, c2)
  {
    var x, m1, m2 := sum as real, ComboMultiplier(c1), ComboMultiplier(c2);
    assert m1 <= m2;
    ScaleMonotone(m1, m2, x);
    RoundMonotone(x * m1, x * m2);
  }

  /** The score never falls when more time remains. */
  lemma ScoreMonotoneInTime(item: OrderItem, t1: int, t2: int, combo: int)
    requires t1 <= t2
    ensures CalculateServeScore(item, t1, combo) <= CalculateServeScore(item, t2, combo)
  {
    TimeBonusMonotone(t1, t2);
    var base := 100 + |item.ingredients| * 20;
    ComboScoreMonotoneInSum(base + TimeBonus(t1), base + TimeBonus(t2), combo);
  }

  lemma ComboScoreMonotoneInSum(s1: int, s2: int, combo: int)
    requires s1 <= s2
    ensures ComboScore(s1, combo) <= ComboScore(s2, combo)
  {
    var x1, x2, m := s1 as real, s2 as real, ComboMultiplier(combo);
    ScaleMonotone(x1, x2, m);
    RoundMonotone(x1 * m, x2 * m);
  }

  lemma TimeBonusMonotone(t1: int, t2: int)
    requires t1 <= t2
    ensures TimeBonus(t1) <= TimeBonus(t2)
  {
    RoundMonotone(t1 as real / 2.0, t2 as real / 2.0);
  }

  /** Scaling by a non-negative factor keeps the order, with the factor on either side. */
  lemma ScaleMonotone(a: real, b: real, m: real)
    requires a <= b && m >= 0.0
    ensures a * m <= b * m && m * a <= m * b
  {
    assert b * m - a * m == (b - a) * m;
  }
}
