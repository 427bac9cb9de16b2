/**
 * Customer creation (src/game/customers.ts). The generator is drawn five
 * times, in this order: id suffix, type, patience, x, y. Because a draw of
 * `nextInt` ranges about half an interval on each side of `min`, the type
 * index lies in [-2, 1], the patience draw in [-11, 10] and each coordinate
 * in [-31, 50].
 */
module Customers {
  import opened Wrappers
  import opened Types
  import opened JsNumber
  import opened Rng

  /** `CUSTOMER_TYPES[i]` (customers.ts:9): `undefined` (None) outside 0..3. */
  function TypeAt(i: int): (t: Option<CustomerType>)
    ensures t.Some? <==> 0 <= i < 4
  {
    if i == 0 then Some(Student)
    else if i == 1 then Some(Worker)
    else if i == 2 then Some(Elderly)
    else if i == 3 then Some(Tourist)
    else None
  }

  /** `Math.max(30, Math.min(100, BASE_PATIENCE - draw))` (customers.ts:15). */
  function PatienceOf(draw: int): (p: int)
    ensures 30 <= p <= 100
    ensures 30 <= BasePatience - draw <= 100 ==> p == BasePatience - draw
  {
    Max(30, Min(100, BasePatience - draw))
  }

  /** The placeholder order a new customer carries (customers.ts:21-27). */
  const PlaceholderOrder: Order := Order("", [], 0, 0, 0)

  /** Draw `k` (from 1) of `nextInt(min, max)` from a generator that started in `state`. */
  function DrawAt(state: int, k: nat, min: int, max: int): int {
    IntOf(FloatOf(StateAfter(state, k)), min, max)
  }

  /** `customer_${now}_${suffix}` (customers.ts:13). */
  function CustomerId(now: int, suffix: int): string {
    "customer_" + IntString(now) + "_" + IntString(suffix)
  }

  /** The customer `createCustomer` builds from a generator started in `state`, at clock `now`. */
  function CustomerFrom(state: int, now: int): Customer {
    Customer(
      CustomerId(now, DrawAt(state, 1, 1000, 9999)),
      TypeAt(DrawAt(state, 2, 0, 3)),
      PlaceholderOrder,
      PatienceOf(DrawAt(state, 3, 0, 20)),
      Position(DrawAt(state, 4, 10, 90), DrawAt(state, 5, 10, 90)),
      Neutral)
  }

  /** `createCustomer` (customers.ts:11-32). */
  method CreateCustomer(seed: Option<int>, now: int) returns (c: Customer)
    ensures c == CustomerFrom(InitialState(seed, now), now)
    ensures 30 <= c.patience <= 100
    ensures c.mood == Neutral && c.order == PlaceholderOrder
  {
    var rng := new Lcg(seed, now);
    ghost var start := rng.s;
    var suffix := rng.NextInt(1000, 9999);
    assert rng.s == StateAfter(start, 1);
    var typeIndex := rng.NextInt(0, |[Student, Worker, Elderly, Tourist]| - 1);
    assert rng.s == StateAfter(start, 2);
    var patienceDraw := rng.NextInt(0, 20);
    assert rng.s == StateAfter(start, 3);
    var x := rng.NextInt(10, 90);
    assert rng.s == StateAfter(start, 4);
    var y := rng.NextInt(10, 90);
    assert rng.s == StateAfter(start, 5);
    c := Customer(
      "customer_" + IntString(now) + "_" + IntString(suffix),
      TypeAt(typeIndex),
      Order("", [], 0, 0, 0),
      Max(30, Min(100, BasePatience - patienceDraw)),
      Position(x, y),
      Neutral);
  }

  /**
   * Patience is never below 90: the clamp to [30, 100] only ever cuts at
   * 100, since the draw of `nextInt(0, 20)` is at most 10.
   */
  lemma PatienceAtLeast90(state: int, now: int)
    ensures 90 <= CustomerFrom(state, now).patience <= 100
  {
    NextIntRange(StateAfter(state, 3), 0, 20);
  }

  /** Only 'student', 'worker' or no type at all can occur: the type index lies in [-2, 1]. */
  lemma TypeIsStudentWorkerOrNone(state: int, now: int)
    ensures CustomerFrom(state, now).ctype in {Some(Student), Some(Worker), None}
  {
    NextIntRange(StateAfter(state, 2), 0, 3);
  }

  /** Each coordinate lies in [-31, 50], not in [10, 90]. */
  lemma PositionRange(state: int, now: int)
    ensures -31 <= CustomerFrom(state, now).position.x <= 50
    ensures -31 <= CustomerFrom(state, now).position.y <= 50
  {
    NextIntRange(StateAfter(state, 4), 10, 90);
    NextIntRange(StateAfter(state, 5), 10, 90);
  }

  /** The id suffix lies in [-3500, 5499]; it can be negative. */
  lemma SuffixRange(state: int)
    ensures -3500 <= DrawAt(state, 1, 1000, 9999) <= 5499
  {
    NextIntRange(StateAfter(state, 1), 1000, 9999);
  }

  /** Seed 700 gives the id suffix -3434. */
  lemma Seed700Suffix()
    ensures DrawAt(700, 1, 1000, 9999) == -3434
  {
    assert StateAfter(700, 1) == Step(700) == 2179071723;
    assert ToInt32(2179071723) == -2115895573;
    var r := FloatOf(2179071723);
    assert r == -2115895573.0 / 4294967296.0;
    assert -4435.0 <= r * 9000.0 < -4433.0;
    TimesIsProduct(r, 9000);
  }

  /** Seed 700 draws the type index -1, so its customer has no type (`undefined`). */
  lemma Seed700HasNoType(now: int)
    ensures CustomerFrom(700, now).ctype == None
  {
    assert StateAfter(700, 1) == 2179071723;
    assert StateAfter(700, 2) == Step(2179071723) == 3312289614;
    assert ToInt32(3312289614) == -982677682;
    var r := FloatOf(3312289614);
    assert r == -982677682.0 / 4294967296.0;
    assert -1.0 <= r * 4.0 < 0.0;
  }
}
