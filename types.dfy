/**
 * The game's records (src/types/index.ts). Numbers the game only ever holds
 * as whole values (prices, seconds, patience, coins) are `int`; the two
 * volume settings are `real`.
 */
module Types {
  import opened Wrappers

  /** `GAME_CONSTANTS` (src/types/index.ts:205-215), the entries the game logic reads. */
  const MaxCustomers: int := 5
  const BasePatience: int := 100
  const BaseGameTime: int := 60

  datatype GameState = Menu | Playing | Paused | GameOver | PhotoMode

  datatype Difficulty = Easy | Medium | Hard

  datatype Language = Vi | En

  datatype CustomerType = Student | Worker | Elderly | Tourist

  datatype Mood = Happy | Neutral | Impatient | Angry

  datatype Position = Position(x: int, y: int)

  datatype IngredientKind = Liquid | Solid | Powder | Garnish

  datatype Unit = Ml | G | Piece

  datatype Ingredient = Ingredient(id: string, name: string, kind: IngredientKind, quantity: int, unit: Unit)

  /** An ingredient's `id`, the key of `map(i => i.id)` and `find(i => i.id === id)`. */
  function IngredientId(x: Ingredient): string {
    x.id
  }

  /** `requirements` is absent (None) on items built by `toOrderItem` alone. */
  datatype OrderItem = OrderItem(
    id: string,
    name: string,
    ingredients: seq<Ingredient>,
    price: int,
    preparationTime: int,
    requirements: Option<seq<string>>)

  datatype Order = Order(id: string, items: seq<OrderItem>, totalPrice: int, timeLimit: int, complexity: int)

  /**
   * `ctype` is None when the source's `CUSTOMER_TYPES[i]` lookup read past
   * the array (the value `undefined`).
   */
  datatype Customer = Customer(
    id: string,
    ctype: Option<CustomerType>,
    order: Order,
    patience: int,
    position: Position,
    mood: Mood)

  datatype Settings = Settings(
    language: Language,
    soundVolume: real,
    musicVolume: real,
    vibration: bool,
    notifications: bool,
    difficulty: Difficulty,
    autoSave: bool)

  datatype LeaderboardEntry = LeaderboardEntry(
    rank: int,
    playerName: string,
    score: int,
    duration: int,
    customersServed: int)

  /** Journal entries as the store builds them (id, day, title, achieved, date). */
  datatype JournalEntry = JournalEntry(id: string, day: int, title: string, achieved: bool, date: string)

  /**
   * Aggregate statistics. The two count tables are JavaScript objects keyed
   * by strings; a missing key reads as 0 through `|| 0`.
   */
  datatype Stats = Stats(
    customerTypeCounts: map<string, int>,
    itemSoldCounts: map<string, int>,
    wrongServeCount: int,
    outOfStockCount: int,
    totalSodaChaiSold: int,
    coinsEarnedThisSession: int,
    randomNotes: seq<string>)

  /** The property key JavaScript uses for `counts[customer.type]`. */
  function TypeKey(t: Option<CustomerType>): string {
    match t
    case None => "undefined"
    case Some(Student) => "student"
    case Some(Worker) => "worker"
    case Some(Elderly) => "elderly"
    case Some(Tourist) => "tourist"
  }
}
