/**
 * The pure rules inside the store's actions (src/store/gameStore.ts):
 * energy regeneration, the journey journal, the leaderboard, the recency
 * buffer, the recipe queue, recipe hints, experience and statistics.
 */
module StoreRules {
  import opened Wrappers
  import opened Types
  import opened JsNumber
  import opened Lists
  import Serve
  import Categories
  import Orders
  import ScreenUtils

  // ---------------------------------------------------------------- energy

  /** Ten minutes in milliseconds: one energy point comes back per interval. */
  const EnergyInterval: int := 600000

  datatype Regen = Regen(energy: int, lastEnergyAt: Option<int>)

  /**
   * Same-day regeneration (gameStore.ts:241-248, 617-624): one point per
   * whole interval since `lastEnergyAt`, capped at `maxEnergy`, and the
   * timestamp moves forward by the whole intervals credited, not to `now`.
   * A missing timestamp reads as `now`, so nothing is credited.
   */
  function Regenerate(energy: int, maxEnergy: int, lastEnergyAt: Option<int>, now: int): (r: Regen)
    ensures lastEnergyAt.None? ==> r == Regen(energy, None)
    ensures lastEnergyAt.Some? && now < lastEnergyAt.value + EnergyInterval ==> r == Regen(energy, lastEnergyAt)
    ensures lastEnergyAt.Some? && now >= lastEnergyAt.value + EnergyInterval ==>
      r.lastEnergyAt.Some? &&
      lastEnergyAt.value < r.lastEnergyAt.value <= now < r.lastEnergyAt.value + EnergyInterval &&
      (r.lastEnergyAt.value - lastEnergyAt.value) % EnergyInterval == 0 &&
      r.energy == Min(maxEnergy, energy + (r.lastEnergyAt.value - lastEnergyAt.value) / EnergyInterval)
  {
    var last := if lastEnergyAt.Some? then lastEnergyAt.value else now;
    var gained := (now - last) / EnergyInterval;
    if gained > 0 then Regen(Min(maxEnergy, energy + gained), Some(last + gained * EnergyInterval))
    else Regen(energy, lastEnergyAt)
  }

  lemma DivSub(a: int, k: int)
    ensures (a - k * EnergyInterval) / EnergyInterval == a / EnergyInterval - k
  {
  }

  /**
   * Regenerating at t1 and then at t2 >= t1 is the same as regenerating at
   * t2 once: no interval is lost or counted twice.
   */
  lemma RegenComposes(energy: int, maxEnergy: int, lastEnergyAt: Option<int>, t1: int, t2: int)
    requires t1 <= t2
    ensures var r1 := Regenerate(energy, maxEnergy, lastEnergyAt, t1);
      Regenerate(r1.energy, maxEnergy, r1.lastEnergyAt, t2) == Regenerate(energy, maxEnergy, lastEnergyAt, t2)
  {
    if lastEnergyAt.Some? {
      var last := lastEnergyAt.value;
      var g1 := (t1 - last) / EnergyInterval;
      var g := (t2 - last) / EnergyInterval;
      if g1 > 0 {
        DivSub(t2 - last, g1);
        assert (t2 - (last + g1 * EnergyInterval)) / EnergyInterval == g - g1;
      }
    }
  }

  /** A second regeneration at the same instant changes nothing. */
  lemma RegenIdempotent(energy: int, maxEnergy: int, lastEnergyAt: Option<int>, now: int)
    ensures var r := Regenerate(energy, maxEnergy, lastEnergyAt, now);
      Regenerate(r.energy, maxEnergy, r.lastEnergyAt, now) == r
  {
    RegenComposes(energy, maxEnergy, lastEnergyAt, now, now);
  }

  /**
   * Energy above the cap (which `restoreEnergyOverflow` allows) is cut back
   * to the cap as soon as one interval is credited.
   */
  lemma RegenClipsOverflow(energy: int, maxEnergy: int, last: int, now: int)
    requires energy > maxEnergy
    requires now >= last + EnergyInterval
    ensures Regenerate(energy, maxEnergy, Some(last), now).energy == maxEnergy
  {
  }

  // --------------------------------------------------------------- journal

  datatype Milestone = Milestone(day: int, title: string)

  /** The five journey milestones (gameStore.ts:213-219). */
  const Milestones: seq<Milestone> := [
    Milestone(1, "Mở stall"),
    Milestone(3, "Mua radio cũ"),
    Milestone(7, "Decor bằng lồng đèn"),
    Milestone(10, "Khách VIP ghé"),
    Milestone(20, "Mở rộng bàn")
  ]

  /** Coins that unlock every milestone at once (gameStore.ts:226). */
  const JournalCoinGoal: int := 2200000

  predicate Matches(e: JournalEntry, m: Milestone) {
    e.day == m.day && e.title == m.title
  }

  /** `baseJournal.find(...)` for a milestone, as an index or -1. */
  function FindEntry(journal: seq<JournalEntry>, m: Milestone): (i: int)
    ensures -1 <= i < |journal|
    ensures i >= 0 ==> Matches(journal[i], m) && forall j :: 0 <= j < i ==> !Matches(journal[j], m)
    ensures i < 0 <==> forall j :: 0 <= j < |journal| ==> !Matches(journal[j], m)
  {
    if |journal| == 0 then -1
    else if Matches(journal[0], m) then 0
    else
      var k := FindEntry(journal[1..], m);
      if k < 0 then -1 else k + 1
  }

  /** `makeEntry` (gameStore.ts:222-237). */
  function MakeEntry(journal: seq<JournalEntry>, m: Milestone, nextDay: int, coins: int, today: string): (e: JournalEntry)
    ensures Matches(e, m)
    ensures var i := FindEntry(journal, m);
      (e.achieved <==> (i >= 0 && journal[i].achieved) || nextDay >= m.day || coins >= JournalCoinGoal) &&
      (i >= 0 ==> e.id == journal[i].id && e.date == journal[i].date) &&
      (i < 0 ==> e.id == "journal_" + IntString(m.day) && e.date == today)
  {
    var i := FindEntry(journal, m);
    var isAchieved := nextDay >= m.day || coins >= JournalCoinGoal;
    if i >= 0 then journal[i].(achieved := journal[i].achieved || isAchieved)
    else JournalEntry("journal_" + IntString(m.day), m.day, m.title, isAchieved, today)
  }

  /** The journal lists the milestones in order. */
  predicate Aligned(journal: seq<JournalEntry>) {
    |journal| == |Milestones| && forall i :: 0 <= i < |journal| ==> Matches(journal[i], Milestones[i])
  }

  /** `milestones.map(makeEntry)` (gameStore.ts:211-239). */
  function RebuildJournal(journal: seq<JournalEntry>, nextDay: int, coins: int, today: string): (r: seq<JournalEntry>)
    ensures Aligned(r)
  {
    seq(|Milestones|, i requires 0 <= i < |Milestones| => MakeEntry(journal, Milestones[i], nextDay, coins, today))
  }

  /** In an aligned journal the entry found for milestone i is entry i. */
  lemma FindInAligned(journal: seq<JournalEntry>, i: int)
    requires Aligned(journal) && 0 <= i < |Milestones|
    ensures FindEntry(journal, Milestones[i]) == i
  {
    assert Matches(journal[i], Milestones[i]);
  }

  /**
   * Rebuilding an aligned journal keeps each entry's id and date and never
   * turns an achieved milestone back into an unachieved one; a milestone is
   * achieved once the day reaches it or the coins reach the goal.
   */
  lemma AchievedNeverReverts(journal: seq<JournalEntry>, nextDay: int, coins: int, today: string)
    requires Aligned(journal)
    ensures var r := RebuildJournal(journal, nextDay, coins, today);
      forall i :: 0 <= i < |Milestones| ==>
        r[i].id == journal[i].id && r[i].date == journal[i].date &&
        (r[i].achieved <==> journal[i].achieved || nextDay >= Milestones[i].day || coins >= JournalCoinGoal)
  {
    forall i | 0 <= i < |Milestones| {
      FindInAligned(journal, i);
    }
  }

  /** A fresh journal on day 3 with few coins: the first two milestones are achieved, the rest not. */
  lemma FreshJournalOnDayThree(today: string)
    ensures var r := RebuildJournal([], 3, 0, today);
      r[0].achieved && r[1].achieved && !r[2].achieved && !r[3].achieved && !r[4].achieved &&
      r[0].id == "journal_1" && r[4].date == today
  {
    assert IntString(1) == "1" by {
      assert NatString(1) == "1";
    }
  }

  // ----------------------------------------------------------- leaderboard

  predicate SortedByScore(s: seq<LeaderboardEntry>) {
    forall i, j :: 0 <= i < j < |s| ==> s[i].score >= s[j].score
  }

  /** Inserts `e` before the first entry with a score not above its own. */
  function InsertByScore(e: LeaderboardEntry, s: seq<LeaderboardEntry>): (r: seq<LeaderboardEntry>)
    ensures multiset(r) == multiset(s) + multiset{e}
  {
    if |s| == 0 then [e]
    else if s[0].score <= e.score then [e] + s
    else
      assert s == [s[0]] + s[1..];
      [s[0]] + InsertByScore(e, s[1..])
  }

  lemma {:induction false} InsertKeepsSorted(e: LeaderboardEntry, s: seq<LeaderboardEntry>)
    requires SortedByScore(s)
    ensures SortedByScore(InsertByScore(e, s))
  {
    if |s| > 0 && s[0].score > e.score {
      var rest := InsertByScore(e, s[1..]);
      InsertKeepsSorted(e, s[1..]);
      InsertStaysBelow(e, s[1..], s[0].score);
      var r := [s[0]] + rest;
      assert r == InsertByScore(e, s);
      forall i, j | 0 <= i < j < |r| ensures r[i].score >= r[j].score {
        assert r[j] == rest[j - 1];
        if i > 0 {
          assert r[i] == rest[i - 1];
        }
      }
    }
  }

  /** Inserting an entry scored at most `b` among entries scored at most `b` keeps every score at most `b`. */
  lemma InsertStaysBelow(e: LeaderboardEntry, s: seq<LeaderboardEntry>, b: int)
    requires e.score <= b
    requires forall i :: 0 <= i < |s| ==> s[i].score <= b
    ensures forall i :: 0 <= i < |InsertByScore(e, s)| ==> InsertByScore(e, s)[i].score <= b
  {
    var r := InsertByScore(e, s);
    forall i | 0 <= i < |r| ensures r[i].score <= b {
      assert r[i] in multiset(r);
      if r[i] != e {
        assert r[i] in multiset(s);
        var k :| 0 <= k < |s| && s[k] == r[i];
      }
    }
  }

  /**
   * `list.sort((a, b) => b.score - a.score)`: a stable sort by non-increasing
   * score (an entry never moves ahead of an earlier one with the same score).
   */
  function SortByScore(s: seq<LeaderboardEntry>): (r: seq<LeaderboardEntry>)
    ensures SortedByScore(r)
    ensures multiset(r) == multiset(s)
  {
    if |s| == 0 then []
    else
      assert s == [s[0]] + s[1..];
      InsertKeepsSorted(s[0], SortByScore(s[1..]));
      InsertByScore(s[0], SortByScore(s[1..]))
  }

  /** `list.map((entry, idx) => ({ ...entry, rank: idx + 1 }))`. */
  function Ranked(s: seq<LeaderboardEntry>): (r: seq<LeaderboardEntry>)
    ensures |r| == |s|
  {
    seq(|s|, i requires 0 <= i < |s| => s[i].(rank := i + 1))
  }

  /** An entry with its rank blanked, for comparing entries across ranks. */
  function Unrank(s: seq<LeaderboardEntry>): (r: seq<LeaderboardEntry>)
    ensures |r| == |s|
  {
    seq(|s|, i requires 0 <= i < |s| => s[i].(rank := 0))
  }

  lemma UnrankAppend(a: seq<LeaderboardEntry>, b: seq<LeaderboardEntry>)
    ensures Unrank(a + b) == Unrank(a) + Unrank(b)
  {
  }

  /** Blanking ranks maps permutations to permutations. */
  lemma {:induction false} UnrankMultiset(a: seq<LeaderboardEntry>, b: seq<LeaderboardEntry>)
    requires multiset(a) == multiset(b)
    ensures multiset(Unrank(a)) == multiset(Unrank(b))
    decreases |a|
  {
    if |a| > 0 {
      assert a[0] in multiset(b);
      var k :| 0 <= k < |b| && b[k] == a[0];
      var b' := b[..k] + b[k + 1..];
      RemoveAt(b, k);
      assert a == [a[0]] + a[1..];
      assert multiset(a[1..]) == multiset(b');
      UnrankMultiset(a[1..], b');
      UnrankAppend([a[0]], a[1..]);
      assert Unrank([a[0]]) == [a[0].(rank := 0)];
      assert multiset(Unrank(a)) == multiset{a[0].(rank := 0)} + multiset(Unrank(a[1..]));
      UnrankRemoveAt(b, k);
    } else {
      assert |b| == |multiset(b)| == 0;
    }
  }

  /** Taking out the entry at `k` removes exactly that entry. */
  lemma RemoveAt(b: seq<LeaderboardEntry>, k: nat)
    requires k < |b|
    ensures multiset(b[..k] + b[k + 1..]) == multiset(b) - multiset{b[k]}
  {
    assert b == b[..k] + [b[k]] + b[k + 1..];
  }

  /** Blanking ranks commutes with taking out the entry at `k`. */
  lemma UnrankRemoveAt(b: seq<LeaderboardEntry>, k: nat)
    requires k < |b|
    ensures multiset(Unrank(b)) == multiset(Unrank(b[..k] + b[k + 1..])) + multiset{b[k].(rank := 0)}
  {
    assert b == b[..k] + [b[k]] + b[k + 1..];
    UnrankAppend(b[..k] + [b[k]], b[k + 1..]);
    UnrankAppend(b[..k], [b[k]]);
    UnrankAppend(b[..k], b[k + 1..]);
  }

  /** The board `endGame` stores (gameStore.ts:302-307). */
  function NewLeaderboard(board: seq<LeaderboardEntry>, e: LeaderboardEntry): seq<LeaderboardEntry> {
    Ranked(SortByScore(board + [e]))
  }

  /** Ranks are exactly 1..n and scores never increase down the board. */
  predicate RankedBoard(board: seq<LeaderboardEntry>) {
    SortedByScore(board) && forall i :: 0 <= i < |board| ==> board[i].rank == i + 1
  }

  /**
   * The new board holds the old entries and the new one (ranks aside), one
   * entry longer, sorted by non-increasing score, with ranks exactly 1..n.
   */
  lemma LeaderboardAfterGame(board: seq<LeaderboardEntry>, e: LeaderboardEntry)
    ensures var r := NewLeaderboard(board, e);
      |r| == |board| + 1 && RankedBoard(r) &&
      multiset(Unrank(r)) == multiset(Unrank(board)) + multiset{e.(rank := 0)}
  {
    var sorted := SortByScore(board + [e]);
    assert |sorted| == |board| + 1 by {
      assert |multiset(sorted)| == |multiset(board + [e])|;
    }
    RankingKeepsOrder(sorted);
    UnrankWithNew(sorted, board, e);
  }

  /** A permutation of `board + [e]`, ranks aside, is the old entries plus the new one. */
  lemma UnrankWithNew(sorted: seq<LeaderboardEntry>, board: seq<LeaderboardEntry>, e: LeaderboardEntry)
    requires multiset(sorted) == multiset(board + [e])
    ensures multiset(Unrank(sorted)) == multiset(Unrank(board)) + multiset{e.(rank := 0)}
  {
    UnrankMultiset(sorted, board + [e]);
    UnrankAppend(board, [e]);
    assert Unrank([e]) == [e.(rank := 0)];
  }

  /** Numbering a sorted board gives a ranked board with the same entries, ranks aside. */
  lemma RankingKeepsOrder(sorted: seq<LeaderboardEntry>)
    requires SortedByScore(sorted)
    ensures RankedBoard(Ranked(sorted))
    ensures Unrank(Ranked(sorted)) == Unrank(sorted)
  {
    var r := Ranked(sorted);
    assert forall i :: 0 <= i < |r| ==> r[i].score == sorted[i].score;
  }

  // -------------------------------------------------------- recency buffer

  /** `s` without the occurrences of `x`, in order. */
  function Without(s: seq<string>, x: string): (r: seq<string>)
    ensures forall y :: y in r <==> y in s && y != x
  {
    if |s| == 0 then []
    else
      var rest := Without(s[..|s| - 1], x);
      assert s == s[..|s| - 1] + [s[|s| - 1]];
      if s[|s| - 1] == x then rest else rest + [s[|s| - 1]]
  }

  /** `Array.from(new Set([firstId, ...recent])).slice(0, 3)` (gameStore.ts:351-353). */
  function NextRecent(firstId: string, recent: seq<string>): (r: seq<string>)
    ensures |r| <= 3 && NoDup(r)
    ensures |r| > 0 && r[0] == firstId
    ensures forall x :: x in r ==> x == firstId || x in recent
  {
    var d := Dedupe([firstId] + recent);
    var r := Take(d, 3);
    assert forall i :: 0 <= i < |r| ==> r[i] == d[i];
    assert forall x :: x in r ==> x in d;
    r
  }

  lemma {:induction false} DedupeFront(f: string, s: seq<string>)
    requires NoDup(s)
    ensures Dedupe([f] + s) == [f] + Without(s, f)
  {
    if |s| > 0 {
      var init := s[..|s| - 1];
      var last := s[|s| - 1];
      DedupeFront(f, init);
      assert ([f] + s)[..|s|] == [f] + init;
      assert last !in init;
    }
  }

  /**
   * With a duplicate-free buffer, the update moves (or puts) `firstId` to the
   * front and keeps the three most recent ids.
   */
  lemma RecentMovesToFront(firstId: string, recent: seq<string>)
    requires NoDup(recent)
    ensures NextRecent(firstId, recent) == Take([firstId] + Without(recent, firstId), 3)
  {
    DedupeFront(firstId, recent);
  }

  /** `customers.map(c => c.order.items[0]?.id).filter(Boolean)` (gameStore.ts:337-339). */
  function CurrentIds(customers: seq<Customer>): (r: seq<string>)
    ensures forall x :: x in r <==>
      x != "" && exists c :: c in customers && |c.order.items| > 0 && c.order.items[0].id == x
  {
    if |customers| == 0 then []
    else
      var rest := CurrentIds(customers[..|customers| - 1]);
      var c := customers[|customers| - 1];
      assert customers == customers[..|customers| - 1] + [c];
      if |c.order.items| > 0 && c.order.items[0].id != "" then rest + [c.order.items[0].id] else rest
  }

  /** The exclusion list of `spawnCustomerWithOrder` (gameStore.ts:340-342). */
  function ExcludeIds(recent: seq<string>, customers: seq<Customer>): (r: seq<string>)
    ensures NoDup(r)
    ensures forall x :: x in r <==> x in recent || x in CurrentIds(customers)
  {
    Dedupe(recent + CurrentIds(customers))
  }

  // ----------------------------------------------------------- recipe queue

  /** `recipeQueue.filter(id => allIds.includes(id))` (gameStore.ts:330-332). */
  function KeepKnown(queue: seq<string>, allIds: seq<string>): (r: seq<string>)
    ensures forall x :: multiset(r)[x] == if x in allIds then multiset(queue)[x] else 0
  {
    if |queue| == 0 then []
    else
      var rest := KeepKnown(queue[..|queue| - 1], allIds);
      var last := queue[|queue| - 1];
      assert queue == queue[..|queue| - 1] + [last];
      if last in allIds then rest + [last] else rest
  }

  /** `[...queue.slice(1), queue[0]]`: a left rotation by one. */
  function Rotate(q: seq<string>): (r: seq<string>)
    ensures |r| == |q|
    ensures multiset(r) == multiset(q)
    ensures |q| > 0 ==> r[|r| - 1] == q[0] && r[..|r| - 1] == q[1..]
  {
    if |q| > 0 then
      assert q == [q[0]] + q[1..];
      q[1..] + [q[0]]
    else q
  }

  /** The queue `spawnCustomerWithOrder` stores (gameStore.ts:330-336). */
  function NextQueue(queue: seq<string>, allIds: seq<string>): seq<string> {
    var existing := KeepKnown(queue, allIds);
    Rotate(if |existing| > 0 then existing else allIds)
  }

  /**
   * Starting from an empty queue or one holding each catalog id once, the
   * next queue again holds each catalog id exactly once.
   */
  lemma QueueStaysPermutation(queue: seq<string>, allIds: seq<string>)
    requires |allIds| > 0
    requires queue == [] || multiset(queue) == multiset(allIds)
    ensures multiset(NextQueue(queue, allIds)) == multiset(allIds)
  {
    var existing := KeepKnown(queue, allIds);
    if queue != [] {
      forall x ensures multiset(existing)[x] == multiset(allIds)[x] {
        if x !in allIds {
          assert multiset(allIds)[x] == 0;
        }
      }
      assert multiset(existing) == multiset(allIds);
      assert |existing| > 0 by {
        assert |multiset(existing)| == |multiset(allIds)|;
      }
    }
  }

  // ----------------------------------------------------------------- hints

  /** `pickFromCat` (gameStore.ts:665-669): index of the first id in the category, or -1. */
  function FirstInCategory(ids: seq<string>, k: Categories.CategoryKey): (i: int)
    ensures -1 <= i < |ids|
    ensures i >= 0 ==> ids[i] in Categories.CategoryIds(k) && forall j :: 0 <= j < i ==> ids[j] !in Categories.CategoryIds(k)
    ensures i < 0 <==> forall j :: 0 <= j < |ids| ==> ids[j] !in Categories.CategoryIds(k)
  {
    if |ids| == 0 then -1
    else if ids[0] in Categories.CategoryIds(k) then 0
    else
      var n := FirstInCategory(ids[1..], k);
      if n < 0 then -1 else n + 1
  }

  /** The category's pick if it exists and is truthy (a non-empty string). */
  function CategoryPick(ids: seq<string>, k: Categories.CategoryKey): (r: seq<string>)
    ensures |r| <= 1
    ensures forall x :: x in r ==> x in ids && x in Categories.CategoryIds(k)
  {
    var i := FirstInCategory(ids, k);
    if i >= 0 && ids[i] != "" then [ids[i]] else []
  }

  /** The base, liquid and topping picks, in that order (gameStore.ts:670-676). */
  function CategoryPicks(ids: seq<string>): (r: seq<string>)
    ensures |r| <= 3 && NoDup(r)
    ensures forall x :: x in r ==> x in ids
  {
    var b := CategoryPick(ids, Categories.BaseKey);
    var l := CategoryPick(ids, Categories.LiquidKey);
    var t := CategoryPick(ids, Categories.ToppingKey);
    PicksDistinct(b, l, t);
    b + l + t
  }

  /** Picks from three different categories are distinct. */
  lemma PicksDistinct(b: seq<string>, l: seq<string>, t: seq<string>)
    requires |b| <= 1 && |l| <= 1 && |t| <= 1
    requires forall x :: x in b ==> x in Categories.CategoryIds(Categories.BaseKey)
    requires forall x :: x in l ==> x in Categories.CategoryIds(Categories.LiquidKey)
    requires forall x :: x in t ==> x in Categories.CategoryIds(Categories.ToppingKey)
    ensures NoDup(b + l + t)
  {
    forall x | x in b ensures x !in l && x !in t {
      Categories.CategoriesDisjoint(Categories.BaseKey, Categories.LiquidKey, x);
      Categories.CategoriesDisjoint(Categories.BaseKey, Categories.ToppingKey, x);
    }
    forall x | x in l ensures x !in t {
      Categories.CategoriesDisjoint(Categories.LiquidKey, Categories.ToppingKey, x);
    }
    var s := b + l + t;
    forall i, j | 0 <= i < j < |s| ensures s[i] != s[j] {
      if i < |b| {
        assert s[i] == b[i] && b[i] in b;
        if j < |b| + |l| {
          assert s[j] == l[j - |b|] && l[j - |b|] in l;
        } else {
          assert s[j] == t[j - |b| - |l|] && t[j - |b| - |l|] in t;
        }
      } else if i < |b| + |l| {
        assert s[i] == l[i - |b|] && l[i - |b|] in l;
        assert s[j] == t[j - |b| - |l|] && t[j - |b| - |l|] in t;
      }
    }
  }

  /**
   * The ids `getRecipeHint` returns (gameStore.ts:664-683): the category
   * picks first, then the recipe's further ids in order, skipping repeats,
   * cut to three.
   */
  function HintIds(ids: seq<string>): seq<string> {
    Take(Dedupe(CategoryPicks(ids) + ids), 3)
  }

  /**
   * The hint list is duplicate-free, drawn from the recipe's ids, begins
   * with the category picks and holds min(3, number of distinct ids) ids.
   */
  lemma HintIdsFacts(ids: seq<string>)
    ensures var h := HintIds(ids);
      NoDup(h) && (forall x :: x in h ==> x in ids) &&
      |h| == Min(3, |Elems(ids)|) &&
      |CategoryPicks(ids)| <= |h| && h[..|CategoryPicks(ids)|] == CategoryPicks(ids)
  {
    TakeDedupeFacts(CategoryPicks(ids), ids, 3);
  }

  /** `getRecipeHint`'s picks (gameStore.ts:670-683): the category picks, then the filling loop. */
  method HintPicks(ids: seq<string>) returns (picks: seq<string>)
    ensures picks == HintIds(ids)
  {
    var first := CategoryPicks(ids);
    picks := FillPicks(first, ids);
  }

  /**
   * The loop of gameStore.ts:677-683: while fewer than three are picked,
   * append each id of the recipe not picked yet; then keep the first three.
   */
  method FillPicks(first: seq<string>, ids: seq<string>) returns (picks: seq<string>)
    requires NoDup(first) && |first| <= 3
    ensures picks == Take(Dedupe(first + ids), 3)
  {
    DedupeNoDup(first);
    picks := first;
    var i := 0;
    if |picks| < 3 {
      assert first + ids[..0] == first;
      while i < |ids|
        invariant 0 <= i <= |ids|
        invariant picks == Take(Dedupe(first + ids[..i]), 3)
      {
        if |picks| >= 3 {
          break;
        }
        TakeDedupeNext(first, ids, 3, i, picks);
        if ids[i] !in picks {
          picks := picks + [ids[i]];
        }
        i := i + 1;
      }
    }
    TakeDedupeDone(first, ids, 3, i, picks);
    picks := Take(picks, 3);
  }

  // ------------------------------------------------------------ experience

  const LevelUpThreshold: int := 10

  datatype Progress = Progress(level: int, exp: int)

  /** The correct-serve update (gameStore.ts:377-385): subtract the threshold at most once. */
  function ServeExp(p: Progress, gain: int): (r: Progress)
    ensures r.level * LevelUpThreshold + r.exp == p.level * LevelUpThreshold + p.exp + gain
    ensures r.level == p.level || r.level == p.level + 1
    ensures 0 <= p.exp < LevelUpThreshold && 0 <= gain <= LevelUpThreshold ==> 0 <= r.exp < LevelUpThreshold
  {
    var next := p.exp + gain;
    if next >= LevelUpThreshold then Progress(p.level + 1, next - LevelUpThreshold)
    else Progress(p.level, next)
  }

  /** `addExp` (gameStore.ts:578-584): floor division and the JavaScript `%`. */
  function AddExp(p: Progress, amount: int): (r: Progress)
    ensures p.exp + Max(0, amount) >= 0 ==>
      r.level * LevelUpThreshold + r.exp == p.level * LevelUpThreshold + p.exp + Max(0, amount) &&
      0 <= r.exp < LevelUpThreshold
  {
    var next := p.exp + Max(0, amount);
    Progress(p.level + next / LevelUpThreshold, JsRem(next, LevelUpThreshold))
  }

  /**
   * The two rules agree while a single level-up suffices; past that the
   * serve rule leaves exp at or above the threshold: 9 exp plus 12 gives
   * level+1 with 11 exp, where `addExp` gives level+2 with 1 exp.
   */
  lemma ExpRulesAgreeOnSmallGains(p: Progress, gain: int)
    requires 0 <= p.exp && 0 <= gain && p.exp + gain < 2 * LevelUpThreshold
    ensures ServeExp(p, gain) == AddExp(p, gain)
  {
  }

  lemma ServeExpWrapsOnce()
    ensures ServeExp(Progress(1, 9), 12) == Progress(2, 11)
    ensures AddExp(Progress(1, 9), 12) == Progress(3, 1)
  {
  }

  // ----------------------------------------------------------------- stats

  /** A counts-table read with `|| 0`. */
  function Get(m: map<string, int>, k: string): int {
    if k in m then m[k] else 0
  }

  /** How many items carry the id. */
  function Occurrences(items: seq<OrderItem>, id: string): nat {
    if |items| == 0 then 0
    else Occurrences(items[..|items| - 1], id) + (if items[|items| - 1].id == id then 1 else 0)
  }

  /** The count is at most the number of items, and 0 exactly when no item carries the id. */
  lemma {:induction false} OccurrencesSpec(items: seq<OrderItem>, id: string)
    ensures Occurrences(items, id) <= |items|
    ensures Occurrences(items, id) == 0 <==> forall i :: 0 <= i < |items| ==> items[i].id != id
  {
    if |items| > 0 {
      var init := items[..|items| - 1];
      OccurrencesSpec(init, id);
      assert forall i :: 0 <= i < |init| ==> init[i] == items[i];
    }
  }

  /** The `forEach` that bumps `itemSoldCounts` once per item (gameStore.ts:390-393). */
  function CountSold(counts: map<string, int>, items: seq<OrderItem>): map<string, int> {
    if |items| == 0 then counts
    else
      var c := CountSold(counts, items[..|items| - 1]);
      var id := items[|items| - 1].id;
      c[id := Get(c, id) + 1]
  }

  /**
   * Every id's count grows by the number of items that carry it, and the
   * table gains exactly the ids sold; no other count changes.
   */
  lemma {:induction false} CountSoldSpec(counts: map<string, int>, items: seq<OrderItem>, k: string)
    ensures Get(CountSold(counts, items), k) == Get(counts, k) + Occurrences(items, k)
    ensures k in CountSold(counts, items) <==> k in counts || Occurrences(items, k) > 0
  {
    if |items| > 0 {
      CountSoldSpec(counts, items[..|items| - 1], k);
    }
  }

  /** `reduce((sum, item) => sum + calculateServeScore(item, t, combo), 0)` (gameStore.ts:366-370). */
  function SumScores(items: seq<OrderItem>, timeRemaining: int, combo: int): (s: int)
    ensures s >= 100 * |items|
  {
    if |items| == 0 then 0
    else
      SumScores(items[..|items| - 1], timeRemaining, combo) +
      Serve.CalculateServeScore(items[|items| - 1], timeRemaining, combo)
  }

  /** A higher combo never lowers a correct serve's points. */
  lemma {:induction false} SumScoresMonotoneInCombo(items: seq<OrderItem>, t: int, c1: int, c2: int)
    requires c1 <= c2
    ensures SumScores(items, t, c1) <= SumScores(items, t, c2)
  {
    if |items| > 0 {
      SumScoresMonotoneInCombo(items[..|items| - 1], t, c1, c2);
      Serve.ScoreMonotoneInCombo(items[|items| - 1], t, c1, c2);
    }
  }

  // ------------------------------------------------------------ round time

  /** `resetRoundTimer` (gameStore.ts:626-636): five seconds less per level, never below 20. */
  function RoundTime(d: Difficulty, level: int): (t: int)
    ensures t >= 20
    ensures level >= 0 ==> t <= ScreenUtils.GetTotalTime(ScreenUtils.DifficultyName(d))
  {
    Max(20, ScreenUtils.GetTotalTime(ScreenUtils.DifficultyName(d)) - level * 5)
  }

  /** Higher levels never get more time. */
  lemma RoundTimeMonotone(d: Difficulty, l1: int, l2: int)
    requires l1 <= l2
    ensures RoundTime(d, l2) <= RoundTime(d, l1)
  {
  }

  /** `Math.max(0, Math.round((now - gameStartTime) / 1000))` (gameStore.ts:290-293). */
  function DurationSec(now: int, start: int): (d: int)
    ensures d >= 0
    ensures now >= start ==> d == (now - start + 500) / 1000
  {
    Max(0, Round((now - start) as real / 1000.0))
  }
}
