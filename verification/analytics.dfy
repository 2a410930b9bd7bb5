/** The parent dashboard's summary of one child's progress (`analyzeProgress`
    in lib/analytics.ts). The progress map arrives as the sequence of its
    values; dates are day numbers, `nowMs` is the clock reading, and the ease
    factor is in hundredths. Rounding is done exactly on rationals. */
module Analytics {
  import opened Types

  const MsPerDay: int := 24 * 60 * 60 * 1000

  datatype Remediation = AbacusPractice | ColorMatching | MemoryGrid | FlashCards

  datatype WeakItem = WeakItem(itemId: string, ease: int, streak: int, remediation: Remediation)

  /** A calendar day's running tally. */
  datatype DayTally = DayTally(count: int, qualitySum: int)

  /** A calendar day as reported: reviews, their quality sum and its average. */
  datatype DayStats = DayStats(count: int, qualitySum: int, avgQuality: real)

  datatype Summary = Summary(
    retention7Day: int,
    retention14Day: int,
    efficiencyScore: int,
    itemsMastered: int,
    totalItems: int,
    weakItems: seq<WeakItem>,
    calendarData: map<int, DayStats>)

  // ---------------------------------------------------------------------
  // Per item

  /** The records of one child, in the order given: every record of the child
      is kept, as often as it occurs, and no other record. */
  function OfChild(values: seq<ItemProgress>, childId: string): (r: seq<ItemProgress>)
    ensures |r| <= |values|
    ensures forall i :: 0 <= i < |r| ==> r[i].childId == childId && r[i] in values
    ensures forall v :: v in values && v.childId == childId ==> v in r
    ensures forall v :: multiset(r)[v] == if v.childId == childId then multiset(values)[v] else 0
  {
    if |values| == 0 then []
    else
      var init := values[..|values| - 1];
      var last := values[|values| - 1];
      assert values == init + [last];
      assert multiset(values) == multiset(init) + multiset{last};
      OfChild(init, childId) + if last.childId == childId then [last] else []
  }

  predicate IsMastered(p: ItemProgress)
  {
    p.masteryLevel == Rapid || p.masteryLevel == Fluent
  }

  /** Struggling: ease below 2.0, or more than three reps with a streak under two. */
  predicate IsWeak(p: ItemProgress)
  {
    p.ease < 200 || (p.streak < 2 && p.reps > 3)
  }

  predicate HasDigit(s: string)
  {
    exists i :: 0 <= i < |s| && '0' <= s[i] <= '9'
  }

  /** The suggested practice for a weak item, judged from its id: a digit means
      numbers, a leading '#' a colour, a long id a word. */
  function RemediationFor(itemId: string): Remediation
  {
    if HasDigit(itemId) then AbacusPractice
    else if |itemId| > 0 && itemId[0] == '#' then ColorMatching
    else if |itemId| > 3 then MemoryGrid
    else FlashCards
  }

  function WeakEntry(p: ItemProgress): WeakItem
  {
    WeakItem(p.itemId, p.ease, p.streak, RemediationFor(p.itemId))
  }

  function MasteredCount(items: seq<ItemProgress>): nat
  {
    if |items| == 0 then 0
    else MasteredCount(items[..|items| - 1]) + if IsMastered(items[|items| - 1]) then 1 else 0
  }

  function EaseTotal(items: seq<ItemProgress>): int
  {
    if |items| == 0 then 0 else EaseTotal(items[..|items| - 1]) + items[|items| - 1].ease
  }

  /** The weak items, in the order met. */
  function WeakList(items: seq<ItemProgress>): (r: seq<WeakItem>)
  {
    if |items| == 0 then []
    else
      var last := items[|items| - 1];
      WeakList(items[..|items| - 1]) + if IsWeak(last) then [WeakEntry(last)] else []
  }

  /** Every review of every item, item by item. */
  function Reviews(items: seq<ItemProgress>): seq<Review>
  {
    if |items| == 0 then [] else Reviews(items[..|items| - 1]) + items[|items| - 1].history
  }

  // ---------------------------------------------------------------------
  // Per review

  /** Whole days from a review's date (midnight) to the clock, rounded down. */
  function DiffDays(nowMs: int, date: int): int
  {
    (nowMs - date * MsPerDay) / MsPerDay
  }

  predicate InWindow(nowMs: int, r: Review, days: int)
  {
    DiffDays(nowMs, r.date) <= days
  }

  /** Reviews at most `days` days old, and those of them with quality 3 or more. */
  function Reviewed(rs: seq<Review>, nowMs: int, days: int): nat
  {
    if |rs| == 0 then 0
    else Reviewed(rs[..|rs| - 1], nowMs, days) + if InWindow(nowMs, rs[|rs| - 1], days) then 1 else 0
  }

  function Succeeded(rs: seq<Review>, nowMs: int, days: int): nat
  {
    if |rs| == 0 then 0
    else
      var r := rs[|rs| - 1];
      Succeeded(rs[..|rs| - 1], nowMs, days) + if InWindow(nowMs, r, days) && r.quality >= 3 then 1 else 0
  }

  /** Reviews and quality sums per day. */
  function Tally(rs: seq<Review>): map<int, DayTally>
  {
    if |rs| == 0 then map[]
    else
      var t := Tally(rs[..|rs| - 1]);
      var r := rs[|rs| - 1];
      var old_ := if r.date in t then t[r.date] else DayTally(0, 0);
      t[r.date := DayTally(old_.count + 1, old_.qualitySum + r.quality)]
  }

  /** The reviews of day d, and the sum of their qualities. */
  function CountOn(rs: seq<Review>, d: int): nat
  {
    if |rs| == 0 then 0 else CountOn(rs[..|rs| - 1], d) + if rs[|rs| - 1].date == d then 1 else 0
  }

  function QualityOn(rs: seq<Review>, d: int): int
  {
    if |rs| == 0 then 0
    else QualityOn(rs[..|rs| - 1], d) + if rs[|rs| - 1].date == d then rs[|rs| - 1].quality else 0
  }

  /** The reported calendar: every tallied day with its average quality. */
  function Calendar(t: map<int, DayTally>): map<int, DayStats>
  {
    map d | d in t :: DayStats(t[d].count, t[d].qualitySum,
                               if t[d].count == 0 then 0.0 else t[d].qualitySum as real / t[d].count as real)
  }

  // ---------------------------------------------------------------------
  // Scores

  /** `Math.round(num / den)`: the nearest integer, halves rounded up. */
  function RoundHalfUp(num: int, den: int): int
    requires den > 0
  {
    (2 * num + den) / (2 * den)
  }

  /** `Math.round(successes / total * 100)`, or 100 with no reviews. */
  function Retention(successes: int, total: int): int
  {
    if total > 0 then RoundHalfUp(100 * successes, total) else 100
  }

  /** The efficiency score from the ease sum (hundredths) of `count` items:
      the average ease mapped linearly from 1.3 -> 0 to 3.0 -> 100, clamped to
      [0, 100] and rounded; with no items the average is 2.5. */
  function Efficiency(easeSum: int, count: nat): int
  {
    var h := if count > 0 then easeSum else 250;
    var n := if count > 0 then count else 1;
    var num := 10 * (h - 130 * n);   // (average - 1.3) / 1.7 * 100 == num / den
    var den := 17 * n;
    if num < 0 then 0
    else if num > 100 * den then 100
    else RoundHalfUp(num, den)
  }

  // ---------------------------------------------------------------------
  // Ranking weak items

  predicate SortedByEase(s: seq<WeakItem>)
  {
    forall i, j :: 0 <= i < j < |s| ==> s[i].ease <= s[j].ease
  }

  /** Places x after every element whose ease is at most its own. */
  function InsertByEase(x: WeakItem, s: seq<WeakItem>): (r: seq<WeakItem>)
    ensures multiset(r) == multiset(s) + multiset{x}
  {
    if |s| == 0 then [x]
    else if s[|s| - 1].ease <= x.ease then s + [x]
    else
      assert s == s[..|s| - 1] + [s[|s| - 1]];
      InsertByEase(x, s[..|s| - 1]) + [s[|s| - 1]]
  }

  predicate EaseAtMost(s: seq<WeakItem>, v: int)
  {
    forall i :: 0 <= i < |s| ==> s[i].ease <= v
  }

  /** Inserting an item no easier than v into items no easier than v leaves
      every item no easier than v. */
  lemma {:induction false} InsertBounded(x: WeakItem, s: seq<WeakItem>, v: int)
    requires x.ease <= v && EaseAtMost(s, v)
    ensures EaseAtMost(InsertByEase(x, s), v)
  {
    if |s| > 0 && s[|s| - 1].ease > x.ease {
      InsertBounded(x, s[..|s| - 1], v);
      assert InsertByEase(x, s) == InsertByEase(x, s[..|s| - 1]) + [s[|s| - 1]];
    }
  }

  lemma {:induction false} InsertKeepsSorted(x: WeakItem, s: seq<WeakItem>)
    requires SortedByEase(s)
    ensures SortedByEase(InsertByEase(x, s))
  {
    if |s| > 0 && s[|s| - 1].ease > x.ease {
      var init := s[..|s| - 1];
      var last := s[|s| - 1];
      InsertKeepsSorted(x, init);
      InsertBounded(x, init, last.ease);
      var r' := InsertByEase(x, init);
      var r := r' + [last];
      assert InsertByEase(x, s) == r;
      forall i, j | 0 <= i < j < |r|
        ensures r[i].ease <= r[j].ease
      {
        assert r[i] == r'[i];
        if j < |r'| {
          assert r[j] == r'[j];
        } else {
          assert r[j] == last;
        }
      }
    }
  }

  /** `sort((a, b) => a.ease - b.ease)`: ascending ease, a permutation of the input. */
  function SortByEase(s: seq<WeakItem>): (r: seq<WeakItem>)
    ensures multiset(r) == multiset(s) && SortedByEase(r)
  {
    if |s| == 0 then []
    else
      assert s == s[..|s| - 1] + [s[|s| - 1]];
      InsertKeepsSorted(s[|s| - 1], SortByEase(s[..|s| - 1]));
      InsertByEase(s[|s| - 1], SortByEase(s[..|s| - 1]))
  }

  function Take(s: seq<WeakItem>, n: nat): seq<WeakItem>
  {
    if |s| <= n then s else s[..n]
  }

  /** The five weakest, in ascending ease. */
  function Weakest(ws: seq<WeakItem>): seq<WeakItem>
  {
    Take(SortByEase(ws), 5)
  }

  // ---------------------------------------------------------------------
  // The summary

  /** `analyzeProgress`: one pass over the child's records and, inside it, over
      each record's history. */
  method AnalyzeProgress(values: seq<ItemProgress>, childId: string, nowMs: int) returns (s: Summary)
    ensures var items := OfChild(values, childId);
      var rs := Reviews(items);
      && s.totalItems == |items|
      && s.itemsMastered == MasteredCount(items)
      && s.retention7Day == Retention(Succeeded(rs, nowMs, 7), Reviewed(rs, nowMs, 7))
      && s.retention14Day == Retention(Succeeded(rs, nowMs, 14), Reviewed(rs, nowMs, 14))
      && s.efficiencyScore == Efficiency(EaseTotal(items), |items|)
      && s.weakItems == Weakest(WeakList(items))
      && s.calendarData == Calendar(Tally(rs))
  {
    var items := OfChild(values, childId);
    var totalReviews7: nat, success7: nat, totalReviews14: nat, success14: nat := 0, 0, 0, 0;
    var masteredCount, totalEase := 0, 0;
    var weakItems: seq<WeakItem> := [];
    var tally: map<int, DayTally> := map[];

    var i := 0;
    while i < |items|
      invariant 0 <= i <= |items|
      invariant masteredCount == MasteredCount(items[..i])
      invariant totalEase == EaseTotal(items[..i])
      invariant weakItems == WeakList(items[..i])
      invariant totalReviews7 == Reviewed(Reviews(items[..i]), nowMs, 7)
      invariant success7 == Succeeded(Reviews(items[..i]), nowMs, 7)
      invariant totalReviews14 == Reviewed(Reviews(items[..i]), nowMs, 14)
      invariant success14 == Succeeded(Reviews(items[..i]), nowMs, 14)
      invariant tally == Tally(Reviews(items[..i]))
    {
      var item := items[i];
      assert items[..i + 1][..i] == items[..i];
      if item.masteryLevel == Rapid || item.masteryLevel == Fluent {
        masteredCount := masteredCount + 1;
      }
      totalEase := totalEase + item.ease;
      if item.ease < 200 || (item.streak < 2 && item.reps > 3) {
        weakItems := weakItems + [WeakItem(item.itemId, item.ease, item.streak, RemediationFor(item.itemId))];
      }

      ghost var before := Reviews(items[..i]);
      totalReviews7, success7, totalReviews14, success14, tally :=
        ScanHistory(item.history, nowMs, before, totalReviews7, success7, totalReviews14, success14, tally);
      i := i + 1;
    }
    assert items[..i] == items;

    var calendarData := Calendar(tally);
    var retention7 := if totalReviews7 > 0 then RoundHalfUp(100 * success7, totalReviews7) else 100;
    var retention14 := if totalReviews14 > 0 then RoundHalfUp(100 * success14, totalReviews14) else 100;
    s := Summary(retention7, retention14, Efficiency(totalEase, |items|), masteredCount, |items|,
                 Take(SortByEase(weakItems), 5), calendarData);
  }

  /** One more review: each count grows by one when the review falls in its
      window (and succeeded), and its day's tally by one review of its quality. */
  lemma ScanStep(rs: seq<Review>, r: Review, nowMs: int)
    ensures Reviewed(rs + [r], nowMs, 7) == Reviewed(rs, nowMs, 7) + if InWindow(nowMs, r, 7) then 1 else 0
    ensures Reviewed(rs + [r], nowMs, 14) == Reviewed(rs, nowMs, 14) + if InWindow(nowMs, r, 14) then 1 else 0
    ensures Succeeded(rs + [r], nowMs, 7) ==
      Succeeded(rs, nowMs, 7) + if InWindow(nowMs, r, 7) && r.quality >= 3 then 1 else 0
    ensures Succeeded(rs + [r], nowMs, 14) ==
      Succeeded(rs, nowMs, 14) + if InWindow(nowMs, r, 14) && r.quality >= 3 then 1 else 0
    ensures var t := Tally(rs);
      var old_ := if r.date in t then t[r.date] else DayTally(0, 0);
      Tally(rs + [r]) == t[r.date := DayTally(old_.count + 1, old_.qualitySum + r.quality)]
  {
    assert (rs + [r])[..|rs|] == rs;
  }

  /** The inner loop of `analyzeProgress`: counts each review of `h` in the 7-
      and 14-day windows and adds it to its day, continuing the tallies of the
      reviews `before`. */
  method ScanHistory(h: seq<Review>, nowMs: int, ghost before: seq<Review>,
                     totalReviews7_: nat, success7_: nat, totalReviews14_: nat, success14_: nat,
                     tally_: map<int, DayTally>)
    returns (totalReviews7: nat, success7: nat, totalReviews14: nat, success14: nat, tally: map<int, DayTally>)
    requires totalReviews7_ == Reviewed(before, nowMs, 7) && success7_ == Succeeded(before, nowMs, 7)
    requires totalReviews14_ == Reviewed(before, nowMs, 14) && success14_ == Succeeded(before, nowMs, 14)
    requires tally_ == Tally(before)
    ensures totalReviews7 == Reviewed(before + h, nowMs, 7) && success7 == Succeeded(before + h, nowMs, 7)
    ensures totalReviews14 == Reviewed(before + h, nowMs, 14) && success14 == Succeeded(before + h, nowMs, 14)
    ensures tally == Tally(before + h)
  {
    totalReviews7, success7, totalReviews14, success14, tally :=
      totalReviews7_, success7_, totalReviews14_, success14_, tally_;
    var j := 0;
    ghost var seen := before;
    while j < |h|
      invariant 0 <= j <= |h|
      invariant seen == before + h[..j]
      invariant totalReviews7 == Reviewed(seen, nowMs, 7)
      invariant success7 == Succeeded(seen, nowMs, 7)
      invariant totalReviews14 == Reviewed(seen, nowMs, 14)
      invariant success14 == Succeeded(seen, nowMs, 14)
      invariant tally == Tally(seen)
    {
      var log := h[j];
      assert before + h[..j + 1] == seen + [log];
      ScanStep(seen, log, nowMs);
      seen := seen + [log];
      var diffDays := (nowMs - log.date * MsPerDay) / MsPerDay;
      var isSuccess := log.quality >= 3;
      if diffDays <= 7 {
        totalReviews7 := totalReviews7 + 1;
        if isSuccess { success7 := success7 + 1; }
      }
      if diffDays <= 14 {
        totalReviews14 := totalReviews14 + 1;
        if isSuccess { success14 := success14 + 1; }
      }
      if log.date !in tally {
        tally := tally[log.date := DayTally(0, 0)];
      }
      tally := tally[log.date := DayTally(tally[log.date].count + 1, tally[log.date].qualitySum + log.quality)];
      j := j + 1;
    }
    assert h[..j] == h;
  }

  // ---------------------------------------------------------------------
  // What the summary promises

  /** Euclidean division by a positive divisor brackets the dividend. */
  lemma DivBounds(n: int, d: int)
    requires d > 0
    ensures d * (n / d) <= n < d * (n / d) + d
  {
  }

  lemma MulMonotone(d: int, a: int, b: int)
    requires d >= 0 && a <= b
    ensures d * a <= d * b
  {
    assert d * b - d * a == d * (b - a);
  }

  lemma DivMonotone(x: int, y: int, d: int)
    requires x <= y && d > 0
    ensures x / d <= y / d
  {
    DivBounds(x, d);
    DivBounds(y, d);
    if x / d > y / d {
      MulMonotone(d, y / d + 1, x / d);
    }
  }

  /** The quotient of q * d + e by d, for 0 <= e < d, is q. */
  lemma DivExact(q: int, d: int, e: int)
    requires d > 0 && 0 <= e < d
    ensures (q * d + e) / d == q
  {
    var n := q * d + e;
    DivBounds(n, d);
    if n / d > q {
      MulMonotone(d, q + 1, n / d);
    } else if n / d < q {
      MulMonotone(d, n / d + 1, q);
    }
  }

  /** Rounding a ratio between 0 and 100 stays between 0 and 100, lands within
      one half of the ratio, and never decreases as the numerator grows. */
  lemma RoundHalfUpRange(num: int, den: int)
    requires den > 0 && 0 <= num <= 100 * den
    ensures 0 <= RoundHalfUp(num, den) <= 100
    ensures 2 * den * RoundHalfUp(num, den) - den <= 2 * num < 2 * den * RoundHalfUp(num, den) + den
  {
    DivBounds(2 * num + den, 2 * den);
    DivMonotone(0, 2 * num + den, 2 * den);
    DivMonotone(2 * num + den, 100 * (2 * den) + den, 2 * den);
    DivExact(100, 2 * den, den);
  }

  /** A retention is the success percentage rounded to the nearest integer
      (halves up), so it lies between 0 and 100. */
  lemma RetentionIsRoundedPercentage(successes: int, total: int)
    requires 0 <= successes <= total
    ensures 0 <= Retention(successes, total) <= 100
    ensures total > 0 ==> var r := Retention(successes, total);
      2 * total * r - total <= 200 * successes < 2 * total * r + total
    ensures total == 0 ==> Retention(successes, total) == 100
  {
    if total > 0 {
      MulMonotone(100, successes, total);
      RoundHalfUpRange(100 * successes, total);
    }
  }

  /** A success is a review, and a review within 7 days is within 14 days. */
  lemma {:induction false} WindowCounts(rs: seq<Review>, nowMs: int, d1: int, d2: int)
    requires d1 <= d2
    ensures Succeeded(rs, nowMs, d1) <= Reviewed(rs, nowMs, d1)
    ensures Reviewed(rs, nowMs, d1) <= Reviewed(rs, nowMs, d2)
    ensures Succeeded(rs, nowMs, d1) <= Succeeded(rs, nowMs, d2)
    ensures Reviewed(rs, nowMs, d2) <= |rs|
  {
    if |rs| > 0 {
      WindowCounts(rs[..|rs| - 1], nowMs, d1, d2);
    }
  }

  lemma {:induction false} MasteredAtMostTotal(items: seq<ItemProgress>)
    ensures MasteredCount(items) <= |items|
  {
    if |items| > 0 {
      MasteredAtMostTotal(items[..|items| - 1]);
    }
  }

  /** The efficiency score lies in [0, 100]: 0 when the average ease is at most
      1.3, 100 when it is at least 3.0, and 71 with no items. */
  lemma EfficiencyRange(easeSum: int, count: nat)
    ensures 0 <= Efficiency(easeSum, count) <= 100
    ensures count > 0 && easeSum <= 130 * count ==> Efficiency(easeSum, count) == 0
    ensures count > 0 && easeSum >= 300 * count ==> Efficiency(easeSum, count) == 100
    ensures Efficiency(easeSum, 0) == 71
  {
    DivExact(71, 34, 33);
    assert RoundHalfUp(1200, 17) == 71;
    if count > 0 {
      var num := 10 * (easeSum - 130 * count);
      var den := 17 * count;
      if 0 <= num <= 100 * den {
        RoundHalfUpRange(num, den);
      }
      if num == 0 {
        DivExact(0, 2 * den, den);
      }
      if num == 100 * den {
        DivExact(100, 2 * den, den);
      }
    }
  }

  /** A higher ease total over the same items never lowers the score. */
  lemma EfficiencyMonotone(a: int, b: int, count: nat)
    requires count > 0 && a <= b
    ensures Efficiency(a, count) <= Efficiency(b, count)
  {
    var den := 17 * count;
    var na, nb := 10 * (a - 130 * count), 10 * (b - 130 * count);
    EfficiencyRange(b, count);
    if 0 <= na <= 100 * den {
      RoundHalfUpRange(na, den);
      if nb <= 100 * den {
        DivMonotone(2 * na + den, 2 * nb + den, 2 * den);
      }
    }
  }

  /** The first n of an ascending list are no greater than any element left
      behind. */
  lemma TakeOfSorted(sorted: seq<WeakItem>, n: nat)
    requires SortedByEase(sorted)
    ensures multiset(Take(sorted, n)) <= multiset(sorted)
    ensures forall w :: w in multiset(sorted) - multiset(Take(sorted, n)) ==>
      forall t :: t in Take(sorted, n) ==> t.ease <= w.ease
  {
    if |sorted| > n {
      var top, rest := sorted[..n], sorted[n..];
      assert sorted == top + rest;
      assert multiset(sorted) == multiset(top) + multiset(rest);
      forall w | w in multiset(sorted) - multiset(top)
        ensures forall t :: t in top ==> t.ease <= w.ease
      {
        assert w in multiset(rest);
        var k :| 0 <= k < |rest| && rest[k] == w;
        assert sorted[n + k] == w;
      }
    }
  }

  /** The report shows the five lowest eases among the weak items (all of them
      when fewer), in ascending order, and any weak item left out has an ease no
      lower than every one shown. */
  lemma WeakestAreLowest(ws: seq<WeakItem>)
    ensures var top := Weakest(ws);
      && |top| == (if |ws| < 5 then |ws| else 5)
      && SortedByEase(top)
      && multiset(top) <= multiset(ws)
      && (forall w :: w in multiset(ws) - multiset(top) ==> forall t :: t in top ==> t.ease <= w.ease)
  {
    var sorted := SortByEase(ws);
    TakeOfSorted(sorted, 5);
    assert |sorted| == |ws| by {
      assert |multiset(sorted)| == |multiset(ws)|;
    }
  }

  /** Each listed weak item comes from a struggling record of the child and
      carries the remediation its id calls for. */
  lemma {:induction false} WeakListEntries(items: seq<ItemProgress>, w: WeakItem)
    requires w in WeakList(items)
    ensures exists p :: p in items && IsWeak(p) && w == WeakEntry(p)
  {
    var init := items[..|items| - 1];
    var last := items[|items| - 1];
    if w in WeakList(init) {
      WeakListEntries(init, w);
      var p :| p in init && IsWeak(p) && w == WeakEntry(p);
      assert p in items;
    } else {
      assert last in items;
    }
  }

  /** Every struggling record of the child is listed. */
  lemma {:induction false} WeakListComplete(items: seq<ItemProgress>, p: ItemProgress)
    requires p in items && IsWeak(p)
    ensures WeakEntry(p) in WeakList(items)
  {
    var init := items[..|items| - 1];
    assert items == init + [items[|items| - 1]];
    if p != items[|items| - 1] {
      assert p in init;
      WeakListComplete(init, p);
    }
  }

  /** The remediation: numbers whenever the id holds a digit, otherwise colours
      for a leading '#', otherwise memory grids for ids longer than three
      characters, and flash cards for the rest. */
  lemma RemediationChoice(itemId: string)
    ensures RemediationFor(itemId) == AbacusPractice <==> HasDigit(itemId)
    ensures RemediationFor(itemId) == ColorMatching <==> !HasDigit(itemId) && |itemId| > 0 && itemId[0] == '#'
    ensures RemediationFor(itemId) == FlashCards ==> |itemId| <= 3
  {
  }

  /** The calendar lists exactly the days with reviews, each with its number of
      reviews and their quality sum. */
  lemma {:induction false} TallyCounts(rs: seq<Review>, d: int)
    ensures d in Tally(rs) <==> CountOn(rs, d) > 0
    ensures CountOn(rs, d) == 0 ==> QualityOn(rs, d) == 0
    ensures d in Tally(rs) ==> Tally(rs)[d] == DayTally(CountOn(rs, d), QualityOn(rs, d))
  {
    if |rs| > 0 {
      TallyCounts(rs[..|rs| - 1], d);
    }
  }

  /** Some day of a non-empty tally. */
  ghost function PickDay(t: map<int, DayTally>): (d: int)
    requires |t.Keys| > 0
    ensures d in t
  {
    assert exists d :: d in t.Keys by {
      if forall d :: d !in t.Keys {
        assert false;
      }
    }
    var d :| d in t.Keys; d
  }

  /** The reviews counted over all the days of a tally. */
  ghost function CountTotal(t: map<int, DayTally>): int
    decreases |t.Keys|
  {
    if |t.Keys| == 0 then 0
    else
      var d := PickDay(t);
      assert (t - {d}).Keys == t.Keys - {d};
      t[d].count + CountTotal(t - {d})
  }

  /** The total may be summed starting from any day. */
  lemma {:induction false} CountTotalRemove(t: map<int, DayTally>, d: int)
    requires d in t
    ensures CountTotal(t) == t[d].count + CountTotal(t - {d})
    decreases |t.Keys|
  {
    var e := PickDay(t);
    assert (t - {e}).Keys == t.Keys - {e};
    if e != d {
      assert (t - {d}).Keys == t.Keys - {d};
      CountTotalRemove(t - {e}, d);
      CountTotalRemove(t - {d}, e);
      assert t - {e} - {d} == t - {d} - {e};
    }
  }

  /** The calendar's day counts add up to the number of reviews: each review is
      counted on exactly one day. */
  lemma {:induction false} TallyTotal(rs: seq<Review>)
    ensures CountTotal(Tally(rs)) == |rs|
  {
    if |rs| > 0 {
      var init := rs[..|rs| - 1];
      var r := rs[|rs| - 1];
      var t := Tally(init);
      TallyTotal(init);
      var u := Tally(rs);
      assert r.date in u;
      CountTotalRemove(u, r.date);
      assert u - {r.date} == t - {r.date};
      if r.date in t {
        CountTotalRemove(t, r.date);
      } else {
        assert t - {r.date} == t;
      }
    }
  }

  /** The calendar's average for a day is its quality sum over its review count. */
  lemma CalendarAverages(rs: seq<Review>, d: int)
    requires d in Calendar(Tally(rs))
    ensures var e := Calendar(Tally(rs))[d];
      e.count == CountOn(rs, d) > 0 && e.qualitySum == QualityOn(rs, d)
      && e.avgQuality == QualityOn(rs, d) as real / CountOn(rs, d) as real
  {
    TallyCounts(rs, d);
  }

  /** Summary bounds: both retentions in [0, 100], mastered items at most all
      items, efficiency in [0, 100], at most five weak items. */
  lemma SummaryBounds(values: seq<ItemProgress>, childId: string, nowMs: int)
    ensures var items := OfChild(values, childId);
      var rs := Reviews(items);
      && 0 <= Retention(Succeeded(rs, nowMs, 7), Reviewed(rs, nowMs, 7)) <= 100
      && 0 <= Retention(Succeeded(rs, nowMs, 14), Reviewed(rs, nowMs, 14)) <= 100
      && MasteredCount(items) <= |items|
      && 0 <= Efficiency(EaseTotal(items), |items|) <= 100
      && |Weakest(WeakList(items))| <= 5
  {
    var items := OfChild(values, childId);
    var rs := Reviews(items);
    WindowCounts(rs, nowMs, 7, 14);
    WindowCounts(rs, nowMs, 14, 14);
    RetentionIsRoundedPercentage(Succeeded(rs, nowMs, 7), Reviewed(rs, nowMs, 7));
    RetentionIsRoundedPercentage(Succeeded(rs, nowMs, 14), Reviewed(rs, nowMs, 14));
    MasteredAtMostTotal(items);
    EfficiencyRange(EaseTotal(items), |items|);
  }
}
