/** The SM-2 spaced-repetition step (lib/sm2.ts). The ease factor is held in
    hundredths: every change is a whole number of hundredths, so the
    arithmetic is exact. */
module SM2 {
  import opened Types

  /** Ease of a fresh item, 2.5. */
  const InitialEase: int := 250
  /** Floor of the ease factor, 1.3. */
  const MinEase: int := 130
  /** Quality at or above which a review counts as a success. */
  const PassQuality: int := 3

  /** The classification the scheduler derives from an interval and a repetition count. */
  function MasteryOf(box: int, reps: int): MasteryLevel
  {
    if box > 21 then Rapid
    else if reps >= 3 && box > 7 then Fluent
    else Novice
  }

  /** What the scheduler maintains of every record it produces. */
  predicate WellFormed(p: ItemProgress)
  {
    && p.box >= 0 && p.reps >= 0 && p.streak >= 0
    && p.ease >= MinEase
    && (p.reps > 0 ==> p.box >= 1)
    && p.masteryLevel == MasteryOf(p.box, p.reps)
  }

  /** `getInitialProgress`: the record of an item never reviewed. */
  function InitialProgress(childId: string, itemId: string, today: int, now: int): (p: ItemProgress)
    ensures KeyOf(p) == Key(childId, itemId)
    ensures p.box == 0 && p.ease == InitialEase && p.reps == 0 && p.streak == 0
    ensures p.masteryLevel == Novice && p.history == [] && p.lastReviewDate == None
    ensures p.dueDate == today && p.updatedAt == now
    ensures WellFormed(p)
  {
    ItemProgress(childId, itemId, 0, InitialEase, 0, today, None, 0, Novice, [], now)
  }

  /** Smallest integer at or above a / b. */
  function CeilDiv(a: int, b: int): (c: int)
    requires b > 0
    ensures (c - 1) * b < a <= c * b
  {
    -((-a) / b)
  }

  /** The change of the ease factor, in hundredths, for a review of quality q:
      0.1 - (5 - q) * (0.08 + (5 - q) * 0.02). */
  function EaseDelta(q: int): int
  {
    10 - (5 - q) * (8 + (5 - q) * 2)
  }

  /** The interval after a review, computed from the interval, repetition count
      and ease before it. */
  function NextBox(box: int, reps: int, ease: int, quality: int): int
  {
    if quality >= PassQuality then
      if reps == 0 then 1
      else if reps == 1 then 6
      else CeilDiv(box * ease, 100)
    else 1
  }

  /** `calculateSM2`: the record after one review of quality `quality` on day
      `today` at clock reading `now`. The caller's record is not changed. */
  function CalculateSM2(current: ItemProgress, quality: int, today: int, now: int): (next: ItemProgress)
    ensures KeyOf(next) == KeyOf(current)
    ensures next.history == current.history + [Review(today, quality)]
    ensures next.lastReviewDate == Some(today)
    ensures next.ease >= MinEase
    ensures next.dueDate == today + next.box
    ensures next.masteryLevel == MasteryOf(next.box, next.reps)
  {
    var box := NextBox(current.box, current.reps, current.ease, quality);
    var reps := if quality >= PassQuality then current.reps + 1 else 0;
    var streak := if quality >= PassQuality then current.streak + 1 else 0;
    var raised := current.ease + EaseDelta(quality);
    var ease := if raised < MinEase then MinEase else raised;
    current.(
      lastReviewDate := Some(today),
      history := current.history + [Review(today, quality)],
      box := box,
      reps := reps,
      streak := streak,
      ease := ease,
      dueDate := today + box,
      masteryLevel := MasteryOf(box, reps),
      updatedAt := now)
  }

  /** A successful review: the interval becomes 1, then 6, then the old interval
      times the old ease rounded up; reps and streak each rise by one. */
  lemma SuccessfulReview(current: ItemProgress, quality: int, today: int, now: int)
    requires quality >= PassQuality
    ensures var next := CalculateSM2(current, quality, today, now);
      && (current.reps == 0 ==> next.box == 1)
      && (current.reps == 1 ==> next.box == 6)
      && (current.reps != 0 && current.reps != 1 ==>
            (next.box - 1) * 100 < current.box * current.ease <= next.box * 100)
      && next.reps == current.reps + 1
      && next.streak == current.streak + 1
  {
  }

  /** A failed review resets the interval to one day and reps and streak to zero,
      whatever the state before. */
  lemma FailedReview(current: ItemProgress, quality: int, today: int, now: int)
    requires quality < PassQuality
    ensures var next := CalculateSM2(current, quality, today, now);
      next.box == 1 && next.reps == 0 && next.streak == 0
  {
  }

  /** The ease changes by +0.10, 0, -0.14, -0.32, -0.54 and -0.80 for qualities
      5 down to 0 where that keeps it at 1.3 or more, and never falls below 1.3. */
  lemma EaseSteps(current: ItemProgress, quality: int, today: int, now: int)
    requires 0 <= quality <= 5
    ensures var next := CalculateSM2(current, quality, today, now);
      && next.ease >= MinEase
      && next.ease == (if current.ease + EaseDelta(quality) < MinEase then MinEase
                       else current.ease + EaseDelta(quality))
      && next.ease >= current.ease - 80
      && (quality == 4 ==> next.ease == if current.ease < MinEase then MinEase else current.ease)
      && (quality == 5 && current.ease >= MinEase ==> next.ease == current.ease + 10)
      && (quality == 3 && current.ease >= MinEase + 14 ==> next.ease == current.ease - 14)
      && (quality == 2 && current.ease >= MinEase + 32 ==> next.ease == current.ease - 32)
      && (quality == 1 && current.ease >= MinEase + 54 ==> next.ease == current.ease - 54)
      && (quality == 0 && current.ease >= MinEase + 80 ==> next.ease == current.ease - 80)
  {
    assert EaseDelta(0) == -80 && EaseDelta(1) == -54 && EaseDelta(2) == -32;
    assert EaseDelta(3) == -14 && EaseDelta(4) == 0 && EaseDelta(5) == 10;
  }

  /** A successful review with ease at least 1.3 makes a positive interval grow
      by at least one day. */
  lemma GrowthOnSuccess(box: int, ease: int)
    requires box >= 1 && ease >= MinEase
    ensures CeilDiv(box * ease, 100) >= box + 1
  {
    assert box * ease >= box * MinEase;
  }

  /** The scheduler keeps records well formed, and every record it produces is
      due at least one day after the review. Once reps reach two, a further
      success never shortens the interval. */
  lemma StepKeepsWellFormed(current: ItemProgress, quality: int, today: int, now: int)
    requires WellFormed(current)
    ensures var next := CalculateSM2(current, quality, today, now);
      && WellFormed(next)
      && next.box >= 1
      && next.dueDate >= today + 1
      && (quality >= PassQuality && current.reps >= 2 ==> next.box > current.box)
  {
    if quality >= PassQuality && current.reps >= 2 {
      GrowthOnSuccess(current.box, current.ease);
    }
  }

  /** Mastery is decided from the new interval and reps: RAPID exactly when the
      interval exceeds 21 days, FLUENT exactly when it is 8 to 21 days with at
      least three reps. */
  lemma MasteryClasses(box: int, reps: int)
    ensures MasteryOf(box, reps) == Rapid <==> box > 21
    ensures MasteryOf(box, reps) == Fluent <==> 7 < box <= 21 && reps >= 3
    ensures MasteryOf(box, reps) == Novice <==> box <= 7 || (box <= 21 && reps < 3)
  {
  }

  /** From a fresh record: quality 5 gives interval 1 and one rep, a second 5 gives
      interval 6 and two reps, a third 5 gives ceil(6 * 2.7) = 17, while a 1
      instead resets to interval 1, no reps and no streak. */
  lemma FreshItemScenario(c: string, i: string, d: int, now: int)
    ensures var p0 := InitialProgress(c, i, d, now);
      var p1 := CalculateSM2(p0, 5, d, now);
      var p2 := CalculateSM2(p1, 5, d + 1, now);
      && p1.box == 1 && p1.reps == 1 && p1.masteryLevel == Novice
      && p2.box == 6 && p2.reps == 2 && p2.ease == 270
      && CalculateSM2(p2, 5, d + 2, now).box == 17
      && var p3 := CalculateSM2(p2, 1, d + 2, now);
         p3.box == 1 && p3.reps == 0 && p3.streak == 0
  {
  }
}
