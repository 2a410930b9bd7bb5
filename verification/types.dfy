/** The records the learning engine works on (types.ts). Dates are whole day
    numbers, clock readings are milliseconds, and the ease factor is kept in
    hundredths (2.5 is 250) so that its arithmetic is exact. */
module Types {

  datatype Option<+T> = None | Some(value: T)

  datatype MasteryLevel = Novice | Fluent | Rapid

  /** One review in an item's history: the day it happened and its quality (0 to 5). */
  datatype Review = Review(date: int, quality: int)

  /** The composite key (childId, itemId) under which progress is stored. */
  datatype Key = Key(childId: string, itemId: string)

  /** Per-child, per-item spaced-repetition state. `box` is the interval in days,
      `ease` the ease factor in hundredths. */
  datatype ItemProgress = ItemProgress(
    childId: string,
    itemId: string,
    box: int,
    ease: int,
    reps: int,
    dueDate: int,
    lastReviewDate: Option<int>,   // None stands for the empty string of a fresh record
    streak: int,
    masteryLevel: MasteryLevel,
    history: seq<Review>,
    updatedAt: int)

  function KeyOf(p: ItemProgress): Key
  {
    Key(p.childId, p.itemId)
  }

  datatype AgeBand = Toddler | Preschool | School

  datatype TrophyId = FirstSteps | Streak3 | Streak7 | StarCollector | SuperStar | NightOwl

  datatype ChildProfile = ChildProfile(
    id: string,
    parentId: Option<string>,
    name: string,
    age: int,
    ageBand: AgeBand,
    avatar: string,
    streak: int,
    stars: int,
    dailyLimitMinutes: int,
    todayUsageMinutes: int,
    lastUsageDate: int,
    bedtimeStart: string,
    bedtimeEnd: string,
    coPlayRequired: bool,
    language: Option<string>,
    unlockedTrophies: seq<TrophyId>)

  datatype UserProfile = UserProfile(
    id: string,
    email: string,
    pin: string,
    consentAgreedAt: Option<string>,
    children: seq<ChildProfile>)

  /** No element occurs twice. */
  predicate NoDuplicates<T(==)>(s: seq<T>)
  {
    forall i, j :: 0 <= i < j < |s| ==> s[i] != s[j]
  }
}
