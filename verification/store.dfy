/** The app store (store.ts): the signed-in parent with their children, the
    selected child, that child's progress by key, and the running session. Each
    reducer is a method of `AppStore` that changes the fields `set` would
    change. The clock, the local date, the current hour, the shuffles and the
    outcome of every database call are parameters; the asynchronous database
    calls are modelled as running to completion inside the reducer. */
module Store {
  import opened Types
  import opened Numbers
  import opened SM2
  import opened Constants
  import opened Plan
  import opened Db
  import Safety

  // ---------------------------------------------------------------------
  // Sessions

  datatype SessionState = SessionState(
    isActive: bool,
    currentActivityIndex: int,
    activities: seq<Activity>,
    startTime: Option<int>,
    completedActivities: seq<Option<ActivityId>>,   // None: `undefined`, completed past the end
    earnedStars: int)

  /** The session of a fresh store, and the one quitting or expiry leaves. */
  const IdleSession := SessionState(false, 0, [], None, [], 0)

  const MsPerHour: int := 1000 * 60 * 60
  const MaxSessionHours: int := 4

  /** The session `startSession` opens on a plan at clock reading `now`. */
  function Started(plan: seq<Activity>, now: int): SessionState
  {
    SessionState(true, 0, plan, Some(now), [], 0)
  }

  /** `checkSessionExpiry`'s test: an active session with a start time (0 does
      not count) more than four hours back. */
  predicate Expired(s: SessionState, now: int)
  {
    && s.isActive && s.startTime.Some? && s.startTime.value != 0
    && (now - s.startTime.value) as real / MsPerHour as real > MaxSessionHours as real
  }

  /** `completeActivity`: moves to the next activity and records the id of the
      current one (`undefined` once past the end of the plan). */
  function Completed(s: SessionState): SessionState
  {
    var i := s.currentActivityIndex;
    var id := if 0 <= i < |s.activities| then Some(s.activities[i].id) else None;
    s.(currentActivityIndex := i + 1, completedActivities := s.completedActivities + [id])
  }

  /** `completeActivity` applied k times. */
  function CompletedTimes(s: SessionState, k: nat): SessionState
  {
    if k == 0 then s else Completed(CompletedTimes(s, k - 1))
  }

  function ActivityIds(acts: seq<Activity>): (ids: seq<Option<ActivityId>>)
    ensures |ids| == |acts|
  {
    seq(|acts|, i requires 0 <= i < |acts| => Some(acts[i].id))
  }

  // ---------------------------------------------------------------------
  // Children

  /** The fields a parent fills in when adding a child; None is a field left out. */
  datatype ChildDraft = ChildDraft(
    name: Option<string>,
    age: Option<int>,
    ageBand: Option<AgeBand>,
    avatar: Option<string>,
    dailyLimitMinutes: Option<int>)

  /** `field || fallback` on a string: an absent or empty string falls back. */
  function OrText(o: Option<string>, fallback: string): string
  {
    if o.Some? && o.value != "" then o.value else fallback
  }

  /** `field || fallback` on a number: an absent field or 0 falls back. */
  function OrNumber(o: Option<int>, fallback: int): int
  {
    if o.Some? && o.value != 0 then o.value else fallback
  }

  /** The id `c_${Date.now()}` of a child added at clock reading `stamp`. */
  function ChildIdOf(stamp: nat): string
  {
    "c_" + DecimalText(stamp)
  }

  /** The child `addChild` creates for parent `parentId` at clock reading
      `stamp` on day `today`. */
  function NewChild(parentId: string, draft: ChildDraft, stamp: nat, today: int): ChildProfile
  {
    var age := OrNumber(draft.age, 4);
    ChildProfile(
      ChildIdOf(stamp), Some(parentId), OrText(draft.name, "Kid"), age,
      if draft.ageBand.Some? then draft.ageBand.value else Preschool,
      OrText(draft.avatar, "\U{1F43C}"),
      0, 0, OrNumber(draft.dailyLimitMinutes, 30), 0, today,
      "20:00", "07:00", age < 4, Some("en"), [])
  }

  /** A partial profile `{ ...c, ...updates }` spreads over a child: each field
      present replaces the child's. */
  datatype ChildPatch = ChildPatch(
    id: Option<string>,
    parentId: Option<Option<string>>,
    name: Option<string>,
    age: Option<int>,
    ageBand: Option<AgeBand>,
    avatar: Option<string>,
    streak: Option<int>,
    stars: Option<int>,
    dailyLimitMinutes: Option<int>,
    todayUsageMinutes: Option<int>,
    lastUsageDate: Option<int>,
    bedtimeStart: Option<string>,
    bedtimeEnd: Option<string>,
    coPlayRequired: Option<bool>,
    language: Option<Option<string>>,
    unlockedTrophies: Option<seq<TrophyId>>)

  function Over<T>(o: Option<T>, base: T): T
  {
    if o.Some? then o.value else base
  }

  function Patch(c: ChildProfile, p: ChildPatch): ChildProfile
  {
    ChildProfile(
      Over(p.id, c.id), Over(p.parentId, c.parentId), Over(p.name, c.name), Over(p.age, c.age),
      Over(p.ageBand, c.ageBand), Over(p.avatar, c.avatar), Over(p.streak, c.streak),
      Over(p.stars, c.stars), Over(p.dailyLimitMinutes, c.dailyLimitMinutes),
      Over(p.todayUsageMinutes, c.todayUsageMinutes), Over(p.lastUsageDate, c.lastUsageDate),
      Over(p.bedtimeStart, c.bedtimeStart), Over(p.bedtimeEnd, c.bedtimeEnd),
      Over(p.coPlayRequired, c.coPlayRequired), Over(p.language, c.language),
      Over(p.unlockedTrophies, c.unlockedTrophies))
  }

  /** `{ ...p, ...q }`: the fields of q, and those of p that q leaves out. */
  function Merge(p: ChildPatch, q: ChildPatch): ChildPatch
  {
    ChildPatch(
      if q.id.Some? then q.id else p.id,
      if q.parentId.Some? then q.parentId else p.parentId,
      if q.name.Some? then q.name else p.name,
      if q.age.Some? then q.age else p.age,
      if q.ageBand.Some? then q.ageBand else p.ageBand,
      if q.avatar.Some? then q.avatar else p.avatar,
      if q.streak.Some? then q.streak else p.streak,
      if q.stars.Some? then q.stars else p.stars,
      if q.dailyLimitMinutes.Some? then q.dailyLimitMinutes else p.dailyLimitMinutes,
      if q.todayUsageMinutes.Some? then q.todayUsageMinutes else p.todayUsageMinutes,
      if q.lastUsageDate.Some? then q.lastUsageDate else p.lastUsageDate,
      if q.bedtimeStart.Some? then q.bedtimeStart else p.bedtimeStart,
      if q.bedtimeEnd.Some? then q.bedtimeEnd else p.bedtimeEnd,
      if q.coPlayRequired.Some? then q.coPlayRequired else p.coPlayRequired,
      if q.language.Some? then q.language else p.language,
      if q.unlockedTrophies.Some? then q.unlockedTrophies else p.unlockedTrophies)
  }

  function Ids(cs: seq<ChildProfile>): (ids: seq<string>)
    ensures |ids| == |cs|
  {
    seq(|cs|, i requires 0 <= i < |cs| => cs[i].id)
  }

  /** `children.map(c => c.id === u.id ? u : c)`: the same roster, with every
      entry under u's id replaced by u. */
  function Replaced(cs: seq<ChildProfile>, u: ChildProfile): (r: seq<ChildProfile>)
    ensures |r| == |cs| && Ids(r) == Ids(cs)
    ensures forall c :: c in r && c.id == u.id ==> c == u
    ensures forall i :: 0 <= i < |cs| && cs[i].id != u.id ==> r[i] == cs[i]
  {
    seq(|cs|, i requires 0 <= i < |cs| => if cs[i].id == u.id then u else cs[i])
  }

  /** `children.map(c => c.id === childId ? { ...c, ...updates } : c)`. */
  function Patched(cs: seq<ChildProfile>, childId: string, p: ChildPatch): (r: seq<ChildProfile>)
    ensures |r| == |cs|
    ensures forall i :: 0 <= i < |cs| && cs[i].id != childId ==> r[i] == cs[i]
    ensures forall i :: 0 <= i < |cs| && cs[i].id == childId ==> r[i] == Patch(cs[i], p)
  {
    seq(|cs|, i requires 0 <= i < |cs| => if cs[i].id == childId then Patch(cs[i], p) else cs[i])
  }

  /** `a` is `b` with some entries left out, the rest in their order. */
  predicate Subsequence<T(==)>(a: seq<T>, b: seq<T>)
  {
    if |a| == 0 then true
    else if |b| == 0 then false
    else (a[|a| - 1] == b[|b| - 1] && Subsequence(a[..|a| - 1], b[..|b| - 1]))
         || Subsequence(a, b[..|b| - 1])
  }

  /** `children.filter(c => c.id !== childId)`: the children of other ids, each
      as often as it occurs and in roster order. */
  function Without(cs: seq<ChildProfile>, childId: string): (r: seq<ChildProfile>)
    ensures forall c :: c in r <==> c in cs && c.id != childId
    ensures |r| <= |cs|
    ensures forall c :: multiset(r)[c] == if c.id != childId then multiset(cs)[c] else 0
    ensures Subsequence(r, cs)
  {
    if |cs| == 0 then []
    else
      var init := Without(cs[..|cs| - 1], childId);
      var last := cs[|cs| - 1];
      assert cs == cs[..|cs| - 1] + [last];
      assert forall c :: c in cs <==> c in cs[..|cs| - 1] || c == last;
      assert multiset(cs) == multiset(cs[..|cs| - 1]) + multiset{last};
      if last.id != childId then
        assert (init + [last])[..|init|] == init;
        init + [last]
      else init
  }

  /** The roster entry of the current child is the current child itself. */
  predicate InStep(user: Option<UserProfile>, current: Option<ChildProfile>)
  {
    user.Some? && current.Some? ==>
      forall c :: c in user.value.children && c.id == current.value.id ==> c == current.value
  }

  /** `addStars`'s child. */
  function WithStars(c: ChildProfile, amount: int): ChildProfile
  {
    c.(stars := c.stars + amount)
  }

  /** `incrementUsage`'s child: today's minutes grow by `minutes`, starting again
      from 0 when the last use was on another day. */
  function WithUsage(c: ChildProfile, minutes: int, today: int): ChildProfile
  {
    var base := if c.lastUsageDate != today then 0 else c.todayUsageMinutes;
    c.(todayUsageMinutes := base + minutes, lastUsageDate := today)
  }

  // ---------------------------------------------------------------------
  // Trophies

  /** The trophies of `candidates`, in order, that the child lacks and has earned. */
  function Unlocks(candidates: seq<TrophyId>, c: ChildProfile, hour: int): (r: seq<TrophyId>)
    ensures forall t :: t in r <==> t in candidates && t !in c.unlockedTrophies && TrophyCondition(t, c, hour)
    ensures NoDuplicates(candidates) ==> NoDuplicates(r)
  {
    if |candidates| == 0 then []
    else
      var init := candidates[..|candidates| - 1];
      var t := candidates[|candidates| - 1];
      assert candidates == init + [t];
      var r := Unlocks(init, c, hour);
      if t !in c.unlockedTrophies && TrophyCondition(t, c, hour) then r + [t] else r
  }

  /** What `checkTrophies` unlocks for the child at this hour. */
  function NewUnlocks(c: ChildProfile, hour: int): seq<TrophyId>
  {
    Unlocks(Trophies, c, hour)
  }

  function Unlocked(c: ChildProfile, ts: seq<TrophyId>): ChildProfile
  {
    c.(unlockedTrophies := c.unlockedTrophies + ts)
  }

  // ---------------------------------------------------------------------
  // Reviews

  /** One entry of `submitActivityResults`: an item and the quality of the answer. */
  datatype Result = Result(itemId: string, quality: int)

  /** The record a review of `itemId` starts from: the stored one, or a fresh one. */
  function Current(m: map<Key, ItemProgress>, childId: string, itemId: string, today: int, now: int): ItemProgress
  {
    var k := Key(childId, itemId);
    if k in m then m[k] else InitialProgress(childId, itemId, today, now)
  }

  /** The records `submitActivityResults` writes, in order; each review starts
      from the map as the earlier reviews of the call left it. */
  function ChangedItems(m: map<Key, ItemProgress>, childId: string, rs: seq<Result>, today: int, now: int)
    : (changed: seq<ItemProgress>)
    ensures |changed| == |rs|
    ensures KeyConsistent(m) ==> forall i :: 0 <= i < |rs| ==> KeyOf(changed[i]) == Key(childId, rs[i].itemId)
    decreases |rs|
  {
    if |rs| == 0 then []
    else
      var init := rs[..|rs| - 1];
      var r := rs[|rs| - 1];
      var before := Upserted(m, ChangedItems(m, childId, init, today, now));
      ChangedItems(m, childId, init, today, now)
        + [CalculateSM2(Current(before, childId, r.itemId, today, now), r.quality, today, now)]
  }

  /** The progress map after the reviews: the changed records written over `m`. */
  function Scored(m: map<Key, ItemProgress>, childId: string, rs: seq<Result>, today: int, now: int)
    : map<Key, ItemProgress>
  {
    Upserted(m, ChangedItems(m, childId, rs, today, now))
  }

  /** One more result: the record it produces from the map the earlier ones
      left is appended to the writes and stored under its key. */
  lemma ScoredStep(m: map<Key, ItemProgress>, childId: string, rs: seq<Result>, r: Result, today: int, now: int)
    requires KeyConsistent(m)
    ensures var before := ChangedItems(m, childId, rs, today, now);
      var upd := CalculateSM2(Current(Scored(m, childId, rs, today, now), childId, r.itemId, today, now),
                              r.quality, today, now);
      && KeyOf(upd) == Key(childId, r.itemId)
      && ChangedItems(m, childId, rs + [r], today, now) == before + [upd]
      && Scored(m, childId, rs + [r], today, now) == Scored(m, childId, rs, today, now)[Key(childId, r.itemId) := upd]
  {
    var before := ChangedItems(m, childId, rs, today, now);
    var M := Scored(m, childId, rs, today, now);
    var upd := CalculateSM2(Current(M, childId, r.itemId, today, now), r.quality, today, now);
    assert (rs + [r])[..|rs|] == rs;
    assert ChangedItems(m, childId, rs + [r], today, now) == before + [upd];
    assert (before + [upd])[..|before|] == before;
  }

  /** `ScoredStep` at position i of the results. */
  lemma ReviewStep(m: map<Key, ItemProgress>, childId: string, results: seq<Result>, i: nat, today: int, now: int)
    requires KeyConsistent(m) && i < |results|
    ensures var M := Scored(m, childId, results[..i], today, now);
      var upd := CalculateSM2(Current(M, childId, results[i].itemId, today, now), results[i].quality, today, now);
      && ChangedItems(m, childId, results[..i + 1], today, now) == ChangedItems(m, childId, results[..i], today, now) + [upd]
      && Scored(m, childId, results[..i + 1], today, now) == M[Key(childId, results[i].itemId) := upd]
  {
    var rs := results[..i];
    assert results[..i + 1] == rs + [results[i]];
    ScoredStep(m, childId, rs, results[i], today, now);
  }

  /** The reviews of `itemId` among the results, in order, dated today. */
  function ReviewsOf(rs: seq<Result>, itemId: string, today: int): seq<Review>
  {
    if |rs| == 0 then []
    else
      var r := rs[|rs| - 1];
      ReviewsOf(rs[..|rs| - 1], itemId, today) + (if r.itemId == itemId then [Review(today, r.quality)] else [])
  }

  predicate Mentioned(rs: seq<Result>, itemId: string)
  {
    exists i :: 0 <= i < |rs| && rs[i].itemId == itemId
  }

  function HistoryAt(m: map<Key, ItemProgress>, k: Key): seq<Review>
  {
    if k in m then m[k].history else []
  }

  /** `${childId}_${itemId}`, the string key the store files progress under. */
  function StoreKey(childId: string, itemId: string): string
  {
    childId + "_" + itemId
  }

  /** The `forEach` of `submitActivityResults`: reviews each result in turn,
      writing the new record into the map and collecting it. */
  method ReviewAll(m: map<Key, ItemProgress>, childId: string, results: seq<Result>, today: int, now: int)
    returns (newProgressMap: map<Key, ItemProgress>, changedItems: seq<ItemProgress>)
    requires KeyConsistent(m)
    ensures changedItems == ChangedItems(m, childId, results, today, now)
    ensures newProgressMap == Scored(m, childId, results, today, now)
    ensures KeyConsistent(newProgressMap)
  {
    newProgressMap := m;
    changedItems := [];
    var i := 0;
    while i < |results|
      invariant 0 <= i <= |results|
      invariant changedItems == ChangedItems(m, childId, results[..i], today, now)
      invariant newProgressMap == Scored(m, childId, results[..i], today, now)
    {
      var res := results[i];
      var key := Key(childId, res.itemId);
      var current := if key in newProgressMap then newProgressMap[key]
                     else InitialProgress(childId, res.itemId, today, now);
      assert current == Current(newProgressMap, childId, res.itemId, today, now);
      var updated := CalculateSM2(current, res.quality, today, now);
      ReviewStep(m, childId, results, i, today, now);
      newProgressMap := newProgressMap[key := updated];
      changedItems := changedItems + [updated];
      i := i + 1;
    }
    assert results[..i] == results;
    assert newProgressMap == Upserted(m, changedItems);
  }

  // ---------------------------------------------------------------------
  // The store

  class AppStore {
    var user: Option<UserProfile>
    var currentChild: Option<ChildProfile>
    var itemProgress: map<Key, ItemProgress>
    var parentMode: bool
    var lastSyncedAt: int
    var session: SessionState
    /** The local database the store saves to and refreshes from. */
    const db: Outbox

    /** The database is consistent and progress is filed under its records' keys. */
    predicate Valid()
      reads this, db
    {
      db.Valid() && KeyConsistent(itemProgress)
    }

    /** The initial state: nobody signed in, no child, no progress, no session. */
    constructor(database: Outbox)
      requires database.Valid()
      ensures Valid() && db == database
      ensures user == None && currentChild == None && itemProgress == map[]
      ensures !parentMode && lastSyncedAt == 0 && session == IdleSession
    {
      user := None;
      currentChild := None;
      itemProgress := map[];
      parentMode := false;
      lastSyncedAt := 0;
      session := IdleSession;
      db := database;
    }

    /** `checkSessionExpiry`: an expired session is replaced by the idle one. */
    method CheckSessionExpiry(now: int)
      modifies this
      ensures session == if Expired(old(session), now) then IdleSession else old(session)
      ensures user == old(user) && currentChild == old(currentChild) && itemProgress == old(itemProgress)
      ensures parentMode == old(parentMode) && lastSyncedAt == old(lastSyncedAt)
    {
      if session.isActive && session.startTime.Some? && session.startTime.value != 0 {
        var hoursElapsed := (now - session.startTime.value) as real / MsPerHour as real;
        if hoursElapsed > MaxSessionHours as real {
          session := IdleSession;
        }
      }
    }

    /** `addChild`: with a parent signed in, appends a new child with defaults
        for the fields the draft leaves out or leaves empty. */
    method AddChild(draft: ChildDraft, stamp: nat, today: int)
      modifies this
      ensures user == if old(user).None? then None
        else Some(old(user).value.(children := old(user).value.children + [NewChild(old(user).value.id, draft, stamp, today)]))
      ensures currentChild == old(currentChild) && itemProgress == old(itemProgress) && session == old(session)
      ensures parentMode == old(parentMode) && lastSyncedAt == old(lastSyncedAt)
    {
      if user.None? {
        return;
      }
      var newChild := NewChild(user.value.id, draft, stamp, today);
      user := Some(user.value.(children := user.value.children + [newChild]));
    }

    /** `updateChild`: spreads the patch over every roster entry with that id and
        over the current child when it has that id. */
    method UpdateChild(childId: string, patch: ChildPatch)
      modifies this
      ensures old(user).None? ==> user == old(user) && currentChild == old(currentChild)
      ensures old(user).Some? ==>
        && user == Some(old(user).value.(children := Patched(old(user).value.children, childId, patch)))
        && currentChild == if old(currentChild).Some? && old(currentChild).value.id == childId
                           then Some(Patch(old(currentChild).value, patch)) else old(currentChild)
      ensures old(InStep(user, currentChild)) && (patch.id.None? || patch.id == Some(childId)) ==>
        InStep(user, currentChild)
      ensures itemProgress == old(itemProgress) && session == old(session)
      ensures parentMode == old(parentMode) && lastSyncedAt == old(lastSyncedAt)
    {
      if user.None? {
        return;
      }
      user := Some(user.value.(children := Patched(user.value.children, childId, patch)));
      if currentChild.Some? && currentChild.value.id == childId {
        currentChild := Some(Patch(currentChild.value, patch));
      }
      if old(InStep(user, currentChild)) && (patch.id.None? || patch.id == Some(childId)) {
        PatchKeepsInStep(old(user).value, old(currentChild), childId, patch);
      }
    }

    /** `deleteChild`: drops the child from the roster, and deselects it. */
    method DeleteChild(childId: string)
      modifies this
      ensures old(user).None? ==> user == old(user) && currentChild == old(currentChild)
      ensures old(user).Some? ==>
        && user == Some(old(user).value.(children := Without(old(user).value.children, childId)))
        && currentChild == if old(currentChild).Some? && old(currentChild).value.id == childId
                           then None else old(currentChild)
      ensures old(InStep(user, currentChild)) ==> InStep(user, currentChild)
      ensures itemProgress == old(itemProgress) && session == old(session)
      ensures parentMode == old(parentMode) && lastSyncedAt == old(lastSyncedAt)
    {
      if user.None? {
        return;
      }
      if InStep(user, currentChild) {
        WithoutKeepsInStep(user.value, currentChild, childId);
      }
      user := Some(user.value.(children := Without(user.value.children, childId)));
      if currentChild.Some? && currentChild.value.id == childId {
        currentChild := None;
      }
    }

    /** `setChild`: selects the child (or none) and leaves parent mode; for a
        child, then syncs its records down and loads them. */
    method SetChild(child: Option<ChildProfile>, online: bool, fetchOk: bool, now: int)
      requires Valid()
      modifies this, db
      ensures Valid()
      ensures currentChild == child && !parentMode && user == old(user) && session == old(session)
      ensures db.jobs == old(db.jobs) && db.nextId == old(db.nextId) && db.remote == old(db.remote)
      ensures child.None? ==>
        itemProgress == old(itemProgress) && lastSyncedAt == old(lastSyncedAt) && db.progress == old(db.progress)
      ensures child.Some? ==>
        var data := Fetched(old(db.remote), child.value.id, old(lastSyncedAt));
        db.progress == (if online && fetchOk && |data| > 0 then old(db.progress) + data else old(db.progress))
      ensures child.Some? ==> lastSyncedAt == (if online && now != 0 then now else old(lastSyncedAt))
      ensures child.Some? ==>
        itemProgress == (if |ChildRecords(db.progress, child.value.id)| > 0
                         then ChildRecords(db.progress, child.value.id) else old(itemProgress))
    {
      currentChild := child;
      parentMode := false;
      if child.Some? {
        LoadChild(child.value.id, online, fetchOk, now);
      }
    }

    /** The continuation of `setChild` for a selected child: syncs its records
        down from the last sync on and moves the sync time to the clock reading
        the sync returns (unless it is 0); then refreshes the in-memory map. */
    method LoadChild(id: string, online: bool, fetchOk: bool, now: int)
      requires Valid()
      modifies this, db
      ensures Valid()
      ensures currentChild == old(currentChild) && parentMode == old(parentMode)
      ensures user == old(user) && session == old(session)
      ensures db.jobs == old(db.jobs) && db.nextId == old(db.nextId) && db.remote == old(db.remote)
      ensures var data := Fetched(old(db.remote), id, old(lastSyncedAt));
        db.progress == (if online && fetchOk && |data| > 0 then old(db.progress) + data else old(db.progress))
      ensures lastSyncedAt == (if online && now != 0 then now else old(lastSyncedAt))
      ensures itemProgress == (if |ChildRecords(db.progress, id)| > 0 then ChildRecords(db.progress, id) else old(itemProgress))
    {
      var newTimestamp := db.SyncDown(id, lastSyncedAt, online, fetchOk, now);
      if newTimestamp.Some? && newTimestamp.value != 0 {
        lastSyncedAt := newTimestamp.value;
      }
      RefreshProgress(id);
    }

    /** The last step of `setChild`: the child's local records replace the
        in-memory map when there are any. */
    method RefreshProgress(id: string)
      requires Valid()
      modifies this
      ensures Valid()
      ensures currentChild == old(currentChild) && parentMode == old(parentMode) && lastSyncedAt == old(lastSyncedAt)
      ensures user == old(user) && session == old(session)
      ensures itemProgress == (if |ChildRecords(db.progress, id)| > 0 then ChildRecords(db.progress, id) else old(itemProgress))
    {
      var m := db.GetLocalProgressMap(id);
      if |m| > 0 {
        itemProgress := m;
      }
    }

    /** `startSession`: for a selected child, opens a session on a new daily plan
        (built at clock reading `planStamp`), started at `now`. */
    method StartSession(planStamp: int, now: int, sh: Shuffles)
      requires currentChild.Some? ==> ValidShuffles(currentChild.value.age, sh)
      modifies this
      ensures session == if old(currentChild).None? then old(session)
        else Started(DailyPlan(old(currentChild).value.age, planStamp, sh), now)
      ensures user == old(user) && currentChild == old(currentChild) && itemProgress == old(itemProgress)
      ensures parentMode == old(parentMode) && lastSyncedAt == old(lastSyncedAt)
    {
      if currentChild.None? {
        return;
      }
      var plan := GenerateDailyPlan(currentChild.value, itemProgress, planStamp, sh);
      session := Started(plan, now);
    }

    /** `completeActivity`. */
    method CompleteActivity()
      modifies this
      ensures session == Completed(old(session))
      ensures user == old(user) && currentChild == old(currentChild) && itemProgress == old(itemProgress)
      ensures parentMode == old(parentMode) && lastSyncedAt == old(lastSyncedAt)
    {
      var nextIndex := session.currentActivityIndex + 1;
      var currentActId := if 0 <= session.currentActivityIndex < |session.activities|
        then Some(session.activities[session.currentActivityIndex].id) else None;
      session := session.(currentActivityIndex := nextIndex,
                          completedActivities := session.completedActivities + [currentActId]);
    }

    /** `submitActivityResults`: for a selected child, runs each result through
        SM-2 from the stored record (or a fresh one), keeps the new records in
        the store and saves them to the database, which queues them for sync. */
    method SubmitActivityResults(results: seq<Result>, today: int, now: int,
                                 online: bool, upsertOk: bool, deleteFails: set<nat>)
      requires Valid()
      modifies this, db
      ensures Valid()
      ensures user == old(user) && currentChild == old(currentChild) && session == old(session)
      ensures parentMode == old(parentMode) && lastSyncedAt == old(lastSyncedAt)
      ensures old(currentChild).None? ==>
        && itemProgress == old(itemProgress) && db.progress == old(db.progress) && db.jobs == old(db.jobs)
        && db.nextId == old(db.nextId) && db.remote == old(db.remote)
      ensures old(currentChild).Some? ==>
        var changed := ChangedItems(old(itemProgress), old(currentChild).value.id, results, today, now);
        var queued := old(db.jobs)[old(db.nextId) := SyncJob(ProgressUpdate, changed, Pending, now)];
        && itemProgress == Upserted(old(itemProgress), changed)
        && db.progress == Upserted(old(db.progress), changed)
        && db.nextId == old(db.nextId) + 1
        && db.jobs == (if online then DrainedJobs(queued, db.nextId, upsertOk, deleteFails) else queued)
        && db.remote == (if online then DrainedRemote(queued, db.nextId, old(db.remote), upsertOk) else old(db.remote))
    {
      if currentChild.None? {
        return;
      }
      var newProgressMap, changedItems := ReviewAll(itemProgress, currentChild.value.id, results, today, now);
      db.SaveProgressLocal(changedItems, now, online, upsertOk, deleteFails);
      itemProgress := newProgressMap;
    }

    /** `checkTrophies`: with a child selected and a parent signed in, lists the
        trophies the child has earned and lacks, in table order, and adds them
        to the child and its roster entry. */
    method CheckTrophies(hour: int) returns (newUnlocks: seq<TrophyId>)
      modifies this
      ensures old(currentChild).None? || old(user).None? ==> newUnlocks == []
      ensures old(currentChild).Some? && old(user).Some? ==> newUnlocks == NewUnlocks(old(currentChild).value, hour)
      ensures |newUnlocks| == 0 ==> user == old(user) && currentChild == old(currentChild)
      ensures |newUnlocks| > 0 ==>
        var updated := Unlocked(old(currentChild).value, newUnlocks);
        && currentChild == Some(updated)
        && user == Some(old(user).value.(children := Replaced(old(user).value.children, updated)))
        && InStep(user, currentChild)
      ensures itemProgress == old(itemProgress) && session == old(session)
      ensures parentMode == old(parentMode) && lastSyncedAt == old(lastSyncedAt)
    {
      newUnlocks := [];
      if currentChild.None? || user.None? {
        return;
      }
      var child := currentChild.value;
      var i := 0;
      while i < |Trophies|
        invariant 0 <= i <= |Trophies|
        invariant newUnlocks == Unlocks(Trophies[..i], child, hour)
      {
        var trophy := Trophies[i];
        assert Trophies[..i + 1][..i] == Trophies[..i];
        if trophy !in child.unlockedTrophies {
          if TrophyCondition(trophy, child, hour) {
            newUnlocks := newUnlocks + [trophy];
          }
        }
        i := i + 1;
      }
      assert Trophies[..i] == Trophies;
      if |newUnlocks| > 0 {
        var updatedChild := Unlocked(child, newUnlocks);
        var updatedChildren := Replaced(user.value.children, updatedChild);
        currentChild := Some(updatedChild);
        user := Some(user.value.(children := updatedChildren));
      }
    }

    /** `quitSession`. */
    method QuitSession()
      modifies this
      ensures session == IdleSession
      ensures user == old(user) && currentChild == old(currentChild) && itemProgress == old(itemProgress)
      ensures parentMode == old(parentMode) && lastSyncedAt == old(lastSyncedAt)
    {
      session := IdleSession;
    }

    /** `addStars`: with a child selected and a parent signed in, adds the stars
        to the child and its roster entry, and to the session's tally when a
        session is running. */
    method AddStars(amount: int)
      modifies this
      ensures old(currentChild).None? || old(user).None? ==>
        user == old(user) && currentChild == old(currentChild) && session == old(session)
      ensures old(currentChild).Some? && old(user).Some? ==>
        var updated := WithStars(old(currentChild).value, amount);
        && currentChild == Some(updated)
        && user == Some(old(user).value.(children := Replaced(old(user).value.children, updated)))
        && session == (if old(session).isActive then old(session).(earnedStars := old(session).earnedStars + amount)
                       else old(session))
        && InStep(user, currentChild)
      ensures itemProgress == old(itemProgress)
      ensures parentMode == old(parentMode) && lastSyncedAt == old(lastSyncedAt)
    {
      if currentChild.None? || user.None? {
        return;
      }
      var updatedChild := WithStars(currentChild.value, amount);
      var updatedChildren := Replaced(user.value.children, updatedChild);
      if session.isActive {
        session := session.(earnedStars := session.earnedStars + amount);
      }
      currentChild := Some(updatedChild);
      user := Some(user.value.(children := updatedChildren));
    }

    /** `incrementUsage`: with a child selected and a parent signed in, adds the
        minutes to the child's usage for today, in the child and its roster entry. */
    method IncrementUsage(minutes: int, today: int)
      modifies this
      ensures old(currentChild).None? || old(user).None? ==>
        user == old(user) && currentChild == old(currentChild)
      ensures old(currentChild).Some? && old(user).Some? ==>
        var updated := WithUsage(old(currentChild).value, minutes, today);
        && currentChild == Some(updated)
        && user == Some(old(user).value.(children := Replaced(old(user).value.children, updated)))
        && InStep(user, currentChild)
      ensures itemProgress == old(itemProgress) && session == old(session)
      ensures parentMode == old(parentMode) && lastSyncedAt == old(lastSyncedAt)
    {
      if currentChild.None? || user.None? {
        return;
      }
      var newUsage := currentChild.value.todayUsageMinutes;
      if currentChild.value.lastUsageDate != today {
        newUsage := 0;
      }
      newUsage := newUsage + minutes;
      var updatedChild := currentChild.value.(todayUsageMinutes := newUsage, lastUsageDate := today);
      currentChild := Some(updatedChild);
      user := Some(user.value.(children := Replaced(user.value.children, updatedChild)));
    }
  }

  // ---------------------------------------------------------------------
  // Properties

  /** A patch that keeps the child's id keeps the current child and its roster
      entry in step. */
  lemma PatchKeepsInStep(u: UserProfile, current: Option<ChildProfile>, childId: string, p: ChildPatch)
    requires p.id.None? || p.id == Some(childId)
    requires InStep(Some(u), current)
    ensures var cur := if current.Some? && current.value.id == childId then Some(Patch(current.value, p)) else current;
      InStep(Some(u.(children := Patched(u.children, childId, p))), cur)
  {
    var cs := u.children;
    var r := Patched(cs, childId, p);
    var cur := if current.Some? && current.value.id == childId then Some(Patch(current.value, p)) else current;
    if cur.Some? {
      forall c | c in r && c.id == cur.value.id
        ensures c == cur.value
      {
        var i :| 0 <= i < |r| && r[i] == c;
        assert cs[i] in cs;
      }
    }
  }

  /** Deleting a child, and deselecting it when current, keeps the current child
      and its roster entry in step. */
  lemma WithoutKeepsInStep(u: UserProfile, current: Option<ChildProfile>, childId: string)
    requires InStep(Some(u), current)
    ensures var cur := if current.Some? && current.value.id == childId then None else current;
      InStep(Some(u.(children := Without(u.children, childId))), cur)
  {
    var r := Without(u.children, childId);
    assert forall c :: c in r ==> c in u.children;
  }

  /** An expired session stays expired at any later reading; a session started
      at a non-zero clock reading t expires exactly once the clock passes
      t + 4 hours; the idle session never expires. */
  lemma SessionLifetime(s: SessionState, now: int, later: int)
    ensures !Expired(IdleSession, now)
    ensures s.isActive && s.startTime.Some? && s.startTime.value != 0 ==>
      (Expired(s, now) <==> now - s.startTime.value > MaxSessionHours * MsPerHour)
    ensures Expired(s, now) && now <= later ==> Expired(s, later)
  {
    if s.isActive && s.startTime.Some? && s.startTime.value != 0 {
      var d := (now - s.startTime.value) as real;
      assert d / MsPerHour as real > MaxSessionHours as real <==> d > (MaxSessionHours * MsPerHour) as real;
      var d' := (later - s.startTime.value) as real;
      assert now <= later ==> d <= d';
      assert d' / MsPerHour as real > MaxSessionHours as real <==> d' > (MaxSessionHours * MsPerHour) as real;
    }
  }

  /** Completing k activities of a fresh session (k at most the plan's length)
      sits at index k, having recorded the ids of the first k activities in
      order; one more completion past the end records `undefined`. */
  lemma {:induction false} CompletingInOrder(plan: seq<Activity>, now: int, k: nat)
    requires k <= |plan|
    ensures var s := CompletedTimes(Started(plan, now), k);
      && s.currentActivityIndex == k && s.completedActivities == ActivityIds(plan[..k])
      && s.activities == plan && s.isActive && s.startTime == Some(now)
    ensures k == |plan| ==>
      Completed(CompletedTimes(Started(plan, now), k)).completedActivities == ActivityIds(plan) + [None]
  {
    if k > 0 {
      CompletingInOrder(plan, now, k - 1);
      assert ActivityIds(plan[..k - 1]) + [Some(plan[k - 1].id)] == ActivityIds(plan[..k]);
    } else {
      assert ActivityIds(plan[..0]) == [];
    }
    if k == |plan| {
      assert plan[..k] == plan;
    }
  }

  /** Distinct clock readings give distinct child ids. */
  lemma ChildIdsDistinct(a: nat, b: nat)
    requires a != b
    ensures ChildIdOf(a) != ChildIdOf(b)
  {
    if ChildIdOf(a) == ChildIdOf(b) {
      assert ChildIdOf(a)[2..] == DecimalText(a);
      assert ChildIdOf(b)[2..] == DecimalText(b);
      DecimalTextInjective(a, b);
    }
  }

  /** A new child gets a non-empty name, a non-zero age and daily limit, needs
      co-play exactly when under 4, starts with nothing earned, and has the
      bedtime 20:00 to 07:00. */
  lemma NewChildDefaults(parentId: string, draft: ChildDraft, stamp: nat, today: int, hour: int, minute: int)
    ensures var c := NewChild(parentId, draft, stamp, today);
      && c.name != "" && c.age != 0 && c.dailyLimitMinutes != 0
      && (c.coPlayRequired <==> c.age < 4)
      && c.stars == 0 && c.streak == 0 && c.todayUsageMinutes == 0 && c.unlockedTrophies == []
      && (draft.age.None? ==> c.age == 4 && !c.coPlayRequired)
      && (Safety.IsBedtime(c.bedtimeStart, c.bedtimeEnd, hour, minute) <==>
            hour * 60 + minute >= 1200 || hour * 60 + minute < 420)
  {
    Safety.DefaultBedtime(hour, minute);
  }

  /** Scanning one more candidate appends it when it is unlocked. */
  lemma UnlocksSnoc(cs: seq<TrophyId>, t: TrophyId, c: ChildProfile, hour: int)
    ensures Unlocks(cs + [t], c, hour) ==
      Unlocks(cs, c, hour) + (if t !in c.unlockedTrophies && TrophyCondition(t, c, hour) then [t] else [])
  {
    assert (cs + [t])[..|cs|] == cs;
  }

  /** Candidates the child holds or has not earned unlock nothing. */
  lemma {:induction false} UnlocksNone(cs: seq<TrophyId>, c: ChildProfile, hour: int)
    requires forall t :: t in cs ==> t in c.unlockedTrophies || !TrophyCondition(t, c, hour)
    ensures Unlocks(cs, c, hour) == []
  {
    if |cs| > 0 {
      var init := cs[..|cs| - 1];
      assert forall t :: t in init ==> t in cs;
      UnlocksNone(init, c, hour);
      assert cs[|cs| - 1] in cs;
    }
  }

  /** A new child has earned nothing but, at 18:00 or later, NIGHT_OWL. */
  lemma NewChildTrophies(parentId: string, draft: ChildDraft, stamp: nat, today: int, hour: int)
    ensures NewUnlocks(NewChild(parentId, draft, stamp, today), hour) == if hour >= 18 then [NightOwl] else []
  {
    var c := NewChild(parentId, draft, stamp, today);
    var first := [FirstSteps, Streak3, Streak7, StarCollector, SuperStar];
    UnlocksNone(first, c, hour);
    UnlocksSnoc(first, NightOwl, c, hour);
    assert first + [NightOwl] == Trophies;
  }

  /** Unlocking is once only: the child keeps no trophy twice, and checking again
      at the same hour unlocks nothing. */
  lemma TrophiesUnlockOnce(c: ChildProfile, hour: int)
    requires NoDuplicates(c.unlockedTrophies)
    ensures var u := Unlocked(c, NewUnlocks(c, hour));
      NoDuplicates(u.unlockedTrophies) && NewUnlocks(u, hour) == []
  {
    var ts := NewUnlocks(c, hour);
    TrophyTableComplete(FirstSteps);
    var u := Unlocked(c, ts);
    var all := c.unlockedTrophies + ts;
    forall i, j | 0 <= i < j < |all|
      ensures all[i] != all[j]
    {
      if j >= |c.unlockedTrophies| {
        assert all[j] in ts;
        if i < |c.unlockedTrophies| {
          assert all[i] in c.unlockedTrophies;
        }
      }
    }
    forall t | t in Trophies
      ensures t in u.unlockedTrophies || !TrophyCondition(t, u, hour)
    {
      assert TrophyCondition(t, u, hour) == TrophyCondition(t, c, hour);
    }
    UnlocksNone(Trophies, u, hour);
  }

  /** Two stars grants add up, and so do two usage increments on the same day;
      on a new day the usage counts only the new minutes. */
  lemma CountersAccumulate(c: ChildProfile, a: int, b: int, today: int)
    ensures WithStars(WithStars(c, a), b) == WithStars(c, a + b)
    ensures WithUsage(WithUsage(c, a, today), b, today) == WithUsage(c, a + b, today)
    ensures c.lastUsageDate != today ==> WithUsage(c, a, today).todayUsageMinutes == a
    ensures c.lastUsageDate == today ==> WithUsage(c, a, today).todayUsageMinutes == c.todayUsageMinutes + a
  {
  }

  /** Spreading one patch and then another is spreading their merge; spreading a
      patch twice is spreading it once. */
  lemma PatchesCompose(c: ChildProfile, p: ChildPatch, q: ChildPatch)
    ensures Patch(Patch(c, p), q) == Patch(c, Merge(p, q))
    ensures Patch(Patch(c, p), p) == Patch(c, p)
  {
  }

  /** Replacing a roster entry twice keeps the later one, and a child whose id
      is on the roster is found on it after the replacement. */
  lemma ReplacedTwice(cs: seq<ChildProfile>, u: ChildProfile, v: ChildProfile)
    requires u.id == v.id
    ensures Replaced(Replaced(cs, u), v) == Replaced(cs, v)
    ensures u.id in Ids(cs) ==> u in Replaced(cs, u)
  {
    if u.id in Ids(cs) {
      var i :| 0 <= i < |cs| && Ids(cs)[i] == u.id;
      assert Replaced(cs, u)[i] == u;
    }
  }

  /** Deleting a child that is not on the roster changes nothing. */
  lemma {:induction false} WithoutAbsent(cs: seq<ChildProfile>, childId: string)
    requires forall c :: c in cs ==> c.id != childId
    ensures Without(cs, childId) == cs
  {
    if |cs| > 0 {
      var init := cs[..|cs| - 1];
      assert forall c :: c in init ==> c in cs;
      WithoutAbsent(init, childId);
      assert cs[|cs| - 1] in cs;
      assert init + [cs[|cs| - 1]] == cs;
    }
  }

  /** Deleting a child twice is deleting it once. */
  lemma WithoutIdempotent(cs: seq<ChildProfile>, childId: string)
    ensures Without(Without(cs, childId), childId) == Without(cs, childId)
  {
    WithoutAbsent(Without(cs, childId), childId);
  }

  /** After the reviews, a key of this child holds its earlier history followed
      by this call's reviews of its item, in order. */
  lemma {:induction false} ScoredHistory(m: map<Key, ItemProgress>, childId: string, rs: seq<Result>,
                                         today: int, now: int, k: Key)
    requires KeyConsistent(m) && k.childId == childId
    ensures HistoryAt(Scored(m, childId, rs, today, now), k) == HistoryAt(m, k) + ReviewsOf(rs, k.itemId, today)
  {
    if |rs| == 0 {
      assert Scored(m, childId, rs, today, now) == m;
      assert ReviewsOf(rs, k.itemId, today) == [];
    } else {
      var init := rs[..|rs| - 1];
      var r := rs[|rs| - 1];
      ScoredHistory(m, childId, init, today, now, k);
      assert rs == init + [r];
      ScoredStep(m, childId, init, r, today, now);
      var M := Scored(m, childId, init, today, now);
      var key := Key(childId, r.itemId);
      var upd := CalculateSM2(Current(M, childId, r.itemId, today, now), r.quality, today, now);
      var review := Review(today, r.quality);
      assert upd.history == HistoryAt(M, key) + [review];
      HistoryUpdate(M, k, key, upd, review);
      var extra := if r.itemId == k.itemId then [review] else [];
      assert ReviewsOf(rs, k.itemId, today) == ReviewsOf(init, k.itemId, today) + extra;
      assert Scored(m, childId, rs, today, now) == M[key := upd];
      assert HistoryAt(Scored(m, childId, rs, today, now), k) == HistoryAt(M, k) + extra;
      ConcatAssociates(HistoryAt(m, k), ReviewsOf(init, k.itemId, today), extra);
    }
  }

  lemma ConcatAssociates(a: seq<Review>, b: seq<Review>, c: seq<Review>)
    ensures a + b + c == a + (b + c)
  {
  }

  /** Storing a record whose history extends the stored one by a review extends
      that key's history by it and leaves every other key's history alone. */
  lemma HistoryUpdate(M: map<Key, ItemProgress>, k: Key, key: Key, upd: ItemProgress, review: Review)
    requires upd.history == HistoryAt(M, key) + [review]
    ensures HistoryAt(M[key := upd], k) == HistoryAt(M, k) + (if k == key then [review] else [])
  {
  }

  /** The reviews touch exactly the keys of this child's reviewed items: those
      are present afterwards, and every other key keeps its record, or its
      absence. */
  lemma {:induction false} ScoredKeys(m: map<Key, ItemProgress>, childId: string, rs: seq<Result>,
                                      today: int, now: int, k: Key)
    requires KeyConsistent(m)
    ensures k.childId == childId && Mentioned(rs, k.itemId) ==> k in Scored(m, childId, rs, today, now)
    ensures k.childId != childId || !Mentioned(rs, k.itemId) ==>
      Lookup(Scored(m, childId, rs, today, now), k) == Lookup(m, k)
  {
    if |rs| > 0 {
      var init := rs[..|rs| - 1];
      var r := rs[|rs| - 1];
      ScoredKeys(m, childId, init, today, now, k);
      assert rs == init + [r];
      ScoredStep(m, childId, init, r, today, now);
      MentionedSnoc(init, r, k.itemId);
      var upd := CalculateSM2(Current(Scored(m, childId, init, today, now), childId, r.itemId, today, now),
                              r.quality, today, now);
      assert Scored(m, childId, rs, today, now) == Scored(m, childId, init, today, now)[Key(childId, r.itemId) := upd];
    }
  }

  lemma MentionedSnoc(rs: seq<Result>, r: Result, itemId: string)
    ensures Mentioned(rs + [r], itemId) <==> Mentioned(rs, itemId) || r.itemId == itemId
  {
    if Mentioned(rs, itemId) {
      var i :| 0 <= i < |rs| && rs[i].itemId == itemId;
      assert (rs + [r])[i] == rs[i];
    }
    if r.itemId == itemId {
      assert (rs + [r])[|rs|] == r;
    }
  }

  /** Reviews keep every record well formed. */
  lemma {:induction false} ScoredWellFormed(m: map<Key, ItemProgress>, childId: string, rs: seq<Result>,
                                            today: int, now: int)
    requires KeyConsistent(m) && forall k :: k in m ==> WellFormed(m[k])
    ensures var s := Scored(m, childId, rs, today, now);
      forall k :: k in s ==> WellFormed(s[k])
  {
    if |rs| > 0 {
      var init := rs[..|rs| - 1];
      var r := rs[|rs| - 1];
      ScoredWellFormed(m, childId, init, today, now);
      assert rs == init + [r];
      ScoredStep(m, childId, init, r, today, now);
      var M := Scored(m, childId, init, today, now);
      var cur := Current(M, childId, r.itemId, today, now);
      assert WellFormed(cur) by {
        if Key(childId, r.itemId) in M {
          assert cur == M[Key(childId, r.itemId)];
        }
      }
      StepKeepsWellFormed(cur, r.quality, today, now);
    }
  }

  /** A first sync (no sync mark) that fetched successfully loads every server
      record of the child: the database's records of the child are then not
      empty, and the store's map, taken from them, holds each server record. */
  lemma FirstSyncLoadsServer(local: map<Key, ItemProgress>, server: map<Key, ItemProgress>,
                             childId: string, k: Key)
    requires KeyConsistent(server) && k in server && server[k].childId == childId
    ensures var data := Fetched(server, childId, 0);
      var after := if |data| > 0 then local + data else local;
      var loaded := ChildRecords(after, childId);
      |loaded| > 0 && k in loaded && loaded[k] == server[k]
  {
    var data := Fetched(server, childId, 0);
    assert k in data;
    assert |data| > 0 by {
      assert data != map[];
    }
    var loaded := ChildRecords(local + data, childId);
    assert k in loaded;
    assert |loaded| > 0 by {
      assert loaded != map[];
    }
  }

  /** The store and the database receive the same writes, so a key on which they
      agreed before the reviews still agrees afterwards. */
  lemma SameWritesKeepAgreement(a: map<Key, ItemProgress>, b: map<Key, ItemProgress>,
                                changed: seq<ItemProgress>, k: Key)
    requires Lookup(a, k) == Lookup(b, k)
    ensures Lookup(Upserted(a, changed), k) == Lookup(Upserted(b, changed), k)
  {
    UpsertedLookup(a, changed, k);
    UpsertedLookup(b, changed, k);
  }

  /** Keys of generated child ids (`c_` and a clock reading) are unambiguous: the
      key text determines the child and the item. */
  lemma GeneratedKeysUnambiguous(a: nat, b: nat, i: string, j: string)
    requires StoreKey(ChildIdOf(a), i) == StoreKey(ChildIdOf(b), j)
    ensures a == b && i == j
  {
    var x, y := ChildIdOf(a), ChildIdOf(b);
    var s := StoreKey(x, i);
    assert s[|x|] == '_' && s[|y|] == '_';
    assert x[2..] == DecimalText(a) && y[2..] == DecimalText(b);
    assert |x| == |y|;
    assert x == s[..|x|] == y;
    DecimalTextInjective(a, b);
    assert i == s[|x| + 1..] == j;
  }

  /** For arbitrary ids the key text is ambiguous: child "a" with item "b_c"
      and child "a_b" with item "c" share a key. */
  lemma ArbitraryKeysCollide()
    ensures StoreKey("a", "b_c") == StoreKey("a_b", "c")
  {
    assert StoreKey("a", "b_c") == "a_b_c";
  }
}
