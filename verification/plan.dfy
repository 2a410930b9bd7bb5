/** The daily plan generator (`generateDailyPlan` in lib/sm2.ts). Each pool is
    shuffled by a random comparator in the source; here the caller supplies
    the resulting order as a permutation of the pool's positions. */
module Plan {
  import opened Types
  import opened Constants

  /** The tag after the clock reading in an activity id `act_<clock>_<tag>`. */
  datatype Suffix = Warmup | Photo(n: nat) | Cog(n: nat) | Fast(n: nat) | Creative

  /** An activity id: the clock reading and the tag. The clock digits contain no
      `_` and every tag starts with a letter, so distinct pairs are distinct ids. */
  datatype ActivityId = ActivityId(stamp: int, suffix: Suffix)

  /** An activity instance: its id and `templateId`, the key of the template
      whose fields it copies. */
  datatype Activity = Activity(id: ActivityId, templateId: TemplateKey)

  /** The three blocks that draw several activities, with the tags they use. */
  datatype BlockKind = PhotoBlock | CogBlock | FastBlock

  /** The order a random shuffle put each pool in: position i of the shuffled
      pool holds the template at position `photo[i]` (and so on) of the pool. */
  datatype Shuffles = Shuffles(photo: seq<nat>, cog: seq<nat>, fast: seq<nat>, creative: seq<nat>)

  /** Age at which every pool gains its harder templates. */
  const HardAge: int := 5

  /** The photographic templates every learner gets, and those pushed after them
      from the hard age on. */
  const PhotoBasic: seq<TemplateKey> := [
    MANDALA_SIMPLE, FAST_FLASH_FRUIT, DOT_TRIANGLE, SNAPSHOT_FARM, DOT_QUANTITY_5, CHUNK_NUM_2X2,
    CHUNK_LETTERS_3, VISUAL_SEARCH_LETTER, VISUAL_SEARCH_NUMBER]
  const PhotoHard: seq<TemplateKey> := [
    MANDALA_MEDIUM, DOT_STAR, SNAPSHOT_SPACE, FAST_FLASH_NUMBER, CHUNK_PHONE]

  /** The photographic pool. */
  function PhotoPool(age: int): seq<TemplateKey>
  {
    PhotoBasic + if age >= HardAge then PhotoHard else []
  }

  /** The cognitive templates every learner gets, in two rows, and those pushed
      after them from the hard age on, in two rows. */
  const CogBasicA: seq<TemplateKey> := [
    GRID_PAIRS_4, SEQUENCE_3, KIMS_GAME_3, MATRIX_2X2, COUNT_ITEMS, N_BACK_COLORS_1,
    N_BACK_SHAPES_1, INSTR_2_STEP]
  const CogBasicB: seq<TemplateKey> := [
    RECALL_BACKWARDS_3, LINK_STORY_3, PEG_RHYME_1, PEG_RHYME_2, ABACUS_FREE, ABACUS_SET_1,
    ABACUS_SET_5, ABACUS_SUB_1]
  const CogHardA: seq<TemplateKey> := [
    GRID_PAIRS_6, SEQUENCE_NUMBERS, MATRIX_3X3, N_BACK_COLORS_2, N_BACK_POS_1,
    RECALL_BACKWARDS_NUMBERS, RECALL_BACKWARDS_COLORS, INSTR_3_STEP, INSTR_SHAPES]
  const CogHardB: seq<TemplateKey> := [
    OP_SPAN_SIMPLE, DUAL_TASK_SOUND, LINK_SPACE, ABACUS_SET_SIMPLE, ABACUS_SET_DOUBLE,
    ABACUS_ADD_1, ABACUS_ADD_SIMPLE, ABACUS_MENTAL_1, ABACUS_SUB_SIMPLE]
  const CogBasic: seq<TemplateKey> := CogBasicA + CogBasicB
  const CogHard: seq<TemplateKey> := CogHardA + CogHardB

  /** The cognitive pool. */
  function CogPool(age: int): seq<TemplateKey>
  {
    CogBasic + if age >= HardAge then CogHard else []
  }

  /** The fast templates every learner gets, in two rows, and those pushed
      after them from the hard age on, in two rows. */
  const FastBasicA: seq<TemplateKey> := [
    RACE_COLORS, RACE_ANIMALS, FLUENCY_NUMS, FLUENCY_SHAPES, SORT_NATURE, REFLEX_DOT, SORT_FOOD,
    SORT_VEHICLE]
  const FastBasicB: seq<TemplateKey> := [
    EMOTION_HAPPY, RHYTHM_CLAP_1, SHELL_3, EYE_CIRCLE, FOCUS_REACTION, FOCUS_HOLD_10,
    OFFLINE_COUNT_CHAIRS, PHOTO_FIND_COLOR]
  const FastHardA: seq<TemplateKey> := [
    RACE_MATH_1, MATCH_SHADOW, FLUENCY_ALPHA, LOGIC_SEQ_SHAPE, ODD_ONE_OUT_FRUIT, STROOP_COLOR,
    EMOTION_SURPRISE]
  const FastHardB: seq<TemplateKey> := [
    RHYTHM_CLAP_2, SHELL_4, EYE_FIGURE8, CONCENTRATION_FOLLOW, FOCUS_HOLD_20, PROJECT_NATURE,
    OFFLINE_SOUND_HUNT]
  const FastBasic: seq<TemplateKey> := FastBasicA + FastBasicB
  const FastHard: seq<TemplateKey> := FastHardA + FastHardB

  /** The fast pool. */
  function FastPool(age: int): seq<TemplateKey>
  {
    FastBasic + if age >= HardAge then FastHard else []
  }

  /** The creative templates every learner gets, and those pushed after them
      from the hard age on. */
  const CreativeBasic: seq<TemplateKey> := [
    SANDBOX_RAINBOW, SANDBOX_FREE, COLLAGE_FACE, COLLAGE_ROBOT, STORY_SPACE, STORY_JUNGLE,
    MEMORY_DRAW_SHAPE, PHOTO_SELFIE, OFFLINE_TEXTURE_HUNT]
  const CreativeHard: seq<TemplateKey> := [
    COLLAGE_GARDEN, COLLAGE_LUNCH, STORY_OCEAN, STORY_CASTLE, MEMORY_DRAW_NATURE, PROJECT_FORT,
    PROJECT_TOWER]

  /** The creative pool. */
  function CreativePool(age: int): seq<TemplateKey>
  {
    CreativeBasic + if age >= HardAge then CreativeHard else []
  }

  /** `p` lists every position below n exactly once. */
  predicate IsPermutation(p: seq<nat>, n: nat)
  {
    |p| == n && (forall i :: 0 <= i < n ==> p[i] < n) && NoDuplicates(p)
  }

  /** Each supplied order is a permutation of its pool for this age. */
  predicate ValidShuffles(age: int, sh: Shuffles)
  {
    && IsPermutation(sh.photo, |PhotoPool(age)|)
    && IsPermutation(sh.cog, |CogPool(age)|)
    && IsPermutation(sh.fast, |FastPool(age)|)
    && IsPermutation(sh.creative, |CreativePool(age)|)
  }

  /** The pool in the order the shuffle left it. */
  function Shuffled(pool: seq<TemplateKey>, perm: seq<nat>): (s: seq<TemplateKey>)
    requires IsPermutation(perm, |pool|)
    ensures |s| == |pool|
    ensures forall i :: 0 <= i < |s| ==> s[i] in pool
    ensures NoDuplicates(pool) ==> NoDuplicates(s)
  {
    seq(|perm|, i requires 0 <= i < |perm| => pool[perm[i]])
  }

  /** `slice(0, n)`: the first n elements, or all of them when there are fewer. */
  function Take(s: seq<TemplateKey>, n: nat): (t: seq<TemplateKey>)
    ensures |t| == if |s| <= n then |s| else n
    ensures t == s[..|t|]
  {
    if |s| <= n then s else s[..n]
  }

  /** `addActivity`: an instance of template `t` with the id tag `suffix`. */
  function MakeActivity(stamp: int, suffix: Suffix, t: TemplateKey): Activity
  {
    Activity(ActivityId(stamp, suffix), t)
  }

  function BlockSuffix(kind: BlockKind, n: nat): Suffix
  {
    match kind
    case PhotoBlock => Photo(n)
    case CogBlock => Cog(n)
    case FastBlock => Fast(n)
  }

  /** The activities a block adds for the templates it picked, tagged with
      their positions. */
  function Block(stamp: int, kind: BlockKind, picks: seq<TemplateKey>): (b: seq<Activity>)
    ensures |b| == |picks|
    ensures forall i :: 0 <= i < |b| ==> b[i] == MakeActivity(stamp, BlockSuffix(kind, i), picks[i])
  {
    seq(|picks|, i requires 0 <= i < |picks| => MakeActivity(stamp, BlockSuffix(kind, i), picks[i]))
  }

  /** The plan built from the four shuffled pools: warm-up, the first 2
      photographic, 3 cognitive and 3 fast templates, and the first creative one. */
  function Assemble(stamp: int, photo: seq<TemplateKey>, cog: seq<TemplateKey>,
                    fast: seq<TemplateKey>, creative: seq<TemplateKey>): seq<Activity>
    requires |creative| > 0
  {
    [MakeActivity(stamp, Warmup, BREATHE)]
    + Block(stamp, PhotoBlock, Take(photo, 2))
    + Block(stamp, CogBlock, Take(cog, 3))
    + Block(stamp, FastBlock, Take(fast, 3))
    + [MakeActivity(stamp, Creative, creative[0])]
  }

  /** The plan for a learner of this age, with the pools in the shuffled orders
      `sh`. The learner's progress is not an argument: the plan does not depend
      on it. */
  function DailyPlan(age: int, stamp: int, sh: Shuffles): seq<Activity>
    requires ValidShuffles(age, sh)
  {
    Assemble(stamp, Shuffled(PhotoPool(age), sh.photo), Shuffled(CogPool(age), sh.cog),
             Shuffled(FastPool(age), sh.fast), Shuffled(CreativePool(age), sh.creative))
  }

  /** One block's `forEach`: appends an activity per picked template, in order. */
  method PushBlock(plan: seq<Activity>, stamp: int, kind: BlockKind, picks: seq<TemplateKey>)
    returns (out: seq<Activity>)
    ensures out == plan + Block(stamp, kind, picks)
  {
    out := plan;
    var i := 0;
    while i < |picks|
      invariant 0 <= i <= |picks|
      invariant out == plan + Block(stamp, kind, picks[..i])
    {
      out := out + [MakeActivity(stamp, BlockSuffix(kind, i), picks[i])];
      i := i + 1;
    }
    assert picks[..i] == picks;
  }

  /** `generateDailyPlan`. `stamp` is the clock reading the ids embed and `sh`
      the orders the shuffles produced; `progressMap` is accepted and never read. */
  method GenerateDailyPlan(child: ChildProfile, progressMap: map<Key, ItemProgress>, stamp: int, sh: Shuffles)
    returns (plan: seq<Activity>)
    requires ValidShuffles(child.age, sh)
    ensures plan == DailyPlan(child.age, stamp, sh)
  {
    plan := [MakeActivity(stamp, Warmup, BREATHE)];

    var photo := PhotoPool(child.age);
    plan := PushBlock(plan, stamp, PhotoBlock, Take(Shuffled(photo, sh.photo), 2));

    var cog := CogPool(child.age);
    plan := PushBlock(plan, stamp, CogBlock, Take(Shuffled(cog, sh.cog), 3));

    var fast := FastPool(child.age);
    plan := PushBlock(plan, stamp, FastBlock, Take(Shuffled(fast, sh.fast), 3));

    var creative := CreativePool(child.age);
    plan := plan + [MakeActivity(stamp, Creative, Shuffled(creative, sh.creative)[0])];
    PoolSizes(child.age);
  }

  /** Pool sizes: 9/14 photographic, 16/34 cognitive, 16/30 fast, 9/16 creative,
      below/from the hard age. */
  lemma PoolSizes(age: int)
    ensures |PhotoPool(age)| == if age >= HardAge then 14 else 9
    ensures |CogPool(age)| == if age >= HardAge then 34 else 16
    ensures |FastPool(age)| == if age >= HardAge then 30 else 16
    ensures |CreativePool(age)| == if age >= HardAge then 16 else 9
  {
  }

  /** Growing older only appends templates: a younger learner's pool is a
      prefix of an older one's. */
  lemma PoolsGrowWithAge(younger: int, older: int)
    requires younger <= older
    ensures PhotoPool(younger) <= PhotoPool(older) && CogPool(younger) <= CogPool(older)
    ensures FastPool(younger) <= FastPool(older) && CreativePool(younger) <= CreativePool(older)
  {
  }

  /** Joining two lists without repeats and with no element in common gives a
      list without repeats. */
  lemma DistinctAppend(a: seq<TemplateKey>, b: seq<TemplateKey>)
    requires NoDuplicates(a) && NoDuplicates(b)
    requires forall x :: x in a ==> x !in b
    ensures NoDuplicates(a + b)
  {
    var s := a + b;
    forall i, j | 0 <= i < j < |s|
      ensures s[i] != s[j]
    {
      if i < |a| <= j {
        assert s[i] == a[i] && a[i] in a;
        assert s[j] == b[j - |a|] && b[j - |a|] in b;
      }
    }
  }

  /** A pool made of a basic and a hard list, each without repeats or BREATHE and
      with none in common, has no repeats and no BREATHE. */
  lemma PoolOfChunks(basic: seq<TemplateKey>, hard: seq<TemplateKey>, age: int)
    requires NoDuplicates(basic) && NoDuplicates(hard) && (forall x :: x in basic ==> x !in hard)
    requires BREATHE !in basic && BREATHE !in hard
    ensures var pool := basic + if age >= HardAge then hard else [];
      NoDuplicates(pool) && BREATHE !in pool
  {
    if age >= HardAge {
      DistinctAppend(basic, hard);
    } else {
      assert basic + [] == basic;
    }
  }

  lemma PhotoChunks()
    ensures NoDuplicates(PhotoBasic) && BREATHE !in PhotoBasic
  {
  }

  lemma PhotoHardChunk()
    ensures NoDuplicates(PhotoHard) && BREATHE !in PhotoHard
  {
  }

  lemma PhotoChunksDisjoint()
    ensures forall x :: x in PhotoBasic ==> x !in PhotoHard
  {
  }

  lemma CogRows()
    ensures NoDuplicates(CogBasicA) && NoDuplicates(CogBasicB) && NoDuplicates(CogHardA) && NoDuplicates(CogHardB)
    ensures BREATHE !in CogBasicA && BREATHE !in CogBasicB && BREATHE !in CogHardA && BREATHE !in CogHardB
  {
  }

  lemma CogRowsApart1()
    ensures forall x :: x in CogBasicA ==> x !in CogBasicB && x !in CogHardA
  {
  }

  lemma CogRowsApart2()
    ensures forall x :: x in CogBasicA ==> x !in CogHardB
    ensures forall x :: x in CogBasicB ==> x !in CogHardA
  {
  }

  lemma CogRowsApart3()
    ensures forall x :: x in CogBasicB ==> x !in CogHardB
    ensures forall x :: x in CogHardA ==> x !in CogHardB
  {
  }

  lemma FastRows()
    ensures NoDuplicates(FastBasicA) && NoDuplicates(FastBasicB) && NoDuplicates(FastHardA) && NoDuplicates(FastHardB)
    ensures BREATHE !in FastBasicA && BREATHE !in FastBasicB && BREATHE !in FastHardA && BREATHE !in FastHardB
  {
  }

  lemma FastRowsApart1()
    ensures forall x :: x in FastBasicA ==> x !in FastBasicB && x !in FastHardA
  {
  }

  lemma FastRowsApart2()
    ensures forall x :: x in FastBasicA ==> x !in FastHardB
    ensures forall x :: x in FastBasicB ==> x !in FastHardA
  {
  }

  lemma FastRowsApart3()
    ensures forall x :: x in FastBasicB ==> x !in FastHardB
    ensures forall x :: x in FastHardA ==> x !in FastHardB
  {
  }

  lemma CreativeChunks()
    ensures NoDuplicates(CreativeBasic) && BREATHE !in CreativeBasic
  {
  }

  lemma CreativeHardChunk()
    ensures NoDuplicates(CreativeHard) && BREATHE !in CreativeHard
  {
  }

  lemma CreativeChunksDisjoint()
    ensures forall x :: x in CreativeBasic ==> x !in CreativeHard
  {
  }

  /** No pool lists a template twice, and none lists the warm-up BREATHE. */
  lemma PhotoPoolDistinct(age: int)
    ensures NoDuplicates(PhotoPool(age)) && BREATHE !in PhotoPool(age)
  {
    PhotoChunks();
    PhotoHardChunk();
    PhotoChunksDisjoint();
    PoolOfChunks(PhotoBasic, PhotoHard, age);
  }

  lemma CogPoolDistinct(age: int)
    ensures NoDuplicates(CogPool(age)) && BREATHE !in CogPool(age)
  {
    CogRows();
    CogRowsApart1();
    CogRowsApart2();
    CogRowsApart3();
    DistinctAppend(CogBasicA, CogBasicB);
    DistinctAppend(CogHardA, CogHardB);
    PoolOfChunks(CogBasic, CogHard, age);
  }

  lemma FastPoolDistinct(age: int)
    ensures NoDuplicates(FastPool(age)) && BREATHE !in FastPool(age)
  {
    FastRows();
    FastRowsApart1();
    FastRowsApart2();
    FastRowsApart3();
    DistinctAppend(FastBasicA, FastBasicB);
    DistinctAppend(FastHardA, FastHardB);
    PoolOfChunks(FastBasic, FastHard, age);
  }

  lemma CreativePoolDistinct(age: int)
    ensures NoDuplicates(CreativePool(age)) && BREATHE !in CreativePool(age)
  {
    CreativeChunks();
    CreativeHardChunk();
    CreativeChunksDisjoint();
    PoolOfChunks(CreativeBasic, CreativeHard, age);
  }

  /** Assembling from orders without repeats, none containing BREATHE and each
      long enough: ten activities in block order, the ids pairwise distinct,
      the templates of each block distinct and taken from the block's order in
      sequence, and only the warm-up being BREATHE. */
  lemma AssembleStructure(stamp: int, photo: seq<TemplateKey>, cog: seq<TemplateKey>,
                          fast: seq<TemplateKey>, creative: seq<TemplateKey>)
    requires |photo| >= 2 && |cog| >= 3 && |fast| >= 3 && |creative| >= 1
    requires NoDuplicates(photo) && NoDuplicates(cog) && NoDuplicates(fast)
    requires BREATHE !in photo && BREATHE !in cog && BREATHE !in fast && BREATHE !in creative
    ensures var p := Assemble(stamp, photo, cog, fast, creative);
      && |p| == 10
      && p[0] == MakeActivity(stamp, Warmup, BREATHE)
      && (forall i :: 1 <= i < 3 ==> p[i] == MakeActivity(stamp, Photo(i - 1), photo[i - 1]))
      && (forall i :: 3 <= i < 6 ==> p[i] == MakeActivity(stamp, Cog(i - 3), cog[i - 3]))
      && (forall i :: 6 <= i < 9 ==> p[i] == MakeActivity(stamp, Fast(i - 6), fast[i - 6]))
      && p[9] == MakeActivity(stamp, Creative, creative[0])
      && (forall i, j :: 0 <= i < j < 10 ==> p[i].id != p[j].id)
      && (forall i :: 1 <= i < 10 ==> p[i].templateId != BREATHE)
      && p[1].templateId != p[2].templateId
      && (forall i, j :: 3 <= i < j < 6 ==> p[i].templateId != p[j].templateId)
      && (forall i, j :: 6 <= i < j < 9 ==> p[i].templateId != p[j].templateId)
  {
    var p := Assemble(stamp, photo, cog, fast, creative);
    forall i | 1 <= i < 10
      ensures p[i].templateId != BREATHE
    {
      if i < 3 { assert p[i].templateId == photo[i - 1]; }
      else if i < 6 { assert p[i].templateId == cog[i - 3]; }
      else if i < 9 { assert p[i].templateId == fast[i - 6]; }
    }
  }

  /** The plan has ten activities in block order: BREATHE, then 2 photographic,
      3 cognitive, 3 fast and 1 creative activity. All ids share the clock
      reading and are pairwise distinct. */
  lemma PlanLayout(age: int, stamp: int, sh: Shuffles)
    requires ValidShuffles(age, sh)
    ensures var p := DailyPlan(age, stamp, sh);
      && |p| == 10
      && p[0] == MakeActivity(stamp, Warmup, BREATHE)
      && (forall i :: 1 <= i < 3 ==> p[i].id.suffix == Photo(i - 1))
      && (forall i :: 3 <= i < 6 ==> p[i].id.suffix == Cog(i - 3))
      && (forall i :: 6 <= i < 9 ==> p[i].id.suffix == Fast(i - 6))
      && p[9].id.suffix == Creative
      && (forall i :: 0 <= i < 10 ==> p[i].id.stamp == stamp)
      && (forall i, j :: 0 <= i < j < 10 ==> p[i].id != p[j].id)
  {
    PlanFacts(age, stamp, sh);
    AssembleStructure(stamp, Shuffled(PhotoPool(age), sh.photo), Shuffled(CogPool(age), sh.cog),
                      Shuffled(FastPool(age), sh.fast), Shuffled(CreativePool(age), sh.creative));
  }

  /** Each activity of the plan takes its template from its block's pool for
      this age; no block repeats a template and only the warm-up is BREATHE. */
  lemma PlanTemplates(age: int, stamp: int, sh: Shuffles)
    requires ValidShuffles(age, sh)
    ensures var p := DailyPlan(age, stamp, sh);
      && |p| == 10
      && (forall i :: 1 <= i < 3 ==> p[i].templateId in PhotoPool(age))
      && (forall i :: 3 <= i < 6 ==> p[i].templateId in CogPool(age))
      && (forall i :: 6 <= i < 9 ==> p[i].templateId in FastPool(age))
      && p[9].templateId in CreativePool(age)
      && (forall i :: 1 <= i < 10 ==> p[i].templateId != BREATHE)
      && p[1].templateId != p[2].templateId
      && (forall i, j :: 3 <= i < j < 6 ==> p[i].templateId != p[j].templateId)
      && (forall i, j :: 6 <= i < j < 9 ==> p[i].templateId != p[j].templateId)
  {
    PlanFacts(age, stamp, sh);
    AssembleStructure(stamp, Shuffled(PhotoPool(age), sh.photo), Shuffled(CogPool(age), sh.cog),
                      Shuffled(FastPool(age), sh.fast), Shuffled(CreativePool(age), sh.creative));
    AssembleDrawsFrom(stamp, Shuffled(PhotoPool(age), sh.photo), Shuffled(CogPool(age), sh.cog),
                      Shuffled(FastPool(age), sh.fast), Shuffled(CreativePool(age), sh.creative),
                      PhotoPool(age), CogPool(age), FastPool(age), CreativePool(age));
  }

  /** A plan assembled from orders drawn from pools takes each block's
      templates from that block's pool. */
  lemma AssembleDrawsFrom(stamp: int, photo: seq<TemplateKey>, cog: seq<TemplateKey>,
                          fast: seq<TemplateKey>, creative: seq<TemplateKey>,
                          photoPool: seq<TemplateKey>, cogPool: seq<TemplateKey>,
                          fastPool: seq<TemplateKey>, creativePool: seq<TemplateKey>)
    requires |photo| >= 2 && |cog| >= 3 && |fast| >= 3 && |creative| >= 1
    requires forall i :: 0 <= i < |photo| ==> photo[i] in photoPool
    requires forall i :: 0 <= i < |cog| ==> cog[i] in cogPool
    requires forall i :: 0 <= i < |fast| ==> fast[i] in fastPool
    requires forall i :: 0 <= i < |creative| ==> creative[i] in creativePool
    ensures var p := Assemble(stamp, photo, cog, fast, creative);
      && |p| == 10
      && (forall i :: 1 <= i < 3 ==> p[i].templateId in photoPool)
      && (forall i :: 3 <= i < 6 ==> p[i].templateId in cogPool)
      && (forall i :: 6 <= i < 9 ==> p[i].templateId in fastPool)
      && p[9].templateId in creativePool
  {
    var p := Assemble(stamp, photo, cog, fast, creative);
    forall i | 1 <= i < 9
      ensures 1 <= i < 3 ==> p[i].templateId in photoPool
      ensures 3 <= i < 6 ==> p[i].templateId in cogPool
      ensures 6 <= i < 9 ==> p[i].templateId in fastPool
    {
      if i < 3 { assert p[i].templateId == photo[i - 1]; }
      else if i < 6 { assert p[i].templateId == cog[i - 3]; }
      else { assert p[i].templateId == fast[i - 6]; }
    }
  }

  /** The facts both lemmas above read off: the plan is `Assemble` of the
      shuffled pools, which are long enough, repeat nothing and hold no BREATHE. */
  lemma PlanFacts(age: int, stamp: int, sh: Shuffles)
    requires ValidShuffles(age, sh)
    ensures var photo, cog := Shuffled(PhotoPool(age), sh.photo), Shuffled(CogPool(age), sh.cog);
      var fast, creative := Shuffled(FastPool(age), sh.fast), Shuffled(CreativePool(age), sh.creative);
      && |photo| >= 2 && |cog| >= 3 && |fast| >= 3 && |creative| >= 1
      && NoDuplicates(photo) && NoDuplicates(cog) && NoDuplicates(fast)
      && BREATHE !in photo && BREATHE !in cog && BREATHE !in fast && BREATHE !in creative
      && DailyPlan(age, stamp, sh) == Assemble(stamp, photo, cog, fast, creative)
  {
    PoolSizes(age);
    PhotoPoolDistinct(age);
    CogPoolDistinct(age);
    FastPoolDistinct(age);
    CreativePoolDistinct(age);
  }
}
