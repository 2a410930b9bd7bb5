/** The data tables of constants.ts that the engine reads: the trophy table
    with its unlock conditions, the keys of the activity-template table, and
    `getRandomActivity`. A template is identified by its key; the template's
    own content (type, title, description, duration, config) is not modelled. */
module Constants {
  import opened Types

  /** The keys of ACTIVITY_TEMPLATES, in table order, one constructor per
      template object. A template object is represented by its key. */
  datatype TemplateKey =
    FLASH_ANIMALS | FLASH_COLORS | FLASH_NUMBERS | GRID_PAIRS_4 | GRID_PAIRS_6 | SEQUENCE_3
    | SEQUENCE_NUMBERS | KIMS_GAME_3 | KIMS_GAME_5 | MATRIX_2X2 | MATRIX_3X3 | COUNT_ITEMS
    | DRAW | BREATHE | MANDALA_SIMPLE | MANDALA_MEDIUM | MANDALA_HARD | DOT_TRIANGLE |
    DOT_SQUARE | DOT_STAR | DOT_ZIGZAG | SNAPSHOT_FARM | SNAPSHOT_ZOO | SNAPSHOT_SPACE |
    SNAPSHOT_BEACH | FAST_FLASH_FRUIT | FAST_FLASH_NUMBER | DOT_QUANTITY_5 |
    DOT_QUANTITY_10 | RACE_COLORS | RACE_ANIMALS | RACE_MATH_1 | RACE_LOGIC_BIG |
    FLUENCY_NUMS | FLUENCY_SHAPES | MATCH_SHADOW | SORT_NATURE | SORT_COLOR_BIN |
    REFLEX_DOT | FLUENCY_ALPHA | RACE_MATH_COMPARE | N_BACK_COLORS_1 | N_BACK_SHAPES_1 |
    N_BACK_POS_1 | N_BACK_COLORS_2 | RECALL_BACKWARDS_3 | RECALL_BACKWARDS_NUMBERS |
    RECALL_BACKWARDS_COLORS | INSTR_2_STEP | INSTR_3_STEP | INSTR_SHAPES | CHUNK_NUM_2X2 |
    CHUNK_LETTERS_3 | CHUNK_PHONE | LINK_STORY_3 | LINK_SPACE | PEG_RHYME_1 | PEG_RHYME_2 |
    LOGIC_SEQ_SHAPE | ODD_ONE_OUT_FRUIT | STROOP_COLOR | VISUAL_SEARCH_LETTER |
    VISUAL_SEARCH_NUMBER | OP_SPAN_SIMPLE | DUAL_TASK_SOUND | EMOTION_HAPPY |
    EMOTION_SURPRISE | SORT_FOOD | SORT_VEHICLE | ABACUS_FREE | ABACUS_SET_1 | ABACUS_SET_5
    | ABACUS_SET_SIMPLE | ABACUS_SET_DOUBLE | ABACUS_ADD_1 | ABACUS_ADD_SIMPLE |
    ABACUS_MENTAL_1 | ABACUS_SUB_1 | ABACUS_SUB_SIMPLE | RHYTHM_CLAP_1 | RHYTHM_CLAP_2 |
    SHELL_3 | SHELL_4 | EYE_CIRCLE | EYE_FIGURE8 | FOCUS_REACTION | FOCUS_HOLD_10 |
    FOCUS_HOLD_20 | CONCENTRATION_FOLLOW | STORY_SPACE | STORY_JUNGLE | STORY_OCEAN |
    STORY_CASTLE | COLLAGE_ROBOT | COLLAGE_FACE | COLLAGE_GARDEN | COLLAGE_LUNCH |
    SANDBOX_RAINBOW | SANDBOX_FREE | MEMORY_DRAW_SHAPE | MEMORY_DRAW_NATURE |
    PHOTO_FIND_COLOR | PHOTO_FIND_SHAPE | PHOTO_SELFIE | PROJECT_FORT | PROJECT_NATURE |
    PROJECT_TOWER | OFFLINE_COUNT_CHAIRS | OFFLINE_TEXTURE_HUNT | OFFLINE_SOUND_HUNT

  /** `getRandomActivity`: ignores the age and returns FLASH_ANIMALS. */
  function GetRandomActivity(age: int): (t: TemplateKey)
    ensures t == FLASH_ANIMALS
  {
    FLASH_ANIMALS
  }

  /** TROPHIES, in table order. */
  const Trophies: seq<TrophyId> := [FirstSteps, Streak3, Streak7, StarCollector, SuperStar, NightOwl]

  /** The unlock condition of a trophy; `hour` is the current local hour, the
      only thing NIGHT_OWL looks at. */
  function TrophyCondition(t: TrophyId, c: ChildProfile, hour: int): bool
  {
    match t
    case FirstSteps => c.stars > 0
    case Streak3 => c.streak >= 3
    case Streak7 => c.streak >= 7
    case StarCollector => c.stars >= 100
    case SuperStar => c.stars >= 500
    case NightOwl => hour >= 18
  }

  /** The trophy table lists every trophy exactly once. */
  lemma TrophyTableComplete(t: TrophyId)
    ensures t in Trophies && NoDuplicates(Trophies)
  {
  }

  /** The stronger trophies imply the weaker ones, and NIGHT_OWL depends on the
      hour alone. */
  lemma TrophyConditionsNest(c: ChildProfile, d: ChildProfile, hour: int)
    ensures TrophyCondition(Streak7, c, hour) ==> TrophyCondition(Streak3, c, hour)
    ensures TrophyCondition(SuperStar, c, hour) ==> TrophyCondition(StarCollector, c, hour)
    ensures TrophyCondition(StarCollector, c, hour) ==> TrophyCondition(FirstSteps, c, hour)
    ensures TrophyCondition(NightOwl, c, hour) == TrophyCondition(NightOwl, d, hour)
    ensures TrophyCondition(NightOwl, c, hour) <==> hour >= 18
  {
  }
}
