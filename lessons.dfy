/**
 * The Scribe School curriculum (`src/lib/data/lessons.ts`): twelve lessons
 * that lead from the four wedge strokes to whole signs, each unlocked by
 * finishing the one before, and the lookups the scribe store uses.
 *
 * The lookups take the lesson list as a parameter; the site always passes
 * `LESSONS`, about which the data lemmas at the end are stated.
 */
module Lessons {
  import opened Seqs
  import opened Text

  datatype Difficulty = Beginner | Intermediate | Advanced

  datatype StepType = Demo | Practice | Quiz

  /** A step of a lesson; its instruction, hints and stroke targets are prose and drawings the model leaves out. */
  datatype LessonStep = LessonStep(kind: StepType, targetSign: Option<string>)

  /** A lesson; its description and historical context are prose the model leaves out. */
  datatype Lesson = Lesson(
    id: string,
    title: string,
    steps: seq<LessonStep>,
    prerequisite: Option<string>,
    signs: seq<string>,
    difficulty: Difficulty)

  /** Level 1, wedge fundamentals, and the first signs. */
  const FIRST_LESSONS: seq<Lesson> := [
    // src/lib/data/lessons.ts lines 10-38
    Lesson(
      "wedge-horizontal", "The Horizontal Wedge",
      [ LessonStep(Demo, None),
        LessonStep(Practice, None),
        LessonStep(Practice, None),
        LessonStep(Practice, None) ],
      None, [], Beginner),
    // src/lib/data/lessons.ts lines 39-67
    Lesson(
      "wedge-vertical", "The Vertical Wedge",
      [ LessonStep(Demo, None),
        LessonStep(Practice, None),
        LessonStep(Practice, Some("U+120A0")),
        LessonStep(Practice, None) ],
      Some("wedge-horizontal"), ["U+120A0"], Beginner),
    // src/lib/data/lessons.ts lines 68-96
    Lesson(
      "wedge-oblique", "The Oblique Wedge",
      [ LessonStep(Demo, None),
        LessonStep(Practice, None),
        LessonStep(Practice, None),
        LessonStep(Practice, Some("U+1202D")) ],
      Some("wedge-vertical"), [], Beginner),
    // src/lib/data/lessons.ts lines 97-120
    Lesson(
      "wedge-winkelhaken", "The Winkelhaken",
      [ LessonStep(Demo, None),
        LessonStep(Practice, None),
        LessonStep(Practice, Some("U+12000")) ],
      Some("wedge-oblique"), ["U+12000"], Beginner),
    // src/lib/data/lessons.ts lines 123-149
    Lesson(
      "sign-an", "AN \U{2014} Sky and Divinity",
      [ LessonStep(Demo, Some("U+1202D")),
        LessonStep(Practice, Some("U+1202D")),
        LessonStep(Practice, Some("U+1202D")) ],
      Some("wedge-winkelhaken"), ["U+1202D"], Beginner),
    // src/lib/data/lessons.ts lines 150-175
    Lesson(
      "sign-ba", "BA \U{2014} To Give",
      [ LessonStep(Demo, Some("U+12040")),
        LessonStep(Practice, Some("U+12040")),
        LessonStep(Practice, Some("U+12040")) ],
      Some("sign-an"), ["U+12040"], Beginner)
  ]

  /** The remaining signs, intermediate and advanced. */
  const LATER_LESSONS: seq<Lesson> := [
    // src/lib/data/lessons.ts lines 176-196
    Lesson(
      "sign-e", "E \U{2014} House and Temple",
      [ LessonStep(Demo, Some("U+1208D")),
        LessonStep(Practice, Some("U+1208D")) ],
      Some("sign-ba"), ["U+1208D"], Beginner),
    // src/lib/data/lessons.ts lines 199-225
    Lesson(
      "sign-lugal", "LUGAL \U{2014} King",
      [ LessonStep(Demo, Some("U+12217")),
        LessonStep(Practice, Some("U+12217")),
        LessonStep(Practice, Some("U+12217")) ],
      Some("sign-e"), ["U+12217"], Intermediate),
    // src/lib/data/lessons.ts lines 226-251
    Lesson(
      "sign-dingir", "DINGIR \U{2014} God",
      [ LessonStep(Demo, Some("U+1202D")),
        LessonStep(Practice, Some("U+1202D")),
        LessonStep(Practice, None) ],
      Some("sign-lugal"), ["U+1202D"], Intermediate),
    // src/lib/data/lessons.ts lines 252-276
    Lesson(
      "sign-ki", "KI \U{2014} Earth and Place",
      [ LessonStep(Demo, Some("U+12197")),
        LessonStep(Practice, Some("U+12197")),
        LessonStep(Practice, None) ],
      Some("sign-dingir"), ["U+12197"], Intermediate),
    // src/lib/data/lessons.ts lines 279-300
    Lesson(
      "sign-shar", "SHAR \U{2014} Garden and Universe",
      [ LessonStep(Demo, Some("U+122AC")),
        LessonStep(Practice, Some("U+122AC")) ],
      Some("sign-ki"), ["U+122AC"], Advanced),
    // src/lib/data/lessons.ts lines 301-326
    Lesson(
      "sign-ud", "UD \U{2014} Sun and Day",
      [ LessonStep(Demo, Some("U+12312")),
        LessonStep(Practice, Some("U+12312")),
        LessonStep(Practice, Some("U+12312")) ],
      Some("sign-shar"), ["U+12312"], Advanced)
  ]


  /** The curriculum, in teaching order. It is split in two to keep indexing into the literal shallow. */
  const LESSONS: seq<Lesson> := FIRST_LESSONS + LATER_LESSONS

  // ---------------------------------------------------------------------
  // Lookups
  // ---------------------------------------------------------------------

  function IdIs(id: string): Lesson -> bool
  {
    (l: Lesson) => l.id == id
  }

  /** `getLessonById`: the first lesson with the id, or none. */
  function GetLessonById(lessons: seq<Lesson>, id: string): (r: Option<Lesson>)
    ensures r.None? <==> forall j :: 0 <= j < |lessons| ==> lessons[j].id != id
    ensures r.Some? ==> r.value.id == id && r.value in lessons
  {
    Find(lessons, IdIs(id))
  }

  function DifficultyIs(d: Difficulty): Lesson -> bool
  {
    (l: Lesson) => l.difficulty == d
  }

  /** `getLessonsByDifficulty`: the lessons of one difficulty, in curriculum order. */
  function GetLessonsByDifficulty(lessons: seq<Lesson>, d: Difficulty): (r: seq<Lesson>)
    ensures forall i :: 0 <= i < |r| ==> r[i].difficulty == d
  {
    Filter(lessons, DifficultyIs(d))
  }

  /** Every lesson of the difficulty is returned, and the three difficulties split the curriculum. */
  lemma GetLessonsByDifficultySpec(lessons: seq<Lesson>, d: Difficulty, l: Lesson)
    ensures l in GetLessonsByDifficulty(lessons, d) <==> l in lessons && l.difficulty == d
    ensures |GetLessonsByDifficulty(lessons, Beginner)| + |GetLessonsByDifficulty(lessons, Intermediate)|
      + |GetLessonsByDifficulty(lessons, Advanced)| == |lessons|
  {
    FilterMembers(lessons, DifficultyIs(d), l);
    DifficultiesPartition(lessons);
  }

  lemma {:induction false} DifficultiesPartition(lessons: seq<Lesson>)
    ensures |GetLessonsByDifficulty(lessons, Beginner)| + |GetLessonsByDifficulty(lessons, Intermediate)|
      + |GetLessonsByDifficulty(lessons, Advanced)| == |lessons|
  {
    if |lessons| > 0 {
      DifficultiesPartition(lessons[1..]);
    }
  }

  /**
   * `getNextLesson`: the lesson after the first one with the id; none when
   * the id is unknown or names the last lesson.
   */
  function GetNextLesson(lessons: seq<Lesson>, currentId: string): (r: Option<Lesson>)
    ensures (forall j :: 0 <= j < |lessons| ==> lessons[j].id != currentId) ==> r.None?
    ensures forall i :: FirstWith(lessons, IdIs(currentId), i) ==>
      r == if i + 1 < |lessons| then Some(lessons[i + 1]) else None
  {
    match FindIndex(lessons, IdIs(currentId))
    case None => None
    case Some(index) => if index == |lessons| - 1 then None else Some(lessons[index + 1])
  }

  /** Whether the prerequisite `p` (`lesson.prerequisite`) is met: a missing or empty one always is. */
  predicate PrerequisiteMet(p: Option<string>, completed: set<string>)
  {
    p.None? || p.value == "" || p.value in completed
  }

  /**
   * `canStartLesson`: an unknown lesson cannot be started; a known one can
   * when it has no prerequisite or its prerequisite has been completed.
   */
  function CanStartLesson(lessons: seq<Lesson>, lessonId: string, completed: set<string>): (r: bool)
    ensures r <==> exists i :: FirstWith(lessons, IdIs(lessonId), i) && PrerequisiteMet(lessons[i].prerequisite, completed)
  {
    match GetLessonById(lessons, lessonId)
    case None => false
    case Some(lesson) =>
      if lesson.prerequisite.None? || lesson.prerequisite.value == "" then true
      else lesson.prerequisite.value in completed
  }

  /** Completing more lessons never locks a lesson that was open. */
  lemma CanStartLessonMonotone(lessons: seq<Lesson>, lessonId: string, completed: set<string>, more: set<string>)
    requires completed <= more
    requires CanStartLesson(lessons, lessonId, completed)
    ensures CanStartLesson(lessons, lessonId, more)
  {
  }

  /** `getTotalLessonCount`. */
  function GetTotalLessonCount(): (n: nat)
    ensures n == |LESSONS|
  {
    |LESSONS|
  }

  // ---------------------------------------------------------------------
  // Facts about the curriculum
  // ---------------------------------------------------------------------

  /** No two lessons share an id. */
  predicate DistinctIds(lessons: seq<Lesson>)
  {
    forall i, j :: 0 <= i < j < |lessons| ==> lessons[i].id != lessons[j].id
  }

  /** With distinct ids, the lesson at `i` is the first with its id. */
  lemma FirstWithId(lessons: seq<Lesson>, i: int)
    requires DistinctIds(lessons) && 0 <= i < |lessons|
    ensures FirstWith(lessons, IdIs(lessons[i].id), i)
  {
  }

  /**
   * Each lesson unlocks the next: the first has no prerequisite and every
   * later one requires the lesson just before it.
   */
  predicate Chained(lessons: seq<Lesson>)
  {
    |lessons| > 0 && lessons[0].prerequisite.None? &&
    forall i :: 0 < i < |lessons| ==> lessons[i].prerequisite == Some(lessons[i - 1].id)
  }

  /** The curriculum's shape, as the site's unit tests state it: twelve lessons with distinct ids, each with at least one step, each unlocked by the one before. */
  lemma LessonsWellFormed()
    ensures |LESSONS| == 12
    ensures DistinctIds(LESSONS)
    ensures forall i :: 0 <= i < |LESSONS| ==> LESSONS[i].id != ""
    ensures Chained(LESSONS)
    ensures forall i :: 0 <= i < |LESSONS| ==> |LESSONS[i].steps| > 0
  {
    LessonIdsDistinct();
    LessonsChained();
    LessonStepsPresent();
  }

  lemma LessonIdsDistinct()
    ensures DistinctIds(LESSONS)
    ensures forall i :: 0 <= i < |LESSONS| ==> LESSONS[i].id != ""
  {
  }

  lemma LessonsChained()
    ensures Chained(LESSONS)
  {
  }

  lemma LessonStepsPresent()
    ensures forall i :: 0 <= i < |LESSONS| ==> |LESSONS[i].steps| > 0
  {
  }

  /**
   * In a chained curriculum with distinct ids, the lookups follow the
   * teaching order: lesson `i` opens exactly when lesson `i - 1` is done,
   * the next lesson after `i` is `i + 1`, and every prerequisite names an
   * earlier lesson.
   */
  lemma {:induction false} ChainedLookups(lessons: seq<Lesson>, i: int, completed: set<string>)
    requires DistinctIds(lessons) && Chained(lessons) && 0 <= i < |lessons|
    requires forall j :: 0 <= j < |lessons| ==> lessons[j].id != ""
    ensures GetLessonById(lessons, lessons[i].id) == Some(lessons[i])
    ensures CanStartLesson(lessons, lessons[i].id, completed) <==> i == 0 || lessons[i - 1].id in completed
    ensures GetNextLesson(lessons, lessons[i].id) == if i + 1 < |lessons| then Some(lessons[i + 1]) else None
    ensures lessons[i].prerequisite.Some? ==> exists j :: 0 <= j < i && lessons[j].id == lessons[i].prerequisite.value
  {
    FirstWithId(lessons, i);
    FindAt(lessons, IdIs(lessons[i].id), i);
  }

  /** `getLessonById` on the curriculum, as the site's tests use it. */
  lemma LessonLookups()
    ensures GetLessonById(LESSONS, "wedge-horizontal").Some?
    ensures GetLessonById(LESSONS, "wedge-horizontal").value.title == "The Horizontal Wedge"
    ensures GetLessonById(LESSONS, "non-existent").None?
    ensures GetNextLesson(LESSONS, "wedge-horizontal") == Some(LESSONS[1])
    ensures GetNextLesson(LESSONS, "sign-ud").None?
  {
    FirstLessonLookups();
    LastLessonLookups();
    MissingLessonLookup();
  }

  lemma FirstLessonLookups()
    ensures GetLessonById(LESSONS, "wedge-horizontal") == Some(LESSONS[0])
    ensures GetNextLesson(LESSONS, "wedge-horizontal") == Some(LESSONS[1])
  {
    LessonsWellFormed();
    ChainedLookups(LESSONS, 0, {});
  }

  lemma LastLessonLookups()
    ensures GetNextLesson(LESSONS, "sign-ud").None?
  {
    LessonsWellFormed();
    ChainedLookups(LESSONS, 11, {});
  }

  lemma MissingLessonLookup()
    ensures GetLessonById(LESSONS, "non-existent").None?
  {
  }
}
