/**
 * The Scribe School (learn mode) state, `src/lib/stores/scribe.svelte.ts`:
 * which lessons are done, the lesson and step in progress, the drawing
 * canvas with its undo history, and the last few drawing attempts.
 *
 * Svelte's `$derived` values become functions of the fields. `Date.now()`
 * is the parameter `now`, and saving to or loading from `localStorage` is
 * left out (loading goes through `LoadProgress`, saving through
 * `ExportProgress`).
 */
module ScribeState {
  import opened Seqs
  import opened Collections
  import opened Signs
  import opened Lessons

  /** One wedge drawn on the canvas, positions and length normalised to [0, 1]. */
  datatype Stroke = Stroke(kind: WedgeType, startX: real, startY: real, angle: real, length: real)

  datatype DrawingAttempt = DrawingAttempt(strokes: seq<Stroke>, target: seq<Stroke>, score: real, timestamp: int)

  datatype LessonProgress = LessonProgress(
    lessonId: string,
    completedSteps: int,
    totalSteps: int,
    completed: bool,
    lastActivity: int)

  /** What `exportProgress` returns and `loadProgress` takes: the completed ids and the progress entries. */
  datatype ProgressData = ProgressData(completed: seq<string>, progress: seq<(string, LessonProgress)>)

  /** How many drawing attempts are kept. */
  const MAX_ATTEMPTS := 10

  /** `[...attempts.slice(-9), attempt]`: the newest attempt after at most nine before it. */
  function Recorded(attempts: seq<DrawingAttempt>, attempt: DrawingAttempt): (r: seq<DrawingAttempt>)
    ensures |r| == Min(|attempts| + 1, MAX_ATTEMPTS)
    ensures r[|r| - 1] == attempt
    ensures r[..|r| - 1] == attempts[|attempts| - (|r| - 1)..]
  {
    var kept := if |attempts| <= MAX_ATTEMPTS - 1 then attempts else attempts[|attempts| - (MAX_ATTEMPTS - 1)..];
    assert (kept + [attempt])[..|kept|] == kept;
    kept + [attempt]
  }

  /** The attempts kept after recording each of `attempts` in turn, starting with none. */
  function RecordAll(attempts: seq<DrawingAttempt>): seq<DrawingAttempt>
  {
    if |attempts| == 0 then [] else Recorded(RecordAll(attempts[..|attempts| - 1]), attempts[|attempts| - 1])
  }

  /** The ten most recent attempts of `attempts`, oldest first. */
  function Latest(attempts: seq<DrawingAttempt>): (r: seq<DrawingAttempt>)
    ensures |r| == Min(|attempts|, MAX_ATTEMPTS)
  {
    attempts[|attempts| - Min(|attempts|, MAX_ATTEMPTS)..]
  }

  /** Whatever the history, the store keeps exactly the ten most recent attempts, oldest first. */
  lemma {:induction false} RecordAllKeepsLatest(attempts: seq<DrawingAttempt>)
    ensures RecordAll(attempts) == Latest(attempts)
  {
    if |attempts| > 0 {
      var init, last := attempts[..|attempts| - 1], attempts[|attempts| - 1];
      RecordAllKeepsLatest(init);
      assert RecordAll(attempts) == Recorded(RecordAll(init), last);
      RecordLatest(init, last);
      LastSplit(attempts);
    }
  }

  /** Recording one more attempt after the latest ten of a history gives the latest ten of the longer history. */
  lemma RecordLatest(init: seq<DrawingAttempt>, last: DrawingAttempt)
    ensures Recorded(Latest(init), last) == Latest(init + [last])
  {
    var prev := Latest(init);
    var r := Recorded(prev, last);
    var all := init + [last];
    var n := |r|;
    assert n == |Latest(all)|;
    assert r[..n - 1] == prev[|prev| - (n - 1)..];
    SuffixOfSuffix(init, |prev|, n - 1);
    assert r[..n - 1] == init[|init| - (n - 1)..];
    assert Latest(all) == init[|init| - (n - 1)..] + [last];
    assert r == r[..n - 1] + [last];
  }

  /** The last `k` elements of the last `m` elements are the last `k`. */
  lemma SuffixOfSuffix<T>(s: seq<T>, m: nat, k: nat)
    requires k <= m <= |s|
    ensures s[|s| - m..][m - k..] == s[|s| - k..]
  {
  }

  /** `lesson => canStartLesson(lesson.id, completed)`. */
  function Startable(lessons: seq<Lesson>, completed: set<string>): Lesson -> bool
  {
    (l: Lesson) => CanStartLesson(lessons, l.id, completed)
  }

  /** The ids of a list of lessons, as a set. */
  function IdSet(lessons: seq<Lesson>): set<string>
  {
    set l | l in lessons :: l.id
  }

  /**
   * In a chained curriculum, finishing the first `k` lessons opens exactly
   * the first `k + 1`: lessons unlock one at a time, in order.
   */
  lemma UnlockInOrder(lessons: seq<Lesson>, k: nat)
    requires DistinctIds(lessons) && Chained(lessons) && k < |lessons|
    requires forall j :: 0 <= j < |lessons| ==> lessons[j].id != ""
    ensures Filter(lessons, Startable(lessons, IdSet(lessons[..k]))) == lessons[..k + 1]
  {
    var p := Startable(lessons, IdSet(lessons[..k]));
    var front, back := lessons[..k + 1], lessons[k + 1..];
    UnlockedFront(lessons, k, front);
    LockedBack(lessons, k, back);
    SliceSplit(lessons, k + 1);
    FilterAppend(front, back, p);
    FilterAll(front, p);
    FilterNone(back, p);
  }

  lemma UnlockedFront(lessons: seq<Lesson>, k: nat, front: seq<Lesson>)
    requires DistinctIds(lessons) && Chained(lessons) && k < |lessons|
    requires forall j :: 0 <= j < |lessons| ==> lessons[j].id != ""
    requires front == lessons[..k + 1]
    ensures forall i :: 0 <= i < |front| ==> Startable(lessons, IdSet(lessons[..k]))(front[i])
  {
    forall i | 0 <= i < |front|
      ensures Startable(lessons, IdSet(lessons[..k]))(front[i])
    {
      var done := IdSet(lessons[..k]);
      assert front[i] == lessons[i];
      UnlockedAt(lessons, k, i);
      assert Startable(lessons, done)(front[i]) == CanStartLesson(lessons, front[i].id, done);
    }
  }

  lemma LockedBack(lessons: seq<Lesson>, k: nat, back: seq<Lesson>)
    requires DistinctIds(lessons) && Chained(lessons) && k < |lessons|
    requires forall j :: 0 <= j < |lessons| ==> lessons[j].id != ""
    requires back == lessons[k + 1..]
    ensures forall i :: 0 <= i < |back| ==> !Startable(lessons, IdSet(lessons[..k]))(back[i])
  {
    forall i | 0 <= i < |back|
      ensures !Startable(lessons, IdSet(lessons[..k]))(back[i])
    {
      var done := IdSet(lessons[..k]);
      assert back[i] == lessons[k + 1 + i];
      UnlockedAt(lessons, k, k + 1 + i);
      assert Startable(lessons, done)(back[i]) == CanStartLesson(lessons, back[i].id, done);
    }
  }

  /** With the first `k` lessons done, lesson `i` can be started exactly when `i <= k`. */
  lemma UnlockedAt(lessons: seq<Lesson>, k: nat, i: nat)
    requires DistinctIds(lessons) && Chained(lessons) && k < |lessons| && i < |lessons|
    requires forall j :: 0 <= j < |lessons| ==> lessons[j].id != ""
    ensures CanStartLesson(lessons, lessons[i].id, IdSet(lessons[..k])) <==> i <= k
  {
    var done := IdSet(lessons[..k]);
    ChainedLookups(lessons, i, done);
    if i > 0 {
      if i - 1 < k {
        assert lessons[..k][i - 1] == lessons[i - 1];
        assert lessons[i - 1].id in done;
      }
    }
  }

  class ScribeStore {
    var allLessons: seq<Lesson>
    /** The `Set` of completed lesson ids, in insertion order. */
    var completedLessons: seq<string>
    /** The `Map` from lesson id to progress, in insertion order. */
    var lessonProgress: seq<(string, LessonProgress)>
    var currentLesson: Option<Lesson>
    var currentStepIndex: int
    var currentStrokes: seq<Stroke>
    var strokeHistory: seq<seq<Stroke>>
    var historyIndex: int
    var isDrawing: bool
    var recentAttempts: seq<DrawingAttempt>

    /**
     * What every method keeps: a lesson in progress comes from the list and
     * its step index is a step of it; the history index points into the
     * history (or is 0 when there is none); at most ten attempts are kept;
     * the set and the map hold no repeated ids.
     */
    predicate Valid()
      reads this
    {
      (forall l :: l in allLessons ==> |l.steps| > 0) &&
      (currentLesson.Some? ==> currentLesson.value in allLessons && 0 <= currentStepIndex < |currentLesson.value.steps|) &&
      (currentLesson.None? ==> currentStepIndex == 0) &&
      0 <= historyIndex && (strokeHistory == [] ==> historyIndex == 0) &&
      (strokeHistory != [] ==> historyIndex < |strokeHistory|) &&
      |recentAttempts| <= MAX_ATTEMPTS &&
      Distinct(completedLessons) && DistinctKeys(lessonProgress)
    }

    /** The drawing canvas: strokes, undo history and history index. */
    function Canvas(): (seq<Stroke>, seq<seq<Stroke>>, int)
      reads this
    {
      (currentStrokes, strokeHistory, historyIndex)
    }

    /** The lesson in progress and its step. */
    function Position(): (Option<Lesson>, int)
      reads this
    {
      (currentLesson, currentStepIndex)
    }

    constructor()
      ensures Valid()
      ensures allLessons == LESSONS
      ensures completedLessons == [] && lessonProgress == []
      ensures currentLesson == None && currentStepIndex == 0
      ensures currentStrokes == [] && strokeHistory == [] && historyIndex == 0
      ensures !isDrawing && recentAttempts == []
    {
      LessonsWellFormed();
      allLessons := LESSONS;
      completedLessons := [];
      lessonProgress := [];
      currentLesson := None;
      currentStepIndex := 0;
      currentStrokes := [];
      strokeHistory := [];
      historyIndex := 0;
      isDrawing := false;
      recentAttempts := [];
    }

    /** `availableLessons`: the lessons whose prerequisite is met, in curriculum order. */
    function AvailableLessons(): (r: seq<Lesson>)
      reads this
      ensures forall i :: 0 <= i < |r| ==> r[i] in allLessons && CanStartLesson(allLessons, r[i].id, Elements(completedLessons))
    {
      var r := Filter(allLessons, Startable(allLessons, Elements(completedLessons)));
      assert forall i :: 0 <= i < |r| ==> r[i] in allLessons by {
        forall i | 0 <= i < |r|
          ensures r[i] in allLessons
        {
          FilterMembers(allLessons, Startable(allLessons, Elements(completedLessons)), r[i]);
        }
      }
      r
    }

    /** `currentStep`: the step in progress, which always exists while a lesson is. */
    function CurrentStep(): (r: Option<LessonStep>)
      reads this
      ensures currentLesson.None? ==> r.None?
      ensures Valid() && currentLesson.Some? ==> r == Some(currentLesson.value.steps[currentStepIndex])
    {
      match currentLesson
      case None => None
      case Some(lesson) =>
        if 0 <= currentStepIndex < |lesson.steps| then Some(lesson.steps[currentStepIndex]) else None
    }

    /** `currentLessonProgress`: the share of steps before the current one, in percent, always below 100. */
    function CurrentLessonProgress(): (r: real)
      requires Valid()
      reads this
      ensures 0.0 <= r < 100.0
      ensures currentLesson.None? || currentStepIndex == 0 ==> r == 0.0
    {
      match currentLesson
      case None => 0.0
      case Some(lesson) => (currentStepIndex as real / |lesson.steps| as real) * 100.0
    }

    /** `overallProgress`: completed lessons as a percentage of all lessons. */
    function OverallProgress(): (r: real)
      reads this
      ensures r >= 0.0
      ensures completedLessons == [] ==> r == 0.0
      ensures |allLessons| > 0 && |completedLessons| == |allLessons| ==> r == 100.0
    {
      if |allLessons| == 0 then 0.0
      else
        var share := |completedLessons| as real / |allLessons| as real;
        assert |completedLessons| == |allLessons| ==> share == 1.0 by {
          var n := |allLessons| as real;
          assert n / n == 1.0;
        }
        share * 100.0
    }

    /**
     * `startLesson`: refuses an unknown lesson or one whose prerequisite is
     * not done; otherwise opens it at its first step on a clear canvas and
     * creates its progress entry unless one exists.
     */
    method StartLesson(lessonId: string, now: int) returns (ok: bool)
      requires Valid()
      modifies this
      ensures Valid()
      ensures ok <==> CanStartLesson(allLessons, lessonId, Elements(completedLessons))
      ensures allLessons == old(allLessons) && completedLessons == old(completedLessons)
      ensures recentAttempts == old(recentAttempts) && isDrawing == old(isDrawing)
      ensures !ok ==> Position() == old(Position()) && Canvas() == old(Canvas()) && lessonProgress == old(lessonProgress)
      ensures ok ==> currentLesson == GetLessonById(allLessons, lessonId) && currentStepIndex == 0
      ensures ok ==> Canvas() == ([], [], 0)
      ensures ok && Has(old(lessonProgress), lessonId) ==> lessonProgress == old(lessonProgress)
      ensures ok && !Has(old(lessonProgress), lessonId) ==>
        lessonProgress == Set(old(lessonProgress), lessonId, LessonProgress(lessonId, 0, |currentLesson.value.steps|, false, now))
    {
      var lesson := GetLessonById(allLessons, lessonId);
      if lesson.None? {
        return false;
      }
      if !CanStartLesson(allLessons, lessonId, Elements(completedLessons)) {
        return false;
      }
      OpenLesson(lesson.value, now);
      return true;
    }

    /** The part of `startLesson` past its guards: opens `lesson` as described there. */
    method OpenLesson(lesson: Lesson, now: int)
      requires Valid() && lesson in allLessons
      modifies this
      ensures Valid()
      ensures allLessons == old(allLessons) && completedLessons == old(completedLessons)
      ensures recentAttempts == old(recentAttempts) && isDrawing == old(isDrawing)
      ensures currentLesson == Some(lesson) && currentStepIndex == 0
      ensures Canvas() == ([], [], 0)
      ensures Has(old(lessonProgress), lesson.id) ==> lessonProgress == old(lessonProgress)
      ensures !Has(old(lessonProgress), lesson.id) ==>
        lessonProgress == Set(old(lessonProgress), lesson.id, LessonProgress(lesson.id, 0, |lesson.steps|, false, now))
    {
      currentLesson := Some(lesson);
      currentStepIndex := 0;
      ClearCanvas();
      if !Has(lessonProgress, lesson.id) {
        var entry := LessonProgress(lesson.id, 0, |lesson.steps|, false, now);
        GetSet(lessonProgress, lesson.id, entry, lesson.id);
        lessonProgress := Set(lessonProgress, lesson.id, entry);
      }
    }

    /**
     * `nextStep`: moves to the next step on a clear canvas and records it in
     * the lesson's progress; on the last step, completes the lesson instead.
     */
    method NextStep(now: int)
      requires Valid()
      modifies this
      ensures Valid()
      ensures allLessons == old(allLessons) && recentAttempts == old(recentAttempts) && isDrawing == old(isDrawing)
      ensures currentLesson == old(currentLesson)
      ensures old(currentLesson).None? ==> (
        Position() == old(Position()) && Canvas() == old(Canvas()) &&
        completedLessons == old(completedLessons) && lessonProgress == old(lessonProgress))
      ensures old(currentLesson).Some? && old(currentStepIndex) < |old(currentLesson).value.steps| - 1 ==> (
        currentStepIndex == old(currentStepIndex) + 1 && Canvas() == ([], [], 0) &&
        completedLessons == old(completedLessons) &&
        lessonProgress == Stepped(old(lessonProgress), currentLesson.value.id, currentStepIndex, now))
      ensures old(currentLesson).Some? && old(currentStepIndex) == |old(currentLesson).value.steps| - 1 ==> (
        currentStepIndex == old(currentStepIndex) && Canvas() == old(Canvas()) &&
        completedLessons == SetAdd(old(completedLessons), currentLesson.value.id) &&
        lessonProgress == Completed(old(lessonProgress), currentLesson.value, now))
    {
      if currentLesson.None? {
        return;
      }
      var lesson := currentLesson.value;
      if currentStepIndex < |lesson.steps| - 1 {
        currentStepIndex := currentStepIndex + 1;
        ClearCanvas();
        var progress := Get(lessonProgress, lesson.id);
        if progress.Some? {
          var p := progress.value.(completedSteps := currentStepIndex, lastActivity := now);
          GetSet(lessonProgress, lesson.id, p, lesson.id);
          lessonProgress := Set(lessonProgress, lesson.id, p);
        }
      } else {
        CompleteLesson(now);
      }
    }

    /** `previousStep`: moves back one step on a clear canvas, never before the first. */
    method PreviousStep()
      requires Valid()
      modifies this
      ensures Valid()
      ensures allLessons == old(allLessons) && completedLessons == old(completedLessons) && lessonProgress == old(lessonProgress)
      ensures recentAttempts == old(recentAttempts) && isDrawing == old(isDrawing) && currentLesson == old(currentLesson)
      ensures old(currentStepIndex) > 0 ==> currentStepIndex == old(currentStepIndex) - 1 && Canvas() == ([], [], 0)
      ensures old(currentStepIndex) == 0 ==> currentStepIndex == 0 && Canvas() == old(Canvas())
    {
      if currentStepIndex > 0 {
        currentStepIndex := currentStepIndex - 1;
        ClearCanvas();
      }
    }

    /**
     * `completeLesson`: adds the lesson to the completed set and marks its
     * progress entry, if any, as complete with every step done.
     */
    method CompleteLesson(now: int)
      requires Valid()
      modifies this
      ensures Valid()
      ensures allLessons == old(allLessons) && recentAttempts == old(recentAttempts) && isDrawing == old(isDrawing)
      ensures Position() == old(Position()) && Canvas() == old(Canvas())
      ensures currentLesson.None? ==> completedLessons == old(completedLessons) && lessonProgress == old(lessonProgress)
      ensures currentLesson.Some? ==> completedLessons == SetAdd(old(completedLessons), currentLesson.value.id)
      ensures currentLesson.Some? ==> lessonProgress == Completed(old(lessonProgress), currentLesson.value, now)
    {
      if currentLesson.None? {
        return;
      }
      var lesson := currentLesson.value;
      completedLessons := SetAdd(completedLessons, lesson.id);
      var progress := Get(lessonProgress, lesson.id);
      if progress.Some? {
        var p := progress.value.(completed := true, completedSteps := |lesson.steps|, lastActivity := now);
        GetSet(lessonProgress, lesson.id, p, lesson.id);
        lessonProgress := Set(lessonProgress, lesson.id, p);
      }
    }

    /** `exitLesson`: leaves the lesson, back at step 0 on a clear canvas. */
    method ExitLesson()
      requires Valid()
      modifies this
      ensures Valid()
      ensures allLessons == old(allLessons) && completedLessons == old(completedLessons) && lessonProgress == old(lessonProgress)
      ensures recentAttempts == old(recentAttempts) && isDrawing == old(isDrawing)
      ensures Position() == (None, 0) && Canvas() == ([], [], 0)
    {
      currentLesson := None;
      currentStepIndex := 0;
      ClearCanvas();
    }

    /** `getNextLesson`: the lesson after the one in progress, if any. */
    function GetNextLesson(): (r: Option<Lesson>)
      reads this
      ensures currentLesson.None? ==> r.None?
      ensures currentLesson.Some? && DistinctIds(allLessons) && currentLesson.value in allLessons ==>
        forall i :: 0 <= i < |allLessons| && allLessons[i] == currentLesson.value ==>
          r == if i + 1 < |allLessons| then Some(allLessons[i + 1]) else None
    {
      match currentLesson
      case None => None
      case Some(lesson) =>
        assert forall i :: 0 <= i < |allLessons| && allLessons[i] == lesson && DistinctIds(allLessons) ==>
          FirstWith(allLessons, IdIs(lesson.id), i);
        Lessons.GetNextLesson(allLessons, lesson.id)
    }

    /**
     * `addStroke`: saves the canvas as it was, after the history up to the
     * current index (dropping anything beyond it), and adds the stroke.
     */
    method AddStroke(stroke: Stroke)
      requires Valid()
      modifies this
      ensures Valid()
      ensures allLessons == old(allLessons) && completedLessons == old(completedLessons) && lessonProgress == old(lessonProgress)
      ensures recentAttempts == old(recentAttempts) && isDrawing == old(isDrawing) && Position() == old(Position())
      ensures strokeHistory == Take(old(strokeHistory), old(historyIndex) + 1) + [old(currentStrokes)]
      ensures historyIndex == |strokeHistory| - 1
      ensures currentStrokes == old(currentStrokes) + [stroke]
    {
      strokeHistory := Take(strokeHistory, historyIndex + 1) + [currentStrokes];
      historyIndex := |strokeHistory| - 1;
      currentStrokes := currentStrokes + [stroke];
    }

    /** `clearCanvas`. */
    method ClearCanvas()
      modifies this
      ensures Canvas() == ([], [], 0)
      ensures allLessons == old(allLessons) && completedLessons == old(completedLessons) && lessonProgress == old(lessonProgress)
      ensures recentAttempts == old(recentAttempts) && isDrawing == old(isDrawing) && Position() == old(Position())
    {
      currentStrokes := [];
      strokeHistory := [];
      historyIndex := 0;
    }

    /**
     * `undo`: with a history, puts back the canvas saved at the history
     * index (the fallback to an empty canvas never applies) and steps the
     * index back, not below 0.
     */
    method Undo()
      requires Valid()
      modifies this
      ensures Valid()
      ensures allLessons == old(allLessons) && completedLessons == old(completedLessons) && lessonProgress == old(lessonProgress)
      ensures recentAttempts == old(recentAttempts) && isDrawing == old(isDrawing) && Position() == old(Position())
      ensures strokeHistory == old(strokeHistory)
      ensures old(strokeHistory) == [] ==> Canvas() == old(Canvas())
      ensures old(strokeHistory) != [] ==> currentStrokes == old(strokeHistory)[old(historyIndex)]
      ensures old(strokeHistory) != [] ==> historyIndex == Max(0, old(historyIndex) - 1)
    {
      if historyIndex >= 0 && |strokeHistory| > 0 {
        currentStrokes := if historyIndex < |strokeHistory| then strokeHistory[historyIndex] else [];
        historyIndex := Max(0, historyIndex - 1);
      }
    }

    /** `redo`: only moves the history index forward; the canvas is not restored. */
    method Redo()
      requires Valid()
      modifies this
      ensures Valid()
      ensures allLessons == old(allLessons) && completedLessons == old(completedLessons) && lessonProgress == old(lessonProgress)
      ensures recentAttempts == old(recentAttempts) && isDrawing == old(isDrawing) && Position() == old(Position())
      ensures currentStrokes == old(currentStrokes) && strokeHistory == old(strokeHistory)
      ensures historyIndex == if old(historyIndex) < |strokeHistory| - 1 then old(historyIndex) + 1 else old(historyIndex)
    {
      if historyIndex < |strokeHistory| - 1 {
        historyIndex := historyIndex + 1;
      }
    }

    /** `recordAttempt`: keeps the attempt after at most nine earlier ones. */
    method RecordAttempt(attempt: DrawingAttempt)
      requires Valid()
      modifies this
      ensures Valid()
      ensures allLessons == old(allLessons) && completedLessons == old(completedLessons) && lessonProgress == old(lessonProgress)
      ensures isDrawing == old(isDrawing) && Position() == old(Position()) && Canvas() == old(Canvas())
      ensures recentAttempts == Recorded(old(recentAttempts), attempt)
    {
      recentAttempts := Recorded(recentAttempts, attempt);
    }

    /** `resetProgress`: forgets every completion and progress entry and leaves the lesson. */
    method ResetProgress()
      requires Valid()
      modifies this
      ensures Valid()
      ensures allLessons == old(allLessons) && recentAttempts == old(recentAttempts) && isDrawing == old(isDrawing)
      ensures completedLessons == [] && lessonProgress == []
      ensures Position() == (None, 0) && Canvas() == ([], [], 0)
    {
      completedLessons := [];
      lessonProgress := [];
      ExitLesson();
    }

    /** `loadProgress`: `new Set(data.completed)` and `new Map(data.progress)`. */
    method LoadProgress(data: ProgressData)
      requires Valid()
      modifies this
      ensures Valid()
      ensures allLessons == old(allLessons) && recentAttempts == old(recentAttempts) && isDrawing == old(isDrawing)
      ensures Position() == old(Position()) && Canvas() == old(Canvas())
      ensures completedLessons == SetFrom(data.completed) && lessonProgress == MapFrom(data.progress)
    {
      MapFromIsDistinct(data.progress);
      completedLessons := SetFrom(data.completed);
      lessonProgress := MapFrom(data.progress);
    }

    /** `exportProgress`: the completed ids and the progress entries, each in insertion order. */
    function ExportProgress(): (r: ProgressData)
      reads this
      ensures Valid() ==> Distinct(r.completed) && DistinctKeys(r.progress)
      ensures Elements(r.completed) == Elements(completedLessons)
    {
      ProgressData(completedLessons, lessonProgress)
    }
  }

  /** The progress entries after reaching step `step` of lesson `id`: its entry, if any, records the step. */
  function Stepped(progress: seq<(string, LessonProgress)>, id: string, step: int, now: int): seq<(string, LessonProgress)>
  {
    match Get(progress, id)
    case None => progress
    case Some(p) => Set(progress, id, p.(completedSteps := step, lastActivity := now))
  }

  /** The progress entries after completing `lesson`: its entry, if any, marked complete with every step done. */
  function Completed(progress: seq<(string, LessonProgress)>, lesson: Lesson, now: int): seq<(string, LessonProgress)>
  {
    match Get(progress, lesson.id)
    case None => progress
    case Some(p) => Set(progress, lesson.id, p.(completed := true, completedSteps := |lesson.steps|, lastActivity := now))
  }

  /**
   * Exporting after loading gives back what was loaded, provided it held no
   * repeated id; `new Set` and `new Map` otherwise merge the repeats.
   */
  lemma ProgressRoundTrip(data: ProgressData)
    requires Distinct(data.completed) && DistinctKeys(data.progress)
    ensures ProgressData(SetFrom(data.completed), MapFrom(data.progress)) == data
  {
    SetFromDistinct(data.completed);
    MapFromDistinct(data.progress);
  }

  /** Undo right after a stroke puts back the canvas as it was before the stroke. */
  method UndoAfterAddStroke(store: ScribeStore, stroke: Stroke)
    requires store.Valid()
    modifies store
    ensures store.Valid()
    ensures store.currentStrokes == old(store.currentStrokes)
  {
    store.AddStroke(stroke);
    store.Undo();
  }
}
