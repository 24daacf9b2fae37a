/**
  The Training page: a fixed list of learning modules, the progress
  overview computed from it (modules completed, overall progress, learning
  time), and the rules that choose a module's badge colour, its progress
  bar and its action buttons.
 */
module Training {
  import opened Wrappers
  import opened Text
  import opened JsNumbers

  datatype Difficulty = Beginner | Intermediate | Advanced

  datatype ModuleKind = VideoModule | QuizModule | DocumentModule

  /** One training module; `progress` is a whole percentage. */
  datatype TrainingModule = TrainingModule(
    id: int,
    title: string,
    description: string,
    duration: string,
    difficulty: Difficulty,
    kind: ModuleKind,
    completed: bool,
    progress: int)

  const IntroductionModule := TrainingModule(1, "Introduction to Indian Cattle Breeds",
    "Overview of major indigenous cattle breeds and their characteristics",
    "15 min", Beginner, VideoModule, true, 100)
  const BuffaloModule := TrainingModule(2, "Buffalo Breed Identification",
    "Key features and regional distribution of buffalo breeds",
    "20 min", Beginner, VideoModule, true, 100)
  const PhysicalModule := TrainingModule(3, "Physical Characteristics Assessment",
    "Learn to identify breeds by body structure, color patterns, and horn shapes",
    "25 min", Intermediate, DocumentModule, false, 65)
  const RegionalQuizModule := TrainingModule(4, "Regional Breed Distribution Quiz",
    "Test your knowledge of breed origins and geographic distribution",
    "10 min", Intermediate, QuizModule, false, 0)
  const AdvancedModule := TrainingModule(5, "Advanced Breed Classification",
    "Distinguish between similar breeds and handle mixed breeds",
    "30 min", Advanced, VideoModule, false, 0)
  const DataCollectionModule := TrainingModule(6, "Data Collection Best Practices",
    "Proper techniques for recording breed information and measurements",
    "18 min", Intermediate, DocumentModule, false, 25)

  /** `trainingModules`, in display order. */
  const TrainingModules: seq<TrainingModule> :=
    [IntroductionModule, BuffaloModule, PhysicalModule, RegionalQuizModule, AdvancedModule, DataCollectionModule]

  // ---------------------------------------------------------------------
  // Modules completed

  /** `modules.filter(m => m.completed)`. */
  function CompletedModules(ms: seq<TrainingModule>): (r: seq<TrainingModule>)
    ensures |r| <= |ms|
    ensures forall m :: m in r <==> m in ms && m.completed
    decreases |ms|
  {
    if ms == [] then []
    else if ms[0].completed then [ms[0]] + CompletedModules(ms[1..])
    else CompletedModules(ms[1..])
  }

  /** `completedModules`: how many modules are completed. */
  function CompletedCount(ms: seq<TrainingModule>): (n: nat)
    ensures n <= |ms|
  {
    |CompletedModules(ms)|
  }

  /** The count reaches the number of modules exactly when all are completed, and is 0 exactly when none is. */
  lemma {:induction false} CompletedCountExtremes(ms: seq<TrainingModule>)
    ensures CompletedCount(ms) == |ms| <==> forall i :: 0 <= i < |ms| ==> ms[i].completed
    ensures CompletedCount(ms) == 0 <==> forall i :: 0 <= i < |ms| ==> !ms[i].completed
    decreases |ms|
  {
    if ms != [] {
      var rest := ms[1..];
      CompletedCountExtremes(rest);
      assert forall i :: 1 <= i < |ms| ==> ms[i] == rest[i - 1];
      assert forall i :: 0 <= i < |rest| ==> rest[i] == ms[i + 1];
    }
  }

  /** Like `filter`, the completed modules of two lists joined are those of the parts joined, */
  lemma {:induction false} CompletedModulesOfConcat(a: seq<TrainingModule>, b: seq<TrainingModule>)
    ensures CompletedModules(a + b) == CompletedModules(a) + CompletedModules(b)
    ensures CompletedCount(a + b) == CompletedCount(a) + CompletedCount(b)
    decreases |a|
  {
    if a == [] {
      assert a + b == b;
    } else {
      var ab := a + b;
      assert ab[0] == a[0] && ab[1..] == a[1..] + b;
      CompletedModulesOfConcat(a[1..], b);
      assert CompletedModules(ab) == (if a[0].completed then [a[0]] else []) + CompletedModules(ab[1..]);
    }
  }

  /** the progress sum of two lists joined is the sum of their sums, */
  lemma {:induction false} ProgressSumOfConcat(a: seq<TrainingModule>, b: seq<TrainingModule>)
    ensures ProgressSum(a + b) == ProgressSum(a) + ProgressSum(b)
    decreases |a|
  {
    if a == [] {
      assert a + b == b;
    } else {
      var ab := a + b;
      assert ab[0] == a[0] && ab[1..] == a[1..] + b;
      ProgressSumOfConcat(a[1..], b);
      assert ProgressSum(ab) == a[0].progress + ProgressSum(ab[1..]);
    }
  }

  /** and a single module is kept exactly when it is completed, counting once. */
  lemma AggregatesOfSingleton(m: TrainingModule)
    ensures CompletedModules([m]) == if m.completed then [m] else []
    ensures CompletedCount([m]) == Indicator(m.completed)
    ensures ProgressSum([m]) == m.progress
  {
    assert [m][1..] == [];
  }

  // ---------------------------------------------------------------------
  // Overall progress

  /** `modules.reduce((sum, m) => sum + m.progress, 0)`. */
  function ProgressSum(ms: seq<TrainingModule>): (sum: int)
    ensures (forall i :: 0 <= i < |ms| ==> 0 <= ms[i].progress) ==> 0 <= sum
    decreases |ms|
  {
    if ms == [] then 0 else ms[0].progress + ProgressSum(ms[1..])
  }

  /** Bounds on every progress bound the sum. */
  lemma {:induction false} ProgressSumBounds(ms: seq<TrainingModule>, lo: int, hi: int)
    requires forall i :: 0 <= i < |ms| ==> lo <= ms[i].progress <= hi
    ensures |ms| * lo <= ProgressSum(ms) <= |ms| * hi
    decreases |ms|
  {
    if ms != [] {
      ProgressSumBounds(ms[1..], lo, hi);
      assert (|ms| - 1) * lo + lo == |ms| * lo;
      assert (|ms| - 1) * hi + hi == |ms| * hi;
    }
  }

  /**
    `totalProgress`: `Math.round` of the mean progress, which is integer
    arithmetic on the sum; `None` stands for the `NaN` of an empty list.
   */
  function TotalProgress(ms: seq<TrainingModule>): (r: Option<int>)
    ensures r.Some? <==> |ms| > 0
    ensures r.Some? ==> r.value == (2 * ProgressSum(ms) + |ms|) / (2 * |ms|)
  {
    if |ms| == 0 then None
    else
      RoundOfQuotient(ProgressSum(ms), |ms|);
      Some(MathRound(ProgressSum(ms) as real / |ms| as real))
  }

  /** The rounded mean lies between the smallest and largest bounds of the progresses: in particular in [0, 100]. */
  lemma TotalProgressWithinBounds(ms: seq<TrainingModule>, lo: int, hi: int)
    requires |ms| > 0 && lo <= hi
    requires forall i :: 0 <= i < |ms| ==> lo <= ms[i].progress <= hi
    ensures lo <= TotalProgress(ms).value <= hi
  {
    ProgressSumBounds(ms, lo, hi);
    RoundedMeanBounds(ProgressSum(ms), |ms|, lo, hi);
  }

  /** `n lo <= s <= n hi` puts `(2s + n) div 2n` in `[lo, hi]`. */
  lemma RoundedMeanBounds(s: int, n: int, lo: int, hi: int)
    requires n > 0 && n * lo <= s <= n * hi
    ensures lo <= (2 * s + n) / (2 * n) <= hi
  {
    var q := (2 * s + n) / (2 * n);
    assert 2 * n * q <= 2 * s + n < 2 * n * (q + 1);
    if q < lo {
      MulMonotone(2 * n, q + 1, lo);
    }
    if q > hi {
      MulMonotone(2 * n, hi + 1, q);
    }
  }

  lemma MulMonotone(d: int, a: int, b: int)
    requires d > 0 && a <= b
    ensures d * a <= d * b
  {
  }

  // ---------------------------------------------------------------------
  // Learning time

  /** The sum of `parseInt(m.duration)`; `None` when one of them is `NaN`. */
  function DurationSum(ms: seq<TrainingModule>): (r: Option<nat>)
    ensures r.Some? <==> forall i :: 0 <= i < |ms| ==> ParseIntPrefix(ms[i].duration).Some?
    decreases |ms|
  {
    if ms == [] then Some(0)
    else
      var rest := DurationSum(ms[1..]);
      assert forall i :: 1 <= i < |ms| ==> ms[i] == ms[1..][i - 1];
      match ParseIntPrefix(ms[0].duration)
      case None => None
      case Some(d) => if rest.None? then None else Some(d + rest.value)
  }

  /** The learning time in hours: `Math.round(minutes / 60)`, that is, half an hour or more rounds up. */
  function LearningHours(ms: seq<TrainingModule>): (r: Option<int>)
    ensures r.Some? <==> DurationSum(ms).Some?
    ensures r.Some? ==> r.value == (DurationSum(ms).value + 30) / 60
  {
    match DurationSum(ms)
    case None => None
    case Some(minutes) =>
      RoundOfQuotient(minutes, 60);
      HalveQuotient(minutes);
      Some(MathRound(minutes as real / 60.0))
  }

  lemma HalveQuotient(m: int)
    ensures (2 * m + 60) / (2 * 60) == (m + 30) / 60
  {
    var q := (m + 30) / 60;
    assert 60 * q <= m + 30 < 60 * (q + 1);
    QuotientUnique(2 * m + 60, 120, q);
  }

  // ---------------------------------------------------------------------
  // The selected module's controls

  datatype Action = Review | Continue | Start

  /** The main button: `Review` once completed, `Continue` once started, `Start` otherwise. */
  function ActionLabel(m: TrainingModule): (a: Action)
    ensures a == Review <==> m.completed
    ensures a == Continue <==> !m.completed && m.progress > 0
    ensures a == Start <==> !m.completed && m.progress <= 0
  {
    if m.completed then Review else if m.progress > 0 then Continue else Start
  }

  /** The progress bar, in the list and in the detail panel: shown for a started module, never beside "Start". */
  function ShowProgressBar(m: TrainingModule): (shown: bool)
    ensures shown ==> ActionLabel(m) != Start
    ensures !m.completed ==> (shown <==> ActionLabel(m) == Continue)
  {
    m.progress > 0
  }

  /** The "Reset Progress" button: it appears exactly beside a "Continue" button, and always with a progress bar. */
  function ShowReset(m: TrainingModule): (shown: bool)
    ensures shown <==> ActionLabel(m) == Continue
    ensures shown ==> ShowProgressBar(m)
  {
    m.progress > 0 && !m.completed
  }

  // ---------------------------------------------------------------------
  // Difficulty badge

  function DifficultyName(d: Difficulty): string {
    match d
    case Beginner => "Beginner"
    case Intermediate => "Intermediate"
    case Advanced => "Advanced"
  }

  /** The colour family of a difficulty badge. */
  datatype BadgeTone = SuccessTone | WarningTone | DestructiveTone | MutedTone

  /** `getDifficultyColor`: one tone per level, the muted one for any other string. */
  function DifficultyColor(difficulty: string): (tone: BadgeTone)
    ensures tone == SuccessTone <==> difficulty == "Beginner"
    ensures tone == WarningTone <==> difficulty == "Intermediate"
    ensures tone == DestructiveTone <==> difficulty == "Advanced"
  {
    if difficulty == "Beginner" then SuccessTone
    else if difficulty == "Intermediate" then WarningTone
    else if difficulty == "Advanced" then DestructiveTone
    else MutedTone
  }

  /** The three levels get three different badges, none of them the muted default. */
  lemma DifficultyColorsDistinct(d1: Difficulty, d2: Difficulty)
    ensures DifficultyColor(DifficultyName(d1)) != MutedTone
    ensures d1 != d2 ==> DifficultyColor(DifficultyName(d1)) != DifficultyColor(DifficultyName(d2))
  {
  }

  // ---------------------------------------------------------------------
  // The overview on the shipped modules

  /** The overall progress of six modules, module by module. */
  lemma SixProgresses(m1: TrainingModule, m2: TrainingModule, m3: TrainingModule,
                      m4: TrainingModule, m5: TrainingModule, m6: TrainingModule)
    ensures ProgressSum([m1, m2, m3, m4, m5, m6])
         == m1.progress + m2.progress + m3.progress + m4.progress + m5.progress + m6.progress
  {
    var ms := [m1, m2, m3, m4, m5, m6];
    assert ms[5..] == [m6];
    assert ms[4..] == [m5] + ms[5..];
    assert ms[3..] == [m4] + ms[4..];
    assert ms[2..] == [m3] + ms[3..];
    assert ms[1..] == [m2] + ms[2..];
    assert ms == [m1] + ms[1..];
    ConsSteps(m6, []);
    ConsSteps(m5, ms[5..]);
    ConsSteps(m4, ms[4..]);
    ConsSteps(m3, ms[3..]);
    ConsSteps(m2, ms[2..]);
    ConsSteps(m1, ms[1..]);
  }

  /** The completed count of six modules, module by module. */
  lemma SixCompletions(m1: TrainingModule, m2: TrainingModule, m3: TrainingModule,
                       m4: TrainingModule, m5: TrainingModule, m6: TrainingModule)
    ensures CompletedCount([m1, m2, m3, m4, m5, m6])
         == Indicator(m1.completed) + Indicator(m2.completed) + Indicator(m3.completed)
          + Indicator(m4.completed) + Indicator(m5.completed) + Indicator(m6.completed)
  {
    var ms := [m1, m2, m3, m4, m5, m6];
    assert ms[5..] == [m6];
    assert ms[4..] == [m5] + ms[5..];
    assert ms[3..] == [m4] + ms[4..];
    assert ms[2..] == [m3] + ms[3..];
    assert ms[1..] == [m2] + ms[2..];
    assert ms == [m1] + ms[1..];
    ConsSteps(m6, []);
    ConsSteps(m5, ms[5..]);
    ConsSteps(m4, ms[4..]);
    ConsSteps(m3, ms[3..]);
    ConsSteps(m2, ms[2..]);
    ConsSteps(m1, ms[1..]);
  }

  /** When every duration parses, the total is the sum of the parsed minutes. */
  lemma {:induction false} DurationSumOfParsed(ms: seq<TrainingModule>, minutes: seq<nat>)
    requires |minutes| == |ms|
    requires forall i :: 0 <= i < |ms| ==> ParseIntPrefix(ms[i].duration) == Some(minutes[i])
    ensures DurationSum(ms) == Some(Total(minutes))
    decreases |ms|
  {
    if ms != [] {
      assert forall i :: 0 <= i < |ms| - 1 ==> ms[1..][i] == ms[i + 1] && minutes[1..][i] == minutes[i + 1];
      DurationSumOfParsed(ms[1..], minutes[1..]);
    }
  }

  function Total(xs: seq<nat>): nat
    decreases |xs|
  {
    if xs == [] then 0 else xs[0] + Total(xs[1..])
  }

  function Indicator(b: bool): nat {
    if b then 1 else 0
  }

  /** The aggregates decide the first module and recurse on the rest. */
  lemma ConsSteps(m: TrainingModule, rest: seq<TrainingModule>)
    ensures CompletedCount([m] + rest) == Indicator(m.completed) + CompletedCount(rest)
    ensures ProgressSum([m] + rest) == m.progress + ProgressSum(rest)
  {
    assert ([m] + rest)[1..] == rest;
  }

  /** The durations as `parseInt` reads them, in minutes. */
  const ShippedMinutes: seq<nat> := [15, 20, 25, 10, 30, 18]

  lemma ShippedDuration(i: nat)
    requires i < |TrainingModules|
    ensures ParseIntPrefix(TrainingModules[i].duration) == Some(ShippedMinutes[i])
  {
    if i < 3 {
      FirstShippedDurations(i);
    } else {
      LastShippedDurations(i);
    }
  }

  lemma FirstShippedDurations(i: nat)
    requires i < 3
    ensures ParseIntPrefix(TrainingModules[i].duration) == Some(ShippedMinutes[i])
  {
    var m := TrainingModules[i];
    TwoDigitLabel(m.duration);
    if i == 0 {
      assert m.duration == "15 min";
    } else if i == 1 {
      assert m.duration == "20 min";
    } else {
      assert m.duration == "25 min";
    }
  }

  lemma LastShippedDurations(i: nat)
    requires 3 <= i < 6
    ensures ParseIntPrefix(TrainingModules[i].duration) == Some(ShippedMinutes[i])
  {
    var m := TrainingModules[i];
    TwoDigitLabel(m.duration);
    if i == 3 {
      assert m.duration == "10 min";
    } else if i == 4 {
      assert m.duration == "30 min";
    } else {
      assert m.duration == "18 min";
    }
  }

  /** `parseInt` of a label that starts with two digits and then something else, like "15 min". */
  lemma TwoDigitLabel(s: string)
    requires |s| >= 3 && IsDigit(s[0]) && IsDigit(s[1]) && !IsDigit(s[2])
    ensures ParseIntPrefix(s) == Some(10 * DigitValue(s[0]) + DigitValue(s[1]))
  {
    assert LeadingDigits(s[2..]) == [];
    assert LeadingDigits(s[1..]) == [s[1]] + LeadingDigits(s[2..]);
    assert LeadingDigits(s) == [s[0], s[1]];
    assert [s[0], s[1]][..1] == [s[0]] && [s[0]][..0] == [];
    assert DigitsValue([s[0]]) == DigitValue(s[0]);
  }

  /** Two of the six modules are completed. */
  lemma TrainingModulesCompleted()
    ensures CompletedCount(TrainingModules) == 2
  {
    SixCompletions(IntroductionModule, BuffaloModule, PhysicalModule, RegionalQuizModule, AdvancedModule, DataCollectionModule);
  }

  /** The progresses 100, 100, 65, 0, 0, 25 have mean 48.33, shown as 48%. */
  lemma TrainingModulesProgress()
    ensures TotalProgress(TrainingModules) == Some(48)
  {
    SixProgresses(IntroductionModule, BuffaloModule, PhysicalModule, RegionalQuizModule, AdvancedModule, DataCollectionModule);
    RoundedMean(TrainingModules, 290, 48);
  }

  /** The durations add up to 118 minutes, */
  lemma TrainingModulesMinutes()
    ensures DurationSum(TrainingModules) == Some(118)
  {
    forall i | 0 <= i < |TrainingModules|
      ensures ParseIntPrefix(TrainingModules[i].duration) == Some(ShippedMinutes[i])
    {
      ShippedDuration(i);
    }
    DurationSumOfParsed(TrainingModules, ShippedMinutes);
    ShippedMinutesTotal();
  }

  lemma ShippedMinutesTotal()
    ensures Total(ShippedMinutes) == 118
  {
  }

  /** shown as 2h. */
  lemma TrainingModulesLearningTime()
    ensures LearningHours(TrainingModules) == Some(2)
  {
    TrainingModulesMinutes();
    RoundedHours(TrainingModules, 118, 2);
  }

  /** Reading off the overall progress once the sum is known. */
  lemma RoundedMean(ms: seq<TrainingModule>, sum: int, mean: int)
    requires |ms| > 0 && ProgressSum(ms) == sum && (2 * sum + |ms|) / (2 * |ms|) == mean
    ensures TotalProgress(ms) == Some(mean)
  {
  }

  /** Reading off the learning time once the minutes are known. */
  lemma RoundedHours(ms: seq<TrainingModule>, minutes: nat, hours: int)
    requires DurationSum(ms) == Some(minutes) && (minutes + 30) / 60 == hours
    ensures LearningHours(ms) == Some(hours)
  {
  }
}
