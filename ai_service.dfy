/**
 * The assessment scorer of `lib/ai-service.ts`: `analyzeStudent` (learning
 * style tally, risk score, gaps, recommendations, summary) and
 * `getStyleRecommendation`.
 *
 * `Analysis` is the specification of one call as a function of the input;
 * `AnalyzeStudent` is the step-by-step procedure of the source (a `forEach`
 * over the quiz answers, two `reduce` sums, a `some` test, pushes and an
 * `unshift`), proved to compute it. The lemmas state the scoring rules.
 */
module AiService {
  import opened Wrappers
  import opened JsText
  import opened JsObject

  const Visual: string := "visual"
  const Auditory: string := "auditory"
  const Reading: string := "reading"
  const Kinesthetic: string := "kinesthetic"

  /** The four styles, in the order of the keys of `styleScores`. */
  const Styles: seq<string> := [Visual, Auditory, Reading, Kinesthetic]

  const UniformScores: Entries :=
    [Entry(Visual, 25), Entry(Auditory, 25), Entry(Reading, 25), Entry(Kinesthetic, 25)]
  const ZeroScores: Entries :=
    [Entry(Visual, 0), Entry(Auditory, 0), Entry(Reading, 0), Entry(Kinesthetic, 0)]

  /** Each quiz answer is worth this many points to its style. */
  const PointsPerAnswer: int := 10

  const TeacherFactor: string := "Below average classroom engagement"
  const ParentFactor: string := "Challenges with home study habits"
  const DiagnosisFactor: string := "Previously diagnosed learning difficulty"
  const NoFactors: string := "No significant risk factors identified"

  /**
   * The request body. A response record is the list of its entries; only its
   * values matter. `None` is an absent field; a present field is truthy even
   * when it is `{}` or `[]`.
   */
  datatype AnalysisInput = AnalysisInput(
    teacherResponses: Option<Entries>,
    parentResponses: Option<Entries>,
    studentQuizAnswers: Option<seq<string>>,
    uploadedText: Option<string>,
    diagnosedDifficulty: bool)

  datatype RiskLevel = Low | Medium | High
  datatype Severity = Mild | Moderate | Significant
  datatype Priority = HighPriority | MediumPriority | LowPriority

  datatype Gap = Gap(area: string, severity: Severity, description: string)
  datatype Recommendation = Recommendation(category: string, title: string, description: string, priority: Priority)
  datatype LearningStyle = LearningStyle(primary: string, scores: Entries)
  datatype RiskAssessment = RiskAssessment(level: RiskLevel, factors: seq<string>)
  datatype AnalysisResult = AnalysisResult(
    learningStyle: LearningStyle,
    riskAssessment: RiskAssessment,
    identifiedGaps: seq<Gap>,
    recommendations: seq<Recommendation>,
    summary: string)

  const AttentionGapArea: string := "Attention & Focus"
  const AttentionGapText: string := "May benefit from structured breaks and focused activity periods"
  const ReadingGapArea: string := "Reading Comprehension"
  const ReadingGapText: string := "Consider using visual aids and simplified text formats"
  const PlaceholderGap: Gap :=
    Gap("No significant gaps", Mild, "Student appears to be progressing well")

  const HomeRecommendation: Recommendation := Recommendation(
    "Home Support", "Parent-Child Learning Activities",
    "Incorporate hands-on activities during homework time", MediumPriority)
  const AssessmentRecommendation: Recommendation := Recommendation(
    "Assessment", "Regular Progress Checks",
    "Schedule bi-weekly check-ins to monitor improvement", LowPriority)
  const SupportRecommendation: Recommendation := Recommendation(
    "Support", "Additional Learning Support",
    "Consider consultation with learning specialist for personalized strategies", HighPriority)

  const VisualAdvice: string :=
    "Use diagrams, charts, color-coded notes, and video content. Seat student where they can see the board clearly."
  const AuditoryAdvice: string :=
    "Incorporate discussions, verbal instructions, and audio recordings. Allow student to explain concepts aloud."
  const ReadingAdvice: string :=
    "Provide written materials, encourage note-taking, and use reading-based assignments."
  const KinestheticAdvice: string :=
    "Include hands-on activities, movement breaks, and physical manipulatives in lessons."

  // ---------------------------------------------------------------------------
  // specification of one call

  /** `Object.values(record)`. */
  function Values(e: Entries): (vs: seq<int>)
    ensures |vs| == |e|
    ensures forall i :: 0 <= i < |e| ==> vs[i] == e[i].value
  {
    if e == [] then [] else [e[0].value] + Values(e[1..])
  }

  function Sum(vs: seq<int>): int
  {
    if vs == [] then 0 else Sum(vs[..|vs| - 1]) + vs[|vs| - 1]
  }

  /**
   * `sum / length < 3` in floating point: for a non-empty list this is
   * `sum < 3 * length`; an empty list gives `0 / 0`, which is NaN, and
   * `NaN < 3` is false.
   */
  predicate MeanBelowThree(vs: seq<int>)
  {
    |vs| > 0 && Sum(vs) < 3 * |vs|
  }

  /** `Object.values(record).some((v) => v < 3)`. */
  predicate SomeBelowThree(vs: seq<int>)
  {
    exists i :: 0 <= i < |vs| && vs[i] < 3
  }

  predicate TeacherConcern(input: AnalysisInput)
  {
    input.teacherResponses.Some? && MeanBelowThree(Values(input.teacherResponses.value))
  }

  predicate ParentConcern(input: AnalysisInput)
  {
    input.parentResponses.Some? && MeanBelowThree(Values(input.parentResponses.value))
  }

  /** `styleScores` once the quiz answers have been tallied. */
  function StyleScores(quizAnswers: Option<seq<string>>): (scores: Entries)
    ensures |scores| >= 4
  {
    match quizAnswers
    case None => UniformScores
    case Some(answers) =>
      TallyKeyOrder(ZeroScores, answers, PointsPerAnswer);
      Tally(ZeroScores, answers, PointsPerAnswer)
  }

  function PrimaryStyle(input: AnalysisInput): string
  {
    TopKey(StyleScores(input.studentQuizAnswers))
  }

  function RiskScore(input: AnalysisInput): int
  {
    (if TeacherConcern(input) then 30 else 0)
    + (if ParentConcern(input) then 30 else 0)
    + (if input.diagnosedDifficulty then 20 else 0)
  }

  /** The factors pushed while scoring, before the "no factors" default. */
  function FiredFactors(input: AnalysisInput): seq<string>
  {
    (if TeacherConcern(input) then [TeacherFactor] else [])
    + (if ParentConcern(input) then [ParentFactor] else [])
    + (if input.diagnosedDifficulty then [DiagnosisFactor] else [])
  }

  function LevelOf(score: int): RiskLevel
  {
    if score >= 50 then High else if score >= 30 then Medium else Low
  }

  function LevelName(level: RiskLevel): string
  {
    match level
    case Low => "Low"
    case Medium => "Medium"
    case High => "High"
  }

  /** The gaps pushed while scoring, before the placeholder default. */
  function FoundGaps(input: AnalysisInput): seq<Gap>
  {
    var score := RiskScore(input);
    (if score > 20 then [Gap(AttentionGapArea, if score > 40 then Significant else Moderate, AttentionGapText)] else [])
    + (if input.teacherResponses.Some? && SomeBelowThree(Values(input.teacherResponses.value))
       then [Gap(ReadingGapArea, Mild, ReadingGapText)] else [])
  }

  /** `style.charAt(0).toUpperCase() + style.slice(1)`. */
  function Capitalize(s: string): string
  {
    if s == [] then [] else [UpperChar(s[0])] + s[1..]
  }

  /** `getStyleRecommendation`: the canned advice of a style, visual for any other key. */
  function StyleAdvice(style: string): string
  {
    if style == Auditory then AuditoryAdvice
    else if style == Reading then ReadingAdvice
    else if style == Kinesthetic then KinestheticAdvice
    else VisualAdvice
  }

  function ClassroomRecommendation(primary: string): Recommendation
  {
    Recommendation("Classroom", Capitalize(primary) + " Learning Strategies", StyleAdvice(primary), HighPriority)
  }

  function BaseRecommendations(primary: string): seq<Recommendation>
  {
    [ClassroomRecommendation(primary), HomeRecommendation, AssessmentRecommendation]
  }

  function Recommendations(primary: string, level: RiskLevel): seq<Recommendation>
  {
    if level != Low then [SupportRecommendation] + BaseRecommendations(primary) else BaseRecommendations(primary)
  }

  function Areas(gaps: seq<Gap>): (areas: seq<string>)
    ensures |areas| == |gaps|
  {
    if gaps == [] then [] else [gaps[0].area] + Areas(gaps[1..])
  }

  function Summary(primary: string, level: RiskLevel, gaps: seq<Gap>): string
  {
    "Based on the comprehensive analysis, this student is primarily a " + primary
    + " learner with a " + ToLower(LevelName(level)) + " risk profile. "
    + (if |gaps| > 0 then "Key areas to focus on include " + Join(Areas(gaps), ", ") + "."
       else "No major learning gaps were identified.")
    + " We recommend implementing " + primary + "-based teaching strategies."
  }

  function Level(input: AnalysisInput): RiskLevel
  {
    LevelOf(RiskScore(input))
  }

  /** `riskAssessment.factors`: the fired factors, or the single "no factors" entry. */
  function ReportedFactors(input: AnalysisInput): seq<string>
  {
    var factors := FiredFactors(input);
    if |factors| > 0 then factors else [NoFactors]
  }

  /** `identifiedGaps`: the found gaps, or the single placeholder gap. */
  function ReportedGaps(input: AnalysisInput): seq<Gap>
  {
    var gaps := FoundGaps(input);
    if |gaps| > 0 then gaps else [PlaceholderGap]
  }

  /** The result of `analyzeStudent(input)`. */
  function Analysis(input: AnalysisInput): AnalysisResult
  {
    var primary := PrimaryStyle(input);
    var level := Level(input);
    AnalysisResult(
      LearningStyle(primary, StyleScores(input.studentQuizAnswers)),
      RiskAssessment(level, ReportedFactors(input)),
      ReportedGaps(input),
      Recommendations(primary, level),
      Summary(primary, level, FoundGaps(input)))
  }

  // ---------------------------------------------------------------------------
  // the procedure

  /** `Object.values(record).reduce((a, b) => a + b, 0)`. */
  method SumValues(record: Entries) returns (total: int)
    ensures total == Sum(Values(record))
  {
    var vs := Values(record);
    total := 0;
    var i := 0;
    while i < |vs|
      invariant 0 <= i <= |vs|
      invariant total == Sum(vs[..i])
    {
      assert vs[..i + 1][..i] == vs[..i];
      total := total + vs[i];
      i := i + 1;
    }
    assert vs[..|vs|] == vs;
  }

  /** `Object.values(record).some((v) => v < 3)`. */
  method AnyBelowThree(record: Entries) returns (found: bool)
    ensures found <==> SomeBelowThree(Values(record))
  {
    var vs := Values(record);
    found := false;
    var i := 0;
    while i < |vs| && !found
      invariant 0 <= i <= |vs|
      invariant found <==> exists j :: 0 <= j < i && vs[j] < 3
    {
      found := vs[i] < 3;
      i := i + 1;
    }
  }

  /** The `forEach` that fills `styleScores`, or the uniform default when there is no quiz. */
  method ScoreStyles(answers: Option<seq<string>>) returns (styleScores: Entries)
    ensures styleScores == StyleScores(answers)
  {
    styleScores := UniformScores;
    if answers.Some? {
      var labels := answers.value;
      styleScores := ZeroScores;
      var i := 0;
      while i < |labels|
        invariant 0 <= i <= |labels|
        invariant styleScores == Tally(ZeroScores, labels[..i], PointsPerAnswer)
      {
        assert labels[..i + 1][..i] == labels[..i];
        styleScores := Bump(styleScores, labels[i], PointsPerAnswer);
        i := i + 1;
      }
      assert labels[..|labels|] == labels;
    }
  }

  /** The accumulation of `riskScore` and `riskFactors`. */
  method AssessRisk(input: AnalysisInput) returns (riskScore: int, riskFactors: seq<string>)
    ensures riskScore == RiskScore(input)
    ensures riskFactors == FiredFactors(input)
  {
    riskScore := 0;
    riskFactors := [];
    if input.teacherResponses.Some? {
      var sum := SumValues(input.teacherResponses.value);
      var count := |input.teacherResponses.value|;
      if count > 0 && sum < 3 * count {
        riskScore := riskScore + 30;
        riskFactors := riskFactors + [TeacherFactor];
      }
    }
    assert riskScore == (if TeacherConcern(input) then 30 else 0);
    assert riskFactors == (if TeacherConcern(input) then [TeacherFactor] else []);
    if input.parentResponses.Some? {
      var sum := SumValues(input.parentResponses.value);
      var count := |input.parentResponses.value|;
      if count > 0 && sum < 3 * count {
        riskScore := riskScore + 30;
        riskFactors := riskFactors + [ParentFactor];
      }
    }
    assert riskScore == (if TeacherConcern(input) then 30 else 0) + (if ParentConcern(input) then 30 else 0);
    assert riskFactors == (if TeacherConcern(input) then [TeacherFactor] else [])
                          + (if ParentConcern(input) then [ParentFactor] else []);
    if input.diagnosedDifficulty {
      riskScore := riskScore + 20;
      riskFactors := riskFactors + [DiagnosisFactor];
    }
  }

  /** The pushes onto `gaps`. */
  method CollectGaps(input: AnalysisInput, riskScore: int) returns (gaps: seq<Gap>)
    requires riskScore == RiskScore(input)
    ensures gaps == FoundGaps(input)
  {
    gaps := [];
    if riskScore > 20 {
      gaps := gaps + [Gap(AttentionGapArea, if riskScore > 40 then Significant else Moderate, AttentionGapText)];
    }
    if input.teacherResponses.Some? {
      var low := AnyBelowThree(input.teacherResponses.value);
      if low {
        gaps := gaps + [Gap(ReadingGapArea, Mild, ReadingGapText)];
      }
    }
  }

  /** `analyzeStudent(input)`, without the simulated two-second delay. */
  method AnalyzeStudent(input: AnalysisInput) returns (r: AnalysisResult)
    ensures r == Analysis(input)
  {
    var styleScores := ScoreStyles(input.studentQuizAnswers);
    var primaryStyle := TopKey(styleScores);
    var riskScore, riskFactors := AssessRisk(input);
    var riskLevel := if riskScore >= 50 then High else if riskScore >= 30 then Medium else Low;
    assert riskLevel == Level(input);
    var gaps := CollectGaps(input, riskScore);
    var recommendations := [ClassroomRecommendation(primaryStyle), HomeRecommendation, AssessmentRecommendation];
    if riskLevel != Low {
      recommendations := [SupportRecommendation] + recommendations;
    }
    assert recommendations == Recommendations(PrimaryStyle(input), Level(input));
    r := AnalysisResult(
      LearningStyle(primaryStyle, styleScores),
      RiskAssessment(riskLevel, if |riskFactors| > 0 then riskFactors else [NoFactors]),
      if |gaps| > 0 then gaps else [PlaceholderGap],
      recommendations,
      Summary(primaryStyle, riskLevel, gaps));
  }

  // ---------------------------------------------------------------------------
  // properties of the scorer

  lemma ZeroScoresValue(k: string)
    ensures ValueOrZero(ZeroScores, k) == 0
    ensures Keys(ZeroScores) == Styles
  {
    var ks := Keys(ZeroScores);
    assert ks[0] == Visual && ks[1] == Auditory && ks[2] == Reading && ks[3] == Kinesthetic;
    if Lookup(ZeroScores, k).Some? {
      var i := LookupSome(ZeroScores, k);
    }
  }

  /** Every label of a list drawn from the four styles is already a key: nothing new is appended. */
  lemma NoNewKeys(answers: seq<string>)
    requires forall a :: a in answers ==> a in Styles
    ensures NewKeys(Styles, answers) == []
  {
    NewKeysDistinct(Styles, answers);
  }

  lemma UniformKeys()
    ensures Keys(UniformScores) == Styles
  {
    var ks := Keys(UniformScores);
    assert ks[0] == Visual && ks[1] == Auditory && ks[2] == Reading && ks[3] == Kinesthetic;
  }

  lemma UniformValues(k: string)
    requires k in Styles
    ensures ValueOrZero(UniformScores, k) == 25
  {
    UniformKeys();
    StyleNamesDiffer();
    var j :| 0 <= j < |Styles| && Styles[j] == k;
    LookupFound(UniformScores, j);
  }

  lemma UniformTop()
    ensures TopKey(UniformScores) == Visual
  {
    var i := TopKeyIsFirstMax(UniformScores);
    assert UniformScores[0].value == 25 == UniformScores[i].value;
  }

  /** Without quiz answers every style scores 25, so visual, the first key, is primary. */
  lemma NoQuizIsUniform()
    ensures Keys(StyleScores(None)) == Styles
    ensures forall k :: k in Styles ==> ValueOrZero(StyleScores(None), k) == 25
    ensures TopKey(StyleScores(None)) == Visual
  {
    UniformKeys();
    forall k | k in Styles ensures ValueOrZero(UniformScores, k) == 25 {
      UniformValues(k);
    }
    UniformTop();
  }

  /**
   * With quiz answers (even none), each key scores 10 per answer naming it;
   * the four styles come first and every other label becomes a new key, in
   * order of first occurrence.
   */
  lemma QuizScores(answers: seq<string>, k: string)
    ensures ValueOrZero(StyleScores(Some(answers)), k) == PointsPerAnswer * Count(answers, k)
    ensures Keys(StyleScores(Some(answers))) == Styles + NewKeys(Styles, answers)
  {
    TallyValue(ZeroScores, answers, PointsPerAnswer, k);
    ZeroScoresValue(k);
    TallyKeyOrder(ZeroScores, answers, PointsPerAnswer);
  }

  /** An empty answer list resets every style to 0 instead of 25. */
  lemma EmptyQuizScoresZero(k: string)
    requires k in Styles
    ensures ValueOrZero(StyleScores(Some([])), k) == 0
    ensures Keys(StyleScores(Some([]))) == Styles
  {
    QuizScores([], k);
  }

  /**
   * The primary style is the key of the earliest maximal score; since the
   * four styles are the first keys, ties among them go to the earliest of
   * visual, auditory, reading, kinesthetic.
   */
  lemma PrimaryIsEarliestMax(answers: Option<seq<string>>) returns (i: nat)
    ensures Keys(StyleScores(answers))[..4] == Styles
    ensures IsFirstMax(StyleScores(answers), i)
    ensures TopKey(StyleScores(answers)) == StyleScores(answers)[i].key
  {
    if answers.Some? {
      TallyKeyOrder(ZeroScores, answers.value, PointsPerAnswer);
      ZeroScoresValue(Visual);
    } else {
      NoQuizIsUniform();
    }
    i := TopKeyIsFirstMax(StyleScores(answers));
  }

  /** When every answer names one of the four styles, so does the primary style. */
  lemma PrimaryAmongStyles(input: AnalysisInput)
    requires input.studentQuizAnswers.Some? ==> forall a :: a in input.studentQuizAnswers.value ==> a in Styles
    ensures PrimaryStyle(input) in Styles
  {
    var answers := input.studentQuizAnswers;
    var i := PrimaryIsEarliestMax(answers);
    if answers.Some? {
      TallyKeyOrder(ZeroScores, answers.value, PointsPerAnswer);
      ZeroScoresValue(Visual);
      NoNewKeys(answers.value);
    } else {
      NoQuizIsUniform();
    }
    assert Keys(StyleScores(answers)) == Styles;
    assert StyleScores(answers)[i].key == Keys(StyleScores(answers))[i];
  }

  /** A label outside the four styles is tallied under its own key, after the styles. */
  lemma UnknownLabelScores(k: string)
    requires k !in Styles
    ensures StyleScores(Some([k])) == ZeroScores + [Entry(k, PointsPerAnswer)]
  {
    var answers := [k];
    assert answers[..0] == [];
    ZeroScoresValue(k);
    AssignMissing(ZeroScores, k, PointsPerAnswer);
    assert Tally(ZeroScores, answers, PointsPerAnswer) == Bump(ZeroScores, k, PointsPerAnswer);
  }

  /** Such a label, answered once, is the primary style. */
  lemma UnknownLabelCanBePrimary(k: string)
    requires k !in Styles
    ensures PrimaryStyle(AnalysisInput(None, None, Some([k]), None, false)) == k
  {
    UnknownLabelScores(k);
    var scores := ZeroScores + [Entry(k, PointsPerAnswer)];
    var i := TopKeyIsFirstMax(scores);
    assert scores[4].value == PointsPerAnswer;
    assert forall j :: 0 <= j < 4 ==> scores[j].value == 0;
  }

  /** How often each style occurs in the answers visual, visual, kinesthetic. */
  lemma ExampleCounts()
    ensures Count([Visual, Visual, Kinesthetic], Visual) == 2
    ensures Count([Visual, Visual, Kinesthetic], Auditory) == 0
    ensures Count([Visual, Visual, Kinesthetic], Reading) == 0
    ensures Count([Visual, Visual, Kinesthetic], Kinesthetic) == 1
  {
    StyleNamesDiffer();
    forall k | k in Styles
      ensures Count([Visual, Visual, Kinesthetic], k) == (if k == Visual then 2 else 0) + (if k == Kinesthetic then 1 else 0)
    {
      CountSnoc([], Visual, k);
      assert [] + [Visual] == [Visual];
      CountSnoc([Visual], Visual, k);
      assert [Visual] + [Visual] == [Visual, Visual];
      CountSnoc([Visual, Visual], Kinesthetic, k);
      assert [Visual, Visual] + [Kinesthetic] == [Visual, Visual, Kinesthetic];
    }
  }

  /** Quiz answers visual, visual, kinesthetic score 20, 0, 0, 10 and make visual primary. */
  lemma QuizExample()
    ensures var scores := StyleScores(Some([Visual, Visual, Kinesthetic]));
            Keys(scores) == Styles
            && scores[0].value == 20 && scores[1].value == 0 && scores[2].value == 0 && scores[3].value == 10
    ensures PrimaryStyle(AnalysisInput(None, None, Some([Visual, Visual, Kinesthetic]), None, false)) == Visual
  {
    var answers := [Visual, Visual, Kinesthetic];
    var scores := StyleScores(Some(answers));
    NoNewKeys(answers);
    QuizScores(answers, Visual);
    TallyKeys(ZeroScores, answers, PointsPerAnswer);
    ExampleCounts();
    forall j | 0 <= j < 4 ensures scores[j].value == PointsPerAnswer * Count(answers, Styles[j]) {
      assert Keys(scores)[j] == Styles[j];
      LookupFound(scores, j);
      QuizScores(answers, Styles[j]);
    }
    var i := TopKeyIsFirstMax(scores);
  }

  /**
   * The risk score is 30 per concerned respondent plus 20 for a diagnosis, so
   * it is one of 0, 20, 30, 50, 60, 80; the level is High from 50, Medium
   * from 30, Low below. In terms of the input: Low exactly when neither mean
   * is below 3 (a diagnosis alone stays Low), High exactly when both are, or
   * one is and there is a diagnosis.
   */
  lemma RiskLevelRule(input: AnalysisInput)
    ensures RiskScore(input) in {0, 20, 30, 50, 60, 80}
    ensures var level := Level(input);
            (level == High <==> RiskScore(input) >= 50)
            && (level == Medium <==> 30 <= RiskScore(input) < 50)
            && (level == Low <==> RiskScore(input) < 30)
    ensures var level := Level(input);
            (level == Low <==> !TeacherConcern(input) && !ParentConcern(input))
            && (level == High <==>
                  (TeacherConcern(input) && ParentConcern(input))
                  || (input.diagnosedDifficulty && (TeacherConcern(input) || ParentConcern(input))))
  {
  }

  /** The four style names are pairwise different. */
  lemma StyleNamesDiffer()
    ensures Visual != Auditory && Visual != Reading && Visual != Kinesthetic
    ensures Auditory != Reading && Auditory != Kinesthetic && Reading != Kinesthetic
  {
    assert Visual[0] != Auditory[0] && Visual[0] != Reading[0] && Visual[0] != Kinesthetic[0];
    assert Auditory[0] != Reading[0] && Auditory[0] != Kinesthetic[0] && Reading[0] != Kinesthetic[0];
  }

  /** The four factor texts are pairwise different. */
  lemma FactorNamesDiffer()
    ensures TeacherFactor != NoFactors && ParentFactor != NoFactors && DiagnosisFactor != NoFactors
    ensures TeacherFactor != ParentFactor && TeacherFactor != DiagnosisFactor && ParentFactor != DiagnosisFactor
  {
    assert TeacherFactor[0] != NoFactors[0] && ParentFactor[0] != NoFactors[0] && DiagnosisFactor[0] != NoFactors[0];
    assert TeacherFactor[0] != ParentFactor[0] && TeacherFactor[0] != DiagnosisFactor[0] && ParentFactor[0] != DiagnosisFactor[0];
  }

  /**
   * The factor list names the fired rules in the order teacher, parent,
   * diagnosis, and is exactly the single "no factors" entry when none fired.
   */
  lemma RiskFactorsRule(input: AnalysisInput)
    ensures var factors := ReportedFactors(input);
            (factors == [NoFactors] <==> !TeacherConcern(input) && !ParentConcern(input) && !input.diagnosedDifficulty)
            && (factors != [NoFactors] ==> factors == FiredFactors(input))
            && (TeacherConcern(input) <==> TeacherFactor in factors)
            && (ParentConcern(input) <==> ParentFactor in factors)
            && (input.diagnosedDifficulty <==> DiagnosisFactor in factors)
            && (TeacherConcern(input) && ParentConcern(input) ==> factors[0] == TeacherFactor && factors[1] == ParentFactor)
  {
    FactorNamesDiffer();
    var fired := FiredFactors(input);
    if fired != [] {
      assert fired[0] in {TeacherFactor, ParentFactor, DiagnosisFactor};
    }
  }

  /** A present but empty response record has no mean (NaN) and adds nothing. */
  lemma EmptyRecordAddsNothing(input: AnalysisInput)
    requires input.teacherResponses == Some([]) && input.parentResponses == Some([])
    ensures RiskScore(input) == if input.diagnosedDifficulty then 20 else 0
    ensures forall g :: g in ReportedGaps(input) ==> g.area != ReadingGapArea
  {
  }

  /**
   * Gap rules: "Attention & Focus" appears exactly when the risk score
   * exceeds 20 (some mean below 3), significant exactly above 40;
   * "Reading Comprehension" (mild) appears exactly when some teacher rating
   * is below 3; otherwise the list is the single placeholder.
   */
  lemma GapRules(input: AnalysisInput)
    ensures var gaps := ReportedGaps(input);
            var score := RiskScore(input);
            var readingFires := input.teacherResponses.Some? && SomeBelowThree(Values(input.teacherResponses.value));
            ((exists g :: g in gaps && g.area == AttentionGapArea) <==> score > 20)
            && (score > 20 <==> TeacherConcern(input) || ParentConcern(input))
            && (forall g :: g in gaps && g.area == AttentionGapArea ==> (g.severity == Significant <==> score > 40))
            && ((exists g :: g in gaps && g.area == ReadingGapArea && g.severity == Mild) <==> readingFires)
            && (gaps == [PlaceholderGap] <==> score <= 20 && !readingFires)
  {
    var gaps := ReportedGaps(input);
    var found := FoundGaps(input);
    if RiskScore(input) > 20 {
      assert found[0] in gaps;
    }
    if input.teacherResponses.Some? && SomeBelowThree(Values(input.teacherResponses.value)) {
      assert found[|found| - 1] in gaps;
    }
  }

  /**
   * Recommendations: three when the level is Low; otherwise four, the
   * additional-support one first and the three others unchanged after it.
   * The classroom title is the capitalised primary style.
   */
  lemma RecommendationRules(primary: string, level: RiskLevel)
    ensures var recs := Recommendations(primary, level);
            (|recs| == 3 <==> level == Low)
            && (level != Low ==> |recs| == 4 && recs[0] == SupportRecommendation && recs[1..] == BaseRecommendations(primary))
            && (level == Low ==> SupportRecommendation !in recs)
            && ClassroomRecommendation(primary) in recs
            && ClassroomRecommendation(primary).title == Capitalize(primary) + " Learning Strategies"
  {
    var recs := Recommendations(primary, level);
    if level == Low {
      assert SupportRecommendation.category != recs[0].category;
      assert SupportRecommendation.category != recs[1].category;
      assert SupportRecommendation.category != recs[2].category;
    }
  }

  /** `getStyleRecommendation` gives distinct advice to the four styles and visual advice to any other key. */
  lemma StyleAdviceTable(style: string)
    ensures style !in Styles ==> StyleAdvice(style) == VisualAdvice
    ensures forall a, b :: a in Styles && b in Styles && a != b ==> StyleAdvice(a) != StyleAdvice(b)
  {
  }

  /** Teacher ratings 1 and 1 alone: score 30, level Medium, one factor. */
  lemma TeacherOnlyExample()
    ensures var input := AnalysisInput(Some([Entry("q1", 1), Entry("q2", 1)]), None, None, None, false);
            RiskScore(input) == 30
            && Level(input) == Medium && ReportedFactors(input) == [TeacherFactor]
  {
    var vs := Values([Entry("q1", 1), Entry("q2", 1)]);
    assert vs == [1, 1];
    assert Sum(vs) == 2 by { assert vs[..1] == [1]; }
  }

  /** Teacher 1, parent 1 and a diagnosis: score 80, level High. */
  lemma HighRiskExample()
    ensures var input := AnalysisInput(Some([Entry("q1", 1)]), Some([Entry("q1", 1)]), None, None, true);
            RiskScore(input) == 80 && Level(input) == High
  {
    var vs := Values([Entry("q1", 1)]);
    assert vs == [1];
    assert Sum(vs) == 1;
  }
}
