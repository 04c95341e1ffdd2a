/**
 * The builder's lesson-length estimate (`ContentGenerator._estimate_duration`):
 * a reading speed in words per minute and a minimum number of minutes, both
 * chosen by lesson type, applied to the word count of the generated text.
 */
module Duration {
  import opened Text

  /** A minimum duration in minutes and the number of words read per minute. */
  datatype Rule = Rule(floor: nat, wordsPerMinute: nat)

  const THEORY_RULE := Rule(20, 15)
  const PRACTICE_RULE := Rule(30, 10)
  const ASSESSMENT_RULE := Rule(15, 20)

  /** The rule for a lesson type; any type other than the three known ones is read as theory. */
  function RuleFor(lessonType: string): (rule: Rule)
    ensures rule.wordsPerMinute > 0
    ensures lessonType == "practice" ==> rule == PRACTICE_RULE
    ensures lessonType == "assessment" ==> rule == ASSESSMENT_RULE
    ensures lessonType != "practice" && lessonType != "assessment" ==> rule == THEORY_RULE
  {
    if lessonType == "theory" then THEORY_RULE
    else if lessonType == "practice" then PRACTICE_RULE
    else if lessonType == "assessment" then ASSESSMENT_RULE
    else THEORY_RULE
  }

  /** `max(floor, words // wordsPerMinute)` for a word count: never below the floor. */
  function Minutes(words: nat, rule: Rule): (minutes: nat)
    requires rule.wordsPerMinute > 0
    ensures minutes >= rule.floor
  {
    var q := words / rule.wordsPerMinute;
    if q > rule.floor then q else rule.floor
  }

  /**
   * Above the floor, the minutes are the whole minutes it takes to read the
   * words: `minutes * wordsPerMinute <= words < (minutes + 1) * wordsPerMinute`.
   */
  lemma MinutesBounds(words: nat, rule: Rule)
    requires rule.wordsPerMinute > 0
    ensures words < (Minutes(words, rule) + 1) * rule.wordsPerMinute
    ensures Minutes(words, rule) == rule.floor || Minutes(words, rule) * rule.wordsPerMinute <= words
  {
  }

  /** The estimated duration, in minutes, of a lesson of the given type whose generated text is `content`. */
  function EstimateDuration(content: string, lessonType: string): (minutes: nat)
    ensures minutes >= RuleFor(lessonType).floor
  {
    Minutes(WordCount(content), RuleFor(lessonType))
  }

  /**
   * The estimate is never below the type's floor, and otherwise it is the
   * whole minutes it takes to read the text at the type's speed.
   */
  lemma EstimateBounds(content: string, lessonType: string)
    ensures WordCount(content) < (EstimateDuration(content, lessonType) + 1) * RuleFor(lessonType).wordsPerMinute
    ensures EstimateDuration(content, lessonType) == RuleFor(lessonType).floor
         || EstimateDuration(content, lessonType) * RuleFor(lessonType).wordsPerMinute <= WordCount(content)
  {
    MinutesBounds(WordCount(content), RuleFor(lessonType));
  }

  /** More words never give a shorter estimate. */
  lemma MinutesMonotone(a: nat, b: nat, rule: Rule)
    requires rule.wordsPerMinute > 0
    requires a <= b
    ensures Minutes(a, rule) <= Minutes(b, rule)
  {
    var w := rule.wordsPerMinute;
    MultiplyMonotone(b / w + 1, a / w, w);
  }

  lemma MultiplyMonotone(x: nat, y: nat, d: nat)
    ensures x <= y ==> x * d <= y * d
  {
  }

  /** For a fixed lesson type the estimate is monotone in the word count of the text. */
  lemma EstimateMonotone(a: string, b: string, lessonType: string)
    requires WordCount(a) <= WordCount(b)
    ensures EstimateDuration(a, lessonType) <= EstimateDuration(b, lessonType)
  {
    MinutesMonotone(WordCount(a), WordCount(b), RuleFor(lessonType));
  }

  /** An empty or all-whitespace reply has no words and gets exactly the floor. */
  lemma EstimateOfBlank(content: string, lessonType: string)
    requires IsBlank(content)
    ensures WordCount(content) == 0
    ensures EstimateDuration(content, lessonType) == RuleFor(lessonType).floor
  {
    SplitEmptyIffBlank(content);
  }

  /**
   * The estimate sits at the floor exactly when the text is too short to
   * take longer than the floor at the type's reading speed.
   */
  lemma EstimateAtFloorIff(content: string, lessonType: string)
    ensures EstimateDuration(content, lessonType) == RuleFor(lessonType).floor
        <==> WordCount(content) < (RuleFor(lessonType).floor + 1) * RuleFor(lessonType).wordsPerMinute
  {
    var rule := RuleFor(lessonType);
    var w := WordCount(content);
    var m := EstimateDuration(content, lessonType);
    EstimateBounds(content, lessonType);
    if m != rule.floor {
      assert m >= rule.floor + 1;
      MultiplyMonotone(rule.floor + 1, m, rule.wordsPerMinute);
    }
  }

  /** A type string outside "theory", "practice" and "assessment" is estimated as theory. */
  lemma UnknownTypeIsTheory(content: string, lessonType: string)
    requires lessonType != "theory" && lessonType != "practice" && lessonType != "assessment"
    ensures EstimateDuration(content, lessonType) == EstimateDuration(content, "theory")
  {
  }

  /** A reply of the given words, separated by single spaces, is estimated from their number. */
  lemma EstimateOfJoinedWords(words: seq<string>, lessonType: string)
    requires forall i :: 0 <= i < |words| ==> IsWord(words[i])
    ensures EstimateDuration(Join(words, " "), lessonType) == Minutes(|words|, RuleFor(lessonType))
  {
    SplitJoin(words);
  }
}
