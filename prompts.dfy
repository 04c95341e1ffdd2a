/**
 * How the builder phrases its request for one lesson
 * (`ContentGenerator._build_lesson_prompt` and
 * `ContentGenerator._get_lesson_type_instructions`). A prompt is the
 * concatenation of fixed template text and the fields of the course, the
 * learner and the lesson outline.
 */
module Prompts {
  import opened Wrappers
  import opened Text
  import opened Models

  // The instruction block for each lesson type, represented by its heading
  // line; the bullet points under each heading are not reproduced.
  const THEORY_INSTRUCTIONS := "Instructions for Theory Lesson:"
  const PRACTICE_INSTRUCTIONS := "Instructions for Practice Lesson:"
  const ASSESSMENT_INSTRUCTIONS := "Instructions for Assessment Lesson:"

  /** The fallback line for every other lesson type. */
  const GENERIC_INSTRUCTIONS: string :=
    "Generate appropriate lesson content based on the lesson type and context."

  /**
   * The instruction block for a lesson type. The match is exact and
   * case-sensitive: "Theory" gets the generic line, as does every other
   * string outside the three known types.
   */
  function LessonTypeInstructions(lessonType: string): (text: string)
    ensures text != []
  {
    if lessonType == "theory" then THEORY_INSTRUCTIONS
    else if lessonType == "practice" then PRACTICE_INSTRUCTIONS
    else if lessonType == "assessment" then ASSESSMENT_INSTRUCTIONS
    else GENERIC_INSTRUCTIONS
  }

  /** Each of the four instruction blocks is chosen for exactly its lesson types. */
  lemma InstructionsByType(lessonType: string)
    ensures LessonTypeInstructions(lessonType) == THEORY_INSTRUCTIONS <==> lessonType == "theory"
    ensures LessonTypeInstructions(lessonType) == PRACTICE_INSTRUCTIONS <==> lessonType == "practice"
    ensures LessonTypeInstructions(lessonType) == ASSESSMENT_INSTRUCTIONS <==> lessonType == "assessment"
    ensures LessonTypeInstructions(lessonType) == GENERIC_INSTRUCTIONS
        <==> lessonType != "theory" && lessonType != "practice" && lessonType != "assessment"
  {
  }

  /** `course_context.user_instructions or 'None'`: a missing or empty value prints as None. */
  function SpecialInstructions(userInstructions: Option<string>): (text: string)
    ensures text != []
    ensures userInstructions == None || userInstructions == Some([]) ==> text == "None"
    ensures userInstructions.Some? && userInstructions.value != [] ==> text == userInstructions.value
  {
    match userInstructions
    case Some(s) => if s == [] then "None" else s
    case None => "None"
  }

  // The fixed text of the prompt template, piece by piece.
  const USER_HEADER := "\nUser Context:\n- Skill Level: "
  const STYLE_LABEL := "\n- Learning Style: "
  const PRIOR_LABEL := "\n- Prior Knowledge: "
  const LIST_SEPARATOR := ", "
  const LINE_END := "\n"
  const COURSE_HEADER := "Generate a complete lesson for an educational course.\n\nCourse Context:\n- Course: "
  const DOMAIN_LABEL := "\n- Domain: "
  const DIFFICULTY_LABEL := "\n- Difficulty: "
  const SPECIAL_LABEL := "\n- Special Instructions: "
  const BLANK_LINE := "\n\n"
  const LESSON_HEADER := "\n\nLesson Details:\n- Title: "
  const TYPE_LABEL := "\n- Type: "
  const CONCEPTS_LABEL := "\n- Key Concepts: "
  const CLOSING := "\n\nGenerate the complete lesson content now."

  /** The pieces of the learner section, in order. */
  function UserSectionParts(user: UserContext): seq<string>
  {
    [ USER_HEADER, user.skill_level,
      STYLE_LABEL, user.learning_style,
      PRIOR_LABEL, Join(user.prior_knowledge, LIST_SEPARATOR),
      LINE_END ]
  }

  /**
   * The learner section of the prompt: empty without a learner profile;
   * otherwise it names the skill level, the learning style and the prior
   * knowledge joined by ", ".
   */
  function UserSection(user: Option<UserContext>): (text: string)
    ensures text == [] <==> user.None?
  {
    match user
    case None => []
    case Some(u) => Concat(UserSectionParts(u))
  }

  /** The learner section names the skill level, the learning style and every item of prior knowledge. */
  lemma UserSectionMentions(u: UserContext)
    ensures IsInfix(u.skill_level, UserSection(Some(u)))
    ensures IsInfix(u.learning_style, UserSection(Some(u)))
    ensures IsInfix(Join(u.prior_knowledge, LIST_SEPARATOR), UserSection(Some(u)))
    ensures forall k :: 0 <= k < |u.prior_knowledge| ==> IsInfix(u.prior_knowledge[k], UserSection(Some(u)))
  {
    var parts := UserSectionParts(u);
    PartIsInfix(parts, 1);
    PartIsInfix(parts, 3);
    PartIsInfix(parts, 5);
    forall k | 0 <= k < |u.prior_knowledge| ensures IsInfix(u.prior_knowledge[k], Concat(parts)) {
      JoinedPartIsInfix(u.prior_knowledge, LIST_SEPARATOR, k);
      InfixTransitive(u.prior_knowledge[k], parts[5], Concat(parts));
    }
  }

  /** The pieces of a lesson prompt before the learner section: the course. */
  function CourseParts(course: CourseContext): seq<string>
  {
    [ COURSE_HEADER, course.course_title,
      DOMAIN_LABEL, course.topic_domain,
      DIFFICULTY_LABEL, course.difficulty_level,
      SPECIAL_LABEL, SpecialInstructions(course.user_instructions),
      BLANK_LINE ]
  }

  /** The pieces of a lesson prompt after the learner section: the lesson. */
  function LessonParts(outline: LessonOutline): seq<string>
  {
    [ LESSON_HEADER, outline.title,
      TYPE_LABEL, outline.lesson_type,
      CONCEPTS_LABEL, Join(outline.key_concepts, LIST_SEPARATOR),
      DIFFICULTY_LABEL, outline.difficulty,
      BLANK_LINE, LessonTypeInstructions(outline.lesson_type),
      CLOSING ]
  }

  /** The pieces of a lesson prompt, in order. */
  function PromptParts(outline: LessonOutline, course: CourseContext, user: Option<UserContext>): seq<string>
  {
    CourseParts(course) + [UserSection(user)] + LessonParts(outline)
  }

  /** The prompt sent to the language model for one lesson. */
  function BuildLessonPrompt(outline: LessonOutline, course: CourseContext, user: Option<UserContext>): string
  {
    Concat(PromptParts(outline, course, user))
  }

  /** Infix is transitive. */
  lemma InfixTransitive(a: string, b: string, c: string)
    requires IsInfix(a, b) && IsInfix(b, c)
    ensures IsInfix(a, c)
  {
    var i :| OccursAt(a, b, i);
    var j :| OccursAt(b, c, j);
    forall t | 0 <= t < |a| ensures c[j + i + t] == a[t] {
      assert c[j + i + t] == c[j..j + |b|][i + t] == b[i + t];
      assert b[i + t] == b[i..i + |a|][t];
    }
    assert OccursAt(a, c, j + i);
  }

  /**
   * The prompt carries everything the model is told: the course title,
   * domain and difficulty, the special instructions (or None), the learner
   * section, the lesson's title, type and difficulty, the key concepts
   * (joined, and each one), and the instruction block for the lesson's type.
   */
  lemma PromptMentions(outline: LessonOutline, course: CourseContext, user: Option<UserContext>)
    ensures IsInfix(course.course_title, BuildLessonPrompt(outline, course, user))
    ensures IsInfix(course.topic_domain, BuildLessonPrompt(outline, course, user))
    ensures IsInfix(course.difficulty_level, BuildLessonPrompt(outline, course, user))
    ensures IsInfix(SpecialInstructions(course.user_instructions), BuildLessonPrompt(outline, course, user))
    ensures IsInfix(UserSection(user), BuildLessonPrompt(outline, course, user))
    ensures IsInfix(outline.title, BuildLessonPrompt(outline, course, user))
    ensures IsInfix(outline.lesson_type, BuildLessonPrompt(outline, course, user))
    ensures IsInfix(outline.difficulty, BuildLessonPrompt(outline, course, user))
    ensures IsInfix(Join(outline.key_concepts, LIST_SEPARATOR), BuildLessonPrompt(outline, course, user))
    ensures forall k :: 0 <= k < |outline.key_concepts| ==>
              IsInfix(outline.key_concepts[k], BuildLessonPrompt(outline, course, user))
    ensures IsInfix(LessonTypeInstructions(outline.lesson_type), BuildLessonPrompt(outline, course, user))
  {
    var parts := PromptParts(outline, course, user);
    var prompt := BuildLessonPrompt(outline, course, user);
    PartIsInfix(parts, 1);
    PartIsInfix(parts, 3);
    PartIsInfix(parts, 5);
    PartIsInfix(parts, 7);
    PartIsInfix(parts, 9);
    PartIsInfix(parts, 11);
    PartIsInfix(parts, 13);
    PartIsInfix(parts, 15);
    PartIsInfix(parts, 17);
    PartIsInfix(parts, 19);
    forall k | 0 <= k < |outline.key_concepts| ensures IsInfix(outline.key_concepts[k], prompt) {
      JoinedPartIsInfix(outline.key_concepts, LIST_SEPARATOR, k);
      InfixTransitive(outline.key_concepts[k], parts[15], prompt);
    }
  }

  /** A prompt is the course block, then the learner section, then the lesson details. */
  lemma PromptSections(outline: LessonOutline, course: CourseContext, user: Option<UserContext>)
    ensures BuildLessonPrompt(outline, course, user)
         == Concat(CourseParts(course)) + UserSection(user) + Concat(LessonParts(outline))
  {
    ConcatAppend(CourseParts(course) + [UserSection(user)], LessonParts(outline));
    ConcatAppend(CourseParts(course), [UserSection(user)]);
    assert Concat([UserSection(user)]) == UserSection(user);
  }

  /**
   * The prompt for a learner differs from the prompt without one only by the
   * learner section, which sits between the course block and the lesson
   * details.
   */
  lemma PromptWithoutUser(outline: LessonOutline, course: CourseContext, u: UserContext)
    ensures BuildLessonPrompt(outline, course, None)
         == Concat(CourseParts(course)) + Concat(LessonParts(outline))
    ensures BuildLessonPrompt(outline, course, Some(u))
         == Concat(CourseParts(course)) + UserSection(Some(u)) + Concat(LessonParts(outline))
  {
    PromptSections(outline, course, None);
    PromptSections(outline, course, Some(u));
    assert Concat(CourseParts(course)) + [] == Concat(CourseParts(course));
  }
}
