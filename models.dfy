/**
 * The records the content builder consumes and produces, transcribed from
 * the Pydantic models of the application (`mentor_app.models` and
 * `mentor_app.builder.models`). Python `str` is `string`, `List[T]` is
 * `seq<T>`, `Optional[T]` is `Option<T>`.
 */
module Models {
  import opened Wrappers

  /** The learner's profile. */
  datatype UserContext = UserContext(
    skill_level: string,
    learning_style: string,
    time_commitment: int,
    prior_knowledge: seq<string>)

  /** A planned lesson, before its content is generated. */
  datatype LessonOutline = LessonOutline(
    id: string,
    title: string,
    lesson_type: string,        // the Python field `type`
    key_concepts: seq<string>,
    difficulty: string)

  /** A module of a course plan; `lessons` is `None` until its structure is expanded. */
  datatype Module = Module(
    id: string,
    title: string,
    description: string,
    learning_objectives: seq<string>,
    estimated_duration: int,
    dependencies: seq<string>,
    lessons: Option<seq<LessonOutline>>)

  /** What the builder knows about the course a module belongs to. */
  datatype CourseContext = CourseContext(
    course_title: string,
    difficulty_level: string,
    topic_domain: string,
    user_instructions: Option<string>)

  datatype CodeExample = CodeExample(
    language: string,
    code: string,
    explanation: string,
    is_runnable: bool)

  /** `content` is a `Dict[str, Any]` in the source; its values are kept as text here. */
  datatype InteractiveElement = InteractiveElement(
    element_type: string,       // the Python field `type`
    content: map<string, string>,
    validation_logic: string)

  datatype TestCase = TestCase(
    input_data: string,
    expected_output: string,
    description: string)

  datatype PracticeTask = PracticeTask(
    id: string,
    title: string,
    description: string,
    task_type: string,
    starter_code: Option<string>,
    solution: string,
    test_cases: seq<TestCase>,
    hints: seq<string>)

  /** A fully generated lesson: the outline's fields plus the generated body. */
  datatype LessonContent = LessonContent(
    id: string,
    title: string,
    lesson_type: string,        // the Python field `type`
    content_markdown: string,
    key_concepts: seq<string>,
    difficulty: string,
    code_examples: seq<CodeExample>,
    interactive_elements: seq<InteractiveElement>,
    practice_tasks: seq<PracticeTask>,
    estimated_duration: int)

  datatype Question = Question(
    id: string,
    question_type: string,      // the Python field `type`
    question_text: string,
    options: Option<seq<string>>,
    correct_answer: string,
    explanation: string,
    points: int)

  datatype Assessment = Assessment(
    id: string,
    title: string,
    questions: seq<Question>,
    passing_score: int,
    time_limit: Option<int>)

  /** A fully generated module. `module_id` is a required field. */
  datatype ModuleContent = ModuleContent(
    module_id: string,
    title: string,
    description: string,
    learning_objectives: seq<string>,
    estimated_duration: int,
    lessons: seq<LessonContent>,
    module_assessment: Option<Assessment>)

  /** The outline fields a lesson carries over from the outline it was generated from. */
  function OutlineOf(lesson: LessonContent): LessonOutline
  {
    LessonOutline(lesson.id, lesson.title, lesson.lesson_type, lesson.key_concepts, lesson.difficulty)
  }
}
