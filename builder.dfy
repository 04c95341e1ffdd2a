/**
 * The content builder (`ContentGenerator` in `mentor_app/builder/service.py`):
 * it checks that a module has lesson outlines, asks the language model for
 * each lesson in outline order, turns each reply into a `LessonContent`, and
 * assembles the module. Every failure reaches the caller as a
 * `ContentGenerationError` whose message says where it came from.
 */
module Builder {
  import opened Wrappers
  import opened Text
  import opened Models
  import opened Duration
  import opened Prompts

  /** The exceptions the builder raises or lets through; `message` is `str(e)`. */
  datatype Error =
    | InvalidModuleError(message: string)
    | ContentGenerationError(message: string)
    | ValidationError(message: string)       // raised by Pydantic when a record is built

  /** One call to the language model: the reply's text, or the message of the exception the call raised. */
  type Reply = Result<string, string>

  /**
   * The language model as the builder sees it: the outcome of the `call`-th
   * request of a run, given the prompt. The call number is there because the
   * model samples (temperature 0.7): the same prompt need not get the same reply.
   */
  type Llm = (nat, string) -> Reply

  const NO_LESSONS := "Module must have lessons"

  /** What Pydantic reports when `ModuleContent` is built without its `module_id`. */
  const MISSING_MODULE_ID := "1 validation error for ModuleContent\nmodule_id\n  Field required"

  /** The error for a lesson whose generation failed. */
  function LessonFailure(lessonId: string, cause: string): Error
  {
    ContentGenerationError("Failed to generate lesson " + lessonId + ": " + cause)
  }

  /** The error the module-level catch-all turns any failure into. */
  function ModuleFailure(cause: Error): Error
  {
    ContentGenerationError("Failed to generate module content: " + cause.message)
  }

  /**
   * A lesson failure names the lesson and carries the cause's message, and
   * the module-level wrapper keeps that message whole.
   */
  lemma FailureMessagesKeepCause(lessonId: string, cause: string)
    ensures IsInfix(lessonId, LessonFailure(lessonId, cause).message)
    ensures IsInfix(cause, LessonFailure(lessonId, cause).message)
    ensures IsInfix(LessonFailure(lessonId, cause).message, ModuleFailure(LessonFailure(lessonId, cause)).message)
    ensures IsInfix(cause, ModuleFailure(LessonFailure(lessonId, cause)).message)
  {
    var head := "Failed to generate lesson ";
    var msg := LessonFailure(lessonId, cause).message;
    assert msg == head + lessonId + (": " + cause);
    assert msg[|head|..|head| + |lessonId|] == lessonId;
    assert OccursAt(lessonId, msg, |head|);
    var k := |msg| - |cause|;
    assert msg[k..k + |cause|] == cause;
    assert OccursAt(cause, msg, k);
    var wrapped := ModuleFailure(LessonFailure(lessonId, cause)).message;
    var outer := "Failed to generate module content: ";
    assert wrapped == outer + msg;
    assert wrapped[|outer|..|outer| + |msg|] == msg;
    assert OccursAt(msg, wrapped, |outer|);
    InfixTransitive(cause, msg, wrapped);
  }

  /** `_validate_module`: a module without lesson outlines (None or empty) is rejected. */
  function ValidateModule(m: Module): (failure: Option<Error>)
    ensures failure == None <==> m.lessons.Some? && m.lessons.value != []
    ensures failure != None ==> failure == Some(InvalidModuleError(NO_LESSONS))
  {
    if m.lessons.None? || m.lessons.value == [] then Some(InvalidModuleError(NO_LESSONS))
    else None
  }

  /**
   * `_parse_ai_response`: the lesson keeps the outline's identity and
   * metadata, holds the reply verbatim as its markdown, has no extracted code
   * examples, interactive elements or practice tasks, and is estimated from
   * the reply's words.
   */
  function ParseAiResponse(reply: string, outline: LessonOutline): (lesson: LessonContent)
    ensures OutlineOf(lesson) == outline
    ensures lesson.content_markdown == reply
    ensures lesson.code_examples == [] && lesson.interactive_elements == [] && lesson.practice_tasks == []
    ensures lesson.estimated_duration == EstimateDuration(reply, outline.lesson_type)
    ensures lesson.estimated_duration >= RuleFor(outline.lesson_type).floor
  {
    LessonContent(
      outline.id, outline.title, outline.lesson_type, reply, outline.key_concepts, outline.difficulty,
      [], [], [], EstimateDuration(reply, outline.lesson_type))
  }

  /**
   * Building a `ModuleContent` the way Pydantic does: `module_id` is a
   * required field, so leaving it out is a `ValidationError`.
   */
  function NewModuleContent(moduleId: Option<string>, m: Module, lessons: seq<LessonContent>)
    : (r: Result<ModuleContent, Error>)
    ensures r.Success? <==> moduleId.Some?
    ensures r.Failure? ==> r.error == ValidationError(MISSING_MODULE_ID)
    ensures r.Success? ==>
      && r.value.module_id == moduleId.value
      && r.value.title == m.title
      && r.value.description == m.description
      && r.value.learning_objectives == m.learning_objectives
      && r.value.estimated_duration == m.estimated_duration
      && r.value.lessons == lessons
      && r.value.module_assessment == None
  {
    match moduleId
    case None => Failure(ValidationError(MISSING_MODULE_ID))
    case Some(id) =>
      Success(ModuleContent(id, m.title, m.description, m.learning_objectives,
                            m.estimated_duration, lessons, None))
  }

  /** The prompts for `outlines`, in order: the requests a run that reaches every outline makes. */
  function PromptsFor(outlines: seq<LessonOutline>, course: CourseContext, user: Option<UserContext>): seq<string>
    decreases |outlines|
  {
    if outlines == [] then []
    else
      var n := |outlines| - 1;
      PromptsFor(outlines[..n], course, user) + [BuildLessonPrompt(outlines[n], course, user)]
  }

  /** One prompt per outline, the i-th built from the i-th outline. */
  lemma {:induction false} PromptsForIndex(outlines: seq<LessonOutline>, course: CourseContext, user: Option<UserContext>)
    ensures |PromptsFor(outlines, course, user)| == |outlines|
    ensures forall i :: 0 <= i < |outlines| ==>
              PromptsFor(outlines, course, user)[i] == BuildLessonPrompt(outlines[i], course, user)
    decreases |outlines|
  {
    if outlines != [] {
      var n := |outlines| - 1;
      PromptsForIndex(outlines[..n], course, user);
    }
  }

  /** Reaching one more outline adds its prompt at the end. */
  lemma PromptsForStep(outlines: seq<LessonOutline>, i: nat, course: CourseContext, user: Option<UserContext>)
    requires i < |outlines|
    ensures PromptsFor(outlines[..i + 1], course, user)
         == PromptsFor(outlines[..i], course, user) + [BuildLessonPrompt(outlines[i], course, user)]
  {
    assert outlines[..i + 1][..i] == outlines[..i];
  }

  /** The builder; its language-model client is fixed when it is created. */
  class ContentGenerator {
    const llm: Llm

    constructor (llm: Llm)
      ensures this.llm == llm
    {
      this.llm := llm;
    }

    /**
     * `_generate_lesson_content`: one request to the model, as the `call`-th
     * of the run. A failed request is reported with the lesson's id.
     */
    method GenerateLessonContent(call: nat, outline: LessonOutline, course: CourseContext, user: Option<UserContext>)
      returns (r: Result<LessonContent, Error>, prompt: string)
      ensures prompt == BuildLessonPrompt(outline, course, user)
      ensures r.Success? <==> llm(call, prompt).Success?
      ensures r.Success? ==> r.value == ParseAiResponse(llm(call, prompt).value, outline)
      ensures r.Failure? ==> r.error == LessonFailure(outline.id, llm(call, prompt).error)
    {
      prompt := BuildLessonPrompt(outline, course, user);
      var reply := llm(call, prompt);
      if reply.Failure? {
        return Failure(LessonFailure(outline.id, reply.error)), prompt;
      }
      r := Success(ParseAiResponse(reply.value, outline));
    }

    /** Every request in `prompts`, the i-th made as the i-th call, was answered. */
    ghost predicate Answered(prompts: seq<string>)
    {
      forall i :: 0 <= i < |prompts| ==> llm(i, prompts[i]).Success?
    }

    /** The lessons made from the answers to `prompts`, one per outline, in order. */
    ghost function LessonsOf(outlines: seq<LessonOutline>, prompts: seq<string>): seq<LessonContent>
      requires |prompts| == |outlines| && Answered(prompts)
      decreases |outlines|
    {
      if outlines == [] then []
      else
        var n := |outlines| - 1;
        LessonsOf(outlines[..n], prompts[..n]) + [ParseAiResponse(llm(n, prompts[n]).value, outlines[n])]
    }

    /** One more answered request adds its lesson at the end. */
    lemma LessonsOfStep(outlines: seq<LessonOutline>, prompts: seq<string>, prompt: string)
      requires |prompts| < |outlines| && Answered(prompts) && llm(|prompts|, prompt).Success?
      ensures Answered(prompts + [prompt])
      ensures LessonsOf(outlines[..|prompts| + 1], prompts + [prompt])
           == LessonsOf(outlines[..|prompts|], prompts)
              + [ParseAiResponse(llm(|prompts|, prompt).value, outlines[|prompts|])]
    {
      var i, sent, reached := |prompts|, prompts + [prompt], outlines[..|prompts| + 1];
      forall j | 0 <= j < i + 1 ensures llm(j, sent[j]).Success? {
        if j < i { assert sent[j] == prompts[j]; }
      }
      assert sent[..i] == prompts && reached[..i] == outlines[..i];
      assert sent[i] == prompt && reached[i] == outlines[i];
      assert LessonsOf(reached, sent)
          == LessonsOf(reached[..i], sent[..i]) + [ParseAiResponse(llm(i, sent[i]).value, reached[i])];
    }

    /**
     * The lessons follow the outlines: the i-th lesson has the i-th outline's
     * identity and metadata and holds the i-th reply as its markdown.
     */
    lemma {:induction false} LessonsFollowOutlines(outlines: seq<LessonOutline>, prompts: seq<string>)
      requires |prompts| == |outlines| && Answered(prompts)
      ensures |LessonsOf(outlines, prompts)| == |outlines|
      ensures forall i :: 0 <= i < |outlines| ==>
                && LessonsOf(outlines, prompts)[i] == ParseAiResponse(llm(i, prompts[i]).value, outlines[i])
                && OutlineOf(LessonsOf(outlines, prompts)[i]) == outlines[i]
                && LessonsOf(outlines, prompts)[i].content_markdown == llm(i, prompts[i]).value
      decreases |outlines|
    {
      if outlines != [] {
        var n := |outlines| - 1;
        assert Answered(prompts[..n]);
        LessonsFollowOutlines(outlines[..n], prompts[..n]);
      }
    }

    /** Every outline got a request, in order, and every request was answered. */
    ghost predicate Finished(outlines: seq<LessonOutline>, course: CourseContext, user: Option<UserContext>, prompts: seq<string>)
    {
      && prompts == PromptsFor(outlines, course, user)
      && |prompts| == |outlines|
      && Answered(prompts)
    }

    /**
     * The run stopped at a failed request: the outlines up to and including
     * that one got a request, in order, and every request before it was answered.
     */
    ghost predicate Stopped(outlines: seq<LessonOutline>, course: CourseContext, user: Option<UserContext>, prompts: seq<string>)
    {
      && 0 < |prompts| <= |outlines|
      && prompts == PromptsFor(outlines[..|prompts|], course, user)
      && Answered(prompts[..|prompts| - 1])
      && llm(|prompts| - 1, prompts[|prompts| - 1]).Failure?
    }

    /** The error a stopped run reports: the failed request's message, with its lesson's id. */
    ghost function StopError(outlines: seq<LessonOutline>, course: CourseContext, user: Option<UserContext>, prompts: seq<string>): Error
      requires Stopped(outlines, course, user, prompts)
    {
      LessonFailure(outlines[|prompts| - 1].id, llm(|prompts| - 1, prompts[|prompts| - 1]).error)
    }

    /** A failed request after answered ones stops the run there, with that request's error. */
    lemma StopAt(outlines: seq<LessonOutline>, course: CourseContext, user: Option<UserContext>,
                 answered: seq<string>, prompt: string)
      requires |answered| < |outlines|
      requires answered == PromptsFor(outlines[..|answered|], course, user) && Answered(answered)
      requires prompt == BuildLessonPrompt(outlines[|answered|], course, user)
      requires llm(|answered|, prompt).Failure?
      ensures Stopped(outlines, course, user, answered + [prompt])
      ensures StopError(outlines, course, user, answered + [prompt])
           == LessonFailure(outlines[|answered|].id, llm(|answered|, prompt).error)
    {
      var i, sent := |answered|, answered + [prompt];
      PromptsForStep(outlines, i, course, user);
      assert sent[..i] == answered && sent[i] == prompt;
    }

    /**
     * The per-lesson loop of `generate_module_content`. `prompts` are the
     * requests made, in order. Either every outline got an answered request
     * and the lessons are made from the replies, or the run stopped at the
     * first failed request and reports it with that lesson's id, without any
     * lessons.
     */
    method GenerateLessons(outlines: seq<LessonOutline>, course: CourseContext, user: Option<UserContext>)
      returns (r: Result<seq<LessonContent>, Error>, prompts: seq<string>)
      ensures r.Success? ==> Finished(outlines, course, user, prompts) && r.value == LessonsOf(outlines, prompts)
      ensures r.Failure? ==> Stopped(outlines, course, user, prompts) && r.error == StopError(outlines, course, user, prompts)
    {
      var lessons: seq<LessonContent> := [];
      prompts := [];
      for i := 0 to |outlines|
        invariant |prompts| == i
        invariant prompts == PromptsFor(outlines[..i], course, user)
        invariant Answered(prompts)
        invariant lessons == LessonsOf(outlines[..i], prompts)
      {
        var lesson, prompt := GenerateLessonContent(i, outlines[i], course, user);
        if lesson.Failure? {
          StopAt(outlines, course, user, prompts, prompt);
          return Failure(lesson.error), prompts + [prompt];
        }
        PromptsForStep(outlines, i, course, user);
        LessonsOfStep(outlines, prompts, prompt);
        prompts := prompts + [prompt];
        lessons := lessons + [lesson.value];
      }
      assert outlines[..|outlines|] == outlines;
      r := Success(lessons);
    }

    /**
     * The pipeline of `generate_module_content` with the record built from
     * `moduleId`: validate, generate every lesson, assemble, and re-wrap any
     * failure as "Failed to generate module content: ...".
     */
    method Generate(moduleId: Option<string>, m: Module, course: CourseContext, user: Option<UserContext>)
      returns (r: Result<ModuleContent, Error>, prompts: seq<string>)
      ensures ValidateModule(m) != None ==>
        prompts == [] && r == Failure(ModuleFailure(InvalidModuleError(NO_LESSONS)))
      ensures ValidateModule(m) == None ==>
        Finished(m.lessons.value, course, user, prompts) || Stopped(m.lessons.value, course, user, prompts)
      ensures ValidateModule(m) == None && Stopped(m.lessons.value, course, user, prompts) ==>
        r == Failure(ModuleFailure(StopError(m.lessons.value, course, user, prompts)))
      ensures ValidateModule(m) == None && Finished(m.lessons.value, course, user, prompts) ==>
        r == match NewModuleContent(moduleId, m, LessonsOf(m.lessons.value, prompts))
             case Success(record) => Success(record)
             case Failure(e) => Failure(ModuleFailure(e))
    {
      var invalid := ValidateModule(m);
      if invalid.Some? {
        return Failure(ModuleFailure(invalid.value)), [];
      }
      var outlines := m.lessons.value;
      var lessons;
      lessons, prompts := GenerateLessons(outlines, course, user);
      if lessons.Failure? {
        return Failure(ModuleFailure(lessons.error)), prompts;
      }
      var assembled := NewModuleContent(moduleId, m, lessons.value);
      if assembled.Failure? {
        return Failure(ModuleFailure(assembled.error)), prompts;
      }
      r := assembled;
    }

    /**
     * `generate_module_content` as written: `ModuleContent` is built without
     * its required `module_id`, so the call never succeeds. A module without
     * lessons fails before any request; otherwise the requests are made as in
     * `GenerateLessons`, and the caller sees either the first lesson failure
     * or, when every lesson succeeded, the validation error.
     */
    method GenerateModuleContent(m: Module, course: CourseContext, user: Option<UserContext>)
      returns (r: Result<ModuleContent, Error>, prompts: seq<string>)
      ensures r.Failure?
      ensures ValidateModule(m) != None ==>
        prompts == [] && r.error == ModuleFailure(InvalidModuleError(NO_LESSONS))
      ensures ValidateModule(m) == None ==>
        Finished(m.lessons.value, course, user, prompts) || Stopped(m.lessons.value, course, user, prompts)
      ensures ValidateModule(m) == None && Finished(m.lessons.value, course, user, prompts) ==>
        r.error == ModuleFailure(ValidationError(MISSING_MODULE_ID))
      ensures ValidateModule(m) == None && Stopped(m.lessons.value, course, user, prompts) ==>
        r.error == ModuleFailure(StopError(m.lessons.value, course, user, prompts))
    {
      r, prompts := Generate(None, m, course, user);
    }

    /**
     * `generate_module_content` with the module's id passed on as
     * `module_id`: it succeeds exactly when the module has lessons and every
     * request is answered, and then the record carries the module's id and
     * metadata and the lessons made from the replies, one per outline, in order.
     */
    method GenerateModuleContentWithId(m: Module, course: CourseContext, user: Option<UserContext>)
      returns (r: Result<ModuleContent, Error>, prompts: seq<string>)
      ensures r.Success? <==> ValidateModule(m) == None && Finished(m.lessons.value, course, user, prompts)
      ensures ValidateModule(m) != None ==>
        prompts == [] && r.error == ModuleFailure(InvalidModuleError(NO_LESSONS))
      ensures ValidateModule(m) == None ==>
        Finished(m.lessons.value, course, user, prompts) || Stopped(m.lessons.value, course, user, prompts)
      ensures r.Success? ==>
        r.value == ModuleContent(m.id, m.title, m.description, m.learning_objectives, m.estimated_duration,
                                 LessonsOf(m.lessons.value, prompts), None)
      ensures ValidateModule(m) == None && Stopped(m.lessons.value, course, user, prompts) ==>
        r.error == ModuleFailure(StopError(m.lessons.value, course, user, prompts))
    {
      r, prompts := Generate(Some(m.id), m, course, user);
    }
  }
}
