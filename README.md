# LearnSmith content builder, in Dafny

This project models the content builder of LearnSmith: `ContentGenerator` in
`src/mentor_app/builder/service.py`. The builder takes one module of a course
plan and produces its lesson content in these steps:

- It checks that the module has lesson outlines.
- It asks a language model for each lesson, in outline order.
- For each lesson it builds a prompt from the course, the optional learner
  profile and the outline.
- It turns each reply into a `LessonContent`. The record keeps the outline's
  fields and the reply verbatim, and its duration is estimated from the
  reply's word count.
- It assembles the lessons into a `ModuleContent`.
- It re-raises any failure as a `ContentGenerationError`.

Files:

- `wrappers.dfy`: `Option` and `Result`.
- `models.dfy`: the Pydantic records the builder reads and writes.
- `text.dfy`: Python's `str.split()` (with the full `str.isspace` character
  set) and `sep.join`.
- `duration.dfy`: `_estimate_duration`.
- `prompts.dfy`: `_build_lesson_prompt` and `_get_lesson_type_instructions`.
- `builder.dfy`: `_validate_module`, `_parse_ai_response`,
  `_generate_lesson_content` and `generate_module_content`.

The language model is an oracle. It is the constant field `llm` of the
`ContentGenerator` class, fixed when the builder is created, like
`self.llm_client`. `llm(i, p)` is the outcome of the `i`-th request of a run
whose prompt is `p`: either the reply text or the message of the exception
the call raised. The request number is part of the oracle because the client
samples at temperature 0.7, so the same prompt need not get the same reply
twice.

The lesson loop of `generate_module_content` is an imperative method. Its
invariants cover the processed prefix of the outlines:

- the prompts sent so far are `PromptsFor` that prefix;
- every request so far was answered;
- the lessons collected are `LessonsOf` those outlines and replies.

A run ends in one of two ways:

- `Finished`: every outline got a request and every request was answered.
- `Stopped`: the run stopped at the first failed request.

`_validate_module` raises `InvalidModuleError` at `service.py:62-63`, but the
caller of `generate_module_content` never sees it. The validation runs inside
the `try` whose catch-all at `service.py:57-58` re-raises it as
`ContentGenerationError("Failed to generate module content: Module must have
lessons")`, and the model reports it that way.

## Model

| member | source | states |
|---|---|---|
| Text.Split | src/mentor_app/builder/service.py:167 | `str.split()` yields at most one word per character of the text; which words it yields is fixed by `SplitAtSpace` and `SplitOfWord`, and described by the lemmas below |
| Text.WordCount | src/mentor_app/builder/service.py:167 | `len(content.split())` never exceeds the length of the text; its exact value is given by `WordCountIsWordStarts` |
| Text.SplitAtSpace | src/mentor_app/builder/service.py:167 | every whitespace character separates: for any whitespace character `c`, `(a + c + b).split()` is `a.split() + b.split()`. With `"".split() == []` and `SplitOfWord` this determines `split()` on every string, so its words are the maximal whitespace-free runs (`"a\tb"` gives two words, never `"ab"`) |
| Text.SplitOfWord | src/mentor_app/builder/service.py:167 | a text with no whitespace splits into itself as the only word |
| Text.WordCountIsWordStarts | src/mentor_app/builder/service.py:167 | `len(s.split())` is the number of non-whitespace characters that open the text or follow whitespace, counted character by character without splitting |
| Text.SplitYieldsWords | src/mentor_app/builder/service.py:167 | every piece `split()` yields is a non-empty run of non-whitespace characters |
| Text.SplitEmptyIffBlank | src/mentor_app/builder/service.py:167 | `split()` yields no words exactly when the text is empty or all whitespace |
| Text.SplitKeepsText | src/mentor_app/builder/service.py:167 | the words, concatenated, are exactly the non-whitespace characters of the text, in order: splitting drops only whitespace |
| Text.SplitJoin | src/mentor_app/builder/service.py:167 | round trip: words joined by single spaces split back into the same words |
| Text.JoinAppend | src/mentor_app/builder/service.py:108 | `sep.join(parts)` puts one separator between each two parts: joining one more part appends the separator and that part |
| Text.JoinLength | src/mentor_app/builder/service.py:108 | the length of `sep.join(parts)` is the length of the parts plus one separator between each two |
| Text.JoinedPartIsInfix | src/mentor_app/builder/service.py:108 | every joined part occurs in the joined text |
| Duration.RuleFor | src/mentor_app/builder/service.py:169-176 | floor and reading speed per lesson type: theory 20 min at 15 words/min, practice 30 at 10, assessment 15 at 20, any other type as theory |
| Duration.Minutes | src/mentor_app/builder/service.py:170 | `max(floor, words // speed)` is never below the floor |
| Duration.MinutesBounds | src/mentor_app/builder/service.py:170-176 | above the floor the minutes are the whole minutes of reading: `m * speed <= words < (m + 1) * speed` |
| Duration.EstimateDuration | src/mentor_app/builder/service.py:165-176 | the estimate is never below the lesson type's floor |
| Duration.EstimateBounds | src/mentor_app/builder/service.py:165-176 | the estimate is the floor or the whole minutes needed to read the reply's words at the type's speed, and the words never outlast the estimate by a full minute |
| Duration.MinutesMonotone | src/mentor_app/builder/service.py:170-176 | more words never give fewer minutes |
| Duration.EstimateMonotone | src/mentor_app/builder/service.py:165-176 | for a fixed type, a reply with more words never gets a shorter estimate |
| Duration.EstimateOfBlank | src/mentor_app/builder/service.py:167-176 | a blank reply has no words and gets exactly the type's floor |
| Duration.EstimateAtFloorIff | src/mentor_app/builder/service.py:165-176 | the estimate is at the floor exactly when the word count is below `(floor + 1) * speed` |
| Duration.UnknownTypeIsTheory | src/mentor_app/builder/service.py:175-176 | a type other than theory, practice and assessment is estimated exactly as theory |
| Duration.EstimateOfJoinedWords | src/mentor_app/builder/service.py:167-176 | a reply made of n words separated by spaces is estimated from n |
| Prompts.LessonTypeInstructions | src/mentor_app/builder/service.py:115-147 | the instruction block is never empty; which block each type gets is stated by `InstructionsByType` |
| Prompts.InstructionsByType | src/mentor_app/builder/service.py:115-147 | four outcomes, each chosen for exactly its lesson types: "theory", "practice" and "assessment" get their own blocks, every other string (including "Theory") gets the generic line |
| Prompts.SpecialInstructions | src/mentor_app/builder/service.py:101 | `user_instructions or 'None'`: a missing or empty value prints as "None", any other value prints as itself, and the result is never empty |
| Prompts.UserSection | src/mentor_app/builder/service.py:84-91 | the learner section is empty exactly when there is no learner profile |
| Prompts.UserSectionMentions | src/mentor_app/builder/service.py:86-91 | the learner section names the skill level, the learning style, the joined prior knowledge and each prior-knowledge item |
| Prompts.PromptSections | src/mentor_app/builder/service.py:95-113 | `BuildLessonPrompt` is the course block, then the learner section, then the lesson details |
| Prompts.PromptMentions | src/mentor_app/builder/service.py:95-113 | the prompt contains the course title, domain and difficulty, the special instructions (or None), the learner section, the lesson title, type and difficulty, the joined key concepts and each key concept, and the instruction block for the lesson's type |
| Prompts.PromptWithoutUser | src/mentor_app/builder/service.py:84-104 | without a learner profile the prompt is the course block followed by the lesson details; with one, the learner section is inserted between them and nothing else changes |
| Builder.FailureMessagesKeepCause | src/mentor_app/builder/service.py:78-79 | a lesson failure's message names the lesson id and contains the cause, and the module-level wrapper keeps that message whole |
| Builder.ValidateModule | src/mentor_app/builder/service.py:60-63 | a module passes exactly when its lesson list is present and non-empty; otherwise the error is `InvalidModuleError("Module must have lessons")` |
| Builder.ParseAiResponse | src/mentor_app/builder/service.py:149-163 | the lesson carries the outline's id, title, type, key concepts and difficulty, holds the reply verbatim, has no code examples, interactive elements or practice tasks, and is estimated from the reply (at least the type's floor) |
| Builder.NewModuleContent | src/mentor_app/builder/models.py:99-106 | a `ModuleContent` is built exactly when `module_id` is supplied; then it carries the given fields and no assessment, otherwise it is a validation error |
| Builder.PromptsForIndex | src/mentor_app/builder/service.py:43-46 | one prompt per outline, the i-th built from the i-th outline |
| Builder.ContentGenerator.constructor | src/mentor_app/builder/service.py:24-29 | the builder keeps the client it is given |
| Builder.ContentGenerator.GenerateLessonContent | src/mentor_app/builder/service.py:65-79 | sends the lesson's prompt; succeeds exactly when the model answers, with the parsed reply; otherwise fails with "Failed to generate lesson {id}: {cause}" |
| Builder.ContentGenerator.LessonsFollowOutlines | src/mentor_app/builder/service.py:42-47 | the lessons are in outline order: the i-th has the i-th outline's fields and holds the i-th reply |
| Builder.ContentGenerator.GenerateLessons | src/mentor_app/builder/service.py:42-47 | either every outline got an answered request in order and the lessons are made from the replies, or the run stopped at the first failed request and reports that lesson's failure |
| Builder.ContentGenerator.Generate | src/mentor_app/builder/service.py:39-58 | a module without lessons fails before any request; otherwise the run finishes or stops; a stopped run's error is wrapped as "Failed to generate module content: ..."; a finished run builds the record, and a failure to build it is wrapped the same way |
| Builder.ContentGenerator.GenerateModuleContent | src/mentor_app/builder/service.py:32-58 | as written, the call never succeeds: each failure case carries its wrapped error, and when every lesson succeeds the error is the missing `module_id` |
| Builder.ContentGenerator.GenerateModuleContentWithId | src/mentor_app/builder/service.py:32-58 | with `module_id = module.id`, the call succeeds exactly when the module has lessons and every request is answered; then the record holds the module's id and metadata and the lessons made from the replies, in outline order |

## Left out

- Building the default client from `OPENAI_API_KEY`, and the network call itself. The client is the `llm` oracle. The request is a single human message holding the prompt, and the reply's `content` is assumed to be text.
- `self.architect = ArchitectService()` (`service.py:30`). `ArchitectService.__init__` takes a required `llm_client` argument (`architect/service.py:7`), so this line raises `TypeError`. As written, no `ContentGenerator` can be built at all, and neither can the callers that construct one (`demo_integration.py:28`, `mentor/mentor_service.py:17`). The model's constructor deliberately does not reproduce that `TypeError`: it only keeps the client, so the generation methods can be modelled. The builder never uses `self.architect` otherwise.
- The `sys.path` manipulation and the imports (`service.py:8-20`).
- The bullet lines of the three instruction blocks (`service.py:119-144`). Each block is represented by its heading line, so the four outcomes stay distinct. The generic fallback line is kept in full.
- The exact text of Pydantic's validation error for the missing `module_id`. The model uses a fixed message of the same shape.
- `InteractiveElement.content` is a `Dict[str, Any]` in the source; the model keeps its values as text. The builder never fills it.
- Exceptions raised while building a prompt: with well-typed records none can occur.
- The other services (architect, mentor, auditor, API, persistence), the quiz factory and the generator stubs are not part of this model.

## Findings

| source | as written | input that shows it | evidently intended | confidence | as-written member | corrected member |
|---|---|---|---|---|---|---|
| src/mentor_app/builder/service.py:49-55 | `ModuleContent(...)` is built without `module_id`, which `builder/models.py:100` declares required, so Pydantic raises a validation error; the catch-all then turns every run into `ContentGenerationError` | any module with at least one lesson outline whose requests are all answered | pass `module_id=module.id`, so a fully answered run returns the module's content | not executed | Builder.ContentGenerator.GenerateModuleContent | Builder.ContentGenerator.GenerateModuleContentWithId |

The corrected member adds `module_id = module.id`. This is a deviation from
the code as written: the source never sets `module_id`. The id of the module
is the value its record is evidently meant to carry.
