/**
 * What reaches a handler and what a handler produces, with the transport taken
 * out: a message is its sender and its content; a reply is a tag naming which
 * message the bot sends; an outcome adds the change to the sender's session
 * record, a pending answer, a new task row and a new submission row.
 */
module Messages {

  import opened Wrappers
  import opened Session
  import opened Models

  /** The content of one chat message; a photo carries the file id of its largest size. */
  datatype Content =
    | Text(text: string)
    | Photo(fileId: string)
    | Audio(fileId: string)
    | Voice(fileId: string)
    | OtherContent

  datatype Message = Message(sender: int, content: Content)

  // ---------------------------------------------------------------------------
  // Button labels and the fixed reference names

  /** `[f"HSK {i}" for i in range(1, 6)]`. */
  const LevelNames: seq<string> := ["HSK 1", "HSK 2", "HSK 3", "HSK 4", "HSK 5"]

  const Listening: string := "Аудирование"
  const Reading: string := "Чтение"
  const Writing: string := "Письмо"
  const SectionNames: seq<string> := [Listening, Reading, Writing]

  const AddTaskButton: string := "➕ Добавить задание"
  const ExitButton: string := "↩️ Выход"
  const ConfirmButton: string := "✅ Подтвердить"
  const CancelButton: string := "❌ Отменить"

  const NextTaskButton: string := "Следующее задание"
  const TaskListButton: string := "К списку заданий"
  const HomeButton: string := "🏠 В главное меню"
  const NavigationButtons: seq<string> := [NextTaskButton, TaskListButton, HomeButton]
  const BackToLevelsButton: string := "Назад к уровням"
  /** The back button the section's task list offers (user_handlers.py:102). */
  const ArrowBackToLevelsButton: string := "↩️ Назад к уровням"

  const TaskButtonPrefix: string := "Задание "

  // ---------------------------------------------------------------------------
  // Replies

  /** One line of the per-position check: right, or wrong with the expected letter. */
  datatype Mark = Hit | Miss(expected: char)

  /** The feedback text of process_answer, by kind. */
  datatype Feedback =
    | Analysis(text: string)          // writing: the feedback service's text or the fixed fallback
    | AllCorrect                      // A/B block, every position right
    | CheckMarks(marks: seq<Mark>)    // A/B block, one line per position
    | FormatError                     // A/B block, wrong length or a letter other than A/B
    | Right                           // plain task, exact match
    | Wrong(expected: Option<string>) // plain task, with the stored answer

  /** The authoring preview; the answer line only for sections other than writing. */
  datatype Preview = Preview(level: Value, section: Value, number: Value, comment: Value, answer: Option<Value>)

  datatype Reply =
    | Silent                 // no handler sends anything
    | Raised                 // the handler raised before it replied
    // admin flow
    | AccessDenied
    | AdminPanel
    | ExitedAdmin
    | AskLevel
    | InvalidLevel
    | AskSection
    | InvalidSection
    | AskTaskNumber
    | InvalidTaskNumber
    | AskPhoto
    | AskAudio
    | AskComment
    | AskCorrectAnswer
    | ShowPreview(preview: Preview)
    | AddCancelled
    | TaskAdded(task: Task)
    | LevelOrSectionMissing
    | SaveError
    | ExpectedPhoto
    | ExpectedAudio
    | ExpectedText
    // learner flow
    | Welcome
    | LevelNotFound
    | PickSection(level: string)
    | SectionNotFound
    | PickLevelFirst
    | NoTasksYet(section: string)
    | TaskMenu(numbers: seq<int>)
    | SessionExpired
    | TaskNotFound(number: int)
    | ShowTask(task: Task)
    | AnswerFeedback(feedback: Feedback)
    | AnswerError
    | StateError
    | NoCurrentTask
    | CurrentTaskMissing
    | LastTask

  /**
   * Everything one handler does: the change to the sender's record, the reply, the
   * task whose answer the next message will be (register_next_step_handler), the
   * task row it inserts and the submission row it inserts.
   */
  datatype Outcome = Outcome(
    effect: Effect,
    reply: Reply,
    awaiting: Option<Task>,
    saved: Option<Task>,
    submission: Option<Submission>)

  /** An outcome that touches only the sender's record and the reply. */
  function Out(e: Effect, r: Reply): Outcome {
    Outcome(e, r, None, None, None)
  }

  /** An outcome that changes at most the sender's record: no awaited answer, no inserted row. */
  predicate RecordOnly(o: Outcome) {
    o.awaiting == None && o.saved == None && o.submission == None
  }

  /** The rows an optional insert adds. */
  function Rows<T>(x: Option<T>): seq<T> {
    match x
    case None => []
    case Some(v) => [v]
  }
}
