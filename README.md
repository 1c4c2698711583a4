# HSK quiz bot: the per-user conversational state machine

This project models the core of a Telegram quiz bot for HSK exam practice. A learner
picks a level, a section and a task, answers it, has the answer graded, and moves on
to the next task. An administrator authors new tasks step by step, sees a preview and
confirms it. Every incoming message is routed by the sender's session record: a
process-wide table from user id to a string-keyed record holding `mode`, `step`,
`data` and the learner's browsing fields.

The model has these modules, one file each:

- `wrappers.dfy` (`Wrappers`): `Option`, for Python's `None` and missing keys.
- `text.dfy` (`Text`): the Python `str` built-ins the handlers use, over `seq<char>`.
  They are `strip()`, `split()`, `split(",")`, `isdigit()`, `int()`, `lower()`,
  `upper()`, `startswith()` and `sub in s`.
- `session.dfy` (`Session`): the session store of `state.py`. The table is a
  `map<int, Record>` value. The class `Store` holds it in a field, and its methods
  `Get`, `Set`, `Clear`, `IsUserMode` and `IsAdminMode` change or read it.
- `models.py` shapes and the catalog queries live in `models.dfy` (`Models`). Tasks,
  levels, sections and submissions are sequences. Each query is a function whose
  `.first()` is the first match in table order. The class `Database` holds the two
  tables that grow.
- `messages.dfy` (`Messages`): message contents, button labels, reply tags and the
  `Outcome` of one handler. An outcome is the change to the sender's record, the
  reply, the awaited answer, the new task row and the new submission row.
- `admin.dfy` (`Admin`): `ADMIN_IDS` parsing, `is_admin`, and every authoring handler.
  Each handler appears twice: as a step function from (record, input) to an outcome,
  and as a method over the `Store` proved to have exactly that step's effect.
  `PreviewOf` models the preview conditional and `SaveTask` the field mapping of
  `_save_task`.
- `learner.dfy` (`Learner`): the learner's browsing handlers and the grading of
  `process_answer`, in the same two forms. `GradeAnswer` builds the per-position
  result with the source's loop.
- `router.dfy` (`Router`): which handler a message reaches. A pending answer
  (`register_next_step_handler`) takes the chat's next message first. Otherwise the
  handlers are tried in registration order: the learner's first, then the admin's
  (`main.py:41-42`). `Bot.OnMessage` runs one message against the store and the
  database. `Config.corrected` chooses the back button filter: `false` is the bot as
  written, `true` the corrected one, and every property of the whole bot is proved
  for both.
- `backbutton.dfy` (`BackButton`): the back button of the task menus, routed with the
  filter as written and with the corrected one (see Findings).
- `invariants.dfy` (`Invariants`): the authoring flow as an explicit transition
  function (`NextStep`), with the keys `data` holds at each step (`KeysAt`). It also
  has the invariant every reachable record satisfies and its preservation by every
  message, plus what follows from it at the confirm step.

Where the design description and the code disagree, the model follows the code:

- The learner's `level_id`, `level_name`, `section_id`, `section_name` and
  `current_task_id` are top-level fields of the record, not entries of `data`.
- A failed save at confirm still clears the record
  (`handlers/admin_handlers.py:247-249`). The authoring data is not kept.
- Cancel at confirm clears the record, which returns the sender to user mode rather
  than to the admin menu (`handlers/admin_handlers.py:238-239`).
- The "text expected" hint of the unexpected-input fallback is never sent. Text at
  `comment` or `correct_answer` always reaches the handler registered earlier, and
  the fallback sees only text (`Invariants.ExpectedTextUnreachable`).
- `/start` does not leave every mode. While a learner's answer is pending
  (`handlers/user_handlers.py:167`), the next message goes to `process_answer`
  whatever it says. So `/start` is graded as the answer: the session is kept and a
  submission with the text `/start` may be stored (`Router.StartWhileAnswerPendingIsAnAnswer`).

## Model

| member | source | states |
|---|---|---|
| `Session.Store.Get` | state.py:9-12 | returns the user's record, or the empty record when there is none; changes nothing, so reading never inserts an entry |
| `Session.Store.Set` | state.py:15-25 | the table becomes the old one with the user's record (empty if absent) merged with the fields; every other user's record is unchanged |
| `Session.Store.IsUserMode` | state.py:28-31 | true iff `mode` is absent or equals `"user"` |
| `Session.Store.IsAdminMode` | state.py:34-37 | true iff `mode` equals `"admin"` |
| `Session.Store.Clear` | state.py:40-43 | the user's entry is removed and every other user's record is unchanged |
| `Session.Merge` | state.py:25 | `dict.update`: the result's keys are both key sets; a named field takes the new value and every other field keeps the old one |
| `Session.UpdateCreates` | state.py:23-24 | setting fields on an unseen user creates a record holding exactly those fields |
| `Session.UpdateFieldwise` | state.py:22-25 | after a set, a named key has its new value, and an unnamed key keeps its old presence and value |
| `Session.DataReplacedWholesale` | state.py:20-25 | `data={"a":1}` followed by `data={"b":2}` leaves `data == {"b":2}`, with no deep merge |
| `Session.RemoveGivesDefault` | state.py:40-43 | after clear, get gives the empty record, which is in user mode and not in admin mode; clearing an absent user changes nothing |
| `Session.ModesExclusive` | state.py:28-37 | the two mode predicates never hold together; a record without `mode` is in user mode |
| `Session.ApplyLookup` | state.py:15-43 | a handler's write or clear for one user leaves every other user's record unchanged |
| `Session.InterleavedWrites` | state.py:15-25 | after any interleaving of sets for many users, u's record is the in-order merge of the fields written for u alone |
| `Session.MergeAllLastWrite` | state.py:25 | a key written by a run of sets holds the value of the last set that wrote it, whichever set that is |
| `Session.MergeAllUntouched` | state.py:25 | a key that no set in a run names keeps its original presence and value |
| `Admin.ParseAdminIds` | handlers/admin_handlers.py:13-18 | an id is on the list iff some comma-separated entry, once stripped, is all digits with that value; empty, signed and malformed entries are dropped |
| `Admin.AdminIdsNonNegative` | handlers/admin_handlers.py:15-18 | every admin id is a non-negative integer, so a negative entry never grants access |
| `Admin.SingleAdminId` | handlers/admin_handlers.py:13-18 | a list holding one plain number names exactly that admin |
| `Admin.AdminEntry` | handlers/admin_handlers.py:30-36 | `/admin` from an admin sets admin mode, step `main_menu` and empty data, and keeps every other field |
| `Admin.NonAdminDenied` | handlers/admin_handlers.py:30-33 | `/admin` from anyone else sends the denial and leaves the record unchanged |
| `Admin.UnknownChoiceKeeps` | handlers/admin_handlers.py:86-115 | a level outside `HSK 1`..`HSK 5` or a section outside the three leaves the record unchanged; a valid one adds its key to data and advances the step |
| `Admin.TaskNumberAccepted` | handlers/admin_handlers.py:129-141 | a decimal number of at least 1, with surrounding whitespace allowed, is stored as an int and the step moves to `photo` |
| `Admin.TaskNumberRejected` | handlers/admin_handlers.py:129-136 | negative numbers, zero and the empty text leave the record unchanged with the "invalid number" reply |
| `Admin.TaskNumberKeepsIffInvalid` | handlers/admin_handlers.py:129-141 | the record is unchanged exactly when `int()` rejects the text or gives less than 1 |
| `Admin.PhotoBranch` | handlers/admin_handlers.py:150-162 | the photo id is stored; a listening task moves to `audio` and every other section to `comment` |
| `Admin.CommentBranch` | handlers/admin_handlers.py:184-198 | the stripped comment is stored; a writing task moves to `confirm` and every other section to `correct_answer` |
| `Admin.PreviewOf` | handlers/admin_handlers.py:214-224 | the preview shows the expected answer exactly when the section is not writing, and then it is the stored answer |
| `Admin.AdminStart` | handlers/admin_handlers.py:29-45 | the `/admin` handler against the store has exactly the effect and reply of `AdminStartStep` |
| `Admin.AdminExit` | handlers/admin_handlers.py:48-59 | the exit handler clears the sender's record |
| `Admin.StartAddTask` | handlers/admin_handlers.py:65-73 | the add-task handler writes step `choose_level` and empty data |
| `Admin.StoreInData` | handlers/admin_handlers.py:92-94 | reading data, assigning one key and writing step and data back has exactly the effect of `PutData` |
| `Admin.ChooseLevelAdmin` | handlers/admin_handlers.py:81-98 | the level step against the store has exactly the effect and reply of `ChooseLevelAdminStep` |
| `Admin.ChooseSectionAdmin` | handlers/admin_handlers.py:101-121 | the section step against the store has exactly the effect and reply of `ChooseSectionAdminStep` |
| `Admin.EnterTaskNumber` | handlers/admin_handlers.py:124-142 | the number step against the store has exactly the effect and reply of `EnterTaskNumberStep` |
| `Admin.ReceivePhoto` | handlers/admin_handlers.py:145-162 | the photo step against the store has exactly the effect and reply of `ReceivePhotoStep` |
| `Admin.ReceiveAudio` | handlers/admin_handlers.py:165-176 | the audio step against the store has exactly the effect and reply of `ReceiveAudioStep` |
| `Admin.EnterComment` | handlers/admin_handlers.py:179-198 | the comment step against the store has exactly the effect and reply of `EnterCommentStep` |
| `Admin.EnterCorrectAnswer` | handlers/admin_handlers.py:201-211 | the answer step against the store has exactly the effect and reply of `EnterCorrectAnswerStep` |
| `Admin.ConfirmOrCancel` | handlers/admin_handlers.py:231-249 | cancel clears the record; confirm adds the saved row, if any, to the tasks and then clears the record; submissions are untouched |
| `Admin.HandleUnexpectedInput` | handlers/admin_handlers.py:297-304 | sends the hint chosen by the step and changes nothing |
| `Learner.TaskButtonNumber` | handlers/user_handlers.py:116-125 | a text is a task button iff it is non-empty, starts with `"Задание "`, splits into exactly two tokens and the second is all digits; the number is `int()` of that token |
| `Learner.TaskButtonRoundTrip` | handlers/user_handlers.py:100-125 | the button `"Задание <digits>"` offered by the task menu is recognised with that number |
| `Learner.TaskButtonOfNumber` | handlers/user_handlers.py:101-125 | the button `f"Задание {n}"` the menu builds for a task number n is recognised as n |
| `Learner.HomeResets` | handlers/user_handlers.py:254-256 | "🏠 В главное меню" clears the record, as `send_welcome` does |
| `Learner.ChooseLevelWrites` | handlers/user_handlers.py:41-51 | an unknown level changes nothing; a known one writes exactly `level_id` and `level_name` |
| `Learner.ChooseSectionWrites` | handlers/user_handlers.py:69-97 | without a `level_id` the record is unchanged; with one, `section_id` and `section_name` are written even when the section has no tasks |
| `Learner.SendTaskWrites` | handlers/user_handlers.py:123-151 | without a level and section nothing changes; a found task has the button's number and the stored level and section, becomes `current_task_id` and its answer is awaited |
| `Learner.BrowsingTouchesLearnerFields` | handlers/user_handlers.py:23-167 | the level choice and the task button write only the learner fields, and `/start` clears the whole record |
| `Learner.SectionChoiceTouchesLearnerFields` | handlers/user_handlers.py:65-113 | the section choice writes only the learner fields |
| `Learner.NavigationTouchesLearnerFields` | handlers/user_handlers.py:246-333 | the navigation buttons write only the learner fields |
| `Learner.NextTaskRule` | handlers/user_handlers.py:292-322 | "Следующее задание" leaves the record unchanged iff no later task exists in the same level and section; otherwise it picks one with the smallest larger number, makes it current and awaits its answer |
| `Learner.NextTaskNeedsCurrent` | handlers/user_handlers.py:258-296 | without `current_task_id`, `level_id` or `section_id` the next-task button changes nothing |
| `Learner.Marks` | handlers/user_handlers.py:212-215 | one mark per position of the common length; a position is right iff the two characters agree, and otherwise it shows the expected character |
| `Learner.MarkAnswers` | handlers/user_handlers.py:212-215 | the loop builds exactly `Marks(answer, expected)` |
| `Learner.MarksAllHitIffEqual` | handlers/user_handlers.py:208-215 | for equal lengths, every position is right iff the answer equals the expected one |
| `Learner.MarksExample` | handlers/user_handlers.py:212-215 | "ABABA" against "ABABB" gives four right marks and one wrong mark expecting B |
| `Learner.WritingNeverScored` | handlers/user_handlers.py:191-202 | a writing answer always gets a null correctness flag; a failed analysis gives the fixed fallback text |
| `Learner.ComplexByMarker` | handlers/user_handlers.py:189 | a prompt holding, anywhere, a stretch that lowercases to "задания 1-5" or "вопросы 1-5" selects the A/B mode, so any capitalisation of either marker counts |
| `Learner.ComplexHasMarker` | handlers/user_handlers.py:189 | conversely, the A/B mode is selected only when such a stretch exists |
| `Learner.ComplexByLeadingMarker` | handlers/user_handlers.py:189 | a prompt that begins "Задания 1-5", as the authoring examples do, selects the A/B mode |
| `Text.LowerSlice` | handlers/user_handlers.py:189 | lowering a slice is the slice of the lowered text |
| `Learner.ComplexScoresExactMatch` | handlers/user_handlers.py:205-221 | in A/B mode the flag is equality with the stripped, upper-cased expected answer, whether or not the answer is well-formed |
| `Learner.MalformedIsWrong` | handlers/user_handlers.py:205-221 | when the expected answer is all A/B, an answer of another length or with another character gets the format error and is scored false |
| `Learner.WellFormedFeedback` | handlers/user_handlers.py:207-215 | a well-formed answer gets "all correct" iff it equals the expected one, and otherwise the per-position marks with at least one wrong |
| `Learner.PlainScoresExactMatch` | handlers/user_handlers.py:222-225 | outside writing and A/B mode the flag, and the "right" reply, hold iff the stripped answer equals the stored answer |
| `Learner.ProcessAnswerRecords` | handlers/user_handlers.py:178-228 | a graded answer stores one submission holding the sender, the awaited task and the stripped answer, and leaves the record unchanged |
| `Learner.NonTextAnswerStoresNothing` | handlers/user_handlers.py:178-180 | an answer message without text raises before any submission is stored |
| `Learner.SendWelcome` | handlers/user_handlers.py:23-34 | `/start` against the store clears the sender's record |
| `Learner.ChooseLevel` | handlers/user_handlers.py:36-62 | the level handler's two sets have exactly the effect of `ChooseLevelStep` |
| `Learner.ChooseSection` | handlers/user_handlers.py:64-113 | the section handler against the store has exactly the effect and reply of `ChooseSectionStep` |
| `Learner.SendTask` | handlers/user_handlers.py:115-173 | the task handler against the store has exactly the effect, reply and awaited task of `SendTaskStep` |
| `Learner.Navigation` | handlers/user_handlers.py:245-333 | the navigation handler against the store has exactly the effect, reply and awaited task of `NavigationStep` |
| `Learner.GradeAnswer` | handlers/user_handlers.py:189-225 | the three-way grading, with its loop, computes exactly `Grade` |
| `Learner.ProcessAnswer` | handlers/user_handlers.py:178-243 | the answer handler appends exactly the submission of `ProcessAnswerStep` and leaves the tasks unchanged |
| `Models.NextTask` | handlers/user_handlers.py:304-308 | the chosen task is in the same level and section with a larger number, and no such task has a smaller number; none iff there is no such task |
| `Models.TaskNumbered` | handlers/user_handlers.py:141-145 | the found task has the level, section and number asked for; none iff no task has them |
| `Models.TableNumbers` | handlers/user_handlers.py:87-90 | before ordering: a number is in the list iff some task of that level and section has it |
| `Models.NumbersIn` | handlers/user_handlers.py:87-90 | the task menu is in ascending task-number order and holds each matching task's number exactly as often as the table does |
| `Models.NumbersInListsMatchingTasks` | handlers/user_handlers.py:275-278 | a number is on the task menu iff some task of that level and section has it |
| `Models.InsertNumber` | handlers/user_handlers.py:87-90 | one ordering step: inserting into an ascending list keeps it ascending and adds exactly that number |
| `Models.LevelNamed` | handlers/admin_handlers.py:255 | the found level has the name asked for; none iff no level has it |
| `Models.SectionNamed` | handlers/admin_handlers.py:256 | the found section has the name asked for; none iff no section has it |
| `Models.TaskWithId` | handlers/user_handlers.py:299 | the found task has the id asked for; none iff no task has it |
| `Models.LevelWithId` | handlers/user_handlers.py:270 | the found level has the id asked for; none iff no level has it |
| `Models.SectionWithId` | handlers/user_handlers.py:269 | the found section has the id asked for; none iff no section has it |
| `Models.NewTaskId` | models.py:21 | a new task row gets an id larger than every existing one |
| `Models.Database.AddTask` | handlers/admin_handlers.py:270-271 | one task row is appended and the submissions are unchanged |
| `Models.Database.AddSubmission` | handlers/user_handlers.py:227-228 | one submission row is appended and the tasks are unchanged |
| `Router.StartWinsAnywhere` | handlers/user_handlers.py:23-25 | among the routed handlers, with either back filter, `/start` reaches `send_welcome` in every mode and at every step, and that handler clears the record |
| `Router.StartResetsIdleChat` | handlers/user_handlers.py:23-25 | delivered when no answer is pending, `/start` removes the sender's session and leaves the pending answers, tasks and submissions unchanged |
| `Router.StartWhileAnswerPendingIsAnAnswer` | handlers/user_handlers.py:167-183 | delivered while an answer is pending, `/start` is taken as that answer: sessions, tasks unchanged, the wait ends, and at most one submission appears, for the awaited task with the stripped text |
| `Router.LearnerHandlersNeedUserMode` | handlers/user_handlers.py:37-339 | with either back filter, the level, section, task, navigation and back handlers fire only on text in user mode |
| `Router.AdminHandlersNeedAdminMode` | handlers/admin_handlers.py:48-296 | with either back filter, every admin handler except `/admin` fires only for an admin sender in admin mode |
| `Router.AdminButtonsWin` | handlers/admin_handlers.py:48-73 | with either back filter, in admin mode "↩️ Выход" and "➕ Добавить задание" win at every step: exit clears the record, and add-task sets step `choose_level` with empty data |
| `Router.FallbackOffGuardedSteps` | handlers/admin_handlers.py:290-296 | with either back filter, the fallback fires only on text, for an admin in admin mode, off `main_menu`, `choose_level`, `choose_section`, `task_number` and `confirm`, and never at `comment` or `correct_answer` |
| `Router.OtherTextAtConfirmIgnored` | handlers/admin_handlers.py:231-236 | with either back filter, any other text at `confirm` reaches no handler |
| `Router.MediaRouting` | handlers/admin_handlers.py:145-169 | with either back filter, a photo is taken iff it arrives at step `photo`, and audio or voice iff it arrives at step `audio`, from an admin in admin mode |
| `Router.CommandOfBare` | handlers/user_handlers.py:23 | the text "/start" is the command `start` |
| `Router.CommandOfAddressed` | handlers/user_handlers.py:23 | "/start@Bot args" is still the command `start` |
| `BackButton.ArrowBackIgnoredAsWritten` | handlers/user_handlers.py:336-339 | as written, a label the corrected filter adds (the "↩️ Назад к уровням" button of the section's task list) reaches no handler in user mode, so nothing answers it |
| `BackButton.UnmatchedTextUnhandled` | handlers/user_handlers.py:23-341 | a text outside every learner filter and every command, sent in user mode, reaches no handler |
| `BackButton.ArrowLabelMatchesNothingElse` | handlers/user_handlers.py:102 | the arrow label is no command, menu button or task button, and only the corrected back filter accepts it |
| `BackButton.BackLabelsReturnHome` | handlers/user_handlers.py:336-341 | with the corrected filter, both back labels reach `back_to_levels` in user mode and clear the record |
| `BackButton.CorrectionOnlyAddsArrow` | handlers/user_handlers.py:336-339 | the corrected dispatch differs from the one as written only on the arrow label |
| `BackButton.FiltersAgreeSameRoute` | handlers/user_handlers.py:336-339 | wherever the two filters agree on a text, or outside user mode, the two dispatches pick the same handler |
| `BackButton.AsWrittenIsCorrectedOrIgnored` | handlers/user_handlers.py:336-339 | with either filter a message reaches the handler of the corrected dispatch or none at all |
| `Router.Bot.OnMessage` | main.py:41-45 | one message changes the store, the pending answers and the tables exactly as `Deliver` says, with the back filter the bot was built with (as written or corrected), and the admin list and reference rows stay fixed |
| `Router.Bot.constructor` | main.py:37-42 | a new bot has the given store, database, admin list and back filter, and no pending answers |
| `Router.Bot.Perform` | main.py:41-42 | running the routed handler has exactly that handler's outcome on the store and the database |
| `Invariants.NextKeys` | handlers/admin_handlers.py:86-211 | each storing step adds exactly its own new key, and the flow moves `choose_level → choose_section → task_number → photo → (audio) → comment → (correct_answer) → confirm` |
| `Invariants.ChooseLevelAdminAdvances` | handlers/admin_handlers.py:86-94 | on a reachable record the level step adds `level_name` and advances, or changes nothing, and never raises |
| `Invariants.ChooseSectionAdminAdvances` | handlers/admin_handlers.py:106-115 | on a reachable record the section step adds `section_name` and advances, or changes nothing, and never raises |
| `Invariants.EnterTaskNumberAdvances` | handlers/admin_handlers.py:129-141 | on a reachable record the number step adds `task_number` (at least 1) and advances, or changes nothing, and never raises |
| `Invariants.ReceivePhotoAdvances` | handlers/admin_handlers.py:150-162 | on a reachable record the photo step adds `photo_file_id` and advances by section, and never raises |
| `Invariants.ReceiveAudioAdvances` | handlers/admin_handlers.py:170-175 | on a reachable record the audio step adds `audio_file_id` and moves to `comment`, and never raises |
| `Invariants.EnterCommentAdvances` | handlers/admin_handlers.py:184-198 | on a reachable record the comment step adds `comment` and advances by section |
| `Invariants.EnterCommentReplies` | handlers/admin_handlers.py:184-224 | on a reachable record the comment step, preview included, never raises |
| `Invariants.EnterCorrectAnswerAdvances` | handlers/admin_handlers.py:206-211 | on a reachable record the answer step adds `correct_answer` and moves to `confirm`, and never raises |
| `Invariants.PreviewAfterComment` | handlers/admin_handlers.py:184-224 | reaching `confirm` from the comment happens only for writing, and the preview then has no answer line |
| `Invariants.PreviewAfterAnswer` | handlers/admin_handlers.py:206-224 | reaching `confirm` from the answer step happens only outside writing, and the preview shows the stripped answer |
| `Invariants.KeysAtConfirm` | handlers/admin_handlers.py:261-269 | at `confirm`, data holds level, section, number, photo and comment; it holds `correct_answer` iff the section is not writing, and `audio_file_id` iff it is listening |
| `Invariants.SaveAtConfirm` | handlers/admin_handlers.py:252-285 | at `confirm` the save never fails; it reports a missing reference iff the level or section name is unknown; otherwise the row carries data's values, with audio iff listening, an answer iff not writing, and a fresh id |
| `Invariants.ConfirmAlwaysClears` | handlers/admin_handlers.py:237-249 | cancel and confirm both clear the record whatever the save reported; cancel saves nothing |
| `Invariants.AuthoringAdvances` | handlers/admin_handlers.py:86-211 | every routed storing step adds exactly its key, with a value of the right kind, keeps the other entries and advances, or changes nothing |
| `Invariants.AuthoringNeverRaises` | handlers/admin_handlers.py:150-224 | on a reachable record no routed storing step raises on a missing key |
| `Invariants.HandleKeepsInv` | handlers/admin_handlers.py:26-304 | whatever handler a message reaches keeps the record invariant, and nothing raises |
| `Invariants.ExpectedTextUnreachable` | handlers/admin_handlers.py:303-304 | with either back filter, the fallback's "text expected" hint is never sent |
| `Invariants.InitialWorldInv` | state.py:5 | the empty table with no pending answers satisfies the invariant |
| `Invariants.DeliverKeepsInv` | main.py:41-45 | one message keeps every record reachable, every awaited task in the catalog and task ids distinct |
| `Invariants.RoutedKeepsInv` | handlers/user_handlers.py:336-339 | with either back filter, the handler a message reaches keeps a reachable record reachable and does not raise |
| `Invariants.RunKeepsInv` | main.py:41-45 | any run of messages keeps the world invariant |
| `Invariants.ReachableNeverRaises` | handlers/admin_handlers.py:150-224 | on a reachable world, a message that is not an awaited answer never makes its handler raise on a missing key |
| `Text.Strip` | handlers/user_handlers.py:180 | `strip()`: the result is a contiguous slice with no whitespace at either end, and everything cut off is whitespace |
| `Text.PyInt` | handlers/admin_handlers.py:131 | `int(text)` succeeds only on text that is non-empty once stripped |
| `Text.PyIntAcceptedShape` | handlers/admin_handlers.py:131 | `int(text)` succeeds only if the stripped text starts with a digit or a sign, ends with a digit, and holds only digits and underscores after its first character, so decimals, exponents, letters and doubled signs raise `ValueError` |
| `Text.PyIntIgnoresPadding` | handlers/admin_handlers.py:131 | surrounding whitespace does not change what `int(text)` gives |
| `Text.PyIntOfNumeral` | handlers/admin_handlers.py:131 | `int()` accepts every numeral (digits with single underscores between them) and gives its base-10 value |
| `Text.PyIntOfPlusNumeral` | handlers/admin_handlers.py:131 | `int()` accepts a numeral after a `+` and gives its value |
| `Text.PyIntOfNegativeNumeral` | handlers/admin_handlers.py:131-133 | `int()` accepts a numeral after a `-` and gives the negated value, which the task-number step then rejects |
| `Text.Decimal` | handlers/user_handlers.py:101 | `str(n)` of a natural number is a digit string without leading zeros whose decimal value is n |
| `Text.PyIntOfIntText` | handlers/user_handlers.py:101-125 | `int(str(n)) == n` for every integer n |
| `Text.PyIntOfDigits` | handlers/user_handlers.py:125 | `int()` accepts every all-digit string and returns its decimal value |
| `Text.PyIntNegative` | handlers/admin_handlers.py:131-133 | a minus sign before digits gives the negative value |
| `Text.SplitOn` | handlers/admin_handlers.py:16 | `split(",")` gives at least one part |
| `Text.SplitPartsFree` | handlers/admin_handlers.py:16 | no part of `split(",")` holds a comma |
| `Text.JoinSplit` | handlers/admin_handlers.py:16 | joining the parts of `split(sep)` with `sep` gives back the text |
| `Text.SplitJoin` | handlers/admin_handlers.py:16 | splitting a join of separator-free parts gives back the parts |
| `Text.TokensAreWords` | handlers/user_handlers.py:119 | `split()` gives non-empty tokens without whitespace |
| `Text.TokensAfterWord` | handlers/user_handlers.py:118-119 | `split()` of a word, a space and a rest is that word, then `split()` of the rest |
| `Text.ContainsAt` | handlers/user_handlers.py:189 | `sub in s` holds when sub occurs at some offset |
| `Text.ContainsFound` | handlers/user_handlers.py:189 | conversely, when `sub in s` holds, sub occurs at some offset |
| `Text.Lower` | handlers/user_handlers.py:189 | `lower()` keeps the length and lowers each character |
| `Text.Upper` | handlers/user_handlers.py:206 | `upper()` keeps the length and raises each character |

## Findings

| source | as written | input that shows it | evidently intended | confidence | as-written member | corrected member |
|---|---|---|---|---|---|---|
| handlers/user_handlers.py:336-339 | the `back_to_levels` filter accepts only `"Назад к уровням"`, but the section's task list (handlers/user_handlers.py:102) offers `"↩️ Назад к уровням"` | a learner in user mode presses "↩️ Назад к уровням" under the task list: no handler matches and nothing happens | both labels the task menus offer return to the level menu and clear the record | high (read from the code, not executed) | `BackButton.ArrowBackIgnoredAsWritten` | `BackButton.BackLabelsReturnHome` |

The filter as written is `Router.RouteAsWritten` and the corrected one is `Router.Route`,
which accepts both labels. The bot (`Router.Dispatch`, `Router.Bot.OnMessage`) uses the one
its configuration names. `BackButton.CorrectionOnlyAddsArrow` proves the two dispatches
differ on nothing else, and `BackButton.AsWrittenIsCorrectedOrIgnored` that the bot as
written only ignores messages the corrected one answers.

## Left out

- Telegram transport: sending text, photos and audio, keyboards, Markdown and polling.
  Replies are abstract tags (`Messages.Reply`). A photo message carries the file id of
  its largest size.
- SQLAlchemy sessions, commits, rollbacks and `db.close()`. The catalog is held as
  in-memory sequences. A failing commit is not modelled, so the `except` branches of
  `_save_task`, `send_task` and `process_answer` only cover failures the model can
  raise (a missing key, a missing expected answer).
- Reference-data seeding in `main.py` (`init_reference_data`). The levels and
  sections are whatever the `Database` is built with.
- Database-assigned task ids. `Models.NewTaskId` picks an id larger than every
  existing one in place of the autoincrement key.
- The uniqueness of a task number within its level and section. `models.py` declares
  no such constraint, and the authoring flow does not check it.
- The feedback service (`llm.py`). Its answer is a parameter of the message that needs
  it. A failing or timed-out call is caught inside `analyze_writing_task`, which returns
  an error text, so it arrives as `Some(<that text>)`. `None` stands for an exception
  raised outside that catch, which the handler answers with its fixed fallback text.
- The lock in `state.py`. Each store call is atomic and the model is single-threaded.
- Dict aliasing. `get_user_state` returns the live inner dict, which handlers mutate
  before writing it back. The model works by value, which has the same net effect on
  every record the bot can reach.
- The failing `send_welcome` import in `admin_exit`. Only the clear of the record
  before it is modelled.
- Logging, exception-message truncation and timestamps.
- `register_next_step_handler` is modelled as a pending answer per user
  (`World.pending`, `Bot.pending`) that takes the next message, whatever its content,
  before any message handler.
- Text.IsDigits: covers the ASCII digits only. Python's `isdigit()` also accepts
  other Unicode digits, and `int()` raises on some of them, which empties `ADMIN_IDS`.
- Text.LowerChar: covers the ASCII and basic Cyrillic letters only. Python's
  `lower()` and `upper()` map every cased Unicode letter, and some mappings change the
  length (`"ß".upper() == "SS"`, `"İ".lower()` has two code points). `Text.Lower` and
  `Text.Upper` always keep it.
- Text.PyInt: ASCII digits only. `int()` also accepts other Unicode decimal digits
  (`int("٣") == 3`, `int("３") == 3`), which the model rejects, so such a task number
  gets the invalid-number reply where the source stores it.
- Expected answers are optional text. The source column is JSON, but
  the authoring flow only ever stores text.
