/**
 * The learner's browsing flow and the grading of answers (handlers/user_handlers.py).
 *
 * The learner's choices live at the top level of the session record: level_id,
 * level_name, section_id, section_name and current_task_id. As in the admin flow each
 * handler is a step function to an Outcome and a method proved to have that outcome.
 */
module Learner {

  import opened Wrappers
  import opened Text
  import opened Session
  import opened Models
  import opened Messages

  const LevelIdKey: string := "level_id"
  const LevelNameKey: string := "level_name"
  const SectionIdKey: string := "section_id"
  const SectionNameKey: string := "section_name"
  const CurrentTaskKey: string := "current_task_id"

  /** The text the feedback falls back to when the writing analysis raises. */
  const AnalysisFallback: string := "Не удалось проанализировать текст. Попробуйте позже."

  /** An id stored in the record, as the catalog filters compare it: only an integer matches a row. */
  function IdIn(v: Option<Value>): Option<int> {
    match v
    case Some(Int(i)) => Some(i)
    case _ => None
  }

  // ---------------------------------------------------------------------------
  // Menu recognition

  /**
   * The task button guard: non-empty text that starts with "Задание ", splits into
   * exactly two whitespace-separated tokens, the second all digits. The number is
   * that token's value; None when the guard fails.
   */
  function TaskButtonNumber(text: string): (n: Option<nat>)
    ensures n.Some? <==>
      |text| > 0 && StartsWith(text, TaskButtonPrefix) && |Tokens(text)| == 2 && IsDigits(Tokens(text)[1])
    ensures n.Some? ==> PyInt(Tokens(text)[1]) == Some(n.value as int)
  {
    if |text| > 0 && StartsWith(text, TaskButtonPrefix) && |Tokens(text)| == 2 && IsDigits(Tokens(text)[1]) then
      PyIntOfDigits(Tokens(text)[1]);
      Some(DigitsValue(Tokens(text)[1]))
    else None
  }

  /** The button the task menu offers for a number, "Задание <digits>", is recognised with that number. */
  lemma TaskButtonRoundTrip(digits: string)
    requires IsDigits(digits)
    ensures TaskButtonNumber(TaskButtonPrefix + digits) == Some(DigitsValue(digits))
  {
    TaskButtonTokens(digits);
    assert (TaskButtonPrefix + digits)[..|TaskButtonPrefix|] == TaskButtonPrefix;
  }

  /** The button the task menu builds for a task number n >= 0 is recognised as n. */
  lemma TaskButtonOfNumber(n: nat)
    ensures TaskButtonNumber(TaskButtonPrefix + Decimal(n)) == Some(n)
  {
    TaskButtonRoundTrip(Decimal(n));
  }

  const TaskWord: string := "Задание"

  lemma TaskButtonTokens(digits: string)
    requires IsDigits(digits)
    ensures Tokens(TaskButtonPrefix + digits) == [TaskWord, digits]
  {
    assert TaskButtonPrefix + digits == TaskWord + " " + digits;
    TaskWordIsWord();
    TokensAfterWord(TaskWord, digits);
    DigitsAreWord(digits);
    TokensOfWord(digits);
  }

  lemma TaskWordIsWord()
    ensures IsWord(TaskWord)
  {
    assert forall i :: 0 <= i < |TaskWord| ==> '\U{0410}' <= TaskWord[i] <= '\U{044F}';
  }

  lemma DigitsAreWord(digits: string)
    requires IsDigits(digits)
    ensures IsWord(digits)
  {
    forall i | 0 <= i < |digits| ensures !IsSpace(digits[i]) {
      assert IsDigit(digits[i]);
    }
  }

  /** A single word splits into itself. */
  lemma TokensOfWord(w: string)
    requires IsWord(w)
    ensures Tokens(w) == [w]
  {
    WordLengthOfWord(w, []);
    assert w + [] == w;
    assert !IsSpace(w[0]);
    assert w[..|w|] == w && w[|w|..] == [];
  }

  // ---------------------------------------------------------------------------
  // The browsing handlers as step functions

  /** send_welcome: whatever the mode or step, the record is dropped. */
  function SendWelcomeStep(): (o: Outcome)
    ensures RecordOnly(o)
  {
    Out(Drop, Welcome)
  }

  /** choose_level: the level looked up by name; both level fields written. */
  function ChooseLevelStep(text: string, cat: Catalog): (o: Outcome)
    ensures RecordOnly(o)
  {
    match LevelNamed(cat.levels, text)
    case None => Out(Keep, LevelNotFound)
    case Some(level) =>
      Out(Write(map[LevelIdKey := Int(level.id), LevelNameKey := Str(text)]), PickSection(text))
  }

  /** The task numbers of the chosen level and section. */
  function MenuNumbers(levelId: Option<Value>, sectionId: int, cat: Catalog): seq<int> {
    match IdIn(levelId)
    case None => []
    case Some(l) => NumbersIn(cat.tasks, l, sectionId)
  }

  /** choose_section: the section looked up by name; a level must be chosen; both section fields written. */
  function ChooseSectionStep(rec: Record, text: string, cat: Catalog): (o: Outcome)
    ensures RecordOnly(o)
  {
    match SectionNamed(cat.sections, text)
    case None => Out(Keep, SectionNotFound)
    case Some(section) =>
      var levelId := Field(rec, LevelIdKey);
      if !Truthy(levelId) then Out(Keep, PickLevelFirst)
      else
        var numbers := MenuNumbers(levelId, section.id, cat);
        var e := Write(map[SectionIdKey := Int(section.id), SectionNameKey := Str(text)]);
        if numbers == [] then Out(e, NoTasksYet(text)) else Out(e, TaskMenu(numbers))
  }

  /** Showing a task: current_task_id written, the task's answer awaited. */
  function ShowTaskOutcome(t: Task): Outcome {
    Outcome(Write(map[CurrentTaskKey := Int(t.id)]), ShowTask(t), Some(t), None, None)
  }

  /** send_task for the number of a recognised task button. */
  function SendTaskStep(rec: Record, n: int, cat: Catalog): (o: Outcome)
    ensures o.saved == None && o.submission == None
    ensures o.awaiting.Some? ==> o.awaiting.value in cat.tasks
  {
    var levelId := Field(rec, LevelIdKey);
    var sectionId := Field(rec, SectionIdKey);
    if !(Truthy(levelId) && Truthy(sectionId)) then Out(Keep, SessionExpired)
    else
      var found :=
        if IdIn(levelId).Some? && IdIn(sectionId).Some? then
          TaskNumbered(cat.tasks, IdIn(levelId).value, IdIn(sectionId).value, n)
        else None;
      match found
      case None => Out(Keep, TaskNotFound(n))
      case Some(t) => ShowTaskOutcome(t)
  }

  /** handle_navigation for one of its three buttons. */
  function NavigationStep(rec: Record, text: string, cat: Catalog): (o: Outcome)
    ensures o.saved == None && o.submission == None
    ensures o.awaiting.Some? ==> o.awaiting.value in cat.tasks
  {
    if text == HomeButton then SendWelcomeStep()
    else
      var levelId := Field(rec, LevelIdKey);
      var sectionId := Field(rec, SectionIdKey);
      if !(Truthy(levelId) && Truthy(sectionId)) then Out(Keep, PickLevelFirst)
      else if text == TaskListButton then
        var l := IdIn(levelId);
        var s := IdIn(sectionId);
        if s.None? || l.None? || SectionWithId(cat.sections, s.value).None? || LevelWithId(cat.levels, l.value).None? then
          Out(Keep, StateError)
        else Out(Keep, TaskMenu(NumbersIn(cat.tasks, l.value, s.value)))
      else if text == NextTaskButton then
        var cur := Field(rec, CurrentTaskKey);
        if !Truthy(cur) then Out(Keep, NoCurrentTask)
        else
          var current := if IdIn(cur).Some? then TaskWithId(cat.tasks, IdIn(cur).value) else None;
          match current
          case None => Out(Keep, CurrentTaskMissing)
          case Some(c) =>
            match NextTask(cat.tasks, c)
            case None => Out(Keep, LastTask)
            case Some(t) => ShowTaskOutcome(t)
      else Out(Keep, Silent)
  }

  // ---------------------------------------------------------------------------
  // Grading

  /** The multi-question mode: the lowercased prompt mentions items or questions 1-5. */
  predicate IsComplex(comment: string) {
    Contains(Lower(comment), ItemsMarker) || Contains(Lower(comment), QuestionsMarker)
  }

  const ItemsMarker: string := "задания 1-5"
  const QuestionsMarker: string := "вопросы 1-5"

  /** Some stretch of the prompt, lowercased, is one of the two markers. */
  predicate MarkerAt(comment: string, k: nat) {
    && k + |ItemsMarker| <= |comment|
    && (Lower(comment[k..k + |ItemsMarker|]) == ItemsMarker || Lower(comment[k..k + |ItemsMarker|]) == QuestionsMarker)
  }

  predicate AllAB(s: string) {
    forall i :: 0 <= i < |s| ==> s[i] == 'A' || s[i] == 'B'
  }

  /** The per-position check over the common length (zip truncates). */
  function Marks(u: string, e: string): (ms: seq<Mark>)
    ensures |ms| == if |u| <= |e| then |u| else |e|
    ensures forall i :: 0 <= i < |ms| ==> (ms[i] == Hit <==> u[i] == e[i])
    ensures forall i :: 0 <= i < |ms| ==> (ms[i] != Hit ==> ms[i] == Miss(e[i]))
  {
    var n := if |u| <= |e| then |u| else |e|;
    seq(n, i requires 0 <= i < n => if u[i] == e[i] then Hit else Miss(e[i]))
  }

  /** The result list of process_answer, built position by position. */
  method MarkAnswers(u: string, e: string) returns (marks: seq<Mark>)
    ensures marks == Marks(u, e)
  {
    var n := if |u| <= |e| then |u| else |e|;
    marks := [];
    for i := 0 to n
      invariant |marks| == i
      invariant forall j :: 0 <= j < i ==> marks[j] == (if u[j] == e[j] then Hit else Miss(e[j]))
    {
      if u[i] == e[i] {
        marks := marks + [Hit];
      } else {
        marks := marks + [Miss(e[i])];
      }
    }
  }

  datatype Grading = Grading(feedback: Feedback, isCorrect: Option<bool>)

  /**
   * The three-way grading of a stripped answer; None where it raises (the
   * multi-question mode with no stored answer). llm is the analysis the feedback
   * service returns, None when that call raises.
   */
  function Grade(task: Task, sectionName: string, answer: string, llm: Option<string>): Option<Grading> {
    if sectionName == Writing then Some(Grading(Analysis(llm.GetOr(AnalysisFallback)), None))
    else if IsComplex(task.commentText) then
      match task.correctAnswer
      case None => None
      case Some(c) =>
        var expected := Upper(Strip(c));
        var ok := answer == expected;
        var fb :=
          if |answer| == |expected| && AllAB(answer) then (if ok then AllCorrect else CheckMarks(Marks(answer, expected)))
          else FormatError;
        Some(Grading(fb, Some(ok)))
    else
      var ok := task.correctAnswer == Some(answer);
      Some(Grading(if ok then Right else Wrong(task.correctAnswer), Some(ok)))
  }

  /** process_answer: the next message of the chat is the answer to the awaited task. */
  function ProcessAnswerStep(u: int, task: Task, content: Content, cat: Catalog, llm: Option<string>): (o: Outcome)
    ensures o.effect == Keep && o.awaiting == None && o.saved == None
  {
    if !content.Text? then Out(Keep, Raised)
    else
      var answer := Strip(content.text);
      match SectionWithId(cat.sections, task.sectionId)
      case None => Out(Keep, AnswerError)
      case Some(section) =>
        match Grade(task, section.name, answer, llm)
        case None => Out(Keep, AnswerError)
        case Some(g) =>
          Outcome(Keep, AnswerFeedback(g.feedback), None, None, Some(Submission(u, task.id, answer, g.isCorrect)))
  }

  // ---------------------------------------------------------------------------
  // Properties of grading and browsing

  /** A writing answer is never scored, and a failed analysis falls back to the fixed text. */
  lemma WritingNeverScored(task: Task, answer: string, llm: Option<string>)
    ensures Grade(task, Writing, answer, llm).Some?
    ensures Grade(task, Writing, answer, llm).value.isCorrect == None
    ensures llm.None? ==> Grade(task, Writing, answer, llm).value.feedback == Analysis(AnalysisFallback)
    ensures llm.Some? ==> Grade(task, Writing, answer, llm).value.feedback == Analysis(llm.value)
  {
  }

  /** In the multi-question mode the score is equality with the stripped, upper-cased answer, well-formed or not. */
  lemma ComplexScoresExactMatch(task: Task, sectionName: string, answer: string, llm: Option<string>)
    requires sectionName != Writing && IsComplex(task.commentText) && task.correctAnswer.Some?
    ensures Grade(task, sectionName, answer, llm).Some?
    ensures Grade(task, sectionName, answer, llm).value.isCorrect == Some(answer == Upper(Strip(task.correctAnswer.value)))
  {
  }

  /**
   * When the expected answer is made of A and B only, an answer of the wrong length
   * or with any other character (a lower-case letter, say) gets the format message
   * and is scored false.
   */
  lemma MalformedIsWrong(task: Task, sectionName: string, answer: string, llm: Option<string>)
    requires sectionName != Writing && IsComplex(task.commentText) && task.correctAnswer.Some?
    requires AllAB(Upper(Strip(task.correctAnswer.value)))
    requires !(|answer| == |Upper(Strip(task.correctAnswer.value))| && AllAB(answer))
    ensures Grade(task, sectionName, answer, llm) == Some(Grading(FormatError, Some(false)))
  {
  }

  /** A well-formed answer is all right exactly when it equals the expected one; otherwise it gets one mark per position. */
  lemma WellFormedFeedback(task: Task, sectionName: string, answer: string, llm: Option<string>)
    requires sectionName != Writing && IsComplex(task.commentText) && task.correctAnswer.Some?
    requires |answer| == |Upper(Strip(task.correctAnswer.value))| && AllAB(answer)
    ensures
      var e := Upper(Strip(task.correctAnswer.value));
      var g := Grade(task, sectionName, answer, llm);
      && g.Some?
      && (g.value.feedback == AllCorrect <==> answer == e)
      && (answer != e ==> g.value.feedback == CheckMarks(Marks(answer, e)) && exists i :: 0 <= i < |answer| && Marks(answer, e)[i] != Hit)
  {
    var e := Upper(Strip(task.correctAnswer.value));
    if answer != e {
      MarksAllHitIffEqual(answer, e);
    }
  }

  /** For equal lengths, every position is marked right exactly when the two answers are equal. */
  lemma MarksAllHitIffEqual(u: string, e: string)
    requires |u| == |e|
    ensures (forall i :: 0 <= i < |u| ==> Marks(u, e)[i] == Hit) <==> u == e
  {
    if forall i :: 0 <= i < |u| ==> Marks(u, e)[i] == Hit {
      var ms := Marks(u, e);
      forall i | 0 <= i < |u| ensures u[i] == e[i] {
        assert ms[i] == Hit;
      }
    }
  }

  /** "ABABA" against "ABABB": four right, the last wrong with B expected. */
  lemma MarksExample()
    ensures Marks("ABABA", "ABABB") == [Hit, Hit, Hit, Hit, Miss('B')]
  {
  }

  /** Outside the writing section and the multi-question mode the score is exact equality with the stored answer. */
  lemma PlainScoresExactMatch(task: Task, sectionName: string, answer: string, llm: Option<string>)
    requires sectionName != Writing && !IsComplex(task.commentText)
    ensures Grade(task, sectionName, answer, llm).Some?
    ensures Grade(task, sectionName, answer, llm).value.isCorrect == Some(task.correctAnswer == Some(answer))
    ensures Grade(task, sectionName, answer, llm).value.feedback == Right <==> task.correctAnswer == Some(answer)
  {
  }

  /** A marker anywhere in the prompt, in any case the mapping covers, selects the multi-question mode. */
  lemma ComplexByMarker(comment: string, k: nat)
    requires MarkerAt(comment, k)
    ensures IsComplex(comment)
  {
    var n := |ItemsMarker|;
    assert |QuestionsMarker| == n;
    LowerSlice(comment, k, n);
    ContainsAt(Lower(comment), Lower(comment[k..k + n]), k);
  }

  /** Conversely, the multi-question mode is selected only by a marker somewhere in the prompt. */
  lemma ComplexHasMarker(comment: string)
    requires IsComplex(comment)
    ensures exists k: nat :: MarkerAt(comment, k)
  {
    var n := |ItemsMarker|;
    assert |QuestionsMarker| == n;
    var marker := if Contains(Lower(comment), ItemsMarker) then ItemsMarker else QuestionsMarker;
    ContainsFound(Lower(comment), marker);
    var k: nat :| OccursAt(Lower(comment), marker, k);
    LowerSlice(comment, k, n);
    assert MarkerAt(comment, k);
  }

  /** The example in the authoring prompt: "Задания 1-5" at the start of the text. */
  lemma ComplexByLeadingMarker(rest: string)
    ensures IsComplex("Задания 1-5" + rest)
  {
    var s := "Задания 1-5" + rest;
    assert s[0..|ItemsMarker|] == "Задания 1-5";
    assert Lower("Задания 1-5") == ItemsMarker;
    ComplexByMarker(s, 0);
  }

  /** The stored submission is the stripped text of the answer message, for the awaited task. */
  lemma ProcessAnswerRecords(u: int, task: Task, text: string, cat: Catalog, llm: Option<string>)
    requires SectionWithId(cat.sections, task.sectionId).Some?
    requires Grade(task, SectionWithId(cat.sections, task.sectionId).value.name, Strip(text), llm).Some?
    ensures
      var o := ProcessAnswerStep(u, task, Text(text), cat, llm);
      && o.effect == Keep && o.awaiting == None && o.submission.Some?
      && o.submission.value.userId == u && o.submission.value.taskId == task.id
      && o.submission.value.userAnswer == Strip(text)
  {
  }

  /** An answer that is not text raises before anything is stored. */
  lemma NonTextAnswerStoresNothing(u: int, task: Task, content: Content, cat: Catalog, llm: Option<string>)
    requires !content.Text?
    ensures ProcessAnswerStep(u, task, content, cat, llm).submission == None
  {
  }

  /**
   * "Следующее задание" with a known current task: the record is left alone exactly
   * when no later task of the same level and section exists; otherwise the chosen task
   * is one with the smallest later number, it becomes current and its answer is awaited.
   */
  lemma NextTaskRule(rec: Record, c: Task, cat: Catalog)
    requires Truthy(Field(rec, LevelIdKey)) && Truthy(Field(rec, SectionIdKey))
    requires Field(rec, CurrentTaskKey) == Some(Int(c.id)) && c.id != 0
    requires TaskWithId(cat.tasks, c.id) == Some(c)
    ensures
      var o := NavigationStep(rec, NextTaskButton, cat);
      && (o.effect == Keep <==> forall t :: t in cat.tasks ==> !After(t, c))
      && (o.effect != Keep ==>
            && o.awaiting.Some? && o.awaiting.value in cat.tasks && After(o.awaiting.value, c)
            && (forall t :: t in cat.tasks && After(t, c) ==> o.awaiting.value.taskNumber <= t.taskNumber)
            && o.effect == Write(map[CurrentTaskKey := Int(o.awaiting.value.id)]))
  {
  }

  /** Without a current task, or without a level and section, "Следующее задание" changes nothing. */
  lemma NextTaskNeedsCurrent(rec: Record, cat: Catalog)
    requires !Truthy(Field(rec, CurrentTaskKey)) || !Truthy(Field(rec, LevelIdKey)) || !Truthy(Field(rec, SectionIdKey))
    ensures NavigationStep(rec, NextTaskButton, cat).effect == Keep
    ensures NavigationStep(rec, NextTaskButton, cat).awaiting == None
  {
  }

  /** "🏠 В главное меню" goes through send_welcome: the record is dropped whatever it held. */
  lemma HomeResets(rec: Record, cat: Catalog)
    ensures NavigationStep(rec, HomeButton, cat) == Out(Drop, Welcome)
  {
  }

  /** The fields the browsing handlers write. */
  const LearnerKeys: set<string> := {LevelIdKey, LevelNameKey, SectionIdKey, SectionNameKey, CurrentTaskKey}

  predicate LearnerEffect(e: Effect) {
    e.Keep? || e.Drop? || (e.Write? && e.fields.Keys <= LearnerKeys)
  }

  /** Choosing a level writes its id and name and nothing else; an unknown name changes nothing. */
  lemma ChooseLevelWrites(text: string, cat: Catalog)
    ensures
      var o := ChooseLevelStep(text, cat);
      && (LevelNamed(cat.levels, text).None? <==> o.effect == Keep)
      && (o.effect != Keep ==>
            && o.effect.Write? && o.effect.fields.Keys == {LevelIdKey, LevelNameKey}
            && o.effect.fields[LevelIdKey] == Int(LevelNamed(cat.levels, text).value.id)
            && o.effect.fields[LevelNameKey] == Str(text))
  {
  }

  /**
   * Choosing a section without a chosen level changes nothing; with one it writes the
   * section's id and name, whether or not the section has tasks.
   */
  lemma ChooseSectionWrites(rec: Record, text: string, cat: Catalog)
    requires SectionNamed(cat.sections, text).Some?
    ensures
      var o := ChooseSectionStep(rec, text, cat);
      var sec := SectionNamed(cat.sections, text).value;
      && (!Truthy(Field(rec, LevelIdKey)) ==> o.effect == Keep && o.reply == PickLevelFirst)
      && (Truthy(Field(rec, LevelIdKey)) ==>
            o.effect == Write(map[SectionIdKey := Int(sec.id), SectionNameKey := Str(text)]))
  {
  }

  /** A task button without a chosen level and section changes nothing; a found task becomes current. */
  lemma SendTaskWrites(rec: Record, n: int, cat: Catalog)
    ensures
      var o := SendTaskStep(rec, n, cat);
      && (!(Truthy(Field(rec, LevelIdKey)) && Truthy(Field(rec, SectionIdKey))) ==> o.effect == Keep && o.awaiting == None)
      && (o.effect != Keep ==>
            && o.awaiting.Some? && o.awaiting.value in cat.tasks && o.awaiting.value.taskNumber == n
            && Field(rec, LevelIdKey) == Some(Int(o.awaiting.value.levelId))
            && Field(rec, SectionIdKey) == Some(Int(o.awaiting.value.sectionId))
            && o.effect == Write(map[CurrentTaskKey := Int(o.awaiting.value.id)]))
  {
  }

  /** The browsing handlers touch only the learner fields, or drop the whole record. */
  lemma BrowsingTouchesLearnerFields(rec: Record, text: string, n: int, cat: Catalog)
    ensures LearnerEffect(ChooseLevelStep(text, cat).effect)
    ensures LearnerEffect(SendTaskStep(rec, n, cat).effect)
    ensures SendWelcomeStep().effect == Drop
  {
  }

  /** The same for the section choice. */
  lemma SectionChoiceTouchesLearnerFields(rec: Record, text: string, cat: Catalog)
    ensures LearnerEffect(ChooseSectionStep(rec, text, cat).effect)
  {
  }

  /** The same for the navigation buttons. */
  lemma NavigationTouchesLearnerFields(rec: Record, text: string, cat: Catalog)
    ensures LearnerEffect(NavigationStep(rec, text, cat).effect)
  {
  }

  // ---------------------------------------------------------------------------
  // The handlers, against the store and the database

  method SendWelcome(store: Store, u: int) returns (reply: Reply)
    modifies store
    ensures store.table == Apply(old(store.table), u, SendWelcomeStep().effect)
    ensures reply == SendWelcomeStep().reply
  {
    store.Clear(u);
    reply := Welcome;
  }

  method ChooseLevel(store: Store, db: Database, u: int, text: string) returns (reply: Reply)
    modifies store
    ensures
      var o := ChooseLevelStep(text, db.Snapshot());
      store.table == Apply(old(store.table), u, o.effect) && reply == o.reply
  {
    var level := LevelNamed(db.levels, text);
    if level.None? {
      reply := LevelNotFound;
      return;
    }
    ghost var t0 := store.table;
    store.Set(u, map[LevelIdKey := Int(level.value.id)]);
    store.Set(u, map[LevelNameKey := Str(text)]);
    SetTwice(t0, u, map[LevelIdKey := Int(level.value.id)], map[LevelNameKey := Str(text)]);
    assert map[LevelIdKey := Int(level.value.id)] + map[LevelNameKey := Str(text)]
        == map[LevelIdKey := Int(level.value.id), LevelNameKey := Str(text)];
    reply := PickSection(text);
  }

  /** Two set calls in a row are one set of both field sets, the later winning. */
  lemma SetTwice(t: Table, u: int, a: Record, b: Record)
    ensures Update(Update(t, u, a), u, b) == Update(t, u, a + b)
  {
    assert Merge(Merge(Lookup(t, u), a), b) == Merge(Lookup(t, u), a + b);
  }

  method ChooseSection(store: Store, db: Database, u: int, text: string) returns (reply: Reply)
    modifies store
    ensures
      var o := ChooseSectionStep(Lookup(old(store.table), u), text, db.Snapshot());
      store.table == Apply(old(store.table), u, o.effect) && reply == o.reply
  {
    var section := SectionNamed(db.sections, text);
    if section.None? {
      reply := SectionNotFound;
      return;
    }
    var state := store.Get(u);
    var levelId := Field(state, LevelIdKey);
    if !Truthy(levelId) {
      reply := PickLevelFirst;
      return;
    }
    ghost var t0 := store.table;
    store.Set(u, map[SectionIdKey := Int(section.value.id)]);
    store.Set(u, map[SectionNameKey := Str(text)]);
    SetTwice(t0, u, map[SectionIdKey := Int(section.value.id)], map[SectionNameKey := Str(text)]);
    assert map[SectionIdKey := Int(section.value.id)] + map[SectionNameKey := Str(text)]
        == map[SectionIdKey := Int(section.value.id), SectionNameKey := Str(text)];
    var numbers := MenuNumbers(levelId, section.value.id, db.Snapshot());
    if numbers == [] {
      reply := NoTasksYet(text);
    } else {
      reply := TaskMenu(numbers);
    }
  }

  method SendTask(store: Store, db: Database, u: int, n: int) returns (reply: Reply, awaiting: Option<Task>)
    modifies store
    ensures
      var o := SendTaskStep(Lookup(old(store.table), u), n, db.Snapshot());
      store.table == Apply(old(store.table), u, o.effect) && reply == o.reply && awaiting == o.awaiting
  {
    awaiting := None;
    var state := store.Get(u);
    var levelId := Field(state, LevelIdKey);
    var sectionId := Field(state, SectionIdKey);
    if !(Truthy(levelId) && Truthy(sectionId)) {
      reply := SessionExpired;
      return;
    }
    var task := None;
    if IdIn(levelId).Some? && IdIn(sectionId).Some? {
      task := TaskNumbered(db.tasks, IdIn(levelId).value, IdIn(sectionId).value, n);
    }
    if task.None? {
      reply := TaskNotFound(n);
      return;
    }
    store.Set(u, map[CurrentTaskKey := Int(task.value.id)]);
    reply := ShowTask(task.value);
    awaiting := task;
  }

  method Navigation(store: Store, db: Database, u: int, text: string) returns (reply: Reply, awaiting: Option<Task>)
    modifies store
    ensures
      var o := NavigationStep(Lookup(old(store.table), u), text, db.Snapshot());
      store.table == Apply(old(store.table), u, o.effect) && reply == o.reply && awaiting == o.awaiting
  {
    awaiting := None;
    if text == HomeButton {
      reply := SendWelcome(store, u);
      return;
    }
    var state := store.Get(u);
    var levelId := Field(state, LevelIdKey);
    var sectionId := Field(state, SectionIdKey);
    if !(Truthy(levelId) && Truthy(sectionId)) {
      reply := PickLevelFirst;
      return;
    }
    if text == TaskListButton {
      var l := IdIn(levelId);
      var s := IdIn(sectionId);
      if s.None? || l.None? || SectionWithId(db.sections, s.value).None? || LevelWithId(db.levels, l.value).None? {
        reply := StateError;
        return;
      }
      reply := TaskMenu(NumbersIn(db.tasks, l.value, s.value));
    } else if text == NextTaskButton {
      var cur := Field(state, CurrentTaskKey);
      if !Truthy(cur) {
        reply := NoCurrentTask;
        return;
      }
      var current := None;
      if IdIn(cur).Some? {
        current := TaskWithId(db.tasks, IdIn(cur).value);
      }
      if current.None? {
        reply := CurrentTaskMissing;
        return;
      }
      var next := NextTask(db.tasks, current.value);
      if next.None? {
        reply := LastTask;
        return;
      }
      store.Set(u, map[CurrentTaskKey := Int(next.value.id)]);
      reply := ShowTask(next.value);
      awaiting := next;
    } else {
      reply := Silent;
    }
  }

  /** The grading branch of process_answer, with its loop over positions. */
  method GradeAnswer(task: Task, sectionName: string, answer: string, llm: Option<string>) returns (g: Option<Grading>)
    ensures g == Grade(task, sectionName, answer, llm)
  {
    if sectionName == Writing {
      return Some(Grading(Analysis(llm.GetOr(AnalysisFallback)), None));
    }
    var isComplex := IsComplex(task.commentText);
    if !isComplex {
      var ok := task.correctAnswer == Some(answer);
      return Some(Grading(if ok then Right else Wrong(task.correctAnswer), Some(ok)));
    }
    if task.correctAnswer.None? {
      return None;
    }
    var expected := Upper(Strip(task.correctAnswer.value));
    var feedback: Feedback;
    if |answer| == |expected| && AllAB(answer) {
      if answer == expected {
        feedback := AllCorrect;
      } else {
        var marks := MarkAnswers(answer, expected);
        feedback := CheckMarks(marks);
      }
    } else {
      feedback := FormatError;
    }
    g := Some(Grading(feedback, Some(answer == expected)));
  }

  method ProcessAnswer(db: Database, u: int, task: Task, content: Content, llm: Option<string>) returns (reply: Reply)
    modifies db
    ensures
      var o := ProcessAnswerStep(u, task, content, old(db.Snapshot()), llm);
      reply == o.reply && db.submissions == old(db.submissions) + Rows(o.submission)
    ensures db.tasks == old(db.tasks)
  {
    ghost var o := ProcessAnswerStep(u, task, content, db.Snapshot(), llm);
    if !content.Text? {
      assert o == Out(Keep, Raised);
      reply := Raised;
      return;
    }
    var answer := Strip(content.text);
    var section := SectionWithId(db.sections, task.sectionId);
    if section.None? {
      assert o == Out(Keep, AnswerError);
      reply := AnswerError;
      return;
    }
    var g := GradeAnswer(task, section.value.name, answer, llm);
    if g.None? {
      assert o == Out(Keep, AnswerError);
      reply := AnswerError;
      return;
    }
    var sub := Submission(u, task.id, answer, g.value.isCorrect);
    assert o == Outcome(Keep, AnswerFeedback(g.value.feedback), None, None, Some(sub));
    db.AddSubmission(sub);
    reply := AnswerFeedback(g.value.feedback);
  }
}
