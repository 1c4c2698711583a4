/**
 * How one incoming message reaches a handler (main.py:41-42 and the filters of both
 * handler files), and what the whole bot does with it.
 *
 * The dispatch follows telebot: a pending answer (register_next_step_handler)
 * takes the chat's next message, whatever its content, before any message handler;
 * otherwise the handlers are tried in registration order (the learner's before the
 * admin's) and the first whose filter holds runs. A handler without content types
 * sees only text messages.
 */
module Router {

  import opened Wrappers
  import opened Text
  import opened Session
  import opened Models
  import opened Messages
  import opened Admin
  import opened Learner

  // ---------------------------------------------------------------------------
  // Commands and the back button

  /** The first character of s dropped, as `s[1:]`. */
  function DropFirst(s: string): string {
    if |s| == 0 then [] else s[1..]
  }

  /** telebot's command of a text: for text starting with '/', the first token cut at '@', without the '/'. */
  function CommandOf(text: string): Option<string> {
    if |text| == 0 || text[0] != '/' then None
    else
      var ts := Tokens(text);
      if |ts| == 0 then None else Some(DropFirst(SplitOn(ts[0], '@')[0]))
  }

  /** A bare command: "/start" is the command start. */
  lemma CommandOfBare(cmd: string)
    requires NoSpace(cmd) && '@' !in cmd
    ensures CommandOf("/" + cmd) == Some(cmd)
  {
    var w := "/" + cmd;
    assert w[1..] == cmd;
    assert NoSpace(w) by {
      assert forall i :: 1 <= i < |w| ==> w[i] == cmd[i - 1];
    }
    TokensOfWord(w);
    assert '@' !in w;
    assert SplitOn(w, '@') == [w];
    assert w[0] == '/';
  }

  /** A command addressed to the bot and followed by arguments: "/start@HskBot now" is still start. */
  lemma CommandOfAddressed(cmd: string, bot: string, rest: string)
    requires NoSpace(cmd) && '@' !in cmd && NoSpace(bot)
    ensures CommandOf("/" + cmd + "@" + bot + " " + rest) == Some(cmd)
  {
    var head := "/" + cmd;
    var w := head + "@" + bot;
    assert head[1..] == cmd;
    assert '@' !in head;
    assert NoSpace(w) by {
      assert forall i :: 1 <= i < |head| ==> w[i] == cmd[i - 1];
      assert forall i :: |head| < i < |w| ==> w[i] == bot[i - |head| - 1];
    }
    TokensAfterWord(w, rest);
    assert "/" + cmd + "@" + bot + " " + rest == w + " " + rest;
    IndexOfAfter(head, '@', bot);
    assert w == head + ['@'] + bot;
    assert w[..|head|] == head;
  }

  /** The filter of back_to_levels as written: only the label without the arrow. */
  predicate BackToLevelsAsWritten(text: string) {
    text == BackToLevelsButton
  }

  /** The filter evidently intended: both labels the two task menus offer. */
  predicate BackToLevels(text: string) {
    text == BackToLevelsButton || text == ArrowBackToLevelsButton
  }

  // ---------------------------------------------------------------------------
  // The handler a message reaches

  datatype Handler =
    | SendWelcomeH
    | ChooseLevelH
    | ChooseSectionH
    | SendTaskH(number: nat)
    | NavigationH
    | BackToLevelsH
    | AdminStartH
    | AdminExitH
    | StartAddTaskH
    | ChooseLevelAdminH
    | ChooseSectionAdminH
    | EnterTaskNumberH
    | ReceivePhotoH(photo: string)
    | ReceiveAudioH(audio: string)
    | EnterCommentH
    | EnterCorrectAnswerH
    | ConfirmOrCancelH
    | UnexpectedInputH
    | Unhandled

  /** The step value of a record, compared against one step name. */
  predicate AtStep(rec: Record, step: string) {
    Field(rec, "step") == Some(Str(step))
  }

  /** The steps where handle_unexpected_input stays silent: `step in [...]`. */
  predicate GuardedStep(rec: Record) {
    exists s :: s in GuardedSteps && AtStep(rec, s)
  }

  /** The back_to_levels filter, as written or corrected. */
  predicate BackFilter(corrected: bool, text: string) {
    if corrected then BackToLevels(text) else BackToLevelsAsWritten(text)
  }

  /** Ordered dispatch of a text message, with the back_to_levels filter as written or corrected. */
  function RouteTextWith(rec: Record, isAdmin: bool, t: string, corrected: bool): Handler {
    if CommandOf(t) == Some("start") then SendWelcomeH
    else if t in LevelNames && UserMode(rec) then ChooseLevelH
    else if t in SectionNames && UserMode(rec) then ChooseSectionH
    else if TaskButtonNumber(t).Some? && UserMode(rec) then SendTaskH(TaskButtonNumber(t).value)
    else if t in NavigationButtons && UserMode(rec) then NavigationH
    else if BackFilter(corrected, t) && UserMode(rec) then BackToLevelsH
    else if CommandOf(t) == Some("admin") then AdminStartH
    else if !(isAdmin && AdminMode(rec)) then Unhandled
    else if t == ExitButton then AdminExitH
    else if t == AddTaskButton then StartAddTaskH
    else if AtStep(rec, StepChooseLevel) then ChooseLevelAdminH
    else if AtStep(rec, StepChooseSection) then ChooseSectionAdminH
    else if AtStep(rec, StepTaskNumber) then EnterTaskNumberH
    else if AtStep(rec, StepComment) then EnterCommentH
    else if AtStep(rec, StepCorrectAnswer) then EnterCorrectAnswerH
    else if AtStep(rec, StepConfirm) && (t == ConfirmButton || t == CancelButton) then ConfirmOrCancelH
    else if !GuardedStep(rec) then UnexpectedInputH
    else Unhandled
  }

  /** Ordered dispatch of any message, with the back_to_levels filter as written or corrected. */
  function RouteWith(rec: Record, isAdmin: bool, c: Content, corrected: bool): Handler {
    match c
    case Text(t) => RouteTextWith(rec, isAdmin, t, corrected)
    case Photo(f) => if isAdmin && AdminMode(rec) && AtStep(rec, StepPhoto) then ReceivePhotoH(f) else Unhandled
    case Audio(f) => if isAdmin && AdminMode(rec) && AtStep(rec, StepAudio) then ReceiveAudioH(f) else Unhandled
    case Voice(f) => if isAdmin && AdminMode(rec) && AtStep(rec, StepAudio) then ReceiveAudioH(f) else Unhandled
    case OtherContent => Unhandled
  }

  /** The dispatch with the back button filter as written. */
  function RouteAsWritten(rec: Record, isAdmin: bool, c: Content): Handler {
    RouteWith(rec, isAdmin, c, false)
  }

  /** The dispatch the model uses: the back button filter accepts both labels. */
  function Route(rec: Record, isAdmin: bool, c: Content): Handler {
    RouteWith(rec, isAdmin, c, true)
  }

  /** What the dispatch guarantees about the record and the message a handler is given. */
  predicate Admitted(h: Handler, rec: Record, isAdmin: bool, c: Content) {
    var admin := isAdmin && AdminMode(rec);
    match h
    case SendWelcomeH => true
    case ChooseLevelH => c.Text? && UserMode(rec)
    case ChooseSectionH => c.Text? && UserMode(rec)
    case SendTaskH(_) => c.Text? && UserMode(rec)
    case NavigationH => c.Text? && UserMode(rec)
    case BackToLevelsH => c.Text? && UserMode(rec)
    case AdminStartH => c.Text?
    case AdminExitH => c.Text? && admin
    case StartAddTaskH => c.Text? && admin
    case ChooseLevelAdminH => c.Text? && admin && AtStep(rec, StepChooseLevel)
    case ChooseSectionAdminH => c.Text? && admin && AtStep(rec, StepChooseSection)
    case EnterTaskNumberH => c.Text? && admin && AtStep(rec, StepTaskNumber)
    case ReceivePhotoH(f) => c == Photo(f) && admin && AtStep(rec, StepPhoto)
    case ReceiveAudioH(f) => (c == Audio(f) || c == Voice(f)) && admin && AtStep(rec, StepAudio)
    case EnterCommentH => c.Text? && admin && AtStep(rec, StepComment)
    case EnterCorrectAnswerH => c.Text? && admin && AtStep(rec, StepCorrectAnswer)
    case ConfirmOrCancelH =>
      c.Text? && admin && AtStep(rec, StepConfirm) && (c.text == ConfirmButton || c.text == CancelButton)
    case UnexpectedInputH =>
      && c.Text? && admin && !GuardedStep(rec)
      && !AtStep(rec, StepComment) && !AtStep(rec, StepCorrectAnswer)
    case Unhandled => true
  }

  /** Every handler the dispatch picks is given a record and a message its filter admits. */
  lemma RouteAdmitted(rec: Record, isAdmin: bool, c: Content, corrected: bool)
    ensures Admitted(RouteWith(rec, isAdmin, c, corrected), rec, isAdmin, c)
  {
    if c.Text? {
      var t := c.text;
      if CommandOf(t) == Some("start") {
      } else if t in LevelNames && UserMode(rec) {
      } else if t in SectionNames && UserMode(rec) {
      } else if TaskButtonNumber(t).Some? && UserMode(rec) {
      } else if t in NavigationButtons && UserMode(rec) {
      } else if BackFilter(corrected, t) && UserMode(rec) {
      } else if CommandOf(t) == Some("admin") {
      } else if !(isAdmin && AdminMode(rec)) {
      } else if t == ExitButton {
      } else if t == AddTaskButton {
      } else if AtStep(rec, StepChooseLevel) {
      } else if AtStep(rec, StepChooseSection) {
      } else if AtStep(rec, StepTaskNumber) {
      } else if AtStep(rec, StepComment) {
      } else if AtStep(rec, StepCorrectAnswer) {
      } else if AtStep(rec, StepConfirm) && (t == ConfirmButton || t == CancelButton) {
      } else {
      }
    }
  }

  function TextOf(c: Content): string {
    if c.Text? then c.text else ""
  }

  /** What the handler does. */
  function Handle(h: Handler, rec: Record, isAdmin: bool, c: Content, cat: Catalog): Outcome {
    var t := TextOf(c);
    match h
    case SendWelcomeH => SendWelcomeStep()
    case ChooseLevelH => ChooseLevelStep(t, cat)
    case ChooseSectionH => ChooseSectionStep(rec, t, cat)
    case SendTaskH(n) => SendTaskStep(rec, n, cat)
    case NavigationH => NavigationStep(rec, t, cat)
    case BackToLevelsH => SendWelcomeStep()
    case AdminStartH => AdminStartStep(isAdmin)
    case AdminExitH => AdminExitStep()
    case StartAddTaskH => StartAddTaskStep()
    case ChooseLevelAdminH => ChooseLevelAdminStep(rec, t)
    case ChooseSectionAdminH => ChooseSectionAdminStep(rec, t)
    case EnterTaskNumberH => EnterTaskNumberStep(rec, t)
    case ReceivePhotoH(f) => ReceivePhotoStep(rec, f)
    case ReceiveAudioH(f) => ReceiveAudioStep(rec, f)
    case EnterCommentH => EnterCommentStep(rec, t)
    case EnterCorrectAnswerH => EnterCorrectAnswerStep(rec, t)
    case ConfirmOrCancelH => ConfirmOrCancelStep(rec, t, cat)
    case UnexpectedInputH => UnexpectedInputStep(rec)
    case Unhandled => Out(Keep, Silent)
  }

  // ---------------------------------------------------------------------------
  // The whole bot

  /**
   * What stays fixed while the bot runs: the admin list, the reference rows, and which
   * back_to_levels filter the dispatch uses (false: as written, true: corrected).
   */
  datatype Config = Config(adminIds: seq<int>, levels: seq<ExamLevel>, sections: seq<Section>, corrected: bool)

  /** Everything a message can change: the sessions, the pending answers and the two growing tables. */
  datatype World = World(table: Table, pending: map<int, Task>, tasks: seq<Task>, submissions: seq<Submission>)

  function CatalogOf(cfg: Config, w: World): Catalog {
    Catalog(cfg.levels, cfg.sections, w.tasks)
  }

  /** The outcome of one message: the pending answer first, otherwise the routed handler. */
  function Dispatch(cfg: Config, w: World, m: Message, llm: Option<string>): Outcome {
    var u := m.sender;
    if u in w.pending then ProcessAnswerStep(u, w.pending[u], m.content, CatalogOf(cfg, w), llm)
    else
      var rec := Lookup(w.table, u);
      var isAdmin := IsAdmin(cfg.adminIds, u);
      Handle(RouteWith(rec, isAdmin, m.content, cfg.corrected), rec, isAdmin, m.content, CatalogOf(cfg, w))
  }

  /** The world after one message; llm is what the feedback service gives for it, if asked. */
  function Deliver(cfg: Config, w: World, m: Message, llm: Option<string>): World {
    var o := Dispatch(cfg, w, m, llm);
    var u := m.sender;
    World(
      Apply(w.table, u, o.effect),
      if o.awaiting.Some? then w.pending[u := o.awaiting.value] else w.pending - {u},
      w.tasks + Rows(o.saved),
      w.submissions + Rows(o.submission))
  }

  /** The world after a run of messages, each with its feedback-service answer. */
  function Run(cfg: Config, w: World, ms: seq<(Message, Option<string>)>): World
    decreases |ms|
  {
    if |ms| == 0 then w else Run(cfg, Deliver(cfg, w, ms[0].0, ms[0].1), ms[1..])
  }

  /**
   * The bot as it runs: the session store, the database and the pending answers.
   * Built with corrected == false it is the bot as written; with true, the fixed one.
   */
  class Bot {
    const store: Store
    const db: Database
    const adminIds: seq<int>
    const corrected: bool
    var pending: map<int, Task>

    constructor (store: Store, db: Database, adminIds: seq<int>, corrected: bool)
      ensures this.store == store && this.db == db && this.adminIds == adminIds && this.corrected == corrected
      ensures pending == map[]
    {
      this.store := store;
      this.db := db;
      this.adminIds := adminIds;
      this.corrected := corrected;
      pending := map[];
    }

    function Cfg(): Config
      reads this, db
    {
      Config(adminIds, db.levels, db.sections, corrected)
    }

    function State(): World
      reads this, store, db
    {
      World(store.table, pending, db.tasks, db.submissions)
    }

    /** Run the handler a message reaches. */
    method Perform(h: Handler, u: int, c: Content) returns (reply: Reply, awaiting: Option<Task>)
      modifies store, db
      ensures
        var o := Handle(h, Lookup(old(store.table), u), IsAdmin(adminIds, u), c, old(db.Snapshot()));
        && store.table == Apply(old(store.table), u, o.effect) && reply == o.reply && awaiting == o.awaiting
        && db.tasks == old(db.tasks) + Rows(o.saved) && db.submissions == old(db.submissions) + Rows(o.submission)
    {
      match h
      case SendWelcomeH | ChooseLevelH | ChooseSectionH | SendTaskH(_) | NavigationH | BackToLevelsH =>
        reply, awaiting := PerformLearner(h, u, c);
      case ConfirmOrCancelH =>
        reply := ConfirmOrCancel(store, db, u, TextOf(c));
        awaiting := None;
      case AdminStartH | AdminExitH | StartAddTaskH | UnexpectedInputH | Unhandled =>
        reply := PerformAdmin(h, u, c);
        awaiting := None;
      case ChooseLevelAdminH | ChooseSectionAdminH | EnterTaskNumberH =>
        reply := PerformChoice(h, u, c);
        awaiting := None;
      case ReceivePhotoH(_) | ReceiveAudioH(_) =>
        reply := PerformMedia(h, u, c);
        awaiting := None;
      case EnterCommentH | EnterCorrectAnswerH =>
        reply := PerformFreeText(h, u, c);
        awaiting := None;
    }

    /** The learner's handlers: they read the catalog and change only the store. */
    method PerformLearner(h: Handler, u: int, c: Content) returns (reply: Reply, awaiting: Option<Task>)
      requires h.SendWelcomeH? || h.ChooseLevelH? || h.ChooseSectionH? || h.SendTaskH? || h.NavigationH? || h.BackToLevelsH?
      modifies store
      ensures
        var o := Handle(h, Lookup(old(store.table), u), IsAdmin(adminIds, u), c, old(db.Snapshot()));
        && store.table == Apply(old(store.table), u, o.effect) && reply == o.reply && awaiting == o.awaiting
        && o.saved == None && o.submission == None
    {
      awaiting := None;
      var t := TextOf(c);
      match h
      case SendWelcomeH => reply := SendWelcome(store, u);
      case ChooseLevelH => reply := ChooseLevel(store, db, u, t);
      case ChooseSectionH => reply := ChooseSection(store, db, u, t);
      case SendTaskH(n) => reply, awaiting := SendTask(store, db, u, n);
      case NavigationH => reply, awaiting := Navigation(store, db, u, t);
      case BackToLevelsH => reply := SendWelcome(store, u);
    }

    /** The admin's menu handlers, the fallback, and no handler at all: they change only the store. */
    method PerformAdmin(h: Handler, u: int, c: Content) returns (reply: Reply)
      requires h.AdminStartH? || h.AdminExitH? || h.StartAddTaskH? || h.UnexpectedInputH? || h.Unhandled?
      modifies store
      ensures
        var o := Handle(h, Lookup(old(store.table), u), IsAdmin(adminIds, u), c, old(db.Snapshot()));
        && store.table == Apply(old(store.table), u, o.effect) && reply == o.reply
        && o.awaiting == None && o.saved == None && o.submission == None
    {
      match h
      case AdminStartH => reply := AdminStart(store, u, u in adminIds);
      case AdminExitH => reply := AdminExit(store, u);
      case StartAddTaskH => reply := StartAddTask(store, u);
      case UnexpectedInputH => reply := HandleUnexpectedInput(store, u);
      case Unhandled => reply := Silent;
    }

    /** The authoring steps that take typed choices: level, section, task number. */
    method PerformChoice(h: Handler, u: int, c: Content) returns (reply: Reply)
      requires h.ChooseLevelAdminH? || h.ChooseSectionAdminH? || h.EnterTaskNumberH?
      modifies store
      ensures
        var o := Handle(h, Lookup(old(store.table), u), IsAdmin(adminIds, u), c, old(db.Snapshot()));
        && store.table == Apply(old(store.table), u, o.effect) && reply == o.reply
        && o.awaiting == None && o.saved == None && o.submission == None
    {
      var t := TextOf(c);
      match h
      case ChooseLevelAdminH => reply := ChooseLevelAdmin(store, u, t);
      case ChooseSectionAdminH => reply := ChooseSectionAdmin(store, u, t);
      case EnterTaskNumberH => reply := EnterTaskNumber(store, u, t);
    }

    /** The authoring steps that take media: photo and audio. */
    method PerformMedia(h: Handler, u: int, c: Content) returns (reply: Reply)
      requires h.ReceivePhotoH? || h.ReceiveAudioH?
      modifies store
      ensures
        var o := Handle(h, Lookup(old(store.table), u), IsAdmin(adminIds, u), c, old(db.Snapshot()));
        && store.table == Apply(old(store.table), u, o.effect) && reply == o.reply
        && o.awaiting == None && o.saved == None && o.submission == None
    {
      match h
      case ReceivePhotoH(f) => reply := ReceivePhoto(store, u, f);
      case ReceiveAudioH(f) => reply := ReceiveAudio(store, u, f);
    }

    /** The authoring steps that take free text: comment and expected answer. */
    method PerformFreeText(h: Handler, u: int, c: Content) returns (reply: Reply)
      requires h.EnterCommentH? || h.EnterCorrectAnswerH?
      modifies store
      ensures
        var o := Handle(h, Lookup(old(store.table), u), IsAdmin(adminIds, u), c, old(db.Snapshot()));
        && store.table == Apply(old(store.table), u, o.effect) && reply == o.reply
        && o.awaiting == None && o.saved == None && o.submission == None
    {
      var t := TextOf(c);
      match h
      case EnterCommentH => reply := EnterComment(store, u, t);
      case EnterCorrectAnswerH => reply := EnterCorrectAnswer(store, u, t);
    }

    /** process_new_messages for one message. */
    method OnMessage(m: Message, llm: Option<string>) returns (reply: Reply)
      modifies this, store, db
      ensures State() == Deliver(old(Cfg()), old(State()), m, llm)
      ensures reply == Dispatch(old(Cfg()), old(State()), m, llm).reply
      ensures Cfg() == old(Cfg())
    {
      var u := m.sender;
      if u in pending {
        var task := pending[u];
        pending := pending - {u};
        reply := ProcessAnswer(db, u, task, m.content, llm);
        return;
      }
      var rec := store.Get(u);
      var h := RouteWith(rec, u in adminIds, m.content, corrected);
      var awaiting;
      reply, awaiting := Perform(h, u, m.content);
      if awaiting.Some? {
        pending := pending[u := awaiting.value];
      } else {
        pending := pending - {u};
      }
    }
  }

  // ---------------------------------------------------------------------------
  // Properties of the dispatch order

  /** /start wins in every mode and at every step, and drops the record. */
  lemma StartWinsAnywhere(rec: Record, isAdmin: bool, t: string, corrected: bool, cat: Catalog)
    requires CommandOf(t) == Some("start")
    ensures RouteWith(rec, isAdmin, Text(t), corrected) == SendWelcomeH
    ensures Handle(SendWelcomeH, rec, isAdmin, Text(t), cat).effect == Drop
  {
  }

  /**
   * Delivered to a chat with no answer pending, `/start` drops the sender's record and
   * changes nothing else: no pending answer, task or submission appears.
   */
  lemma StartResetsIdleChat(cfg: Config, w: World, u: int, t: string, llm: Option<string>)
    requires CommandOf(t) == Some("start") && u !in w.pending
    ensures
      var w' := Deliver(cfg, w, Message(u, Text(t)), llm);
      && w'.table == w.table - {u}
      && w'.pending == w.pending && w'.tasks == w.tasks && w'.submissions == w.submissions
  {
    StartWinsAnywhere(Lookup(w.table, u), IsAdmin(cfg.adminIds, u), t, cfg.corrected, CatalogOf(cfg, w));
  }

  /**
   * Delivered while an answer is pending, `/start` is not a command at all: it is taken
   * as the answer. The sessions stay as they were, the wait ends, and at most one
   * submission is stored, carrying the awaited task and the stripped text.
   */
  lemma StartWhileAnswerPendingIsAnAnswer(cfg: Config, w: World, u: int, t: string, llm: Option<string>)
    requires CommandOf(t) == Some("start") && u in w.pending
    ensures
      var w' := Deliver(cfg, w, Message(u, Text(t)), llm);
      && w'.table == w.table && w'.pending == w.pending - {u} && w'.tasks == w.tasks
      && (w'.submissions == w.submissions
          || exists ok :: w'.submissions == w.submissions + [Submission(u, w.pending[u].id, Strip(t), ok)])
  {
    var o := ProcessAnswerStep(u, w.pending[u], Text(t), CatalogOf(cfg, w), llm);
    if o.submission.Some? {
      assert o.submission.value == Submission(u, w.pending[u].id, Strip(t), o.submission.value.isCorrect);
    }
  }

  /** The learner's menus fire only in user mode (apart from /start). */
  lemma LearnerHandlersNeedUserMode(rec: Record, isAdmin: bool, c: Content, corrected: bool)
    requires
      var h := RouteWith(rec, isAdmin, c, corrected);
      h.ChooseLevelH? || h.ChooseSectionH? || h.SendTaskH? || h.NavigationH? || h.BackToLevelsH?
    ensures UserMode(rec) && c.Text?
  {
    RouteAdmitted(rec, isAdmin, c, corrected);
  }

  /** Every admin handler but /admin needs an admin sender in admin mode. */
  lemma AdminHandlersNeedAdminMode(rec: Record, isAdmin: bool, c: Content, corrected: bool)
    requires
      var h := RouteWith(rec, isAdmin, c, corrected);
      && !(h.SendWelcomeH? || h.ChooseLevelH? || h.ChooseSectionH? || h.SendTaskH? || h.NavigationH? || h.BackToLevelsH?)
      && !h.AdminStartH? && !h.Unhandled?
    ensures isAdmin && AdminMode(rec)
  {
    RouteAdmitted(rec, isAdmin, c, corrected);
  }

  /** The exit and add-task buttons win at every admin step: exit drops the record, add-task restarts authoring. */
  lemma AdminButtonsWin(rec: Record, corrected: bool, cat: Catalog)
    requires AdminMode(rec)
    ensures RouteWith(rec, true, Text(ExitButton), corrected) == AdminExitH
    ensures RouteWith(rec, true, Text(AddTaskButton), corrected) == StartAddTaskH
    ensures Handle(AdminExitH, rec, true, Text(ExitButton), cat).effect == Drop
    ensures
      ApplyTo(rec, Handle(StartAddTaskH, rec, true, Text(AddTaskButton), cat).effect)
        == rec["step" := Str(StepChooseLevel)]["data" := Dict(map[])]
  {
    assert ExitButton[0] != '/' && AddTaskButton[0] != '/';
    assert StepAndData(StepChooseLevel, map[]) == map["step" := Str(StepChooseLevel), "data" := Dict(map[])];
  }

  /** The fallback runs only for text, only off the guarded steps, and never at the comment or answer steps. */
  lemma FallbackOffGuardedSteps(rec: Record, isAdmin: bool, c: Content, corrected: bool)
    requires RouteWith(rec, isAdmin, c, corrected) == UnexpectedInputH
    ensures c.Text? && isAdmin && AdminMode(rec) && !GuardedStep(rec)
    ensures !AtStep(rec, StepComment) && !AtStep(rec, StepCorrectAnswer)
  {
    RouteAdmitted(rec, isAdmin, c, corrected);
  }

  /** Text at confirm other than the two buttons (and the always-live commands and buttons) reaches no handler. */
  lemma OtherTextAtConfirmIgnored(rec: Record, t: string, corrected: bool)
    requires AdminMode(rec) && AtStep(rec, StepConfirm)
    requires t != ConfirmButton && t != CancelButton && t != ExitButton && t != AddTaskButton
    requires CommandOf(t) != Some("start") && CommandOf(t) != Some("admin")
    ensures RouteWith(rec, true, Text(t), corrected) == Unhandled
  {
    ModesExclusive(rec);
    assert !UserMode(rec);
    assert !AtStep(rec, StepChooseLevel) && !AtStep(rec, StepChooseSection) && !AtStep(rec, StepTaskNumber);
    assert !AtStep(rec, StepComment) && !AtStep(rec, StepCorrectAnswer);
    assert StepConfirm in GuardedSteps;
    assert GuardedStep(rec);
    assert RouteTextWith(rec, true, t, corrected) == Unhandled;
  }

  /** Only photos are taken at the photo step, only audio or voice at the audio step. */
  lemma MediaRouting(rec: Record, isAdmin: bool, c: Content, corrected: bool)
    ensures RouteWith(rec, isAdmin, c, corrected).ReceivePhotoH? <==> (c.Photo? && isAdmin && AdminMode(rec) && AtStep(rec, StepPhoto))
    ensures RouteWith(rec, isAdmin, c, corrected).ReceiveAudioH? <==> ((c.Audio? || c.Voice?) && isAdmin && AdminMode(rec) && AtStep(rec, StepAudio))
  {
    RouteAdmitted(rec, isAdmin, c, corrected);
  }
}
