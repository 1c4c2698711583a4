/**
 * The administrator's task-authoring flow (handlers/admin_handlers.py).
 *
 * Each handler is given twice: as a step function from the sender's current record
 * (and the message) to an Outcome, and as a method that does what the handler does
 * to the store, step by step, and is proved to have exactly that step's effect.
 */
module Admin {

  import opened Wrappers
  import opened Text
  import opened Session
  import opened Models
  import opened Messages

  // ---------------------------------------------------------------------------
  // ADMIN_IDS and is_admin

  /** `int(x.strip())` for an entry that passes `x.strip().isdigit()`, otherwise None. */
  function IdOf(p: string): Option<int> {
    var t := Strip(p);
    if IsDigits(t) then Some(DigitsValue(t)) else None
  }

  /** The ids of the entries that pass, in order. */
  function KeepIds(parts: seq<string>): (ids: seq<int>)
    ensures forall x :: x in ids <==> exists p :: p in parts && IdOf(p) == Some(x)
  {
    if |parts| == 0 then []
    else
      var rest := KeepIds(parts[1..]);
      assert forall q :: q in parts <==> q == parts[0] || q in parts[1..];
      (if IdOf(parts[0]).Some? then [IdOf(parts[0]).value] else []) + rest
  }

  /**
   * ADMIN_IDS parsed from the environment text: split at commas, keep an entry iff its
   * stripped text is all digits; empty, signed and malformed entries are dropped.
   */
  function ParseAdminIds(env: string): (ids: seq<int>)
    ensures forall x :: x in ids <==>
      exists p :: p in SplitOn(env, ',') && IsDigits(Strip(p)) && DigitsValue(Strip(p)) == x
  {
    KeepIds(SplitOn(env, ','))
  }

  /** Every id on the list is a non-negative integer. */
  lemma AdminIdsNonNegative(env: string, x: int)
    requires x in ParseAdminIds(env)
    ensures x >= 0
  {
  }

  /** A list of one plain number names exactly that admin. */
  lemma SingleAdminId(digits: string)
    requires IsDigits(digits)
    ensures ParseAdminIds(digits) == [DigitsValue(digits)]
  {
    assert ',' !in digits;
    StripOfDigits(digits);
    var parts := [digits];
    assert SplitOn(digits, ',') == parts;
    assert KeepIds(parts[1..]) == [];
  }

  predicate IsAdmin(ids: seq<int>, u: int) {
    u in ids
  }

  // ---------------------------------------------------------------------------
  // Steps and the keys of `data`

  const StepMainMenu: string := "main_menu"
  const StepChooseLevel: string := "choose_level"
  const StepChooseSection: string := "choose_section"
  const StepTaskNumber: string := "task_number"
  const StepPhoto: string := "photo"
  const StepAudio: string := "audio"
  const StepComment: string := "comment"
  const StepCorrectAnswer: string := "correct_answer"
  const StepConfirm: string := "confirm"

  /** The steps the fallback handler leaves alone. */
  const GuardedSteps: seq<string> := [StepMainMenu, StepChooseLevel, StepChooseSection, StepTaskNumber, StepConfirm]

  const LevelKey: string := "level_name"
  const SectionKey: string := "section_name"
  const NumberKey: string := "task_number"
  const PhotoKey: string := "photo_file_id"
  const AudioKey: string := "audio_file_id"
  const CommentKey: string := "comment"
  const AnswerKey: string := "correct_answer"

  /** `state.get("data", {})`, or None where a dict operation on it would raise. */
  function DataOf(rec: Record): Option<map<string, Value>> {
    if "data" !in rec then Some(map[])
    else match rec["data"]
      case Dict(d) => Some(d)
      case _ => None
  }

  /** The fields `set_user_state(u, step=..., data=...)` writes. */
  function StepAndData(step: string, d: map<string, Value>): Record {
    map["step" := Str(step), "data" := Dict(d)]
  }

  /** One authoring step: store value v under key in data and move to step next. */
  function PutData(rec: Record, key: string, v: Value, next: string, reply: Reply): (o: Outcome)
    ensures RecordOnly(o)
  {
    match DataOf(rec)
    case None => Out(Keep, Raised)
    case Some(d) => Out(Write(StepAndData(next, d[key := v])), reply)
  }

  // ---------------------------------------------------------------------------
  // The step functions, one per handler

  /** /admin: a denial for anyone not on the list; otherwise admin mode at the main menu. */
  function AdminStartStep(isAdmin: bool): (o: Outcome)
    ensures RecordOnly(o)
  {
    if !isAdmin then Out(Keep, AccessDenied)
    else Out(Write(map["mode" := Str("admin"), "step" := Str(StepMainMenu), "data" := Dict(map[])]), AdminPanel)
  }

  /** "↩️ Выход": the record is dropped. */
  function AdminExitStep(): (o: Outcome)
    ensures RecordOnly(o)
  {
    Out(Drop, ExitedAdmin)
  }

  /** "➕ Добавить задание": authoring starts over at the level choice with empty data. */
  function StartAddTaskStep(): (o: Outcome)
    ensures RecordOnly(o)
  {
    Out(Write(StepAndData(StepChooseLevel, map[])), AskLevel)
  }

  function ChooseLevelAdminStep(rec: Record, text: string): (o: Outcome)
    ensures RecordOnly(o)
  {
    if text !in LevelNames then Out(Keep, InvalidLevel)
    else PutData(rec, LevelKey, Str(text), StepChooseSection, AskSection)
  }

  function ChooseSectionAdminStep(rec: Record, text: string): (o: Outcome)
    ensures RecordOnly(o)
  {
    if text !in SectionNames then Out(Keep, InvalidSection)
    else PutData(rec, SectionKey, Str(text), StepTaskNumber, AskTaskNumber)
  }

  /** The task number must be what int() accepts and at least 1. */
  function EnterTaskNumberStep(rec: Record, text: string): (o: Outcome)
    ensures RecordOnly(o)
  {
    match PyInt(text)
    case None => Out(Keep, InvalidTaskNumber)
    case Some(n) =>
      if n < 1 then Out(Keep, InvalidTaskNumber)
      else PutData(rec, NumberKey, Int(n), StepPhoto, AskPhoto)
  }

  /** After the photo a listening task asks for audio, any other for the comment. */
  function ReceivePhotoStep(rec: Record, fileId: string): (o: Outcome)
    ensures RecordOnly(o)
  {
    match DataOf(rec)
    case None => Out(Keep, Raised)
    case Some(d) =>
      var d' := d[PhotoKey := Str(fileId)];
      if SectionKey !in d' then Out(Keep, Raised)
      else if d'[SectionKey] == Str(Listening) then Out(Write(StepAndData(StepAudio, d')), AskAudio)
      else Out(Write(StepAndData(StepComment, d')), AskComment)
  }

  function ReceiveAudioStep(rec: Record, fileId: string): (o: Outcome)
    ensures RecordOnly(o)
  {
    PutData(rec, AudioKey, Str(fileId), StepComment, AskComment)
  }

  /** The comment step stores the comment stripped of surrounding whitespace. */
  function EnterCommentStep(rec: Record, text: string): (o: Outcome)
    ensures RecordOnly(o)
  {
    StoreComment(rec, Strip(text))
  }

  /** After the comment a writing task goes to the preview, any other asks for its answer. */
  function StoreComment(rec: Record, comment: string): (o: Outcome)
    ensures RecordOnly(o)
  {
    match DataOf(rec)
    case None => Out(Keep, Raised)
    case Some(d) =>
      var d' := d[CommentKey := Str(comment)];
      if SectionKey !in d' then Out(Keep, Raised)
      else if d'[SectionKey] == Str(Writing) then Out(Write(StepAndData(StepConfirm, d')), PreviewReply(d'))
      else Out(Write(StepAndData(StepCorrectAnswer, d')), AskCorrectAnswer)
  }

  /** The answer step stores the expected answer stripped of surrounding whitespace. */
  function EnterCorrectAnswerStep(rec: Record, text: string): (o: Outcome)
    ensures RecordOnly(o)
  {
    StoreAnswer(rec, Strip(text))
  }

  /** After the expected answer every section goes to the preview. */
  function StoreAnswer(rec: Record, answer: string): (o: Outcome)
    ensures RecordOnly(o)
  {
    match DataOf(rec)
    case None => Out(Keep, Raised)
    case Some(d) =>
      var d' := d[AnswerKey := Str(answer)];
      Out(Write(StepAndData(StepConfirm, d')), PreviewReply(d'))
  }

  /**
   * _show_preview_and_confirm: None where a key it reads is missing; the expected
   * answer is shown exactly when the section is not writing.
   */
  function PreviewOf(d: map<string, Value>): (p: Option<Preview>)
    ensures p.Some? ==> SectionKey in d && (p.value.answer.Some? <==> d[SectionKey] != Str(Writing))
    ensures p.Some? && p.value.answer.Some? ==> AnswerKey in d && p.value.answer.value == d[AnswerKey]
  {
    if SectionKey !in d || LevelKey !in d || NumberKey !in d || CommentKey !in d then None
    else if d[SectionKey] == Str(Writing) then
      Some(Preview(d[LevelKey], d[SectionKey], d[NumberKey], d[CommentKey], None))
    else if AnswerKey !in d then None
    else Some(Preview(d[LevelKey], d[SectionKey], d[NumberKey], d[CommentKey], Some(d[AnswerKey])))
  }

  function PreviewReply(d: map<string, Value>): Reply {
    match PreviewOf(d)
    case None => Raised
    case Some(p) => ShowPreview(p)
  }

  datatype SaveResult = Saved(task: Task) | RefMissing | SaveFailed

  /** The Task row built from data (the field mapping of _save_task), or None where building it raises. */
  function TaskRow(d: map<string, Value>, id: int, levelId: int, sectionId: int): Option<Task> {
    if NumberKey !in d || PhotoKey !in d || CommentKey !in d then None
    else if !d[NumberKey].Int? || !d[PhotoKey].Str? || !d[CommentKey].Str? then None
    else if (AudioKey in d && !d[AudioKey].Str?) || (AnswerKey in d && !d[AnswerKey].Str?) then None
    else
      var audio := if AudioKey in d then Some(d[AudioKey].s) else None;
      var answer := if AnswerKey in d then Some(d[AnswerKey].s) else None;
      Some(Task(id, levelId, sectionId, d[NumberKey].i, d[PhotoKey].s, audio, d[CommentKey].s, answer))
  }

  /** _save_task: look the level and section up by name, then insert the row. */
  function SaveTask(d: map<string, Value>, cat: Catalog): SaveResult {
    if LevelKey !in d || SectionKey !in d then SaveFailed
    else
      var level := if d[LevelKey].Str? then LevelNamed(cat.levels, d[LevelKey].s) else None;
      var section := if d[SectionKey].Str? then SectionNamed(cat.sections, d[SectionKey].s) else None;
      if level.None? || section.None? then RefMissing
      else match TaskRow(d, NewTaskId(cat.tasks), level.value.id, section.value.id)
        case None => SaveFailed
        case Some(t) => Saved(t)
  }

  function SaveReply(r: SaveResult): Reply {
    match r
    case Saved(t) => TaskAdded(t)
    case RefMissing => LevelOrSectionMissing
    case SaveFailed => SaveError
  }

  function SavedRow(r: SaveResult): Option<Task> {
    if r.Saved? then Some(r.task) else None
  }

  /** The data _save_task receives: `state.get("data", {})`; a non-dict fails inside its try. */
  function SaveFromRecord(rec: Record, cat: Catalog): SaveResult {
    if "data" !in rec then SaveTask(map[], cat)
    else match rec["data"]
      case Dict(d) => SaveTask(d, cat)
      case _ => SaveFailed
  }

  /** Cancel drops the record; confirm saves and then drops the record whatever the save did. */
  function ConfirmOrCancelStep(rec: Record, text: string, cat: Catalog): (o: Outcome)
    ensures o.awaiting == None && o.submission == None
  {
    if text == CancelButton then Out(Drop, AddCancelled)
    else
      var r := SaveFromRecord(rec, cat);
      Outcome(Drop, SaveReply(r), None, SavedRow(r), None)
  }

  /** The fallback: a hint chosen by the step, the record unchanged. */
  function UnexpectedInputStep(rec: Record): (o: Outcome)
    ensures RecordOnly(o)
  {
    var step := Field(rec, "step");
    if step == Some(Str(StepPhoto)) then Out(Keep, ExpectedPhoto)
    else if step == Some(Str(StepAudio)) then Out(Keep, ExpectedAudio)
    else if step == Some(Str(StepComment)) || step == Some(Str(StepCorrectAnswer)) then Out(Keep, ExpectedText)
    else Out(Keep, Silent)
  }

  // ---------------------------------------------------------------------------
  // Properties of the step functions

  /** /admin from an admin enters admin mode at the main menu with empty data, keeping the other fields. */
  lemma AdminEntry(rec: Record)
    ensures var r := ApplyTo(rec, AdminStartStep(true).effect);
      && AdminMode(r) && Field(r, "step") == Some(Str(StepMainMenu)) && DataOf(r) == Some(map[])
      && (forall k :: k in rec && k !in {"mode", "step", "data"} ==> k in r && r[k] == rec[k])
    ensures AdminStartStep(true).reply == AdminPanel
  {
  }

  /** /admin from anyone else changes nothing and replies with the denial. */
  lemma NonAdminDenied(rec: Record)
    ensures ApplyTo(rec, AdminStartStep(false).effect) == rec
    ensures AdminStartStep(false).reply == AccessDenied
  {
  }

  /** An unknown level or section name leaves the record as it was and asks again. */
  lemma UnknownChoiceKeeps(rec: Record, text: string)
    ensures text !in LevelNames ==> ChooseLevelAdminStep(rec, text) == Out(Keep, InvalidLevel)
    ensures text !in SectionNames ==> ChooseSectionAdminStep(rec, text) == Out(Keep, InvalidSection)
    ensures text in LevelNames && DataOf(rec).Some? ==>
      ChooseLevelAdminStep(rec, text).effect == Write(StepAndData(StepChooseSection, DataOf(rec).value[LevelKey := Str(text)]))
    ensures text in SectionNames && DataOf(rec).Some? ==>
      ChooseSectionAdminStep(rec, text).effect == Write(StepAndData(StepTaskNumber, DataOf(rec).value[SectionKey := Str(text)]))
  {
  }

  /** A positive decimal number (surrounding whitespace allowed) is stored as an int and the photo is asked for. */
  lemma TaskNumberAccepted(rec: Record, text: string)
    requires IsDigits(Strip(text)) && DigitsValue(Strip(text)) >= 1 && DataOf(rec).Some?
    ensures EnterTaskNumberStep(rec, text)
      == Out(Write(StepAndData(StepPhoto, DataOf(rec).value[NumberKey := Int(DigitsValue(Strip(text)))])), AskPhoto)
  {
    ParseDigits(Strip(text));
  }

  /** Zero, negative numbers and non-numbers leave the record as it was. */
  lemma TaskNumberRejected(rec: Record, digits: string)
    requires IsDigits(digits)
    ensures EnterTaskNumberStep(rec, "-" + digits) == Out(Keep, InvalidTaskNumber)
    ensures DigitsValue(digits) == 0 ==> EnterTaskNumberStep(rec, digits) == Out(Keep, InvalidTaskNumber)
    ensures EnterTaskNumberStep(rec, "") == Out(Keep, InvalidTaskNumber)
  {
    PyIntNegative(digits);
    PyIntOfDigits(digits);
  }

  /** The task-number step leaves the record alone exactly when int() rejects the text or gives less than 1. */
  lemma TaskNumberKeepsIffInvalid(rec: Record, text: string)
    requires DataOf(rec).Some?
    ensures EnterTaskNumberStep(rec, text).effect == Keep <==> PyInt(text).None? || PyInt(text).value < 1
    ensures EnterTaskNumberStep(rec, text).effect == Keep ==> EnterTaskNumberStep(rec, text).reply == InvalidTaskNumber
  {
  }

  /** After the photo, a listening task moves to the audio step and every other section to the comment. */
  lemma PhotoBranch(rec: Record, fileId: string)
    requires DataOf(rec).Some? && SectionKey in DataOf(rec).value
    ensures
      var d := DataOf(rec).value;
      var next := if d[SectionKey] == Str(Listening) then StepAudio else StepComment;
      ReceivePhotoStep(rec, fileId).effect == Write(StepAndData(next, d[PhotoKey := Str(fileId)]))
  {
  }

  /** After the stripped comment, a writing task moves to confirm and every other section to the answer step. */
  lemma CommentBranch(rec: Record, text: string)
    requires DataOf(rec).Some? && SectionKey in DataOf(rec).value
    ensures
      var d := DataOf(rec).value;
      var next := if d[SectionKey] == Str(Writing) then StepConfirm else StepCorrectAnswer;
      EnterCommentStep(rec, text).effect == Write(StepAndData(next, d[CommentKey := Str(Strip(text))]))
  {
  }

  // ---------------------------------------------------------------------------
  // The handlers, against the store

  method AdminStart(store: Store, u: int, isAdmin: bool) returns (reply: Reply)
    modifies store
    ensures store.table == Apply(old(store.table), u, AdminStartStep(isAdmin).effect)
    ensures reply == AdminStartStep(isAdmin).reply
  {
    if !isAdmin {
      reply := AccessDenied;
      return;
    }
    store.Set(u, map["mode" := Str("admin"), "step" := Str(StepMainMenu), "data" := Dict(map[])]);
    reply := AdminPanel;
  }

  method AdminExit(store: Store, u: int) returns (reply: Reply)
    modifies store
    ensures store.table == Apply(old(store.table), u, AdminExitStep().effect)
    ensures reply == AdminExitStep().reply
  {
    store.Clear(u);
    reply := ExitedAdmin;
  }

  method StartAddTask(store: Store, u: int) returns (reply: Reply)
    modifies store
    ensures store.table == Apply(old(store.table), u, StartAddTaskStep().effect)
    ensures reply == StartAddTaskStep().reply
  {
    store.Set(u, map["step" := Str(StepChooseLevel), "data" := Dict(map[])]);
    reply := AskLevel;
  }

  /** Read data, assign one key in it, write step and data back (the shape of steps 1 to 6). */
  method StoreInData(store: Store, u: int, key: string, v: Value, next: string, done: Reply) returns (reply: Reply)
    modifies store
    ensures
      var o := PutData(Lookup(old(store.table), u), key, v, next, done);
      store.table == Apply(old(store.table), u, o.effect) && reply == o.reply
  {
    var state := store.Get(u);
    var data := DataOf(state);
    if data.None? {
      reply := Raised;
      return;
    }
    var d := data.value;
    d := d[key := v];
    store.Set(u, map["step" := Str(next), "data" := Dict(d)]);
    reply := done;
  }

  method ChooseLevelAdmin(store: Store, u: int, text: string) returns (reply: Reply)
    modifies store
    ensures
      var o := ChooseLevelAdminStep(Lookup(old(store.table), u), text);
      store.table == Apply(old(store.table), u, o.effect) && reply == o.reply
  {
    if text !in LevelNames {
      reply := InvalidLevel;
      return;
    }
    reply := StoreInData(store, u, LevelKey, Str(text), StepChooseSection, AskSection);
  }

  method ChooseSectionAdmin(store: Store, u: int, text: string) returns (reply: Reply)
    modifies store
    ensures
      var o := ChooseSectionAdminStep(Lookup(old(store.table), u), text);
      store.table == Apply(old(store.table), u, o.effect) && reply == o.reply
  {
    if text !in SectionNames {
      reply := InvalidSection;
      return;
    }
    reply := StoreInData(store, u, SectionKey, Str(text), StepTaskNumber, AskTaskNumber);
  }

  method EnterTaskNumber(store: Store, u: int, text: string) returns (reply: Reply)
    modifies store
    ensures
      var o := EnterTaskNumberStep(Lookup(old(store.table), u), text);
      store.table == Apply(old(store.table), u, o.effect) && reply == o.reply
  {
    var num := PyInt(text);
    if num.None? || num.value < 1 {
      reply := InvalidTaskNumber;
      return;
    }
    reply := StoreInData(store, u, NumberKey, Int(num.value), StepPhoto, AskPhoto);
  }

  method ReceivePhoto(store: Store, u: int, fileId: string) returns (reply: Reply)
    modifies store
    ensures
      var o := ReceivePhotoStep(Lookup(old(store.table), u), fileId);
      store.table == Apply(old(store.table), u, o.effect) && reply == o.reply
  {
    var state := store.Get(u);
    var data := DataOf(state);
    if data.None? {
      reply := Raised;
      return;
    }
    var d := data.value;
    d := d[PhotoKey := Str(fileId)];
    if SectionKey !in d {
      reply := Raised;
      return;
    }
    var section := d[SectionKey];
    if section == Str(Listening) {
      store.Set(u, map["step" := Str(StepAudio), "data" := Dict(d)]);
      reply := AskAudio;
    } else {
      store.Set(u, map["step" := Str(StepComment), "data" := Dict(d)]);
      reply := AskComment;
    }
  }

  method ReceiveAudio(store: Store, u: int, fileId: string) returns (reply: Reply)
    modifies store
    ensures
      var o := ReceiveAudioStep(Lookup(old(store.table), u), fileId);
      store.table == Apply(old(store.table), u, o.effect) && reply == o.reply
  {
    reply := StoreInData(store, u, AudioKey, Str(fileId), StepComment, AskComment);
  }

  method EnterComment(store: Store, u: int, text: string) returns (reply: Reply)
    modifies store
    ensures
      var o := EnterCommentStep(Lookup(old(store.table), u), text);
      store.table == Apply(old(store.table), u, o.effect) && reply == o.reply
  {
    var state := store.Get(u);
    var data := DataOf(state);
    if data.None? {
      reply := Raised;
      return;
    }
    var d := data.value;
    d := d[CommentKey := Str(Strip(text))];
    if SectionKey !in d {
      reply := Raised;
      return;
    }
    if d[SectionKey] == Str(Writing) {
      store.Set(u, map["step" := Str(StepConfirm), "data" := Dict(d)]);
      reply := PreviewReply(d);
    } else {
      store.Set(u, map["step" := Str(StepCorrectAnswer), "data" := Dict(d)]);
      reply := AskCorrectAnswer;
    }
  }

  method EnterCorrectAnswer(store: Store, u: int, text: string) returns (reply: Reply)
    modifies store
    ensures
      var o := EnterCorrectAnswerStep(Lookup(old(store.table), u), text);
      store.table == Apply(old(store.table), u, o.effect) && reply == o.reply
  {
    var state := store.Get(u);
    var data := DataOf(state);
    if data.None? {
      reply := Raised;
      return;
    }
    var d := data.value;
    d := d[AnswerKey := Str(Strip(text))];
    store.Set(u, map["step" := Str(StepConfirm), "data" := Dict(d)]);
    reply := PreviewReply(d);
  }

  method ConfirmOrCancel(store: Store, db: Database, u: int, text: string) returns (reply: Reply)
    modifies store, db
    ensures
      var o := ConfirmOrCancelStep(Lookup(old(store.table), u), text, old(db.Snapshot()));
      && store.table == Apply(old(store.table), u, o.effect) && reply == o.reply
      && db.tasks == old(db.tasks) + Rows(o.saved) && db.submissions == old(db.submissions)
  {
    if text == CancelButton {
      store.Clear(u);
      reply := AddCancelled;
      return;
    }
    var state := store.Get(u);
    var r := SaveFromRecord(state, db.Snapshot());
    if r.Saved? {
      db.AddTask(r.task);
    }
    reply := SaveReply(r);
    store.Clear(u);
  }

  method HandleUnexpectedInput(store: Store, u: int) returns (reply: Reply)
    ensures reply == UnexpectedInputStep(Lookup(store.table, u)).reply
  {
    var state := store.Get(u);
    var step := if "step" in state then Some(state["step"]) else None;
    if step == Some(Str(StepPhoto)) {
      reply := ExpectedPhoto;
    } else if step == Some(Str(StepAudio)) {
      reply := ExpectedAudio;
    } else if step == Some(Str(StepComment)) || step == Some(Str(StepCorrectAnswer)) {
      reply := ExpectedText;
    } else {
      reply := Silent;
    }
  }
}
