/**
 * What holds of every record the bot can reach, and what follows from it.
 *
 * The authoring flow is made explicit as a transition function on step names
 * (NextStep) together with the keys data holds at each step (KeysAt). Every record
 * either has no mode, step or data, or is in admin mode at a known step whose data has
 * exactly the keys of that step, each with a value of the right kind. Every handler
 * the dispatch can reach keeps this, so on reachable records no admin handler raises
 * and the save at confirm always finds every key it reads.
 */
module Invariants {

  import opened Wrappers
  import opened Text
  import opened Session
  import opened Models
  import opened Messages
  import opened Admin
  import opened Learner
  import opened Router
  import opened BackButton

  // ---------------------------------------------------------------------------
  // The authoring flow as a transition system

  const AuthoringSteps: seq<string> :=
    [StepMainMenu, StepChooseLevel, StepChooseSection, StepTaskNumber, StepPhoto,
     StepAudio, StepComment, StepCorrectAnswer, StepConfirm]

  /** The steps whose handler stores one key of data and moves on. */
  predicate StoresKey(step: string) {
    step in [StepChooseLevel, StepChooseSection, StepTaskNumber, StepPhoto, StepAudio, StepComment, StepCorrectAnswer]
  }

  /** The key the handler of a step stores. */
  function KeyStoredAt(step: string): string {
    if step == StepChooseLevel then LevelKey
    else if step == StepChooseSection then SectionKey
    else if step == StepTaskNumber then NumberKey
    else if step == StepPhoto then PhotoKey
    else if step == StepAudio then AudioKey
    else if step == StepComment then CommentKey
    else if step == StepCorrectAnswer then AnswerKey
    else ""
  }

  /** The step after a successful input, branching on the section where the flow does. */
  function NextStep(step: string, section: string): string {
    if step == StepChooseLevel then StepChooseSection
    else if step == StepChooseSection then StepTaskNumber
    else if step == StepTaskNumber then StepPhoto
    else if step == StepPhoto then (if section == Listening then StepAudio else StepComment)
    else if step == StepAudio then StepComment
    else if step == StepComment then (if section == Writing then StepConfirm else StepCorrectAnswer)
    else if step == StepCorrectAnswer then StepConfirm
    else step
  }

  /** The keys data holds on arrival at a step. */
  function KeysAt(step: string, section: string): set<string> {
    var media := {LevelKey, SectionKey, NumberKey, PhotoKey} + (if section == Listening then {AudioKey} else {});
    if step == StepChooseSection then {LevelKey}
    else if step == StepTaskNumber then {LevelKey, SectionKey}
    else if step == StepPhoto then {LevelKey, SectionKey, NumberKey}
    else if step == StepAudio then {LevelKey, SectionKey, NumberKey, PhotoKey}
    else if step == StepComment then media
    else if step == StepCorrectAnswer then media + {CommentKey}
    else if step == StepConfirm then media + {CommentKey} + (if section != Writing then {AnswerKey} else {})
    else {}
  }

  /** Only listening reaches the audio step, and writing never reaches the answer step. */
  predicate StepFits(step: string, section: string) {
    (step == StepAudio ==> section == Listening) && (step == StepCorrectAnswer ==> section != Writing)
  }

  /** The kind of value each key of data holds. */
  predicate FieldFits(key: string, v: Value) {
    if key == LevelKey then v.Str? && v.s in LevelNames
    else if key == SectionKey then v.Str? && v.s in SectionNames
    else if key == NumberKey then v.Int? && v.i >= 1
    else v.Str?
  }

  predicate WellTyped(d: map<string, Value>) {
    forall k :: k in d ==> FieldFits(k, d[k])
  }

  function SectionOf(d: map<string, Value>): string {
    if SectionKey in d && d[SectionKey].Str? then d[SectionKey].s else ""
  }

  function StepName(rec: Record): string {
    if "step" in rec && rec["step"].Str? then rec["step"].s else ""
  }

  function Data(rec: Record): map<string, Value> {
    if "data" in rec && rec["data"].Dict? then rec["data"].d else map[]
  }

  /** A record in the middle of authoring: a known step and data shaped for it. */
  predicate Authoring(rec: Record) {
    && "step" in rec && rec["step"].Str? && rec["step"].s in AuthoringSteps
    && "data" in rec && rec["data"].Dict?
    && WellTyped(rec["data"].d)
    && rec["data"].d.Keys == KeysAt(rec["step"].s, SectionOf(rec["data"].d))
    && StepFits(rec["step"].s, SectionOf(rec["data"].d))
  }

  /** The invariant of every record: no mode and no authoring fields, or admin mode mid-authoring. */
  predicate Inv(rec: Record) {
    && ("mode" in rec ==> rec["mode"] == Str("admin"))
    && (AdminMode(rec) ==> Authoring(rec))
    && (!AdminMode(rec) ==> "step" !in rec && "data" !in rec)
  }

  /** Each storing step adds exactly its own, new key, and the next step is one the flow allows. */
  lemma NextKeys(s: string, sec: string)
    requires StoresKey(s) && StepFits(s, sec)
    ensures KeyStoredAt(s) !in KeysAt(s, sec)
    ensures KeysAt(NextStep(s, sec), sec) == KeysAt(s, sec) + {KeyStoredAt(s)}
    ensures StepFits(NextStep(s, sec), sec) && NextStep(s, sec) in AuthoringSteps
  {
  }

  /**
   * What a storing step did to the record: nothing, or a write of step and data only,
   * where data gains exactly the step's key, with a value of the right kind, keeps every
   * other entry, and the step becomes the next one for the resulting section.
   */
  predicate AdvancedBy(rec: Record, e: Effect) {
    var s := StepName(rec);
    var d := Data(rec);
    var k := KeyStoredAt(s);
    e.Keep? ||
    (&& e.Write? && e.fields.Keys == {"step", "data"} && e.fields["data"].Dict?
     && var d' := e.fields["data"].d;
     && d'.Keys == d.Keys + {k} && k !in d
     && (forall j :: j in d ==> d'[j] == d[j])
     && FieldFits(k, d'[k])
     && e.fields["step"] == Str(NextStep(s, SectionOf(d'))))
  }

  /** One stored key in data, with the step moved on. */
  lemma StoreOneKey(rec: Record, v: Value)
    requires Inv(rec) && AdminMode(rec) && StoresKey(StepName(rec))
    requires FieldFits(KeyStoredAt(StepName(rec)), v)
    ensures
      var s := StepName(rec);
      var d' := Data(rec)[KeyStoredAt(s) := v];
      AdvancedBy(rec, Write(StepAndData(NextStep(s, SectionOf(d')), d')))
  {
    var s := StepName(rec);
    NextKeys(s, SectionOf(Data(rec)));
  }

  /** An advanced record keeps the invariant. */
  lemma AdvancedKeepsInv(rec: Record, e: Effect)
    requires Inv(rec) && AdminMode(rec) && StoresKey(StepName(rec)) && AdvancedBy(rec, e)
    ensures Inv(ApplyTo(rec, e))
  {
    if e.Write? {
      var s := StepName(rec);
      var d := Data(rec);
      var d' := e.fields["data"].d;
      var k := KeyStoredAt(s);
      assert SectionOf(d') == SectionOf(d) || k == SectionKey;
      NextKeys(s, SectionOf(d'));
      var r := ApplyTo(rec, e);
      assert r["data"].d == d';
      assert WellTyped(d') by {
        forall j | j in d' ensures FieldFits(j, d'[j]) {
          if j != k {
            assert j in d;
          }
        }
      }
    }
  }

  // ---------------------------------------------------------------------------
  // Each storing step, on a routed record

  lemma ChooseLevelAdminAdvances(rec: Record, t: string)
    requires Inv(rec) && AdminMode(rec) && AtStep(rec, StepChooseLevel)
    ensures AdvancedBy(rec, ChooseLevelAdminStep(rec, t).effect)
    ensures ChooseLevelAdminStep(rec, t).reply != Raised
  {
    if t in LevelNames {
      StoreOneKey(rec, Str(t));
    }
  }

  lemma ChooseSectionAdminAdvances(rec: Record, t: string)
    requires Inv(rec) && AdminMode(rec) && AtStep(rec, StepChooseSection)
    ensures AdvancedBy(rec, ChooseSectionAdminStep(rec, t).effect)
    ensures ChooseSectionAdminStep(rec, t).reply != Raised
  {
    if t in SectionNames {
      StoreOneKey(rec, Str(t));
    }
  }

  lemma EnterTaskNumberAdvances(rec: Record, t: string)
    requires Inv(rec) && AdminMode(rec) && AtStep(rec, StepTaskNumber)
    ensures AdvancedBy(rec, EnterTaskNumberStep(rec, t).effect)
    ensures EnterTaskNumberStep(rec, t).reply != Raised
  {
    var n := PyInt(t);
    if n.Some? && n.value >= 1 {
      StoreOneKey(rec, Int(n.value));
      assert EnterTaskNumberStep(rec, t) == PutData(rec, NumberKey, Int(n.value), StepPhoto, AskPhoto);
    } else {
      assert EnterTaskNumberStep(rec, t) == Out(Keep, InvalidTaskNumber);
    }
  }

  lemma ReceivePhotoAdvances(rec: Record, f: string)
    requires Inv(rec) && AdminMode(rec) && AtStep(rec, StepPhoto)
    ensures AdvancedBy(rec, ReceivePhotoStep(rec, f).effect)
    ensures ReceivePhotoStep(rec, f).reply != Raised
  {
    StoreOneKey(rec, Str(f));
    var d := Data(rec);
    var d' := d[PhotoKey := Str(f)];
    assert DataOf(rec) == Some(d);
    assert SectionKey in d && d'[SectionKey] == d[SectionKey];
    assert d'[SectionKey] == Str(SectionOf(d'));
  }

  lemma ReceiveAudioAdvances(rec: Record, f: string)
    requires Inv(rec) && AdminMode(rec) && AtStep(rec, StepAudio)
    ensures AdvancedBy(rec, ReceiveAudioStep(rec, f).effect)
    ensures ReceiveAudioStep(rec, f).reply != Raised
  {
    StoreOneKey(rec, Str(f));
  }

  /** What an authoring record holds at the comment step: data with level, section and number, the section kept as given. */
  lemma DataAtComment(rec: Record)
    requires Inv(rec) && AdminMode(rec) && AtStep(rec, StepComment)
    ensures DataOf(rec) == Some(Data(rec))
    ensures LevelKey in Data(rec) && SectionKey in Data(rec) && NumberKey in Data(rec)
    ensures Data(rec)[SectionKey] == Str(SectionOf(Data(rec)))
  {
    var d := Data(rec);
    assert d.Keys == KeysAt(StepComment, SectionOf(d));
  }

  /** The comment step (the comment already stripped) stores `comment` and moves on by section. */
  lemma EnterCommentAdvances(rec: Record, comment: string)
    requires Inv(rec) && AdminMode(rec) && AtStep(rec, StepComment)
    ensures AdvancedBy(rec, StoreComment(rec, comment).effect)
  {
    StoreOneKey(rec, Str(comment));
    var d' := Data(rec)[CommentKey := Str(comment)];
    assert d'[SectionKey] == Str(SectionOf(d'));
  }

  lemma EnterCommentReplies(rec: Record, comment: string)
    requires Inv(rec) && AdminMode(rec) && AtStep(rec, StepComment)
    ensures StoreComment(rec, comment).reply != Raised
  {
    DataAtComment(rec);
    var d := Data(rec);
    var d' := d[CommentKey := Str(comment)];
    if SectionOf(d) == Writing {
      assert LevelKey in d' && NumberKey in d' && CommentKey in d';
      assert StoreComment(rec, comment).reply == PreviewReply(d');
    } else {
      assert StoreComment(rec, comment).reply == AskCorrectAnswer;
    }
  }

  /** The answer step (the answer already stripped) stores `correct_answer`, moves to confirm and shows the preview. */
  lemma EnterCorrectAnswerAdvances(rec: Record, answer: string)
    requires Inv(rec) && AdminMode(rec) && AtStep(rec, StepCorrectAnswer)
    ensures AdvancedBy(rec, StoreAnswer(rec, answer).effect)
    ensures StoreAnswer(rec, answer).reply != Raised
  {
    StoreOneKey(rec, Str(answer));
    var d' := Data(rec)[AnswerKey := Str(answer)];
    assert PreviewOf(d').Some?;
  }

  // ---------------------------------------------------------------------------
  // The preview and the save at confirm

  /**
   * Arriving at confirm from the comment (writing), the preview is shown without an
   * expected answer.
   */
  lemma PreviewAfterComment(rec: Record, comment: string)
    requires Inv(rec) && AdminMode(rec) && AtStep(rec, StepComment)
    ensures
      var o := StoreComment(rec, comment);
      AtStep(ApplyTo(rec, o.effect), StepConfirm) ==>
        && SectionOf(Data(rec)) == Writing
        && o.reply.ShowPreview? && o.reply.preview.answer.None?
  {
    DataAtComment(rec);
    var d := Data(rec);
    var d' := d[CommentKey := Str(comment)];
    if SectionOf(d) == Writing {
      assert LevelKey in d' && NumberKey in d' && CommentKey in d';
      assert StoreComment(rec, comment).reply == PreviewReply(d');
    } else {
      assert StoreComment(rec, comment).effect == Write(StepAndData(StepCorrectAnswer, d'));
    }
  }

  /**
   * Arriving at confirm from the expected answer (any section but writing), the
   * preview is shown with the answer just stored.
   */
  lemma PreviewAfterAnswer(rec: Record, answer: string)
    requires Inv(rec) && AdminMode(rec) && AtStep(rec, StepCorrectAnswer)
    ensures
      var o := StoreAnswer(rec, answer);
      && SectionOf(Data(rec)) != Writing
      && o.reply.ShowPreview? && o.reply.preview.answer == Some(Str(answer))
  {
    var d := Data(rec);
    assert d[SectionKey] == Str(SectionOf(d));
  }

  /**
   * At confirm the save reads only keys data holds, so it never fails; it reports a
   * missing level or section exactly when one of the names is not in the catalog; and
   * otherwise the row carries data's values, audio exactly for listening, an expected
   * answer exactly outside writing, and an id no existing row has.
   */
  lemma SaveAtConfirm(rec: Record, cat: Catalog)
    requires Inv(rec) && AdminMode(rec) && AtStep(rec, StepConfirm)
    ensures
      var d := Data(rec);
      var r := SaveFromRecord(rec, cat);
      && r != SaveFailed
      && (r == RefMissing <==>
            LevelNamed(cat.levels, d[LevelKey].s).None? || SectionNamed(cat.sections, d[SectionKey].s).None?)
      && (r.Saved? ==>
            && r.task.levelId == LevelNamed(cat.levels, d[LevelKey].s).value.id
            && r.task.sectionId == SectionNamed(cat.sections, d[SectionKey].s).value.id
            && Int(r.task.taskNumber) == d[NumberKey]
            && Str(r.task.photoFileId) == d[PhotoKey]
            && Str(r.task.commentText) == d[CommentKey]
            && (r.task.audioFileId.Some? <==> d[SectionKey] == Str(Listening))
            && (r.task.correctAnswer.Some? <==> d[SectionKey] != Str(Writing))
            && (forall t :: t in cat.tasks ==> t.id < r.task.id))
  {
    var d := Data(rec);
    assert d[SectionKey] == Str(SectionOf(d));
  }

  /**
   * At confirm, data holds the level, section, number, photo and comment, holds the
   * expected answer exactly when the section is not writing, and holds audio exactly
   * for listening.
   */
  lemma KeysAtConfirm(rec: Record)
    requires Inv(rec) && AdminMode(rec) && AtStep(rec, StepConfirm)
    ensures {LevelKey, SectionKey, NumberKey, PhotoKey, CommentKey} <= Data(rec).Keys
    ensures SectionKey in Data(rec) && Data(rec)[SectionKey].Str?
    ensures AnswerKey in Data(rec) <==> Data(rec)[SectionKey] != Str(Writing)
    ensures AudioKey in Data(rec) <==> Data(rec)[SectionKey] == Str(Listening)
  {
    var d := Data(rec);
    assert d[SectionKey] == Str(SectionOf(d));
  }

  /** Cancel and confirm both drop the record, whatever the save reported. */
  lemma ConfirmAlwaysClears(rec: Record, t: string, cat: Catalog)
    ensures ConfirmOrCancelStep(rec, t, cat).effect == Drop
    ensures t == CancelButton ==> ConfirmOrCancelStep(rec, t, cat).saved == None
  {
  }

  // ---------------------------------------------------------------------------
  // Every routed handler keeps the invariant and, on reachable records, never raises

  /** A write of learner fields or the admin entry keeps the invariant. */
  lemma LearnerWriteKeepsInv(rec: Record, e: Effect)
    requires Inv(rec) && LearnerEffect(e)
    ensures Inv(ApplyTo(rec, e))
  {
    if e.Write? {
      assert "mode" !in e.fields && "step" !in e.fields && "data" !in e.fields;
      var r := ApplyTo(rec, e);
      assert Field(r, "mode") == Field(rec, "mode");
      assert Field(r, "step") == Field(rec, "step");
      assert Field(r, "data") == Field(rec, "data");
    }
  }

  lemma LearnerHandlersKeepInv(h: Handler, rec: Record, isAdmin: bool, c: Content, cat: Catalog)
    requires Inv(rec)
    requires h.SendWelcomeH? || h.ChooseLevelH? || h.ChooseSectionH? || h.SendTaskH? || h.NavigationH? || h.BackToLevelsH?
    ensures Inv(ApplyTo(rec, Handle(h, rec, isAdmin, c, cat).effect))
    ensures Handle(h, rec, isAdmin, c, cat).reply != Raised
  {
    match h {
      case ChooseSectionH => SectionChoiceTouchesLearnerFields(rec, TextOf(c), cat);
      case NavigationH => NavigationTouchesLearnerFields(rec, TextOf(c), cat);
      case SendTaskH(n) => BrowsingTouchesLearnerFields(rec, TextOf(c), n, cat);
      case _ => BrowsingTouchesLearnerFields(rec, TextOf(c), 0, cat);
    }
    LearnerWriteKeepsInv(rec, Handle(h, rec, isAdmin, c, cat).effect);
  }

  predicate IsAuthoring(h: Handler) {
    || h.ChooseLevelAdminH? || h.ChooseSectionAdminH? || h.EnterTaskNumberH? || h.ReceivePhotoH?
    || h.ReceiveAudioH? || h.EnterCommentH? || h.EnterCorrectAnswerH?
  }

  /**
   * Each successful storing step adds exactly its own key to data, of the right kind,
   * keeps the other entries, and advances the step; a failed one changes nothing.
   */
  lemma AuthoringAdvances(h: Handler, rec: Record, isAdmin: bool, c: Content, cat: Catalog)
    requires Inv(rec) && Admitted(h, rec, isAdmin, c) && IsAuthoring(h)
    ensures AdminMode(rec) && StoresKey(StepName(rec))
    ensures AdvancedBy(rec, Handle(h, rec, isAdmin, c, cat).effect)
  {
    var t := TextOf(c);
    match h
    case ChooseLevelAdminH => ChooseLevelAdminAdvances(rec, t);
    case ChooseSectionAdminH => ChooseSectionAdminAdvances(rec, t);
    case EnterTaskNumberH => EnterTaskNumberAdvances(rec, t);
    case ReceivePhotoH(f) => ReceivePhotoAdvances(rec, f);
    case ReceiveAudioH(f) => ReceiveAudioAdvances(rec, f);
    case EnterCommentH => EnterCommentAdvances(rec, Strip(t));
    case EnterCorrectAnswerH => EnterCorrectAnswerAdvances(rec, Strip(t));
  }

  lemma AuthoringNeverRaises(h: Handler, rec: Record, isAdmin: bool, c: Content, cat: Catalog)
    requires Inv(rec) && Admitted(h, rec, isAdmin, c) && IsAuthoring(h)
    ensures Handle(h, rec, isAdmin, c, cat).reply != Raised
  {
    var t := TextOf(c);
    match h
    case ChooseLevelAdminH => ChooseLevelAdminAdvances(rec, t);
    case ChooseSectionAdminH => ChooseSectionAdminAdvances(rec, t);
    case EnterTaskNumberH => EnterTaskNumberAdvances(rec, t);
    case ReceivePhotoH(f) => ReceivePhotoAdvances(rec, f);
    case ReceiveAudioH(f) => ReceiveAudioAdvances(rec, f);
    case EnterCommentH => EnterCommentReplies(rec, Strip(t));
    case EnterCorrectAnswerH => EnterCorrectAnswerAdvances(rec, Strip(t));
  }

  predicate IsMenu(h: Handler) {
    h.AdminStartH? || h.AdminExitH? || h.StartAddTaskH? || h.ConfirmOrCancelH? || h.UnexpectedInputH? || h.Unhandled?
  }

  lemma MenuHandlersKeepInv(h: Handler, rec: Record, isAdmin: bool, c: Content, cat: Catalog)
    requires Inv(rec) && Admitted(h, rec, isAdmin, c) && IsMenu(h)
    ensures Inv(ApplyTo(rec, Handle(h, rec, isAdmin, c, cat).effect))
  {
    if h.StartAddTaskH? {
      assert isAdmin && AdminMode(rec);
    }
  }

  lemma MenuHandlersNeverRaise(h: Handler, rec: Record, isAdmin: bool, c: Content, cat: Catalog)
    requires Inv(rec) && Admitted(h, rec, isAdmin, c) && IsMenu(h)
    ensures Handle(h, rec, isAdmin, c, cat).reply != Raised
  {
    if h.ConfirmOrCancelH? && TextOf(c) != CancelButton {
      assert AdminMode(rec) && AtStep(rec, StepConfirm);
      SaveAtConfirm(rec, cat);
    }
  }

  /** The same with either back filter: the filter as written only adds messages nothing answers. */
  lemma RoutedKeepsInv(rec: Record, isAdmin: bool, c: Content, corrected: bool, cat: Catalog)
    requires Inv(rec)
    ensures Inv(ApplyTo(rec, Handle(RouteWith(rec, isAdmin, c, corrected), rec, isAdmin, c, cat).effect))
    ensures Handle(RouteWith(rec, isAdmin, c, corrected), rec, isAdmin, c, cat).reply != Raised
  {
    var h := RouteWith(rec, isAdmin, c, corrected);
    AsWrittenIsCorrectedOrIgnored(rec, isAdmin, c, corrected);
    if h != Unhandled {
      HandleKeepsInv(rec, isAdmin, c, cat);
    }
  }

  /** Whatever handler a message reaches on a reachable record, the record stays reachable and nothing raises. */
  lemma HandleKeepsInv(rec: Record, isAdmin: bool, c: Content, cat: Catalog)
    requires Inv(rec)
    ensures Inv(ApplyTo(rec, Handle(Route(rec, isAdmin, c), rec, isAdmin, c, cat).effect))
    ensures Handle(Route(rec, isAdmin, c), rec, isAdmin, c, cat).reply != Raised
  {
    var h := Route(rec, isAdmin, c);
    RouteAdmitted(rec, isAdmin, c, true);
    if h.SendWelcomeH? || h.ChooseLevelH? || h.ChooseSectionH? || h.SendTaskH? || h.NavigationH? || h.BackToLevelsH? {
      LearnerHandlersKeepInv(h, rec, isAdmin, c, cat);
    } else if IsMenu(h) {
      MenuHandlersKeepInv(h, rec, isAdmin, c, cat);
      MenuHandlersNeverRaise(h, rec, isAdmin, c, cat);
    } else {
      assert IsAuthoring(h);
      AuthoringAdvances(h, rec, isAdmin, c, cat);
      AdvancedKeepsInv(rec, Handle(h, rec, isAdmin, c, cat).effect);
      AuthoringNeverRaises(h, rec, isAdmin, c, cat);
    }
  }

  // ---------------------------------------------------------------------------
  // The "text expected" hint of handle_unexpected_input is never sent

  lemma LearnerHandlersNoTextHint(h: Handler, rec: Record, isAdmin: bool, c: Content, cat: Catalog)
    requires h.SendWelcomeH? || h.ChooseLevelH? || h.ChooseSectionH? || h.SendTaskH? || h.NavigationH? || h.BackToLevelsH?
    ensures Handle(h, rec, isAdmin, c, cat).reply != ExpectedText
  {
  }

  lemma AuthoringNoTextHint(h: Handler, rec: Record, isAdmin: bool, c: Content, cat: Catalog)
    requires IsAuthoring(h)
    ensures Handle(h, rec, isAdmin, c, cat).reply != ExpectedText
  {
    var t := TextOf(c);
    match h
    case ChooseLevelAdminH =>
      assert Handle(h, rec, isAdmin, c, cat) == ChooseLevelAdminStep(rec, t);
      LevelChoiceNoTextHint(rec, t);
    case ChooseSectionAdminH =>
      assert Handle(h, rec, isAdmin, c, cat) == ChooseSectionAdminStep(rec, t);
      SectionChoiceNoTextHint(rec, t);
    case EnterTaskNumberH =>
      assert Handle(h, rec, isAdmin, c, cat) == EnterTaskNumberStep(rec, t);
      TaskNumberNoTextHint(rec, t);
    case ReceivePhotoH(f) =>
      assert Handle(h, rec, isAdmin, c, cat) == ReceivePhotoStep(rec, f);
      MediaStepsNoTextHint(rec, f);
    case ReceiveAudioH(f) =>
      assert Handle(h, rec, isAdmin, c, cat) == ReceiveAudioStep(rec, f);
      MediaStepsNoTextHint(rec, f);
    case EnterCommentH =>
      assert Handle(h, rec, isAdmin, c, cat) == EnterCommentStep(rec, t);
      FreeTextStepsNoTextHint(rec, t);
    case EnterCorrectAnswerH =>
      assert Handle(h, rec, isAdmin, c, cat) == EnterCorrectAnswerStep(rec, t);
      FreeTextStepsNoTextHint(rec, t);
  }

  lemma LevelChoiceNoTextHint(rec: Record, t: string)
    ensures ChooseLevelAdminStep(rec, t).reply != ExpectedText
  {
  }

  lemma SectionChoiceNoTextHint(rec: Record, t: string)
    ensures ChooseSectionAdminStep(rec, t).reply != ExpectedText
  {
  }

  lemma TaskNumberNoTextHint(rec: Record, t: string)
    ensures EnterTaskNumberStep(rec, t).reply != ExpectedText
  {
  }

  lemma MediaStepsNoTextHint(rec: Record, f: string)
    ensures ReceivePhotoStep(rec, f).reply != ExpectedText
    ensures ReceiveAudioStep(rec, f).reply != ExpectedText
  {
  }

  lemma FreeTextStepsNoTextHint(rec: Record, t: string)
    ensures EnterCommentStep(rec, t).reply != ExpectedText
    ensures EnterCorrectAnswerStep(rec, t).reply != ExpectedText
  {
  }

  lemma MenuHandlersNoTextHint(h: Handler, rec: Record, isAdmin: bool, c: Content, cat: Catalog)
    requires IsMenu(h) && !h.UnexpectedInputH?
    ensures Handle(h, rec, isAdmin, c, cat).reply != ExpectedText
  {
  }

  /** The comment and answer handlers are registered before the fallback, so its "text expected" hint never goes out. */
  lemma ExpectedTextUnreachable(rec: Record, isAdmin: bool, c: Content, corrected: bool, cat: Catalog)
    ensures Handle(RouteWith(rec, isAdmin, c, corrected), rec, isAdmin, c, cat).reply != ExpectedText
  {
    var h := RouteWith(rec, isAdmin, c, corrected);
    if h.SendWelcomeH? || h.ChooseLevelH? || h.ChooseSectionH? || h.SendTaskH? || h.NavigationH? || h.BackToLevelsH? {
      LearnerHandlersNoTextHint(h, rec, isAdmin, c, cat);
    } else if h.UnexpectedInputH? {
      RouteAdmitted(rec, isAdmin, c, corrected);
    } else if IsMenu(h) {
      MenuHandlersNoTextHint(h, rec, isAdmin, c, cat);
    } else {
      assert IsAuthoring(h);
      AuthoringNoTextHint(h, rec, isAdmin, c, cat);
    }
  }

  // ---------------------------------------------------------------------------
  // The whole bot

  predicate UniqueIds(tasks: seq<Task>) {
    forall i, j :: 0 <= i < j < |tasks| ==> tasks[i].id != tasks[j].id
  }

  /** Every record reachable, every awaited task in the catalog, task ids distinct. */
  predicate WorldInv(w: World) {
    && (forall u :: u in w.table ==> Inv(w.table[u]))
    && (forall u :: u in w.pending ==> w.pending[u] in w.tasks)
    && UniqueIds(w.tasks)
  }

  /** Before the first message: no records, nothing awaited, whatever rows the catalog starts with (ids distinct). */
  lemma InitialWorldInv(tasks: seq<Task>)
    requires UniqueIds(tasks)
    ensures WorldInv(World(map[], map[], tasks, []))
  {
  }

  /** The task a handler awaits the answer to is in the catalog. */
  lemma HandleAwaitsCatalogTask(h: Handler, rec: Record, isAdmin: bool, c: Content, cat: Catalog)
    ensures Handle(h, rec, isAdmin, c, cat).awaiting.Some? ==> Handle(h, rec, isAdmin, c, cat).awaiting.value in cat.tasks
  {
    var o := Handle(h, rec, isAdmin, c, cat);
    match h
    case ConfirmOrCancelH => assert o.awaiting == None;
    case SendTaskH(n) =>
    case NavigationH =>
    case _ => assert RecordOnly(o);
  }

  /** A row a handler adds has an id larger than every existing one. */
  lemma HandleSavesFreshId(h: Handler, rec: Record, isAdmin: bool, c: Content, cat: Catalog)
    ensures Handle(h, rec, isAdmin, c, cat).saved.Some? ==>
      forall t :: t in cat.tasks ==> t.id < Handle(h, rec, isAdmin, c, cat).saved.value.id
  {
    var o := Handle(h, rec, isAdmin, c, cat);
    match h
    case ConfirmOrCancelH => ConfirmSavesFreshId(rec, TextOf(c), cat);
    case SendTaskH(n) =>
    case NavigationH =>
    case _ => assert RecordOnly(o);
  }

  lemma ConfirmSavesFreshId(rec: Record, t: string, cat: Catalog)
    ensures ConfirmOrCancelStep(rec, t, cat).saved.Some? ==>
      forall x :: x in cat.tasks ==> x.id < ConfirmOrCancelStep(rec, t, cat).saved.value.id
  {
  }

  lemma AppendFreshId(tasks: seq<Task>, t: Task)
    requires UniqueIds(tasks) && forall x :: x in tasks ==> x.id < t.id
    ensures UniqueIds(tasks + [t])
  {
    var ts := tasks + [t];
    forall i, j | 0 <= i < j < |ts| ensures ts[i].id != ts[j].id {
      if j == |tasks| {
        assert ts[i] in tasks;
      } else {
        assert ts[i] == tasks[i] && ts[j] == tasks[j];
      }
    }
  }

  /** One message keeps the world invariant. */
  lemma DeliverKeepsInv(cfg: Config, w: World, m: Message, llm: Option<string>)
    requires WorldInv(w)
    ensures WorldInv(Deliver(cfg, w, m, llm))
  {
    var u := m.sender;
    var o := Dispatch(cfg, w, m, llm);
    var w' := Deliver(cfg, w, m, llm);
    var rec := Lookup(w.table, u);
    assert Inv(rec);
    if u !in w.pending {
      RoutedKeepsInv(rec, IsAdmin(cfg.adminIds, u), m.content, cfg.corrected, CatalogOf(cfg, w));
      var h := RouteWith(rec, IsAdmin(cfg.adminIds, u), m.content, cfg.corrected);
      assert o == Handle(h, rec, IsAdmin(cfg.adminIds, u), m.content, CatalogOf(cfg, w));
      HandleAwaitsCatalogTask(h, rec, IsAdmin(cfg.adminIds, u), m.content, CatalogOf(cfg, w));
      HandleSavesFreshId(h, rec, IsAdmin(cfg.adminIds, u), m.content, CatalogOf(cfg, w));
    }
    ApplyLookup(w.table, u, o.effect, u);
    forall v | v in w'.table ensures Inv(w'.table[v]) {
      ApplyLookup(w.table, u, o.effect, v);
      assert w'.table[v] == Lookup(w'.table, v);
    }
    if o.saved.Some? {
      AppendFreshId(w.tasks, o.saved.value);
    }
    assert w'.tasks == w.tasks + Rows(o.saved);
    forall v | v in w'.pending ensures w'.pending[v] in w'.tasks {
      assert v == u || w'.pending[v] == w.pending[v];
    }
  }

  /** Any run of messages keeps the world invariant. */
  lemma {:induction false} RunKeepsInv(cfg: Config, w: World, ms: seq<(Message, Option<string>)>)
    requires WorldInv(w)
    ensures WorldInv(Run(cfg, w, ms))
    decreases |ms|
  {
    if |ms| > 0 {
      DeliverKeepsInv(cfg, w, ms[0].0, ms[0].1);
      RunKeepsInv(cfg, Deliver(cfg, w, ms[0].0, ms[0].1), ms[1..]);
    }
  }

  /** On a reachable world a message that is not an awaited answer never makes its handler raise on a missing `data` key. */
  lemma ReachableNeverRaises(cfg: Config, w: World, m: Message, llm: Option<string>)
    requires WorldInv(w) && m.sender !in w.pending
    ensures Dispatch(cfg, w, m, llm).reply != Raised
  {
    var rec := Lookup(w.table, m.sender);
    assert Inv(rec);
    RoutedKeepsInv(rec, IsAdmin(cfg.adminIds, m.sender), m.content, cfg.corrected, CatalogOf(cfg, w));
  }

  /** The bot keeps the world invariant across one message. */
  lemma BotStepKeepsInv(cfg: Config, before: World, after: World, m: Message, llm: Option<string>)
    requires WorldInv(before) && after == Deliver(cfg, before, m, llm)
    ensures WorldInv(after)
  {
    DeliverKeepsInv(cfg, before, m, llm);
  }
}
