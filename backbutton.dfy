/**
 * The back button of the task menus. The section's task list offers
 * "↩️ Назад к уровням", but the back_to_levels filter accepts only
 * "Назад к уровням": the dispatch as written against the corrected one.
 */
module BackButton {
  import opened Wrappers
  import opened Text
  import opened Session
  import opened Models
  import opened Messages
  import opened Admin
  import opened Learner
  import opened Router

  /**
   * As written, the label the correction adds (the back button of the section's
   * task list) reaches no handler in user mode: nothing answers it.
   */
  lemma ArrowBackIgnoredAsWritten(rec: Record, isAdmin: bool, t: string)
    requires UserMode(rec) && BackToLevels(t) && !BackToLevelsAsWritten(t)
    ensures RouteAsWritten(rec, isAdmin, Text(t)) == Unhandled
  {
    assert t == ArrowBackToLevelsButton;
    ArrowLabelMatchesNothingElse(rec);
    ModesExclusive(rec);
    UnmatchedTextUnhandled(rec, isAdmin, t, false);
  }

  /** A text outside every filter, sent in user mode, reaches no handler. */
  lemma UnmatchedTextUnhandled(rec: Record, isAdmin: bool, t: string, corrected: bool)
    requires UserMode(rec) && !AdminMode(rec)
    requires CommandOf(t) == None && t !in LevelNames && t !in SectionNames
    requires TaskButtonNumber(t) == None && t !in NavigationButtons && !BackFilter(corrected, t)
    ensures RouteWith(rec, isAdmin, Text(t), corrected) == Unhandled
  {
  }

  /** With the corrected filter both back labels return to the welcome menu and drop the record. */
  lemma BackLabelsReturnHome(rec: Record, isAdmin: bool, t: string, cat: Catalog)
    requires UserMode(rec) && (t == BackToLevelsButton || t == ArrowBackToLevelsButton)
    ensures Route(rec, isAdmin, Text(t)) == BackToLevelsH
    ensures Handle(BackToLevelsH, rec, isAdmin, Text(t), cat).effect == Drop
  {
    ArrowLabelMatchesNothingElse(rec);
    assert BackToLevelsButton[0] != '/' && BackToLevelsButton !in LevelNames && BackToLevelsButton !in SectionNames;
    assert BackToLevelsButton !in NavigationButtons;
    assert !StartsWith(BackToLevelsButton, TaskButtonPrefix) by {
      assert BackToLevelsButton[0] != TaskButtonPrefix[0];
    }
  }

  /** The correction changes the dispatch of the arrow label and of nothing else. */
  lemma CorrectionOnlyAddsArrow(rec: Record, isAdmin: bool, c: Content)
    requires c != Text(ArrowBackToLevelsButton)
    ensures Route(rec, isAdmin, c) == RouteAsWritten(rec, isAdmin, c)
  {
  }

  /** Where the two filters agree, or outside user mode, the two dispatches agree. */
  lemma FiltersAgreeSameRoute(rec: Record, isAdmin: bool, c: Content)
    requires c.Text? && UserMode(rec) ==> BackFilter(false, c.text) == BackFilter(true, c.text)
    ensures RouteAsWritten(rec, isAdmin, c) == Route(rec, isAdmin, c)
  {
  }

  /**
   * Either filter gives the corrected dispatch or no handler at all: the bot as written
   * does everything the corrected one does, except that it ignores some messages.
   */
  lemma AsWrittenIsCorrectedOrIgnored(rec: Record, isAdmin: bool, c: Content, corrected: bool)
    ensures RouteWith(rec, isAdmin, c, corrected) == Route(rec, isAdmin, c)
         || RouteWith(rec, isAdmin, c, corrected) == Unhandled
  {
    if !corrected {
      if c.Text? && UserMode(rec) && BackFilter(false, c.text) != BackFilter(true, c.text) {
        ArrowBackIgnoredAsWritten(rec, isAdmin, c.text);
      } else {
        FiltersAgreeSameRoute(rec, isAdmin, c);
      }
    }
  }

  /** The arrow label is no command, menu button or task button. */
  lemma ArrowLabelMatchesNothingElse(rec: Record)
    ensures CommandOf(ArrowBackToLevelsButton) == None
    ensures ArrowBackToLevelsButton !in LevelNames && ArrowBackToLevelsButton !in SectionNames
    ensures ArrowBackToLevelsButton !in NavigationButtons
    ensures TaskButtonNumber(ArrowBackToLevelsButton) == None
    ensures ArrowBackToLevelsButton != ExitButton && ArrowBackToLevelsButton != AddTaskButton
    ensures !BackToLevelsAsWritten(ArrowBackToLevelsButton) && BackToLevels(ArrowBackToLevelsButton)
  {
    assert ArrowBackToLevelsButton[0] != '/';
    assert !StartsWith(ArrowBackToLevelsButton, TaskButtonPrefix) by {
      assert ArrowBackToLevelsButton[0] != TaskButtonPrefix[0];
    }
  }
}
