/**
 * The catalog the handlers consult (models.py): exam levels, sections, tasks and
 * answer submissions, held as sequences in table order. The queries the handlers
 * issue are functions on those sequences; `.first()` is the first match in order.
 */
module Models {

  import opened Wrappers

  datatype ExamLevel = ExamLevel(id: int, name: string)

  datatype Section = Section(id: int, name: string)

  /** A task row; audio only for listening tasks, the expected answer absent for writing. */
  datatype Task = Task(
    id: int,
    levelId: int,
    sectionId: int,
    taskNumber: int,
    photoFileId: string,
    audioFileId: Option<string>,
    commentText: string,
    correctAnswer: Option<string>)

  /** A submitted answer; isCorrect is None for writing tasks. */
  datatype Submission = Submission(userId: int, taskId: int, userAnswer: string, isCorrect: Option<bool>)

  /** The catalog as the handlers see it at one moment. */
  datatype Catalog = Catalog(levels: seq<ExamLevel>, sections: seq<Section>, tasks: seq<Task>)

  // ---------------------------------------------------------------------------
  // Queries

  /** `db.query(ExamLevel).filter(ExamLevel.name == name).first()`. */
  function LevelNamed(levels: seq<ExamLevel>, name: string): (r: Option<ExamLevel>)
    ensures r.Some? ==> r.value in levels && r.value.name == name
    ensures r.None? ==> forall l :: l in levels ==> l.name != name
  {
    if |levels| == 0 then None
    else if levels[0].name == name then Some(levels[0])
    else LevelNamed(levels[1..], name)
  }

  /** `db.query(ExamLevel).filter(ExamLevel.id == id).first()`. */
  function LevelWithId(levels: seq<ExamLevel>, id: int): (r: Option<ExamLevel>)
    ensures r.Some? ==> r.value in levels && r.value.id == id
    ensures r.None? ==> forall l :: l in levels ==> l.id != id
  {
    if |levels| == 0 then None
    else if levels[0].id == id then Some(levels[0])
    else LevelWithId(levels[1..], id)
  }

  /** `db.query(Section).filter(Section.name == name).first()`. */
  function SectionNamed(sections: seq<Section>, name: string): (r: Option<Section>)
    ensures r.Some? ==> r.value in sections && r.value.name == name
    ensures r.None? ==> forall s :: s in sections ==> s.name != name
  {
    if |sections| == 0 then None
    else if sections[0].name == name then Some(sections[0])
    else SectionNamed(sections[1..], name)
  }

  /** `db.query(Section).filter(Section.id == id).first()`. */
  function SectionWithId(sections: seq<Section>, id: int): (r: Option<Section>)
    ensures r.Some? ==> r.value in sections && r.value.id == id
    ensures r.None? ==> forall s :: s in sections ==> s.id != id
  {
    if |sections| == 0 then None
    else if sections[0].id == id then Some(sections[0])
    else SectionWithId(sections[1..], id)
  }

  /** `db.query(Task).filter(Task.id == id).first()`. */
  function TaskWithId(tasks: seq<Task>, id: int): (r: Option<Task>)
    ensures r.Some? ==> r.value in tasks && r.value.id == id
    ensures r.None? ==> forall t :: t in tasks ==> t.id != id
  {
    if |tasks| == 0 then None
    else if tasks[0].id == id then Some(tasks[0])
    else TaskWithId(tasks[1..], id)
  }

  predicate InList(t: Task, levelId: int, sectionId: int) {
    t.levelId == levelId && t.sectionId == sectionId
  }

  /** The task with this number in this level and section (filter on all three, `.first()`). */
  function TaskNumbered(tasks: seq<Task>, levelId: int, sectionId: int, n: int): (r: Option<Task>)
    ensures r.Some? ==> r.value in tasks && InList(r.value, levelId, sectionId) && r.value.taskNumber == n
    ensures r.None? ==> forall t :: t in tasks && InList(t, levelId, sectionId) ==> t.taskNumber != n
  {
    if |tasks| == 0 then None
    else if InList(tasks[0], levelId, sectionId) && tasks[0].taskNumber == n then Some(tasks[0])
    else TaskNumbered(tasks[1..], levelId, sectionId, n)
  }

  /** The numbers of the tasks of one level and section, in table order. */
  function TableNumbers(tasks: seq<Task>, levelId: int, sectionId: int): (ns: seq<int>)
    ensures forall n :: n in ns <==> exists t :: t in tasks && InList(t, levelId, sectionId) && t.taskNumber == n
  {
    if |tasks| == 0 then []
    else
      var rest := TableNumbers(tasks[1..], levelId, sectionId);
      assert forall t :: t in tasks[1..] ==> t in tasks;
      assert forall t :: t in tasks ==> t == tasks[0] || t in tasks[1..];
      (if InList(tasks[0], levelId, sectionId) then [tasks[0].taskNumber] else []) + rest
  }

  /**
   * The task menu: the numbers of the tasks of one level and section, ordered by
   * task number (`.order_by(Task.task_number)`), each task listed once.
   */
  function NumbersIn(tasks: seq<Task>, levelId: int, sectionId: int): (ns: seq<int>)
    ensures Ascending(ns)
    ensures multiset(ns) == multiset(TableNumbers(tasks, levelId, sectionId))
  {
    if |tasks| == 0 then []
    else
      var rest := NumbersIn(tasks[1..], levelId, sectionId);
      if InList(tasks[0], levelId, sectionId) then InsertNumber(tasks[0].taskNumber, rest) else rest
  }

  /** A number is on the task menu iff some task of that level and section has it. */
  lemma NumbersInListsMatchingTasks(tasks: seq<Task>, levelId: int, sectionId: int, n: int)
    ensures n in NumbersIn(tasks, levelId, sectionId) <==>
      exists t :: t in tasks && InList(t, levelId, sectionId) && t.taskNumber == n
  {
    var ns := NumbersIn(tasks, levelId, sectionId);
    assert n in ns <==> n in multiset(ns);
    assert n in TableNumbers(tasks, levelId, sectionId) <==> n in multiset(TableNumbers(tasks, levelId, sectionId));
  }

  predicate Ascending(s: seq<int>) {
    forall i, j :: 0 <= i < j < |s| ==> s[i] <= s[j]
  }

  /** Insert x into an ascending sequence, keeping it ascending. */
  function InsertNumber(x: int, s: seq<int>): (r: seq<int>)
    requires Ascending(s)
    ensures Ascending(r) && multiset(r) == multiset(s) + multiset{x}
    ensures r[0] == if |s| == 0 || x <= s[0] then x else s[0]
  {
    if |s| == 0 then [x]
    else if x <= s[0] then
      AscendingCons(x, s);
      [x] + s
    else
      AscendingTail(s);
      var rest := InsertNumber(x, s[1..]);
      AscendingCons(s[0], rest);
      assert s == [s[0]] + s[1..];
      [s[0]] + rest
  }

  lemma AscendingTail(s: seq<int>)
    requires Ascending(s) && |s| > 0
    ensures Ascending(s[1..])
  {
    forall i, j | 0 <= i < j < |s| - 1 ensures s[1..][i] <= s[1..][j] {
      assert s[1..][i] == s[i + 1] && s[1..][j] == s[j + 1];
    }
  }

  lemma AscendingCons(x: int, s: seq<int>)
    requires Ascending(s) && (|s| > 0 ==> x <= s[0])
    ensures Ascending([x] + s)
  {
    var r := [x] + s;
    forall i, j | 0 <= i < j < |r| ensures r[i] <= r[j] {
      assert r[j] == s[j - 1];
      if i > 0 {
        assert r[i] == s[i - 1];
      } else if j > 1 {
        assert s[0] <= s[j - 1];
      }
    }
  }

  /** A later task of the same level and section as cur. */
  predicate After(t: Task, cur: Task) {
    InList(t, cur.levelId, cur.sectionId) && t.taskNumber > cur.taskNumber
  }

  /**
   * The "next task" query: among the tasks of cur's level and section with a larger
   * number, one with the smallest number (the earliest in table order on a tie);
   * None exactly when there is no later task.
   */
  function NextTask(tasks: seq<Task>, cur: Task): (r: Option<Task>)
    ensures r.Some? ==> r.value in tasks && After(r.value, cur)
    ensures r.Some? ==> forall t :: t in tasks && After(t, cur) ==> r.value.taskNumber <= t.taskNumber
    ensures r.None? <==> forall t :: t in tasks ==> !After(t, cur)
  {
    if |tasks| == 0 then None
    else
      var rest := NextTask(tasks[1..], cur);
      assert forall t :: t in tasks ==> t == tasks[0] || t in tasks[1..];
      if !After(tasks[0], cur) then rest
      else if rest.Some? && rest.value.taskNumber < tasks[0].taskNumber then rest
      else Some(tasks[0])
  }

  /** The id the next inserted task row receives: larger than every id in the table. */
  function NewTaskId(tasks: seq<Task>): (id: int)
    ensures id >= 1 && forall t :: t in tasks ==> t.id < id
  {
    if |tasks| == 0 then 1
    else
      var rest := NewTaskId(tasks[1..]);
      assert forall t :: t in tasks ==> t == tasks[0] || t in tasks[1..];
      if tasks[0].id < rest then rest else tasks[0].id + 1
  }

  // ---------------------------------------------------------------------------
  // The database, as the handlers change it

  /** The rows the bot reads and writes: reference data is fixed, tasks and submissions grow. */
  class Database {
    const levels: seq<ExamLevel>
    const sections: seq<Section>
    var tasks: seq<Task>
    var submissions: seq<Submission>

    constructor (levels: seq<ExamLevel>, sections: seq<Section>, tasks: seq<Task>)
      ensures this.levels == levels && this.sections == sections
      ensures this.tasks == tasks && submissions == []
    {
      this.levels := levels;
      this.sections := sections;
      this.tasks := tasks;
      submissions := [];
    }

    function Snapshot(): Catalog
      reads this
    {
      Catalog(levels, sections, tasks)
    }

    /** `db.add(task); db.commit()`. */
    method AddTask(t: Task)
      modifies this
      ensures tasks == old(tasks) + [t] && submissions == old(submissions)
    {
      tasks := tasks + [t];
    }

    /** `db.add(session); db.commit()`. */
    method AddSubmission(s: Submission)
      modifies this
      ensures submissions == old(submissions) + [s] && tasks == old(tasks)
    {
      submissions := submissions + [s];
    }
  }
}
