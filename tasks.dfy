/**
 * The task record and its pure predicates over an explicit clock.
 *
 * Dates and times are integers: a `LocalDate` is a day number, a `LocalTime`
 * a minute of the day, and a `LocalDateTime` the minute `day * 1440 + minute`.
 * The clock (`LocalDate.now()`, `LocalDateTime.now()`) is the parameter `now`,
 * a minute in the same scale.
 */
module Tasks {
  import opened Wrappers

  /** The four ordinal difficulty levels. */
  datatype TaskDifficulty = Easy | Medium | Hard | Nightmare

  /** The six fixed task categories, in declaration order. */
  datatype TaskCategory = Work | Study | Health | Personal | Shopping | Other

  /** `TaskCategory.values()`. */
  const AllCategories: seq<TaskCategory> := [Work, Study, Health, Personal, Shopping, Other]

  /** Every category is listed in `AllCategories`. */
  lemma AllCategoriesListed(c: TaskCategory)
    ensures c in AllCategories
  {
  }

  const MinutesPerDay: int := 1440

  /** 09:00, the time used when a task has a due date but no due time. */
  const DefaultDueMinute: int := 9 * 60

  type MinuteOfDay = m: int | 0 <= m < MinutesPerDay

  /** `LocalDateTime.of(day, minute)`. */
  function DateTimeOf(day: int, minute: MinuteOfDay): (instant: int)
    ensures instant / MinutesPerDay == day && instant % MinutesPerDay == minute
  {
    day * MinutesPerDay + minute
  }

  /** The date part of an instant: `LocalDate.now()` when `now` is the clock. */
  function DateOf(instant: int): (day: int)
    ensures day * MinutesPerDay <= instant < day * MinutesPerDay + MinutesPerDay
  {
    instant / MinutesPerDay
  }

  datatype Task = Task(
    id: string,
    title: string,
    description: string,
    difficulty: TaskDifficulty,
    category: TaskCategory,
    isCompleted: bool,
    createdAt: int,
    completedAt: Option<int>,
    dueDate: Option<int>,
    dueTime: Option<MinuteOfDay>,
    parentTaskId: Option<string>,
    subtasks: seq<string>,
    hasReminder: bool)

  /** The XP reward the task record itself declares. */
  function XpReward(t: Task): (xp: int)
    ensures 10 <= xp <= 100
    ensures xp == 10 <==> t.difficulty == Easy
  {
    match t.difficulty
    case Easy => 10
    case Medium => 25
    case Hard => 50
    case Nightmare => 100
  }

  /** The instant the task is due, its time defaulting to 09:00. */
  function DueDateTime(t: Task): (r: Option<int>)
    ensures r.None? <==> t.dueDate.None?
    ensures r.Some? ==> DateOf(r.value) == t.dueDate.value
    ensures r.Some? ==> r.value % MinutesPerDay == t.dueTime.GetOr(DefaultDueMinute)
  {
    if t.dueDate.Some? then
      Some(DateTimeOf(t.dueDate.value, t.dueTime.GetOr(DefaultDueMinute)))
    else
      None
  }

  /**
   * With a due date and time, overdue once the clock is strictly after that
   * instant; with a date only, once today is strictly after the date.
   */
  function IsOverdue(t: Task, now: int): (r: bool)
    ensures r ==> !t.isCompleted && t.dueDate.Some?
  {
    if t.dueDate.Some? && t.dueTime.Some? then
      !t.isCompleted && now > DateTimeOf(t.dueDate.value, t.dueTime.value)
    else
      t.dueDate.Some? && !t.isCompleted && DateOf(now) > t.dueDate.value
  }

  /**
   * With a due date and time, due soon while the instant lies strictly within
   * the next day; with a date only, when the date is today or tomorrow.
   */
  function IsDueSoon(t: Task, now: int): (r: bool)
    ensures r ==> !t.isCompleted && t.dueDate.Some?
  {
    if t.dueDate.None? || t.isCompleted then
      false
    else if t.dueTime.Some? then
      var due := DateTimeOf(t.dueDate.value, t.dueTime.value);
      now < due && due < now + MinutesPerDay
    else
      t.dueDate.value == DateOf(now) || t.dueDate.value == DateOf(now) + 1
  }

  predicate IsSubtask(t: Task) {
    t.parentTaskId.Some?
  }

  predicate HasSubtasks(t: Task) {
    |t.subtasks| > 0
  }

  /** The XP table of the record: 10, 25, 50 and 100. */
  lemma XpRewardTable(t: Task)
    ensures XpReward(t) == match t.difficulty
                           case Easy => 10
                           case Medium => 25
                           case Hard => 50
                           case Nightmare => 100
  {
  }

  /** A completed task is neither overdue nor due soon, whatever the clock. */
  lemma CompletedIsNeither(t: Task, now: int)
    requires t.isCompleted
    ensures !IsOverdue(t, now) && !IsDueSoon(t, now)
  {
  }

  /** A task without a due date is neither overdue nor due soon. */
  lemma UndatedIsNeither(t: Task, now: int)
    requires t.dueDate.None?
    ensures !IsOverdue(t, now) && !IsDueSoon(t, now)
  {
  }

  /** With a date and no time, overdue exactly when today is after the date. */
  lemma DateOnlyOverdue(t: Task, now: int)
    requires t.dueDate.Some? && t.dueTime.None?
    ensures IsOverdue(t, now) <==> !t.isCompleted && DateOf(now) > t.dueDate.value
  {
  }

  /**
   * The 09:00 default of `DueDateTime` plays no part in `IsOverdue`: at 10:00
   * on its due day a date-only task is past its due instant and not overdue.
   */
  lemma DefaultTimeNotUsedForOverdue(t: Task)
    requires t.dueDate.Some? && t.dueTime.None? && !t.isCompleted
    ensures var now := DateTimeOf(t.dueDate.value, 10 * 60);
            now > DueDateTime(t).value && !IsOverdue(t, now)
  {
  }

  /** With a date and a time, overdue exactly when the clock is past the due instant. */
  lemma TimedOverdue(t: Task, now: int)
    requires t.dueDate.Some? && t.dueTime.Some?
    ensures IsOverdue(t, now) <==> !t.isCompleted && now > DueDateTime(t).value
  {
  }

  /** With a date and a time, due soon exactly when `now < due < now + 1 day`. */
  lemma TimedDueSoon(t: Task, now: int)
    requires t.dueDate.Some? && t.dueTime.Some? && !t.isCompleted
    ensures IsDueSoon(t, now) <==>
              now < DueDateTime(t).value < now + MinutesPerDay
  {
  }

  /**
   * With a date and no time, due soon exactly when the date is today or
   * tomorrow: all of the due day counts, also after its 09:00 default.
   */
  lemma DateOnlyDueSoon(t: Task, now: int)
    requires t.dueDate.Some? && t.dueTime.None?
    ensures IsDueSoon(t, now) <==>
              !t.isCompleted && (t.dueDate.value == DateOf(now) || t.dueDate.value == DateOf(now) + 1)
  {
  }

  /** No clock makes a task both overdue and due soon. */
  lemma OverdueExcludesDueSoon(t: Task, now: int)
    ensures !(IsOverdue(t, now) && IsDueSoon(t, now))
  {
  }

  /** The two structural tests. */
  lemma SubtaskTests(t: Task)
    ensures IsSubtask(t) <==> t.parentTaskId != None
    ensures HasSubtasks(t) <==> t.subtasks != []
  {
  }
}
