/**
 * The task store: the task list, the player's profile, the per-category
 * statistics, the overdue watch map and the NPC message log, and the
 * operations the screens call on them.
 *
 * The clock is the parameter `now` (a minute, as in `Tasks`). Requests to the
 * alarm service are recorded in the log `reminders` instead of being sent.
 */
module Store {
  import opened Wrappers
  import opened Tasks
  import opened Progression
  import opened Npcs

  /** A request to the alarm service. */
  datatype ReminderRequest = Schedule(taskId: string) | Cancel(taskId: string)

  /** The statistics of one category; the float rate is kept as a fraction. */
  datatype CategoryStats = CategoryStats(totalTasks: int, completedTasks: int, completionRate: Fraction)

  // ---------------------------------------------------------------------------
  // XP bookkeeping of the store
  // ---------------------------------------------------------------------------

  /**
   * The store's own XP table, which differs from the record's `XpReward`
   * except for easy tasks.
   */
  function XpForTask(t: Task): (xp: int)
    ensures 10 <= xp <= 50
    ensures xp <= XpReward(t)
    ensures xp == XpReward(t) <==> t.difficulty == Easy
  {
    match t.difficulty
    case Easy => 10
    case Medium => 20
    case Hard => 30
    case Nightmare => 50
  }

  /** The two XP tables side by side: 10/10, 20/25, 30/50 and 50/100. */
  lemma XpTables(t: Task)
    ensures (XpForTask(t), XpReward(t)) == match t.difficulty
                                           case Easy => (10, 10)
                                           case Medium => (20, 25)
                                           case Hard => (30, 50)
                                           case Nightmare => (50, 100)
  {
  }

  /** `m[c] ?: 0`. */
  function Get(m: map<TaskCategory, int>, c: TaskCategory): int {
    if c in m then m[c] else 0
  }

  /** `m.values.sum()`: the key type has six values, so six terms. */
  function SumXp(m: map<TaskCategory, int>): int {
    Get(m, Work) + Get(m, Study) + Get(m, Health) + Get(m, Personal) + Get(m, Shopping) + Get(m, Other)
  }

  /** Changing one entry changes the sum by the difference. */
  lemma SumXpUpdate(m: map<TaskCategory, int>, c: TaskCategory, v: int)
    ensures SumXp(m[c := v]) == SumXp(m) - Get(m, c) + v
  {
  }

  /** `Int.coerceAtLeast(0)`. */
  function AtLeastZero(x: int): (r: int)
    ensures r >= 0 && r >= x
    ensures x >= 0 ==> r == x
    ensures x < 0 ==> r == 0
  {
    if x < 0 then 0 else x
  }

  /**
   * `awardXpForTask`: the store's XP for the task is added to the total and
   * to the task's category, the category count goes up by one and the overall
   * level follows the new total. The category levels are not touched.
   */
  function AwardXp(p: UserProfile, t: Task): (q: UserProfile)
    ensures q.totalXp == p.totalXp + XpForTask(t) && q.level == Level(q.totalXp)
    ensures Get(q.categoryXp, t.category) == Get(p.categoryXp, t.category) + XpForTask(t)
    ensures Get(q.categoryTasksCompleted, t.category) == Get(p.categoryTasksCompleted, t.category) + 1
    ensures forall c :: c != t.category ==>
              Get(q.categoryXp, c) == Get(p.categoryXp, c) &&
              Get(q.categoryTasksCompleted, c) == Get(p.categoryTasksCompleted, c)
    ensures q.categoryLevels == p.categoryLevels
    ensures q.(totalXp := p.totalXp, level := p.level, categoryXp := p.categoryXp,
               categoryTasksCompleted := p.categoryTasksCompleted) == p
  {
    var xp := XpForTask(t);
    var total := p.totalXp + xp;
    p.(totalXp := total,
       level := Level(total),
       categoryXp := p.categoryXp[t.category := Get(p.categoryXp, t.category) + xp],
       categoryTasksCompleted := p.categoryTasksCompleted[t.category := Get(p.categoryTasksCompleted, t.category) + 1])
  }

  /**
   * `removeXpForTask`: the same three quantities go down, each clamped at 0,
   * and the overall level follows the new total.
   */
  function RemoveXp(p: UserProfile, t: Task): (q: UserProfile)
    ensures q.totalXp == AtLeastZero(p.totalXp - XpForTask(t)) && q.level == Level(q.totalXp)
    ensures Get(q.categoryXp, t.category) == AtLeastZero(Get(p.categoryXp, t.category) - XpForTask(t))
    ensures Get(q.categoryTasksCompleted, t.category) == AtLeastZero(Get(p.categoryTasksCompleted, t.category) - 1)
    ensures forall c :: c != t.category ==>
              Get(q.categoryXp, c) == Get(p.categoryXp, c) &&
              Get(q.categoryTasksCompleted, c) == Get(p.categoryTasksCompleted, c)
    ensures q.categoryLevels == p.categoryLevels
    ensures q.(totalXp := p.totalXp, level := p.level, categoryXp := p.categoryXp,
               categoryTasksCompleted := p.categoryTasksCompleted) == p
  {
    var xp := XpForTask(t);
    var total := AtLeastZero(p.totalXp - xp);
    p.(totalXp := total,
       level := Level(total),
       categoryXp := p.categoryXp[t.category := AtLeastZero(Get(p.categoryXp, t.category) - xp)],
       categoryTasksCompleted := p.categoryTasksCompleted[t.category := AtLeastZero(Get(p.categoryTasksCompleted, t.category) - 1)])
  }

  /**
   * Deleting a completed task takes back exactly what completing it gave, on
   * a profile whose counters are non-negative, whose level matches its total
   * and which already has entries for the task's category.
   */
  lemma RemoveUndoesAward(p: UserProfile, t: Task)
    requires p.totalXp >= 0 && p.level == Level(p.totalXp)
    requires t.category in p.categoryXp && p.categoryXp[t.category] >= 0
    requires t.category in p.categoryTasksCompleted && p.categoryTasksCompleted[t.category] >= 0
    ensures RemoveXp(AwardXp(p, t), t) == p
  {
    var q := RemoveXp(AwardXp(p, t), t);
    assert q.categoryXp == p.categoryXp;
    assert q.categoryTasksCompleted == p.categoryTasksCompleted;
  }

  /**
   * The clamp loses information: when the total is below the task's XP,
   * deleting and then completing again leaves more XP than there was.
   */
  lemma ClampedRemoveNotUndone(p: UserProfile, t: Task)
    requires 0 <= p.totalXp < XpForTask(t)
    ensures AwardXp(RemoveXp(p, t), t).totalXp == XpForTask(t) > p.totalXp
  {
  }

  /** The profile as `completeSubtask` leaves it. */
  function CreditSubtask(p: UserProfile, t: Task): (q: UserProfile)
    ensures Get(q.categoryXp, t.category) == Get(p.categoryXp, t.category) + XpReward(t)
    ensures Get(q.categoryTasksCompleted, t.category) == Get(p.categoryTasksCompleted, t.category) + 1
    ensures forall c :: c != t.category ==>
              Get(q.categoryXp, c) == Get(p.categoryXp, c) &&
              Get(q.categoryTasksCompleted, c) == Get(p.categoryTasksCompleted, c)
    ensures q.totalXp == SumXp(q.categoryXp) == SumXp(p.categoryXp) + XpReward(t)
    ensures q.level == Level(q.totalXp)
    ensures forall c :: c in q.categoryLevels <==> c in q.categoryXp
    ensures forall c :: c in q.categoryLevels ==> q.categoryLevels[c] == Level(q.categoryXp[c])
    ensures q.(totalXp := p.totalXp, level := p.level, categoryXp := p.categoryXp,
               categoryTasksCompleted := p.categoryTasksCompleted, categoryLevels := p.categoryLevels) == p
  {
    var xs := p.categoryXp[t.category := Get(p.categoryXp, t.category) + XpReward(t)];
    var counts := p.categoryTasksCompleted[t.category := Get(p.categoryTasksCompleted, t.category) + 1];
    var total := SumXp(xs);
    SumXpUpdate(p.categoryXp, t.category, Get(p.categoryXp, t.category) + XpReward(t));
    p.(totalXp := total,
       level := Level(total),
       categoryXp := xs,
       categoryTasksCompleted := counts,
       categoryLevels := map c | c in xs :: Level(xs[c]))
  }

  /** The total agrees with the category XP. */
  ghost predicate TotalIsSum(p: UserProfile) {
    p.totalXp == SumXp(p.categoryXp)
  }

  /** Each category level agrees with that category's XP. */
  ghost predicate LevelsAgree(p: UserProfile) {
    forall c :: c in p.categoryLevels ==> c in p.categoryXp && p.categoryLevels[c] == Level(p.categoryXp[c])
  }

  /** Awarding XP keeps the total equal to the sum of the category XP. */
  lemma AwardKeepsTotalIsSum(p: UserProfile, t: Task)
    requires TotalIsSum(p)
    ensures TotalIsSum(AwardXp(p, t))
  {
    SumXpUpdate(p.categoryXp, t.category, Get(p.categoryXp, t.category) + XpForTask(t));
  }

  /** After a subtask is credited, the total and the category levels agree with the category XP. */
  lemma CreditRestoresAgreement(p: UserProfile, t: Task)
    ensures TotalIsSum(CreditSubtask(p, t)) && LevelsAgree(CreditSubtask(p, t))
  {
  }

  /**
   * Removing XP can break that agreement: with 5 XP in work and 25 in study,
   * deleting a completed medium work task clamps the work XP at 0 but takes
   * the full 20 from the total.
   */
  lemma RemoveBreaksTotalIsSum()
    ensures var p := DefaultProfile().(totalXp := 30, categoryXp := DefaultProfile().categoryXp[Work := 5][Study := 25]);
            var t := Task("t", "", "", Medium, Work, true, 0, None, None, None, None, [], false);
            TotalIsSum(p) && !TotalIsSum(RemoveXp(p, t))
  {
  }

  /**
   * Awarding XP leaves the category levels stale: 90 work XP at level 1 plus a
   * nightmare work task gives 140 work XP, which is level 2, while the
   * recorded work level stays 1.
   */
  lemma AwardLeavesLevelsStale()
    ensures var p := DefaultProfile().(categoryXp := DefaultProfile().categoryXp[Work := 90], totalXp := 90);
            var t := Task("t", "", "", Nightmare, Work, false, 0, None, None, None, None, [], false);
            LevelsAgree(p) && !LevelsAgree(AwardXp(p, t))
  {
    var p := DefaultProfile().(categoryXp := DefaultProfile().categoryXp[Work := 90], totalXp := 90);
    LevelsAgreeDefaultWork(p, 90);
    var t := Task("t", "", "", Nightmare, Work, false, 0, None, None, None, None, [], false);
    var q := AwardXp(p, t);
    assert q.categoryXp[Work] == 140;
    assert Threshold(1) < 140 <= Threshold(2);
    LevelUnique(140, 2);
  }

  /** A default profile whose work XP is raised below the first threshold still agrees. */
  lemma LevelsAgreeDefaultWork(p: UserProfile, xp: int)
    requires 0 <= xp <= 100
    requires p.categoryLevels == DefaultProfile().categoryLevels
    requires p.categoryXp == DefaultProfile().categoryXp[Work := xp]
    ensures LevelsAgree(p)
  {
    assert Level(0) == 1;
    assert Level(xp) == 1 by {
      if xp > 0 {
        LevelUnique(xp, 1);
      }
    }
  }

  // ---------------------------------------------------------------------------
  // The task list
  // ---------------------------------------------------------------------------

  /** No two tasks share an id (the ids are random UUIDs). */
  ghost predicate UniqueIds(tasks: seq<Task>) {
    forall i, j :: 0 <= i < j < |tasks| ==> tasks[i].id != tasks[j].id
  }

  /** The ids of the tasks. */
  function Ids(tasks: seq<Task>): set<string> {
    set t | t in tasks :: t.id
  }

  /** A task whose id is fresh can be appended without breaking uniqueness. */
  lemma UniqueIdsSnoc(tasks: seq<Task>, t: Task)
    requires UniqueIds(tasks) && t.id !in Ids(tasks)
    ensures UniqueIds(tasks + [t])
  {
    forall i | 0 <= i < |tasks|
      ensures tasks[i].id != t.id
    {
      assert tasks[i] in tasks;
    }
  }

  /** With unique ids, the last task's id is not among the earlier ones. */
  lemma LastIdFresh(tasks: seq<Task>)
    requires UniqueIds(tasks) && |tasks| > 0
    ensures tasks[|tasks| - 1].id !in Ids(tasks[..|tasks| - 1])
  {
    var k := |tasks| - 1;
    forall x | x in Ids(tasks[..k])
      ensures x != tasks[k].id
    {
      var t :| t in tasks[..k] && t.id == x;
      var i :| 0 <= i < k && tasks[..k][i] == t;
    }
  }

  /** Fewer tasks, fewer ids. */
  lemma IdsSubset(r: seq<Task>, s: seq<Task>)
    requires forall t :: t in r ==> t in s
    ensures Ids(r) <= Ids(s)
  {
  }

  /** `tasks.find { it.id == id }`: the first task with that id. */
  function FindById(tasks: seq<Task>, id: string): (r: Option<Task>)
    ensures r.None? <==> id !in Ids(tasks)
    ensures r.Some? ==> r.value in tasks && r.value.id == id
    ensures r.Some? ==> exists i :: 0 <= i < |tasks| && tasks[i] == r.value &&
                                    forall j :: 0 <= j < i ==> tasks[j].id != id
  {
    if |tasks| == 0 then None
    else if tasks[0].id == id then Some(tasks[0])
    else FindById(tasks[1..], id)
  }

  /** With unique ids, the task found is the one at the index holding that id. */
  lemma FindByIdUnique(tasks: seq<Task>, j: int)
    requires UniqueIds(tasks) && 0 <= j < |tasks|
    ensures FindById(tasks, tasks[j].id) == Some(tasks[j])
  {
    var r := FindById(tasks, tasks[j].id);
    var i :| 0 <= i < |tasks| && tasks[i] == r.value;
  }

  /** `tasks.map { if (it.id == id) replacement else it }`. */
  function ReplaceById(tasks: seq<Task>, id: string, replacement: Task): (r: seq<Task>)
    ensures |r| == |tasks|
    ensures forall i :: 0 <= i < |tasks| ==> r[i] == if tasks[i].id == id then replacement else tasks[i]
  {
    seq(|tasks|, i requires 0 <= i < |tasks| => if tasks[i].id == id then replacement else tasks[i])
  }

  /**
   * A replacement that keeps the id changes no id, and with unique ids it
   * replaces the single task holding that id.
   */
  lemma ReplaceByIdKeepsIds(tasks: seq<Task>, id: string, replacement: Task)
    requires replacement.id == id
    ensures forall i :: 0 <= i < |tasks| ==> ReplaceById(tasks, id, replacement)[i].id == tasks[i].id
    ensures UniqueIds(tasks) ==> UniqueIds(ReplaceById(tasks, id, replacement))
    ensures Ids(ReplaceById(tasks, id, replacement)) == Ids(tasks)
  {
    var r := ReplaceById(tasks, id, replacement);
    forall x | x in Ids(r) ensures x in Ids(tasks) {
      var i :| 0 <= i < |r| && r[i].id == x;
      assert tasks[i] in tasks;
    }
    forall x | x in Ids(tasks) ensures x in Ids(r) {
      var i :| 0 <= i < |tasks| && tasks[i].id == x;
      assert r[i] in r;
    }
  }

  /** With unique ids, replacing by the id at index `j` is an update at `j`. */
  lemma ReplaceByIdUnique(tasks: seq<Task>, j: int, replacement: Task)
    requires UniqueIds(tasks) && 0 <= j < |tasks|
    ensures ReplaceById(tasks, tasks[j].id, replacement) == tasks[j := replacement]
  {
    var r := ReplaceById(tasks, tasks[j].id, replacement);
    forall i | 0 <= i < |tasks| ensures r[i] == tasks[j := replacement][i] {
      if i != j {
        assert tasks[i].id != tasks[j].id;
      }
    }
  }

  /** Replacing by an id the appended task does not carry commutes with the append. */
  lemma ReplaceByIdSnoc(tasks: seq<Task>, id: string, replacement: Task, t: Task)
    requires t.id != id
    ensures ReplaceById(tasks + [t], id, replacement) == ReplaceById(tasks, id, replacement) + [t]
  {
  }

  /** The predicate of `deleteTask`'s filter: neither the task nor one of its subtasks. */
  predicate Survives(t: Task, id: string) {
    t.id != id && t.parentTaskId != Some(id)
  }

  /** `tasks.filter { it.id != id && it.parentTaskId != id }`. */
  function RemoveWithSubtasks(tasks: seq<Task>, id: string): (r: seq<Task>)
    ensures |r| <= |tasks|
    ensures forall t :: t in r <==> t in tasks && Survives(t, id)
  {
    if |tasks| == 0 then []
    else
      var rest := RemoveWithSubtasks(tasks[..|tasks| - 1], id);
      var last := tasks[|tasks| - 1];
      assert tasks == tasks[..|tasks| - 1] + [last];
      if Survives(last, id) then rest + [last] else rest
  }

  /**
   * The filter keeps order: removing from a concatenation removes from each
   * part.
   */
  lemma {:induction false} RemoveWithSubtasksAppend(a: seq<Task>, b: seq<Task>, id: string)
    ensures RemoveWithSubtasks(a + b, id) == RemoveWithSubtasks(a, id) + RemoveWithSubtasks(b, id)
    decreases |b|
  {
    if |b| > 0 {
      var k := |b| - 1;
      assert (a + b)[..|a + b| - 1] == a + b[..k];
      RemoveWithSubtasksAppend(a, b[..k], id);
    } else {
      assert a + b == a;
    }
  }

  /** A list none of whose tasks is hit is left as it is. */
  lemma {:induction false} RemoveWithSubtasksIdle(tasks: seq<Task>, id: string)
    requires forall t :: t in tasks ==> Survives(t, id)
    ensures RemoveWithSubtasks(tasks, id) == tasks
    decreases |tasks|
  {
    if |tasks| > 0 {
      var k := |tasks| - 1;
      var init := tasks[..k];
      assert forall t :: t in init ==> t in tasks;
      RemoveWithSubtasksIdle(init, id);
      assert Survives(tasks[k], id);
      assert RemoveWithSubtasks(tasks, id) == init + [tasks[k]];
      assert tasks == init + [tasks[k]];
    }
  }

  /** Removing tasks keeps the ids unique. */
  lemma {:induction false} RemoveWithSubtasksUnique(tasks: seq<Task>, id: string)
    requires UniqueIds(tasks)
    ensures UniqueIds(RemoveWithSubtasks(tasks, id))
    decreases |tasks|
  {
    if |tasks| > 0 {
      var k := |tasks| - 1;
      var rest := RemoveWithSubtasks(tasks[..k], id);
      RemoveWithSubtasksUnique(tasks[..k], id);
      if Survives(tasks[k], id) {
        LastIdFresh(tasks);
        IdsSubset(rest, tasks[..k]);
        UniqueIdsSnoc(rest, tasks[k]);
      }
    }
  }

  /** `tasks.filter { !it.isCompleted }`. */
  function Incomplete(tasks: seq<Task>): (r: seq<Task>)
    ensures |r| <= |tasks|
    ensures forall t :: t in r <==> t in tasks && !t.isCompleted
  {
    if |tasks| == 0 then []
    else
      var rest := Incomplete(tasks[..|tasks| - 1]);
      var last := tasks[|tasks| - 1];
      assert tasks == tasks[..|tasks| - 1] + [last];
      if !last.isCompleted then rest + [last] else rest
  }

  /** Filtering a list with one more task at the end. */
  lemma IncompleteSnoc(tasks: seq<Task>, t: Task)
    ensures Incomplete(tasks + [t]) == Incomplete(tasks) + if t.isCompleted then [] else [t]
  {
    assert (tasks + [t])[..|tasks|] == tasks;
  }

  /**
   * The filter keeps order: filtering a concatenation filters each part.
   */
  lemma {:induction false} IncompleteAppend(a: seq<Task>, b: seq<Task>)
    ensures Incomplete(a + b) == Incomplete(a) + Incomplete(b)
    decreases |b|
  {
    if |b| > 0 {
      var k := |b| - 1;
      var init := b[..k];
      assert b == init + [b[k]];
      assert a + b == (a + init) + [b[k]];
      IncompleteSnoc(a + init, b[k]);
      IncompleteSnoc(init, b[k]);
      IncompleteAppend(a, init);
    } else {
      assert a + b == a;
    }
  }

  /** A list with no completed task is left as it is. */
  lemma {:induction false} IncompleteIdle(tasks: seq<Task>)
    requires forall i :: 0 <= i < |tasks| ==> !tasks[i].isCompleted
    ensures Incomplete(tasks) == tasks
    decreases |tasks|
  {
    if |tasks| > 0 {
      var k := |tasks| - 1;
      var init := tasks[..k];
      assert forall i :: 0 <= i < k ==> init[i] == tasks[i];
      assert tasks == init + [tasks[k]];
      IncompleteIdle(init);
      IncompleteSnoc(init, tasks[k]);
    }
  }

  /** `tasks.filter { it.isCompleted }`. */
  function Completed(tasks: seq<Task>): (r: seq<Task>)
    ensures |r| <= |tasks|
    ensures forall t :: t in r <==> t in tasks && t.isCompleted
  {
    if |tasks| == 0 then []
    else
      var rest := Completed(tasks[..|tasks| - 1]);
      var last := tasks[|tasks| - 1];
      assert tasks == tasks[..|tasks| - 1] + [last];
      if last.isCompleted then rest + [last] else rest
  }

  /** Every task is either kept or cleared by `deleteAllCompletedTasks`. */
  lemma {:induction false} CompletedPartition(tasks: seq<Task>)
    ensures |Incomplete(tasks)| + |Completed(tasks)| == |tasks|
    decreases |tasks|
  {
    if |tasks| > 0 {
      CompletedPartition(tasks[..|tasks| - 1]);
    }
  }

  /** Keeping the incomplete tasks keeps the ids unique. */
  lemma {:induction false} IncompleteUnique(tasks: seq<Task>)
    requires UniqueIds(tasks)
    ensures UniqueIds(Incomplete(tasks))
    decreases |tasks|
  {
    if |tasks| > 0 {
      var k := |tasks| - 1;
      var rest := Incomplete(tasks[..k]);
      IncompleteUnique(tasks[..k]);
      if !tasks[k].isCompleted {
        LastIdFresh(tasks);
        IdsSubset(rest, tasks[..k]);
        UniqueIdsSnoc(rest, tasks[k]);
      }
    }
  }

  /** The cancel requests for the tasks among `tasks` that have a reminder, in order. */
  function CancelsFor(tasks: seq<Task>): (r: seq<ReminderRequest>)
    ensures |r| <= |tasks|
    ensures forall q :: q in r <==> exists t :: t in tasks && t.hasReminder && q == Cancel(t.id)
  {
    if |tasks| == 0 then []
    else
      var rest := CancelsFor(tasks[..|tasks| - 1]);
      var last := tasks[|tasks| - 1];
      assert tasks == tasks[..|tasks| - 1] + [last];
      if last.hasReminder then rest + [Cancel(last.id)] else rest
  }

  /** One more step of the cancel loop adds the request for that task, if any. */
  lemma CancelsForStep(tasks: seq<Task>, i: int)
    requires 0 <= i < |tasks|
    ensures CancelsFor(tasks[..i + 1]) ==
              CancelsFor(tasks[..i]) + if tasks[i].hasReminder then [Cancel(tasks[i].id)] else []
  {
    assert tasks[..i + 1][..i] == tasks[..i];
  }

  /**
   * The loop of `deleteAllCompletedTasks` over the removed tasks: one cancel
   * request per task with a reminder, in list order.
   */
  method CancelReminders(completed: seq<Task>) returns (requests: seq<ReminderRequest>)
    ensures requests == CancelsFor(completed)
  {
    requests := [];
    var i := 0;
    while i < |completed|
      invariant 0 <= i <= |completed|
      invariant requests == CancelsFor(completed[..i])
    {
      var task := completed[i];
      CancelsForStep(completed, i);
      if task.hasReminder {
        requests := requests + [Cancel(task.id)];
      }
      i := i + 1;
    }
    assert completed[..i] == completed;
  }

  /** The alarm request `addTask` makes, if any. */
  function ScheduleFor(t: Task, now: int): (r: seq<ReminderRequest>)
    ensures r == [Schedule(t.id)] || r == []
    ensures r != [] <==> t.hasReminder && t.dueDate.Some? && DueDateTime(t).value > now
  {
    if t.hasReminder && t.dueDate.Some? && DueDateTime(t).value - now > 0 then [Schedule(t.id)] else []
  }

  // ---------------------------------------------------------------------------
  // Category statistics
  // ---------------------------------------------------------------------------

  /** The number of tasks in a category. */
  function CountIn(tasks: seq<Task>, c: TaskCategory): (n: nat)
    ensures n <= |tasks|
  {
    if |tasks| == 0 then 0
    else CountIn(tasks[..|tasks| - 1], c) + (if tasks[|tasks| - 1].category == c then 1 else 0)
  }

  /** The number of completed tasks in a category. */
  function CompletedIn(tasks: seq<Task>, c: TaskCategory): (n: nat)
    ensures n <= CountIn(tasks, c)
  {
    if |tasks| == 0 then 0
    else
      CompletedIn(tasks[..|tasks| - 1], c) +
      (if tasks[|tasks| - 1].category == c && tasks[|tasks| - 1].isCompleted then 1 else 0)
  }

  /** The statistics `updateCategoryStats` computes for one category. */
  function StatsFor(tasks: seq<Task>, c: TaskCategory): (s: CategoryStats)
    ensures 0 <= s.completedTasks <= s.totalTasks
    ensures s.completionRate.den > 0 && 0 <= s.completionRate.num <= s.completionRate.den
    ensures s.totalTasks == 0 ==> s.completionRate == Fraction(0, 1)
    ensures s.totalTasks > 0 ==> s.completionRate == Fraction(s.completedTasks, s.totalTasks)
  {
    var total := CountIn(tasks, c);
    var completed := CompletedIn(tasks, c);
    CategoryStats(total, completed, if total > 0 then Fraction(completed, total) else Fraction(0, 1))
  }

  /** The counts of the six categories add up to the length of the list. */
  function CountAll(tasks: seq<Task>): int {
    CountIn(tasks, Work) + CountIn(tasks, Study) + CountIn(tasks, Health) +
    CountIn(tasks, Personal) + CountIn(tasks, Shopping) + CountIn(tasks, Other)
  }

  /** Every task is counted in exactly one category. */
  lemma {:induction false} CountsPartition(tasks: seq<Task>)
    ensures CountAll(tasks) == |tasks|
    decreases |tasks|
  {
    if |tasks| > 0 {
      CountsPartition(tasks[..|tasks| - 1]);
    }
  }

  // ---------------------------------------------------------------------------
  // The overdue watch
  // ---------------------------------------------------------------------------

  /** The tasks `checkOverdueTasks` looks at. */
  predicate Watched(t: Task) {
    !t.isCompleted && !IsSubtask(t) && t.dueDate.Some?
  }

  /** `tasksChecked[id] ?: false`. */
  function WasChecked(checked: map<string, bool>, id: string): bool {
    if id in checked then checked[id] else false
  }

  /** A watched task that is overdue now and was not marked overdue at the last check. */
  predicate Fires(checked: map<string, bool>, t: Task, now: int) {
    Watched(t) && IsOverdue(t, now) && !WasChecked(checked, t.id)
  }

  /** The watch map after the first loop of `checkOverdueTasks` over `tasks`. */
  function Scan(checked: map<string, bool>, tasks: seq<Task>, now: int): map<string, bool> {
    if |tasks| == 0 then checked
    else
      var m := Scan(checked, tasks[..|tasks| - 1], now);
      var last := tasks[|tasks| - 1];
      if Watched(last) then m[last.id := IsOverdue(last, now)] else m
  }

  /** The tasks for which that loop generates a failure message, in order. */
  function FiredIn(checked: map<string, bool>, tasks: seq<Task>, now: int): seq<Task> {
    if |tasks| == 0 then []
    else
      var last := tasks[|tasks| - 1];
      FiredIn(checked, tasks[..|tasks| - 1], now) +
      (if Fires(Scan(checked, tasks[..|tasks| - 1], now), last, now) then [last] else [])
  }

  /** One more step of the scan loop. */
  lemma ScanStep(checked: map<string, bool>, tasks: seq<Task>, i: int, now: int)
    requires 0 <= i < |tasks|
    ensures Scan(checked, tasks[..i + 1], now) ==
              if Watched(tasks[i]) then Scan(checked, tasks[..i], now)[tasks[i].id := IsOverdue(tasks[i], now)]
              else Scan(checked, tasks[..i], now)
    ensures CategoriesOf(FiredIn(checked, tasks[..i + 1], now)) ==
              CategoriesOf(FiredIn(checked, tasks[..i], now)) +
              if Fires(Scan(checked, tasks[..i], now), tasks[i], now) then [tasks[i].category] else []
  {
    assert tasks[..i + 1][..i] == tasks[..i];
    var fired := FiredIn(checked, tasks[..i], now);
    assert CategoriesOf(fired + [tasks[i]]) == CategoriesOf(fired) + [tasks[i].category];
    assert fired + [] == fired;
  }

  /** The tasks that fire against the watch map as it was before the check. */
  function NewlyOverdue(checked: map<string, bool>, tasks: seq<Task>, now: int): (r: seq<Task>)
    ensures forall t :: t in r <==> t in tasks && Fires(checked, t, now)
    ensures (forall t :: t in tasks ==> !Fires(checked, t, now)) ==> r == []
  {
    if |tasks| == 0 then []
    else
      var rest := NewlyOverdue(checked, tasks[..|tasks| - 1], now);
      var last := tasks[|tasks| - 1];
      assert tasks == tasks[..|tasks| - 1] + [last];
      if Fires(checked, last, now) then rest + [last] else rest
  }

  /**
   * The newly overdue tasks keep their list order: those of a concatenation
   * are those of each part.
   */
  lemma {:induction false} NewlyOverdueAppend(checked: map<string, bool>, a: seq<Task>, b: seq<Task>, now: int)
    ensures NewlyOverdue(checked, a + b, now) == NewlyOverdue(checked, a, now) + NewlyOverdue(checked, b, now)
    decreases |b|
  {
    if |b| > 0 {
      var k := |b| - 1;
      assert (a + b)[..|a + b| - 1] == a + b[..k];
      NewlyOverdueAppend(checked, a, b[..k], now);
    } else {
      assert a + b == a;
    }
  }

  /** The second loop of `checkOverdueTasks`: keep only the entries for `keep`. */
  function Prune(checked: map<string, bool>, keep: set<string>): map<string, bool> {
    map id | id in checked && id in keep :: checked[id]
  }

  /** The ids of the tasks not completed. */
  function IncompleteIds(tasks: seq<Task>): set<string> {
    set t | t in tasks && !t.isCompleted :: t.id
  }

  /** The watch map after a whole `checkOverdueTasks`. */
  function AfterCheck(checked: map<string, bool>, tasks: seq<Task>, now: int): (r: map<string, bool>)
    ensures r.Keys <= IncompleteIds(tasks)
  {
    Prune(Scan(checked, tasks, now), IncompleteIds(tasks))
  }

  /** The scan leaves the entries of ids outside the list alone. */
  lemma {:induction false} ScanOther(checked: map<string, bool>, tasks: seq<Task>, now: int, id: string)
    requires id !in Ids(tasks)
    ensures WasChecked(Scan(checked, tasks, now), id) == WasChecked(checked, id)
    decreases |tasks|
  {
    if |tasks| > 0 {
      var k := |tasks| - 1;
      assert tasks[k] in tasks;
      assert Ids(tasks[..k]) <= Ids(tasks) by {
        forall x | x in Ids(tasks[..k]) ensures x in Ids(tasks) {
          var t :| t in tasks[..k] && t.id == x;
        }
      }
      ScanOther(checked, tasks[..k], now, id);
    }
  }

  /** With unique ids, the scan records for every watched task whether it is overdue now. */
  lemma {:induction false} ScanHit(checked: map<string, bool>, tasks: seq<Task>, now: int, j: int)
    requires UniqueIds(tasks) && 0 <= j < |tasks| && Watched(tasks[j])
    ensures var m := Scan(checked, tasks, now);
            tasks[j].id in m && m[tasks[j].id] == IsOverdue(tasks[j], now)
    decreases |tasks|
  {
    var k := |tasks| - 1;
    if j < k {
      ScanHit(checked, tasks[..k], now, j);
    }
  }

  /**
   * With unique ids, the loop fires exactly for the tasks that fire against
   * the watch map as it was before the check.
   */
  lemma {:induction false} FiredInIsNewlyOverdue(checked: map<string, bool>, tasks: seq<Task>, now: int)
    requires UniqueIds(tasks)
    ensures FiredIn(checked, tasks, now) == NewlyOverdue(checked, tasks, now)
    decreases |tasks|
  {
    if |tasks| > 0 {
      var k := |tasks| - 1;
      FiredInIsNewlyOverdue(checked, tasks[..k], now);
      LastIdFresh(tasks);
      ScanOther(checked, tasks[..k], now, tasks[k].id);
    }
  }

  /** A second check at the same clock generates nothing. */
  lemma SecondCheckQuiet(checked: map<string, bool>, tasks: seq<Task>, now: int)
    requires UniqueIds(tasks)
    ensures NewlyOverdue(AfterCheck(checked, tasks, now), tasks, now) == []
  {
    var after := AfterCheck(checked, tasks, now);
    forall t | t in tasks
      ensures !Fires(after, t, now)
    {
      var j :| 0 <= j < |tasks| && tasks[j] == t;
      if Watched(t) {
        ScanHit(checked, tasks, now, j);
      }
    }
  }

  // ---------------------------------------------------------------------------
  // The view model
  // ---------------------------------------------------------------------------

  /** `CategoryStats()`. */
  const EmptyStats := CategoryStats(0, 0, Fraction(0, 1))

  /** The category of each task, in order. */
  function CategoriesOf(tasks: seq<Task>): seq<TaskCategory> {
    seq(|tasks|, k requires 0 <= k < |tasks| => tasks[k].category)
  }

  class TodoViewModel {
    var tasks: seq<Task>
    var userProfile: UserProfile
    var categoryStats: map<TaskCategory, CategoryStats>
    var tasksChecked: map<string, bool>
    var reminders: seq<ReminderRequest>
    var showConfetti: bool
    const npcRepository: NpcRepository

    /**
     * The repository is consistent and has a character for every category,
     * and no two tasks share an id.
     */
    ghost predicate Valid()
      reads this, npcRepository
    {
      npcRepository.Valid() &&
      (forall c :: |CategoryNpcs(npcRepository.npcs, c)| > 0) &&
      UniqueIds(tasks)
    }

    /** The freshly created view model, before `initialize` loads anything. */
    constructor()
      ensures Valid()
      ensures tasks == [] && userProfile == DefaultProfile() && tasksChecked == map[]
      ensures forall c :: c in categoryStats && categoryStats[c] == EmptyStats
      ensures reminders == [] && !showConfetti
      ensures fresh(npcRepository) && npcRepository.messages == []
    {
      tasks := [];
      userProfile := DefaultProfile();
      forall c: TaskCategory ensures c in AllCategories {
        AllCategoriesListed(c);
      }
      categoryStats := map c | c in AllCategories :: EmptyStats;
      tasksChecked := map[];
      reminders := [];
      showConfetti := false;
      npcRepository := new NpcRepository();
      RosterCoversCategories();
    }

    /**
     * `updateCategoryStats`: every category's entry is recomputed from the
     * task list; nothing else changes.
     */
    method UpdateCategoryStats()
      modifies this
      ensures forall c :: c in categoryStats && categoryStats[c] == StatsFor(tasks, c)
      ensures tasks == old(tasks) && userProfile == old(userProfile)
      ensures tasksChecked == old(tasksChecked) && reminders == old(reminders)
      ensures showConfetti == old(showConfetti)
    {
      var newStats := categoryStats;
      var i := 0;
      while i < |AllCategories|
        invariant 0 <= i <= |AllCategories|
        invariant forall k :: 0 <= k < i ==>
                    AllCategories[k] in newStats && newStats[AllCategories[k]] == StatsFor(tasks, AllCategories[k])
      {
        var category := AllCategories[i];
        newStats := newStats[category := StatsFor(tasks, category)];
        i := i + 1;
      }
      forall c: TaskCategory
        ensures c in newStats && newStats[c] == StatsFor(tasks, c)
      {
        AllCategoriesListed(c);
        var k :| 0 <= k < |AllCategories| && AllCategories[k] == c;
      }
      categoryStats := newStats;
    }

    /**
     * `addTask`: the new task goes at the end, and an alarm is requested only
     * when it has a reminder and a due instant strictly after now.
     */
    method AddTask(id: string, title: string, description: string, difficulty: TaskDifficulty,
                   category: TaskCategory, dueDate: Option<int>, dueTime: Option<MinuteOfDay>,
                   hasReminder: bool, now: int)
      requires Valid() && id !in Ids(tasks)
      modifies this
      ensures Valid()
      ensures tasks == old(tasks) + [Task(id, title, description, difficulty, category, false, now,
                                          None, dueDate, dueTime, None, [], hasReminder)]
      ensures reminders == old(reminders) + ScheduleFor(tasks[|tasks| - 1], now)
      ensures forall c :: c in categoryStats && categoryStats[c] == StatsFor(tasks, c)
      ensures userProfile == old(userProfile) && tasksChecked == old(tasksChecked)
      ensures showConfetti == old(showConfetti)
    {
      var newTask := Task(id, title, description, difficulty, category, false, now,
                          None, dueDate, dueTime, None, [], hasReminder);
      UniqueIdsSnoc(tasks, newTask);
      tasks := tasks + [newTask];
      if hasReminder && dueDate.Some? {
        var dueDateTime := DueDateTime(newTask).value;
        if dueDateTime - now > 0 {
          reminders := reminders + [Schedule(id)];
        }
      }
      UpdateCategoryStats();
    }

    /**
     * `addSubtask`: with no task of that id nothing changes; otherwise the
     * subtask, in its parent's category, goes at the end and its id is
     * appended to the parent's subtask list.
     */
    method AddSubtask(id: string, parentTaskId: string, title: string, description: string,
                      difficulty: TaskDifficulty, now: int)
      requires Valid() && id !in Ids(tasks)
      modifies this
      ensures Valid()
      ensures parentTaskId !in Ids(old(tasks)) ==>
                tasks == old(tasks) && categoryStats == old(categoryStats)
      ensures parentTaskId in Ids(old(tasks)) ==>
                exists j :: 0 <= j < |old(tasks)| && old(tasks)[j].id == parentTaskId &&
                  var parent := old(tasks)[j];
                  tasks == old(tasks)[j := parent.(subtasks := parent.subtasks + [id])] +
                           [Task(id, title, description, difficulty, parent.category, false, now,
                                 None, None, None, Some(parentTaskId), [], false)]
      ensures parentTaskId in Ids(old(tasks)) ==>
                forall c :: c in categoryStats && categoryStats[c] == StatsFor(tasks, c)
      ensures userProfile == old(userProfile) && tasksChecked == old(tasksChecked)
      ensures reminders == old(reminders) && showConfetti == old(showConfetti)
    {
      var found := FindById(tasks, parentTaskId);
      if found.None? {
        return;
      }
      var parentTask := found.value;
      var j :| 0 <= j < |tasks| && tasks[j] == parentTask;
      FindByIdUnique(tasks, j);
      var newSubtask := Task(id, title, description, difficulty, parentTask.category, false, now,
                             None, None, None, Some(parentTaskId), [], false);
      UniqueIdsSnoc(tasks, newSubtask);
      var before := tasks;
      tasks := tasks + [newSubtask];
      var updatedParentTask := parentTask.(subtasks := parentTask.subtasks + [newSubtask.id]);
      ReplaceByIdSnoc(before, parentTaskId, updatedParentTask, newSubtask);
      ReplaceByIdKeepsIds(tasks, parentTaskId, updatedParentTask);
      tasks := ReplaceById(tasks, parentTaskId, updatedParentTask);
      ReplaceByIdUnique(before, j, updatedParentTask);
      UpdateCategoryStats();
    }

    /**
     * `completeTask`: every task with the given task's id is replaced by that
     * task marked completed at `now`. A top-level task then yields one
     * completion message from its category and the store's XP, and a subtask
     * yields neither. There is no check that the task was not already
     * completed.
     */
    method CompleteTask(task: Task, now: int)
      requires Valid()
      modifies this, npcRepository
      ensures Valid()
      ensures tasks == ReplaceById(old(tasks), task.id, task.(isCompleted := true, completedAt := Some(now)))
      ensures userProfile == if IsSubtask(task) then old(userProfile) else AwardXp(old(userProfile), task)
      ensures LogExtends(old(npcRepository.messages), npcRepository.messages, npcRepository.npcs,
                         if IsSubtask(task) then [] else [task.category], false, now)
      ensures forall c :: c in categoryStats && categoryStats[c] == StatsFor(tasks, c)
      ensures showConfetti
      ensures tasksChecked == old(tasksChecked) && reminders == old(reminders)
    {
      var updatedTask := task.(isCompleted := true, completedAt := Some(now));
      ReplaceByIdKeepsIds(tasks, task.id, updatedTask);
      tasks := ReplaceById(tasks, task.id, updatedTask);
      if !IsSubtask(task) {
        npcRepository.GenerateCompletionMessage(task.category, now);
      } else {
        LogExtendsNone(npcRepository.messages, npcRepository.npcs, false, now);
      }
      if !IsSubtask(task) {
        userProfile := AwardXp(userProfile, task);
      }
      UpdateCategoryStats();
      showConfetti := true;
    }

    /**
     * `completeSubtask`: a completed task or a top-level task is ignored;
     * otherwise the subtask is marked completed and its record's XP is
     * credited, with the total recomputed as the sum of the category XP.
     */
    method CompleteSubtask(subtask: Task, now: int)
      requires Valid()
      modifies this
      ensures Valid()
      ensures subtask.isCompleted || !IsSubtask(subtask) ==>
                tasks == old(tasks) && userProfile == old(userProfile) && categoryStats == old(categoryStats)
      ensures !subtask.isCompleted && IsSubtask(subtask) ==>
                tasks == ReplaceById(old(tasks), subtask.id, subtask.(isCompleted := true, completedAt := Some(now))) &&
                userProfile == CreditSubtask(old(userProfile), subtask) &&
                forall c :: c in categoryStats && categoryStats[c] == StatsFor(tasks, c)
      ensures tasksChecked == old(tasksChecked) && reminders == old(reminders)
      ensures showConfetti == old(showConfetti)
    {
      if subtask.isCompleted || subtask.parentTaskId.None? {
        return;
      }
      var completedSubtask := subtask.(isCompleted := true, completedAt := Some(now));
      ReplaceByIdKeepsIds(tasks, subtask.id, completedSubtask);
      tasks := ReplaceById(tasks, subtask.id, completedSubtask);
      UpdateCategoryStats();
      userProfile := CreditSubtask(userProfile, subtask);
    }

    /**
     * `deleteTask`: the task and its subtasks leave the list. A completed
     * top-level task gives its XP back; a top-level task the clock does not
     * find overdue, completed or not, yields one failure message.
     */
    method DeleteTask(task: Task, now: int)
      requires Valid()
      modifies this, npcRepository
      ensures Valid()
      ensures tasks == RemoveWithSubtasks(old(tasks), task.id)
      ensures userProfile == if task.isCompleted && !IsSubtask(task) then RemoveXp(old(userProfile), task)
                             else old(userProfile)
      ensures LogExtends(old(npcRepository.messages), npcRepository.messages, npcRepository.npcs,
                         if !IsSubtask(task) && !IsOverdue(task, now) then [task.category] else [], true, now)
      ensures forall c :: c in categoryStats && categoryStats[c] == StatsFor(tasks, c)
      ensures tasksChecked == old(tasksChecked) && reminders == old(reminders)
      ensures showConfetti == old(showConfetti)
    {
      if task.isCompleted && !IsSubtask(task) {
        userProfile := RemoveXp(userProfile, task);
      }
      if !IsSubtask(task) && !IsOverdue(task, now) {
        npcRepository.GenerateFailureMessage(task.category, now);
      } else {
        LogExtendsNone(npcRepository.messages, npcRepository.npcs, true, now);
      }
      RemoveWithSubtasksUnique(tasks, task.id);
      tasks := RemoveWithSubtasks(tasks, task.id);
      UpdateCategoryStats();
    }

    /**
     * `deleteAllCompletedTasks`: only the incomplete tasks remain, and a
     * cancel request goes out for each removed task with a reminder.
     */
    method DeleteAllCompletedTasks()
      requires Valid()
      modifies this
      ensures Valid()
      ensures tasks == Incomplete(old(tasks))
      ensures reminders == old(reminders) + CancelsFor(Completed(old(tasks)))
      ensures forall c :: c in categoryStats && categoryStats[c] == StatsFor(tasks, c)
      ensures userProfile == old(userProfile) && tasksChecked == old(tasksChecked)
      ensures showConfetti == old(showConfetti)
    {
      var completedTasks := Completed(tasks);
      var cancels := CancelReminders(completedTasks);
      IncompleteUnique(tasks);
      tasks, reminders := Incomplete(tasks), reminders + cancels;
      UpdateCategoryStats();
    }

    /**
     * `checkOverdueTasks`: one failure message per newly overdue task, in list
     * order, then the watch map holds the scan's verdicts for incomplete
     * tasks only.
     */
    method CheckOverdueTasks(now: int)
      requires Valid()
      modifies this, npcRepository
      ensures Valid()
      ensures LogExtends(old(npcRepository.messages), npcRepository.messages, npcRepository.npcs,
                         CategoriesOf(NewlyOverdue(old(tasksChecked), tasks, now)), true, now)
      ensures tasksChecked == AfterCheck(old(tasksChecked), tasks, now)
      ensures tasks == old(tasks) && userProfile == old(userProfile) && categoryStats == old(categoryStats)
      ensures reminders == old(reminders) && showConfetti == old(showConfetti)
    {
      var allTasks := tasks;
      ghost var log0 := npcRepository.messages;
      LogExtendsNone(log0, npcRepository.npcs, true, now);
      var i := 0;
      while i < |allTasks|
        invariant 0 <= i <= |allTasks|
        invariant npcRepository.Valid()
        invariant tasksChecked == Scan(old(tasksChecked), allTasks[..i], now)
        invariant LogExtends(log0, npcRepository.messages, npcRepository.npcs,
                             CategoriesOf(FiredIn(old(tasksChecked), allTasks[..i], now)), true, now)
        invariant tasks == allTasks && userProfile == old(userProfile) && categoryStats == old(categoryStats)
        invariant reminders == old(reminders) && showConfetti == old(showConfetti)
      {
        var task := allTasks[i];
        ScanStep(old(tasksChecked), allTasks, i, now);
        if !task.isCompleted && !IsSubtask(task) && task.dueDate.Some? {
          var isOverdue := IsOverdue(task, now);
          var wasCheckedBefore := if task.id in tasksChecked then tasksChecked[task.id] else false;
          if isOverdue && !wasCheckedBefore {
            ghost var before := npcRepository.messages;
            npcRepository.GenerateFailureMessage(task.category, now);
            LogExtendsTrans(log0, before, npcRepository.messages, npcRepository.npcs,
                            CategoriesOf(FiredIn(old(tasksChecked), allTasks[..i], now)), [task.category], true, now);
          }
          tasksChecked := tasksChecked[task.id := isOverdue];
        }
        i := i + 1;
      }
      assert allTasks[..i] == allTasks;
      FiredInIsNewlyOverdue(old(tasksChecked), allTasks, now);
      PruneTasksChecked(IncompleteIds(allTasks));
    }

    /**
     * The clean-up loop of `checkOverdueTasks`: drop the entries whose id is
     * not in `validTaskIds`.
     */
    method PruneTasksChecked(validTaskIds: set<string>)
      modifies this
      ensures tasksChecked == Prune(old(tasksChecked), validTaskIds)
      ensures tasks == old(tasks) && userProfile == old(userProfile) && categoryStats == old(categoryStats)
      ensures reminders == old(reminders) && showConfetti == old(showConfetti)
    {
      var scanned := tasksChecked;
      var remaining := scanned.Keys;
      while remaining != {}
        invariant remaining <= scanned.Keys
        invariant forall id :: id in tasksChecked <==> id in scanned && (id in validTaskIds || id in remaining)
        invariant forall id :: id in tasksChecked ==> tasksChecked[id] == scanned[id]
        invariant tasks == old(tasks) && userProfile == old(userProfile) && categoryStats == old(categoryStats)
        invariant reminders == old(reminders) && showConfetti == old(showConfetti)
        decreases remaining
      {
        var taskId :| taskId in remaining;
        if taskId !in validTaskIds {
          tasksChecked := tasksChecked - {taskId};
        }
        remaining := remaining - {taskId};
      }
      assert tasksChecked == Prune(scanned, validTaskIds);
    }
  }
}
