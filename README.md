# PDA: the progression and task-store engine, in Dafny

PDA is an Android to-do application with a game layer. Each task has a
difficulty and one of six categories. Completing a task earns XP, which
raises the player's overall level, and raises the number of tasks completed
in its category, which sets that category's rank. A cast of NPC characters
sends an in-game message when a task is completed, deleted, or becomes
overdue. This project models the engine under the screens and proves
properties of it:

- `wrappers.dfy` (module `Wrappers`): `Option`, and `Fraction`, a
  numerator and a denominator standing for the program's `Float` results.
- `tasks.dfy` (`Tasks`): the `Task` record and its pure predicates. These
  are the XP reward, the due instant with its 09:00 default, overdue, due
  soon and the subtask tests. Dates are day numbers, times are minutes of
  the day, and a date-time is the minute `day * 1440 + minute`. The clock is
  a parameter `now` on that scale.
- `ranks.dfy` (`Ranks`): the ten category tiers with their task
  thresholds, `calculateCategoryRank`, and the six display tables behind
  `getRankInfo`.
- `progression.dfy` (`Progression`): the user profile record and its
  defaults, and the level curve. `calculateLevel`,
  `calculateXpForNextLevel`, `calculateProgressToNextLevel` and
  `getXpRequirementsForLevels` are methods with the program's loops. Each is
  proved against the functions `Requirement`, `Threshold` and `Level`.
  `calculateProgressToNextRank` is a function.
- `npcs.dfy` (`Npcs`): the characters, the message record, the cast of
  twelve, and the class `NpcRepository`, which holds the message log.
  "Pick a random character and a random line" is a nondeterministic choice
  (`:|`). The contract says which characters and lines can be chosen.
- `store.dfy` (`Store`): the class `TodoViewModel`. Its fields are the task
  list, the profile, the per-category statistics, the overdue watch map
  `tasksChecked` and the confetti flag. It also holds a repository and a log
  of requests to the alarm service. Every operation the screens call on the
  task list is a method stated against pure functions (`ReplaceById`,
  `RemoveWithSubtasks`, `Incomplete`, `AwardXp`, `RemoveXp`,
  `CreditSubtask`, `StatsFor`, `NewlyOverdue`, `AfterCheck`). The lemmas
  next to those functions state what the program promises about them.

The model keeps the program's asymmetries as they are:
- Completing a task awards XP from the store's own table (10/20/30/50).
  Completing a subtask credits the record's table (10/25/50/100).
- `awardXpForTask` adds to the total and leaves the category levels as they
  were. `completeSubtask` recomputes the total as the sum of the category
  XP and recomputes every category level.
- Deleting clamps each counter at 0 separately, so the total can stop being
  the sum of the category XP (`Store.RemoveBreaksTotalIsSum`).
- `completeTask` does not check whether the task is already completed.
- `deleteTask` sends a failure message for a completed task as well.

Two more behaviours of the code are kept as written:
- The loop of `calculateLevel` (UserProfile.kt:22) moves to the next level
  only while the XP strictly exceeds the threshold. So
  `calculateXpForNextLevel(xp)` can equal `xp`, although its name speaks of
  the XP needed for the next level: at 100 XP the level is still 1, and the
  result is 100.
- `calculateProgressToNextLevel` subtracts the XP of the earlier levels
  without a clamp (UserProfile.kt:58), so the progress numerator is negative
  for negative XP.

Task ids are the program's random UUIDs. Operations that create a task take
the id as a parameter and require it to be fresh. Message ids are handed
out in order by the repository. The cast's lines and the rank texts are
written as concatenations of short string literals; the text is unchanged.

## Model

| member | source | states |
|---|---|---|
| Tasks.AllCategoriesListed | app/src/main/java/com/example/myapplication/ui/viewmodel/TodoViewModel.kt:417 | every category is among the values that the per-category loops walk |
| Tasks.DateTimeOf | app/src/main/java/com/example/myapplication/data/models/Task.kt:35 | the instant of a day and a minute gives back that day and that minute |
| Tasks.DateOf | app/src/main/java/com/example/myapplication/data/models/Task.kt:42 | the date of an instant is the day whose minutes contain it |
| Tasks.XpReward | app/src/main/java/com/example/myapplication/data/models/Task.kt:24-31 | the reward lies in 10..100, and it is 10 exactly for easy tasks |
| Tasks.XpRewardTable | app/src/main/java/com/example/myapplication/data/models/Task.kt:24-31 | easy, medium, hard and nightmare give 10, 25, 50 and 100 |
| Tasks.DueDateTime | app/src/main/java/com/example/myapplication/data/models/Task.kt:33-39 | absent exactly when there is no due date; otherwise on the due date, at the due time or at 09:00 |
| Tasks.IsOverdue | app/src/main/java/com/example/myapplication/data/models/Task.kt:41-52 | an overdue task is incomplete and has a due date |
| Tasks.IsDueSoon | app/src/main/java/com/example/myapplication/data/models/Task.kt:54-71 | a task due soon is incomplete and has a due date |
| Tasks.CompletedIsNeither | app/src/main/java/com/example/myapplication/data/models/Task.kt:45-55 | a completed task is neither overdue nor due soon, at any clock |
| Tasks.UndatedIsNeither | app/src/main/java/com/example/myapplication/data/models/Task.kt:45-55 | a task without a due date is neither overdue nor due soon |
| Tasks.DateOnlyOverdue | app/src/main/java/com/example/myapplication/data/models/Task.kt:49-51 | with a date and no time: overdue iff incomplete and today is strictly after the date |
| Tasks.DefaultTimeNotUsedForOverdue | app/src/main/java/com/example/myapplication/data/models/Task.kt:33-51 | at 10:00 on the due day, a date-only task is past its 09:00 due instant and still not overdue |
| Tasks.TimedOverdue | app/src/main/java/com/example/myapplication/data/models/Task.kt:45-47 | with a date and a time: overdue iff incomplete and the clock is strictly after the due instant |
| Tasks.TimedDueSoon | app/src/main/java/com/example/myapplication/data/models/Task.kt:60-66 | with a date and a time: due soon iff now < due < now + 1 day |
| Tasks.DateOnlyDueSoon | app/src/main/java/com/example/myapplication/data/models/Task.kt:67-70 | with a date and no time: due soon iff incomplete and the date is today or tomorrow, for the whole of the due day |
| Tasks.OverdueExcludesDueSoon | app/src/main/java/com/example/myapplication/data/models/Task.kt:41-71 | no task is both overdue and due soon at the same clock |
| Tasks.SubtaskTests | app/src/main/java/com/example/myapplication/data/models/Task.kt:73-79 | a subtask iff it has a parent id; has subtasks iff its list is non-empty |
| Ranks.CategoryRankLevel.Ordinal | app/src/main/java/com/example/myapplication/data/models/CategoryRank.kt:4-15 | the ordinal indexes `values()` at the tier itself |
| Ranks.NextRank | app/src/main/java/com/example/myapplication/data/models/UserProfile.kt:73-79 | the tier after a non-top tier has the next ordinal |
| Ranks.LastMet | app/src/main/java/com/example/myapplication/data/models/CategoryRank.kt:23 | `lastOrNull`: the found tier is met and no later tier is; none found means no tier is met |
| Ranks.CalculateCategoryRank | app/src/main/java/com/example/myapplication/data/models/CategoryRank.kt:22-25 | below 25, including negatives, the rank is LEVEL_1; for n >= 0 the threshold is <= n; below the top, n is under the next threshold |
| Ranks.ThresholdsStrictlyIncreasing | app/src/main/java/com/example/myapplication/data/models/CategoryRank.kt:4-15 | the tier thresholds strictly increase along the tiers |
| Ranks.ThresholdTable | app/src/main/java/com/example/myapplication/data/models/CategoryRank.kt:4-15 | the thresholds are 0, 25, 75, 175, 375, 775, 1575, 3175, 6375 and 12775 |
| Ranks.FirstBoundary | app/src/main/java/com/example/myapplication/data/models/CategoryRank.kt:22-25 | 0 and 24 give LEVEL_1; 25 gives LEVEL_2 |
| Ranks.RankMonotone | app/src/main/java/com/example/myapplication/data/models/CategoryRank.kt:22-25 | more completed tasks never give a lower tier |
| Ranks.WorkCovers | app/src/main/java/com/example/myapplication/data/models/CategoryRank.kt:28-39 | the work table has a non-fallback entry for every tier |
| Ranks.StudyCovers | app/src/main/java/com/example/myapplication/data/models/CategoryRank.kt:41-52 | the study table has a non-fallback entry for every tier |
| Ranks.HealthCovers | app/src/main/java/com/example/myapplication/data/models/CategoryRank.kt:54-65 | the health table has a non-fallback entry for every tier |
| Ranks.PersonalCovers | app/src/main/java/com/example/myapplication/data/models/CategoryRank.kt:67-78 | the personal table has a non-fallback entry for every tier |
| Ranks.ShoppingCovers | app/src/main/java/com/example/myapplication/data/models/CategoryRank.kt:80-91 | the shopping table has a non-fallback entry for every tier |
| Ranks.OtherCovers | app/src/main/java/com/example/myapplication/data/models/CategoryRank.kt:93-104 | the other table has a non-fallback entry for every tier |
| Ranks.WorkEntry | app/src/main/java/com/example/myapplication/data/models/CategoryRank.kt:28-39 | for the work category, the selected table has a non-fallback entry for every tier |
| Ranks.StudyEntry | app/src/main/java/com/example/myapplication/data/models/CategoryRank.kt:41-52 | for the study category, the selected table has a non-fallback entry for every tier |
| Ranks.HealthEntry | app/src/main/java/com/example/myapplication/data/models/CategoryRank.kt:54-65 | for the health category, the selected table has a non-fallback entry for every tier |
| Ranks.PersonalEntry | app/src/main/java/com/example/myapplication/data/models/CategoryRank.kt:67-78 | for the personal category, the selected table has a non-fallback entry for every tier |
| Ranks.ShoppingEntry | app/src/main/java/com/example/myapplication/data/models/CategoryRank.kt:80-91 | for the shopping category, the selected table has a non-fallback entry for every tier |
| Ranks.OtherEntry | app/src/main/java/com/example/myapplication/data/models/CategoryRank.kt:93-104 | for the other category, the selected table has a non-fallback entry for every tier |
| Ranks.TablesCoverAllTiers | app/src/main/java/com/example/myapplication/data/models/CategoryRank.kt:106-117 | whatever the category and tier, the selected table has an entry, and it is not "Unknown Rank" |
| Ranks.GetRankInfo | app/src/main/java/com/example/myapplication/data/models/CategoryRank.kt:106-117 | the result is the category table's entry for the computed tier; the fallback is never returned |
| Progression.Requirement | app/src/main/java/com/example/myapplication/data/models/UserProfile.kt:19-25 | each level asks at least 100 XP |
| Progression.Threshold | app/src/main/java/com/example/myapplication/data/models/UserProfile.kt:20-26 | completing n levels takes at least 100 * n XP |
| Progression.ThresholdStrictlyIncreasing | app/src/main/java/com/example/myapplication/data/models/UserProfile.kt:22-26 | the cumulative thresholds strictly increase |
| Progression.ThresholdMonotone | app/src/main/java/com/example/myapplication/data/models/UserProfile.kt:22-26 | the cumulative thresholds never decrease |
| Progression.ThresholdStep | app/src/main/java/com/example/myapplication/data/models/UserProfile.kt:22-26 | each level asks at least one XP: the threshold of level l + 1 exceeds that of level l |
| Progression.LevelFrom | app/src/main/java/com/example/myapplication/data/models/UserProfile.kt:22-26 | the search terminates at a level whose bracket holds the XP |
| Progression.Level | app/src/main/java/com/example/myapplication/data/models/UserProfile.kt:15-29 | level >= 1; 1 for xp <= 0; for xp > 0, Threshold(L-1) < xp <= Threshold(L) |
| Progression.LevelUnique | app/src/main/java/com/example/myapplication/data/models/UserProfile.kt:15-29 | that bracket determines the level: any L whose bracket holds xp is the level |
| Progression.LevelMonotone | app/src/main/java/com/example/myapplication/data/models/UserProfile.kt:15-29 | more XP never gives a lower level |
| Progression.LevelAtThreshold | app/src/main/java/com/example/myapplication/data/models/UserProfile.kt:22 | at a level's threshold the level is unchanged; one XP more gives the next level |
| Progression.LevelAtOwnThreshold | app/src/main/java/com/example/myapplication/data/models/UserProfile.kt:22 | at the threshold of level L the level is still L |
| Progression.LevelPastThreshold | app/src/main/java/com/example/myapplication/data/models/UserProfile.kt:22 | one XP past the threshold of level L gives level L + 1 |
| Progression.CalculateLevel | app/src/main/java/com/example/myapplication/data/models/UserProfile.kt:15-29 | the while loop computes Level(xp), so it is >= 1 and is 1 for xp <= 0 |
| Progression.CalculateXpForNextLevel | app/src/main/java/com/example/myapplication/data/models/UserProfile.kt:32-44 | the result is the threshold of the current level: >= xp, with the same level, and one more XP reaches the next level |
| Progression.CalculateProgressToNextLevel | app/src/main/java/com/example/myapplication/data/models/UserProfile.kt:46-61 | the denominator is the level's requirement; for xp >= 1 the numerator lies in 1..den; for xp <= 0 the result is xp/100 |
| Progression.ProgressToNextRank | app/src/main/java/com/example/myapplication/data/models/UserProfile.kt:71-86 | 1 at LEVEL_10; otherwise the tasks done within the tier over the tier's span, the numerator in [0, den) for a non-negative count |
| Progression.XpRequirementsForLevels | app/src/main/java/com/example/myapplication/data/models/UserProfile.kt:89-103 | keys 1..10; level 1 at 0 and level L at Threshold(L-1); strictly increasing; each total still has level L-1 and one XP more has level L |
| Progression.RequirementTableOrdered | app/src/main/java/com/example/myapplication/data/models/UserProfile.kt:89-103 | a table of thresholds is strictly increasing and each entry starts its level |
| Progression.AssociateAll | app/src/main/java/com/example/myapplication/data/models/UserProfile.kt:6-8 | `associateWith`: every category maps to the given value |
| Progression.DefaultProfile | app/src/main/java/com/example/myapplication/data/models/UserProfile.kt:3-12 | total 0 at level 1; every category has level 1, XP 0 and count 0; default theme, no streak, no last date |
| Npcs.CategoryNpcs | app/src/main/java/com/example/myapplication/data/repository/NpcRepository.kt:27 | the filter holds exactly the characters of the category, and no more than the whole cast |
| Npcs.RosterSpeaks | app/src/main/java/com/example/myapplication/data/repository/NpcRepository.kt:96-318 | every character of the cast has non-empty completion and failure lines |
| Npcs.PrimaryInRoster | app/src/main/java/com/example/myapplication/data/repository/NpcRepository.kt:96-318 | every category's primary character is in the cast, is marked primary and can speak |
| Npcs.RosterCoversCategories | app/src/main/java/com/example/myapplication/data/repository/NpcRepository.kt:27-28 | every category has a character, so the early return of the generate calls never fires |
| Npcs.LogExtendsNone | app/src/main/java/com/example/myapplication/data/repository/NpcRepository.kt:28 | a call that appends nothing leaves the log extended by an empty list of categories |
| Npcs.LogExtendsTrans | app/src/main/java/com/example/myapplication/data/repository/NpcRepository.kt:47 | appending one batch of messages after another is one extension by both lists, in order |
| Npcs.MarkRead | app/src/main/java/com/example/myapplication/data/repository/NpcRepository.kt:79-83 | same length and order; a message is read afterwards iff it was read or has the id; only the flag changes |
| Npcs.MarkAllRead | app/src/main/java/com/example/myapplication/data/repository/NpcRepository.kt:86-88 | same length and order; every message is read and only the flag changes |
| Npcs.UnreadCount | app/src/main/java/com/example/myapplication/data/repository/NpcRepository.kt:91-93 | the count is at most the number of messages |
| Npcs.NoneUnread | app/src/main/java/com/example/myapplication/data/repository/NpcRepository.kt:91-93 | the count is 0 iff every message has been read |
| Npcs.UnreadCountAppend | app/src/main/java/com/example/myapplication/data/repository/NpcRepository.kt:47 | appending a message raises the count by one exactly when that message is unread |
| Npcs.MarkAllReadClears | app/src/main/java/com/example/myapplication/data/repository/NpcRepository.kt:86-93 | after marking all as read the count is 0, and marking again changes nothing |
| Npcs.MarkReadNeverRaises | app/src/main/java/com/example/myapplication/data/repository/NpcRepository.kt:79-93 | marking one id never raises the unread count |
| Npcs.MarkReadUnique | app/src/main/java/com/example/myapplication/data/repository/NpcRepository.kt:79-93 | marking the id of an unread message whose id no other message carries lowers the count by exactly one |
| Npcs.MarkReadLeaves | app/src/main/java/com/example/myapplication/data/repository/NpcRepository.kt:79-83 | marking an id that no message carries changes nothing |
| Npcs.NpcRepository.constructor | app/src/main/java/com/example/myapplication/data/repository/NpcRepository.kt:16-23 | the cast is the twelve characters and the log is empty |
| Npcs.NpcRepository.Generate | app/src/main/java/com/example/myapplication/data/repository/NpcRepository.kt:26-76 | with no character in the category nothing changes; otherwise exactly one unread message is appended, earlier ones kept, spoken by a character of the category with a line from the outcome's list |
| Npcs.NpcRepository.GenerateCompletionMessage | app/src/main/java/com/example/myapplication/data/repository/NpcRepository.kt:26-48 | appends one unread, non-failure message of the category from a completion line; unread count +1 |
| Npcs.NpcRepository.GenerateFailureMessage | app/src/main/java/com/example/myapplication/data/repository/NpcRepository.kt:51-76 | appends one unread failure message of the category from a failure line; unread count +1 |
| Npcs.NpcRepository.MarkMessageAsRead | app/src/main/java/com/example/myapplication/data/repository/NpcRepository.kt:79-83 | the log becomes MarkRead of the old log; the count never rises, and falls by one when that message was unread |
| Npcs.NpcRepository.MarkAllMessagesAsRead | app/src/main/java/com/example/myapplication/data/repository/NpcRepository.kt:86-88 | the log becomes MarkAllRead of the old log, and the unread count is 0 |
| Npcs.NpcRepository.GetUnreadMessageCount | app/src/main/java/com/example/myapplication/data/repository/NpcRepository.kt:91-93 | at most the log's length, and 0 iff every message is read |
| Store.XpForTask | app/src/main/java/com/example/myapplication/ui/viewmodel/TodoViewModel.kt:609-616 | the store's XP lies in 10..50 and never exceeds the record's reward; they agree exactly on easy tasks |
| Store.XpTables | app/src/main/java/com/example/myapplication/ui/viewmodel/TodoViewModel.kt:609-616 | the two tables side by side: 10/10, 20/25, 30/50, 50/100 |
| Store.SumXpUpdate | app/src/main/java/com/example/myapplication/ui/viewmodel/TodoViewModel.kt:334 | changing one category's XP changes the sum by the difference |
| Store.AtLeastZero | app/src/main/java/com/example/myapplication/ui/viewmodel/TodoViewModel.kt:587 | `coerceAtLeast(0)`: the input itself when non-negative, and 0 when negative |
| Store.AwardXp | app/src/main/java/com/example/myapplication/ui/viewmodel/TodoViewModel.kt:555-579 | total and category XP go up by the store's XP, and the category count by 1; the level follows the total; other categories, category levels and all other fields are unchanged |
| Store.RemoveXp | app/src/main/java/com/example/myapplication/ui/viewmodel/TodoViewModel.kt:582-606 | the same three quantities go down, each clamped at 0; the level follows the total; nothing else changes |
| Store.RemoveUndoesAward | app/src/main/java/com/example/myapplication/ui/viewmodel/TodoViewModel.kt:555-606 | on a consistent profile with the category's keys present, deleting a completed task takes back exactly what completing it gave |
| Store.ClampedRemoveNotUndone | app/src/main/java/com/example/myapplication/ui/viewmodel/TodoViewModel.kt:582-606 | when the total is below the task's XP, removing and then awarding again leaves exactly the task's XP, more than before |
| Store.CreditSubtask | app/src/main/java/com/example/myapplication/ui/viewmodel/TodoViewModel.kt:316-347 | the record's XP goes to the category and the count goes up by 1; total = sum of the category XP; level and every category level are recomputed; nothing else changes |
| Store.AwardKeepsTotalIsSum | app/src/main/java/com/example/myapplication/ui/viewmodel/TodoViewModel.kt:558-577 | awarding keeps the total equal to the sum of the category XP |
| Store.CreditRestoresAgreement | app/src/main/java/com/example/myapplication/ui/viewmodel/TodoViewModel.kt:333-338 | after a subtask credit, the total and every category level agree with the category XP |
| Store.RemoveBreaksTotalIsSum | app/src/main/java/com/example/myapplication/ui/viewmodel/TodoViewModel.kt:585-604 | with work 5 and study 25 XP, deleting a completed medium work task breaks total = sum |
| Store.AwardLeavesLevelsStale | app/src/main/java/com/example/myapplication/ui/viewmodel/TodoViewModel.kt:572-577 | 90 work XP plus a nightmare work task gives 140 XP, which is level 2, while the recorded work level stays 1 |
| Store.LevelsAgreeDefaultWork | app/src/main/java/com/example/myapplication/ui/viewmodel/TodoViewModel.kt:338 | a default profile with at most 100 work XP has every category level in agreement |
| Store.UniqueIdsSnoc | app/src/main/java/com/example/myapplication/data/models/Task.kt:10 | appending a task with a fresh id keeps the ids unique |
| Store.LastIdFresh | app/src/main/java/com/example/myapplication/data/models/Task.kt:10 | with unique ids, the last task's id is not among the earlier ones |
| Store.IdsSubset | app/src/main/java/com/example/myapplication/ui/viewmodel/TodoViewModel.kt:373 | a sublist's ids are among the list's ids |
| Store.FindById | app/src/main/java/com/example/myapplication/ui/viewmodel/TodoViewModel.kt:215 | `find`: none iff no task has the id; otherwise the first listed task with that id |
| Store.FindByIdUnique | app/src/main/java/com/example/myapplication/ui/viewmodel/TodoViewModel.kt:215 | with unique ids, the task found is the one at the index that holds the id |
| Store.ReplaceById | app/src/main/java/com/example/myapplication/ui/viewmodel/TodoViewModel.kt:265-269 | `map`: same length; each task with the id is replaced and the others are kept in place |
| Store.ReplaceByIdKeepsIds | app/src/main/java/com/example/myapplication/ui/viewmodel/TodoViewModel.kt:265-269 | a replacement with the same id changes no id and keeps the ids unique |
| Store.ReplaceByIdUnique | app/src/main/java/com/example/myapplication/ui/viewmodel/TodoViewModel.kt:234-236 | with unique ids, replacing by the id at index j updates only index j |
| Store.ReplaceByIdSnoc | app/src/main/java/com/example/myapplication/ui/viewmodel/TodoViewModel.kt:225-236 | replacing by an id the appended task does not carry commutes with the append |
| Store.RemoveWithSubtasks | app/src/main/java/com/example/myapplication/ui/viewmodel/TodoViewModel.kt:372-376 | the filter keeps exactly the tasks that are neither the task nor one of its subtasks |
| Store.RemoveWithSubtasksAppend | app/src/main/java/com/example/myapplication/ui/viewmodel/TodoViewModel.kt:372-376 | the filter keeps order: filtering a concatenation filters each part |
| Store.RemoveWithSubtasksIdle | app/src/main/java/com/example/myapplication/ui/viewmodel/TodoViewModel.kt:372-376 | a list with nothing to remove is left as it is |
| Store.RemoveWithSubtasksUnique | app/src/main/java/com/example/myapplication/ui/viewmodel/TodoViewModel.kt:372-376 | removing keeps the ids unique |
| Store.Incomplete | app/src/main/java/com/example/myapplication/ui/viewmodel/TodoViewModel.kt:388-390 | the filter keeps exactly the incomplete tasks |
| Store.IncompleteSnoc | app/src/main/java/com/example/myapplication/ui/viewmodel/TodoViewModel.kt:388-390 | a task appended at the end is kept at the end exactly when it is incomplete |
| Store.IncompleteAppend | app/src/main/java/com/example/myapplication/ui/viewmodel/TodoViewModel.kt:388-390 | the filter keeps order: filtering a concatenation filters each part |
| Store.IncompleteIdle | app/src/main/java/com/example/myapplication/ui/viewmodel/TodoViewModel.kt:388-390 | a list with no completed task is left as it is |
| Store.Completed | app/src/main/java/com/example/myapplication/ui/viewmodel/TodoViewModel.kt:386 | the filter keeps exactly the completed tasks |
| Store.CompletedPartition | app/src/main/java/com/example/myapplication/ui/viewmodel/TodoViewModel.kt:386-390 | the kept and the cleared tasks together account for every task |
| Store.IncompleteUnique | app/src/main/java/com/example/myapplication/ui/viewmodel/TodoViewModel.kt:388-390 | keeping the incomplete tasks keeps the ids unique |
| Store.CancelsFor | app/src/main/java/com/example/myapplication/ui/viewmodel/TodoViewModel.kt:396-400 | a cancel request for exactly the tasks that have a reminder |
| Store.CancelsForStep | app/src/main/java/com/example/myapplication/ui/viewmodel/TodoViewModel.kt:396-400 | one more task of the loop adds its cancel request, if it has a reminder |
| Store.CancelReminders | app/src/main/java/com/example/myapplication/ui/viewmodel/TodoViewModel.kt:396-400 | the `forEach` loop gives exactly CancelsFor of the removed tasks, in list order |
| Store.ScheduleFor | app/src/main/java/com/example/myapplication/ui/viewmodel/TodoViewModel.kt:177-194 | one schedule request iff the task has a reminder, a due date and a due instant strictly after now, otherwise none |
| Store.CountIn | app/src/main/java/com/example/myapplication/ui/viewmodel/TodoViewModel.kt:418-420 | a category's count is at most the number of tasks |
| Store.CompletedIn | app/src/main/java/com/example/myapplication/ui/viewmodel/TodoViewModel.kt:419 | a category's completed count is at most its count |
| Store.StatsFor | app/src/main/java/com/example/myapplication/ui/viewmodel/TodoViewModel.kt:417-427 | 0 <= completed <= total; the rate is completed/total, in [0, 1], and 0 for an empty category |
| Store.CountsPartition | app/src/main/java/com/example/myapplication/ui/viewmodel/TodoViewModel.kt:412-420 | the six category counts add up to the number of tasks |
| Store.ScanStep | app/src/main/java/com/example/myapplication/ui/viewmodel/TodoViewModel.kt:624-649 | one more step of the first loop updates the watch map and the list of fired categories as the body does |
| Store.NewlyOverdue | app/src/main/java/com/example/myapplication/ui/viewmodel/TodoViewModel.kt:624-645 | exactly the listed tasks that are incomplete, top-level, dated, overdue now and not marked overdue before; none if no task fires |
| Store.NewlyOverdueAppend | app/src/main/java/com/example/myapplication/ui/viewmodel/TodoViewModel.kt:624-645 | the newly overdue tasks keep list order: those of a concatenation are those of each part |
| Store.AfterCheck | app/src/main/java/com/example/myapplication/ui/viewmodel/TodoViewModel.kt:619-659 | after a check, every key of the watch map is the id of an incomplete task |
| Store.ScanOther | app/src/main/java/com/example/myapplication/ui/viewmodel/TodoViewModel.kt:624-649 | the scan leaves the entries of ids outside the list alone |
| Store.ScanHit | app/src/main/java/com/example/myapplication/ui/viewmodel/TodoViewModel.kt:647-648 | with unique ids, the scan records for each watched task whether it is overdue now |
| Store.FiredInIsNewlyOverdue | app/src/main/java/com/example/myapplication/ui/viewmodel/TodoViewModel.kt:624-645 | with unique ids, the loop fires for exactly the tasks that fire against the map as it was before |
| Store.SecondCheckQuiet | app/src/main/java/com/example/myapplication/ui/viewmodel/TodoViewModel.kt:619-659 | a second check at the same clock generates no message |
| Store.TodoViewModel.constructor | app/src/main/java/com/example/myapplication/ui/viewmodel/TodoViewModel.kt:34-79 | no tasks, the default profile, empty statistics for every category, an empty watch map and an empty log |
| Store.TodoViewModel.UpdateCategoryStats | app/src/main/java/com/example/myapplication/ui/viewmodel/TodoViewModel.kt:411-432 | every category's entry is recomputed from the task list; nothing else changes |
| Store.TodoViewModel.AddTask | app/src/main/java/com/example/myapplication/ui/viewmodel/TodoViewModel.kt:153-207 | the new task is appended after the old ones; a schedule request is made exactly as ScheduleFor says; the statistics follow |
| Store.TodoViewModel.AddSubtask | app/src/main/java/com/example/myapplication/ui/viewmodel/TodoViewModel.kt:209-243 | an unknown parent changes nothing; otherwise the parent gains the new id and the subtask, in the parent's category with the parent's id, is appended |
| Store.TodoViewModel.CompleteTask | app/src/main/java/com/example/myapplication/ui/viewmodel/TodoViewModel.kt:257-293 | the task is marked completed at now; a top-level task gets one completion message, stamped now, and AwardXp; a subtask gets neither; confetti is on |
| Store.TodoViewModel.CompleteSubtask | app/src/main/java/com/example/myapplication/ui/viewmodel/TodoViewModel.kt:296-351 | ignores a completed task or a top-level task; otherwise it marks the task completed and applies CreditSubtask |
| Store.TodoViewModel.DeleteTask | app/src/main/java/com/example/myapplication/ui/viewmodel/TodoViewModel.kt:353-383 | removes the task and its subtasks; RemoveXp for a completed top-level task; one failure message, stamped now, iff the task is top-level and not overdue now |
| Store.TodoViewModel.DeleteAllCompletedTasks | app/src/main/java/com/example/myapplication/ui/viewmodel/TodoViewModel.kt:385-404 | exactly the incomplete tasks remain, in order; a cancel request for each removed task with a reminder; the profile is unchanged |
| Store.TodoViewModel.CheckOverdueTasks | app/src/main/java/com/example/myapplication/ui/viewmodel/TodoViewModel.kt:619-659 | one failure message, stamped now, per newly overdue task, in list order; then the watch map is AfterCheck of the old map |
| Store.TodoViewModel.PruneTasksChecked | app/src/main/java/com/example/myapplication/ui/viewmodel/TodoViewModel.kt:652-658 | the clean-up loop leaves Prune of the watch map and changes nothing else |

## Left out

- `initialize` (TodoViewModel.kt:82-115) is left out. It needs Android contexts, the notification and alarm services, and `TaskStorage`. Loading saved tasks is I/O. Its sample message per category is the same call as `GenerateCompletionMessage`.
- Persistence is left out. `saveTasks` and `TaskStorage` do Gson and SharedPreferences I/O, and TaskStorage.kt is not part of this model.
- The alarm service is not called. `AddTask` and `DeleteAllCompletedTasks` append `Schedule` and `Cancel` requests to the log `reminders` instead, and the alarm scheduler's internals are not modelled. The `try`/`catch` around scheduling only logs, and is not modelled.
- The coroutine timers are left out: turning the confetti off after 3 seconds, `showConfetti()`, and `highlightTask`. `CompleteTask` only sets the flag.
- The `init` block's `checkOverdueTasks()` launch is left out. It would run on an empty task list and an empty watch map, where the check does nothing.
- Sound playback, logging, the test notification calls, `generateDebugFailureMessage`, `updateTheme`, `setConfettiPosition`, the contacts-screen flag and the subtask dialog state are left out. They are UI or debugging state with no bearing on the engine.
- The view model's `getUnreadMessageCount`, `markMessageAsRead` and `markAllMessagesAsRead` (TodoViewModel.kt:540-552) are left out as members of their own. Each is a one-line delegation to the repository member modelled above.
- `getCategoryRankInfo` and `getCategoryRankLevel` (UserProfile.kt:63-69) are aliases of `GetRankInfo` and `CalculateCategoryRank`, so they are not separate members.
- 32-bit `Int` overflow is not modelled: all integers are unbounded.
- Time zones and the millisecond clock are not modelled. Timestamps (`createdAt`, `completedAt`, a message's `timestamp`) are minutes on the model's clock.
- Progression.NextRequirement: the step is the integer `r * 6 / 5`, not the program's double-precision `(r * 1.2).toInt()`.
- Fractions are not divided: `completionRate` and the two progress results are numerator/denominator pairs, not `Float`s.
- Npcs.NpcMessage: the message id is a number the repository hands out in order, not a random UUID string. Uniqueness is the only property of the id that the operations depend on.
- Store.TodoViewModel.AddTask and Store.TodoViewModel.AddSubtask take the new task's id as a parameter that must be fresh, in place of the program's random UUID.
- The `StateFlow` wrappers and their observers are not modelled. Each field is a plain field that the methods reassign.
