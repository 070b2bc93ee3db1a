/**
 * The user profile and the progression curves: overall level from total XP,
 * and the progress fractions towards the next level and the next rank.
 *
 * Level `L` asks `Requirement(L - 1)` XP, 100 for level 1 and 20% more (rounded
 * down) for every level after it; `Threshold(n)` sums the first `n`
 * requirements. The program computes the 20% step as `(r * 1.2).toInt()` in
 * double precision; here it is the integer `r * 6 / 5`.
 */
module Progression {
  import opened Wrappers
  import opened Tasks
  import opened Ranks

  const BaseRequirement: int := 100

  /** `(r * 1.2).toInt()` in integers. */
  function NextRequirement(r: int): int {
    r * 6 / 5
  }

  /** The XP that level `i + 1` asks before the next level is reached. */
  function Requirement(i: nat): (r: int)
    ensures r >= BaseRequirement
  {
    if i == 0 then BaseRequirement else NextRequirement(Requirement(i - 1))
  }

  /** The XP needed to complete the first `n` levels. */
  function Threshold(n: nat): (t: int)
    ensures t >= 100 * n
  {
    if n == 0 then 0 else Threshold(n - 1) + Requirement(n - 1)
  }

  lemma {:induction false} ThresholdStrictlyIncreasing(i: nat, j: nat)
    requires i < j
    ensures Threshold(i) < Threshold(j)
  {
    if i < j - 1 {
      ThresholdStrictlyIncreasing(i, j - 1);
    }
  }

  /**
   * The search of `calculateLevel` from `level`, with the cumulative XP of the
   * levels below it and the XP `level` asks.
   */
  function LevelFrom(xp: int, level: nat, totalXpRequired: int, xpRequired: int): (r: nat)
    requires level >= 1 && totalXpRequired == Threshold(level - 1) && xpRequired == Requirement(level - 1)
    requires totalXpRequired < xp
    ensures r >= level && Threshold(r - 1) < xp <= Threshold(r)
    decreases xp - totalXpRequired
  {
    if xp > totalXpRequired + xpRequired then
      LevelFrom(xp, level + 1, totalXpRequired + xpRequired, NextRequirement(xpRequired))
    else
      level
  }

  /**
   * The overall level of `xp`: 1 up to `Threshold(1)`, and for positive `xp`
   * the level `L` with `Threshold(L - 1) < xp <= Threshold(L)`. Reaching a
   * threshold exactly does not yet give the next level.
   */
  function Level(xp: int): (l: nat)
    ensures l >= 1
    ensures xp <= 0 ==> l == 1
    ensures xp > 0 ==> Threshold(l - 1) < xp <= Threshold(l)
  {
    if xp <= 0 then 1 else LevelFrom(xp, 1, 0, BaseRequirement)
  }

  /** The bracket `Threshold(L - 1) < xp <= Threshold(L)` determines the level. */
  lemma LevelUnique(xp: int, l: nat)
    requires l >= 1 && Threshold(l - 1) < xp <= Threshold(l)
    ensures Level(xp) == l
  {
    var k := Level(xp);
    if k < l {
      ThresholdMonotone(k, l - 1);
    } else if k > l {
      ThresholdMonotone(l, k - 1);
    }
  }

  lemma ThresholdMonotone(i: nat, j: nat)
    requires i <= j
    ensures Threshold(i) <= Threshold(j)
  {
    if i < j {
      ThresholdStrictlyIncreasing(i, j);
    }
  }

  /** More XP never gives a lower level. */
  lemma LevelMonotone(x: int, y: int)
    requires x <= y
    ensures Level(x) <= Level(y)
  {
    if x > 0 && Level(y) < Level(x) {
      ThresholdMonotone(Level(y), Level(x) - 1);
    }
  }

  /** Each level asks at least one XP. */
  lemma ThresholdStep(l: nat)
    ensures Threshold(l) + 1 <= Threshold(l + 1)
  {
  }

  /**
   * At the threshold `t` of level `l` the level is still `l`; one XP more
   * gives level `l + 1`.
   */
  lemma LevelAtThreshold(l: nat, t: int)
    requires l >= 1 && t == Threshold(l)
    ensures Level(t) == l
    ensures Level(t + 1) == l + 1
  {
    LevelAtOwnThreshold(l, t);
    LevelPastThreshold(l, t);
  }

  lemma LevelAtOwnThreshold(l: nat, t: int)
    requires l >= 1 && t == Threshold(l)
    ensures Level(t) == l
  {
    ThresholdStrictlyIncreasing(l - 1, l);
    LevelUnique(t, l);
  }

  lemma LevelPastThreshold(l: nat, t: int)
    requires l >= 1 && t == Threshold(l)
    ensures Level(t + 1) == l + 1
  {
    ThresholdStep(l);
    LevelUnique(t + 1, l + 1);
  }

  /** `calculateLevel`: the loop of the program, proved to compute `Level`. */
  method CalculateLevel(xp: int) returns (level: int)
    ensures level == Level(xp)
    ensures level >= 1 && (xp <= 0 ==> level == 1)
  {
    if xp <= 0 {
      return 1;
    }
    level := 1;
    var xpRequired := BaseRequirement;
    var totalXpRequired := 0;
    while xp > totalXpRequired + xpRequired
      invariant level >= 1
      invariant totalXpRequired == Threshold(level - 1)
      invariant xpRequired == Requirement(level - 1)
      invariant totalXpRequired < xp
      decreases xp - totalXpRequired
    {
      totalXpRequired := totalXpRequired + xpRequired;
      level := level + 1;
      xpRequired := NextRequirement(xpRequired);
    }
    LevelUnique(xp, level);
  }

  /**
   * `calculateXpForNextLevel`: the threshold of the current level. It is the
   * largest XP that still has the current level, so it can equal `xp`; one
   * XP more than it gives the next level.
   */
  method CalculateXpForNextLevel(currentXp: int) returns (r: int)
    ensures r == Threshold(Level(currentXp))
    ensures r >= currentXp
    ensures Level(r) == Level(currentXp)
    ensures Level(r + 1) == Level(currentXp) + 1
  {
    var currentLevel := CalculateLevel(currentXp);
    var xpRequired := BaseRequirement;
    var totalXpForCurrentLevel := 0;
    for i := 1 to currentLevel
      invariant totalXpForCurrentLevel == Threshold(i - 1)
      invariant xpRequired == Requirement(i - 1)
    {
      totalXpForCurrentLevel := totalXpForCurrentLevel + xpRequired;
      xpRequired := NextRequirement(xpRequired);
    }
    r := totalXpForCurrentLevel + xpRequired;
    assert r == Threshold(currentLevel);
    LevelAtThreshold(currentLevel, r);
  }

  /** `a / b` as the program guards it: the quotient when `b > 0`, else 1. */
  function GuardedRatio(a: int, b: int): Fraction {
    if b > 0 then Fraction(a, b) else Fraction(1, 1)
  }

  /**
   * `calculateProgressToNextLevel`: the XP earned within the current level
   * over the XP that level asks. For positive XP the numerator lies in
   * `1..den`; it is negative for negative XP.
   */
  method CalculateProgressToNextLevel(currentXp: int) returns (p: Fraction)
    ensures p.den == Requirement(Level(currentXp) - 1) > 0
    ensures p.num == currentXp - Threshold(Level(currentXp) - 1)
    ensures currentXp >= 1 ==> 1 <= p.num <= p.den
    ensures currentXp <= 0 ==> p == Fraction(currentXp, BaseRequirement)
  {
    var currentLevel := CalculateLevel(currentXp);
    var xpForPreviousLevels := 0;
    var xpForCurrentLevel := BaseRequirement;
    for i := 1 to currentLevel
      invariant xpForPreviousLevels == Threshold(i - 1)
      invariant xpForCurrentLevel == Requirement(i - 1)
    {
      xpForPreviousLevels := xpForPreviousLevels + xpForCurrentLevel;
      xpForCurrentLevel := NextRequirement(xpForCurrentLevel);
    }
    var xpProgress := currentXp - xpForPreviousLevels;
    p := GuardedRatio(xpProgress, xpForCurrentLevel);
  }

  /**
   * `calculateProgressToNextRank`: 1 at the top tier; otherwise the tasks done
   * within the tier over the tasks the tier spans, the numerator in
   * `[0, den)` for a non-negative count.
   */
  function ProgressToNextRank(tasksCompleted: int): (p: Fraction)
    ensures CalculateCategoryRank(tasksCompleted) == Level10 ==> p == Fraction(1, 1)
    ensures CalculateCategoryRank(tasksCompleted) != Level10 ==>
              var rank := CalculateCategoryRank(tasksCompleted);
              p.den == NextRank(rank).RequiredTasks() - rank.RequiredTasks() > 0 &&
              p.num == tasksCompleted - rank.RequiredTasks()
    ensures CalculateCategoryRank(tasksCompleted) != Level10 && tasksCompleted >= 0 ==>
              0 <= p.num < p.den
  {
    var currentRank := CalculateCategoryRank(tasksCompleted);
    var nextRankIndex := currentRank.Ordinal() + 1;
    if nextRankIndex >= |RankValues| then
      Fraction(1, 1)
    else
      var nextRank := RankValues[nextRankIndex];
      var tasksNeeded := nextRank.RequiredTasks() - currentRank.RequiredTasks();
      var tasksProgress := tasksCompleted - currentRank.RequiredTasks();
      ThresholdsStrictlyIncreasing(currentRank.Ordinal(), nextRankIndex);
      GuardedRatio(tasksProgress, tasksNeeded)
  }

  /**
   * `getXpRequirementsForLevels`: level 1 at 0 XP and level `L` of `2..10` at
   * `Threshold(L - 1)`, strictly increasing; a total of the table still has
   * the level below, and one XP more has the level itself.
   */
  method XpRequirementsForLevels() returns (result: map<int, int>)
    ensures forall k :: k in result <==> 1 <= k <= 10
    ensures result[1] == 0
    ensures forall level :: 2 <= level <= 10 ==> result[level] == Threshold(level - 1)
    ensures forall a, b :: 1 <= a < b <= 10 ==> result[a] < result[b]
    ensures forall level :: 2 <= level <= 10 ==> StartsLevel(result[level], level)
  {
    result := map[];
    var xpRequired := BaseRequirement;
    var totalXpRequired := 0;
    result := result[1 := 0];
    for level := 2 to 11
      invariant forall k :: k in result <==> 1 <= k < level
      invariant result[1] == 0
      invariant forall l :: 2 <= l < level ==> result[l] == Threshold(l - 1)
      invariant totalXpRequired == Threshold(level - 2)
      invariant xpRequired == Requirement(level - 2)
    {
      totalXpRequired := totalXpRequired + xpRequired;
      result := result[level := totalXpRequired];
      xpRequired := NextRequirement(xpRequired);
    }
    RequirementTableOrdered(result);
  }

  /** A table of thresholds is strictly increasing and each entry starts its level. */
  lemma RequirementTableOrdered(result: map<int, int>)
    requires forall k :: k in result <==> 1 <= k <= 10
    requires result[1] == 0
    requires forall level :: 2 <= level <= 10 ==> result[level] == Threshold(level - 1)
    ensures forall a, b :: 1 <= a < b <= 10 ==> result[a] < result[b]
    ensures forall level :: 2 <= level <= 10 ==> StartsLevel(result[level], level)
  {
    forall a, b | 1 <= a < b <= 10 ensures result[a] < result[b] {
      ThresholdStrictlyIncreasing(a - 1, b - 1);
    }
    forall level | 2 <= level <= 10 ensures StartsLevel(result[level], level) {
      LevelAtThreshold(level - 1, result[level]);
    }
  }

  /** `t` is the last XP of level `l - 1`: one more XP reaches level `l`. */
  ghost predicate StartsLevel(t: int, l: int) {
    Level(t) == l - 1 && Level(t + 1) == l
  }

  /** The visual themes referenced by the program. */
  datatype AppTheme = ZoneExplorer | Pripyat | Radiation

  datatype UserProfile = UserProfile(
    totalXp: int,
    level: int,
    categoryLevels: map<TaskCategory, int>,
    categoryXp: map<TaskCategory, int>,
    categoryTasksCompleted: map<TaskCategory, int>,
    selectedTheme: AppTheme,
    taskStreak: int,
    lastCompletedTaskDate: Option<int>)

  /** `TaskCategory.values().associateWith { v }`. */
  function AssociateAll(v: int): (m: map<TaskCategory, int>)
    ensures forall c: TaskCategory :: c in m && m[c] == v
  {
    forall c: TaskCategory ensures c in AllCategories {
      AllCategoriesListed(c);
    }
    map c | c in AllCategories :: v
  }

  /** Every category has an entry in each of the three category maps. */
  ghost predicate CoversCategories(p: UserProfile) {
    forall c: TaskCategory :: c in p.categoryLevels && c in p.categoryXp && c in p.categoryTasksCompleted
  }

  /** The default `UserProfile()`. */
  function DefaultProfile(): (p: UserProfile)
    ensures p.totalXp == 0 && p.level == 1 && p.level == Level(p.totalXp)
    ensures CoversCategories(p)
    ensures forall c: TaskCategory ::
              p.categoryLevels[c] == 1 && p.categoryXp[c] == 0 && p.categoryTasksCompleted[c] == 0
    ensures p.selectedTheme == ZoneExplorer && p.taskStreak == 0 && p.lastCompletedTaskDate == None
  {
    UserProfile(0, 1, AssociateAll(1), AssociateAll(0), AssociateAll(0), ZoneExplorer, 0, None)
  }
}
