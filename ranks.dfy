/**
 * Category ranks: ten tiers reached by the number of tasks completed in a
 * category, and the display names each category gives its tiers.
 */
module Ranks {
  import opened Wrappers
  import opened Tasks

  datatype CategoryRankLevel =
    | Level1 | Level2 | Level3 | Level4 | Level5
    | Level6 | Level7 | Level8 | Level9 | Level10
  {
    /** The enum's `ordinal`. */
    function Ordinal(): (i: nat)
      ensures i < |RankValues| && RankValues[i] == this
    {
      match this
      case Level1 => 0
      case Level2 => 1
      case Level3 => 2
      case Level4 => 3
      case Level5 => 4
      case Level6 => 5
      case Level7 => 6
      case Level8 => 7
      case Level9 => 8
      case Level10 => 9
    }

    /** The number of completed tasks the tier needs. */
    function RequiredTasks(): int {
      match this
      case Level1 => 0
      case Level2 => 25
      case Level3 => 75
      case Level4 => 175
      case Level5 => 375
      case Level6 => 775
      case Level7 => 1575
      case Level8 => 3175
      case Level9 => 6375
      case Level10 => 12775
    }
  }

  /** `CategoryRankLevel.values()`, in declaration order. */
  const RankValues: seq<CategoryRankLevel> :=
    [Level1, Level2, Level3, Level4, Level5, Level6, Level7, Level8, Level9, Level10]

  /** The tier after `r`. */
  function NextRank(r: CategoryRankLevel): (s: CategoryRankLevel)
    requires r != Level10
    ensures s.Ordinal() == r.Ordinal() + 1
  {
    RankValues[r.Ordinal() + 1]
  }

  /**
   * `values().lastOrNull { n >= it.requiredTasks }` restricted to the first
   * `k` tiers: the index of the last tier among them that `n` meets.
   */
  function LastMet(n: int, k: nat): (r: Option<nat>)
    requires k <= |RankValues|
    ensures r.Some? ==> r.value < k && n >= RankValues[r.value].RequiredTasks()
    ensures r.Some? ==> forall j :: r.value < j < k ==> n < RankValues[j].RequiredTasks()
    ensures r.None? ==> forall j :: 0 <= j < k ==> n < RankValues[j].RequiredTasks()
  {
    if k == 0 then None
    else if n >= RankValues[k - 1].RequiredTasks() then Some(k - 1)
    else LastMet(n, k - 1)
  }

  /** The highest tier whose requirement `n` meets; `Level1` when none is met. */
  function CalculateCategoryRank(n: int): (r: CategoryRankLevel)
    ensures n < 25 ==> r == Level1
    ensures n >= 0 ==> r.RequiredTasks() <= n
    ensures r != Level10 ==> n < NextRank(r).RequiredTasks()
  {
    match LastMet(n, |RankValues|)
    case Some(i) => RankValues[i]
    case None => Level1
  }

  /** The ten requirements, strictly increasing along the tiers. */
  lemma ThresholdsStrictlyIncreasing(i: nat, j: nat)
    requires i < j < |RankValues|
    ensures RankValues[i].RequiredTasks() < RankValues[j].RequiredTasks()
  {
  }

  /** The table itself, as the enum declares it. */
  lemma ThresholdTable()
    ensures seq(|RankValues|, i requires 0 <= i < |RankValues| => RankValues[i].RequiredTasks())
            == [0, 25, 75, 175, 375, 775, 1575, 3175, 6375, 12775]
  {
  }

  /** The boundary between the first two tiers. */
  lemma FirstBoundary()
    ensures CalculateCategoryRank(24) == Level1
    ensures CalculateCategoryRank(25) == Level2
    ensures CalculateCategoryRank(0) == Level1
  {
  }

  /** More completed tasks never give a lower tier. */
  lemma RankMonotone(n: int, m: int)
    requires n <= m
    ensures CalculateCategoryRank(n).Ordinal() <= CalculateCategoryRank(m).Ordinal()
  {
  }

  datatype RankInfo = RankInfo(displayName: string, description: string)

  /** The fallback of `getRankInfo` for a tier missing from a table. */
  const UnknownRank: RankInfo := RankInfo("Unknown Rank", "Mysterious " + "rank of the " + "Metro")

  // The six tables of `CategoryRanks`. Long texts are written as
  // concatenations of short literals; the text is the program's, unchanged.

  function WorkRanks(): map<CategoryRankLevel, RankInfo> {
    map[
      Level1 := RankInfo("Maintenance " + "Novice", "Beginning " + "your journey " + "in the tunnels"),
      Level2 := RankInfo("Station Worker", "Learning the " + "ways of the " + "Metro"),
      Level3 := RankInfo("Tunnel " + "Engineer", "Mastering the " + "underground " + "infrastructure"),
      Level4 := RankInfo("Duty " + "Serviceman", "Keeping the " + "stations " + "running"),
      Level5 := RankInfo("Metro " + "Technician", "Expert in " + "Metro " + "operations"),
      Level6 := RankInfo("Order " + "Specialist", "Respected " + "member of the " + "Order"),
      Level7 := RankInfo("Station " + "Commander", "Leading " + "station " + "operations"),
      Level8 := RankInfo("Faction " + "Lieutenant", "Commanding " + "respect in " + "the Metro"),
      Level9 := RankInfo("Order General", "High-ranking " + "Metro official"),
      Level10 := RankInfo("Polis Council", "Elite member " + "of Metro " + "leadership")]
  }

  function StudyRanks(): map<CategoryRankLevel, RankInfo> {
    map[
      Level1 := RankInfo("Librarian " + "Initiate", "Beginning to " + "learn the old " + "knowledge"),
      Level2 := RankInfo("Archive Seeker", "Collecting " + "pre-war " + "documents"),
      Level3 := RankInfo("Knowledge " + "Hunter", "Exploring " + "forgotten " + "libraries"),
      Level4 := RankInfo("Polis Scholar", "Student of " + "ancient wisdom"),
      Level5 := RankInfo("Artifact " + "Researcher", "Studying " + "anomalous " + "phenomena"),
      Level6 := RankInfo("Science Master", "Expert in " + "Metro sciences"),
      Level7 := RankInfo("Wisdom Keeper", "Guardian of " + "Metro " + "knowledge"),
      Level8 := RankInfo("Research " + "Director", "Leader of " + "scientific " + "expeditions"),
      Level9 := RankInfo("Brahminy Elder", "Master of " + "Metro wisdom"),
      Level10 := RankInfo("Grand " + "Archivist", "Keeper of all " + "Metro " + "knowledge")]
  }

  function HealthRanks(): map<CategoryRankLevel, RankInfo> {
    map[
      Level1 := RankInfo("Field Medic", "Learning to " + "heal in the " + "Metro"),
      Level2 := RankInfo("Station Healer", "Caring for " + "the station " + "folk"),
      Level3 := RankInfo("Tunnel Doctor", "Experienced " + "in Metro " + "medicine"),
      Level4 := RankInfo("Radiation " + "Expert", "Specialist in " + "radiation " + "treatment"),
      Level5 := RankInfo("Medical " + "Officer", "Leading " + "station " + "medical care"),
      Level6 := RankInfo("Health " + "Director", "Managing " + "Metro " + "healthcare"),
      Level7 := RankInfo("Chief Surgeon", "Master of " + "Metro medicine"),
      Level8 := RankInfo("Medical " + "Commander", "Coordinating " + "medical " + "operations"),
      Level9 := RankInfo("Health Council", "Elite medical " + "authority"),
      Level10 := RankInfo("Medical Legend", "Legendary " + "Metro healer")]
  }

  function PersonalRanks(): map<CategoryRankLevel, RankInfo> {
    map[
      Level1 := RankInfo("Metro Dweller", "Living in the " + "underground"),
      Level2 := RankInfo("Station " + "Citizen", "Established " + "Metro resident"),
      Level3 := RankInfo("Tunnel " + "Navigator", "Experienced " + "Metro traveler"),
      Level4 := RankInfo("Metro Scout", "Explorer of " + "dark tunnels"),
      Level5 := RankInfo("Station Elite", "Respected " + "Metro citizen"),
      Level6 := RankInfo("Dark One " + "Friend", "Connected to " + "the Metro's " + "mysteries"),
      Level7 := RankInfo("Metro Ranger", "Guardian of " + "the tunnels"),
      Level8 := RankInfo("Spartan " + "Warrior", "Elite Metro " + "fighter"),
      Level9 := RankInfo("Metro Legend", "Living legend " + "of the tunnels"),
      Level10 := RankInfo("Dark One " + "Chosen", "One with the " + "Metro's spirit")]
  }

  function ShoppingRanks(): map<CategoryRankLevel, RankInfo> {
    map[
      Level1 := RankInfo("Bullet Counter", "Learning " + "Metro's " + "currency"),
      Level2 := RankInfo("Trade Novice", "Beginning " + "trader in " + "stations"),
      Level3 := RankInfo("Station " + "Merchant", "Established " + "local trader"),
      Level4 := RankInfo("Caravan Guard", "Protecting " + "Metro trade"),
      Level5 := RankInfo("Market Dealer", "Skilled " + "station " + "merchant"),
      Level6 := RankInfo("Trade Master", "Expert in " + "Metro commerce"),
      Level7 := RankInfo("Caravan Leader", "Leading trade " + "expeditions"),
      Level8 := RankInfo("Market " + "Commander", "Controlling " + "station " + "markets"),
      Level9 := RankInfo("Trade Baron", "Wealthy Metro " + "merchant"),
      Level10 := RankInfo("Market Council", "Elite " + "economic " + "authority")]
  }

  function OtherRanks(): map<CategoryRankLevel, RankInfo> {
    map[
      Level1 := RankInfo("Zone Rookie", "Fresh arrival " + "to the Zone"),
      Level2 := RankInfo("Stalker", "Beginning " + "Zone explorer"),
      Level3 := RankInfo("Zone Ranger", "Experienced " + "Zone survivor"),
      Level4 := RankInfo("Duty Member", "Protector of " + "the Zone"),
      Level5 := RankInfo("Freedom " + "Fighter", "Champion of " + "the Zone"),
      Level6 := RankInfo("Clear Sky " + "Scout", "Master " + "artifact " + "hunter"),
      Level7 := RankInfo("Spartan Elite", "Elite Zone " + "warrior"),
      Level8 := RankInfo("Zone " + "Pathfinder", "Master of the " + "Zone"),
      Level9 := RankInfo("Zone Expert", "Legend of the " + "Zone"),
      Level10 := RankInfo("Zone Legend", "Living myth " + "of the Zone")]
  }

  /** The table of the category, as the `when` in `getRankInfo` selects it. */
  function RankTable(category: TaskCategory): map<CategoryRankLevel, RankInfo> {
    match category
    case Work => WorkRanks()
    case Study => StudyRanks()
    case Health => HealthRanks()
    case Personal => PersonalRanks()
    case Shopping => ShoppingRanks()
    case Other => OtherRanks()
  }

  /** Every table has an entry for every tier, and none of them is the fallback. */
  lemma TablesCoverAllTiers(category: TaskCategory, level: CategoryRankLevel)
    ensures level in RankTable(category)
    ensures RankTable(category)[level] != UnknownRank
  {
    match category
    case Work => WorkEntry(category, level);
    case Study => StudyEntry(category, level);
    case Health => HealthEntry(category, level);
    case Personal => PersonalEntry(category, level);
    case Shopping => ShoppingEntry(category, level);
    case Other => OtherEntry(category, level);
  }

  // Each table has a non-fallback entry for every tier ...
  lemma WorkCovers(level: CategoryRankLevel) ensures level in WorkRanks() && WorkRanks()[level] != UnknownRank {}
  lemma StudyCovers(level: CategoryRankLevel) ensures level in StudyRanks() && StudyRanks()[level] != UnknownRank {}
  lemma HealthCovers(level: CategoryRankLevel) ensures level in HealthRanks() && HealthRanks()[level] != UnknownRank {}
  lemma PersonalCovers(level: CategoryRankLevel) ensures level in PersonalRanks() && PersonalRanks()[level] != UnknownRank {}
  lemma ShoppingCovers(level: CategoryRankLevel) ensures level in ShoppingRanks() && ShoppingRanks()[level] != UnknownRank {}
  lemma OtherCovers(level: CategoryRankLevel) ensures level in OtherRanks() && OtherRanks()[level] != UnknownRank {}

  // ... and `RankTable` selects that table for its category.
  lemma WorkEntry(category: TaskCategory, level: CategoryRankLevel)
    requires category == Work
    ensures level in RankTable(category) && RankTable(category)[level] != UnknownRank
  { WorkCovers(level); }
  lemma StudyEntry(category: TaskCategory, level: CategoryRankLevel)
    requires category == Study
    ensures level in RankTable(category) && RankTable(category)[level] != UnknownRank
  { StudyCovers(level); }
  lemma HealthEntry(category: TaskCategory, level: CategoryRankLevel)
    requires category == Health
    ensures level in RankTable(category) && RankTable(category)[level] != UnknownRank
  { HealthCovers(level); }
  lemma PersonalEntry(category: TaskCategory, level: CategoryRankLevel)
    requires category == Personal
    ensures level in RankTable(category) && RankTable(category)[level] != UnknownRank
  { PersonalCovers(level); }
  lemma ShoppingEntry(category: TaskCategory, level: CategoryRankLevel)
    requires category == Shopping
    ensures level in RankTable(category) && RankTable(category)[level] != UnknownRank
  { ShoppingCovers(level); }
  lemma OtherEntry(category: TaskCategory, level: CategoryRankLevel)
    requires category == Other
    ensures level in RankTable(category) && RankTable(category)[level] != UnknownRank
  { OtherCovers(level); }

  /** `CategoryRanks.getRankInfo`: the table entry of the category's tier, never the fallback. */
  function GetRankInfo(category: TaskCategory, tasksCompleted: int): (info: RankInfo)
    ensures CalculateCategoryRank(tasksCompleted) in RankTable(category)
    ensures info == RankTable(category)[CalculateCategoryRank(tasksCompleted)]
    ensures info != UnknownRank
  {
    var level := CalculateCategoryRank(tasksCompleted);
    var table := RankTable(category);
    TablesCoverAllTiers(category, level);
    if level in table then table[level] else UnknownRank
  }
}
