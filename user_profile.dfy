/** The profile card: level, progress towards the next level and the three badges,
    all derived from what the page passes in. */
module UserProfile {
  import HomePage

  datatype Badge = FirstGoal | GoalAchiever | Dedicated

  /** What the card shows. `goalsInLevel` is the "n/5 goals" counter. */
  datatype ProfileView = ProfileView(
    level: int,
    nextLevel: int,
    goalsInLevel: nat,
    levelProgress: real,
    badges: set<Badge>)

  /** The progress bar towards the next level, as a percentage: 20% per completed goal
      within the current block of five. */
  function LevelProgress(completedGoals: nat): (p: real)
    ensures 0.0 <= p <= 80.0
    ensures p == 0.0 <==> completedGoals % 5 == 0
    ensures p == 20.0 * (completedGoals % 5) as real
  {
    (((completedGoals % 5) as real) / 5.0) * 100.0
  }

  /** The badges the card displays; each is decided on its own. */
  function Badges(level: int, completedGoals: nat, showFirstGoalBadge: bool): (b: set<Badge>)
    ensures FirstGoal in b <==> showFirstGoalBadge
    ensures GoalAchiever in b <==> completedGoals >= 1
    ensures Dedicated in b <==> level >= 2
  {
    (if showFirstGoalBadge then {FirstGoal} else {})
    + (if completedGoals >= 1 then {GoalAchiever} else {})
    + (if level >= 2 then {Dedicated} else {})
  }

  function View(level: int, completedGoals: nat, showFirstGoalBadge: bool): (v: ProfileView)
    ensures v.level == level && v.nextLevel == level + 1
    ensures v.goalsInLevel < 5 && v.levelProgress == 20.0 * v.goalsInLevel as real
    ensures v.goalsInLevel == completedGoals % 5 && v.levelProgress == LevelProgress(completedGoals)
    ensures v.badges == Badges(level, completedGoals, showFirstGoalBadge)
  {
    ProfileView(level, level + 1, completedGoals % 5, LevelProgress(completedGoals),
                Badges(level, completedGoals, showFirstGoalBadge))
  }

  /** With the level the page computes, "Dedicated" means five or more completed goals,
      and every dedicated user is also a goal achiever. */
  lemma DedicatedUnderPageLevel(completedGoals: nat, showFirstGoalBadge: bool)
    ensures var b := Badges(HomePage.Level(completedGoals), completedGoals, showFirstGoalBadge);
            (Dedicated in b <==> completedGoals >= 5) && (Dedicated in b ==> GoalAchiever in b)
  {
  }

  /** With the page's level, the counter is exactly the completions beyond the last
      full level: level and counter together recover the completed count. */
  lemma CounterAgreesWithLevel(completedGoals: nat, showFirstGoalBadge: bool)
    ensures var v := View(HomePage.Level(completedGoals), completedGoals, showFirstGoalBadge);
            5 * (v.level - 1) + v.goalsInLevel == completedGoals
  {
  }
}
