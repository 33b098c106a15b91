/** The plan arithmetic behind the "Calculate" button, and the goal record built by
    "Save Goal". Form fields arrive here already parsed to numbers. */
module FinancialGoalForm {
  import opened GoalTypes

  /** The form's fields after parsing. */
  datatype FormInput = FormInput(
    goalName: string,
    monthlyIncome: real,
    monthlyExpenses: real,
    currentSavings: real,
    goalAmount: real,
    goalDuration: real,
    durationType: string)

  /** The goal's horizon in months: "years" is scaled by 12, every other unit is taken
      to be months already. */
  function DurationInMonths(duration: real, durationType: string): (months: real)
    ensures durationType == "years" ==> months == 12.0 * duration
    ensures durationType != "years" ==> months == duration
  {
    if durationType == "years" then duration * 12.0 else duration
  }

  /** Math.min(hi, Math.max(lo, x)). */
  function Clamp(lo: real, hi: real, x: real): (r: real)
    requires lo <= hi
    ensures lo <= r <= hi
    ensures lo <= x <= hi ==> r == x
    ensures x < lo ==> r == lo
    ensures x > hi ==> r == hi
  {
    var atLeastLo := if lo < x then x else lo;
    if hi < atLeastLo then hi else atLeastLo
  }

  /** The two divisions of the plan are defined. */
  predicate Computable(f: FormInput)
  {
    f.goalAmount != 0.0 && DurationInMonths(f.goalDuration, f.durationType) != 0.0
  }

  /** handleCalculate: the savings plan for one form submission. */
  function Calculate(f: FormInput): (r: CalculationResult)
    requires Computable(f)
    // saving the required amount every month exactly closes the distance to the goal
    ensures r.requiredMonthlySavings * DurationInMonths(f.goalDuration, f.durationType)
              + f.currentSavings == f.goalAmount
    // the potential is not clamped: expenses above income give a negative potential
    ensures r.monthlySavingPotential + f.monthlyExpenses == f.monthlyIncome
    ensures r.gap + r.requiredMonthlySavings == r.monthlySavingPotential
    ensures r.gap >= 0.0 <==> r.monthlySavingPotential >= r.requiredMonthlySavings
    ensures 0.0 <= r.progressPercentage <= 100.0
    ensures f.goalAmount > 0.0 && 0.0 <= f.currentSavings <= f.goalAmount ==>
              r.progressPercentage * f.goalAmount == f.currentSavings * 100.0
    ensures f.goalAmount > 0.0 && f.currentSavings >= f.goalAmount ==> r.progressPercentage == 100.0
    ensures f.goalAmount > 0.0 && f.currentSavings <= 0.0 ==> r.progressPercentage == 0.0
    ensures r.goalAmount == f.goalAmount && r.currentSavings == f.currentSavings
  {
    var months := DurationInMonths(f.goalDuration, f.durationType);
    var potential := f.monthlyIncome - f.monthlyExpenses;
    var required := (f.goalAmount - f.currentSavings) / months;
    var ratio := (f.currentSavings / f.goalAmount) * 100.0;
    RatioFacts(f.currentSavings, f.goalAmount);
    CalculationResult(potential, required, potential - required, Clamp(0.0, 100.0, ratio),
                      f.goalAmount, f.currentSavings)
  }

  /** Where the raw savings ratio lies relative to [0,100], for a positive goal. */
  lemma RatioFacts(savings: real, goal: real)
    requires goal != 0.0
    ensures (savings / goal) * 100.0 * goal == savings * 100.0
    ensures goal > 0.0 && savings >= goal ==> (savings / goal) * 100.0 >= 100.0
    ensures goal > 0.0 && savings <= goal ==> (savings / goal) * 100.0 <= 100.0
    ensures goal > 0.0 && savings <= 0.0 ==> (savings / goal) * 100.0 <= 0.0
    ensures goal > 0.0 && savings >= 0.0 ==> (savings / goal) * 100.0 >= 0.0
  {
  }

  /** Entering a horizon of N years plans exactly as entering 12·N months. */
  lemma YearsPlanAsMonths(f: FormInput)
    requires f.durationType == "years" && Computable(f)
    ensures Computable(f.(durationType := "months", goalDuration := 12.0 * f.goalDuration))
    ensures Calculate(f) == Calculate(f.(durationType := "months", goalDuration := 12.0 * f.goalDuration))
  {
  }

  /** Any unit other than "years" is treated as months. */
  lemma OtherUnitsPlanAsMonths(f: FormInput)
    requires f.durationType != "years" && Computable(f)
    ensures Computable(f.(durationType := "months"))
    ensures Calculate(f) == Calculate(f.(durationType := "months"))
  {
  }

  /** handleSaveGoal's record: id left empty for the page to fill, not completed, and an
      initial progress that is the raw savings ratio, not clamped. */
  function NewGoal(f: FormInput, now: Date): (g: Goal)
    requires f.goalAmount != 0.0
    ensures g.id == "" && !g.completed && g.date == now
    ensures g.progress * f.goalAmount == f.currentSavings * 100.0
    ensures g.name == f.goalName && g.durationType == f.durationType
    ensures g.monthlyIncome == f.monthlyIncome && g.monthlyExpenses == f.monthlyExpenses
    ensures g.currentSavings == f.currentSavings && g.goalAmount == f.goalAmount
    ensures g.goalDuration == f.goalDuration
  {
    RatioFacts(f.currentSavings, f.goalAmount);
    Goal("", f.goalName, f.monthlyIncome, f.monthlyExpenses, f.currentSavings, f.goalAmount,
         f.goalDuration, f.durationType, now, false, (f.currentSavings / f.goalAmount) * 100.0)
  }

  /** A saved goal starts with the plan's progress whenever the savings lie between 0
      and a positive goal amount. */
  lemma SavedProgressMatchesPlan(f: FormInput, now: Date)
    requires Computable(f) && f.goalAmount > 0.0 && 0.0 <= f.currentSavings <= f.goalAmount
    ensures NewGoal(f, now).progress == Calculate(f).progressPercentage
  {
  }

  /** Savings above the goal: the plan reports 100% but the saved goal records 200%. */
  lemma SavedProgressIsNotClamped()
    ensures var f := FormInput("Car", 5000.0, 3000.0, 200.0, 100.0, 12.0, "months");
            Calculate(f).progressPercentage == 100.0 && NewGoal(f, Date(0)).progress == 200.0
  {
  }

  /** A plan with a surplus: income 5000, expenses 3000, savings 1000, goal 10000 over
      12 months. */
  lemma SurplusExample()
    ensures Calculate(FormInput("Car", 5000.0, 3000.0, 1000.0, 10000.0, 12.0, "months"))
            == CalculationResult(2000.0, 750.0, 1250.0, 10.0, 10000.0, 1000.0)
  {
  }

  /** The same inputs with a goal of 50000 leave a deficit. */
  lemma DeficitExample()
    ensures var r := Calculate(FormInput("Car", 5000.0, 3000.0, 1000.0, 50000.0, 1.0, "years"));
            r.requiredMonthlySavings == 49000.0 / 12.0 && r.gap < 0.0 && r.progressPercentage == 2.0
  {
  }
}
