/** The records shared by every component: a saved goal and a computed savings plan. */
module GoalTypes {

  datatype Option<T> = None | Some(value: T)

  /** A creation timestamp. The model only carries it from one record to another. */
  datatype Date = Date(epochMillis: int)

  /** A saved financial goal. `progress` is a percentage, meant to lie in [0,100]
      but not forced to by any operation. */
  datatype Goal = Goal(
    id: string,
    name: string,
    monthlyIncome: real,
    monthlyExpenses: real,
    currentSavings: real,
    goalAmount: real,
    goalDuration: real,
    durationType: string,
    date: Date,
    completed: bool,
    progress: real)

  /** The savings plan computed from the form; `gap` >= 0 is a surplus. */
  datatype CalculationResult = CalculationResult(
    monthlySavingPotential: real,
    requiredMonthlySavings: real,
    gap: real,
    progressPercentage: real,
    goalAmount: real,
    currentSavings: real)

  /** Math.abs on reals. */
  function Abs(x: real): (r: real)
    ensures r >= 0.0
    ensures r == x || r == -x
  {
    if x < 0.0 then -x else x
  }
}
