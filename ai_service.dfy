/** getAIFinancialAdvice with the HTTP exchange abstracted: `send` stands for the POST
    to the advice endpoint, and its outcome is all the model sees of the network. */
module AiService {
  import opened GoalTypes

  /** The JSON body posted to the endpoint. */
  datatype AdviceRequest = AdviceRequest(
    monthlySavingPotential: real,
    requiredMonthlySavings: real,
    gap: real,
    progressPercentage: real,
    goalAmount: real,
    currentSavings: real,
    userGoals: int,
    userLevel: int)

  /** What parsing the response body gave. `Unparsable` is any body whose parse throws
      or whose `advice` lookup throws: invalid JSON, and also JSON `null`, since reading
      a member of null throws inside the `try`. `Json(advice)` is any other parsed value:
      an object with a string `advice` member gives `Some`, and an object without one, or
      a number, string or boolean (whose `advice` reads as undefined), gives `None`. */
  datatype ResponseBody = Unparsable | Json(advice: Option<string>)

  /** How the request ended: no response at all, or a response with its ok flag. */
  datatype Outcome = NetworkError | Response(ok: bool, body: ResponseBody)

  /** The two canned messages; each quotes `amount` per month. */
  datatype FallbackMessage = Surplus(amount: real) | Deficit(amount: real)

  /** The value the function resolves to: the endpoint's `advice` member as it came
      (absent when the member was missing), or a canned message. */
  datatype Advice = FromService(advice: Option<string>) | Fallback(message: FallbackMessage)

  /** The plan part of a request body. */
  function PlanOf(body: AdviceRequest): CalculationResult
  {
    CalculationResult(body.monthlySavingPotential, body.requiredMonthlySavings, body.gap,
                      body.progressPercentage, body.goalAmount, body.currentSavings)
  }

  /** The request body carries the six plan fields and the two user figures unmodified. */
  function RequestBody(result: CalculationResult, userGoals: int, userLevel: int): (body: AdviceRequest)
    ensures PlanOf(body) == result
    ensures body.userGoals == userGoals && body.userLevel == userLevel
  {
    AdviceRequest(result.monthlySavingPotential, result.requiredMonthlySavings, result.gap,
                  result.progressPercentage, result.goalAmount, result.currentSavings,
                  userGoals, userLevel)
  }

  /** The request succeeded: an ok response whose body parsed. Anything else throws
      inside the `try`. */
  predicate Delivered(outcome: Outcome)
  {
    outcome.Response? && outcome.ok && outcome.body.Json?
  }

  /** The canned advice: the surplus message for a non-negative gap, the deficit message
      otherwise, both quoting |gap|. */
  function FallbackAdvice(gap: real): (m: FallbackMessage)
    ensures m.Surplus? <==> gap >= 0.0
    ensures m.amount == Abs(gap)
  {
    if gap >= 0.0 then Surplus(Abs(gap)) else Deficit(Abs(gap))
  }

  /** The signed gap a message speaks of. */
  function SignedAmount(m: FallbackMessage): real
  {
    match m
    case Surplus(a) => a
    case Deficit(a) => -a
  }

  /** The canned message loses nothing: the gap can be read back from it. */
  lemma FallbackQuotesGap(gap: real)
    ensures SignedAmount(FallbackAdvice(gap)) == gap
  {
  }

  function GetAIFinancialAdvice(result: CalculationResult, userGoals: int, userLevel: int,
                                send: AdviceRequest -> Outcome): (a: Advice)
    ensures var outcome := send(RequestBody(result, userGoals, userLevel));
            && (a.FromService? <==> Delivered(outcome))
            && (a.FromService? ==> a.advice == outcome.body.advice)
            && (a.Fallback? ==> a.message == FallbackAdvice(result.gap))
  {
    var outcome := send(RequestBody(result, userGoals, userLevel));
    if Delivered(outcome) then FromService(outcome.body.advice)
    else Fallback(FallbackAdvice(result.gap))
  }

  /** A response that is not ok never reaches the success return, whatever its body. */
  lemma NotOkFallsBack(result: CalculationResult, userGoals: int, userLevel: int,
                       send: AdviceRequest -> Outcome)
    requires send(RequestBody(result, userGoals, userLevel)).Response?
    requires !send(RequestBody(result, userGoals, userLevel)).ok
    ensures GetAIFinancialAdvice(result, userGoals, userLevel, send).Fallback?
  {
  }

  /** On failure the answer depends on the gap alone: two plans with the same gap,
      whatever their other fields, goal counts, levels and failures, get the same
      message. */
  lemma FallbackDependsOnlyOnGap(r1: CalculationResult, g1: int, l1: int, send1: AdviceRequest -> Outcome,
                                 r2: CalculationResult, g2: int, l2: int, send2: AdviceRequest -> Outcome)
    requires r1.gap == r2.gap
    requires !Delivered(send1(RequestBody(r1, g1, l1)))
    requires !Delivered(send2(RequestBody(r2, g2, l2)))
    ensures GetAIFinancialAdvice(r1, g1, l1, send1) == GetAIFinancialAdvice(r2, g2, l2, send2)
  {
  }
}
