/** The results card: surplus/deficit tile, the two-bar chart, and the recommendation
    text with its loading state. */
module ResultsSection {
  import opened GoalTypes
  import opened AiService

  /** The card's surplus test: a gap of exactly zero counts as a surplus. */
  predicate IsPositiveGap(gap: real)
  {
    gap >= 0.0
  }

  /** The "Remaining" bar: what is still missing, never below zero. */
  function Remaining(goalAmount: real, currentSavings: real): (r: real)
    ensures r >= 0.0
    ensures currentSavings <= goalAmount ==> currentSavings + r == goalAmount
    ensures currentSavings >= goalAmount ==> r == 0.0
  {
    if goalAmount - currentSavings > 0.0 then goalAmount - currentSavings else 0.0
  }

  datatype Bar = Bar(name: string, value: real)

  /** The chart: current savings, then what remains. */
  function ChartData(result: CalculationResult): (bars: seq<Bar>)
    ensures |bars| == 2
    ensures bars[0] == Bar("Current Savings", result.currentSavings)
    ensures bars[1].name == "Remaining" && bars[1].value >= 0.0
  {
    [Bar("Current Savings", result.currentSavings),
     Bar("Remaining", Remaining(result.goalAmount, result.currentSavings))]
  }

  /** The first bar is the savings, the second never negative, and stacked they reach
      the larger of the goal and the savings. */
  lemma ChartReachesGoal(result: CalculationResult)
    ensures var bars := ChartData(result);
            && |bars| == 2 && bars[0] == Bar("Current Savings", result.currentSavings)
            && bars[1].name == "Remaining" && bars[1].value >= 0.0
            && bars[0].value + bars[1].value
              == if result.currentSavings <= result.goalAmount then result.goalAmount
                 else result.currentSavings
  {
  }

  datatype GapLabel = MonthlySurplus | MonthlyDeficit

  /** The gap tile: a heading and the magnitude shown beneath it. */
  datatype GapTile = GapTile(heading: GapLabel, amount: real)

  function GapTileFor(gap: real): (t: GapTile)
    ensures t.heading == MonthlySurplus <==> IsPositiveGap(gap)
    ensures t.amount == Abs(gap)
  {
    GapTile(if IsPositiveGap(gap) then MonthlySurplus else MonthlyDeficit, Abs(gap))
  }

  /** The tile and the canned advice never disagree: same side, same amount. */
  lemma GapTileAgreesWithFallback(gap: real)
    ensures (GapTileFor(gap).heading == MonthlySurplus) == FallbackAdvice(gap).Surplus?
    ensures GapTileFor(gap).amount == FallbackAdvice(gap).amount
  {
  }

  /** What the recommendation area shows. */
  datatype Recommendation = Spinner | Text(text: string) | Message(message: FallbackMessage)

  /** The recommendation area: the spinner while loading; otherwise the stored advice
      when it is a non-empty text, else the inline message chosen by the gap. `None`
      stands for the initial null. A stored canned message is a non-empty string, so
      it is shown as it is. */
  function RecommendationShown(aiAdvice: Option<Advice>, isLoadingAdvice: bool, gap: real): (r: Recommendation)
    ensures r.Spinner? <==> isLoadingAdvice
    ensures r.Text? ==> r.text != "" && aiAdvice == Some(FromService(Some(r.text)))
    ensures r.Message? && aiAdvice != Some(Fallback(r.message)) ==> r.message == FallbackAdvice(gap)
    // the converse directions: stored non-empty advice and a stored canned message are
    // both shown as they are
    ensures !isLoadingAdvice && aiAdvice.Some? && aiAdvice.value.FromService?
            && aiAdvice.value.advice.Some? && aiAdvice.value.advice.value != ""
            ==> r == Text(aiAdvice.value.advice.value)
    ensures !isLoadingAdvice && aiAdvice.Some? && aiAdvice.value.Fallback?
            ==> r == Message(aiAdvice.value.message)
  {
    if isLoadingAdvice then Spinner
    else match aiAdvice
      case Some(FromService(Some(text))) =>
        if text != "" then Text(text) else Message(FallbackAdvice(gap))
      case Some(Fallback(m)) => Message(m)
      case _ => Message(FallbackAdvice(gap))
  }

  /** Once a fetch for this plan has finished, the card shows the service's advice when
      it was delivered and is non-empty, and otherwise the canned message for this plan's
      gap; never anything else. */
  lemma ShownAfterFetch(result: CalculationResult, userGoals: int, userLevel: int,
                        send: AdviceRequest -> Outcome)
    ensures var shown := RecommendationShown(
              Some(GetAIFinancialAdvice(result, userGoals, userLevel, send)), false, result.gap);
            && (shown.Text? ==> Delivered(send(RequestBody(result, userGoals, userLevel))))
            && (shown.Text? || shown == Message(FallbackAdvice(result.gap)))
            && var o := send(RequestBody(result, userGoals, userLevel));
               (Delivered(o) && o.body.advice.Some? && o.body.advice.value != ""
                ==> shown == Text(o.body.advice.value))
  {
  }

  /** The component's state: the last advice received and the loading flag. */
  class ResultsPanel {
    var aiAdvice: Option<Advice>
    var isLoadingAdvice: bool

    constructor ()
      ensures aiAdvice == None && !isLoadingAdvice
    {
      aiAdvice := None;
      isLoadingAdvice := false;
    }

    /** Start of the effect: the flag goes up before the request is sent. */
    method BeginFetch()
      modifies this
      ensures isLoadingAdvice && aiAdvice == old(aiAdvice)
    {
      isLoadingAdvice := true;
    }

    /** End of the effect: the advice is stored and the flag comes down (the `finally`). */
    method FinishFetch(advice: Advice)
      modifies this
      ensures !isLoadingAdvice && aiAdvice == Some(advice)
    {
      aiAdvice := Some(advice);
      isLoadingAdvice := false;
    }

    /** One complete run of the effect, with nothing interleaved: the spinner shows while
        the request is out, and afterwards the flag is down and the advice stored. */
    method FetchAdvice(result: CalculationResult, userGoals: int, userLevel: int,
                       send: AdviceRequest -> Outcome)
      modifies this
      ensures !isLoadingAdvice
      ensures aiAdvice == Some(GetAIFinancialAdvice(result, userGoals, userLevel, send))
    {
      BeginFetch();
      assert RecommendationShown(aiAdvice, isLoadingAdvice, result.gap) == Spinner;
      var advice := GetAIFinancialAdvice(result, userGoals, userLevel, send);
      FinishFetch(advice);
    }
  }
}
