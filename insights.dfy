/**
 * `renderAIInsights` as one step: fill the history buckets and average
 * them, blend the rates into the end-of-month forecast, and rank the
 * categories for the saving tip. The two cards are returned as values.
 */
module Insights {
  import opened Ledger
  import opened History
  import opened Forecast
  import opened Tips

  /** The content of the two insight cards. */
  datatype Insight = Insight(predictedEnd: real, tip: Option<Tip>)

  /** script.js:107-179, without the HTML: the forecast card and the optional tip card. */
  method RenderInsights(ts: seq<Transaction>, today: Date) returns (insight: Insight)
    requires ValidDate(today)
    ensures insight.predictedEnd == PredictedEndBalance(ts, today)
    ensures insight.predictedEnd <= Balance(ts) as real
    ensures insight.tip.None? <==> forall t :: t in ts ==> t.kind != Chi
    ensures insight.tip.Some? ==>
      var cats := Categories(Expenses(ts));
      && (exists i :: TopAt(Expenses(ts), cats, i) && cats[i] == insight.tip.value.category)
      && insight.tip.value.total == CategoryTotal(Expenses(ts), insight.tip.value.category)
      && insight.tip.value.saving == SavingRate * insight.tip.value.total as real
  {
    var histAvg := HistoricalAverage(ts, today);
    var predictedEnd := PredictedEndFrom(ts, today, histAvg);
    var tip := SavingTip(ts);
    insight := Insight(predictedEnd, tip);
  }
}
