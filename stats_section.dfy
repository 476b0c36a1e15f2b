/** The analytics view: the total, the flagged rate and the choice between the
    charts and the empty state. The rate is an exact fraction; the floating
    point division and the rounding of the shown percentage are left out. */
module StatsSection {
  import opened Types
  import opened JsString
  import opened GeminiService
  import opened App

  /** There is something to chart. */
  predicate HasData(historyCount: int)
  {
    historyCount > 0
  }

  /** An exact rate in percent, the fraction `num / den`. */
  datatype Ratio = Ratio(num: nat, den: nat)

  /** The flagged rate in percent: 100 times the first two buckets over the
      total, or 0 without data. The first two buckets are read by position,
      so the view needs at least two of them whenever there is data. */
  function FlaggedRate(data: seq<StatsData>, historyCount: int): (rate: Ratio)
    requires HasData(historyCount) ==> |data| >= 2
    ensures rate.den > 0
    ensures !HasData(historyCount) ==> rate.num == 0
    ensures HasData(historyCount) ==>
      rate.den == historyCount && rate.num == 100 * (data[0].value + data[1].value)
    ensures HasData(historyCount) && data[0].value + data[1].value <= historyCount ==>
      rate.num <= 100 * rate.den
  {
    if HasData(historyCount) then Ratio(100 * (data[0].value + data[1].value), historyCount)
    else Ratio(0, 1)
  }

  /** What the view shows, apart from the charts' drawing. */
  datatype Panel = Panel(totalScanned: int, flaggedRate: Ratio, showsCharts: bool)

  function Render(data: seq<StatsData>, historyCount: int): (p: Panel)
    requires HasData(historyCount) ==> |data| >= 2
    ensures p.totalScanned == historyCount
    ensures p.flaggedRate == FlaggedRate(data, historyCount)
    ensures p.showsCharts <==> historyCount > 0
    ensures !p.showsCharts ==> p.flaggedRate.num == 0
  {
    Panel(historyCount, FlaggedRate(data, historyCount), HasData(historyCount))
  }

  /** The number of results flagged as hate speech or offensive language. */
  function Flagged(history: seq<AnalysisResult>): nat
  {
    Count(history, Value(HateSpeech)) + Count(history, Value(Offensive))
  }

  /** Fed from the session's statistics and history length, the flagged rate
      is 100 times the share of flagged results, and lies between 0 and 100. */
  lemma FlaggedRateOfHistory(history: seq<AnalysisResult>)
    ensures var rate := FlaggedRate(StatsOf(history), |history|);
      && rate.num <= 100 * rate.den
      && (history == [] ==> rate.num == 0)
      && (history != [] ==> rate == Ratio(100 * Flagged(history), |history|))
  {
    StatsBounded(history);
  }

  /** The analytics view of a session: the history length, a rate in range,
      and the charts exactly when there is at least one result. */
  lemma PanelOfHistory(history: seq<AnalysisResult>)
    ensures var p := Render(StatsOf(history), |history|);
      && p.totalScanned == |history|
      && p.flaggedRate.den > 0 && p.flaggedRate.num <= 100 * p.flaggedRate.den
      && (p.showsCharts <==> history != [])
      && (history != [] ==> p.flaggedRate == Ratio(100 * Flagged(history), |history|))
  {
    FlaggedRateOfHistory(history);
  }

  /** Three scans answered hate speech, safe and offensive, in that order:
      one result per bucket, and two of three flagged. */
  method ThreeScans(confidence: real, explanation: string)
    returns (stats: seq<StatsData>, rate: Ratio)
    ensures stats == [StatsData(Value(HateSpeech), 1), StatsData(Value(Offensive), 1),
                      StatsData(Value(Safe), 1)]
    ensures rate == Ratio(200, 3)
  {
    var hate := Reply(Value(HateSpeech), confidence, explanation, []);
    var safe := Reply(Value(Safe), confidence, explanation, []);
    var offensive := Reply(Value(Offensive), confidence, explanation, []);
    var r1 := AnalysisResult("1", "a", Value(HateSpeech), confidence, explanation, 1, []);
    var r2 := AnalysisResult("2", "b", Value(Safe), confidence, explanation, 2, []);
    var r3 := AnalysisResult("3", "c", Value(Offensive), confidence, explanation, 3, []);
    assert !IsSpace("a"[0]) && !IsSpace("b"[0]) && !IsSpace("c"[0]);
    assert AnalyzeText("a", Answered(hate), "1", 1) == Resolved(r1);
    assert AnalyzeText("b", Answered(safe), "2", 2) == Resolved(r2);
    assert AnalyzeText("c", Answered(offensive), "3", 3) == Resolved(r3);
    var session := new Session();
    session.HandleAnalyze("a", Answered(hate), "1", 1);
    session.HandleAnalyze("b", Answered(safe), "2", 2);
    session.HandleAnalyze("c", Answered(offensive), "3", 3);
    assert session.history == [r3, r2, r1];
    StatsOfOneEach(r3, r2, r1);
    stats := session.Stats();
    rate := FlaggedRate(stats, |session.history|);
  }
}
