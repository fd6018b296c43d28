/** What the competition's ledger says about the predictions of one frozen registration. */
module CompetitionMetrics {
  import opened Wrappers
  import opened Basics
  import opened Lots
  import opened Competition
  import S = Statistics

  /** Missing values are `None`; the rank correlation is kept as its two exact ingredients. */
  datatype Metrics = Metrics(
    hitRate: Option<real>, brier: Option<real>, ece: Option<real>, rankIc: Option<S.Correlation>,
    net: Option<real>, drawdown: Option<real>, turnover: Option<real>, coverage: Option<real>, rejection: Option<real>)

  // --------------------------------------------------------------- settled predictions

  /** A dictionary assignment: a known key keeps its place. */
  function Upsert(rows: seq<Outcome>, o: Outcome): seq<Outcome> {
    if exists i :: 0 <= i < |rows| && rows[i].predictionId == o.predictionId then
      seq(|rows|, i requires 0 <= i < |rows| => if rows[i].predictionId == o.predictionId then o else rows[i])
    else rows + [o]
  }

  /** The settlements in the order a process holds them after loading the file. */
  function Settlements(file: seq<Record>): seq<Outcome> {
    if file == [] then []
    else
      var before := Settlements(file[..|file| - 1]);
      match file[|file| - 1]
      case SettlementRow(o) => Upsert(before, o)
      case _ => before
  }

  predicate Belongs(p: Prediction, contest: Option<Registration>) {
    contest.None? ||
    (contest.value.started && p.model == contest.value.model &&
     (contest.value.bundle.None? || p.bundle == contest.value.bundle.value))
  }

  function Registered(s: Store, contest: Option<Registration>): map<string, Prediction> {
    map id | id in s.predictions && Belongs(s.predictions[id], contest) :: s.predictions[id]
  }

  function Answering(rows: seq<Outcome>, predictions: map<string, Prediction>): (r: seq<Outcome>)
    ensures forall i :: 0 <= i < |r| ==> r[i].predictionId in predictions && r[i] in rows
  {
    if rows == [] then []
    else
      var r := Answering(rows[..|rows| - 1], predictions);
      if rows[|rows| - 1].predictionId in predictions then r + [rows[|rows| - 1]] else r
  }

  /** The values that are present. */
  function Returns(outcomes: seq<Outcome>): seq<real> {
    if outcomes == [] then []
    else
      var r := Returns(outcomes[..|outcomes| - 1]);
      var o := outcomes[|outcomes| - 1];
      if o.realized.Some? then r + [o.realized.value] else r
  }

  function Labels(values: seq<real>): (r: seq<S.Probability>)
    ensures |r| == |values|
  {
    seq(|values|, i requires 0 <= i < |values| => if values[i] > 0.0 then 1.0 else 0.0)
  }

  function Scores(settled: seq<Prediction>): (r: seq<real>)
    ensures |r| == |settled|
  {
    seq(|settled|, i requires 0 <= i < |settled| => settled[i].score)
  }

  predicate Calibrated(settled: seq<Prediction>) {
    forall i :: 0 <= i < |settled| ==> settled[i].calibrated && settled[i].probability.Some?
  }

  function Probabilities(settled: seq<Prediction>): (r: seq<S.Probability>)
    requires Calibrated(settled)
    ensures |r| == |settled|
  {
    seq(|settled|, i requires 0 <= i < |settled| => settled[i].probability.value)
  }

  predicate Hit(p: Prediction, value: real, calibrated: bool)
    requires calibrated ==> p.probability.Some?
  {
    (if calibrated then p.probability.value >= 0.5 else p.score >= 50.0) == (value > 0.0)
  }

  function Hits(settled: seq<Prediction>, values: seq<real>, calibrated: bool): (n: nat)
    requires |settled| == |values| && (calibrated ==> Calibrated(settled))
    ensures n <= |settled|
  {
    if settled == [] then 0
    else
      var k := |settled| - 1;
      Hits(settled[..k], values[..k], calibrated) + (if Hit(settled[k], values[k], calibrated) then 1 else 0)
  }

  function Ratio(part: nat, whole: nat): real
    requires whole > 0
  {
    part as real / whole as real
  }

  function Turnover(settled: nat, total: nat): real {
    Ratio(settled, if total > 1 then total else 1)
  }

  function Coverage(settled: nat, total: nat): real {
    if total == 0 then 0.0 else Ratio(settled, total)
  }

  function Cost(costBps: real, turnover: real): real { costBps / 10000.0 * turnover }

  function NetReturn(values: seq<real>, cost: real): real
    requires values != []
  {
    S.Sum(values) / |values| as real - cost
  }

  function Charge(cost: real, n: nat): real
    requires n > 0
  {
    cost / n as real
  }

  function Steps(values: seq<real>, cost: real): seq<real>
    requires values != []
  {
    S.Net(values, Charge(cost, |values|))
  }

  function Assess(settled: seq<Prediction>, values: seq<real>, total: nat, costBps: real): Metrics
    requires |settled| == |values| > 0
  {
    var n := |settled|;
    var cost := Cost(costBps, Turnover(n, total));
    var calibrated := Calibrated(settled);
    Metrics(
      Some(Ratio(Hits(settled, values, calibrated), n)),
      if calibrated then Some(S.Brier(Probabilities(settled), Labels(values))) else None,
      if calibrated then Some(S.Calibration(Probabilities(settled), Labels(values))) else None,
      S.RankCorrelation(Scores(settled), values),
      Some(NetReturn(values, cost)),
      Some(S.Drawdown(Steps(values, cost))),
      Some(Turnover(n, total)),
      Some(Coverage(n, total)),
      Some(1.0 - Coverage(n, total)))
  }

  function Outcomes(file: seq<Record>, contest: Option<Registration>): (r: seq<Outcome>)
    requires Load(file).Ok?
    ensures forall i :: 0 <= i < |r| ==> r[i].predictionId in Registered(Load(file).value, contest)
  {
    Answering(Settlements(file), Registered(Load(file).value, contest))
  }

  function Answered(outcomes: seq<Outcome>, predictions: map<string, Prediction>): (r: seq<Prediction>)
    requires forall i :: 0 <= i < |outcomes| ==> outcomes[i].predictionId in predictions
    ensures |r| == |outcomes|
  {
    seq(|outcomes|, i requires 0 <= i < |outcomes| => predictions[outcomes[i].predictionId])
  }

  function NoOutcomes(total: nat): Metrics {
    Metrics(None, None, None, None, None, None, None, Some(Coverage(0, total)), Some(1.0))
  }

  /** `compute_metrics`, refusing a negative cost. */
  function MetricsOf(file: seq<Record>, contest: Option<Registration>, costBps: real): Option<Metrics>
    requires Load(file).Ok?
  {
    if costBps < 0.0 then None
    else
      var predictions := Registered(Load(file).value, contest);
      var outcomes := Outcomes(file, contest);
      if outcomes == [] then Some(NoOutcomes(|predictions|))
      else
        EveryOutcomeHasAReturn(file, contest);
        Some(Assess(Answered(outcomes, predictions), Returns(outcomes), |predictions|, costBps))
  }

  // ------------------------------------------------------------- the lists line up

  ghost predicate Distinct(rows: seq<Outcome>) {
    forall i, j :: 0 <= i < j < |rows| ==> rows[i].predictionId != rows[j].predictionId
  }

  /** The rows are the settlements, each once. */
  ghost predicate Lists(rows: seq<Outcome>, settlements: map<string, Outcome>) {
    && Distinct(rows)
    && (forall i :: 0 <= i < |rows| ==>
        rows[i].predictionId in settlements && settlements[rows[i].predictionId] == rows[i])
    && (forall id :: id in settlements ==> exists i :: 0 <= i < |rows| && rows[i].predictionId == id)
  }

  lemma UpsertKnown(rows: seq<Outcome>, o: Outcome, i: nat)
    requires Distinct(rows) && i < |rows| && rows[i] == o
    ensures Upsert(rows, o) == rows
  {
  }

  lemma UpsertLists(rows: seq<Outcome>, settlements: map<string, Outcome>, o: Outcome)
    requires Lists(rows, settlements)
    requires o.predictionId in settlements ==> settlements[o.predictionId] == o
    ensures Lists(Upsert(rows, o), settlements[o.predictionId := o])
  {
    if o.predictionId in settlements {
      var i :| 0 <= i < |rows| && rows[i].predictionId == o.predictionId;
      UpsertKnown(rows, o, i);
      assert settlements[o.predictionId := o] == settlements;
    } else {
      assert Upsert(rows, o) == rows + [o];
      var after := settlements[o.predictionId := o];
      forall id | id in after ensures exists i :: 0 <= i < |rows + [o]| && (rows + [o])[i].predictionId == id {
        if id == o.predictionId {
          assert (rows + [o])[|rows|].predictionId == id;
        } else {
          var i :| 0 <= i < |rows| && rows[i].predictionId == id;
          assert (rows + [o])[i].predictionId == id;
        }
      }
    }
  }

  /** Loading lists every settlement exactly once. */
  lemma {:induction false} SettlementsListed(file: seq<Record>)
    requires Load(file).Ok?
    ensures Lists(Settlements(file), Load(file).value.settlements)
  {
    if file != [] {
      var init, r := file[..|file| - 1], file[|file| - 1];
      SettlementsListed(init);
      hide Lists, Upsert, Usable, Matches;
      if r.SettlementRow? { UpsertLists(Settlements(init), Load(init).value.settlements, r.o); }
    }
  }

  lemma {:induction false} ValuesLineUp(outcomes: seq<Outcome>)
    requires forall i :: 0 <= i < |outcomes| ==> outcomes[i].realized.Some?
    ensures |Returns(outcomes)| == |outcomes|
    ensures forall i :: 0 <= i < |outcomes| ==> Returns(outcomes)[i] == outcomes[i].realized.value
  {
    if outcomes != [] { ValuesLineUp(outcomes[..|outcomes| - 1]); }
  }

  /** Every settled outcome carries a return, so leaving out the missing ones leaves out none. */
  lemma EveryOutcomeHasAReturn(file: seq<Record>, contest: Option<Registration>)
    requires Load(file).Ok?
    ensures var outcomes := Outcomes(file, contest);
      && |Returns(outcomes)| == |outcomes|
      && forall i :: 0 <= i < |outcomes| ==> outcomes[i].realized == Some(Returns(outcomes)[i])
  {
    LoadSafe(file);
    SettlementsListed(file);
    var outcomes := Outcomes(file, contest);
    forall i | 0 <= i < |outcomes| ensures outcomes[i].realized.Some? {
      hide Load, Settlements, Answering, Registered;
      assert outcomes[i] in Settlements(file);
    }
    ValuesLineUp(outcomes);
  }

  // ------------------------------------------------------------------------ coverage

  lemma {:induction false} AnsweringDistinct(rows: seq<Outcome>, predictions: map<string, Prediction>)
    requires Distinct(rows)
    ensures Distinct(Answering(rows, predictions))
    ensures forall i :: 0 <= i < |rows| && rows[i].predictionId in predictions ==>
        rows[i] in Answering(rows, predictions)
  {
    if rows != [] {
      var k := |rows| - 1;
      AnsweringDistinct(rows[..k], predictions);
      var r := Answering(rows[..k], predictions);
      forall i | 0 <= i < |r| ensures r[i].predictionId != rows[k].predictionId { assert r[i] in rows[..k]; }
      forall i | 0 <= i < |rows| && rows[i].predictionId in predictions
          ensures rows[i] in Answering(rows, predictions) {
        if i < k { assert rows[..k][i] in r; }
      }
    }
  }

  function Ids(rows: seq<Outcome>): set<string> { set i | 0 <= i < |rows| :: rows[i].predictionId }

  lemma {:induction false} IdsCount(rows: seq<Outcome>)
    requires Distinct(rows)
    ensures |Ids(rows)| == |rows|
  {
    if rows != [] {
      var k := |rows| - 1;
      IdsCount(rows[..k]);
      assert Ids(rows) == Ids(rows[..k]) + {rows[k].predictionId};
    }
  }

  /** The coverage counts each registered prediction that has a settlement exactly once. */
  lemma CoverageCounts(file: seq<Record>, contest: Option<Registration>)
    requires Load(file).Ok?
    ensures var s := Load(file).value; var registered := Registered(s, contest);
      && |Outcomes(file, contest)| == |s.settlements.Keys * registered.Keys| <= |registered|
  {
    var s := Load(file).value;
    var registered := Registered(s, contest);
    var rows, outcomes := Settlements(file), Outcomes(file, contest);
    SettlementsListed(file);
    hide Load, Settlements, Registered, Upsert;
    AnsweringDistinct(rows, registered);
    IdsCount(outcomes);
    SameIds(rows, s.settlements, registered);
    SubsetSize(s.settlements.Keys * registered.Keys, registered.Keys);
  }

  lemma SameIds(rows: seq<Outcome>, settlements: map<string, Outcome>, predictions: map<string, Prediction>)
    requires Lists(rows, settlements)
    ensures Ids(Answering(rows, predictions)) == settlements.Keys * predictions.Keys
  {
    var r := Answering(rows, predictions);
    AnsweringDistinct(rows, predictions);
    hide Answering;
    forall id | id in settlements && id in predictions ensures id in Ids(r) {
      var i :| 0 <= i < |rows| && rows[i].predictionId == id;
      assert rows[i] in r;
    }
    forall id | id in Ids(r) ensures id in settlements && id in predictions {
      var i :| 0 <= i < |r| && r[i].predictionId == id;
      assert r[i] in rows;
    }
  }

  // -------------------------------------------------------------------------- bounds

  ghost predicate Share(x: real) { 0.0 <= x <= 1.0 }

  ghost predicate WellScored(m: Metrics) {
    && m.coverage.Some? && Share(m.coverage.value) && m.rejection == Some(1.0 - m.coverage.value)
    && (m.hitRate.Some? ==> Share(m.hitRate.value))
    && (m.turnover.Some? ==> Share(m.turnover.value))
    && (m.brier.Some? <==> m.ece.Some?)
    && (m.brier.Some? ==> Share(m.brier.value) && Share(m.ece.value) && S.Square(m.ece.value) <= m.brier.value)
    && (m.rankIc.Some? ==> S.Square(m.rankIc.value.numerator) <= m.rankIc.value.square)
    && (m.drawdown.Some? ==> m.drawdown.value >= 0.0)
  }

  lemma RatioIsShare(part: nat, whole: nat)
    requires part <= whole && whole > 0
    ensures Share(Ratio(part, whole))
  {
  }

  lemma {:induction false} DrawdownNonNegative(steps: seq<real>)
    ensures S.Drawdown(steps) >= 0.0
  {
    if steps != [] { DrawdownNonNegative(steps[..|steps| - 1]); }
  }

  lemma AssessBounds(settled: seq<Prediction>, values: seq<real>, total: nat, costBps: real)
    requires |settled| == |values| > 0 && |settled| <= total
    ensures WellScored(Assess(settled, values, total, costBps))
  {
    var n := |settled|;
    hide Share, S.Brier, S.Calibration, S.Square, S.RankCorrelation, S.Drawdown, Ratio, Hits, Cost, NetReturn, Steps,
      Probabilities, Labels, Scores;
    RatioIsShare(n, total);
    RatioIsShare(Hits(settled, values, Calibrated(settled)), n);
    DrawdownNonNegative(Steps(values, Cost(costBps, Turnover(n, total))));
    if n >= 2 { S.CorrelationBounded(Scores(settled), values); }
    if n < 2 { NoRank(Scores(settled), values); }
    if Calibrated(settled) {
      ScoreBounds(Probabilities(settled), Labels(values));
    }
  }

  lemma NoRank(scores: seq<real>, values: seq<real>)
    requires |scores| < 2
    ensures S.RankCorrelation(scores, values).None?
  {
  }

  lemma ScoreBounds(ps: seq<S.Probability>, ls: seq<S.Probability>)
    requires |ps| == |ls| > 0
    ensures Share(S.Calibration(ps, ls)) && Share(S.Brier(ps, ls))
    ensures S.Square(S.Calibration(ps, ls)) <= S.Brier(ps, ls)
  {
    S.CalibrationBounds(ps, ls);
  }

  /** Every metric of every ledger a run can leave lies in its range. */
  lemma MetricsInRange(file: seq<Record>, contest: Option<Registration>, costBps: real)
    requires Load(file).Ok? && costBps >= 0.0
    ensures MetricsOf(file, contest, costBps).Some? && WellScored(MetricsOf(file, contest, costBps).value)
  {
    hide *;
    MetricsAre(file, contest, costBps);
    var predictions, outcomes := Registered(Load(file).value, contest), Outcomes(file, contest);
    if outcomes == [] {
      EmptyBounds(|predictions|);
    } else {
      AssessBounds(Answered(outcomes, predictions), Returns(outcomes), |predictions|, costBps);
    }
  }

  lemma EmptyBounds(total: nat)
    ensures WellScored(NoOutcomes(total))
  {
    if total > 0 { RatioIsShare(0, total); }
  }

  /** Which of the two cases applies, and that the lists of the second line up. */
  lemma MetricsAre(file: seq<Record>, contest: Option<Registration>, costBps: real)
    requires Load(file).Ok? && costBps >= 0.0
    ensures var outcomes := Outcomes(file, contest);
      var predictions := Registered(Load(file).value, contest);
      && |Returns(outcomes)| == |outcomes| <= |predictions|
      && (outcomes == [] ==> MetricsOf(file, contest, costBps) == Some(NoOutcomes(|predictions|)))
      && (outcomes != [] ==>
            MetricsOf(file, contest, costBps) ==
            Some(Assess(Answered(outcomes, predictions), Returns(outcomes), |predictions|, costBps)))
  {
    hide Load, Registered, Outcomes, Returns, Assess, Answered;
    CoverageCounts(file, contest);
    EveryOutcomeHasAReturn(file, contest);
  }

  // --------------------------------------------------------------------------- gates

  /** The contest's quality gates. */
  predicate Passes(m: Metrics) {
    && m.net.Some? && m.drawdown.Some? && m.coverage.Some?
    && m.net.value > 0.0 && 0.0 <= m.drawdown.value <= 0.35 && m.coverage.value >= 0.8
  }

  /** The same in terms of the outcomes: at least four in five registered predictions are settled, the mean
      return exceeds the cost, and no later point lies more than 0.35 below an earlier one. */
  ghost predicate Earned(values: seq<real>, total: nat, costBps: real) {
    && values != [] && 5 * |values| >= 4 * total
    && S.Sum(values) > Cost(costBps, Turnover(|values|, total)) * |values| as real
    && S.Bounded(Steps(values, Cost(costBps, Turnover(|values|, total))), 0.35)
  }

  lemma AssessPassesIff(settled: seq<Prediction>, values: seq<real>, total: nat, costBps: real)
    requires |settled| == |values| > 0 && |settled| <= total
    ensures Passes(Assess(settled, values, total, costBps)) <==> Earned(values, total, costBps)
  {
    hide Calibrated, Hits, Ratio, Scores, S.Calibration, S.Brier, S.RankCorrelation, S.Drawdown, S.Bounded, S.Sum,
      Coverage, NetReturn, Cost, Turnover, Steps, Probabilities, Labels;
    var cost := Cost(costBps, Turnover(|values|, total));
    FourFifths(|values|, total);
    NetPositive(values, cost);
    DrawdownNonNegative(Steps(values, cost));
    DrawdownWithin(Steps(values, cost), 0.35);
  }

  /** Computed metrics pass exactly when the settled outcomes earn it. */
  lemma GatesIff(file: seq<Record>, contest: Option<Registration>, costBps: real)
    requires Load(file).Ok? && costBps >= 0.0
    ensures MetricsOf(file, contest, costBps).Some?
    ensures Passes(MetricsOf(file, contest, costBps).value) <==>
            Earned(Returns(Outcomes(file, contest)), |Registered(Load(file).value, contest)|, costBps)
  {
    hide *;
    MetricsAre(file, contest, costBps);
    var predictions, outcomes := Registered(Load(file).value, contest), Outcomes(file, contest);
    if outcomes == [] {
      EmptyFails(Returns(outcomes), |predictions|, costBps);
    } else {
      AssessPassesIff(Answered(outcomes, predictions), Returns(outcomes), |predictions|, costBps);
    }
  }

  lemma EmptyFails(values: seq<real>, total: nat, costBps: real)
    requires values == []
    ensures !Passes(NoOutcomes(total)) && !Earned(values, total, costBps)
  {
  }

  lemma FourFifths(n: nat, total: nat)
    requires 0 < n <= total
    ensures Coverage(n, total) >= 0.8 <==> 5 * n >= 4 * total
  {
    AtLeast(n as real, total as real, 0.8);
    assert (5 * n) as real == 5.0 * n as real && (4 * total) as real == 4.0 * total as real;
  }

  lemma NetPositive(values: seq<real>, cost: real)
    requires values != []
    ensures NetReturn(values, cost) > 0.0 <==> S.Sum(values) > cost * |values| as real
  {
    var q, n := S.Sum(values) / |values| as real, |values| as real;
    assert q * n == S.Sum(values);
    if q > cost { assert q * n > cost * n; } else { assert q * n <= cost * n; }
  }

  lemma DrawdownWithin(steps: seq<real>, limit: real)
    ensures S.Drawdown(steps) <= limit <==> S.Bounded(steps, limit)
  {
    S.DrawdownIsDeepest(steps);
    hide S.Drawdown, S.Cumulative;
    var i, j :| 0 <= i <= j <= |steps| && S.Drop(steps, i, j, S.Drawdown(steps));
  }

  // -------------------------------------------------------------------------- the loop

  /** `compute_metrics`, with its loops over bins and running totals. */
  method ComputeMetrics(file: seq<Record>, contest: Option<Registration>, costBps: real) returns (m: Option<Metrics>)
    requires Load(file).Ok?
    ensures m == MetricsOf(file, contest, costBps)
  {
    hide Load, Outcomes, Registered, Answered, Returns, Cost, Turnover, Coverage, Hits, Ratio, NetReturn, Charge,
      Probabilities, Labels, Scores, S.Calibration, S.Brier, S.Drawdown, S.RankCorrelation;
    if costBps < 0.0 { return None; }
    var predictions := Registered(Load(file).value, contest);
    var outcomes := Outcomes(file, contest);
    if outcomes == [] { return Some(NoOutcomes(|predictions|)); }
    EveryOutcomeHasAReturn(file, contest);
    var settled, values := Answered(outcomes, predictions), Returns(outcomes);
    var n, total := |settled|, |predictions|;
    var calibrated := Calibrated(settled);
    var turnover := Turnover(n, total);
    var cost := Cost(costBps, turnover);
    var drawdown := S.MaxDrawdown(values, Charge(cost, n));
    var brier, ece: Option<real> := None, None;
    if calibrated {
      var e := S.ExpectedCalibrationError(Probabilities(settled), Labels(values));
      brier, ece := Some(S.Brier(Probabilities(settled), Labels(values))), Some(e);
    }
    var coverage := Coverage(n, total);
    m := Some(Metrics(
      Some(Ratio(Hits(settled, values, calibrated), n)), brier, ece, S.RankCorrelation(Scores(settled), values),
      Some(NetReturn(values, cost)), Some(drawdown), Some(turnover), Some(coverage), Some(1.0 - coverage)));
  }
}
