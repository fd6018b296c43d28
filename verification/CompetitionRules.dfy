/** What the competition accepts, when it settles and what it counts, in terms of the fields submitted. */
module CompetitionRules {
  import opened Wrappers
  import opened Basics
  import opened Competition
  import opened CompetitionMetrics
  import S = Statistics

  // ------------------------------------------------------------------- predictions

  /** A supplied session with `n` supplied sessions after `day` up to it. */
  ghost predicate NthAfter(sessions: seq<int>, day: int, n: int, maturity: int) {
    && maturity in sessions && day < maturity
    && |set d | d in sessions && day < d <= maturity| == n
  }

  lemma {:induction false} PlaceIsCount(days: seq<int>, k: nat)
    requires Increasing(days) && k < |days|
    ensures |set d | d in days && d <= days[k]| == k + 1
  {
    var upTo := set d | d in days && d <= days[k];
    if k == 0 {
      assert upTo == {days[0]};
    } else {
      PlaceIsCount(days, k - 1);
      var before := set d | d in days && d <= days[k - 1];
      forall d | d in upTo ensures d in before + {days[k]} {
        var i :| 0 <= i < |days| && days[i] == d;
        if i < k { assert d <= days[k - 1]; } else { assert d == days[k]; }
      }
      assert upTo == before + {days[k]};
    }
  }

  /** The calendar check passes exactly for the session that many sessions after the data's date. */
  lemma CalendarIff(p: Prediction, sessions: seq<int>)
    requires Increasing(sessions)
    ensures CheckCalendar(p, sessions).None? <==> NthAfter(sessions, p.asOf, p.horizon, p.maturity)
  {
    var future, m := After(sessions, p.asOf), p.maturity;
    AfterIncreasing(sessions, p.asOf, if sessions == [] then 0 else sessions[|sessions| - 1] + 1);
    forall d ensures d in future <==> d in sessions && p.asOf < d { AfterMembers(sessions, p.asOf, d); }
    hide After;
    assert (set d | d in sessions && p.asOf < d <= m) == set d | d in future && d <= m;
    if m in future {
      var k: nat :| k < |future| && future[k] == m;
      PlaceIsCount(future, k);
      if CheckCalendar(p, sessions).None? { assert future[p.horizon - 1] == m; }
    }
  }

  /** The contest has started by the time of the prediction, which names its model and, if one is registered, its
      bundle. */
  ghost predicate Registrable(p: Prediction, c: Registration) {
    && c.started && c.startedAt <= p.predictionAt && p.model == c.model
    && (c.bundle.Some? ==> p.bundle == c.bundle.value)
  }

  /** Made by now and not yet due, maturing as the calendar says, and of the registered model. */
  ghost predicate Timely(p: Prediction, now: int, sessions: Option<seq<int>>, contest: Option<Registration>) {
    && p.predictionAt <= now && Day(now) < p.maturity
    && (if sessions.Some? then NthAfter(sessions.value, p.asOf, p.horizon, p.maturity) else !p.explicit)
    && (contest.Some? ==> Registrable(p, contest.value))
  }

  lemma ChecksIff(p: Prediction, now: int, sessions: Option<seq<int>>, contest: Option<Registration>)
    requires sessions.Some? ==> Increasing(sessions.value)
    ensures CheckPrediction(p, now, sessions, contest).None? <==> Timely(p, now, sessions, contest)
  {
    hide CheckCalendar, NthAfter, Day;
    if sessions.Some? { CalendarIff(p, sessions.value); }
  }

  /** A prediction is accepted exactly if it is timely and its id is new or names the same prediction; a
      new one is one more row. */
  lemma PredictionAcceptedIff(file: seq<Record>, p: Prediction, now: int, sessions: Option<seq<int>>,
      contest: Option<Registration>)
    requires Load(file).Ok? && (sessions.Some? ==> Increasing(sessions.value))
    ensures var known := Load(file).value.predictions;
      var (after, r) := AppendPrediction(file, p, now, sessions, contest);
      && (r.Ok? <==>
            Timely(p, now, sessions, contest) &&
            (p.id in known ==> known[p.id].(explicit := p.explicit) == p))
      && (r.Ok? ==> r.value == if p.id in known then known[p.id] else p)
      && after == if r.Ok? && p.id !in known then file + [PredictionRow(p)] else file
  {
    hide CheckPrediction, Timely, Load;
    ChecksIff(p, now, sessions, contest);
    var known := Load(file).value.predictions;
    if p.id in known { SameUpToTheMark(known[p.id], p); }
    hide Same;
  }

  lemma SameUpToTheMark(a: Prediction, b: Prediction)
    ensures Same(a, b) <==> a.(explicit := b.explicit) == b
  {
    assert a.(explicit := true).(explicit := b.explicit) == a.(explicit := b.explicit);
    assert b.(explicit := true).(explicit := b.explicit) == b;
  }

  ghost predicate Calendars(calls: seq<Call>) {
    forall k :: 0 <= k < |calls| && calls[k].Predict? && calls[k].sessions.Some? ==> Increasing(calls[k].sessions.value)
  }

  ghost predicate TimelyCall(calls: seq<Call>, k: nat, p: Prediction) {
    && k < |calls| && calls[k].Predict? && calls[k].p == p
    && Timely(p, calls[k].now, calls[k].sessions, calls[k].contest)
  }

  /** Every prediction any run has stored came from a call for which it was timely. */
  lemma PredictionsWereTimely(calls: seq<Call>, id: string)
    requires Calendars(calls) && Load(Run(calls)).Ok? && id in Load(Run(calls)).value.predictions
    ensures exists k: nat :: TimelyCall(calls, k, Load(Run(calls)).value.predictions[id])
  {
    PredictionsWereEarly(calls, id);
    hide Run, Load, CheckPrediction, Timely, Day;
    var k: nat :| MadeBy(calls, k, Load(Run(calls)).value.predictions[id]);
    ChecksIff(calls[k].p, calls[k].now, calls[k].sessions, calls[k].contest);
    assert TimelyCall(calls, k, calls[k].p);
  }

  /** The metrics of a registration count exactly the stored predictions of its model and bundle: of those made
      since its start, exactly the ones it accepts. */
  lemma CountedIff(s: Store, c: Registration, id: string)
    requires id in s.predictions
    ensures var p := s.predictions[id];
      && (id in Registered(s, Some(c)) <==>
           c.started && p.model == c.model && (c.bundle.Some? ==> p.bundle == c.bundle.value))
      && (c.startedAt <= p.predictionAt ==> (id in Registered(s, Some(c)) <==> CheckContest(p, c).None?))
      && (id in Registered(s, Some(c)) ==> Registered(s, Some(c))[id] == p)
  {
  }

  /** A ledger only ever written under one registration holds nothing the metrics of that registration leave out. */
  lemma NothingLeftOut(calls: seq<Call>, c: Registration)
    requires forall k :: 0 <= k < |calls| && calls[k].Predict? ==> calls[k].contest == Some(c)
    ensures Load(Run(calls)).Ok?
    ensures Registered(Load(Run(calls)).value, Some(c)) == Load(Run(calls)).value.predictions
    ensures Lists(Outcomes(Run(calls), Some(c)), Load(Run(calls)).value.settlements)
  {
    RunLoads(calls);
    var s := Load(Run(calls)).value;
    forall id | id in s.predictions ensures Belongs(s.predictions[id], Some(c)) {
      PredictionsWereEarly(calls, id);
      hide Run, Load, Belongs, Day, Same, Usable;
      var k: nat :| MadeBy(calls, k, s.predictions[id]);
      CheckedBelongs(s.predictions[id], calls[k].now, calls[k].sessions, c);
    }
    hide Run, Belongs, Load, Usable;
    assert Registered(s, Some(c)) == s.predictions;
    SettlementsListed(Run(calls));
    AllAnswering(Settlements(Run(calls)), s.predictions);
  }

  lemma CheckedBelongs(p: Prediction, now: int, sessions: Option<seq<int>>, c: Registration)
    requires CheckPrediction(p, now, sessions, Some(c)).None?
    ensures Belongs(p, Some(c))
  {
    hide CheckCalendar, Day;
  }

  lemma {:induction false} AllAnswering(rows: seq<Outcome>, predictions: map<string, Prediction>)
    requires forall i :: 0 <= i < |rows| ==> rows[i].predictionId in predictions
    ensures Answering(rows, predictions) == rows
  {
    if rows != [] {
      AllAnswering(rows[..|rows| - 1], predictions);
      assert rows == rows[..|rows| - 1] + [rows[|rows| - 1]];
    }
  }

  // ------------------------------------------------------------------- settlements

  ghost predicate Applies(reason: Reason, p: Prediction, o: Outcome) {
    match reason
    case NotDue => Day(o.outcomeAt) < p.maturity
    case ReasonMissing => o.status.Missing? || o.price.None? || o.realized.None?
    case ReasonSuspended => o.status.Suspended?
    case ReasonStale => o.status.Stale? || !o.isFresh
    case ReasonConflict => o.status.Conflict?
    case Incomplete => !o.complete
    case SessionMismatch => !o.aligned
    case CorporateActionConflict => !o.corporateOk
  }

  /** An outcome is delayed exactly if some reason applies, and the one given does. That it is not due comes first,
      then a bad status. */
  lemma DelayIff(p: Prediction, o: Outcome)
    ensures DelayReason(p, o).Some? <==> exists reason :: Applies(reason, p, o)
    ensures DelayReason(p, o).Some? ==> Applies(DelayReason(p, o).value, p, o)
    ensures Applies(NotDue, p, o) ==> DelayReason(p, o) == Some(NotDue)
    ensures !Applies(NotDue, p, o) ==>
      && (o.status == Missing ==> DelayReason(p, o) == Some(ReasonMissing))
      && (o.status == Suspended ==> DelayReason(p, o) == Some(ReasonSuspended))
      && (o.status == Stale ==> DelayReason(p, o) == Some(ReasonStale))
      && (o.status == Conflict ==> DelayReason(p, o) == Some(ReasonConflict))
  {
    hide Day;
    if DelayReason(p, o).Some? { assert Applies(DelayReason(p, o).value, p, o); }
  }

  /** Known, of its symbol and observed by now. */
  ghost predicate Addressed(s: Store, o: Outcome, now: int) {
    && o.outcomeAt <= now && o.predictionId in s.predictions && s.predictions[o.predictionId].symbol == o.symbol
  }

  /** Due and of full quality. */
  ghost predicate Final(o: Outcome) {
    && o.maturity <= Day(o.outcomeAt) && o.status == Fine && o.isFresh && o.complete && o.aligned && o.corporateOk
    && o.price.Some? && o.realized.Some?
  }

  /** Read by a process that is up to date, an outcome settles exactly if it repeats the settlement or is the first and
      is final; it is put off exactly if it is the first and not final. What is stored afterwards is one
      settlement, or one more entry that waits. */
  lemma SettledIff(file: seq<Record>, o: Outcome, now: int)
    requires Load(file).Ok?
    ensures var s := Load(file).value;
      var (after, r) := SettleDue(file, s, o, now);
      var first := Addressed(s, o, now) && o.predictionId !in s.settlements &&
        s.predictions[o.predictionId].maturity == o.maturity;
      var repeated := Addressed(s, o, now) && o.predictionId in s.settlements && s.settlements[o.predictionId] == o;
      && (r.Ok? && r.value.matured <==> repeated || (first && Final(o)))
      && (r.Ok? && !r.value.matured <==> first && !Final(o))
      && (first ==> Load(after) == Ok(
            if Final(o) then Settled(s, o)
            else s.(pending := s.pending + {(o, DelayReason(s.predictions[o.predictionId], o).value)})))
      && (!first ==> after == file)
  {
    var s := Load(file).value;
    hide Load;
    if o.predictionId in s.predictions { NotDelayed(s.predictions[o.predictionId], o); }
    SettledFile(file, o, now);
    hide Settled, LoadOne, DelayReason, Day;
  }

  lemma SettledFile(file: seq<Record>, o: Outcome, now: int)
    requires Load(file).Ok?
    ensures var s := Load(file).value;
      var (after, r) := SettleDue(file, s, o, now);
      var first := Addressed(s, o, now) && o.predictionId !in s.settlements &&
        s.predictions[o.predictionId].maturity == o.maturity;
      && (first && DelayReason(s.predictions[o.predictionId], o).None? ==> Load(after) == Ok(Settled(s, o)))
      && (first && DelayReason(s.predictions[o.predictionId], o).Some? ==>
            Load(after) ==
            Ok(s.(pending := s.pending + {(o, DelayReason(s.predictions[o.predictionId], o).value)})))
  {
    var s := Load(file).value;
    LoadSnoc(file, SettlementRow(o));
    if o.predictionId in s.predictions {
      NotDelayed(s.predictions[o.predictionId], o);
      var reason := DelayReason(s.predictions[o.predictionId], o);
      if reason.Some? { LoadSnoc(file, PendingRow(o, reason.value)); }
    }
    hide Load, DelayReason, Day, Usable;
    assert forall q :: q in s.pending ==> s.pending + {q} == s.pending;
  }

  /** What waits is exactly what was ever put off for a prediction that is not settled. */
  lemma {:induction false} WaitingIff(file: seq<Record>, o: Outcome, reason: Reason)
    requires Load(file).Ok?
    ensures var s := Load(file).value;
      (o, reason) in s.pending <==> PendingRow(o, reason) in file && o.predictionId !in s.settlements
  {
    if file != [] {
      var init, r := file[..|file| - 1], file[|file| - 1];
      assert file == init + [r];
      WaitingIff(init, o, reason);
      hide LoadOne;
      WaitingStep(Load(init).value, r, o, reason);
    }
  }

  lemma WaitingStep(s: Store, r: Record, o: Outcome, reason: Reason)
    requires LoadOne(s, r).Ok?
    requires (o, reason) in s.pending ==> o.predictionId !in s.settlements
    ensures var after := LoadOne(s, r).value;
      && ((o, reason) in after.pending <==>
           o.predictionId !in after.settlements && ((o, reason) in s.pending || r == PendingRow(o, reason)))
      && (o.predictionId in s.settlements ==> o.predictionId in after.settlements)
  {
    hide Usable, Matches, Day, Same;
  }

  /** What is settled is exactly what a row of the file settles. */
  lemma {:induction false} SettledRowsIff(file: seq<Record>, o: Outcome)
    requires Load(file).Ok?
    ensures var s := Load(file).value;
      o.predictionId in s.settlements && s.settlements[o.predictionId] == o <==> SettlementRow(o) in file
  {
    if file != [] {
      var init, r := file[..|file| - 1], file[|file| - 1];
      assert file == init + [r];
      SettledRowsIff(init, o);
      if r.SettlementRow? { SettledRowsIff(init, r.o); }
      hide Usable, Matches, Day, Same;
    }
  }

  // ------------------------------------------------------------------------ metrics

  /** A prediction that leans up, by its probability or its score. */
  ghost predicate LeansUp(p: Prediction, calibrated: bool)
    requires calibrated ==> p.probability.Some?
  {
    if calibrated then 0.5 <= p.probability.value else 50.0 <= p.score
  }

  /** It leans up before a gain, or not before none. */
  ghost predicate Agrees(settled: seq<Prediction>, values: seq<real>, calibrated: bool, i: nat)
    requires i < |settled| == |values| && (calibrated ==> Calibrated(settled))
  {
    LeansUp(settled[i], calibrated) <==> values[i] > 0.0
  }

  ghost function Agreeing(settled: seq<Prediction>, values: seq<real>, calibrated: bool): set<nat>
    requires |settled| == |values| && (calibrated ==> Calibrated(settled))
  {
    set i: nat | i < |settled| && Agrees(settled, values, calibrated, i)
  }

  lemma AgreeingSnoc(settled: seq<Prediction>, values: seq<real>, calibrated: bool)
    requires |settled| == |values| > 0 && (calibrated ==> Calibrated(settled))
    ensures var k := |settled| - 1;
      Agreeing(settled, values, calibrated) == Agreeing(settled[..k], values[..k], calibrated) +
        (if Agrees(settled, values, calibrated, k) then {k} else {})
  {
    var k := |settled| - 1;
    hide LeansUp;
    forall i: nat | i < k
        ensures Agrees(settled, values, calibrated, i) <==> Agrees(settled[..k], values[..k], calibrated, i) {}
    hide Agrees;
  }

  /** The hits are the predictions that lean up before a gain and those that do not before none. */
  lemma {:induction false} HitsAgree(settled: seq<Prediction>, values: seq<real>, calibrated: bool)
    requires |settled| == |values| && (calibrated ==> Calibrated(settled))
    ensures Hits(settled, values, calibrated) == |Agreeing(settled, values, calibrated)|
  {
    if settled != [] {
      var k := |settled| - 1;
      HitsAgree(settled[..k], values[..k], calibrated);
      AgreeingSnoc(settled, values, calibrated);
      assert k !in Agreeing(settled[..k], values[..k], calibrated);
      assert Hit(settled[k], values[k], calibrated) <==> Agrees(settled, values, calibrated, k);
      hide Agreeing, Hit, Agrees;
    }
  }

  /** Two settled predictions of four: probabilities of 0.8 and 0.4 with scores that say the opposite, returns of
      10 percent and nothing, a cost of 20 basis points. */
  lemma TwoOfFour(p: Prediction, q: Prediction)
    requires p.calibrated && p.probability == Some(0.8) && p.score == 40.0
    requires q.calibrated && q.probability == Some(0.4) && q.score == 60.0
    ensures var m := Assess([p, q], [0.1, 0.0], 4, 20.0);
      && m.hitRate == Some(1.0) && m.brier == Some(0.1) && m.ece == Some(0.3) && m.net == Some(0.049)
      && m.drawdown == Some(0.0005) && m.turnover == Some(0.5) && m.coverage == Some(0.5) && m.rejection == Some(0.5)
  {
    hide S.Brier, S.Calibration, S.Drawdown, Hits, S.Sum, S.RankCorrelation, Scores, Probabilities, Labels, Steps,
      Calibrated, Cost, Coverage, Turnover, Ratio;
    TwoLists(p, q);
    TwoHits(p, q);
    TwoErrors();
    TwoSteps();
    TwoCosts();
  }

  lemma TwoLists(p: Prediction, q: Prediction)
    requires p.calibrated && p.probability == Some(0.8) && q.calibrated && q.probability == Some(0.4)
    ensures Calibrated([p, q]) && Probabilities([p, q]) == [0.8, 0.4] && Labels([0.1, 0.0]) == [1.0, 0.0]
  {
  }

  lemma TwoCosts()
    ensures Cost(20.0, Turnover(2, 4)) == 0.001 && Turnover(2, 4) == 0.5 && Coverage(2, 4) == 0.5 && Ratio(2, 2) == 1.0
  {
  }

  lemma TwoHits(p: Prediction, q: Prediction)
    requires p.calibrated && p.probability == Some(0.8) && q.calibrated && q.probability == Some(0.4)
    ensures Hits([p, q], [0.1, 0.0], true) == 2
  {
    assert [p, q][..1] == [p] && [0.1, 0.0][..1] == [0.1];
    assert Hits([p], [0.1], true) == 1;
  }

  lemma TwoErrors()
    ensures S.Brier([0.8, 0.4], [1.0, 0.0]) == 0.1
    ensures S.Calibration([0.8, 0.4], [1.0, 0.0]) == 0.3
  {
    var ps: seq<S.Probability>, ls: seq<S.Probability> := [0.8, 0.4], [1.0, 0.0];
    assert S.Minus(ps, ls) == [-0.2, 0.4];
    assert [-0.2, 0.4][..1] == [-0.2] && [-0.2][..0] == [];
    assert S.Dot([-0.2], [-0.2]) == 0.04;
    assert S.Dot([-0.2, 0.4], [-0.2, 0.4]) == 0.2;
    assert ps[..1] == [0.8] && ls[..1] == [1.0] && ps[..1][..0] == [] && ls[..1][..0] == [];
    assert S.Bin(0.8) == 8 && S.Bin(0.4) == 4;
    forall k: nat ensures S.Gap(k, ps, ls) == if k == 8 then -0.2 else if k == 4 then 0.4 else 0.0 {
      assert S.Gap(k, ps[..1], ls[..1]) == if k == 8 then -0.2 else 0.0;
    }
    hide S.Gap;
    assert S.Gaps(ps, ls, 4) == 0.0;
    assert S.Gaps(ps, ls, 8) == 0.4;
    assert S.Gaps(ps, ls, 10) == 0.6;
  }

  lemma TwoSteps()
    ensures S.Sum([0.1, 0.0]) == 0.1
    ensures S.Drawdown(Steps([0.1, 0.0], 0.001)) == 0.0005
  {
    assert [0.1, 0.0][..1] == [0.1];
    assert S.Sum([0.1]) == 0.1;
    var steps := Steps([0.1, 0.0], 0.001);
    assert steps == [0.0995, -0.0005];
    assert steps[..1] == [0.0995] && steps[..1][..0] == [];
    assert S.Sum([0.0995]) == 0.0995 && S.Sum(steps) == 0.099;
    assert S.Peak([0.0995]) == 0.0995 && S.Peak(steps) == 0.0995;
    assert S.Drawdown([0.0995]) == 0.0;
  }
}
