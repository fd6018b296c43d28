/** Which calls of the contest are accepted, and what status its evidence earns, in terms of their fields. */
module ContestRules {
  import opened Wrappers
  import opened CompetitionMetrics
  import opened Contest

  /** The quality gates: a positive mean return after cost, at most 35 percent lost from a peak, and four in
      five predictions settled. */
  ghost predicate Good(m: Option<Metrics>) {
    && m.Some? && m.value.net.Some? && m.value.drawdown.Some? && m.value.coverage.Some?
    && 0.0 < m.value.net.value && 0.0 <= m.value.drawdown.value <= 0.35 && m.value.coverage.value >= 0.8
  }

  /** After any run that left no status behind, approval awaits exactly on 60 sessions, 200 settled predictions and
      good metrics, and the observation is provisional exactly on 20 and 100 of them short of that. */
  lemma StatusIff(now: int, ops: seq<Op>)
    requires !LeftBehind(now, ops)
    ensures var s := Run(now, ops);
      var approval := s.sessions >= 60 && s.matured >= 200 && Good(s.metrics);
      && (s.status == AwaitingApproval <==> approval)
      && (s.status == Provisional <==> s.sessions >= 20 && s.matured >= 100 && Good(s.metrics) && !approval)
      && (s.status == NotStarted <==> s.terms.None?)
  {
    StatusBehindIff(now, ops);
    RunSound(now, ops);
    hide Run, LeftBehind;
  }

  /** No run is provisional on less. */
  lemma ProvisionalNeedsEvidence(now: int, ops: seq<Op>)
    requires Run(now, ops).status == Provisional
    ensures var s := Run(now, ops); s.terms.Some? && s.sessions >= 20 && s.matured >= 100 && Good(s.metrics)
  {
    RunSound(now, ops);
    hide Run;
  }

  ghost predicate Complete(t: Terms) {
    && "" !in [t.version.model, t.version.version, t.version.config, t.version.snapshot, t.primaryMetric]
    && t.tieBreak != [] && "" !in t.tieBreak
  }

  ghost predicate Hexadecimal(d: string) { forall c :: c in d ==> c in "0123456789abcdef" }

  /** A contest starts exactly on complete terms with a possible digest and a time that is past, and then holds
      those terms, collecting. */
  lemma FirstStartIff(now: int, ops: seq<Op>, t: Terms, at: int)
    requires Run(now, ops).terms.None?
    ensures var (after, problem) := Apply(Run(now, ops), now, Start(t, at));
      && (problem.None? <==>
            Complete(t) && at <= now && (t.bundle.Some? ==> |t.bundle.value| == 64 && Hexadecimal(t.bundle.value)))
      && after == if problem.None? then State(Some(t), Some(at), 0, 0, false, Collecting, None) else FRESH
  {
    RunSound(now, ops);
    hide Run, Passes;
    CompleteIff(t);
    if t.bundle.Some? { DigestIff(t.bundle.value); }
    hide Complete, IsDigest, Hexadecimal;
  }

  lemma CompleteIff(t: Terms)
    ensures Complete(t) <==>
      && t.version.model != "" && t.version.version != "" && t.version.config != "" && t.version.snapshot != ""
      && t.primaryMetric != "" && t.tieBreak != [] && !(exists i :: 0 <= i < |t.tieBreak| && t.tieBreak[i] == "")
  {
    var texts := [t.version.model, t.version.version, t.version.config, t.version.snapshot, t.primaryMetric];
    assert texts[0] == t.version.model && texts[1] == t.version.version && texts[2] == t.version.config &&
        texts[3] == t.version.snapshot && texts[4] == t.primaryMetric;
  }

  lemma DigestIff(d: string)
    ensures IsDigest(d) <==> |d| == 64 && Hexadecimal(d)
  {
    if Hexadecimal(d) {
      forall i | 0 <= i < |d| ensures '0' <= d[i] <= '9' || 'a' <= d[i] <= 'f' { assert d[i] in d; }
    }
    if IsDigest(d) {
      forall c | c in d ensures c in "0123456789abcdef" { HexDigit(c); }
    }
  }

  lemma HexDigit(c: char)
    requires '0' <= c <= '9' || 'a' <= c <= 'f'
    ensures c in "0123456789abcdef"
  {
    var digits := "0123456789abcdef";
    if c <= '9' { assert digits[c as int - '0' as int] == c; } else { assert digits[c as int - 'a' as int + 10] == c; }
  }

  /** A recording is accepted exactly by a started contest if no counter is negative or falls and claimed gates
      come with metrics; the counters and metrics are then those recorded, and the gates follow the metrics. */
  lemma RecordingIff(s: State, now: int, sessions: int, matured: int, claimed: bool, historical: int,
      metrics: Option<Metrics>)
    requires Sound(s)
    ensures var (after, problem) := Apply(s, now, RecordObservations(sessions, matured, claimed, historical, metrics));
      && (problem.None? <==>
            s.terms.Some? && s.sessions <= sessions && s.matured <= matured && 0 <= historical &&
            (claimed ==> metrics.Some?))
      && (problem.None? ==>
            && after.(status := s.status) ==
               s.(sessions := sessions, matured := matured, metrics := metrics, gatesPass := Good(metrics))
            && UpToDate(after))
  {
    hide StatusOf;
  }

  /** A session counts once, with the predictions it settled. */
  lemma SessionIff(s: State, now: int, newlyMatured: int, claimed: bool, metrics: Option<Metrics>)
    requires Sound(s)
    ensures var (after, problem) := Apply(s, now, RecordSession(newlyMatured, claimed, metrics));
      && (problem.None? <==> s.terms.Some? && 0 <= newlyMatured && (claimed ==> metrics.Some?))
      && (problem.None? ==>
            && after.(status := s.status) == s.(sessions := s.sessions + 1, matured := s.matured + newlyMatured,
                   metrics := metrics, gatesPass := Good(metrics))
            && UpToDate(after))
  {
    hide StatusOf;
  }

  /** A version is accepted exactly by a started contest if none of its texts is blank; everything is then collected
      anew under it, with the terms and the starting time kept. */
  lemma VersionIff(s: State, now: int, version: string, config: string, snapshot: string, model: Option<string>)
    ensures var (after, problem) := Apply(s, now, RegisterVersion(version, config, snapshot, model));
      && (problem.None? <==> s.terms.Some? && "" !in [version, config, snapshot] && model != Some(""))
      && (problem.None? ==>
            && NoEvidence(after) && after.startedAt == s.startedAt
            && after.terms.Some? && after.terms.value.version.version == version
            && after.terms.value.version.config == config && after.terms.value.version.snapshot == snapshot
            && after.terms.value.version.model ==
               (if model.Some? then model.value else s.terms.value.version.model)
            && after.terms.value.(version := s.terms.value.version) == s.terms.value)
  {
    var texts := [version, config, snapshot];
    assert texts[0] == version && texts[1] == config && texts[2] == snapshot;
  }
}
