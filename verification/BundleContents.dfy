/** What the published files contain, told by their documents. */
module BundleContents {
  import opened Wrappers
  import opened TradingCalendar
  import opened DailyBundle

  // ------------------------------------------------------------- one session, all covered

  /** The plans belong to the day, hold until the next session, and cover exactly the signals and the holdings. */
  ghost predicate PlansCover(day: int, signals: seq<Signal>, plans: seq<Plan>, holdings: seq<string>) {
    && (forall p :: p in plans ==> p.calculationDate == day)
    && (forall p :: p in plans ==>
          && day < p.validFor && Open(Official, p.validFor) && (forall d :: day < d < p.validFor ==> !Open(Official, d))
          && FIRST_2026 <= day + 1 && p.validFor <= LAST_2026)
    && (forall s :: s in signals ==> exists p :: p in plans && !p.holding && p.symbol == s.symbol)
    && (forall p :: p in plans && !p.holding ==> exists s :: s in signals && s.symbol == p.symbol)
    && (forall h :: h in holdings ==> exists p :: p in plans && p.holding && p.symbol == h)
    && (forall p :: p in plans && p.holding ==> p.symbol in holdings)
  }

  /** Both files belong to one session: the signals, of which there are some, and the plans. */
  ghost predicate OneSession(cfg: Config, files: map<string, Document>, day: int, holdings: seq<string>) {
    && SignalsKey in cfg.paths && cfg.paths[SignalsKey] in files && files[cfg.paths[SignalsKey]].Signals?
    && var signals := files[cfg.paths[SignalsKey]].signals;
       && signals != [] && (forall s :: s in signals ==> s.cutoff == day)
       && |holdings| <= 50 && (forall i, j :: 0 <= i < j < |holdings| ==> holdings[i] != holdings[j])
       && (GuidanceKey in cfg.paths ==>
             && cfg.paths[GuidanceKey] in files && files[cfg.paths[GuidanceKey]].Guidance?
             && PlansCover(day, signals, files[cfg.paths[GuidanceKey]].plans, holdings))
  }

  ghost predicate Whole(cfg: Config, files: map<string, Document>) {
    exists day, holdings :: OneSession(cfg, files, day, holdings)
  }

  lemma MatchingPlansCover(day: int, signals: seq<Signal>, plans: seq<Plan>, holdings: seq<string>)
    requires PlansMatch(day, signals, plans, holdings)
    ensures PlansCover(day, signals, plans, holdings)
  {
    SignalsCovered(day, signals, plans, holdings);
    HoldingsCovered(day, signals, plans, holdings);
    forall p | p in plans ensures FIRST_2026 <= day + 1 && p.validFor <= LAST_2026 {
      assert Known(Official, day + 1) && Known(Official, p.validFor);
    }
    hide Open;
  }

  lemma SignalsCovered(day: int, signals: seq<Signal>, plans: seq<Plan>, holdings: seq<string>)
    requires PlansMatch(day, signals, plans, holdings)
    ensures forall s :: s in signals ==> exists p :: p in plans && !p.holding && p.symbol == s.symbol
    ensures forall p :: p in plans && !p.holding ==> exists s :: s in signals && s.symbol == p.symbol
  {
    hide NextIs, Known;
    var candidates := set p | p in plans && !p.holding && p.calculationDate == day :: p.symbol;
    var wanted := set s | s in signals :: s.symbol;
    forall s | s in signals ensures exists p :: p in plans && !p.holding && p.symbol == s.symbol {
      assert s.symbol in wanted && s.symbol in candidates;
    }
    forall p | p in plans && !p.holding ensures exists s :: s in signals && s.symbol == p.symbol {
      assert p.symbol in candidates && p.symbol in wanted;
    }
  }

  lemma HoldingsCovered(day: int, signals: seq<Signal>, plans: seq<Plan>, holdings: seq<string>)
    requires PlansMatch(day, signals, plans, holdings)
    ensures forall h :: h in holdings ==> exists p :: p in plans && p.holding && p.symbol == h
    ensures forall p :: p in plans && p.holding ==> p.symbol in holdings
  {
    hide NextIs, Known;
    var held := set p | p in plans && p.holding :: p.symbol;
    forall h | h in holdings ensures exists p :: p in plans && p.holding && p.symbol == h {
      assert h in (set h | h in holdings) && h in held;
    }
    forall p | p in plans && p.holding ensures p.symbol in holdings {
      assert p.symbol in held && p.symbol in (set h | h in holdings);
    }
  }

  /** The files after a body was written hold its documents. */
  lemma WrittenIsWhole(cfg: Config, files: map<string, Document>, body: Body)
    requires ValidConfig(cfg) && Publishable(cfg, body)
    ensures OneSession(cfg, AllWritten(cfg, files, body), body.session, body.holdings)
  {
    WrittenAt(cfg, files, body);
    if GuidanceKey in cfg.paths {
      MatchingPlansCover(
        body.session, body.documents[SignalsKey].signals, body.documents[GuidanceKey].plans, body.holdings);
    }
    hide PlansMatch, PlansCover, Fits, Written;
  }

  /** Over every run of publications and recoveries, cut off anywhere: if the first files belong to one session, the
      files do whenever no journal is outstanding, and again after a completed recovery. */
  lemma RunStaysWhole(cfg: Config, start: Disk, ops: seq<Op>)
    requires ValidConfig(cfg) && start.journal.None? && Whole(cfg, start.files)
    ensures Run(cfg, start, ops).journal.None? ==> Whole(cfg, Run(cfg, start, ops).files)
    ensures Whole(cfg, Run(cfg, start, ops + [Recover(Complete(cfg))]).files)
  {
    hide Run, Whole, Publishable, Written;
    RunConsistent(cfg, start, ops);
    RecoveryCompletes(cfg, start, ops);
    RunOneMore(cfg, start, ops, Recover(Complete(cfg)));
    CleanIsWhole(cfg, start.files, Recovered(cfg, Run(cfg, start, ops), Complete(cfg)).files);
    if Run(cfg, start, ops).journal.None? { CleanIsWhole(cfg, start.files, Run(cfg, start, ops).files); }
  }

  lemma RunOneMore(cfg: Config, start: Disk, ops: seq<Op>, op: Op)
    ensures Run(cfg, start, ops + [op]) == Step(cfg, Run(cfg, start, ops), op)
  {
    assert (ops + [op])[..|ops|] == ops;
  }

  lemma CleanIsWhole(cfg: Config, start: map<string, Document>, files: map<string, Document>)
    requires ValidConfig(cfg) && Whole(cfg, start) && Clean(cfg, start, files)
    ensures Whole(cfg, files)
  {
    hide OneSession, Publishable, Written;
    if files != start {
      var body :| FromOneBody(cfg, start, files, body);
      WrittenIsWhole(cfg, start, body);
    }
  }

  /** What never reaches the disk: another format version, other targets, other documents, too many or repeated
      holdings, or more bytes than allowed. */
  lemma FaultyIsRefused(cfg: Config, disk: Disk, body: Body, effects: nat)
    requires
      || body.version != 1 || body.paths != cfg.paths || body.documents.Keys != cfg.paths.Keys || |body.holdings| > 50
      || (exists i, j :: 0 <= i < j < |body.holdings| && body.holdings[i] == body.holdings[j])
      || cfg.size(body) >= cfg.maximumBytes
    ensures Published(cfg, disk, body, effects) == disk
  {
    hide PlansMatch;
  }

  // ------------------------------------------------------------------- a named session

  /** Monday, 5 January 2026, and the Tuesday after it. */
  const MONDAY := FIRST_2026 + 4

  const NAMED_SIGNALS := [Signal("600000", MONDAY), Signal("000001", MONDAY)]

  const NAMED_PLANS := [
    Plan("000001", false, MONDAY, MONDAY + 1), Plan("600000", false, MONDAY, MONDAY + 1),
        Plan("300001", true, MONDAY, MONDAY + 1)]

  function NamedConfig(): Config {
    Config(map[SignalsKey := "signals.json", GuidanceKey := "plans.json"], body => 1000, 2000)
  }

  const NAMED_BODY := Body(
    1, MONDAY, NamedConfig().paths, map[SignalsKey := Signals(NAMED_SIGNALS), GuidanceKey := Guidance(NAMED_PLANS)],
        ["300001"])

  lemma MondayThenTuesday()
    ensures NextIs(Official, MONDAY, MONDAY + 1) && Open(Official, MONDAY)
  {
  }

  lemma NamedPlansMatch()
    ensures PlansMatch(MONDAY, NAMED_SIGNALS, NAMED_PLANS, ["300001"])
  {
    MondayThenTuesday();
    hide NextIs, Open;
    var signals, plans := NAMED_SIGNALS, NAMED_PLANS;
    assert signals == [signals[0], signals[1]] && plans == [plans[0], plans[1], plans[2]];
    var candidates := set p | p in plans && !p.holding && p.calculationDate == MONDAY :: p.symbol;
    var wanted := set s | s in signals :: s.symbol;
    assert plans[0] in plans && plans[1] in plans && plans[2] in plans && signals[0] in signals &&
        signals[1] in signals;
    assert candidates == {"600000", "000001"};
    assert wanted == {"600000", "000001"};
    assert (set p | p in plans && p.holding :: p.symbol) == {"300001"};
    assert (set h | h in ["300001"]) == {"300001"};
  }

  /** The named body, with two candidates and one holding, is published to the end: both files are its documents. */
  lemma NamedBodyIsPublished(files: map<string, Document>)
    ensures Published(NamedConfig(), Disk(files, None), NAMED_BODY, Complete(NamedConfig())) ==
            Disk(files["signals.json" := Signals(NAMED_SIGNALS)]["plans.json" := Guidance(NAMED_PLANS)], None)
  {
    var cfg := NamedConfig();
    NamedPlansMatch();
    hide PlansMatch;
    assert ValidConfig(cfg) && "signals.json"[0] != "plans.json"[0];
    forall s | s in NAMED_SIGNALS ensures s.cutoff == MONDAY {}
    assert NAMED_BODY.documents.Keys == cfg.paths.Keys;
    assert Publishable(cfg, NAMED_BODY);
    WrittenAt(cfg, files, NAMED_BODY);
  }

  /** So is, where no guidance is configured, the named signals document alone. */
  lemma NamedSignalsArePublished(files: map<string, Document>)
    ensures var cfg := Config(map[SignalsKey := "signals.json"], body => 1000, 2000);
      var body := Body(1, MONDAY, cfg.paths, map[SignalsKey := Signals(NAMED_SIGNALS)], []);
      Published(cfg, Disk(files, None), body, Complete(cfg)) ==
      Disk(files["signals.json" := Signals(NAMED_SIGNALS)], None)
  {
    var cfg := Config(map[SignalsKey := "signals.json"], body => 1000, 2000);
    var body := Body(1, MONDAY, cfg.paths, map[SignalsKey := Signals(NAMED_SIGNALS)], []);
    forall s | s in NAMED_SIGNALS ensures s.cutoff == MONDAY {}
    assert body.documents.Keys == cfg.paths.Keys;
    assert Publishable(cfg, body);
    WrittenAt(cfg, files, body);
  }
}
