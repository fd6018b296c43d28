/** The daily publication journal: two separate file replacements made one logical commit.
    A crash may fall between any two atomic file effects. */
module DailyBundle {
  import opened Wrappers
  import opened TradingCalendar

  datatype Key = SignalsKey | GuidanceKey

  datatype Signal = Signal(symbol: string, cutoff: int)

  datatype Plan = Plan(symbol: string, holding: bool, calculationDate: int, validFor: int)

  /** A staged document as its store reads it; `Unreadable` is one the store rejects. */
  datatype Document = Signals(signals: seq<Signal>) | Guidance(plans: seq<Plan>) | Unreadable

  datatype Body = Body(
    version: int, session: int, paths: map<Key, string>, documents: map<Key, Document>, holdings: seq<string>)

  datatype Config = Config(paths: map<Key, string>, size: Body -> nat, maximumBytes: nat)

  /** What the constructor accepts: a signal path, and distinct paths. */
  ghost predicate ValidConfig(cfg: Config) {
    SignalsKey in cfg.paths &&
    (GuidanceKey in cfg.paths ==> cfg.paths[GuidanceKey] != cfg.paths[SignalsKey])
  }

  datatype Disk = Disk(files: map<string, Document>, journal: Option<Body>)

  function Targets(cfg: Config): seq<Key> {
    if GuidanceKey in cfg.paths then [SignalsKey, GuidanceKey] else [SignalsKey]
  }

  ghost predicate PlansMatch(day: int, signals: seq<Signal>, plans: seq<Plan>, holdings: seq<string>) {
    && (set p | p in plans && !p.holding && p.calculationDate == day :: p.symbol) == (set s | s in signals :: s.symbol)
    && (forall p :: p in plans ==> p.calculationDate == day)
    && (forall p :: p in plans ==> NextIs(Official, day, p.validFor) && forall d :: day < d <= p.validFor ==>
        Known(Official, d))
    && (set p | p in plans && p.holding :: p.symbol) == (set h | h in holdings)
  }

  /** What a body must satisfy before its journal is written, and again before it is applied. */
  ghost predicate ValidBody(cfg: Config, body: Body) {
    && body.version == 1 && body.paths == cfg.paths && body.documents.Keys == cfg.paths.Keys
    && |body.holdings| <= 50 && (forall i, j :: 0 <= i < j < |body.holdings| ==> body.holdings[i] != body.holdings[j])
    && SignalsKey in body.documents && body.documents[SignalsKey].Signals?
    && body.documents[SignalsKey].signals != []
    && (forall s :: s in body.documents[SignalsKey].signals ==> s.cutoff == body.session)
    && (GuidanceKey in body.documents ==>
          && body.documents[GuidanceKey].Guidance?
          && PlansMatch(body.session, body.documents[SignalsKey].signals,
                        body.documents[GuidanceKey].plans, body.holdings))
  }

  ghost predicate Fits(cfg: Config, body: Body) {
    cfg.size(body) + 1 <= cfg.maximumBytes
  }

  ghost predicate Publishable(cfg: Config, body: Body) {
    ValidBody(cfg, body) && Fits(cfg, body)
  }

  /** The files after the first `n` replacements. */
  function Written(cfg: Config, files: map<string, Document>, body: Body, n: nat): map<string, Document>
    requires n <= |Targets(cfg)|
  {
    if n == 0 then files
    else
      var key := Targets(cfg)[n - 1];
      var before := Written(cfg, files, body, n - 1);
      if key in cfg.paths && key in body.documents then before[cfg.paths[key] := body.documents[key]] else before
  }

  function AllWritten(cfg: Config, files: map<string, Document>, body: Body): map<string, Document> {
    Written(cfg, files, body, |Targets(cfg)|)
  }

  /** `_apply` cut off after `effects` atomic effects: the replacements, then the journal's removal. */
  function Applied(cfg: Config, disk: Disk, body: Body, effects: nat): Disk {
    if effects <= |Targets(cfg)| then disk.(files := Written(cfg, disk.files, body, effects))
    else Disk(AllWritten(cfg, disk.files, body), None)
  }

  ghost function Published(cfg: Config, disk: Disk, body: Body, effects: nat): Disk {
    if disk.journal.Some? || !Publishable(cfg, body) || effects == 0 then disk
    else Applied(cfg, disk.(journal := Some(body)), body, effects - 1)
  }

  ghost function Recovered(cfg: Config, disk: Disk, effects: nat): Disk {
    if disk.journal.None? || !Publishable(cfg, disk.journal.value) then disk
    else Applied(cfg, disk, disk.journal.value, effects)
  }

  /** Enough effects for a call that does not crash. */
  function Complete(cfg: Config): nat { |Targets(cfg)| + 2 }

  // ------------------------------------------------------------------- runs

  datatype Op = Publish(body: Body, effects: nat) | Recover(effects: nat)

  ghost function Step(cfg: Config, disk: Disk, op: Op): Disk {
    match op
    case Publish(body, effects) => Published(cfg, disk, body, effects)
    case Recover(effects) => Recovered(cfg, disk, effects)
  }

  ghost function Run(cfg: Config, disk: Disk, ops: seq<Op>): Disk {
    if ops == [] then disk else Step(cfg, Run(cfg, disk, ops[..|ops| - 1]), ops[|ops| - 1])
  }

  /** Both targets hold one body's documents, every other file is as it was at the start. */
  ghost predicate FromOneBody(cfg: Config, start: map<string, Document>, files: map<string, Document>, body: Body) {
    Publishable(cfg, body) && files == AllWritten(cfg, start, body)
  }

  ghost predicate Clean(cfg: Config, start: map<string, Document>, files: map<string, Document>) {
    files == start || exists body :: FromOneBody(cfg, start, files, body)
  }

  /** Without a journal the files are clean; with one they are clean files on the way to its body. */
  ghost predicate Consistent(cfg: Config, start: map<string, Document>, disk: Disk) {
    match disk.journal
    case None => Clean(cfg, start, disk.files)
    case Some(body) =>
      && Publishable(cfg, body)
      && exists base, n: nat :: n <= |Targets(cfg)| && Clean(cfg, start, base) &&
          disk.files == Written(cfg, base, body, n)
  }

  lemma WrittenAt(cfg: Config, files: map<string, Document>, body: Body)
    requires ValidConfig(cfg) && ValidBody(cfg, body)
    ensures Written(cfg, files, body, 0) == files
    ensures Written(cfg, files, body, 1) == files[cfg.paths[SignalsKey] := body.documents[SignalsKey]]
    ensures |Targets(cfg)| == 2 ==>
      && GuidanceKey in cfg.paths && GuidanceKey in body.documents
      && Written(cfg, files, body, 2) ==
           files[cfg.paths[SignalsKey] := body.documents[SignalsKey]][cfg.paths[GuidanceKey] :=
               body.documents[GuidanceKey]]
  {
    hide PlansMatch;
    if |Targets(cfg)| == 2 {
      assert Written(cfg, files, body, 2) ==
        Written(cfg, files, body, 1)[cfg.paths[GuidanceKey] := body.documents[GuidanceKey]];
    }
  }

  function Larger(a: nat, b: nat): nat { if a >= b then a else b }

  /** Starting over after a partial application only ever moves forward. */
  lemma RewriteAbsorbs(cfg: Config, files: map<string, Document>, body: Body, j: nat, n: nat)
    requires ValidConfig(cfg) && ValidBody(cfg, body) && j <= |Targets(cfg)| && n <= |Targets(cfg)|
    ensures Written(cfg, Written(cfg, files, body, j), body, n) == Written(cfg, files, body, Larger(j, n))
  {
    WrittenAt(cfg, files, body);
    WrittenAt(cfg, Written(cfg, files, body, j), body);
    assert |Targets(cfg)| <= 2;
    hide Written, ValidBody;
  }

  lemma OverwriteAll(cfg: Config, files: map<string, Document>, first: Body, second: Body)
    requires ValidConfig(cfg) && ValidBody(cfg, first) && ValidBody(cfg, second)
    ensures AllWritten(cfg, AllWritten(cfg, files, first), second) == AllWritten(cfg, files, second)
  {
    WrittenAt(cfg, files, first);
    WrittenAt(cfg, files, second);
    WrittenAt(cfg, AllWritten(cfg, files, first), second);
    hide Written, ValidBody;
  }

  /** A clean state published over again only remembers the last body. */
  lemma CleanAfterAll(cfg: Config, start: map<string, Document>, base: map<string, Document>, body: Body)
    requires ValidConfig(cfg) && Clean(cfg, start, base) && Publishable(cfg, body)
    ensures Clean(cfg, start, AllWritten(cfg, base, body))
  {
    hide AllWritten, ValidBody;
    if base != start {
      var earlier :| FromOneBody(cfg, start, base, earlier);
      OverwriteAll(cfg, start, earlier, body);
    }
    assert FromOneBody(cfg, start, AllWritten(cfg, base, body), body);
  }

  lemma AppliedConsistent(cfg: Config, start: map<string, Document>, base: map<string, Document>, n: nat, body: Body,
      effects: nat)
    requires ValidConfig(cfg) && Publishable(cfg, body) && Clean(cfg, start, base) && n <= |Targets(cfg)|
    ensures Consistent(cfg, start, Applied(cfg, Disk(Written(cfg, base, body, n), Some(body)), body, effects))
  {
    hide Written, ValidBody, Clean, Targets;
    if effects <= |Targets(cfg)| {
      RewriteAbsorbs(cfg, base, body, n, effects);
    } else {
      RewriteAbsorbs(cfg, base, body, n, |Targets(cfg)|);
      CleanAfterAll(cfg, start, base, body);
    }
  }

  /** Every run of publications and recoveries, each cut off anywhere, keeps the disk consistent. */
  lemma {:induction false} RunConsistent(cfg: Config, start: Disk, ops: seq<Op>)
    requires ValidConfig(cfg) && start.journal.None?
    ensures Consistent(cfg, start.files, Run(cfg, start, ops))
  {
    if ops != [] {
      var before := Run(cfg, start, ops[..|ops| - 1]);
      RunConsistent(cfg, start, ops[..|ops| - 1]);
      StepConsistent(cfg, start.files, before, ops[|ops| - 1]);
    }
  }

  lemma StepConsistent(cfg: Config, start: map<string, Document>, disk: Disk, op: Op)
    requires ValidConfig(cfg) && Consistent(cfg, start, disk)
    ensures Consistent(cfg, start, Step(cfg, disk, op))
  {
    hide ValidBody, Fits, Clean, Targets;
    match op {
      case Publish(body, effects) =>
        if disk.journal.None? && Publishable(cfg, body) && effects > 0 {
          assert Written(cfg, disk.files, body, 0) == disk.files;
          AppliedConsistent(cfg, start, disk.files, 0, body, effects - 1);
        }
      case Recover(effects) =>
        if disk.journal.Some? {
          var body := disk.journal.value;
          var base, n: nat :| n <= |Targets(cfg)| && Clean(cfg, start, base) &&
              disk.files == Written(cfg, base, body, n);
          AppliedConsistent(cfg, start, base, n, body, effects);
          assert disk == Disk(Written(cfg, base, body, n), Some(body));
        }
    }
  }

  /** In every reachable state a completed recovery is never refused, leaves no journal and clean
      files, and doing it again changes nothing. */
  lemma RecoveryCompletes(cfg: Config, start: Disk, ops: seq<Op>)
    requires ValidConfig(cfg) && start.journal.None?
    ensures var disk := Run(cfg, start, ops);
      var after := Recovered(cfg, disk, Complete(cfg));
      && (disk.journal.Some? ==> Publishable(cfg, disk.journal.value))
      && after.journal.None? && Clean(cfg, start.files, after.files)
      && Recovered(cfg, after, Complete(cfg)) == after
      && (disk.journal.None? ==> after == disk)
  {
    var disk := Run(cfg, start, ops);
    RunConsistent(cfg, start, ops);
    StepConsistent(cfg, start.files, disk, Recover(Complete(cfg)));
  }

  ghost function RecoverTimes(cfg: Config, disk: Disk, cuts: seq<nat>): Disk {
    if cuts == [] then disk else Recovered(cfg, RecoverTimes(cfg, disk, cuts[..|cuts| - 1]), cuts[|cuts| - 1])
  }

  /** One publication, cut off after any number of effects, any number of recoveries cut off
      anywhere, then one completed recovery: both files are old exactly when the journal was never
      written, and both new otherwise. */
  lemma AllOrNothing(cfg: Config, disk: Disk, body: Body, effects: nat, cuts: seq<nat>)
    requires ValidConfig(cfg) && disk.journal.None?
    ensures Recovered(cfg, RecoverTimes(cfg, Published(cfg, disk, body, effects), cuts), Complete(cfg)) ==
      if Publishable(cfg, body) && effects > 0 then Disk(AllWritten(cfg, disk.files, body), None) else disk
  {
    hide Written, ValidBody, Fits, Targets, RecoverTimes, Published;
    if Publishable(cfg, body) && effects > 0 {
      var n, done := OnTheWay(cfg, disk, body, effects, cuts);
      if !done { RewriteAbsorbs(cfg, disk.files, body, n, |Targets(cfg)|); }
    } else {
      NeverStarted(cfg, disk, body, effects, cuts);
    }
  }

  /** Where a publication followed by recoveries, each cut off anywhere, has got to: `n` replacements and the
      journal still there, or everything done. */
  lemma {:induction false} OnTheWay(cfg: Config, disk: Disk, body: Body, effects: nat, cuts: seq<nat>)
      returns (n: nat, done: bool)
    requires ValidConfig(cfg) && disk.journal.None? && Publishable(cfg, body) && effects > 0
    ensures n <= |Targets(cfg)|
    ensures RecoverTimes(cfg, Published(cfg, disk, body, effects), cuts) ==
            if done then Disk(AllWritten(cfg, disk.files, body), None)
            else Disk(Written(cfg, disk.files, body, n), Some(body))
  {
    hide ValidBody, Fits, Targets;
    if cuts == [] {
      done := effects > |Targets(cfg)| + 1;
      n := if done then 0 else effects - 1;
    } else {
      var init, cut := cuts[..|cuts| - 1], cuts[|cuts| - 1];
      n, done := OnTheWay(cfg, disk, body, effects, init);
      if !done {
        var reached := if cut <= |Targets(cfg)| then cut else |Targets(cfg)|;
        RewriteAbsorbs(cfg, disk.files, body, n, reached);
        hide Written;
        done := cut > |Targets(cfg)|;
        n := Larger(n, reached);
      }
    }
  }

  /** What is refused, or cut off before the journal, leaves the disk as it was. */
  lemma {:induction false} NeverStarted(cfg: Config, disk: Disk, body: Body, effects: nat, cuts: seq<nat>)
    requires disk.journal.None? && !(Publishable(cfg, body) && effects > 0)
    ensures RecoverTimes(cfg, Published(cfg, disk, body, effects), cuts) == disk
  {
    hide Publishable, Applied;
    if cuts != [] { NeverStarted(cfg, disk, body, effects, cuts[..|cuts| - 1]); }
  }

  /** A journal written for other targets is refused and kept, and so is everything else, whatever is tried. */
  lemma {:induction false} OtherConfigurationRefuses(cfg: Config, other: Config, disk: Disk, ops: seq<Op>)
    requires disk.journal.Some? && Publishable(cfg, disk.journal.value) && other.paths != cfg.paths
    ensures Run(other, disk, ops) == disk
  {
    if ops != [] { OtherConfigurationRefuses(cfg, other, disk, ops[..|ops| - 1]); }
  }

  // ------------------------------------------------------------- the transaction

  datatype Outcome = Finished | Refused | Nothing | Crashed

  class DailyBundleTransaction {
    const cfg: Config
    var files: map<string, Document>
    var journal: Option<Body>

    ghost function State(): Disk
      reads this
    {
      Disk(files, journal)
    }

    constructor (cfg: Config, files: map<string, Document>, journal: Option<Body>)
      requires ValidConfig(cfg)
      ensures this.cfg == cfg && State() == Disk(files, journal)
    {
      this.cfg, this.files, this.journal := cfg, files, journal;
    }

    method Validate(body: Body) returns (ok: bool)
      ensures ok <==> ValidBody(cfg, body)
    {
      if body.version != 1 || body.paths != cfg.paths || body.documents.Keys != cfg.paths.Keys { return false; }
      if |body.holdings| > 50 { return false; }
      if exists i, j :: 0 <= i < j < |body.holdings| && body.holdings[i] == body.holdings[j] { return false; }
      if SignalsKey !in body.documents || !body.documents[SignalsKey].Signals? { return false; }
      var signals := body.documents[SignalsKey].signals;
      if signals == [] || exists s :: s in signals && s.cutoff != body.session { return false; }
      if GuidanceKey !in body.documents { return true; }
      if !body.documents[GuidanceKey].Guidance? { return false; }
      ok := ValidatePlans(body.session, signals, body.documents[GuidanceKey].plans, body.holdings);
    }

    method ValidatePlans(day: int, signals: seq<Signal>, plans: seq<Plan>, holdings: seq<string>) returns (ok: bool)
      ensures ok <==> PlansMatch(day, signals, plans, holdings)
    {
      var candidates := set p | p in plans && !p.holding && p.calculationDate == day :: p.symbol;
      if candidates != (set s | s in signals :: s.symbol) { return false; }
      if exists p :: p in plans && p.calculationDate != day { return false; }
      var held := set p | p in plans && p.holding :: p.symbol;
      if plans != [] {
        var next := NextSession(Official, day);
        if next.None? {
          forall v ensures !(NextIs(Official, day, v) && forall d :: day < d <= v ==> Known(Official, d)) {}
          assert plans[0] in plans;
          return false;
        }
        if exists p :: p in plans && p.validFor != next.value {
          return false;
        }
      }
      ok := held == (set h | h in holdings);
    }

    /** The replacements in order, then the journal's removal, stopping after `effects` of them. */
    method Apply(body: Body, effects: nat) returns (outcome: Outcome)
      requires ValidBody(cfg, body) && ValidConfig(cfg)
      modifies this
      ensures State() == Applied(cfg, old(State()), body, effects)
      ensures outcome == if effects > |Targets(cfg)| then Finished else Crashed
    {
      var keys := Targets(cfg);
      var i := 0;
      while i < |keys|
        invariant 0 <= i <= |keys| && i <= effects
        invariant State() == Disk(Written(cfg, old(files), body, i), old(journal))
      {
        if i == effects { return Crashed; }
        files := files[cfg.paths[keys[i]] := body.documents[keys[i]]];
        i := i + 1;
      }
      if i == effects { return Crashed; }
      journal := None;
      outcome := Finished;
    }

    method Publish(body: Body, effects: nat) returns (outcome: Outcome)
      requires ValidConfig(cfg)
      modifies this
      ensures State() == Published(cfg, old(State()), body, effects)
      ensures outcome.Refused? <==> old(journal).Some? || !Publishable(cfg, body)
      ensures outcome.Finished? <==> !outcome.Refused? && effects >= Complete(cfg)
    {
      if journal.Some? { return Refused; }
      var ok := Validate(body);
      if !ok || cfg.size(body) + 1 > cfg.maximumBytes { return Refused; }
      if effects == 0 { return Crashed; }
      journal := Some(body);
      outcome := Apply(body, effects - 1);
    }

    method Recover(effects: nat) returns (outcome: Outcome)
      requires ValidConfig(cfg)
      modifies this
      ensures State() == Recovered(cfg, old(State()), effects)
      ensures outcome.Nothing? <==> old(journal).None?
      ensures outcome.Refused? <==> old(journal).Some? && !Publishable(cfg, old(journal).value)
      ensures outcome.Finished? <==>
          old(journal).Some? && Publishable(cfg, old(journal).value) && effects > |Targets(cfg)|
    {
      if journal.None? { return Nothing; }
      var body := journal.value;
      var ok := Validate(body);
      if !ok || cfg.size(body) + 1 > cfg.maximumBytes { return Refused; }
      outcome := Apply(body, effects);
    }
  }
}
