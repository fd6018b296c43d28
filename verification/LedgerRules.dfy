/** Which fills and corrections the ledger accepts, told by their fields and by counting, and what its answers
    report. */
module LedgerRules {
  import opened Contracts
  import opened Ordering
  import opened Replay
  import opened LedgerModel
  import opened LedgerFindings

  // -------------------------------------------------------------- corrections over runs

  /** The terms a correction has to keep. */
  ghost predicate SameTerms(a: Fill, b: Fill) {
    a.side == b.side && a.symbol == b.symbol && a.tradeDate == b.tradeDate
  }

  /** Each recorded correction replaces a recorded fill by another of the same side, symbol and date; no fill is
      replaced twice; exactly the replaced ones are void. */
  ghost predicate TermsKept(s: Ledger) {
    && (forall i :: 0 <= i < |s.corrections| ==>
          var c := s.corrections[i];
          && c.originalId in s.byId && c.replacement.id in s.byId && s.byId[c.replacement.id] == c.replacement
          && SameTerms(s.byId[c.originalId], c.replacement))
    && (forall i, j :: 0 <= i < j < |s.corrections| ==> s.corrections[i].originalId != s.corrections[j].originalId)
    && (forall id :: id in s.voided <==> exists i :: 0 <= i < |s.corrections| && s.corrections[i].originalId == id)
  }

  lemma FillKeepsTerms(cfg: Config, s: Ledger, e: Fill)
    requires TermsKept(s)
    ensures TermsKept(RecordFill(cfg, s, e).0)
  {
    hide Precheck, ReceiptFor, SameEvent, BeforeLatest, SameTerms;
    var after := RecordFill(cfg, s, e).0;
    assert after.corrections == s.corrections && after.voided == s.voided;
    if after != s { assert e.id !in s.byId && after.byId == s.byId[e.id := e]; }
  }

  lemma CorrectionKeepsTerms(cfg: Config, s: Ledger, c: Correction)
    requires TermsKept(s)
    ensures TermsKept(AppendCorrection(cfg, s, c).0)
  {
    hide ReceiptFor, SnapshotAt;
    var after := AppendCorrection(cfg, s, c).0;
    if after != s {
      assert after == Corrected(s, c) && CorrectionRefused(s, c).None?;
      assert SameTerms(s.byId[c.originalId], c.replacement);
      hide SameTerms, CorrectionRefused, AppendCorrection;
      var n := |s.corrections|;
      assert after.corrections[n] == c;
      forall i | 0 <= i < n ensures after.corrections[i].originalId != c.originalId {
        assert after.corrections[i] == s.corrections[i];
      }
      forall id ensures id in after.voided <==> exists i :: 0 <= i < n + 1 && after.corrections[i].originalId == id {
        if id in s.voided {
          var i :| 0 <= i < n && s.corrections[i].originalId == id;
          assert after.corrections[i].originalId == id;
        }
      }
    }
  }

  /** In every run. */
  lemma {:induction false} RunKeepsTerms(cfg: Config, calls: seq<Call>)
    ensures TermsKept(Run(cfg, calls))
  {
    if calls != [] {
      var s := Run(cfg, calls[..|calls| - 1]);
      RunKeepsTerms(cfg, calls[..|calls| - 1]);
      hide TermsKept, RecordFill, AppendCorrection;
      match calls[|calls| - 1] {
        case Fills(e) => FillKeepsTerms(cfg, s, e);
        case Corrects(c) => CorrectionKeepsTerms(cfg, s, c);
      }
    }
  }

  // ------------------------------------------------------------------- acceptance

  lemma PrefixDateSorted(a: seq<Fill>, b: seq<Fill>)
    requires DateSorted(b) && a <= b
    ensures DateSorted(a)
  {
    forall i, j | 0 <= i < j < |a| ensures a[i].tradeDate <= a[j].tradeDate { assert a[i] == b[i] && a[j] == b[j]; }
  }

  /** A date is answered exactly when the effective fills up to it are feasible by counting. */
  lemma AnsweredIff(cfg: Config, s: Ledger, day: int)
    ensures SnapshotAt(cfg, s, day).Ok? <==> Feasible(cfg, Upto(Effective(s), day))
  {
    hide Effective, Upto, ReplayFills, Feasible, SnapshotOf;
    EffectiveMembers(s);
    UptoIsPrefix(Effective(s), day);
    PrefixDateSorted(Upto(Effective(s), day), Effective(s));
    ReplayIffFeasible(cfg, Upto(Effective(s), day));
  }

  lemma ReceiptIff(cfg: Config, s: Ledger, e: Fill, idempotent: bool)
    ensures ReceiptFor(cfg, s, e, idempotent).Ok? <==> Feasible(cfg, Upto(Effective(s), e.tradeDate))
  {
    hide SnapshotAt, Feasible;
    AnsweredIff(cfg, s, e.tradeDate);
  }

  /** Exactly which corrections are accepted. */
  lemma CorrectionAcceptedIff(cfg: Config, s: Ledger, c: Correction)
    ensures AppendCorrection(cfg, s, c).1.Ok? <==>
      && c.originalId in s.byId && c.originalId !in s.voided && c.replacement.id !in s.byId
      && c.replacement.side == s.byId[c.originalId].side && c.replacement.symbol == s.byId[c.originalId].symbol
      && c.replacement.tradeDate == s.byId[c.originalId].tradeDate && c.id != ""
      && Feasible(cfg, Upto(Effective(Corrected(s, c)), c.replacement.tradeDate))
  {
    hide Effective, Upto, Feasible, ReceiptFor, SnapshotAt;
    var after := Corrected(s, c);
    assert DefaultDate(after, 0) == c.replacement.tradeDate;
    hide Corrected;
    ReceiptIff(cfg, after, c.replacement, false);
    AnsweredIff(cfg, after, c.replacement.tradeDate);
  }

  /** The name a buy has to carry. */
  ghost predicate ProperName(cfg: Config, e: Fill) {
    e.name != "" && (e.symbol in cfg.known ==> cfg.known[e.symbol] == e.name)
  }

  /** The shares of a symbol that counting finds available on a date. */
  function Sellable(cfg: Config, s: Ledger, symbol: string, day: int): int {
    Settled(cfg, Upto(Effective(s), day), symbol, day) - Sold(Upto(Effective(s), day), symbol)
  }

  lemma AvailableIff(cfg: Config, s: Ledger, day: int, symbol: string, quantity: int)
    requires SnapshotAt(cfg, s, day).Ok? && quantity > 0
    ensures var positions := SnapshotAt(cfg, s, day).value.positions;
      (symbol in positions && positions[symbol].available >= quantity) <==> Sellable(cfg, s, symbol, day) >= quantity
  {
    var fills := Upto(Effective(s), day);
    forall f | f in fills ensures f.tradeDate <= day { UptoMembers(Effective(s), day, f); }
    CountsOfReplay(cfg, fills, symbol, day);
    if symbol in SnapshotAt(cfg, s, day).value.positions {
      SnapshotPositions(cfg, s, day, symbol);
    } else {
      assert LotsOf(ReplayFills(cfg, fills).value, symbol) == [];
    }
    hide Upto, Effective, ReplayFills, Settled, Sold, Held;
  }

  lemma PrecheckIff(cfg: Config, s: Ledger, e: Fill)
    ensures Precheck(cfg, s, e).None? <==>
      if e.side.Buy? then ProperName(cfg, e) && (cfg.lotSize > 0 ==> e.quantity % cfg.lotSize == 0)
      else Feasible(cfg, Upto(Effective(s), e.tradeDate)) && Sellable(cfg, s, e.symbol, e.tradeDate) >= e.quantity
  {
    hide SnapshotAt, Feasible, Sellable, Upto, Effective;
    AnsweredIff(cfg, s, e.tradeDate);
    if SnapshotAt(cfg, s, e.tradeDate).Ok? { AvailableIff(cfg, s, e.tradeDate, e.symbol, e.quantity); }
  }

  /** Exactly which new fills are accepted: none earlier than a recorded one; buys with the proper name, in whole lots;
      sells of shares available before; and counting must find the account able to carry the fill out. */
  lemma NewFillAcceptedIff(cfg: Config, s: Ledger, e: Fill)
    requires e.id !in s.byId
    ensures RecordFill(cfg, s, e).1.Ok? <==>
      && (forall i :: 0 <= i < |s.events| ==> s.events[i].tradeDate <= e.tradeDate)
      && (e.side.Buy? ==> ProperName(cfg, e) && (cfg.lotSize > 0 ==> e.quantity % cfg.lotSize == 0))
      && (e.side.Sell? ==>
            Feasible(cfg, Upto(Effective(s), e.tradeDate)) && Sellable(cfg, s, e.symbol, e.tradeDate) >= e.quantity)
      && Feasible(cfg, Upto(Effective(s.(events := s.events + [e])), e.tradeDate))
  {
    hide Effective, Upto, Feasible, Sellable, ReceiptFor, Precheck, ProperName;
    PrecheckIff(cfg, s, e);
    ReceiptIff(cfg, s.(events := s.events + [e]), e, false);
  }

  /** Two fills of one id are the same event exactly when nothing but the recording time differs. */
  lemma SameEventIff(a: Fill, b: Fill)
    requires a.id == b.id
    ensures SameEvent(a, b) <==> a.(recordedAt := 0) == b.(recordedAt := 0)
  {
    var x, y := a.(recordedAt := 0), b.(recordedAt := 0);
    if x == y {
      assert x.side == y.side && x.symbol == y.symbol && x.quantity == y.quantity && x.price == y.price;
      assert x.tradeDate == y.tradeDate && x.name == y.name && x.source == y.source;
    }
  }

  // ----------------------------------------------------------------------- answers

  /** The receipt of an accepted fill or correction reports the account at its date, after the call. */
  lemma ReceiptReports(cfg: Config, s: Ledger, call: Call)
    requires Indexed(s) && Step(cfg, s, call).1.Ok?
    ensures var (after, result) := Step(cfg, s, call);
      var receipt := result.value;
      var snapshot := SnapshotAt(cfg, after, receipt.event.tradeDate);
      && receipt.event in after.events && snapshot.Ok?
      && receipt.cashAfter == snapshot.value.cash && receipt.pnl == snapshot.value.pnl
      && (receipt.event.symbol in snapshot.value.positions ==>
            receipt.position == snapshot.value.positions[receipt.event.symbol])
      && (receipt.event.symbol !in snapshot.value.positions ==>
            receipt.position == Position(receipt.event.symbol, receipt.event.name, 0, 0, 0, 0))
  {
    hide SnapshotAt, Precheck, SameEvent, BeforeLatest, CorrectionRefused;
    match call {
      case Fills(e) =>
        if e.id in s.byId {
        } else {
          SameSnapshot(cfg, s.(events := s.events + [e]), RecordFill(cfg, s, e).0, e, false, e.tradeDate);
        }
      case Corrects(c) =>
    }
  }

  /** The name given by the last buy of a symbol that gave one. */
  function LastName(fills: seq<Fill>, symbol: string): string {
    if fills == [] then ""
    else
      var f := fills[|fills| - 1];
      if f.side.Buy? && f.symbol == symbol && f.name != "" then f.name else LastName(fills[..|fills| - 1], symbol)
  }

  lemma {:induction false} NamesOfReplay(cfg: Config, fills: seq<Fill>, symbol: string)
    requires ReplayFills(cfg, fills).Ok?
    ensures var names := ReplayFills(cfg, fills).value.names;
      (if symbol in names then names[symbol] else "") == LastName(fills, symbol)
  {
    if fills != [] {
      hide Notional, Outlay, Proceeds, SellLots;
      NamesOfReplay(cfg, fills[..|fills| - 1], symbol);
    }
  }

  lemma {:induction false} LotsOfBuys(cfg: Config, fills: seq<Fill>, symbol: string)
    requires ReplayFills(cfg, fills).Ok?
    ensures symbol in ReplayFills(cfg, fills).value.lots <==>
        exists f :: f in fills && f.side.Buy? && f.symbol == symbol
  {
    if fills != [] {
      hide Notional, Outlay, Proceeds, SellLots;
      var init, last := fills[..|fills| - 1], fills[|fills| - 1];
      assert fills == init + [last];
      LotsOfBuys(cfg, init, symbol);
      if f :| f in fills && f.side.Buy? && f.symbol == symbol && f != last { assert f in init; }
    }
  }

  /** A snapshot has a position for every symbol bought by its date, sold out or not. */
  lemma PositionsAreBuys(cfg: Config, s: Ledger, day: int, symbol: string)
    requires SnapshotAt(cfg, s, day).Ok?
    ensures symbol in SnapshotAt(cfg, s, day).value.positions <==>
      exists f :: f in s.events && f.id !in s.voided && f.tradeDate <= day && f.side.Buy? && f.symbol == symbol
  {
    hide Upto, Effective, ReplayFills, PositionOf;
    LotsOfBuys(cfg, Upto(Effective(s), day), symbol);
    EffectiveMembers(s);
    forall f ensures f in Upto(Effective(s), day) <==> f in Effective(s) && f.tradeDate <= day {
      UptoMembers(Effective(s), day, f);
    }
  }

  /** A position carries the name given last. */
  lemma PositionName(cfg: Config, s: Ledger, day: int, symbol: string)
    requires SnapshotAt(cfg, s, day).Ok? && symbol in SnapshotAt(cfg, s, day).value.positions
    ensures SnapshotAt(cfg, s, day).value.positions[symbol].name == LastName(Upto(Effective(s), day), symbol)
  {
    hide Upto, Effective, ReplayFills, LastName, Held, AvailableOn, CostOf, AverageCost;
    NamesOfReplay(cfg, Upto(Effective(s), day), symbol);
  }
}
