/** Replaying a strategy over historical bars: the run, its equity curve and its drawdown. */
module Backtest {
  import opened Basics
  import Paper
  import opened Ledger

  // ------------------------------------------------------------------- one run

  /** One bar of a run: the account before and after it, and the fills between. */
  datatype Entry = Entry(bar: Bar, before: Account, fills: seq<Fill>, after: Account)

  datatype Run<S> = Run(book: Paper.Book, strat: S, acct: Account, fills: seq<Fill>,
                        curve: seq<(int, real)>, log: seq<Entry>)

  /** Placing a bar's intents in order: the final book and the immediate fills. */
  function PlaceAll(cfg: Paper.Config, b: Paper.Book, intents: seq<Intent>): (Paper.Book, seq<Fill>) {
    if intents == [] then (b, []) else
      var (b1, fs) := PlaceAll(cfg, b, intents[..|intents| - 1]);
      var (b2, p) := Paper.Place(cfg, b1, intents[|intents| - 1]);
      (b2, fs + p.fills)
  }

  /** The fills a bar causes: the mark moves first, then the strategy's orders go in. */
  function BarFills<S>(cfg: Paper.Config, f: Strategy<S>, book: Paper.Book, strat: S, bar: Bar): seq<Fill> {
    PlaceAll(cfg, Paper.UpdateMark(cfg, book, bar.symbol, bar.close).0, f(bar, strat).0).1
  }

  function StepBar<S>(cfg: Paper.Config, f: Strategy<S>, r: Run<S>, bar: Bar): Run<S> {
    var marked := Paper.UpdateMark(cfg, r.book, bar.symbol, bar.close).0;
    var (intents, strat) := f(bar, r.strat);
    var (book, fs) := PlaceAll(cfg, marked, intents);
    var acct := PostAll(r.acct, fs);
    Run(book, strat, acct, r.fills + fs, r.curve + [(bar.tsMs, Equity(acct, bar.close))],
        r.log + [Entry(bar, r.acct, fs, acct)])
  }

  function Replay<S>(cfg: Paper.Config, f: Strategy<S>, s0: S, cash: real, bars: seq<Bar>): Run<S> {
    if bars == [] then Run(Paper.EMPTY_BOOK, s0, Opening(cash), [], [], [])
    else StepBar(cfg, f, Replay(cfg, f, s0, cash, bars[..|bars| - 1]), bars[|bars| - 1])
  }

  datatype Result = Result(symbol: string, bars: nat, startingCash: real, finalEquity: real,
                           totalReturnPct: real, maxDrawdownPct: real, numTrades: nat,
                           winRate: real, curve: seq<(int, real)>)

  method RunBacktest<S>(cfg: Paper.Config, strategy: Strategy<S>, s0: S, bars: seq<Bar>, startingCash: real)
      returns (r: Result)
    ensures var run := Replay(cfg, strategy, s0, startingCash, bars);
            && r.curve == run.curve
            && r.numTrades == run.acct.numTrades == |run.fills|
            && r.finalEquity == (if bars == [] then startingCash else Equity(run.acct, bars[|bars| - 1].close))
            && r.maxDrawdownPct == Drawdown(r.curve)
            && IsShare(r.winRate, WinsIn(startingCash, run.fills), SellsIn(run.fills))
            && IsReturn(r.totalReturnPct, startingCash, r.finalEquity)
            && r.symbol == (if bars == [] then "" else bars[0].symbol) && r.bars == |bars|
            && r.startingCash == startingCash
  {
    var curve, cash, position, avgCost, numTrades, wins, sells := ReplayLoop(cfg, strategy, s0, bars, startingCash);
    ghost var run := Replay(cfg, strategy, s0, startingCash, bars);
    ReplayBooks(cfg, strategy, s0, startingCash, bars);
    BooksMirror(startingCash, run.fills);
    CountsSellsAndWins(startingCash, run.fills);
    var finalEquity := if curve != [] then curve[|curve| - 1].1 else startingCash;
    var dd := MaxDrawdownPct(curve);
    WinRateIsTheShare(wins, sells);
    ReturnIsTheGain(startingCash, finalEquity);
    r := Result(if bars != [] then bars[0].symbol else "", |bars|, startingCash, finalEquity,
                ReturnPct(startingCash, finalEquity), dd, numTrades, WinRatePct(wins, sells), curve);
  }

  /** `pct` percent of the whole are the part; none of nothing. */
  ghost predicate IsShare(pct: real, part: nat, whole: nat) {
    0.0 <= pct <= 100.0 && pct * whole as real == 100.0 * part as real && (whole == 0 ==> pct == 0.0)
  }

  /** The starting cash, raised by `pct` percent, is the final equity; nothing is said of a start from nothing. */
  ghost predicate IsReturn(pct: real, startingCash: real, finalEquity: real) {
    if startingCash > 0.0 then startingCash * (1.0 + pct / 100.0) == finalEquity else pct == 0.0
  }

  function WinRatePct(wins: nat, sells: nat): real {
    if sells != 0 then wins as real / sells as real * 100.0 else 0.0
  }

  function ReturnPct(startingCash: real, finalEquity: real): real {
    if startingCash > 0.0 then (finalEquity / startingCash - 1.0) * 100.0 else 0.0
  }

  lemma WinRateIsTheShare(wins: nat, sells: nat)
    requires wins <= sells
    ensures IsShare(WinRatePct(wins, sells), wins, sells)
  {
    if sells != 0 {
      var q := wins as real / sells as real;
      assert q * sells as real == wins as real;
      assert 0.0 <= q <= 1.0;
    }
  }

  lemma ReturnIsTheGain(startingCash: real, finalEquity: real)
    ensures IsReturn(ReturnPct(startingCash, finalEquity), startingCash, finalEquity)
  {
    if startingCash > 0.0 {
      assert finalEquity / startingCash * startingCash == finalEquity;
    }
  }

  /** The bar loop, over the six running variables of the account. */
  method ReplayLoop<S>(cfg: Paper.Config, strategy: Strategy<S>, s0: S, bars: seq<Bar>, startingCash: real)
      returns (curve: seq<(int, real)>, cash: real, position: real, avgCost: real, numTrades: nat, wins: nat,
          sells: nat)
    ensures var run := Replay(cfg, strategy, s0, startingCash, bars);
            && curve == run.curve
            && Account(cash, position, avgCost, numTrades, wins, sells) == run.acct
  {
    var adapter := new Paper.PaperExchangeAdapter(cfg);
    var state := s0;
    cash, position, avgCost := startingCash, 0.0, 0.0;
    numTrades, wins, sells := 0, 0, 0;
    curve := [];
    for k := 0 to |bars|
      invariant adapter.cfg == cfg && Paper.Wf(adapter.State())
      invariant var run := Replay(cfg, strategy, s0, startingCash, bars[..k]);
                && (adapter.State(), state, curve) == (run.book, run.strat, run.curve)
                && Account(cash, position, avgCost, numTrades, wins, sells) == run.acct
    {
      ghost var run := Replay(cfg, strategy, s0, startingCash, bars[..k]);
      ReplayOne(cfg, strategy, s0, startingCash, bars, k);
      state, curve, cash, position, avgCost, numTrades, wins, sells :=
        ReplayBar(adapter, strategy, run, bars[k], state, curve, cash, position, avgCost, numTrades, wins, sells);
    }
    assert bars[..|bars|] == bars;
  }

  method ReplayBar<S>(adapter: Paper.PaperExchangeAdapter, strategy: Strategy<S>, ghost run: Run<S>, bar: Bar,
                      state0: S, curve0: seq<(int, real)>,
                      cash0: real, position0: real, avgCost0: real, numTrades0: nat, wins0: nat, sells0: nat)
      returns (state: S, curve: seq<(int, real)>, cash: real, position: real, avgCost: real, numTrades: nat,
          wins: nat, sells: nat)
    requires Paper.Wf(adapter.State())
    requires (adapter.State(), state0, curve0) == (run.book, run.strat, run.curve)
    requires Account(cash0, position0, avgCost0, numTrades0, wins0, sells0) == run.acct
    modifies adapter
    ensures Paper.Wf(adapter.State())
    ensures var run' := StepBar(adapter.cfg, strategy, run, bar);
            && (adapter.State(), state, curve) == (run'.book, run'.strat, run'.curve)
            && Account(cash, position, avgCost, numTrades, wins, sells) == run'.acct
  {
    StepBarParts(adapter.cfg, strategy, run, bar);
    var _ := adapter.SetMark(bar.symbol, bar.close);
    var (intents, state') := strategy(bar, state0);
    state := state';
    ghost var fs;
    cash, position, avgCost, numTrades, wins, sells, fs :=
      PlaceIntents(adapter, intents, cash0, position0, avgCost0, numTrades0, wins0, sells0);
    ghost var acct := Account(cash, position, avgCost, numTrades, wins, sells);
    assert acct == PostAll(run.acct, fs);
    assert cash + position * bar.close == Equity(acct, bar.close);
    curve := curve0 + [(bar.tsMs, cash + position * bar.close)];
    assert StepBar(adapter.cfg, strategy, run, bar).curve == curve;
  }

  lemma {:induction false} StepBarParts<S>(cfg: Paper.Config, f: Strategy<S>, r: Run<S>, bar: Bar)
    ensures var (b, fs) := PlaceAll(cfg, Paper.UpdateMark(cfg, r.book, bar.symbol, bar.close).0, f(bar, r.strat).0);
            var r' := StepBar(cfg, f, r, bar);
            && r'.book == b && r'.strat == f(bar, r.strat).1 && r'.acct == PostAll(r.acct, fs)
            && r'.curve == r.curve + [(bar.tsMs, Equity(r'.acct, bar.close))]
            && r'.fills == r.fills + fs
            && r'.log == r.log + [Entry(bar, r.acct, fs, r'.acct)]
  {}

  lemma {:induction false} ReplayOne<S>(cfg: Paper.Config, f: Strategy<S>, s0: S, cash: real, bars: seq<Bar>, i: nat)
    requires i < |bars|
    ensures Replay(cfg, f, s0, cash, bars[..i + 1]) == StepBar(cfg, f, Replay(cfg, f, s0, cash, bars[..i]), bars[i])
  {
    assert bars[..i + 1][..i] == bars[..i];
  }

  method PlaceIntents(adapter: Paper.PaperExchangeAdapter, intents: seq<Intent>,
                      cash0: real, position0: real, avgCost0: real, numTrades0: nat, wins0: nat, sells0: nat)
      returns (cash: real, position: real, avgCost: real, numTrades: nat, wins: nat, sells: nat,
          ghost placed: seq<Fill>)
    requires Paper.Wf(adapter.State())
    modifies adapter
    ensures Paper.Wf(adapter.State())
    ensures (adapter.State(), placed) == PlaceAll(adapter.cfg, old(adapter.State()), intents)
    ensures Account(cash, position, avgCost, numTrades, wins, sells)
            == PostAll(Account(cash0, position0, avgCost0, numTrades0, wins0, sells0), placed)
  {
    cash, position, avgCost := cash0, position0, avgCost0;
    numTrades, wins, sells := numTrades0, wins0, sells0;
    ghost var a0 := Account(cash, position, avgCost, numTrades, wins, sells);
    placed := [];
    for j := 0 to |intents|
      invariant Paper.Wf(adapter.State())
      invariant (adapter.State(), placed) == PlaceAll(adapter.cfg, old(adapter.State()), intents[..j])
      invariant Account(cash, position, avgCost, numTrades, wins, sells) == PostAll(a0, placed)
    {
      assert intents[..j + 1][..j] == intents[..j];
      var result := adapter.PlaceOrder(intents[j]);
      cash, position, avgCost, numTrades, wins, sells :=
        PostFills(cash, position, avgCost, numTrades, wins, sells, result.fills);
      PostAllAppend(a0, placed, result.fills);
      placed := placed + result.fills;
    }
    assert intents[..|intents|] == intents;
  }

  /** The innermost loop: one placement's fills. */
  method PostFills(cash0: real, position0: real, avgCost0: real, numTrades0: nat, wins0: nat, sells0: nat,
      fs: seq<Fill>)
      returns (cash: real, position: real, avgCost: real, numTrades: nat, wins: nat, sells: nat)
    ensures Account(cash, position, avgCost, numTrades, wins, sells)
            == PostAll(Account(cash0, position0, avgCost0, numTrades0, wins0, sells0), fs)
  {
    cash, position, avgCost := cash0, position0, avgCost0;
    numTrades, wins, sells := numTrades0, wins0, sells0;
    for k := 0 to |fs|
      invariant Account(cash, position, avgCost, numTrades, wins, sells)
                == PostAll(Account(cash0, position0, avgCost0, numTrades0, wins0, sells0), fs[..k])
    {
      assert fs[..k + 1][..k] == fs[..k];
      cash, position, avgCost, numTrades, wins, sells :=
        PostFill(cash, position, avgCost, numTrades, wins, sells, fs[k]);
    }
    assert fs[..|fs|] == fs;
  }

  method PostFill(cash0: real, position0: real, avgCost0: real, numTrades0: nat, wins0: nat, sells0: nat, fill: Fill)
      returns (cash: real, position: real, avgCost: real, numTrades: nat, wins: nat, sells: nat)
    ensures Account(cash, position, avgCost, numTrades, wins, sells)
            == Post(Account(cash0, position0, avgCost0, numTrades0, wins0, sells0), fill)
  {
    cash, position, avgCost := cash0, position0, avgCost0;
    numTrades, wins, sells := numTrades0 + 1, wins0, sells0;
    var notional := fill.quantity * fill.price;
    if fill.side.Buy? {
      var newPos := position + fill.quantity;
      avgCost := if newPos > 0.0 then (avgCost * position + notional) / newPos else 0.0;
      position := newPos;
      cash := cash - (notional + fill.fee);
    } else {
      var realized := (fill.price - avgCost) * fill.quantity - fill.fee;
      sells := sells + 1;
      wins := wins + if realized > 0.0 then 1 else 0;
      position := position - fill.quantity;
      cash := cash + (notional - fill.fee);
    }
  }

  /** The account of a run is the posting of all its fills, and the curve marks it bar by bar. */
  lemma {:induction false} ReplayBooks<S>(cfg: Paper.Config, f: Strategy<S>, s0: S, cash: real, bars: seq<Bar>)
    ensures var r := Replay(cfg, f, s0, cash, bars);
            && r.acct == PostAll(Opening(cash), r.fills)
            && |r.curve| == |bars|
            && (forall i :: 0 <= i < |bars| ==> r.curve[i].0 == bars[i].tsMs)
            && (bars != [] ==> r.curve[|bars| - 1].1 == Equity(r.acct, bars[|bars| - 1].close))
  {
    if bars != [] {
      var init, bar := bars[..|bars| - 1], bars[|bars| - 1];
      ReplayBooks(cfg, f, s0, cash, init);
      var r := Replay(cfg, f, s0, cash, init);
      PostAllAppend(Opening(cash), r.fills, BarFills(cfg, f, r.book, r.strat, bar));
    }
  }

  /** A run on a prefix is a prefix of the run: fills and curve only grow. */
  lemma {:induction false} ReplayPrefix<S>(cfg: Paper.Config, f: Strategy<S>, s0: S, cash: real, bars: seq<Bar>, n: nat)
    requires n <= |bars|
    ensures var r, p := Replay(cfg, f, s0, cash, bars), Replay(cfg, f, s0, cash, bars[..n]);
            p.fills <= r.fills && p.curve <= r.curve
  {
    if n == |bars| {
      assert bars[..n] == bars;
    } else {
      var init := bars[..|bars| - 1];
      assert init[..n] == bars[..n];
      ReplayPrefix(cfg, f, s0, cash, init, n);
    }
  }

  // -------------------------------------------------------- equity decomposition

  /** A strategy that, from states satisfying `inv`, keeps it and only trades the bar's own
      symbol, in positive sizes. */
  ghost predicate TradesTheBar<S(!new)>(f: Strategy<S>, inv: S -> bool) {
    forall bar, s :: inv(s) ==>
      inv(f(bar, s).1) && forall i :: i in f(bar, s).0 ==> i.symbol == bar.symbol && i.quantity > 0.0
  }

  /** The settings under which every fill costs something or nothing: slippage and fee, in
      basis points, with |slippage * fee| at most ten thousand times their sum. */
  predicate ChargesEveryTrade(cfg: Paper.Config) {
    var both, sum := cfg.slippageBps * cfg.feeBps, 10000 * (cfg.slippageBps + cfg.feeBps);
    -sum <= both <= sum
  }

  lemma OrdinaryConfigCharges(cfg: Paper.Config)
    requires 0 <= cfg.slippageBps <= 10000 && 0 <= cfg.feeBps
    ensures ChargesEveryTrade(cfg)
  {
    BoundedProduct(cfg.slippageBps, cfg.feeBps);
  }

  lemma BoundedProduct(s: int, f: int)
    requires 0 <= s <= 10000 && 0 <= f
    ensures 0 <= s * f <= 10000 * f
  {
    assert (10000 - s) * f >= 0;
  }

  /** The cost of a market fill, per unit of notional, times a hundred million. */
  function Charge(cfg: Paper.Config, side: Side): int {
    10000 * (cfg.slippageBps + cfg.feeBps) + (if side.Buy? then 1 else -1) * (cfg.slippageBps * cfg.feeBps)
  }

  lemma MarketFillCost(cfg: Paper.Config, fillId: nat, orderId: nat, i: Intent, mark: real)
    ensures FillCost(Paper.BuildFill(cfg, fillId, orderId, i, Paper.Slipped(cfg, mark, i.side)), mark)
            == i.quantity * mark * (Charge(cfg, i.side) as real / 100000000.0)
  {
    var s, f := cfg.slippageBps as real / 10000.0, cfg.feeBps as real / 10000.0;
    var sign := if i.side.Buy? then 1.0 else -1.0;
    var price := Paper.Slipped(cfg, mark, i.side);
    assert price == mark + sign * (mark * s);
    var q := i.quantity;
    var fill := Paper.BuildFill(cfg, fillId, orderId, i, price);
    assert fill.fee == q * price * f;
    CostAlgebra(q, mark, s, f, sign);
    ChargeAlgebra(cfg, i.side);
  }

  lemma CostAlgebra(q: real, m: real, s: real, f: real, sign: real)
    requires sign == 1.0 || sign == -1.0
    ensures var price := m + sign * (m * s);
            sign * (q * price - q * m) + q * price * f == q * m * (s + f + sign * (s * f))
  {
    var price := m + sign * (m * s);
    if sign == 1.0 {
      assert q * price == q * m + q * m * s;
      assert q * price * f == q * m * f + q * m * s * f;
    } else {
      assert q * price == q * m - q * m * s;
      assert q * price * f == q * m * f - q * m * s * f;
    }
  }

  lemma ChargeAlgebra(cfg: Paper.Config, side: Side)
    ensures var s, f := cfg.slippageBps as real / 10000.0, cfg.feeBps as real / 10000.0;
            Charge(cfg, side) as real / 100000000.0 == s + f + (if side.Buy? then 1.0 else -1.0) * (s * f)
  {
    var a, b := cfg.slippageBps as real, cfg.feeBps as real;
    assert (cfg.slippageBps * cfg.feeBps) as real == a * b;
    assert (a / 10000.0) * (b / 10000.0) == a * b / 100000000.0;
  }

  /** No market order can profit against its own mark exactly when the settings charge every trade. */
  lemma NoFreeTradeIff(cfg: Paper.Config)
    ensures ChargesEveryTrade(cfg) <==> forall i: Intent, mark: real :: i.quantity > 0.0 && mark > 0.0 ==>
              FillCost(Paper.BuildFill(cfg, 0, 0, i, Paper.Slipped(cfg, mark, i.side)), mark) >= 0.0
  {
    if ChargesEveryTrade(cfg) {
      forall i: Intent, mark: real | i.quantity > 0.0 && mark > 0.0
        ensures FillCost(Paper.BuildFill(cfg, 0, 0, i, Paper.Slipped(cfg, mark, i.side)), mark) >= 0.0
      {
        MarketFillCost(cfg, 0, 0, i, mark);
        NonNegativeProduct(i.quantity, mark, Charge(cfg, i.side));
      }
    } else {
      var side := if cfg.slippageBps * cfg.feeBps > 10000 * (cfg.slippageBps + cfg.feeBps) then Sell else Buy;
      var i := Intent("X", side, Market, 1.0, None, Untagged);
      MarketFillCost(cfg, 0, 0, i, 1.0);
      assert Charge(cfg, side) < 0;
    }
  }

  lemma NonNegativeProduct(q: real, m: real, charge: int)
    requires q > 0.0 && m > 0.0 && charge >= 0
    ensures q * m * (charge as real / 100000000.0) >= 0.0
  {
    assert q * m > 0.0;
    assert charge as real / 100000000.0 >= 0.0;
  }

  /** Orders on the marked symbol never make money at the mark they fill on. */
  lemma {:induction false} PlacingCosts(cfg: Paper.Config, b: Paper.Book, intents: seq<Intent>, symbol: string)
    requires ChargesEveryTrade(cfg) && symbol in b.marks
    requires forall i :: i in intents ==> i.symbol == symbol && i.quantity > 0.0
    ensures PlaceAll(cfg, b, intents).0.marks == b.marks
    ensures Cost(PlaceAll(cfg, b, intents).1, b.marks[symbol]) >= 0.0
  {
    if intents != [] {
      var init, i := intents[..|intents| - 1], intents[|intents| - 1];
      assert i in intents;
      PlacingCosts(cfg, b, init, symbol);
      PlacingOneCosts(cfg, PlaceAll(cfg, b, init).0, PlaceAll(cfg, b, init).1, i);
    }
  }

  lemma {:induction false} PlacingOneCosts(cfg: Paper.Config, b: Paper.Book, fs: seq<Fill>, i: Intent)
    requires ChargesEveryTrade(cfg) && i.symbol in b.marks && i.quantity > 0.0
    requires Cost(fs, b.marks[i.symbol]) >= 0.0
    ensures Paper.Place(cfg, b, i).0.marks == b.marks
    ensures Cost(fs + Paper.Place(cfg, b, i).1.fills, b.marks[i.symbol]) >= 0.0
  {
    var p := Paper.Place(cfg, b, i).1;
    if p.fills == [] {
      assert fs + p.fills == fs;
    } else {
      FillingCosts(cfg, b, i);
      assert (fs + p.fills)[..|fs|] == fs;
    }
  }

  lemma FillingCosts(cfg: Paper.Config, b: Paper.Book, i: Intent)
    requires ChargesEveryTrade(cfg) && i.symbol in b.marks && i.quantity > 0.0
    requires Paper.Place(cfg, b, i).1.fills != []
    ensures var fills := Paper.Place(cfg, b, i).1.fills;
            |fills| == 1 && FillCost(fills[0], b.marks[i.symbol]) >= 0.0
  {
    MarketFillCost(cfg, b.nextId + 1, b.nextId, i, b.marks[i.symbol]);
    NonNegativeProduct(i.quantity, b.marks[i.symbol], Charge(cfg, i.side));
  }

  function BarCost(e: Entry): real {
    Cost(e.fills, e.bar.close)
  }

  /** A log whose entries chain one account through every bar, each bar at a cost of its own. */
  ghost predicate Chained(cash: real, log: seq<Entry>, curve: seq<(int, real)>) {
    && |log| == |curve|
    && (log != [] ==> log[0].before == Opening(cash))
    && (forall i :: 0 < i < |log| ==> log[i].before == log[i - 1].after)
    && (forall i :: 0 <= i < |log| ==> curve[i].1 == Equity(log[i].after, log[i].bar.close))
    && (forall i :: 0 <= i < |log| ==>
          BarCost(log[i]) >= 0.0 && curve[i].1 == Equity(log[i].before, log[i].bar.close) - BarCost(log[i]))
  }

  ghost predicate LogsBars(log: seq<Entry>, bars: seq<Bar>) {
    |log| == |bars| && forall i :: 0 <= i < |bars| ==> log[i].bar == bars[i]
  }

  lemma BarEquity<S(!new)>(cfg: Paper.Config, f: Strategy<S>, inv: S -> bool, r: Run<S>, bar: Bar)
    requires TradesTheBar(f, inv) && ChargesEveryTrade(cfg) && inv(r.strat)
    ensures var e := Entry(bar, r.acct, BarFills(cfg, f, r.book, r.strat, bar), StepBar(cfg, f, r, bar).acct);
            && BarCost(e) >= 0.0
            && Equity(e.after, bar.close) == Equity(r.acct, bar.close) - BarCost(e)
  {
    var marked := Paper.UpdateMark(cfg, r.book, bar.symbol, bar.close).0;
    var orders := f(bar, r.strat).0;
    assert forall i :: i in orders ==> i.symbol == bar.symbol && i.quantity > 0.0;
    PlacingCosts(cfg, marked, orders, bar.symbol);
    PostingCosts(r.acct, BarFills(cfg, f, r.book, r.strat, bar), bar.close);
  }

  /** One more entry on a chain. */
  lemma ChainedOneMore(cash: real, log: seq<Entry>, curve: seq<(int, real)>, e: Entry, point: (int, real))
    requires Chained(cash, log, curve)
    requires e.before == (if log == [] then Opening(cash) else log[|log| - 1].after)
    requires BarCost(e) >= 0.0 && point.1 == Equity(e.after, e.bar.close) == Equity(e.before, e.bar.close) - BarCost(e)
    ensures Chained(cash, log + [e], curve + [point])
  {}

  lemma {:induction false} RunLogsBars<S>(cfg: Paper.Config, f: Strategy<S>, s0: S, cash: real, bars: seq<Bar>)
    ensures var r := Replay(cfg, f, s0, cash, bars);
            LogsBars(r.log, bars) && r.acct == if bars == [] then Opening(cash) else r.log[|bars| - 1].after
  {
    if bars != [] {
      RunLogsBars(cfg, f, s0, cash, bars[..|bars| - 1]);
      StepBarParts(cfg, f, Replay(cfg, f, s0, cash, bars[..|bars| - 1]), bars[|bars| - 1]);
    }
  }

  lemma {:induction false} RunKeepsInv<S(!new)>(cfg: Paper.Config, f: Strategy<S>, inv: S -> bool, s0: S, cash: real,
      bars: seq<Bar>)
    requires TradesTheBar(f, inv) && inv(s0)
    ensures inv(Replay(cfg, f, s0, cash, bars).strat)
  {
    if bars != [] {
      RunKeepsInv(cfg, f, inv, s0, cash, bars[..|bars| - 1]);
      StepBarParts(cfg, f, Replay(cfg, f, s0, cash, bars[..|bars| - 1]), bars[|bars| - 1]);
    }
  }

  /** Every run's log is chained: the strategy is arbitrary, the settings charge every trade. */
  lemma {:induction false} RunIsChained<S(!new)>(cfg: Paper.Config, f: Strategy<S>, inv: S -> bool, s0: S,
      cash: real, bars: seq<Bar>)
    requires TradesTheBar(f, inv) && ChargesEveryTrade(cfg) && inv(s0)
    ensures var r := Replay(cfg, f, s0, cash, bars); Chained(cash, r.log, r.curve) && LogsBars(r.log, bars)
  {
    RunLogsBars(cfg, f, s0, cash, bars);
    if bars != [] {
      var init, bar := bars[..|bars| - 1], bars[|bars| - 1];
      RunIsChained(cfg, f, inv, s0, cash, init);
      RunLogsBars(cfg, f, s0, cash, init);
      RunKeepsInv(cfg, f, inv, s0, cash, init);
      BarIsChained(cfg, f, inv, cash, Replay(cfg, f, s0, cash, init), bar);
    }
  }

  lemma {:induction false} BarIsChained<S(!new)>(cfg: Paper.Config, f: Strategy<S>, inv: S -> bool, cash: real,
      r: Run<S>, bar: Bar)
    requires TradesTheBar(f, inv) && ChargesEveryTrade(cfg) && inv(r.strat) && Chained(cash, r.log, r.curve)
    requires r.acct == if r.log == [] then Opening(cash) else r.log[|r.log| - 1].after
    ensures var r' := StepBar(cfg, f, r, bar); Chained(cash, r'.log, r'.curve)
  {
    var e := Entry(bar, r.acct, BarFills(cfg, f, r.book, r.strat, bar), StepBar(cfg, f, r, bar).acct);
    StepBarParts(cfg, f, r, bar);
    BarEquity(cfg, f, inv, r, bar);
    ChainedOneMore(cash, r.log, r.curve, e, (bar.tsMs, Equity(e.after, bar.close)));
  }

  /** Equity over one bar: the carried position earns the price move, and trading only costs. */
  lemma EquityStep(cash: real, log: seq<Entry>, curve: seq<(int, real)>, i: nat)
    requires Chained(cash, log, curve) && 0 < i < |log|
    ensures curve[i].1 == curve[i - 1].1 + Move(log, i) - BarCost(log[i])
  {
    var a, m1, m2 := log[i].before, log[i - 1].bar.close, log[i].bar.close;
    assert a.position * (m2 - m1) == a.position * m2 - a.position * m1;
  }

  /** What the position carried into bar `i` gains from its price move. */
  function Move(log: seq<Entry>, i: nat): real
    requires 0 < i < |log|
  {
    log[i].before.position * (log[i].bar.close - log[i - 1].bar.close)
  }

  function Gains(log: seq<Entry>, n: nat): real
    requires n <= |log|
  {
    if n <= 1 then 0.0 else Gains(log, n - 1) + Move(log, n - 1)
  }

  function Costs(log: seq<Entry>, n: nat): real
    requires n <= |log|
  {
    if n == 0 then 0.0 else Costs(log, n - 1) + BarCost(log[n - 1])
  }

  lemma {:induction false} ChainSums(cash: real, log: seq<Entry>, curve: seq<(int, real)>, n: nat)
    requires Chained(cash, log, curve) && 0 < n <= |log|
    ensures curve[n - 1].1 == cash + Gains(log, n) - Costs(log, n)
    ensures Costs(log, n) >= 0.0
  {
    if n == 1 {
      assert log[0].before == Opening(cash);
      assert Equity(Opening(cash), log[0].bar.close) == cash;
      assert Costs(log, 1) == Costs(log, 0) + BarCost(log[0]);
    } else {
      ChainSums(cash, log, curve, n - 1);
      EquityStep(cash, log, curve, n - 1);
    }
  }

  /** The summed form for every strategy and every stream of bars: each point of the curve is the
      starting cash, plus the price gains of the positions carried, less costs that never go negative. */
  lemma {:induction false} EquityDecomposition<S(!new)>(cfg: Paper.Config, f: Strategy<S>, inv: S -> bool, s0: S,
      cash: real, bars: seq<Bar>, n: nat)
    requires 0 < n <= |bars|
    requires TradesTheBar(f, inv) && ChargesEveryTrade(cfg) && inv(s0)
    ensures var r := Replay(cfg, f, s0, cash, bars);
            && |r.curve| == |r.log| == |bars|
            && r.curve[n - 1].1 == cash + Gains(r.log, n) - Costs(r.log, n)
            && Costs(r.log, n) >= 0.0
  {
    RunIsChained(cfg, f, inv, s0, cash, bars);
    var r := Replay(cfg, f, s0, cash, bars);
    ChainSums(cash, r.log, r.curve, n);
  }

  lemma {:induction false} FlatChain(cash: real, log: seq<Entry>, curve: seq<(int, real)>, i: nat, j: nat)
    requires Chained(cash, log, curve) && i <= j < |log|
    requires forall k :: i <= k <= j ==> log[k].bar.close == log[i].bar.close
    ensures curve[j].1 <= curve[i].1
  {
    if i < j {
      FlatChain(cash, log, curve, i, j - 1);
      EquityStep(cash, log, curve, j);
      assert log[j].bar.close - log[j - 1].bar.close == 0.0;
    }
  }

  /** While the price stands still no strategy gains: the curve does not rise on a flat stretch. */
  lemma {:induction false} FlatPriceNeverPays<S(!new)>(cfg: Paper.Config, f: Strategy<S>, inv: S -> bool, s0: S,
      cash: real, bars: seq<Bar>, i: nat, j: nat)
    requires i <= j < |bars|
    requires TradesTheBar(f, inv) && ChargesEveryTrade(cfg) && inv(s0)
    requires forall k :: i <= k <= j ==> bars[k].close == bars[i].close
    ensures var curve := Replay(cfg, f, s0, cash, bars).curve;
            |curve| == |bars| && curve[j].1 <= curve[i].1
  {
    RunIsChained(cfg, f, inv, s0, cash, bars);
    var r := Replay(cfg, f, s0, cash, bars);
    FlatChain(cash, r.log, r.curve, i, j);
  }

  // ------------------------------------------------------------------- drawdown

  function Peak(curve: seq<(int, real)>): real
    requires curve != []
  {
    var last := curve[|curve| - 1].1;
    if |curve| == 1 then last else
      var p := Peak(curve[..|curve| - 1]);
      if last > p then last else p
  }

  /** Percentage lost from `high` down to `e`. */
  function LossPct(high: real, e: real): real
    requires high > 0.0
  {
    (high - e) / high * 100.0
  }

  /** The loss at bar `j` from the highest point up to it; nothing while that peak is not positive. */
  function LossAt(curve: seq<(int, real)>, j: nat): real
    requires j < |curve|
  {
    var p := Peak(curve[..j + 1]);
    if p > 0.0 then LossPct(p, curve[j].1) else 0.0
  }

  function Drawdown(curve: seq<(int, real)>): real {
    if curve == [] then 0.0 else
      var before, last := Drawdown(curve[..|curve| - 1]), LossAt(curve, |curve| - 1);
      if last > before then last else before
  }

  method MaxDrawdownPct(curve: seq<(int, real)>) returns (maxDd: real)
    ensures maxDd == Drawdown(curve)
  {
    var peak: Option<real> := None;
    maxDd := 0.0;
    for k := 0 to |curve|
      invariant maxDd == Drawdown(curve[..k])
      invariant peak == if k == 0 then None else Some(Peak(curve[..k]))
    {
      assert curve[..k + 1][..k] == curve[..k];
      assert curve[..k + 1][..k + 1] == curve[..k + 1];
      DrawdownNonNegative(curve[..k]);
      var equity := curve[k].1;
      if peak.None? || equity > peak.value {
        peak := Some(equity);
      }
      if peak.Some? && peak.value > 0.0 {
        var dd := (peak.value - equity) / peak.value * 100.0;
        if dd > maxDd {
          maxDd := dd;
        }
      }
    }
    assert curve[..|curve|] == curve;
  }

  lemma {:induction false} PeakIsMax(curve: seq<(int, real)>)
    requires curve != []
    ensures forall i :: 0 <= i < |curve| ==> curve[i].1 <= Peak(curve)
    ensures exists i :: 0 <= i < |curve| && curve[i].1 == Peak(curve)
  {
    var init := curve[..|curve| - 1];
    if |curve| > 1 {
      PeakIsMax(init);
      assert forall i :: 0 <= i < |init| ==> init[i] == curve[i];
      var i :| 0 <= i < |init| && init[i].1 == Peak(init);
      assert curve[i].1 == Peak(init);
    }
  }

  /** Raising a positive high above a non-negative point makes the loss no smaller, and a loss is
      within a hundred percent exactly when the later point is not negative. */
  lemma LossGrows(h1: real, h2: real, e: real)
    requires 0.0 < h1 <= h2 && e >= 0.0
    ensures LossPct(h1, e) <= LossPct(h2, e)
  {
    LossRemainder(h1, e);
    LossRemainder(h2, e);
    var r1, r2 := 100.0 - LossPct(h1, e), 100.0 - LossPct(h2, e);
    if r1 < r2 {
      SmallerProduct(r1, r2, h1, h2);
    }
  }

  lemma LossRemainder(h: real, e: real)
    requires h > 0.0
    ensures (100.0 - LossPct(h, e)) * h == 100.0 * e
    ensures LossPct(h, e) <= 100.0 <==> e >= 0.0
  {
    var q := (h - e) / h;
    assert q * h == h - e;
    assert (100.0 - q * 100.0) * h == 100.0 * h - 100.0 * (q * h);
    RemainderSign(100.0 - LossPct(h, e), h);
  }

  lemma RemainderSign(r: real, h: real)
    requires h > 0.0
    ensures r * h >= 0.0 <==> r >= 0.0
  {}

  lemma SmallerProduct(r1: real, r2: real, h1: real, h2: real)
    requires r1 < r2 && 0.0 < h1 <= h2 && r1 * h1 >= 0.0
    ensures r1 * h1 < r2 * h2
  {
    RemainderSign(r1, h1);
    assert r1 * h1 <= r1 * h2 by { assert r1 * (h2 - h1) >= 0.0; }
    assert (r2 - r1) * h2 > 0.0;
  }

  lemma {:induction false} DrawdownNonNegative(curve: seq<(int, real)>)
    ensures Drawdown(curve) >= 0.0
  {
    if curve != [] {
      DrawdownNonNegative(curve[..|curve| - 1]);
    }
  }

  /** For every curve: the result is the largest loss from a running peak, and it is attained. */
  lemma {:induction false} DrawdownIsWorstFromPeak(curve: seq<(int, real)>)
    ensures forall j :: 0 <= j < |curve| ==> LossAt(curve, j) <= Drawdown(curve)
    ensures Drawdown(curve) == 0.0 || exists j :: 0 <= j < |curve| && LossAt(curve, j) == Drawdown(curve)
  {
    if curve != [] {
      var init, n := curve[..|curve| - 1], |curve| - 1;
      DrawdownIsWorstFromPeak(init);
      forall j | 0 <= j < n ensures LossAt(init, j) == LossAt(curve, j) {
        assert init[..j + 1] == curve[..j + 1] && init[j] == curve[j];
      }
      if Drawdown(curve) == Drawdown(init) && Drawdown(init) != 0.0 {
        var j :| 0 <= j < |init| && LossAt(init, j) == Drawdown(init);
        assert LossAt(curve, j) == Drawdown(curve);
      }
    }
  }

  /** The drawdown is never negative, and it stays within a hundred percent exactly when equity
      never goes negative once it has been positive. */
  lemma {:induction false} DrawdownAtMostHundredIff(curve: seq<(int, real)>)
    ensures 0.0 <= Drawdown(curve)
    ensures Drawdown(curve) <= 100.0
            <==> forall j :: 0 <= j < |curve| && Peak(curve[..j + 1]) > 0.0 ==> curve[j].1 >= 0.0
  {
    DrawdownNonNegative(curve);
    DrawdownIsWorstFromPeak(curve);
    forall j | 0 <= j < |curve| && Peak(curve[..j + 1]) > 0.0
      ensures LossAt(curve, j) <= 100.0 <==> curve[j].1 >= 0.0
    {
      LossRemainder(Peak(curve[..j + 1]), curve[j].1);
    }
    if Drawdown(curve) > 100.0 {
      var j :| 0 <= j < |curve| && LossAt(curve, j) == Drawdown(curve);
      assert Peak(curve[..j + 1]) > 0.0 && curve[j].1 < 0.0;
    }
  }

  /** On a curve that never goes negative, the one-pass result is the maximum loss over all
      pairs of an earlier positive point and a later one. */
  lemma {:induction false} DrawdownIsPairwiseMax(curve: seq<(int, real)>)
    requires forall j :: 0 <= j < |curve| ==> curve[j].1 >= 0.0
    ensures forall i, j :: 0 <= i <= j < |curve| && curve[i].1 > 0.0 ==>
              LossPct(curve[i].1, curve[j].1) <= Drawdown(curve)
    ensures Drawdown(curve) == 0.0
            || exists i, j ::
              0 <= i <= j < |curve| && curve[i].1 > 0.0 && LossPct(curve[i].1, curve[j].1) == Drawdown(curve)
  {
    DrawdownIsWorstFromPeak(curve);
    forall i, j | 0 <= i <= j < |curve| && curve[i].1 > 0.0
      ensures LossPct(curve[i].1, curve[j].1) <= Drawdown(curve)
    {
      PeakIsMax(curve[..j + 1]);
      assert curve[..j + 1][i] == curve[i];
      LossGrows(curve[i].1, Peak(curve[..j + 1]), curve[j].1);
      assert LossAt(curve, j) <= Drawdown(curve);
    }
    if Drawdown(curve) != 0.0 {
      DrawdownNonNegative(curve);
      var j :| 0 <= j < |curve| && LossAt(curve, j) == Drawdown(curve);
      PeakIsMax(curve[..j + 1]);
      var i :| 0 <= i < j + 1 && curve[..j + 1][i].1 == Peak(curve[..j + 1]);
      assert curve[i].1 > 0.0 && LossPct(curve[i].1, curve[j].1) == Drawdown(curve);
    }
  }

  /** The least positive point of a curve, if it has one. */
  function LeastPositive(curve: seq<(int, real)>): Option<real> {
    if curve == [] then None else
      var before, e := LeastPositive(curve[..|curve| - 1]), curve[|curve| - 1].1;
      if e > 0.0 && (before.None? || e < before.value) then Some(e) else before
  }

  lemma {:induction false} LeastPositiveIsLeast(curve: seq<(int, real)>)
    ensures var p := LeastPositive(curve);
            && (forall i :: 0 <= i < |curve| && curve[i].1 > 0.0 ==> p.Some? && p.value <= curve[i].1)
            && (p.Some? ==> p.value > 0.0 && exists i :: 0 <= i < |curve| && curve[i].1 == p.value)
  {
    if curve != [] {
      var init := curve[..|curve| - 1];
      LeastPositiveIsLeast(init);
      assert forall i :: 0 <= i < |curve| ==> curve[i] == if i < |init| then init[i] else curve[|init|];
      if LeastPositive(init).Some? {
        var i :| 0 <= i < |init| && init[i].1 == LeastPositive(init).value;
        assert curve[i].1 == LeastPositive(init).value;
      }
    }
  }

  /** Below zero it is the other way round: the lower the high, the larger the percentage lost. */
  lemma LossShrinks(h1: real, h2: real, e: real)
    requires 0.0 < h1 <= h2 && e < 0.0
    ensures LossPct(h1, e) >= LossPct(h2, e)
  {
    LossRemainder(h1, e);
    LossRemainder(h2, e);
    var l1, l2 := LossPct(h1, e) - 100.0, LossPct(h2, e) - 100.0;
    assert l1 * h1 == -100.0 * e && l2 * h2 == -100.0 * e;
    if l1 < l2 {
      RemainderSign(l1, h1);
      SmallerProduct(l1, l2, h1, h2);
    }
  }

  /** The pairwise reading: no loss from an earlier positive point to a later one exceeds the drawdown. */
  ghost predicate BoundsEveryPair(curve: seq<(int, real)>) {
    forall i, j :: 0 <= i <= j < |curve| && curve[i].1 > 0.0 ==> LossPct(curve[i].1, curve[j].1) <= Drawdown(curve)
  }

  /** The loss at a negative point from the least positive point up to it; nothing elsewhere. */
  function DeepestLossAt(curve: seq<(int, real)>, j: nat): real
    requires j < |curve|
  {
    var low := LeastPositive(curve[..j + 1]);
    LeastPositiveIsLeast(curve[..j + 1]);
    if curve[j].1 < 0.0 && low.Some? then LossPct(low.value, curve[j].1) else 0.0
  }

  lemma {:induction false} PairWithinDeepest(curve: seq<(int, real)>, i: nat, j: nat)
    requires i <= j < |curve| && curve[i].1 > 0.0
    ensures LossPct(curve[i].1, curve[j].1) <= (if curve[j].1 < 0.0 then DeepestLossAt(curve, j) else Drawdown(curve))
  {
    assert curve[..j + 1][i] == curve[i];
    if curve[j].1 < 0.0 {
      LeastPositiveIsLeast(curve[..j + 1]);
      LossShrinks(LeastPositive(curve[..j + 1]).value, curve[i].1, curve[j].1);
    } else {
      PeakIsMax(curve[..j + 1]);
      DrawdownIsWorstFromPeak(curve);
      LossGrows(curve[i].1, Peak(curve[..j + 1]), curve[j].1);
      assert LossAt(curve, j) <= Drawdown(curve);
    }
  }

  /** The drawdown bounds every pair exactly when it bounds the deepest loss at every point. */
  lemma {:induction false} BoundsDeepestIff(curve: seq<(int, real)>)
    ensures BoundsEveryPair(curve) <==> forall j :: 0 <= j < |curve| ==> DeepestLossAt(curve, j) <= Drawdown(curve)
  {
    DrawdownNonNegative(curve);
    forall i, j | 0 <= i <= j < |curve| && curve[i].1 > 0.0
      ensures LossPct(curve[i].1, curve[j].1) <= (if curve[j].1 < 0.0 then DeepestLossAt(curve, j) else Drawdown(curve))
    {
      PairWithinDeepest(curve, i, j);
    }
    forall j | 0 <= j < |curve| && BoundsEveryPair(curve) ensures DeepestLossAt(curve, j) <= Drawdown(curve) {
      var some := curve[..j + 1];
      LeastPositiveIsLeast(some);
      if curve[j].1 < 0.0 && LeastPositive(some).Some? {
        var i :| 0 <= i < |some| && some[i].1 == LeastPositive(some).value;
        assert curve[i] == some[i];
      }
    }
  }

  /** Point `k` is negative, and no positive point comes before it. */
  predicate NeverPositiveBefore(curve: seq<(int, real)>, k: nat)
    requires k < |curve|
  {
    LeastPositive(curve[..k + 1]).None?
  }

  /** Point `k` is negative, follows positive points that are all equal, and no point loses more from the least
      positive point before it. */
  ghost predicate DeepestFromOneHeight(curve: seq<(int, real)>, k: nat)
    requires k < |curve|
  {
    var low := LeastPositive(curve[..k + 1]);
    && curve[k].1 < 0.0 && low.Some? && low.value == Peak(curve[..k + 1])
    && forall j :: 0 <= j < |curve| ==> DeepestLossAt(curve, j) <= DeepestLossAt(curve, k)
  }

  /** Strictly so: two highs with the same percentage lost to a negative point are the same high. */
  lemma SameLossSameHigh(h1: real, h2: real, e: real)
    requires 0.0 < h1 <= h2 && e < 0.0 && LossPct(h1, e) <= LossPct(h2, e)
    ensures h1 == h2
  {
    LossRemainder(h1, e);
    LossRemainder(h2, e);
    LossShrinks(h1, h2, e);
    var l := LossPct(h1, e) - 100.0;
    assert l * h1 == -100.0 * e && l * h2 == -100.0 * e;
    assert l * (h2 - h1) == 0.0;
    assert l * h1 > 0.0;
  }

  lemma {:induction false} PeakAboveLeast(curve: seq<(int, real)>, k: nat)
    requires k < |curve| && LeastPositive(curve[..k + 1]).Some?
    ensures LeastPositive(curve[..k + 1]).value <= Peak(curve[..k + 1])
    ensures curve[k].1 < 0.0 ==> LossAt(curve, k) <= DeepestLossAt(curve, k)
  {
    var some := curve[..k + 1];
    LeastPositiveIsLeast(some);
    PeakIsMax(some);
    var i :| 0 <= i < |some| && some[i].1 == LeastPositive(some).value;
    if curve[k].1 < 0.0 {
      LossShrinks(LeastPositive(some).value, Peak(some), curve[k].1);
    }
  }

  lemma {:induction false} LossesNeedAPositivePoint(curve: seq<(int, real)>, k: nat)
    requires k < |curve| && LeastPositive(curve[..k + 1]).None?
    ensures LossAt(curve, k) == 0.0 == DeepestLossAt(curve, k)
  {
    var some := curve[..k + 1];
    LeastPositiveIsLeast(some);
    PeakIsMax(some);
    var i :| 0 <= i < |some| && some[i].1 == Peak(some);
  }

  /** Where the drawdown is attained at a negative point and bounds every pair, the positive points before are equal. */
  lemma {:induction false} AttainedFromOneHeight(curve: seq<(int, real)>, k: nat)
    requires k < |curve| && BoundsEveryPair(curve) && LossAt(curve, k) == Drawdown(curve) && curve[k].1 < 0.0
    requires LeastPositive(curve[..k + 1]).Some?
    ensures DeepestFromOneHeight(curve, k)
  {
    var some := curve[..k + 1];
    BoundsDeepestIff(curve);
    LeastPositiveIsLeast(some);
    PeakAboveLeast(curve, k);
    SameLossSameHigh(LeastPositive(some).value, Peak(some), curve[k].1);
  }

  /** When the pairwise reading holds, on every curve and from the curve alone: exactly when no negative point
      follows a positive one, or some deepest loss is from positive points that are all equal. */
  lemma {:induction false} PairwiseReadingIff(curve: seq<(int, real)>)
    ensures BoundsEveryPair(curve)
            <==> || (forall k :: 0 <= k < |curve| && curve[k].1 < 0.0 ==> NeverPositiveBefore(curve, k))
                 || (exists k :: 0 <= k < |curve| && DeepestFromOneHeight(curve, k))
  {
    BoundsDeepestIff(curve);
    DrawdownIsWorstFromPeak(curve);
    DrawdownNonNegative(curve);
    if k :| 0 <= k < |curve| && DeepestFromOneHeight(curve, k) {
      assert LossAt(curve, k) == DeepestLossAt(curve, k) by {
        PeakAboveLeast(curve, k);
        LeastPositiveIsLeast(curve[..k + 1]);
      }
    }
    if BoundsEveryPair(curve) {
      if k :| 0 <= k < |curve| && curve[k].1 < 0.0 && !NeverPositiveBefore(curve, k) {
        LeastPositiveIsLeast(curve[..k + 1]);
        LossRemainder(LeastPositive(curve[..k + 1]).value, curve[k].1);
        assert Drawdown(curve) >= DeepestLossAt(curve, k) > 100.0;
        var j :| 0 <= j < |curve| && LossAt(curve, j) == Drawdown(curve);
        LossRemainder(Peak(curve[..j + 1]), curve[j].1);
        if LeastPositive(curve[..j + 1]).None? { LossesNeedAPositivePoint(curve, j); }
        AttainedFromOneHeight(curve, j);
      }
    }
  }

  /** With a negative point the pairwise reading fails: 1, 2, -1 loses 200 percent of 1 but reports 150. */
  lemma NegativeEquityUnderstatesLoss()
    ensures var curve := [(0, 1.0), (1, 2.0), (2, -1.0)];
            Drawdown(curve) == 150.0 && LossPct(curve[0].1, curve[2].1) == 200.0
  {
    var a, b, c := (0, 1.0), (1, 2.0), (2, -1.0);
    var curve := [a, b, c];
    assert curve[..2] == [a, b] && [a, b][..1] == [a];
    assert curve[..3] == curve && [a, b][..2] == [a, b] && [a][..1] == [a];
    assert Peak([a]) == 1.0 && Peak([a, b]) == 2.0 && Peak(curve) == 2.0;
    assert LossAt([a], 0) == 0.0 && LossAt([a, b], 1) == 0.0 && LossAt(curve, 2) == 150.0;
    assert Drawdown([a]) == 0.0 && Drawdown([a, b]) == 0.0;
  }
}
