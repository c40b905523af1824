/** The supervisor's bar loop on the always-open path: the live counterpart of the backtest. */
module Live {
  import opened Basics
  import opened Ledger
  import Paper
  import Router
  import Backtest

  datatype LiveRun<S> = LiveRun(book: Paper.Book, strat: S, ledger: Pnl, fills: seq<Fill>,
                                pnls: seq<real>, paused: bool)

  /** The circuit breaker on a trusted mark: profit has fallen to the loss cap. */
  predicate CapReached(cap: Option<real>, pnl: real) {
    cap.Some? && pnl <= -cap.value
  }

  function LiveBar<S>(cfg: Paper.Config, f: Strategy<S>, cap: Option<real>, r: LiveRun<S>, bar: Bar): LiveRun<S> {
    if r.paused then r else
      var marked := Paper.UpdateMark(cfg, r.book, bar.symbol, bar.close).0;
      var (intents, strat) := f(bar, r.strat);
      var (book, fs) := Backtest.PlaceAll(cfg, marked, intents);
      var ledger := CreditAll(r.ledger, fs);
      var pnl := Mtm(ledger, bar.close);
      LiveRun(book, strat, ledger, r.fills + fs, r.pnls + [pnl], CapReached(cap, pnl))
  }

  function Fresh<S>(s0: S): LiveRun<S> {
    LiveRun(Paper.EMPTY_BOOK, s0, FLAT, [], [], false)
  }

  function Run<S>(cfg: Paper.Config, f: Strategy<S>, s0: S, cap: Option<real>, bars: seq<Bar>): LiveRun<S> {
    if bars == [] then Fresh(s0)
    else LiveBar(cfg, f, cap, Run(cfg, f, s0, cap, bars[..|bars| - 1]), bars[|bars| - 1])
  }

  /** The loop itself: the bar source marks the adapter, each intent goes through the router, each
      returned fill through the ledger, and a tripped breaker sweeps the open orders and leaves. */
  method RunLoop<S>(strategy: Strategy<S>, s0: S, cap: Option<real>, bars: seq<Bar>,
                    router: Router.ExchangeOrderRouter, ledger: PnLLedger) returns (paused: bool, traded: nat)
    requires router.adapter.State() == Paper.EMPTY_BOOK && router.open == [] && ledger.State() == FLAT
    modifies router, router.adapter, ledger
    ensures var live := Run(router.adapter.cfg, strategy, s0, cap, bars);
            && paused == live.paused && traded == |live.pnls|
            && ledger.State() == live.ledger
            && (paused ==> router.adapter.State().resting == [] && router.open == [])
            && (!paused ==> router.adapter.State() == live.book)
  {
    var state := s0;
    paused, traded := false, 0;
    ghost var cfg := router.adapter.cfg;
    ghost var live := Run(cfg, strategy, s0, cap, bars[..0]);
    while traded < |bars| && !paused
      invariant traded <= |bars|
      invariant live == Run(cfg, strategy, s0, cap, bars[..traded])
      invariant live.paused == paused && |live.pnls| == traded && Tracks(live, state, router, ledger)
      decreases |bars| - traded
    {
      RunOne(cfg, strategy, s0, cap, bars, traded);
      ghost var next := LiveBar(cfg, strategy, cap, live, bars[traded]);
      state, paused := RunBar(strategy, state, cap, bars[traded], router, ledger, live);
      live, traded := next, traded + 1;
    }
    if paused { StaysPaused(cfg, strategy, s0, cap, bars, traded); }
    assert traded == |bars| ==> bars[..traded] == bars;
  }

  lemma {:induction false} RunOne<S>(cfg: Paper.Config, f: Strategy<S>, s0: S, cap: Option<real>, bars: seq<Bar>,
      i: nat)
    requires i < |bars|
    ensures Run(cfg, f, s0, cap, bars[..i + 1]) == LiveBar(cfg, f, cap, Run(cfg, f, s0, cap, bars[..i]), bars[i])
  {
    assert bars[..i + 1][..i] == bars[..i];
  }

  /** The objects hold what the run says; once paused, the sweep has emptied the book. */
  ghost predicate Tracks<S>(live: LiveRun<S>, state: S, router: Router.ExchangeOrderRouter, ledger: PnLLedger)
    reads router, router.adapter, ledger
  {
    && ledger.State() == live.ledger
    && (live.paused ==> router.adapter.State().resting == [] && router.open == [])
    && (!live.paused ==>
          && Paper.Wf(router.adapter.State()) && Router.Covers(router.open, router.adapter.State())
          && router.adapter.State() == live.book && state == live.strat)
  }

  /** One turn of the loop: trade the bar, then let the breaker judge the new mark. */
  method RunBar<S>(strategy: Strategy<S>, state0: S, cap: Option<real>, bar: Bar,
                   router: Router.ExchangeOrderRouter, ledger: PnLLedger, ghost live: LiveRun<S>)
      returns (state: S, paused: bool)
    requires !live.paused && Tracks(live, state0, router, ledger)
    modifies router, router.adapter, ledger
    ensures var live' := LiveBar(router.adapter.cfg, strategy, cap, live, bar);
            && paused == live'.paused && |live'.pnls| == |live.pnls| + 1
            && Tracks(live', state, router, ledger)
  {
    LiveBarParts(router.adapter.cfg, strategy, cap, live, bar);
    state := TradeBar(strategy, state0, bar, router, ledger);
    var pnl := ledger.position * bar.close - ledger.cashOut;
    assert pnl == Mtm(ledger.State(), bar.close);
    paused := cap.Some? && pnl <= -cap.value;
    if paused {
      var _ := router.CancelOpen();
    }
  }

  /** One bar: mark, ask the strategy, submit every intent and credit its fills. */
  method TradeBar<S>(strategy: Strategy<S>, state0: S, bar: Bar,
                     router: Router.ExchangeOrderRouter, ledger: PnLLedger) returns (state: S)
    requires Paper.Wf(router.adapter.State()) && Router.Covers(router.open, router.adapter.State())
    modifies router, router.adapter, ledger
    ensures Paper.Wf(router.adapter.State()) && Router.Covers(router.open, router.adapter.State())
    ensures var marked := Paper.UpdateMark(router.adapter.cfg, old(router.adapter.State()), bar.symbol, bar.close).0;
            var (book, fs) := Backtest.PlaceAll(router.adapter.cfg, marked, strategy(bar, state0).0);
            && router.adapter.State() == book
            && ledger.State() == CreditAll(old(ledger.State()), fs)
            && state == strategy(bar, state0).1
  {
    ghost var b0 := router.adapter.State();
    Paper.KeptMembers(b0.resting, bar.symbol, bar.close);
    var _ := router.adapter.SetMark(bar.symbol, bar.close);
    var (intents, state') := strategy(bar, state0);
    state := state';
    SubmitAll(intents, router, ledger);
  }

  method SubmitAll(intents: seq<Intent>, router: Router.ExchangeOrderRouter, ledger: PnLLedger)
    requires Paper.Wf(router.adapter.State()) && Router.Covers(router.open, router.adapter.State())
    modifies router, router.adapter, ledger
    ensures Paper.Wf(router.adapter.State()) && Router.Covers(router.open, router.adapter.State())
    ensures var (book, fs) := Backtest.PlaceAll(router.adapter.cfg, old(router.adapter.State()), intents);
            router.adapter.State() == book && ledger.State() == CreditAll(old(ledger.State()), fs)
  {
    ghost var b0, l0, cfg := router.adapter.State(), ledger.State(), router.adapter.cfg;
    for j := 0 to |intents|
      invariant Paper.Wf(router.adapter.State()) && Router.Covers(router.open, router.adapter.State())
      invariant var (book, fs) := Backtest.PlaceAll(cfg, b0, intents[..j]);
                router.adapter.State() == book && ledger.State() == CreditAll(l0, fs)
    {
      assert intents[..j + 1][..j] == intents[..j];
      ghost var before := Backtest.PlaceAll(cfg, b0, intents[..j]).1;
      var fills := router.Submit(intents[j]);
      ledger.ApplyAll(fills);
      CreditAllAppend(l0, before, fills);
    }
    assert intents[..|intents|] == intents;
  }

  lemma {:induction false} LiveBarParts<S>(cfg: Paper.Config, f: Strategy<S>, cap: Option<real>, r: LiveRun<S>,
      bar: Bar)
    requires !r.paused
    ensures var (b, fs) := Backtest.PlaceAll(cfg, Paper.UpdateMark(cfg, r.book, bar.symbol, bar.close).0,
            f(bar, r.strat).0);
            var r' := LiveBar(cfg, f, cap, r, bar);
            && r'.book == b && r'.strat == f(bar, r.strat).1 && r'.ledger == CreditAll(r.ledger, fs)
            && r'.fills == r.fills + fs && r'.pnls == r.pnls + [Mtm(r'.ledger, bar.close)]
            && r'.paused == CapReached(cap, Mtm(r'.ledger, bar.close))
  {}

  /** Once paused, no later bar is traded. */
  lemma {:induction false} StaysPaused<S>(cfg: Paper.Config, f: Strategy<S>, s0: S, cap: Option<real>,
      bars: seq<Bar>, n: nat)
    requires n <= |bars| && Run(cfg, f, s0, cap, bars[..n]).paused
    ensures Run(cfg, f, s0, cap, bars) == Run(cfg, f, s0, cap, bars[..n])
  {
    if n == |bars| {
      assert bars[..n] == bars;
    } else {
      var init := bars[..|bars| - 1];
      assert init[..n] == bars[..n];
      StaysPaused(cfg, f, s0, cap, init, n);
    }
  }

  // ------------------------------------------------------------- under a session

  /** A bar as a bot with market hours meets it: whether the market was open when it arrived, and whether the
      breaker could trust its mark when the bar was done. */
  datatype Tick = Tick(bar: Bar, open: bool, trusted: bool)

  /** While the market is closed a bar only marks the venue; else it is traded, and judged if it can be trusted. */
  function TickBar<S>(cfg: Paper.Config, f: Strategy<S>, cap: Option<real>, r: LiveRun<S>, k: Tick): LiveRun<S> {
    if r.paused then r
    else if !k.open then r.(book := Paper.UpdateMark(cfg, r.book, k.bar.symbol, k.bar.close).0)
    else LiveBar(cfg, f, if k.trusted then cap else None, r, k.bar)
  }

  function TickRun<S>(cfg: Paper.Config, f: Strategy<S>, s0: S, cap: Option<real>, ticks: seq<Tick>): LiveRun<S> {
    if ticks == [] then Fresh(s0)
    else TickBar(cfg, f, cap, TickRun(cfg, f, s0, cap, ticks[..|ticks| - 1]), ticks[|ticks| - 1])
  }

  function BarsOf(ticks: seq<Tick>): seq<Bar> {
    seq(|ticks|, i requires 0 <= i < |ticks| => ticks[i].bar)
  }

  /** Always open and always trusted, it is the plain loop. */
  lemma {:induction false} OpenTicksAreTheLoop<S>(cfg: Paper.Config, f: Strategy<S>, s0: S, cap: Option<real>,
      ticks: seq<Tick>)
    requires forall i :: 0 <= i < |ticks| ==> ticks[i].open && ticks[i].trusted
    ensures TickRun(cfg, f, s0, cap, ticks) == Run(cfg, f, s0, cap, BarsOf(ticks))
  {
    if ticks != [] {
      OpenTicksAreTheLoop(cfg, f, s0, cap, ticks[..|ticks| - 1]);
      assert BarsOf(ticks)[..|ticks| - 1] == BarsOf(ticks[..|ticks| - 1]);
    }
  }

  /** The ledger is always the fills credited in order. */
  lemma {:induction false} TickLedger<S>(cfg: Paper.Config, f: Strategy<S>, s0: S, cap: Option<real>, ticks: seq<Tick>)
    ensures var live := TickRun(cfg, f, s0, cap, ticks); live.ledger == CreditAll(FLAT, live.fills)
  {
    if ticks != [] {
      var k, live := ticks[|ticks| - 1], TickRun(cfg, f, s0, cap, ticks[..|ticks| - 1]);
      TickLedger(cfg, f, s0, cap, ticks[..|ticks| - 1]);
      if !live.paused && k.open {
        LiveBarParts(cfg, f, if k.trusted then cap else None, live, k.bar);
        CreditAllAppend(FLAT, live.fills, Backtest.BarFills(cfg, f, live.book, live.strat, k.bar));
      }
    }
  }

  // ---------------------------------------------------------------------- parity

  /** The live run and the backtest of the same bars, side by side. */
  ghost predicate Lockstep<S>(cash: real, live: LiveRun<S>, bt: Backtest.Run<S>) {
    && live.book == bt.book && live.strat == bt.strat && live.fills == bt.fills
    && live.ledger == CreditAll(FLAT, bt.fills)
    && |live.pnls| == |bt.curve|
    && forall i :: 0 <= i < |live.pnls| ==> bt.curve[i].1 == cash + live.pnls[i]
  }

  lemma LockstepBar<S>(cfg: Paper.Config, f: Strategy<S>, cash: real, cap: Option<real>,
                       live: LiveRun<S>, bt: Backtest.Run<S>, bar: Bar)
    requires !live.paused && Lockstep(cash, live, bt)
    requires bt.acct == PostAll(Opening(cash), bt.fills)
    ensures Lockstep(cash, LiveBar(cfg, f, cap, live, bar), Backtest.StepBar(cfg, f, bt, bar))
    ensures var live', bt' := LiveBar(cfg, f, cap, live, bar), Backtest.StepBar(cfg, f, bt, bar);
            && |bt'.curve| > 0
            && (live'.paused <==> cap.Some? && bt'.curve[|bt'.curve| - 1].1 <= cash - cap.value)
  {
    LiveBarParts(cfg, f, cap, live, bar);
    Backtest.StepBarParts(cfg, f, bt, bar);
    var fs := Backtest.BarFills(cfg, f, bt.book, bt.strat, bar);
    CreditAllAppend(FLAT, bt.fills, fs);
    PostAllAppend(Opening(cash), bt.fills, fs);
    LedgersAgree(cash, bt.fills + fs, bar.close);
  }

  /** What parity means for a live run, the whole backtest, and the backtest of the bars traded live. */
  ghost predicate Agrees<S>(cash: real, cap: Option<real>, live: LiveRun<S>, bt: Backtest.Run<S>,
      traded: Backtest.Run<S>) {
    var n := |live.pnls|;
    && Lockstep(cash, live, traded)
    && n <= |bt.curve|
    && live.fills == traded.fills && live.fills <= bt.fills
    && (forall i :: 0 <= i < n ==> bt.curve[i].1 == cash + live.pnls[i])
    && (cap.Some? ==> forall i :: 0 <= i < n - 1 ==> bt.curve[i].1 > cash - cap.value)
    && (live.paused <==> cap.Some? && exists i :: 0 <= i < |bt.curve| && bt.curve[i].1 <= cash - cap.value)
    && (live.paused ==> n > 0 && bt.curve[n - 1].1 <= cash - cap.value)
    && (!live.paused ==> n == |bt.curve|)
  }

  lemma PausedKeepsAgreeing<S>(cash: real, cap: Option<real>, live: LiveRun<S>, bt: Backtest.Run<S>,
                               traded: Backtest.Run<S>, bt': Backtest.Run<S>)
    requires live.paused && Agrees(cash, cap, live, bt, traded)
    requires bt.fills <= bt'.fills && bt.curve <= bt'.curve
    ensures Agrees(cash, cap, live, bt', traded)
  {
    var n := |live.pnls|;
    assert bt'.curve[n - 1] == bt.curve[n - 1];
  }

  lemma TradingKeepsAgreeing<S>(cash: real, cap: Option<real>, live: LiveRun<S>, bt: Backtest.Run<S>,
                                live': LiveRun<S>, bt': Backtest.Run<S>)
    requires !live.paused && Agrees(cash, cap, live, bt, bt)
    requires Lockstep(cash, live', bt')
    requires bt.curve <= bt'.curve && |bt'.curve| == |bt.curve| + 1
    requires live'.paused <==> cap.Some? && bt'.curve[|bt.curve|].1 <= cash - cap.value
    ensures Agrees(cash, cap, live', bt', bt')
  {
    if cap.Some? {
      forall i | 0 <= i < |bt.curve| ensures bt'.curve[i].1 > cash - cap.value {
        assert bt.curve[i].1 > cash - cap.value;
      }
    }
  }

  lemma AgreesOneMore<S>(cfg: Paper.Config, f: Strategy<S>, cash: real, cap: Option<real>,
                         live: LiveRun<S>, bt: Backtest.Run<S>, traded: Backtest.Run<S>, bar: Bar)
    requires Agrees(cash, cap, live, bt, traded) && (!live.paused ==> traded == bt)
    requires bt.acct == PostAll(Opening(cash), bt.fills)
    ensures var live', bt' := LiveBar(cfg, f, cap, live, bar), Backtest.StepBar(cfg, f, bt, bar);
            && Agrees(cash, cap, live', bt', if live.paused then traded else bt')
            && |live'.pnls| == |live.pnls| + if live.paused then 0 else 1
  {
    var live', bt' := LiveBar(cfg, f, cap, live, bar), Backtest.StepBar(cfg, f, bt, bar);
    Backtest.StepBarParts(cfg, f, bt, bar);
    if live.paused {
      PausedKeepsAgreeing(cash, cap, live, bt, traded, bt');
    } else {
      LiveBarParts(cfg, f, cap, live, bar);
      LockstepBar(cfg, f, cash, cap, live, bt, bar);
      TradingKeepsAgreeing(cash, cap, live, bt, live', bt');
    }
  }

  /** Parity with truncation, for every pure strategy, every stream of bars and every loss cap:
      the live run makes the backtest's fills bar for bar, its profit at each bar is the curve's
      excess over starting cash, and it pauses exactly at the first bar whose equity is at most
      the starting cash less the cap. */
  lemma {:induction false} LiveMatchesBacktest<S>(cfg: Paper.Config, f: Strategy<S>, s0: S, cash: real,
      cap: Option<real>, bars: seq<Bar>)
    ensures |Run(cfg, f, s0, cap, bars).pnls| <= |bars|
    ensures Agrees(cash, cap, Run(cfg, f, s0, cap, bars), Backtest.Replay(cfg, f, s0, cash, bars),
            Traded(cfg, f, s0, cash, cap, bars))
    ensures !Run(cfg, f, s0, cap, bars).paused
            ==> Traded(cfg, f, s0, cash, cap, bars) == Backtest.Replay(cfg, f, s0, cash, bars)
  {
    Backtest.ReplayBooks(cfg, f, s0, cash, bars);
    if bars != [] {
      var init, bar := bars[..|bars| - 1], bars[|bars| - 1];
      LiveMatchesBacktest(cfg, f, s0, cash, cap, init);
      Backtest.ReplayBooks(cfg, f, s0, cash, init);
      AgreesOneMore(cfg, f, cash, cap, Run(cfg, f, s0, cap, init), Backtest.Replay(cfg, f, s0, cash, init),
          Traded(cfg, f, s0, cash, cap, init), bar);
      TradedOneMore(cfg, f, s0, cash, cap, bars);
    }
  }

  /** The backtest of exactly the bars the live run traded. */
  function Traded<S>(cfg: Paper.Config, f: Strategy<S>, s0: S, cash: real, cap: Option<real>, bars: seq<Bar>)
      : Backtest.Run<S> {
    var n := |Run(cfg, f, s0, cap, bars).pnls|;
    Backtest.Replay(cfg, f, s0, cash, if n <= |bars| then bars[..n] else bars)
  }

  lemma {:induction false} TradedOneMore<S>(cfg: Paper.Config, f: Strategy<S>, s0: S, cash: real, cap: Option<real>,
      bars: seq<Bar>)
    requires bars != []
    requires var live := Run(cfg, f, s0, cap, bars[..|bars| - 1]);
             |live.pnls| <= |bars| - 1 && (!live.paused ==> |live.pnls| == |bars| - 1)
    ensures var live := Run(cfg, f, s0, cap, bars[..|bars| - 1]);
            Traded(cfg, f, s0, cash, cap, bars)
            == if live.paused then Traded(cfg, f, s0, cash, cap, bars[..|bars| - 1])
               else Backtest.Replay(cfg, f, s0, cash, bars)
  {
    var init := bars[..|bars| - 1];
    var live := Run(cfg, f, s0, cap, init);
    assert init[..|live.pnls|] == bars[..|live.pnls|];
    if !live.paused {
      LiveBarParts(cfg, f, cap, live, bars[|bars| - 1]);
      assert bars[..|bars|] == bars;
    }
  }
}
