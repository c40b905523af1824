/** The ai_signal bot: a strategy that acts on decisions it finds in its state, and the
    companion task that asks a model for them on an interval and within a daily budget.
    The two share one state; either may run between any two suspensions of the companion. */
module AiSignal {
  import opened Basics

  // -------------------------------------------------------------- shared state

  datatype Verdict = Long | Unwind | Hold

  datatype Signal = Signal(seqNo: int, action: Verdict)

  datatype Params = Params(symbol: string, quoteAmount: real, lookback: nat)
  {
    predicate Valid() {
      symbol != "" && quoteAmount > 0.0 && lookback >= 2
    }
  }

  /** What the two tasks share: the window of closes, the decision slot, the last decision acted
      on, and the quantity the strategy holds. */
  datatype Shared = Shared(closes: seq<real>, slot: Option<Signal>, consumed: int, held: real,
      lastActionTs: Option<int>)

  const FRESH := Shared([], None, 0, 0.0, None)

  predicate Accepts(p: Params, bar: Bar) {
    bar.symbol == p.symbol && bar.close > 0.0
  }

  /** A decision nobody has acted on yet. */
  predicate Unread(sh: Shared) {
    sh.slot.Some? && sh.slot.value.seqNo > sh.consumed
  }

  function Trade(p: Params, side: Side, qty: real, seqNo: int): Intent {
    Intent(p.symbol, side, Market, qty, None, Ai(seqNo))
  }

  /** One bar: slide the window, then act on the slot if it holds an unread decision. */
  function React(p: Params, sh: Shared, bar: Bar): (Shared, seq<Intent>) {
    if !Accepts(p, bar) then (sh, []) else
      var seen := sh.(closes := LastN(sh.closes + [bar.close], p.lookback));
      if !Unread(sh) then (seen, []) else
        var n, read := sh.slot.value.seqNo, seen.(consumed := sh.slot.value.seqNo);
        match sh.slot.value.action
        case Long =>
          var qty := p.quoteAmount / bar.close;
          (read.(held := sh.held + qty, lastActionTs := Some(bar.tsMs)), [Trade(p, Buy, qty, n)])
        case Unwind =>
          if sh.held > 0.0 then (read.(held := 0.0, lastActionTs := Some(bar.tsMs)), [Trade(p, Sell, sh.held, n)])
          else (read, [])
        case Hold => (read, [])
  }

  class StrategyState {
    var closes: seq<real>
    var slot: Option<Signal>
    var consumed: int
    var held: real
    var lastActionTs: Option<int>

    constructor ()
      ensures Value() == FRESH
    {
      closes, slot, consumed, held, lastActionTs := [], None, 0, 0.0, None;
    }

    function Value(): Shared
      reads this
    {
      Shared(closes, slot, consumed, held, lastActionTs)
    }
  }

  method OnBar(p: Params, bar: Bar, state: StrategyState) returns (intents: seq<Intent>)
    modifies state
    ensures (state.Value(), intents) == React(p, old(state.Value()), bar)
  {
    if bar.symbol != p.symbol || bar.close <= 0.0 {
      return [];
    }
    state.closes := state.closes + [bar.close];
    if |state.closes| > p.lookback {
      state.closes := state.closes[|state.closes| - p.lookback..];
    }
    if state.slot.None? || state.slot.value.seqNo <= state.consumed {
      return [];
    }
    var signal := state.slot.value;
    state.consumed := signal.seqNo;
    if signal.action.Long? {
      var qty := p.quoteAmount / bar.close;
      state.held := state.held + qty;
      state.lastActionTs := Some(bar.tsMs);
      return [Trade(p, Buy, qty, signal.seqNo)];
    }
    if signal.action.Unwind? && state.held > 0.0 {
      var qty := state.held;
      state.held := 0.0;
      state.lastActionTs := Some(bar.tsMs);
      return [Trade(p, Sell, qty, signal.seqNo)];
    }
    return [];
  }

  // ------------------------------------------------------------- the companion

  /** Where the companion is suspended. */
  datatype Pc = Sleeping | Consulting(closes: seq<real>, position: real) | EmittingBudget | EmittingDecision | Dead

  datatype Budget = Budget(seqNo: nat, day: Option<int>, consults: nat, flagged: bool)

  const NEW_BUDGET := Budget(0, None, 0, false)

  predicate Exhausted(cap: Option<int>, consults: nat) {
    cap.Some? && consults >= cap.value
  }

  /** The first thing a tick does: a new day resets the count. */
  function RollOver(b: Budget, today: int): Budget {
    if b.day == Some(today) then b else Budget(b.seqNo, Some(today), 0, false)
  }

  /** From waking to the next suspension: a snapshot to consult on, a budget notice, or back to sleep. */
  function Tick(cap: Option<int>, b: Budget, sh: Shared, today: int): (Budget, Pc) {
    var r := RollOver(b, today);
    if |sh.closes| < 2 then (r, Sleeping)
    else if Exhausted(cap, r.consults) then (r.(flagged := true), if r.flagged then Sleeping else EmittingBudget)
    else (r, Consulting(sh.closes, sh.held))
  }

  /** A successful consult: count it, number it, and leave the verdict in the slot. */
  function Record(b: Budget, sh: Shared, action: Verdict): (Budget, Shared) {
    (b.(consults := b.consults + 1, seqNo := b.seqNo + 1), sh.(slot := Some(Signal(b.seqNo + 1, action))))
  }

  class AiSignalCompanion {
    const maxDailyConsults: Option<int>
    var seqNo: nat
    var day: Option<int>
    var consults: nat
    var flagged: bool

    constructor (maxDailyConsults: Option<int>)
      ensures this.maxDailyConsults == maxDailyConsults && Value() == NEW_BUDGET
    {
      this.maxDailyConsults := maxDailyConsults;
      seqNo, day, consults, flagged := 0, None, 0, false;
    }

    function Value(): Budget
      reads this
    {
      Budget(seqNo, day, consults, flagged)
    }

    /** The loop body from the end of one sleep to the next suspension. */
    method Wake(today: int, state: StrategyState) returns (next: Pc)
      modifies this
      ensures (Value(), next) == Tick(maxDailyConsults, old(Value()), state.Value(), today)
    {
      if day != Some(today) {
        day, consults, flagged := Some(today), 0, false;
      }
      var closes, position := state.closes, state.held;
      if |closes| < 2 {
        return Sleeping;
      }
      if maxDailyConsults.Some? && consults >= maxDailyConsults.value {
        if !flagged {
          flagged := true;
          return EmittingBudget;
        }
        return Sleeping;
      }
      return Consulting(closes, position);
    }

    /** The loop body from a successful consult to the next suspension. */
    method Decided(action: Verdict, state: StrategyState) returns (next: Pc)
      modifies this, state`slot
      ensures (Value(), state.Value()) == Record(old(Value()), old(state.Value()), action)
      ensures next == EmittingDecision
    {
      consults := consults + 1;
      seqNo := seqNo + 1;
      state.slot := Some(Signal(seqNo, action));
      next := EmittingDecision;
    }
  }

  // ------------------------------------------------------ the two tasks together

  /** One atomic stretch of either task, or what the outside world does to a suspended companion. */
  datatype Act =
    | BarArrives(bar: Bar)
    | Wakes(today: int)
    | ConsultReturns(action: Verdict)
    | ConsultFails
    | EmitReturns
    | EmitFails
    | Cancelled

  /** The pair of tasks with its history: the closes accepted, the intents emitted, the verdicts
      recorded, the day each was charged to, the days a budget notice went out, and every day seen. */
  datatype World = World(shared: Shared, budget: Budget, pc: Pc, accepted: seq<real>, intents: seq<Intent>,
                         verdicts: seq<Verdict>, charged: seq<int>, notices: seq<int>, days: seq<int>)

  const BEGIN := World(FRESH, NEW_BUDGET, Sleeping, [], [], [], [], [], [])

  function Next(p: Params, cap: Option<int>, w: World, a: Act): World {
    match a
    case BarArrives(bar) =>
      var (sh, out) := React(p, w.shared, bar);
      w.(shared := sh, intents := w.intents + out,
         accepted := if Accepts(p, bar) then w.accepted + [bar.close] else w.accepted)
    case Wakes(today) =>
      if !w.pc.Sleeping? then w else
        var (b, pc) := Tick(cap, w.budget, w.shared, today);
        w.(budget := b, pc := pc, days := w.days + [today],
           notices := if pc.EmittingBudget? then w.notices + [today] else w.notices)
    case ConsultReturns(action) =>
      if !w.pc.Consulting? || w.budget.day.None? then w else
        var (b, sh) := Record(w.budget, w.shared, action);
        w.(budget := b, shared := sh, pc := EmittingDecision, verdicts := w.verdicts + [action],
           charged := w.charged + [w.budget.day.value])
    case ConsultFails => if w.pc.Consulting? then w.(pc := Sleeping) else w
    case EmitReturns => if w.pc.EmittingBudget? || w.pc.EmittingDecision? then w.(pc := Sleeping) else w
    case EmitFails => if w.pc.EmittingBudget? || w.pc.EmittingDecision? then w.(pc := Dead) else w
    case Cancelled => w.(pc := Dead)
  }

  function Exec(p: Params, cap: Option<int>, acts: seq<Act>): World {
    if acts == [] then BEGIN else Next(p, cap, Exec(p, cap, acts[..|acts| - 1]), acts[|acts| - 1])
  }

  // ------------------------------------------------------------ decisions and trades

  /** What has been bought since the last sell. */
  function OpenBuys(trades: seq<Intent>): real {
    if trades == [] then 0.0 else
      var last := trades[|trades| - 1];
      if last.side.Sell? then 0.0 else OpenBuys(trades[..|trades| - 1]) + last.quantity
  }

  /** Intent `k` acts on exactly the verdict its tag names, in the direction that verdict says, and
      a sell unwinds everything bought since the sell before it. */
  predicate ActsOn(trades: seq<Intent>, k: nat, verdicts: seq<Verdict>)
    requires k < |trades|
  {
    && trades[k].tag.Ai? && 1 <= trades[k].tag.seqNo <= |verdicts|
    && trades[k].quantity > 0.0
    && (trades[k].side.Buy? ==> verdicts[trades[k].tag.seqNo - 1].Long?)
    && (trades[k].side.Sell? ==> verdicts[trades[k].tag.seqNo - 1].Unwind?)
    && (trades[k].side.Sell? ==> trades[k].quantity == OpenBuys(trades[..k]))
  }

  /** The acted-on sequence numbers strictly increase, so no decision is acted on twice. */
  ghost predicate StrictlyNewer(trades: seq<Intent>) {
    forall i, j :: 0 <= i < j < |trades| ==>
      trades[i].tag.Ai? && trades[j].tag.Ai? && trades[i].tag.seqNo < trades[j].tag.seqNo
  }

  ghost predicate TradesFollowDecisions(p: Params, w: World) {
    HistoryIsKept(p, w) && DecisionsAreObeyed(w)
  }

  ghost predicate HistoryIsKept(p: Params, w: World) {
    && w.shared.closes == LastN(w.accepted, p.lookback)
    && w.budget.seqNo == |w.verdicts| == |w.charged|
    && 0 <= w.shared.consumed <= |w.verdicts|
    && (if w.verdicts == [] then w.shared.slot.None?
        else w.shared.slot == Some(Signal(|w.verdicts|, w.verdicts[|w.verdicts| - 1])))
  }

  ghost predicate DecisionsAreObeyed(w: World) {
    && (forall k :: 0 <= k < |w.intents| ==>
      ActsOn(w.intents, k, w.verdicts) && w.intents[k].tag.seqNo <= w.shared.consumed)
    && StrictlyNewer(w.intents)
    && w.shared.held == OpenBuys(w.intents) >= 0.0
  }

  /** Only the sharing of the history matters to the invariant, not who is suspended where. */
  lemma SameHistoryFollows(p: Params, w: World, w': World)
    requires TradesFollowDecisions(p, w)
    requires w'.shared == w.shared && w'.intents == w.intents && w'.verdicts == w.verdicts
    requires w'.accepted == w.accepted && w'.charged == w.charged && w'.budget.seqNo == w.budget.seqNo
    ensures TradesFollowDecisions(p, w')
  {}

  lemma RecordFollows(p: Params, w: World, action: Verdict)
    requires TradesFollowDecisions(p, w) && w.pc.Consulting? && w.budget.day.Some?
    ensures TradesFollowDecisions(p, Next(p, None, w, ConsultReturns(action)))
  {
    var w' := Next(p, None, w, ConsultReturns(action));
    forall k | 0 <= k < |w'.intents|
      ensures ActsOn(w'.intents, k, w'.verdicts) && w'.intents[k].tag.seqNo <= w'.shared.consumed
    {
      assert ActsOn(w.intents, k, w.verdicts);
    }
  }

  lemma ReactFollows(p: Params, w: World, bar: Bar)
    requires p.Valid() && TradesFollowDecisions(p, w)
    ensures TradesFollowDecisions(p, Next(p, None, w, BarArrives(bar)))
  {
    ReactKeepsHistory(p, w, bar);
    if React(p, w.shared, bar).1 == [] {
      NoMoreTrades(p, w, bar);
    } else {
      OneMoreTrade(p, w, bar);
    }
  }

  lemma ReactKeepsHistory(p: Params, w: World, bar: Bar)
    requires p.Valid() && HistoryIsKept(p, w)
    ensures HistoryIsKept(p, Next(p, None, w, BarArrives(bar)))
  {
    SlideWindow(w.accepted, bar.close, p.lookback);
  }

  lemma NoMoreTrades(p: Params, w: World, bar: Bar)
    requires DecisionsAreObeyed(w) && React(p, w.shared, bar).1 == []
    requires w.shared.slot.Some? ==> w.shared.consumed <= w.shared.slot.value.seqNo
    ensures DecisionsAreObeyed(Next(p, None, w, BarArrives(bar)))
  {
    assert w.intents + [] == w.intents;
  }

  lemma SlideWindow(all: seq<real>, close: real, n: nat)
    requires n >= 1
    ensures LastN(LastN(all, n) + [close], n) == LastN(all + [close], n)
  {}

  /** Acting on a newer decision extends a sequence of trades that follow decisions. */
  lemma {:induction false} Extend(trades: seq<Intent>, i: Intent, verdicts: seq<Verdict>, consumed: int)
    requires forall k :: 0 <= k < |trades| ==> ActsOn(trades, k, verdicts) && trades[k].tag.seqNo <= consumed
    requires StrictlyNewer(trades)
    requires i.tag.Ai? && consumed < i.tag.seqNo && 1 <= i.tag.seqNo <= |verdicts| && i.quantity > 0.0
    requires i.side.Buy? ==> verdicts[i.tag.seqNo - 1].Long?
    requires i.side.Sell? ==> verdicts[i.tag.seqNo - 1].Unwind? && i.quantity == OpenBuys(trades)
    ensures forall k :: 0 <= k < |trades| + 1 ==>
              ActsOn(trades + [i], k, verdicts) && (trades + [i])[k].tag.seqNo <= i.tag.seqNo
    ensures StrictlyNewer(trades + [i])
    ensures OpenBuys(trades + [i]) == if i.side.Sell? then 0.0 else OpenBuys(trades) + i.quantity
  {
    var more := trades + [i];
    assert more[..|trades|] == trades;
    forall k | 0 <= k < |more| ensures ActsOn(more, k, verdicts) && more[k].tag.seqNo <= i.tag.seqNo {
      if k < |trades| {
        assert more[k] == trades[k] && more[..k] == trades[..k];
        assert ActsOn(trades, k, verdicts);
      }
    }
  }

  lemma OneMoreTrade(p: Params, w: World, bar: Bar)
    requires p.Valid() && TradesFollowDecisions(p, w) && React(p, w.shared, bar).1 != []
    ensures DecisionsAreObeyed(Next(p, None, w, BarArrives(bar)))
  {
    PositiveQuotient(p.quoteAmount, bar.close);
    var i := React(p, w.shared, bar).1[0];
    Extend(w.intents, i, w.verdicts, w.shared.consumed);
  }

  lemma StepFollows(p: Params, cap: Option<int>, w: World, a: Act)
    requires p.Valid() && TradesFollowDecisions(p, w)
    ensures TradesFollowDecisions(p, Next(p, cap, w, a))
  {
    if a.BarArrives? {
      ReactFollows(p, w, a.bar);
    } else if a.ConsultReturns? && w.pc.Consulting? && w.budget.day.Some? {
      RecordFollows(p, w, a.action);
    } else {
      SameHistoryFollows(p, w, Next(p, cap, w, a));
    }
  }

  /** For every interleaving of bars, ticks, consults, failures and cancellation: the window is the
      last closes, acted-on decisions strictly increase and are obeyed, the held quantity is what was
      bought since the last sell, and each sell unwinds exactly that. */
  lemma {:induction false} EveryRunFollowsDecisions(p: Params, cap: Option<int>, acts: seq<Act>)
    requires p.Valid()
    ensures TradesFollowDecisions(p, Exec(p, cap, acts))
  {
    if acts != [] {
      EveryRunFollowsDecisions(p, cap, acts[..|acts| - 1]);
      StepFollows(p, cap, Exec(p, cap, acts[..|acts| - 1]), acts[|acts| - 1]);
    }
  }

  lemma {:induction false} NetIsOpenBuys(trades: seq<Intent>, verdicts: seq<Verdict>)
    requires forall k :: 0 <= k < |trades| ==> ActsOn(trades, k, verdicts)
    ensures Net(trades) == OpenBuys(trades)
  {
    if trades != [] {
      var init := trades[..|trades| - 1];
      forall k | 0 <= k < |init| ensures ActsOn(init, k, verdicts) {
        assert ActsOn(trades, k, verdicts) && init[..k] == trades[..k];
      }
      NetIsOpenBuys(init, verdicts);
      assert ActsOn(trades, |trades| - 1, verdicts);
    }
  }

  /** It can never oversell: the held quantity is buys less sells, and never negative. */
  lemma {:induction false} NeverOversells(p: Params, cap: Option<int>, acts: seq<Act>)
    requires p.Valid()
    ensures var w := Exec(p, cap, acts); w.shared.held == Net(w.intents) >= 0.0
  {
    EveryRunFollowsDecisions(p, cap, acts);
    var w := Exec(p, cap, acts);
    NetIsOpenBuys(w.intents, w.verdicts);
  }

  /** What an accepted bar does with the newest decision: an unread one is consumed; to buy spends the quote amount at
      the bar's close, to unwind sells whatever is held, and anything else trades nothing. */
  ghost predicate ActsOnTheNewest(p: Params, sh: Shared, bar: Bar, sh': Shared, out: seq<Intent>) {
    var buys := Unread(sh) && sh.slot.value.action.Long?;
    var sells := Unread(sh) && sh.slot.value.action.Unwind? && sh.held > 0.0;
    && (Unread(sh) ==> sh'.consumed == sh.slot.value.seqNo) && (!Unread(sh) ==> sh'.consumed == sh.consumed)
    && sh'.slot == sh.slot
    && (!buys && !sells ==> out == [] && sh'.held == sh.held && sh'.lastActionTs == sh.lastActionTs)
    && (buys || sells ==>
          && |out| == 1 && out[0].symbol == p.symbol && out[0].kind.Market? && out[0].limitPrice.None?
          && out[0].tag == Ai(sh.slot.value.seqNo) && sh'.lastActionTs == Some(bar.tsMs))
    && (buys ==> out[0].side.Buy? && out[0].quantity * bar.close == p.quoteAmount
                 && sh'.held == sh.held + out[0].quantity)
    && (sells ==> out[0].side.Sell? && out[0].quantity == sh.held && sh'.held == 0.0)
  }

  lemma DecisionsAreTraded(p: Params, sh: Shared, bar: Bar)
    requires bar.symbol == p.symbol && bar.close > 0.0
    ensures ActsOnTheNewest(p, sh, bar, React(p, sh, bar).0, React(p, sh, bar).1)
  {}

  lemma OthersAreIgnored(p: Params, sh: Shared, bar: Bar)
    requires bar.symbol != p.symbol || bar.close <= 0.0
    ensures React(p, sh, bar) == (sh, [])
  {}

  /** The closes on which the intents of a run were made. */
  function MadeAt(p: Params, cap: Option<int>, acts: seq<Act>): seq<real> {
    if acts == [] then [] else
      var init, a := acts[..|acts| - 1], acts[|acts| - 1];
      MadeAt(p, cap, init)
      + if a.BarArrives? then seq(|React(p, Exec(p, cap, init).shared, a.bar).1|, _ => a.bar.close) else []
  }

  /** Every buy of every run spends exactly the quote amount at the close it was made on. */
  lemma {:induction false} EveryBuySpendsTheQuote(p: Params, cap: Option<int>, acts: seq<Act>)
    ensures var intents, closes := Exec(p, cap, acts).intents, MadeAt(p, cap, acts);
            && |closes| == |intents|
            && forall k :: 0 <= k < |intents| && intents[k].side.Buy? ==>
                 intents[k].quantity * closes[k] == p.quoteAmount
  {
    if acts != [] {
      var init, a := acts[..|acts| - 1], acts[|acts| - 1];
      EveryBuySpendsTheQuote(p, cap, init);
      if a.BarArrives? {
        BarSpends(p, Exec(p, cap, init).shared, a.bar);
      }
    }
  }

  lemma BarSpends(p: Params, sh: Shared, bar: Bar)
    ensures var out := React(p, sh, bar).1;
            && |out| <= 1 && (out != [] && out[0].side.Buy? ==> out[0].quantity * bar.close == p.quoteAmount)
  {
    if Accepts(p, bar) { DecisionsAreTraded(p, sh, bar); } else { OthersAreIgnored(p, sh, bar); }
  }

  /** The bar obeyed the newest verdict there and then, if it had not been obeyed before: a buy spends the quote amount
      at the close, a sell unwinds exactly what has been bought and not sold. */
  ghost predicate ObeysTheNewest(p: Params, w: World, bar: Bar, w': World) {
    var none := w.verdicts == [] || |w.verdicts| <= w.shared.consumed;
    var newest := if none then Hold else w.verdicts[|w.verdicts| - 1];
    && w'.verdicts == w.verdicts && w'.shared.consumed == |w.verdicts|
    && (newest.Hold? || (newest.Unwind? && Net(w.intents) == 0.0) ==> w'.intents == w.intents)
    && (newest.Long? || (newest.Unwind? && Net(w.intents) > 0.0) ==>
          && |w'.intents| == |w.intents| + 1 && w'.intents[..|w.intents|] == w.intents
          && var i := w'.intents[|w.intents|];
             if newest.Long? then i.side.Buy? && i.quantity * bar.close == p.quoteAmount
             else i.side.Sell? && i.quantity == Net(w.intents))
  }

  lemma {:induction false} BarObeys(p: Params, w: World, bar: Bar)
    requires p.Valid() && Accepts(p, bar) && HistoryIsKept(p, w) && w.shared.held == Net(w.intents)
    ensures ObeysTheNewest(p, w, bar, Next(p, None, w, BarArrives(bar)))
  {
    DecisionsAreTraded(p, w.shared, bar);
    var out := React(p, w.shared, bar).1;
    assert w.intents + [] == w.intents;
    assert (w.intents + out)[..|w.intents|] == w.intents;
  }

  /** On every run an accepted bar leaves no decision unread. */
  lemma {:induction false} NewestDecisionIsTaken(p: Params, cap: Option<int>, acts: seq<Act>, bar: Bar)
    requires p.Valid() && bar.symbol == p.symbol && bar.close > 0.0
    ensures ObeysTheNewest(p, Exec(p, cap, acts), bar, Exec(p, cap, acts + [BarArrives(bar)]))
  {
    EveryRunFollowsDecisions(p, cap, acts);
    NeverOversells(p, cap, acts);
    BarObeys(p, Exec(p, cap, acts), bar);
    ExecAppend(p, cap, acts, BarArrives(bar));
  }

  // --------------------------------------------------------------- what is consulted

  /** A tick that finds the companion asleep consults exactly when there are two closes and budget left for the day;
      it consults on the last closes accepted and on what has been bought and not sold. */
  lemma {:induction false} ConsultsOnTheWindow(p: Params, cap: Option<int>, acts: seq<Act>, today: int)
    requires p.Valid() && Exec(p, cap, acts).pc.Sleeping?
    ensures var w, w' := Exec(p, cap, acts), Exec(p, cap, acts + [Wakes(today)]);
            var used := if w.budget.day == Some(today) then w.budget.consults else 0;
            && (w'.pc.Consulting? <==> |w.accepted| >= 2 && (cap.None? || used < cap.value))
            && (w'.pc.Consulting? ==>
                  w'.pc.closes == LastN(w.accepted, p.lookback) && w'.pc.position == Net(w.intents))
            && w'.budget.day == Some(today) && w'.budget.consults == used && w'.budget.seqNo == w.budget.seqNo
  {
    EveryRunFollowsDecisions(p, cap, acts);
    NeverOversells(p, cap, acts);
    ExecAppend(p, cap, acts, Wakes(today));
  }

  /** A consult that fails costs nothing and ends nothing: the companion sleeps on, its budget and the slot as they
      were. One whose event cannot be published, or that is cancelled, is dead. */
  lemma {:induction false} FailedConsultsAreFree(p: Params, cap: Option<int>, w: World)
    requires w.pc.Consulting?
    ensures Next(p, cap, w, ConsultFails) == w.(pc := Sleeping)
    ensures Next(p, cap, w.(pc := EmittingDecision), EmitFails).pc.Dead? && Next(p, cap, w, Cancelled).pc.Dead?
    ensures Next(p, cap, w.(pc := EmittingDecision), EmitReturns).pc.Sleeping?
  {}

  /** Once dead it consults no more, and charges, records and notices nothing more, while the strategy goes on. */
  lemma {:induction false} TheDeadConsultNoMore(p: Params, cap: Option<int>, acts: seq<Act>, more: seq<Act>)
    requires Exec(p, cap, acts).pc.Dead?
    ensures var w, w' := Exec(p, cap, acts), Exec(p, cap, acts + more);
            && w'.pc.Dead? && w'.budget == w.budget && w'.verdicts == w.verdicts && w'.charged == w.charged
            && w'.notices == w.notices && w'.shared.slot == w.shared.slot
    decreases |more|
  {
    if more == [] {
      assert acts + more == acts;
    } else {
      var init, last := more[..|more| - 1], more[|more| - 1];
      TheDeadConsultNoMore(p, cap, acts, init);
      ExecAppend(p, cap, acts + init, last);
      DeadStays(p, cap, Exec(p, cap, acts + init), last);
      assert acts + more == acts + init + [last];
    }
  }

  lemma DeadStays(p: Params, cap: Option<int>, w: World, a: Act)
    requires w.pc.Dead?
    ensures var w' := Next(p, cap, w, a);
            && w'.pc.Dead? && w'.budget == w.budget && w'.verdicts == w.verdicts && w'.charged == w.charged
            && w'.notices == w.notices && w'.shared.slot == w.shared.slot
  {}

  // ------------------------------------------------------------------- the budget

  function CountOf(s: seq<int>, d: int): nat {
    if s == [] then 0 else CountOf(s[..|s| - 1], d) + if s[|s| - 1] == d then 1 else 0
  }

  lemma {:induction false} AbsentCountsZero(s: seq<int>, d: int)
    requires d !in s
    ensures CountOf(s, d) == 0
  {
    if s != [] { AbsentCountsZero(s[..|s| - 1], d); }
  }

  /** No day comes back once another has been seen after it. Clocks that never run backwards have this. */
  ghost predicate NeverReturns(days: seq<int>) {
    forall i, j, k :: 0 <= i < j < k < |days| && days[i] == days[k] ==> days[j] == days[i]
  }

  lemma ForwardClocksNeverReturn(days: seq<int>)
    requires forall i, j :: 0 <= i < j < |days| ==> days[i] <= days[j]
    ensures NeverReturns(days)
  {}

  function Allowance(cap: int): nat {
    if cap > 0 then cap else 0
  }

  /** The companion's counters are the history's: the current day's charges and notices. */
  ghost predicate Accounts(cap: int, w: World) {
    && w.budget.day == (if w.days == [] then None else Some(w.days[|w.days| - 1]))
    && (forall d :: d in w.charged || d in w.notices ==> d in w.days)
    && (forall d :: CountOf(w.charged, d) <= Allowance(cap))
    && (forall d :: CountOf(w.notices, d) <= 1)
    && w.budget.consults <= Allowance(cap)
    && (w.pc.Consulting? ==> w.budget.day.Some? && w.budget.consults < Allowance(cap))
    && (w.budget.day.Some? ==>
          && CountOf(w.charged, w.budget.day.value) == w.budget.consults
          && CountOf(w.notices, w.budget.day.value) == if w.budget.flagged then 1 else 0)
  }

  lemma TickAccounts(p: Params, cap: int, w: World, today: int)
    requires Accounts(cap, w) && w.pc.Sleeping? && NeverReturns(w.days + [today])
    ensures Accounts(cap, Next(p, Some(cap), w, Wakes(today)))
  {
    var w' := Next(p, Some(cap), w, Wakes(today));
    if w.budget.day != Some(today) {
      forall i | 0 <= i < |w.days| ensures w.days[i] != today {
        var ds := w.days + [today];
        assert ds[i] == w.days[i] && ds[|w.days| - 1] == w.days[|w.days| - 1] && ds[|w.days|] == today;
      }
      AbsentCountsZero(w.charged, today);
      AbsentCountsZero(w.notices, today);
    }
    if w'.notices != w.notices {
      assert w'.notices[..|w.notices|] == w.notices;
    }
  }

  lemma StepAccounts(p: Params, cap: int, w: World, a: Act)
    requires Accounts(cap, w) && NeverReturns(Next(p, Some(cap), w, a).days)
    ensures Accounts(cap, Next(p, Some(cap), w, a))
  {
    var w' := Next(p, Some(cap), w, a);
    if a.Wakes? && w.pc.Sleeping? {
      TickAccounts(p, cap, w, a.today);
    } else if a.ConsultReturns? && w.pc.Consulting? {
      assert w'.charged[..|w.charged|] == w.charged;
    }
  }

  lemma DaysGrow(p: Params, cap: Option<int>, w: World, a: Act)
    requires NeverReturns(Next(p, cap, w, a).days)
    ensures NeverReturns(w.days)
  {
    var days := Next(p, cap, w, a).days;
    assert |w.days| <= |days| && forall i :: 0 <= i < |w.days| ==> w.days[i] == days[i];
  }

  /** The daily budget, for every interleaving, every mix of failures, short windows and rollovers:
      as long as no day comes back, no day is charged more consults than the cap, and no day gets a
      second budget notice. */
  lemma {:induction false} DailyCapHolds(p: Params, cap: int, acts: seq<Act>)
    requires NeverReturns(Exec(p, Some(cap), acts).days)
    ensures Accounts(cap, Exec(p, Some(cap), acts))
  {
    if acts != [] {
      var w, a := Exec(p, Some(cap), acts[..|acts| - 1]), acts[|acts| - 1];
      DaysGrow(p, Some(cap), w, a);
      DailyCapHolds(p, cap, acts[..|acts| - 1]);
      StepAccounts(p, cap, w, a);
    }
  }

  // ------------------------------------------- the budget when days do come back

  /** How many of the last readings in a row say the same day. */
  function Stretch(days: seq<int>): nat {
    if days == [] then 0
    else if |days| > 1 && days[|days| - 2] == days[|days| - 1] then Stretch(days[..|days| - 1]) + 1
    else 1
  }

  /** The separate stretches of readings that say day `d`. */
  function Visits(days: seq<int>, d: int): nat {
    if days == [] then 0
    else Visits(days[..|days| - 1], d) + if days[|days| - 1] == d && Stretch(days) == 1 then 1 else 0
  }

  /** The lengths of the stretches of day `d`, each counted up to the cap, summed. */
  function Quota(cap: int, days: seq<int>, d: int): nat {
    if days == [] then 0 else
      Quota(cap, days[..|days| - 1], d) + if days[|days| - 1] == d && Stretch(days) <= Allowance(cap) then 1 else 0
  }

  /** The stretches of day `d` that are longer than the cap. */
  function NoticeQuota(cap: int, days: seq<int>, d: int): nat {
    if days == [] then 0 else
      NoticeQuota(cap, days[..|days| - 1], d)
      + if days[|days| - 1] == d && Stretch(days) == Allowance(cap) + 1 then 1 else 0
  }

  /** What the current stretch has used of the two quotas; all else charged or noticed is within them. */
  ghost predicate WithinQuota(cap: int, w: World) {
    BudgetWithin(cap, w) && forall d :: ChargedWithin(cap, w, d) && NoticedWithin(cap, w, d)
  }

  ghost predicate BudgetWithin(cap: int, w: World) {
    && w.budget.day == (if w.days == [] then None else Some(w.days[|w.days| - 1]))
    && w.budget.consults <= Min(Stretch(w.days), Allowance(cap))
    && (w.pc.Consulting? ==> w.budget.consults < Min(Stretch(w.days), Allowance(cap)))
    && (w.budget.flagged ==> Stretch(w.days) > Allowance(cap))
  }

  ghost predicate ChargedWithin(cap: int, w: World, d: int) {
    var left := if w.budget.day == Some(d) then Min(Stretch(w.days), Allowance(cap)) - w.budget.consults else 0;
    CountOf(w.charged, d) + left <= Quota(cap, w.days, d)
  }

  ghost predicate NoticedWithin(cap: int, w: World, d: int) {
    var left := if w.budget.day == Some(d) && Stretch(w.days) > Allowance(cap) && !w.budget.flagged then 1 else 0;
    CountOf(w.notices, d) + left <= NoticeQuota(cap, w.days, d)
  }

  lemma {:induction false} OneMoreReading(days: seq<int>, d: int)
    ensures (days + [d])[..|days|] == days
    ensures Stretch(days + [d]) == if days != [] && days[|days| - 1] == d then Stretch(days) + 1 else 1
    ensures days != [] ==> Stretch(days) >= 1
  {
    assert (days + [d])[..|days|] == days;
  }

  lemma {:induction false} CountOneMore(s: seq<int>, x: int, d: int)
    ensures CountOf(s + [x], d) == CountOf(s, d) + if x == d then 1 else 0
  {
    assert (s + [x])[..|s|] == s;
  }

  /** A new reading adds to the quotas what it adds to the current stretch's share of them. */
  lemma {:induction false} ReadingAdds(cap: int, days: seq<int>, today: int, d: int)
    ensures var more, same := days + [today], days != [] && days[|days| - 1] == today;
            && Quota(cap, more, d) - Quota(cap, days, d)
               == (if today != d then 0
                   else Min(Stretch(more), Allowance(cap)) - if same then Min(Stretch(days), Allowance(cap)) else 0)
            && NoticeQuota(cap, more, d) - NoticeQuota(cap, days, d)
               == (if today == d && Stretch(more) == Allowance(cap) + 1 then 1 else 0)
  {
    OneMoreReading(days, today);
  }

  lemma {:induction false} TickCharges(p: Params, cap: int, w: World, today: int, d: int)
    requires BudgetWithin(cap, w) && ChargedWithin(cap, w, d) && w.pc.Sleeping?
    ensures ChargedWithin(cap, Next(p, Some(cap), w, Wakes(today)), d)
  {
    OneMoreReading(w.days, today);
    ReadingAdds(cap, w.days, today, d);
  }

  /** What a wake-up does to the day's count of notices. */
  lemma {:induction false} TickNotes(p: Params, cap: int, w: World, today: int, d: int)
    requires w.pc.Sleeping?
    ensures var w', b := Next(p, Some(cap), w, Wakes(today)), RollOver(w.budget, today);
            && w'.days == w.days + [today] && w'.budget.day == Some(today)
            && (w'.budget.flagged <==> b.flagged || w'.notices != w.notices)
            && (w'.notices != w.notices ==> !b.flagged && Exhausted(Some(cap), b.consults))
            && CountOf(w'.notices, d) == CountOf(w.notices, d) + if w'.notices != w.notices && d == today then 1 else 0
  {
    CountOneMore(w.notices, today, d);
  }

  lemma {:induction false} TickNotices(p: Params, cap: int, w: World, today: int, d: int)
    requires BudgetWithin(cap, w) && NoticedWithin(cap, w, d) && w.pc.Sleeping?
    ensures NoticedWithin(cap, Next(p, Some(cap), w, Wakes(today)), d)
  {
    TickNotes(p, cap, w, today, d);
    OneMoreReading(w.days, today);
    ReadingAdds(cap, w.days, today, d);
  }

  lemma {:induction false} TickBudgets(p: Params, cap: int, w: World, today: int)
    requires BudgetWithin(cap, w) && w.pc.Sleeping?
    ensures BudgetWithin(cap, Next(p, Some(cap), w, Wakes(today)))
  {
    OneMoreReading(w.days, today);
  }

  lemma {:induction false} TickWithinQuota(p: Params, cap: int, w: World, today: int)
    requires WithinQuota(cap, w) && w.pc.Sleeping?
    ensures WithinQuota(cap, Next(p, Some(cap), w, Wakes(today)))
  {
    var w' := Next(p, Some(cap), w, Wakes(today));
    TickBudgets(p, cap, w, today);
    forall d ensures ChargedWithin(cap, w', d) && NoticedWithin(cap, w', d) {
      assert ChargedWithin(cap, w, d) && NoticedWithin(cap, w, d);
      TickCharges(p, cap, w, today, d);
      TickNotices(p, cap, w, today, d);
    }
  }

  lemma {:induction false} RecordCharges(p: Params, cap: int, w: World, action: Verdict, d: int)
    requires ChargedWithin(cap, w, d) && NoticedWithin(cap, w, d) && w.pc.Consulting? && w.budget.day.Some?
    ensures var w' := Next(p, Some(cap), w, ConsultReturns(action));
            ChargedWithin(cap, w', d) && NoticedWithin(cap, w', d)
  {
    CountOneMore(w.charged, w.budget.day.value, d);
  }

  lemma {:induction false} RecordWithinQuota(p: Params, cap: int, w: World, action: Verdict)
    requires WithinQuota(cap, w) && w.pc.Consulting? && w.budget.day.Some?
    ensures WithinQuota(cap, Next(p, Some(cap), w, ConsultReturns(action)))
  {
    var w' := Next(p, Some(cap), w, ConsultReturns(action));
    forall d ensures ChargedWithin(cap, w', d) && NoticedWithin(cap, w', d) {
      assert ChargedWithin(cap, w, d) && NoticedWithin(cap, w, d);
      RecordCharges(p, cap, w, action, d);
    }
  }

  lemma {:induction false} SameAccountsWithinQuota(cap: int, w: World, w': World)
    requires WithinQuota(cap, w) && w'.days == w.days && w'.budget == w.budget
    requires w'.charged == w.charged && w'.notices == w.notices && (w'.pc.Consulting? ==> w.pc.Consulting?)
    ensures WithinQuota(cap, w')
  {
    forall d ensures ChargedWithin(cap, w', d) && NoticedWithin(cap, w', d) {
      assert ChargedWithin(cap, w, d) && NoticedWithin(cap, w, d);
    }
  }

  lemma {:induction false} StepWithinQuota(p: Params, cap: int, w: World, a: Act)
    requires WithinQuota(cap, w)
    ensures WithinQuota(cap, Next(p, Some(cap), w, a))
  {
    if a.Wakes? && w.pc.Sleeping? {
      TickWithinQuota(p, cap, w, a.today);
    } else if a.ConsultReturns? && w.pc.Consulting? && w.budget.day.Some? {
      RecordWithinQuota(p, cap, w, a.action);
    } else {
      SameAccountsWithinQuota(cap, w, Next(p, Some(cap), w, a));
    }
  }

  lemma {:induction false} EveryRunWithinQuota(p: Params, cap: int, acts: seq<Act>)
    ensures WithinQuota(cap, Exec(p, Some(cap), acts))
  {
    if acts != [] {
      EveryRunWithinQuota(p, cap, acts[..|acts| - 1]);
      StepWithinQuota(p, cap, Exec(p, Some(cap), acts[..|acts| - 1]), acts[|acts| - 1]);
    }
  }

  lemma {:induction false} QuotaPerVisit(cap: int, days: seq<int>, d: int)
    ensures Quota(cap, days, d) <= Allowance(cap) * Visits(days, d)
    ensures days != [] && days[|days| - 1] == d ==>
              Quota(cap, days, d) <= Allowance(cap) * Visits(days, d) - Allowance(cap)
                  + Min(Stretch(days), Allowance(cap))
    ensures NoticeQuota(cap, days, d) <= Visits(days, d)
    ensures days != [] && days[|days| - 1] == d && Stretch(days) <= Allowance(cap)
            ==> NoticeQuota(cap, days, d) < Visits(days, d)
  {
    if days != [] {
      var init := days[..|days| - 1];
      QuotaPerVisit(cap, init, d);
      OneMoreReading(init, days[|days| - 1]);
      assert init + [days[|days| - 1]] == days;
      Distributes(Allowance(cap), Visits(init, d));
    }
  }

  lemma Distributes(a: nat, v: nat)
    ensures a * (v + 1) == a * v + a
  {}

  /** With no assumption on the clock: on every run no day is charged more than its stretches of readings, each
      capped, add up to, hence never more than the cap per visit; and no day gets more notices than visits. */
  lemma {:induction false} CapHoldsPerVisit(p: Params, cap: int, acts: seq<Act>, d: int)
    ensures var w := Exec(p, Some(cap), acts);
            && CountOf(w.charged, d) <= Quota(cap, w.days, d) <= Allowance(cap) * Visits(w.days, d)
            && CountOf(w.notices, d) <= NoticeQuota(cap, w.days, d) <= Visits(w.days, d)
  {
    EveryRunWithinQuota(p, cap, acts);
    assert ChargedWithin(cap, Exec(p, Some(cap), acts), d) && NoticedWithin(cap, Exec(p, Some(cap), acts), d);
    QuotaPerVisit(cap, Exec(p, Some(cap), acts).days, d);
  }

  lemma {:induction false} ExecAppend(p: Params, cap: Option<int>, acts: seq<Act>, a: Act)
    ensures Exec(p, cap, acts + [a]) == Next(p, cap, Exec(p, cap, acts), a)
  {
    assert (acts + [a])[..|acts|] == acts;
  }

  /** A consult that succeeds at once, on day `d`. */
  function Consult(d: int): seq<Act> {
    [Wakes(d), ConsultReturns(Hold), EmitReturns]
  }

  lemma {:induction false} ConsultRun(p: Params, cap: Option<int>, acts: seq<Act>, d: int)
    requires var w := Exec(p, cap, acts);
             w.pc.Sleeping? && |w.shared.closes| >= 2 && !Exhausted(cap, RollOver(w.budget, d).consults)
    ensures var w, w' := Exec(p, cap, acts), Exec(p, cap, acts + Consult(d));
            && w'.pc.Sleeping? && w'.shared.closes == w.shared.closes && w'.charged == w.charged + [d]
            && w'.budget.day == Some(d) && w'.budget.consults == RollOver(w.budget, d).consults + 1
            && w'.days == w.days + [d] && w'.notices == w.notices && w'.budget.flagged == RollOver(w.budget, d).flagged
  {
    ExecAppend(p, cap, acts, Wakes(d));
    ExecAppend(p, cap, acts + [Wakes(d)], ConsultReturns(Hold));
    ExecAppend(p, cap, acts + [Wakes(d)] + [ConsultReturns(Hold)], EmitReturns);
    assert acts + Consult(d) == acts + [Wakes(d)] + [ConsultReturns(Hold)] + [EmitReturns];
  }

  /** Two bars, enough of a window to consult on. */
  function WarmUp(p: Params): seq<Act> {
    [BarArrives(Bar(0, p.symbol, 1.0)), BarArrives(Bar(1, p.symbol, 1.0))]
  }

  lemma {:induction false} AfterWarmUp(p: Params, cap: Option<int>)
    requires p.Valid()
    ensures var w := Exec(p, cap, WarmUp(p));
            && w.pc.Sleeping? && |w.shared.closes| == 2 && w.charged == [] && w.notices == [] && w.days == []
            && w.budget == NEW_BUDGET
  {
    var acts := WarmUp(p);
    assert acts[..1] == [acts[0]] && acts[..1][..0] == [];
    assert Exec(p, cap, []) == BEGIN;
    var one := Exec(p, cap, acts[..1]);
    assert one.pc.Sleeping? && one.shared.closes == [1.0] && one.charged == [] && one.budget == NEW_BUDGET;
    assert one.days == [] && one.notices == [];
  }

  /** A run on these readings that has spent both quotas in full. */
  ghost predicate SpendsAll(cap: int, w: World, days: seq<int>) {
    Spending(cap, w, days) && forall d :: SpentOn(cap, w, days, d)
  }

  ghost predicate Spending(cap: int, w: World, days: seq<int>) {
    && w.pc.Sleeping? && |w.shared.closes| >= 2 && w.days == days
    && w.budget.day == (if days == [] then None else Some(days[|days| - 1]))
    && w.budget.consults == Min(Stretch(days), Allowance(cap))
    && (w.budget.flagged <==> Stretch(days) > Allowance(cap))
  }

  ghost predicate SpentOn(cap: int, w: World, days: seq<int>, d: int) {
    CountOf(w.charged, d) == Quota(cap, days, d) && CountOf(w.notices, d) == NoticeQuota(cap, days, d)
  }

  /** A consult taken on day `today`, while there was budget, keeps the spending full. */
  lemma {:induction false} ConsultSpends(cap: int, w: World, w': World, days: seq<int>, today: int)
    requires SpendsAll(cap, w, days) && !Exhausted(Some(cap), RollOver(w.budget, today).consults)
    requires w'.pc.Sleeping? && w'.shared.closes == w.shared.closes && w'.days == w.days + [today]
    requires w'.charged == w.charged + [today] && w'.notices == w.notices
    requires w'.budget.day == Some(today) && w'.budget.consults == RollOver(w.budget, today).consults + 1
    requires w'.budget.flagged == RollOver(w.budget, today).flagged
    ensures SpendsAll(cap, w', days + [today])
  {
    OneMoreReading(days, today);
    forall d ensures SpentOn(cap, w', days + [today], d) {
      assert SpentOn(cap, w, days, d);
      CountOneMore(w.charged, today, d);
      ReadingAdds(cap, days, today, d);
    }
  }

  /** So does a wake-up with none left, and the notice that goes with the first. */
  lemma {:induction false} NoticeSpends(cap: int, w: World, w': World, days: seq<int>, today: int)
    requires SpendsAll(cap, w, days) && Exhausted(Some(cap), RollOver(w.budget, today).consults)
    requires w'.pc.Sleeping? && w'.shared.closes == w.shared.closes && w'.days == w.days + [today]
             && w'.charged == w.charged
    requires w'.budget == RollOver(w.budget, today).(flagged := true)
    requires w'.notices == if RollOver(w.budget, today).flagged then w.notices else w.notices + [today]
    ensures SpendsAll(cap, w', days + [today])
  {
    OneMoreReading(days, today);
    forall d ensures SpentOn(cap, w', days + [today], d) {
      assert SpentOn(cap, w, days, d);
      CountOneMore(w.notices, today, d);
      ReadingAdds(cap, days, today, d);
    }
  }

  lemma {:induction false} SpendRun(p: Params, cap: int, acts: seq<Act>, days: seq<int>, today: int)
      returns (more: seq<Act>)
    requires SpendsAll(cap, Exec(p, Some(cap), acts), days)
    ensures SpendsAll(cap, Exec(p, Some(cap), more), days + [today])
  {
    var w := Exec(p, Some(cap), acts);
    if Exhausted(Some(cap), RollOver(w.budget, today).consults) {
      more := acts + [Wakes(today), EmitReturns];
      NoticeRun(p, cap, acts, today);
      NoticeSpends(cap, w, Exec(p, Some(cap), more), days, today);
    } else {
      more := acts + Consult(today);
      ConsultRun(p, Some(cap), acts, today);
      ConsultSpends(cap, w, Exec(p, Some(cap), more), days, today);
    }
  }

  lemma {:induction false} NoticeRun(p: Params, cap: int, acts: seq<Act>, d: int)
    requires var w := Exec(p, Some(cap), acts);
             w.pc.Sleeping? && |w.shared.closes| >= 2 && Exhausted(Some(cap), RollOver(w.budget, d).consults)
    ensures var w, w' := Exec(p, Some(cap), acts), Exec(p, Some(cap), acts + [Wakes(d), EmitReturns]);
            && w'.pc.Sleeping? && w'.shared.closes == w.shared.closes && w'.charged == w.charged
            && w'.days == w.days + [d]
            && w'.budget == RollOver(w.budget, d).(flagged := true)
            && w'.notices == if RollOver(w.budget, d).flagged then w.notices else w.notices + [d]
  {
    ExecAppend(p, Some(cap), acts, Wakes(d));
    ExecAppend(p, Some(cap), acts + [Wakes(d)], EmitReturns);
    assert acts + [Wakes(d), EmitReturns] == acts + [Wakes(d)] + [EmitReturns];
  }

  /** Every sequence of clock readings has a run that spends both quotas in full, on every day at once. */
  lemma {:induction false} QuotasAreReached(p: Params, cap: int, days: seq<int>) returns (acts: seq<Act>)
    requires p.Valid()
    ensures SpendsAll(cap, Exec(p, Some(cap), acts), days)
  {
    if days == [] {
      AfterWarmUp(p, Some(cap));
      acts := WarmUp(p);
    } else {
      var init := days[..|days| - 1];
      acts := QuotasAreReached(p, cap, init);
      acts := SpendRun(p, cap, acts, init, days[|days| - 1]);
      assert init + [days[|days| - 1]] == days;
    }
  }

  /** Exactly when the cap on day `d` can be beaten: some run with these clock readings charges it more than the
      cap if and only if its stretches, each counted up to the cap, add up to more than the cap. */
  lemma {:induction false} CapIsBeatenIff(p: Params, cap: int, days: seq<int>, d: int)
    requires p.Valid()
    ensures Quota(cap, days, d) > Allowance(cap)
            <==> exists acts ::
              Exec(p, Some(cap), acts).days == days && CountOf(Exec(p, Some(cap), acts).charged, d) > Allowance(cap)
  {
    forall acts | Exec(p, Some(cap), acts).days == days
      ensures CountOf(Exec(p, Some(cap), acts).charged, d) <= Quota(cap, days, d)
    {
      CapHoldsPerVisit(p, cap, acts, d);
    }
    var acts := QuotasAreReached(p, cap, days);
    assert Exec(p, Some(cap), acts).days == days && SpentOn(cap, Exec(p, Some(cap), acts), days, d);
  }

  /** The same for a second notice: day `d` can be noticed twice if and only if two of its stretches outlast the cap. */
  lemma {:induction false} NoticedTwiceIff(p: Params, cap: int, days: seq<int>, d: int)
    requires p.Valid()
    ensures NoticeQuota(cap, days, d) > 1
            <==> exists acts ::
              Exec(p, Some(cap), acts).days == days && CountOf(Exec(p, Some(cap), acts).notices, d) > 1
  {
    forall acts | Exec(p, Some(cap), acts).days == days
      ensures CountOf(Exec(p, Some(cap), acts).notices, d) <= NoticeQuota(cap, days, d)
    {
      CapHoldsPerVisit(p, cap, acts, d);
    }
    var acts := QuotasAreReached(p, cap, days);
    assert Exec(p, Some(cap), acts).days == days && SpentOn(cap, Exec(p, Some(cap), acts), days, d);
  }

  /** A clock that steps back a day and returns: with a cap of one, day 0 can be charged twice. */
  lemma {:induction false} ReturningDayBeatsTheCap(p: Params)
    requires p.Valid()
    ensures exists acts :: Exec(p, Some(1), acts).days == [0, 1, 0] && CountOf(Exec(p, Some(1), acts).charged, 0) > 1
  {
    var days := [0, 1, 0];
    assert days[..2] == [0, 1] && [0, 1][..1] == [0] && [0][..0] == [];
    assert Quota(1, [0], 0) == 1 && Quota(1, [0, 1], 0) == 1 && Quota(1, days, 0) == 2;
    CapIsBeatenIff(p, 1, days, 0);
  }
}
