/** The grid strategy: buy a lot at every price line the close falls through, sell one back
    at every line it rises through, from a last-in-first-out stack of lots. */
module Grid {
  import opened Basics
  import Backtest
  import Paper

  datatype Params = Params(symbol: string, lower: real, upper: real, levels: nat, totalQuote: real)
  {
    predicate Valid() {
      lower > 0.0 && upper > lower && levels >= 2 && totalQuote > 0.0
    }

    function Step(): real
      requires Valid()
    {
      (upper - lower) / (levels - 1) as real
    }

    function Line(i: nat): real
      requires Valid()
    {
      lower + Step() * i as real
    }

    /** The price lines, low to high. */
    function Lines(): seq<real>
      requires Valid()
    {
      seq(levels, i requires 0 <= i < levels => Line(i))
    }

    function QuotePerLevel(): real
      requires Valid()
    {
      totalQuote / (levels - 1) as real
    }

  }

  /** The lines rise strictly, in even steps, from the lower to the upper price, and each gets the same share of the
      budget, which is divided by the intervals between them. */
  lemma LinesRise(p: Params)
    requires p.Valid()
    ensures forall i, j :: 0 <= i < j < p.levels ==> p.Lines()[i] < p.Lines()[j]
    ensures p.Lines()[0] == p.lower && p.Lines()[p.levels - 1] == p.upper
    ensures forall i :: 0 <= i < p.levels ==> p.Lines()[i] > 0.0
    ensures forall i, j :: 0 <= i < p.levels - 1 && j == i + 1 ==>
              (p.Lines()[j] - p.Lines()[i]) * (p.levels - 1) as real == p.upper - p.lower
    ensures p.QuotePerLevel() > 0.0 && p.QuotePerLevel() * (p.levels - 1) as real == p.totalQuote
  {
    var n, s := (p.levels - 1) as real, p.Step();
    assert s * n == p.upper - p.lower;
    PositiveQuotient(p.upper - p.lower, n);
    PositiveQuotient(p.totalQuote, n);
    forall i, j | 0 <= i < j < p.levels ensures p.Lines()[i] < p.Lines()[j] {
      assert s * (j - i) as real > 0.0;
      assert s * j as real == s * i as real + s * (j - i) as real;
    }
    forall i | 0 <= i < p.levels ensures p.Lines()[i] > 0.0 {
      assert i > 0 ==> p.Lines()[0] < p.Lines()[i];
    }
    StepsAreEven(p);
  }

  lemma StepsAreEven(p: Params)
    requires p.Valid()
    ensures forall i, j :: 0 <= i < p.levels - 1 && j == i + 1 ==>
              (p.Lines()[j] - p.Lines()[i]) * (p.levels - 1) as real == p.upper - p.lower
    ensures p.QuotePerLevel() * (p.levels - 1) as real == p.totalQuote
  {
    var n, s := (p.levels - 1) as real, p.Step();
    assert s * n == p.upper - p.lower;
    forall i, j | 0 <= i < p.levels - 1 && j == i + 1
      ensures (p.Lines()[j] - p.Lines()[i]) * n == p.upper - p.lower
    {
      assert s * j as real == s * i as real + s;
      assert p.Lines()[j] - p.Lines()[i] == s;
    }
  }

  /** How many lines lie strictly below a close, and how many at or below it. */
  function Count(lines: seq<real>, c: real, inclusive: bool): (n: nat)
    ensures n <= |lines|
  {
    if lines == [] then 0 else
      var last := lines[|lines| - 1];
      Count(lines[..|lines| - 1], c, inclusive) + if last < c || (inclusive && last == c) then 1 else 0
  }

  function Below(p: Params, c: real): nat
    requires p.Valid()
  {
    Count(p.Lines(), c, false)
  }

  function UpTo(p: Params, c: real): nat
    requires p.Valid()
  {
    Count(p.Lines(), c, true)
  }

  predicate OnLine(p: Params, c: real)
    requires p.Valid()
  {
    c in p.Lines()
  }

  lemma {:induction false} CountSplits(lines: seq<real>, c: real, inclusive: bool)
    requires forall i, j :: 0 <= i < j < |lines| ==> lines[i] < lines[j]
    ensures forall i :: 0 <= i < |lines| ==>
              (i < Count(lines, c, inclusive) <==> lines[i] < c || (inclusive && lines[i] == c))
  {
    if lines != [] {
      CountSplits(lines[..|lines| - 1], c, inclusive);
    }
  }

  /** Counting cuts the lines: those before `Below` are below the close, those from `UpTo` on are
      above it, and the two differ by one exactly when the close is on a line. */
  lemma Cuts(p: Params, c: real)
    requires p.Valid()
    ensures Below(p, c) <= UpTo(p, c) <= p.levels
    ensures forall i :: 0 <= i < p.levels ==>
              (i < Below(p, c) <==> p.Line(i) < c) && (i < UpTo(p, c) <==> p.Line(i) <= c)
    ensures UpTo(p, c) == Below(p, c) + if OnLine(p, c) then 1 else 0
  {
    LinesRise(p);
    var lines, b, u := p.Lines(), Below(p, c), UpTo(p, c);
    CountSplits(lines, c, false);
    CountSplits(lines, c, true);
    assert forall i :: 0 <= i < p.levels ==> lines[i] == p.Line(i);
    assert b > 0 ==> lines[b - 1] < c;
    assert u >= 2 ==> lines[u - 2] < lines[u - 1];
    assert b < u ==> lines[b] == c;
  }

  // ------------------------------------------------------------------ one bar

  /** The strategy's state: the last close seen, and the lot stack, top last. */
  datatype State = State(prev: Option<real>, lots: seq<real>)

  const INITIAL := State(None, [])

  function Lot(p: Params, j: nat): real
    requires p.Valid() && p.Line(j) != 0.0
  {
    p.QuotePerLevel() / p.Line(j)
  }

  lemma LineAtLeastLower(p: Params, j: nat)
    requires p.Valid()
    ensures p.Line(j) >= p.lower > 0.0
    ensures p.Line(j) != 0.0 && Lot(p, j) > 0.0
  {
    PositiveQuotient(p.upper - p.lower, (p.levels - 1) as real);
    assert p.Step() * j as real >= 0.0;
    PositiveQuotient(p.totalQuote, (p.levels - 1) as real);
    PositiveQuotient(p.QuotePerLevel(), p.Line(j));
  }

  function BuyIntent(p: Params, j: nat): Intent
    requires p.Valid()
  {
    LineAtLeastLower(p, j);
    Intent(p.symbol, Buy, Market, Lot(p, j), None, GridBuy(p.Line(j)))
  }

  function SellIntent(p: Params, i: nat, qty: real): Intent
    requires p.Valid()
  {
    Intent(p.symbol, Sell, Market, qty, None, GridSell(p.Line(i)))
  }

  /** Lots for lines `hi - 1` down to `lo`, in the order they are bought. */
  function Stack(p: Params, hi: nat, lo: nat): (s: seq<real>)
    requires p.Valid() && lo <= hi
    ensures |s| == hi - lo
  {
    seq(hi - lo, t requires 0 <= t < hi - lo => (LineAtLeastLower(p, hi - 1 - t); Lot(p, hi - 1 - t)))
  }

  function Buys(p: Params, hi: nat, lo: nat): seq<Intent>
    requires p.Valid() && lo <= hi
  {
    seq(hi - lo, t requires 0 <= t < hi - lo => BuyIntent(p, hi - 1 - t))
  }

  /** Selling the top `m` lots, one at each line from `from` up. */
  function Sells(p: Params, lots: seq<real>, from: nat, m: nat): seq<Intent>
    requires p.Valid() && m <= |lots|
  {
    seq(m, t requires 0 <= t < m => SellIntent(p, from + t, lots[|lots| - 1 - t]))
  }

  predicate Accepts(p: Params, bar: Bar) {
    bar.symbol == p.symbol && bar.close > 0.0
  }

  lemma CutsMonotone(p: Params, c1: real, c2: real)
    requires p.Valid() && c1 <= c2
    ensures Below(p, c1) <= Below(p, c2) && UpTo(p, c1) <= UpTo(p, c2)
    ensures c1 < c2 ==> UpTo(p, c1) <= Below(p, c2)
  {
    Cuts(p, c1);
    Cuts(p, c2);
    if Below(p, c1) > 0 { assert p.Line(Below(p, c1) - 1) < c1; }
    if UpTo(p, c1) > 0 { assert p.Line(UpTo(p, c1) - 1) <= c1; }
  }

  /** One bar in closed form: a fall buys at the lines in [close, previous), a rise sells at the
      lines in (previous, close], as far as there are lots. */
  function Step(p: Params, st: State, bar: Bar): (State, seq<Intent>)
    requires p.Valid()
  {
    if !Accepts(p, bar) then (st, [])
    else if st.prev.None? then (State(Some(bar.close), st.lots), [])
    else
      var prev, curr := st.prev.value, bar.close;
      if curr < prev then
        CutsMonotone(p, curr, prev);
        var hi, lo := Below(p, prev), Below(p, curr);
        (State(Some(curr), st.lots + Stack(p, hi, lo)), Buys(p, hi, lo))
      else if curr > prev then
        CutsMonotone(p, prev, curr);
        var m := Min(|st.lots|, UpTo(p, curr) - UpTo(p, prev));
        (State(Some(curr), st.lots[..|st.lots| - m]), Sells(p, st.lots, UpTo(p, prev), m))
      else (State(Some(curr), st.lots), [])
  }

  class GridState {
    var prevClose: Option<real>
    var lots: seq<real>

    constructor ()
      ensures Value() == INITIAL
    {
      prevClose, lots := None, [];
    }

    function Value(): State
      reads this
    {
      State(prevClose, lots)
    }
  }

  /** The strategy's own loops over the sorted lines refine the closed form. */
  method OnBar(p: Params, bar: Bar, state: GridState) returns (intents: seq<Intent>)
    requires p.Valid()
    modifies state
    ensures (state.Value(), intents) == Step(p, old(state.Value()), bar)
  {
    intents := [];
    if bar.symbol != p.symbol || bar.close <= 0.0 {
      return;
    }
    var prev, curr := state.prevClose, bar.close;
    state.prevClose := Some(curr);
    if prev.None? {
      return;
    }
    if curr < prev.value {
      intents := BuyDown(p, prev.value, curr, state);
    } else if curr > prev.value {
      intents := SellUp(p, prev.value, curr, state);
    }
  }

  lemma OneLotDeeper(p: Params, hi: nat, i: nat)
    requires p.Valid() && i < hi
    ensures p.Line(i) != 0.0
    ensures Stack(p, hi, i) == Stack(p, hi, i + 1) + [Lot(p, i)]
    ensures Buys(p, hi, i) == Buys(p, hi, i + 1) + [BuyIntent(p, i)]
  {
    LineAtLeastLower(p, i);
  }

  method BuyDown(p: Params, prev: real, curr: real, state: GridState) returns (intents: seq<Intent>)
    requires p.Valid() && curr < prev
    modifies state`lots
    ensures var hi, lo := Below(p, prev), Below(p, curr);
            && lo <= hi
            && state.lots == old(state.lots) + Stack(p, hi, lo)
            && intents == Buys(p, hi, lo)
  {
    Cuts(p, prev);
    Cuts(p, curr);
    CutsMonotone(p, curr, prev);
    intents := [];
    var i := p.levels;
    while i > 0
      invariant i <= p.levels
      invariant var hi, at := Below(p, prev), Max(Below(p, curr), Min(i, Below(p, prev)));
                && state.lots == old(state.lots) + Stack(p, hi, at)
                && intents == Buys(p, hi, at)
    {
      i := i - 1;
      var line := p.Line(i);
      if prev > line >= curr {
        LineAtLeastLower(p, i);
        OneLotDeeper(p, Below(p, prev), i);
        var qty := Lot(p, i);
        state.lots := state.lots + [qty];
        intents := intents + [Intent(p.symbol, Buy, Market, qty, None, GridBuy(line))];
      }
    }
  }

  method SellUp(p: Params, prev: real, curr: real, state: GridState) returns (intents: seq<Intent>)
    requires p.Valid() && prev < curr
    modifies state`lots
    ensures var from := UpTo(p, prev); var m := Min(|old(state.lots)|, UpTo(p, curr) - from);
            && 0 <= m
            && state.lots == old(state.lots)[..|old(state.lots)| - m]
            && intents == Sells(p, old(state.lots), from, m)
  {
    Cuts(p, prev);
    Cuts(p, curr);
    CutsMonotone(p, prev, curr);
    intents := [];
    ghost var all, from := state.lots, UpTo(p, prev);
    for i := 0 to p.levels
      invariant |intents| == Min(|all|, Max(0, Min(i, UpTo(p, curr)) - from))
      invariant state.lots == all[..|all| - |intents|]
      invariant intents == Sells(p, all, from, |intents|)
    {
      var line := p.Line(i);
      assert prev < line <= curr <==> from <= i < UpTo(p, curr);
      if prev < line <= curr && state.lots != [] {
        var qty := state.lots[|state.lots| - 1];
        ghost var m := |intents|;
        assert Sells(p, all, from, m + 1) == Sells(p, all, from, m) + [SellIntent(p, from + m, all[|all| - 1 - m])];
        assert all[..|all| - m][..|all| - m - 1] == all[..|all| - (m + 1)];
        state.lots := state.lots[..|state.lots| - 1];
        intents := intents + [Intent(p.symbol, Sell, Market, qty, None, GridSell(line))];
      }
    }
  }

  // ---------------------------------------------------------------- whole runs

  /** A held lot: the line it was bought at and the close it was bought on. */
  datatype Held = Held(line: nat, boughtAt: real)

  datatype Sale = Sale(line: nat, lot: Held, soldAt: real)

  /** A run with its history: every held lot's origin, every sale's pairing, the quantities
      bought and sold, and the most lines any close has been above. */
  datatype Trace = Trace(st: State, held: seq<Held>, sales: seq<Sale>, intents: seq<Intent>, high: nat)

  function Opened(hi: nat, lo: nat, close: real): (s: seq<Held>)
    requires lo <= hi
    ensures |s| == hi - lo
  {
    seq(hi - lo, t requires 0 <= t < hi - lo => Held(hi - 1 - t, close))
  }

  function Closed(held: seq<Held>, from: nat, m: nat, close: real): seq<Sale>
    requires m <= |held|
  {
    seq(m, t requires 0 <= t < m => Sale(from + t, held[|held| - 1 - t], close))
  }

  function Follow(p: Params, t: Trace, bar: Bar): Trace
    requires p.Valid() && |t.held| == |t.st.lots|
    ensures |Follow(p, t, bar).held| == |Follow(p, t, bar).st.lots|
  {
    var (st, orders) := Step(p, t.st, bar);
    if !Accepts(p, bar) then t
    else
      var high := Max(t.high, Below(p, bar.close));
      if t.st.prev.None? then Trace(st, t.held, t.sales, t.intents, high)
      else
        var prev, curr := t.st.prev.value, bar.close;
        if curr < prev then
          CutsMonotone(p, curr, prev);
          Trace(st, t.held + Opened(Below(p, prev), Below(p, curr), curr), t.sales, t.intents + orders, high)
        else if curr > prev then
          CutsMonotone(p, prev, curr);
          var m := Min(|t.held|, UpTo(p, curr) - UpTo(p, prev));
          Trace(st, t.held[..|t.held| - m], t.sales + Closed(t.held, UpTo(p, prev), m, curr), t.intents + orders, high)
        else Trace(st, t.held, t.sales, t.intents, high)
  }

  function Run(p: Params, bars: seq<Bar>): (t: Trace)
    requires p.Valid()
    ensures |t.held| == |t.st.lots|
  {
    if bars == [] then Trace(INITIAL, [], [], [], 0)
    else Follow(p, Run(p, bars[..|bars| - 1]), bars[|bars| - 1])
  }

  // ---------------------------------------------- what holds of every run

  /** The history explains the state: each lot is sized for the line it was bought at, and was
      bought at a close no higher than that line. */
  ghost predicate Explains(p: Params, t: Trace)
    requires p.Valid()
  {
    && |t.held| == |t.st.lots|
    && (t.st.prev.None? ==> t.st.lots == [] && t.high == 0)
    && forall i :: 0 <= i < |t.held| ==>
         && t.held[i].line < p.levels
         && p.Line(t.held[i].line) != 0.0 && t.st.lots[i] == Lot(p, t.held[i].line)
         && t.held[i].boughtAt <= p.Line(t.held[i].line)
  }

  lemma FollowExplains(p: Params, t: Trace, bar: Bar)
    requires p.Valid() && Explains(p, t)
    ensures Explains(p, Follow(p, t, bar))
  {
    if Accepts(p, bar) && t.st.prev.Some? {
      if bar.close < t.st.prev.value {
        FallExplains(p, t, bar);
      } else if bar.close > t.st.prev.value {
        CutsMonotone(p, t.st.prev.value, bar.close);
      }
    }
  }

  lemma FallExplains(p: Params, t: Trace, bar: Bar)
    requires p.Valid() && Explains(p, t)
    requires Accepts(p, bar) && t.st.prev.Some? && bar.close < t.st.prev.value
    ensures Explains(p, Follow(p, t, bar))
  {
    var prev, curr, t' := t.st.prev.value, bar.close, Follow(p, t, bar);
    CutsMonotone(p, curr, prev);
    var hi, lo := Below(p, prev), Below(p, curr);
    assert t'.held == t.held + Opened(hi, lo, curr) && t'.st.lots == t.st.lots + Stack(p, hi, lo);
    Cuts(p, curr);
    Cuts(p, prev);
    forall i | |t.held| <= i < |t'.held|
      ensures t'.held[i].line < p.levels && p.Line(t'.held[i].line) != 0.0
      ensures t'.st.lots[i] == Lot(p, t'.held[i].line) && t'.held[i].boughtAt <= p.Line(t'.held[i].line)
    {
      var j := hi - 1 - (i - |t.held|);
      LineAtLeastLower(p, j);
      assert t'.held[i] == Held(j, curr) && lo <= j < hi;
    }
  }

  lemma {:induction false} RunExplains(p: Params, bars: seq<Bar>)
    requires p.Valid()
    ensures Explains(p, Run(p, bars))
  {
    if bars != [] {
      RunExplains(p, bars[..|bars| - 1]);
      FollowExplains(p, Run(p, bars[..|bars| - 1]), bars[|bars| - 1]);
    }
  }

  lemma {:induction false} SumAppend(a: seq<real>, b: seq<real>)
    ensures Sum(a + b) == Sum(a) + Sum(b)
  {
    if b == [] {
      assert a + b == a;
    } else {
      assert (a + b)[..|a + b| - 1] == a + b[..|b| - 1];
      SumAppend(a, b[..|b| - 1]);
    }
  }

  lemma {:induction false} NetAppend(a: seq<Intent>, b: seq<Intent>)
    ensures Net(a + b) == Net(a) + Net(b)
  {
    if b == [] {
      assert a + b == a;
    } else {
      assert (a + b)[..|a + b| - 1] == a + b[..|b| - 1];
      NetAppend(a, b[..|b| - 1]);
    }
  }

  lemma {:induction false} BuysNet(p: Params, hi: nat, lo: nat)
    requires p.Valid() && lo <= hi
    ensures Net(Buys(p, hi, lo)) == Sum(Stack(p, hi, lo))
    decreases hi - lo
  {
    if lo < hi {
      BuysNet(p, hi, lo + 1);
      OneLotDeeper(p, hi, lo);
      var buys, lots := Buys(p, hi, lo), Stack(p, hi, lo);
      assert buys[..|buys| - 1] == Buys(p, hi, lo + 1) && lots[..|lots| - 1] == Stack(p, hi, lo + 1);
      assert buys[|buys| - 1].quantity == lots[|lots| - 1];
    }
  }

  lemma {:induction false} SellsNet(p: Params, lots: seq<real>, from: nat, m: nat)
    requires p.Valid() && m <= |lots|
    ensures Net(Sells(p, lots, from, m)) == Sum(lots[..|lots| - m]) - Sum(lots)
  {
    if m == 0 {
      assert lots[..|lots|] == lots;
    } else {
      SellsNet(p, lots, from, m - 1);
      var all, rest := Sells(p, lots, from, m), lots[..|lots| - m + 1];
      assert all[..m - 1] == Sells(p, lots, from, m - 1);
      assert all[m - 1] == SellIntent(p, from + (m - 1), lots[|lots| - 1 - (m - 1)]);
      assert all[m - 1].quantity == lots[|lots| - m];
      assert rest[..|rest| - 1] == lots[..|lots| - m];
      assert lots[..|lots| - (m - 1)] == rest;
    }
  }

  /** No shorting, on every stream of bars: what the run bought less what it sold is exactly the
      lots it holds, and never negative. */
  lemma {:induction false} NeverShort(p: Params, bars: seq<Bar>)
    requires p.Valid()
    ensures var t := Run(p, bars); Net(t.intents) == Sum(t.st.lots) >= 0.0
  {
    RunExplains(p, bars);
    if bars != [] {
      NeverShort(p, bars[..|bars| - 1]);
      NetStep(p, Run(p, bars[..|bars| - 1]), bars[|bars| - 1]);
    }
    LotsNonNegative(p, Run(p, bars));
  }

  lemma NetStep(p: Params, t: Trace, bar: Bar)
    requires p.Valid() && |t.held| == |t.st.lots| && Net(t.intents) == Sum(t.st.lots)
    ensures Net(Follow(p, t, bar).intents) == Sum(Follow(p, t, bar).st.lots)
  {
    if Accepts(p, bar) && t.st.prev.Some? {
      var prev, curr := t.st.prev.value, bar.close;
      if curr < prev {
        CutsMonotone(p, curr, prev);
        BuysNet(p, Below(p, prev), Below(p, curr));
        NetAppend(t.intents, Buys(p, Below(p, prev), Below(p, curr)));
        SumAppend(t.st.lots, Stack(p, Below(p, prev), Below(p, curr)));
      } else if curr > prev {
        CutsMonotone(p, prev, curr);
        var m := Min(|t.st.lots|, UpTo(p, curr) - UpTo(p, prev));
        SellsNet(p, t.st.lots, UpTo(p, prev), m);
        NetAppend(t.intents, Sells(p, t.st.lots, UpTo(p, prev), m));
      }
    }
  }

  lemma LotsNonNegative(p: Params, t: Trace)
    requires p.Valid() && Explains(p, t)
    ensures Sum(t.st.lots) >= 0.0
  {
    forall i | 0 <= i < |t.held| ensures t.st.lots[i] >= 0.0 {
      LineAtLeastLower(p, t.held[i].line);
    }
    SumNonNegative(t.st.lots);
  }

  lemma {:induction false} SumNonNegative(s: seq<real>)
    requires forall i :: 0 <= i < |s| ==> s[i] >= 0.0
    ensures Sum(s) >= 0.0
  {
    if s != [] { SumNonNegative(s[..|s| - 1]); }
  }

  // ------------------------------------------------------------------ one bar's orders

  /** A fall buys one lot at every line the close has come down to or through, the highest first, each for an equal
      share of the budget at its line; a rise sells the last lots bought, one at every line it has come up to or
      through, the lowest first, until none is left. Nothing else trades. */
  ghost predicate OrdersAsDrawn(p: Params, st: State, bar: Bar, out: seq<Intent>)
    requires p.Valid()
  {
    var prev, curr := if st.prev.None? then bar.close else st.prev.value, bar.close;
    var crossed := UpTo(p, curr) - UpTo(p, prev);
    && (curr == prev ==> out == [])
    && (curr < prev ==>
          && |out| == Below(p, prev) - Below(p, curr)
          && forall i :: 0 <= i < |out| ==> BoughtAt(p, out[i], Below(p, prev) - 1 - i))
    && (curr > prev ==>
          && |out| == (if |st.lots| < crossed then |st.lots| else crossed)
          && forall i :: 0 <= i < |out| ==> SoldAt(p, out[i], UpTo(p, prev) + i, st.lots[|st.lots| - 1 - i]))
  }

  predicate IsMarket(p: Params, i: Intent) {
    i.symbol == p.symbol && i.kind.Market? && i.limitPrice.None?
  }

  /** A lot bought at line `j` for one share of the budget. */
  predicate BoughtAt(p: Params, i: Intent, j: nat)
    requires p.Valid()
  {
    && IsMarket(p, i) && i.side.Buy? && i.tag == GridBuy(p.Line(j))
    && i.quantity * p.Line(j) * (p.levels - 1) as real == p.totalQuote
  }

  predicate SoldAt(p: Params, i: Intent, j: nat, lot: real)
    requires p.Valid()
  {
    IsMarket(p, i) && i.side.Sell? && i.tag == GridSell(p.Line(j)) && i.quantity == lot
  }

  lemma BarTradesAsDrawn(p: Params, st: State, bar: Bar)
    requires p.Valid()
    ensures bar.symbol == p.symbol && bar.close > 0.0 ==>
              OrdersAsDrawn(p, st, bar, Step(p, st, bar).1) && Step(p, st, bar).0.prev == Some(bar.close)
    ensures bar.symbol != p.symbol || bar.close <= 0.0 ==> Step(p, st, bar) == (st, [])
  {
    if Accepts(p, bar) && st.prev.Some? {
      if bar.close < st.prev.value {
        FallBuysAsDrawn(p, st, bar);
      } else if bar.close > st.prev.value {
        RiseSellsAsDrawn(p, st, bar);
      }
    }
  }

  lemma RiseSellsAsDrawn(p: Params, st: State, bar: Bar)
    requires p.Valid() && Accepts(p, bar) && st.prev.Some? && bar.close > st.prev.value
    ensures OrdersAsDrawn(p, st, bar, Step(p, st, bar).1)
  {
    CutsMonotone(p, st.prev.value, bar.close);
    var from, out := UpTo(p, st.prev.value), Step(p, st, bar).1;
    assert out == Sells(p, st.lots, from, |out|);
    forall i | 0 <= i < |out| ensures SoldAt(p, out[i], from + i, st.lots[|st.lots| - 1 - i]) {
      assert out[i] == SellIntent(p, from + i, st.lots[|st.lots| - 1 - i]);
    }
  }

  lemma FallBuysAsDrawn(p: Params, st: State, bar: Bar)
    requires p.Valid() && Accepts(p, bar) && st.prev.Some? && bar.close < st.prev.value
    ensures OrdersAsDrawn(p, st, bar, Step(p, st, bar).1)
  {
    CutsMonotone(p, bar.close, st.prev.value);
    var hi, lo := Below(p, st.prev.value), Below(p, bar.close);
    assert Step(p, st, bar).1 == Buys(p, hi, lo);
    forall i | 0 <= i < hi - lo ensures BoughtAt(p, Buys(p, hi, lo)[i], hi - 1 - i) {
      BuySpendsItsShare(p, hi - 1 - i);
    }
  }

  lemma BuySpendsItsShare(p: Params, j: nat)
    requires p.Valid()
    ensures BoughtAt(p, BuyIntent(p, j), j)
  {
    LineAtLeastLower(p, j);
    LotSpendsItsShare(p, j);
  }

  // ------------------------------------------------------------------ the budget

  /** A lot at its line costs one share of the budget, which has one share for each interval. */
  lemma LotSpendsItsShare(p: Params, j: nat)
    requires p.Valid() && p.Line(j) != 0.0
    ensures Lot(p, j) * p.Line(j) * (p.levels - 1) as real == p.totalQuote
  {
    var n := (p.levels - 1) as real;
    assert Lot(p, j) * p.Line(j) == p.QuotePerLevel();
    assert p.QuotePerLevel() * n == p.totalQuote;
  }

  /** What the first `n` lots held cost at the lines they were bought at. */
  function Committed(p: Params, t: Trace, n: nat): real
    requires p.Valid() && n <= |t.held| == |t.st.lots|
  {
    if n == 0 then 0.0 else Committed(p, t, n - 1) + t.st.lots[n - 1] * p.Line(t.held[n - 1].line)
  }

  lemma {:induction false} CommittedIsShares(p: Params, t: Trace, n: nat)
    requires p.Valid() && Explains(p, t) && n <= |t.held|
    ensures Committed(p, t, n) * (p.levels - 1) as real == n as real * p.totalQuote
  {
    if n > 0 {
      CommittedIsShares(p, t, n - 1);
      LotSpendsItsShare(p, t.held[n - 1].line);
      var k, before := (p.levels - 1) as real, Committed(p, t, n - 1);
      var lot := t.st.lots[n - 1] * p.Line(t.held[n - 1].line);
      assert (before + lot) * k == before * k + lot * k;
      assert n as real * p.totalQuote == (n - 1) as real * p.totalQuote + p.totalQuote;
    }
  }

  /** The lots held, at the lines they were bought at, cost no more than the budget. */
  ghost predicate Affords(p: Params, t: Trace)
    requires p.Valid() && |t.held| == |t.st.lots|
  {
    Committed(p, t, |t.held|) <= p.totalQuote
  }

  ghost predicate WithinBudget(p: Params, bars: seq<Bar>)
    requires p.Valid()
  {
    Affords(p, Run(p, bars))
  }

  /** Every run's lots cost one share of the budget each, at their lines. */
  lemma {:induction false} RunCommitsShares(p: Params, bars: seq<Bar>)
    requires p.Valid()
    ensures CostsShares(p, Run(p, bars))
  {
    RunExplains(p, bars);
    HeldCostsShares(p, Run(p, bars));
  }

  ghost predicate CostsShares(p: Params, t: Trace)
    requires p.Valid() && |t.held| == |t.st.lots|
  {
    Committed(p, t, |t.held|) * (p.levels - 1) as real == |t.st.lots| as real * p.totalQuote
  }

  lemma HeldCostsShares(p: Params, t: Trace)
    requires p.Valid() && Explains(p, t)
    ensures CostsShares(p, t)
  {
    CommittedIsShares(p, t, |t.held|);
  }

  /** The budget is exceeded exactly when as many lots are held as there are lines: there are shares for one fewer. */
  lemma {:induction false} BudgetIffLots(p: Params, bars: seq<Bar>)
    requires p.Valid()
    ensures WithinBudget(p, bars) <==> |Run(p, bars).st.lots| < p.levels
  {
    RunExplains(p, bars);
    AffordsIff(p, Run(p, bars));
  }

  lemma AffordsIff(p: Params, t: Trace)
    requires p.Valid() && Explains(p, t)
    ensures Affords(p, t) <==> |t.st.lots| < p.levels
  {
    CommittedIsShares(p, t, |t.held|);
    SharesWithin(Committed(p, t, |t.held|), |t.held|, p.levels - 1, p.totalQuote);
  }

  lemma SharesWithin(spent: real, lots: nat, k: nat, total: real)
    requires k > 0 && total > 0.0 && spent * k as real == lots as real * total
    ensures spent <= total <==> lots <= k
  {
    var n, m := lots as real, k as real;
    assert (spent - total) * m == (n - m) * total;
    if lots <= k { assert (n - m) * total <= 0.0; } else { assert (n - m) * total > 0.0; }
    if spent <= total { assert (spent - total) * m <= 0.0; } else { assert (spent - total) * m > 0.0; }
  }

  /** What was paid for a lot, at the close it was bought on, is at most its share. */
  lemma {:induction false} LotsCostAtMostTheirShare(p: Params, bars: seq<Bar>, i: nat)
    requires p.Valid() && i < |Run(p, bars).held|
    ensures Run(p, bars).st.lots[i] * Run(p, bars).held[i].boughtAt * (p.levels - 1) as real <= p.totalQuote
  {
    var t, k := Run(p, bars), (p.levels - 1) as real;
    RunExplains(p, bars);
    var lot, h := t.st.lots[i], t.held[i];
    LineAtLeastLower(p, h.line);
    LotSpendsItsShare(p, h.line);
    assert lot * h.boughtAt <= lot * p.Line(h.line);
    assert lot * h.boughtAt * k <= lot * p.Line(h.line) * k;
  }

  /** Some accepted close was above the upper price. */
  ghost predicate WentAbove(p: Params, bars: seq<Bar>) {
    exists i :: 0 <= i < |bars| && Accepts(p, bars[i]) && bars[i].close > p.upper
  }

  lemma BeyondTheLadder(p: Params, c: real)
    requires p.Valid()
    ensures Below(p, c) == p.levels <==> c > p.upper
    ensures Below(p, c) == 0 <==> c <= p.lower
  {
    Cuts(p, c);
    LinesRise(p);
    assert p.Lines()[0] == p.Line(0) && p.Lines()[p.levels - 1] == p.Line(p.levels - 1);
  }

  lemma {:induction false} HighIsReached(p: Params, bars: seq<Bar>)
    requires p.Valid()
    ensures Run(p, bars).high <= p.levels
    ensures Run(p, bars).high == p.levels <==> WentAbove(p, bars)
  {
    if bars != [] {
      var init, bar := bars[..|bars| - 1], bars[|bars| - 1];
      HighIsReached(p, init);
      Cuts(p, bar.close);
      BeyondTheLadder(p, bar.close);
      if WentAbove(p, init) {
        var i :| 0 <= i < |init| && Accepts(p, init[i]) && init[i].close > p.upper;
        assert bars[i] == init[i];
      }
      if i :| 0 <= i < |bars| && Accepts(p, bars[i]) && bars[i].close > p.upper && i < |init| {
        assert init[i] == bars[i];
      }
    }
  }

  /** A clean run is over budget exactly when it has been above the upper price and its last close is at or below the
      lower: it then holds a lot for every line. */
  lemma {:induction false} CleanRunOverBudgetIff(p: Params, bars: seq<Bar>)
    requires p.Valid() && AlwaysClean(p, bars)
    ensures var prev := Run(p, bars).st.prev;
            WithinBudget(p, bars) <==> !(WentAbove(p, bars) && prev.Some? && prev.value <= p.lower)
  {
    var t := Run(p, bars);
    BudgetIffLots(p, bars);
    TidyIffClean(p, bars);
    RunExplains(p, bars);
    HighIsReached(p, bars);
    if t.st.prev.Some? {
      BeyondTheLadder(p, t.st.prev.value);
    }
  }

  /** The last close a run has accepted. */
  lemma {:induction false} PrevIsLastClose(p: Params, bars: seq<Bar>)
    requires p.Valid() && bars != []
    ensures Run(p, bars).st.prev
            == if Accepts(p, bars[|bars| - 1]) then Some(bars[|bars| - 1].close) else Run(p, bars[..|bars| - 1]).st.prev
  {}

  /** A fall from above the upper price to or below the lower, however many bars it takes. */
  ghost predicate FallsThrough(p: Params, bars: seq<Bar>) {
    exists j :: FallsThroughAt(p, bars, j)
  }

  ghost predicate FallsThroughAt(p: Params, bars: seq<Bar>, j: int) {
    0 <= j < |bars| && Accepts(p, bars[j]) && bars[j].close <= p.lower && WentAbove(p, bars[..j])
  }

  ghost predicate AlwaysWithinBudget(p: Params, bars: seq<Bar>)
    requires p.Valid()
  {
    forall n :: 0 <= n <= |bars| ==> WithinBudget(p, bars[..n])
  }

  /** A clean run keeps within its budget throughout exactly when its closes never fall through the whole ladder. */
  lemma {:induction false} CleanRunWithinBudgetIff(p: Params, bars: seq<Bar>)
    requires p.Valid() && AlwaysClean(p, bars)
    ensures AlwaysWithinBudget(p, bars) <==> !FallsThrough(p, bars)
  {
    if bars == [] {
      CleanRunOverBudgetIff(p, bars);
      assert forall n :: 0 <= n <= |bars| ==> bars[..n] == bars;
    } else {
      CleanRunWithinBudgetIff(p, bars[..|bars| - 1]);
      BudgetOneMore(p, bars);
      FallsOneMore(p, bars);
      var init := bars[..|bars| - 1];
      assert AlwaysWithinBudget(p, init) ==> WithinBudget(p, init[..|init|]) && init[..|init|] == init;
      if WithinBudget(p, init) { BarWithinBudgetIff(p, bars); }
    }
  }

  lemma {:induction false} BarWithinBudgetIff(p: Params, bars: seq<Bar>)
    requires p.Valid() && AlwaysClean(p, bars) && bars != [] && WithinBudget(p, bars[..|bars| - 1])
    ensures WithinBudget(p, bars) <==> !FallsThroughAt(p, bars, |bars| - 1)
  {
    CleanRunOverBudgetIff(p, bars[..|bars| - 1]);
    CleanRunOverBudgetIff(p, bars);
    PrevIsLastClose(p, bars);
    WentAboveOneMore(p, bars);
  }

  lemma BudgetOneMore(p: Params, bars: seq<Bar>)
    requires p.Valid() && bars != []
    ensures AlwaysWithinBudget(p, bars) <==> AlwaysWithinBudget(p, bars[..|bars| - 1]) && WithinBudget(p, bars)
  {
    var init := bars[..|bars| - 1];
    assert bars[..|bars|] == bars;
    assert forall n :: 0 <= n <= |init| ==> bars[..n] == init[..n];
  }

  lemma FallsOneMore(p: Params, bars: seq<Bar>)
    requires bars != []
    ensures FallsThrough(p, bars) <==> FallsThrough(p, bars[..|bars| - 1]) || FallsThroughAt(p, bars, |bars| - 1)
  {
    var init := bars[..|bars| - 1];
    forall j | 0 <= j < |init| ensures FallsThroughAt(p, bars, j) <==> FallsThroughAt(p, init, j) {
      assert bars[..j] == init[..j];
    }
  }

  lemma WentAboveOneMore(p: Params, bars: seq<Bar>)
    requires bars != []
    ensures var init, bar := bars[..|bars| - 1], bars[|bars| - 1];
            WentAbove(p, bars) <==> WentAbove(p, init) || (Accepts(p, bar) && bar.close > p.upper)
  {
    var init := bars[..|bars| - 1];
    if WentAbove(p, init) {
      var i :| 0 <= i < |init| && Accepts(p, init[i]) && init[i].close > p.upper;
      assert bars[i] == init[i];
    }
    if i :| 0 <= i < |bars| && Accepts(p, bars[i]) && bars[i].close > p.upper && i < |init| {
      assert init[i] == bars[i];
    }
  }

  // ------------------------------------------------------- per-line pairing

  /** The stack in its tidy form: one lot for each line from the highest ever risen above down to
      the first line above the close, each sized for its line, the highest at the bottom. */
  ghost predicate Tidy(p: Params, t: Trace)
    requires p.Valid()
  {
    t.st.prev.Some? ==>
      && Below(p, t.st.prev.value) <= t.high
      && t.st.lots == Stack(p, t.high, Below(p, t.st.prev.value))
  }

  ghost predicate HeldInOrder(p: Params, t: Trace)
    requires p.Valid()
  {
    t.st.prev.Some? ==>
      && Below(p, t.st.prev.value) <= t.high
      && |t.held| == t.high - Below(p, t.st.prev.value)
      && forall i :: 0 <= i < |t.held| ==> t.held[i].line == t.high - 1 - i
  }

  /** What a bar must satisfy to keep the stack tidy. Falls always do. A rise does unless exactly
      one of the two closes lies on a line while lots are left at or above the new close. */
  predicate Clean(p: Params, t: Trace, bar: Bar)
    requires p.Valid()
  {
    Accepts(p, bar) && t.st.prev.Some? && bar.close > t.st.prev.value ==>
      var prev, curr := t.st.prev.value, bar.close;
      || OnLine(p, prev) == OnLine(p, curr)
      || t.high + (if OnLine(p, prev) then 1 else 0) <= Below(p, curr)
  }

  lemma HeldInOrderIsTidy(p: Params, t: Trace)
    requires p.Valid() && Explains(p, t) && HeldInOrder(p, t)
    ensures Tidy(p, t)
  {}

  lemma CleanStepIff(p: Params, t: Trace, bar: Bar)
    requires p.Valid() && Explains(p, t) && HeldInOrder(p, t)
    ensures Tidy(p, Follow(p, t, bar)) <==> Clean(p, t, bar)
    ensures Clean(p, t, bar) ==> HeldInOrder(p, Follow(p, t, bar))
  {
    FollowExplains(p, t, bar);
    if Accepts(p, bar) && t.st.prev.Some? && bar.close != t.st.prev.value {
      if bar.close < t.st.prev.value {
        FallKeepsOrder(p, t, bar);
      } else {
        RiseKeepsOrderIff(p, t, bar);
      }
    }
    var t' := Follow(p, t, bar);
    if HeldInOrder(p, t') { HeldInOrderIsTidy(p, t'); }
  }

  lemma FallKeepsOrder(p: Params, t: Trace, bar: Bar)
    requires p.Valid() && HeldInOrder(p, t) && |t.held| == |t.st.lots|
    requires Accepts(p, bar) && t.st.prev.Some? && bar.close < t.st.prev.value
    ensures HeldInOrder(p, Follow(p, t, bar))
  {
    CutsMonotone(p, bar.close, t.st.prev.value);
  }

  /** How many lots a rise leaves, against how many the tidy form calls for. */
  lemma RiseKeepsOrderIff(p: Params, t: Trace, bar: Bar)
    requires p.Valid() && HeldInOrder(p, t) && |t.held| == |t.st.lots|
    requires Accepts(p, bar) && t.st.prev.Some? && bar.close > t.st.prev.value
    ensures var t' := Follow(p, t, bar);
            && (Clean(p, t, bar) ==> HeldInOrder(p, t'))
            && (!Clean(p, t, bar) ==> |t'.st.lots| != t'.high - Below(p, bar.close))
  {
    var prev, curr, t' := t.st.prev.value, bar.close, Follow(p, t, bar);
    Cuts(p, prev);
    Cuts(p, curr);
    CutsMonotone(p, prev, curr);
    var m := Min(|t.held|, UpTo(p, curr) - UpTo(p, prev));
    assert |t'.held| == |t'.st.lots| == |t.held| - m && t'.held == t.held[..|t.held| - m];
    assert t'.high == Max(t.high, Below(p, curr));
  }

  ghost predicate AlwaysTidy(p: Params, bars: seq<Bar>)
    requires p.Valid()
  {
    Tidy(p, Run(p, bars)) && (bars != [] ==> AlwaysTidy(p, bars[..|bars| - 1]))
  }

  ghost predicate AlwaysClean(p: Params, bars: seq<Bar>)
    requires p.Valid()
  {
    bars != [] ==> AlwaysClean(p, bars[..|bars| - 1]) && Clean(p, Run(p, bars[..|bars| - 1]), bars[|bars| - 1])
  }

  /** The stack has its tidy form after every bar exactly when every bar is clean. */
  lemma {:induction false} TidyIffClean(p: Params, bars: seq<Bar>)
    requires p.Valid()
    ensures AlwaysTidy(p, bars) <==> AlwaysClean(p, bars)
    ensures AlwaysClean(p, bars) ==> HeldInOrder(p, Run(p, bars))
  {
    if bars != [] {
      var init := bars[..|bars| - 1];
      TidyIffClean(p, init);
      RunExplains(p, init);
      if AlwaysClean(p, init) {
        CleanStepIff(p, Run(p, init), bars[|bars| - 1]);
      }
    }
  }

  ghost predicate NoCloseOnLine(p: Params, bars: seq<Bar>)
    requires p.Valid()
  {
    forall i :: 0 <= i < |bars| && Accepts(p, bars[i]) ==> !OnLine(p, bars[i].close)
  }

  /** With no close on a line every bar is clean, so every close leaves the tidy stack. */
  lemma {:induction false} OffLineIsTidy(p: Params, bars: seq<Bar>)
    requires p.Valid() && NoCloseOnLine(p, bars)
    ensures AlwaysClean(p, bars) && AlwaysTidy(p, bars)
    ensures var t := Run(p, bars); t.st.prev.Some? ==> !OnLine(p, t.st.prev.value)
  {
    if bars != [] {
      OffLineIsTidy(p, bars[..|bars| - 1]);
    }
    TidyIffClean(p, bars);
  }

  /** A sale above the line its lot was bought at, which is at or above the close it was bought on. */
  predicate Profitable(p: Params, s: Sale)
    requires p.Valid()
  {
    s.lot.boughtAt <= p.Line(s.lot.line) < s.soldAt
  }

  /** On a clean run every sale is dearer than its purchase. */
  lemma {:induction false} CleanRunsSellDearer(p: Params, bars: seq<Bar>)
    requires p.Valid() && AlwaysClean(p, bars)
    ensures forall s :: s in Run(p, bars).sales ==> Profitable(p, s)
  {
    if bars != [] {
      var t, bar := Run(p, bars[..|bars| - 1]), bars[|bars| - 1];
      CleanRunsSellDearer(p, bars[..|bars| - 1]);
      TidyIffClean(p, bars[..|bars| - 1]);
      RunExplains(p, bars[..|bars| - 1]);
      if Accepts(p, bar) && t.st.prev.Some? && bar.close > t.st.prev.value {
        BarSales(p, t, bar);
      }
    }
  }

  /** The sales of one rising bar from an ordered stack: the lots of consecutive lines, lowest first. */
  lemma BarSales(p: Params, t: Trace, bar: Bar)
    requires p.Valid() && Explains(p, t) && HeldInOrder(p, t) && Clean(p, t, bar)
    requires Accepts(p, bar) && t.st.prev.Some? && bar.close > t.st.prev.value
    ensures var prev, t' := t.st.prev.value, Follow(p, t, bar);
            && t.sales <= t'.sales
            && forall i :: |t.sales| <= i < |t'.sales| ==>
                 && Profitable(p, t'.sales[i])
                 && t'.sales[i].lot.line == Below(p, prev) + (i - |t.sales|)
                 && t'.sales[i].line == UpTo(p, prev) + (i - |t.sales|)
  {
    var prev, curr := t.st.prev.value, bar.close;
    Cuts(p, prev);
    Cuts(p, curr);
    CutsMonotone(p, prev, curr);
  }

  /** Each sale popped the lot bought at its own line and sold it dearer, on the other side of the line. */
  ghost predicate PairsByLine(p: Params, t: Trace)
    requires p.Valid()
  {
    && (forall s :: s in t.sales ==> s.lot.line == s.line && s.lot.boughtAt < p.Line(s.line) < s.soldAt)
    && (forall h :: h in t.held ==> h.boughtAt < p.Line(h.line))
  }

  /** With no close on a line, each sale pops the lot bought at that same line, and sells it at a
      strictly higher close than it was bought on, on the other side of the line. */
  lemma {:induction false} OffLinePairsByLine(p: Params, bars: seq<Bar>)
    requires p.Valid() && NoCloseOnLine(p, bars)
    ensures PairsByLine(p, Run(p, bars))
  {
    if bars != [] {
      OffLinePairsByLine(p, bars[..|bars| - 1]);
      OneMoreOffLine(p, bars);
    }
  }

  lemma {:induction false} OneMoreOffLine(p: Params, bars: seq<Bar>)
    requires p.Valid() && NoCloseOnLine(p, bars) && bars != [] && PairsByLine(p, Run(p, bars[..|bars| - 1]))
    ensures PairsByLine(p, Run(p, bars))
  {
    var init, bar := bars[..|bars| - 1], bars[|bars| - 1];
    var t := Run(p, init);
    OffLineIsTidy(p, init);
    OffLineIsTidy(p, bars);
    TidyIffClean(p, init);
    RunExplains(p, init);
    if Accepts(p, bar) && t.st.prev.Some? && bar.close > t.st.prev.value {
      RisingPairs(p, t, bar);
    } else if Accepts(p, bar) && t.st.prev.Some? && bar.close < t.st.prev.value {
      FallingPairs(p, t, bar);
    }
  }

  lemma RisingPairs(p: Params, t: Trace, bar: Bar)
    requires p.Valid() && PairsByLine(p, t) && Explains(p, t) && HeldInOrder(p, t) && Clean(p, t, bar)
    requires Accepts(p, bar) && t.st.prev.Some? && bar.close > t.st.prev.value
    requires !OnLine(p, t.st.prev.value) && !OnLine(p, bar.close)
    ensures PairsByLine(p, Follow(p, t, bar))
  {
    var t' := Follow(p, t, bar);
    Cuts(p, t.st.prev.value);
    Cuts(p, bar.close);
    CutsMonotone(p, t.st.prev.value, bar.close);
    BarSales(p, t, bar);
    forall i | |t.sales| <= i < |t'.sales| ensures t'.sales[i].lot in t.held {}
  }

  lemma FallingPairs(p: Params, t: Trace, bar: Bar)
    requires p.Valid() && PairsByLine(p, t) && |t.held| == |t.st.lots|
    requires Accepts(p, bar) && t.st.prev.Some? && bar.close < t.st.prev.value && !OnLine(p, bar.close)
    ensures PairsByLine(p, Follow(p, t, bar))
  {
    Cuts(p, t.st.prev.value);
    Cuts(p, bar.close);
    CutsMonotone(p, bar.close, t.st.prev.value);
  }

  // ---------------------------------------------------- exactly when it sells dearer

  /** What a bar adds to the sales is sold above the close it was bought on. */
  ghost predicate SellsDearer(p: Params, t: Trace, bar: Bar)
    requires p.Valid() && |t.held| == |t.st.lots|
  {
    var t' := Follow(p, t, bar);
    forall i :: |t.sales| <= i < |t'.sales| ==> t'.sales[i].lot.boughtAt < t'.sales[i].soldAt
  }

  /** The k-th lot from the top was bought below the line it would be sold at: the first line above the
      last close for the top lot, the next line for the next. */
  predicate CoveredAt(p: Params, t: Trace, k: nat)
    requires p.Valid() && t.st.prev.Some? && k < |t.held|
  {
    var line := UpTo(p, t.st.prev.value) + k;
    line < p.levels ==> t.held[|t.held| - 1 - k].boughtAt < p.Line(line)
  }

  predicate Covered(p: Params, t: Trace)
    requires p.Valid()
  {
    t.st.prev.Some? ==> forall k :: 0 <= k < |t.held| ==> CoveredAt(p, t, k)
  }

  lemma CoveredRise(p: Params, t: Trace, bar: Bar)
    requires p.Valid() && |t.held| == |t.st.lots| && Covered(p, t)
    requires Accepts(p, bar) && t.st.prev.Some? && bar.close > t.st.prev.value
    ensures SellsDearer(p, t, bar)
  {
    var prev, curr, t' := t.st.prev.value, bar.close, Follow(p, t, bar);
    CutsMonotone(p, prev, curr);
    Cuts(p, curr);
    forall i | |t.sales| <= i < |t'.sales| ensures t'.sales[i].lot.boughtAt < t'.sales[i].soldAt {
      var k := i - |t.sales|;
      assert CoveredAt(p, t, k);
      assert t'.sales[i] == Sale(UpTo(p, prev) + k, t.held[|t.held| - 1 - k], curr);
      assert p.Line(UpTo(p, prev) + k) <= curr;
    }
  }

  lemma CoveredSellsDearer(p: Params, t: Trace, bar: Bar)
    requires p.Valid() && |t.held| == |t.st.lots| && Covered(p, t)
    ensures SellsDearer(p, t, bar)
  {
    if Accepts(p, bar) && t.st.prev.Some? && bar.close > t.st.prev.value {
      CoveredRise(p, t, bar);
    } else {
      SellsNothing(p, t, bar);
    }
  }

  lemma SellsNothing(p: Params, t: Trace, bar: Bar)
    requires p.Valid() && |t.held| == |t.st.lots|
    requires !(Accepts(p, bar) && t.st.prev.Some? && bar.close > t.st.prev.value)
    ensures Follow(p, t, bar).sales == t.sales
  {}

  /** A close of exactly the line that an uncovered lot would be sold at sells it there. */
  lemma UncoveredSellsAtALoss(p: Params, t: Trace, k: nat)
    requires p.Valid() && |t.held| == |t.st.lots| && t.st.prev.Some?
    requires k < |t.held| && !CoveredAt(p, t, k)
    ensures var bar := Bar(0, p.symbol, p.Line(UpTo(p, t.st.prev.value) + k));
            Accepts(p, bar) && !SellsDearer(p, t, bar)
  {
    var prev, from := t.st.prev.value, UpTo(p, t.st.prev.value);
    var bar := Bar(0, p.symbol, p.Line(from + k));
    LineAtLeastLower(p, from + k);
    Cuts(p, prev);
    Cuts(p, bar.close);
    assert bar.close > prev;
    CutsMonotone(p, prev, bar.close);
    var t' := Follow(p, t, bar);
    assert UpTo(p, bar.close) >= from + k + 1;
    assert t'.sales[|t.sales| + k] == Sale(from + k, t.held[|t.held| - 1 - k], bar.close);
  }

  /** "Distribute dearer", exactly: from any state no next bar whatever sells at or below cost, if and
      only if the state is covered. */
  lemma SellsDearerIffCovered(p: Params, t: Trace)
    requires p.Valid() && |t.held| == |t.st.lots|
    ensures Covered(p, t) <==> forall bar :: Accepts(p, bar) ==> SellsDearer(p, t, bar)
  {
    if Covered(p, t) {
      forall bar | Accepts(p, bar) ensures SellsDearer(p, t, bar) {
        CoveredSellsDearer(p, t, bar);
      }
    } else {
      var k :| 0 <= k < |t.held| && !CoveredAt(p, t, k);
      UncoveredSellsAtALoss(p, t, k);
    }
  }

  ghost predicate AlwaysCovered(p: Params, bars: seq<Bar>)
    requires p.Valid()
  {
    forall n :: 0 <= n <= |bars| ==> Covered(p, Run(p, bars[..n]))
  }

  /** No one-bar continuation of any prefix sells at or below cost, if and only if every prefix is covered. */
  lemma {:induction false} RunsSellDearerIffCovered(p: Params, bars: seq<Bar>)
    requires p.Valid()
    ensures AlwaysCovered(p, bars)
            <==> forall n, bar :: 0 <= n <= |bars| && Accepts(p, bar) ==> SellsDearer(p, Run(p, bars[..n]), bar)
  {
    forall n | 0 <= n <= |bars|
      ensures Covered(p, Run(p, bars[..n]))
              <==> forall bar :: Accepts(p, bar) ==> SellsDearer(p, Run(p, bars[..n]), bar)
    {
      SellsDearerIffCovered(p, Run(p, bars[..n]));
    }
  }

  /** So a run whose proper prefixes are covered has sold every lot above its purchase. */
  lemma {:induction false} CoveredRunsSellDearer(p: Params, bars: seq<Bar>)
    requires p.Valid() && (bars != [] ==> AlwaysCovered(p, bars[..|bars| - 1]))
    ensures forall s :: s in Run(p, bars).sales ==> s.lot.boughtAt < s.soldAt
  {
    if bars != [] {
      var init, bar := bars[..|bars| - 1], bars[|bars| - 1];
      assert init[..|init|] == init;
      if init != [] {
        PrefixCovered(p, init);
      }
      CoveredRunsSellDearer(p, init);
      CoveredSellsDearer(p, Run(p, init), bar);
      SalesGrow(p, Run(p, init), bar);
    }
  }

  lemma {:induction false} PrefixCovered(p: Params, bars: seq<Bar>)
    requires p.Valid() && bars != [] && AlwaysCovered(p, bars)
    ensures AlwaysCovered(p, bars[..|bars| - 1])
  {
    var init := bars[..|bars| - 1];
    forall n | 0 <= n <= |init| ensures Covered(p, Run(p, init[..n])) {
      assert init[..n] == bars[..n];
    }
  }

  lemma SalesGrow(p: Params, t: Trace, bar: Bar)
    requires p.Valid() && |t.held| == |t.st.lots|
    ensures t.sales <= Follow(p, t, bar).sales
  {}

  /** A tidy stack is covered when the last close is on a line; off the lines it is covered exactly when no lot
      that could be sold was bought on its own line. */
  lemma {:induction false} OrderedIsCoveredIff(p: Params, t: Trace)
    requires p.Valid() && Explains(p, t) && HeldInOrder(p, t) && t.st.prev.Some?
    ensures Covered(p, t) <==>
              OnLine(p, t.st.prev.value)
              || forall i :: 0 <= i < |t.held| ==> t.held[i].boughtAt != p.Line(t.held[i].line)
  {
    var prev := t.st.prev.value;
    var from, n := UpTo(p, prev), |t.held|;
    Cuts(p, prev);
    LinesRise(p);
    if OnLine(p, prev) {
      forall k | 0 <= k < n ensures CoveredAt(p, t, k) {
        assert t.held[n - 1 - k].line == Below(p, prev) + k;
        assert from + k < p.levels ==> p.Lines()[Below(p, prev) + k] < p.Lines()[from + k];
      }
    } else {
      forall k | 0 <= k < n
        ensures CoveredAt(p, t, k) <==> t.held[n - 1 - k].boughtAt != p.Line(t.held[n - 1 - k].line)
      {
        assert t.held[n - 1 - k].line == from + k;
      }
      forall i | 0 <= i < n
        ensures CoveredAt(p, t, n - 1 - i) <==> t.held[i].boughtAt != p.Line(t.held[i].line)
      {
        assert t.held[n - 1 - (n - 1 - i)] == t.held[i];
      }
    }
  }

  /** The two sufficient conditions, again: streams with no close on a line are covered throughout, and a
      clean stream is covered wherever its last close is on a line or no lot was bought on its own. */
  lemma {:induction false} OffLineIsCovered(p: Params, bars: seq<Bar>)
    requires p.Valid() && NoCloseOnLine(p, bars)
    ensures AlwaysCovered(p, bars)
  {
    forall n | 0 <= n <= |bars| ensures Covered(p, Run(p, bars[..n])) {
      var some := bars[..n];
      OffLineIsTidy(p, some);
      TidyIffClean(p, some);
      OffLinePairsByLine(p, some);
      RunExplains(p, some);
      if Run(p, some).st.prev.Some? {
        OrderedIsCoveredIff(p, Run(p, some));
      }
    }
  }

  lemma {:induction false} CleanIsCoveredIff(p: Params, bars: seq<Bar>)
    requires p.Valid() && AlwaysClean(p, bars) && Run(p, bars).st.prev.Some?
    ensures var t := Run(p, bars);
            Covered(p, t) <==>
              OnLine(p, t.st.prev.value)
              || forall i :: 0 <= i < |t.held| ==> t.held[i].boughtAt != p.Line(t.held[i].line)
  {
    TidyIffClean(p, bars);
    RunExplains(p, bars);
    OrderedIsCoveredIff(p, Run(p, bars));
  }

  /** Lines 1, 2 and 3. */
  const EXAMPLE := Params("X", 1.0, 3.0, 3, 2.0)

  lemma ExampleCuts()
    ensures EXAMPLE.Valid() && EXAMPLE.Line(0) == 1.0 && EXAMPLE.Line(1) == 2.0 && EXAMPLE.Line(2) == 3.0
    ensures Below(EXAMPLE, 4.0) == 3 && Below(EXAMPLE, 2.5) == 2 && UpTo(EXAMPLE, 2.5) == 2
    ensures Below(EXAMPLE, 1.5) == 1 && UpTo(EXAMPLE, 1.5) == 1
    ensures Below(EXAMPLE, 2.0) == 1 && UpTo(EXAMPLE, 2.0) == 2 && UpTo(EXAMPLE, 2.2) == 2 && Below(EXAMPLE, 2.2) == 2
  {
    var p := EXAMPLE;
    assert p.Line(0) == 1.0 && p.Line(1) == 2.0 && p.Line(2) == 3.0;
    assert p.Lines() == [1.0, 2.0, 3.0];
    Cuts(p, 4.0); Cuts(p, 2.5); Cuts(p, 1.5); Cuts(p, 2.0); Cuts(p, 2.2);
  }

  /** One more example bar: what is held and sold after it. */
  lemma {:induction false} ExampleBar(bars: seq<Bar>, close: real, held: seq<Held>, sold: seq<Sale>)
    requires EXAMPLE.Valid() && close > 0.0 && Run(EXAMPLE, bars).st.prev.Some?
    requires var t := Run(EXAMPLE, bars);
             var prev := t.st.prev.value;
             if close < prev then Below(EXAMPLE, close) <= Below(EXAMPLE, prev) && sold == []
                                  && held == t.held + Opened(Below(EXAMPLE, prev), Below(EXAMPLE, close), close)
             else close > prev && UpTo(EXAMPLE, prev) <= UpTo(EXAMPLE, close)
                  && (var m := Min(|t.held|, UpTo(EXAMPLE, close) - UpTo(EXAMPLE, prev));
                      held == t.held[..|t.held| - m] && sold == Closed(t.held, UpTo(EXAMPLE, prev), m, close))
    ensures var t, t' := Run(EXAMPLE, bars), Run(EXAMPLE, bars + [Bar(0, "X", close)]);
            t'.held == held && t'.sales == t.sales + sold && t'.st.prev == Some(close)
  {
    RunOne(EXAMPLE, bars, Bar(0, "X", close));
  }

  const FALLING_BARS := [Bar(0, "X", 4.0), Bar(0, "X", 2.5), Bar(0, "X", 1.5)]

  lemma ExampleStart()
    ensures EXAMPLE.Valid()
    ensures var t := Run(EXAMPLE, [Bar(0, "X", 4.0)]); t.held == [] && t.sales == [] && t.st.prev == Some(4.0)
  {
    ExampleCuts();
    RunOne(EXAMPLE, [], Bar(0, "X", 4.0));
    assert [] + [Bar(0, "X", 4.0)] == [Bar(0, "X", 4.0)];
  }

  lemma ExampleFall()
    ensures EXAMPLE.Valid()
    ensures var t := Run(EXAMPLE, FALLING_BARS);
            t.held == [Held(2, 2.5), Held(1, 1.5)] && t.sales == [] && t.st.prev == Some(1.5)
  {
    ExampleCuts();
    ExampleStart();
    var b := [Bar(0, "X", 4.0)];
    ExampleBar(b, 2.5, [Held(2, 2.5)], []);
    ExampleBar(b + [Bar(0, "X", 2.5)], 1.5, [Held(2, 2.5), Held(1, 1.5)], []);
    assert b + [Bar(0, "X", 2.5)] + [Bar(0, "X", 1.5)] == FALLING_BARS;
  }

  lemma ExampleTouch()
    ensures EXAMPLE.Valid()
    ensures var t := Run(EXAMPLE, FALLING_BARS + [Bar(0, "X", 2.0)]);
            t.held == [Held(2, 2.5)] && t.sales == [Sale(1, Held(1, 1.5), 2.0)] && t.st.prev == Some(2.0)
  {
    ExampleCuts();
    ExampleFall();
    var held, sold := [Held(2, 2.5), Held(1, 1.5)], [Sale(1, Held(1, 1.5), 2.0)];
    assert held[..1] == [Held(2, 2.5)] && Closed(held, 1, 1, 2.0) == sold;
    ExampleBar(FALLING_BARS, 2.0, held[..1], sold);
  }

  /** A run that leaves the condition. Bought at 2.5 for line 3 and at 1.5 for line 2; a close of exactly 2
      sells the second lot, falling back buys nothing, and the rise through line 2 sells the lot bought at
      2.5 for 2.2. */
  lemma OnLineCloseSellsAtALoss()
    ensures EXAMPLE.Valid()
    ensures Run(EXAMPLE, FALLING_BARS + [Bar(0, "X", 2.0)] + [Bar(0, "X", 1.5)] + [Bar(0, "X", 2.2)]).sales
            == [Sale(1, Held(1, 1.5), 2.0), Sale(1, Held(2, 2.5), 2.2)]
  {
    ExampleCuts();
    ExampleTouch();
    var touched := FALLING_BARS + [Bar(0, "X", 2.0)];
    ExampleBar(touched, 1.5, [Held(2, 2.5)], []);
    ExampleBar(touched + [Bar(0, "X", 1.5)], 2.2, [], [Sale(1, Held(2, 2.5), 2.2)]);
  }

  lemma {:induction false} RunOne(p: Params, bars: seq<Bar>, bar: Bar)
    requires p.Valid()
    ensures Run(p, bars + [bar]) == Follow(p, Run(p, bars), bar)
  {
    assert (bars + [bar])[..|bars|] == bars;
  }

  // -------------------------------------------------- as a strategy to backtest

  function AsStrategy(p: Params): Strategy<State>
    requires p.Valid()
  {
    (bar: Bar, st: State) => (Step(p, st, bar).1, Step(p, st, bar).0)
  }

  /** The states the strategy reaches hold only positive lots. */
  predicate PositiveLots(st: State) {
    forall i :: 0 <= i < |st.lots| ==> st.lots[i] > 0.0
  }

  /** The grid trades only its bar's symbol, in positive sizes, from every state it reaches. */
  lemma GridTradesTheBar(p: Params)
    requires p.Valid()
    ensures PositiveLots(INITIAL)
    ensures Backtest.TradesTheBar(AsStrategy(p), PositiveLots)
  {
    forall bar: Bar, st: State | PositiveLots(st)
      ensures PositiveLots(AsStrategy(p)(bar, st).1)
      ensures forall i :: i in AsStrategy(p)(bar, st).0 ==> i.symbol == bar.symbol && i.quantity > 0.0
    {
      StepTradesTheBar(p, st, bar);
    }
  }

  lemma StepTradesTheBar(p: Params, st: State, bar: Bar)
    requires p.Valid() && PositiveLots(st)
    ensures PositiveLots(Step(p, st, bar).0)
    ensures forall i :: i in Step(p, st, bar).1 ==> i.symbol == bar.symbol && i.quantity > 0.0 && i.Valid()
  {
    var (st', orders) := Step(p, st, bar);
    if Accepts(p, bar) && st.prev.Some? {
      if bar.close < st.prev.value {
        CutsMonotone(p, bar.close, st.prev.value);
        forall j: nat ensures p.Line(j) != 0.0 && Lot(p, j) > 0.0 { LineAtLeastLower(p, j); }
        forall i | i in orders ensures i.symbol == bar.symbol && i.quantity > 0.0 && i.Valid() {
          var k :| 0 <= k < |orders| && orders[k] == i;
          assert i == BuyIntent(p, Below(p, st.prev.value) - 1 - k);
        }
      } else if bar.close > st.prev.value {
        CutsMonotone(p, st.prev.value, bar.close);
        forall i | i in orders ensures i.symbol == bar.symbol && i.quantity > 0.0 && i.Valid() {
          var k :| 0 <= k < |orders| && orders[k] == i;
          assert i.quantity == st.lots[|st.lots| - 1 - k];
        }
      }
    }
  }

  /** A grid never makes money while the price stands still, whatever it holds. */
  lemma {:induction false} GridNeverPaidForStandingStill(cfg: Paper.Config, p: Params, cash: real, bars: seq<Bar>,
      i: nat, j: nat)
    requires p.Valid() && Backtest.ChargesEveryTrade(cfg)
    requires i <= j < |bars| && forall k :: i <= k <= j ==> bars[k].close == bars[i].close
    ensures var curve := Backtest.Replay(cfg, AsStrategy(p), INITIAL, cash, bars).curve;
            |curve| == |bars| && curve[j].1 <= curve[i].1
  {
    GridTradesTheBar(p);
    Backtest.FlatPriceNeverPays(cfg, AsStrategy(p), PositiveLots, INITIAL, cash, bars, i, j);
  }
}
