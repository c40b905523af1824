/** The two books kept from one stream of fills: the live bot's profit-and-loss ledger
    and the backtester's cash, position and average-cost account. */
module Ledger {
  import opened Basics

  // ------------------------------------------------------------ the live ledger

  datatype Pnl = Pnl(position: real, cashOut: real)

  const FLAT := Pnl(0.0, 0.0)

  function Credit(l: Pnl, f: Fill): Pnl {
    var notional := f.quantity * f.price;
    if f.side.Buy? then Pnl(l.position + f.quantity, l.cashOut + (notional + f.fee))
    else Pnl(l.position - f.quantity, l.cashOut - (notional - f.fee))
  }

  function CreditAll(l: Pnl, fs: seq<Fill>): Pnl {
    if fs == [] then l else Credit(CreditAll(l, fs[..|fs| - 1]), fs[|fs| - 1])
  }

  function Mtm(l: Pnl, mark: real): real {
    l.position * mark - l.cashOut
  }

  class PnLLedger {
    var position: real
    var cashOut: real

    constructor ()
      ensures State() == FLAT
    {
      position, cashOut := 0.0, 0.0;
    }

    function State(): Pnl
      reads this
    {
      Pnl(position, cashOut)
    }

    method Apply(f: Fill)
      modifies this
      ensures State() == Credit(old(State()), f)
    {
      var notional := f.quantity * f.price;
      if f.side.Buy? {
        position := position + f.quantity;
        cashOut := cashOut + (notional + f.fee);
      } else {
        position := position - f.quantity;
        cashOut := cashOut - (notional - f.fee);
      }
    }

    method ApplyAll(fs: seq<Fill>)
      modifies this
      ensures State() == CreditAll(old(State()), fs)
    {
      for k := 0 to |fs|
        invariant State() == CreditAll(old(State()), fs[..k])
      {
        assert fs[..k + 1][..k] == fs[..k];
        Apply(fs[k]);
      }
      assert fs[..|fs|] == fs;
    }
  }

  lemma {:induction false} CreditAllAppend(l: Pnl, a: seq<Fill>, b: seq<Fill>)
    ensures CreditAll(l, a + b) == CreditAll(CreditAll(l, a), b)
  {
    if b == [] {
      assert a + b == a;
    } else {
      assert (a + b)[..|a + b| - 1] == a + b[..|b| - 1];
      CreditAllAppend(l, a, b[..|b| - 1]);
    }
  }

  // ------------------------------------------------------- the backtest account

  datatype Account = Account(cash: real, position: real, avgCost: real,
                             numTrades: nat, wins: nat, sells: nat)

  function Opening(cash: real): Account {
    Account(cash, 0.0, 0.0, 0, 0, 0)
  }

  function Realized(a: Account, f: Fill): real {
    (f.price - a.avgCost) * f.quantity - f.fee
  }

  function Post(a: Account, f: Fill): Account {
    var notional := f.quantity * f.price;
    if f.side.Buy? then
      var newPos := a.position + f.quantity;
      a.(numTrades := a.numTrades + 1,
         avgCost := if newPos > 0.0 then (a.avgCost * a.position + notional) / newPos else 0.0,
         position := newPos,
         cash := a.cash - (notional + f.fee))
    else
      a.(numTrades := a.numTrades + 1,
         sells := a.sells + 1,
         wins := a.wins + if Realized(a, f) > 0.0 then 1 else 0,
         position := a.position - f.quantity,
         cash := a.cash + (notional - f.fee))
  }

  function PostAll(a: Account, fs: seq<Fill>): Account {
    if fs == [] then a else Post(PostAll(a, fs[..|fs| - 1]), fs[|fs| - 1])
  }

  function Equity(a: Account, mark: real): real {
    a.cash + a.position * mark
  }

  lemma {:induction false} PostAllAppend(a: Account, x: seq<Fill>, y: seq<Fill>)
    ensures PostAll(a, x + y) == PostAll(PostAll(a, x), y)
  {
    if y == [] {
      assert x + y == x;
    } else {
      assert (x + y)[..|x + y| - 1] == x + y[..|y| - 1];
      PostAllAppend(a, x, y[..|y| - 1]);
    }
  }

  /** What posting a fill does to cash and position, whatever it does to the average. */
  lemma PostCash(a: Account, f: Fill)
    ensures var a', n := Post(a, f), f.quantity * f.price;
            && a'.position == (if f.side.Buy? then a.position + f.quantity else a.position - f.quantity)
            && a'.cash == (if f.side.Buy? then a.cash - (n + f.fee) else a.cash + (n - f.fee))
            && a'.numTrades == a.numTrades + 1
            && a'.wins - a.wins <= a'.sells - a.sells <= 1
  {}

  lemma {:induction false} BooksMirror(cash: real, fs: seq<Fill>)
    ensures var a, l := PostAll(Opening(cash), fs), CreditAll(FLAT, fs);
            && a.position == l.position
            && a.cash == cash - l.cashOut
            && a.numTrades == |fs| && a.wins <= a.sells <= a.numTrades
  {
    if fs != [] {
      var init, f := fs[..|fs| - 1], fs[|fs| - 1];
      BooksMirror(cash, init);
      var a, l := PostAll(Opening(cash), init), CreditAll(FLAT, init);
      PostCash(a, f);
      assert PostAll(Opening(cash), fs) == Post(a, f) && CreditAll(FLAT, fs) == Credit(l, f);
    }
  }

  /** Two implementations of one ledger: over any fills whatsoever the live position is the
      account's position, and equity is the starting cash plus the ledger's profit. */
  lemma {:induction false} LedgersAgree(cash: real, fs: seq<Fill>, mark: real)
    ensures var a, l := PostAll(Opening(cash), fs), CreditAll(FLAT, fs);
            && a.position == l.position
            && Equity(a, mark) == cash + Mtm(l, mark)
            && a.numTrades == |fs| && a.wins <= a.sells <= a.numTrades
  {
    BooksMirror(cash, fs);
  }

  /** The fills that sell, and those of them whose proceeds, fee off, are more than their average cost at the time. */
  function SellsIn(fs: seq<Fill>): nat {
    if fs == [] then 0 else SellsIn(fs[..|fs| - 1]) + if fs[|fs| - 1].side.Sell? then 1 else 0
  }

  predicate Wins(a: Account, f: Fill) {
    f.side.Sell? && f.quantity * f.price - f.fee > a.avgCost * f.quantity
  }

  function WinsIn(cash: real, fs: seq<Fill>): nat {
    if fs == [] then 0 else
      WinsIn(cash, fs[..|fs| - 1]) + if Wins(PostAll(Opening(cash), fs[..|fs| - 1]), fs[|fs| - 1]) then 1 else 0
  }

  lemma PostWins(a: Account, f: Fill)
    ensures Post(a, f).sells == a.sells + if f.side.Sell? then 1 else 0
    ensures Post(a, f).wins == a.wins + if Wins(a, f) then 1 else 0
  {
    assert Realized(a, f) == f.quantity * f.price - a.avgCost * f.quantity - f.fee;
  }

  /** The account counts exactly those. */
  lemma {:induction false} CountsSellsAndWins(cash: real, fs: seq<Fill>)
    ensures var a := PostAll(Opening(cash), fs); a.sells == SellsIn(fs) && a.wins == WinsIn(cash, fs)
  {
    if fs != [] {
      CountsSellsAndWins(cash, fs[..|fs| - 1]);
      PostWins(PostAll(Opening(cash), fs[..|fs| - 1]), fs[|fs| - 1]);
    }
  }

  // ------------------------------------------------------ average-cost identity

  /** Sums over a fill history: realized profit of the sells, fees of the buys, and the cost
      basis a buy forgets when it leaves the position at or below zero. */
  datatype Totals = Totals(realized: real, buyFees: real, writtenOff: real)

  /** The cost basis the averaging branch drops: only a buy that does not end long drops any. */
  function WrittenOff(a: Account, f: Fill): real {
    if f.side.Buy? && a.position + f.quantity <= 0.0
    then a.avgCost * a.position + f.quantity * f.price else 0.0
  }

  function TallyOne(t: Totals, a: Account, f: Fill): Totals {
    Totals(t.realized + (if f.side.Sell? then Realized(a, f) else 0.0),
           t.buyFees + (if f.side.Buy? then f.fee else 0.0),
           t.writtenOff + WrittenOff(a, f))
  }

  function Tally(cash: real, fs: seq<Fill>): Totals {
    if fs == [] then Totals(0.0, 0.0, 0.0) else
      TallyOne(Tally(cash, fs[..|fs| - 1]), PostAll(Opening(cash), fs[..|fs| - 1]), fs[|fs| - 1])
  }

  /** The average-cost identity with its defect, for one account and its totals. */
  predicate Balanced(cash: real, a: Account, t: Totals) {
    a.cash + a.position * a.avgCost == cash + t.realized - t.buyFees - t.writtenOff
  }

  lemma PostBasis(a: Account, f: Fill)
    ensures var a' := Post(a, f);
            && (f.side.Buy? ==>
              a'.position * a'.avgCost == a.position * a.avgCost + f.quantity * f.price - WrittenOff(a, f)
              && a'.cash == a.cash - f.quantity * f.price - f.fee)
            && (f.side.Sell? ==> a'.cash + a'.position * a'.avgCost == a.cash + a.position * a.avgCost + Realized(a, f))
  {
    var a' := Post(a, f);
    if f.side.Buy? {
      var newPos := a.position + f.quantity;
      if newPos > 0.0 {
        var basis := a.avgCost * a.position + f.quantity * f.price;
        assert newPos * (basis / newPos) == basis;
        assert a'.position * a'.avgCost == basis;
      } else {
        assert a'.avgCost == 0.0;
      }
    } else {
      assert a'.position * a'.avgCost == a.position * a.avgCost - f.quantity * a.avgCost;
      assert Realized(a, f) == f.price * f.quantity - a.avgCost * f.quantity - f.fee;
    }
  }

  lemma PostKeepsBalance(cash: real, a: Account, t: Totals, f: Fill)
    requires Balanced(cash, a, t)
    ensures Balanced(cash, Post(a, f), TallyOne(t, a, f))
  {
    PostBasis(a, f);
  }

  /** The identity with its exact defect, for every fill history, oversold or not. */
  lemma {:induction false} AverageCostLedger(cash: real, fs: seq<Fill>)
    ensures Balanced(cash, PostAll(Opening(cash), fs), Tally(cash, fs))
  {
    if fs != [] {
      var init := fs[..|fs| - 1];
      AverageCostLedger(cash, init);
      PostKeepsBalance(cash, PostAll(Opening(cash), init), Tally(cash, init), fs[|fs| - 1]);
    }
  }

  /** Equity as realized profit less buy fees plus the paper profit of the open position. */
  predicate EquitySplits(cash: real, a: Account, t: Totals, mark: real) {
    Equity(a, mark) == cash + t.realized - t.buyFees + a.position * (mark - a.avgCost)
  }

  lemma MarkedBalance(cash: real, a: Account, t: Totals, mark: real)
    requires Balanced(cash, a, t)
    ensures EquitySplits(cash, a, t, mark) <==> t.writtenOff == 0.0
  {
    assert a.position * (mark - a.avgCost) == a.position * mark - a.position * a.avgCost;
  }

  /** The average-cost identity holds exactly when no cost basis was written off. */
  lemma {:induction false} AverageCostIdentity(cash: real, fs: seq<Fill>, mark: real)
    ensures EquitySplits(cash, PostAll(Opening(cash), fs), Tally(cash, fs), mark)
            <==> Tally(cash, fs).writtenOff == 0.0
  {
    AverageCostLedger(cash, fs);
    MarkedBalance(cash, PostAll(Opening(cash), fs), Tally(cash, fs), mark);
  }

  ghost predicate NeverOversells(cash: real, fs: seq<Fill>) {
    forall k :: 0 <= k <= |fs| ==> PostAll(Opening(cash), fs[..k]).position >= 0.0
  }

  /** A history that never oversells writes nothing off, so the identity holds on it. */
  lemma {:induction false} NoOversellNoWriteOff(cash: real, fs: seq<Fill>)
    requires NeverOversells(cash, fs)
    requires forall f :: f in fs ==> f.quantity > 0.0
    ensures Tally(cash, fs).writtenOff == 0.0
  {
    if fs != [] {
      var init := fs[..|fs| - 1];
      forall k | 0 <= k <= |init| ensures PostAll(Opening(cash), init[..k]).position >= 0.0 {
        assert init[..k] == fs[..k];
      }
      NoOversellNoWriteOff(cash, init);
      assert init[..|init|] == init;
      assert fs[|fs| - 1] in fs;
    }
  }

  /** Overselling then buying half of it back: fifty of basis vanish from the average. */
  lemma OversellBreaksTheIdentity()
    ensures var fs := [Fill(1, 0, "X", Sell, 1.0, 100.0, 0.0), Fill(3, 2, "X", Buy, 0.5, 100.0, 0.0)];
            !NeverOversells(0.0, fs) && Tally(0.0, fs).writtenOff == 50.0
  {
    var s, b := Fill(1, 0, "X", Sell, 1.0, 100.0, 0.0), Fill(3, 2, "X", Buy, 0.5, 100.0, 0.0);
    var fs := [s, b];
    assert fs[..1] == [s] && [s][..0] == [] && fs[..|fs| - 1] == [s];
    assert PostAll(Opening(0.0), [s]) == Post(PostAll(Opening(0.0), []), s);
    assert PostAll(Opening(0.0), fs[..1]).position == -1.0;
    assert Tally(0.0, [s]).writtenOff == 0.0;
  }

  // -------------------------------------------------------------- cost of a fill

  /** What a fill loses against the mark: slippage paid plus the fee. */
  function FillCost(f: Fill, mark: real): real {
    if f.side.Buy? then f.quantity * f.price + f.fee - f.quantity * mark
    else f.quantity * mark - (f.quantity * f.price - f.fee)
  }

  function Cost(fs: seq<Fill>, mark: real): real {
    if fs == [] then 0.0 else Cost(fs[..|fs| - 1], mark) + FillCost(fs[|fs| - 1], mark)
  }

  lemma PostCostsOne(a: Account, f: Fill, mark: real)
    ensures Equity(Post(a, f), mark) == Equity(a, mark) - FillCost(f, mark)
  {
    PostCash(a, f);
    assert (a.position + f.quantity) * mark == a.position * mark + f.quantity * mark;
    assert (a.position - f.quantity) * mark == a.position * mark - f.quantity * mark;
  }

  /** At a fixed mark, posting fills moves equity down by exactly their cost. */
  lemma {:induction false} PostingCosts(a: Account, fs: seq<Fill>, mark: real)
    ensures Equity(PostAll(a, fs), mark) == Equity(a, mark) - Cost(fs, mark)
  {
    if fs != [] {
      var init, f := fs[..|fs| - 1], fs[|fs| - 1];
      PostingCosts(a, init, mark);
      PostCostsOne(PostAll(a, init), f, mark);
      assert PostAll(a, fs) == Post(PostAll(a, init), f);
    }
  }
}
