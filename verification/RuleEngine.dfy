/** The rule engine: an interpreter for user-authored conditions over window-bounded
    indicators, with edge-triggered rules and cooldowns. */
module RuleEngine {
  import opened Basics
  import opened EdgeRules
  import Backtest
  import Paper

  // ---------------------------------------------------------------- the language

  datatype Fn = Price | Value | Sma | Rsi

  datatype Indicator = Indicator(name: string, fn: Fn, period: int, value: real)
  {
    predicate Valid() {
      name != "" && (fn.Sma? || fn.Rsi? ==> period >= 2)
    }

    /** How many trailing closes the indicator needs. */
    function Window(): int {
      match fn
      case Rsi => period + 1
      case Sma => period
      case _ => 1
    }
  }

  datatype CmpOp = Less | AtMost | More | AtLeast | Equal | CrossOver | CrossUnder

  datatype Cond =
    | Compare(op: CmpOp, left: string, right: string)
    | And(terms: seq<Cond>)
    | Or(terms: seq<Cond>)
    | Not(term: Cond)

  datatype Action = Action(side: Side, kind: OrderType, quote: real, limitOffsetPct: Option<real>)
  {
    predicate Valid() {
      quote > 0.0 && (kind.Limit? ==> limitOffsetPct.Some?)
    }
  }

  datatype Rule = Rule(when: Cond, do: Action, cooldownMinutes: int)

  /** How a token reads as a decimal literal, when it is one. */
  type Reader = string -> Option<real>

  datatype Params = Params(symbol: string, indicators: seq<Indicator>, rules: seq<Rule>, lit: Reader)
  {
    ghost predicate Valid() {
      && (forall i :: 0 <= i < |indicators| ==> indicators[i].Valid())
      && (forall i :: 0 <= i < |rules| ==> rules[i].do.Valid())
    }

    function MaxWindow(): int {
      WidestOf(indicators)
    }
  }

  function WidestOf(inds: seq<Indicator>): (w: int)
    ensures w >= 1
    ensures forall i :: 0 <= i < |inds| ==> inds[i].Window() <= w
    ensures w == 1 || exists i :: 0 <= i < |inds| && inds[i].Window() == w
  {
    if inds == [] then 1 else
      var w := WidestOf(inds[..|inds| - 1]);
      if inds[|inds| - 1].Window() > w then inds[|inds| - 1].Window() else w
  }

  // ------------------------------------------------------------------ indicators

  /** Sums of the rises and of the falls between neighbours. */
  function GainSum(s: seq<real>): real {
    if |s| < 2 then 0.0 else
      var d := s[|s| - 1] - s[|s| - 2];
      GainSum(s[..|s| - 1]) + if d > 0.0 then d else 0.0
  }

  function LossSum(s: seq<real>): real {
    if |s| < 2 then 0.0 else
      var d := s[|s| - 1] - s[|s| - 2];
      LossSum(s[..|s| - 1]) + if d < 0.0 then -d else 0.0
  }

  /** The simple-average RSI of a window of `period + 1` closes. */
  function RsiOf(recent: seq<real>, period: int): real
    requires period > 0
  {
    var gains, losses := GainSum(recent) / period as real, LossSum(recent) / period as real;
    if losses == 0.0 then (if gains > 0.0 then 100.0 else 50.0)
    else
      RatioDefined(recent, period);
      100.0 - 100.0 / (1.0 + gains / losses)
  }

  lemma {:induction false} GainsAndLosses(s: seq<real>)
    ensures GainSum(s) >= 0.0 && LossSum(s) >= 0.0
    ensures s != [] ==> GainSum(s) - LossSum(s) == s[|s| - 1] - s[0]
  {
    if |s| >= 2 {
      GainsAndLosses(s[..|s| - 1]);
    }
  }

  lemma QuotientSign(a: real, b: real)
    requires b > 0.0
    ensures (a >= 0.0 <==> a / b >= 0.0) && (a > 0.0 <==> a / b > 0.0) && (a == 0.0 <==> a / b == 0.0)
  {
    assert a / b * b == a;
  }

  lemma {:induction false} RatioDefined(recent: seq<real>, period: int)
    requires period > 0 && LossSum(recent) / period as real != 0.0
    ensures 1.0 + (GainSum(recent) / period as real) / (LossSum(recent) / period as real) >= 1.0
  {
    GainsAndLosses(recent);
    QuotientSign(GainSum(recent), period as real);
    QuotientSign(LossSum(recent), period as real);
    QuotientSign(GainSum(recent) / period as real, LossSum(recent) / period as real);
  }

  /** The ratio form of the index is its share form: gains over gains plus losses. */
  lemma ShareForm(g: real, l: real)
    requires g >= 0.0 && l > 0.0
    ensures 1.0 + g / l > 0.0
    ensures 100.0 - 100.0 / (1.0 + g / l) == 100.0 * (g / (g + l))
  {
    var r := g / l;
    assert r * l == g;
    QuotientSign(g, l);
    var x, y := 100.0 / (1.0 + r), g / (g + l);
    assert x * (1.0 + r) == 100.0;
    assert y * (g + l) == g;
    assert (1.0 + r) * l == g + l;
    assert x * (g + l) == 100.0 * l by { assert x * ((1.0 + r) * l) == (x * (1.0 + r)) * l; }
    assert (100.0 - x) * (g + l) == 100.0 * g;
    assert (100.0 * y) * (g + l) == 100.0 * g;
    Cancel(100.0 - x, 100.0 * y, g + l);
  }

  lemma Cancel(a: real, b: real, k: real)
    requires k != 0.0 && a * k == b * k
    ensures a == b
  {
    assert (a - b) * k == 0.0;
  }

  lemma ShareBounds(g: real, l: real)
    requires g >= 0.0 && l > 0.0
    ensures 0.0 <= 100.0 * (g / (g + l)) < 100.0
    ensures 100.0 * (g / (g + l)) > 50.0 <==> g > l
    ensures 100.0 * (g / (g + l)) < 50.0 <==> g < l
  {
    var y := g / (g + l);
    assert y * (g + l) == g;
    QuotientSign(g, g + l);
    assert (y - 1.0) * (g + l) == -l;
    assert (2.0 * y - 1.0) * (g + l) == g - l;
    SameSign(2.0 * y - 1.0, g + l, g - l);
    SameSign(y - 1.0, g + l, -l);
  }

  lemma SameSign(a: real, k: real, c: real)
    requires k > 0.0 && a * k == c
    ensures (a > 0.0 <==> c > 0.0) && (a < 0.0 <==> c < 0.0)
  {}

  /** RSI is an index: within 0 and 100, above 50 exactly when the window ends higher than it
      began and below 50 exactly when it ends lower, across both zero-loss branches. */
  lemma RsiReadsTheWindow(recent: seq<real>, period: int)
    requires period > 0 && recent != []
    ensures var r := RsiOf(recent, period);
            && 0.0 <= r <= 100.0
            && (r > 50.0 <==> recent[|recent| - 1] > recent[0])
            && (r < 50.0 <==> recent[|recent| - 1] < recent[0])
  {
    GainsAndLosses(recent);
    var n := period as real;
    var g, l := GainSum(recent) / n, LossSum(recent) / n;
    QuotientSign(GainSum(recent), n);
    QuotientSign(LossSum(recent), n);
    QuotientSign(GainSum(recent) - LossSum(recent), n);
    assert (GainSum(recent) - LossSum(recent)) / n == g - l;
    if l != 0.0 {
      ShareForm(g, l);
      ShareBounds(g, l);
      QuotientSign(LossSum(recent) - GainSum(recent), n);
    }
  }

  /** An indicator's value on the trailing closes; none while there are too few. */
  function Compute(ind: Indicator, closes: seq<real>): Option<real>
    requires ind.Valid() && closes != []
  {
    match ind.fn
    case Value => Some(ind.value)
    case Price => Some(closes[|closes| - 1])
    case Sma =>
      if |closes| < ind.period then None
      else Some(Sum(closes[|closes| - ind.period..]) / ind.period as real)
    case Rsi =>
      if |closes| < ind.period + 1 then None
      else Some(RsiOf(closes[|closes| - (ind.period + 1)..], ind.period))
  }

  ghost predicate AllValid(inds: seq<Indicator>) {
    forall i :: 0 <= i < |inds| ==> inds[i].Valid()
  }

  /** The built-in price, then each indicator by name. */
  function Values(inds: seq<Indicator>, closes: seq<real>): Vals
    requires AllValid(inds) && closes != []
  {
    if inds == [] then map["price" := Some(closes[|closes| - 1])]
    else Values(inds[..|inds| - 1], closes)[inds[|inds| - 1].name := Compute(inds[|inds| - 1], closes)]
  }

  /** A moving average exists from `period` closes on. It is the average of the last of them: `period` times it is
      their sum, and it lies between the least and the greatest. */
  lemma SmaIsTheMean(ind: Indicator, closes: seq<real>)
    requires ind.Valid() && closes != [] && ind.fn.Sma?
    ensures Compute(ind, closes).Some? <==> |closes| >= ind.period
    ensures |closes| >= ind.period ==>
              var value, last := Compute(ind, closes).value, LastN(closes, ind.period);
              && value * ind.period as real == Sum(last)
              && (exists i :: 0 <= i < |last| && last[i] <= value) && (exists i :: 0 <= i < |last| && last[i] >= value)
  {
    if |closes| >= ind.period {
      var value, last := Compute(ind, closes).value, LastN(closes, ind.period);
      assert last == closes[|closes| - ind.period..];
      assert value * ind.period as real == Sum(last);
      if forall i :: 0 <= i < |last| ==> last[i] > value { SumAbove(last, value); }
      if forall i :: 0 <= i < |last| ==> last[i] < value { SumBelow(last, value); }
    }
  }

  lemma {:induction false} SumAbove(s: seq<real>, bound: real)
    requires forall i :: 0 <= i < |s| ==> s[i] > bound
    ensures Sum(s) >= bound * |s| as real && (s != [] ==> Sum(s) > bound * |s| as real)
  {
    if s != [] { SumAbove(s[..|s| - 1], bound); }
  }

  lemma {:induction false} SumBelow(s: seq<real>, bound: real)
    requires forall i :: 0 <= i < |s| ==> s[i] < bound
    ensures Sum(s) <= bound * |s| as real && (s != [] ==> Sum(s) < bound * |s| as real)
  {
    if s != [] { SumBelow(s[..|s| - 1], bound); }
  }

  /** The sum of the moves, either way. */
  function Moves(s: seq<real>): real {
    if |s| < 2 then 0.0 else
      var d := s[|s| - 1] - s[|s| - 2];
      Moves(s[..|s| - 1]) + if d < 0.0 then -d else d
  }

  lemma {:induction false} MovesAreGainsAndLosses(s: seq<real>)
    ensures Moves(s) == GainSum(s) + LossSum(s)
  {
    if |s| >= 2 {
      MovesAreGainsAndLosses(s[..|s| - 1]);
    }
  }

  /** RSI exists from `period + 1` closes on. It is 50, raised or lowered by the share that the net move over the last
      of them is of all their moves; and 50 where nothing moved. */
  lemma RsiIsTheNetMove(ind: Indicator, closes: seq<real>)
    requires ind.Valid() && closes != [] && ind.fn.Rsi?
    ensures Compute(ind, closes).Some? <==> |closes| >= ind.period + 1
    ensures |closes| >= ind.period + 1 ==>
              var value, last := Compute(ind, closes).value, LastN(closes, ind.period + 1);
              && |last| == ind.period + 1 && value * Moves(last) == 50.0 * (Moves(last) + last[ind.period] - last[0])
              && (Moves(last) == 0.0 ==> value == 50.0)
  {
    if |closes| >= ind.period + 1 {
      var last := LastN(closes, ind.period + 1);
      assert last == closes[|closes| - (ind.period + 1)..];
      GainsAndLosses(last);
      MovesAreGainsAndLosses(last);
      RsiShare(last, ind.period);
    }
  }

  lemma {:induction false} RsiShare(recent: seq<real>, period: int)
    requires period > 0
    ensures RsiOf(recent, period) * (GainSum(recent) + LossSum(recent)) == 100.0 * GainSum(recent)
    ensures GainSum(recent) + LossSum(recent) == 0.0 ==> RsiOf(recent, period) == 50.0
  {
    GainsAndLosses(recent);
    var g, l := GainSum(recent), LossSum(recent);
    QuotientSign(g, period as real);
    QuotientSign(l, period as real);
    if l != 0.0 {
      RatioOfMeans(g, l, period as real);
      ShareForm(g, l);
      Quotient(g, g + l);
    }
  }

  lemma Quotient(a: real, b: real)
    requires b != 0.0
    ensures 100.0 * (a / b) * b == 100.0 * a
  {
    assert a / b * b == a;
  }

  lemma RatioOfMeans(g: real, l: real, n: real)
    requires n > 0.0 && l != 0.0
    ensures l / n != 0.0 && (g / n) / (l / n) == g / l
  {
    var x, y := g / n, l / n;
    assert x * n == g && y * n == l;
    var q := x / y;
    assert q * y == x;
    assert q * l == q * y * n;
    Cancel(q, g / l, l);
  }

  /** The bounded window is enough: an indicator has the same value on the last closes the engine keeps as on the whole
      history, or none on either. */
  lemma WindowSuffices(ind: Indicator, all: seq<real>, w: nat)
    requires ind.Valid() && all != [] && ind.Window() <= w
    ensures LastN(all, w) != [] && Compute(ind, LastN(all, w)) == Compute(ind, all)
  {
    var kept := LastN(all, w);
    var n := ind.Window();
    assert |kept| >= n ==> kept[|kept| - n..] == all[|all| - n..];
  }

  predicate NamesUnique(inds: seq<Indicator>) {
    && (forall i :: 0 <= i < |inds| ==> inds[i].name != "price")
    && (forall i, j :: 0 <= i < j < |inds| ==> inds[i].name != inds[j].name)
  }

  /** Each indicator is found under its name, and the last close under "price". */
  lemma {:induction false} ValuesByName(inds: seq<Indicator>, closes: seq<real>)
    requires AllValid(inds) && closes != [] && NamesUnique(inds)
    ensures var v := Values(inds, closes);
            && "price" in v && v["price"] == Some(closes[|closes| - 1])
            && (forall i :: 0 <= i < |inds| ==> inds[i].name in v && v[inds[i].name] == Compute(inds[i], closes))
  {
    if inds != [] { ValuesByName(inds[..|inds| - 1], closes); }
  }

  lemma {:induction false} NothingElseHasAValue(inds: seq<Indicator>, closes: seq<real>, name: string)
    requires AllValid(inds) && closes != [] && name != "price"
    requires forall i :: 0 <= i < |inds| ==> inds[i].name != name
    ensures name !in Values(inds, closes)
  {
    if inds != [] { NothingElseHasAValue(inds[..|inds| - 1], closes, name); }
  }

  // ------------------------------------------------------------------ conditions

  function Operand(lit: Reader, token: string, vals: Vals): Option<real> {
    if lit(token).Some? then lit(token)
    else if token in vals then vals[token] else None
  }

  /** What a token of a condition stands for: a literal for itself, even were an indicator so named; "price" for the
      last close; an indicator's name for its value, a constant's being the constant; any other for nothing. */
  lemma {:induction false} TokensMean(lit: Reader, inds: seq<Indicator>, closes: seq<real>, token: string)
    requires AllValid(inds) && closes != [] && NamesUnique(inds)
    ensures var meaning := Operand(lit, token, Values(inds, closes));
            && (lit(token).Some? ==> meaning == lit(token))
            && (lit(token).None? && token == "price" ==> meaning == Some(closes[|closes| - 1]))
            && (forall i :: 0 <= i < |inds| && lit(token).None? && inds[i].name == token ==>
                  && meaning == Compute(inds[i], closes)
                  && (inds[i].fn.Value? ==> meaning == Some(inds[i].value))
                  && (inds[i].fn.Price? ==> meaning == Some(closes[|closes| - 1])))
            && (lit(token).None? && token != "price" && (forall i :: 0 <= i < |inds| ==> inds[i].name != token) ==>
                  meaning == None)
  {
    ValuesByName(inds, closes);
    if token != "price" && forall i :: 0 <= i < |inds| ==> inds[i].name != token {
      NothingElseHasAValue(inds, closes, token);
    }
  }

  predicate Compares(op: CmpOp, lc: Option<real>, rc: Option<real>, lp: Option<real>, rp: Option<real>) {
    if op.CrossOver? || op.CrossUnder? then
      lc.Some? && rc.Some? && lp.Some? && rp.Some?
      && if op.CrossOver? then lp.value <= rp.value && lc.value > rc.value
                          else lp.value >= rp.value && lc.value < rc.value
    else
      lc.Some? && rc.Some?
      && match op
         case Less => lc.value < rc.value
         case AtMost => lc.value <= rc.value
         case More => lc.value > rc.value
         case AtLeast => lc.value >= rc.value
         case _ => lc.value == rc.value
  }

  /** What the comparisons say of two values, now and before: exactly one of less, equal and more, the others by
      negation, a crossing exactly when the side was reached since; and nothing is said of a missing value. */
  lemma ComparisonsAgree(lc: Option<real>, rc: Option<real>, lp: Option<real>, rp: Option<real>)
    ensures var now := (op: CmpOp) => Compares(op, lc, rc, lp, rp);
            var before := (op: CmpOp) => Compares(op, lp, rp, None, None);
            && (lc.None? || rc.None? ==> forall op :: !now(op))
            && (lp.None? || rp.None? ==> !now(CrossOver) && !now(CrossUnder))
            && (lc.Some? && rc.Some? ==>
                  && (now(Less) <==> rc.value - lc.value > 0.0) && (now(More) <==> lc.value - rc.value > 0.0)
                  && (now(Equal) <==> !now(Less) && !now(More))
                  && (now(AtLeast) <==> !now(Less)) && (now(AtMost) <==> !now(More)))
            && (now(CrossOver) <==> before(AtMost) && now(More))
            && (now(CrossUnder) <==> before(AtLeast) && now(Less))
  {}

  predicate Eval(lit: Reader, c: Cond, cur: Vals, prev: Vals) {
    match c
    case Not(t) => !Eval(lit, t, cur, prev)
    case And(ts) => forall i :: 0 <= i < |ts| ==> Eval(lit, ts[i], cur, prev)
    case Or(ts) => exists i :: 0 <= i < |ts| && Eval(lit, ts[i], cur, prev)
    case Compare(op, l, r) =>
      Compares(op, Operand(lit, l, cur), Operand(lit, r, cur), Operand(lit, l, prev), Operand(lit, r, prev))
  }

  // ------------------------------------------------------------------ the engine

  /** The order a rule's action makes of a bar; none when its limit price is not positive. */
  function OrderOf(symbol: string, a: Action, bar: Bar): Option<Intent>
    requires bar.close > 0.0 && a.Valid()
  {
    if a.kind.Limit? then
      var price := bar.close * (1.0 + a.limitOffsetPct.value / 100.0);
      if price <= 0.0 then None
      else Some(Intent(symbol, a.side, Limit, a.quote / price, Some(price), RuleLimit(bar.tsMs)))
    else Some(Intent(symbol, a.side, Market, a.quote / bar.close, None, RuleMarket(bar.tsMs)))
  }

  function SpecOf(p: Params, r: Rule): RuleSpec
    requires r.do.Valid()
  {
    RuleSpec((cur, prev) => Eval(p.lit, r.when, cur, prev), r.cooldownMinutes,
             (bar: Bar) => if bar.close > 0.0 then OrderOf(p.symbol, r.do, bar) else None)
  }

  /** The parameters as an engine: what the interpreter makes of them. */
  function EngineOf(p: Params): (e: Engine)
    requires p.Valid()
    ensures e.window >= 1 && |e.rules| == |p.rules|
  {
    Engine(p.symbol, p.MaxWindow(),
           closes => if closes == [] then map[] else Values(p.indicators, closes),
           seq(|p.rules|, i requires 0 <= i < |p.rules| => SpecOf(p, p.rules[i])))
  }

  class RuleState {
    var closes: seq<real>
    var prevInd: Vals
    var ruleTruth: map<nat, bool>
    var ruleFireTs: map<nat, int>

    constructor ()
      ensures Value() == INITIAL
    {
      closes, prevInd, ruleTruth, ruleFireTs := [], map[], map[], map[];
    }

    function Value(): State
      reads this
    {
      State(closes, prevInd, ruleTruth, ruleFireTs)
    }
  }

  method OnBar(p: Params, bar: Bar, state: RuleState) returns (intents: seq<Intent>)
    requires p.Valid()
    modifies state
    ensures (state.Value(), intents) == Step(EngineOf(p), old(state.Value()), bar)
  {
    if bar.symbol != p.symbol || bar.close <= 0.0 {
      return [];
    }
    state.closes := state.closes + [bar.close];
    if |state.closes| > p.MaxWindow() {
      state.closes := state.closes[1..];
    }
    var cur := Values(p.indicators, state.closes);
    intents := JudgeRules(p, bar, cur, state);
    state.prevInd := cur;
  }

  /** Rule `idx` fires on a view: its condition has just risen, it has cooled, and it has an order to make. */
  predicate FiresNow(p: Params, v: View, idx: nat)
    requires p.Valid() && idx < |p.rules| && v.bar.close > 0.0
  {
    var r := p.rules[idx];
    && Eval(p.lit, r.when, v.cur, v.prev) && !WasTrue(v.truth, idx)
    && (r.cooldownMinutes <= 0 || idx !in v.fire || v.bar.tsMs - v.fire[idx] >= r.cooldownMinutes * 60000)
    && OrderOf(p.symbol, r.do, v.bar).Some?
  }

  lemma {:induction false} JudgedRule(p: Params, v: View, idx: nat)
    requires p.Valid() && idx < |p.rules| && v.bar.close > 0.0
    ensures var rs, r := EngineOf(p).rules, p.rules[idx];
            && Truths(rs, v, idx + 1) == Truths(rs, v, idx)[idx := Eval(p.lit, r.when, v.cur, v.prev)]
            && Fired(rs, v, idx + 1)
               == (if FiresNow(p, v, idx) then Fired(rs, v, idx)[idx := v.bar.tsMs] else Fired(rs, v, idx))
            && Orders(rs, v, idx + 1)
               == Orders(rs, v, idx) + (if FiresNow(p, v, idx) then [OrderOf(p.symbol, r.do, v.bar).value] else [])
    ensures var rs := EngineOf(p).rules;
            FiresNow(p, v.(truth := Truths(rs, v, idx), fire := Fired(rs, v, idx)), idx) == FiresNow(p, v, idx)
  {
    Judged(EngineOf(p).rules, v, idx, idx);
  }

  /** One turn of the engine's loop. */
  method JudgeRule(p: Params, idx: nat, bar: Bar, cur: Vals, state: RuleState) returns (intents: seq<Intent>)
    requires p.Valid() && idx < |p.rules| && bar.close > 0.0
    modifies state`ruleTruth, state`ruleFireTs
    ensures var v, r := View(cur, state.prevInd, old(state.ruleTruth), old(state.ruleFireTs), bar), p.rules[idx];
            && state.ruleTruth == old(state.ruleTruth)[idx := Eval(p.lit, r.when, cur, state.prevInd)]
            && state.ruleFireTs
               == (if FiresNow(p, v, idx) then old(state.ruleFireTs)[idx := bar.tsMs] else old(state.ruleFireTs))
            && intents == if FiresNow(p, v, idx) then [OrderOf(p.symbol, r.do, bar).value] else []
  {
    var rule := p.rules[idx];
    var truth := Eval(p.lit, rule.when, cur, state.prevInd);
    var rose := truth && !WasTrue(state.ruleTruth, idx);
    state.ruleTruth := state.ruleTruth[idx := truth];
    if !rose {
      return [];
    }
    if rule.cooldownMinutes > 0 && idx in state.ruleFireTs {
      if bar.tsMs - state.ruleFireTs[idx] < rule.cooldownMinutes * 60000 {
        return [];
      }
    }
    var intent := OrderOf(p.symbol, rule.do, bar);
    if intent.None? {
      return [];
    }
    state.ruleFireTs := state.ruleFireTs[idx := bar.tsMs];
    intents := [intent.value];
  }

  /** The engine's loop over the rules, updating truths and fire times as it goes. */
  method JudgeRules(p: Params, bar: Bar, cur: Vals, state: RuleState) returns (intents: seq<Intent>)
    requires p.Valid() && bar.close > 0.0
    modifies state`ruleTruth, state`ruleFireTs
    ensures var v, rs := View(cur, state.prevInd, old(state.ruleTruth), old(state.ruleFireTs), bar), EngineOf(p).rules;
            && state.ruleTruth == Truths(rs, v, |rs|)
            && state.ruleFireTs == Fired(rs, v, |rs|)
            && intents == Orders(rs, v, |rs|)
  {
    ghost var v := View(cur, state.prevInd, state.ruleTruth, state.ruleFireTs, bar);
    ghost var rs := EngineOf(p).rules;
    intents := [];
    for idx := 0 to |p.rules|
      invariant state.ruleTruth == Truths(rs, v, idx)
      invariant state.ruleFireTs == Fired(rs, v, idx)
      invariant intents == Orders(rs, v, idx)
    {
      JudgedRule(p, v, idx);
      var more := JudgeRule(p, idx, bar, cur, state);
      intents := intents + more;
    }
  }

  /** The documented promise, for every parameter set whose rules have no cooldown, with conditions
      nested however deep: a bot started mid-stream emits, from its (W+2)-th accepted bar on,
      exactly the intents a full-history run emits. */
  lemma MidStreamParity(p: Params, pre: seq<Bar>, suf: seq<Bar>, i: nat)
    requires p.Valid() && i < |suf|
    requires forall k :: 0 <= k < |p.rules| ==> p.rules[k].cooldownMinutes <= 0
    requires |Closes(EngineOf(p), suf[..i])| >= p.MaxWindow() + 1
    ensures Out(EngineOf(p), pre + suf, |pre| + i) == Out(EngineOf(p), suf, i)
  {
    MidStreamConvergence(EngineOf(p), pre, suf, i);
  }

  /** With cooldowns it holds from any warmed-up bar, on a forward clock, where for every rule the two runs remember
      the same last fire or have both cooled. */
  lemma {:induction false} MidStreamParityWithCooldowns(p: Params, pre: seq<Bar>, suf: seq<Bar>, i: nat, j: nat)
    requires p.Valid() && i <= j < |suf| && ForwardFrom(suf, i)
    requires |Closes(EngineOf(p), suf[..i])| >= p.MaxWindow() + 1
    requires var e := EngineOf(p);
             var x, y := Run(e, pre + suf[..i]), Run(e, suf[..i]);
             forall k: nat :: k < |p.rules| ==>
               SameMemory(e, x, y, k) || (CooledIn(e, x, suf[i].tsMs, k) && CooledIn(e, y, suf[i].tsMs, k))
    ensures Out(EngineOf(p), pre + suf, |pre| + j) == Out(EngineOf(p), suf, j)
  {
    CooledRunsEmitAlike(EngineOf(p), pre, suf, i, j);
  }

  // ------------------------------------------------- the two bounds are exact

  const NUMERAL: Reader := token => if token == "5" then Some(5.0) else None

  function OneRule(when: Cond, cooldownMinutes: int): (p: Params)
    ensures p.Valid() && p.MaxWindow() == 1
  {
    Params("X", [], [Rule(when, Action(Buy, Market, 1.0, None), cooldownMinutes)], NUMERAL)
  }

  /** One bar of a one-rule, price-only engine: the state after it, and whether the rule fired. */
  function ExampleNext(when: Cond, cooldownMinutes: int, st: State, bar: Bar): (State, bool) {
    var cur := map["price" := Some(bar.close)];
    var now := Eval(NUMERAL, when, cur, st.prevInd);
    var fires := now && !WasTrue(st.truth, 0)
                 && (cooldownMinutes <= 0 || 0 !in st.fire || bar.tsMs - st.fire[0] >= cooldownMinutes * 60000);
    (State([bar.close], cur, st.truth[0 := now], if fires then st.fire[0 := bar.tsMs] else st.fire), fires)
  }

  lemma {:induction false} ExampleView(when: Cond, cooldownMinutes: int, st: State, bar: Bar)
    requires bar.symbol == "X" && bar.close > 0.0 && |st.closes| <= 1
    ensures var e := EngineOf(OneRule(when, cooldownMinutes));
            var v := ViewOf(e, st, bar);
            && v == View(map["price" := Some(bar.close)], st.prevInd, st.truth, st.fire, bar)
            && Slide(st.closes, bar.close, e.window) == [bar.close]
            && Holds(e.rules[0], v) == Eval(NUMERAL, when, v.cur, v.prev)
            && Fires(e.rules[0], v, 0) == ExampleNext(when, cooldownMinutes, st, bar).1
  {
    assert Slide(st.closes, bar.close, 1) == [bar.close];
    assert [bar.close][|[bar.close]| - 1] == bar.close;
  }

  lemma {:induction false} ExampleBar(when: Cond, cooldownMinutes: int, bars: seq<Bar>, bar: Bar)
    requires bar.symbol == "X" && bar.close > 0.0
    requires |Run(EngineOf(OneRule(when, cooldownMinutes)), bars).closes| <= 1
    ensures var e := EngineOf(OneRule(when, cooldownMinutes));
            var next := ExampleNext(when, cooldownMinutes, Run(e, bars), bar);
            && Run(e, bars + [bar]) == next.0
            && (Out(e, bars + [bar], |bars|) == [] <==> !next.1)
  {
    var e := EngineOf(OneRule(when, cooldownMinutes));
    assert (bars + [bar])[..|bars|] == bars;
    OneRuleStep(e, Run(e, bars), bar);
    ExampleView(when, cooldownMinutes, Run(e, bars), bar);
  }

  const NOT_CROSSING := Not(Compare(CrossOver, "price", "5"))
  const ABOVE_FIVE := Compare(More, "price", "5")

  function At(minute: int, close: real): Bar {
    Bar(minute * 60000, "X", close)
  }

  lemma NotCrossingMeans(x: real, y: real)
    ensures Eval(NUMERAL, NOT_CROSSING, map["price" := Some(x)], map["price" := Some(y)]) == !(y <= 5.0 && x > 5.0)
    ensures Eval(NUMERAL, NOT_CROSSING, map["price" := Some(x)], map[])
  {
    assert NUMERAL("5") == Some(5.0) && NUMERAL("price") == None;
  }

  lemma {:induction false} FullRunFiresAtLast()
    ensures Out(EngineOf(OneRule(NOT_CROSSING, 0)), [At(0, 1.0), At(1, 10.0), At(2, 10.0)], 2) != []
  {
    var e, a, b, c := EngineOf(OneRule(NOT_CROSSING, 0)), At(0, 1.0), At(1, 10.0), At(2, 10.0);
    NotCrossingMeans(1.0, 0.0);
    NotCrossingMeans(10.0, 1.0);
    NotCrossingMeans(10.0, 10.0);
    ExampleBar(NOT_CROSSING, 0, [], a);
    assert Run(e, [] + [a]).prevInd == map["price" := Some(1.0)];
    ExampleBar(NOT_CROSSING, 0, [] + [a], b);
    assert Run(e, [] + [a] + [b]).prevInd == map["price" := Some(10.0)] && !WasTrue(Run(e, [] + [a] + [b]).truth, 0);
    ExampleBar(NOT_CROSSING, 0, [] + [a] + [b], c);
    assert [a, b, c] == [] + [a] + [b] + [c];
  }

  lemma {:induction false} FreshRunDoesNot()
    ensures Out(EngineOf(OneRule(NOT_CROSSING, 0)), [At(1, 10.0), At(2, 10.0)], 1) == []
  {
    var b, c := At(1, 10.0), At(2, 10.0);
    NotCrossingMeans(10.0, 10.0);
    ExampleBar(NOT_CROSSING, 0, [], b);
    ExampleBar(NOT_CROSSING, 0, [] + [b], c);
    assert [b, c] == [] + [b] + [c];
  }

  /** The bound W+2 is tight. With W = 1 and the rule "price does not cross over 5", on closes 1, 10, 10
      the full-history run fires at the last bar and the run started at the second bar does not,
      although that bar is its (W+1)-th. */
  lemma {:induction false} OneBarEarlierTheyDiffer()
    ensures var e := EngineOf(OneRule(NOT_CROSSING, 0));
            var pre, suf := [At(0, 1.0)], [At(1, 10.0), At(2, 10.0)];
            && |Closes(e, suf[..1])| == e.window
            && Out(e, pre + suf, 2) != [] && Out(e, suf, 1) == []
  {
    var e := EngineOf(OneRule(NOT_CROSSING, 0));
    var a, b, c := At(0, 1.0), At(1, 10.0), At(2, 10.0);
    FullRunFiresAtLast();
    FreshRunDoesNot();
    assert [a] + [b, c] == [a, b, c] && [b, c][..1] == [b];
    assert [b][..0] == [] && Closes(e, [b]) == Closes(e, []) + [10.0];
  }

  lemma {:induction false} AboveFiveMeans(x: real, prev: Vals)
    ensures Eval(NUMERAL, ABOVE_FIVE, map["price" := Some(x)], prev) <==> x > 5.0
  {
    assert NUMERAL("5") == Some(5.0) && NUMERAL("price") == None;
  }

  lemma {:induction false} LowBar(bars: seq<Bar>, minute: int)
    requires |Run(EngineOf(OneRule(ABOVE_FIVE, 10)), bars).closes| <= 1
    ensures var e := EngineOf(OneRule(ABOVE_FIVE, 10));
            var st, next := Run(e, bars), Run(e, bars + [At(minute, 1.0)]);
            |next.closes| <= 1 && !WasTrue(next.truth, 0) && next.fire == st.fire
  {
    AboveFiveMeans(1.0, Run(EngineOf(OneRule(ABOVE_FIVE, 10)), bars).prevInd);
    ExampleBar(ABOVE_FIVE, 10, bars, At(minute, 1.0));
  }

  lemma {:induction false} HighBar(bars: seq<Bar>, minute: int)
    requires var st := Run(EngineOf(OneRule(ABOVE_FIVE, 10)), bars); |st.closes| <= 1 && !WasTrue(st.truth, 0)
    ensures var e := EngineOf(OneRule(ABOVE_FIVE, 10));
            var st, next := Run(e, bars), Run(e, bars + [At(minute, 10.0)]);
            var fires := 0 !in st.fire || minute * 60000 - st.fire[0] >= 600000;
            && (Out(e, bars + [At(minute, 10.0)], |bars|) != [] <==> fires)
            && |next.closes| <= 1
            && next.fire == if fires then st.fire[0 := minute * 60000] else st.fire
  {
    AboveFiveMeans(10.0, Run(EngineOf(OneRule(ABOVE_FIVE, 10)), bars).prevInd);
    ExampleBar(ABOVE_FIVE, 10, bars, At(minute, 10.0));
  }

  lemma {:induction false} FullRunStillCooling()
    ensures var e := EngineOf(OneRule(ABOVE_FIVE, 10));
            Out(e, [At(0, 10.0), At(1, 1.0), At(2, 1.0), At(3, 10.0)], 3) == []
  {
    var a, b, c, d := At(0, 10.0), At(1, 1.0), At(2, 1.0), At(3, 10.0);
    HighBar([], 0);
    LowBar([] + [a], 1);
    LowBar([] + [a] + [b], 2);
    HighBar([] + [a] + [b] + [c], 3);
    assert [a, b, c, d] == [] + [a] + [b] + [c] + [d];
  }

  lemma {:induction false} FreshRunFires()
    ensures var e := EngineOf(OneRule(ABOVE_FIVE, 10));
            Out(e, [At(1, 1.0), At(2, 1.0), At(3, 10.0)], 2) != []
  {
    var b, c, d := At(1, 1.0), At(2, 1.0), At(3, 10.0);
    LowBar([], 1);
    LowBar([] + [b], 2);
    HighBar([] + [b] + [c], 3);
    assert [b, c, d] == [] + [b] + [c] + [d];
  }

  /** Cooldowns break convergence: a full-history run that fired before the suffix began can still be
      cooling while the fresh run, warmed up, fires. */
  lemma {:induction false} CooldownsBreakConvergence()
    ensures var e := EngineOf(OneRule(ABOVE_FIVE, 10));
            var pre, suf := [At(0, 10.0)], [At(1, 1.0), At(2, 1.0), At(3, 10.0)];
            && |Closes(e, suf[..2])| >= e.window + 1
            && Out(e, pre + suf, 3) == [] && Out(e, suf, 2) != []
  {
    var e := EngineOf(OneRule(ABOVE_FIVE, 10));
    var a, b, c, d := At(0, 10.0), At(1, 1.0), At(2, 1.0), At(3, 10.0);
    FullRunStillCooling();
    FreshRunFires();
    assert [a] + [b, c, d] == [a, b, c, d] && [b, c, d][..2] == [b, c] && [b, c][..1] == [b] && [b][..0] == [];
    assert Closes(e, [b]) == Closes(e, []) + [1.0] && Closes(e, [b, c]) == Closes(e, [b]) + [1.0];
  }

  // ------------------------------------------------- leapfrogging cooldowns

  /** Two low bars, then a high one on the minute 6k. */
  function Hop(k: nat): seq<Bar> {
    [At(6 * k - 2, 1.0), At(6 * k - 1, 1.0), At(6 * k, 10.0)]
  }

  /** The first `n` hops. */
  function Hops(n: nat): (bars: seq<Bar>)
    ensures |bars| == 3 * n
  {
    if n == 0 then [] else Hops(n - 1) + Hop(n)
  }

  /** Over a hop the rule rises once, at the end: it fires there when ten minutes have passed since its last fire. */
  lemma {:induction false} HopRun(bars: seq<Bar>, k: nat)
    requires |Run(EngineOf(OneRule(ABOVE_FIVE, 10)), bars).closes| <= 1
    ensures var e := EngineOf(OneRule(ABOVE_FIVE, 10));
            var st, next := Run(e, bars), Run(e, bars + Hop(k));
            var fires := 0 !in st.fire || 6 * k * 60000 - st.fire[0] >= 600000;
            && (Out(e, bars + Hop(k), |bars| + 2) != [] <==> fires)
            && |next.closes| <= 1
            && next.fire == if fires then st.fire[0 := 6 * k * 60000] else st.fire
  {
    var one := bars + [At(6 * k - 2, 1.0)];
    var two := one + [At(6 * k - 1, 1.0)];
    LowBar(bars, 6 * k - 2);
    LowBar(one, 6 * k - 1);
    HighBar(two, 6 * k);
    assert bars + Hop(k) == two + [At(6 * k, 10.0)] && |two| == |bars| + 2;
  }

  /** After these bars the rule last fired at this minute, if it ever did. */
  ghost predicate LastFired(e: Engine, bars: seq<Bar>, minute: Option<int>)
    requires e.window >= 1
  {
    var st := Run(e, bars);
    |st.closes| <= 1 && if minute.None? then 0 !in st.fire else 0 in st.fire && st.fire[0] == minute.value * 60000
  }

  /** The rule fires at the last of these bars. */
  predicate FiresLast(e: Engine, bars: seq<Bar>)
    requires e.window >= 1 && bars != []
  {
    Out(e, bars, |bars| - 1) != []
  }

  /** What a hop does to such an engine: it fires when ten minutes have passed since the last fire. */
  ghost predicate Hops10(e: Engine, bars: seq<Bar>, k: nat, last: Option<int>)
    requires e.window >= 1
  {
    LastFired(e, bars, last) ==>
      var fires := last.None? || 6 * k - last.value >= 10;
      && LastFired(e, bars + Hop(k), if fires then Some(6 * k) else last)
      && (FiresLast(e, bars + Hop(k)) <==> fires)
  }

  const HOP_START := [At(0, 10.0)]

  ghost predicate Hopper(e: Engine) {
    && e.window == 1 && e.symbol == "X"
    && LastFired(e, [], None) && LastFired(e, HOP_START, Some(0))
    && forall bars: seq<Bar>, k: nat, last: Option<int> :: Hops10(e, bars, k, last)
  }

  lemma {:induction false} AboveFiveHops()
    ensures Hopper(EngineOf(OneRule(ABOVE_FIVE, 10)))
  {
    var e := EngineOf(OneRule(ABOVE_FIVE, 10));
    AboveFiveMeans(10.0, Run(e, []).prevInd);
    ExampleBar(ABOVE_FIVE, 10, [], At(0, 10.0));
    assert [] + [At(0, 10.0)] == HOP_START;
    forall bars: seq<Bar>, k: nat, last: Option<int> ensures Hops10(e, bars, k, last) {
      if LastFired(e, bars, last) { HopRun(bars, k); }
    }
  }

  lemma {:induction false} HopOn(e: Engine, bars: seq<Bar>, k: nat, last: Option<int>, fires: bool)
    requires Hopper(e) && LastFired(e, bars, last)
    requires fires == (last.None? || 6 * k - last.value >= 10)
    ensures LastFired(e, bars + Hop(k), if fires then Some(6 * k) else last)
    ensures FiresLast(e, bars + Hop(k)) <==> fires
  {
    assert Hops10(e, bars, k, last);
  }

  /** From one hop to the next, for a run whose last fire was one or two hops ago. */
  lemma {:induction false} HopsOn(e: Engine, bars: seq<Bar>, n: nat, ago: nat)
    requires Hopper(e) && 1 <= ago <= 2 && LastFired(e, bars, Some(6 * (n - ago)))
    ensures LastFired(e, bars + Hop(n), Some(if ago == 2 then 6 * n else 6 * (n - 1)))
    ensures FiresLast(e, bars + Hop(n)) <==> ago == 2
  {
    HopOn(e, bars, n, Some(6 * (n - ago)), ago == 2);
  }

  /** The start, then the first `n` hops. */
  function FullHops(n: nat): (bars: seq<Bar>)
    ensures |bars| == 3 * n + 1
  {
    if n == 0 then HOP_START else FullHops(n - 1) + Hop(n)
  }

  lemma {:induction false} FullHopsAre(n: nat)
    ensures FullHops(n) == HOP_START + Hops(n)
  {
    if n > 0 {
      FullHopsAre(n - 1);
      assert HOP_START + Hops(n) == (HOP_START + Hops(n - 1)) + Hop(n);
    }
  }

  predicate Even(n: nat) {
    n == 0 || !Even(n - 1)
  }

  lemma {:induction false} EvenIsEven(n: nat)
    ensures Even(n) <==> n % 2 == 0
  {
    if n > 0 { EvenIsEven(n - 1); }
  }

  lemma {:induction false} FullRunHops(e: Engine, n: nat)
    requires Hopper(e)
    ensures LastFired(e, FullHops(n), Some(if Even(n) then 6 * n else 6 * (n - 1)))
    ensures n > 0 ==> (FiresLast(e, FullHops(n)) <==> Even(n))
  {
    if n > 0 {
      FullRunHops(e, n - 1);
      HopsOn(e, FullHops(n - 1), n, if Even(n) then 2 else 1);
    }
  }

  lemma {:induction false} FreshRunHops(e: Engine, n: nat)
    requires Hopper(e) && n > 0
    ensures LastFired(e, Hops(n), Some(if Even(n) then 6 * (n - 1) else 6 * n))
    ensures FiresLast(e, Hops(n)) <==> !Even(n)
  {
    if n == 1 {
      HopOn(e, [], 1, None, true);
      assert Hops(1) == [] + Hop(1) by { assert Hops(0) == []; }
    } else {
      FreshRunHops(e, n - 1);
      HopsOn(e, Hops(n - 1), n, if Even(n) then 1 else 2);
    }
  }

  lemma {:induction false} HopsPrefix(n: nat, k: nat)
    requires k <= n
    ensures Hops(n)[..3 * k] == Hops(k)
    decreases n
  {
    if k < n {
      HopsPrefix(n - 1, k);
      assert Hops(n)[..3 * k] == Hops(n - 1)[..3 * k];
    }
  }

  lemma {:induction false} FullHopsPrefix(n: nat, k: nat)
    requires k <= n
    ensures FullHops(k) <= HOP_START + Hops(n)
  {
    HopsPrefix(n, k);
    FullHopsAre(k);
    assert (HOP_START + Hops(n))[..1 + 3 * k] == HOP_START + Hops(n)[..3 * k];
  }

  lemma {:induction false} FiresLastInside(e: Engine, bars: seq<Bar>, first: seq<Bar>)
    requires e.window >= 1 && first != [] && first <= bars
    ensures Out(e, bars, |first| - 1) != [] <==> FiresLast(e, first)
  {
    assert bars[..|first| - 1] == first[..|first| - 1];
  }

  lemma {:induction false} WarmAfterTwo(e: Engine, n: nat)
    requires n > 0 && e.symbol == "X"
    ensures |Closes(e, Hops(n)[..2])| == 2
  {
    var a, b := At(4, 1.0), At(5, 1.0);
    HopsPrefix(n, 1);
    assert Hops(0) + Hop(1) == Hop(1) && Hops(n)[..2] == Hops(n)[..3][..2] == [a, b];
    assert [a, b][..1] == [a] && [a][..0] == [];
    assert Closes(e, [a]) == Closes(e, []) + [1.0] && Closes(e, [a, b]) == Closes(e, [a]) + [1.0];
  }

  /** The full run fires at the even hops and the fresh run at the odd ones. */
  ghost predicate Leapfrogs(e: Engine, suf: seq<Bar>, k: nat)
    requires e.window >= 1 && 0 < 3 * k <= |suf|
  {
    && (Out(e, HOP_START + suf, 3 * k) != [] <==> k % 2 == 0)
    && (Out(e, suf, 3 * k - 1) != [] <==> k % 2 == 1)
  }

  lemma {:induction false} FullRunLeaps(e: Engine, n: nat, k: nat)
    requires Hopper(e) && 0 < k <= n
    ensures Out(e, HOP_START + Hops(n), 3 * k) != [] <==> k % 2 == 0
  {
    FullHopsPrefix(n, k);
    FiresLastInside(e, HOP_START + Hops(n), FullHops(k));
    FullRunHops(e, k);
    EvenIsEven(k);
  }

  lemma {:induction false} FreshRunLeaps(e: Engine, n: nat, k: nat)
    requires Hopper(e) && 0 < k <= n
    ensures Out(e, Hops(n), 3 * k - 1) != [] <==> k % 2 == 1
  {
    HopsPrefix(n, k);
    FiresLastInside(e, Hops(n), Hops(k));
    FreshRunHops(e, k);
    EvenIsEven(k);
  }

  /** Two warmed-up runs of a rule with a cooldown can go on disagreeing without bound, on streams of every length:
      at each of its hops one of them fires and the other does not. */
  lemma {:induction false} CooldownsCanLeapfrog(n: nat)
    requires n > 0
    ensures var e, suf := EngineOf(OneRule(ABOVE_FIVE, 10)), Hops(n);
            |Closes(e, suf[..2])| == e.window + 1 && forall k: nat :: 0 < k <= n ==> Leapfrogs(e, suf, k)
  {
    AboveFiveHops();
    WarmAfterTwo(EngineOf(OneRule(ABOVE_FIVE, 10)), n);
    forall k: nat | 0 < k <= n ensures Leapfrogs(EngineOf(OneRule(ABOVE_FIVE, 10)), Hops(n), k) {
      FullRunLeaps(EngineOf(OneRule(ABOVE_FIVE, 10)), n, k);
      FreshRunLeaps(EngineOf(OneRule(ABOVE_FIVE, 10)), n, k);
    }
  }

  // ------------------------------------------------------ as a strategy to backtest

  function AsStrategy(p: Params): Strategy<State>
    requires p.Valid()
  {
    (bar: Bar, st: State) => (Step(EngineOf(p), st, bar).1, Step(EngineOf(p), st, bar).0)
  }

  lemma OrderIsValid(symbol: string, a: Action, bar: Bar)
    requires bar.close > 0.0 && a.Valid() && OrderOf(symbol, a, bar).Some?
    ensures var i := OrderOf(symbol, a, bar).value; i.Valid() && i.symbol == symbol && i.quantity > 0.0
  {
    if a.kind.Limit? {
      QuotientSign(a.quote, bar.close * (1.0 + a.limitOffsetPct.value / 100.0));
    } else {
      QuotientSign(a.quote, bar.close);
    }
  }

  /** The order does what the action says: its side, its type, its notional at the price it asks for, and for a limit
      order a price off the close by the given percentage. */
  predicate CarriesOut(symbol: string, a: Action, bar: Bar, i: Intent) {
    && i.symbol == symbol && i.side == a.side && i.kind == a.kind
    && (i.kind.Market? ==> i.limitPrice.None? && i.quantity * bar.close == a.quote && i.tag == RuleMarket(bar.tsMs))
    && (i.kind.Limit? ==>
          && i.limitPrice.Some? && a.limitOffsetPct.Some? && i.tag == RuleLimit(bar.tsMs)
          && i.quantity * i.limitPrice.value == a.quote
          && (i.limitPrice.value - bar.close) * 100.0 == bar.close * a.limitOffsetPct.value)
  }

  /** Every action is carried out; only a limit order a hundred percent or more below the close comes to nothing. */
  lemma OrderCarriesOutTheAction(symbol: string, a: Action, bar: Bar)
    requires bar.close > 0.0 && a.Valid()
    ensures OrderOf(symbol, a, bar).None? <==> a.kind.Limit? && a.limitOffsetPct.value <= -100.0
    ensures OrderOf(symbol, a, bar).Some? ==> CarriesOut(symbol, a, bar, OrderOf(symbol, a, bar).value)
  {
    if a.kind.Limit? {
      var factor := 1.0 + a.limitOffsetPct.value / 100.0;
      assert bar.close * factor > 0.0 <==> factor > 0.0;
    }
  }

  /** The rules that fire on a bar, in order. */
  function FiringRules(e: Engine, st: State, bar: Bar, n: nat): (ks: seq<nat>)
    requires n <= |e.rules|
    ensures forall j :: 0 <= j < |ks| ==> ks[j] < n
  {
    if n == 0 then [] else FiringRules(e, st, bar, n - 1) + if FiresIn(e, st, bar, n - 1) then [n - 1] else []
  }

  lemma {:induction false} OrdersFollowTheRules(p: Params, st: State, bar: Bar, n: nat)
    requires p.Valid() && n <= |p.rules| && Accepts(EngineOf(p), bar)
    ensures var e := EngineOf(p);
            var out, ks := Orders(e.rules, ViewOf(e, st, bar), n), FiringRules(e, st, bar, n);
            |out| == |ks| && forall j :: 0 <= j < |out| ==> CarriesOut(p.symbol, p.rules[ks[j]].do, bar, out[j])
  {
    if n > 0 {
      OrdersFollowTheRules(p, st, bar, n - 1);
      OrderCarriesOutTheAction(p.symbol, p.rules[n - 1].do, bar);
    }
  }

  /** On every run each bar emits exactly one order for each rule that fires on it, in the order of the rules, and each
      carries out its rule's action. */
  lemma {:induction false} IntentsCarryOutTheRules(p: Params, bars: seq<Bar>, i: nat)
    requires p.Valid() && i < |bars|
    ensures var e := EngineOf(p);
            var out, ks := Out(e, bars, i), FiringRules(e, Run(e, bars[..i]), bars[i], |p.rules|);
            |out| == |ks| && forall j :: 0 <= j < |out| ==> CarriesOut(p.symbol, p.rules[ks[j]].do, bars[i], out[j])
  {
    var e := EngineOf(p);
    if Accepts(e, bars[i]) {
      OrdersFollowTheRules(p, Run(e, bars[..i]), bars[i], |p.rules|);
    } else {
      NoneFires(e, Run(e, bars[..i]), bars[i], |p.rules|);
    }
  }

  lemma {:induction false} NoneFires(e: Engine, st: State, bar: Bar, n: nat)
    requires n <= |e.rules| && !Accepts(e, bar)
    ensures FiringRules(e, st, bar, n) == []
  {
    if n > 0 { NoneFires(e, st, bar, n - 1); }
  }

  lemma {:induction false} OrdersTradeTheBar(p: Params, v: View, n: nat)
    requires p.Valid() && n <= |p.rules| && v.bar.close > 0.0
    ensures forall i :: i in Orders(EngineOf(p).rules, v, n) ==> i.symbol == p.symbol && i.quantity > 0.0
  {
    if n > 0 {
      OrdersTradeTheBar(p, v, n - 1);
      if OrderOf(p.symbol, p.rules[n - 1].do, v.bar).Some? {
        OrderIsValid(p.symbol, p.rules[n - 1].do, v.bar);
      }
    }
  }

  /** Whatever the user authored, the engine trades only its bar's symbol, in positive sizes; so a
      rule bot's equity never rises while the price stands still. */
  lemma {:induction false} RulesNeverPaidForStandingStill(cfg: Paper.Config, p: Params, cash: real, bars: seq<Bar>,
      i: nat, j: nat)
    requires p.Valid() && Backtest.ChargesEveryTrade(cfg)
    requires i <= j < |bars| && forall k :: i <= k <= j ==> bars[k].close == bars[i].close
    ensures var curve := Backtest.Replay(cfg, AsStrategy(p), INITIAL, cash, bars).curve;
            |curve| == |bars| && curve[j].1 <= curve[i].1
  {
    var f, inv := AsStrategy(p), (st: State) => true;
    forall bar: Bar, st: State
      ensures forall o :: o in f(bar, st).0 ==> o.symbol == bar.symbol && o.quantity > 0.0
    {
      if Accepts(EngineOf(p), bar) {
        OrdersTradeTheBar(p, ViewOf(EngineOf(p), st, bar), |p.rules|);
      }
    }
    Backtest.FlatPriceNeverPays(cfg, f, inv, INITIAL, cash, bars, i, j);
  }
}
