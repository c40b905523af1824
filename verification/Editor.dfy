/** The rule builder's two translations: editor rows to the rule language, and an authored strategy
    back to editor rows; judged by the rule engine's own parser and evaluator. */
module Editor {
  import opened Basics
  import opened EdgeRules
  import opened RuleEngine

  // ------------------------------------------------ authored strategies, as received

  /** A condition carries whichever of its fields the author wrote. */
  datatype ACond = ACond(op: string, left: Option<string>, right: Option<string>, terms: Terms)

  datatype Terms = NoTerms | Terms(list: seq<ACond>)

  datatype AIndicator = AIndicator(name: string, fn: string, period: Option<int>, value: Option<string>)

  datatype ADo = ADo(side: Option<string>, kind: Option<string>, quote: Option<string>, limitOffsetPct: Option<string>)

  datatype ARule = ARule(when: ACond, do: ADo, cooldownMinutes: Option<int>)

  datatype AStrategy = AStrategy(symbol: string, indicators: seq<AIndicator>, rules: seq<ARule>)

  function OpOf(op: string): Option<CmpOp> {
    if op == "<" then Some(Less) else if op == "<=" then Some(AtMost)
    else if op == ">" then Some(More) else if op == ">=" then Some(AtLeast)
    else if op == "==" then Some(Equal)
    else if op == "crossover" then Some(CrossOver) else if op == "crossunder" then Some(CrossUnder)
    else None
  }

  function OpName(op: CmpOp): (name: string)
    ensures OpOf(name) == Some(op)
  {
    match op
    case Less => "<"
    case AtMost => "<="
    case More => ">"
    case AtLeast => ">="
    case Equal => "=="
    case CrossOver => "crossover"
    case CrossUnder => "crossunder"
  }

  function FnOf(fn: string): Option<Fn> {
    if fn == "price" then Some(Price) else if fn == "value" then Some(Value)
    else if fn == "sma" then Some(Sma) else if fn == "rsi" then Some(Rsi) else None
  }

  function FnName(fn: Fn): (name: string)
    ensures FnOf(name) == Some(fn)
  {
    match fn
    case Price => "price"
    case Value => "value"
    case Sma => "sma"
    case Rsi => "rsi"
  }

  // ------------------------------------------------------- the rule engine's parser

  function ParseCond(c: ACond): Option<Cond> {
    if c.op == "and" || c.op == "or" || c.op == "not" then
      if c.terms.NoTerms? then None else
        var ts := c.terms.list;
        if exists i :: 0 <= i < |ts| && ParseCond(ts[i]).None? then None
        else if c.op == "not" then (if |ts| != 1 then None else Some(Not(ParseCond(ts[0]).value)))
        else if ts == [] then None
        else
          var parsed := seq(|ts|, i requires 0 <= i < |ts| && ParseCond(ts[i]).Some? => ParseCond(ts[i]).value);
          Some(if c.op == "and" then And(parsed) else Or(parsed))
    else if OpOf(c.op).Some? && c.left.Some? && c.right.Some? then
      Some(Compare(OpOf(c.op).value, c.left.value, c.right.value))
    else None
  }

  function ParseIndicator(lit: Reader, i: AIndicator): Option<Indicator> {
    var value := if i.value.Some? then lit(i.value.value) else Some(0.0);
    if FnOf(i.fn).None? || value.None? then None else
      var ind := Indicator(i.name, FnOf(i.fn).value, if i.period.Some? then i.period.value else 0, value.value);
      if ind.Valid() then Some(ind) else None
  }

  function SideOf(side: string): Option<Side> {
    if side == "buy" then Some(Buy) else if side == "sell" then Some(Sell) else None
  }

  function TypeOf(kind: Option<string>): Option<OrderType> {
    if kind.None? || kind.value == "market" then Some(Market)
    else if kind.value == "limit" then Some(Limit) else None
  }

  function ParseAction(lit: Reader, d: ADo): Option<Action> {
    if d.side.None? || SideOf(d.side.value).None? || TypeOf(d.kind).None?
       || d.quote.None? || lit(d.quote.value).None?
       || (d.limitOffsetPct.Some? && lit(d.limitOffsetPct.value).None?) then None
    else
      var offset := if d.limitOffsetPct.Some? then lit(d.limitOffsetPct.value) else None;
      var a := Action(SideOf(d.side.value).value, TypeOf(d.kind).value, lit(d.quote.value).value, offset);
      if a.Valid() then Some(a) else None
  }

  /** What the words of an authored comparison mean to the engine. */
  lemma {:induction false} ComparisonsMean(lit: Reader, op: string, left: string, right: string, cur: Vals, prev: Vals)
    requires ParseCond(ACond(op, Some(left), Some(right), NoTerms)).Some?
    ensures var holds := Eval(lit, ParseCond(ACond(op, Some(left), Some(right), NoTerms)).value, cur, prev);
            var l, r := Operand(lit, left, cur), Operand(lit, right, cur);
            var l0, r0 := Operand(lit, left, prev), Operand(lit, right, prev);
            var both, ever := l.Some? && r.Some?, l.Some? && r.Some? && l0.Some? && r0.Some?;
            && (op == "<" ==> (holds <==> both && l.value < r.value))
            && (op == "<=" ==> (holds <==> both && !(l.value > r.value)))
            && (op == ">" ==> (holds <==> both && l.value > r.value))
            && (op == ">=" ==> (holds <==> both && !(l.value < r.value)))
            && (op == "==" ==> (holds <==> both && l.value == r.value))
            && (op == "crossover" ==> (holds <==> ever && !(l0.value > r0.value) && l.value > r.value))
            && (op == "crossunder" ==> (holds <==> ever && !(l0.value < r0.value) && l.value < r.value))
  {}

  /** Exactly these comparisons are accepted, with both sides given. */
  lemma {:induction false} ComparisonsAccepted(c: ACond)
    requires c.op !in {"and", "or", "not"}
    ensures ParseCond(c).Some?
            <==> c.op in {"<", "<=", ">", ">=", "==", "crossover", "crossunder"} && c.left.Some? && c.right.Some?
  {}

  /** What the words of an authored action mean: its side, its type, market when none is given, and its numbers as the
      reader reads them; and exactly which are accepted. */
  lemma ActionsMean(lit: Reader, d: ADo)
    ensures var quote := if d.quote.Some? then lit(d.quote.value) else None;
            var offset := if d.limitOffsetPct.Some? then lit(d.limitOffsetPct.value) else None;
            && (ParseAction(lit, d).Some?
                <==> && (d.side == Some("buy") || d.side == Some("sell"))
                     && (d.kind.None? || d.kind.value == "market" || d.kind.value == "limit")
                     && quote.Some? && quote.value > 0.0 && (d.limitOffsetPct.Some? ==> offset.Some?)
                     && (d.kind == Some("limit") ==> offset.Some?))
            && (ParseAction(lit, d).Some? ==>
                  var a := ParseAction(lit, d).value;
                  && (a.side.Buy? <==> d.side == Some("buy")) && (a.kind.Limit? <==> d.kind == Some("limit"))
                  && Some(a.quote) == quote && a.limitOffsetPct == offset)
  {
    assert d.side.Some? ==> (SideOf(d.side.value).Some? <==> d.side.value == "buy" || d.side.value == "sell");
  }

  /** What the words of an authored indicator mean. */
  lemma IndicatorsMean(lit: Reader, i: AIndicator)
    requires ParseIndicator(lit, i).Some?
    ensures var ind := ParseIndicator(lit, i).value;
            && ind.name == i.name
            && (ind.fn.Sma? <==> i.fn == "sma") && (ind.fn.Rsi? <==> i.fn == "rsi")
            && (ind.fn.Price? <==> i.fn == "price") && (ind.fn.Value? <==> i.fn == "value")
            && (i.period.Some? ==> ind.period == i.period.value)
            && (i.value.Some? ==> Some(ind.value) == lit(i.value.value)) && (i.value.None? ==> ind.value == 0.0)
  {}

  function ParseRule(lit: Reader, r: ARule): Option<Rule> {
    if ParseCond(r.when).None? || ParseAction(lit, r.do).None? then None
    else Some(Rule(ParseCond(r.when).value, ParseAction(lit, r.do).value,
                   if r.cooldownMinutes.Some? then r.cooldownMinutes.value else 0))
  }

  /** A rule is accepted exactly when its condition and its action are. */
  lemma RulesMean(lit: Reader, r: ARule)
    ensures ParseRule(lit, r).Some? <==> ParseCond(r.when).Some? && ParseAction(lit, r.do).Some?
    ensures ParseRule(lit, r).Some? ==>
              var rule := ParseRule(lit, r).value;
              && Some(rule.when) == ParseCond(r.when) && Some(rule.do) == ParseAction(lit, r.do)
              && (r.cooldownMinutes.Some? ==> rule.cooldownMinutes == r.cooldownMinutes.value)
              && (r.cooldownMinutes.None? ==> rule.cooldownMinutes == 0)
  {}

  /** `and`, `or` and `not` are accepted exactly when they join conditions that are, one of them for `not`. */
  lemma {:induction false} BooleansAccepted(c: ACond)
    requires c.op in {"and", "or", "not"}
    ensures ParseCond(c).Some?
            <==> && c.terms.Terms? && c.terms.list != [] && (c.op == "not" ==> |c.terms.list| == 1)
                 && forall i :: 0 <= i < |c.terms.list| ==> ParseCond(c.terms.list[i]).Some?
  {}

  /** What they mean: every term holds, some term holds, the term does not hold. */
  lemma {:induction false} BooleansMean(lit: Reader, c: ACond, cur: Vals, prev: Vals)
    requires c.op in {"and", "or", "not"} && ParseCond(c).Some?
    ensures c.terms.Terms? && forall i :: 0 <= i < |c.terms.list| ==> ParseCond(c.terms.list[i]).Some?
    ensures var holds, ts := Eval(lit, ParseCond(c).value, cur, prev), c.terms.list;
            && (c.op == "and" ==> (holds <==> forall t :: t in ts ==> Eval(lit, ParseCond(t).value, cur, prev)))
            && (c.op == "or" ==> (holds <==> exists t :: t in ts && Eval(lit, ParseCond(t).value, cur, prev)))
            && (c.op == "not" ==> |ts| == 1 && (holds <==> !Eval(lit, ParseCond(ts[0]).value, cur, prev)))
  {
    BooleansAccepted(c);
    var ts := c.terms.list;
    if c.op != "not" {
      JoinMeans(lit, c, if c.op == "and" then AllOf else AnyOf, cur, prev);
      assert forall t :: t in ts ==> ParseCond(t).Some?;
    }
  }

  /** Every token of the condition is a literal or one of the known names. */
  predicate TokensKnown(lit: Reader, known: set<string>, c: Cond) {
    match c
    case Compare(_, l, r) => (l in known || lit(l).Some?) && (r in known || lit(r).Some?)
    case Not(t) => TokensKnown(lit, known, t)
    case And(ts) => forall i :: 0 <= i < |ts| ==> TokensKnown(lit, known, ts[i])
    case Or(ts) => forall i :: 0 <= i < |ts| ==> TokensKnown(lit, known, ts[i])
  }

  function Names(inds: seq<Indicator>): set<string> {
    set i | 0 <= i < |inds| :: inds[i].name
  }

  /** The checks on a whole strategy: a symbol, a rule, unique unreserved names, no unknown token. */
  predicate WellNamed(p: Params) {
    && p.symbol != "" && p.rules != []
    && (forall i, j :: 0 <= i < j < |p.indicators| ==> p.indicators[i].name != p.indicators[j].name)
    && "price" !in Names(p.indicators)
    && forall k :: 0 <= k < |p.rules| ==> TokensKnown(p.lit, Names(p.indicators) + {"price"}, p.rules[k].when)
  }

  function Indicators(lit: Reader, inds: seq<AIndicator>): (r: seq<Indicator>)
    requires forall i :: 0 <= i < |inds| ==> ParseIndicator(lit, inds[i]).Some?
    ensures |r| == |inds| && forall i :: 0 <= i < |inds| ==> r[i] == ParseIndicator(lit, inds[i]).value
  {
    seq(|inds|, i requires 0 <= i < |inds| => ParseIndicator(lit, inds[i]).value)
  }

  function Rules(lit: Reader, rules: seq<ARule>): (r: seq<Rule>)
    requires forall i :: 0 <= i < |rules| ==> ParseRule(lit, rules[i]).Some?
    ensures |r| == |rules| && forall i :: 0 <= i < |rules| ==> r[i] == ParseRule(lit, rules[i]).value
  {
    seq(|rules|, i requires 0 <= i < |rules| => ParseRule(lit, rules[i]).value)
  }

  /** What the engine makes of a strategy, or none when it rejects it. */
  function Parse(lit: Reader, s: AStrategy): (p: Option<Params>)
    ensures p.Some? ==> p.value.Valid()
  {
    if (exists i :: 0 <= i < |s.indicators| && ParseIndicator(lit, s.indicators[i]).None?)
       || (exists i :: 0 <= i < |s.rules| && ParseRule(lit, s.rules[i]).None?) then None
    else
      var p := Params(s.symbol, Indicators(lit, s.indicators), Rules(lit, s.rules), lit);
      if WellNamed(p) then Some(p) else None
  }

  // -------------------------------------------------------- the editor's rows

  datatype IndicatorRow = IndicatorRow(name: string, fn: Fn, period: int, value: string)

  datatype TermRow = TermRow(left: string, op: CmpOp, right: string)

  datatype Combinator = AllOf | AnyOf

  datatype RuleRow = RuleRow(combinator: Combinator, terms: seq<TermRow>, side: Side, kind: OrderType,
                             quote: string, limitOffsetPct: string, cooldownMinutes: int)

  datatype CustomCfg = CustomCfg(indicators: seq<IndicatorRow>, rules: seq<RuleRow>)

  function CombinatorName(c: Combinator): string {
    if c.AllOf? then "and" else "or"
  }

  function TermCond(t: TermRow): ACond {
    ACond(OpName(t.op), Some(t.left), Some(t.right), NoTerms)
  }

  function TermConds(ts: seq<TermRow>): (r: seq<ACond>)
    ensures |r| == |ts| && forall i :: 0 <= i < |ts| ==> r[i] == TermCond(ts[i])
  {
    seq(|ts|, i requires 0 <= i < |ts| => TermCond(ts[i]))
  }

  function BuildWhen(r: RuleRow): ACond {
    if |r.terms| == 1 then TermCond(r.terms[0])
    else ACond(CombinatorName(r.combinator), None, None, Terms(TermConds(r.terms)))
  }

  function BuildIndicator(i: IndicatorRow): AIndicator {
    AIndicator(i.name, FnName(i.fn), if i.fn.Sma? || i.fn.Rsi? then Some(i.period) else None,
               if i.fn.Value? then Some(i.value) else None)
  }

  function BuildRule(r: RuleRow): ARule {
    ARule(BuildWhen(r),
          ADo(Some(if r.side.Buy? then "buy" else "sell"), Some(if r.kind.Market? then "market" else "limit"),
              Some(r.quote), if r.kind.Limit? then Some(r.limitOffsetPct) else None),
          Some(r.cooldownMinutes))
  }

  /** Editor rows to the rule language. */
  function BuildCustomRules(symbol: string, cfg: CustomCfg): (s: AStrategy)
    ensures |s.indicators| == |cfg.indicators| && |s.rules| == |cfg.rules|
  {
    AStrategy(symbol, seq(|cfg.indicators|, i requires 0 <= i < |cfg.indicators| => BuildIndicator(cfg.indicators[i])),
              seq(|cfg.rules|, i requires 0 <= i < |cfg.rules| => BuildRule(cfg.rules[i])))
  }

  // ------------------------------------------------------ authored strategy to rows

  /** The editor's complaints, by rule number from 1. */
  datatype Warning = NestedLogic(rule: nat) | Unrepresentable(rule: nat, op: string) | NoCondition(rule: nat)

  predicate IsCmp(c: ACond) {
    OpOf(c.op).Some? && c.left.Some? && c.right.Some?
  }

  function Term(c: ACond): TermRow
    requires IsCmp(c)
  {
    TermRow(c.left.value, OpOf(c.op).value, c.right.value)
  }

  function Leaves(c: ACond): seq<TermRow>
    decreases c
  {
    if IsCmp(c) then [Term(c)]
    else if c.terms.Terms? then LeavesOfAll(c.terms.list)
    else []
  }

  function LeavesOfAll(ts: seq<ACond>): seq<TermRow>
    decreases ts
  {
    if ts == [] then [] else LeavesOfAll(ts[..|ts| - 1]) + Leaves(ts[|ts| - 1])
  }

  predicate AllCmp(ts: seq<ACond>) {
    forall i :: 0 <= i < |ts| ==> IsCmp(ts[i])
  }

  const PLACEHOLDER := TermRow("price", More, "0")

  /** A condition as the editor shows it, with its complaints. */
  datatype Reading = Reading(combinator: Combinator, terms: seq<TermRow>, warnings: seq<Warning>)

  function Readable(w: ACond, number: nat): Reading {
    if IsCmp(w) then Reading(AllOf, [Term(w)], [])
    else if (w.op == "and" || w.op == "or") && w.terms.Terms? then
      Reading(if w.op == "and" then AllOf else AnyOf, Leaves(w),
              if AllCmp(w.terms.list) then [] else [NestedLogic(number)])
    else Reading(AllOf, Leaves(w), [Unrepresentable(number, w.op)])
  }

  function ReadWhen(w: ACond, number: nat): Reading {
    var r := Readable(w, number);
    if r.terms == [] then r.(terms := [PLACEHOLDER], warnings := r.warnings + [NoCondition(number)]) else r
  }

  function ReadRule(r: ARule, number: nat): RuleRow {
    var w := ReadWhen(r.when, number);
    RuleRow(w.combinator, w.terms,
            if r.do.side == Some("sell") then Sell else Buy,
            if r.do.kind == Some("limit") then Limit else Market,
            if r.do.quote.Some? then r.do.quote.value else "0",
            if r.do.limitOffsetPct.Some? then r.do.limitOffsetPct.value else "",
            if r.cooldownMinutes.Some? then r.cooldownMinutes.value else 0)
  }

  function ReadIndicator(i: AIndicator): IndicatorRow {
    IndicatorRow(i.name, if FnOf(i.fn).Some? then FnOf(i.fn).value else Value,
                 if i.period.Some? then i.period.value else 0,
                 if i.value.Some? then i.value.value else "0")
  }

  function RowsOf(s: AStrategy): (cfg: CustomCfg)
    ensures |cfg.indicators| == |s.indicators| && |cfg.rules| == |s.rules|
  {
    CustomCfg(seq(|s.indicators|, i requires 0 <= i < |s.indicators| => ReadIndicator(s.indicators[i])),
              seq(|s.rules|, i requires 0 <= i < |s.rules| => ReadRule(s.rules[i], i + 1)))
  }

  function WarningsOf(rules: seq<ARule>): seq<Warning> {
    if rules == [] then [] else
      WarningsOf(rules[..|rules| - 1]) + ReadWhen(rules[|rules| - 1].when, |rules|).warnings
  }

  lemma {:induction false} LeavesOfComparisons(ts: seq<ACond>)
    requires AllCmp(ts)
    ensures |LeavesOfAll(ts)| == |ts| && forall i :: 0 <= i < |ts| ==> LeavesOfAll(ts)[i] == Term(ts[i])
  {
    if ts != [] {
      LeavesOfComparisons(ts[..|ts| - 1]);
    }
  }

  /** The translation as the editor runs it, rule by rule, reassigning the combinator and the terms
      and pushing complaints. */
  method AuthoredToCustomCfg(s: AStrategy) returns (cfg: CustomCfg, warnings: seq<Warning>)
    ensures cfg == RowsOf(s) && warnings == WarningsOf(s.rules)
  {
    var indicators := seq(|s.indicators|, i requires 0 <= i < |s.indicators| => ReadIndicator(s.indicators[i]));
    var rules: seq<RuleRow> := [];
    warnings := [];
    for idx := 0 to |s.rules|
      invariant rules == RowsOf(s).rules[..idx]
      invariant warnings == WarningsOf(s.rules[..idx])
    {
      var rule := s.rules[idx];
      var combinator, terms, complaints := ReadCondition(rule.when, idx + 1);
      assert s.rules[..idx + 1][..idx] == s.rules[..idx];
      warnings := warnings + complaints;
      rules := rules + [ReadRule(rule, idx + 1).(combinator := combinator, terms := terms)];
    }
    assert s.rules[..|s.rules|] == s.rules;
    cfg := CustomCfg(indicators, rules);
  }

  method ReadCondition(w: ACond, number: nat)
      returns (combinator: Combinator, terms: seq<TermRow>, warnings: seq<Warning>)
    ensures Reading(combinator, terms, warnings) == ReadWhen(w, number)
  {
    combinator, terms, warnings := AllOf, [], [];
    if IsCmp(w) {
      terms := [Term(w)];
    } else if (w.op == "and" || w.op == "or") && w.terms.Terms? {
      combinator := if w.op == "and" then AllOf else AnyOf;
      if AllCmp(w.terms.list) {
        LeavesOfComparisons(w.terms.list);
        var ts := w.terms.list;
        terms := seq(|ts|, i requires 0 <= i < |ts| && IsCmp(ts[i]) => Term(ts[i]));
      } else {
        terms := Leaves(w);
        warnings := [NestedLogic(number)];
      }
    } else {
      terms := Leaves(w);
      warnings := [Unrepresentable(number, w.op)];
    }
    if terms == [] {
      terms := [PLACEHOLDER];
      warnings := warnings + [NoCondition(number)];
    }
  }

  // -------------------------------------------------------- what a row of terms means

  predicate TermHolds(lit: Reader, t: TermRow, cur: Vals, prev: Vals) {
    Eval(lit, Compare(t.op, t.left, t.right), cur, prev)
  }

  predicate RowHolds(lit: Reader, c: Combinator, ts: seq<TermRow>, cur: Vals, prev: Vals) {
    if c.AllOf? then forall t :: t in ts ==> TermHolds(lit, t, cur, prev)
    else exists t :: t in ts && TermHolds(lit, t, cur, prev)
  }

  predicate RowKnown(lit: Reader, known: set<string>, ts: seq<TermRow>) {
    forall t :: t in ts ==> TokensKnown(lit, known, Compare(t.op, t.left, t.right))
  }

  predicate JoinHolds(lit: Reader, c: Combinator, ts: seq<ACond>, cur: Vals, prev: Vals)
    requires forall i :: 0 <= i < |ts| ==> ParseCond(ts[i]).Some?
  {
    if c.AllOf? then forall i :: 0 <= i < |ts| ==> Eval(lit, ParseCond(ts[i]).value, cur, prev)
    else exists i :: 0 <= i < |ts| && Eval(lit, ParseCond(ts[i]).value, cur, prev)
  }

  /** The parts of a joined condition, parsed. */
  function Parts(k: Cond): seq<Cond> {
    match k
    case And(ts) => ts
    case Or(ts) => ts
    case Not(t) => [t]
    case Compare(_, _, _) => []
  }

  lemma {:induction false} ParsedJoin(c: ACond, comb: Combinator)
    requires c.op == CombinatorName(comb) && c.terms.Terms? && c.terms.list != []
    requires forall i :: 0 <= i < |c.terms.list| ==> ParseCond(c.terms.list[i]).Some?
    ensures ParseCond(c).Some?
    ensures var k, ts := ParseCond(c).value, c.terms.list;
            && (if comb.AllOf? then k.And? else k.Or?)
            && |Parts(k)| == |ts| && forall i :: 0 <= i < |ts| ==> Parts(k)[i] == ParseCond(ts[i]).value
  {}

  /** What the parser makes of a joined condition holds when all, or any, of its parts do. */
  lemma {:induction false} JoinMeans(lit: Reader, c: ACond, comb: Combinator, cur: Vals, prev: Vals)
    requires c.op == CombinatorName(comb) && c.terms.Terms? && c.terms.list != []
    requires forall i :: 0 <= i < |c.terms.list| ==> ParseCond(c.terms.list[i]).Some?
    ensures ParseCond(c).Some?
    ensures Eval(lit, ParseCond(c).value, cur, prev) == JoinHolds(lit, comb, c.terms.list, cur, prev)
  {
    ParsedJoin(c, comb);
    var k, ts := ParseCond(c).value, c.terms.list;
    assert forall i :: 0 <= i < |ts| ==>
      Eval(lit, Parts(k)[i], cur, prev) == Eval(lit, ParseCond(ts[i]).value, cur, prev);
  }

  lemma ParsedTerm(t: TermRow)
    ensures ParseCond(TermCond(t)) == Some(Compare(t.op, t.left, t.right))
  {}

  lemma BuiltJoin(r: RuleRow)
    requires |r.terms| >= 2
    ensures var w := BuildWhen(r);
            && w.op == CombinatorName(r.combinator) && w.terms.Terms? && |w.terms.list| == |r.terms|
            && forall i :: 0 <= i < |r.terms| ==>
                 ParseCond(w.terms.list[i]) == Some(Compare(r.terms[i].op, r.terms[i].left, r.terms[i].right))
  {
    forall i | 0 <= i < |r.terms|
      ensures ParseCond(BuildWhen(r).terms.list[i]) == Some(Compare(r.terms[i].op, r.terms[i].left, r.terms[i].right))
    {
      ParsedTerm(r.terms[i]);
    }
  }

  /** What the builder writes for a rule with terms parses, and holds exactly when its row does. */
  lemma {:induction false} BuiltWhenMeansItsRow(lit: Reader, r: RuleRow, cur: Vals, prev: Vals)
    requires r.terms != []
    ensures ParseCond(BuildWhen(r)).Some?
    ensures Eval(lit, ParseCond(BuildWhen(r)).value, cur, prev) == RowHolds(lit, r.combinator, r.terms, cur, prev)
  {
    var ts := r.terms;
    if |ts| == 1 {
      ParsedTerm(ts[0]);
      assert ts[0] in ts && forall t :: t in ts ==> t == ts[0];
    } else {
      BuiltJoin(r);
      JoinMeans(lit, BuildWhen(r), r.combinator, cur, prev);
      JoinOfTerms(lit, r.combinator, BuildWhen(r).terms.list, ts, cur, prev);
    }
  }

  lemma JoinOfTerms(lit: Reader, comb: Combinator, cs: seq<ACond>, ts: seq<TermRow>, cur: Vals, prev: Vals)
    requires |cs| == |ts|
    requires forall i :: 0 <= i < |ts| ==> ParseCond(cs[i]) == Some(Compare(ts[i].op, ts[i].left, ts[i].right))
    ensures JoinHolds(lit, comb, cs, cur, prev) == RowHolds(lit, comb, ts, cur, prev)
  {
    assert forall i :: 0 <= i < |ts| ==>
      ts[i] in ts && Eval(lit, ParseCond(cs[i]).value, cur, prev) == TermHolds(lit, ts[i], cur, prev);
  }

  lemma {:induction false} BuiltWhenKnown(lit: Reader, known: set<string>, r: RuleRow)
    requires r.terms != [] && RowKnown(lit, known, r.terms)
    ensures ParseCond(BuildWhen(r)).Some? && TokensKnown(lit, known, ParseCond(BuildWhen(r)).value)
  {
    var ts := r.terms;
    if |ts| == 1 {
      ParsedTerm(ts[0]);
      assert ts[0] in ts;
    } else {
      BuiltJoin(r);
      ParsedJoin(BuildWhen(r), r.combinator);
      var parts := Parts(ParseCond(BuildWhen(r)).value);
      forall i | 0 <= i < |parts| ensures TokensKnown(lit, known, parts[i]) {
        assert ts[i] in ts;
      }
    }
  }

  /** A condition nested however deep but joined by one combinator throughout. */
  predicate OneKind(c: ACond, comb: Combinator) {
    IsCmp(c)
    || (c.op == CombinatorName(comb) && c.terms.Terms?
        && forall i :: 0 <= i < |c.terms.list| ==> OneKind(c.terms.list[i], comb))
  }

  /** Flattening a nest of one combinator to its leaves keeps its meaning. */
  lemma {:induction false} FlatteningOneKind(lit: Reader, c: ACond, comb: Combinator, cur: Vals, prev: Vals)
    requires ParseCond(c).Some? && OneKind(c, comb)
    ensures Eval(lit, ParseCond(c).value, cur, prev) == RowHolds(lit, comb, Leaves(c), cur, prev)
    decreases c
  {
    if IsCmp(c) {
      assert Leaves(c) == [Term(c)] && Term(c) in Leaves(c);
    } else {
      JoinMeans(lit, c, comb, cur, prev);
      FlatteningAll(lit, c.terms.list, comb, cur, prev);
    }
  }

  lemma {:induction false} FlatteningAll(lit: Reader, ts: seq<ACond>, comb: Combinator, cur: Vals, prev: Vals)
    requires forall i :: 0 <= i < |ts| ==> ParseCond(ts[i]).Some? && OneKind(ts[i], comb)
    ensures JoinHolds(lit, comb, ts, cur, prev) == RowHolds(lit, comb, LeavesOfAll(ts), cur, prev)
    decreases ts
  {
    if ts != [] {
      var init, last := ts[..|ts| - 1], ts[|ts| - 1];
      FlatteningAll(lit, init, comb, cur, prev);
      FlatteningOneKind(lit, last, comb, cur, prev);
      assert LeavesOfAll(ts) == LeavesOfAll(init) + Leaves(last);
      assert forall i :: 0 <= i < |ts| ==> ts[i] == if i < |init| then init[i] else last;
      assert JoinHolds(lit, comb, ts, cur, prev) ==
             if comb.AllOf? then JoinHolds(lit, comb, init, cur, prev) && Eval(lit, ParseCond(last).value, cur, prev)
             else JoinHolds(lit, comb, init, cur, prev) || Eval(lit, ParseCond(last).value, cur, prev);
    }
  }

  /** A condition the parser accepts has leaves, and its tokens are known exactly when those of its leaves are. */
  lemma {:induction false} LeavesAreKnown(lit: Reader, known: set<string>, c: ACond)
    requires ParseCond(c).Some?
    ensures Leaves(c) != [] && (TokensKnown(lit, known, ParseCond(c).value) <==> RowKnown(lit, known, Leaves(c)))
    decreases c
  {
    if IsCmp(c) {
      assert Leaves(c) == [Term(c)] && Term(c) in Leaves(c);
    } else {
      PartsKnown(lit, known, c);
      AllLeavesAreKnown(lit, known, c.terms.list);
    }
  }

  predicate AllKnown(lit: Reader, known: set<string>, ts: seq<ACond>)
    requires forall i :: 0 <= i < |ts| ==> ParseCond(ts[i]).Some?
  {
    forall i :: 0 <= i < |ts| ==> TokensKnown(lit, known, ParseCond(ts[i]).value)
  }

  lemma {:induction false} PartsKnown(lit: Reader, known: set<string>, c: ACond)
    requires ParseCond(c).Some? && !IsCmp(c)
    ensures c.terms.Terms? && c.terms.list != []
    ensures forall i :: 0 <= i < |c.terms.list| ==> ParseCond(c.terms.list[i]).Some?
    ensures TokensKnown(lit, known, ParseCond(c).value) <==> AllKnown(lit, known, c.terms.list)
  {
    BooleansAccepted(c);
    var parts, ts := Parts(ParseCond(c).value), c.terms.list;
    assert |parts| == |ts| && forall i :: 0 <= i < |ts| ==> parts[i] == ParseCond(ts[i]).value;
    assert AllKnown(lit, known, ts) <==> forall i :: 0 <= i < |parts| ==> TokensKnown(lit, known, parts[i]);
  }

  lemma {:induction false} AllLeavesAreKnown(lit: Reader, known: set<string>, ts: seq<ACond>)
    requires forall i :: 0 <= i < |ts| ==> ParseCond(ts[i]).Some?
    ensures ts != [] ==> LeavesOfAll(ts) != []
    ensures AllKnown(lit, known, ts) <==> RowKnown(lit, known, LeavesOfAll(ts))
    decreases ts
  {
    if ts != [] {
      var init, last := ts[..|ts| - 1], ts[|ts| - 1];
      AllLeavesAreKnown(lit, known, init);
      LeavesAreKnown(lit, known, last);
      assert forall i :: 0 <= i < |ts| ==> ts[i] == if i < |init| then init[i] else last;
      assert AllKnown(lit, known, ts)
        <==> AllKnown(lit, known, init) && TokensKnown(lit, known, ParseCond(last).value);
    }
  }

  // ------------------------------------------------------- what the engine accepts

  /** A token the engine can read: one of the names, the reserved price, or a number. */
  predicate Speaks(lit: Reader, inds: seq<AIndicator>, token: string) {
    token == "price" || lit(token).Some? || exists i :: 0 <= i < |inds| && inds[i].name == token
  }

  /** A strategy is accepted exactly when it has a symbol and a rule, each part of it parses, its indicators have
      different names, none of them `price`, and the conditions speak only of those names, the price and numbers.
      What is accepted has the authored symbol, indicators and rules, in their order. */
  lemma {:induction false} StrategiesAccepted(lit: Reader, s: AStrategy)
    ensures var n, inds := |s.indicators|, s.indicators;
            Parse(lit, s).Some?
            <==> && s.symbol != "" && s.rules != []
                 && (forall i :: 0 <= i < n ==> ParseIndicator(lit, inds[i]).Some? && inds[i].name != "price")
                 && (forall i, j :: 0 <= i < j < n ==> inds[i].name != inds[j].name)
                 && forall k :: 0 <= k < |s.rules| ==>
                      && ParseRule(lit, s.rules[k]).Some?
                      && forall t :: t in Leaves(s.rules[k].when) ==>
                           Speaks(lit, inds, t.left) && Speaks(lit, inds, t.right)
    ensures Parse(lit, s).Some? ==>
              var p := Parse(lit, s).value;
              && p.symbol == s.symbol && p.lit == lit && |p.indicators| == |s.indicators| && |p.rules| == |s.rules|
              && (forall i :: 0 <= i < |p.indicators| ==> Some(p.indicators[i]) == ParseIndicator(lit, s.indicators[i]))
              && (forall k :: 0 <= k < |p.rules| ==> Some(p.rules[k]) == ParseRule(lit, s.rules[k]))
  {
    if (forall i :: 0 <= i < |s.indicators| ==> ParseIndicator(lit, s.indicators[i]).Some?)
       && (forall k :: 0 <= k < |s.rules| ==> ParseRule(lit, s.rules[k]).Some?) {
      var inds := Indicators(lit, s.indicators);
      var known := Names(inds) + {"price"};
      NamesAsAuthored(lit, s.indicators);
      forall k | 0 <= k < |s.rules|
        ensures TokensKnown(lit, known, ParseCond(s.rules[k].when).value)
                <==> forall t :: t in Leaves(s.rules[k].when) ==>
                       Speaks(lit, s.indicators, t.left) && Speaks(lit, s.indicators, t.right)
      {
        LeavesAreKnown(lit, known, s.rules[k].when);
      }
    }
  }

  lemma NamesAsAuthored(lit: Reader, inds: seq<AIndicator>)
    requires forall i :: 0 <= i < |inds| ==> ParseIndicator(lit, inds[i]).Some?
    ensures forall i :: 0 <= i < |inds| ==> Indicators(lit, inds)[i].name == inds[i].name
    ensures forall token :: (token in Names(Indicators(lit, inds)) + {"price"} || lit(token).Some?)
                            <==> Speaks(lit, inds, token)
  {
    var parsed := Indicators(lit, inds);
    forall i | 0 <= i < |inds| ensures parsed[i].name == inds[i].name {
      IndicatorsMean(lit, inds[i]);
    }
    assert forall i :: 0 <= i < |inds| ==> parsed[i].name in Names(parsed);
  }

  // ----------------------------------------------------- authored, edited, rebuilt

  /** An authored strategy taken into the editor and sent back untouched. */
  function Rebuilt(s: AStrategy): AStrategy {
    BuildCustomRules(s.symbol, RowsOf(s))
  }

  function RebuiltRule(r: ARule, number: nat): ARule {
    BuildRule(ReadRule(r, number))
  }

  function RebuiltIndicator(i: AIndicator): AIndicator {
    BuildIndicator(ReadIndicator(i))
  }

  ghost predicate SameIndicator(a: Indicator, b: Indicator) {
    && a.Valid() && b.Valid()
    && a.name == b.name && a.Window() == b.Window()
    && forall closes: seq<real> :: closes != [] ==> Compute(a, closes) == Compute(b, closes)
  }

  /** Dropping the fields a function does not use loses nothing it computes. */
  lemma RebuiltIndicatorComputesTheSame(lit: Reader, i: AIndicator)
    requires lit("0") == Some(0.0) && ParseIndicator(lit, i).Some?
    ensures ParseIndicator(lit, RebuiltIndicator(i)).Some?
    ensures SameIndicator(ParseIndicator(lit, i).value, ParseIndicator(lit, RebuiltIndicator(i)).value)
  {}

  ghost predicate SameAction(a: Action, b: Action) {
    && a.Valid() && b.Valid()
    && forall symbol: string, bar: Bar :: bar.close > 0.0 ==> OrderOf(symbol, a, bar) == OrderOf(symbol, b, bar)
  }

  lemma RebuiltActionOrdersTheSame(lit: Reader, r: ARule, number: nat)
    requires ParseAction(lit, r.do).Some?
    ensures ParseAction(lit, RebuiltRule(r, number).do).Some?
    ensures SameAction(ParseAction(lit, r.do).value, ParseAction(lit, RebuiltRule(r, number).do).value)
  {
    var a, b := ParseAction(lit, r.do).value, ParseAction(lit, RebuiltRule(r, number).do).value;
    assert a.side == b.side && a.kind == b.kind && a.quote == b.quote;
    assert a.kind.Limit? ==> a.limitOffsetPct == b.limitOffsetPct;
  }

  /** Reading a condition the parser accepts never needs the placeholder; when it draws no complaint
      the rebuilt condition holds exactly when the authored one does. */
  lemma {:induction false} RebuiltCondition(lit: Reader, known: set<string>, w: ACond, number: nat)
    requires ParseCond(w).Some? && TokensKnown(lit, known, ParseCond(w).value)
    ensures ReadWhen(w, number).terms == Leaves(w) != [] && RowKnown(lit, known, Leaves(w))
    ensures ReadWhen(w, number).warnings == [] ==> OneKind(w, ReadWhen(w, number).combinator)
  {
    LeavesAreKnown(lit, known, w);
  }

  lemma {:induction false} RebuiltWhen(lit: Reader, r: ARule, number: nat, known: set<string>)
    requires ParseCond(r.when).Some? && TokensKnown(lit, known, ParseCond(r.when).value)
    ensures var w := RebuiltRule(r, number).when;
            ParseCond(w).Some? && TokensKnown(lit, known, ParseCond(w).value)
  {
    RebuiltCondition(lit, known, r.when, number);
    BuiltWhenKnown(lit, known, ReadRule(r, number));
  }

  ghost predicate SameTruth(lit: Reader, c: Cond, d: Cond) {
    forall cur: Vals, prev: Vals :: Eval(lit, c, cur, prev) == Eval(lit, d, cur, prev)
  }

  lemma {:induction false} RebuiltWhenHoldsTheSame(lit: Reader, r: ARule, number: nat, known: set<string>, cur: Vals,
      prev: Vals)
    requires ParseCond(r.when).Some? && TokensKnown(lit, known, ParseCond(r.when).value)
    requires OneKind(r.when, ReadWhen(r.when, number).combinator)
    ensures ParseCond(RebuiltRule(r, number).when).Some?
    ensures Eval(lit, ParseCond(r.when).value, cur, prev)
            == Eval(lit, ParseCond(RebuiltRule(r, number).when).value, cur, prev)
  {
    RebuiltCondition(lit, known, r.when, number);
    FlatteningOneKind(lit, r.when, ReadWhen(r.when, number).combinator, cur, prev);
    BuiltWhenMeansItsRow(lit, ReadRule(r, number), cur, prev);
  }

  lemma {:induction false} RebuiltWhenMeansTheSame(lit: Reader, r: ARule, number: nat, known: set<string>)
    requires ParseCond(r.when).Some? && TokensKnown(lit, known, ParseCond(r.when).value)
    requires OneKind(r.when, ReadWhen(r.when, number).combinator)
    ensures ParseCond(RebuiltRule(r, number).when).Some?
    ensures SameTruth(lit, ParseCond(r.when).value, ParseCond(RebuiltRule(r, number).when).value)
  {
    RebuiltWhen(lit, r, number, known);
    var c, d := ParseCond(r.when).value, ParseCond(RebuiltRule(r, number).when).value;
    forall cur: Vals, prev: Vals ensures Eval(lit, c, cur, prev) == Eval(lit, d, cur, prev) {
      RebuiltWhenHoldsTheSame(lit, r, number, known, cur, prev);
    }
  }

  lemma {:induction false} SameIndicatorsSameValues(a: seq<Indicator>, b: seq<Indicator>)
    requires |a| == |b| && forall i :: 0 <= i < |a| ==> SameIndicator(a[i], b[i])
    ensures AllValid(a) && AllValid(b) && WidestOf(a) == WidestOf(b)
    ensures forall closes: seq<real> :: closes != [] ==> Values(a, closes) == Values(b, closes)
  {
    if a != [] {
      SameIndicatorsSameValues(a[..|a| - 1], b[..|b| - 1]);
      assert SameIndicator(a[|a| - 1], b[|b| - 1]);
    }
  }

  /** Whatever the editor complains of, what it sends back is a strategy the engine accepts, with the
      same indicators, and rule for rule the same cooldowns and orders. Only conditions can change. */
  ghost predicate SameButConditions(p: Params, q: Params) {
    && p.symbol == q.symbol && p.lit == q.lit && |p.rules| == |q.rules|
    && |p.indicators| == |q.indicators|
    && (forall i :: 0 <= i < |p.indicators| ==> SameIndicator(p.indicators[i], q.indicators[i]))
    && forall k :: 0 <= k < |p.rules| ==>
         p.rules[k].cooldownMinutes == q.rules[k].cooldownMinutes && SameAction(p.rules[k].do, q.rules[k].do)
  }

  lemma {:induction false} RebuiltRuleKeeps(lit: Reader, known: set<string>, r: ARule, number: nat)
    requires ParseRule(lit, r).Some? && TokensKnown(lit, known, ParseRule(lit, r).value.when)
    ensures ParseRule(lit, RebuiltRule(r, number)).Some?
    ensures var a, b := ParseRule(lit, r).value, ParseRule(lit, RebuiltRule(r, number)).value;
            && a.cooldownMinutes == b.cooldownMinutes && SameAction(a.do, b.do) && TokensKnown(lit, known, b.when)
  {
    RebuiltActionOrdersTheSame(lit, r, number);
    RebuiltWhen(lit, r, number, known);
  }

  lemma ParsedRule(lit: Reader, s: AStrategy, k: nat)
    requires Parse(lit, s).Some? && k < |s.rules|
    ensures var p := Parse(lit, s).value;
            && |p.rules| == |s.rules| && ParseRule(lit, s.rules[k]) == Some(p.rules[k])
            && TokensKnown(lit, Names(p.indicators) + {"price"}, p.rules[k].when)
  {}

  lemma RebuiltRuleParses(lit: Reader, s: AStrategy, k: nat)
    requires Parse(lit, s).Some? && k < |s.rules|
    ensures var p, r := Parse(lit, s).value, Rebuilt(s).rules[k];
            && |p.rules| == |s.rules|
            && ParseRule(lit, r).Some?
            && ParseRule(lit, r).value.cooldownMinutes == p.rules[k].cooldownMinutes
            && SameAction(p.rules[k].do, ParseRule(lit, r).value.do)
            && TokensKnown(lit, Names(p.indicators) + {"price"}, ParseRule(lit, r).value.when)
  {
    ParsedRule(lit, s, k);
    assert Rebuilt(s).rules[k] == RebuiltRule(s.rules[k], k + 1);
    RebuiltRuleKeeps(lit, Names(Parse(lit, s).value.indicators) + {"price"}, s.rules[k], k + 1);
  }

  lemma RebuiltIndicatorsParse(lit: Reader, s: AStrategy, i: nat)
    requires lit("0") == Some(0.0) && Parse(lit, s).Some? && i < |s.indicators|
    ensures ParseIndicator(lit, Rebuilt(s).indicators[i]).Some?
    ensures SameIndicator(Parse(lit, s).value.indicators[i], ParseIndicator(lit, Rebuilt(s).indicators[i]).value)
  {
    assert Rebuilt(s).indicators[i] == RebuiltIndicator(s.indicators[i]);
    RebuiltIndicatorComputesTheSame(lit, s.indicators[i]);
  }

  lemma EditedStrategyIsAccepted(lit: Reader, s: AStrategy)
    requires lit("0") == Some(0.0) && Parse(lit, s).Some?
    ensures Parse(lit, Rebuilt(s)).Some?
    ensures SameButConditions(Parse(lit, s).value, Parse(lit, Rebuilt(s)).value)
  {
    var p, t := Parse(lit, s).value, Rebuilt(s);
    forall i | 0 <= i < |t.indicators|
      ensures ParseIndicator(lit, t.indicators[i]).Some?
      ensures SameIndicator(p.indicators[i], ParseIndicator(lit, t.indicators[i]).value)
    {
      RebuiltIndicatorsParse(lit, s, i);
    }
    forall k | 0 <= k < |t.rules|
      ensures ParseRule(lit, t.rules[k]).Some?
      ensures ParseRule(lit, t.rules[k]).value.cooldownMinutes == p.rules[k].cooldownMinutes
      ensures SameAction(p.rules[k].do, ParseRule(lit, t.rules[k]).value.do)
      ensures TokensKnown(lit, Names(p.indicators) + {"price"}, ParseRule(lit, t.rules[k]).value.when)
    {
      RebuiltRuleParses(lit, s, k);
    }
    var q := Params(t.symbol, Indicators(lit, t.indicators), Rules(lit, t.rules), lit);
    assert forall i :: 0 <= i < |p.indicators| ==> p.indicators[i].name == q.indicators[i].name;
    assert Names(q.indicators) == Names(p.indicators);
    assert WellNamed(q);
  }

  predicate Silent(r: ARule, number: nat) {
    ReadWhen(r.when, number).warnings == []
  }

  /** The list of complaints is empty exactly when no rule draws one. */
  lemma {:induction false} SilentRules(rules: seq<ARule>)
    ensures WarningsOf(rules) == [] <==> forall k :: 0 <= k < |rules| ==> Silent(rules[k], k + 1)
  {
    if rules != [] {
      var n := |rules| - 1;
      SilentRules(rules[..n]);
      var last := ReadWhen(rules[n].when, |rules|).warnings;
      assert WarningsOf(rules) == WarningsOf(rules[..n]) + last;
      assert last == [] <==> Silent(rules[n], n + 1);
      assert forall k :: 0 <= k < n ==> rules[..n][k] == rules[k];
    }
  }

  /** The editor's promise, on every strategy the engine accepts: if taking it into the editor draws
      no complaint, what the editor sends back runs exactly as authored, on every stream of bars. */
  lemma SilentEditRunsAlike(lit: Reader, s: AStrategy, bars: seq<Bar>)
    requires lit("0") == Some(0.0) && Parse(lit, s).Some? && WarningsOf(s.rules) == []
    ensures Parse(lit, Rebuilt(s)).Some?
    ensures var e, f := EngineOf(Parse(lit, s).value), EngineOf(Parse(lit, Rebuilt(s)).value);
            SameEngine(e, f) && forall i: nat :: i < |bars| ==> Out(e, bars, i) == Out(f, bars, i)
  {
    SilentRules(s.rules);
    forall k | 0 <= k < |s.rules| ensures OneKind(s.rules[k].when, ReadWhen(s.rules[k].when, k + 1).combinator) {
      ParsedRule(lit, s, k);
      assert Silent(s.rules[k], k + 1);
      RebuiltCondition(lit, Names(Parse(lit, s).value.indicators) + {"price"}, s.rules[k].when, k + 1);
    }
    OneKindEditRunsAlike(lit, s, bars);
  }

  /** The same for conditions the editor does complain of, when each is a nest of a single combinator. */
  lemma OneKindEditRunsAlike(lit: Reader, s: AStrategy, bars: seq<Bar>)
    requires lit("0") == Some(0.0) && Parse(lit, s).Some?
    requires forall k :: 0 <= k < |s.rules| ==> OneKind(s.rules[k].when, ReadWhen(s.rules[k].when, k + 1).combinator)
    ensures Parse(lit, Rebuilt(s)).Some?
    ensures var e, f := EngineOf(Parse(lit, s).value), EngineOf(Parse(lit, Rebuilt(s)).value);
            SameEngine(e, f) && forall i: nat :: i < |bars| ==> Out(e, bars, i) == Out(f, bars, i)
  {
    EditedStrategyIsAccepted(lit, s);
    var p, q := Parse(lit, s).value, Parse(lit, Rebuilt(s)).value;
    forall k | 0 <= k < |p.rules| ensures SameTruth(lit, p.rules[k].when, q.rules[k].when) {
      SameRebuiltTruth(lit, s, k);
    }
    SameParamsSameEngine(p, q);
    SameEngineRunsAlike(EngineOf(p), EngineOf(q), bars);
  }

  lemma SameRebuiltTruth(lit: Reader, s: AStrategy, k: nat)
    requires Parse(lit, s).Some? && Parse(lit, Rebuilt(s)).Some? && k < |s.rules|
    requires OneKind(s.rules[k].when, ReadWhen(s.rules[k].when, k + 1).combinator)
    ensures var p, q := Parse(lit, s).value, Parse(lit, Rebuilt(s)).value;
            k < |p.rules| && k < |q.rules| && SameTruth(lit, p.rules[k].when, q.rules[k].when)
  {
    ParsedRule(lit, s, k);
    ParsedRule(lit, Rebuilt(s), k);
    assert Rebuilt(s).rules[k] == RebuiltRule(s.rules[k], k + 1);
    RebuiltWhenMeansTheSame(lit, s.rules[k], k + 1, Names(Parse(lit, s).value.indicators) + {"price"});
  }

  lemma SameParamsSameEngine(p: Params, q: Params)
    requires p.Valid() && q.Valid() && SameButConditions(p, q)
    requires forall k :: 0 <= k < |p.rules| ==> SameTruth(p.lit, p.rules[k].when, q.rules[k].when)
    ensures SameEngine(EngineOf(p), EngineOf(q))
  {
    SameIndicatorsSameValues(p.indicators, q.indicators);
    forall k | 0 <= k < |p.rules| ensures SameSpec(EngineOf(p).rules[k], EngineOf(q).rules[k]) {
      assert SameAction(p.rules[k].do, q.rules[k].do) && SameTruth(p.lit, p.rules[k].when, q.rules[k].when);
    }
  }

  /** What the complaint is for: a negated comparison comes back as the comparison itself, true exactly
      when what was authored is false. */
  lemma {:induction false} NegationIsLost(lit: Reader, t: ACond, number: nat, cur: Vals, prev: Vals)
    requires IsCmp(t)
    ensures var w := ACond("not", None, None, Terms([t]));
            var r := ReadWhen(w, number);
            var row := RuleRow(r.combinator, r.terms, Buy, Market, "1", "", 0);
            && r.warnings == [Unrepresentable(number, "not")]
            && ParseCond(w).Some? && ParseCond(BuildWhen(row)).Some?
            && Eval(lit, ParseCond(BuildWhen(row)).value, cur, prev) == !Eval(lit, ParseCond(w).value, cur, prev)
  {
    var w := ACond("not", None, None, Terms([t]));
    assert ParseCond(t) == Some(Compare(OpOf(t.op).value, t.left.value, t.right.value));
    LeavesOfComparisons([t]);
    assert Leaves(w) == [Term(t)];
    ParsedTerm(Term(t));
  }

  // ------------------------------------------------- the editor's own strategies

  lemma {:induction false} ReadingABuiltWhen(r: RuleRow, number: nat)
    ensures var q := ReadWhen(BuildWhen(r), number);
            if r.terms == [] then q.terms == [PLACEHOLDER] && q.warnings == [NoCondition(number)]
            else q.terms == r.terms && q.warnings == [] && (|r.terms| > 1 ==> q.combinator == r.combinator)
  {
    var w, ts := BuildWhen(r), r.terms;
    if |ts| != 1 {
      forall i | 0 <= i < |ts| ensures IsCmp(w.terms.list[i]) && Term(w.terms.list[i]) == ts[i] {
        assert w.terms.list[i] == TermCond(ts[i]);
      }
      LeavesOfComparisons(w.terms.list);
      assert Leaves(w) == LeavesOfAll(w.terms.list) == ts;
    }
  }

  predicate HasTerms(r: RuleRow) {
    r.terms != []
  }

  predicate AllHaveTerms(rows: seq<RuleRow>) {
    forall k :: 0 <= k < |rows| ==> HasTerms(rows[k])
  }

  lemma RebuildingABuiltRule(r: RuleRow, number: nat)
    ensures RebuiltRule(BuildRule(r), number) == BuildRule(r) <==> HasTerms(r)
    ensures Silent(BuildRule(r), number) <==> HasTerms(r)
  {
    ReadingABuiltWhen(r, number);
    if r.terms == [] {
      assert BuildRule(r).when.terms.Terms? && RebuiltRule(BuildRule(r), number).when == TermCond(PLACEHOLDER);
    }
  }

  lemma {:induction false} BuiltRulesAreSilent(rules: seq<ARule>, rows: seq<RuleRow>)
    requires |rules| == |rows| && forall k :: 0 <= k < |rows| ==> rules[k] == BuildRule(rows[k])
    ensures WarningsOf(rules) == [] <==> AllHaveTerms(rows)
  {
    SilentRules(rules);
    forall k | 0 <= k < |rules| ensures Silent(rules[k], k + 1) <==> HasTerms(rows[k]) {
      RebuildingABuiltRule(rows[k], k + 1);
    }
  }

  lemma RebuiltRules(symbol: string, cfg: CustomCfg)
    ensures var s := BuildCustomRules(symbol, cfg);
            Rebuilt(s).rules == s.rules <==> AllHaveTerms(cfg.rules)
  {
    var s := BuildCustomRules(symbol, cfg);
    var t := Rebuilt(s);
    forall k | 0 <= k < |s.rules| ensures t.rules[k] == s.rules[k] <==> HasTerms(cfg.rules[k]) {
      RebuildingABuiltRule(cfg.rules[k], k + 1);
      assert t.rules[k] == RebuiltRule(s.rules[k], k + 1);
    }
    if t.rules == s.rules {
      assert forall k :: 0 <= k < |s.rules| ==> t.rules[k] == s.rules[k];
    }
  }

  /** Sending rows out and reading them back is silent, and sends out the same strategy again, exactly
      when every rule has a term. */
  lemma BuildingIsStable(symbol: string, cfg: CustomCfg)
    ensures Rebuilt(BuildCustomRules(symbol, cfg)) == BuildCustomRules(symbol, cfg) <==> AllHaveTerms(cfg.rules)
    ensures WarningsOf(BuildCustomRules(symbol, cfg).rules) == [] <==> AllHaveTerms(cfg.rules)
  {
    var s := BuildCustomRules(symbol, cfg);
    BuiltRulesAreSilent(s.rules, cfg.rules);
    RebuiltRules(symbol, cfg);
    var t := Rebuilt(s);
    forall i | 0 <= i < |s.indicators| ensures t.indicators[i] == s.indicators[i] {
      assert t.indicators[i] == RebuiltIndicator(BuildIndicator(cfg.indicators[i]));
    }
    assert t.indicators == s.indicators && t.symbol == s.symbol;
  }
}
