/** Edge-triggered rules over a sliding window, for any indicators and any conditions: what
    every run of such an engine does, whatever the functions in it compute. */
module EdgeRules {
  import opened Basics

  type Vals = map<string, Option<real>>

  /** A rule as the run loop sees it: a condition on current and previous values, a cooldown, an order. */
  datatype RuleSpec = RuleSpec(holds: (Vals, Vals) -> bool, cooldownMinutes: int, order: Bar -> Option<Intent>)

  /** An engine: its symbol, the closes it keeps, the values it reads off them, and its rules. */
  datatype Engine = Engine(symbol: string, window: int, values: seq<real> -> Vals, rules: seq<RuleSpec>)

  datatype State = State(closes: seq<real>, prevInd: Vals, truth: map<nat, bool>, fire: map<nat, int>)

  const INITIAL := State([], map[], map[], map[])

  predicate Accepts(e: Engine, bar: Bar) {
    bar.symbol == e.symbol && bar.close > 0.0
  }

  // --------------------------------------------------------------------- one bar

  /** Everything a rule looks at when a bar is judged. */
  datatype View = View(cur: Vals, prev: Vals, truth: map<nat, bool>, fire: map<nat, int>, bar: Bar)

  predicate Holds(r: RuleSpec, v: View) {
    r.holds(v.cur, v.prev)
  }

  predicate WasTrue(truth: map<nat, bool>, idx: nat) {
    idx in truth && truth[idx]
  }

  predicate Cooled(r: RuleSpec, fire: map<nat, int>, idx: nat, tsMs: int) {
    r.cooldownMinutes <= 0 || idx !in fire || tsMs - fire[idx] >= r.cooldownMinutes * 60000
  }

  /** A rule fires when its condition has just become true, it has cooled, and it has an order to make. */
  predicate Fires(r: RuleSpec, v: View, idx: nat) {
    Holds(r, v) && !WasTrue(v.truth, idx) && Cooled(r, v.fire, idx, v.bar.tsMs) && r.order(v.bar).Some?
  }

  /** The truths remembered after judging the first `n` rules. */
  function Truths(rs: seq<RuleSpec>, v: View, n: nat): map<nat, bool>
    requires n <= |rs|
  {
    if n == 0 then v.truth else Truths(rs, v, n - 1)[n - 1 := Holds(rs[n - 1], v)]
  }

  /** The fire times remembered after judging the first `n` rules. */
  function Fired(rs: seq<RuleSpec>, v: View, n: nat): map<nat, int>
    requires n <= |rs|
  {
    if n == 0 then v.fire
    else if Fires(rs[n - 1], v, n - 1) then Fired(rs, v, n - 1)[n - 1 := v.bar.tsMs]
    else Fired(rs, v, n - 1)
  }

  function Orders(rs: seq<RuleSpec>, v: View, n: nat): seq<Intent>
    requires n <= |rs|
  {
    if n == 0 then [] else
      Orders(rs, v, n - 1) + if Fires(rs[n - 1], v, n - 1) then [rs[n - 1].order(v.bar).value] else []
  }

  /** The trailing window after one more close. */
  function Slide(closes: seq<real>, close: real, w: int): seq<real> {
    var longer := closes + [close];
    if |longer| > w then longer[1..] else longer
  }

  function ViewOf(e: Engine, st: State, bar: Bar): View {
    View(e.values(Slide(st.closes, bar.close, e.window)), st.prevInd, st.truth, st.fire, bar)
  }

  /** One bar in closed form: every rule judged on the same view. */
  function Step(e: Engine, st: State, bar: Bar): (State, seq<Intent>) {
    if !Accepts(e, bar) then (st, []) else
      var v, n := ViewOf(e, st, bar), |e.rules|;
      (State(Slide(st.closes, bar.close, e.window), v.cur, Truths(e.rules, v, n), Fired(e.rules, v, n)),
       Orders(e.rules, v, n))
  }

  /** Judging the first `n` rules settles exactly those: each gets its own verdict, the others keep theirs. */
  lemma {:induction false} Judged(rs: seq<RuleSpec>, v: View, n: nat, idx: nat)
    requires n <= |rs|
    ensures idx < n ==> idx in Truths(rs, v, n) && Truths(rs, v, n)[idx] == Holds(rs[idx], v)
    ensures idx >= n ==> WasTrue(Truths(rs, v, n), idx) == WasTrue(v.truth, idx)
    ensures idx < n && Fires(rs[idx], v, idx) ==> idx in Fired(rs, v, n) && Fired(rs, v, n)[idx] == v.bar.tsMs
    ensures idx >= n || !Fires(rs[idx], v, idx) ==> SameEntry(Fired(rs, v, n), v.fire, idx)
  {
    if n > 0 {
      Judged(rs, v, n - 1, idx);
    }
  }

  predicate SameEntry(a: map<nat, int>, b: map<nat, int>, idx: nat) {
    (idx in a <==> idx in b) && (idx in a ==> a[idx] == b[idx])
  }

  /** An engine with a single rule: the whole bar at once. */
  lemma OneRuleStep(e: Engine, st: State, bar: Bar)
    requires |e.rules| == 1 && Accepts(e, bar)
    ensures var v, r, next := ViewOf(e, st, bar), e.rules[0], Step(e, st, bar);
            && next.0.closes == Slide(st.closes, bar.close, e.window)
            && next.0.prevInd == v.cur
            && next.0.truth == st.truth[0 := Holds(r, v)]
            && next.0.fire == (if Fires(r, v, 0) then st.fire[0 := bar.tsMs] else st.fire)
            && next.1 == (if Fires(r, v, 0) then [r.order(bar).value] else [])
  {
    var v := ViewOf(e, st, bar);
    assert Truths(e.rules, v, 0) == st.truth && Fired(e.rules, v, 0) == st.fire && Orders(e.rules, v, 0) == [];
  }

  // ----------------------------------------------------------------- whole runs

  function Run(e: Engine, bars: seq<Bar>): State
    requires e.window >= 1
  {
    if bars == [] then INITIAL else Step(e, Run(e, bars[..|bars| - 1]), bars[|bars| - 1]).0
  }

  /** The intents the run over `bars` emits at bar `i`. */
  function Out(e: Engine, bars: seq<Bar>, i: nat): seq<Intent>
    requires e.window >= 1 && i < |bars|
  {
    Step(e, Run(e, bars[..i]), bars[i]).1
  }

  function Closes(e: Engine, bars: seq<Bar>): seq<real> {
    if bars == [] then [] else
      Closes(e, bars[..|bars| - 1]) + if Accepts(e, bars[|bars| - 1]) then [bars[|bars| - 1].close] else []
  }

  /** The state remembers exactly the last `MaxWindow` accepted closes, and the values they gave. */
  lemma {:induction false} WindowIsLastCloses(e: Engine, bars: seq<Bar>)
    requires e.window >= 1
    ensures var st, all := Run(e, bars), Closes(e, bars);
            && st.closes == LastN(all, e.window)
            && st.prevInd == (if all == [] then map[] else e.values(LastN(all, e.window)))
  {
    if bars != [] {
      WindowIsLastCloses(e, bars[..|bars| - 1]);
      var st, bar, all := Run(e, bars[..|bars| - 1]), bars[|bars| - 1], Closes(e, bars[..|bars| - 1]);
      if Accepts(e, bar) {
        SlideIsLastN(all, bar.close, e.window);
      }
    }
  }

  /** On every run: a bar of another symbol, or without a positive close, changes nothing and emits nothing; any other
      enters the window. */
  lemma {:induction false} OnlyItsOwnBars(e: Engine, bars: seq<Bar>, bar: Bar)
    requires e.window >= 1
    ensures var own, st, next := bar.symbol == e.symbol && bar.close > 0.0, Run(e, bars), Run(e, bars + [bar]);
            && (own ==> next.closes == LastN(st.closes + [bar.close], e.window))
            && (!own ==> next == st && Out(e, bars + [bar], |bars|) == [])
  {
    assert (bars + [bar])[..|bars|] == bars;
    WindowIsLastCloses(e, bars);
  }

  lemma SlideIsLastN(all: seq<real>, close: real, w: int)
    requires w >= 1
    ensures Slide(LastN(all, w), close, w) == LastN(all + [close], w) != []
  {}

  lemma {:induction false} ClosesAppend(e: Engine, a: seq<Bar>, b: seq<Bar>)
    ensures Closes(e, a + b) == Closes(e, a) + Closes(e, b)
  {
    if b == [] {
      assert a + b == a;
    } else {
      assert (a + b)[..|a + b| - 1] == a + b[..|b| - 1];
      ClosesAppend(e, a, b[..|b| - 1]);
    }
  }

  // ------------------------------------------------------ mid-stream convergence

  /** How far a fresh run that has accepted `n` bars has caught up with the full-history run `x`:
      same window and values from the W-th accepted bar, same truths from the one after. */
  ghost predicate CaughtUp(e: Engine, n: nat, x: State, y: State) {
    && (n >= e.window ==> x.closes == y.closes && x.prevInd == y.prevInd)
    && (n >= e.window + 1 ==> forall k: nat :: k < |e.rules| ==> WasTrue(x.truth, k) == WasTrue(y.truth, k))
  }

  lemma {:induction false} SameValues(e: Engine, pre: seq<Bar>, suf: seq<Bar>)
    requires e.window >= 1 && |Closes(e, suf)| >= e.window
    ensures Run(e, pre + suf).closes == Run(e, suf).closes
    ensures Run(e, pre + suf).prevInd == Run(e, suf).prevInd
  {
    WindowIsLastCloses(e, pre + suf);
    WindowIsLastCloses(e, suf);
    ClosesAppend(e, pre, suf);
    assert LastN(Closes(e, pre) + Closes(e, suf), e.window) == LastN(Closes(e, suf), e.window);
  }

  lemma {:induction false} SameTruths(rs: seq<RuleSpec>, v: View, v': View, k: nat)
    requires v.cur == v'.cur && v.prev == v'.prev && k < |rs|
    ensures WasTrue(Truths(rs, v, |rs|), k) == WasTrue(Truths(rs, v', |rs|), k)
  {
    Judged(rs, v, |rs|, k);
    Judged(rs, v', |rs|, k);
  }

  lemma {:induction false} FreshRunCatchesUp(e: Engine, pre: seq<Bar>, suf: seq<Bar>)
    requires e.window >= 1
    ensures CaughtUp(e, |Closes(e, suf)|, Run(e, pre + suf), Run(e, suf))
  {
    if suf != [] {
      var init, bar := suf[..|suf| - 1], suf[|suf| - 1];
      assert (pre + suf)[..|pre + suf| - 1] == pre + init;
      FreshRunCatchesUp(e, pre, init);
      if |Closes(e, suf)| >= e.window {
        SameValues(e, pre, suf);
      }
      if |Closes(e, suf)| >= e.window + 1 && Accepts(e, bar) {
        var x, y := Run(e, pre + init), Run(e, init);
        forall k: nat | k < |e.rules|
          ensures WasTrue(Run(e, pre + suf).truth, k) == WasTrue(Run(e, suf).truth, k)
        {
          SameTruths(e.rules, ViewOf(e, x, bar), ViewOf(e, y, bar), k);
        }
      }
    }
  }

  predicate FiresIn(e: Engine, st: State, bar: Bar, idx: nat)
    requires idx < |e.rules|
  {
    Accepts(e, bar) && Fires(e.rules[idx], ViewOf(e, st, bar), idx)
  }

  /** Two runs agree on a rule when it needs no cooldown or they remember the same last fire. */
  ghost predicate SameMemory(e: Engine, x: State, y: State, idx: nat)
    requires idx < |e.rules|
  {
    || e.rules[idx].cooldownMinutes <= 0
    || (idx !in x.fire && idx !in y.fire)
    || (idx in x.fire && idx in y.fire && x.fire[idx] == y.fire[idx])
  }

  lemma SameView(e: Engine, x: State, y: State, bar: Bar, idx: nat)
    requires e.window >= 1 && Accepts(e, bar) && idx < |e.rules|
    requires x.closes == y.closes && x.prevInd == y.prevInd && WasTrue(x.truth, idx) == WasTrue(y.truth, idx)
    requires SameMemory(e, x, y, idx)
    ensures FiresIn(e, x, bar, idx) == FiresIn(e, y, bar, idx)
    ensures SameMemory(e, Step(e, x, bar).0, Step(e, y, bar).0, idx)
  {
    Judged(e.rules, ViewOf(e, x, bar), |e.rules|, idx);
    Judged(e.rules, ViewOf(e, y, bar), |e.rules|, idx);
  }

  lemma {:induction false} SameOrders(rs: seq<RuleSpec>, v: View, v': View, n: nat)
    requires v.bar == v'.bar && n <= |rs|
    requires forall i: nat :: i < n ==> Fires(rs[i], v, i) == Fires(rs[i], v', i)
    ensures Orders(rs, v, n) == Orders(rs, v', n)
  {
    if n > 0 { SameOrders(rs, v, v', n - 1); }
  }

  /** Mid-stream convergence: with no cooldowns, a run started fresh on any suffix of any stream
      emits, from its (W+2)-th accepted bar on, exactly the intents of the full-history run. */
  lemma {:induction false} MidStreamConvergence(e: Engine, pre: seq<Bar>, suf: seq<Bar>, i: nat)
    requires e.window >= 1 && i < |suf|
    requires forall k: nat :: k < |e.rules| ==> e.rules[k].cooldownMinutes <= 0
    requires |Closes(e, suf[..i])| >= e.window + 1
    ensures Out(e, pre + suf, |pre| + i) == Out(e, suf, i)
  {
    assert (pre + suf)[..|pre| + i] == pre + suf[..i];
    FreshRunCatchesUp(e, pre, suf[..i]);
    var x, y, bar := Run(e, pre + suf[..i]), Run(e, suf[..i]), suf[i];
    if Accepts(e, bar) {
      forall k: nat | k < |e.rules| ensures FiresIn(e, x, bar, k) == FiresIn(e, y, bar, k) {
        SameView(e, x, y, bar, k);
      }
      SameOrders(e.rules, ViewOf(e, x, bar), ViewOf(e, y, bar), |e.rules|);
    }
  }

  /** With cooldowns: once warmed up, a rule on which the two runs remember the same last fire is
      agreed on by both for ever. */
  lemma {:induction false} AgreementIsPermanent(e: Engine, pre: seq<Bar>, suf: seq<Bar>, i: nat, j: nat, idx: nat)
    requires e.window >= 1 && i <= j < |suf| && idx < |e.rules|
    requires |Closes(e, suf[..i])| >= e.window + 1
    requires SameMemory(e, Run(e, pre + suf[..i]), Run(e, suf[..i]), idx)
    ensures SameMemory(e, Run(e, pre + suf[..j]), Run(e, suf[..j]), idx)
    ensures FiresIn(e, Run(e, pre + suf[..j]), suf[j], idx) == FiresIn(e, Run(e, suf[..j]), suf[j], idx)
  {
    MemoryLasts(e, pre, suf, i, j, idx);
    ClosesGrow(e, suf, i, j);
    AgreementStep(e, pre, suf, j, idx);
  }

  lemma {:induction false} MemoryLasts(e: Engine, pre: seq<Bar>, suf: seq<Bar>, i: nat, j: nat, idx: nat)
    requires e.window >= 1 && i <= j < |suf| && idx < |e.rules|
    requires |Closes(e, suf[..i])| >= e.window + 1
    requires SameMemory(e, Run(e, pre + suf[..i]), Run(e, suf[..i]), idx)
    ensures SameMemory(e, Run(e, pre + suf[..j]), Run(e, suf[..j]), idx)
    decreases j
  {
    if i < j {
      MemoryLasts(e, pre, suf, i, j - 1, idx);
      ClosesGrow(e, suf, i, j - 1);
      AgreementStep(e, pre, suf, j - 1, idx);
    }
  }

  lemma {:induction false} AgreementStep(e: Engine, pre: seq<Bar>, suf: seq<Bar>, j: nat, idx: nat)
    requires e.window >= 1 && j < |suf| && idx < |e.rules|
    requires |Closes(e, suf[..j])| >= e.window + 1
    requires SameMemory(e, Run(e, pre + suf[..j]), Run(e, suf[..j]), idx)
    ensures FiresIn(e, Run(e, pre + suf[..j]), suf[j], idx) == FiresIn(e, Run(e, suf[..j]), suf[j], idx)
    ensures SameMemory(e, Run(e, pre + suf[..j + 1]), Run(e, suf[..j + 1]), idx)
  {
    FreshRunCatchesUp(e, pre, suf[..j]);
    assert suf[..j + 1][..j] == suf[..j];
    assert (pre + suf[..j + 1])[..|pre| + j] == pre + suf[..j];
    if Accepts(e, suf[j]) {
      SameView(e, Run(e, pre + suf[..j]), Run(e, suf[..j]), suf[j], idx);
    }
  }

  lemma {:induction false} ClosesGrow(e: Engine, bars: seq<Bar>, i: nat, j: nat)
    requires i <= j <= |bars|
    ensures |Closes(e, bars[..i])| <= |Closes(e, bars[..j])|
  {
    assert bars[..j] == bars[..i] + bars[i..j];
    ClosesAppend(e, bars[..i], bars[i..j]);
  }

  /** Rule `idx` would now rise with an order to make: it lacks only its cooldown. */
  predicate WouldFire(e: Engine, st: State, bar: Bar, idx: nat)
    requires idx < |e.rules|
  {
    && Accepts(e, bar) && Holds(e.rules[idx], ViewOf(e, st, bar)) && !WasTrue(st.truth, idx)
    && e.rules[idx].order(bar).Some?
  }

  predicate CooledIn(e: Engine, st: State, tsMs: int, idx: nat)
    requires idx < |e.rules|
  {
    Cooled(e.rules[idx], st.fire, idx, tsMs)
  }

  /** With cooldowns, exactly when a warmed-up fresh run and the full-history run part on a rule at a bar: when
      the rule would fire there, and has cooled in one of them and not in the other. */
  lemma {:induction false} DisagreementIsACooldown(e: Engine, pre: seq<Bar>, suf: seq<Bar>, i: nat, idx: nat)
    requires e.window >= 1 && i < |suf| && idx < |e.rules|
    requires |Closes(e, suf[..i])| >= e.window + 1
    ensures var x, y, bar := Run(e, pre + suf[..i]), Run(e, suf[..i]), suf[i];
            && WouldFire(e, x, bar, idx) == WouldFire(e, y, bar, idx)
            && (FiresIn(e, x, bar, idx) != FiresIn(e, y, bar, idx)
                <==> WouldFire(e, y, bar, idx) && CooledIn(e, x, bar.tsMs, idx) != CooledIn(e, y, bar.tsMs, idx))
  {
    FreshRunCatchesUp(e, pre, suf[..i]);
  }

  // ------------------------------------------- any two runs that see the same truths

  predicate HoldsIn(e: Engine, st: State, bar: Bar, idx: nat)
    requires idx < |e.rules|
  {
    Holds(e.rules[idx], ViewOf(e, st, bar))
  }

  /** Two runs with any pasts see the rule's condition alike on bar `t`, if they accept it. */
  ghost predicate SeeAlikeOn(e: Engine, a: seq<Bar>, b: seq<Bar>, suf: seq<Bar>, t: nat, idx: nat)
    requires e.window >= 1 && t < |suf| && idx < |e.rules|
  {
    Accepts(e, suf[t]) ==>
      HoldsIn(e, Run(e, a + suf[..t]), suf[t], idx) == HoldsIn(e, Run(e, b + suf[..t]), suf[t], idx)
  }

  /** They do on each bar from `i` up to `j`. */
  ghost predicate SeeAlike(e: Engine, a: seq<Bar>, b: seq<Bar>, suf: seq<Bar>, i: nat, j: nat, idx: nat)
    requires e.window >= 1 && i <= j <= |suf| && idx < |e.rules|
  {
    forall t :: i <= t < j ==> SeeAlikeOn(e, a, b, suf, t, idx)
  }

  ghost predicate ForwardFrom(bars: seq<Bar>, i: nat) {
    forall t, u :: i <= t <= u < |bars| ==> bars[t].tsMs <= bars[u].tsMs
  }

  /** At time `tsMs` the two states treat the rule alike: the same last truth, and either the same last fire
      or both cooled. */
  ghost predicate OfOneMind(e: Engine, x: State, y: State, tsMs: int, idx: nat)
    requires idx < |e.rules|
  {
    && WasTrue(x.truth, idx) == WasTrue(y.truth, idx)
    && (SameMemory(e, x, y, idx) || (CooledIn(e, x, tsMs, idx) && CooledIn(e, y, tsMs, idx)))
  }

  lemma OfOneMindStep(e: Engine, x: State, y: State, bar: Bar, later: int, idx: nat)
    requires idx < |e.rules| && OfOneMind(e, x, y, bar.tsMs, idx) && bar.tsMs <= later
    requires Accepts(e, bar) ==> HoldsIn(e, x, bar, idx) == HoldsIn(e, y, bar, idx)
    ensures FiresIn(e, x, bar, idx) == FiresIn(e, y, bar, idx)
    ensures OfOneMind(e, Step(e, x, bar).0, Step(e, y, bar).0, later, idx)
  {
    if Accepts(e, bar) {
      Judged(e.rules, ViewOf(e, x, bar), |e.rules|, idx);
      Judged(e.rules, ViewOf(e, y, bar), |e.rules|, idx);
    }
  }

  /** The two runs are of one mind about the rule as bar `j` arrives. */
  ghost predicate OneMindAt(e: Engine, a: seq<Bar>, b: seq<Bar>, suf: seq<Bar>, j: nat, idx: nat)
    requires e.window >= 1 && j < |suf| && idx < |e.rules|
  {
    OfOneMind(e, Run(e, a + suf[..j]), Run(e, b + suf[..j]), suf[j].tsMs, idx)
  }

  lemma {:induction false} OneMindFires(e: Engine, a: seq<Bar>, b: seq<Bar>, suf: seq<Bar>, j: nat, idx: nat)
    requires e.window >= 1 && j < |suf| && idx < |e.rules|
    requires OneMindAt(e, a, b, suf, j, idx) && SeeAlikeOn(e, a, b, suf, j, idx)
    ensures FiresIn(e, Run(e, a + suf[..j]), suf[j], idx) == FiresIn(e, Run(e, b + suf[..j]), suf[j], idx)
  {
    OfOneMindStep(e, Run(e, a + suf[..j]), Run(e, b + suf[..j]), suf[j], suf[j].tsMs, idx);
  }

  lemma {:induction false} OneMindNext(e: Engine, a: seq<Bar>, b: seq<Bar>, suf: seq<Bar>, j: nat, idx: nat)
    requires e.window >= 1 && j + 1 < |suf| && idx < |e.rules| && suf[j].tsMs <= suf[j + 1].tsMs
    requires OneMindAt(e, a, b, suf, j, idx) && SeeAlikeOn(e, a, b, suf, j, idx)
    ensures OneMindAt(e, a, b, suf, j + 1, idx)
  {
    RunSnoc(e, a, suf, j);
    RunSnoc(e, b, suf, j);
    OfOneMindStep(e, Run(e, a + suf[..j]), Run(e, b + suf[..j]), suf[j], suf[j + 1].tsMs, idx);
  }

  lemma {:induction false} OneMindStays(e: Engine, a: seq<Bar>, b: seq<Bar>, suf: seq<Bar>, i: nat, j: nat, idx: nat)
    requires e.window >= 1 && i <= j < |suf| && idx < |e.rules|
    requires ForwardFrom(suf, i) && OneMindAt(e, a, b, suf, i, idx) && SeeAlike(e, a, b, suf, i, j, idx)
    ensures OneMindAt(e, a, b, suf, j, idx)
    decreases j
  {
    if i < j {
      OneMindStays(e, a, b, suf, i, j - 1, idx);
      OneMindNext(e, a, b, suf, j - 1, idx);
    }
  }

  /** Once of one mind about a rule, two runs that go on seeing its condition alike agree on it at every
      later bar. */
  lemma {:induction false} OneMindLasts(e: Engine, a: seq<Bar>, b: seq<Bar>, suf: seq<Bar>, i: nat, j: nat, idx: nat)
    requires e.window >= 1 && i <= j < |suf| && idx < |e.rules|
    requires SeeAlike(e, a, b, suf, i, j + 1, idx) && ForwardFrom(suf, i)
    requires OneMindAt(e, a, b, suf, i, idx)
    ensures OneMindAt(e, a, b, suf, j, idx)
    ensures FiresIn(e, Run(e, a + suf[..j]), suf[j], idx) == FiresIn(e, Run(e, b + suf[..j]), suf[j], idx)
  {
    OneMindStays(e, a, b, suf, i, j, idx);
    OneMindFires(e, a, b, suf, j, idx);
  }

  lemma {:induction false} RunSnoc(e: Engine, pre: seq<Bar>, suf: seq<Bar>, j: nat)
    requires e.window >= 1 && j < |suf|
    ensures Run(e, pre + suf[..j + 1]) == Step(e, Run(e, pre + suf[..j]), suf[j]).0
  {
    assert (pre + suf[..j + 1])[..|pre| + j] == pre + suf[..j];
  }

  lemma {:induction false} BothFire(e: Engine, x: State, y: State, bar: Bar, idx: nat)
    requires idx < |e.rules| && FiresIn(e, x, bar, idx) && FiresIn(e, y, bar, idx)
    ensures SameRemembered(e, Step(e, x, bar).0, Step(e, y, bar).0, idx)
  {
    Judged(e.rules, ViewOf(e, x, bar), |e.rules|, idx);
    Judged(e.rules, ViewOf(e, y, bar), |e.rules|, idx);
  }

  /** The same last fire and the same last truth. */
  ghost predicate SameRemembered(e: Engine, x: State, y: State, idx: nat)
    requires idx < |e.rules|
  {
    SameMemory(e, x, y, idx) && WasTrue(x.truth, idx) == WasTrue(y.truth, idx)
  }

  lemma {:induction false} SameRememberedStep(e: Engine, x: State, y: State, bar: Bar, idx: nat)
    requires idx < |e.rules| && SameRemembered(e, x, y, idx)
    requires Accepts(e, bar) ==> HoldsIn(e, x, bar, idx) == HoldsIn(e, y, bar, idx)
    ensures FiresIn(e, x, bar, idx) == FiresIn(e, y, bar, idx)
    ensures SameRemembered(e, Step(e, x, bar).0, Step(e, y, bar).0, idx)
  {
    if Accepts(e, bar) {
      Judged(e.rules, ViewOf(e, x, bar), |e.rules|, idx);
      Judged(e.rules, ViewOf(e, y, bar), |e.rules|, idx);
    }
  }

  lemma {:induction false} FiringTogetherRemembers(e: Engine, a: seq<Bar>, b: seq<Bar>, suf: seq<Bar>, i: nat,
      j: nat, idx: nat)
    requires e.window >= 1 && i < j <= |suf| && idx < |e.rules|
    requires FiresIn(e, Run(e, a + suf[..i]), suf[i], idx) && FiresIn(e, Run(e, b + suf[..i]), suf[i], idx)
    requires SeeAlike(e, a, b, suf, i + 1, j, idx)
    ensures SameRemembered(e, Run(e, a + suf[..j]), Run(e, b + suf[..j]), idx)
    decreases j
  {
    if i + 1 < j {
      FiringTogetherRemembers(e, a, b, suf, i, j - 1, idx);
      assert SeeAlikeOn(e, a, b, suf, j - 1, idx);
      RememberedOneMore(e, a, b, suf, j - 1, idx);
    } else {
      RunSnoc(e, a, suf, i);
      RunSnoc(e, b, suf, i);
      BothFire(e, Run(e, a + suf[..i]), Run(e, b + suf[..i]), suf[i], idx);
    }
  }

  lemma {:induction false} RememberedOneMore(e: Engine, a: seq<Bar>, b: seq<Bar>, suf: seq<Bar>, j: nat, idx: nat)
    requires e.window >= 1 && j < |suf| && idx < |e.rules| && SeeAlikeOn(e, a, b, suf, j, idx)
    requires SameRemembered(e, Run(e, a + suf[..j]), Run(e, b + suf[..j]), idx)
    ensures SameRemembered(e, Run(e, a + suf[..j + 1]), Run(e, b + suf[..j + 1]), idx)
  {
    RunSnoc(e, a, suf, j);
    RunSnoc(e, b, suf, j);
    SameRememberedStep(e, Run(e, a + suf[..j]), Run(e, b + suf[..j]), suf[j], idx);
  }

  /** In particular, whatever their pasts and with no assumption on the clock, two runs in which the rule fires on
      one bar and that see its condition alike from then on agree on it from then on. */
  lemma {:induction false} FiringTogetherAgrees(e: Engine, a: seq<Bar>, b: seq<Bar>, suf: seq<Bar>, i: nat, j: nat,
      idx: nat)
    requires e.window >= 1 && i < j < |suf| && idx < |e.rules|
    requires FiresIn(e, Run(e, a + suf[..i]), suf[i], idx) && FiresIn(e, Run(e, b + suf[..i]), suf[i], idx)
    requires SeeAlike(e, a, b, suf, i + 1, j + 1, idx)
    ensures FiresIn(e, Run(e, a + suf[..j]), suf[j], idx) == FiresIn(e, Run(e, b + suf[..j]), suf[j], idx)
  {
    FiringTogetherRemembers(e, a, b, suf, i, j, idx);
    assert SeeAlikeOn(e, a, b, suf, j, idx);
    SameRememberedStep(e, Run(e, a + suf[..j]), Run(e, b + suf[..j]), suf[j], idx);
  }

  lemma {:induction false} WarmedUpSeeAlike(e: Engine, pre: seq<Bar>, suf: seq<Bar>, i: nat, j: nat, idx: nat)
    requires e.window >= 1 && i <= j <= |suf| && idx < |e.rules|
    requires |Closes(e, suf[..i])| >= e.window + 1
    ensures SeeAlike(e, pre, [], suf, i, j, idx)
  {
    forall t | i <= t < j ensures SeeAlikeOn(e, pre, [], suf, t, idx) {
      ClosesGrow(e, suf, i, t);
      FreshRunCatchesUp(e, pre, suf[..t]);
      assert [] + suf[..t] == suf[..t];
    }
  }

  /** When a bot with cooldowns does converge: from a bar where the fresh run is warmed up and the two runs remember
      the same last fire or have both cooled, on a clock that does not run backwards, they agree for ever. */
  lemma {:induction false} CooledRunsConverge(e: Engine, pre: seq<Bar>, suf: seq<Bar>, i: nat, j: nat, idx: nat)
    requires e.window >= 1 && i <= j < |suf| && idx < |e.rules|
    requires |Closes(e, suf[..i])| >= e.window + 1 && ForwardFrom(suf, i)
    requires var x, y := Run(e, pre + suf[..i]), Run(e, suf[..i]);
             SameMemory(e, x, y, idx) || (CooledIn(e, x, suf[i].tsMs, idx) && CooledIn(e, y, suf[i].tsMs, idx))
    ensures FiresIn(e, Run(e, pre + suf[..j]), suf[j], idx) == FiresIn(e, Run(e, suf[..j]), suf[j], idx)
  {
    WarmedUpSeeAlike(e, pre, suf, i, j + 1, idx);
    FreshRunCatchesUp(e, pre, suf[..i]);
    assert [] + suf[..i] == suf[..i] && [] + suf[..j] == suf[..j];
    OneMindLasts(e, pre, [], suf, i, j, idx);
  }

  /** So whole runs converge: when that holds of every rule, the two runs emit the same intents from there on. */
  lemma {:induction false} CooledRunsEmitAlike(e: Engine, pre: seq<Bar>, suf: seq<Bar>, i: nat, j: nat)
    requires e.window >= 1 && i <= j < |suf|
    requires |Closes(e, suf[..i])| >= e.window + 1 && ForwardFrom(suf, i)
    requires var x, y := Run(e, pre + suf[..i]), Run(e, suf[..i]);
             forall k: nat :: k < |e.rules| ==>
               SameMemory(e, x, y, k) || (CooledIn(e, x, suf[i].tsMs, k) && CooledIn(e, y, suf[i].tsMs, k))
    ensures Out(e, pre + suf, |pre| + j) == Out(e, suf, j)
  {
    assert (pre + suf)[..|pre| + j] == pre + suf[..j];
    var x, y, bar := Run(e, pre + suf[..j]), Run(e, suf[..j]), suf[j];
    if Accepts(e, bar) {
      forall k: nat | k < |e.rules|
        ensures Fires(e.rules[k], ViewOf(e, x, bar), k) == Fires(e.rules[k], ViewOf(e, y, bar), k)
      {
        CooledRunsConverge(e, pre, suf, i, j, k);
      }
      SameOrders(e.rules, ViewOf(e, x, bar), ViewOf(e, y, bar), |e.rules|);
    }
  }

  // ------------------------------------------------------------ firing discipline

  /** Rule `idx` fires at bar `t` of the run; its condition holds there. */
  predicate FiresAt(e: Engine, bars: seq<Bar>, t: nat, idx: nat)
    requires e.window >= 1 && t < |bars| && idx < |e.rules|
  {
    FiresIn(e, Run(e, bars[..t]), bars[t], idx)
  }

  predicate HoldsAt(e: Engine, bars: seq<Bar>, t: nat, idx: nat)
    requires e.window >= 1 && t < |bars| && idx < |e.rules| && Accepts(e, bars[t])
  {
    Holds(e.rules[idx], ViewOf(e, Run(e, bars[..t]), bars[t]))
  }

  /** Whether the condition held on the last accepted bar before `t`. */
  predicate HeldBefore(e: Engine, bars: seq<Bar>, t: nat, idx: nat)
    requires e.window >= 1 && t <= |bars| && idx < |e.rules|
  {
    t > 0 && if Accepts(e, bars[t - 1]) then HoldsAt(e, bars, t - 1, idx) else HeldBefore(e, bars, t - 1, idx)
  }

  lemma {:induction false} TruthIsMemory(e: Engine, bars: seq<Bar>, t: nat, idx: nat)
    requires e.window >= 1 && t <= |bars| && idx < |e.rules|
    ensures WasTrue(Run(e, bars[..t]).truth, idx) == HeldBefore(e, bars, t, idx)
    decreases t
  {
    if t > 0 {
      TruthIsMemory(e, bars, t - 1, idx);
      assert bars[..t][..t - 1] == bars[..t - 1];
      Judged(e.rules, ViewOf(e, Run(e, bars[..t - 1]), bars[t - 1]), |e.rules|, idx);
    }
  }

  /** The time of the last bar before `t` on which the rule fired. */
  function LastFire(e: Engine, bars: seq<Bar>, t: nat, idx: nat): Option<int>
    requires e.window >= 1 && t <= |bars| && idx < |e.rules|
  {
    if t == 0 then None
    else if FiresAt(e, bars, t - 1, idx) then Some(bars[t - 1].tsMs) else LastFire(e, bars, t - 1, idx)
  }

  lemma {:induction false} FireIsMemory(e: Engine, bars: seq<Bar>, t: nat, idx: nat)
    requires e.window >= 1 && t <= |bars| && idx < |e.rules|
    ensures var fire := Run(e, bars[..t]).fire;
            LastFire(e, bars, t, idx) == if idx in fire then Some(fire[idx]) else None
    decreases t
  {
    if t > 0 {
      FireIsMemory(e, bars, t - 1, idx);
      assert bars[..t][..t - 1] == bars[..t - 1];
      Judged(e.rules, ViewOf(e, Run(e, bars[..t - 1]), bars[t - 1]), |e.rules|, idx);
    }
  }

  /** Edge triggering, exactly: a rule fires on the accepted bars where its condition holds, did not hold on the
      accepted bar before, an order can be made, and no fire was less than its cooldown ago, if it has one. */
  lemma {:induction false} FiresOnRisingEdges(e: Engine, bars: seq<Bar>, t: nat, idx: nat)
    requires e.window >= 1 && t < |bars| && idx < |e.rules|
    ensures var last, cooldown := LastFire(e, bars, t, idx), e.rules[idx].cooldownMinutes;
            FiresAt(e, bars, t, idx) <==>
              && Accepts(e, bars[t]) && HoldsAt(e, bars, t, idx) && !HeldBefore(e, bars, t, idx)
              && e.rules[idx].order(bars[t]).Some?
              && !(cooldown > 0 && last.Some? && bars[t].tsMs - last.value < cooldown * 60000)
  {
    TruthIsMemory(e, bars, t, idx);
    FireIsMemory(e, bars, t, idx);
  }

  lemma {:induction false} HeldThroughout(e: Engine, bars: seq<Bar>, s: nat, t: nat, idx: nat)
    requires e.window >= 1 && s < t <= |bars| && idx < |e.rules|
    requires Accepts(e, bars[s]) && HoldsAt(e, bars, s, idx)
    requires forall u: nat :: s < u < t && Accepts(e, bars[u]) ==> HoldsAt(e, bars, u, idx)
    ensures HeldBefore(e, bars, t, idx)
    decreases t
  {
    if s < t - 1 && !Accepts(e, bars[t - 1]) {
      HeldThroughout(e, bars, s, t - 1, idx);
    }
  }

  lemma {:induction false} FireIsRemembered(e: Engine, bars: seq<Bar>, s: nat, t: nat, idx: nat)
    requires e.window >= 1 && s < t <= |bars| && idx < |e.rules|
    requires FiresAt(e, bars, s, idx) && e.rules[idx].cooldownMinutes > 0
    ensures idx in Run(e, bars[..t]).fire && Run(e, bars[..t]).fire[idx] >= bars[s].tsMs
    decreases t
  {
    assert bars[..t][..t - 1] == bars[..t - 1];
    Judged(e.rules, ViewOf(e, Run(e, bars[..t - 1]), bars[t - 1]), |e.rules|, idx);
    if s < t - 1 {
      FireIsRemembered(e, bars, s, t - 1, idx);
    }
  }

  /** Firing discipline: between any two fires of a rule some accepted bar had its condition
      false, and with a cooldown the fires are at least that far apart in bar time. */
  lemma FiringDiscipline(e: Engine, bars: seq<Bar>, s: nat, t: nat, idx: nat)
    requires e.window >= 1 && s < t < |bars| && idx < |e.rules|
    requires FiresAt(e, bars, s, idx) && FiresAt(e, bars, t, idx)
    ensures exists u: nat :: s < u < t && Accepts(e, bars[u]) && !HoldsAt(e, bars, u, idx)
    ensures e.rules[idx].cooldownMinutes > 0 ==> bars[t].tsMs - bars[s].tsMs >= e.rules[idx].cooldownMinutes * 60000
  {
    TruthIsMemory(e, bars, t, idx);
    if forall u: nat :: s < u < t && Accepts(e, bars[u]) ==> HoldsAt(e, bars, u, idx) {
      HeldThroughout(e, bars, s, t, idx);
      assert false;
    }
    if e.rules[idx].cooldownMinutes > 0 {
      FireIsRemembered(e, bars, s, t, idx);
    }
  }

  // ------------------------------------------------- engines that cannot be told apart

  ghost predicate SameSpec(r: RuleSpec, s: RuleSpec) {
    && r.cooldownMinutes == s.cooldownMinutes
    && (forall cur: Vals, prev: Vals :: r.holds(cur, prev) == s.holds(cur, prev))
    && (forall bar: Bar :: r.order(bar) == s.order(bar))
  }

  ghost predicate SameEngine(e: Engine, f: Engine) {
    && e.symbol == f.symbol && e.window == f.window && |e.rules| == |f.rules|
    && (forall closes: seq<real> :: e.values(closes) == f.values(closes))
    && (forall k :: 0 <= k < |e.rules| ==> SameSpec(e.rules[k], f.rules[k]))
  }

  lemma {:induction false} SameVerdicts(rs: seq<RuleSpec>, ss: seq<RuleSpec>, v: View, n: nat)
    requires n <= |rs| == |ss| && forall k :: 0 <= k < |rs| ==> SameSpec(rs[k], ss[k])
    ensures Truths(rs, v, n) == Truths(ss, v, n) && Fired(rs, v, n) == Fired(ss, v, n)
            && Orders(rs, v, n) == Orders(ss, v, n)
  {
    if n > 0 {
      SameVerdicts(rs, ss, v, n - 1);
      assert SameSpec(rs[n - 1], ss[n - 1]);
    }
  }

  /** Engines that agree on every input of their parts run alike on every stream. */
  lemma {:induction false} SameEngineRunsAlike(e: Engine, f: Engine, bars: seq<Bar>)
    requires SameEngine(e, f) && e.window >= 1
    ensures Run(e, bars) == Run(f, bars)
    ensures forall i: nat :: i < |bars| ==> Out(e, bars, i) == Out(f, bars, i)
    decreases |bars|
  {
    if bars != [] {
      var n := |bars| - 1;
      SameEngineRunsAlike(e, f, bars[..n]);
      SameVerdicts(e.rules, f.rules, ViewOf(e, Run(e, bars[..n]), bars[n]), |e.rules|);
      forall i: nat | i < |bars| ensures Out(e, bars, i) == Out(f, bars, i) {
        if i < n {
          assert bars[..n][..i] == bars[..i];
          assert Out(e, bars[..n], i) == Out(f, bars[..n], i);
        }
      }
    }
  }
}
