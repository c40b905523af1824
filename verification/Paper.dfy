/** The paper exchange: an in-memory book of resting limit orders, a table of
    marks, and fills priced with slippage and a fee. */
module Paper {
  import opened Basics

  datatype Config = Config(slippageBps: int, feeBps: int)

  datatype Resting = Resting(id: nat, intent: Intent)

  /** The adapter's state. The resting dictionary keeps insertion order, so it is a sequence. */
  datatype Book = Book(marks: map<string, real>, resting: seq<Resting>, nextId: nat)

  datatype Status = Submitted | Filled | Rejected

  datatype Placement = Placement(orderId: nat, intent: Intent, status: Status, fills: seq<Fill>)

  const EMPTY_BOOK := Book(map[], [], 0)

  // ---------------------------------------------------------------- prices

  function Slipped(cfg: Config, mark: real, side: Side): real {
    var adj := mark * cfg.slippageBps as real / 10000.0;
    if side.Buy? then mark + adj else mark - adj
  }

  function BuildFill(cfg: Config, fillId: nat, orderId: nat, i: Intent, price: real): Fill {
    Fill(fillId, orderId, i.symbol, i.side, i.quantity, price,
         i.quantity * price * cfg.feeBps as real / 10000.0)
  }

  predicate Crossed(i: Intent, symbol: string, mark: real) {
    && i.symbol == symbol
    && i.limitPrice.Some?
    && (if i.side.Buy? then mark <= i.limitPrice.value else mark >= i.limitPrice.value)
  }

  function LimitFillPrice(cfg: Config, i: Intent, mark: real): real
    requires i.limitPrice.Some?
  {
    var limit := i.limitPrice.value;
    var better := if i.side.Buy? then (if mark <= limit then mark else limit)
                  else if mark >= limit then mark else limit;
    Slipped(cfg, better, i.side)
  }

  // ------------------------------------------------------ operations on a book

  function Place(cfg: Config, b: Book, i: Intent): (Book, Placement) {
    var id := b.nextId;
    if i.kind.Market? then
      if i.symbol !in b.marks || b.marks[i.symbol] <= 0.0 then
        (b.(nextId := id + 1), Placement(id, i, Rejected, []))
      else
        var price := Slipped(cfg, b.marks[i.symbol], i.side);
        (b.(nextId := id + 2), Placement(id, i, Filled, [BuildFill(cfg, id + 1, id, i, price)]))
    else
      (b.(nextId := id + 1, resting := b.resting + [Resting(id, i)]), Placement(id, i, Submitted, []))
  }

  function Kept(rs: seq<Resting>, symbol: string, mark: real): seq<Resting> {
    if rs == [] then [] else
      var last := rs[|rs| - 1];
      Kept(rs[..|rs| - 1], symbol, mark) + if Crossed(last.intent, symbol, mark) then [] else [last]
  }

  function Matched(cfg: Config, rs: seq<Resting>, symbol: string, mark: real, fillId: nat): seq<Fill> {
    if rs == [] then [] else
      var last := rs[|rs| - 1];
      var before := Matched(cfg, rs[..|rs| - 1], symbol, mark, fillId);
      if Crossed(last.intent, symbol, mark) then
        before + [BuildFill(cfg, fillId + |before|, last.id, last.intent, LimitFillPrice(cfg, last.intent, mark))]
      else before
  }

  function UpdateMark(cfg: Config, b: Book, symbol: string, price: real): (Book, seq<Fill>) {
    var fills := Matched(cfg, b.resting, symbol, price, b.nextId);
    (Book(b.marks[symbol := price], Kept(b.resting, symbol, price), b.nextId + |fills|), fills)
  }

  function Without(rs: seq<Resting>, id: nat): seq<Resting> {
    if rs == [] then [] else
      var last := rs[|rs| - 1];
      Without(rs[..|rs| - 1], id) + if last.id == id then [] else [last]
  }

  function Cancel(b: Book, id: nat): Book {
    b.(resting := Without(b.resting, id))
  }

  // ------------------------------------------------------------- well-formedness

  function Ids(rs: seq<Resting>): set<nat> {
    set r | r in rs :: r.id
  }

  function OrderIds(fs: seq<Fill>): set<nat> {
    set f | f in fs :: f.orderId
  }

  ghost predicate DistinctIds(rs: seq<Resting>) {
    forall i, j :: 0 <= i < j < |rs| ==> rs[i].id != rs[j].id
  }

  ghost predicate Wf(b: Book) {
    DistinctIds(b.resting) && forall r :: r in b.resting ==> r.id < b.nextId
  }

  lemma {:induction false} WithoutMembers(rs: seq<Resting>, id: nat)
    ensures forall r :: r in Without(rs, id) <==> r in rs && r.id != id
    ensures DistinctIds(rs) ==> DistinctIds(Without(rs, id))
    ensures Ids(Without(rs, id)) == Ids(rs) - {id}
  {
    if rs != [] {
      var init, last := rs[..|rs| - 1], rs[|rs| - 1];
      WithoutMembers(init, id);
      assert rs == init + [last];
      assert DistinctIds(rs) ==> forall r :: r in init ==> r.id != last.id;
    }
    IdsWithout(rs, Without(rs, id), id);
  }

  lemma IdsWithout(rs: seq<Resting>, kept: seq<Resting>, id: nat)
    requires forall r :: r in kept <==> r in rs && r.id != id
    ensures Ids(kept) == Ids(rs) - {id}
  {
    forall k | k in Ids(rs) - {id} ensures k in Ids(kept) {
      var r :| r in rs && r.id == k;
      assert r in kept;
    }
  }

  /** What the matching pass keeps is exactly what the mark does not cross, in the same order. */
  lemma {:induction false} KeptMembers(rs: seq<Resting>, symbol: string, mark: real)
    ensures forall r :: r in Kept(rs, symbol, mark) <==> r in rs && !Crossed(r.intent, symbol, mark)
    ensures DistinctIds(rs) ==> DistinctIds(Kept(rs, symbol, mark))
  {
    if rs != [] {
      var init, last := rs[..|rs| - 1], rs[|rs| - 1];
      assert rs == init + [last];
      KeptMembers(init, symbol, mark);
      assert DistinctIds(rs) ==> forall r :: r in init ==> r.id != last.id;
    }
  }

  /** What the matching pass fills is exactly what the mark crosses, in full, with fresh fill ids. */
  lemma {:induction false} MatchedExecutes(cfg: Config, rs: seq<Resting>, symbol: string, mark: real, fillId: nat)
    ensures Executions(cfg, Matched(cfg, rs, symbol, mark, fillId), rs, symbol, mark)
    ensures forall k :: 0 <= k < |Matched(cfg, rs, symbol, mark, fillId)| ==>
              Matched(cfg, rs, symbol, mark, fillId)[k].fillId == fillId + k
  {
    if rs != [] {
      var init, last := rs[..|rs| - 1], rs[|rs| - 1];
      assert rs == init + [last];
      MatchedExecutes(cfg, init, symbol, mark, fillId);
      var before := Matched(cfg, init, symbol, mark, fillId);
      var fs := Matched(cfg, rs, symbol, mark, fillId);
      forall f | f in fs ensures exists r :: r in rs && FillOf(cfg, f, r, symbol, mark) {
        if f in before {
          var r :| r in init && FillOf(cfg, f, r, symbol, mark);
          assert r in rs;
        } else {
          assert FillOf(cfg, f, last, symbol, mark);
        }
      }
      forall r | r in rs && Crossed(r.intent, symbol, mark) ensures r.id in OrderIds(fs) {
        if r in init {
          var f :| f in before && f.orderId == r.id;
          assert f in fs;
        } else {
          assert fs[|fs| - 1] in fs && fs[|fs| - 1].orderId == r.id;
        }
      }
    }
  }

  /** No order is filled twice by one pass. */
  lemma {:induction false} MatchedOnce(cfg: Config, rs: seq<Resting>, symbol: string, mark: real, fillId: nat)
    requires DistinctIds(rs)
    ensures DistinctOrders(Matched(cfg, rs, symbol, mark, fillId))
  {
    if rs != [] {
      var init, last := rs[..|rs| - 1], rs[|rs| - 1];
      MatchedOnce(cfg, init, symbol, mark, fillId);
      var before := Matched(cfg, init, symbol, mark, fillId);
      MatchedExecutes(cfg, init, symbol, mark, fillId);
      forall i | 0 <= i < |before| ensures before[i].orderId != last.id {
        assert before[i] in before;
        var r :| r in init && FillOf(cfg, before[i], r, symbol, mark);
        var j :| 0 <= j < |init| && init[j] == r;
        assert rs[j].id != rs[|rs| - 1].id;
      }
    }
  }

  /** `f` is the complete execution, at `mark`, of resting order `r`. */
  predicate FillOf(cfg: Config, f: Fill, r: Resting, symbol: string, mark: real) {
    && Crossed(r.intent, symbol, mark)
    && f == BuildFill(cfg, f.fillId, r.id, r.intent, LimitFillPrice(cfg, r.intent, mark))
  }

  /** `fs` executes exactly the orders of `rs` that `mark` crosses. */
  ghost predicate Executions(cfg: Config, fs: seq<Fill>, rs: seq<Resting>, symbol: string, mark: real) {
    && (forall f :: f in fs ==> exists r :: r in rs && FillOf(cfg, f, r, symbol, mark))
    && (forall r :: r in rs && Crossed(r.intent, symbol, mark) ==> r.id in OrderIds(fs))
  }

  ghost predicate DistinctOrders(fs: seq<Fill>) {
    forall i, j :: 0 <= i < j < |fs| ==> fs[i].orderId != fs[j].orderId
  }

  /** By how much a price is better than a limit, for the side that set it. */
  function Better(side: Side, price: real, limit: real): real {
    if side.Buy? then limit - price else price - limit
  }

  /** An order is crossed exactly by a mark of its symbol no worse than its limit; without slippage it then fills at
      the mark, and slippage moves the fill only against it. */
  lemma CrossedFillsAtTheMark(cfg: Config, i: Intent, symbol: string, mark: real)
    ensures Crossed(i, symbol, mark)
            <==> i.symbol == symbol && i.limitPrice.Some? && Better(i.side, mark, i.limitPrice.value) >= 0.0
    ensures Crossed(i, symbol, mark) ==>
              var price := LimitFillPrice(cfg, i, mark);
              Better(i.side, price, mark) * 10000.0 == -(mark * cfg.slippageBps as real)
  {}

  /** A limit fill breaches its limit by at most the slippage factor, unless the settings slip a price by more than
      the whole of it and the mark is past the limit; and it respects the limit exactly when the slipped mark does. */
  lemma LimitFillBreach(cfg: Config, i: Intent, symbol: string, mark: real)
    requires Crossed(i, symbol, mark)
    ensures var price, limit, s := LimitFillPrice(cfg, i, mark), i.limitPrice.value, cfg.slippageBps as real / 10000.0;
            && (i.side.Buy? ==> (price <= limit * (1.0 + s) <==> mark == limit || cfg.slippageBps >= -10000)
                                && (price <= limit <==> mark * (1.0 + s) <= limit))
            && (i.side.Sell? ==> (price >= limit * (1.0 - s) <==> mark == limit || cfg.slippageBps <= 10000)
                                 && (price >= limit <==> mark * (1.0 - s) >= limit))
  {
    var limit, s := i.limitPrice.value, cfg.slippageBps as real / 10000.0;
    if i.side.Buy? {
      assert LimitFillPrice(cfg, i, mark) == mark * (1.0 + s);
      ScaledIff(mark, limit, 1.0 + s);
    } else {
      assert LimitFillPrice(cfg, i, mark) == mark * (1.0 - s);
      ScaledIff(limit, mark, 1.0 - s);
    }
  }

  lemma ScaledIff(a: real, b: real, k: real)
    requires a <= b
    ensures a * k <= b * k <==> a == b || k >= 0.0
  {
    var d := b - a;
    assert b * k - a * k == d * k;
    if d > 0.0 && k < 0.0 { assert d * (-k) > 0.0; }
    if k >= 0.0 { assert d * k >= 0.0; }
  }

  // ------------------------------------------------------------ runs of the book

  datatype Op = PlaceOp(intent: Intent) | CancelOp(id: nat) | MarkOp(symbol: string, price: real) | CloseOp

  /** A book with its history: limit orders accepted, limit fills, cancels that removed an
      order, orders lost to `close`, and the first id issued after each symbol's last mark. */
  datatype Trace = Trace(book: Book, accepted: seq<Resting>, fills: seq<Fill>,
                         cancelled: set<nat>, dropped: set<nat>, markedAt: map<string, nat>)

  function Advance(cfg: Config, t: Trace, op: Op): Trace {
    match op
    case PlaceOp(i) =>
      var (b, p) := Place(cfg, t.book, i);
      if p.status.Submitted? then t.(book := b, accepted := t.accepted + [Resting(p.orderId, i)])
      else t.(book := b)
    case CancelOp(id) =>
      t.(book := Cancel(t.book, id), cancelled := t.cancelled + (Ids(t.book.resting) * {id}))
    case MarkOp(s, price) =>
      var (b, fs) := UpdateMark(cfg, t.book, s, price);
      t.(book := b, fills := t.fills + fs, markedAt := t.markedAt[s := b.nextId])
    case CloseOp =>
      t.(book := Book(map[], [], t.book.nextId), dropped := t.dropped + Ids(t.book.resting), markedAt := map[])
  }

  function Replay(cfg: Config, ops: seq<Op>): Trace {
    if ops == [] then Trace(EMPTY_BOOK, [], [], {}, {}, map[])
    else Advance(cfg, Replay(cfg, ops[..|ops| - 1]), ops[|ops| - 1])
  }

  ghost predicate Conserved(t: Trace) {
    var resting, filled := Ids(t.book.resting), OrderIds(t.fills);
    && DistinctIds(t.accepted)
    && (forall r :: r in t.accepted ==> r.id < t.book.nextId)
    && (forall r :: r in t.book.resting ==> r in t.accepted)
    && DistinctIds(t.book.resting)
    && Ids(t.accepted) == resting + filled + t.cancelled + t.dropped
    && resting !! filled !! t.cancelled !! t.dropped
    && DistinctOrders(t.fills)
  }

  /** Every fill in the history is a complete execution of an accepted order at a price that crossed it. */
  ghost predicate FilledInFull(cfg: Config, t: Trace) {
    forall f :: f in t.fills ==> exists r, mark :: r in t.accepted && FillOf(cfg, f, r, f.symbol, mark)
  }

  /** An order resting through its own limit can only be one placed since its symbol was last marked. */
  ghost predicate OnlyFreshCrossed(t: Trace) {
    && t.markedAt.Keys == t.book.marks.Keys
    && forall r :: r in t.book.resting && r.intent.symbol in t.book.marks
             && Crossed(r.intent, r.intent.symbol, t.book.marks[r.intent.symbol])
             ==> r.id >= t.markedAt[r.intent.symbol]
  }

  lemma AdvanceConserves(cfg: Config, t: Trace, op: Op)
    requires Conserved(t)
    ensures Conserved(Advance(cfg, t, op))
  {
    var t' := Advance(cfg, t, op);
    match op
    case PlaceOp(i) =>
      if i.kind.Limit? {
        var r := Resting(t.book.nextId, i);
        assert Ids(t'.accepted) == Ids(t.accepted) + {r.id} by { assert r in t'.accepted; IdsAppend(t.accepted, r); }
        IdsAppend(t.book.resting, r);
        assert r.id !in Ids(t.accepted);
      }
    case CancelOp(id) =>
      WithoutMembers(t.book.resting, id);
    case MarkOp(s, price) =>
      MarkConserves(cfg, t, s, price);
    case CloseOp =>
      assert Ids([]) == {};
  }

  lemma IdsAppend(rs: seq<Resting>, r: Resting)
    ensures Ids(rs + [r]) == Ids(rs) + {r.id}
  {
    assert r in rs + [r];
    forall k | k in Ids(rs) + {r.id} ensures k in Ids(rs + [r]) {
      if k != r.id {
        var q :| q in rs && q.id == k;
        assert q in rs + [r];
      }
    }
  }

  lemma MarkConserves(cfg: Config, t: Trace, s: string, price: real)
    requires Conserved(t)
    ensures Conserved(Advance(cfg, t, MarkOp(s, price)))
  {
    var t' := Advance(cfg, t, MarkOp(s, price));
    var rs, fs := t.book.resting, Matched(cfg, t.book.resting, s, price, t.book.nextId);
    KeptMembers(rs, s, price);
    MatchedExecutes(cfg, rs, s, price, t.book.nextId);
    MatchedOnce(cfg, rs, s, price, t.book.nextId);
    assert t'.fills == t.fills + fs;
    MatchedIds(cfg, rs, s, price, t.book.nextId);
    OrderIdsJoin(t.fills, fs);
    DistinctJoin(t.fills, fs);
  }

  /** A pass takes out of the book the orders it fills, and no others. */
  lemma {:induction false} MatchedIds(cfg: Config, rs: seq<Resting>, s: string, price: real, fillId: nat)
    requires DistinctIds(rs)
    ensures OrderIds(Matched(cfg, rs, s, price, fillId)) <= Ids(rs)
    ensures Ids(Kept(rs, s, price)) == Ids(rs) - OrderIds(Matched(cfg, rs, s, price, fillId))
  {
    var fs := Matched(cfg, rs, s, price, fillId);
    KeptMembers(rs, s, price);
    MatchedExecutes(cfg, rs, s, price, fillId);
    forall k | k in OrderIds(fs) ensures k in Ids(rs) && k !in Ids(Kept(rs, s, price)) {
      var f :| f in fs && f.orderId == k;
      var q :| q in rs && FillOf(cfg, f, q, s, price);
      forall r | r in Kept(rs, s, price) ensures r.id != k {
        assert r.id == q.id ==> r == q;
      }
    }
  }

  lemma OrderIdsJoin(fs: seq<Fill>, gs: seq<Fill>)
    ensures OrderIds(fs + gs) == OrderIds(fs) + OrderIds(gs)
  {
    assert forall f :: f in fs + gs <==> f in fs || f in gs;
  }

  lemma DistinctJoin(fs: seq<Fill>, gs: seq<Fill>)
    requires DistinctOrders(fs) && DistinctOrders(gs) && OrderIds(fs) !! OrderIds(gs)
    ensures DistinctOrders(fs + gs)
  {
    var all := fs + gs;
    forall i, j | 0 <= i < j < |all| ensures all[i].orderId != all[j].orderId {
      if i < |fs| <= j {
        assert all[j] in gs && all[j].orderId in OrderIds(gs);
        assert all[i] in fs && all[i].orderId in OrderIds(fs);
      }
    }
  }

  lemma AdvanceFillsInFull(cfg: Config, t: Trace, op: Op)
    requires FilledInFull(cfg, t) && Conserved(t)
    ensures FilledInFull(cfg, Advance(cfg, t, op))
  {
    var t' := Advance(cfg, t, op);
    forall f | f in t'.fills ensures exists r, mark :: r in t'.accepted && FillOf(cfg, f, r, f.symbol, mark) {
      if f in t.fills {
        var r, mark :| r in t.accepted && FillOf(cfg, f, r, f.symbol, mark);
        assert r in t'.accepted;
      } else {
        MatchedExecutes(cfg, t.book.resting, op.symbol, op.price, t.book.nextId);
        var r :| r in t.book.resting && FillOf(cfg, f, r, op.symbol, op.price);
        assert r in t'.accepted && FillOf(cfg, f, r, f.symbol, op.price);
      }
    }
  }

  lemma AdvanceOnlyFresh(cfg: Config, t: Trace, op: Op)
    requires OnlyFreshCrossed(t) && Conserved(t)
    requires forall s :: s in t.markedAt ==> t.markedAt[s] <= t.book.nextId
    ensures OnlyFreshCrossed(Advance(cfg, t, op))
    ensures var t' := Advance(cfg, t, op); forall s :: s in t'.markedAt ==> t'.markedAt[s] <= t'.book.nextId
  {
    if op.CancelOp? {
      WithoutMembers(t.book.resting, op.id);
    } else if op.MarkOp? {
      KeptMembers(t.book.resting, op.symbol, op.price);
    }
  }

  /** Conservation over every sequence of operations. */
  lemma {:induction false} BookConservation(cfg: Config, ops: seq<Op>)
    ensures var t := Replay(cfg, ops);
            && Conserved(t) && FilledInFull(cfg, t) && OnlyFreshCrossed(t)
            && (forall s :: s in t.markedAt ==> t.markedAt[s] <= t.book.nextId)
  {
    if ops != [] {
      BookConservation(cfg, ops[..|ops| - 1]);
      var t := Replay(cfg, ops[..|ops| - 1]);
      AdvanceConserves(cfg, t, ops[|ops| - 1]);
      AdvanceFillsInFull(cfg, t, ops[|ops| - 1]);
      AdvanceOnlyFresh(cfg, t, ops[|ops| - 1]);
    } else {
      assert Ids([]) == {} && OrderIds([]) == {};
    }
  }

  /** The adapter sells what nobody holds: on a marked symbol every market order fills, whatever
      was bought before. Overselling is not caught here. */
  lemma MarketOrderAlwaysFills(cfg: Config, b: Book, i: Intent)
    requires i.kind.Market?
    ensures var (b', p) := Place(cfg, b, i);
            && (p.status.Filled? <==> i.symbol in b.marks && b.marks[i.symbol] > 0.0)
            && (p.status.Filled? <==> |p.fills| == 1 && p.fills[0].quantity == i.quantity && p.fills[0].side == i.side)
            && (p.status.Filled? ==>
                  var f := p.fills[0];
                  && f.symbol == i.symbol && f.orderId == p.orderId == b.nextId
                  && f.orderId < f.fillId < b'.nextId)
            && b'.resting == b.resting
  {}

  /** A limit order always rests, whatever the mark, and is filled by nothing but a later mark. */
  lemma LimitOrdersRest(cfg: Config, b: Book, i: Intent)
    requires i.kind.Limit?
    ensures var (b', p) := Place(cfg, b, i);
            && p.status.Submitted? && p.fills == [] && p.orderId == b.nextId && p.intent == i
            && b'.resting == b.resting + [Resting(b.nextId, i)] && b'.marks == b.marks
  {}

  /** A mark is what the next orders of its symbol see, and no other's changes. */
  lemma MarksAreTheLast(cfg: Config, b: Book, symbol: string, price: real, other: string)
    ensures var marks := UpdateMark(cfg, b, symbol, price).0.marks;
            && symbol in marks && marks[symbol] == price
            && (other != symbol ==> (other in marks <==> other in b.marks)
                                    && (other in marks ==> marks[other] == b.marks[other]))
  {}

  // ----------------------------------------------------------------- the adapter

  class PaperExchangeAdapter {
    const cfg: Config
    var marks: map<string, real>
    var resting: seq<Resting>
    var nextId: nat

    constructor (cfg: Config)
      ensures this.cfg == cfg && State() == EMPTY_BOOK
    {
      this.cfg := cfg;
      marks, resting, nextId := map[], [], 0;
    }

    function State(): Book
      reads this
    {
      Book(marks, resting, nextId)
    }

    method NewOrderId() returns (id: nat)
      modifies this`nextId
      ensures id == old(nextId) && nextId == id + 1
    {
      id := nextId;
      nextId := nextId + 1;
    }

    method PlaceOrder(i: Intent) returns (p: Placement)
      modifies this
      ensures (State(), p) == Place(cfg, old(State()), i)
      ensures old(Wf(State())) ==> Wf(State())
    {
      var id := NewOrderId();
      if i.kind.Market? {
        if i.symbol !in marks || marks[i.symbol] <= 0.0 {
          return Placement(id, i, Rejected, []);
        }
        var price := Slipped(cfg, marks[i.symbol], i.side);
        var fillId := NewOrderId();
        return Placement(id, i, Filled, [BuildFill(cfg, fillId, id, i, price)]);
      }
      resting := resting + [Resting(id, i)];
      p := Placement(id, i, Submitted, []);
    }

    method CancelOrder(id: nat)
      modifies this`resting
      ensures State() == Cancel(old(State()), id)
    {
      resting := Without(resting, id);
    }

    method Close()
      modifies this`resting, this`marks
      ensures State() == Book(map[], [], old(nextId))
    {
      resting, marks := [], map[];
    }

    method SetMark(symbol: string, price: real) returns (fills: seq<Fill>)
      requires Wf(State())
      modifies this
      ensures (State(), fills) == UpdateMark(cfg, old(State()), symbol, price)
      ensures Wf(State())
    {
      marks := marks[symbol := price];
      fills := MatchResting(symbol, price);
    }

    /** One pass collects the fills, a second pops the filled ids. */
    method MatchResting(symbol: string, mark: real) returns (fills: seq<Fill>)
      requires Wf(State())
      modifies this`resting, this`nextId
      ensures fills == Matched(cfg, old(resting), symbol, mark, old(nextId))
      ensures resting == Kept(old(resting), symbol, mark)
      ensures nextId == old(nextId) + |fills|
      ensures Wf(State())
    {
      ghost var rs := resting;
      var filledIds;
      fills, filledIds := CollectMatches(symbol, mark);
      PopAll(filledIds);
      ExcludingIsKept(rs, filledIds, symbol, mark);
      KeptMembers(rs, symbol, mark);
    }

    method PopAll(ids: seq<nat>)
      modifies this`resting
      ensures resting == Excluding(old(resting), ids)
    {
      ghost var rs := resting;
      ExcludeOneMore(rs, [], 0);
      for k := 0 to |ids|
        invariant resting == Excluding(rs, ids[..k])
      {
        ExcludeOneMore(rs, ids[..k], ids[k]);
        assert ids[..k] + [ids[k]] == ids[..k + 1];
        resting := Without(resting, ids[k]);
      }
      assert ids[..|ids|] == ids;
    }

    method CollectMatches(symbol: string, mark: real) returns (fills: seq<Fill>, filledIds: seq<nat>)
      requires DistinctIds(resting)
      modifies this`nextId
      ensures fills == Matched(cfg, resting, symbol, mark, old(nextId))
      ensures forall j :: 0 <= j < |resting| ==>
        (resting[j].id in filledIds <==> Crossed(resting[j].intent, symbol, mark))
      ensures nextId == old(nextId) + |fills|
    {
      fills, filledIds := [], [];
      for k := 0 to |resting|
        invariant fills == Matched(cfg, resting[..k], symbol, mark, old(nextId))
        invariant nextId == old(nextId) + |fills|
        invariant forall j :: 0 <= j < |resting| ==>
          (resting[j].id in filledIds <==> j < k && Crossed(resting[j].intent, symbol, mark))
      {
        assert resting[..k + 1][..k] == resting[..k];
        var r := resting[k];
        if r.intent.symbol == symbol && r.intent.limitPrice.Some? {
          var limit := r.intent.limitPrice.value;
          if (r.intent.side.Buy? && mark <= limit) || (r.intent.side.Sell? && mark >= limit) {
            var fillId := NewOrderId();
            fills := fills + [BuildFill(cfg, fillId, r.id, r.intent, LimitFillPrice(cfg, r.intent, mark))];
            filledIds := filledIds + [r.id];
          }
        }
      }
      assert resting[..|resting|] == resting;
    }
  }

  ghost function Excluding(rs: seq<Resting>, ids: seq<nat>): seq<Resting> {
    if rs == [] then [] else
      var last := rs[|rs| - 1];
      Excluding(rs[..|rs| - 1], ids) + if last.id in ids then [] else [last]
  }

  lemma {:induction false} ExcludeOneMore(rs: seq<Resting>, ids: seq<nat>, id: nat)
    ensures Without(Excluding(rs, ids), id) == Excluding(rs, ids + [id])
    ensures ids == [] ==> Excluding(rs, ids) == rs
  {
    if rs != [] {
      var init, last := rs[..|rs| - 1], rs[|rs| - 1];
      ExcludeOneMore(init, ids, id);
      var e := Excluding(init, ids);
      assert (e + [last])[..|e|] == e;
      assert e + [] == e;
      assert rs == init + [last];
    }
  }

  lemma {:induction false} ExcludingIsKept(rs: seq<Resting>, ids: seq<nat>, symbol: string, mark: real)
    requires forall j :: 0 <= j < |rs| ==> (rs[j].id in ids <==> Crossed(rs[j].intent, symbol, mark))
    ensures Excluding(rs, ids) == Kept(rs, symbol, mark)
  {
    if rs != [] {
      ExcludingIsKept(rs[..|rs| - 1], ids, symbol, mark);
    }
  }
}
