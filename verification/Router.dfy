/** Lifecycle and order events, and the rows committed to the database, as append-only logs. */
module Journal {
  import opened Basics
  import Paper

  datatype Event =
    | BotStarted | BotIdle | BotResumed | CircuitTripped | BotError | BotStopped | BotKilled
    | OrderSubmitted(orderId: nat)
    | OrderFilled(fill: Fill)
    | OrderCancelled(orderId: nat)

  /** `CancelRow` is an order's status set to cancelled together with its audit entry. */
  datatype Row =
    | OrderRow(orderId: nat, status: Paper.Status)
    | FillRow(fill: Fill)
    | SubmitAudit(orderId: nat)
    | CancelRow(orderId: nat)

  function FillRows(fs: seq<Fill>): seq<Row> {
    seq(|fs|, k requires 0 <= k < |fs| => FillRow(fs[k]))
  }

  function FillEvents(fs: seq<Fill>): seq<Event> {
    seq(|fs|, k requires 0 <= k < |fs| => OrderFilled(fs[k]))
  }

  /** What one `submit` commits: the order, its fills, then the audit entry. */
  function SubmitRows(p: Paper.Placement): seq<Row> {
    [OrderRow(p.orderId, p.status)] + FillRows(p.fills) + [SubmitAudit(p.orderId)]
  }

  function SubmitEvents(p: Paper.Placement): seq<Event> {
    [OrderSubmitted(p.orderId)] + FillEvents(p.fills)
  }

  function CancelRows(ids: seq<nat>): seq<Row> {
    seq(|ids|, k requires 0 <= k < |ids| => CancelRow(ids[k]))
  }

  function CancelEvents(ids: seq<nat>): seq<Event> {
    seq(|ids|, k requires 0 <= k < |ids| => OrderCancelled(ids[k]))
  }
}

/** The router between a bot and its exchange: place, persist, register, publish; and the
    sweep that cancels whatever it registered. */
module Router {
  import opened Basics
  import opened Journal
  import Paper

  /** An order the router believes is resting. */
  datatype OpenOrder = OpenOrder(id: nat, symbol: string)

  function OpenIds(open: seq<OpenOrder>): seq<nat> {
    seq(|open|, k requires 0 <= k < |open| => open[k].id)
  }

  predicate Rests(p: Paper.Placement) {
    p.status.Submitted? && p.fills == []
  }

  function Registered(open: seq<OpenOrder>, p: Paper.Placement): seq<OpenOrder> {
    if Rests(p) then open + [OpenOrder(p.orderId, p.intent.symbol)] else open
  }

  function CancelMany(b: Paper.Book, ids: seq<nat>): Paper.Book {
    if ids == [] then b else Paper.Cancel(CancelMany(b, ids[..|ids| - 1]), ids[|ids| - 1])
  }

  function SetOf(ids: seq<nat>): set<nat> {
    set k | k in ids
  }

  lemma SetOfSnoc(ids: seq<nat>)
    requires ids != []
    ensures SetOf(ids) == SetOf(ids[..|ids| - 1]) + {ids[|ids| - 1]}
  {
    assert ids == ids[..|ids| - 1] + [ids[|ids| - 1]];
  }

  lemma {:induction false} CancelManyIds(b: Paper.Book, ids: seq<nat>)
    ensures Paper.Ids(CancelMany(b, ids).resting) == Paper.Ids(b.resting) - SetOf(ids)
    ensures CancelMany(b, ids).marks == b.marks && CancelMany(b, ids).nextId == b.nextId
    ensures Paper.Wf(b) ==> Paper.Wf(CancelMany(b, ids))
  {
    if ids != [] {
      var init, last := ids[..|ids| - 1], ids[|ids| - 1];
      CancelManyIds(b, init);
      Paper.WithoutMembers(CancelMany(b, init).resting, last);
      SetOfSnoc(ids);
    }
  }

  /** The router's book-keeping covers the venue: every resting order is registered. */
  ghost predicate Covers(open: seq<OpenOrder>, b: Paper.Book) {
    forall r :: r in b.resting ==> r.id in OpenIds(open)
  }

  lemma SubmitKeepsCover(cfg: Paper.Config, open: seq<OpenOrder>, b: Paper.Book, i: Intent)
    requires Covers(open, b)
    ensures var (b', p) := Paper.Place(cfg, b, i); Covers(Registered(open, p), b')
  {
    var (b', p) := Paper.Place(cfg, b, i);
    var open' := Registered(open, p);
    forall r | r in b'.resting ensures r.id in OpenIds(open') {
      if r in b.resting {
        var k :| 0 <= k < |open| && OpenIds(open)[k] == r.id;
        assert OpenIds(open')[k] == r.id;
      } else {
        assert OpenIds(open')[|open|] == p.orderId;
      }
    }
  }

  /** An uninterrupted sweep leaves nothing resting. */
  lemma {:induction false} SweepClearsTheBook(open: seq<OpenOrder>, b: Paper.Book)
    requires Covers(open, b)
    ensures CancelMany(b, OpenIds(open)).resting == []
  {
    CancelManyIds(b, OpenIds(open));
    var rest := CancelMany(b, OpenIds(open)).resting;
    assert Paper.Ids(b.resting) <= SetOf(OpenIds(open));
    assert rest != [] ==> rest[0].id in Paper.Ids(rest);
  }

  class ExchangeOrderRouter {
    const adapter: Paper.PaperExchangeAdapter
    var open: seq<OpenOrder>
    var rows: seq<Row>
    var events: seq<Event>

    constructor (adapter: Paper.PaperExchangeAdapter)
      ensures this.adapter == adapter && open == [] && rows == [] && events == []
    {
      this.adapter := adapter;
      open, rows, events := [], [], [];
    }

    method Publish(e: Event)
      modifies this`events
      ensures events == old(events) + [e]
    {
      events := events + [e];
    }

    /** Place, commit, register, then publish the order and its fills, in that order. */
    method Submit(i: Intent) returns (fills: seq<Fill>)
      modifies this, adapter
      ensures var (b, p) := Paper.Place(adapter.cfg, old(adapter.State()), i);
              && adapter.State() == b && fills == p.fills
              && rows == old(rows) + SubmitRows(p)
              && open == Registered(old(open), p)
              && events == old(events) + SubmitEvents(p)
      ensures old(Paper.Wf(adapter.State())) ==> Paper.Wf(adapter.State())
      ensures old(Covers(open, adapter.State())) ==> Covers(open, adapter.State())
    {
      ghost var b0, open0 := adapter.State(), open;
      var result := adapter.PlaceOrder(i);
      PersistOrder(result);
      if result.status.Submitted? && result.fills == [] {
        open := open + [OpenOrder(result.orderId, i.symbol)];
      }
      Publish(OrderSubmitted(result.orderId));
      ghost var published := events;
      for k := 0 to |result.fills|
        invariant events == published + FillEvents(result.fills)[..k]
        invariant rows == old(rows) + SubmitRows(result) && open == Registered(open0, result)
        invariant (adapter.State(), result) == Paper.Place(adapter.cfg, b0, i)
      {
        Publish(OrderFilled(result.fills[k]));
      }
      fills := result.fills;
      if Covers(open0, b0) { SubmitKeepsCover(adapter.cfg, open0, b0, i); }
    }

    method PersistOrder(p: Paper.Placement)
      modifies this`rows
      ensures rows == old(rows) + SubmitRows(p)
    {
      var pending := [OrderRow(p.orderId, p.status)];
      for k := 0 to |p.fills|
        invariant pending == [OrderRow(p.orderId, p.status)] + FillRows(p.fills)[..k]
      {
        pending := pending + [FillRow(p.fills[k])];
      }
      rows := rows + (pending + [SubmitAudit(p.orderId)]);
    }

    method CancelAll(ids: seq<nat>) returns (pending: seq<Row>)
      modifies adapter
      ensures adapter.State() == CancelMany(old(adapter.State()), ids) && pending == CancelRows(ids)
    {
      ghost var b0 := adapter.State();
      pending := [];
      for k := 0 to |ids|
        invariant adapter.State() == CancelMany(b0, ids[..k])
        invariant pending == CancelRows(ids)[..k]
      {
        assert ids[..k + 1][..k] == ids[..k];
        adapter.CancelOrder(ids[k]);
        pending := pending + [CancelRow(ids[k])];
      }
      assert ids[..|ids|] == ids;
    }

    method ReportAll(ids: seq<nat>)
      modifies this`events
      ensures events == old(events) + CancelEvents(ids)
    {
      for k := 0 to |ids|
        invariant events == old(events) + CancelEvents(ids)[..k]
      {
        Publish(OrderCancelled(ids[k]));
      }
    }

    /** The sweep: forget the open set, cancel each order at the venue, commit, then publish. */
    method CancelOpen() returns (count: nat)
      modifies this, adapter
      ensures open == [] && count == |old(open)|
      ensures adapter.State() == CancelMany(old(adapter.State()), OpenIds(old(open)))
      ensures rows == old(rows) + CancelRows(OpenIds(old(open)))
      ensures events == old(events) + CancelEvents(OpenIds(old(open)))
      ensures old(Covers(open, adapter.State())) ==> adapter.State().resting == []
    {
      ghost var b0 := adapter.State();
      if Covers(open, b0) { SweepClearsTheBook(open, b0); }
      if open == [] {
        return 0;
      }
      var ids := OpenIds(open);
      open := [];
      var pending := CancelAll(ids);
      rows := rows + pending;
      ReportAll(ids);
      count := |ids|;
    }
  }
}
