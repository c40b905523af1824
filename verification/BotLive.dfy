/** The step system, left alone, is the live run: its suspended pieces add up to the router's submit
    and the loop's bar. */
module BotLive {
  import opened Basics
  import opened Journal
  import opened Router
  import opened BotTask
  import Paper
  import Ledger
  import Backtest
  import Live

  /** A submission carried through: placed, committed, registered, published and credited. */
  function Submitted(s: Setup, t: Task, i: Intent): Task {
    var placed := Paper.Place(s.cfg, t.desk.book, i);
    var p := placed.1;
    t.(begun := t.begun + 1, placements := t.placements + [p], credited := t.credited + p.fills,
       desk := Desk(placed.0, Registered(t.desk.open, p), t.desk.rows + SubmitRows(p), t.desk.log + SubmitEvents(p),
           t.desk.forgotten))
  }

  function AllSubmitted(s: Setup, t: Task, intents: seq<Intent>): Task {
    if intents == [] then t else Submitted(s, AllSubmitted(s, t, intents[..|intents| - 1]), intents[|intents| - 1])
  }

  /** Placed and about to be recorded. */
  function Placed(s: Setup, t: Task, i: Intent, rest: seq<Intent>): Task {
    var placed := Paper.Place(s.cfg, t.desk.book, i);
    t.(begun := t.begun + 1, placements := t.placements + [placed.1],
       desk := t.desk.(book := placed.0), pc := Persisting(placed.1, rest))
  }

  /** Recorded, registered, and about to be published. */
  function Recorded(t: Task, p: Paper.Placement, rest: seq<Intent>): Task {
    t.(desk := t.desk.(rows := t.desk.rows + SubmitRows(p), open := Registered(t.desk.open, p)),
        pc := AnnouncingOrder(p, rest))
  }

  lemma PlaceStep(s: Setup, t: Task, intents: seq<Intent>, now: int)
    requires !t.cancelled && intents != []
    ensures Next(s, Submit(s, t, intents, now), Completes(now)) == Placed(s, t, intents[0], intents[1..])
  {}

  lemma RecordStep(s: Setup, t: Task, p: Paper.Placement, rest: seq<Intent>, now: int)
    requires !t.cancelled && t.pc == Persisting(p, rest)
    ensures Next(s, t, Completes(now)) == Recorded(t, p, rest)
  {}

  lemma AnnounceStep(s: Setup, t: Task, p: Paper.Placement, rest: seq<Intent>, now: int)
    requires !t.cancelled && t.pc == AnnouncingOrder(p, rest)
    ensures var u := t.(desk := Emit(t.desk, OrderSubmitted(p.orderId)));
            Next(s, t, Completes(now))
            == if p.fills == [] then Credit(s, u, p, rest, now) else u.(pc := AnnouncingFill(p, 0, rest))
  {}

  lemma FillStep(s: Setup, t: Task, p: Paper.Placement, rest: seq<Intent>, now: int)
    requires !t.cancelled && |p.fills| == 1 && t.pc == AnnouncingFill(p, 0, rest)
    ensures Next(s, t, Completes(now)) == Credit(s, t.(desk := Emit(t.desk, OrderFilled(p.fills[0]))), p, rest, now)
  {}

  lemma {:induction false} ThreeOrFour(s: Setup, t: Task, c: Act)
    ensures From(s, t, [c, c, c]) == Next(s, Next(s, Next(s, t, c), c), c)
    ensures From(s, t, [c, c, c, c]) == Next(s, Next(s, Next(s, Next(s, t, c), c), c), c)
  {
    TwoSteps(s, t, c, c);
    OneMore(s, t, [c, c], c);
    assert [c, c] + [c] == [c, c, c];
    OneMore(s, t, [c, c, c], c);
    assert [c, c, c] + [c] == [c, c, c, c];
  }

  /** What a submission leaves does not depend on the counter it leaves from. */
  lemma CarriedThrough(s: Setup, t: Task, i: Intent, rest: seq<Intent>, u: Task, now: int)
    requires u == Submitted(s, t, i).(pc := u.pc)
    ensures Submit(s, u, rest, now) == Submit(s, Submitted(s, t, i), rest, now)
  {}

  lemma UnfilledEnds(s: Setup, t: Task, i: Intent, rest: seq<Intent>, now: int)
    requires !t.cancelled && Paper.Place(s.cfg, t.desk.book, i).1.fills == []
    ensures var p := Paper.Place(s.cfg, t.desk.book, i).1;
            Next(s, Recorded(Placed(s, t, i, rest), p, rest), Completes(now))
            == Submit(s, Submitted(s, t, i), rest, now)
  {
    var p := Paper.Place(s.cfg, t.desk.book, i).1;
    var u := Recorded(Placed(s, t, i, rest), p, rest);
    AnnounceStep(s, u, p, rest, now);
    assert t.desk.log + SubmitEvents(p) == t.desk.log + [OrderSubmitted(p.orderId)];
    CarriedThrough(s, t, i, rest, u.(desk := Emit(u.desk, OrderSubmitted(p.orderId)),
                                     credited := u.credited + p.fills), now);
  }

  lemma FilledEnds(s: Setup, t: Task, i: Intent, rest: seq<Intent>, now: int)
    requires !t.cancelled && Paper.Place(s.cfg, t.desk.book, i).1.fills != []
    ensures var p := Paper.Place(s.cfg, t.desk.book, i).1;
            Next(s, Next(s, Recorded(Placed(s, t, i, rest), p, rest), Completes(now)), Completes(now))
            == Submit(s, Submitted(s, t, i), rest, now)
  {
    var p := Paper.Place(s.cfg, t.desk.book, i).1;
    var u := Recorded(Placed(s, t, i, rest), p, rest);
    AnnounceStep(s, u, p, rest, now);
    var v := u.(desk := Emit(u.desk, OrderSubmitted(p.orderId)), pc := AnnouncingFill(p, 0, rest));
    FillStep(s, v, p, rest, now);
    assert t.desk.log + SubmitEvents(p) == (t.desk.log + [OrderSubmitted(p.orderId)]) + [OrderFilled(p.fills[0])];
    CarriedThrough(s, t, i, rest, v.(desk := Emit(v.desk, OrderFilled(p.fills[0])),
                                     credited := v.credited + p.fills), now);
  }

  /** The suspended steps of one submission do, left alone, exactly what the router's submit promises. */
  lemma {:induction false} SubmissionCompletes(s: Setup, t: Task, intents: seq<Intent>, now: int)
      returns (acts: seq<Act>)
    requires !t.cancelled && intents != []
    ensures From(s, Submit(s, t, intents, now), acts) == Submit(s, Submitted(s, t, intents[0]), intents[1..], now)
    ensures Only(acts, Completes(now))
  {
    var i, rest, c := intents[0], intents[1..], Completes(now);
    var p := Paper.Place(s.cfg, t.desk.book, i).1;
    PlaceStep(s, t, intents, now);
    RecordStep(s, Placed(s, t, i, rest), p, rest, now);
    ThreeOrFour(s, Submit(s, t, intents, now), c);
    if p.fills == [] {
      acts := [c, c, c];
      UnfilledEnds(s, t, i, rest, now);
    } else {
      acts := [c, c, c, c];
      FilledEnds(s, t, i, rest, now);
    }
  }

  /** All of a bar's submissions, left alone, one after the other. */
  lemma {:induction false} SubmissionsComplete(s: Setup, t: Task, intents: seq<Intent>, k: nat, now: int)
      returns (acts: seq<Act>)
    requires !t.cancelled && k <= |intents|
    ensures From(s, Submit(s, t, intents, now), acts) == Submit(s, AllSubmitted(s, t, intents[..k]), intents[k..], now)
    ensures !AllSubmitted(s, t, intents[..k]).cancelled
    ensures Only(acts, Completes(now))
    decreases k
  {
    if k == 0 {
      acts := [];
      assert intents[0..] == intents;
    } else {
      var before := SubmissionsComplete(s, t, intents, k - 1, now);
      var u, rest := AllSubmitted(s, t, intents[..k - 1]), intents[k - 1..];
      var last := SubmissionCompletes(s, u, rest, now);
      acts := before + last;
      FromAppend(s, Submit(s, t, intents, now), before, last);
      assert intents[..k][..k - 1] == intents[..k - 1] && rest[0] == intents[k - 1] && rest[1..] == intents[k..];
    }
  }

  /** They place and credit what the atomic bar does, and touch neither the mark nor the state. */
  lemma {:induction false} AllSubmittedIsPlaceAll(s: Setup, t: Task, intents: seq<Intent>)
    ensures var u, placed := AllSubmitted(s, t, intents), Backtest.PlaceAll(s.cfg, t.desk.book, intents);
            && u.desk.book == placed.0 && u.credited == t.credited + placed.1
            && u.mark == t.mark && u.state == t.state && u.cancelled == t.cancelled
  {
    if intents != [] {
      AllSubmittedIsPlaceAll(s, t, intents[..|intents| - 1]);
    }
  }

  // ------------------------------------------------------------------- one bar

  /** The market is open at this moment, or the bot keeps no hours. */
  predicate OpenAt(s: Setup, now: int) {
    s.session.None? || s.session.value(now)
  }

  /** The breaker may act at this moment on a mark of that time. */
  predicate MayJudge(s: Setup, markTsMs: int, now: int) {
    s.session.None? || (s.session.value(now) && (s.maxMarkAgeMs.None? || now - markTsMs <= s.maxMarkAgeMs.value))
  }

  /** A task at rest in the loop that holds what the live run says, idle when its last bar found the market closed;
      or, once the run has paused, tripped. */
  ghost predicate Realises<S>(t: Task, live: Live.LiveRun<S>, idle: bool) {
    && !t.cancelled && t.credited == live.fills && t.desk.book == live.book
    && live.ledger == Ledger.CreditAll(Ledger.FLAT, live.fills)
    && (if live.paused then t.pc.AnnouncingTrip? && t.state.Paused?
        else t.pc.AwaitingBar? && t.state == if idle then Idle else Running)
  }

  /** The task as the strategy sees it: resumed if it was idle, the venue marked, the mark noted. */
  function Marked(s: Setup, t: Task, bar: Bar): Task {
    var marked := Paper.UpdateMark(s.cfg, t.desk.book, bar.symbol, bar.close);
    t.(state := Running, missed := t.missed + marked.1, mark := Some((bar.close, bar.tsMs)),
       desk := t.desk.(book := marked.0, log := t.desk.log + if t.state.Idle? then [BotResumed] else []))
  }

  lemma SubmitForgetsTheCounter(s: Setup, t: Task, pc: Pc, intents: seq<Intent>, now: int)
    ensures Submit(s, t.(pc := pc), intents, now) == Submit(s, t, intents, now)
  {}

  lemma RunningBar(s: Setup, t: Task, bar: Bar, intents: seq<Intent>, now: int, later: int)
    requires OpenAt(s, now) && !t.cancelled && t.pc.AwaitingBar? && t.state.Running?
    ensures Next(s, t, BarArrives(bar, now, Some(intents), later)) == Submit(s, Marked(s, t, bar), intents, later)
  {
    assert t.desk.log + [] == t.desk.log;
  }

  /** The first bar after an idle stretch is announced before it is traded. */
  lemma ResumedBar(s: Setup, t: Task, bar: Bar, intents: seq<Intent>, now: int, later: int)
    requires OpenAt(s, now) && !t.cancelled && t.pc.AwaitingBar? && t.state.Idle?
    ensures var u := Next(s, t, BarArrives(bar, now, Some(intents), later));
            && u.pc == AnnouncingResume(bar, Some(intents)) && u.state.Running? && !u.cancelled
            && u.credited == t.credited && u.desk.log == t.desk.log
            && u.desk.book == Paper.UpdateMark(s.cfg, t.desk.book, bar.symbol, bar.close).0
            && Next(s, u, Completes(later)) == Submit(s, Marked(s, t, bar), intents, later)
  {
    var u := Next(s, t, BarArrives(bar, now, Some(intents), later));
    var v := u.(desk := Emit(u.desk, BotResumed), mark := Some((bar.close, bar.tsMs)));
    SubmitForgetsTheCounter(s, v, AwaitingBar, intents, later);
    assert v.(pc := AwaitingBar) == Marked(s, t, bar);
  }

  lemma ClosedBar(s: Setup, t: Task, bar: Bar, now: int, out: Option<seq<Intent>>, later: int)
    requires !OpenAt(s, now) && !t.cancelled && t.pc.AwaitingBar? && (t.state.Running? || t.state.Idle?)
    ensures var u := Next(s, t, BarArrives(bar, now, out, later));
            && u.state.Idle? && u.credited == t.credited && !u.cancelled
            && u.desk.book == Paper.UpdateMark(s.cfg, t.desk.book, bar.symbol, bar.close).0
            && u.pc == if t.state.Idle? then AwaitingBar else AnnouncingIdle
  {}

  lemma {:induction false} BarRuns(s: Setup, t: Task, bar: Bar, intents: seq<Intent>, now: int) returns (acts: seq<Act>)
    requires OpenAt(s, now) && !t.cancelled && t.pc.AwaitingBar? && (t.state.Running? || t.state.Idle?)
    ensures From(s, t, acts) == Judge(s, AllSubmitted(s, Marked(s, t, bar), intents), now)
    ensures acts != [] && acts[0] == BarArrives(bar, now, Some(intents), now)
    ensures Only(acts[1..], Completes(now))
  {
    var a, c, u := BarArrives(bar, now, Some(intents), now), Completes(now), Marked(s, t, bar);
    var rest := SubmissionsComplete(s, u, intents, |intents|, now);
    assert intents[..|intents|] == intents && intents[|intents|..] == [];
    var first := if t.state.Idle? then [a, c] else [a];
    TwoSteps(s, t, a, c);
    if t.state.Idle? {
      ResumedBar(s, t, bar, intents, now, now);
    } else {
      RunningBar(s, t, bar, intents, now, now);
    }
    acts := first + rest;
    FromAppend(s, t, first, rest);
  }

  /** A bar that arrives while the market is open, left alone, is the loop's bar; the first one after an idle stretch
      included. The breaker judges it exactly when its mark can be trusted. */
  lemma {:induction false} BarCompletes<S>(s: Setup, f: Strategy<S>, t: Task, live: Live.LiveRun<S>, idle: bool,
      bar: Bar, now: int)
      returns (acts: seq<Act>)
    requires OpenAt(s, now) && Realises(t, live, idle) && !live.paused
    ensures var k := Live.Tick(bar, true, MayJudge(s, bar.tsMs, now));
            Realises(From(s, t, acts), Live.TickBar(s.cfg, f, s.cap, live, k), false)
    ensures acts != [] && acts[0] == BarArrives(bar, now, Some(f(bar, live.strat).0), now)
    ensures Only(acts[1..], Completes(now))
  {
    var intents, u := f(bar, live.strat).0, Marked(s, t, bar);
    acts := BarRuns(s, t, bar, intents, now);
    AllSubmittedIsPlaceAll(s, u, intents);
    var cap := if MayJudge(s, bar.tsMs, now) then s.cap else None;
    Live.LiveBarParts(s.cfg, f, cap, live, bar);
    Ledger.CreditAllAppend(Ledger.FLAT, live.fills, Backtest.PlaceAll(s.cfg, u.desk.book, intents).1);
    JudgesLikeTheLoop(s, AllSubmitted(s, u, intents), bar, now);
  }

  /** One that arrives while it is closed marks the venue and leaves the bot idle. */
  lemma {:induction false} ClosedBarCompletes<S>(s: Setup, f: Strategy<S>, t: Task, live: Live.LiveRun<S>, idle: bool,
      bar: Bar, now: int)
      returns (acts: seq<Act>)
    requires !OpenAt(s, now) && Realises(t, live, idle) && !live.paused
    ensures Realises(From(s, t, acts), Live.TickBar(s.cfg, f, s.cap, live, Live.Tick(bar, false, false)), true)
    ensures acts != [] && acts[0] == BarArrives(bar, now, None, now) && Only(acts[1..], Completes(now))
  {
    var a, c := BarArrives(bar, now, None, now), Completes(now);
    TwoSteps(s, t, a, c);
    ClosedSteps(s, f, t, live, idle, bar, now);
    acts := if idle then [a] else [a, c];
  }

  /** Done with its intents, a bar trips exactly on a loss at the cap that can be trusted. */
  lemma JudgesLikeTheLoop(s: Setup, t: Task, bar: Bar, now: int)
    requires t.mark == Some((bar.close, bar.tsMs)) && t.state.Running?
    ensures var u, pnl := Judge(s, t, now), Ledger.Mtm(Ledger.CreditAll(Ledger.FLAT, t.credited), bar.close);
            && u.credited == t.credited && u.desk == t.desk && u.cancelled == t.cancelled
            && if s.cap.Some? && pnl <= -s.cap.value && MayJudge(s, bar.tsMs, now)
               then u.pc.AnnouncingTrip? && u.state.Paused? else u.pc.AwaitingBar? && u.state.Running?
  {}

  // --------------------------------------------------- every undisturbed schedule

  /** The task can take a bar. */
  predicate Takes(t: Task) {
    !t.cancelled && t.pc.AwaitingBar?
  }

  /** The bars a schedule has brought to an end, as the loop met them, and the one it is inside of. */
  datatype Heard = Heard(ticks: seq<Live.Tick>, cur: Option<Bar>)

  /** A bar is at its end when the task waits for the next one or has tripped. */
  function Settle(s: Setup, h: Heard, u: Task, now: int): Heard {
    if h.cur.Some? && (u.pc.AwaitingBar? || u.pc.AnnouncingTrip?)
    then Heard(h.ticks + [Live.Tick(h.cur.value, true, MayJudge(s, h.cur.value.tsMs, now))], None) else h
  }

  function Hear(s: Setup, h: Heard, t: Task, a: Act): Heard {
    var u := Next(s, t, a);
    if a.BarArrives? && Takes(t) then
      if OpenAt(s, a.now) then Settle(s, Heard(h.ticks, Some(a.bar)), u, a.later)
      else h.(ticks := h.ticks + [Live.Tick(a.bar, false, false)])
    else if a.Completes? then Settle(s, h, u, a.now) else h
  }

  function Fed(s: Setup, acts: seq<Act>): Heard {
    if acts == [] then Heard([], None)
    else Hear(s, Fed(s, acts[..|acts| - 1]), Exec(s, acts[..|acts| - 1]), acts[|acts| - 1])
  }

  function Ran<S>(s: Setup, f: Strategy<S>, s0: S, ticks: seq<Live.Tick>): Live.LiveRun<S> {
    Live.TickRun(s.cfg, f, s0, s.cap, ticks)
  }

  predicate EndsClosed(ticks: seq<Live.Tick>) {
    ticks != [] && !ticks[|ticks| - 1].open
  }

  /** Operations complete and bars arrive, in any order and at any time; each bar the task trades comes with
      the strategy's answer to it. Nothing fails, nothing is cancelled, nobody stops or kills. */
  ghost predicate Undisturbed<S>(s: Setup, f: Strategy<S>, s0: S, acts: seq<Act>) {
    acts == [] ||
    var init, a := acts[..|acts| - 1], acts[|acts| - 1];
    Undisturbed(s, f, s0, init) && Answers(s, f, s0, Fed(s, init), Exec(s, init), a)
  }

  ghost predicate Answers<S>(s: Setup, f: Strategy<S>, s0: S, h: Heard, t: Task, a: Act) {
    && (a.Completes? || a.BarArrives?)
    && (a.BarArrives? && Takes(t) && OpenAt(s, a.now) ==> a.out == Some(f(a.bar, Ran(s, f, s0, h.ticks).strat).0))
  }

  /** What placing the first `k` of the strategy's intents on this bar gives. */
  function PlacedSoFar<S>(s: Setup, f: Strategy<S>, live: Live.LiveRun<S>, bar: Bar, k: nat): (Paper.Book, seq<Fill>)
    requires k <= |f(bar, live.strat).0|
  {
    Backtest.PlaceAll(s.cfg, Paper.UpdateMark(s.cfg, live.book, bar.symbol, bar.close).0, f(bar, live.strat).0[..k])
  }

  /** Inside a bar with `k` of its intents credited. */
  ghost predicate Within<S>(s: Setup, f: Strategy<S>, t: Task, live: Live.LiveRun<S>, bar: Bar, k: int) {
    && 0 <= k <= |f(bar, live.strat).0|
    && !live.paused && live.ledger == Ledger.CreditAll(Ledger.FLAT, live.fills)
    && !t.cancelled && t.state.Running? && t.mark == Some((bar.close, bar.tsMs))
    && t.credited == live.fills + PlacedSoFar(s, f, live, bar, k).1
  }

  /** Inside the submission of intent `k`: placed as the loop places it, not yet credited. */
  ghost predicate SubmittingAt<S>(s: Setup, f: Strategy<S>, t: Task, live: Live.LiveRun<S>, bar: Bar, k: int,
      p: Paper.Placement, rest: seq<Intent>) {
    && Within(s, f, t, live, bar, k) && k < |f(bar, live.strat).0|
    && rest == f(bar, live.strat).0[k + 1..]
    && (t.desk.book, p) == Paper.Place(s.cfg, PlacedSoFar(s, f, live, bar, k).0, f(bar, live.strat).0[k])
  }

  function IndexOf<S>(f: Strategy<S>, live: Live.LiveRun<S>, bar: Bar, rest: seq<Intent>): int {
    |f(bar, live.strat).0| - 1 - |rest|
  }

  ghost predicate Submitting<S>(s: Setup, f: Strategy<S>, t: Task, live: Live.LiveRun<S>, cur: Option<Bar>,
      p: Paper.Placement, rest: seq<Intent>) {
    cur.Some? && SubmittingAt(s, f, t, live, cur.value, IndexOf(f, live, cur.value, rest), p, rest)
  }

  /** Where the task stands against the live run of the bars at their end and inside the one that is not. */
  ghost predicate Follows<S>(s: Setup, f: Strategy<S>, s0: S, t: Task, live: Live.LiveRun<S>, cur: Option<Bar>,
      idle: bool) {
    match t.pc
    case NotStarted => t == NEW_TASK && cur.None? && !idle && live == Live.Fresh(s0)
    case AnnouncingStart =>
      t == NEW_TASK.(state := Running, pc := AnnouncingStart) && cur.None? && !idle && live == Live.Fresh(s0)
    case AwaitingBar => cur.None? && Realises(t, live, idle) && !live.paused
    case AnnouncingIdle => cur.None? && idle && Realises(t.(pc := AwaitingBar), live, true) && !live.paused
    case AnnouncingResume(bar, out) => Resuming(s, f, t, live, cur, bar, out)
    case Placing(i, rest) => PlacingNow(s, f, t, live, cur, i, rest)
    case Persisting(p, rest) => Submitting(s, f, t, live, cur, p, rest)
    case AnnouncingOrder(p, rest) => Submitting(s, f, t, live, cur, p, rest)
    case AnnouncingFill(p, j, rest) => Submitting(s, f, t, live, cur, p, rest)
    case AnnouncingTrip => cur.None? && Realises(t, live, idle) && live.paused
    case Unwinding(_) => cur.None? && Over(t, live)
    case TearingDown(exit) => exit.Unwound? && cur.None? && Over(t, live)
    case Done(exit) => exit.Unwound? && cur.None? && Over(t, live)
    case _ => false
  }

  ghost predicate Resuming<S>(s: Setup, f: Strategy<S>, t: Task, live: Live.LiveRun<S>, cur: Option<Bar>, bar: Bar,
      out: Option<seq<Intent>>) {
    && cur == Some(bar) && out == Some(f(bar, live.strat).0)
    && !live.paused && live.ledger == Ledger.CreditAll(Ledger.FLAT, live.fills)
    && !t.cancelled && t.state.Running? && t.credited == live.fills
    && t.desk.book == Paper.UpdateMark(s.cfg, live.book, bar.symbol, bar.close).0
  }

  ghost predicate PlacingNow<S>(s: Setup, f: Strategy<S>, t: Task, live: Live.LiveRun<S>, cur: Option<Bar>, i: Intent,
      rest: seq<Intent>) {
    cur.Some? && PlacingAt(s, f, t, live, cur.value, IndexOf(f, live, cur.value, rest), i, rest)
  }

  ghost predicate PlacingAt<S>(s: Setup, f: Strategy<S>, t: Task, live: Live.LiveRun<S>, bar: Bar, k: int, i: Intent,
      rest: seq<Intent>) {
    && Within(s, f, t, live, bar, k) && k < |f(bar, live.strat).0|
    && i == f(bar, live.strat).0[k] && rest == f(bar, live.strat).0[k + 1..]
    && t.desk.book == PlacedSoFar(s, f, live, bar, k).0
  }

  /** Tripped, and unwinding or unwound. */
  ghost predicate Over<S>(t: Task, live: Live.LiveRun<S>) {
    live.paused && !t.cancelled && t.credited == live.fills
  }

  /** The task follows the run of what the schedule has fed it. */
  ghost predicate Stands<S>(s: Setup, f: Strategy<S>, s0: S, t: Task, h: Heard) {
    Follows(s, f, s0, t, Ran(s, f, s0, h.ticks), h.cur, EndsClosed(h.ticks))
  }

  lemma {:induction false} PlacedOneMore<S>(s: Setup, f: Strategy<S>, live: Live.LiveRun<S>, bar: Bar, k: nat)
    requires k < |f(bar, live.strat).0|
    ensures var (b, p) := Paper.Place(s.cfg, PlacedSoFar(s, f, live, bar, k).0, f(bar, live.strat).0[k]);
            PlacedSoFar(s, f, live, bar, k + 1) == (b, PlacedSoFar(s, f, live, bar, k).1 + p.fills)
  {
    var intents := f(bar, live.strat).0;
    assert intents[..k + 1][..k] == intents[..k];
  }

  /** With every intent credited the bar is judged as the loop judges it. */
  lemma {:induction false} BarEnds<S>(s: Setup, f: Strategy<S>, s0: S, t: Task, live: Live.LiveRun<S>, bar: Bar,
      now: int)
    requires Within(s, f, t, live, bar, |f(bar, live.strat).0|)
    requires t.desk.book == PlacedSoFar(s, f, live, bar, |f(bar, live.strat).0|).0
    ensures var k, u := Live.Tick(bar, true, MayJudge(s, bar.tsMs, now)), Judge(s, t, now);
            && (u.pc.AwaitingBar? || u.pc.AnnouncingTrip?)
            && Follows(s, f, s0, u, Live.TickBar(s.cfg, f, s.cap, live, k), None, false)
  {
    var intents := f(bar, live.strat).0;
    assert intents[..|intents|] == intents;
    Live.LiveBarParts(s.cfg, f, if MayJudge(s, bar.tsMs, now) then s.cap else None, live, bar);
    Ledger.CreditAllAppend(Ledger.FLAT, live.fills, PlacedSoFar(s, f, live, bar, |intents|).1);
    JudgesLikeTheLoop(s, t, bar, now);
  }

  /** After a step inside a bar the task is still inside it, or stands at its end. */
  ghost predicate Goes<S>(s: Setup, f: Strategy<S>, s0: S, u: Task, live: Live.LiveRun<S>, bar: Bar, now: int) {
    if u.pc.AwaitingBar? || u.pc.AnnouncingTrip? then
      var k := Live.Tick(bar, true, MayJudge(s, bar.tsMs, now));
      Follows(s, f, s0, u, Live.TickBar(s.cfg, f, s.cap, live, k), None, false)
    else forall idle :: Follows(s, f, s0, u, live, Some(bar), idle)
  }

  lemma {:induction false} SubmitGoes<S>(s: Setup, f: Strategy<S>, s0: S, t: Task, live: Live.LiveRun<S>, bar: Bar,
      k: nat, now: int)
    requires Within(s, f, t, live, bar, k) && t.desk.book == PlacedSoFar(s, f, live, bar, k).0
    ensures Goes(s, f, s0, Submit(s, t, f(bar, live.strat).0[k..], now), live, bar, now)
  {
    var intents := f(bar, live.strat).0;
    if k == |intents| {
      BarEnds(s, f, s0, t, live, bar, now);
    } else {
      assert intents[k..][1..] == intents[k + 1..];
    }
  }

  lemma {:induction false} CreditedWithin<S>(s: Setup, f: Strategy<S>, t: Task, live: Live.LiveRun<S>, bar: Bar, k: nat,
      p: Paper.Placement, rest: seq<Intent>)
    requires SubmittingAt(s, f, t, live, bar, k, p, rest)
    ensures Within(s, f, t.(credited := t.credited + p.fills), live, bar, k + 1)
    ensures t.desk.book == PlacedSoFar(s, f, live, bar, k + 1).0
  {
    PlacedOneMore(s, f, live, bar, k);
    var sofar := PlacedSoFar(s, f, live, bar, k).1;
    assert (live.fills + sofar) + p.fills == live.fills + (sofar + p.fills);
  }

  lemma {:induction false} CreditGoes<S>(s: Setup, f: Strategy<S>, s0: S, t: Task, live: Live.LiveRun<S>, bar: Bar,
      k: nat, p: Paper.Placement, rest: seq<Intent>, now: int)
    requires SubmittingAt(s, f, t, live, bar, k, p, rest)
    ensures Goes(s, f, s0, Credit(s, t, p, rest, now), live, bar, now)
  {
    CreditedWithin(s, f, t, live, bar, k, p, rest);
    SubmitGoes(s, f, s0, t.(credited := t.credited + p.fills), live, bar, k + 1, now);
  }

  /** A submission published: credited, or with its fill still to publish. */
  lemma {:induction false} PublishingGoes<S>(s: Setup, f: Strategy<S>, s0: S, t: Task, live: Live.LiveRun<S>, bar: Bar,
      k: nat, now: int)
    requires !t.cancelled && (t.pc.AnnouncingOrder? || t.pc.AnnouncingFill?)
    requires SubmittingAt(s, f, t, live, bar, k, t.pc.p, t.pc.rest)
    ensures Goes(s, f, s0, Next(s, t, Completes(now)), live, bar, now)
  {
    EffectKeepsControl(s, t);
    if if t.pc.AnnouncingOrder? then t.pc.p.fills == [] else t.pc.j + 1 >= |t.pc.p.fills| {
      CreditGoes(s, f, s0, Effect(s, t), live, bar, k, t.pc.p, t.pc.rest, now);
    }
  }

  lemma {:induction false} PlacingGoes<S>(s: Setup, f: Strategy<S>, s0: S, t: Task, live: Live.LiveRun<S>, bar: Bar,
      idle: bool, now: int)
    requires Follows(s, f, s0, t, live, Some(bar), idle) && (t.pc.Placing? || t.pc.Persisting?)
    ensures Goes(s, f, s0, Next(s, t, Completes(now)), live, bar, now)
  {
    EffectKeepsControl(s, t);
    if t.pc.Placing? {
      assert Effect(s, t).placements[|t.placements|] == Paper.Place(s.cfg, t.desk.book, t.pc.intent).1;
    }
  }

  lemma {:induction false} ResumeGoes<S>(s: Setup, f: Strategy<S>, s0: S, t: Task, live: Live.LiveRun<S>, bar: Bar,
      now: int)
    requires t.pc.AnnouncingResume? && Resuming(s, f, t, live, Some(bar), t.pc.bar, t.pc.out)
    ensures Goes(s, f, s0, Next(s, t, Completes(now)), live, bar, now)
  {
    var u := Effect(s, t).(mark := Some((bar.close, bar.tsMs)));
    assert f(bar, live.strat).0[..0] == [] && f(bar, live.strat).0[0..] == f(bar, live.strat).0;
    assert live.fills + [] == live.fills;
    SubmitGoes(s, f, s0, u, live, bar, 0, now);
  }

  lemma {:induction false} CompletionGoes<S>(s: Setup, f: Strategy<S>, s0: S, t: Task, live: Live.LiveRun<S>, bar: Bar,
      idle: bool, now: int)
    requires Follows(s, f, s0, t, live, Some(bar), idle)
    ensures Goes(s, f, s0, Next(s, t, Completes(now)), live, bar, now)
  {
    match t.pc
    case AnnouncingResume(_, _) => ResumeGoes(s, f, s0, t, live, bar, now);
    case Placing(_, _) => PlacingGoes(s, f, s0, t, live, bar, idle, now);
    case Persisting(_, _) => PlacingGoes(s, f, s0, t, live, bar, idle, now);
    case AnnouncingOrder(_, rest) => PublishingGoes(s, f, s0, t, live, bar, IndexOf(f, live, bar, rest), now);
    case AnnouncingFill(_, _, rest) => PublishingGoes(s, f, s0, t, live, bar, IndexOf(f, live, bar, rest), now);
  }

  lemma {:induction false} OutsideFollows<S>(s: Setup, f: Strategy<S>, s0: S, t: Task, live: Live.LiveRun<S>,
      idle: bool, now: int)
    requires Follows(s, f, s0, t, live, None, idle)
    ensures Follows(s, f, s0, Next(s, t, Completes(now)), live, None, idle)
  {
    EffectKeepsControl(s, t);
    if t.pc.AnnouncingTrip? { TripStep(s, t, now); }
  }

  lemma {:induction false} BarGoes<S>(s: Setup, f: Strategy<S>, s0: S, t: Task, live: Live.LiveRun<S>, idle: bool,
      bar: Bar, now: int, later: int)
    requires Follows(s, f, s0, t, live, None, idle) && Takes(t) && OpenAt(s, now)
    ensures Goes(s, f, s0, Next(s, t, BarArrives(bar, now, Some(f(bar, live.strat).0), later)), live, bar, later)
  {
    var intents := f(bar, live.strat).0;
    if t.state.Idle? {
      ResumedBar(s, t, bar, intents, now, later);
    } else {
      RunningBar(s, t, bar, intents, now, later);
      assert intents[..0] == [] && intents[0..] == intents && live.fills + [] == live.fills;
      SubmitGoes(s, f, s0, Marked(s, t, bar), live, bar, 0, later);
    }
  }

  lemma {:induction false} RanOneMore<S>(s: Setup, f: Strategy<S>, s0: S, ticks: seq<Live.Tick>, k: Live.Tick)
    ensures Ran(s, f, s0, ticks + [k]) == Live.TickBar(s.cfg, f, s.cap, Ran(s, f, s0, ticks), k)
  {
    assert (ticks + [k])[..|ticks|] == ticks;
  }

  /** Where a step inside a bar goes is where the task then stands. */
  lemma {:induction false} GoesStands<S>(s: Setup, f: Strategy<S>, s0: S, u: Task, ticks: seq<Live.Tick>, bar: Bar,
      now: int)
    requires Goes(s, f, s0, u, Ran(s, f, s0, ticks), bar, now)
    ensures Stands(s, f, s0, u, Settle(s, Heard(ticks, Some(bar)), u, now))
  {
    RanOneMore(s, f, s0, ticks, Live.Tick(bar, true, MayJudge(s, bar.tsMs, now)));
  }

  lemma {:induction false} StepStands<S>(s: Setup, f: Strategy<S>, s0: S, h: Heard, t: Task, a: Act)
    requires Stands(s, f, s0, t, h) && Answers(s, f, s0, h, t, a)
    ensures Stands(s, f, s0, Next(s, t, a), Hear(s, h, t, a))
  {
    var live, idle := Ran(s, f, s0, h.ticks), EndsClosed(h.ticks);
    if a.BarArrives? && Takes(t) && OpenAt(s, a.now) {
      BarGoes(s, f, s0, t, live, idle, a.bar, a.now, a.later);
      GoesStands(s, f, s0, Next(s, t, a), h.ticks, a.bar, a.later);
    } else if a.BarArrives? && Takes(t) {
      ClosedBar(s, t, a.bar, a.now, a.out, a.later);
      RanOneMore(s, f, s0, h.ticks, Live.Tick(a.bar, false, false));
    } else if a.Completes? && h.cur.Some? {
      CompletionGoes(s, f, s0, t, live, h.cur.value, idle, a.now);
      GoesStands(s, f, s0, Next(s, t, a), h.ticks, h.cur.value, a.now);
    } else if a.Completes? {
      OutsideFollows(s, f, s0, t, live, idle, a.now);
    }
  }

  /** The step system computes the live run, with market hours or without: after every undisturbed schedule, of
      whatever timing, the task stands where the live run of the bars brought to their end says, and between bars it
      holds exactly that run. */
  lemma {:induction false} UndisturbedIsTheLiveRun<S>(s: Setup, f: Strategy<S>, s0: S, acts: seq<Act>)
    requires Undisturbed(s, f, s0, acts)
    ensures Stands(s, f, s0, Exec(s, acts), Fed(s, acts))
    ensures var t, ticks := Exec(s, acts), Fed(s, acts).ticks;
            t.pc.AwaitingBar? || t.pc.AnnouncingTrip? ==> Realises(t, Ran(s, f, s0, ticks), EndsClosed(ticks))
  {
    if acts != [] {
      var init := acts[..|acts| - 1];
      UndisturbedIsTheLiveRun(s, f, s0, init);
      StepStands(s, f, s0, Fed(s, init), Exec(s, init), acts[|acts| - 1]);
    }
  }

  lemma {:induction false} AlwaysOpen(s: Setup, acts: seq<Act>)
    requires s.session.None?
    ensures forall i :: 0 <= i < |Fed(s, acts).ticks| ==> Fed(s, acts).ticks[i].open && Fed(s, acts).ticks[i].trusted
  {
    if acts != [] { AlwaysOpen(s, acts[..|acts| - 1]); }
  }

  /** Without a session the bars brought to their end make the plain loop's run. */
  lemma {:induction false} WithoutASessionItIsTheLoop<S>(s: Setup, f: Strategy<S>, s0: S, acts: seq<Act>)
    requires s.session.None? && Undisturbed(s, f, s0, acts)
    ensures var t, live := Exec(s, acts), Live.Run(s.cfg, f, s0, s.cap, Live.BarsOf(Fed(s, acts).ticks));
            t.pc.AwaitingBar? || t.pc.AnnouncingTrip? ==> Realises(t, live, false)
  {
    UndisturbedIsTheLiveRun(s, f, s0, acts);
    AlwaysOpen(s, acts);
    Live.OpenTicksAreTheLoop(s.cfg, f, s0, s.cap, Fed(s, acts).ticks);
  }

  // -------------------------------------------------------- and reaches every run

  /** A schedule that is undisturbed, brings exactly these bars to their end and leaves the task holding their run. */
  ghost predicate Reaches<S>(s: Setup, f: Strategy<S>, s0: S, acts: seq<Act>, ticks: seq<Live.Tick>) {
    && Undisturbed(s, f, s0, acts) && Fed(s, acts) == Heard(ticks, None)
    && Realises(Exec(s, acts), Ran(s, f, s0, ticks), EndsClosed(ticks))
  }

  lemma {:induction false} ActsOneMore<S>(s: Setup, f: Strategy<S>, s0: S, acts: seq<Act>, a: Act)
    requires Undisturbed(s, f, s0, acts) && Answers(s, f, s0, Fed(s, acts), Exec(s, acts), a)
    ensures Undisturbed(s, f, s0, acts + [a])
  {
    assert (acts + [a])[..|acts|] == acts;
  }

  lemma {:induction false} FedOneMore(s: Setup, acts: seq<Act>, a: Act)
    ensures Exec(s, acts + [a]) == Next(s, Exec(s, acts), a)
    ensures Fed(s, acts + [a]) == Hear(s, Fed(s, acts), Exec(s, acts), a)
  {
    assert (acts + [a])[..|acts|] == acts;
  }

  /** A bar on its way: inside it, or just past its end. */
  ghost predicate OnItsWay(s: Setup, h: Heard, u: Task, ticks: seq<Live.Tick>, bar: Bar, now: int) {
    || h == Heard(ticks + [Live.Tick(bar, true, MayJudge(s, bar.tsMs, now))], None)
    || (h == Heard(ticks, Some(bar)) && !u.pc.AwaitingBar? && !u.pc.AnnouncingTrip?)
  }

  /** Completions alone, all at one time, bring the bar to its end and no other. */
  lemma {:induction false} CompletionsCarry<S>(s: Setup, f: Strategy<S>, s0: S, acts: seq<Act>, rest: seq<Act>,
      ticks: seq<Live.Tick>, bar: Bar, now: int)
    requires Undisturbed(s, f, s0, acts) && Only(rest, Completes(now))
    requires OnItsWay(s, Fed(s, acts), Exec(s, acts), ticks, bar, now)
    ensures Undisturbed(s, f, s0, acts + rest)
    ensures OnItsWay(s, Fed(s, acts + rest), Exec(s, acts + rest), ticks, bar, now)
    decreases |rest|
  {
    if rest == [] {
      assert acts + rest == acts;
    } else {
      OneThenTheRest(acts, rest, now);
      ActsOneMore(s, f, s0, acts, rest[0]);
      FedOneMore(s, acts, rest[0]);
      CompletionsCarry(s, f, s0, acts + [rest[0]], rest[1..], ticks, bar, now);
    }
  }

  lemma OneThenTheRest(acts: seq<Act>, rest: seq<Act>, now: int)
    requires rest != [] && Only(rest, Completes(now))
    ensures acts + rest == (acts + [rest[0]]) + rest[1..]
    ensures rest[0] == Completes(now) && Only(rest[1..], Completes(now))
  {}

  lemma {:induction false} OpenBarIsHeard<S>(s: Setup, f: Strategy<S>, s0: S, before: seq<Act>, more: seq<Act>,
      ticks: seq<Live.Tick>, bar: Bar, now: int)
    requires Reaches(s, f, s0, before, ticks) && !Ran(s, f, s0, ticks).paused && OpenAt(s, now)
    requires more != [] && more[0] == BarArrives(bar, now, Some(f(bar, Ran(s, f, s0, ticks).strat).0), now)
    requires Only(more[1..], Completes(now))
    requires var u := Exec(s, before + more); u.pc.AwaitingBar? || u.pc.AnnouncingTrip?
    ensures Undisturbed(s, f, s0, before + more)
    ensures Fed(s, before + more) == Heard(ticks + [Live.Tick(bar, true, MayJudge(s, bar.tsMs, now))], None)
  {
    assert before + more == (before + [more[0]]) + more[1..];
    ActsOneMore(s, f, s0, before, more[0]);
    FedOneMore(s, before, more[0]);
    CompletionsCarry(s, f, s0, before + [more[0]], more[1..], ticks, bar, now);
  }

  /** The bars of a stream as a bot with this session meets them, each at the time given with it. */
  function TicksOf(s: Setup, stream: seq<(Bar, int)>): seq<Live.Tick> {
    seq(|stream|, i requires 0 <= i < |stream| => TickAt(s, stream[i].0, stream[i].1))
  }

  function TickAt(s: Setup, bar: Bar, now: int): Live.Tick {
    Live.Tick(bar, OpenAt(s, now), OpenAt(s, now) && MayJudge(s, bar.tsMs, now))
  }

  lemma {:induction false} OneMoreBar<S>(s: Setup, f: Strategy<S>, s0: S, before: seq<Act>, ticks: seq<Live.Tick>,
      bar: Bar, now: int)
      returns (acts: seq<Act>)
    requires Reaches(s, f, s0, before, ticks) && !Ran(s, f, s0, ticks).paused
    ensures Reaches(s, f, s0, acts, ticks + [TickAt(s, bar, now)])
  {
    RanOneMore(s, f, s0, ticks, TickAt(s, bar, now));
    if OpenAt(s, now) {
      var more := BarCompletes(s, f, Exec(s, before), Ran(s, f, s0, ticks), EndsClosed(ticks), bar, now);
      acts := before + more;
      FromAppend(s, NEW_TASK, before, more);
      OpenBarIsHeard(s, f, s0, before, more, ticks, bar, now);
    } else {
      acts := OneClosedBar(s, f, s0, before, ticks, bar, now);
    }
  }

  lemma {:induction false} ClosedBarIsHeard<S>(s: Setup, f: Strategy<S>, s0: S, before: seq<Act>, ticks: seq<Live.Tick>,
      bar: Bar, now: int)
    requires Reaches(s, f, s0, before, ticks) && !Ran(s, f, s0, ticks).paused && !OpenAt(s, now)
    ensures var acts := before + [BarArrives(bar, now, None, now)];
            && Undisturbed(s, f, s0, acts) && Fed(s, acts) == Heard(ticks + [Live.Tick(bar, false, false)], None)
            && Exec(s, acts) == Next(s, Exec(s, before), BarArrives(bar, now, None, now))
  {
    var a := BarArrives(bar, now, None, now);
    ActsOneMore(s, f, s0, before, a);
    FedOneMore(s, before, a);
  }

  lemma {:induction false} IdleIsHeard<S>(s: Setup, f: Strategy<S>, s0: S, acts: seq<Act>, ticks: seq<Live.Tick>,
      now: int)
    requires Undisturbed(s, f, s0, acts) && Fed(s, acts) == Heard(ticks, None)
    ensures var more := acts + [Completes(now)];
            && Undisturbed(s, f, s0, more) && Fed(s, more) == Heard(ticks, None)
            && Exec(s, more) == Next(s, Exec(s, acts), Completes(now))
  {
    ActsOneMore(s, f, s0, acts, Completes(now));
    FedOneMore(s, acts, Completes(now));
  }

  lemma {:induction false} OneClosedBar<S>(s: Setup, f: Strategy<S>, s0: S, before: seq<Act>, ticks: seq<Live.Tick>,
      bar: Bar, now: int)
      returns (acts: seq<Act>)
    requires Reaches(s, f, s0, before, ticks) && !Ran(s, f, s0, ticks).paused && !OpenAt(s, now)
    ensures Reaches(s, f, s0, acts, ticks + [Live.Tick(bar, false, false)])
  {
    var more := ticks + [Live.Tick(bar, false, false)];
    var t, live := Exec(s, before), Ran(s, f, s0, ticks);
    RanOneMore(s, f, s0, ticks, Live.Tick(bar, false, false));
    ClosedBarIsHeard(s, f, s0, before, ticks, bar, now);
    var one := before + [BarArrives(bar, now, None, now)];
    IdleIsHeard(s, f, s0, one, more, now);
    ClosedSteps(s, f, t, live, EndsClosed(ticks), bar, now);
    acts := if EndsClosed(ticks) then one else one + [Completes(now)];
  }

  lemma {:induction false} ClosedSteps<S>(s: Setup, f: Strategy<S>, t: Task, live: Live.LiveRun<S>, idle: bool,
      bar: Bar, now: int)
    requires !OpenAt(s, now) && Realises(t, live, idle) && !live.paused
    ensures var u, after := Next(s, t, BarArrives(bar, now, None, now)),
                            Live.TickBar(s.cfg, f, s.cap, live, Live.Tick(bar, false, false));
            Realises(if idle then u else Next(s, u, Completes(now)), after, true)
  {
    ClosedBar(s, t, bar, now, None, now);
  }

  lemma {:induction false} StaysPaused<S>(s: Setup, f: Strategy<S>, s0: S, ticks: seq<Live.Tick>, k: Live.Tick)
    requires Ran(s, f, s0, ticks).paused
    ensures Ran(s, f, s0, ticks + [k]) == Ran(s, f, s0, ticks)
  {
    RanOneMore(s, f, s0, ticks, k);
  }

  /** The schedule brings the first `n` bars to their end, which is the whole stream unless its run has paused. */
  ghost predicate Plays<S>(s: Setup, f: Strategy<S>, s0: S, acts: seq<Act>, ticks: seq<Live.Tick>, n: nat) {
    && n <= |ticks| && Reaches(s, f, s0, acts, ticks[..n])
    && Ran(s, f, s0, ticks) == Ran(s, f, s0, ticks[..n])
    && (n < |ticks| ==> Ran(s, f, s0, ticks).paused)
  }

  lemma {:induction false} PlaysOneMore<S>(s: Setup, f: Strategy<S>, s0: S, before: seq<Act>, ticks: seq<Live.Tick>,
      n: nat, bar: Bar, now: int)
      returns (acts: seq<Act>, m: nat)
    requires Plays(s, f, s0, before, ticks, n)
    ensures Plays(s, f, s0, acts, ticks + [TickAt(s, bar, now)], m)
  {
    var more := ticks + [TickAt(s, bar, now)];
    if Ran(s, f, s0, ticks).paused {
      StaysPaused(s, f, s0, ticks, TickAt(s, bar, now));
      acts, m := before, n;
      assert more[..n] == ticks[..n];
    } else {
      assert ticks[..n] == ticks && more[..n + 1] == more;
      acts := OneMoreBar(s, f, s0, before, ticks, bar, now);
      m := n + 1;
    }
  }

  /** And such schedules reach the end of every stream, met at any times: one brings the bars in order to their end,
      all of them or up to the one that trips, and leaves the task holding the live run of the whole stream. */
  lemma {:induction false} StepsRealiseTheLiveRun<S>(s: Setup, f: Strategy<S>, s0: S, stream: seq<(Bar, int)>, now: int)
      returns (acts: seq<Act>, n: nat)
    ensures Plays(s, f, s0, acts, TicksOf(s, stream), n)
  {
    if stream == [] {
      acts := StartUp(s, f, s0, now);
      n := 0;
    } else {
      var init, last := stream[..|stream| - 1], stream[|stream| - 1];
      acts, n := StepsRealiseTheLiveRun(s, f, s0, init, now);
      acts, n := PlaysOneMore(s, f, s0, acts, TicksOf(s, init), n, last.0, last.1);
      TicksOneMore(s, stream);
    }
  }

  lemma TicksOneMore(s: Setup, stream: seq<(Bar, int)>)
    requires stream != []
    ensures var init, last := stream[..|stream| - 1], stream[|stream| - 1];
            TicksOf(s, stream) == TicksOf(s, init) + [TickAt(s, last.0, last.1)]
  {}

  lemma {:induction false} StartUp<S>(s: Setup, f: Strategy<S>, s0: S, now: int) returns (acts: seq<Act>)
    ensures Reaches(s, f, s0, acts, [])
  {
    var c := Completes(now);
    FedOneMore(s, [], c);
    FedOneMore(s, [] + [c], c);
    ActsOneMore(s, f, s0, [], c);
    ActsOneMore(s, f, s0, [] + [c], c);
    assert Exec(s, []) == NEW_TASK && Fed(s, []) == Heard([], None);
    acts := [] + [c] + [c];
  }
}
