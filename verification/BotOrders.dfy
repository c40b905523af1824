/** What a bot's task can leave resting at the venue, over every interleaving of its steps. */
module BotOrders {
  import opened Basics
  import opened Journal
  import opened Router
  import opened BotTask
  import Paper

  // ------------------------------------------------- what can be resting, and who knows

  predicate KillHolds(kills: seq<KillPc>, id: nat) {
    exists i :: 0 <= i < |kills| && kills[i].Clearing? && id in Left(kills[i].sweep)
  }

  /** Somebody answers for the order: the open set, the submission in flight, the cut, a sweep that has
      yet to reach it, or the record of what interrupted sweeps have dropped. */
  predicate Tracked(t: Task, id: nat) {
    || id in OpenIds(t.desk.open)
    || (t.pc.Persisting? && Rests(t.pc.p) && t.pc.p.orderId == id)
    || t.cut == Some(id)
    || (t.pc.Unwinding? && id in Left(t.pc.sweep))
    || id in t.desk.forgotten
    || KillHolds(t.kills, id)
  }

  ghost predicate Cover(t: Task) {
    forall r :: r in t.desk.book.resting ==> Tracked(t, r.id)
  }

  /** Away from the submission and the sweep, what is tracked depends on four fields. */
  lemma CarryOver(t: Task, u: Task)
    requires Cover(t) && !t.pc.Persisting? && !t.pc.Unwinding?
    requires u.desk.open == t.desk.open && (u.cut == t.cut || t.cut.None?) && u.desk.forgotten == t.desk.forgotten
             && u.kills == t.kills
    requires forall r :: r in u.desk.book.resting ==>
               r in t.desk.book.resting || u.cut == Some(r.id)
               || (u.pc.Persisting? && Rests(u.pc.p) && u.pc.p.orderId == r.id)
    ensures Cover(u)
  {
    forall r | r in u.desk.book.resting ensures Tracked(u, r.id) {
      if r in t.desk.book.resting {
        assert Tracked(t, r.id);
      }
    }
  }

  lemma RegisteredIds(open: seq<OpenOrder>, p: Paper.Placement)
    ensures forall id :: id in OpenIds(Registered(open, p)) <==> id in OpenIds(open) || (Rests(p) && id == p.orderId)
  {
    var more := Registered(open, p);
    forall id | id in OpenIds(open) || (Rests(p) && id == p.orderId) ensures id in OpenIds(more) {
      if id in OpenIds(open) {
        var k :| 0 <= k < |open| && OpenIds(open)[k] == id;
        assert OpenIds(more)[k] == id;
      } else {
        assert OpenIds(more)[|open|] == id;
      }
    }
    forall id | id in OpenIds(more) ensures id in OpenIds(open) || (Rests(p) && id == p.orderId) {
      var k :| 0 <= k < |more| && OpenIds(more)[k] == id;
      if k < |open| { assert OpenIds(open)[k] == id; }
    }
  }

  lemma PlacedRests(cfg: Paper.Config, b: Paper.Book, i: Intent, r: Paper.Resting)
    requires r in Paper.Place(cfg, b, i).0.resting
    ensures r in b.resting || (Rests(Paper.Place(cfg, b, i).1) && r.id == Paper.Place(cfg, b, i).1.orderId)
  {}

  /** One operation of a sweep: what still rests is what it has yet to reach. */
  lemma SweepReaches(d: Desk, sw: Sweep, r: Paper.Resting)
    requires r in SweepEffect(d, sw).book.resting
    ensures r in d.book.resting
    ensures r.id in Left(sw) ==> SweepNext(sw).Some? && r.id in Left(SweepNext(sw).value)
    ensures r.id in Left(sw) ==> r.id in Lost(sw, true)
  {
    if sw.Sweeping? && sw.todo != [] {
      Paper.WithoutMembers(d.book.resting, sw.todo[0]);
      if r.id in Left(sw) {
        var k :| 0 <= k < |sw.todo| && sw.todo[k] == r.id;
        assert sw.todo[1..][k - 1] == r.id;
      }
    }
  }

  lemma PlacingCovers(s: Setup, t: Task, now: int)
    requires Cover(t) && t.pc.Placing?
    ensures Cover(Resume(s, Effect(s, t), now))
  {
    var u := Resume(s, Effect(s, t), now);
    forall r | r in u.desk.book.resting
      ensures r in t.desk.book.resting || (u.pc.Persisting? && Rests(u.pc.p) && u.pc.p.orderId == r.id)
    {
      PlacedRests(s.cfg, t.desk.book, t.pc.intent, r);
    }
    CarryOver(t, u);
  }

  lemma RegisteringCovers(s: Setup, t: Task, now: int)
    requires Cover(t) && t.pc.Persisting?
    ensures Cover(Resume(s, Effect(s, t), now))
  {
    var u := Resume(s, Effect(s, t), now);
    RegisteredIds(t.desk.open, t.pc.p);
    forall r | r in u.desk.book.resting ensures Tracked(u, r.id) {
      assert Tracked(t, r.id);
    }
  }

  lemma UnwindingCovers(s: Setup, t: Task, now: int)
    requires Cover(t) && t.pc.Unwinding?
    ensures Cover(Resume(s, Effect(s, t), now))
  {
    var u := Resume(s, Effect(s, t), now);
    forall r | r in u.desk.book.resting ensures Tracked(u, r.id) {
      SweepReaches(t.desk, t.pc.sweep, r);
      assert Tracked(t, r.id);
    }
  }

  lemma TrippingCovers(s: Setup, t: Task, now: int)
    requires Cover(t) && t.pc.AnnouncingTrip?
    ensures Cover(Resume(s, Effect(s, t), now))
  {
    var u := Resume(s, Effect(s, t), now);
    forall r | r in u.desk.book.resting ensures Tracked(u, r.id) {
      assert Tracked(t, r.id);
    }
  }

  lemma CompletesCovers(s: Setup, t: Task, now: int)
    requires Cover(t)
    ensures Cover(Resume(s, Effect(s, t), now))
  {
    if t.pc.Placing? {
      PlacingCovers(s, t, now);
    } else if t.pc.Persisting? {
      RegisteringCovers(s, t, now);
    } else if t.pc.Unwinding? {
      UnwindingCovers(s, t, now);
    } else if t.pc.AnnouncingTrip? {
      TrippingCovers(s, t, now);
    } else {
      OthersHold(s, t, now);
      CarryOver(t, Resume(s, Effect(s, t), now));
    }
  }

  lemma OthersHold(s: Setup, t: Task, now: int)
    requires !t.pc.Placing? && !t.pc.Persisting? && !t.pc.Unwinding? && !t.pc.AnnouncingTrip?
    ensures var u := Resume(s, Effect(s, t), now);
            && u.desk.book == t.desk.book && u.desk.open == t.desk.open && u.desk.forgotten == t.desk.forgotten
            && u.cut == t.cut && u.kills == t.kills
  {}

  lemma InterruptionCovers(s: Setup, t: Task, took: bool)
    requires Cover(t) && Shape(t)
    ensures var u := Interrupted(s, t, took);
            forall r :: r in u.desk.book.resting ==>
              r.id in OpenIds(u.desk.open) || u.cut == Some(r.id) || r.id in u.desk.forgotten
              || KillHolds(u.kills, r.id)
  {
    var u := Interrupted(s, t, took);
    forall r | r in u.desk.book.resting
      ensures r.id in OpenIds(u.desk.open) || u.cut == Some(r.id) || r.id in u.desk.forgotten
              || KillHolds(u.kills, r.id)
    {
      if t.pc.Placing? && took {
        PlacedRests(s.cfg, t.desk.book, t.pc.intent, r);
      }
      if t.pc.Unwinding? && took {
        SweepReaches(t.desk, t.pc.sweep, r);
      }
      if r in t.desk.book.resting {
        assert Tracked(t, r.id);
      }
    }
  }

  lemma LeavingCovers(s: Setup, t: Task)
    requires forall r :: r in t.desk.book.resting ==>
               r.id in OpenIds(t.desk.open) || t.cut == Some(r.id) || r.id in t.desk.forgotten
               || KillHolds(t.kills, r.id)
    ensures Cover(Raise(s, t)) && Cover(Cancelling(s, t).(cancelled := false))
  {
    var u, v := Raise(s, t), Cancelling(s, t).(cancelled := false);
    assert u.desk == t.desk && u.cut == t.cut && u.kills == t.kills;
    assert v.desk == t.desk && v.cut == t.cut && v.kills == t.kills;
  }

  lemma BarCovers(s: Setup, t: Task, bar: Bar, now: int, out: Option<seq<Intent>>, later: int)
    requires Cover(t) && t.pc.AwaitingBar?
    ensures Cover(OnBar(s, t, bar, now, out, later))
  {
    Paper.KeptMembers(t.desk.book.resting, bar.symbol, bar.close);
    CarryOver(t, OnBar(s, t, bar, now, out, later));
  }

  lemma KillCovers(t: Task, i: nat)
    requires Cover(t) && i < |t.kills|
    ensures Cover(KillResume(t, i))
  {
    var u := KillResume(t, i);
    forall r | r in u.desk.book.resting ensures Tracked(u, r.id) {
      if t.kills[i].Clearing? {
        SweepReaches(t.desk, t.kills[i].sweep, r);
      }
      assert Tracked(t, r.id);
      KillHoldsOn(t, u, i, r.id);
    }
  }

  /** A kill that moves on leaves the other kills' holdings alone. */
  lemma KillHoldsOn(t: Task, u: Task, i: nat, id: nat)
    requires i < |t.kills| == |u.kills| && u.kills == t.kills[i := u.kills[i]]
    ensures KillHolds(t.kills, id) ==> KillHolds(u.kills, id) || (t.kills[i].Clearing? && id in Left(t.kills[i].sweep))
    ensures u.kills[i].Clearing? && id in Left(u.kills[i].sweep) ==> KillHolds(u.kills, id)
  {
    if KillHolds(t.kills, id) {
      var j :| 0 <= j < |t.kills| && t.kills[j].Clearing? && id in Left(t.kills[j].sweep);
      if j != i {
        assert u.kills[j] == t.kills[j];
      }
    }
  }

  lemma KillInterruptionCovers(t: Task, i: nat, took: bool)
    requires Cover(t) && i < |t.kills|
    ensures Cover(KillInterrupted(t, i, took))
  {
    var u := KillInterrupted(t, i, took);
    forall r | r in u.desk.book.resting ensures Tracked(u, r.id) {
      if t.kills[i].Clearing? && took {
        SweepReaches(t.desk, t.kills[i].sweep, r);
      }
      assert Tracked(t, r.id);
      KillHoldsOn(t, u, i, r.id);
    }
  }

  lemma StepCovers(s: Setup, t: Task, a: Act)
    requires Shape(t) && Cover(t)
    ensures Cover(Next(s, t, a))
  {
    match a
    case Completes(now) => CompletesCovers(s, t, now);
    case Fails(took) =>
      InterruptionCovers(s, t, took);
      LeavingCovers(s, Interrupted(s, t, took));
    case Delivered(took) =>
      InterruptionCovers(s, t, took);
      LeavingCovers(s, Interrupted(s, t, took));
    case BarArrives(bar, now, out, later) => if t.pc.AwaitingBar? { BarCovers(s, t, bar, now, out, later); }
    case KillCompletes(i) => if i < |t.kills| { KillCovers(t, i); }
    case KillFails(i, took) => if i < |t.kills| { KillInterruptionCovers(t, i, took); }
    case _ => SameHoldings(t, Next(s, t, a));
  }

  lemma SameHoldings(t: Task, u: Task)
    requires Cover(t) && u.desk == t.desk && u.cut == t.cut && t.kills <= u.kills
    requires u.pc == t.pc || (!t.pc.Persisting? && !t.pc.Unwinding?)
    ensures Cover(u)
  {
    forall r | r in u.desk.book.resting ensures Tracked(u, r.id) {
      assert Tracked(t, r.id);
      if KillHolds(t.kills, r.id) {
        var j :| 0 <= j < |t.kills| && t.kills[j].Clearing? && r.id in Left(t.kills[j].sweep);
        assert u.kills[j] == t.kills[j];
      }
    }
  }

  // -------------------------------------------------------------- finished sweeps

  predicate NoKillClearing(t: Task) {
    forall i :: 0 <= i < |t.kills| ==> !t.kills[i].Clearing?
  }

  /** From the breaker's sweep to the end of a run whose sweep went through. */
  predicate InUnwinding(pc: Pc) {
    pc.Unwinding? || ((pc.TearingDown? || pc.Done?) && pc.exit.Unwound?)
  }

  /** Once a sweep has begun the open set is empty for good; until one is interrupted nothing is forgotten. */
  ghost predicate SweptClean(t: Task) {
    && (InUnwinding(t.pc) ==> t.desk.open == [] && t.cut.None? && NoKillClearing(t))
    && ((exists i :: 0 <= i < |t.kills| && !t.kills[i].Waiting?) ==> t.desk.open == [])
    && (CanTrade(t) || t.pc.AnnouncingTrip? || InUnwinding(t.pc) ==> t.desk.forgotten == {})
  }

  lemma ResumeSweepsClean(s: Setup, t: Task, now: int)
    requires Shape(t) && SweptClean(t) && !t.cancelled
    ensures SweptClean(Resume(s, t, now))
  {}

  lemma EffectSweepsClean(s: Setup, t: Task)
    requires Shape(t) && SweptClean(t)
    ensures Shape(Effect(s, t)) && SweptClean(Effect(s, t))
  {
    EffectKeepsControl(s, t);
  }

  lemma InterruptionSweepsClean(s: Setup, t: Task, took: bool)
    requires Shape(t) && SweptClean(t)
    ensures !t.cancelled ==> SweptClean(Raise(s, Interrupted(s, t, took)))
    ensures t.cancelled ==> SweptClean(Cancelling(s, Interrupted(s, t, took)).(cancelled := false))
  {
    InterruptionKeepsControl(s, t, took);
    var u := Interrupted(s, t, took);
    assert !t.pc.Unwinding? ==> u.desk.forgotten == t.desk.forgotten by { EffectKeepsControl(s, t); }
    LeavingSweepsClean(s, t, u);
  }

  lemma LeavingSweepsClean(s: Setup, t: Task, u: Task)
    requires Shape(t) && SweptClean(t) && SameControl(t, u)
    requires !t.pc.Unwinding? ==> u.desk.forgotten == t.desk.forgotten
    requires u.cut != t.cut ==> t.pc.Placing? || t.pc.Persisting?
    ensures !t.cancelled ==> SweptClean(Raise(s, u))
    ensures t.cancelled ==> SweptClean(Cancelling(s, u).(cancelled := false))
  {}

  lemma BarSweepsClean(s: Setup, t: Task, bar: Bar, now: int, out: Option<seq<Intent>>, later: int)
    requires Shape(t) && SweptClean(t) && !t.cancelled && t.pc.AwaitingBar?
    ensures SweptClean(OnBar(s, t, bar, now, out, later))
  {}

  lemma KillSweepsClean(t: Task, i: nat, took: bool)
    requires Shape(t) && SweptClean(t) && i < |t.kills|
    ensures SweptClean(KillResume(t, i)) && SweptClean(KillInterrupted(t, i, took))
  {
    var u, v := KillResume(t, i), KillInterrupted(t, i, took);
    assert forall j :: 0 <= j < |t.kills| && j != i ==> u.kills[j] == t.kills[j] && v.kills[j] == t.kills[j];
    assert !t.kills[i].Waiting? ==> t.desk.open == [];
  }

  lemma StepSweepsClean(s: Setup, t: Task, a: Act)
    requires Shape(t) && SweptClean(t)
    ensures SweptClean(Next(s, t, a))
  {
    match a
    case Completes(now) =>
      EffectSweepsClean(s, t);
      EffectKeepsControl(s, t);
      if !t.cancelled { ResumeSweepsClean(s, Effect(s, t), now); }
    case Fails(took) => InterruptionSweepsClean(s, t, took);
    case Delivered(took) => InterruptionSweepsClean(s, t, took);
    case BarArrives(bar, now, out, later) =>
      if !t.cancelled && t.pc.AwaitingBar? { BarSweepsClean(s, t, bar, now, out, later); }
    case KillCompletes(i) => if i < |t.kills| { KillSweepsClean(t, i, false); }
    case KillFails(i, took) => if i < |t.kills| { KillSweepsClean(t, i, took); }
    case KillCalled =>
      var u := Next(s, t, a);
      assert forall j :: 0 <= j < |t.kills| ==> u.kills[j] == t.kills[j];
    case _ =>
  }

  // ----------------------------------------------- what the router believes is open

  /** The limit orders placed, oldest first. */
  function LimitIds(ps: seq<Paper.Placement>): seq<nat> {
    if ps == [] then [] else
      LimitIds(ps[..|ps| - 1]) + if Rests(ps[|ps| - 1]) then [ps[|ps| - 1].orderId] else []
  }

  function CancelledIds(log: seq<Event>): seq<nat> {
    if log == [] then [] else
      CancelledIds(log[..|log| - 1]) + if log[|log| - 1].OrderCancelled? then [log[|log| - 1].orderId] else []
  }

  lemma {:induction false} CancelledEmit(log: seq<Event>, e: Event)
    ensures CancelledIds(log + [e]) == CancelledIds(log) + if e.OrderCancelled? then [e.orderId] else []
  {
    assert (log + [e])[..|log|] == log;
  }

  lemma {:induction false} LimitPlaced(ps: seq<Paper.Placement>, p: Paper.Placement)
    ensures LimitIds(ps + [p]) == LimitIds(ps) + if Rests(p) then [p.orderId] else []
  {
    assert (ps + [p])[..|ps|] == ps;
  }

  /** Whatever rests, and whatever the mark filled unseen, is a limit order this run placed. */
  ghost predicate Known(t: Task) {
    && (forall r :: r in t.desk.book.resting ==> r.id in LimitIds(t.placements))
    && (forall f :: f in t.missed ==> f.orderId in LimitIds(t.placements))
  }

  lemma EffectKnown(s: Setup, t: Task)
    requires Known(t)
    ensures Known(Effect(s, t))
  {
    var u := Effect(s, t);
    if t.pc.Placing? {
      LimitPlaced(t.placements, u.placements[|t.placements|]);
      forall r | r in u.desk.book.resting ensures r.id in LimitIds(u.placements) {
        PlacedRests(s.cfg, t.desk.book, t.pc.intent, r);
      }
    } else if t.pc.Unwinding? {
      forall r | r in u.desk.book.resting ensures r.id in LimitIds(u.placements) {
        SweepReaches(t.desk, t.pc.sweep, r);
      }
    }
  }

  lemma MarkedKnown(s: Setup, t: Task, u: Task, bar: Bar)
    requires Known(t) && u.placements == t.placements
    requires var marked := Paper.UpdateMark(s.cfg, t.desk.book, bar.symbol, bar.close);
             u.desk.book == marked.0 && u.missed == t.missed + marked.1
    ensures Known(u)
  {
    var b := t.desk.book;
    Paper.KeptMembers(b.resting, bar.symbol, bar.close);
    Paper.MatchedExecutes(s.cfg, b.resting, bar.symbol, bar.close, b.nextId);
    forall f | f in Paper.UpdateMark(s.cfg, b, bar.symbol, bar.close).1 ensures f.orderId in LimitIds(t.placements) {
      var r :| r in b.resting && Paper.FillOf(s.cfg, f, r, bar.symbol, bar.close);
    }
  }

  lemma BarKnown(s: Setup, t: Task, bar: Bar, now: int, out: Option<seq<Intent>>, later: int)
    requires Known(t) && t.pc.AwaitingBar?
    ensures Known(OnBar(s, t, bar, now, out, later))
  {
    BarKeeps(s, t, bar, now, out, later);
    MarkedKnown(s, t, OnBar(s, t, bar, now, out, later), bar);
  }

  lemma InterruptionKnown(s: Setup, t: Task, took: bool)
    requires Known(t)
    ensures Known(Raise(s, Interrupted(s, t, took)))
            && Known(Cancelling(s, Interrupted(s, t, took)).(cancelled := false))
  {
    EffectKnown(s, t);
    EffectKeepsControl(s, t);
    InterruptedKeeps(s, t, took);
    ExitsKeep(s, Interrupted(s, t, took));
  }

  lemma KillKnown(t: Task, i: nat, took: bool)
    requires Known(t) && i < |t.kills|
    ensures Known(KillResume(t, i)) && Known(KillInterrupted(t, i, took))
  {
    if t.kills[i].Clearing? {
      var sw := t.kills[i].sweep;
      forall r | r in SweepEffect(t.desk, sw).book.resting ensures r.id in LimitIds(t.placements) {
        SweepReaches(t.desk, sw, r);
      }
    }
  }

  /** Nothing but a sweep takes an order out of the open set: while the run goes on it holds every limit
      order ever recorded, filled or not, and a sweep that goes through reports every one cancelled. */
  ghost predicate Remembers(t: Task) {
    match t.pc
    case Persisting(p, _) =>
      && t.placements != [] && p == t.placements[|t.placements| - 1]
      && OpenIds(t.desk.open) == LimitIds(t.placements[..|t.placements| - 1]) && CancelledIds(t.desk.log) == []
    case Unwinding(Sweeping(todo, done)) => done + todo == LimitIds(t.placements) && CancelledIds(t.desk.log) == []
    case Unwinding(Reporting(id, rest)) => CancelledIds(t.desk.log) + [id] + rest == LimitIds(t.placements)
    case AnnouncingError => true
    case TearingDown(exit) => exit.Unwound? ==> CancelledIds(t.desk.log) == LimitIds(t.placements)
    case AnnouncingStop => true
    case Done(exit) => exit.Unwound? ==> CancelledIds(t.desk.log) == LimitIds(t.placements)
    case _ => OpenIds(t.desk.open) == LimitIds(t.placements) && CancelledIds(t.desk.log) == []
  }

  lemma RegisteredAppends(open: seq<OpenOrder>, p: Paper.Placement)
    ensures OpenIds(Registered(open, p)) == OpenIds(open) + if Rests(p) then [p.orderId] else []
  {}

  lemma PersistingRemembers(s: Setup, t: Task, now: int)
    requires Remembers(t) && (t.pc.Placing? || t.pc.Persisting?)
    ensures Remembers(Resume(s, Effect(s, t), now))
  {
    if t.pc.Placing? {
      var p := Effect(s, t).placements[|t.placements|];
      assert (t.placements + [p])[..|t.placements|] == t.placements;
    } else {
      RegisteredAppends(t.desk.open, t.pc.p);
    }
  }

  lemma UnwindingRemembers(s: Setup, t: Task, now: int)
    requires Remembers(t) && t.pc.Unwinding?
    ensures Remembers(Resume(s, Effect(s, t), now))
  {
    if t.pc.sweep.Sweeping? {
      SweepingRemembers(s, t, now);
    } else {
      ReportingRemembers(s, t, now);
    }
  }

  lemma SweepingRemembers(s: Setup, t: Task, now: int)
    requires Remembers(t) && t.pc.Unwinding? && t.pc.sweep.Sweeping?
    ensures Remembers(Resume(s, Effect(s, t), now))
  {
    var todo, done := t.pc.sweep.todo, t.pc.sweep.done;
    if todo != [] {
      assert (done + [todo[0]]) + todo[1..] == done + todo;
    } else if done != [] {
      assert [] + [done[0]] + done[1..] == done + [];
    }
  }

  lemma ReportingRemembers(s: Setup, t: Task, now: int)
    requires Remembers(t) && t.pc.Unwinding? && t.pc.sweep.Reporting?
    ensures Remembers(Resume(s, Effect(s, t), now))
  {
    var id, rest, before := t.pc.sweep.id, t.pc.sweep.rest, CancelledIds(t.desk.log);
    CancelledEmit(t.desk.log, OrderCancelled(id));
    if rest != [] {
      assert before + [id] + rest == (before + [id]) + [rest[0]] + rest[1..];
    } else {
      assert before + [id] + rest == before + [id];
    }
  }

  lemma TrippingRemembers(s: Setup, t: Task, now: int)
    requires Remembers(t) && t.pc.AnnouncingTrip?
    ensures Remembers(Resume(s, Effect(s, t), now))
  {
    TripStep(s, t, now);
    CancelledEmit(t.desk.log, CircuitTripped);
    var ids := OpenIds(t.desk.open);
    assert [] + ids == ids;
  }

  /** Away from submissions and sweeps, an effect is at most an event, and not a cancellation. */
  lemma QuietEffect(s: Setup, t: Task)
    requires !t.pc.Placing? && !t.pc.Persisting? && !t.pc.Unwinding?
    ensures var u := Effect(s, t);
            && u.desk.open == t.desk.open && u.placements == t.placements
            && CancelledIds(u.desk.log) == CancelledIds(t.desk.log)
  {
    if Says(t.pc).Some? {
      CancelledEmit(t.desk.log, Says(t.pc).value);
    }
  }

  lemma OthersRemember(s: Setup, t: Task, now: int)
    requires Remembers(t) && !t.pc.Placing? && !t.pc.Persisting? && !t.pc.AnnouncingTrip? && !t.pc.Unwinding?
    ensures Remembers(Resume(s, Effect(s, t), now))
  {
    QuietEffect(s, t);
    EffectKeepsControl(s, t);
    ResumeKeeps(s, Effect(s, t), now);
    ResumeLeads(s, Effect(s, t), now);
    QuietlyRemembers(t, Resume(s, Effect(s, t), now));
  }

  /** Nothing placed, registered or cancelled, and the counter where a quiet resumption can lead. */
  lemma QuietlyRemembers(t: Task, u: Task)
    requires Remembers(t) && !t.pc.Placing? && !t.pc.Persisting? && !t.pc.AnnouncingTrip? && !t.pc.Unwinding?
    requires u.placements == t.placements && u.desk.open == t.desk.open
    requires CancelledIds(u.desk.log) == CancelledIds(t.desk.log)
    requires || (Early(t.pc) && ((Early(u.pc) && !u.pc.Persisting?) || u.pc.AnnouncingError?))
             || (!Early(t.pc) && (u.pc == t.pc || OnTheWayOut(u.pc) || (t.pc.TearingDown? && u.pc == Done(t.pc.exit))))
    ensures Remembers(u)
  {}

  /** Out by any exit but the sweep's own, nothing is left to remember. */
  lemma LeavingRemembers(t: Task, u: Task)
    requires Remembers(t)
    requires || OnTheWayOut(u.pc)
             || (t.pc.TearingDown? && u.pc == Done(t.pc.exit))
             || (u.pc == t.pc && (t.pc.NotStarted? || t.pc.Done? || t.pc.AnnouncingError?))
    requires t.pc.TearingDown? || t.pc.NotStarted? || t.pc.Done? ==>
               u.placements == t.placements && u.desk.open == t.desk.open && u.desk.log == t.desk.log
    ensures Remembers(u)
  {}

  lemma InterruptionRemembers(s: Setup, t: Task, took: bool)
    requires Remembers(t)
    ensures Remembers(Raise(s, Interrupted(s, t, took)))
            && Remembers(Cancelling(s, Interrupted(s, t, took)).(cancelled := false))
  {
    var u := Interrupted(s, t, took);
    InterruptedKeeps(s, t, took);
    ExitsKeep(s, u);
    ExitsLead(s, u);
    LeavingRemembers(t, Raise(s, u));
    LeavingRemembers(t, Cancelling(s, u).(cancelled := false));
  }

  lemma BarRemembers(s: Setup, t: Task, bar: Bar, now: int, out: Option<seq<Intent>>, later: int)
    requires Remembers(t) && t.pc.AwaitingBar?
    ensures Remembers(OnBar(s, t, bar, now, out, later))
  {
    BarKeeps(s, t, bar, now, out, later);
    BarredRemembers(t, OnBar(s, t, bar, now, out, later));
  }

  lemma BarredRemembers(t: Task, u: Task)
    requires Remembers(t) && t.pc.AwaitingBar? && AfterBar(t, u)
    ensures Remembers(u)
  {}

  lemma KillRemembers(t: Task, i: nat, took: bool)
    requires Shape(t) && SweptClean(t) && Remembers(t) && i < |t.kills|
    ensures Remembers(KillResume(t, i)) && Remembers(KillInterrupted(t, i, took))
  {
    CancelledEmit(t.desk.log, BotKilled);
  }

  // ------------------------------------------------------- the cut order does rest

  /** Order ids are handed out upwards. */
  ghost predicate Ascending(t: Task) {
    && (forall i :: 0 <= i < |t.placements| ==> t.placements[i].orderId < t.desk.book.nextId)
    && (forall i, j :: 0 <= i < j < |t.placements| ==> t.placements[i].orderId < t.placements[j].orderId)
  }

  lemma {:induction false} LimitIdsBelow(ps: seq<Paper.Placement>, bound: nat)
    requires forall i :: 0 <= i < |ps| ==> ps[i].orderId < bound
    ensures forall id :: id in LimitIds(ps) ==> id < bound
  {
    if ps != [] {
      LimitIdsBelow(ps[..|ps| - 1], bound);
    }
  }

  lemma EffectAscends(s: Setup, t: Task)
    requires Ascending(t)
    ensures Ascending(Effect(s, t))
  {}

  lemma StepAscends(s: Setup, t: Task, a: Act)
    requires Ascending(t)
    ensures Ascending(Next(s, t, a))
  {
    match a
    case Completes(now) =>
      EffectAscends(s, t);
      ResumeKeeps(s, Effect(s, t), now);
    case Fails(took) => InterruptionAscends(s, t, took);
    case Delivered(took) => InterruptionAscends(s, t, took);
    case BarArrives(bar, now, out, later) => if t.pc.AwaitingBar? { BarKeeps(s, t, bar, now, out, later); }
    case KillCompletes(i) =>
    case KillFails(i, took) =>
    case _ =>
  }

  lemma InterruptionAscends(s: Setup, t: Task, took: bool)
    requires Ascending(t)
    ensures Ascending(Raise(s, Interrupted(s, t, took)))
            && Ascending(Cancelling(s, Interrupted(s, t, took)).(cancelled := false))
  {
    EffectAscends(s, t);
    InterruptedKeeps(s, t, took);
    ExitsKeep(s, Interrupted(s, t, took));
  }

  /** A limit order being recorded rests at the venue; so does a cut one, and no open set or kill knows it. */
  ghost predicate CutRests(t: Task) {
    && (t.pc.Persisting? && Rests(t.pc.p) ==> t.pc.p.orderId in Paper.Ids(t.desk.book.resting))
    && (t.cut.Some? ==>
          && t.cut.value in Paper.Ids(t.desk.book.resting)
          && t.cut.value !in OpenIds(t.desk.open) && !KillHolds(t.kills, t.cut.value))
  }

  lemma OnlyPlacingPersists(s: Setup, t: Task, now: int)
    requires !t.pc.Placing?
    ensures !Resume(s, t, now).pc.Persisting?
  {}

  lemma PlacedIsThere(cfg: Paper.Config, b: Paper.Book, i: Intent)
    requires Rests(Paper.Place(cfg, b, i).1)
    ensures Paper.Place(cfg, b, i).1.orderId in Paper.Ids(Paper.Place(cfg, b, i).0.resting)
    ensures Paper.Place(cfg, b, i).1.orderId == b.nextId
  {
    assert Paper.Resting(b.nextId, i) in Paper.Place(cfg, b, i).0.resting;
  }

  lemma CompletesCutRests(s: Setup, t: Task, now: int)
    requires Shape(t) && CutRests(t)
    ensures CutRests(Resume(s, Effect(s, t), now))
  {
    EffectKeepsControl(s, t);
    if t.pc.Placing? {
      if Rests(Paper.Place(s.cfg, t.desk.book, t.pc.intent).1) {
        PlacedIsThere(s.cfg, t.desk.book, t.pc.intent);
      }
    } else {
      OnlyPlacingPersists(s, Effect(s, t), now);
      ResumeKeeps(s, Effect(s, t), now);
      if t.cut.Some? {
        OthersHold(s, t, now);
      }
    }
  }

  lemma InterruptedCutRests(s: Setup, t: Task, took: bool)
    requires Shape(t) && Remembers(t) && Ascending(t) && CutRests(t)
    ensures var u := Interrupted(s, t, took);
            u.cut.Some? ==>
              && u.cut.value in Paper.Ids(u.desk.book.resting)
              && u.cut.value !in OpenIds(u.desk.open) && !KillHolds(u.kills, u.cut.value)
  {
    InterruptedKeeps(s, t, took);
    if t.pc.Placing? {
      if took { PlacingIsCut(s, t); }
    } else if t.pc.Persisting? {
      LimitIdsBelow(t.placements[..|t.placements| - 1], t.pc.p.orderId);
    } else {
      InterruptionKeepsControl(s, t, took);
    }
  }

  lemma PlacingIsCut(s: Setup, t: Task)
    requires Shape(t) && Remembers(t) && Ascending(t) && CutRests(t) && t.pc.Placing?
    ensures var u := Interrupted(s, t, true);
            u.cut.Some? ==>
              && u.cut.value in Paper.Ids(u.desk.book.resting)
              && u.cut.value !in OpenIds(u.desk.open) && !KillHolds(u.kills, u.cut.value)
  {
    LimitIdsBelow(t.placements, t.desk.book.nextId);
    if Rests(Paper.Place(s.cfg, t.desk.book, t.pc.intent).1) {
      PlacedIsThere(s.cfg, t.desk.book, t.pc.intent);
    }
  }

  lemma InterruptionCutRests(s: Setup, t: Task, took: bool)
    requires Shape(t) && Remembers(t) && Ascending(t) && CutRests(t)
    ensures CutRests(Raise(s, Interrupted(s, t, took)))
            && CutRests(Cancelling(s, Interrupted(s, t, took)).(cancelled := false))
  {
    var u := Interrupted(s, t, took);
    InterruptedCutRests(s, t, took);
    InterruptedKeeps(s, t, took);
    ExitsKeep(s, u);
    ExitsLead(s, u);
  }

  lemma KillCutRests(t: Task, i: nat, took: bool)
    requires Shape(t) && CutRests(t) && i < |t.kills|
    ensures CutRests(KillResume(t, i)) && CutRests(KillInterrupted(t, i, took))
  {
    if t.cut.Some? {
      var id, k := t.cut.value, t.kills[i];
      assert k.Clearing? ==> id !in Left(k.sweep);
      if k.Clearing? && k.sweep.Sweeping? && k.sweep.todo != [] {
        assert k.sweep.todo[0] in Left(k.sweep);
        Paper.WithoutMembers(t.desk.book.resting, k.sweep.todo[0]);
      }
      KillStaysApart(t, KillResume(t, i), i, id);
      KillStaysApart(t, KillInterrupted(t, i, took), i, id);
    }
  }

  lemma KillStaysApart(t: Task, u: Task, i: nat, id: nat)
    requires i < |t.kills| == |u.kills| && u.kills == t.kills[i := u.kills[i]]
    requires !KillHolds(t.kills, id) && !(u.kills[i].Clearing? && id in Left(u.kills[i].sweep))
    ensures !KillHolds(u.kills, id)
  {
    assert forall j :: 0 <= j < |u.kills| && j != i ==> u.kills[j] == t.kills[j];
  }

  lemma StepCutRests(s: Setup, t: Task, a: Act)
    requires Shape(t) && Remembers(t) && Ascending(t) && CutRests(t)
    ensures CutRests(Next(s, t, a))
  {
    match a
    case Completes(now) => CompletesCutRests(s, t, now);
    case Fails(took) => InterruptionCutRests(s, t, took);
    case Delivered(took) => InterruptionCutRests(s, t, took);
    case BarArrives(bar, now, out, later) => if t.pc.AwaitingBar? { BarKeeps(s, t, bar, now, out, later); }
    case KillCompletes(i) => if i < |t.kills| { KillCutRests(t, i, true); }
    case KillFails(i, took) => if i < |t.kills| { KillCutRests(t, i, took); }
    case _ => NewKillHoldsNothing(t, Next(s, t, a));
  }

  lemma NewKillHoldsNothing(t: Task, u: Task)
    requires u.kills == t.kills || u.kills == t.kills + [Waiting]
    ensures forall id :: KillHolds(u.kills, id) ==> KillHolds(t.kills, id)
  {
    forall id | KillHolds(u.kills, id) ensures KillHolds(t.kills, id) {
      var j :| 0 <= j < |u.kills| && u.kills[j].Clearing? && id in Left(u.kills[j].sweep);
      assert t.kills[j] == u.kills[j];
    }
  }

  // --------------------------------------------------- the open set keeps the filled

  /** While anything is open, everything placed is: each limit order is in the open set, or the one being recorded,
      or the cut one; and neither of those has been filled unseen. */
  ghost predicate Whole(t: Task) {
    && (t.pc.Persisting? ==> forall f :: f in t.missed ==> f.orderId != t.pc.p.orderId)
    && (t.cut.Some? ==> forall f :: f in t.missed ==> f.orderId != t.cut.value)
    && (t.desk.open != [] ==> AllAnsweredFor(t))
  }

  ghost predicate AllAnsweredFor(t: Task) {
    forall id :: id in LimitIds(t.placements) ==>
      id in OpenIds(t.desk.open) || t.cut == Some(id) || (t.pc.Persisting? && t.pc.p.orderId == id)
  }

  lemma {:induction false} LastLimit(ps: seq<Paper.Placement>)
    requires ps != []
    ensures LimitIds(ps) == LimitIds(ps[..|ps| - 1]) + if Rests(ps[|ps| - 1]) then [ps[|ps| - 1].orderId] else []
  {}

  lemma EarlyIsAnsweredFor(t: Task)
    requires Remembers(t) && Early(t.pc)
    ensures AllAnsweredFor(t)
  {
    if t.pc.Persisting? {
      LastLimit(t.placements);
    }
  }

  /** What neither a resumption nor an effect away from placing alters. */
  lemma CompletionAnswers(s: Setup, t: Task, now: int)
    requires Shape(t) && Whole(t) && Remembers(t) && !t.pc.Placing?
    ensures Whole(Resume(s, Effect(s, t), now))
  {
    var e := Effect(s, t);
    var u := Resume(s, e, now);
    EffectKeepsControl(s, t);
    ResumeKeeps(s, e, now);
    OnlyPlacingPersists(s, e, now);
    CompletesRemembers(s, t, now);
    assert u.placements == t.placements && u.missed == t.missed && u.cut == t.cut;
    if Early(u.pc) {
      EarlyIsAnsweredFor(u);
    } else if t.pc.AnnouncingTrip? {
      TripStep(s, t, now);
    } else {
      if Early(t.pc) { EarlyIsAnsweredFor(t); }
      LateKeepsOpen(s, t, e, now);
    }
  }

  lemma LateKeepsOpen(s: Setup, t: Task, e: Task, now: int)
    requires e.pc == t.pc && e.desk.open == t.desk.open && !t.pc.Placing? && !t.pc.AnnouncingTrip?
    requires !Early(Resume(s, e, now).pc)
    ensures !t.pc.Persisting? && Resume(s, e, now).desk.open == t.desk.open
  {
    ResumeKeeps(s, e, now);
  }

  lemma PlacingWhole(s: Setup, t: Task, now: int)
    requires Shape(t) && Known(t) && Remembers(t) && Ascending(t) && t.pc.Placing?
    ensures Whole(Resume(s, Effect(s, t), now))
  {
    var u := Resume(s, Effect(s, t), now);
    LimitIdsBelow(t.placements, t.desk.book.nextId);
    CompletesRemembers(s, t, now);
    EarlyIsAnsweredFor(u);
  }

  lemma InterruptionWhole(s: Setup, t: Task, took: bool)
    requires Shape(t) && Whole(t) && Known(t) && Remembers(t) && Ascending(t)
    ensures Whole(Raise(s, Interrupted(s, t, took)))
    ensures Whole(Cancelling(s, Interrupted(s, t, took)).(cancelled := false))
  {
    var u := Interrupted(s, t, took);
    InterruptedWhole(s, t, took);
    ExitsKeep(s, u);
    LeavesPersisting(s, u);
    LeavingWhole(u, Raise(s, u));
    LeavingWhole(u, Cancelling(s, u).(cancelled := false));
  }

  lemma LeavesPersisting(s: Setup, t: Task)
    ensures !Raise(s, t).pc.Persisting? && !Cancelling(s, t).pc.Persisting?
  {
    ExitsLead(s, t);
  }

  lemma LeavingWhole(u: Task, v: Task)
    requires u.cut.Some? ==> forall f :: f in u.missed ==> f.orderId != u.cut.value
    requires u.desk.open != [] ==> AllAnsweredFor(u.(pc := AnnouncingError))
    requires v.desk == u.desk && v.placements == u.placements && v.missed == u.missed && v.cut == u.cut
    requires !v.pc.Persisting?
    ensures Whole(v)
  {}

  /** An interruption leaves the order being recorded cut, and all else answered for as before. */
  lemma InterruptedWhole(s: Setup, t: Task, took: bool)
    requires Shape(t) && Whole(t) && Known(t) && Remembers(t) && Ascending(t)
    ensures var u := Interrupted(s, t, took);
            && (u.cut.Some? ==> forall f :: f in u.missed ==> f.orderId != u.cut.value)
            && (u.desk.open != [] ==> AllAnsweredFor(u.(pc := AnnouncingError)))
  {
    if t.pc.Placing? {
      InterruptedPlacing(s, t, took);
    } else if t.pc.Persisting? {
      InterruptedPersisting(s, t, took);
    } else {
      QuietInterruption(s, t, took);
    }
  }

  lemma InterruptedPlacing(s: Setup, t: Task, took: bool)
    requires Shape(t) && Whole(t) && Known(t) && Remembers(t) && Ascending(t) && t.pc.Placing?
    ensures var u := Interrupted(s, t, took);
            && (u.cut.Some? ==> forall f :: f in u.missed ==> f.orderId != u.cut.value)
            && (u.desk.open != [] ==> AllAnsweredFor(u.(pc := AnnouncingError)))
  {
    InterruptedKeeps(s, t, took);
    LimitIdsBelow(t.placements, t.desk.book.nextId);
    if took { LimitPlaced(t.placements, Paper.Place(s.cfg, t.desk.book, t.pc.intent).1); }
  }

  lemma InterruptedPersisting(s: Setup, t: Task, took: bool)
    requires Shape(t) && Whole(t) && Known(t) && Remembers(t) && Ascending(t) && t.pc.Persisting?
    ensures var u := Interrupted(s, t, took);
            && (u.cut.Some? ==> forall f :: f in u.missed ==> f.orderId != u.cut.value)
            && (u.desk.open != [] ==> AllAnsweredFor(u.(pc := AnnouncingError)))
  {
    InterruptedKeeps(s, t, took);
    EffectKeepsControl(s, t);
    LastLimit(t.placements);
  }

  lemma QuietInterruption(s: Setup, t: Task, took: bool)
    requires Whole(t) && !t.pc.Placing? && !t.pc.Persisting?
    ensures var u := Interrupted(s, t, took);
            && u.cut == t.cut && u.missed == t.missed && u.placements == t.placements && u.desk.open == t.desk.open
            && (u.desk.open != [] ==> AllAnsweredFor(u.(pc := AnnouncingError)))
  {
    InterruptedKeeps(s, t, took);
    EffectKeepsControl(s, t);
    InterruptionKeepsControl(s, t, took);
    if t.desk.open != [] {
      assert AllAnsweredFor(t);
    }
  }

  lemma BarWhole(s: Setup, t: Task, bar: Bar, now: int, out: Option<seq<Intent>>, later: int)
    requires Shape(t) && Whole(t) && Remembers(t) && t.pc.AwaitingBar?
    ensures Whole(OnBar(s, t, bar, now, out, later))
  {
    EarlyIsAnsweredFor(t);
    BarKeeps(s, t, bar, now, out, later);
  }

  lemma KillWhole(t: Task, i: nat, took: bool)
    requires Shape(t) && Whole(t) && i < |t.kills|
    ensures Whole(KillResume(t, i)) && Whole(KillInterrupted(t, i, took))
  {
    KillKeeps(t, i, took);
  }

  lemma StepWhole(s: Setup, t: Task, a: Act)
    requires Shape(t) && Whole(t) && Known(t) && Remembers(t) && Ascending(t)
    ensures Whole(Next(s, t, a))
  {
    match a
    case Completes(now) => if t.pc.Placing? { PlacingWhole(s, t, now); } else { CompletionAnswers(s, t, now); }
    case Fails(took) => InterruptionWhole(s, t, took);
    case Delivered(took) => InterruptionWhole(s, t, took);
    case BarArrives(bar, now, out, later) => if t.pc.AwaitingBar? { BarWhole(s, t, bar, now, out, later); }
    case KillCompletes(i) => if i < |t.kills| { KillWhole(t, i, true); }
    case KillFails(i, took) => if i < |t.kills| { KillWhole(t, i, took); }
    case _ =>
  }

  // ------------------------------------------------------------------ every run

  /** What every reachable task satisfies. */
  ghost predicate Sound(t: Task) {
    Shape(t) && Cover(t) && SweptClean(t) && Known(t) && Remembers(t) && Ascending(t) && CutRests(t)
    && Whole(t)
  }

  lemma StepKnown(s: Setup, t: Task, a: Act)
    requires Known(t)
    ensures Known(Next(s, t, a))
  {
    match a
    case Completes(now) =>
      EffectKnown(s, t);
      ResumeKeeps(s, Effect(s, t), now);
    case Fails(took) => InterruptionKnown(s, t, took);
    case Delivered(took) => InterruptionKnown(s, t, took);
    case BarArrives(bar, now, out, later) => if t.pc.AwaitingBar? { BarKnown(s, t, bar, now, out, later); }
    case KillCompletes(i) => if i < |t.kills| { KillKnown(t, i, true); }
    case KillFails(i, took) => if i < |t.kills| { KillKnown(t, i, took); }
    case _ =>
  }

  lemma CompletesRemembers(s: Setup, t: Task, now: int)
    requires Remembers(t)
    ensures Remembers(Resume(s, Effect(s, t), now))
  {
    if t.pc.Placing? || t.pc.Persisting? {
      PersistingRemembers(s, t, now);
    } else if t.pc.Unwinding? {
      UnwindingRemembers(s, t, now);
    } else if t.pc.AnnouncingTrip? {
      TrippingRemembers(s, t, now);
    } else {
      OthersRemember(s, t, now);
    }
  }

  lemma StepRemembers(s: Setup, t: Task, a: Act)
    requires Shape(t) && SweptClean(t) && Remembers(t)
    ensures Remembers(Next(s, t, a))
  {
    match a
    case Completes(now) => CompletesRemembers(s, t, now);
    case Fails(took) => InterruptionRemembers(s, t, took);
    case Delivered(took) => InterruptionRemembers(s, t, took);
    case BarArrives(bar, now, out, later) => if t.pc.AwaitingBar? { BarRemembers(s, t, bar, now, out, later); }
    case KillCompletes(i) => if i < |t.kills| { KillRemembers(t, i, true); }
    case KillFails(i, took) => if i < |t.kills| { KillRemembers(t, i, took); }
    case _ =>
  }

  lemma {:induction false} EveryTaskIsSound(s: Setup, acts: seq<Act>)
    ensures Sound(Exec(s, acts))
  {
    if acts != [] {
      var t, a := Exec(s, acts[..|acts| - 1]), acts[|acts| - 1];
      EveryTaskIsSound(s, acts[..|acts| - 1]);
      StepSettles(s, t, a);
      StepCovers(s, t, a);
      StepSweepsClean(s, t, a);
      StepKnown(s, t, a);
      StepRemembers(s, t, a);
      StepAscends(s, t, a);
      StepCutRests(s, t, a);
      StepWhole(s, t, a);
    }
  }

  lemma {:induction false} ReportedCancelled(log: seq<Event>, id: nat)
    requires id in CancelledIds(log)
    ensures OrderCancelled(id) in log
  {
    if log[|log| - 1] != OrderCancelled(id) {
      ReportedCancelled(log[..|log| - 1], id);
    }
  }

  /** When the breaker's sweep has gone through, nothing rests; and what it has reported cancelled is
      every limit order the run ever placed, including each one the mark had already filled. */
  lemma BreakerLeavesNothingResting(s: Setup, acts: seq<Act>)
    requires Exec(s, acts).pc == Done(Unwound)
    ensures var t := Exec(s, acts);
            && t.desk.book.resting == []
            && CancelledIds(t.desk.log) == LimitIds(t.placements)
            && forall f :: f in t.missed ==> OrderCancelled(f.orderId) in t.desk.log
  {
    EveryTaskIsSound(s, acts);
    var t := Exec(s, acts);
    assert t.desk.book.resting != [] ==> Tracked(t, t.desk.book.resting[0].id);
    forall f | f in t.missed ensures OrderCancelled(f.orderId) in t.desk.log {
      ReportedCancelled(t.desk.log, f.orderId);
    }
  }

  /** When a kill is past its sweep and no other is inside one, the one order whose submission was cut between
      placement and registration does rest, and nothing else but what an interrupted sweep has dropped. */
  lemma KillLeavesOnlyTheCutOrder(s: Setup, acts: seq<Act>, i: nat)
    requires var t := Exec(s, acts);
             i < |t.kills| && (t.kills[i].AnnouncingKill? || t.kills[i].Finished?) && NoKillClearing(t)
    ensures var t := Exec(s, acts);
            && t.pc.Done? && t.desk.open == []
            && (t.cut.Some? ==> t.cut.value in Paper.Ids(t.desk.book.resting))
            && (forall r :: r in t.desk.book.resting ==> t.cut == Some(r.id) || r.id in t.desk.forgotten)
            && (t.desk.forgotten == {} ==> Paper.Ids(t.desk.book.resting) == if t.cut.Some? then {t.cut.value} else {})
  {
    EveryTaskIsSound(s, acts);
    var t := Exec(s, acts);
    assert !t.kills[i].Waiting?;
    forall r | r in t.desk.book.resting ensures t.cut == Some(r.id) || r.id in t.desk.forgotten {
      assert Tracked(t, r.id);
    }
  }

  /** A kill of a finished run with anything open, left to run, reports cancelled every limit order the run ever
      placed but the cut one; so, here too, each one the mark had already filled. */
  lemma {:induction false} KillReportsTheFilledCancelled(s: Setup, before: seq<Act>) returns (acts: seq<Act>)
    requires Exec(s, before).pc.Done? && Exec(s, before).desk.open != []
    ensures Only(acts, KillCompletes(|Exec(s, before).kills|))
    ensures var t := Exec(s, before);
            var u := From(s, Next(s, t, KillCalled), acts);
            && u.kills == t.kills + [Finished]
            && (forall id :: id in LimitIds(t.placements) && t.cut != Some(id) ==> OrderCancelled(id) in u.desk.log)
            && (forall f :: f in t.missed ==> OrderCancelled(f.orderId) in u.desk.log)
  {
    var t := Exec(s, before);
    EveryTaskIsSound(s, before);
    acts := KillOverwritesTheEnd(s, t);
    var ids := OpenIds(t.desk.open);
    forall id | id in ids ensures OrderCancelled(id) in CancelEvents(ids) {
      var k :| 0 <= k < |ids| && ids[k] == id;
      assert CancelEvents(ids)[k] == OrderCancelled(id);
    }
  }

  /** Orders are dropped only when a failure or a cancellation lands inside a sweep that still has some to cancel. */
  lemma DroppedOnlyInsideASweep(s: Setup, t: Task, a: Act)
    requires Next(s, t, a).desk.forgotten != t.desk.forgotten
    ensures if a.KillFails?
            then a.i < |t.kills| && t.kills[a.i].Clearing? && t.kills[a.i].sweep.Sweeping?
                 && t.kills[a.i].sweep.todo != []
            else (a.Fails? || a.Delivered?) && t.pc.Unwinding? && t.pc.sweep.Sweeping? && t.pc.sweep.todo != []
  {
    match a
    case Completes(now) =>
      EffectKeepsControl(s, t);
      ResumeKeeps(s, Effect(s, t), now);
    case Fails(took) =>
      EffectKeepsControl(s, t);
      ExitsKeep(s, Interrupted(s, t, took));
      DropsNothing(t, took);
    case Delivered(took) =>
      EffectKeepsControl(s, t);
      ExitsKeep(s, Interrupted(s, t, took));
      DropsNothing(t, took);
    case _ =>
  }

  lemma DropsNothing(t: Task, took: bool)
    ensures t.pc.Unwinding? && !(t.pc.sweep.Sweeping? && t.pc.sweep.todo != [])
            ==> t.desk.forgotten + Lost(t.pc.sweep, took) == t.desk.forgotten
  {}

  /** A run that stop or an error ended, or will end, and that nobody kills. */
  predicate Abandoned(t: Task) {
    !CanTrade(t) && !t.pc.Unwinding? && (t.pc.AnnouncingTrip? ==> t.cancelled) && t.kills == []
  }

  /** All that is left to an abandoned run is a last announcement, the teardown, and the end. */
  lemma AbandonedResume(s: Setup, t: Task, now: int)
    requires Abandoned(t) && !t.cancelled
    ensures var u := Resume(s, Effect(s, t), now);
            Abandoned(u) && u.desk.book == t.desk.book
  {
    assert t.pc.AnnouncingError? || t.pc.TearingDown? || t.pc.AnnouncingStop? || t.pc.Done?;
  }

  lemma EffectOnlyAdds(s: Setup, t: Task)
    requires !t.pc.Unwinding?
    ensures t.desk.book.resting <= Effect(s, t).desk.book.resting
  {}

  lemma AbandonedExit(s: Setup, t: Task)
    requires !t.pc.Unwinding? && t.kills == []
    ensures !CanTrade(t) && !t.cancelled && !t.pc.AnnouncingTrip? ==> Abandoned(Raise(s, t))
    ensures Abandoned(Cancelling(s, t).(cancelled := false))
  {}

  lemma AbandonedStep(s: Setup, t: Task, a: Act)
    requires Abandoned(t) && !a.KillCalled?
    ensures Abandoned(Next(s, t, a)) && t.desk.book.resting <= Next(s, t, a).desk.book.resting
  {
    match a
    case Completes(now) =>
      if !t.cancelled { AbandonedResume(s, t, now); }
    case Fails(took) =>
      EffectOnlyAdds(s, t);
      InterruptedKeeps(s, t, took);
      ExitsKeep(s, Interrupted(s, t, took));
      AbandonedExit(s, Interrupted(s, t, took));
    case Delivered(took) =>
      EffectOnlyAdds(s, t);
      InterruptedKeeps(s, t, took);
      ExitsKeep(s, Interrupted(s, t, took));
      AbandonedExit(s, Interrupted(s, t, took));
    case _ =>
  }

  /** Stop and error cancel nothing at the venue: short of a kill, every order resting then rests for ever. */
  lemma {:induction false} StopLeavesOrdersResting(s: Setup, t: Task, acts: seq<Act>)
    requires Abandoned(t) && forall k :: 0 <= k < |acts| ==> !acts[k].KillCalled?
    ensures Abandoned(From(s, t, acts))
    ensures t.desk.book.resting <= From(s, t, acts).desk.book.resting
  {
    if acts != [] {
      var u := From(s, t, acts[..|acts| - 1]);
      StopLeavesOrdersResting(s, t, acts[..|acts| - 1]);
      AbandonedStep(s, u, acts[|acts| - 1]);
    }
  }

  /** A run on its way out with nothing open and no kill inside a sweep: there is nothing left to cancel. */
  ghost predicate Spent(t: Task) {
    && ((t.pc.TearingDown? && t.pc.exit.Cancelled?) || (t.pc.Done? && t.pc.exit.Cancelled?))
    && t.desk.open == [] && NoKillClearing(t)
  }

  lemma SpentStep(s: Setup, t: Task, a: Act)
    requires Spent(t)
    ensures Spent(Next(s, t, a)) && Next(s, t, a).desk.book == t.desk.book
            && Next(s, t, a).desk.forgotten == t.desk.forgotten
  {
    match a
    case Completes(now) => EffectKeepsControl(s, t);
    case Fails(took) => EffectKeepsControl(s, t);
    case Delivered(took) => EffectKeepsControl(s, t);
    case _ =>
  }

  lemma {:induction false} SpentForGood(s: Setup, t: Task, acts: seq<Act>)
    requires Spent(t)
    ensures var u := From(s, t, acts); Spent(u) && u.desk.book == t.desk.book && u.desk.forgotten == t.desk.forgotten
  {
    if acts != [] {
      SpentForGood(s, t, acts[..|acts| - 1]);
      SpentStep(s, From(s, t, acts[..|acts| - 1]), acts[|acts| - 1]);
    }
  }

  /** A kill that lands inside the breaker's own sweep, whatever other kills wait and whether or not the cancel in
      flight got through: the open set is already empty, so no step ever after, of this kill or of any other,
      cancels anything, and every order the sweep had yet to reach goes on resting. */
  lemma {:induction false} KillInsideTheSweepCancelsNothing(s: Setup, t: Task, took: bool, acts: seq<Act>)
    requires Sound(t) && t.pc.Unwinding? && t.pc.sweep.Sweeping?
    ensures var u := From(s, From(s, t, [KillCalled, Delivered(took)]), acts);
            && Spent(u)
            && (!took ==> u.desk.book.resting == t.desk.book.resting)
            && (forall r :: r in t.desk.book.resting && !(took && t.pc.sweep.todo != [] && r.id == t.pc.sweep.todo[0])
                  ==> r in u.desk.book.resting)
            && Lost(t.pc.sweep, took) <= u.desk.forgotten
  {
    TwoSteps(s, t, KillCalled, Delivered(took));
    var v := From(s, t, [KillCalled, Delivered(took)]);
    if took && t.pc.sweep.todo != [] {
      Paper.WithoutMembers(t.desk.book.resting, t.pc.sweep.todo[0]);
    }
    KilledSweepIsSpent(s, t, took);
    SpentForGood(s, v, acts);
  }

  lemma KilledSweepIsSpent(s: Setup, t: Task, took: bool)
    requires Sound(t) && t.pc.Unwinding? && t.pc.sweep.Sweeping?
    ensures var v := Next(s, Next(s, t, KillCalled), Delivered(took));
            && Spent(v)
            && v.desk.book == (if took then SweepEffect(t.desk, t.pc.sweep).book else t.desk.book)
            && Lost(t.pc.sweep, took) <= v.desk.forgotten
  {
    var k := Next(s, t, KillCalled);
    assert k.desk == t.desk && k.pc == t.pc && k.cancelled;
    EffectKeepsControl(s, k);
    InterruptedKeeps(s, k, took);
    ExitsKeep(s, Interrupted(s, k, took));
  }

  /** And each such kill still announces itself once the run is done. */
  lemma {:induction false} SpentKillAnnounces(s: Setup, t: Task, i: nat)
    requires Spent(t) && t.pc.Done? && i < |t.kills| && t.kills[i].Waiting?
    ensures var u := From(s, t, [KillCompletes(i), KillCompletes(i)]);
            |u.kills| == |t.kills| && u.kills[i].Finished? && u.desk.log == t.desk.log + [BotKilled]
            && u.desk.book == t.desk.book
  {
    TwoSteps(s, t, KillCompletes(i), KillCompletes(i));
  }
}
