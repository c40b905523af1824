/** What a bot's task publishes, commits and credits, over every interleaving of its steps. */
module BotJournal {
  import opened Basics
  import opened Journal
  import opened BotTask
  import Paper

  // ------------------------------------------------------------ the lifecycle log

  datatype Phase = Fresh | Trading | Dormant | Tripped | Over

  /** The lifecycle grammar: which event may follow which phase, and the phase it leads to. */
  function After(ph: Phase, e: Event): Option<Phase> {
    match e
    case BotStarted => if ph.Fresh? then Some(Trading) else None
    case BotIdle => if ph.Trading? then Some(Dormant) else None
    case BotResumed => if ph.Dormant? then Some(Trading) else None
    case OrderSubmitted(_) => if ph.Trading? then Some(Trading) else None
    case OrderFilled(_) => if ph.Trading? then Some(Trading) else None
    case CircuitTripped => if ph.Trading? then Some(Tripped) else None
    case BotError => if ph.Fresh? || ph.Over? then None else Some(Over)
    case BotStopped => if ph.Trading? || ph.Dormant? then Some(Over) else None
    case OrderCancelled(_) => if ph.Fresh? then None else Some(Over)
    case BotKilled => Some(Over)
  }

  function PhaseOf(log: seq<Event>): Option<Phase> {
    if log == [] then Some(Fresh) else
      var ph := PhaseOf(log[..|log| - 1]);
      if ph.None? then None else After(ph.value, log[|log| - 1])
  }

  lemma {:induction false} PhaseEmit(log: seq<Event>, e: Event)
    ensures PhaseOf(log + [e]) == if PhaseOf(log).None? then None else After(PhaseOf(log).value, e)
  {
    assert (log + [e])[..|log|] == log;
  }

  /** The phases the log can be in while the task is at a program counter. */
  predicate Fits(t: Task, ph: Phase) {
    match t.pc
    case NotStarted => ph.Fresh?
    case AnnouncingStart => ph.Fresh?
    case AwaitingBar =>
      if t.cancelled then ph.Trading? || ph.Dormant? else ph == if t.state.Idle? then Dormant else Trading
    case AnnouncingResume(_, _) => ph.Dormant?
    case Unwinding(sw) => ph.Tripped? || (sw.Reporting? && ph.Over?)
    case AnnouncingError => ph.Trading? || ph.Dormant? || ph.Tripped?
    case TearingDown(exit) => exit.Ended? ==> ph.Trading? || ph.Dormant?
    case AnnouncingStop => ph.Trading? || ph.Dormant?
    case Done(_) => true
    case _ => ph.Trading?
  }

  ghost predicate FollowsGrammar(t: Task) {
    && PhaseOf(t.desk.log).Some?
    && Fits(t, PhaseOf(t.desk.log).value)
    && (PhaseOf(t.desk.log).value.Fresh? ==>
      t.desk.open == [] && forall i :: 0 <= i < |t.kills| ==> !t.kills[i].Clearing?)
  }

  /** The event the operation in flight would add to the log. */
  function Heard(pc: Pc): Option<Event> {
    if pc.Unwinding? && pc.sweep.Reporting? then Some(OrderCancelled(pc.sweep.id)) else Says(pc)
  }

  /** What publishing it makes of the phase. */
  function Said(ph: Phase, pc: Pc): Option<Phase> {
    if Heard(pc).Some? then After(ph, Heard(pc).value) else Some(ph)
  }

  lemma EffectIsHeard(s: Setup, t: Task)
    ensures Effect(s, t).desk.log == if Heard(t.pc).Some? then t.desk.log + [Heard(t.pc).value] else t.desk.log
  {}

  lemma EffectPhase(s: Setup, t: Task)
    requires PhaseOf(t.desk.log).Some?
    ensures PhaseOf(Effect(s, t).desk.log) == Said(PhaseOf(t.desk.log).value, t.pc)
  {
    EffectIsHeard(s, t);
    if Heard(t.pc).Some? {
      PhaseEmit(t.desk.log, Heard(t.pc).value);
    }
  }

  /** The step from one counter to the next, on phases alone. */
  lemma ResumeFits(s: Setup, t: Task, now: int, before: Phase)
    requires Shape(t) && !t.cancelled && Fits(t, before)
    ensures Said(before, t.pc).Some?
    ensures Fits(Resume(s, t, now), Said(before, t.pc).value)
    ensures Said(before, t.pc).value.Fresh? ==> before.Fresh? && !t.pc.Persisting? && !t.pc.AnnouncingTrip?
  {}

  lemma CompletesFollows(s: Setup, t: Task, now: int)
    requires Shape(t) && FollowsGrammar(t) && !t.cancelled
    ensures FollowsGrammar(Resume(s, Effect(s, t), now))
  {
    var u, ph := Effect(s, t), PhaseOf(t.desk.log).value;
    EffectPhase(s, t);
    EffectKeepsControl(s, t);
    ResumeKeeps(s, u, now);
    ResumeFits(s, u, now, ph);
  }

  lemma ExitFits(s: Setup, t: Task, before: Phase, took: bool)
    requires Fits(t, before)
    ensures Said(before, t.pc).Some?
    ensures var ph := if took then Said(before, t.pc).value else before;
            && (!t.cancelled ==> Fits(Raise(s, t), ph))
            && (t.cancelled ==> Fits(Cancelling(s, t).(cancelled := false), ph))
            && (ph.Fresh? ==> before.Fresh?)
  {}

  lemma InterruptionFollows(s: Setup, t: Task, took: bool)
    requires Shape(t) && FollowsGrammar(t)
    ensures !t.cancelled ==> FollowsGrammar(Raise(s, Interrupted(s, t, took)))
    ensures t.cancelled ==> FollowsGrammar(Cancelling(s, Interrupted(s, t, took)).(cancelled := false))
  {
    var u, ph := Interrupted(s, t, took), PhaseOf(t.desk.log).value;
    EffectPhase(s, t);
    EffectKeepsControl(s, t);
    InterruptedKeeps(s, t, took);
    ExitsKeep(s, u);
    ExitFits(s, u, ph, took);
  }

  lemma BarFollows(s: Setup, t: Task, bar: Bar, now: int, out: Option<seq<Intent>>, later: int)
    requires Shape(t) && FollowsGrammar(t) && !t.cancelled && t.pc.AwaitingBar?
    ensures FollowsGrammar(OnBar(s, t, bar, now, out, later))
  {}

  lemma KillFollows(t: Task, i: nat, took: bool)
    requires Shape(t) && FollowsGrammar(t) && i < |t.kills|
    ensures FollowsGrammar(KillResume(t, i)) && FollowsGrammar(KillInterrupted(t, i, took))
  {
    if t.kills[i].Clearing? {
      ClearingFollows(t, i, took);
    } else {
      PhaseEmit(t.desk.log, BotKilled);
    }
  }

  lemma ClearingFollows(t: Task, i: nat, took: bool)
    requires Shape(t) && FollowsGrammar(t) && i < |t.kills| && t.kills[i].Clearing?
    ensures FollowsGrammar(KillResume(t, i)) && FollowsGrammar(KillInterrupted(t, i, took))
  {
    if t.kills[i].sweep.Reporting? {
      PhaseEmit(t.desk.log, OrderCancelled(t.kills[i].sweep.id));
    }
  }

  lemma StepFollows(s: Setup, t: Task, a: Act)
    requires Shape(t) && FollowsGrammar(t)
    ensures FollowsGrammar(Next(s, t, a))
  {
    match a
    case Completes(now) => if !t.cancelled { CompletesFollows(s, t, now); }
    case Fails(took) => InterruptionFollows(s, t, took);
    case Delivered(took) => InterruptionFollows(s, t, took);
    case BarArrives(bar, now, out, later) =>
      if !t.cancelled && t.pc.AwaitingBar? { BarFollows(s, t, bar, now, out, later); }
    case KillCompletes(i) => if i < |t.kills| { KillFollows(t, i, true); }
    case KillFails(i, took) => if i < |t.kills| { KillFollows(t, i, took); }
    case _ =>
  }

  // --------------------------------------------------- what the grammar rules out

  lemma {:induction false} PhaseAt(log: seq<Event>, i: nat)
    requires PhaseOf(log).Some? && i < |log|
    ensures PhaseOf(log[..i]).Some? && PhaseOf(log[..i + 1]).Some?
    ensures PhaseOf(log[..i + 1]) == After(PhaseOf(log[..i]).value, log[i])
  {
    assert log[..i + 1][..i] == log[..i];
    if i == |log| - 1 {
      assert log[..i + 1] == log;
    } else {
      var init := log[..|log| - 1];
      PhaseAt(init, i);
      assert init[..i] == log[..i] && init[..i + 1] == log[..i + 1];
    }
  }

  /** Events that only a run which can no longer trade publishes. */
  predicate IsEnding(e: Event) {
    e.CircuitTripped? || e.BotError? || e.BotStopped? || e.OrderCancelled? || e.BotKilled?
  }

  lemma {:induction false} OverForGood(log: seq<Event>, i: nat, j: nat)
    requires PhaseOf(log).Some? && i < j <= |log| && IsEnding(log[i])
    ensures PhaseOf(log[..j]) == Some(Over)
            || (log[i].CircuitTripped? && j == i + 1 && PhaseOf(log[..j]) == Some(Tripped))
    decreases j
  {
    PhaseAt(log, j - 1);
    if i < j - 1 {
      OverForGood(log, i, j - 1);
    }
  }

  /** After an ending nothing is started, idled, resumed, submitted or filled again, no breaker trips and
      nothing stops; only cancellations and kills follow, or a single error straight after a trip. */
  lemma {:induction false} NothingTradesAfterTheEnd(log: seq<Event>, i: nat, j: nat)
    requires PhaseOf(log).Some? && i < j < |log| && IsEnding(log[i])
    ensures log[j].OrderCancelled? || log[j].BotKilled? || (log[j].BotError? && log[i].CircuitTripped? && j == i + 1)
  {
    OverForGood(log, i, j);
    PhaseAt(log, j);
  }

  lemma {:induction false} NeverFreshAgain(log: seq<Event>, j: nat)
    requires PhaseOf(log).Some? && 0 < j <= |log|
    ensures PhaseOf(log[..j]).Some? && !PhaseOf(log[..j]).value.Fresh?
  {
    PhaseAt(log, j - 1);
  }

  /** The start is announced first and once, unless the bot was killed before it began. */
  lemma {:induction false} StartIsFirst(log: seq<Event>, j: nat)
    requires PhaseOf(log).Some? && j < |log|
    ensures log[0].BotStarted? || log[0].BotKilled?
    ensures log[j].BotStarted? ==> j == 0
  {
    PhaseAt(log, 0);
    PhaseAt(log, j);
    if j > 0 { NeverFreshAgain(log, j); }
  }

  lemma {:induction false} DormantUntilResumed(log: seq<Event>, i: nat, j: nat)
    requires PhaseOf(log).Some? && i < j <= |log| && log[i].BotIdle?
    requires forall k :: i < k < j ==> !log[k].BotResumed?
    ensures PhaseOf(log[..j]) == Some(Dormant) || PhaseOf(log[..j]) == Some(Over)
    decreases j
  {
    PhaseAt(log, j - 1);
    if i < j - 1 {
      DormantUntilResumed(log, i, j - 1);
    }
  }

  /** Between an idle and its resume the log holds no order and no second idle; and every resume has its idle. */
  lemma {:induction false} IdleIsSilent(log: seq<Event>, i: nat, j: nat)
    requires PhaseOf(log).Some? && i < j < |log| && log[i].BotIdle?
    requires forall k :: i < k < j ==> !log[k].BotResumed?
    ensures !log[j].OrderSubmitted? && !log[j].OrderFilled? && !log[j].BotIdle? && !log[j].CircuitTripped?
  {
    DormantUntilResumed(log, i, j);
    PhaseAt(log, j);
  }

  // --------------------------------------------------- persisted before published

  /** The event has its committed row. */
  ghost predicate HasRow(rows: seq<Row>, e: Event) {
    match e
    case OrderSubmitted(id) => SubmitAudit(id) in rows && exists st :: OrderRow(id, st) in rows
    case OrderFilled(f) => FillRow(f) in rows
    case OrderCancelled(id) => CancelRow(id) in rows
    case _ => true
  }

  ghost predicate SubmitCommitted(rows: seq<Row>, p: Paper.Placement) {
    && OrderRow(p.orderId, p.status) in rows && SubmitAudit(p.orderId) in rows
    && forall f :: f in p.fills ==> FillRow(f) in rows
  }

  ghost predicate SweepCommitted(rows: seq<Row>, sw: Sweep) {
    sw.Reporting? ==> CancelRow(sw.id) in rows && forall k :: k in sw.rest ==> CancelRow(k) in rows
  }

  /** Every published order event has its row, and so has every one about to be published. */
  ghost predicate PaperTrail(t: Task) {
    && (forall e :: e in t.desk.log ==> HasRow(t.desk.rows, e))
    && (t.pc.AnnouncingOrder? || t.pc.AnnouncingFill? ==> SubmitCommitted(t.desk.rows, t.pc.p))
    && (t.pc.Unwinding? ==> SweepCommitted(t.desk.rows, t.pc.sweep))
    && (forall i :: 0 <= i < |t.kills| && t.kills[i].Clearing? ==> SweepCommitted(t.desk.rows, t.kills[i].sweep))
  }

  lemma SubmitRowsCommit(rows: seq<Row>, p: Paper.Placement)
    ensures SubmitCommitted(rows + SubmitRows(p), p)
  {
    var more := SubmitRows(p);
    assert more[0] == OrderRow(p.orderId, p.status);
    forall f | f in p.fills ensures FillRow(f) in more {
      var k :| 0 <= k < |p.fills| && p.fills[k] == f;
      assert more[1 + k] == FillRow(f);
    }
  }

  lemma CancelRowsCommit(rows: seq<Row>, ids: seq<nat>)
    ensures forall k :: k in ids ==> CancelRow(k) in rows + CancelRows(ids)
  {
    forall k | k in ids ensures CancelRow(k) in CancelRows(ids) {
      var j :| 0 <= j < |ids| && ids[j] == k;
      assert CancelRows(ids)[j] == CancelRow(k);
    }
  }

  /** What a sweep's operation leaves behind: more rows, an event with its row, and the next operation covered. */
  lemma SweepTrail(d: Desk, sw: Sweep)
    requires (forall e :: e in d.log ==> HasRow(d.rows, e)) && SweepCommitted(d.rows, sw)
    ensures var u := SweepEffect(d, sw);
            && d.rows <= u.rows && (forall e :: e in u.log ==> HasRow(u.rows, e))
            && (SweepNext(sw).Some? ==> SweepCommitted(u.rows, SweepNext(sw).value))
  {
    var u := SweepEffect(d, sw);
    if sw.Sweeping? && sw.todo == [] {
      CancelRowsCommit(d.rows, sw.done);
      MoreRows(d.rows, u.rows, d.log);
    }
  }

  lemma MoreRows(rows: seq<Row>, more: seq<Row>, log: seq<Event>)
    requires rows <= more && forall e :: e in log ==> HasRow(rows, e)
    ensures forall e :: e in log ==> HasRow(more, e)
  {
    assert forall r :: r in rows ==> r in more;
  }

  lemma KillsStayCommitted(rows: seq<Row>, more: seq<Row>, kills: seq<KillPc>)
    requires rows <= more
    requires forall i :: 0 <= i < |kills| && kills[i].Clearing? ==> SweepCommitted(rows, kills[i].sweep)
    ensures forall i :: 0 <= i < |kills| && kills[i].Clearing? ==> SweepCommitted(more, kills[i].sweep)
  {
    assert forall r :: r in rows ==> r in more;
  }

  lemma EffectTrail(s: Setup, t: Task)
    requires PaperTrail(t) && Shape(t)
    ensures var u := Effect(s, t);
            && t.desk.rows <= u.desk.rows
            && (forall e :: e in u.desk.log ==> HasRow(u.desk.rows, e))
            && (t.pc.Persisting? ==> SubmitCommitted(u.desk.rows, t.pc.p))
            && (t.pc.Unwinding? && SweepNext(t.pc.sweep).Some? ==>
              SweepCommitted(u.desk.rows, SweepNext(t.pc.sweep).value))
  {
    var u := Effect(s, t);
    if t.pc.Persisting? {
      SubmitRowsCommit(t.desk.rows, t.pc.p);
      MoreRows(t.desk.rows, u.desk.rows, t.desk.log);
    } else if t.pc.Unwinding? {
      SweepTrail(t.desk, t.pc.sweep);
    } else if Says(t.pc).Some? {
      assert HasRow(t.desk.rows, Says(t.pc).value);
    }
  }

  /** The submission at hand, if the task is inside one that has been placed. */
  function AtHand(pc: Pc): Option<Paper.Placement> {
    match pc
    case Persisting(p, _) => Some(p)
    case AnnouncingOrder(p, _) => Some(p)
    case AnnouncingFill(p, _, _) => Some(p)
    case _ => None
  }

  /** What the task is about to publish after running on. */
  lemma ResumeAnnounces(s: Setup, t: Task, now: int)
    ensures var pc := Resume(s, t, now).pc;
            && (pc.AnnouncingOrder? || pc.AnnouncingFill? ==>
                  (t.pc.Persisting? || t.pc.AnnouncingOrder? || t.pc.AnnouncingFill?) && pc.p == t.pc.p)
            && (pc.Unwinding? ==> pc.sweep.Sweeping? || (t.pc.Unwinding? && SweepNext(t.pc.sweep) == Some(pc.sweep)))
  {
    if MaySubmit(t.pc) { SubmittingAnnounces(s, t, now); }
  }

  lemma SubmittingAnnounces(s: Setup, t: Task, now: int)
    requires MaySubmit(t.pc)
    ensures var pc := Resume(s, t, now).pc;
            && (pc.AnnouncingOrder? || pc.AnnouncingFill? ==> !t.pc.AnnouncingResume? && pc.p == t.pc.p)
            && !pc.Unwinding?
  {}

  lemma CompletesTrail(s: Setup, t: Task, now: int)
    requires Shape(t) && PaperTrail(t)
    ensures PaperTrail(Resume(s, Effect(s, t), now))
  {
    var u := Effect(s, t);
    EffectTrail(s, t);
    EffectKeepsControl(s, t);
    ResumeKeeps(s, u, now);
    ResumeAnnounces(s, u, now);
    KillsStayCommitted(t.desk.rows, u.desk.rows, t.kills);
    if t.pc.AnnouncingOrder? || t.pc.AnnouncingFill? {
      assert u.desk.rows == t.desk.rows;
    }
  }

  lemma InterruptionTrail(s: Setup, t: Task, took: bool)
    requires Shape(t) && PaperTrail(t)
    ensures PaperTrail(Raise(s, Interrupted(s, t, took)))
            && PaperTrail(Cancelling(s, Interrupted(s, t, took)).(cancelled := false))
  {
    var u := Interrupted(s, t, took);
    EffectTrail(s, t);
    EffectKeepsControl(s, t);
    InterruptedKeeps(s, t, took);
    ExitsKeep(s, u);
    ExitsLead(s, u);
    KillsStayCommitted(t.desk.rows, u.desk.rows, t.kills);
  }

  lemma KillTrail(t: Task, i: nat, took: bool)
    requires PaperTrail(t) && Shape(t) && i < |t.kills|
    ensures PaperTrail(KillResume(t, i)) && PaperTrail(KillInterrupted(t, i, took))
  {
    if t.kills[i].Clearing? {
      var d := SweepEffect(t.desk, t.kills[i].sweep);
      SweepTrail(t.desk, t.kills[i].sweep);
      KillsStayCommitted(t.desk.rows, d.rows, t.kills);
    }
  }

  lemma StepTrail(s: Setup, t: Task, a: Act)
    requires Shape(t) && PaperTrail(t)
    ensures PaperTrail(Next(s, t, a))
  {
    match a
    case Completes(now) => CompletesTrail(s, t, now);
    case Fails(took) => InterruptionTrail(s, t, took);
    case Delivered(took) => InterruptionTrail(s, t, took);
    case KillCompletes(i) => if i < |t.kills| { KillTrail(t, i, true); }
    case KillFails(i, took) => if i < |t.kills| { KillTrail(t, i, took); }
    case _ =>
  }

  // ------------------------------------------------ committed, published, credited

  function Published(log: seq<Event>): seq<Fill> {
    if log == [] then [] else
      Published(log[..|log| - 1]) + if log[|log| - 1].OrderFilled? then [log[|log| - 1].fill] else []
  }

  function Committed(rows: seq<Row>): seq<Fill> {
    if rows == [] then [] else
      Committed(rows[..|rows| - 1]) + if rows[|rows| - 1].FillRow? then [rows[|rows| - 1].fill] else []
  }

  lemma {:induction false} PublishedEmit(log: seq<Event>, e: Event)
    ensures Published(log + [e]) == Published(log) + if e.OrderFilled? then [e.fill] else []
  {
    assert (log + [e])[..|log|] == log;
  }

  lemma {:induction false} CommittedAppend(a: seq<Row>, b: seq<Row>)
    ensures Committed(a + b) == Committed(a) + Committed(b)
  {
    if b == [] {
      assert a + b == a;
    } else {
      CommittedAppend(a, b[..|b| - 1]);
      assert (a + b)[..|a + b| - 1] == a + b[..|b| - 1];
    }
  }

  lemma {:induction false} CommittedFills(fs: seq<Fill>)
    ensures Committed(FillRows(fs)) == fs
  {
    if fs != [] {
      CommittedFills(fs[..|fs| - 1]);
      assert FillRows(fs)[..|fs| - 1] == FillRows(fs[..|fs| - 1]);
    }
  }

  lemma {:induction false} CommittedSubmit(rows: seq<Row>, p: Paper.Placement)
    ensures Committed(rows + SubmitRows(p)) == Committed(rows) + p.fills
  {
    var order, audit := [OrderRow(p.orderId, p.status)], [SubmitAudit(p.orderId)];
    CommittedAppend(rows, SubmitRows(p));
    CommittedAppend(order + FillRows(p.fills), audit);
    CommittedAppend(order, FillRows(p.fills));
    CommittedFills(p.fills);
    assert order[..0] == [] && audit[..0] == [];
    assert Committed(order) == [] && Committed(audit) == [];
  }

  lemma {:induction false} CommittedCancels(rows: seq<Row>, ids: seq<nat>)
    ensures Committed(rows + CancelRows(ids)) == Committed(rows)
  {
    CommittedAppend(rows, CancelRows(ids));
    NoFillsInCancels(ids);
  }

  lemma {:induction false} NoFillsInCancels(ids: seq<nat>)
    ensures Committed(CancelRows(ids)) == []
  {
    if ids != [] {
      NoFillsInCancels(ids[..|ids| - 1]);
      assert CancelRows(ids)[..|ids| - 1] == CancelRows(ids[..|ids| - 1]);
    }
  }

  /** Three records of the same fills. */
  datatype Accounts = Accounts(credited: seq<Fill>, published: seq<Fill>, committed: seq<Fill>)

  function AccountsOf(t: Task): Accounts {
    Accounts(t.credited, Published(t.desk.log), Committed(t.desk.rows))
  }

  /** Credited is behind published, published behind committed, by part of one submission at most. */
  ghost predicate Lagging(a: Accounts, p: Paper.Placement) {
    a.credited <= a.published <= a.committed && (a.committed == a.credited || a.committed == a.credited + p.fills)
  }

  predicate Level(a: Accounts) {
    a.credited == a.published == a.committed
  }

  /** How far apart the records are at each counter; `p` is the last placement. */
  ghost predicate Apart(pc: Pc, a: Accounts, p: Paper.Placement) {
    match pc
    case AnnouncingOrder(q, _) => q == p && a.published == a.credited && a.committed == a.credited + p.fills
    case AnnouncingFill(q, j, _) =>
      q == p && j < |p.fills| && a.published == a.credited + p.fills[..j] && a.committed == a.credited + p.fills
    case Persisting(q, _) => q == p && Level(a)
    case AnnouncingError => Lagging(a, p)
    case TearingDown(_) => Lagging(a, p)
    case AnnouncingStop => Lagging(a, p)
    case Done(_) => Lagging(a, p)
    case _ => Level(a)
  }

  const NO_PLACEMENT := Paper.Placement(0, Intent("", Buy, Market, 1.0, None, Untagged), Paper.Rejected, [])

  function LastPlaced(t: Task): Paper.Placement {
    if t.placements == [] then NO_PLACEMENT else t.placements[|t.placements| - 1]
  }

  ghost predicate InStep(t: Task) {
    Apart(t.pc, AccountsOf(t), LastPlaced(t))
  }

  /** The records after the operation in flight. */
  function Recorded(pc: Pc, a: Accounts): Accounts {
    match pc
    case Persisting(p, _) => a.(committed := a.committed + p.fills)
    case AnnouncingFill(p, j, _) => if j < |p.fills| then a.(published := a.published + [p.fills[j]]) else a
    case _ => a
  }

  lemma SweepRecords(d: Desk, sw: Sweep)
    ensures Published(SweepEffect(d, sw).log) == Published(d.log)
            && Committed(SweepEffect(d, sw).rows) == Committed(d.rows)
  {
    if sw.Reporting? {
      PublishedEmit(d.log, OrderCancelled(sw.id));
    } else {
      CommittedCancels(d.rows, sw.done);
    }
  }

  lemma EmittingRecords(t: Task, u: Task, e: Event)
    requires u.credited == t.credited && u.desk == Emit(t.desk, e)
    ensures AccountsOf(u)
            == AccountsOf(t).(published := Published(t.desk.log) + if e.OrderFilled? then [e.fill] else [])
  {
    PublishedEmit(t.desk.log, e);
  }

  lemma SayingRecords(s: Setup, t: Task)
    requires Says(t.pc).Some?
    ensures AccountsOf(Effect(s, t)) == Recorded(t.pc, AccountsOf(t))
  {
    EmittingRecords(t, Effect(s, t), Says(t.pc).value);
    var a := AccountsOf(t);
    assert a.published + [] == a.published;
  }

  lemma EffectRecords(s: Setup, t: Task)
    ensures AccountsOf(Effect(s, t)) == Recorded(t.pc, AccountsOf(t))
    ensures !t.pc.Placing? ==> Effect(s, t).placements == t.placements
  {
    if Says(t.pc).Some? {
      SayingRecords(s, t);
    } else if t.pc.Persisting? {
      CommittedSubmit(t.desk.rows, t.pc.p);
    } else if t.pc.Unwinding? {
      SweepRecords(t.desk, t.pc.sweep);
    }
  }

  lemma FillingApart(s: Setup, t: Task, now: int, a: Accounts)
    requires t.pc.AnnouncingFill? && t.credited == a.credited && Apart(t.pc, a, LastPlaced(t))
    ensures var u := Resume(s, t, now);
            Apart(u.pc, Recorded(t.pc, a).(credited := u.credited), LastPlaced(t))
  {
    var p, j := t.pc.p, t.pc.j;
    assert p.fills[..j] + [p.fills[j]] == p.fills[..j + 1];
    assert p.fills[..|p.fills|] == p.fills;
    assert (a.credited + p.fills[..j]) + [p.fills[j]] == a.credited + p.fills[..j + 1];
  }

  lemma OrderingApart(s: Setup, t: Task, now: int, a: Accounts)
    requires t.pc.AnnouncingOrder? && t.credited == a.credited && Apart(t.pc, a, LastPlaced(t))
    ensures var u := Resume(s, t, now);
            Apart(u.pc, a.(credited := u.credited), LastPlaced(t))
  {
    assert a.credited + [] == a.credited;
  }

  lemma ResumeApart(s: Setup, t: Task, now: int, a: Accounts)
    requires Shape(t) && t.credited == a.credited
    requires if t.pc.Placing? then Level(a) && t.placements != [] else Apart(t.pc, a, LastPlaced(t))
    ensures var u := Resume(s, t, now);
            Apart(u.pc, Recorded(t.pc, a).(credited := u.credited), LastPlaced(t))
  {
    if t.pc.AnnouncingFill? {
      FillingApart(s, t, now, a);
    } else if t.pc.AnnouncingOrder? {
      OrderingApart(s, t, now, a);
    } else if !t.pc.Placing? && !t.pc.Persisting? && !t.pc.AnnouncingTrip? && !t.pc.Unwinding? {
      ResumeLeads(s, t, now);
      ResumeKeepsHistory(s, t, now);
      ResumeAtHand(s, t, now);
    }
  }

  /** The task comes to have a submission at hand only by placing one, and keeps it until it is credited. */
  lemma ResumeAtHand(s: Setup, t: Task, now: int)
    ensures var u := Resume(s, t, now);
            AtHand(u.pc).Some? ==>
              (t.pc.Placing? && AtHand(u.pc) == Some(LastPlaced(t))) || AtHand(u.pc) == AtHand(t.pc)
  {}

  lemma CompletesInStep(s: Setup, t: Task, now: int)
    requires Shape(t) && InStep(t)
    ensures InStep(Resume(s, Effect(s, t), now))
  {
    var e := Effect(s, t);
    EffectRecords(s, t);
    EffectKeepsControl(s, t);
    ResumeKeeps(s, e, now);
    ResumeApart(s, e, now, AccountsOf(t));
    var u := Resume(s, e, now);
    assert AccountsOf(u) == Recorded(t.pc, AccountsOf(t)).(credited := u.credited) && LastPlaced(u) == LastPlaced(e);
  }

  lemma RecordedLagging(pc: Pc, a: Accounts, p: Paper.Placement)
    requires Apart(pc, a, p) && !pc.Placing?
    ensures Lagging(a, p) && Lagging(Recorded(pc, a), p)
  {
    if pc.AnnouncingFill? {
      assert p.fills[..pc.j] + [p.fills[pc.j]] == p.fills[..pc.j + 1];
      assert (a.credited + p.fills[..pc.j]) + [p.fills[pc.j]] == a.credited + p.fills[..pc.j + 1];
      assert a.credited + p.fills[..pc.j] <= a.credited + p.fills
          && a.credited + p.fills[..pc.j + 1] <= a.credited + p.fills;
    }
  }

  lemma InterruptedAccounts(s: Setup, t: Task, took: bool)
    ensures var u, e := Interrupted(s, t, took), if took then Effect(s, t) else t;
            AccountsOf(u) == AccountsOf(e) && u.placements == e.placements
  {
    EffectKeepsControl(s, t);
    InterruptedKeeps(s, t, took);
  }

  lemma InterruptedLags(s: Setup, t: Task, took: bool)
    requires InStep(t)
    ensures Lagging(AccountsOf(Interrupted(s, t, took)), LastPlaced(Interrupted(s, t, took)))
    ensures !t.pc.Placing? ==> Interrupted(s, t, took).placements == t.placements
    ensures t.pc.NotStarted? ==> AccountsOf(Interrupted(s, t, took)) == AccountsOf(t)
  {
    InterruptedAccounts(s, t, took);
    EffectRecords(s, t);
    if !t.pc.Placing? {
      RecordedLagging(t.pc, AccountsOf(t), LastPlaced(t));
    }
  }

  /** An interruption leads to a counter where lagging is allowed, or changes nothing. */
  lemma ExitApart(s: Setup, t: Task, a: Accounts, p: Paper.Placement)
    requires Lagging(a, p) && (t.pc.NotStarted? ==> Level(a))
    ensures Apart(Raise(s, t).pc, a, p) && Apart(Cancelling(s, t).pc, a, p)
  {}

  lemma InterruptionInStep(s: Setup, t: Task, took: bool)
    requires Shape(t) && InStep(t)
    ensures InStep(Raise(s, Interrupted(s, t, took)))
            && InStep(Cancelling(s, Interrupted(s, t, took)).(cancelled := false))
  {
    var u := Interrupted(s, t, took);
    InterruptedLags(s, t, took);
    InterruptedKeeps(s, t, took);
    ExitApart(s, u, AccountsOf(u), LastPlaced(u));
    ExitsKeep(s, u);
  }

  lemma KilledInStep(t: Task, u: Task, k: KillPc)
    requires InStep(t) && AfterKill(t, u, k)
    ensures InStep(u)
  {
    PublishedEmit(t.desk.log, BotKilled);
    if k.Clearing? {
      SweepRecords(t.desk, k.sweep);
    }
    assert AccountsOf(u) == AccountsOf(t);
  }

  lemma KillInStep(t: Task, i: nat, took: bool)
    requires InStep(t) && i < |t.kills|
    ensures InStep(KillResume(t, i)) && InStep(KillInterrupted(t, i, took))
  {
    KillKeeps(t, i, took);
    KilledInStep(t, KillResume(t, i), t.kills[i]);
    KilledInStep(t, KillInterrupted(t, i, took), t.kills[i]);
  }

  lemma BarredInStep(t: Task, u: Task)
    requires InStep(t) && t.pc.AwaitingBar? && AfterBar(t, u)
    ensures InStep(u)
  {
    assert AccountsOf(u) == AccountsOf(t) && LastPlaced(u) == LastPlaced(t);
  }

  lemma BarInStep(s: Setup, t: Task, bar: Bar, now: int, out: Option<seq<Intent>>, later: int)
    requires InStep(t) && t.pc.AwaitingBar?
    ensures InStep(OnBar(s, t, bar, now, out, later))
  {
    BarKeeps(s, t, bar, now, out, later);
    BarredInStep(t, OnBar(s, t, bar, now, out, later));
  }

  lemma TaskStepInStep(s: Setup, t: Task, a: Act)
    requires Shape(t) && InStep(t) && (a.Completes? || a.Fails? || a.Delivered?)
    ensures InStep(Next(s, t, a))
  {
    match a
    case Completes(now) => CompletesInStep(s, t, now);
    case Fails(took) => InterruptionInStep(s, t, took);
    case Delivered(took) => InterruptionInStep(s, t, took);
  }

  lemma StepInStep(s: Setup, t: Task, a: Act)
    requires Shape(t) && InStep(t)
    ensures InStep(Next(s, t, a))
  {
    match a
    case Completes(_) => TaskStepInStep(s, t, a);
    case Fails(_) => TaskStepInStep(s, t, a);
    case Delivered(_) => TaskStepInStep(s, t, a);
    case BarArrives(bar, now, out, later) => if t.pc.AwaitingBar? { BarInStep(s, t, bar, now, out, later); }
    case KillCompletes(i) => if i < |t.kills| { KillInStep(t, i, true); }
    case KillFails(i, took) => if i < |t.kills| { KillInStep(t, i, took); }
    case StreamEnds => if t.pc.AwaitingBar? { StreamEndInStep(s, t); }
    case StopCalled =>
    case KillCalled =>
  }

  lemma StreamEndInStep(s: Setup, t: Task)
    requires InStep(t) && t.pc.AwaitingBar?
    ensures InStep(Leave(s, t, Ended))
  {}

  /** Only market orders fill at once, one fill each; and only such fills are ever committed. */
  ghost predicate OnlyImmediate(t: Task) {
    && (forall p :: p in t.placements ==> |p.fills| <= 1 && (p.fills != [] ==> p.intent.kind.Market?))
    && (AtHand(t.pc).Some? ==> AtHand(t.pc).value in t.placements)
    && forall f :: f in Committed(t.desk.rows) ==> exists p :: p in t.placements && f in p.fills
  }

  lemma EffectImmediate(s: Setup, t: Task)
    requires OnlyImmediate(t)
    ensures OnlyImmediate(Effect(s, t)) && t.placements <= Effect(s, t).placements
  {
    var u := Effect(s, t);
    EffectRecords(s, t);
    forall f | f in Committed(u.desk.rows) ensures exists p :: p in u.placements && f in p.fills {
      if f in Committed(t.desk.rows) {
        var p :| p in t.placements && f in p.fills;
        assert p in u.placements;
      } else {
        assert f in t.pc.p.fills && t.pc.p in u.placements;
      }
    }
  }

  lemma StepImmediate(s: Setup, t: Task, a: Act)
    requires OnlyImmediate(t)
    ensures OnlyImmediate(Next(s, t, a))
  {
    match a
    case Completes(now) =>
      EffectImmediate(s, t);
      ResumeKeeps(s, Effect(s, t), now);
      ResumeAtHand(s, Effect(s, t), now);
    case Fails(took) => InterruptionImmediate(s, t, took);
    case Delivered(took) => InterruptionImmediate(s, t, took);
    case BarArrives(bar, now, out, later) => if t.pc.AwaitingBar? { BarImmediate(s, t, bar, now, out, later); }
    case KillCompletes(i) => if i < |t.kills| { KillImmediate(t, i, true); }
    case KillFails(i, took) => if i < |t.kills| { KillImmediate(t, i, took); }
    case _ =>
  }

  lemma BarImmediate(s: Setup, t: Task, bar: Bar, now: int, out: Option<seq<Intent>>, later: int)
    requires OnlyImmediate(t) && t.pc.AwaitingBar?
    ensures OnlyImmediate(OnBar(s, t, bar, now, out, later))
  {
    BarKeeps(s, t, bar, now, out, later);
  }

  lemma InterruptionImmediate(s: Setup, t: Task, took: bool)
    requires OnlyImmediate(t)
    ensures OnlyImmediate(Raise(s, Interrupted(s, t, took)))
            && OnlyImmediate(Cancelling(s, Interrupted(s, t, took)).(cancelled := false))
  {
    var u := Interrupted(s, t, took);
    EffectImmediate(s, t);
    InterruptedKeeps(s, t, took);
    ExitsKeep(s, u);
    ExitsLead(s, u);
  }

  lemma KillImmediate(t: Task, i: nat, took: bool)
    requires OnlyImmediate(t) && i < |t.kills|
    ensures OnlyImmediate(KillResume(t, i)) && OnlyImmediate(KillInterrupted(t, i, took))
  {
    if t.kills[i].Clearing? {
      SweepRecords(t.desk, t.kills[i].sweep);
    }
  }

  // ------------------------------------------------------------------ every run

  lemma {:induction false} EveryJournalHolds(s: Setup, acts: seq<Act>)
    ensures var t := Exec(s, acts);
            Shape(t) && FollowsGrammar(t) && PaperTrail(t) && InStep(t) && OnlyImmediate(t)
  {
    if acts != [] {
      var t, a := Exec(s, acts[..|acts| - 1]), acts[|acts| - 1];
      EveryJournalHolds(s, acts[..|acts| - 1]);
      StepSettles(s, t, a);
      StepFollows(s, t, a);
      StepTrail(s, t, a);
      StepInStep(s, t, a);
      StepImmediate(s, t, a);
    }
  }

  /** The log of every run, whatever interrupts it, is a word of the lifecycle grammar. */
  lemma LifecycleFollowsTheGrammar(s: Setup, acts: seq<Act>)
    ensures PhaseOf(Exec(s, acts).desk.log).Some?
  {
    EveryJournalHolds(s, acts);
  }

  /** At every moment of every run, each published submission, fill and cancellation has its committed row. */
  lemma NothingPublishedWithoutItsRow(s: Setup, acts: seq<Act>)
    ensures var d := Exec(s, acts).desk; forall e :: e in d.log ==> HasRow(d.rows, e)
  {
    EveryJournalHolds(s, acts);
  }

  /** At every moment of every run, the ledger's fills are a prefix of the published ones and those of the
      committed ones, one fill apart at most, and level whenever the task waits for a bar. No fill but a
      market order's own ever reaches any of them. */
  lemma LedgerLagsByOneSubmission(s: Setup, acts: seq<Act>)
    ensures var t := Exec(s, acts);
            var a := AccountsOf(t);
            && a.credited <= a.published <= a.committed && |a.committed| <= |a.credited| + 1
            && (t.pc.AwaitingBar? ==> Level(a))
            && forall f :: f in a.committed ==> exists p :: p in t.placements && f in p.fills && p.intent.kind.Market?
  {
    EveryJournalHolds(s, acts);
    var t := Exec(s, acts);
    var a, p := AccountsOf(t), LastPlaced(t);
    assert |p.fills| <= 1;
    if !t.pc.Placing? {
      RecordedLagging(t.pc, a, p);
    }
    forall f | f in a.committed ensures exists q :: q in t.placements && f in q.fills && q.intent.kind.Market? {
      var q :| q in t.placements && f in q.fills;
    }
  }
}
