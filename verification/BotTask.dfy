/** One bot's task as a step system: every suspension of its run is a program counter value, and
    stop, kill, failure and cancellation may arrive at any of them. */
module BotTask {
  import opened Basics
  import opened Journal
  import opened Router
  import Paper
  import Ledger
  import Live

  // ------------------------------------------------------------------- the state

  datatype BotState = Starting | Running | Stopping | Stopped | Errored | Paused | Killed | Idle

  /** How a run ends: stream exhausted, breaker unwound (or its sweep failed), crash reported, cancelled,
      or an exception let out. */
  datatype Exit = Ended | Unwound | SweepFailed | Crashed | Cancelled | Escaped

  /** A sweep of the open orders: cancelling at the venue one by one (committing when none is left),
      then reporting each. */
  datatype Sweep = Sweeping(todo: seq<nat>, done: seq<nat>) | Reporting(id: nat, rest: seq<nat>)

  /** Where the task is suspended; the named operation is in flight. */
  datatype Pc =
    | NotStarted
    | AnnouncingStart
    | AwaitingBar
    | AnnouncingIdle
    | AnnouncingResume(bar: Bar, out: Option<seq<Intent>>)
    | Placing(intent: Intent, rest: seq<Intent>)
    | Persisting(p: Paper.Placement, rest: seq<Intent>)
    | AnnouncingOrder(p: Paper.Placement, rest: seq<Intent>)
    | AnnouncingFill(p: Paper.Placement, j: nat, rest: seq<Intent>)
    | AnnouncingTrip
    | Unwinding(sweep: Sweep)
    | AnnouncingError
    | TearingDown(exit: Exit)
    | AnnouncingStop
    | Done(exit: Exit)

  /** Where a call to kill is suspended. */
  datatype KillPc = Waiting | Clearing(sweep: Sweep) | AnnouncingKill | Finished

  /** The venue's book, the router's open set, the committed rows, the published events, and the ids
      an interrupted sweep has dropped from the open set without cancelling. */
  datatype Desk = Desk(book: Paper.Book, open: seq<OpenOrder>, rows: seq<Row>, log: seq<Event>, forgotten: set<nat>)

  /** A run: its handle's state, its program counter, whether a cancellation is pending, the last mark
      with its time, and the desk; with the history of placements, credited fills, submissions begun,
      the order cut between placement and registration, fills the mark update dropped, and kills. */
  datatype Task = Task(state: BotState, pc: Pc, cancelled: bool, mark: Option<(real, int)>, desk: Desk,
                       placements: seq<Paper.Placement>, credited: seq<Fill>, begun: nat, cut: Option<nat>,
                       missed: seq<Fill>, kills: seq<KillPc>)

  const NEW_TASK := Task(Starting, NotStarted, false, None, Desk(Paper.EMPTY_BOOK, [], [], [], {}), [], [], 0, None,
      [], [])

  datatype Setup = Setup(cfg: Paper.Config, cap: Option<real>, session: Option<int -> bool>, maxMarkAgeMs: Option<int>,
                         companion: bool)

  /** What can happen next. A bar brings the strategy's answer (none when it raises) and the clock at
      the session check and at the breaker; an interrupted operation may or may not have taken effect. */
  datatype Act =
    | BarArrives(bar: Bar, now: int, out: Option<seq<Intent>>, later: int)
    | StreamEnds
    | Completes(now: int)
    | Fails(took: bool)
    | Delivered(took: bool)
    | StopCalled
    | KillCalled
    | KillCompletes(i: nat)
    | KillFails(i: nat, took: bool)

  // ------------------------------------------------------------------- sweeps

  function Emit(d: Desk, e: Event): Desk {
    d.(log := d.log + [e])
  }

  /** What a sweep's operation in flight does. */
  function SweepEffect(d: Desk, sw: Sweep): Desk {
    match sw
    case Sweeping(todo, done) =>
      if todo != [] then d.(book := Paper.Cancel(d.book, todo[0])) else d.(rows := d.rows + CancelRows(done))
    case Reporting(id, _) => Emit(d, OrderCancelled(id))
  }

  function Report(ids: seq<nat>): Option<Sweep> {
    if ids == [] then None else Some(Reporting(ids[0], ids[1..]))
  }

  function SweepNext(sw: Sweep): Option<Sweep> {
    match sw
    case Sweeping(todo, done) =>
      if todo != [] then Some(Sweeping(todo[1..], done + [todo[0]])) else Report(done)
    case Reporting(_, rest) => Report(rest)
  }

  /** The ids a sweep still has to cancel at the venue. */
  function Left(sw: Sweep): set<nat> {
    if sw.Sweeping? then set k | k in sw.todo else {}
  }

  /** The ids an interruption makes it forget. */
  function Lost(sw: Sweep, took: bool): set<nat> {
    if sw.Sweeping? && sw.todo != [] && took then set k | k in sw.todo[1..] else Left(sw)
  }

  // ---------------------------------------------------------------- the run's steps

  function Finish(t: Task, exit: Exit): Task {
    if exit.Ended? then t.(state := Stopped, pc := AnnouncingStop) else t.(pc := Done(exit))
  }

  /** Out of the loop: tear the companion down if there is one. */
  function Leave(s: Setup, t: Task, exit: Exit): Task {
    if s.companion then t.(pc := TearingDown(exit)) else Finish(t, exit)
  }

  function Crash(t: Task): Task {
    t.(state := Errored, pc := AnnouncingError)
  }

  /** Whether the breaker may act on the last mark: market open now, mark not too old. */
  predicate Trusted(s: Setup, markTsMs: int, now: int) {
    s.session.Some? ==> s.session.value(now) && (s.maxMarkAgeMs.Some? ==> now - markTsMs <= s.maxMarkAgeMs.value)
  }

  predicate Trips(s: Setup, t: Task, now: int) {
    && s.cap.Some? && t.mark.Some? && Trusted(s, t.mark.value.1, now)
    && Live.CapReached(s.cap, Ledger.Mtm(Ledger.CreditAll(Ledger.FLAT, t.credited), t.mark.value.0))
  }

  function Judge(s: Setup, t: Task, now: int): Task {
    if Trips(s, t, now) then t.(state := Paused, pc := AnnouncingTrip) else t.(pc := AwaitingBar)
  }

  function Submit(s: Setup, t: Task, intents: seq<Intent>, now: int): Task {
    if intents == [] then Judge(s, t, now)
    else t.(pc := Placing(intents[0], intents[1..]), begun := t.begun + 1)
  }

  function Trade(s: Setup, t: Task, bar: Bar, out: Option<seq<Intent>>, now: int): Task {
    var u := t.(mark := Some((bar.close, bar.tsMs)));
    if out.None? then Crash(u) else Submit(s, u, out.value, now)
  }

  function Credit(s: Setup, t: Task, p: Paper.Placement, rest: seq<Intent>, now: int): Task {
    Submit(s, t.(credited := t.credited + p.fills), rest, now)
  }

  /** A bar: the source marks the venue, whose limit fills nobody collects; then the loop looks at
      the state, the session and the bar, in that order. */
  function OnBar(s: Setup, t: Task, bar: Bar, now: int, out: Option<seq<Intent>>, later: int): Task {
    var marked := Paper.UpdateMark(s.cfg, t.desk.book, bar.symbol, bar.close);
    var u := t.(desk := t.desk.(book := marked.0), missed := t.missed + marked.1);
    if u.state.Stopping? then Leave(s, u, Ended)
    else if s.session.Some? && !s.session.value(now) then
      if u.state.Idle? then u else u.(state := Idle, pc := AnnouncingIdle)
    else if u.state.Idle? then u.(state := Running, pc := AnnouncingResume(bar, out))
    else Trade(s, u, bar, out, later)
  }

  /** What the operation in flight does, before control returns to the task. */
  function Effect(s: Setup, t: Task): Task {
    match t.pc
    case Placing(intent, _) =>
      var placed := Paper.Place(s.cfg, t.desk.book, intent);
      t.(desk := t.desk.(book := placed.0), placements := t.placements + [placed.1])
    case Persisting(p, _) => t.(desk := t.desk.(rows := t.desk.rows + SubmitRows(p)))
    case Unwinding(sw) => t.(desk := SweepEffect(t.desk, sw))
    case _ => if Says(t.pc).Some? then t.(desk := Emit(t.desk, Says(t.pc).value)) else t
  }

  /** The event being published. */
  function Says(pc: Pc): Option<Event> {
    match pc
    case AnnouncingStart => Some(BotStarted)
    case AnnouncingIdle => Some(BotIdle)
    case AnnouncingResume(_, _) => Some(BotResumed)
    case AnnouncingOrder(p, _) => Some(OrderSubmitted(p.orderId))
    case AnnouncingFill(p, j, _) => if j < |p.fills| then Some(OrderFilled(p.fills[j])) else None
    case AnnouncingTrip => Some(CircuitTripped)
    case AnnouncingError => Some(BotError)
    case AnnouncingStop => Some(BotStopped)
    case _ => None
  }

  /** The operation in flight has returned: run to the next suspension. */
  function Resume(s: Setup, t: Task, now: int): Task {
    match t.pc
    case NotStarted => t.(state := Running, pc := AnnouncingStart)
    case AnnouncingStart => t.(pc := AwaitingBar)
    case AwaitingBar => t
    case AnnouncingIdle => t.(pc := AwaitingBar)
    case AnnouncingResume(bar, out) => Trade(s, t, bar, out, now)
    case Placing(_, rest) =>
      if t.placements == [] then t else t.(pc := Persisting(t.placements[|t.placements| - 1], rest))
    case Persisting(p, rest) =>
      t.(desk := t.desk.(open := Registered(t.desk.open, p)), pc := AnnouncingOrder(p, rest))
    case AnnouncingOrder(p, rest) =>
      if p.fills == [] then Credit(s, t, p, rest, now) else t.(pc := AnnouncingFill(p, 0, rest))
    case AnnouncingFill(p, j, rest) =>
      if j + 1 < |p.fills| then t.(pc := AnnouncingFill(p, j + 1, rest)) else Credit(s, t, p, rest, now)
    case AnnouncingTrip =>
      if t.desk.open == [] then Leave(s, t, Unwound)
      else t.(desk := t.desk.(open := []), pc := Unwinding(Sweeping(OpenIds(t.desk.open), [])))
    case Unwinding(sw) => if SweepNext(sw).Some? then t.(pc := Unwinding(SweepNext(sw).value)) else Leave(s, t, Unwound)
    case AnnouncingError => Leave(s, t, Crashed)
    case TearingDown(exit) => Finish(t, exit)
    case AnnouncingStop => t.(pc := Done(Ended))
    case Done(_) => t
  }

  /** The order an interruption leaves at the venue and nowhere else. */
  function CutBy(t: Task, took: bool): Option<nat>
    requires t.pc.Placing? && took ==> t.placements != []
  {
    match t.pc
    case Placing(_, _) =>
      if took && Rests(t.placements[|t.placements| - 1]) then Some(t.placements[|t.placements| - 1].orderId) else t.cut
    case Persisting(p, _) => if Rests(p) then Some(p.orderId) else t.cut
    case _ => t.cut
  }

  /** The bookkeeping of an interruption: an effect if it took, a cut submission, a dropped sweep. */
  function Interrupted(s: Setup, t: Task, took: bool): Task {
    var u := if took then Effect(s, t) else t;
    var v := u.(cut := CutBy(u, took));
    if t.pc.Unwinding? then v.(desk := v.desk.(forgotten := v.desk.forgotten + Lost(t.pc.sweep, took))) else v
  }

  /** An exception at the operation in flight. Sweeps swallow theirs; so does the teardown. */
  function Raise(s: Setup, t: Task): Task {
    match t.pc
    case NotStarted => t
    case AnnouncingStart => t.(pc := Done(Escaped))
    case Unwinding(_) => Leave(s, t, SweepFailed)
    case AnnouncingError => Leave(s, t, Escaped)
    case TearingDown(exit) => Finish(t, exit)
    case AnnouncingStop => t.(pc := Done(Escaped))
    case Done(_) => t
    case _ => Crash(t)
  }

  /** A cancellation at the operation in flight. Only the teardown swallows it. */
  function Cancelling(s: Setup, t: Task): Task {
    match t.pc
    case NotStarted => t.(pc := Done(Cancelled))
    case AnnouncingStart => t.(pc := Done(Cancelled))
    case TearingDown(exit) => Finish(t, exit)
    case AnnouncingStop => t.(pc := Done(Cancelled))
    case Done(_) => t
    case _ => Leave(s, t, Cancelled)
  }

  // ------------------------------------------------------------------- kills

  /** One call to kill, from its first suspension on: it waits for the task to be done, sweeps, and says so. */
  function KillResume(t: Task, i: nat): Task
    requires i < |t.kills|
  {
    match t.kills[i]
    case Waiting =>
      if !t.pc.Done? then t
      else if t.desk.open == [] then t.(kills := t.kills[i := AnnouncingKill])
      else t.(desk := t.desk.(open := []), kills := t.kills[i := Clearing(Sweeping(OpenIds(t.desk.open), []))])
    case Clearing(sw) =>
      t.(desk := SweepEffect(t.desk, sw),
         kills := t.kills[i := if SweepNext(sw).Some? then Clearing(SweepNext(sw).value) else AnnouncingKill])
    case AnnouncingKill => t.(desk := Emit(t.desk, BotKilled), kills := t.kills[i := Finished])
    case Finished => t
  }

  function KillInterrupted(t: Task, i: nat, took: bool): Task
    requires i < |t.kills|
  {
    match t.kills[i]
    case Waiting => t
    case Clearing(sw) =>
      var d := if took then SweepEffect(t.desk, sw) else t.desk;
      t.(desk := d.(forgotten := d.forgotten + Lost(sw, took)), kills := t.kills[i := AnnouncingKill])
    case AnnouncingKill =>
      t.(desk := if took then Emit(t.desk, BotKilled) else t.desk, kills := t.kills[i := Finished])
    case Finished => t
  }

  // ------------------------------------------------------------------- all steps

  /** A task with a cancellation pending experiences nothing but its delivery. */
  function Next(s: Setup, t: Task, a: Act): Task {
    match a
    case StopCalled => t.(state := Stopping, cancelled := t.cancelled || !t.pc.Done?)
    case KillCalled => t.(state := Killed, cancelled := t.cancelled || !t.pc.Done?, kills := t.kills + [Waiting])
    case KillCompletes(i) => if i < |t.kills| then KillResume(t, i) else t
    case KillFails(i, took) => if i < |t.kills| then KillInterrupted(t, i, took) else t
    case Delivered(took) =>
      if t.cancelled then Cancelling(s, Interrupted(s, t, took)).(cancelled := false) else t
    case BarArrives(bar, now, out, later) =>
      if !t.cancelled && t.pc.AwaitingBar? then OnBar(s, t, bar, now, out, later) else t
    case StreamEnds => if !t.cancelled && t.pc.AwaitingBar? then Leave(s, t, Ended) else t
    case Completes(now) => if t.cancelled then t else Resume(s, Effect(s, t), now)
    case Fails(took) => if t.cancelled then t else Raise(s, Interrupted(s, t, took))
  }

  /** What becomes of a task under a sequence of steps. */
  function From(s: Setup, t: Task, acts: seq<Act>): Task {
    if acts == [] then t else Next(s, From(s, t, acts[..|acts| - 1]), acts[|acts| - 1])
  }

  function Exec(s: Setup, acts: seq<Act>): Task {
    From(s, NEW_TASK, acts)
  }

  lemma {:induction false} FromAppend(s: Setup, t: Task, a: seq<Act>, b: seq<Act>)
    ensures From(s, t, a + b) == From(s, From(s, t, a), b)
  {
    if b == [] {
      assert a + b == a;
    } else {
      FromAppend(s, t, a, b[..|b| - 1]);
      assert (a + b)[..|a + b| - 1] == a + b[..|b| - 1];
    }
  }

  lemma {:induction false} OneMore(s: Setup, t: Task, acts: seq<Act>, a: Act)
    ensures From(s, t, acts + [a]) == Next(s, From(s, t, acts), a)
  {
    assert (acts + [a])[..|acts|] == acts;
  }

  /** Nothing but this act, over and over. */
  ghost predicate Only(acts: seq<Act>, a: Act) {
    forall k :: 0 <= k < |acts| ==> acts[k] == a
  }

  // -------------------------------------------------------- who can still trade

  /** Inside the bar loop. */
  predicate InLoop(pc: Pc) {
    || pc.AwaitingBar? || pc.AnnouncingIdle? || pc.AnnouncingResume?
    || pc.Placing? || pc.Persisting? || pc.AnnouncingOrder? || pc.AnnouncingFill?
  }

  /** The task may yet begin a submission: not cancelled, and in the loop or on its way there. */
  predicate CanTrade(t: Task) {
    !t.cancelled && (t.pc.NotStarted? || t.pc.AnnouncingStart? || InLoop(t.pc))
  }

  /** The states in which the supervisor refuses to start the bot again. */
  predicate Busy(state: BotState) {
    state.Starting? || state.Running? || state.Idle?
  }

  /** What the handle's state says while the task can trade, and what holds of the other fields. */
  ghost predicate Shape(t: Task) {
    && (t.cancelled ==> !t.pc.Done?)
    && (CanTrade(t) ==>
          if t.pc.NotStarted? then t.state.Starting?
          else if t.pc.AwaitingBar? then t.state.Running? || t.state.Idle?
          else if t.pc.AnnouncingIdle? then t.state.Idle?
          else t.state.Running?)
    && (!t.pc.Done? ==> forall i :: 0 <= i < |t.kills| ==> t.kills[i].Waiting?)
    && (t.cut.Some? ==> t.pc.AnnouncingError? || (t.pc.TearingDown? && !t.pc.exit.Ended?) || t.pc.Done?)
    && (t.pc.AnnouncingFill? ==> t.pc.j < |t.pc.p.fills|)
  }

  /** What a step does to those who can trade: nobody begins again, and nothing is begun afterwards. */
  ghost predicate Settles(t: Task, u: Task) {
    Shape(u) && (!CanTrade(t) ==> !CanTrade(u) && u.begun == t.begun)
  }

  /** The parts of a task an effect leaves alone. */
  ghost predicate SameControl(t: Task, u: Task) {
    && u.state == t.state && u.pc == t.pc && u.cancelled == t.cancelled && u.mark == t.mark
    && u.credited == t.credited && u.begun == t.begun && u.missed == t.missed && u.kills == t.kills
    && u.desk.open == t.desk.open
  }

  lemma EffectKeepsControl(s: Setup, t: Task)
    ensures SameControl(t, Effect(s, t)) && Effect(s, t).cut == t.cut && Effect(s, t).desk.forgotten == t.desk.forgotten
    ensures |Effect(s, t).placements| == |t.placements| + if t.pc.Placing? then 1 else 0
  {}

  lemma InterruptionKeepsControl(s: Setup, t: Task, took: bool)
    ensures SameControl(t, Interrupted(s, t, took))
    ensures Interrupted(s, t, took).cut != t.cut ==> t.pc.Placing? || t.pc.Persisting?
  {
    EffectKeepsControl(s, t);
  }

  /** In the loop, or on the way into it. */
  predicate Going(pc: Pc) {
    pc.NotStarted? || pc.AnnouncingStart? || InLoop(pc)
  }

  /** The counters from which a resumption goes through `Submit`. */
  predicate MaySubmit(pc: Pc) {
    pc.AnnouncingResume? || pc.AnnouncingOrder? || pc.AnnouncingFill?
  }

  lemma GoingResumeSettles(s: Setup, t: Task, now: int)
    requires Shape(t) && !t.cancelled && Going(t.pc)
    ensures Shape(Resume(s, t, now))
  {
    if MaySubmit(t.pc) {
      SubmittingSettles(s, t, now);
    }
  }

  lemma SubmittingSettles(s: Setup, t: Task, now: int)
    requires Shape(t) && !t.cancelled && MaySubmit(t.pc)
    ensures Shape(Resume(s, t, now))
  {}

  lemma LeavingResumeSettles(s: Setup, t: Task, now: int)
    requires Shape(t) && !t.cancelled && !Going(t.pc)
    ensures Settles(t, Resume(s, t, now))
  {}

  lemma ResumeSettles(s: Setup, t: Task, now: int)
    requires Shape(t) && !t.cancelled
    ensures Settles(t, Resume(s, t, now))
  {
    if Going(t.pc) {
      GoingResumeSettles(s, t, now);
    } else {
      LeavingResumeSettles(s, t, now);
    }
  }

  lemma RaiseSettles(s: Setup, t: Task, cut: Option<nat>)
    requires Shape(t.(cut := cut)) && (t.cut != cut ==> t.pc.Placing? || t.pc.Persisting?)
    ensures !t.cancelled ==> Settles(t, Raise(s, t))
    ensures t.cancelled ==> Settles(t, Cancelling(s, t).(cancelled := false))
  {}

  lemma InterruptionSettles(s: Setup, t: Task, took: bool)
    requires Shape(t)
    ensures !t.cancelled ==> Settles(t, Raise(s, Interrupted(s, t, took)))
    ensures t.cancelled ==> Settles(t, Cancelling(s, Interrupted(s, t, took)).(cancelled := false))
  {
    InterruptionKeepsControl(s, t, took);
    RaiseSettles(s, Interrupted(s, t, took), t.cut);
  }

  lemma BarSettles(s: Setup, t: Task, bar: Bar, now: int, out: Option<seq<Intent>>, later: int)
    requires Shape(t) && !t.cancelled && t.pc.AwaitingBar?
    ensures Settles(t, OnBar(s, t, bar, now, out, later))
  {}

  lemma StepSettles(s: Setup, t: Task, a: Act)
    requires Shape(t)
    ensures Settles(t, Next(s, t, a))
  {
    match a
    case Completes(now) =>
      if !t.cancelled {
        EffectKeepsControl(s, t);
        ResumeSettles(s, Effect(s, t), now);
      }
    case Fails(took) => InterruptionSettles(s, t, took);
    case Delivered(took) => InterruptionSettles(s, t, took);
    case BarArrives(bar, now, out, later) =>
      if !t.cancelled && t.pc.AwaitingBar? { BarSettles(s, t, bar, now, out, later); }
    case _ =>
  }

  lemma {:induction false} EveryTaskIsShaped(s: Setup, acts: seq<Act>)
    ensures Shape(Exec(s, acts))
  {
    if acts != [] {
      EveryTaskIsShaped(s, acts[..|acts| - 1]);
      StepSettles(s, Exec(s, acts[..|acts| - 1]), acts[|acts| - 1]);
    }
  }

  /** Once a task cannot trade, nothing that can happen to it begins another submission. */
  lemma {:induction false} NothingBeginsAfterTheEnd(s: Setup, t: Task, acts: seq<Act>)
    requires Shape(t) && !CanTrade(t)
    ensures !CanTrade(From(s, t, acts)) && From(s, t, acts).begun == t.begun && Shape(From(s, t, acts))
  {
    if acts != [] {
      NothingBeginsAfterTheEnd(s, t, acts[..|acts| - 1]);
      StepSettles(s, From(s, t, acts[..|acts| - 1]), acts[|acts| - 1]);
    }
  }

  /** After stop or kill is called, wherever the task is, it never submits again. */
  lemma {:induction false} StoppedNeverSubmitsAgain(s: Setup, before: seq<Act>, a: Act, after: seq<Act>)
    requires a.StopCalled? || a.KillCalled?
    ensures From(s, Next(s, Exec(s, before), a), after).begun == Exec(s, before).begun
  {
    EveryTaskIsShaped(s, before);
    StepSettles(s, Exec(s, before), a);
    NothingBeginsAfterTheEnd(s, Next(s, Exec(s, before), a), after);
  }

  /** The loop's own look for a stopping handle never finds one: stop always cancels the task as well,
      and a cancelled task sees no further bar. Stop does not let the current bar finish. */
  lemma StoppingIsNeverSeenByTheLoop(s: Setup, acts: seq<Act>)
    requires Exec(s, acts).pc.AwaitingBar? && !Exec(s, acts).cancelled
    ensures Exec(s, acts).state.Running? || Exec(s, acts).state.Idle?
  {
    EveryTaskIsShaped(s, acts);
  }

  /** Were a bar to find it all the same, it would not be traded: the task would leave as at the end of the stream. */
  lemma StoppingEndsTheStream(s: Setup, t: Task, bar: Bar, now: int, out: Option<seq<Intent>>, later: int)
    requires t.pc.AwaitingBar? && !t.cancelled && t.state.Stopping?
    ensures var u, v := Next(s, t, BarArrives(bar, now, out, later)), Next(s, t, StreamEnds);
            && u.pc == v.pc && u.state == v.state && u.begun == t.begun && u.mark == t.mark
            && u.desk == t.desk.(book := Paper.UpdateMark(s.cfg, t.desk.book, bar.symbol, bar.close).0)
  {}

  /** A cancellation ends the task wherever it is suspended, and at once but for the companion, which only the loop and
      what follows it wait for. It leaves the state as it is and begins and credits nothing. */
  lemma CancellationsEndTheTask(s: Setup, t: Task, took: bool)
    requires t.cancelled && !t.pc.TearingDown? && !t.pc.Done?
    ensures var u := Next(s, t, Delivered(took));
            var waits := s.companion && !t.pc.NotStarted? && !t.pc.AnnouncingStart? && !t.pc.AnnouncingStop?;
            && u.pc == (if waits then TearingDown(Cancelled) else Done(Cancelled)) && !u.cancelled
            && u.state == t.state && u.begun == t.begun && u.credited == t.credited
  {
    InterruptionKeepsControl(s, t, took);
    InterruptedKeeps(s, t, took);
  }

  /** A trading task that was stopped: cancelled, then torn down, then done. */
  ghost predicate Halted(t: Task) {
    t.state.Stopping? && ((t.cancelled && (t.pc.NotStarted? || t.pc.AnnouncingStart? || InLoop(t.pc)))
                          || t.pc == TearingDown(Cancelled) || t.pc == Done(Cancelled))
  }

  lemma HaltedStays(s: Setup, t: Task, a: Act)
    requires Halted(t) && !a.KillCalled?
    ensures Halted(Next(s, t, a))
  {
    match a
    case Delivered(took) => InterruptedHalts(s, t, took);
    case Fails(took) => InterruptedHalts(s, t, took);
    case Completes(now) => CompletesHalts(s, t, now);
    case _ =>
  }

  lemma InterruptedHalts(s: Setup, t: Task, took: bool)
    requires Halted(t)
    ensures Halted(Next(s, t, Delivered(took))) && Halted(Next(s, t, Fails(took)))
  {
    InterruptionKeepsControl(s, t, took);
  }

  lemma CompletesHalts(s: Setup, t: Task, now: int)
    requires Halted(t)
    ensures Halted(Next(s, t, Completes(now)))
  {
    EffectKeepsControl(s, t);
  }

  /** Steps with no stop and no kill among them. */
  ghost predicate Unasked(acts: seq<Act>) {
    forall k :: 0 <= k < |acts| ==> !acts[k].StopCalled? && !acts[k].KillCalled?
  }

  ghost predicate NoKill(acts: seq<Act>) {
    forall k :: 0 <= k < |acts| ==> !acts[k].KillCalled?
  }

  /** Cancelled or past it, and not in the one place that swallows a cancellation and goes on. */
  predicate Doomed(t: Task) {
    if t.cancelled then t.pc != TearingDown(Ended) else t.pc.Done? || (t.pc.TearingDown? && !t.pc.exit.Ended?)
  }

  lemma DoomedStays(s: Setup, t: Task, a: Act)
    requires Doomed(t)
    ensures Doomed(Next(s, t, a))
    ensures !a.StopCalled? && !a.KillCalled? ==> Next(s, t, a).state == t.state
  {
    match a
    case Delivered(took) => DoomedInterrupted(s, t, took);
    case Fails(took) => DoomedInterrupted(s, t, took);
    case Completes(now) => DoomedCompletes(s, t, now);
    case _ =>
  }

  lemma DoomedInterrupted(s: Setup, t: Task, took: bool)
    requires Doomed(t)
    ensures var u := Next(s, t, Delivered(took)); Doomed(u) && u.state == t.state
    ensures var u := Next(s, t, Fails(took)); Doomed(u) && u.state == t.state
  {
    InterruptionKeepsControl(s, t, took);
  }

  lemma DoomedCompletes(s: Setup, t: Task, now: int)
    requires Doomed(t)
    ensures var u := Next(s, t, Completes(now)); Doomed(u) && u.state == t.state
  {
    EffectKeepsControl(s, t);
  }

  lemma {:induction false} DoomedKeepsKilled(s: Setup, t: Task, acts: seq<Act>)
    requires Doomed(t) && t.state.Killed? && Unasked(acts)
    ensures Doomed(From(s, t, acts)) && From(s, t, acts).state.Killed?
  {
    if acts != [] {
      DoomedKeepsKilled(s, t, acts[..|acts| - 1]);
      DoomedStays(s, From(s, t, acts[..|acts| - 1]), acts[|acts| - 1]);
    }
  }

  lemma {:induction false} DoomedKeepsStopping(s: Setup, t: Task, acts: seq<Act>)
    requires Doomed(t) && t.state.Stopping? && NoKill(acts)
    ensures Doomed(From(s, t, acts)) && From(s, t, acts).state.Stopping?
  {
    if acts != [] {
      DoomedKeepsStopping(s, t, acts[..|acts| - 1]);
      DoomedStays(s, From(s, t, acts[..|acts| - 1]), acts[|acts| - 1]);
    }
  }

  /** When a kill sticks, exactly: the bot stays KILLED under every continuation with no further stop or kill,
      unless the kill lands while a run whose stream ended tears its companion down. */
  lemma {:induction false} KillSticksIff(s: Setup, t: Task)
    ensures (forall acts :: Unasked(acts) ==> From(s, Next(s, t, KillCalled), acts).state.Killed?)
            <==> t.pc != TearingDown(Ended)
  {
    var u := Next(s, t, KillCalled);
    if t.pc == TearingDown(Ended) {
      TwoSteps(s, u, Delivered(false), Delivered(false));
      assert Unasked([Delivered(false)]) && From(s, u, [Delivered(false)]).state.Stopped?;
    } else {
      forall acts | Unasked(acts) ensures From(s, u, acts).state.Killed? {
        DoomedKeepsKilled(s, u, acts);
      }
    }
  }

  /** When a stopped bot can become STOPPED, exactly: some continuation with no kill gets it there if and only if
      the stop lands in that same teardown. */
  lemma {:induction false} StopReachesStoppedIff(s: Setup, t: Task)
    ensures (exists acts :: NoKill(acts) && From(s, Next(s, t, StopCalled), acts).state.Stopped?)
            <==> t.pc == TearingDown(Ended)
  {
    var u := Next(s, t, StopCalled);
    if t.pc == TearingDown(Ended) {
      TwoSteps(s, u, Delivered(false), Delivered(false));
      assert NoKill([Delivered(false)]) && From(s, u, [Delivered(false)]).state.Stopped?;
    } else {
      forall acts | NoKill(acts) ensures !From(s, u, acts).state.Stopped? {
        DoomedKeepsStopping(s, u, acts);
      }
    }
  }

  /** The exception is reached by every bot with a companion whose stream ends at once. */
  lemma {:induction false} EndedStreamsTearDown(s: Setup, now: int)
    requires s.companion
    ensures var t := Exec(s, [Completes(now), Completes(now), StreamEnds]);
            t.pc == TearingDown(Ended) && !t.cancelled && t.state.Running?
  {
    TwoSteps(s, NEW_TASK, Completes(now), Completes(now));
    OneMore(s, NEW_TASK, [Completes(now), Completes(now)], StreamEnds);
    assert [Completes(now), Completes(now)] + [StreamEnds] == [Completes(now), Completes(now), StreamEnds];
  }

  /** In particular a stopped trading bot stays in STOPPING: short of a kill, no step ever moves it to STOPPED. */
  lemma {:induction false} StopNeverReachesStopped(s: Setup, t: Task, acts: seq<Act>)
    requires CanTrade(t) && forall k :: 0 <= k < |acts| ==> !acts[k].KillCalled?
    ensures Halted(From(s, Next(s, t, StopCalled), acts))
  {
    if acts != [] {
      StopNeverReachesStopped(s, t, acts[..|acts| - 1]);
      HaltedStays(s, From(s, Next(s, t, StopCalled), acts[..|acts| - 1]), acts[|acts| - 1]);
    }
  }

  lemma {:induction false} TwoSteps(s: Setup, t: Task, a: Act, b: Act)
    ensures From(s, t, [a]) == Next(s, t, a) && From(s, t, [a, b]) == Next(s, Next(s, t, a), b)
  {
    assert [a][..0] == [] && [a, b][..1] == [a];
    assert From(s, t, []) == t;
  }

  /** The desk once a kill has run through: every open order cancelled, recorded and reported, and the kill
      announced. */
  function KilledDesk(d: Desk): Desk {
    var ids := OpenIds(d.open);
    Desk(CancelMany(d.book, ids), [], d.rows + CancelRows(ids), d.log + CancelEvents(ids) + [BotKilled], d.forgotten)
  }

  /** A kill of the open orders `ids` with the first `k` cancelled. */
  function SweepingAt(t: Task, i: nat, ids: seq<nat>, k: nat): Task
    requires i < |t.kills| && k <= |ids|
  {
    t.(desk := t.desk.(book := CancelMany(t.desk.book, ids[..k]), open := []),
       kills := t.kills[i := Clearing(Sweeping(ids[k..], ids[..k]))])
  }

  /** The same kill, all cancelled and recorded, with the first `k` reported. */
  function ReportingAt(t: Task, i: nat, ids: seq<nat>, k: nat): Task
    requires i < |t.kills| && k <= |ids|
  {
    t.(desk := t.desk.(book := CancelMany(t.desk.book, ids), open := [], rows := t.desk.rows + CancelRows(ids),
                       log := t.desk.log + CancelEvents(ids)[..k]),
       kills := t.kills[i := if k < |ids| then Clearing(Reporting(ids[k], ids[k + 1..])) else AnnouncingKill])
  }

  lemma SweepingOn(s: Setup, t: Task, i: nat, ids: seq<nat>, k: nat)
    requires i < |t.kills| && k < |ids|
    ensures Next(s, SweepingAt(t, i, ids, k), KillCompletes(i)) == SweepingAt(t, i, ids, k + 1)
  {
    assert ids[..k + 1][..k] == ids[..k] && ids[k..][1..] == ids[k + 1..] && ids[..k] + [ids[k]] == ids[..k + 1];
    var u := SweepingAt(t, i, ids, k);
    assert u.kills[i := Clearing(Sweeping(ids[k + 1..], ids[..k + 1]))] == SweepingAt(t, i, ids, k + 1).kills;
  }

  lemma SweptToReporting(s: Setup, t: Task, i: nat, ids: seq<nat>)
    requires i < |t.kills| && ids != []
    ensures Next(s, SweepingAt(t, i, ids, |ids|), KillCompletes(i)) == ReportingAt(t, i, ids, 0)
  {
    assert ids[..|ids|] == ids && ids[|ids|..] == [] && t.desk.log + CancelEvents(ids)[..0] == t.desk.log;
    var u := SweepingAt(t, i, ids, |ids|);
    assert u.kills[i := Clearing(Reporting(ids[0], ids[1..]))] == ReportingAt(t, i, ids, 0).kills;
  }

  lemma ReportingOn(s: Setup, t: Task, i: nat, ids: seq<nat>, k: nat)
    requires i < |t.kills| && k < |ids|
    ensures Next(s, ReportingAt(t, i, ids, k), KillCompletes(i)) == ReportingAt(t, i, ids, k + 1)
  {
    var es, u, v := CancelEvents(ids), ReportingAt(t, i, ids, k), ReportingAt(t, i, ids, k + 1);
    assert es[..k] + [OrderCancelled(ids[k])] == es[..k + 1];
    assert (t.desk.log + es[..k]) + [OrderCancelled(ids[k])] == t.desk.log + es[..k + 1];
    assert k + 1 < |ids| ==> ids[k + 1..][0] == ids[k + 1] && ids[k + 1..][1..] == ids[k + 2..];
    assert u.kills[i := v.kills[i]] == v.kills;
  }

  lemma {:induction false} SweepingThrough(s: Setup, t: Task, i: nat, ids: seq<nat>, k: nat) returns (acts: seq<Act>)
    requires i < |t.kills| && k <= |ids|
    ensures From(s, SweepingAt(t, i, ids, 0), acts) == SweepingAt(t, i, ids, k)
    ensures Only(acts, KillCompletes(i))
    decreases k
  {
    if k == 0 {
      acts := [];
    } else {
      var before := SweepingThrough(s, t, i, ids, k - 1);
      acts := before + [KillCompletes(i)];
      OneMore(s, SweepingAt(t, i, ids, 0), before, KillCompletes(i));
      SweepingOn(s, t, i, ids, k - 1);
    }
  }

  lemma {:induction false} ReportingThrough(s: Setup, t: Task, i: nat, ids: seq<nat>, k: nat) returns (acts: seq<Act>)
    requires i < |t.kills| && k <= |ids|
    ensures From(s, ReportingAt(t, i, ids, 0), acts) == ReportingAt(t, i, ids, k)
    ensures Only(acts, KillCompletes(i))
    decreases k
  {
    if k == 0 {
      acts := [];
    } else {
      var before := ReportingThrough(s, t, i, ids, k - 1);
      acts := before + [KillCompletes(i)];
      OneMore(s, ReportingAt(t, i, ids, 0), before, KillCompletes(i));
      ReportingOn(s, t, i, ids, k - 1);
    }
  }

  /** A waiting kill on a task that is done, left to run: the steps to its announcement. */
  lemma {:induction false} KillRunsToAnnouncing(s: Setup, t: Task, i: nat) returns (acts: seq<Act>)
    requires t.pc.Done? && i < |t.kills| && t.kills[i].Waiting?
    ensures Only(acts, KillCompletes(i))
    ensures From(s, t, acts) == ReportingAt(t, i, OpenIds(t.desk.open), |t.desk.open|)
  {
    var ids, c := OpenIds(t.desk.open), KillCompletes(i);
    OneMore(s, t, [], c);
    assert From(s, t, []) == t && [] + [c] == [c];
    if ids == [] {
      acts := [c];
      NothingOpen(t, i);
    } else {
      var swept := KillSweeps(s, t, i);
      var report := ReportingThrough(s, t, i, ids, |ids|);
      FromAppend(s, t, swept, report);
      acts := swept + report;
    }
  }

  lemma {:induction false} KillSweeps(s: Setup, t: Task, i: nat) returns (acts: seq<Act>)
    requires t.pc.Done? && i < |t.kills| && t.kills[i].Waiting? && t.desk.open != []
    ensures Only(acts, KillCompletes(i))
    ensures From(s, t, acts) == ReportingAt(t, i, OpenIds(t.desk.open), 0)
  {
    var ids, c := OpenIds(t.desk.open), KillCompletes(i);
    OneMore(s, t, [], c);
    assert From(s, t, []) == t && [] + [c] == [c];
    assert Next(s, t, c) == SweepingAt(t, i, ids, 0) by { StartsSweeping(s, t, i); }
    var sweep := SweepingThrough(s, t, i, ids, |ids|);
    FromAppend(s, t, [c], sweep);
    SweptToReporting(s, t, i, ids);
    OneMore(s, t, [c] + sweep, c);
    acts := [c] + sweep + [c];
  }

  lemma StartsSweeping(s: Setup, t: Task, i: nat)
    requires t.pc.Done? && i < |t.kills| && t.kills[i].Waiting? && t.desk.open != []
    ensures Next(s, t, KillCompletes(i)) == SweepingAt(t, i, OpenIds(t.desk.open), 0)
  {
    var ids := OpenIds(t.desk.open);
    assert ids[0..] == ids && ids[..0] == [] && CancelMany(t.desk.book, []) == t.desk.book;
  }

  lemma NothingOpen(t: Task, i: nat)
    requires t.pc.Done? && i < |t.kills| && t.kills[i].Waiting? && t.desk.open == []
    ensures KillResume(t, i) == ReportingAt(t, i, OpenIds(t.desk.open), 0)
  {
    assert OpenIds(t.desk.open) == [] && CancelRows([]) == [] && t.desk.rows + [] == t.desk.rows;
    assert CancelEvents([])[..0] == [] && t.desk.log + [] == t.desk.log && CancelMany(t.desk.book, []) == t.desk.book;
  }

  /** A kill on a bot that has already ended, with orders open or not, is not the no-op documented: left to run, it
      overwrites the final state, cancels and reports whatever is open, and announces itself. */
  lemma {:induction false} KillOverwritesTheEnd(s: Setup, t: Task) returns (acts: seq<Act>)
    requires t.pc.Done?
    ensures Only(acts, KillCompletes(|t.kills|))
    ensures From(s, Next(s, t, KillCalled), acts)
            == t.(state := Killed, desk := KilledDesk(t.desk), kills := t.kills + [Finished])
  {
    var i, u := |t.kills|, Next(s, t, KillCalled);
    assert u == t.(state := Killed, kills := t.kills + [Waiting]);
    acts := KillRunsToAnnouncing(s, u, i);
    OneMore(s, u, acts, KillCompletes(i));
    var ids, v := OpenIds(t.desk.open), From(s, u, acts);
    assert CancelEvents(ids)[..|ids|] == CancelEvents(ids);
    assert v.kills[i := Finished] == t.kills + [Finished];
    acts := acts + [KillCompletes(i)];
  }

  /** An exception inside the loop, in any operation but a sweep, is reported: the bot is ERRORED, and left to run it
      publishes bot_error and leaves, its orders as they were. */
  lemma FailuresAreReported(s: Setup, t: Task, took: bool, now: int)
    requires !t.cancelled && (InLoop(t.pc) || t.pc.AnnouncingTrip?)
    ensures var u := Next(s, t, Fails(took));
            var v := Next(s, u, Completes(now));
            && u.state.Errored? && u.pc.AnnouncingError? && u.desk.open == t.desk.open
            && v.state.Errored? && v.desk.log == u.desk.log + [BotError] && v.desk.open == t.desk.open
            && v.pc == if s.companion then TearingDown(Crashed) else Done(Crashed)
  {
    InterruptionKeepsControl(s, t, took);
    InterruptedKeeps(s, t, took);
    EffectKeepsControl(s, Next(s, t, Fails(took)));
  }

  /** So is a strategy that raises, on the bar it was asked about, the first one after an idle stretch included. */
  lemma StrategyFailuresAreReported(s: Setup, t: Task, bar: Bar, now: int, later: int)
    requires !t.cancelled && t.pc.AwaitingBar? && (s.session.None? || s.session.value(now))
    requires t.state.Running? || t.state.Idle?
    ensures var u := Next(s, t, BarArrives(bar, now, None, later));
            var v := if t.state.Idle? then Next(s, u, Completes(later)) else u;
            && v.state.Errored? && v.pc.AnnouncingError? && v.mark == Some((bar.close, bar.tsMs))
            && v.desk.open == t.desk.open && v.begun == t.begun && v.credited == t.credited
  {}

  /** A stream that ends while the bot waits for a bar ends the bot: STOPPED, and bot_stopped published, once its
      companion, if it has one, has been torn down. */
  lemma EndedStreamsStop(s: Setup, t: Task, took: bool, now: int)
    requires !t.cancelled && t.pc.AwaitingBar?
    ensures var u := Next(s, t, StreamEnds);
            var v := if s.companion then Next(s, u, Completes(now)) else u;
            var w := Next(s, v, Completes(now));
            && (s.companion ==> u.pc == TearingDown(Ended) && u.state == t.state && Next(s, u, Fails(took)).pc == v.pc)
            && v.state.Stopped? && v.pc.AnnouncingStop? && v.desk.log == t.desk.log
            && w.state.Stopped? && w.pc == Done(Ended) && w.desk.log == t.desk.log + [BotStopped]
            && w.desk.open == t.desk.open && w.desk.book == t.desk.book
  {}

  /** Every other end waits for the companion too, publishes nothing more and leaves the state as it is; a sweep that
      fails is one of them, and leaves a tripped bot PAUSED. */
  lemma OtherEndsAreSilent(s: Setup, t: Task, now: int)
    requires !t.cancelled && t.pc.Unwinding?
    ensures var u := Next(s, t, Fails(false));
            var v := if s.companion then Next(s, u, Completes(now)) else u;
            && (s.companion ==> u.pc == TearingDown(SweepFailed))
            && v.pc == Done(SweepFailed) && v.state == t.state && v.desk.log == t.desk.log
            && v.desk.book == t.desk.book && v.desk.rows == t.desk.rows
  {}

  /** A kill whose sweep fails swallows the failure and announces itself all the same. */
  lemma FailedSweepsStillKill(s: Setup, t: Task, i: nat, took: bool)
    requires i < |t.kills| && t.kills[i].Clearing?
    ensures var u := Next(s, t, KillFails(i, took));
            var v := Next(s, u, KillCompletes(i));
            && u.state == v.state == t.state && u.pc == v.pc == t.pc
            && v.kills == t.kills[i := Finished] && v.desk.log == u.desk.log + [BotKilled]
            && v.desk.book == u.desk.book && v.desk.open == u.desk.open == t.desk.open
  {
    var u := Next(s, t, KillFails(i, took));
    assert u.kills[i := Finished] == t.kills[i := Finished];
  }

  /** A run whose stream ended, past its teardown. */
  predicate EndsStopped(t: Task) {
    t.state.Stopped? && !t.cancelled && (t.pc.AnnouncingStop? || t.pc.Done?)
  }

  lemma EndsStoppedStays(s: Setup, t: Task, a: Act)
    requires EndsStopped(t) && !a.StopCalled? && !a.KillCalled?
    ensures EndsStopped(Next(s, t, a))
  {
    match a
    case Completes(now) => EffectKeepsControl(s, t);
    case Fails(took) => InterruptionKeepsControl(s, t, took);
    case _ =>
  }

  /** A kill that lands while a run that ended tears its companion down is swallowed there: the bot is STOPPED,
      and stays so under every continuation without another stop or kill. */
  lemma {:induction false} KillSwallowedByTeardown(s: Setup, t: Task, took: bool, acts: seq<Act>)
    requires t.pc == TearingDown(Ended)
    requires forall k :: 0 <= k < |acts| ==> !acts[k].StopCalled? && !acts[k].KillCalled?
    ensures EndsStopped(From(s, From(s, t, [KillCalled, Delivered(took)]), acts))
  {
    TwoSteps(s, t, KillCalled, Delivered(took));
    var u := From(s, t, [KillCalled, Delivered(took)]);
    if acts != [] {
      KillSwallowedByTeardown(s, t, took, acts[..|acts| - 1]);
      EndsStoppedStays(s, From(s, u, acts[..|acts| - 1]), acts[|acts| - 1]);
    }
  }

  /** The clock the breaker reads in a step. */
  function Clock(a: Act): int {
    if a.BarArrives? then a.later else if a.Completes? then a.now else 0
  }

  /** The loss has reached the cap, on a mark that can be trusted at this moment. */
  ghost predicate Breached(s: Setup, u: Task, now: int) {
    && s.cap.Some? && u.mark.Some?
    && Ledger.Mtm(Ledger.CreditAll(Ledger.FLAT, u.credited), u.mark.value.0) <= -s.cap.value
    && (s.session.Some? ==> s.session.value(now))
    && (s.session.Some? && s.maxMarkAgeMs.Some? ==> now - u.mark.value.1 <= s.maxMarkAgeMs.value)
  }

  /** A step that trips the breaker: the ledger's profit at the last mark has fallen to the cap, and under a
      session the market is open at that moment and the mark no older than allowed. */
  lemma TripNeedsATrustedLoss(s: Setup, t: Task, a: Act)
    requires !t.pc.AnnouncingTrip? && Next(s, t, a).pc.AnnouncingTrip?
    ensures a.BarArrives? || a.Completes?
    ensures var u := Next(s, t, a);
            u.state.Paused? && Breached(s, u, Clock(a))
  {
    match a
    case Fails(took) =>
      InterruptionKeepsControl(s, t, took);
      NoExitTrips(s, Interrupted(s, t, took));
    case Delivered(took) =>
      InterruptionKeepsControl(s, t, took);
      NoExitTrips(s, Interrupted(s, t, took));
    case Completes(now) => CompletionTrips(s, t, now);
    case BarArrives(bar, now, out, later) =>
      if !t.cancelled && t.pc.AwaitingBar? { BarTrips(s, t, bar, now, out, later); }
    case _ =>
  }

  lemma CompletionTrips(s: Setup, t: Task, now: int)
    requires !t.pc.AnnouncingTrip? && Resume(s, Effect(s, t), now).pc.AnnouncingTrip?
    ensures var u := Resume(s, Effect(s, t), now); u.state.Paused? && Breached(s, u, now)
  {
    EffectKeepsControl(s, t);
    ResumeTrips(s, Effect(s, t), now);
  }

  lemma ResumeTrips(s: Setup, t: Task, now: int)
    requires !t.pc.AnnouncingTrip? && Resume(s, t, now).pc.AnnouncingTrip?
    ensures var u := Resume(s, t, now); u.state.Paused? && Breached(s, u, now)
  {}

  lemma BarTrips(s: Setup, t: Task, bar: Bar, now: int, out: Option<seq<Intent>>, later: int)
    requires t.pc.AwaitingBar? && OnBar(s, t, bar, now, out, later).pc.AnnouncingTrip?
    ensures var u := OnBar(s, t, bar, now, out, later); u.state.Paused? && Breached(s, u, later)
  {}

  /** A bar taken in open hours, or a completion that can end one. */
  predicate MayEndABar(s: Setup, t: Task, a: Act) {
    && !t.cancelled
    && if a.BarArrives? then t.pc.AwaitingBar? && (s.session.None? || s.session.value(a.now))
       else a.Completes? && MaySubmit(t.pc)
  }

  /** And a loss that reaches the cap always trips: a bar done with either trips or leaves the task waiting for the
      next one, and it trips exactly on such a loss. */
  lemma TripsOnEveryTrustedLoss(s: Setup, t: Task, a: Act)
    requires MayEndABar(s, t, a) && (Next(s, t, a).pc.AwaitingBar? || Next(s, t, a).pc.AnnouncingTrip?)
    ensures Next(s, t, a).pc.AnnouncingTrip? <==> Breached(s, Next(s, t, a), Clock(a))
  {
    if a.Completes? {
      EffectKeepsControl(s, t);
      CompletionEndsIff(s, Effect(s, t), a.now);
    } else {
      BarEndsIff(s, t, a.bar, a.now, a.out, a.later);
    }
  }

  lemma CompletionEndsIff(s: Setup, t: Task, now: int)
    requires MaySubmit(t.pc) && (Resume(s, t, now).pc.AwaitingBar? || Resume(s, t, now).pc.AnnouncingTrip?)
    ensures Resume(s, t, now).pc.AnnouncingTrip? <==> Breached(s, Resume(s, t, now), now)
  {
    match t.pc
    case AnnouncingResume(bar, out) =>
      if out.Some? { SubmitEndsIff(s, t.(mark := Some((bar.close, bar.tsMs))), out.value, now); }
    case AnnouncingOrder(p, rest) =>
      if p.fills == [] { SubmitEndsIff(s, t.(credited := t.credited + p.fills), rest, now); }
    case AnnouncingFill(p, j, rest) =>
      if j + 1 >= |p.fills| { SubmitEndsIff(s, t.(credited := t.credited + p.fills), rest, now); }
    case _ =>
  }

  lemma SubmitEndsIff(s: Setup, t: Task, intents: seq<Intent>, now: int)
    requires var u := Submit(s, t, intents, now); u.pc.AwaitingBar? || u.pc.AnnouncingTrip?
    ensures var u := Submit(s, t, intents, now); u.pc.AnnouncingTrip? <==> Breached(s, u, now)
  {}

  lemma BarEndsIff(s: Setup, t: Task, bar: Bar, now: int, out: Option<seq<Intent>>, later: int)
    requires t.pc.AwaitingBar? && (s.session.None? || s.session.value(now))
    requires var u := OnBar(s, t, bar, now, out, later); u.pc.AwaitingBar? || u.pc.AnnouncingTrip?
    ensures var u := OnBar(s, t, bar, now, out, later); u.pc.AnnouncingTrip? <==> Breached(s, u, later)
  {}

  lemma NoExitTrips(s: Setup, t: Task)
    requires !t.pc.AnnouncingTrip?
    ensures !Raise(s, t).pc.AnnouncingTrip? && !Cancelling(s, t).pc.AnnouncingTrip?
  {}

  /** A bar that arrives while the market is closed begins nothing, marks nothing for the breaker, and
      leaves the bot idle, whatever the strategy would have answered. */
  lemma ClosedBarsTradeNothing(s: Setup, acts: seq<Act>, bar: Bar, now: int, out: Option<seq<Intent>>, later: int)
    requires var t := Exec(s, acts); !t.cancelled && t.pc.AwaitingBar?
    requires s.session.Some? && !s.session.value(now)
    ensures var t, u := Exec(s, acts), Next(s, Exec(s, acts), BarArrives(bar, now, out, later));
            && u.begun == t.begun && u.placements == t.placements && u.mark == t.mark && u.state.Idle?
            && (u.pc.AwaitingBar? <==> t.state.Idle?) && (u.pc.AnnouncingIdle? <==> t.state.Running?)
  {
    EveryTaskIsShaped(s, acts);
  }

  /** What a busy state can mean: the task can trade, or its stream has ended and its companion is being
      torn down, or it let out the failure to announce its start. */
  ghost predicate StateTells(t: Task) {
    && (t.cancelled ==> t.state.Stopping? || t.state.Killed?)
    && (Busy(t.state) && !CanTrade(t) ==> t.pc == TearingDown(Ended) || t.pc == Done(Escaped))
  }

  lemma ResumeTells(s: Setup, t: Task, now: int)
    requires StateTells(t) && !t.cancelled
    ensures StateTells(Resume(s, t, now))
  {}

  lemma ExitTells(s: Setup, t: Task)
    requires StateTells(t)
    ensures !t.cancelled ==> StateTells(Raise(s, t))
    ensures t.cancelled ==> StateTells(Cancelling(s, t).(cancelled := false))
  {}

  lemma BarTells(s: Setup, t: Task, bar: Bar, now: int, out: Option<seq<Intent>>, later: int)
    requires StateTells(t) && !t.cancelled && t.pc.AwaitingBar?
    ensures StateTells(OnBar(s, t, bar, now, out, later))
  {}

  lemma StepTells(s: Setup, t: Task, a: Act)
    requires StateTells(t)
    ensures StateTells(Next(s, t, a))
  {
    match a
    case Completes(now) =>
      if !t.cancelled {
        EffectKeepsControl(s, t);
        ResumeTells(s, Effect(s, t), now);
      }
    case Fails(took) =>
      InterruptionKeepsControl(s, t, took);
      ExitTells(s, Interrupted(s, t, took));
    case Delivered(took) =>
      InterruptionKeepsControl(s, t, took);
      ExitTells(s, Interrupted(s, t, took));
    case BarArrives(bar, now, out, later) =>
      if !t.cancelled && t.pc.AwaitingBar? { BarTells(s, t, bar, now, out, later); }
    case _ =>
  }

  /** A run whose start could not be announced is dead and says RUNNING, until somebody stops or kills it. */
  lemma {:induction false} FailedStartStaysRunning(s: Setup, t: Task, took: bool, acts: seq<Act>)
    requires t.pc.AnnouncingStart? && !t.cancelled && t.state.Running?
    requires forall k :: 0 <= k < |acts| ==> !acts[k].StopCalled? && !acts[k].KillCalled?
    ensures var u := From(s, Next(s, t, Fails(took)), acts);
            u.pc == Done(Escaped) && u.state.Running? && !u.cancelled
  {
    InterruptionKeepsControl(s, t, took);
    if acts != [] {
      var u := From(s, Next(s, t, Fails(took)), acts[..|acts| - 1]);
      FailedStartStaysRunning(s, t, took, acts[..|acts| - 1]);
      EffectKeepsControl(s, u);
      DeadStaysDead(s, u, acts[|acts| - 1]);
    }
  }

  lemma DeadStaysDead(s: Setup, t: Task, a: Act)
    requires t.pc.Done? && !t.cancelled && !a.StopCalled? && !a.KillCalled?
    ensures Next(s, t, a).pc == t.pc && Next(s, t, a).state == t.state && !Next(s, t, a).cancelled
  {
    match a
    case Fails(took) => InterruptionKeepsControl(s, t, took);
    case Completes(now) => EffectKeepsControl(s, t);
    case _ =>
  }

  // ------------------------------------------------------- what steps leave alone

  lemma ResumeKeepsDesk(s: Setup, t: Task, now: int)
    ensures Resume(s, t, now).desk == t.desk.(open := Resume(s, t, now).desk.open)
    ensures !t.pc.Persisting? && !t.pc.AnnouncingTrip? ==> Resume(s, t, now).desk == t.desk
  {}

  ghost predicate SameHistory(t: Task, u: Task) {
    && u.placements == t.placements && u.missed == t.missed && u.kills == t.kills && u.cut == t.cut
    && u.cancelled == t.cancelled
  }

  lemma QuietResumeKeepsHistory(s: Setup, t: Task, now: int)
    requires !MaySubmit(t.pc)
    ensures SameHistory(t, Resume(s, t, now)) && Resume(s, t, now).credited == t.credited
  {}

  lemma BusyResumeKeepsHistory(s: Setup, t: Task, now: int)
    requires MaySubmit(t.pc)
    ensures SameHistory(t, Resume(s, t, now)) && (t.pc.AnnouncingResume? ==> Resume(s, t, now).credited == t.credited)
  {}

  lemma ResumeKeepsHistory(s: Setup, t: Task, now: int)
    ensures SameHistory(t, Resume(s, t, now))
    ensures !t.pc.AnnouncingOrder? && !t.pc.AnnouncingFill? ==> Resume(s, t, now).credited == t.credited
  {
    if MaySubmit(t.pc) {
      BusyResumeKeepsHistory(s, t, now);
    } else {
      QuietResumeKeepsHistory(s, t, now);
    }
  }

  /** Running on changes no book, row, event or placement; only registration and the trip touch the open set. */
  lemma ResumeKeeps(s: Setup, t: Task, now: int)
    ensures var u := Resume(s, t, now);
            && u.desk == t.desk.(open := u.desk.open) && u.placements == t.placements && u.missed == t.missed
            && u.kills == t.kills && u.cut == t.cut && u.cancelled == t.cancelled
            && (!t.pc.Persisting? && !t.pc.AnnouncingTrip? ==> u.desk.open == t.desk.open)
            && (!t.pc.AnnouncingOrder? && !t.pc.AnnouncingFill? ==> u.credited == t.credited)
  {
    ResumeKeepsDesk(s, t, now);
    ResumeKeepsHistory(s, t, now);
  }

  lemma ExitsKeep(s: Setup, t: Task)
    ensures var u := Raise(s, t);
            u.desk == t.desk && u.placements == t.placements && u.missed == t.missed && u.kills == t.kills
            && u.cut == t.cut && u.credited == t.credited
    ensures var u := Cancelling(s, t).(cancelled := false);
            u.desk == t.desk && u.placements == t.placements && u.missed == t.missed && u.kills == t.kills
            && u.cut == t.cut && u.credited == t.credited
  {}

  lemma InterruptedKeeps(s: Setup, t: Task, took: bool)
    ensures var u, e := Interrupted(s, t, took), if took then Effect(s, t) else t;
            && u.desk.book == e.desk.book && u.desk.rows == e.desk.rows && u.desk.log == e.desk.log
            && u.desk.open == e.desk.open
            && u.placements == e.placements && u.missed == t.missed && u.pc == t.pc && u.credited == t.credited
            && u.state == t.state && u.cancelled == t.cancelled && u.kills == t.kills
  {
    EffectKeepsControl(s, t);
  }

  /** Before any sweep, from the handle's creation to the trip. */
  predicate Early(pc: Pc) {
    pc.NotStarted? || pc.AnnouncingStart? || InLoop(pc) || pc.AnnouncingTrip?
  }

  /** Where an interruption leads: out, by an exit that is not a sweep gone through. */
  predicate OnTheWayOut(pc: Pc) {
    pc.AnnouncingError? || pc.AnnouncingStop? || ((pc.TearingDown? || pc.Done?) && !pc.exit.Unwound?)
  }

  lemma ExitsLead(s: Setup, t: Task)
    ensures var u := Raise(s, t); u.pc == t.pc || OnTheWayOut(u.pc) || (t.pc.TearingDown? && u.pc == Done(t.pc.exit))
    ensures var u := Cancelling(s, t);
            u.pc == t.pc || OnTheWayOut(u.pc) || (t.pc.TearingDown? && u.pc == Done(t.pc.exit))
    ensures Raise(s, t).pc == t.pc ==> t.pc.NotStarted? || t.pc.Done? || t.pc.AnnouncingError?
    ensures Cancelling(s, t).pc == t.pc ==> t.pc.Done?
  {}

  lemma ResumeLeads(s: Setup, t: Task, now: int)
    requires !t.pc.Placing? && !t.pc.Persisting? && !t.pc.AnnouncingTrip? && !t.pc.Unwinding?
    ensures var pc := Resume(s, t, now).pc;
            || (Early(t.pc) && ((Early(pc) && !pc.Persisting?) || pc.AnnouncingError?))
            || (!Early(t.pc) && (pc == t.pc || OnTheWayOut(pc) || (t.pc.TearingDown? && pc == Done(t.pc.exit))))
  {}

  /** A bar marks the venue and moves the counter; nothing is published, committed, registered or credited. */
  ghost predicate AfterBar(t: Task, u: Task) {
    && u.desk == t.desk.(book := u.desk.book)
    && u.placements == t.placements && u.credited == t.credited && u.kills == t.kills && u.cut == t.cut
    && u.cancelled == t.cancelled
    && ((Early(u.pc) && !u.pc.Persisting? && !u.pc.AnnouncingOrder? && !u.pc.AnnouncingFill?) || OnTheWayOut(u.pc))
  }

  lemma BarKeeps(s: Setup, t: Task, bar: Bar, now: int, out: Option<seq<Intent>>, later: int)
    requires t.pc.AwaitingBar?
    ensures var u, marked := OnBar(s, t, bar, now, out, later),
            Paper.UpdateMark(s.cfg, t.desk.book, bar.symbol, bar.close);
            AfterBar(t, u) && u.desk.book == marked.0 && u.missed == t.missed + marked.1
  {}

  /** The events and rows as a step of the sweep leaves them. */
  function SweptRecords(d: Desk, sw: Sweep): set<(seq<Event>, seq<Row>)> {
    {(SweepEffect(d, sw).log, SweepEffect(d, sw).rows)}
  }

  /** A kill's step leaves the run itself alone, and does one thing at the desk. */
  ghost predicate AfterKill(t: Task, u: Task, k: KillPc) {
    && u.pc == t.pc && u.placements == t.placements && u.credited == t.credited && u.missed == t.missed
    && u.cut == t.cut
    && (u.desk.log, u.desk.rows) in {(t.desk.log, t.desk.rows), (t.desk.log + [BotKilled], t.desk.rows)}
                                    + if k.Clearing? then SweptRecords(t.desk, k.sweep) else {}
  }

  lemma KillKeeps(t: Task, i: nat, took: bool)
    requires i < |t.kills|
    ensures AfterKill(t, KillResume(t, i), t.kills[i]) && AfterKill(t, KillInterrupted(t, i, took), t.kills[i])
  {}

  /** The trip announced, the open set moves into the sweep. */
  lemma TripStep(s: Setup, t: Task, now: int)
    requires t.pc.AnnouncingTrip?
    ensures var d := Emit(t.desk, CircuitTripped);
            Resume(s, Effect(s, t), now)
            == if d.open == [] then Leave(s, t.(desk := d), Unwound)
               else t.(desk := d.(open := []), pc := Unwinding(Sweeping(OpenIds(d.open), [])))
  {}
}
