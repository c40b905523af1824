/** The supervisor: many bots, each with at most one handle at a time, and every interleaving of
    start, stop, kill and the steps of all tasks ever started. */
module Supervisor {
  import opened Basics
  import opened BotTask

  datatype Run = Run(bot: string, user: string, setup: Setup, task: Task)

  /** Every run ever started, and for each bot the index of its current handle. */
  datatype System = System(runs: seq<Run>, handles: map<string, nat>)

  const EMPTY := System([], map[])

  datatype Move =
    | Start(bot: string, user: string, setup: Setup)
    | Stop(bot: string)
    | Kill(bot: string)
    | Step(i: nat, act: Act)

  predicate Known(sys: System, bot: string) {
    bot in sys.handles && sys.handles[bot] < |sys.runs|
  }

  function Current(sys: System, bot: string): Task
    requires Known(sys, bot)
  {
    sys.runs[sys.handles[bot]].task
  }

  /** Start is refused while the bot's current handle says it is busy. */
  predicate Refuses(sys: System, bot: string) {
    Known(sys, bot) && Busy(Current(sys, bot).state)
  }

  function Advance(sys: System, i: nat, a: Act): System
    requires i < |sys.runs|
  {
    var r := sys.runs[i];
    sys.(runs := sys.runs[i := r.(task := Next(r.setup, r.task, a))])
  }

  function Apply(sys: System, m: Move): System {
    match m
    case Start(bot, user, setup) =>
      if Refuses(sys, bot) then sys
      else System(sys.runs + [Run(bot, user, setup, NEW_TASK)], sys.handles[bot := |sys.runs|])
    case Stop(bot) => if Known(sys, bot) then Advance(sys, sys.handles[bot], StopCalled) else sys
    case Kill(bot) => if Known(sys, bot) then Advance(sys, sys.handles[bot], KillCalled) else sys
    case Step(i, act) => if i < |sys.runs| && !act.StopCalled? && !act.KillCalled? then Advance(sys, i, act) else sys
  }

  function After(sys: System, moves: seq<Move>): System {
    if moves == [] then sys else Apply(After(sys, moves[..|moves| - 1]), moves[|moves| - 1])
  }

  /** The bots a kill of everything (or of one user's) calls kill on. */
  function Targets(sys: System, user: Option<string>): set<string> {
    set b | b in sys.handles && Known(sys, b)
            && !Current(sys, b).state.Stopped? && !Current(sys, b).state.Errored? && !Current(sys, b).state.Killed?
            && (user.None? || sys.runs[sys.handles[b]].user == user.value)
  }

  class Supervisor {
    var runs: seq<Run>
    var handles: map<string, nat>

    constructor ()
      ensures State() == EMPTY
    {
      runs, handles := [], map[];
    }

    ghost function State(): System
      reads this
    {
      System(runs, handles)
    }

    ghost predicate Valid()
      reads this
    {
      Safe(State())
    }

    /** Refuse a busy bot; otherwise a new handle and a new task. */
    method StartBot(bot: string, user: string, setup: Setup) returns (started: bool)
      requires Valid()
      modifies this
      ensures Valid() && State() == Apply(old(State()), Start(bot, user, setup))
      ensures started == !old(Refuses(State(), bot))
    {
      ghost var before := State();
      if bot in handles {
        var state := runs[handles[bot]].task.state;
        if state.Starting? || state.Running? || state.Idle? {
          return false;
        }
      }
      handles := handles[bot := |runs|];
      runs := runs + [Run(bot, user, setup, NEW_TASK)];
      StartIsSafe(before, bot, user, setup);
      started := true;
    }

    /** Set the handle's state and cancel its task; what follows happens to the task. */
    method StopBot(bot: string)
      requires Valid()
      modifies this
      ensures Valid() && State() == Apply(old(State()), Stop(bot))
    {
      ghost var before := State();
      ApplyIsSafe(before, Stop(bot));
      if bot !in handles {
        return;
      }
      var r := runs[handles[bot]];
      var t := r.task.(state := Stopping, cancelled := r.task.cancelled || !r.task.pc.Done?);
      runs := runs[handles[bot] := r.(task := t)];
    }

    /** The same, with a kill left waiting for the task to be done. False for an unknown bot. */
    method KillBot(bot: string) returns (known: bool)
      requires Valid()
      modifies this
      ensures Valid() && State() == Apply(old(State()), Kill(bot))
      ensures known == (bot in old(handles))
    {
      ghost var before := State();
      ApplyIsSafe(before, Kill(bot));
      if bot !in handles {
        return false;
      }
      var r := runs[handles[bot]];
      var t := r.task.(state := Killed, cancelled := r.task.cancelled || !r.task.pc.Done?,
                       kills := r.task.kills + [Waiting]);
      runs := runs[handles[bot] := r.(task := t)];
      known := true;
    }

    /** Kill every target in turn. */
    method KillAll(user: Option<string>) returns (killed: seq<string>)
      requires Valid()
      modifies this
      ensures Valid() && State() == After(old(State()), Kills(killed))
      ensures forall b :: b in killed <==> b in Targets(old(State()), user)
      ensures handles == old(handles) && |runs| == |old(runs)|
      ensures forall i :: 0 <= i < |runs| ==> runs[i] == AfterKillAll(old(State()), user, i)
    {
      ghost var before := State();
      var targets := set b | b in handles && !runs[handles[b]].task.state.Stopped?
                             && !runs[handles[b]].task.state.Errored? && !runs[handles[b]].task.state.Killed?
                             && (user.None? || runs[handles[b]].user == user.value);
      assert targets == Targets(State(), user);
      killed := KillEach(targets);
      KillAllExactly(before, user, killed);
    }

    /** Kill these bots one by one, in whatever order. */
    method KillEach(targets: set<string>) returns (killed: seq<string>)
      requires Valid()
      modifies this
      ensures Valid() && State() == After(old(State()), Kills(killed))
      ensures Distinct(killed) && forall b :: b in killed <==> b in targets
    {
      ghost var before := State();
      var todo := targets;
      killed := [];
      while todo != {}
        invariant Valid() && State() == After(before, Kills(killed))
        invariant todo <= targets && Distinct(killed) && forall b :: b in killed <==> b in targets - todo
        decreases |todo|
      {
        var bot :| bot in todo;
        assert bot !in killed;
        KillsOneMore(before, killed, bot);
        var _ := KillBot(bot);
        todo, killed := todo - {bot}, killed + [bot];
      }
    }
  }

  function Kills(bots: seq<string>): seq<Move> {
    seq(|bots|, k requires 0 <= k < |bots| => Kill(bots[k]))
  }

  ghost predicate Distinct(bots: seq<string>) {
    forall i, j :: 0 <= i < j < |bots| ==> bots[i] != bots[j]
  }

  lemma {:induction false} KillsOneMore(sys: System, killed: seq<string>, bot: string)
    ensures After(sys, Kills(killed + [bot])) == Apply(After(sys, Kills(killed)), Kill(bot))
  {
    assert Kills(killed + [bot])[..|killed|] == Kills(killed);
  }

  /** What a stop or a kill does to the bot's current run, and to nothing else: the state it asked for, a cancellation
      unless the run is over, and for a kill one more kill to wait for it. Neither places, cancels or says anything. */
  lemma CallsTouchOneRun(sys: System, bot: string, i: nat)
    requires i < |sys.runs| && (bot in sys.handles ==> sys.handles[bot] < |sys.runs|)
    ensures var stopped, killed, r := Apply(sys, Stop(bot)), Apply(sys, Kill(bot)), sys.runs[i];
            && stopped.handles == killed.handles == sys.handles && |stopped.runs| == |killed.runs| == |sys.runs|
            && (bot in sys.handles && sys.handles[bot] == i ==>
                  var over := r.task.pc.Done?;
                  && stopped.runs[i] == r.(task := r.task.(state := Stopping, cancelled := r.task.cancelled || !over))
                  && killed.runs[i] == r.(task := r.task.(state := Killed, cancelled := r.task.cancelled || !over,
                                                          kills := r.task.kills + [Waiting])))
            && (!(bot in sys.handles && sys.handles[bot] == i) ==> stopped.runs[i] == killed.runs[i] == r)
  {}

  /** A start that is not refused adds one new run, for that user, and makes it the bot's current one. */
  lemma StartsAreNew(sys: System, bot: string, user: string, setup: Setup)
    ensures var next := Apply(sys, Start(bot, user, setup));
            if Known(sys, bot) && Current(sys, bot).state in {Starting, Running, Idle} then next == sys
            else
              && |next.runs| == |sys.runs| + 1 && next.runs[..|sys.runs|] == sys.runs
              && next.runs[|sys.runs|] == Run(bot, user, setup, NEW_TASK)
              && next.handles.Keys == sys.handles.Keys + {bot} && next.handles[bot] == |sys.runs|
              && forall b :: b in sys.handles && b != bot ==> next.handles[b] == sys.handles[b]
  {}

  // -------------------------------------------------------------- at most one trader

  /** Every task is well shaped, every handle is its bot's own, and whoever can trade is current. */
  ghost predicate Safe(sys: System) {
    && (forall b :: b in sys.handles ==> sys.handles[b] < |sys.runs| && sys.runs[sys.handles[b]].bot == b)
    && (forall i :: 0 <= i < |sys.runs| ==> Shape(sys.runs[i].task))
    && (forall i :: 0 <= i < |sys.runs| && CanTrade(sys.runs[i].task) ==>
          sys.runs[i].bot in sys.handles && sys.handles[sys.runs[i].bot] == i)
  }

  lemma StartIsSafe(sys: System, bot: string, user: string, setup: Setup)
    requires Safe(sys)
    ensures Safe(Apply(sys, Start(bot, user, setup)))
  {
    var next := Apply(sys, Start(bot, user, setup));
    if !Refuses(sys, bot) {
      forall i | 0 <= i < |next.runs| && CanTrade(next.runs[i].task)
        ensures next.runs[i].bot in next.handles && next.handles[next.runs[i].bot] == i
      {
        if i < |sys.runs| {
          assert next.runs[i] == sys.runs[i];
        }
      }
    }
  }

  lemma MoveIsSafe(sys: System, i: nat, a: Act)
    requires Safe(sys) && i < |sys.runs|
    ensures Safe(Advance(sys, i, a))
  {
    var next := Advance(sys, i, a);
    StepSettles(sys.runs[i].setup, sys.runs[i].task, a);
    forall j | 0 <= j < |next.runs|
      ensures next.runs[j].bot == sys.runs[j].bot && Shape(next.runs[j].task)
      ensures CanTrade(next.runs[j].task) ==> CanTrade(sys.runs[j].task)
    {
      if j != i {
        assert next.runs[j] == sys.runs[j];
      }
    }
  }

  lemma ApplyIsSafe(sys: System, m: Move)
    requires Safe(sys)
    ensures Safe(Apply(sys, m))
  {
    match m
    case Start(bot, user, setup) => StartIsSafe(sys, bot, user, setup);
    case Stop(bot) => if Known(sys, bot) { MoveIsSafe(sys, sys.handles[bot], StopCalled); }
    case Kill(bot) => if Known(sys, bot) { MoveIsSafe(sys, sys.handles[bot], KillCalled); }
    case Step(i, act) => if i < |sys.runs| { MoveIsSafe(sys, i, act); }
  }

  lemma {:induction false} EverySystemIsSafe(sys: System, moves: seq<Move>)
    requires Safe(sys)
    ensures Safe(After(sys, moves))
  {
    if moves != [] {
      EverySystemIsSafe(sys, moves[..|moves| - 1]);
      ApplyIsSafe(After(sys, moves[..|moves| - 1]), moves[|moves| - 1]);
    }
  }

  /** In every reachable state at most one task per bot can still submit: it is the bot's current
      handle, and that handle's state is STARTING, RUNNING or IDLE. */
  lemma {:induction false} AtMostOneTrader(moves: seq<Move>, i: nat, j: nat)
    requires var sys := After(EMPTY, moves);
             && i < |sys.runs| && j < |sys.runs| && sys.runs[i].bot == sys.runs[j].bot
             && CanTrade(sys.runs[i].task) && CanTrade(sys.runs[j].task)
    ensures i == j
    ensures var sys := After(EMPTY, moves);
            var bot := sys.runs[i].bot;
            bot in sys.handles && sys.handles[bot] == i && Busy(sys.runs[i].task.state)
  {
    EverySystemIsSafe(EMPTY, moves);
  }

  // ---------------------------------------------------------- once stopped, for good

  lemma ApplyKeepsIdle(sys: System, m: Move, i: nat)
    requires Safe(sys) && i < |sys.runs| && !CanTrade(sys.runs[i].task)
    ensures var next := Apply(sys, m);
            && i < |next.runs| && !CanTrade(next.runs[i].task)
            && next.runs[i].task.begun == sys.runs[i].task.begun && next.runs[i].user == sys.runs[i].user
  {
    var r := sys.runs[i];
    match m
    case Start(bot, user, setup) =>
    case Stop(bot) => StepSettles(r.setup, r.task, StopCalled);
    case Kill(bot) => StepSettles(r.setup, r.task, KillCalled);
    case Step(j, act) => StepSettles(r.setup, r.task, act);
  }

  /** A run that cannot trade begins no submission whatever else the system does, restarts of its own
      bot included. */
  lemma {:induction false} IdleRunsStayIdle(sys: System, moves: seq<Move>, i: nat)
    requires Safe(sys) && i < |sys.runs| && !CanTrade(sys.runs[i].task)
    ensures var next := After(sys, moves);
            && i < |next.runs| && !CanTrade(next.runs[i].task)
            && next.runs[i].task.begun == sys.runs[i].task.begun && next.runs[i].user == sys.runs[i].user
  {
    if moves != [] {
      IdleRunsStayIdle(sys, moves[..|moves| - 1], i);
      EverySystemIsSafe(sys, moves[..|moves| - 1]);
      ApplyKeepsIdle(After(sys, moves[..|moves| - 1]), moves[|moves| - 1], i);
    }
  }

  // ------------------------------------------------------------ when start is refused

  ghost predicate Tells(sys: System) {
    forall i :: 0 <= i < |sys.runs| ==> StateTells(sys.runs[i].task)
  }

  lemma ApplyTells(sys: System, m: Move)
    requires Tells(sys)
    ensures Tells(Apply(sys, m))
  {
    var next := Apply(sys, m);
    forall i | 0 <= i < |next.runs| ensures StateTells(next.runs[i].task) {
      if i < |sys.runs| {
        var r := sys.runs[i];
        match m
        case Start(bot, user, setup) =>
        case Stop(bot) => StepTells(r.setup, r.task, StopCalled);
        case Kill(bot) => StepTells(r.setup, r.task, KillCalled);
        case Step(j, act) => StepTells(r.setup, r.task, act);
      }
    }
  }

  lemma {:induction false} EverySystemTells(moves: seq<Move>)
    ensures Tells(After(EMPTY, moves))
  {
    if moves != [] {
      EverySystemTells(moves[..|moves| - 1]);
      ApplyTells(After(EMPTY, moves[..|moves| - 1]), moves[|moves| - 1]);
    }
  }

  /** Start is refused to every bot that can trade; and to no other, but one whose stream has ended and whose
      companion is still being torn down, and one whose start could not be announced. */
  lemma {:induction false} StartIsRefusedToTraders(moves: seq<Move>, bot: string)
    requires Known(After(EMPTY, moves), bot)
    ensures var sys := After(EMPTY, moves);
            var t := Current(sys, bot);
            && (CanTrade(t) ==> Refuses(sys, bot))
            && (Refuses(sys, bot) ==> CanTrade(t) || t.pc == TearingDown(Ended) || t.pc == Done(Escaped))
  {
    EverySystemIsSafe(EMPTY, moves);
    EverySystemTells(moves);
  }

  // ------------------------------------------------------------------- killing all

  /** The run is its bot's current one, of that user if one is named, and has neither ended by itself nor been
      killed. */
  predicate Struck(sys: System, user: Option<string>, i: nat)
    requires i < |sys.runs|
  {
    var r := sys.runs[i];
    && r.bot in sys.handles && sys.handles[r.bot] == i && (user.Some? ==> user.value == r.user)
    && r.task.state in {Starting, Running, Stopping, Paused, Idle}
  }

  /** What a kill of everything, or of one user's, leaves of a run: the others' runs and those that are over, as they
      were; every struck one killed once. */
  function AfterKillAll(sys: System, user: Option<string>, i: nat): Run
    requires i < |sys.runs|
  {
    var r := sys.runs[i];
    if Struck(sys, user, i) then r.(task := Next(r.setup, r.task, KillCalled)) else r
  }

  /** One kill, at one run: the current run of that bot is struck, any other is left as it is. */
  lemma KillStrikes(sys: System, bot: string, i: nat)
    requires i < |sys.runs| && (bot in sys.handles ==> sys.handles[bot] < |sys.runs|)
    ensures var next, r := Apply(sys, Kill(bot)), sys.runs[i];
            && next.handles == sys.handles && |next.runs| == |sys.runs|
            && next.runs[i] == if bot in sys.handles && sys.handles[bot] == i
                               then r.(task := Next(r.setup, r.task, KillCalled)) else r
  {}

  lemma {:induction false} KillsStrikeOnce(sys: System, bots: seq<string>, i: nat)
    requires Safe(sys) && Distinct(bots) && i < |sys.runs|
    ensures var next, r := After(sys, Kills(bots)), sys.runs[i];
            && next.handles == sys.handles && |next.runs| == |sys.runs|
            && next.runs[i] == if r.bot in bots && r.bot in sys.handles && sys.handles[r.bot] == i
                               then r.(task := Next(r.setup, r.task, KillCalled)) else r
  {
    if bots != [] {
      var init, last := bots[..|bots| - 1], bots[|bots| - 1];
      KillsStrikeOnce(sys, init, i);
      KillsOneMore(sys, init, last);
      KillStrikes(After(sys, Kills(init)), last, i);
      assert bots == init + [last] && last !in init;
    }
  }

  /** Kill all strikes exactly the runs it should, each once, and touches no handle and no other run. */
  lemma {:induction false} KillAllExactly(sys: System, user: Option<string>, bots: seq<string>)
    requires Safe(sys) && Distinct(bots) && forall b :: b in bots <==> b in Targets(sys, user)
    ensures var next := After(sys, Kills(bots));
            && next.handles == sys.handles && |next.runs| == |sys.runs|
            && forall i :: 0 <= i < |sys.runs| ==> next.runs[i] == AfterKillAll(sys, user, i)
  {
    var next := After(sys, Kills(bots));
    assert next.handles == sys.handles && |next.runs| == |sys.runs| by { KillsKeepTheRest(sys, bots); }
    forall i | 0 <= i < |sys.runs| ensures next.runs[i] == AfterKillAll(sys, user, i) {
      KillsStrikeOnce(sys, bots, i);
      StruckAreTargets(sys, user, i);
    }
  }

  lemma StruckAreTargets(sys: System, user: Option<string>, i: nat)
    requires Safe(sys) && i < |sys.runs|
    ensures var bot := sys.runs[i].bot;
            Struck(sys, user, i) <==> bot in Targets(sys, user) && bot in sys.handles && sys.handles[bot] == i
  {}

  lemma {:induction false} KillsKeepTheRest(sys: System, bots: seq<string>)
    ensures var next := After(sys, Kills(bots)); next.handles == sys.handles && |next.runs| == |sys.runs|
  {
    if bots != [] {
      KillsKeepTheRest(sys, bots[..|bots| - 1]);
      KillsOneMore(sys, bots[..|bots| - 1], bots[|bots| - 1]);
      assert bots == bots[..|bots| - 1] + [bots[|bots| - 1]];
    }
  }

  lemma TradersAreTargets(sys: System, user: Option<string>, i: nat)
    requires Safe(sys) && i < |sys.runs| && CanTrade(sys.runs[i].task) && (user.None? || sys.runs[i].user == user.value)
    ensures sys.runs[i].bot in Targets(sys, user)
  {}

  lemma ApplyKill(sys: System, m: Move, i: nat)
    requires Safe(sys) && i < |sys.runs| && sys.runs[i].bot in sys.handles && sys.handles[sys.runs[i].bot] == i
             && !m.Start?
    ensures var next := Apply(sys, m);
            && next.handles == sys.handles && |next.runs| == |sys.runs| && next.runs[i].bot == sys.runs[i].bot
            && (m == Kill(sys.runs[i].bot) || !CanTrade(sys.runs[i].task) ==> !CanTrade(next.runs[i].task))
  {
    if !CanTrade(sys.runs[i].task) {
      ApplyKeepsIdle(sys, m, i);
    }
  }

  lemma {:induction false} KilledCannotTrade(sys: System, moves: seq<Move>, i: nat)
    requires Safe(sys) && i < |sys.runs| && sys.runs[i].bot in sys.handles && sys.handles[sys.runs[i].bot] == i
    requires forall k :: 0 <= k < |moves| ==> !moves[k].Start?
    ensures var next := After(sys, moves);
            && next.handles == sys.handles && |next.runs| == |sys.runs| && next.runs[i].bot == sys.runs[i].bot
            && (Kill(sys.runs[i].bot) in moves ==> !CanTrade(next.runs[i].task))
  {
    if moves != [] {
      var init, last := moves[..|moves| - 1], moves[|moves| - 1];
      KilledCannotTrade(sys, init, i);
      EverySystemIsSafe(sys, init);
      ApplyKill(After(sys, init), last, i);
      assert moves == init + [last];
    }
  }

  lemma {:induction false} NoStartNoNewRuns(sys: System, moves: seq<Move>)
    requires forall k :: 0 <= k < |moves| ==> !moves[k].Start?
    ensures |After(sys, moves).runs| == |sys.runs|
    ensures forall i :: 0 <= i < |sys.runs| ==> After(sys, moves).runs[i].user == sys.runs[i].user
  {
    if moves != [] {
      NoStartNoNewRuns(sys, moves[..|moves| - 1]);
    }
  }

  /** When every target has been killed, in any order and with anything in between but a start, no bot
      of that user can trade. */
  lemma {:induction false} KillAllEndsTrading(sys: System, user: Option<string>, moves: seq<Move>)
    requires Safe(sys)
    requires forall k :: 0 <= k < |moves| ==> !moves[k].Start?
    requires forall b :: b in Targets(sys, user) ==> Kill(b) in moves
    ensures var next := After(sys, moves);
            forall i :: 0 <= i < |next.runs| && (user.None? || next.runs[i].user == user.value) ==>
              !CanTrade(next.runs[i].task)
  {
    var next := After(sys, moves);
    NoStartNoNewRuns(sys, moves);
    forall i | 0 <= i < |next.runs| && (user.None? || next.runs[i].user == user.value)
      ensures !CanTrade(next.runs[i].task)
    {
      if CanTrade(sys.runs[i].task) {
        TradersAreTargets(sys, user, i);
        KilledCannotTrade(sys, moves, i);
      } else {
        IdleRunsStayIdle(sys, moves, i);
      }
    }
  }
}
