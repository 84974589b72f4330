/** The driver's flag and wake-up protocol (src/bots.rs): kicks, at most one driving task, and the
    re-check after it stops, over every interleaving with everything else that touches the room. */
module BotDriver {
  import opened Bridge
  import opened TableLog
  import opened Rooms
  import opened Bots

  // ── States ─────────────────────────────────────────────────────────────

  /** Where a spawned task is; a step of the source between two points where others may run. */
  datatype Point =
    | Top                                // about to look at the paused and loaded flags
    | Leaving                            // saw them off; about to clear the flag and end
    | Look                               // about to take the lock and capture
    | Thinking(p: Pending)               // lock released
    | Returning(seq_: nat, a: Action)    // about to take the lock and commit
    | Clear                              // nothing to do; about to clear the flag
    | Recheck                            // flag cleared; about to look once more
    | Reswap                             // saw a turn; about to set the flag again
    | Gone

  /** In the section the flag guards. */
  predicate Driving(p: Point) { !p.Recheck? && !p.Reswap? && !p.Gone? }

  /** `blocked` is paused or not loaded; `owed` counts kicks requested and not yet performed. */
  datatype Driver = Driver(
    room: RoomView,
    now: int,
    blocked: bool,
    running: bool,
    owed: nat,
    tasks: seq<Point>)
  {
    function At(i: nat, p: Point): Driver
      requires i < |tasks|
    {
      this.(tasks := tasks[i := p])
    }

    /** At most one task drives, and the flag says exactly whether one does. */
    ghost predicate Exclusive() {
      && (forall i, j :: Drives(tasks, i) && Drives(tasks, j) ==> i == j)
      && (running <==> exists i :: Drives(tasks, i))
    }

    /** Nobody will do anything more unless something new happens. */
    ghost predicate Quiet() { owed == 0 && forall i :: !Alive(tasks, i) }

    /** A bot's turn is waiting only while a kick is on its way or a task is still running. */
    ghost predicate Attended() {
      !blocked && room.TurnPending(now) ==> owed > 0 || exists i :: Alive(tasks, i)
    }
  }

  predicate Drives(tasks: seq<Point>, i: nat) { i < |tasks| && Driving(tasks[i]) }

  predicate Alive(tasks: seq<Point>, i: nat) { i < |tasks| && !tasks[i].Gone? }

  function Start(room: RoomView, now: int, blocked: bool): Driver {
    Driver(room, now, blocked, false, 0, [])
  }

  // ── Steps ──────────────────────────────────────────────────────────────

  datatype Event =
    | KickArrives                        // a requested kick swaps the flag
    | Tick                               // the keepalive requests a kick
    | Moves(room: RoomView, now: int)    // a change that requests a kick
    | Drifts(room: RoomView, now: int)   // a change that requests none
    | Blocks
    | Unblocks                           // resume or load, which request a kick
    | Runs(i: nat, a: Action)            // task `i` takes a step; `a` is what its thinking comes up with

  ghost predicate Enabled(s: Driver, e: Event) {
    match e
    case KickArrives => s.owed > 0
    case Moves(room, _) => Legal(room.table.board, room.table.log)
    case Drifts(room, _) => Legal(room.table.board, room.table.log)
    case Runs(i, _) => Alive(s.tasks, i)
    case _ => true
  }

  function TaskStep(s: Driver, i: nat, a: Action): Driver
    requires i < |s.tasks|
  {
    match s.tasks[i]
    case Top => s.At(i, if s.blocked then Leaving else Look)
    case Leaving => s.(running := false).At(i, Gone)
    case Look =>
      (match Capture(s.room, s.now)
       case None => s.At(i, Clear)
       case Some(p) => s.At(i, Thinking(p)))
    case Thinking(p) => s.At(i, Returning(p.seq_, a))
    case Returning(n, a) =>
      var (table, verdict) := Committed(s.room.table, n, a);
      s.(room := s.room.(table := table)).At(i, if verdict == Rejected then Clear else Top)
    case Clear => s.(running := false).At(i, Recheck)
    case Recheck => s.At(i, if s.room.TurnPending(s.now) then Reswap else Gone)
    case Reswap => if s.running then s.At(i, Gone) else s.(running := true).At(i, Top)
    case Gone => s
  }

  function After(s: Driver, e: Event): Driver {
    match e
    case KickArrives =>
      var left := if s.owed > 0 then s.owed - 1 else 0;
      if s.running then s.(owed := left) else s.(owed := left, running := true, tasks := s.tasks + [Top])
    case Tick => s.(owed := s.owed + 1)
    case Moves(room, now) => s.(room := room, now := now, owed := s.owed + 1)
    case Drifts(room, now) => s.(room := room, now := now)
    case Blocks => s.(blocked := true)
    case Unblocks => s.(blocked := false, owed := s.owed + 1)
    case Runs(i, a) => if i < |s.tasks| then TaskStep(s, i, a) else s
  }

  function State(s: Driver, es: seq<Event>): Driver {
    if es == [] then s else After(State(s, Init(es)), Last(es))
  }

  ghost predicate Possible(s: Driver, es: seq<Event>) {
    es == [] || (Possible(s, Init(es)) && Enabled(State(s, Init(es)), Last(es)))
  }

  // ── Mutual exclusion ───────────────────────────────────────────────────

  /** A task's step moves that task alone, and the flag follows it into and out of the section. */
  lemma {:induction false} TaskStepShape(s: Driver, i: nat, a: Action)
    requires Alive(s.tasks, i)
    ensures var t := TaskStep(s, i, a);
            && t.tasks == s.tasks[i := t.tasks[i]]
            && t.owed == s.owed && t.blocked == s.blocked && t.now == s.now
            && (Driving(s.tasks[i]) ==> (t.running <==> s.running && Driving(t.tasks[i])))
            && (!Driving(s.tasks[i]) ==> (t.running <==> s.running || Driving(t.tasks[i])))
            && (!Driving(s.tasks[i]) && Driving(t.tasks[i]) ==> !s.running)
  {
  }

  lemma {:induction false} MoveKeepsExclusive(s: Driver, t: Driver, i: nat)
    requires s.Exclusive() && i < |s.tasks| == |t.tasks| && t.tasks == s.tasks[i := t.tasks[i]]
    requires Driving(s.tasks[i]) ==> (t.running <==> s.running && Driving(t.tasks[i]))
    requires !Driving(s.tasks[i]) ==> (t.running <==> s.running || Driving(t.tasks[i]))
    requires !Driving(s.tasks[i]) && Driving(t.tasks[i]) ==> !s.running
    ensures t.Exclusive()
  {
    assert forall j: nat :: j != i ==> (Drives(t.tasks, j) <==> Drives(s.tasks, j));
    if Driving(s.tasks[i]) {
      assert Drives(s.tasks, i);
    } else if s.running {
      var d :| Drives(s.tasks, d);
      assert Drives(t.tasks, d);
    }
    if Driving(t.tasks[i]) { assert Drives(t.tasks, i); }
  }

  lemma {:induction false} KickExclusive(s: Driver)
    requires s.Exclusive()
    ensures After(s, KickArrives).Exclusive()
  {
    if !s.running {
      var tasks := s.tasks + [Top];
      assert forall j: nat :: Drives(tasks, j) <==> Drives(s.tasks, j) || j == |s.tasks|;
      assert Drives(tasks, |s.tasks|);
    }
  }

  lemma {:induction false} StepExclusive(s: Driver, e: Event)
    requires s.Exclusive() && Enabled(s, e)
    ensures After(s, e).Exclusive()
  {
    match e {
      case KickArrives => KickExclusive(s);
      case Runs(i, a) =>
        TaskStepShape(s, i, a);
        MoveKeepsExclusive(s, TaskStep(s, i, a), i);
      case _ =>
    }
  }

  /** In every interleaving at most one task is in its driving section, and `running` says which. */
  lemma {:induction false} AtMostOneDriver(s: Driver, es: seq<Event>)
    requires s.Exclusive() && Possible(s, es)
    ensures State(s, es).Exclusive()
  {
    if es != [] {
      AtMostOneDriver(s, Init(es));
      StepExclusive(State(s, Init(es)), Last(es));
    }
  }

  /** In every interleaving the log stays legal. */
  lemma {:induction false} DriverKeepsLogLegal(s: Driver, es: seq<Event>)
    requires Legal(s.room.table.board, s.room.table.log) && Possible(s, es)
    ensures var t := State(s, es).room.table; Legal(t.board, t.log)
  {
    if es != [] {
      DriverKeepsLogLegal(s, Init(es));
      StepKeepsLogLegal(State(s, Init(es)), Last(es));
    }
  }

  lemma {:induction false} StepKeepsLogLegal(s: Driver, e: Event)
    requires Legal(s.room.table.board, s.room.table.log) && Enabled(s, e)
    ensures var t := After(s, e).room.table; Legal(t.board, t.log)
  {
    if e.Runs? {
      TaskStepTable(s, e.i, e.a);
      if s.tasks[e.i].Returning? {
        LegalLogSnoc(s.room.table.board, s.room.table.log, s.tasks[e.i].a);
      }
    }
  }

  /** Only a returning task touches the table, and only by committing. */
  lemma {:induction false} TaskStepTable(s: Driver, i: nat, a: Action)
    requires i < |s.tasks|
    ensures TaskStep(s, i, a).room.table ==
            match s.tasks[i]
            case Returning(n, b) => Committed(s.room.table, n, b).0
            case _ => s.room.table
  {
  }

  /** Back from thinking: a stale suggestion sends the driver round again with nothing changed, a made one likewise
      with the log one longer, and a refused one ends the driving. */
  lemma {:induction false} CommitStep(s: Driver, i: nat, n: nat, a: Action, any: Action)
    requires i < |s.tasks| && s.tasks[i] == Returning(n, a)
    ensures var t, table := TaskStep(s, i, any), s.room.table;
            && t.running == s.running && t.owed == s.owed
            && (|table.log| != n ==> t.tasks[i] == Top && t.room == s.room)
            && (|table.log| == n && Accepts(table.board, table.log, a) ==>
                  t.tasks[i] == Top && t.room == s.room.(table := Table(table.board, table.log + [a])))
            && (|table.log| == n && !Accepts(table.board, table.log, a) ==> t.tasks[i] == Clear && t.room == s.room)
  {
  }

  // ── No lost wake-up ────────────────────────────────────────────────────

  /** A task that saw the room paused clears the flag after it has been resumed. */
  predicate LateExit(s: Driver, e: Event) {
    e.Runs? && e.i < |s.tasks| && s.tasks[e.i].Leaving? && !s.blocked
  }

  ghost predicate NoLateExit(s: Driver, es: seq<Event>) {
    es == [] || (NoLateExit(s, Init(es)) && !LateExit(State(s, Init(es)), Last(es)))
  }

  /** A change without a kick hands the turn to a bot in a running room. */
  predicate SilentHandover(s: Driver, e: Event) {
    e.Drifts? && !s.blocked && e.room.TurnPending(e.now) && !s.room.TurnPending(s.now)
  }

  ghost predicate NoSilentHandover(s: Driver, es: seq<Event>) {
    es == [] || (NoSilentHandover(s, Init(es)) && !SilentHandover(State(s, Init(es)), Last(es)))
  }

  /** A task ends only when no bot's turn is waiting, when another drives, or through the paused exit. */
  lemma {:induction false} TaskEnds(s: Driver, i: nat, a: Action)
    requires Alive(s.tasks, i) && TaskStep(s, i, a).tasks[i].Gone?
    ensures TaskStep(s, i, a).room == s.room
    ensures s.tasks[i].Leaving? || (s.tasks[i].Recheck? && !s.room.TurnPending(s.now)) || (s.tasks[i].Reswap? && s.running)
  {
  }

  lemma {:induction false} TaskStepAttended(s: Driver, i: nat, a: Action)
    requires s.Exclusive() && s.Attended() && Alive(s.tasks, i) && !LateExit(s, Runs(i, a))
    ensures TaskStep(s, i, a).Attended()
  {
    var t := TaskStep(s, i, a);
    TaskStepShape(s, i, a);
    if !t.tasks[i].Gone? {
      assert Alive(t.tasks, i);
    } else {
      TaskEnds(s, i, a);
      if s.tasks[i].Reswap? {
        var d :| Drives(s.tasks, d);
        assert Alive(t.tasks, d);
      }
    }
  }

  lemma {:induction false} StepAttended(s: Driver, e: Event)
    requires s.Exclusive() && s.Attended() && Enabled(s, e) && !LateExit(s, e) && !SilentHandover(s, e)
    ensures After(s, e).Attended()
  {
    match e {
      case Runs(i, a) => TaskStepAttended(s, i, a);
      case KickArrives =>
        if s.running {
          var d :| Drives(s.tasks, d);
          assert Alive(s.tasks, d);
        } else {
          assert Alive(s.tasks + [Top], |s.tasks|);
        }
      case _ =>
    }
  }

  lemma {:induction false} RunAttended(s: Driver, es: seq<Event>)
    requires s.Exclusive() && s.Attended() && Possible(s, es) && NoLateExit(s, es) && NoSilentHandover(s, es)
    ensures State(s, es).Attended()
  {
    if es != [] {
      RunAttended(s, Init(es));
      AtMostOneDriver(s, Init(es));
      StepAttended(State(s, Init(es)), Last(es));
    }
  }

  lemma {:induction false} QuietStart(room: RoomView, now: int, blocked: bool)
    requires !room.TurnPending(now)
    ensures Start(room, now, blocked).Exclusive() && Start(room, now, blocked).Attended()
  {
    assert forall i: nat :: !Drives([], i);
  }

  /** Nobody will do anything more in an unblocked room, and no bot's turn is waiting; outside an automatic
      auction the gate is then shut. */
  ghost predicate RestsSafely(s: Driver) {
    s.Quiet() && !s.blocked ==>
      && !s.room.TurnPending(s.now)
      && (s.room.GateOpen(s.now) ==> s.room.ModeForces(s.room.table.Folded()))
  }

  /** Unless a task leaves through the paused exit after the room was resumed, or a change without a kick
      hands the turn over, no quiet state of an unblocked room has a bot's turn waiting. */
  lemma {:induction false} NoTurnIsLost(room: RoomView, now: int, blocked: bool, es: seq<Event>)
    requires !room.TurnPending(now) && Possible(Start(room, now, blocked), es)
    requires NoLateExit(Start(room, now, blocked), es) && NoSilentHandover(Start(room, now, blocked), es)
    ensures RestsSafely(State(Start(room, now, blocked), es))
  {
    QuietStart(room, now, blocked);
    RunAttended(Start(room, now, blocked), es);
  }

  predicate RequestsKick(e: Event) { e.Tick? || e.Moves? || e.Unblocks? }

  /** Whatever was lost before, only what happened since the last kick was requested matters. */
  lemma {:induction false} NoTurnIsLostSinceKick(s: Driver, e: Event, es: seq<Event>)
    requires s.Exclusive() && Enabled(s, e) && RequestsKick(e)
    requires Possible(After(s, e), es) && NoLateExit(After(s, e), es) && NoSilentHandover(After(s, e), es)
    ensures RestsSafely(State(After(s, e), es))
  {
    StepExclusive(s, e);
    RunAttended(After(s, e), es);
  }

  /** In a room that is never blocked nobody takes the paused exit. */
  lemma {:induction false} NeverBlockedNeverLeaves(s: Driver, es: seq<Event>)
    requires NobodyLeaving(s) && forall e :: e in es ==> !e.Blocks?
    ensures NobodyLeaving(State(s, es)) && NoLateExit(s, es)
  {
    if es != [] {
      assert forall e :: e in Init(es) ==> e in es;
      assert Last(es) in es;
      NeverBlockedNeverLeaves(s, Init(es));
      StepWithoutBlock(State(s, Init(es)), Last(es));
    }
  }

  ghost predicate NobodyLeaving(s: Driver) {
    !s.blocked && forall i :: 0 <= i < |s.tasks| ==> !s.tasks[i].Leaving?
  }

  lemma {:induction false} StepWithoutBlock(s: Driver, e: Event)
    requires NobodyLeaving(s) && !e.Blocks?
    ensures NobodyLeaving(After(s, e)) && !LateExit(s, e)
  {
    if e.Runs? && Alive(s.tasks, e.i) { TaskStepShape(s, e.i, e.a); }
  }

  // ── The three ways a turn is lost, and how it is found again ───────────

  const ANY: Action := MakeCall(North, Pass)

  /** Resume lands between the paused check and the clearing of the flag: its kick finds the flag still
      set, the driver leaves, and the bot's turn waits with nobody coming. */
  lemma {:induction false} PausedExitLosesTurn(room: RoomView, now: int) returns (es: seq<Event>)
    requires room.TurnPending(now)
    ensures Possible(Start(room, now, true), es)
    ensures !NoLateExit(Start(room, now, true), es) && NoSilentHandover(Start(room, now, true), es)
    ensures var s := State(Start(room, now, true), es); s.Quiet() && !s.blocked && s.room.TurnPending(s.now)
  {
    var s := Start(room, now, true);
    es := Extended(s, [], Tick);
    es := Extended(s, es, KickArrives);
    assert State(s, es) == Driver(room, now, true, true, 0, [Top]);
    assert Alive([Top], 0);
    es := Extended(s, es, Runs(0, ANY));
    assert State(s, es) == Driver(room, now, true, true, 0, [Leaving]);
    es := Extended(s, es, Unblocks);
    es := Extended(s, es, KickArrives);
    assert State(s, es) == Driver(room, now, false, true, 0, [Leaving]);
    assert Alive([Leaving], 0);
    es := Extended(s, es, Runs(0, ANY));
    assert State(s, es) == Driver(room, now, false, false, 0, [Gone]);
  }

  /** A person is on turn when the driver looks; before it clears the flag the board turns play-only, so
      the bots must bid. The kick finds the flag set, and the re-check does not know the forced mode. */
  lemma {:induction false} ForcedAuctionLosesTurn(room: RoomView, now: int) returns (es: seq<Event>)
    requires !room.GateOpen(now) && room.table.Folded().phase == Bidding && Legal(room.table.board, room.table.log)
    ensures Possible(Start(room, now, false), es)
    ensures NoLateExit(Start(room, now, false), es) && NoSilentHandover(Start(room, now, false), es)
    ensures var s := State(Start(room, now, false), es); s.Quiet() && !s.blocked && s.room.GateOpen(s.now)
  {
    var s, forced := Start(room, now, false), room.(mode := PlayOnly);
    ForcedGate(room, now);
    es := Extended(s, [], Tick);
    es := Extended(s, es, KickArrives);
    assert State(s, es) == Driver(room, now, false, true, 0, [Top]);
    assert Alive([Top], 0) && Alive([Look], 0) && Alive([Clear], 0) && Alive([Recheck], 0);
    es := Extended(s, es, Runs(0, ANY));
    assert State(s, es) == Driver(room, now, false, true, 0, [Look]);
    es := Extended(s, es, Runs(0, ANY));
    assert State(s, es) == Driver(room, now, false, true, 0, [Clear]);
    es := Extended(s, es, Moves(forced, now));
    es := Extended(s, es, KickArrives);
    assert State(s, es) == Driver(forced, now, false, true, 0, [Clear]);
    es := Extended(s, es, Runs(0, ANY));
    assert State(s, es) == Driver(forced, now, false, false, 0, [Recheck]);
    es := Extended(s, es, Runs(0, ANY));
    assert State(s, es) == Driver(forced, now, false, false, 0, [Gone]);
  }

  /** A dropped occupant's grace runs out on their turn: nobody is told. */
  lemma {:induction false} SilentHandoverLosesTurn(room: RoomView, now: int, later: int) returns (es: seq<Event>)
    requires Legal(room.table.board, room.table.log) && !room.TurnPending(now) && room.TurnPending(later)
    ensures Possible(Start(room, now, false), es)
    ensures NoLateExit(Start(room, now, false), es) && !NoSilentHandover(Start(room, now, false), es)
    ensures var s := State(Start(room, now, false), es); s.Quiet() && !s.blocked && s.room.TurnPending(s.now)
  {
    var s := Start(room, now, false);
    es := Extended(s, [], Drifts(room, later));
    assert State(s, es) == Driver(room, later, false, false, 0, []);
  }

  lemma {:induction false} ForcedGate(room: RoomView, now: int)
    requires !room.GateOpen(now) && room.table.Folded().phase == Bidding
    ensures Capture(room, now).None?
    ensures var forced := room.(mode := PlayOnly); forced.GateOpen(now) && !forced.TurnPending(now)
  {
  }

  lemma {:induction false} Extended(s: Driver, es: seq<Event>, e: Event) returns (r: seq<Event>)
    ensures r == es + [e] && State(s, r) == After(State(s, es), e)
    ensures Possible(s, r) <==> Possible(s, es) && Enabled(State(s, es), e)
    ensures NoLateExit(s, r) <==> NoLateExit(s, es) && !LateExit(State(s, es), e)
    ensures NoSilentHandover(s, r) <==> NoSilentHandover(s, es) && !SilentHandover(State(s, es), e)
  {
    InitOfSnoc(es, e);
    r := es + [e];
  }

  /** The next keepalive tick puts a driver back to work in any quiet room. */
  lemma {:induction false} KeepaliveRevives(s: Driver)
    requires s.Exclusive() && s.Quiet()
    ensures var t := After(After(s, Tick), KickArrives); t.running && t.tasks == s.tasks + [Top] && t.room == s.room
  {
    assert forall i :: Drives(s.tasks, i) ==> Alive(s.tasks, i);
  }

  /** Only the newest task is alive, at `p`, and no kick is on its way. */
  function Alone(s: Driver, p: Point): Driver { s.(running := true, owed := 0, tasks := s.tasks + [p]) }

  lemma {:induction false} StepsOn(s: Driver, p: Point, a: Action, q: Point)
    requires !s.blocked
    requires match p
             case Top => q == Look
             case Look => Capture(s.room, s.now).Some? && q == Thinking(Capture(s.room, s.now).value)
             case Thinking(pending) => q == Returning(pending.seq_, a)
             case _ => false
    ensures TaskStep(Alone(s, p), |s.tasks|, a) == Alone(s, q)
  {
  }

  lemma {:induction false} LoneCommit(s: Driver, a: Action, any: Action)
    requires Accepts(s.room.table.board, s.room.table.log, a)
    ensures TaskStep(Alone(s, Returning(s.room.table.Seq(), a)), |s.tasks|, any) == TurnTaken(s, a)
  {
  }

  /** The turn was taken by `a`, and the driver looks for the next one. */
  function TurnTaken(s: Driver, a: Action): Driver {
    Alone(s, Top).(room := s.room.(table := Table(s.room.table.board, s.room.table.log + [a])))
  }

  /** The tick, its kick and two steps of the new driver: the waiting turn is captured. */
  lemma {:induction false} KeepaliveCaptures(s: Driver, a: Action) returns (es: seq<Event>)
    requires s.Exclusive() && s.Quiet() && !s.blocked
    requires s.room.table.Reachable() && s.room.GateOpen(s.now)
    ensures es == [Tick, KickArrives, Runs(|s.tasks|, a), Runs(|s.tasks|, a)] && Possible(s, es)
    ensures Capture(s.room, s.now).Some?
    ensures State(s, es) == Alone(s, Thinking(Capture(s.room, s.now).value))
  {
    OpenGateCaptures(s.room, s.now);
    KeepaliveRevives(s);
    es := Extended(s, [], Tick);
    es := Extended(s, es, KickArrives);
    assert State(s, es) == Alone(s, Top);
    es := NextStep(s, es, a, s, Top);
    StepsOn(s, Top, a, Look);
    es := NextStep(s, es, a, s, Look);
    StepsOn(s, Look, a, Thinking(Capture(s.room, s.now).value));
  }

  /** So a lost turn is taken after the next tick: left to itself the new driver's choice `a` is made, and it
      looks for the next turn. */
  lemma {:induction false} KeepaliveTakesTurn(s: Driver, a: Action) returns (es: seq<Event>)
    requires s.Exclusive() && s.Quiet() && !s.blocked
    requires s.room.table.Reachable() && s.room.GateOpen(s.now)
    requires Capture(s.room, s.now).Some? ==> Capture(s.room, s.now).value.Suggests(a)
    ensures Possible(s, es) && |es| == 6 && es[0] == Tick
    ensures State(s, es) == TurnTaken(s, a)
  {
    es := KeepaliveCaptures(s, a);
    var p := Capture(s.room, s.now).value;
    SuggestionFits(s.room, s.now, a);
    es := NextStep(s, es, a, s, Thinking(p));
    StepsOn(s, Thinking(p), a, Returning(p.seq_, a));
    es := NextStep(s, es, a, s, Returning(p.seq_, a));
    LoneCommit(s, a, a);
  }

  lemma {:induction false} NextStep(t: Driver, es: seq<Event>, a: Action, s: Driver, p: Point)
    returns (r: seq<Event>)
    requires Possible(t, es) && State(t, es) == Alone(s, p) && p != Gone
    ensures r == es + [Runs(|s.tasks|, a)] && Possible(t, r)
    ensures State(t, r) == TaskStep(Alone(s, p), |s.tasks|, a)
  {
    r := Extended(t, es, Runs(|s.tasks|, a));
  }

  // ── Every schedule takes the turn ──────────────────────────────────────

  predicate DriverEvent(e: Event) { e.KickArrives? || e.Runs? }

  lemma {:induction false} OnlyMove(s: Driver, p: Point, e: Event)
    requires (forall i :: !Alive(s.tasks, i)) && DriverEvent(e) && Enabled(Alone(s, p), e)
    ensures e.Runs? && e.i == |s.tasks|
  {
    if e.Runs? { OnlyNewest(s.tasks, p, e.i); }
  }

  lemma {:induction false} OnlyNewest(tasks: seq<Point>, p: Point, i: nat)
    requires forall j :: !Alive(tasks, j)
    ensures Alive(tasks + [p], i) ==> i == |tasks|
  {
    assert !Alive(tasks, i);
  }

  lemma {:induction false} NobodyRuns(s: Driver, e: Event)
    requires s.Quiet()
    ensures e.Runs? ==> !Enabled(After(s, Tick), e)
  {
    if e.Runs? { assert !Alive(s.tasks, e.i); }
  }

  lemma {:induction false} OneMore(s: Driver, es: seq<Event>, k: nat)
    requires Possible(s, es) && k < |es|
    ensures Possible(s, es[..k]) && Enabled(State(s, es[..k]), es[k])
    ensures State(s, es[..k + 1]) == After(State(s, es[..k]), es[k])
  {
    PossiblePrefix(s, es, k + 1);
    LastStep(s, es[..k + 1]);
    assert Init(es[..k + 1]) == es[..k];
  }

  lemma {:induction false} LastStep(s: Driver, es: seq<Event>)
    requires es != [] && Possible(s, es)
    ensures Possible(s, Init(es)) && Enabled(State(s, Init(es)), Last(es))
    ensures State(s, es) == After(State(s, Init(es)), Last(es))
  {
  }

  lemma {:induction false} PossiblePrefix(s: Driver, es: seq<Event>, k: nat)
    requires Possible(s, es) && k <= |es|
    ensures Possible(s, es[..k])
  {
    if k < |es| {
      assert Init(es)[..k] == es[..k];
      PossiblePrefix(s, Init(es), k);
    } else {
      assert es[..k] == es;
    }
  }

  /** With nobody else alive the next event is the new task's next step. */
  lemma {:induction false} LoneStep(t: Driver, es: seq<Event>, k: nat, s: Driver, p: Point)
    requires Possible(t, es) && k < |es| && DriverEvent(es[k])
    requires (forall i :: !Alive(s.tasks, i)) && State(t, es[..k]) == Alone(s, p)
    ensures es[k].Runs? && State(t, es[..k + 1]) == TaskStep(Alone(s, p), |s.tasks|, es[k].a)
  {
    OneMore(t, es, k);
    OnlyMove(s, p, es[k]);
  }

  lemma {:induction false} KickComesFirst(s: Driver, es: seq<Event>)
    requires s.Exclusive() && s.Quiet() && !s.blocked
    requires Possible(After(s, Tick), es) && es != [] && DriverEvent(es[0])
    ensures es[0].KickArrives? && State(After(s, Tick), es[..1]) == Alone(s, Top)
  {
    var t := After(s, Tick);
    OneMore(t, es, 0);
    assert es[..0] == [] && State(t, es[..0]) == t;
    NobodyRuns(s, es[0]);
    KeepaliveRevives(s);
  }

  /** The room left to its drivers after a tick: nobody but the new driver can move, so every schedule begins
      with its kick, its capture of the waiting turn, and the commit of what it chose. */
  lemma {:induction false} EveryScheduleTakesTurn(s: Driver, es: seq<Event>)
    requires s.Exclusive() && s.Quiet() && !s.blocked && s.room.table.Reachable() && s.room.GateOpen(s.now)
    requires Possible(After(s, Tick), es) && |es| >= 5 && forall k :: 0 <= k < |es| ==> DriverEvent(es[k])
    requires Capture(s.room, s.now).Some? && es[3].Runs? ==> Capture(s.room, s.now).value.Suggests(es[3].a)
    ensures es[0].KickArrives? && es[3].Runs?
    ensures State(After(s, Tick), es[..5]) == TurnTaken(s, es[3].a)
  {
    ScheduleCaptures(s, es);
    var p := Capture(s.room, s.now).value;
    ScheduleChooses(s, es, p);
    SuggestionFits(s.room, s.now, es[3].a);
    ScheduleCommits(s, es, es[3].a);
  }

  lemma {:induction false} ScheduleCaptures(s: Driver, es: seq<Event>)
    requires s.Exclusive() && s.Quiet() && !s.blocked && s.room.table.Reachable() && s.room.GateOpen(s.now)
    requires Possible(After(s, Tick), es) && |es| >= 3 && DriverEvent(es[0]) && DriverEvent(es[1]) && DriverEvent(es[2])
    ensures es[0].KickArrives? && Capture(s.room, s.now).Some?
    ensures State(After(s, Tick), es[..3]) == Alone(s, Thinking(Capture(s.room, s.now).value))
  {
    OpenGateCaptures(s.room, s.now);
    KickComesFirst(s, es);
    LoneStep(After(s, Tick), es, 1, s, Top);
    StepsOn(s, Top, es[1].a, Look);
    LoneStep(After(s, Tick), es, 2, s, Look);
    StepsOn(s, Look, es[2].a, Thinking(Capture(s.room, s.now).value));
  }

  lemma {:induction false} ScheduleChooses(s: Driver, es: seq<Event>, p: Pending)
    requires s.Quiet() && !s.blocked && Possible(After(s, Tick), es) && |es| >= 4 && DriverEvent(es[3])
    requires State(After(s, Tick), es[..3]) == Alone(s, Thinking(p))
    ensures es[3].Runs? && State(After(s, Tick), es[..4]) == Alone(s, Returning(p.seq_, es[3].a))
  {
    LoneStep(After(s, Tick), es, 3, s, Thinking(p));
    StepsOn(s, Thinking(p), es[3].a, Returning(p.seq_, es[3].a));
  }

  lemma {:induction false} ScheduleCommits(s: Driver, es: seq<Event>, a: Action)
    requires s.Quiet() && Possible(After(s, Tick), es) && |es| >= 5 && DriverEvent(es[4])
    requires State(After(s, Tick), es[..4]) == Alone(s, Returning(s.room.table.Seq(), a))
    requires Accepts(s.room.table.board, s.room.table.log, a)
    ensures State(After(s, Tick), es[..5]) == TurnTaken(s, a)
  {
    LoneStep(After(s, Tick), es, 4, s, Returning(s.room.table.Seq(), a));
    LoneCommit(s, a, es[4].a);
  }
}
