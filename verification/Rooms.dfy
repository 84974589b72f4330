/** A room's table and seats, and who controls a seat (src/rooms.rs, src/bots.rs, src/routes/ws.rs). */
module Rooms {
  import opened Bridge
  import opened TableLog

  // ── Data ───────────────────────────────────────────────────────────────

  datatype BoardMode = BidAndPlay | BidOnly | PlayOnly

  datatype Side = NS | EW

  function SideOf(seat: Direction): Side { if seat.IsNS() then NS else EW }

  /** Instants and durations are milliseconds. */
  datatype Occupant = Occupant(sub: string, name: string, connected: bool, disconnectedAt: Option<int>)

  datatype Reservation = Reservation(sub: string, name: string, expiresAt: int)

  datatype Grace = Grace(onTurn: nat, offTurn: nat)

  function Elapsed(since: int, now: int): int { if now >= since then now - since else 0 }

  // ── Seats ──────────────────────────────────────────────────────────────

  /** One seat: who sits there, whether it is left open, and for whom it is kept. */
  datatype SeatState = SeatState(occ: Option<Occupant>, open: bool, kept: Option<Reservation>)

  datatype Seating = Seating(
    seats: map<Direction, Occupant>,
    noBot: set<Direction>,
    reservations: map<Direction, Reservation>)
  {
    /** No seat is both occupied and marked open. */
    ghost predicate Consistent() { seats.Keys !! noBot }

    function Placed(seat: Direction, occ: Occupant): Seating {
      if seat in seats then this else Seating(seats[seat := occ], noBot - {seat}, reservations)
    }

    function Vacated(seat: Direction): Seating { this.(seats := seats - {seat}) }

    function Rebound(seat: Direction, sub: string, name: string): Seating {
      this.(seats := seats[seat := Occupant(sub, name, true, None)])
    }

    function Dropped(sub: string, now: int): Seating {
      this.(seats := map d | d in seats :: if seats[d].sub == sub
                                           then seats[d].(connected := false, disconnectedAt := Some(now))
                                           else seats[d])
    }

    function Reserved(seat: Direction, r: Reservation): Seating {
      if seat in seats then this else Seating(seats, noBot - {seat}, reservations[seat := r])
    }

    function Swept(now: int): Seating {
      this.(reservations := map d | d in reservations && reservations[d].expiresAt > now :: reservations[d])
    }

    function Seat(d: Direction): SeatState {
      SeatState(if d in seats then Some(seats[d]) else None, d in noBot,
                if d in reservations then Some(reservations[d]) else None)
    }

    /** Should the bot driver act for `seat`: absent and not left open, or disconnected past the grace. */
    predicate BotControlled(grace: Grace, seat: Direction, onTurn: bool, now: int) {
      if seat !in seats then seat !in noBot
      else
        var occ := seats[seat];
        && !occ.connected
        && occ.disconnectedAt.Some?
        && Elapsed(occ.disconnectedAt.value, now) >= if onTurn then grace.onTurn else grace.offTurn
    }
  }

  // ── A room at one instant ──────────────────────────────────────────────

  datatype RoomView = RoomView(table: Table, seating: Seating, mode: BoardMode, grace: Grace, passSides: set<Side>) {
    predicate IsBot(seat: Direction, now: int) { seating.BotControlled(grace, seat, true, now) }

    /** Who plays a declarer-side seat's cards: a human declarer, else a human dummy, else the bot. */
    function SideController(declarer: Direction, now: int): Direction {
      if !IsBot(declarer, now) then declarer
      else if !IsBot(declarer.Partner(), now) then declarer.Partner()
      else declarer
    }

    function ControllerOf(f: Folded, seat: Direction, now: int): Direction {
      if f.contract.Some? && f.contract.value.DeclarerSide(seat) then SideController(f.contract.value.declarer, now)
      else seat
    }

    predicate IsBotSeat(f: Folded, seat: Direction, now: int) { IsBot(ControllerOf(f, seat, now), now) }

    predicate ModeAllows(f: Folded) { !(mode == BidOnly && f.phase == Playing) }

    predicate ModeForces(f: Folded) { mode == PlayOnly && f.phase == Bidding }

    /** The driver's gate: will it act for the seat on turn? */
    predicate GateOpen(now: int) {
      var f := table.Folded();
      f.nextToAct.Some? && ModeAllows(f) && (ModeForces(f) || IsBotSeat(f, f.nextToAct.value, now))
    }

    /** The driver's re-check after it stops, which leaves out the forced mode. */
    predicate TurnPending(now: int) {
      var f := table.Folded();
      f.nextToAct.Some? && ModeAllows(f) && IsBotSeat(f, f.nextToAct.value, now)
    }

    /** Every action from `from` on was made by a seat that is bot-controlled now. */
    predicate OnlyBots(from: nat, now: int) {
      forall j :: from <= j < |table.log| ==> IsBot(table.log[j].seat, now)
    }

    /** Action `i` is the latest by a seat that is not bot-controlled now. */
    predicate LastHuman(i: nat, now: int) {
      i < |table.log| && !IsBot(table.log[i].seat, now) && OnlyBots(i + 1, now)
    }

    /** A bid from a connection holding `held` gets past the checks made before the table is asked. */
    predicate BidEntitled(held: set<Direction>) {
      var f := table.Folded();
      mode != PlayOnly && f.nextToAct.Some? && f.nextToAct.value in held
    }

    /** Likewise a card: the seat on turn, or the controller of the declaring side for one of its seats. */
    predicate PlayEntitled(held: set<Direction>, now: int) {
      var f := table.Folded();
      && mode != BidOnly
      && f.nextToAct.Some?
      && (f.nextToAct.value in held ||
          (f.contract.Some? && f.contract.value.DeclarerSide(f.nextToAct.value)
           && SideController(f.contract.value.declarer, now) in held))
    }
  }

  datatype Denial = ModeForbids | NobodyOnTurn | NotYourTurn | TableRefuses(why: Refusal) | NoHumanAction | NothingToUndo

  /** The first reason that applies: the board's mode, nobody's turn, another's turn, the table's own. */
  function BidDenied(v: RoomView, held: set<Direction>, call: Call): Option<Denial> {
    var turn := v.table.Folded().nextToAct;
    if v.mode == PlayOnly then Some(ModeForbids)
    else if turn.None? then Some(NobodyOnTurn)
    else if !v.BidEntitled(held) then Some(NotYourTurn)
    else TableDenies(v.table, MakeCall(turn.value, call))
  }

  function PlayDenied(v: RoomView, held: set<Direction>, card: Card, now: int): Option<Denial> {
    var turn := v.table.Folded().nextToAct;
    if v.mode == BidOnly then Some(ModeForbids)
    else if turn.None? then Some(NobodyOnTurn)
    else if !v.PlayEntitled(held, now) then Some(NotYourTurn)
    else TableDenies(v.table, PlayCard(turn.value, card))
  }

  function TableDenies(t: Table, a: Action): Option<Denial> {
    match RefusalOf(t.board, t.log, a)
    case None => None
    case Some(why) => Some(TableRefuses(why))
  }

  // ── The room ───────────────────────────────────────────────────────────

  class Room {
    const table: TableState
    var seats: map<Direction, Occupant>
    var noBot: set<Direction>
    var reservations: map<Direction, Reservation>
    var mode: BoardMode
    var grace: Grace
    var passSides: set<Side>
    var bbaCache: Option<seq<Call>>

    function Seats(): Seating
      reads this`seats, this`noBot, this`reservations
    {
      Seating(seats, noBot, reservations)
    }

    function View(): RoomView
      reads this, table
    {
      RoomView(table.View(), Seats(), mode, grace, passSides)
    }

    constructor (board: Board, mode: BoardMode, grace: Grace)
      ensures fresh(table)
      ensures View() == RoomView(Table(board, []), Seating(map[], {}, map[]), mode, grace, {}) && bbaCache == None
    {
      this.mode, this.grace := mode, grace;
      seats, noBot, reservations, passSides, bbaCache := map[], {}, map[], {}, None;
      table := new TableState(board);
    }

    // ── Seat operations ──

    method TryPlace(seat: Direction, occ: Occupant) returns (ok: bool)
      modifies this`seats, this`noBot
      ensures Seats() == old(Seats()).Placed(seat, occ)
      ensures ok <==> seat !in old(seats)
    {
      if seat in seats { return false; }
      seats := seats[seat := occ];
      noBot := noBot - {seat};
      return true;
    }

    method TrySeat(seat: Direction, sub: string, name: string) returns (ok: bool)
      modifies this`seats, this`noBot
      ensures Seats() == old(Seats()).Placed(seat, Occupant(sub, name, true, None))
      ensures ok <==> seat !in old(seats)
    {
      ok := TryPlace(seat, Occupant(sub, name, true, None));
    }

    method SetEmpty(seat: Direction)
      modifies this`noBot
      ensures Seats() == old(Seats()).(noBot := old(noBot) + {seat})
    {
      noBot := noBot + {seat};
    }

    method SetBot(seat: Direction)
      modifies this`noBot
      ensures Seats() == old(Seats()).(noBot := old(noBot) - {seat})
    {
      noBot := noBot - {seat};
    }

    method Vacate(seat: Direction) returns (occ: Option<Occupant>)
      modifies this`seats
      ensures Seats() == old(Seats()).Vacated(seat)
      ensures occ == if seat in old(seats) then Some(old(seats)[seat]) else None
    {
      occ := if seat in seats then Some(seats[seat]) else None;
      seats := seats - {seat};
    }

    method TryReserve(seat: Direction, sub: string, name: string, expiresAt: int) returns (ok: bool)
      modifies this`noBot, this`reservations
      ensures Seats() == old(Seats()).Reserved(seat, Reservation(sub, name, expiresAt))
      ensures ok <==> seat !in old(seats)
    {
      if seat in seats { return false; }
      noBot := noBot - {seat};
      reservations := reservations[seat := Reservation(sub, name, expiresAt)];
      return true;
    }

    method CancelReservation(seat: Direction) returns (present: bool)
      modifies this`reservations
      ensures Seats() == old(Seats()).(reservations := old(reservations) - {seat})
      ensures present <==> seat in old(reservations)
    {
      present := seat in reservations;
      reservations := reservations - {seat};
    }

    method SweepReservations(now: int) returns (expired: set<Direction>)
      modifies this`reservations
      ensures Seats() == old(Seats()).Swept(now)
      ensures expired == old(reservations).Keys - reservations.Keys
      ensures forall d :: d in reservations <==> d in old(reservations) && old(reservations)[d].expiresAt > now
    {
      expired := set d | d in reservations && reservations[d].expiresAt <= now;
      var left := expired;
      while left != {}
        invariant left <= expired
        invariant reservations == map d | d in old(reservations) && (d !in expired || d in left) :: old(reservations)[d]
        decreases left
      {
        var seat :| seat in left;
        reservations := reservations - {seat};
        left := left - {seat};
      }
    }

    method MarkDisconnected(sub: string, now: int)
      modifies this`seats
      ensures Seats() == old(Seats()).Dropped(sub, now)
    {
      var left := seats.Keys;
      while left != {}
        invariant left <= seats.Keys == old(seats).Keys
        invariant forall d :: d in left ==> seats[d] == old(seats)[d]
        invariant forall d :: d in seats.Keys - left ==> seats[d] == old(Seats()).Dropped(sub, now).seats[d]
        decreases left
      {
        var seat :| seat in left;
        if seats[seat].sub == sub {
          seats := seats[seat := seats[seat].(connected := false, disconnectedAt := Some(now))];
        }
        left := left - {seat};
      }
    }

    /** Rebind the sub's own seat, else the first free one in the order N, S, W, E. */
    method SeatOrRebind(sub: string, name: string) returns (r: Option<Direction>)
      modifies this`seats, this`noBot
      ensures r.None? ==> Seats() == old(Seats()) && forall d: Direction :: d in seats && seats[d].sub != sub
      ensures r.Some? && r.value in old(seats) ==>
                old(seats)[r.value].sub == sub && Seats() == old(Seats()).Rebound(r.value, sub, name)
      ensures r.Some? && r.value !in old(seats) ==>
                && (forall d :: d in old(seats) ==> old(seats)[d].sub != sub)
                && (r.value != North ==> North in old(seats))
                && (r.value in {West, East} ==> South in old(seats))
                && (r.value == East ==> West in old(seats))
                && Seats() == old(Seats()).Placed(r.value, Occupant(sub, name, true, None))
    {
      if d :| d in seats && seats[d].sub == sub {
        seats := seats[d := seats[d].(connected := true, disconnectedAt := None, name := name)];
        return Some(d);
      }
      var order := [North, South, West, East];
      for i := 0 to 4
        invariant Seats() == old(Seats())
        invariant forall k :: 0 <= k < i ==> order[k] in seats
      {
        if order[i] !in seats {
          assert (i > 0 ==> order[0] in seats) && (i > 1 ==> order[1] in seats) && (i > 2 ==> order[2] in seats);
          seats := seats[order[i] := Occupant(sub, name, true, None)];
          noBot := noBot - {order[i]};
          return Some(order[i]);
        }
      }
      assert order[0] in seats && order[1] in seats && order[2] in seats && order[3] in seats;
      forall d: Direction ensures d in seats {
        match d { case North => case East => case South => case West => }
      }
      return None;
    }

    // ── Undo to the last human action ──

    method LastHumanAction(now: int) returns (r: Option<nat>)
      ensures match r
              case None => View().OnlyBots(0, now)
              case Some(i) => View().LastHuman(i, now)
    {
      var i := |table.actions|;
      while i > 0
        invariant 0 <= i <= |table.actions|
        invariant View().OnlyBots(i, now)
      {
        i := i - 1;
        var seat := match table.actions[i]
          case MakeCall(seat, _) => seat
          case PlayCard(seat, _) => seat
          case ClaimTricks(seat, _, _) => seat;
        if !Seats().BotControlled(grace, seat, true, now) {
          return Some(i);
        }
      }
      return None;
    }

    // ── Messages from a connection holding `held` ──

    method HandleBid(held: set<Direction>, call: Call) returns (denied: Option<Denial>)
      modifies table
      ensures denied == BidDenied(old(View()), held, call)
      ensures denied.None? ==> old(View()).BidEntitled(held) && old(View()).table.Folded().nextToAct.Some?
      ensures denied.None? ==>
                var a := MakeCall(old(View()).table.Folded().nextToAct.value, call);
                Accepts(old(table.board), old(table.actions), a) && View().table == old(View()).table.Applied(a)
      ensures denied.Some? ==> View() == old(View())
      ensures denied.Some? && old(View()).BidEntitled(held) ==>
                !Accepts(old(table.board), old(table.actions), MakeCall(old(View()).table.Folded().nextToAct.value, call))
    {
      if mode == PlayOnly { return Some(ModeForbids); }
      var f := table.FoldLog();
      if f.nextToAct.None? { return Some(NobodyOnTurn); }
      if f.nextToAct.value !in held { return Some(NotYourTurn); }
      var r := table.Apply(MakeCall(f.nextToAct.value, call));
      return match r case Ok(_) => None case Err(e) => Some(TableRefuses(e));
    }

    method HandlePlay(held: set<Direction>, card: Card, now: int) returns (denied: Option<Denial>)
      modifies table
      ensures denied == PlayDenied(old(View()), held, card, now)
      ensures denied.None? ==> old(View()).PlayEntitled(held, now) && old(View()).table.Folded().nextToAct.Some?
      ensures denied.None? ==>
                var a := PlayCard(old(View()).table.Folded().nextToAct.value, card);
                Accepts(old(table.board), old(table.actions), a) && View().table == old(View()).table.Applied(a)
      ensures denied.Some? ==> View() == old(View())
      ensures denied.Some? && old(View()).PlayEntitled(held, now) ==>
                !Accepts(old(table.board), old(table.actions), PlayCard(old(View()).table.Folded().nextToAct.value, card))
    {
      if mode == BidOnly { return Some(ModeForbids); }
      var f := table.FoldLog();
      if f.nextToAct.None? { return Some(NobodyOnTurn); }
      var turn := f.nextToAct.value;
      var entitled := turn in held ||
                      (f.contract.Some? && f.contract.value.DeclarerSide(turn)
                       && View().SideController(f.contract.value.declarer, now) in held);
      if !entitled { return Some(NotYourTurn); }
      var r := table.Apply(PlayCard(turn, card));
      return match r case Ok(_) => None case Err(e) => Some(TableRefuses(e));
    }

    /** An explicit rewind, a single step while the bots are paused, or a rewind to the last human action. */
    method HandleUndo(toSeq: Option<nat>, paused: bool, now: int) returns (r: Result<nat, Denial>)
      modifies table, this`bbaCache
      ensures r.Err? ==> View() == old(View()) && bbaCache == old(bbaCache)
      ensures r.Ok? ==> r.value <= old(|table.actions|) && View().table == old(View()).table.Undone(r.value)
      ensures r.Ok? ==> View() == old(View()).(table := View().table) && bbaCache == None
      ensures match toSeq
              case Some(n) => r == if n <= old(|table.actions|) then Ok(n) else Err(TableRefuses(UndoForward))
              case None =>
                if paused then
                  r == if old(|table.actions|) == 0 then Err(NothingToUndo) else Ok(old(|table.actions|) - 1)
                else match r
                  case Ok(n) => old(View()).LastHuman(n, now)
                  case Err(e) => e == NoHumanAction && old(View()).OnlyBots(0, now)
    {
      var n: nat := 0;
      match toSeq {
        case Some(s) => n := s;
        case None =>
          if paused {
            if |table.actions| == 0 { return Err(NothingToUndo); }
            n := |table.actions| - 1;
          } else {
            var last := LastHumanAction(now);
            if last.None? { return Err(NoHumanAction); }
            n := last.value;
          }
      }
      var undone := table.UndoTo(n);
      if undone.Err? { return Err(TableRefuses(undone.error)); }
      bbaCache := None;
      return Ok(n);
    }
  }

  // ── The seat operations keep seats consistent ──────────────────────────

  /** What the session does to one table's seats: someone sits, takes up a seat again, or drops out; a seat
      is vacated and left open or to a bot; a seat is reserved, or reservations end. */
  datatype SeatOp =
    | Sit(seat: Direction, occ: Occupant)
    | TakeUp(seat: Direction, sub: string, name: string)
    | DropOut(sub: string, now: int)
    | Leave(seat: Direction)
    | OpenUp(seat: Direction)
    | ToBot(seat: Direction)
    | Hold(seat: Direction, r: Reservation)
    | Release(seat: Direction)
    | Expire(now: int)

  function Does(s: Seating, op: SeatOp): Seating {
    match op
    case Sit(seat, occ) => s.Placed(seat, occ)
    case TakeUp(seat, sub, name) => if seat in s.seats then s.Rebound(seat, sub, name) else s
    case DropOut(sub, now) => s.Dropped(sub, now)
    case Leave(seat) => s.Vacated(seat)
    case OpenUp(seat) => s.Vacated(seat).(noBot := s.noBot + {seat})
    case ToBot(seat) => s.Vacated(seat).(noBot := s.noBot - {seat})
    case Hold(seat, r) => s.Reserved(seat, r)
    case Release(seat) => s.(reservations := s.reservations - {seat})
    case Expire(now) => s.Swept(now)
  }

  /** What an operation does to any one seat: a dropped occupant keeps seat and name, a reservation lasts until
      it expires, and a seat the operation does not name stays as it was. */
  lemma {:induction false} SeatOpDoes(s: Seating, op: SeatOp, d: Direction)
    ensures var was, after := s.Seat(d), Does(s, op).Seat(d);
            match op
            case Sit(seat, occ) =>
              after == if d == seat && was.occ.None? then was.(occ := Some(occ), open := false) else was
            case TakeUp(seat, sub, name) =>
              after == if d == seat && was.occ.Some? then was.(occ := Some(Occupant(sub, name, true, None))) else was
            case DropOut(sub, now) =>
              after == if was.occ.Some? && was.occ.value.sub == sub
                        then was.(occ := Some(Occupant(sub, was.occ.value.name, false, Some(now))))
                        else was
            case Leave(seat) => after == if d == seat then was.(occ := None) else was
            case OpenUp(seat) => after == if d == seat then was.(occ := None, open := true) else was
            case ToBot(seat) => after == if d == seat then was.(occ := None, open := false) else was
            case Hold(seat, r) =>
              after == if d == seat && was.occ.None? then was.(open := false, kept := Some(r)) else was
            case Release(seat) => after == if d == seat then was.(kept := None) else was
            case Expire(now) =>
              after == if was.kept.Some? && was.kept.value.expiresAt <= now then was.(kept := None) else was
  {
  }

  function SeatsAfter(s: Seating, ops: seq<SeatOp>): Seating {
    if ops == [] then s else Does(SeatsAfter(s, Init(ops)), Last(ops))
  }

  /** Over every run of seat operations no seat is ever both occupied and marked open. */
  lemma {:induction false} SeatRunsStayConsistent(s: Seating, ops: seq<SeatOp>)
    requires s.Consistent()
    ensures SeatsAfter(s, ops).Consistent()
  {
    if ops != [] {
      SeatRunsStayConsistent(s, Init(ops));
      SeatOpStaysConsistent(SeatsAfter(s, Init(ops)), Last(ops));
    }
  }

  /** Every operation keeps occupied and open seats apart. Marking a seat open without vacating it does so
      exactly when the seat is vacant. */
  lemma {:induction false} SeatOpStaysConsistent(s: Seating, op: SeatOp)
    requires s.Consistent()
    ensures Does(s, op).Consistent()
    ensures op.OpenUp? ==> (s.(noBot := s.noBot + {op.seat}).Consistent() <==> op.seat !in s.seats)
  {
    match op {
      case Sit(seat, occ) => assert s.Placed(seat, occ).seats.Keys <= s.seats.Keys + {seat};
      case TakeUp(seat, sub, name) => assert seat in s.seats ==> s.Rebound(seat, sub, name).seats.Keys == s.seats.Keys;
      case DropOut(sub, now) => assert s.Dropped(sub, now).seats.Keys == s.seats.Keys;
      case _ =>
    }
  }
}
