/** A session's tables, lobby and connections, and placing people at them (src/sessions.rs). */
module Sessions {
  import opened Bridge
  import opened TableLog
  import opened Rooms
  import opened SeatFill
  import opened Placing
  import opened Assigning

  datatype SessionKind = TeacherSet | Adhoc

  datatype ConnMeta = ConnMeta(sub: string, name: string)

  datatype AssignError = UnknownTable | SeatIsEmpty | UnknownToken | BadRequest

  /** The seats at each table. */
  ghost function SeatsAt(rooms: seq<Room>): (r: seq<Seating>)
    reads rooms
    ensures |r| == |rooms| && forall i :: 0 <= i < |rooms| ==> r[i] == rooms[i].Seats()
  {
    if rooms == [] then [] else SeatsAt(Init(rooms)) + [Last(rooms).Seats()]
  }

  class Session {
    const kind: SessionKind
    const ownerSub: string
    var seed: Board
    var boardMode: BoardMode
    var grace: Grace
    var policy: SeatPolicy
    var waitToSeat: bool
    var rooms: seq<Room>
    var nextArrival: nat
    var kibitzers: map<string, Kibitzer>
    var connections: map<string, ConnMeta>

    ghost predicate Valid()
      reads this`rooms, this`policy
    {
      NoDup(rooms) && policy.WellFormed()
    }

    ghost function Tables(): seq<Seating>
      reads this`rooms, rooms
    {
      SeatsAt(rooms)
    }

    ghost function View(): Hall
      reads this`rooms, this`kibitzers, rooms
    {
      Hall(Tables(), kibitzers)
    }

    constructor (kind: SessionKind, ownerSub: string, seed: Board, boardMode: BoardMode, grace: Grace,
                 policy: SeatPolicy, tableCount: nat)
      requires policy.WellFormed()
      ensures Valid() && this.kind == kind && this.ownerSub == ownerSub && this.policy == policy
      ensures |Tables()| == tableCount && forall i :: 0 <= i < tableCount ==> Tables()[i] == EMPTY
      ensures !waitToSeat && nextArrival == 0 && kibitzers == map[] && connections == map[]
      ensures fresh(rooms)
    {
      this.kind, this.ownerSub, this.seed := kind, ownerSub, seed;
      this.boardMode, this.grace, this.policy, waitToSeat := boardMode, grace, policy, false;
      rooms, nextArrival, kibitzers, connections := [], 0, map[], map[];
      new;
      AddRooms(tableCount);
    }

    method AddRooms(count: nat)
      requires Valid()
      modifies this`rooms
      ensures Valid() && old(rooms) <= rooms && forall k :: |old(rooms)| <= k < |rooms| ==> fresh(rooms[k])
      ensures |Tables()| == |old(Tables())| + count && old(Tables()) <= Tables()
      ensures forall i :: |old(Tables())| <= i < |Tables()| ==> Tables()[i] == EMPTY
    {
      for i := 0 to count
        invariant Valid() && old(rooms) <= rooms && forall k :: |old(rooms)| <= k < |rooms| ==> fresh(rooms[k])
        invariant |Tables()| == |old(Tables())| + i && old(Tables()) <= Tables()
        invariant forall j :: |old(Tables())| <= j < |Tables()| ==> Tables()[j] == EMPTY
      {
        var _ := AddRoom();
      }
    }

    // ── Tables ──

    method AddRoom() returns (room: Room)
      requires Valid()
      modifies this`rooms
      ensures Valid() && fresh(room) && fresh(room.table) && rooms == old(rooms) + [room]
      ensures room.View() == RoomView(Table(seed, []), EMPTY, boardMode, grace, {}) && room.bbaCache == None
      ensures Tables() == old(Tables()) + [EMPTY]
    {
      room := new Room(seed, boardMode, grace);
      NoDupSnoc(rooms, room);
      rooms := rooms + [room];
    }

    /** The first table, or a new one. */
    method WatchTable() returns (room: Room)
      requires Valid()
      modifies this`rooms
      ensures Valid() && rooms != [] && room == rooms[0] && Tables() == FirstOr(old(Tables()))
      ensures old(rooms) <= rooms
      ensures if old(rooms) == [] then rooms == [room] && fresh(room) else rooms == old(rooms)
    {
      if |rooms| == 0 {
        room := AddRoom();
      } else {
        room := rooms[0];
      }
    }

    /** Seat someone at table `i` if the seat is free. */
    method SeatAt(i: nat, seat: Direction, who: Guest) returns (ok: bool)
      requires Valid() && i < |rooms|
      modifies (set r | r in rooms)`seats, (set r | r in rooms)`noBot
      ensures Valid() && (ok <==> seat !in old(Tables())[i].seats)
      ensures Tables() == SeatedAt(old(Tables()), i, seat, who.Here())
    {
      ok := rooms[i].TrySeat(seat, who.sub, who.name);
    }

    // ── Automatic seating ──

    method SeatRoundRobin(start: nat, order: seq<Direction>, who: Guest)
      returns (r: Option<(nat, Direction)>)
      requires Valid()
      modifies (set r | r in rooms)`seats, (set r | r in rooms)`noBot
      ensures r.None? ==> AllFull(old(Tables()), order) && Tables() == old(Tables())
      ensures r.Some? ==>
                && RoundRobinPick(old(Tables()), start, order, r.value.0, r.value.1)
                && Tables() == SeatedAt(old(Tables()), r.value.0, r.value.1, who.Here())
    {
      var n := |rooms|;
      if n == 0 { return None; }
      for offset := 0 to n
        invariant Tables() == old(Tables())
        invariant EarlierFull(old(Tables()), start, order, offset)
      {
        var idx := Visited(start, offset, n);
        var taken := TryOrder(idx, order, who);
        if taken.Some? { return Some((idx, taken.value)); }
        EarlierFullGrows(old(Tables()), start, order, offset);
      }
      AllVisitedFull(Tables(), start, order);
      return None;
    }

    /** The first free seat of `order` at table `i`. */
    method TryOrder(i: nat, order: seq<Direction>, who: Guest) returns (r: Option<Direction>)
      requires Valid() && i < |rooms|
      modifies (set r | r in rooms)`seats, (set r | r in rooms)`noBot
      ensures r.None? ==> Full(old(Tables())[i], order) && Tables() == old(Tables())
      ensures r.Some? ==>
                && FirstFreeSeat(old(Tables())[i], order, r.value)
                && Tables() == SeatedAt(old(Tables()), i, r.value, who.Here())
    {
      for k := 0 to |order|
        invariant Tables() == old(Tables()) && Full(old(Tables())[i], order[..k])
      {
        var ok := SeatAt(i, order[k], who);
        if ok {
          assert FirstFreeAt(old(Tables())[i], order, k);
          return Some(order[k]);
        }
      }
      return None;
    }

    /** Side by side at table `i`. */
    method TrySides(i: nat, sides: seq<Side>, who: Guest) returns (r: Option<Direction>)
      requires Valid() && i < |rooms|
      modifies (set r | r in rooms)`seats, (set r | r in rooms)`noBot
      ensures r.None? ==> Full(old(Tables())[i], SideOrder(sides)) && Tables() == old(Tables())
      ensures r.Some? ==>
                && FirstFreeSeat(old(Tables())[i], SideOrder(sides), r.value)
                && Tables() == SeatedAt(old(Tables()), i, r.value, who.Here())
    {
      ghost var table := Tables()[i];
      for s := 0 to |sides|
        invariant Tables() == old(Tables()) && Full(table, SideOrder(sides[..s]))
      {
        r := TryOrder(i, SideSeats(sides[s]), who);
        SideOrderSplits(sides, s);
        if r.Some? {
          FirstInSide(table, sides, s, r.value);
          return r;
        }
      }
      assert sides[..|sides|] == sides;
      return None;
    }

    /** Whole sides, table by table. */
    method SeatPairs(sides: seq<Side>, who: Guest) returns (r: Option<(nat, Direction)>)
      requires Valid()
      modifies (set r | r in rooms)`seats, (set r | r in rooms)`noBot
      ensures r.None? ==> AllFull(old(Tables()), SideOrder(sides)) && Tables() == old(Tables())
      ensures r.Some? ==>
                && RoundRobinPick(old(Tables()), 0, SideOrder(sides), r.value.0, r.value.1)
                && Tables() == SeatedAt(old(Tables()), r.value.0, r.value.1, who.Here())
    {
      for i := 0 to |rooms|
        invariant Tables() == old(Tables())
        invariant EarlierFull(old(Tables()), 0, SideOrder(sides), i)
      {
        VisitedInOrder(i, |rooms|);
        var taken := TrySides(i, sides, who);
        if taken.Some? {
          return Some((i, taken.value));
        }
        EarlierFullGrows(old(Tables()), 0, SideOrder(sides), i);
      }
      AllVisitedFull(Tables(), 0, SideOrder(sides));
      return None;
    }

    /** Seat `sub` by policy at an existing table. */
    method TrySeatExisting(shape: SeatPolicy, who: Guest) returns (r: Option<(nat, Direction)>)
      requires Valid()
      modifies this`nextArrival, (set r | r in rooms)`seats, (set r | r in rooms)`noBot
      ensures nextArrival == old(nextArrival) + if shape.Pairs? || shape.Manual? then 0 else 1
      ensures r.None? ==> (shape.Manual? || AllFull(old(Tables()), shape.Order())) && Tables() == old(Tables())
      ensures r.Some? ==>
                && !shape.Manual?
                && RoundRobinPick(old(Tables()), Cursor(shape, old(nextArrival)), shape.Order(), r.value.0, r.value.1)
                && Tables() == SeatedAt(old(Tables()), r.value.0, r.value.1, who.Here())
      ensures r.Some? ==> PolicySeat(shape, old(Tables())[r.value.0], r.value.1)
    {
      if shape.Manual? {
        r := None;
      } else if shape.Pairs? {
        r := SeatPairs(shape.sides, who);
      } else {
        var start := nextArrival;
        nextArrival := nextArrival + 1;
        r := SeatRoundRobin(start, shape.Order(), who);
      }
      if r.Some? { OrderIsPolicy(shape, old(Tables())[r.value.0], r.value.1); }
    }

    /** Seat `sub` by policy at an existing table, else at a new one. */
    method SeatOne(shape: SeatPolicy, who: Guest) returns (i: nat, seat: Direction)
      requires Valid() && shape.WellFormed() && !shape.Manual?
      modifies this`rooms, this`nextArrival, (set r | r in rooms)`seats, (set r | r in rooms)`noBot
      ensures Valid() && old(rooms) <= rooms
      ensures nextArrival == old(nextArrival) + if shape.Pairs? then 0 else 1
      ensures Arrival(old(Tables()), Tables(), Cursor(shape, old(nextArrival)), shape.Order(),
                      who.Here(), i, seat)
      ensures PolicyArrival(shape, old(Tables()), Cursor(shape, old(nextArrival)), i, seat)
    {
      i, seat := SeatOneByOrder(shape, who);
      ArrivalIsPolicys(old(Tables()), Tables(), Cursor(shape, old(nextArrival)), shape, who.Here(), i, seat);
    }

    method SeatOneByOrder(shape: SeatPolicy, who: Guest) returns (i: nat, seat: Direction)
      requires Valid() && shape.WellFormed() && !shape.Manual?
      modifies this`rooms, this`nextArrival, (set r | r in rooms)`seats, (set r | r in rooms)`noBot
      ensures Valid() && old(rooms) <= rooms
      ensures nextArrival == old(nextArrival) + if shape.Pairs? then 0 else 1
      ensures Arrival(old(Tables()), Tables(), Cursor(shape, old(nextArrival)), shape.Order(), who.Here(), i, seat)
    {
      var placed := TrySeatExisting(shape, who);
      if placed.Some? {
        ArrivalPicks(old(Tables()), Cursor(shape, old(nextArrival)), shape.Order(), who.Here(),
                     placed.value.0, placed.value.1);
        return placed.value.0, placed.value.1;
      }
      i, seat := |rooms|, shape.Order()[0];
      ArrivalOpens(old(Tables()), Cursor(shape, old(nextArrival)), shape.Order(), who.Here());
      SeatAtNewTable(seat, who);
    }

    method SeatAtNewTable(seat: Direction, who: Guest)
      requires Valid()
      modifies this`rooms
      ensures Valid() && old(rooms) <= rooms
      ensures Tables() == old(Tables()) + [EMPTY.Placed(seat, who.Here())]
    {
      var room := AddRoom();
      var _ := room.TrySeat(seat, who.sub, who.name);
    }

    // ── Arriving ──

    method FreeGhostsAt(i: nat)
      requires Valid() && i < |rooms|
      modifies (set r | r in rooms)`seats
      ensures Tables() == old(Tables())[i := NoGhosts(old(Tables())[i])]
    {
      var ghosts := set d | d in rooms[i].seats && !rooms[i].seats[d].connected;
      var left := ghosts;
      while left != {}
        invariant left <= ghosts
        invariant rooms[i].seats == map d | d in old(rooms[i].seats) && (d !in ghosts || d in left) :: old(rooms[i].seats)[d]
        invariant forall j :: 0 <= j < |rooms| && j != i ==> rooms[j].seats == old(rooms[j].seats)
        decreases left
      {
        var d :| d in left;
        var _ := rooms[i].Vacate(d);
        left := left - {d};
      }
      assert rooms[i].Seats() == NoGhosts(old(Tables())[i]);
    }

    method FreeGhosts()
      requires Valid()
      modifies (set r | r in rooms)`seats
      ensures AllGhostsFreed(old(Tables()), Tables())
    {
      for i := 0 to |rooms|
        invariant forall j :: 0 <= j < i ==> Tables()[j] == NoGhosts(old(Tables())[j])
        invariant forall j :: i <= j < |rooms| ==> Tables()[j] == old(Tables())[j]
      {
        FreeGhostsAt(i);
      }
    }

    /** Seat someone at the first table, opening one if there is none. */
    method SeatAtFirst(seat: Direction, who: Guest) returns (ok: bool)
      requires Valid()
      modifies this`rooms, (set r | r in rooms)`seats, (set r | r in rooms)`noBot
      ensures Valid() && old(rooms) <= rooms
      ensures ok <==> seat !in FirstOr(old(Tables()))[0].seats
      ensures ok ==> Tables() == SeatedFirst(old(Tables()), seat, who.Here())
      ensures !ok ==> rooms == old(rooms) && Tables() == old(Tables())
    {
      ghost var tables := FirstOr(Tables());
      var _ := WatchTable();
      ok := SeatAtHead(tables, seat, who);
    }

    method SeatAtHead(ghost tables: seq<Seating>, seat: Direction, who: Guest) returns (ok: bool)
      requires Valid() && tables == Tables() && tables != []
      modifies (set r | r in rooms)`seats, (set r | r in rooms)`noBot
      ensures Valid() && (ok <==> seat !in tables[0].seats)
      ensures Tables() == if ok then SeatedAt(tables, 0, seat, who.Here()) else tables
    {
      ok := SeatAt(0, seat, who);
    }

    /** The owner reopening a friends' table: ghosts go, and the owner takes South if it is then free. */
    method ResumeOwner(who: Guest) returns (p: Option<Placement>, ghost swept: seq<Seating>)
      requires Valid()
      modifies this`rooms, (set r | r in rooms)`seats, (set r | r in rooms)`noBot
      ensures Valid() && old(rooms) <= rooms
      ensures AllGhostsFreed(old(Tables()), swept)
      ensures SouthFreeForOwner(old(Tables())) ==>
                p.Some? && OwnerSeated(Hall(swept, kibitzers), View(), who, p.value)
      ensures !SouthFreeForOwner(old(Tables())) ==> p == None && rooms == old(rooms) && Tables() == swept
    {
      FreeGhosts();
      swept := Tables();
      SouthFreed(old(Tables()), swept);
      var ok := SeatAtFirst(South, who);
      p := if ok then Some(Placement(0, Some(South))) else None;
    }

    /** A seat `sub` has at table `i`, if any. */
    method SeatOf(i: nat, sub: string) returns (r: Option<Direction>)
      requires Valid() && i < |rooms|
      ensures match r
              case Some(d) => HoldsSeat(Tables(), i, d, sub)
              case None => forall d :: !HoldsSeat(Tables(), i, d, sub)
    {
      if d :| d in rooms[i].seats && rooms[i].seats[d].sub == sub {
        return Some(d);
      }
      return None;
    }

    method SetOccupant(i: nat, d: Direction, occ: Occupant)
      requires Valid() && i < |rooms|
      modifies (set r | r in rooms)`seats
      ensures Tables() == old(Tables())[i := old(Tables())[i].(seats := old(Tables())[i].seats[d := occ])]
    {
      rooms[i].seats := rooms[i].seats[d := occ];
    }

    /** An existing seat always wins: the first found, table by table, is taken up again. */
    method Reconnect(who: Guest) returns (p: Option<Placement>)
      requires Valid()
      modifies (set r | r in rooms)`seats
      ensures p.None? ==> Tables() == old(Tables()) && !Seated(Tables(), who.sub)
      ensures p.Some? ==> Seated(old(Tables()), who.sub) && TakesUpSeat(old(View()), View(), who, p.value)
    {
      var held := FindSeated(who.sub);
      if held.None? { return None; }
      var (i, d) := held.value;
      SetOccupant(i, d, rooms[i].seats[d].(connected := true, disconnectedAt := None, name := who.name));
      return Some(Placement(i, Some(d)));
    }

    /** The first table where `sub` sits, and a seat they have there. */
    method FindSeated(sub: string) returns (r: Option<(nat, Direction)>)
      requires Valid()
      ensures match r
              case None => !Seated(Tables(), sub)
              case Some((i, d)) =>
                && HoldsSeat(Tables(), i, d, sub)
                && forall j: nat, e :: j < i ==> !HoldsSeat(Tables(), j, e, sub)
    {
      for i := 0 to |rooms|
        invariant forall j: nat, d :: j < i ==> !HoldsSeat(Tables(), j, d, sub)
      {
        var held := SeatOf(i, sub);
        if held.Some? { return Some((i, held.value)); }
      }
      return None;
    }

    /** Use up a live reservation for the guest at table `i`, and take its seat unless a person is in it. */
    method RedeemAt(i: nat, who: Guest) returns (r: Option<Direction>)
      requires Valid() && i < |rooms|
      modifies (set r | r in rooms)`seats, (set r | r in rooms)`noBot, (set r | r in rooms)`reservations
      ensures forall j :: 0 <= j < |rooms| && j != i ==> Tables()[j] == old(Tables())[j]
      ensures r.None? ==> PassedOver(old(Tables())[i], Tables()[i], who)
      ensures r.Some? ==> Redeemed(old(Tables())[i], Tables()[i], r.value, who)
    {
      var room := rooms[i];
      if d :| d in room.reservations && ReservedFor(room.Seats(), d, who) {
        ghost var before := room.Seats();
        var _ := room.CancelReservation(d);
        var ok := room.TrySeat(d, who.sub, who.name);
        if ok { return Some(d); }
        UsedUpIsPassedOver(before, room.Seats(), d, who);
        return None;
      }
      UnreservedIsPassedOver(room.Seats(), who);
      return None;
    }

    /** Redeem a live reservation at the first table that has one whose seat is free. */
    method Redeem(who: Guest) returns (p: Option<Placement>)
      requires Valid()
      modifies (set r | r in rooms)`seats, (set r | r in rooms)`noBot, (set r | r in rooms)`reservations
      ensures p.None? ==> AllPassedOver(old(Tables()), Tables(), who)
      ensures p.Some? ==> TakesReserved(old(View()), View(), who, p.value)
    {
      for i := 0 to |rooms|
        invariant forall j :: 0 <= j < i ==> PassedOver(old(Tables())[j], Tables()[j], who)
        invariant forall j :: i <= j < |rooms| ==> Tables()[j] == old(Tables())[j]
      {
        var r := RedeemAt(i, who);
        if r.Some? { return Some(Placement(i, r)); }
      }
      return None;
    }

    /** A returning lobby member keeps their table and their parked state, under the name they now give. */
    method ReturnToLobby(who: Guest) returns (p: Option<Placement>)
      requires Valid()
      modifies this`rooms, this`kibitzers
      ensures Valid() && old(rooms) <= rooms
      ensures who.sub in old(kibitzers) ==> p.Some? && WatchesAgain(old(View()), View(), who, p.value)
      ensures who.sub !in old(kibitzers) ==> p.None? && rooms == old(rooms) && View() == old(View())
    {
      if who.sub !in kibitzers { return None; }
      kibitzers := kibitzers[who.sub := kibitzers[who.sub].(name := who.name)];
      var room := kibitzers[who.sub].room;
      if room.Some? && room.value < |rooms| {
        return Some(Placement(room.value, None));
      }
      var _ := WatchTable();
      return Some(Placement(0, None));
    }

    /** A guest back under a new sub takes over a disconnected seat that bears the same name. */
    method ReclaimByName(who: Guest) returns (p: Option<Placement>)
      requires Valid()
      modifies (set r | r in rooms)`seats
      ensures p.None? ==> Tables() == old(Tables()) && NoGhostNamed(Tables(), who.name)
      ensures p.Some? ==> !NoGhostNamed(old(Tables()), who.name) && TakesGhostSeat(old(View()), View(), who, p.value)
    {
      for i := 0 to |rooms|
        invariant Tables() == old(Tables())
        invariant forall j, d :: 0 <= j < i ==> !GhostNamed(Tables()[j], d, who.name)
      {
        var room := rooms[i];
        if d :| d in room.seats && GhostNamed(room.Seats(), d, who.name) {
          assert GhostNamed(Tables()[i], d, who.name);
          SetOccupant(i, d, room.seats[d].(sub := who.sub, connected := true, disconnectedAt := None));
          return Some(Placement(i, Some(d)));
        }
      }
      return None;
    }

    /** Someone this session already knows: by seat, reservation, lobby entry or a ghost's name, in that order. */
    method PlaceKnown(who: Guest) returns (p: Option<Placement>, ghost passed: Hall)
      requires Valid()
      modifies this`rooms, this`kibitzers
      modifies (set r | r in rooms)`seats, (set r | r in rooms)`noBot, (set r | r in rooms)`reservations
      ensures Valid() && old(rooms) <= rooms && (p.None? ==> rooms == old(rooms))
      ensures Known(old(View()), passed, View(), who, p)
    {
      passed := View();
      p := Reconnect(who);
      if p.Some? { return; }
      p := Redeem(who);
      if p.Some? { return; }
      passed := View();
      p := LobbyOrReclaim(who);
    }

    method LobbyOrReclaim(who: Guest) returns (p: Option<Placement>)
      requires Valid()
      modifies this`rooms, this`kibitzers, (set r | r in rooms)`seats
      ensures Valid() && old(rooms) <= rooms && (p.None? ==> rooms == old(rooms))
      ensures LobbyOrGhost(old(View()), View(), who, p)
    {
      p := ReturnToLobby(who);
      if p.None? {
        p := ReclaimByName(who);
      }
    }

    /** The waiting lobby, where the teacher's bulk seating finds them. */
    method WaitInLobby(who: Guest) returns (p: Placement)
      requires Valid()
      modifies this`rooms, this`kibitzers
      ensures Valid() && old(rooms) <= rooms && p == Placement(0, None)
      ensures View() == Hall(FirstOr(old(Tables())), old(kibitzers)[who.sub := Kibitzer(who.name, Some(0), false)])
    {
      var _ := WatchTable();
      kibitzers := kibitzers[who.sub := Kibitzer(who.name, Some(0), false)];
      return Placement(0, None);
    }

    /** Someone new: the seat an invite link asks for, else a seat by policy, else the waiting lobby. */
    method PlaceNew(who: Guest, requested: Option<Direction>) returns (p: Placement)
      requires Valid()
      modifies this`rooms, this`kibitzers, this`nextArrival, (set r | r in rooms)`seats, (set r | r in rooms)`noBot
      ensures Valid() && old(rooms) <= rooms
      ensures Admitted(old(View()), View(), who, Admission(policy, waitToSeat, old(nextArrival), requested), p)
    {
      if policy.Manual? && requested.Some? {
        var ok := SeatAtFirst(requested.value, who);
        if ok { return Placement(0, requested); }
      }
      p := SeatOrWait(who, requested);
    }

    method SeatByPolicy(who: Guest, ghost requested: Option<Direction>) returns (p: Placement)
      requires Valid() && !policy.Manual? && !waitToSeat
      modifies this`rooms, this`nextArrival, (set r | r in rooms)`seats, (set r | r in rooms)`noBot
      ensures Valid() && old(rooms) <= rooms
      ensures Admitted(old(View()), View(), who, Admission(policy, waitToSeat, old(nextArrival), requested), p)
    {
      ghost var before, next := View(), nextArrival;
      var i, seat := SeatOne(policy, who);
      p := Placement(i, Some(seat));
      AdmittedToSeat(before, View(), who, Admission(policy, waitToSeat, next, requested), p);
    }

    method SeatOrWait(who: Guest, requested: Option<Direction>) returns (p: Placement)
      requires Valid()
      requires policy.Manual? && requested.Some? ==> requested.value in FirstOr(Tables())[0].seats
      modifies this`rooms, this`kibitzers, this`nextArrival, (set r | r in rooms)`seats, (set r | r in rooms)`noBot
      ensures Valid() && old(rooms) <= rooms
      ensures Admitted(old(View()), View(), who, Admission(policy, waitToSeat, old(nextArrival), requested), p)
    {
      if !waitToSeat && !policy.Manual? {
        p := SeatByPolicy(who, requested);
      } else {
        p := WaitInLobby(who);
      }
    }

    method PlaceKnownOrNew(who: Guest, requested: Option<Direction>) returns (p: Placement, ghost passed: Hall)
      requires Valid()
      modifies this`rooms, this`kibitzers, this`nextArrival
      modifies (set r | r in rooms)`seats, (set r | r in rooms)`noBot, (set r | r in rooms)`reservations
      ensures Valid() && old(rooms) <= rooms
      ensures PlacedBy(old(View()), passed, View(), who, Admission(policy, waitToSeat, old(nextArrival), requested), p)
    {
      var known;
      known, passed := PlaceKnown(who);
      if known.Some? { return known.value, passed; }
      KnownIsSafe(old(View()), passed, View(), who, None);
      p := PlaceNew(who, requested);
    }

    /** Place someone who connects. An adhoc owner is seated South if no live person is there. */
    method PlaceSeat(who: Guest, requested: Option<Direction>)
      returns (p: Placement, ghost start: Hall, ghost passed: Hall)
      requires Valid()
      modifies this`rooms, this`kibitzers, this`nextArrival
      modifies (set r | r in rooms)`seats, (set r | r in rooms)`noBot, (set r | r in rooms)`reservations
      ensures Valid() && old(rooms) <= rooms
      ensures Undisturbed(old(Tables()), Tables()) && Arrived(View(), who, p)
      ensures if kind == Adhoc && who.sub == ownerSub
              then AllGhostsFreed(old(Tables()), start.tables) && start.lobby == old(kibitzers)
              else start == old(View())
      ensures if kind == Adhoc && who.sub == ownerSub && SouthFreeForOwner(old(Tables()))
              then OwnerSeated(start, View(), who, p)
              else PlacedBy(start, passed, View(), who, Admission(policy, waitToSeat, old(nextArrival), requested), p)
    {
      start, passed := View(), View();
      ghost var before := View();
      if kind == Adhoc && who.sub == ownerSub {
        var resumed, swept := ResumeOwner(who);
        start := Hall(swept, kibitzers);
        GhostsOnly(before.tables, swept);
        if resumed.Some? {
          p := resumed.value;
          OwnerSeatedIsSafe(before.tables, start, View(), who, p);
          return;
        }
      }
      p, passed := PlaceKnownOrNew(who, requested);
      ArrivalIsSafe(start, passed, View(), who, Admission(policy, waitToSeat, old(nextArrival), requested), p);
      UndisturbedChains(before.tables, start.tables, Tables());
    }

    // ── The host's seat control ──

    method HoldsAnySeat(sub: string) returns (b: bool)
      requires Valid()
      ensures b <==> Seated(Tables(), sub)
    {
      var held := FindSeated(sub);
      return held.Some?;
    }

    /** Park someone put out of a seat, if they are connected and sit nowhere else. */
    method Bench(occ: Option<Occupant>, i: nat)
      requires Valid()
      modifies this`kibitzers
      ensures View() == old(View()).(lobby := Benched(old(View()), occ, i))
    {
      if occ.Some? && occ.value.connected {
        var sits := HoldsAnySeat(occ.value.sub);
        if !sits {
          kibitzers := kibitzers[occ.value.sub := Kibitzer(occ.value.name, Some(i), true)];
        }
      }
    }

    method RemoveFromSeat(i: nat, f: Direction, seatBot: bool) returns (changed: bool)
      requires Valid() && i < |rooms|
      modifies this`kibitzers, (set r | r in rooms)`seats, (set r | r in rooms)`noBot
      ensures View() == RemovedFrom(old(View()), i, f, seatBot)
      ensures changed <==> Tables()[i] != old(Tables())[i]
    {
      var removed;
      removed, changed := EmptySeatAt(i, f, seatBot);
      Bench(removed, i);
    }

    method EmptySeatAt(i: nat, f: Direction, seatBot: bool) returns (removed: Option<Occupant>, changed: bool)
      requires Valid() && i < |rooms|
      modifies (set r | r in rooms)`seats, (set r | r in rooms)`noBot
      ensures Valid() && Tables() == old(Tables())[i := Removed(old(Tables())[i], f, seatBot)]
      ensures removed == old(Tables())[i].Seat(f).occ
      ensures changed <==> Tables()[i] != old(Tables())[i]
    {
      removed, changed := EmptySeat(rooms[i], f, seatBot);
    }

    method VacateSeat(i: nat, f: Direction, seatBot: bool) returns (changed: bool)
      requires Valid() && i < |rooms|
      modifies this`kibitzers, (set r | r in rooms)`seats, (set r | r in rooms)`noBot
      ensures View() == RemovedFrom(old(View()), i, f, seatBot) && KeepsEveryone(old(View()), View())
      ensures TakenOut(old(View()), View(), i, f, seatBot)
      ensures changed <==> Tables()[i] != old(Tables())[i]
    {
      ghost var before := View();
      changed := RemoveFromSeat(i, f, seatBot);
      RemovalLosesNobody(before, i, f, seatBot);
    }

    method MoveOrSwap(i: nat, f: Direction, t: Direction) returns (r: Result<bool, AssignError>)
      requires Valid() && i < |rooms|
      modifies (set r | r in rooms)`seats, (set r | r in rooms)`noBot
      ensures f == t ==> r == Ok(false)
      ensures f != t ==> r == if f in old(Tables())[i].seats then Ok(true) else Err(SeatIsEmpty)
      ensures KeepsEveryone(old(View()), View())
      ensures r != Ok(true) ==> Tables() == old(Tables())
      ensures r == Ok(true) ==>
                && Tables() == old(Tables())[i := Tables()[i]]
                && Exchanged(old(Tables())[i], Tables()[i], f, t)
    {
      if f == t { return Ok(false); }
      var room := rooms[i];
      if f !in room.seats { return Err(SeatIsEmpty); }
      ghost var before := View();
      ExchangeSeats(room, f, t);
      ExchangeLosesNobody(before, View(), i, f, t);
      return Ok(true);
    }

    method GiveSeatTo(i: nat, t: Direction, sub: string, name: string)
      requires Valid() && i < |rooms|
      modifies this`kibitzers, (set r | r in rooms)`seats, (set r | r in rooms)`noBot
      ensures View() == GivenAt(old(View()), i, t, sub, name)
    {
      kibitzers := kibitzers - {sub};
      var displaced := GiveSeatAt(i, t, Occupant(sub, name, true, None));
      Bench(displaced, i);
    }

    method GiveSeatAt(i: nat, t: Direction, occ: Occupant) returns (displaced: Option<Occupant>)
      requires Valid() && i < |rooms|
      modifies (set r | r in rooms)`seats, (set r | r in rooms)`noBot
      ensures Valid() && Tables() == old(Tables())[i := Given(old(Tables())[i], t, occ)]
      ensures displaced == old(Tables())[i].Seat(t).occ
    {
      displaced := GiveSeat(rooms[i], t, occ);
    }

    method PlaceByToken(i: nat, t: Direction, token: string) returns (r: Result<bool, AssignError>)
      requires Valid() && i < |rooms|
      modifies this`kibitzers, (set r | r in rooms)`seats, (set r | r in rooms)`noBot
      ensures token !in connections ==> r == Err(UnknownToken)
      ensures token in connections ==>
                r == Ok(!HoldsSeat(old(Tables()), i, t, connections[token].sub))
      ensures KeepsEveryone(old(View()), View())
      ensures r != Ok(true) ==> View() == old(View())
      ensures r == Ok(true) ==>
                && View() == GivenAt(old(View()), i, t, connections[token].sub, connections[token].name)
                && PutIn(old(View()), View(), i, t, connections[token].sub, connections[token].name)
    {
      if token !in connections { return Err(UnknownToken); }
      var sub, name := connections[token].sub, connections[token].name;
      if t in rooms[i].seats && rooms[i].seats[t].sub == sub { return Ok(false); }
      ghost var before := View();
      GiveSeatTo(i, t, sub, name);
      PlacingLosesNobody(before, i, t, sub, name);
      return Ok(true);
    }

    /** The host vacates a seat, moves or swaps occupants, or seats a connection. The result says whether
        anything changed. */
    method AssignSeat(
      table: Option<nat>, target: Option<Direction>, from: Option<Direction>, token: Option<string>, seatBot: bool)
      returns (r: Result<bool, AssignError>)
      requires Valid()
      modifies this`kibitzers, (set r | r in rooms)`seats, (set r | r in rooms)`noBot
      ensures KeepsEveryone(old(View()), View())
      ensures r.Err? ==> View() == old(View())
      ensures var i := table.GetOr(0);
              if i >= |rooms| then r == Err(UnknownTable)
              else match (from, target, token)
                case (Some(f), None, _) =>
                  && View() == RemovedFrom(old(View()), i, f, seatBot)
                  && TakenOut(old(View()), View(), i, f, seatBot)
                  && r == Ok(Tables()[i] != old(Tables())[i])
                case (Some(f), Some(t), _) =>
                  && r == (if f == t then Ok(false)
                           else if f in old(Tables())[i].seats then Ok(true)
                           else Err(SeatIsEmpty))
                  && (r == Ok(true) ==> View() == old(View()).(tables := old(Tables())[i := Tables()[i]])
                                        && Exchanged(old(Tables())[i], Tables()[i], f, t))
                  && (r != Ok(true) ==> View() == old(View()))
                case (None, Some(t), Some(tok)) =>
                  if tok !in connections then r == Err(UnknownToken)
                  else
                    && r == Ok(!HoldsSeat(old(Tables()), i, t, connections[tok].sub))
                    && View() == (if r.value
                                  then GivenAt(old(View()), i, t, connections[tok].sub, connections[tok].name)
                                  else old(View()))
                    && (r.value ==> PutIn(old(View()), View(), i, t, connections[tok].sub, connections[tok].name))
                case _ => r == Err(BadRequest)
    {
      var i := table.GetOr(0);
      if i >= |rooms| { return Err(UnknownTable); }
      match (from, target, token) {
        case (Some(f), None, _) =>
          var changed := VacateSeat(i, f, seatBot);
          return Ok(changed);
        case (Some(f), Some(t), _) =>
          r := MoveOrSwap(i, f, t);
        case (None, Some(t), Some(tok)) =>
          r := PlaceByToken(i, t, tok);
        case _ => return Err(BadRequest);
      }
    }
  }

  /** Vacate a seat and leave it open or to a bot. */
  method EmptySeat(room: Room, f: Direction, seatBot: bool) returns (removed: Option<Occupant>, changed: bool)
    modifies room`seats, room`noBot
    ensures room.Seats() == Removed(old(room.Seats()), f, seatBot)
    ensures removed == old(room.Seats()).Seat(f).occ
    ensures changed <==> room.Seats() != old(room.Seats())
  {
    var wasEmpty := f in room.noBot;
    removed := room.Vacate(f);
    if seatBot { room.SetBot(f); } else { room.SetEmpty(f); }
    changed := removed.Some? || wasEmpty != (f in room.noBot);
    if !changed {
      assert room.seats == old(room.seats) && room.noBot == old(room.noBot);
    }
  }

  /** Move the occupant of `f` to `t`; anyone at `t` goes to `f`. */
  method ExchangeSeats(room: Room, f: Direction, t: Direction)
    requires f != t && f in room.seats
    modifies room`seats, room`noBot
    ensures Exchanged(old(room.Seats()), room.Seats(), f, t)
  {
    var fromOcc := room.seats[f];
    if t in room.seats {
      var targetOcc := room.seats[t];
      SwapExchanges(room.Seats(), f, t);
      var _ := room.Vacate(f);
      var _ := room.Vacate(t);
      var _ := room.TryPlace(t, fromOcc);
      var _ := room.TryPlace(f, targetOcc);
    } else {
      MoveExchanges(room.Seats(), f, t);
      var _ := room.Vacate(f);
      var _ := room.TryPlace(t, fromOcc);
    }
  }

  lemma {:induction false} MoveExchanges(s: Seating, f: Direction, t: Direction)
    requires f != t && f in s.seats && t !in s.seats
    ensures Exchanged(s, s.Vacated(f).Placed(t, s.seats[f]), f, t)
  {
  }

  lemma {:induction false} SwapExchanges(s: Seating, f: Direction, t: Direction)
    requires f != t && f in s.seats && t in s.seats
    ensures Exchanged(s, s.Vacated(f).Vacated(t).Placed(t, s.seats[f]).Placed(f, s.seats[t]), f, t)
  {
    var after := Seating(s.seats[f := s.seats[t]][t := s.seats[f]], s.noBot - {t} - {f}, s.reservations);
    SwappedSeats(s, f, t);
    forall d | d in s.seats ensures Exchange(d, f, t) in after.seats && after.seats[Exchange(d, f, t)] == s.seats[d] {
    }
  }

  lemma {:induction false} SwappedSeats(s: Seating, f: Direction, t: Direction)
    requires f != t && f in s.seats && t in s.seats
    ensures s.Vacated(f).Vacated(t).Placed(t, s.seats[f]).Placed(f, s.seats[t]) ==
            Seating(s.seats[f := s.seats[t]][t := s.seats[f]], s.noBot - {t} - {f}, s.reservations)
  {
  }

  method GiveSeat(room: Room, t: Direction, occ: Occupant) returns (displaced: Option<Occupant>)
    modifies room`seats, room`noBot
    ensures room.Seats() == Given(old(room.Seats()), t, occ)
    ensures displaced == old(room.Seats()).Seat(t).occ
  {
    displaced := None;
    if t in room.seats {
      displaced := room.Vacate(t);
    }
    var _ := room.TryPlace(t, occ);
  }
}
