/** What happens to a session's tables and lobby when someone arrives or is moved (src/sessions.rs). */
module Placing {
  import opened Bridge
  import opened Rooms
  import opened SeatFill

  // ── Data ───────────────────────────────────────────────────────────────

  /** Someone connected but unseated; `parked` people are never seated automatically. */
  datatype Kibitzer = Kibitzer(name: string, room: Option<nat>, parked: bool)

  /** The seats at every table, and the lobby. Tables are only ever added, so an index names one for good. */
  datatype Hall = Hall(tables: seq<Seating>, lobby: map<string, Kibitzer>)

  /** Someone connecting at instant `now`. */
  datatype Guest = Guest(sub: string, name: string, now: int) {
    function Here(): Occupant { Occupant(sub, name, true, None) }
  }

  /** Where an arriving connection ends up: a table, and a seat there unless it waits. */
  datatype Placement = Placement(room: nat, seat: Option<Direction>)

  /** How the session admits people it does not know. */
  datatype Admission = Admission(policy: SeatPolicy, wait: bool, next: nat, requested: Option<Direction>)

  // ── One table ──────────────────────────────────────────────────────────

  /** Seats whose occupant's connection is down are emptied. */
  function NoGhosts(s: Seating): Seating {
    s.(seats := map d | d in s.seats && s.seats[d].connected :: s.seats[d])
  }

  predicate ReservedFor(s: Seating, d: Direction, who: Guest) {
    d in s.reservations && s.reservations[d].sub == who.sub && s.reservations[d].expiresAt > who.now
  }

  predicate GhostNamed(s: Seating, d: Direction, name: string) {
    d in s.seats && !s.seats[d].connected && s.seats[d].name == name
  }

  /** The same people in the same seats, and the same seats open; reservations may differ. */
  predicate SameOccupants(a: Seating, b: Seating) { a.seats == b.seats && a.noBot == b.noBot }

  ghost predicate Reserves(s: Seating, who: Guest) { exists d :: ReservedFor(s, d, who) }

  /** The table keeps a seat for the guest, and nobody sits in any seat it keeps for them. */
  ghost predicate KeepsSeatFor(s: Seating, who: Guest) {
    Reserves(s, who) && forall d :: ReservedFor(s, d, who) ==> d !in s.seats
  }

  /** The guest took the free seat kept for them, and the reservation is gone. */
  predicate Redeemed(before: Seating, after: Seating, d: Direction, who: Guest) {
    && ReservedFor(before, d, who) && d !in before.seats
    && after == before.(reservations := before.reservations - {d}).Placed(d, who.Here())
  }

  /** The table kept no seat the guest could have; at most a reservation of theirs was used up. */
  ghost predicate PassedOver(before: Seating, after: Seating, who: Guest) {
    && !KeepsSeatFor(before, who)
    && SameOccupants(before, after)
    && (!Reserves(before, who) ==> after == before)
  }

  /** Sweeping expired reservations first changes nothing for a guest: they do not count either way. */
  lemma {:induction false} SweptIsUnreserved(s: Seating, d: Direction, who: Guest)
    ensures ReservedFor(s.Swept(who.now), d, who) <==> ReservedFor(s, d, who)
    ensures ReservedFor(s, d, who) <==>
            s.Seat(d).kept.Some? && s.Seat(d).kept.value.sub == who.sub && who.now < s.Seat(d).kept.value.expiresAt
  {
  }

  lemma {:induction false} UsedUpIsPassedOver(before: Seating, after: Seating, d: Direction, who: Guest)
    requires ReservedFor(before, d, who) && d in before.seats && SameOccupants(before, after)
    ensures PassedOver(before, after, who)
  {
  }

  lemma {:induction false} UnreservedIsPassedOver(s: Seating, who: Guest)
    requires forall d :: d in s.reservations ==> !ReservedFor(s, d, who)
    ensures PassedOver(s, s, who)
  {
  }

  // ── All tables ─────────────────────────────────────────────────────────

  /** The tables, or one empty table if there are none. */
  function FirstOr(tables: seq<Seating>): (r: seq<Seating>)
    ensures r != []
  {
    if tables == [] then [EMPTY] else tables
  }

  function SeatedFirst(tables: seq<Seating>, d: Direction, occ: Occupant): seq<Seating> {
    SeatedAt(FirstOr(tables), 0, d, occ)
  }

  /** Seat `d` at table `i` is the guest's, connected. */
  function SeatTaken(tables: seq<Seating>, i: nat, d: Direction, who: Guest): seq<Seating>
    requires i < |tables|
  {
    tables[i := tables[i].Rebound(d, who.sub, who.name)]
  }

  ghost predicate AllGhostsFreed(before: seq<Seating>, after: seq<Seating>) {
    |before| == |after| && forall j :: 0 <= j < |before| ==> after[j] == NoGhosts(before[j])
  }

  ghost predicate AllPassedOver(before: seq<Seating>, after: seq<Seating>, who: Guest) {
    |before| == |after| && forall j :: 0 <= j < |before| ==> PassedOver(before[j], after[j], who)
  }

  ghost predicate NoGhostNamed(tables: seq<Seating>, name: string) {
    forall i, d :: 0 <= i < |tables| ==> !GhostNamed(tables[i], d, name)
  }

  ghost predicate Unreserved(tables: seq<Seating>, who: Guest) {
    forall i :: 0 <= i < |tables| ==> !Reserves(tables[i], who)
  }

  /** Dropped occupants are gone; everyone and everything else is where it was. */
  ghost predicate OnlyGhostsLeft(before: Seating, after: Seating) {
    forall d :: after.Seat(d) ==
                if before.Seat(d).occ.Some? && !before.Seat(d).occ.value.connected
                then before.Seat(d).(occ := None) else before.Seat(d)
  }

  /** South at the first table is free, held by a dropped connection, or there is no table yet. */
  predicate SouthFreeForOwner(tables: seq<Seating>) {
    tables == [] || South !in tables[0].seats || !tables[0].seats[South].connected
  }

  // ── The branches of an arrival ─────────────────────────────────────────

  /** The guest takes up a seat already theirs, at the first table where they have one. */
  ghost predicate TakesUpSeat(before: Hall, after: Hall, who: Guest, p: Placement) {
    && p.seat.Some? && HoldsSeat(before.tables, p.room, p.seat.value, who.sub)
    && (forall j: nat, d :: j < p.room ==> !HoldsSeat(before.tables, j, d, who.sub))
    && after == before.(tables := SeatTaken(before.tables, p.room, p.seat.value, who))
  }

  /** The guest takes a free seat reserved for them, at the first table that does not pass them over. */
  ghost predicate TakesReserved(before: Hall, after: Hall, who: Guest, p: Placement) {
    && p.seat.Some? && p.room < |before.tables| == |after.tables| && after.lobby == before.lobby
    && Redeemed(before.tables[p.room], after.tables[p.room], p.seat.value, who)
    && (forall j :: 0 <= j < p.room ==> PassedOver(before.tables[j], after.tables[j], who))
    && forall j :: p.room < j < |before.tables| ==> after.tables[j] == before.tables[j]
  }

  /** A lobby member goes back to the table they watched, if it is known, else to the first. */
  predicate WatchesAgain(before: Hall, after: Hall, who: Guest, p: Placement)
    requires who.sub in before.lobby
  {
    var k := before.lobby[who.sub];
    && p == Placement(if k.room.Some? && k.room.value < |before.tables| then k.room.value else 0, None)
    && after == Hall(FirstOr(before.tables), before.lobby[who.sub := k.(name := who.name)])
  }

  /** The guest takes over a dropped seat that bears their name, at the first table that has one. */
  ghost predicate TakesGhostSeat(before: Hall, after: Hall, who: Guest, p: Placement) {
    && p.seat.Some? && p.room < |before.tables|
    && GhostNamed(before.tables[p.room], p.seat.value, who.name)
    && (forall j, d :: 0 <= j < p.room ==> !GhostNamed(before.tables[j], d, who.name))
    && after == before.(tables := SeatTaken(before.tables, p.room, p.seat.value, who))
  }

  ghost predicate LobbyOrGhost(before: Hall, after: Hall, who: Guest, p: Option<Placement>) {
    if who.sub in before.lobby then p.Some? && WatchesAgain(before, after, who, p.value)
    else if !NoGhostNamed(before.tables, who.name) then p.Some? && TakesGhostSeat(before, after, who, p.value)
    else p.None? && after == before
  }

  /** Whether the session knows the guest, and then what it does with them; `passed` is the hall once
      reservations that led nowhere are used up. */
  ghost predicate Known(before: Hall, passed: Hall, after: Hall, who: Guest, p: Option<Placement>) {
    if Seated(before.tables, who.sub) then p.Some? && TakesUpSeat(before, after, who, p.value)
    else
      || (p.Some? && TakesReserved(before, after, who, p.value))
      || (&& AllPassedOver(before.tables, passed.tables, who) && passed.lobby == before.lobby
          && LobbyOrGhost(passed, after, who, p))
  }

  /** A guest the session does not know: the free seat an invite asks for, a seat by policy, or the lobby. */
  ghost predicate Admitted(before: Hall, after: Hall, who: Guest, how: Admission, p: Placement) {
    if how.policy.Manual? && how.requested.Some? && how.requested.value !in FirstOr(before.tables)[0].seats then
      && p == Placement(0, how.requested)
      && after == before.(tables := SeatedFirst(before.tables, how.requested.value, who.Here()))
    else if !how.policy.Manual? && !how.wait then
      && p.seat.Some? && after.lobby == before.lobby
      && Arrival(before.tables, after.tables, Cursor(how.policy, how.next), how.policy.Order(),
                 who.Here(), p.room, p.seat.value)
      && PolicyArrival(how.policy, before.tables, Cursor(how.policy, how.next), p.room, p.seat.value)
    else
      && p == Placement(0, None)
      && after == Hall(FirstOr(before.tables), before.lobby[who.sub := Kibitzer(who.name, Some(0), false)])
  }

  lemma {:induction false} AdmittedToSeat(before: Hall, after: Hall, who: Guest, how: Admission, p: Placement)
    requires !how.policy.Manual? && !how.wait && p.seat.Some? && after.lobby == before.lobby
    requires Arrival(before.tables, after.tables, Cursor(how.policy, how.next), how.policy.Order(),
                     who.Here(), p.room, p.seat.value)
    ensures Admitted(before, after, who, how, p)
  {
    ArrivalIsPolicys(before.tables, after.tables, Cursor(how.policy, how.next), how.policy,
                     who.Here(), p.room, p.seat.value);
  }

  ghost predicate PlacedBy(before: Hall, passed: Hall, after: Hall, who: Guest, how: Admission, p: Placement) {
    || Known(before, passed, after, who, Some(p))
    || (Known(before, passed, passed, who, None) && Admitted(passed, after, who, how, p))
  }

  /** The owner of a friends' table takes South at the first table. */
  ghost predicate OwnerSeated(before: Hall, after: Hall, who: Guest, p: Placement) {
    p == Placement(0, Some(South)) && after == before.(tables := SeatedFirst(before.tables, South, who.Here()))
  }

  lemma {:induction false} SouthFreed(before: seq<Seating>, swept: seq<Seating>)
    requires AllGhostsFreed(before, swept)
    ensures SouthFreeForOwner(before) <==> South !in FirstOr(swept)[0].seats
  {
    if before != [] { assert swept[0] == NoGhosts(before[0]); }
  }

  // ── What every arrival keeps ───────────────────────────────────────────

  /** Nobody live is moved, and no seat becomes both occupied and open. */
  ghost predicate Undisturbed(before: seq<Seating>, after: seq<Seating>) {
    LiveKept(before, after) && (AllConsistent(before) ==> AllConsistent(after))
  }

  ghost predicate SitsLive(tables: seq<Seating>, i: nat, d: Direction, sub: string) {
    HoldsSeat(tables, i, d, sub) && tables[i].seats[d].connected
  }

  /** The guest sits, connected, in the seat they were told, or watches a table from the lobby. */
  ghost predicate Arrived(h: Hall, who: Guest, p: Placement) {
    match p.seat
    case Some(d) => SitsLive(h.tables, p.room, d, who.sub)
    case None => p.room < |h.tables| && who.sub in h.lobby
  }

  lemma {:induction false} UndisturbedChains(a: seq<Seating>, b: seq<Seating>, c: seq<Seating>)
    requires Undisturbed(a, b) && Undisturbed(b, c)
    ensures Undisturbed(a, c)
  {
    LiveKeptChains(a, b, c);
  }

  lemma {:induction false} GhostsOnly(before: seq<Seating>, after: seq<Seating>)
    requires AllGhostsFreed(before, after)
    ensures Undisturbed(before, after)
    ensures forall j :: 0 <= j < |before| == |after| ==> OnlyGhostsLeft(before[j], after[j])
  {
    forall j | 0 <= j < |before| ensures OnlyGhostsLeft(before[j], after[j]) {
      assert after[j] == NoGhosts(before[j]);
    }
    forall i: nat, d, sub | HoldsSeat(before, i, d, sub) && before[i].seats[d].connected
      ensures HoldsSeat(after, i, d, sub) && after[i].seats[d].connected
    {
      assert after[i] == NoGhosts(before[i]);
    }
    forall i | AllConsistent(before) && 0 <= i < |after| ensures after[i].Consistent() {
      assert before[i].Consistent() && after[i].seats.Keys <= before[i].seats.Keys;
    }
  }

  lemma {:induction false} FirstKeeps(before: seq<Seating>, d: Direction, occ: Occupant)
    ensures Undisturbed(before, FirstOr(before)) && Undisturbed(before, SeatedFirst(before, d, occ))
  {
    var after := SeatedFirst(before, d, occ);
    forall i: nat, e, sub | HoldsSeat(before, i, e, sub) && before[i].seats[e].connected
      ensures HoldsSeat(after, i, e, sub) && after[i].seats[e].connected
    {
    }
  }

  /** Taking up one's own seat, or a dropped one, moves nobody live. */
  lemma {:induction false} TakenKeeps(before: seq<Seating>, i: nat, d: Direction, who: Guest)
    requires i < |before| && d in before[i].seats
    requires before[i].seats[d].sub == who.sub || !before[i].seats[d].connected
    ensures Undisturbed(before, SeatTaken(before, i, d, who)) && SitsLive(SeatTaken(before, i, d, who), i, d, who.sub)
  {
    assert before[i].Rebound(d, who.sub, who.name).seats.Keys == before[i].seats.Keys;
  }

  lemma {:induction false} ReservedKeeps(before: Hall, after: Hall, who: Guest, p: Placement)
    requires TakesReserved(before, after, who, p)
    ensures Undisturbed(before.tables, after.tables) && SitsLive(after.tables, p.room, p.seat.value, who.sub)
  {
    var b, a, i := before.tables, after.tables, p.room;
    forall j: nat, e, s | HoldsSeat(b, j, e, s) && b[j].seats[e].connected
      ensures HoldsSeat(a, j, e, s) && a[j].seats[e].connected
    {
      assert j < i ==> PassedOver(b[j], a[j], who);
    }
    forall j | AllConsistent(b) && 0 <= j < |a| ensures a[j].Consistent() {
      assert b[j].Consistent();
      assert j < i ==> PassedOver(b[j], a[j], who);
    }
  }

  lemma {:induction false} PassedOverKeeps(before: seq<Seating>, after: seq<Seating>, who: Guest)
    requires AllPassedOver(before, after, who)
    ensures Undisturbed(before, after)
    ensures Unreserved(before, who) ==> after == before
  {
    forall j: nat, e, s | HoldsSeat(before, j, e, s) && before[j].seats[e].connected
      ensures HoldsSeat(after, j, e, s) && after[j].seats[e].connected
    {
      assert PassedOver(before[j], after[j], who);
    }
    forall j | AllConsistent(before) && 0 <= j < |after| ensures after[j].Consistent() {
      assert before[j].Consistent() && PassedOver(before[j], after[j], who);
    }
    if Unreserved(before, who) {
      forall j | 0 <= j < |before| ensures after[j] == before[j] {
        assert PassedOver(before[j], after[j], who) && !Reserves(before[j], who);
      }
    }
  }

  lemma {:induction false} KnownIsSafe(before: Hall, passed: Hall, after: Hall, who: Guest, p: Option<Placement>)
    requires Known(before, passed, after, who, p)
    ensures Undisturbed(before.tables, after.tables)
    ensures p.Some? ==> Arrived(after, who, p.value)
    ensures p.None? ==> after == passed && AllPassedOver(before.tables, passed.tables, who)
  {
    if Seated(before.tables, who.sub) {
      TakenKeeps(before.tables, p.value.room, p.value.seat.value, who);
    } else if p.Some? && TakesReserved(before, after, who, p.value) {
      ReservedKeeps(before, after, who, p.value);
    } else {
      PassedOverKeeps(before.tables, passed.tables, who);
      LobbyOrGhostIsSafe(passed, after, who, p);
      UndisturbedChains(before.tables, passed.tables, after.tables);
    }
  }

  lemma {:induction false} LobbyOrGhostIsSafe(before: Hall, after: Hall, who: Guest, p: Option<Placement>)
    requires LobbyOrGhost(before, after, who, p)
    ensures Undisturbed(before.tables, after.tables)
    ensures p.Some? ==> Arrived(after, who, p.value)
  {
    FirstKeeps(before.tables, South, who.Here());
    if p.Some? && p.value.seat.Some? {
      TakenKeeps(before.tables, p.value.room, p.value.seat.value, who);
    }
  }

  lemma {:induction false} AdmittedIsSafe(before: Hall, after: Hall, who: Guest, how: Admission, p: Placement)
    requires Admitted(before, after, who, how, p)
    ensures Undisturbed(before.tables, after.tables) && Arrived(after, who, p)
  {
    if how.policy.Manual? || how.wait {
      FirstKeeps(before.tables, if how.requested.Some? then how.requested.value else South, who.Here());
    } else {
      ArrivalKeepsEveryone(before.tables, after.tables, Cursor(how.policy, how.next), how.policy.Order(),
                           who.Here(), p.room, p.seat.value);
    }
  }

  /** Whatever branch an arrival takes, nobody whose connection is up loses their seat, and the guest
      ends up connected in the seat they were told or in the lobby. */
  lemma {:induction false} ArrivalIsSafe(
    before: Hall, passed: Hall, after: Hall, who: Guest, how: Admission, p: Placement)
    requires PlacedBy(before, passed, after, who, how, p)
    ensures Undisturbed(before.tables, after.tables) && Arrived(after, who, p)
  {
    if Known(before, passed, after, who, Some(p)) {
      KnownIsSafe(before, passed, after, who, Some(p));
    } else {
      KnownIsSafe(before, passed, passed, who, None);
      AdmittedIsSafe(passed, after, who, how, p);
      UndisturbedChains(before.tables, passed.tables, after.tables);
    }
  }

  /** An owner who resumes displaces only ghosts, and all of them. */
  lemma {:induction false} OwnerSeatedIsSafe(before: seq<Seating>, swept: Hall, after: Hall, who: Guest, p: Placement)
    requires AllGhostsFreed(before, swept.tables) && SouthFreeForOwner(before) && OwnerSeated(swept, after, who, p)
    ensures Undisturbed(before, after.tables) && Arrived(after, who, p)
    ensures forall j :: 0 <= j < |before| == |swept.tables| ==> OnlyGhostsLeft(before[j], swept.tables[j])
    ensures p == Placement(0, Some(South)) && after.tables[0].seats[South] == Occupant(who.sub, who.name, true, None)
  {
    GhostsOnly(before, swept.tables);
    FirstKeeps(swept.tables, South, who.Here());
    UndisturbedChains(before, swept.tables, after.tables);
    SouthFreed(before, swept.tables);
  }

  // ── Which branch wins ──────────────────────────────────────────────────

  /** A seat outranks everything: the guest is back in a seat they held, and nothing else changes. */
  lemma {:induction false} SeatOutranksAll(
    before: Hall, passed: Hall, after: Hall, who: Guest, how: Admission, p: Placement)
    requires PlacedBy(before, passed, after, who, how, p) && Seated(before.tables, who.sub)
    ensures p.seat.Some? && p.room < |before.tables| && after.lobby == before.lobby
    ensures HeldBy(before.tables[p.room], p.seat.value, who.sub)
    ensures forall j, d :: 0 <= j < p.room ==> !HeldBy(before.tables[j], d, who.sub)
    ensures |after.tables| == |before.tables| && after.tables == before.tables[p.room := after.tables[p.room]]
    ensures forall d :: after.tables[p.room].Seat(d) ==
                        if d != p.seat.value then before.tables[p.room].Seat(d)
                        else before.tables[p.room].Seat(d).(occ := Some(Occupant(who.sub, who.name, true, None)))
  {
    forall j, d | 0 <= j < p.room ensures !HeldBy(before.tables[j], d, who.sub) {
      assert !HoldsSeat(before.tables, j, d, who.sub);
    }
  }

  predicate HeldBy(s: Seating, d: Direction, sub: string) {
    match s.Seat(d).occ
    case None => false
    case Some(occ) => occ.sub == sub
  }

  /** Some table keeps a free seat for the guest. */
  ghost predicate FreeSeatReserved(tables: seq<Seating>, who: Guest) {
    exists j, d :: 0 <= j < |tables| && FreeReserved(tables[j], d, who)
  }

  predicate FreeReserved(s: Seating, d: Direction, who: Guest) { ReservedFor(s, d, who) && d !in s.seats }

  /** No table holds more than one live reservation for the guest. */
  ghost predicate OneReservationEach(tables: seq<Seating>, who: Guest) {
    forall j, d, e :: 0 <= j < |tables| && ReservedFor(tables[j], d, who) && ReservedFor(tables[j], e, who) ==> d == e
  }

  /** `d` was free and kept for the guest, who now has it; nobody else's seat at the table changed. */
  ghost predicate SeatKeptIsTaken(before: Seating, after: Seating, who: Guest, d: Direction) {
    var kept := before.Seat(d).kept;
    && kept.Some? && kept.value.sub == who.sub && kept.value.expiresAt > who.now
    && before.Seat(d).occ.None?
    && after.Seat(d) == SeatState(Some(Occupant(who.sub, who.name, true, None)), false, None)
    && forall e :: e != d ==> after.Seat(e) == before.Seat(e)
  }

  /** An invite outranks the lobby. A guest with no seat gets a seat reserved for them if some table keeps
      one and no seat it keeps for them is occupied, and only if some free seat is reserved for them; with
      at most one reservation a table that is the same condition. */
  lemma {:induction false} InviteOutranksLobby(
    before: Hall, passed: Hall, after: Hall, who: Guest, how: Admission, p: Placement)
    requires PlacedBy(before, passed, after, who, how, p) && !Seated(before.tables, who.sub)
    ensures (exists j :: 0 <= j < |before.tables| && KeepsSeatFor(before.tables[j], who)) ==>
              TakesReserved(before, after, who, p)
    ensures TakesReserved(before, after, who, p) ==> FreeSeatReserved(before.tables, who)
    ensures OneReservationEach(before.tables, who) ==>
              (TakesReserved(before, after, who, p) <==> FreeSeatReserved(before.tables, who))
    ensures TakesReserved(before, after, who, p) ==>
              SeatKeptIsTaken(before.tables[p.room], after.tables[p.room], who, p.seat.value)
  {
    if j :| 0 <= j < |before.tables| && KeepsSeatFor(before.tables[j], who) {
      KeptIsNotPassedOver(before.tables, passed.tables, who, j);
    }
    if TakesReserved(before, after, who, p) {
      assert FreeReserved(before.tables[p.room], p.seat.value, who);
    }
    if OneReservationEach(before.tables, who) && FreeSeatReserved(before.tables, who) {
      var j, d :| 0 <= j < |before.tables| && FreeReserved(before.tables[j], d, who);
      assert KeepsSeatFor(before.tables[j], who);
      KeptIsNotPassedOver(before.tables, passed.tables, who, j);
    }
  }

  lemma {:induction false} KeptIsNotPassedOver(before: seq<Seating>, after: seq<Seating>, who: Guest, j: nat)
    requires j < |before|
    ensures KeepsSeatFor(before[j], who) ==> !AllPassedOver(before, after, who)
  {
    if AllPassedOver(before, after, who) {
      assert PassedOver(before[j], after[j], who);
    }
  }

  /** The lobby is sticky: a member with no seat and no reservation is never seated by reconnecting. */
  lemma {:induction false} LobbyIsSticky(
    before: Hall, passed: Hall, after: Hall, who: Guest, how: Admission, p: Placement)
    requires PlacedBy(before, passed, after, who, how, p)
    requires !Seated(before.tables, who.sub) && Unreserved(before.tables, who) && who.sub in before.lobby
    ensures WatchesAgain(before, after, who, p)
    ensures after.tables == if before.tables == [] then [EMPTY] else before.tables
    ensures var k, w := before.lobby[who.sub], after.lobby[who.sub];
            && p.seat.None?
            && (k.room.Some? && k.room.value < |before.tables| ==> p.room == k.room.value)
            && (k.room.None? || k.room.value >= |before.tables| ==> p.room == 0)
            && w.name == who.name && w.parked == k.parked && w.room == k.room
    ensures forall sub :: sub in before.lobby && sub != who.sub ==>
              sub in after.lobby && after.lobby[sub] == before.lobby[sub]
  {
    NothingReserved(before, passed, after, who, p);
  }

  /** A newcomer under a new sub takes over a dropped seat that bears their name, before any seat is given by
      policy: the first table with one, and nobody connected loses a seat. */
  lemma {:induction false} NameOutranksPolicy(
    before: Hall, passed: Hall, after: Hall, who: Guest, how: Admission, p: Placement, j: nat, d: Direction)
    requires PlacedBy(before, passed, after, who, how, p)
    requires !Seated(before.tables, who.sub) && Unreserved(before.tables, who) && who.sub !in before.lobby
    requires j < |before.tables| && DroppedAs(before.tables[j], d, who.name)
    ensures p.seat.Some? && p.room <= j && DroppedAs(before.tables[p.room], p.seat.value, who.name)
    ensures forall i, e :: 0 <= i < p.room ==> !DroppedAs(before.tables[i], e, who.name)
    ensures |after.tables| == |before.tables| && after.lobby == before.lobby
    ensures after.tables[p.room].Seat(p.seat.value) ==
            before.tables[p.room].Seat(p.seat.value).(occ := Some(Occupant(who.sub, who.name, true, None)))
  {
    NothingReserved(before, passed, after, who, p);
    forall i, e | 0 <= i < |before.tables|
      ensures GhostNamed(before.tables[i], e, who.name) <==> DroppedAs(before.tables[i], e, who.name)
    {
    }
    assert GhostNamed(before.tables[j], d, who.name);
  }

  /** Someone of that name sat at `d` when their connection dropped. */
  predicate DroppedAs(s: Seating, d: Direction, name: string) {
    match s.Seat(d).occ
    case None => false
    case Some(occ) => !occ.connected && occ.name == name
  }

  /** A stranger under a manual policy, or while the session waits to seat, gets the free seat an invite asks for,
      under a manual policy alone; otherwise they wait in the lobby, not parked. */
  lemma {:induction false} StrangerWaits(
    before: Hall, passed: Hall, after: Hall, who: Guest, how: Admission, p: Placement)
    requires PlacedBy(before, passed, after, who, how, p)
    requires !Seated(before.tables, who.sub) && Unreserved(before.tables, who)
    requires who.sub !in before.lobby && NoGhostNamed(before.tables, who.name)
    requires how.wait || how.policy.Manual?
    ensures var first := if before.tables == [] then EMPTY else before.tables[0];
            if how.policy.Manual? && how.requested.Some? && first.Seat(how.requested.value).occ.None? then
              && p == Placement(0, how.requested) && after.lobby == before.lobby
              && after.tables != []
              && after.tables[0].Seat(how.requested.value).occ == Some(Occupant(who.sub, who.name, true, None))
            else
              && p == Placement(0, None) && after.tables == (if before.tables == [] then [EMPTY] else before.tables)
              && who.sub in after.lobby
              && !after.lobby[who.sub].parked && after.lobby[who.sub].name == who.name
  {
    NothingReserved(before, passed, after, who, p);
  }

  /** A stranger who is seated automatically takes the round-robin pick; a table is opened only when
      every policy seat is taken. */
  lemma {:induction false} StrangerTakesPolicySeat(
    before: Hall, passed: Hall, after: Hall, who: Guest, how: Admission, p: Placement)
    requires PlacedBy(before, passed, after, who, how, p)
    requires !Seated(before.tables, who.sub) && Unreserved(before.tables, who)
    requires who.sub !in before.lobby && NoGhostNamed(before.tables, who.name)
    requires !how.wait && !how.policy.Manual?
    ensures p.seat.Some? && after.lobby == before.lobby
    ensures Arrival(before.tables, after.tables, Cursor(how.policy, how.next), how.policy.Order(),
                    who.Here(), p.room, p.seat.value)
    ensures PolicyArrival(how.policy, before.tables, Cursor(how.policy, how.next), p.room, p.seat.value)
  {
    NothingReserved(before, passed, after, who, p);
  }

  lemma {:induction false} NothingReserved(before: Hall, passed: Hall, after: Hall, who: Guest, p: Placement)
    requires Unreserved(before.tables, who)
    ensures !TakesReserved(before, after, who, p)
    ensures AllPassedOver(before.tables, passed.tables, who) ==> passed.tables == before.tables
  {
    if TakesReserved(before, after, who, p) {
      assert Reserves(before.tables[p.room], who);
    }
    if AllPassedOver(before.tables, passed.tables, who) {
      PassedOverKeeps(before.tables, passed.tables, who);
    }
  }

  // ── Strangers arriving one after another ───────────────────────────────

  datatype Visit = Visit(who: Guest, how: Admission, passed: Hall, placed: Placement)

  /** `halls[k + 1]` is `halls[k]` once the `k`-th guest is placed, seated automatically by `policy`. */
  ghost predicate VisitAt(halls: seq<Hall>, visits: seq<Visit>, policy: SeatPolicy, k: nat)
    requires k < |visits| && |halls| == |visits| + 1
  {
    var v := visits[k];
    && v.how.policy == policy && !v.how.wait
    && PlacedBy(halls[k], v.passed, halls[k + 1], v.who, v.how, v.placed)
  }

  /** All guests are different, nobody sits anywhere yet, nothing is reserved and no guest is in the lobby. */
  ghost predicate StrangersVisit(halls: seq<Hall>, visits: seq<Visit>, policy: SeatPolicy) {
    && |halls| == |visits| + 1
    && policy.WellFormed() && !policy.Manual?
    && (forall k :: 0 <= k < |visits| ==> VisitAt(halls, visits, policy, k))
    && (forall j, k :: 0 <= j < k < |visits| ==> visits[j].who.sub != visits[k].who.sub)
    && (forall k :: 0 <= k < |visits| ==> visits[k].who.sub !in halls[0].lobby)
    && (forall i :: 0 <= i < |halls[0].tables| ==>
          halls[0].tables[i].seats == map[] && halls[0].tables[i].reservations == map[])
  }

  ghost predicate EarlierGuest(visits: seq<Visit>, k: nat, sub: string)
    requires k <= |visits|
  {
    exists j :: 0 <= j < k && visits[j].who.sub == sub
  }

  /** Every seat taken is a live guest's, one of the first `k`. */
  ghost predicate OnlyGuests(tables: seq<Seating>, visits: seq<Visit>, k: nat)
    requires k <= |visits|
  {
    forall i :: 0 <= i < |tables| ==> OnlyGuestsAt(tables[i], visits, k)
  }

  ghost predicate OnlyGuestsAt(s: Seating, visits: seq<Visit>, k: nat)
    requires k <= |visits|
  {
    && s.reservations == map[]
    && forall d :: d in s.seats ==> s.seats[d].connected && EarlierGuest(visits, k, s.seats[d].sub)
  }

  lemma {:induction false} StrangerStep(halls: seq<Hall>, visits: seq<Visit>, policy: SeatPolicy, k: nat)
    requires StrangersVisit(halls, visits, policy) && k < |visits|
    requires OnlyGuests(halls[k].tables, visits, k) && halls[k].lobby == halls[0].lobby
    ensures visits[k].placed.seat.Some? && halls[k + 1].lobby == halls[0].lobby
    ensures Arrival(halls[k].tables, halls[k + 1].tables, Cursor(policy, visits[k].how.next), policy.Order(),
                    visits[k].who.Here(), visits[k].placed.room, visits[k].placed.seat.value)
    ensures OnlyGuests(halls[k + 1].tables, visits, k + 1)
  {
    var v, tables := visits[k], halls[k].tables;
    assert VisitAt(halls, visits, policy, k);
    assert forall i :: 0 <= i < |tables| ==> OnlyGuestsAt(tables[i], visits, k);
    assert !EarlierGuest(visits, k, v.who.sub);
    StrangerTakesPolicySeat(halls[k], v.passed, halls[k + 1], v.who, v.how, v.placed);
    GuestSitsDown(tables, halls[k + 1].tables, visits, policy, k);
  }

  lemma {:induction false} GuestSitsDown(
    before: seq<Seating>, after: seq<Seating>, visits: seq<Visit>, policy: SeatPolicy, k: nat)
    requires k < |visits| && OnlyGuests(before, visits, k) && visits[k].placed.seat.Some?
    requires Arrival(before, after, Cursor(policy, visits[k].how.next), policy.Order(),
                     visits[k].who.Here(), visits[k].placed.room, visits[k].placed.seat.value)
    ensures OnlyGuests(after, visits, k + 1)
  {
    var i, d, occ := visits[k].placed.room, visits[k].placed.seat.value, visits[k].who.Here();
    forall j | 0 <= j < |after| ensures OnlyGuestsAt(after[j], visits, k + 1) {
      var s := if j < |before| then before[j] else EMPTY;
      assert OnlyGuestsAt(s, visits, k);
      assert EarlierGuest(visits, k + 1, visits[k].who.sub);
      forall e | e in after[j].seats
        ensures after[j].seats[e].connected && EarlierGuest(visits, k + 1, after[j].seats[e].sub)
      {
        assert e in s.seats ==> EarlierGuest(visits, k, s.seats[e].sub);
      }
    }
  }

  lemma {:induction false} StrangersStayGuests(halls: seq<Hall>, visits: seq<Visit>, policy: SeatPolicy, k: nat)
    requires StrangersVisit(halls, visits, policy) && k <= |visits|
    ensures OnlyGuests(halls[k].tables, visits, k) && halls[k].lobby == halls[0].lobby
    decreases k
  {
    if k > 0 {
      StrangersStayGuests(halls, visits, policy, k - 1);
      StrangerStep(halls, visits, policy, k - 1);
    }
  }

  /** Tables grow only as the crowd needs: `k` strangers coming to `t0` empty tables, each offering `m`
      different policy seats, all sit, and end at the larger of `t0` and `k / m` rounded up. */
  lemma {:induction false} StrangersFillTables(halls: seq<Hall>, visits: seq<Visit>, policy: SeatPolicy)
    requires StrangersVisit(halls, visits, policy)
    ensures Distinct(policy.Order()) > 0
    ensures forall k :: 0 <= k < |visits| ==> VisitSeats(halls, visits, policy, k)
    ensures var t0, need := |halls[0].tables|, TablesFor(|visits|, Distinct(policy.Order()));
            |Last(halls).tables| == if t0 >= need then t0 else need
  {
    var runs, who := StrangersArrive(halls, visits, policy);
    TablesOpened(runs, policy.Order(), who);
  }

  /** The strangers' visits are arrivals at the round-robin pick. */
  lemma {:induction false} StrangersArrive(halls: seq<Hall>, visits: seq<Visit>, policy: SeatPolicy)
    returns (runs: seq<seq<Seating>>, who: seq<Arriving>)
    requires StrangersVisit(halls, visits, policy)
    ensures forall k :: 0 <= k < |visits| ==> VisitSeats(halls, visits, policy, k)
    ensures |runs| == |halls| && forall k :: 0 <= k < |halls| ==> runs[k] == halls[k].tables
    ensures |who| == |visits| && forall k :: 0 <= k < |who| ==> who[k].start == Cursor(policy, visits[k].how.next)
    ensures Arrivals(runs, policy.Order(), who)
  {
    forall k | 0 <= k < |visits| ensures VisitSeats(halls, visits, policy, k) {
      StrangersStayGuests(halls, visits, policy, k);
      StrangerStep(halls, visits, policy, k);
    }
    runs := seq(|halls|, i requires 0 <= i < |halls| => halls[i].tables);
    who := seq(|visits|, i requires 0 <= i < |visits| && VisitSeats(halls, visits, policy, i) =>
                           var v := visits[i];
                           Arriving(Cursor(policy, v.how.next), v.who.Here(), v.placed.room, v.placed.seat.value));
    forall k | 0 <= k < |who| ensures ArrivalAt(runs, policy.Order(), who, k) {
      assert VisitSeats(halls, visits, policy, k);
    }
  }

  /** Round robin is fair: with the cursor moving on by one an arrival, `k` strangers at `t0` empty tables
      with seats for them all leave every table with `k / t0` guests or one more, and open none. */
  lemma {:induction false} StrangersSpreadEvenly(halls: seq<Hall>, visits: seq<Visit>, policy: SeatPolicy, next: nat)
    requires StrangersVisit(halls, visits, policy) && !policy.Pairs?
    requires forall k :: 0 <= k < |visits| ==> visits[k].how.next == next + k
    requires halls[0].tables != [] && |visits| <= |halls[0].tables| * Distinct(policy.Order())
    ensures var t0 := |halls[0].tables|;
            && |Last(halls).tables| == t0
            && forall i :: 0 <= i < t0 ==> HoldsShare(Last(halls).tables[i], |visits|, t0)
  {
    var runs, who := StrangersArrive(halls, visits, policy);
    EvenSpread(runs, policy.Order(), who, next, |visits|);
    SpreadIsEven(runs[|visits|], next, |visits|);
  }

  ghost predicate VisitSeats(halls: seq<Hall>, visits: seq<Visit>, policy: SeatPolicy, k: nat)
    requires k < |visits| && |halls| == |visits| + 1
  {
    var v := visits[k];
    && v.placed.seat.Some?
    && Arrival(halls[k].tables, halls[k + 1].tables, Cursor(policy, v.how.next), policy.Order(),
               v.who.Here(), v.placed.room, v.placed.seat.value)
  }
}
