/** The host moving people between seats and the lobby (src/sessions.rs). */
module Assigning {
  import opened Bridge
  import opened Rooms
  import opened SeatFill
  import opened Placing

  /** Every sub in a live seat or in the lobby before is seated or in the lobby after. */
  ghost predicate NobodyLost(before: Hall, after: Hall) {
    forall sub :: LiveSeat(before.tables, sub) || sub in before.lobby ==>
      Seated(after.tables, sub) || sub in after.lobby
  }

  /** Nobody is lost, and no seat becomes both occupied and open. */
  ghost predicate KeepsEveryone(before: Hall, after: Hall) {
    NobodyLost(before, after) && (AllConsistent(before.tables) ==> AllConsistent(after.tables))
  }

  function Exchange(d: Direction, f: Direction, t: Direction): Direction {
    if d == f then t else if d == t then f else d
  }

  /** The same occupants, with those of `f` and `t` changed over; a seat someone moved into is not open. */
  ghost predicate Exchanged(before: Seating, after: Seating, f: Direction, t: Direction) {
    && (forall d :: d in before.seats <==> Exchange(d, f, t) in after.seats)
    && (forall d :: d in before.seats ==> after.seats[Exchange(d, f, t)] == before.seats[d])
    && after.noBot == before.noBot - {t} - (if t in before.seats then {f} else {})
    && after.reservations == before.reservations
  }

  /** Seat `f` is empty: open, or for a bot. */
  function Removed(s: Seating, f: Direction, seatBot: bool): Seating {
    Seating(s.seats - {f}, if seatBot then s.noBot - {f} else s.noBot + {f}, s.reservations)
  }

  /** Seat `t` is `occ`'s, whoever had it. */
  function Given(s: Seating, t: Direction, occ: Occupant): Seating {
    Seating(s.seats[t := occ], s.noBot - {t}, s.reservations)
  }

  /** The lobby once someone put out of a seat at table `i` is parked, if they are connected and sit nowhere else. */
  ghost function Benched(h: Hall, occ: Option<Occupant>, i: nat): map<string, Kibitzer> {
    if occ.Some? && occ.value.connected && !Seated(h.tables, occ.value.sub)
    then h.lobby[occ.value.sub := Kibitzer(occ.value.name, Some(i), true)]
    else h.lobby
  }

  // ── The same, seat by seat ─────────────────────────────────────────────

  /** `f` is vacant and a bot's or nobody's, as asked; every other seat is as it was, and a bot's if it was. */
  ghost predicate Emptied(before: Seating, after: Seating, f: Direction, seatBot: bool) {
    && after.Seat(f).occ.None? && after.Seat(f).kept == before.Seat(f).kept
    && (forall grace, onTurn, now :: after.BotControlled(grace, f, onTurn, now) <==> seatBot)
    && forall d :: d != f ==> SameSeat(before, after, d)
  }

  /** `t` is the occupant's; every other seat is as it was. */
  ghost predicate Occupied(before: Seating, after: Seating, t: Direction, sub: string, name: string) {
    && after.Seat(t) == SeatState(Some(Occupant(sub, name, true, None)), false, before.Seat(t).kept)
    && forall d :: d != t ==> SameSeat(before, after, d)
  }

  ghost predicate SameSeat(before: Seating, after: Seating, d: Direction) {
    && after.Seat(d) == before.Seat(d)
    && forall grace, onTurn, now ::
         after.BotControlled(grace, d, onTurn, now) <==> before.BotControlled(grace, d, onTurn, now)
  }

  /** Only table `i` may have changed. */
  ghost predicate OnlyTable(before: seq<Seating>, after: seq<Seating>, i: nat) {
    i < |before| == |after| && forall j :: 0 <= j < |before| && j != i ==> after[j] == before[j]
  }

  /** Whoever was put out of a seat at table `i` watches it from the lobby, parked under their own name, if they
      are connected and sit nowhere now; nobody else's lobby entry changed. */
  ghost predicate PutOut(lobby: map<string, Kibitzer>, after: Hall, occ: Option<Occupant>, i: nat) {
    var parks := occ.Some? && occ.value.connected && !Seated(after.tables, occ.value.sub);
    && (parks ==>
          && occ.value.sub in after.lobby
          && after.lobby[occ.value.sub].parked
          && after.lobby[occ.value.sub].room == Some(i) && after.lobby[occ.value.sub].name == occ.value.name)
    && forall sub :: !(parks && sub == occ.value.sub) ==>
         && (sub in after.lobby <==> sub in lobby)
         && (sub in lobby ==> after.lobby[sub] == lobby[sub])
  }

  lemma {:induction false} RemovedIsEmptied(s: Seating, f: Direction, seatBot: bool)
    ensures Emptied(s, Removed(s, f, seatBot), f, seatBot)
  {
  }

  lemma {:induction false} GivenIsOccupied(s: Seating, t: Direction, sub: string, name: string)
    ensures Occupied(s, Given(s, t, Occupant(sub, name, true, None)), t, sub, name)
  {
  }

  lemma {:induction false} BenchedIsPutOut(
    tables: seq<Seating>, lobby: map<string, Kibitzer>, occ: Option<Occupant>, i: nat)
    ensures PutOut(lobby, Hall(tables, Benched(Hall(tables, lobby), occ, i)), occ, i)
  {
  }

  /** What removing the occupant of `f` comes to. */
  ghost predicate TakenOut(before: Hall, after: Hall, i: nat, f: Direction, seatBot: bool) {
    && OnlyTable(before.tables, after.tables, i) && Emptied(before.tables[i], after.tables[i], f, seatBot)
    && PutOut(before.lobby, after, before.tables[i].Seat(f).occ, i)
  }

  /** What seating `sub` at `t` comes to: they leave the lobby, and whoever was there is put out. */
  ghost predicate PutIn(before: Hall, after: Hall, i: nat, t: Direction, sub: string, name: string) {
    && OnlyTable(before.tables, after.tables, i) && Occupied(before.tables[i], after.tables[i], t, sub, name)
    && PutOut(before.lobby - {sub}, after, before.tables[i].Seat(t).occ, i)
  }

  ghost function RemovedFrom(h: Hall, i: nat, f: Direction, seatBot: bool): Hall
    requires i < |h.tables|
  {
    var tables := h.tables[i := Removed(h.tables[i], f, seatBot)];
    Hall(tables, Benched(Hall(tables, h.lobby), h.tables[i].Seat(f).occ, i))
  }

  ghost function GivenAt(h: Hall, i: nat, t: Direction, sub: string, name: string): Hall
    requires i < |h.tables|
  {
    var tables := h.tables[i := Given(h.tables[i], t, Occupant(sub, name, true, None))];
    Hall(tables, Benched(Hall(tables, h.lobby - {sub}), h.tables[i].Seat(t).occ, i))
  }

  /** A seat other than `d` at table `i` is whose it was. */
  lemma {:induction false} OthersStay(before: seq<Seating>, after: seq<Seating>, i: nat, d: Direction, sub: string)
    requires i < |before| == |after| && after == before[i := after[i]]
    requires after[i].seats - {d} == before[i].seats - {d}
    requires LiveSeat(before, sub)
    ensures Seated(after, sub) || (d in before[i].seats && before[i].seats[d].sub == sub && before[i].seats[d].connected)
  {
    var j: nat, e :| HoldsSeat(before, j, e, sub) && before[j].seats[e].connected;
    if j != i || e != d {
      if j == i { assert e in before[i].seats - {d} && (before[i].seats - {d})[e] == (after[i].seats - {d})[e]; }
      assert HoldsSeat(after, j, e, sub);
    }
  }

  /** Emptying a seat benches its occupant unless they still sit somewhere. */
  lemma {:induction false} RemovalLosesNobody(h: Hall, i: nat, f: Direction, seatBot: bool)
    requires i < |h.tables|
    ensures KeepsEveryone(h, RemovedFrom(h, i, f, seatBot))
    ensures TakenOut(h, RemovedFrom(h, i, f, seatBot), i, f, seatBot)
  {
    RemovedIsEmptied(h.tables[i], f, seatBot);
    BenchedIsPutOut(RemovedFrom(h, i, f, seatBot).tables, h.lobby, h.tables[i].Seat(f).occ, i);
    var after := RemovedFrom(h, i, f, seatBot);
    forall sub | LiveSeat(h.tables, sub) ensures Seated(after.tables, sub) || sub in after.lobby {
      OthersStay(h.tables, after.tables, i, f, sub);
    }
  }

  /** Seating someone benches whoever was there, unless they still sit somewhere. */
  lemma {:induction false} PlacingLosesNobody(h: Hall, i: nat, t: Direction, sub: string, name: string)
    requires i < |h.tables|
    ensures KeepsEveryone(h, GivenAt(h, i, t, sub, name))
    ensures SitsLive(GivenAt(h, i, t, sub, name).tables, i, t, sub)
    ensures PutIn(h, GivenAt(h, i, t, sub, name), i, t, sub, name)
  {
    GivenIsOccupied(h.tables[i], t, sub, name);
    BenchedIsPutOut(GivenAt(h, i, t, sub, name).tables, h.lobby - {sub}, h.tables[i].Seat(t).occ, i);
    var after := GivenAt(h, i, t, sub, name);
    assert HoldsSeat(after.tables, i, t, sub);
    forall s | LiveSeat(h.tables, s) ensures Seated(after.tables, s) || s in after.lobby {
      OthersStay(h.tables, after.tables, i, t, s);
    }
  }

  /** Moving and swapping only change who sits where at one table. */
  lemma {:induction false} ExchangeLosesNobody(h: Hall, after: Hall, i: nat, f: Direction, t: Direction)
    requires i < |h.tables| == |after.tables| && f in h.tables[i].seats && f != t
    requires after == h.(tables := h.tables[i := after.tables[i]]) && Exchanged(h.tables[i], after.tables[i], f, t)
    ensures KeepsEveryone(h, after)
    ensures forall sub :: Seated(h.tables, sub) <==> Seated(after.tables, sub)
  {
    forall sub | Seated(h.tables, sub) ensures Seated(after.tables, sub) {
      var j: nat, d :| HoldsSeat(h.tables, j, d, sub);
      assert HoldsSeat(after.tables, j, if j == i then Exchange(d, f, t) else d, sub);
    }
    forall sub | Seated(after.tables, sub) ensures Seated(h.tables, sub) {
      var j: nat, d :| HoldsSeat(after.tables, j, d, sub);
      assert Exchange(Exchange(d, f, t), f, t) == d;
      assert HoldsSeat(h.tables, j, if j == i then Exchange(d, f, t) else d, sub);
    }
    if AllConsistent(h.tables) {
      assert h.tables[i].Consistent();
      forall d | d in after.tables[i].seats ensures d !in after.tables[i].noBot {
        assert Exchange(Exchange(d, f, t), f, t) == d;
      }
    }
  }
}
