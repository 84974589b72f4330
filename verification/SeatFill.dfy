/** Facts about the seats of several tables at once, and how arrivals fill them (src/sessions.rs). */
module SeatFill {
  import opened Bridge
  import opened Rooms

  const EMPTY := Seating(map[], {}, map[])

  // ── Who is where ───────────────────────────────────────────────────────

  ghost predicate HoldsSeat(tables: seq<Seating>, i: nat, d: Direction, sub: string) {
    i < |tables| && d in tables[i].seats && tables[i].seats[d].sub == sub
  }

  ghost predicate Seated(tables: seq<Seating>, sub: string) {
    exists i: nat, d :: HoldsSeat(tables, i, d, sub)
  }

  /** `sub` sits somewhere with its connection up. */
  ghost predicate LiveSeat(tables: seq<Seating>, sub: string) {
    exists i: nat, d :: HoldsSeat(tables, i, d, sub) && tables[i].seats[d].connected
  }

  /** Nobody whose connection is up loses the seat they hold. */
  ghost predicate LiveKept(before: seq<Seating>, after: seq<Seating>) {
    && |before| <= |after|
    && forall i: nat, d, sub :: HoldsSeat(before, i, d, sub) && before[i].seats[d].connected ==>
         HoldsSeat(after, i, d, sub) && after[i].seats[d].connected
  }

  ghost predicate AllConsistent(tables: seq<Seating>) {
    forall i :: 0 <= i < |tables| ==> tables[i].Consistent()
  }

  lemma {:induction false} LiveKeptChains(a: seq<Seating>, b: seq<Seating>, c: seq<Seating>)
    requires LiveKept(a, b) && LiveKept(b, c)
    ensures LiveKept(a, c)
  {
  }

  // ── Seat policies ──────────────────────────────────────────────────────

  datatype SeatPolicy = Manual | OnePerSeat(seats: seq<Direction>) | Pairs(sides: seq<Side>) | FirstFree {
    /** The parser refuses empty lists. */
    predicate WellFormed() { (OnePerSeat? ==> seats != []) && (Pairs? ==> sides != []) }

    /** The seats the policy fills, in order. */
    function Order(): (r: seq<Direction>)
      ensures WellFormed() ==> r != []
    {
      match this
      case OnePerSeat(seats) => seats
      case Pairs(sides) => SideOrder(sides)
      case _ => [South, West, North, East]
    }
  }

  /** South or West first. */
  function SideSeats(side: Side): seq<Direction> {
    match side
    case NS => [South, North]
    case EW => [West, East]
  }

  function SideOrder(sides: seq<Side>): (r: seq<Direction>)
    ensures |r| == 2 * |sides|
  {
    if sides == [] then [] else SideOrder(Init(sides)) + SideSeats(Last(sides))
  }

  predicate Full(s: Seating, order: seq<Direction>) { forall d :: d in order ==> d in s.seats }

  predicate FirstFreeAt(s: Seating, order: seq<Direction>, k: nat) {
    k < |order| && order[k] !in s.seats && Full(s, order[..k])
  }

  /** `d` is the first seat of `order` that is free. */
  ghost predicate FirstFreeSeat(s: Seating, order: seq<Direction>, d: Direction) {
    exists k: nat :: FirstFreeAt(s, order, k) && order[k] == d
  }

  // ── The policies spelled out ───────────────────────────────────────────

  /** The seat of a free side that is filled next: South before North, West before East. */
  predicate NextOfSide(s: Seating, side: Side, d: Direction) {
    match side
    case NS => d == South || (d == North && South in s.seats)
    case EW => d == West || (d == East && West in s.seats)
  }

  predicate SideFull(s: Seating, side: Side) {
    match side
    case NS => North in s.seats && South in s.seats
    case EW => East in s.seats && West in s.seats
  }

  ghost predicate SideNext(s: Seating, sides: seq<Side>, k: nat, d: Direction)
    requires k < |sides|
  {
    NextOfSide(s, sides[k], d) && forall j :: 0 <= j < k ==> SideFull(s, sides[j])
  }

  ghost predicate InSides(s: Seating, sides: seq<Side>, d: Direction) {
    exists k :: 0 <= k < |sides| && SideNext(s, sides, k, d)
  }

  ghost predicate ListNext(s: Seating, list: seq<Direction>, k: nat, d: Direction)
    requires k < |list|
  {
    list[k] == d && forall j :: 0 <= j < k ==> list[j] in s.seats
  }

  /** The free seat a policy gives next: of a list the first; of sides in turn, each South or West first; of a
      whole table South, West, North, East. */
  ghost predicate PolicySeat(shape: SeatPolicy, s: Seating, d: Direction) {
    d !in s.seats &&
    match shape
    case Manual => false
    case OnePerSeat(list) => exists k :: 0 <= k < |list| && ListNext(s, list, k, d)
    case Pairs(sides) => InSides(s, sides, d)
    case FirstFree =>
      match d
      case South => true
      case West => South in s.seats
      case North => South in s.seats && West in s.seats
      case East => South in s.seats && West in s.seats && North in s.seats
  }

  /** The policy has no seat left to give. */
  ghost predicate PolicyFull(shape: SeatPolicy, s: Seating) { forall d :: !PolicySeat(shape, s, d) }

  lemma {:induction false} ListSeat(s: Seating, list: seq<Direction>, d: Direction)
    ensures FirstFreeSeat(s, list, d) <==> d !in s.seats && exists k :: 0 <= k < |list| && ListNext(s, list, k, d)
  {
    if k: nat :| FirstFreeAt(s, list, k) && list[k] == d {
      forall j | 0 <= j < k ensures list[j] in s.seats { assert list[..k][j] in list[..k]; }
      assert ListNext(s, list, k, d);
    }
    if k :| d !in s.seats && 0 <= k < |list| && ListNext(s, list, k, d) {
      forall e | e in list[..k] ensures e in s.seats { var j :| 0 <= j < k && list[..k][j] == e; }
      assert FirstFreeAt(s, list, k);
    }
  }

  lemma {:induction false} SomeFirstFree(s: Seating, order: seq<Direction>)
    requires !Full(s, order)
    ensures exists d :: FirstFreeSeat(s, order, d)
  {
    var k := 0;
    while order[k] in s.seats
      invariant k <= |order| && Full(s, order[..k])
      invariant k == |order| ==> order[..k] == order
      decreases |order| - k
    {
      assert order[..k + 1] == order[..k] + [order[k]];
      k := k + 1;
    }
    assert FirstFreeAt(s, order, k);
    assert FirstFreeSeat(s, order, order[k]);
  }

  /** The first free seat of two lists is that of the first, or of the second once the first is full. */
  lemma {:induction false} FirstFreeOfBoth(s: Seating, a: seq<Direction>, b: seq<Direction>, d: Direction)
    ensures FirstFreeSeat(s, a + b, d) <==> FirstFreeSeat(s, a, d) || (Full(s, a) && FirstFreeSeat(s, b, d))
  {
    if FirstFreeSeat(s, a, d) { FirstInMiddle(s, [], a, a + b, d); }
    if Full(s, a) && FirstFreeSeat(s, b, d) { FirstInMiddle(s, a, b, a + b, d); }
    if k: nat :| FirstFreeAt(s, a + b, k) && (a + b)[k] == d {
      if k < |a| {
        assert (a + b)[..k] == a[..k];
        assert FirstFreeAt(s, a, k);
      } else {
        assert (a + b)[..k] == a + b[..k - |a|];
        assert forall e :: e in a ==> e in (a + b)[..k];
        assert forall e :: e in b[..k - |a|] ==> e in (a + b)[..k];
        assert FirstFreeAt(s, b, k - |a|);
      }
    }
  }

  lemma {:induction false} SideSeat(s: Seating, side: Side, d: Direction)
    ensures FirstFreeSeat(s, SideSeats(side), d) <==> d !in s.seats && NextOfSide(s, side, d)
    ensures Full(s, SideSeats(side)) <==> SideFull(s, side)
  {
    var list := SideSeats(side);
    ListSeat(s, list, d);
    assert list[0] in list && list[1] in list;
    if d !in s.seats && NextOfSide(s, side, d) { assert ListNext(s, list, if d == list[0] then 0 else 1, d); }
  }

  ghost predicate AllSidesFull(s: Seating, sides: seq<Side>) {
    forall k :: 0 <= k < |sides| ==> SideFull(s, sides[k])
  }

  lemma {:induction false} OneMoreSide(s: Seating, sides: seq<Side>, side: Side, d: Direction)
    ensures AllSidesFull(s, sides + [side]) <==> AllSidesFull(s, sides) && SideFull(s, side)
    ensures InSides(s, sides + [side], d) <==> InSides(s, sides, d) || (AllSidesFull(s, sides) && NextOfSide(s, side, d))
  {
    var all := sides + [side];
    assert all[|sides|] == side && forall k :: 0 <= k < |sides| ==> all[k] == sides[k];
    if k :| 0 <= k < |sides| && SideNext(s, sides, k, d) { assert SideNext(s, all, k, d); }
    if AllSidesFull(s, sides) && NextOfSide(s, side, d) { assert SideNext(s, all, |sides|, d); }
    if k :| 0 <= k < |all| && SideNext(s, all, k, d) {
      if k < |sides| { assert SideNext(s, sides, k, d); }
    }
  }

  lemma {:induction false} SidesSeat(s: Seating, sides: seq<Side>, d: Direction)
    ensures FirstFreeSeat(s, SideOrder(sides), d) <==> d !in s.seats && InSides(s, sides, d)
    ensures Full(s, SideOrder(sides)) <==> AllSidesFull(s, sides)
  {
    if sides != [] {
      var before, last := Init(sides), Last(sides);
      SidesSeat(s, before, d);
      SideSeat(s, last, d);
      FirstFreeOfBoth(s, SideOrder(before), SideSeats(last), d);
      FullOfBoth(s, SideOrder(before), SideSeats(last));
      OneMoreSide(s, before, last, d);
    }
  }

  lemma {:induction false} FullOfBoth(s: Seating, a: seq<Direction>, b: seq<Direction>)
    ensures Full(s, a + b) <==> Full(s, a) && Full(s, b)
  {
    if Full(s, a + b) {
      assert forall e :: e in a ==> e in a + b;
      assert forall e :: e in b ==> e in a + b;
    }
  }

  lemma {:induction false} WholeTableSeat(s: Seating, d: Direction)
    ensures FirstFreeSeat(s, FirstFree.Order(), d) <==> PolicySeat(FirstFree, s, d)
  {
    var list := [South, West, North, East];
    ListSeat(s, list, d);
    assert list[0] == South && list[1] == West && list[2] == North && list[3] == East;
    if PolicySeat(FirstFree, s, d) {
      assert ListNext(s, list, match d case South => 0 case West => 1 case North => 2 case East => 3, d);
    }
  }

  /** The lists the policies are filled from give the seats they should. */
  lemma {:induction false} OrderIsPolicy(shape: SeatPolicy, s: Seating, d: Direction)
    requires !shape.Manual?
    ensures FirstFreeSeat(s, shape.Order(), d) <==> PolicySeat(shape, s, d)
  {
    match shape {
      case OnePerSeat(list) => ListSeat(s, list, d);
      case Pairs(sides) => SidesSeat(s, sides, d);
      case FirstFree => WholeTableSeat(s, d);
    }
  }

  lemma {:induction false} FullIsPolicyFull(shape: SeatPolicy, s: Seating)
    requires !shape.Manual?
    ensures Full(s, shape.Order()) <==> PolicyFull(shape, s)
  {
    forall d ensures FirstFreeSeat(s, shape.Order(), d) <==> PolicySeat(shape, s, d) { OrderIsPolicy(shape, s, d); }
    if !Full(s, shape.Order()) {
      SomeFirstFree(s, shape.Order());
      var d :| FirstFreeSeat(s, shape.Order(), d);
      assert PolicySeat(shape, s, d);
    }
  }

  lemma {:induction false} FirstFreeShifts(s: Seating, a: seq<Direction>, b: seq<Direction>, k: nat)
    requires Full(s, a) && FirstFreeAt(s, b, k)
    ensures FirstFreeAt(s, a + b, |a| + k)
  {
    assert (a + b)[..|a| + k] == a + b[..k];
  }

  lemma {:induction false} FirstFreeExtends(s: Seating, p: seq<Direction>, order: seq<Direction>, k: nat)
    requires p <= order && FirstFreeAt(s, p, k)
    ensures FirstFreeAt(s, order, k)
  {
    assert order[..k] == p[..k];
  }

  // ── One arrival ────────────────────────────────────────────────────────

  /** The table visited `offset` places after the cursor. */
  function Visited(start: nat, offset: nat, n: nat): nat
    requires n > 0
  {
    (start + offset) % n
  }

  /** The first table from the cursor with a free policy seat, and the first such seat in it. */
  ghost predicate RoundRobinPick(tables: seq<Seating>, start: nat, order: seq<Direction>, i: nat, d: Direction) {
    && i < |tables|
    && FirstFreeSeat(tables[i], order, d)
    && exists offset :: 0 <= offset < |tables|
                        && Visited(start, offset, |tables|) == i && EarlierFull(tables, start, order, offset)
  }

  ghost predicate EarlierFull(tables: seq<Seating>, start: nat, order: seq<Direction>, offset: nat)
    requires offset <= |tables|
  {
    forall p :: 0 <= p < offset ==> Full(tables[Visited(start, p, |tables|)], order)
  }

  ghost predicate AllFull(tables: seq<Seating>, order: seq<Direction>) {
    forall i :: 0 <= i < |tables| ==> Full(tables[i], order)
  }

  function SeatedAt(tables: seq<Seating>, i: nat, d: Direction, occ: Occupant): seq<Seating>
    requires i < |tables|
  {
    tables[i := tables[i].Placed(d, occ)]
  }

  /** An arrival takes the round-robin pick, and only if there is none opens a table, at its first seat. */
  ghost predicate Arrival(
    before: seq<Seating>, after: seq<Seating>, start: nat, order: seq<Direction>, occ: Occupant, i: nat, d: Direction)
  {
    if AllFull(before, order) then
      && order != [] && d == order[0] && i == |before|
      && after == before + [EMPTY.Placed(d, occ)]
    else
      && RoundRobinPick(before, start, order, i, d)
      && after == SeatedAt(before, i, d, occ)
  }

  /** The arrival sits at the first table from the cursor where the policy has a seat, in that seat; if it has
      none anywhere, in the policy's first seat of a new table. */
  ghost predicate PolicyArrival(shape: SeatPolicy, tables: seq<Seating>, start: nat, i: nat, d: Direction) {
    if forall j :: 0 <= j < |tables| ==> PolicyFull(shape, tables[j]) then
      i == |tables| && PolicySeat(shape, EMPTY, d)
    else
      && i < |tables| && PolicySeat(shape, tables[i], d)
      && exists offset :: 0 <= offset < |tables| && Visited(start, offset, |tables|) == i
                          && forall p :: 0 <= p < offset ==> PolicyFull(shape, tables[Visited(start, p, |tables|)])
  }

  lemma {:induction false} ArrivalIsPolicys(
    before: seq<Seating>, after: seq<Seating>, start: nat, shape: SeatPolicy, occ: Occupant, i: nat, d: Direction)
    requires !shape.Manual? && Arrival(before, after, start, shape.Order(), occ, i, d)
    ensures PolicyArrival(shape, before, start, i, d)
  {
    forall j | 0 <= j < |before| ensures Full(before[j], shape.Order()) <==> PolicyFull(shape, before[j]) {
      FullIsPolicyFull(shape, before[j]);
    }
    if AllFull(before, shape.Order()) {
      assert FirstFreeAt(EMPTY, shape.Order(), 0);
      OrderIsPolicy(shape, EMPTY, d);
    } else {
      OrderIsPolicy(shape, before[i], d);
      var offset :| 0 <= offset < |before|
                    && Visited(start, offset, |before|) == i && EarlierFull(before, start, shape.Order(), offset);
      assert forall p :: 0 <= p < offset ==> PolicyFull(shape, before[Visited(start, p, |before|)]);
    }
  }

  lemma {:induction false} MulStep(n: int, m: int)
    ensures n * m == (n - 1) * m + m
  {
  }

  lemma {:induction false} MulAtLeast(k: int, n: int)
    requires k >= 1 && n >= 0
    ensures k * n >= n
  {
    MulStep(k, n);
  }

  lemma {:induction false} SmallMultiple(k: int, n: int)
    requires -n < k * n < n
    ensures k == 0
  {
    if k >= 1 {
      MulAtLeast(k, n);
    } else if k <= -1 {
      MulAtLeast(-k, n);
    }
  }

  lemma {:induction false} ModUnique(a: nat, n: nat, q: nat, r: nat)
    requires a == q * n + r && r < n
    ensures a / n == q && a % n == r
  {
    var q', r' := a / n, a % n;
    assert a == q' * n + r';
    assert (q' - q) * n == q' * n - q * n;
    SmallMultiple(q' - q, n);
  }

  /** `n` consecutive offsets visit every one of the `n` tables. */
  lemma {:induction false} VisitsAll(start: nat, n: nat, i: nat) returns (offset: nat)
    requires i < n
    ensures offset < n && Visited(start, offset, n) == i
  {
    var q, s := start / n, start % n;
    if i >= s {
      offset := i - s;
      ModUnique(start + offset, n, q, i);
    } else {
      offset := i + n - s;
      assert (q + 1) * n == q * n + n;
      ModUnique(start + offset, n, q + 1, i);
    }
  }

  lemma {:induction false} EarlierFullGrows(tables: seq<Seating>, start: nat, order: seq<Direction>, offset: nat)
    requires offset < |tables| && EarlierFull(tables, start, order, offset)
    requires Full(tables[Visited(start, offset, |tables|)], order)
    ensures EarlierFull(tables, start, order, offset + 1)
  {
  }

  lemma {:induction false} VisitedInOrder(i: nat, n: nat)
    requires i < n
    ensures Visited(0, i, n) == i
  {
    ModUnique(i, n, 0, i);
  }

  lemma {:induction false} AllVisitedFull(tables: seq<Seating>, start: nat, order: seq<Direction>)
    requires EarlierFull(tables, start, order, |tables|)
    ensures AllFull(tables, order)
  {
    forall i | 0 <= i < |tables| ensures Full(tables[i], order) {
      var offset := VisitsAll(start, |tables|, i);
      assert Full(tables[Visited(start, offset, |tables|)], order);
    }
  }

  lemma {:induction false} FirstFreeIsListed(s: Seating, order: seq<Direction>, d: Direction)
    requires FirstFreeSeat(s, order, d)
    ensures d in order && !Full(s, order)
  {
  }

  /** An arrival displaces nobody and sits down connected. */
  lemma {:induction false} ArrivalKeepsEveryone(
    before: seq<Seating>, after: seq<Seating>, start: nat, order: seq<Direction>, occ: Occupant, i: nat, d: Direction)
    requires Arrival(before, after, start, order, occ, i, d)
    ensures LiveKept(before, after)
    ensures i < |after| && d in after[i].seats && after[i].seats[d] == occ
    ensures AllConsistent(before) ==> AllConsistent(after)
  {
    forall j: nat, e, sub | HoldsSeat(before, j, e, sub) && before[j].seats[e].connected
      ensures HoldsSeat(after, j, e, sub) && after[j].seats[e].connected
    {
    }
  }

  /** Pairs always look from the first table. */
  function Cursor(shape: SeatPolicy, next: nat): nat { if shape.Pairs? then 0 else next }

  lemma {:induction false} ArrivalPicks(
    before: seq<Seating>, start: nat, order: seq<Direction>, occ: Occupant, i: nat, d: Direction)
    requires RoundRobinPick(before, start, order, i, d)
    ensures Arrival(before, SeatedAt(before, i, d, occ), start, order, occ, i, d)
  {
    PickMeansRoom(before, start, order, i, d);
  }

  lemma {:induction false} ArrivalOpens(before: seq<Seating>, start: nat, order: seq<Direction>, occ: Occupant)
    requires AllFull(before, order) && order != []
    ensures Arrival(before, before + [EMPTY.Placed(order[0], occ)], start, order, occ, |before|, order[0])
  {
  }

  lemma {:induction false} PickMeansRoom(tables: seq<Seating>, start: nat, order: seq<Direction>, i: nat, d: Direction)
    requires RoundRobinPick(tables, start, order, i, d)
    ensures !AllFull(tables, order)
  {
    FirstFreeIsListed(tables[i], order, d);
  }

  lemma {:induction false} SideOrderSplits(sides: seq<Side>, s: nat)
    requires s < |sides|
    ensures SideOrder(sides[..s + 1]) == SideOrder(sides[..s]) + SideSeats(sides[s])
  {
    assert Init(sides[..s + 1]) == sides[..s];
  }

  lemma {:induction false} SideOrderPrefix(sides: seq<Side>, s: nat)
    requires s <= |sides|
    ensures SideOrder(sides[..s]) <= SideOrder(sides)
  {
    if s < |sides| {
      assert Init(sides)[..s] == sides[..s];
      SideOrderPrefix(Init(sides), s);
    } else {
      assert sides[..s] == sides;
    }
  }

  lemma {:induction false} FirstInSide(t: Seating, sides: seq<Side>, s: nat, d: Direction)
    requires s < |sides| && Full(t, SideOrder(sides[..s])) && FirstFreeSeat(t, SideSeats(sides[s]), d)
    ensures FirstFreeSeat(t, SideOrder(sides), d)
  {
    SideOrderSplits(sides, s);
    SideOrderPrefix(sides, s + 1);
    FirstInMiddle(t, SideOrder(sides[..s]), SideSeats(sides[s]), SideOrder(sides), d);
  }

  lemma {:induction false} FirstInMiddle(
    t: Seating, before: seq<Direction>, part: seq<Direction>, order: seq<Direction>, d: Direction)
    requires before + part <= order && Full(t, before) && FirstFreeSeat(t, part, d)
    ensures FirstFreeSeat(t, order, d)
  {
    var k: nat :| FirstFreeAt(t, part, k) && part[k] == d;
    FirstFreeShifts(t, before, part, k);
    FirstFreeExtends(t, before + part, order, |before| + k);
    assert order[|before| + k] == (before + part)[|before| + k];
  }

  // ── Many arrivals ──────────────────────────────────────────────────────

  /** Different seats of `order` taken at one table. */
  function Taken(s: Seating, order: seq<Direction>): nat {
    |set d | d in order && d in s.seats|
  }

  function AllTaken(tables: seq<Seating>, order: seq<Direction>): nat {
    if tables == [] then 0 else AllTaken(Init(tables), order) + Taken(Last(tables), order)
  }

  function Distinct(order: seq<Direction>): nat { |set d | d in order| }

  /** Policy seats at `t` tables of `m` each. */
  function SeatsIn(t: nat, m: nat): nat {
    if t == 0 then 0 else SeatsIn(t - 1, m) + m
  }

  lemma {:induction false} SeatsInIsProduct(t: nat, m: nat)
    ensures SeatsIn(t, m) == t * m
  {
    if t > 0 {
      SeatsInIsProduct(t - 1, m);
      MulStep(t, m);
    }
  }

  lemma {:induction false} TakenBounds(s: Seating, order: seq<Direction>)
    ensures Taken(s, order) <= Distinct(order)
    ensures Full(s, order) ==> Taken(s, order) == Distinct(order)
  {
    var all, taken := set d | d in order, set d | d in order && d in s.seats;
    assert taken <= all;
    SubsetSize(taken, all);
    if Full(s, order) { assert taken == all; }
  }

  lemma {:induction false} SubsetSize<T>(a: set<T>, b: set<T>)
    requires a <= b
    ensures |a| <= |b|
  {
    assert b == a + (b - a);
  }

  lemma {:induction false} TakeOne(s: Seating, order: seq<Direction>, d: Direction, occ: Occupant)
    requires d in order && d !in s.seats
    ensures Taken(s.Placed(d, occ), order) == Taken(s, order) + 1
  {
    var taken := set x | x in order && x in s.seats;
    assert (set x | x in order && x in s.Placed(d, occ).seats) == taken + {d};
  }

  lemma {:induction false} AllTakenBounds(tables: seq<Seating>, order: seq<Direction>)
    ensures AllTaken(tables, order) <= SeatsIn(|tables|, Distinct(order))
    ensures AllFull(tables, order) ==> AllTaken(tables, order) == SeatsIn(|tables|, Distinct(order))
  {
    if tables != [] {
      AllTakenBounds(Init(tables), order);
      TakenBounds(Last(tables), order);
      if AllFull(tables, order) {
        assert forall i :: 0 <= i < |Init(tables)| ==> Init(tables)[i] == tables[i];
      }
    }
  }

  lemma {:induction false} AllTakenUpdate(tables: seq<Seating>, order: seq<Direction>, i: nat, s: Seating)
    requires i < |tables|
    ensures AllTaken(tables[i := s], order) == AllTaken(tables, order) - Taken(tables[i], order) + Taken(s, order)
  {
    if i == |tables| - 1 {
      assert Init(tables[i := s]) == Init(tables);
    } else {
      assert Init(tables[i := s]) == Init(tables)[i := s];
      AllTakenUpdate(Init(tables), order, i, s);
    }
  }

  lemma {:induction false} ArrivalTakesOne(
    before: seq<Seating>, after: seq<Seating>, start: nat, order: seq<Direction>, occ: Occupant, i: nat, d: Direction)
    requires Arrival(before, after, start, order, occ, i, d)
    ensures AllTaken(after, order) == AllTaken(before, order) + 1
  {
    if AllFull(before, order) {
      InitOfSnoc(before, Last(after));
      TakeOne(EMPTY, order, d, occ);
      assert Taken(EMPTY, order) == 0 by { assert (set x | x in order && x in EMPTY.seats) == {}; }
    } else {
      FirstFreeIsListed(before[i], order, d);
      TakeOne(before[i], order, d, occ);
      AllTakenUpdate(before, order, i, before[i].Placed(d, occ));
    }
  }

  datatype Arriving = Arriving(start: nat, occ: Occupant, room: nat, seat: Direction)

  /** `runs[k + 1]` is what the `k`-th arrival makes of `runs[k]`. */
  ghost predicate Arrivals(runs: seq<seq<Seating>>, order: seq<Direction>, who: seq<Arriving>) {
    && |runs| == |who| + 1
    && forall k :: 0 <= k < |who| ==> ArrivalAt(runs, order, who, k)
  }

  ghost predicate ArrivalAt(runs: seq<seq<Seating>>, order: seq<Direction>, who: seq<Arriving>, k: nat)
    requires k < |who| && |runs| == |who| + 1
  {
    Arrival(runs[k], runs[k + 1], who[k].start, order, who[k].occ, who[k].room, who[k].seat)
  }

  /** Tables needed for `k` people when each table offers `m` seats. */
  function TablesFor(k: nat, m: nat): nat
    requires m > 0
  {
    (k + m - 1) / m
  }

  /** After `k` arrivals `k` seats are taken, and a table was opened only when the rest were full. */
  lemma {:induction false} FillCount(runs: seq<seq<Seating>>, order: seq<Direction>, who: seq<Arriving>, k: nat)
    requires Arrivals(runs, order, who) && k <= |who| && order != []
    requires forall i :: 0 <= i < |runs[0]| ==> runs[0][i].seats == map[]
    ensures AllTaken(runs[k], order) == k
    ensures |runs[0]| <= |runs[k]|
    ensures |runs[k]| > |runs[0]| ==> k > SeatsIn(|runs[k]| - 1, Distinct(order))
    decreases k
  {
    if k == 0 {
      EmptyTablesTakeNone(runs[0], order);
    } else {
      FillCount(runs, order, who, k - 1);
      FillStep(runs, order, who, k - 1);
    }
  }

  lemma {:induction false} FillStep(runs: seq<seq<Seating>>, order: seq<Direction>, who: seq<Arriving>, k: nat)
    requires Arrivals(runs, order, who) && k < |who|
    ensures AllTaken(runs[k + 1], order) == AllTaken(runs[k], order) + 1
    ensures |runs[k + 1]| == |runs[k]| ||
            (|runs[k + 1]| == |runs[k]| + 1 && AllTaken(runs[k], order) == SeatsIn(|runs[k]|, Distinct(order)))
  {
    assert ArrivalAt(runs, order, who, k);
    var before, after, a := runs[k], runs[k + 1], who[k];
    ArrivalTakesOne(before, after, a.start, order, a.occ, a.room, a.seat);
    if AllFull(before, order) { AllTakenBounds(before, order); }
  }

  lemma {:induction false} EmptyTablesTakeNone(tables: seq<Seating>, order: seq<Direction>)
    requires forall i :: 0 <= i < |tables| ==> tables[i].seats == map[]
    ensures AllTaken(tables, order) == 0
  {
    if tables != [] {
      EmptyTablesTakeNone(Init(tables), order);
      assert (set x | x in order && x in Last(tables).seats) == {};
    }
  }

  /** `k` arrivals at `t0` empty tables leave as many tables as the larger of `t0` and what `k` people
      need at `m` different policy seats a table. */
  lemma {:induction false} TablesOpened(runs: seq<seq<Seating>>, order: seq<Direction>, who: seq<Arriving>)
    requires Arrivals(runs, order, who) && order != []
    requires forall i :: 0 <= i < |runs[0]| ==> runs[0][i].seats == map[]
    ensures Distinct(order) > 0
    ensures var t0, need := |runs[0]|, TablesFor(|who|, Distinct(order));
            |Last(runs)| == if t0 >= need then t0 else need
  {
    var k := |who|;
    assert Last(runs) == runs[k];
    FillCount(runs, order, who, k);
    AllTakenBounds(runs[k], order);
    DistinctRange(order);
    SeatsInIsProduct(|runs[k]|, Distinct(order));
    if |runs[k]| > 0 { SeatsInIsProduct(|runs[k]| - 1, Distinct(order)); }
    CeilingIs(k, Distinct(order), |runs[0]|, |runs[k]|);
  }

  lemma {:induction false} DistinctRange(order: seq<Direction>)
    requires order != []
    ensures 1 <= Distinct(order) <= 4
  {
    var all := set d | d in order;
    assert order[0] in all;
    var seats := {North, East, South, West};
    forall d: Direction ensures d in seats {
      match d { case North => case East => case South => case West => }
    }
    SubsetSize(all, seats);
  }

  lemma {:induction false} CeilingIs(k: nat, m: nat, t0: nat, t: nat)
    requires 1 <= m <= 4 && t0 <= t && k <= t * m && (t > t0 ==> k > (t - 1) * m)
    ensures t == if t0 >= TablesFor(k, m) then t0 else TablesFor(k, m)
  {
    if m == 1 {
    } else if m == 2 {
    } else if m == 3 {
    } else {
      assert m == 4;
    }
  }

  // ── How evenly arrivals spread ─────────────────────────────────────────

  lemma {:induction false} NextDivMod(k: nat, n: nat)
    requires n > 0
    ensures if k % n < n - 1 then (k + 1) / n == k / n && (k + 1) % n == k % n + 1
            else (k + 1) / n == k / n + 1 && (k + 1) % n == 0
  {
    var q, r := k / n, k % n;
    assert k == q * n + r;
    if r < n - 1 {
      ModUnique(k + 1, n, q, r + 1);
    } else {
      MulStep(q + 1, n);
      ModUnique(k + 1, n, q + 1, 0);
    }
  }

  /** `k` arrivals on, the cursor is where it was `k % n` arrivals on. */
  lemma {:induction false} CursorComesRound(start: nat, k: nat, n: nat)
    requires n > 0
    ensures Visited(start + k, 0, n) == Visited(start, k % n, n)
  {
    var q, r := k / n, k % n;
    var q', r' := (start + r) / n, (start + r) % n;
    assert k == q * n + r && start + r == q' * n + r';
    MulSum(q, q', n);
    ModUnique(start + k, n, q + q', r');
  }

  lemma {:induction false} MulSum(a: int, b: int, n: int)
    ensures (a + b) * n == a * n + b * n
  {
  }

  /** `n` consecutive offsets visit each table once. */
  lemma {:induction false} VisitedOnce(start: nat, p: nat, p': nat, n: nat)
    requires p < n && p' < n && Visited(start, p, n) == Visited(start, p', n)
    ensures p == p'
  {
    var q, q', r := (start + p) / n, (start + p') / n, (start + p) % n;
    assert start + p == q * n + r && start + p' == q' * n + r;
    MulSum(q - q', q', n);
    SmallMultiple(q - q', n);
  }

  /** After `k` arrivals the table `p` places after the first cursor holds its share of them. */
  ghost predicate SpreadAt(tables: seq<Seating>, start: nat, k: nat, p: nat)
    requires p < |tables|
  {
    |tables[Visited(start, p, |tables|)].seats| == k / |tables| + if p < k % |tables| then 1 else 0
  }

  ghost predicate Spread(tables: seq<Seating>, start: nat, k: nat) {
    forall p :: 0 <= p < |tables| ==> SpreadAt(tables, start, k, p)
  }

  lemma {:induction false} FullHoldsAll(s: Seating, order: seq<Direction>)
    requires Full(s, order)
    ensures |s.seats| >= Distinct(order)
  {
    var all := set d | d in order;
    SubsetSize(all, s.seats.Keys);
  }

  /** The table whose turn it is has room while fewer than its share of all seats are taken. */
  lemma {:induction false} TurnTableHasRoom(tables: seq<Seating>, order: seq<Direction>, start: nat, k: nat)
    requires tables != [] && Spread(tables, start, k) && k < |tables| * Distinct(order)
    ensures var n := |tables|; var turn := Visited(start, k % n, n);
            |tables[turn].seats| == k / n && !Full(tables[turn], order)
  {
    var n, m := |tables|, Distinct(order);
    var q, r := k / n, k % n;
    assert SpreadAt(tables, start, k, r);
    assert k == q * n + r;
    if q >= m {
      MulMonotone(m, q, n);
    }
    if Full(tables[Visited(start, r, n)], order) { FullHoldsAll(tables[Visited(start, r, n)], order); }
  }

  lemma {:induction false} MulMonotone(a: nat, b: nat, n: nat)
    requires a <= b
    ensures n * a <= b * n
  {
    MulSum(a, b - a, n);
  }

  /** So the round-robin pick is that table. */
  lemma {:induction false} PickIsInTurn(
    before: seq<Seating>, after: seq<Seating>, start: nat, order: seq<Direction>, occ: Occupant, i: nat, d: Direction)
    requires before != [] && !Full(before[Visited(start, 0, |before|)], order)
    requires Arrival(before, after, start, order, occ, i, d)
    ensures i == Visited(start, 0, |before|) && d !in before[i].seats && after == SeatedAt(before, i, d, occ)
  {
    assert !AllFull(before, order);
    var offset :| 0 <= offset < |before| && Visited(start, offset, |before|) == i
                  && EarlierFull(before, start, order, offset);
    EarlierStartsHere(before, start, order, offset);
  }

  lemma {:induction false} EarlierStartsHere(tables: seq<Seating>, start: nat, order: seq<Direction>, offset: nat)
    requires tables != [] && offset <= |tables|
    ensures offset > 0 && EarlierFull(tables, start, order, offset) ==> Full(tables[Visited(start, 0, |tables|)], order)
  {
  }

  lemma {:induction false} SpreadStep(
    before: seq<Seating>, after: seq<Seating>, start: nat, order: seq<Direction>, k: nat, a: Arriving)
    requires before != [] && Spread(before, start, k) && k < |before| * Distinct(order) && a.start == start + k
    requires Arrival(before, after, a.start, order, a.occ, a.room, a.seat)
    ensures |after| == |before| && Spread(after, start, k + 1)
  {
    var n, next := |before|, k + 1;
    TurnTableHasRoom(before, order, start, k);
    CursorComesRound(start, k, n);
    PickIsInTurn(before, after, a.start, order, a.occ, a.room, a.seat);
    NextDivMod(k, n);
    forall p | 0 <= p < n ensures SpreadAt(after, start, next, p) {
      assert SpreadAt(before, start, k, p);
      if p != k % n && Visited(start, p, n) == a.room { VisitedOnce(start, p, k % n, n); }
    }
  }

  /** Arrivals whose cursor moves on by one fill the tables evenly: none has two guests more than another
      while there are seats enough. */
  lemma {:induction false} EvenSpread(
    runs: seq<seq<Seating>>, order: seq<Direction>, who: seq<Arriving>, start: nat, k: nat)
    requires Arrivals(runs, order, who) && k <= |who| && runs[0] != [] && k <= |runs[0]| * Distinct(order)
    requires forall i :: 0 <= i < |runs[0]| ==> runs[0][i].seats == map[]
    requires forall j :: 0 <= j < |who| ==> who[j].start == start + j
    ensures |runs[k]| == |runs[0]| && Spread(runs[k], start, k)
    decreases k
  {
    if k == 0 {
      NothingSpread(runs[0], start);
    } else {
      EvenSpread(runs, order, who, start, k - 1);
      assert ArrivalAt(runs, order, who, k - 1);
      SpreadStep(runs[k - 1], runs[k], start, order, k - 1, who[k - 1]);
    }
  }

  lemma {:induction false} NothingSpread(tables: seq<Seating>, start: nat)
    requires tables != [] && forall i :: 0 <= i < |tables| ==> tables[i].seats == map[]
    ensures Spread(tables, start, 0)
  {
    var n := |tables|;
    ModUnique(0, n, 0, 0);
    forall p | 0 <= p < n ensures SpreadAt(tables, start, 0, p) {
      assert tables[Visited(start, p, n)].seats == map[];
    }
  }

  lemma {:induction false} SpreadIsEven(tables: seq<Seating>, start: nat, k: nat)
    requires tables != [] && Spread(tables, start, k)
    ensures forall i :: 0 <= i < |tables| ==> HoldsShare(tables[i], k, |tables|)
  {
    forall i | 0 <= i < |tables| ensures HoldsShare(tables[i], k, |tables|) {
      var p := VisitsAll(start, |tables|, i);
      assert SpreadAt(tables, start, k, p);
    }
  }

  /** The table holds `k / n` guests or one more. */
  predicate HoldsShare(s: Seating, k: nat, n: nat)
    requires n > 0
  {
    k / n <= |s.seats| <= k / n + 1
  }
}
