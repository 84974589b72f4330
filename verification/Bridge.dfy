/** The vocabulary of the table: seats, cards, calls and machine bytes. */
module Bridge {

  datatype Option<+T> = None | Some(value: T) {
    function GetOr(default: T): T { if Some? then value else default }
  }

  datatype Result<+T, +E> = Ok(value: T) | Err(error: E)

  // ── Bytes ──────────────────────────────────────────────────────────────

  /** The source counts tricks and levels in unsigned bytes. */
  type U8 = x: int | 0 <= x < 256

  function U8Add(a: U8, b: U8): U8 { (a + b) % 256 }

  function U8Sub(a: U8, b: U8): U8 { (a - b) % 256 }

  /** The truncating cast of a length to a byte. */
  function ToU8(n: nat): U8 { n % 256 }

  lemma {:induction false} ByteExact(a: U8, b: U8)
    ensures a + b < 256 ==> U8Add(a, b) == a + b
    ensures b <= a ==> U8Sub(a, b) == a - b
  {
  }

  /** Up to thirteen completed tricks the subtraction from thirteen does not wrap. */
  lemma {:induction false} NoWrapBelow13(n: nat)
    requires n <= 13
    ensures U8Sub(13, ToU8(n)) == 13 - n
  {
    assert n % 256 == n;
  }

  // ── Seats ──────────────────────────────────────────────────────────────

  datatype Direction = North | East | South | West {
    function Index(): (i: nat)
      ensures i < 4
    {
      match this
      case North => 0
      case East => 1
      case South => 2
      case West => 3
    }

    /** The next seat clockwise. */
    function Next(): Direction {
      match this
      case North => East
      case East => South
      case South => West
      case West => North
    }

    function Partner(): Direction { Next().Next() }

    /** The seat `n` places clockwise. */
    function Advance(n: nat): Direction {
      if n % 4 == 0 then this
      else if n % 4 == 1 then Next()
      else if n % 4 == 2 then Next().Next()
      else Next().Next().Next()
    }

    /** How many places clockwise `seat` is from here. */
    function Offset(seat: Direction): (o: nat)
      ensures o < 4 && Advance(o) == seat
    {
      (seat.Index() + 4 - Index()) % 4
    }

    predicate IsNS() { North? || South? }
  }

  lemma {:induction false} AdvanceNext(d: Direction, n: nat)
    ensures d.Advance(n + 1) == d.Advance(n).Next()
    ensures d.Next().Advance(n) == d.Advance(n).Next()
  {
    assert (n + 1) % 4 == if n % 4 == 3 then 0 else n % 4 + 1;
  }

  lemma {:induction false} OffsetUnique(d: Direction, seat: Direction, n: nat)
    requires n < 4
    ensures d.Offset(seat) == n <==> d.Advance(n) == seat
  {
  }

  // ── Cards ──────────────────────────────────────────────────────────────

  datatype Suit = Clubs | Diamonds | Hearts | Spades

  /** Two is 2, ace is 14. */
  type Rank = r: int | 2 <= r <= 14 witness 2

  datatype Card = Card(suit: Suit, rank: Rank)

  datatype Strain = InClubs | InDiamonds | InHearts | InSpades | NoTrump

  /** A card and the seat recorded as having played it. */
  datatype PlayedCard = PlayedCard(seat: Direction, card: Card)

  // ── Calls ──────────────────────────────────────────────────────────────

  datatype Call =
    | Pass
    | Bid(level: U8, strain: Strain)
    | Double
    | Redouble
    | Continue  // teaching placeholders, never legal in live play
    | Blank

  // ── Sequences ──────────────────────────────────────────────────────────

  ghost predicate NoDup<T>(s: seq<T>) {
    forall i, j :: 0 <= i < j < |s| ==> s[i] != s[j]
  }

  function Last<T>(s: seq<T>): T
    requires s != []
  {
    s[|s| - 1]
  }

  function Init<T>(s: seq<T>): (r: seq<T>)
    requires s != []
    ensures s == r + [Last(s)]
  {
    s[..|s| - 1]
  }

  lemma {:induction false} NoDupSnoc<T>(s: seq<T>, x: T)
    ensures NoDup(s + [x]) <==> NoDup(s) && x !in s
  {
    var all := s + [x];
    forall i | NoDup(all) && 0 <= i < |s| ensures s[i] != x {
      assert all[i] != all[|s|];
    }
    forall i, j | NoDup(all) && 0 <= i < j < |s| ensures s[i] != s[j] {
      assert all[i] != all[j];
    }
  }

  lemma {:induction false} InitOfSnoc<T>(s: seq<T>, x: T)
    ensures Init(s + [x]) == s && Last(s + [x]) == x
  {
  }
}
