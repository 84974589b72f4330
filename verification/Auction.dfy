/** Auction legality and the contract, as src/engine/auction.rs computes them by scanning backwards. */
module Auction {
  import opened Bridge

  /** Clubs < diamonds < hearts < spades < notrump. */
  function StrainRank(s: Strain): (r: nat)
    ensures r < 5
  {
    match s
    case InClubs => 0
    case InDiamonds => 1
    case InHearts => 2
    case InSpades => 3
    case NoTrump => 4
  }

  /** Level first, then strain. */
  predicate Outranks(level: int, strain: Strain, level': int, strain': Strain) {
    level > level' || (level == level' && StrainRank(strain) > StrainRank(strain'))
  }

  // ── Whose call ─────────────────────────────────────────────────────────

  method CallerAt(dealer: Direction, index: nat) returns (d: Direction)
    ensures d == dealer.Advance(index)
  {
    d := dealer;
    for i := 0 to index % 4
      invariant d == dealer.Advance(i)
    {
      AdvanceNext(dealer, i);
      d := d.Next();
    }
  }

  function NextCaller(dealer: Direction, calls: seq<Call>): Direction {
    dealer.Advance(|calls|)
  }

  // ── The backward scans ─────────────────────────────────────────────────

  predicate IsComplete(calls: seq<Call>) {
    |calls| >= 4 && forall i :: |calls| - 3 <= i < |calls| ==> calls[i] == Pass
  }

  datatype LastAction = ABid | ADouble

  /** Index and kind of the last call that is not a pass; nothing after a redouble. */
  function LastActionOf(calls: seq<Call>): Option<(nat, LastAction)> {
    if calls == [] then None
    else match Last(calls)
      case Bid(_, _) => Some((|calls| - 1, ABid))
      case Double => Some((|calls| - 1, ADouble))
      case Redouble => None
      case _ => LastActionOf(Init(calls))
  }

  method FindLastAction(calls: seq<Call>) returns (r: Option<(nat, LastAction)>)
    ensures r == LastActionOf(calls)
  {
    var i := |calls|;
    assert calls[..i] == calls;
    while i > 0
      invariant 0 <= i <= |calls|
      invariant LastActionOf(calls) == LastActionOf(calls[..i])
    {
      i := i - 1;
      assert Init(calls[..i + 1]) == calls[..i];
      match calls[i] {
        case Bid(_, _) => return Some((i, ABid));
        case Double => return Some((i, ADouble));
        case Redouble => return None;
        case _ =>
      }
    }
    return None;
  }

  datatype BidAt = BidAt(level: U8, strain: Strain, index: nat)

  function LastBidOf(calls: seq<Call>): Option<BidAt> {
    if calls == [] then None
    else match Last(calls)
      case Bid(level, strain) => Some(BidAt(level, strain, |calls| - 1))
      case _ => LastBidOf(Init(calls))
  }

  method FindLastBid(calls: seq<Call>) returns (r: Option<BidAt>)
    ensures r == LastBidOf(calls)
  {
    var i := |calls|;
    assert calls[..i] == calls;
    while i > 0
      invariant 0 <= i <= |calls|
      invariant LastBidOf(calls) == LastBidOf(calls[..i])
    {
      i := i - 1;
      assert Init(calls[..i + 1]) == calls[..i];
      if calls[i].Bid? {
        return Some(BidAt(calls[i].level, calls[i].strain, i));
      }
    }
    return None;
  }

  /** Indices of opposite parity are opponents. */
  predicate IsOpponent(current: nat, target: nat) { current % 2 != target % 2 }

  predicate IsLegal(calls: seq<Call>, call: Call) {
    if IsComplete(calls) then false
    else match call
      case Pass => true
      case Bid(level, strain) =>
        && 1 <= level <= 7
        && (match LastBidOf(calls)
            case None => true
            case Some(b) => Outranks(level, strain, b.level, b.strain))
      case Double =>
        (match LastActionOf(calls)
         case Some((i, ABid)) => IsOpponent(|calls|, i)
         case _ => false)
      case Redouble =>
        (match LastActionOf(calls)
         case Some((i, ADouble)) => IsOpponent(|calls|, i)
         case _ => false)
      case Continue => false
      case Blank => false
  }

  /** An auction every call of which was legal when made. */
  ghost predicate LegalAuction(calls: seq<Call>) {
    forall i :: 0 <= i < |calls| ==> LegalAt(calls, i)
  }

  predicate LegalAt(calls: seq<Call>, i: nat)
    requires i < |calls|
  {
    IsLegal(calls[..i], calls[i])
  }

  lemma {:induction false} LegalPrefix(calls: seq<Call>, n: nat)
    requires LegalAuction(calls) && n <= |calls|
    ensures LegalAuction(calls[..n])
  {
    forall i | 0 <= i < n ensures LegalAt(calls[..n], i) {
      assert LegalAt(calls, i);
      assert calls[..n][..i] == calls[..i];
    }
  }

  lemma {:induction false} LegalSnoc(calls: seq<Call>, call: Call)
    ensures LegalAuction(calls + [call]) <==> LegalAuction(calls) && IsLegal(calls, call)
  {
    var all := calls + [call];
    assert all[..|calls|] == calls;
    if LegalAuction(all) {
      LegalPrefix(all, |calls|);
      assert LegalAt(all, |calls|);
    }
    if LegalAuction(calls) && IsLegal(calls, call) {
      forall i | 0 <= i < |all| ensures LegalAt(all, i) {
        if i < |calls| {
          assert all[..i] == calls[..i];
          assert LegalAt(calls, i);
        }
      }
    }
  }

  // ── The contract ───────────────────────────────────────────────────────

  datatype Outcome = Outcome(level: U8, strain: Strain, doubled: bool, redoubled: bool, declarer: Direction) {
    function OpeningLeader(): Direction { declarer.Next() }
    function Dummy(): Direction { declarer.Partner() }
    predicate DeclarerSide(seat: Direction) { seat == declarer || seat == Dummy() }
  }

  datatype Doubling = Undoubled | Doubled | Redoubled

  /** The doubling in force: set by doubles and redoubles, cleared by a bid. */
  function DoublingOf(calls: seq<Call>): Doubling {
    if calls == [] then Undoubled
    else match Last(calls)
      case Bid(_, _) => Undoubled
      case Double => Doubled
      case Redouble => Redoubled
      case _ => DoublingOf(Init(calls))
  }

  predicate Names(calls: seq<Call>, i: nat, strain: Strain, side: nat)
    requires i < |calls|
  {
    i % 2 == side && calls[i].Bid? && calls[i].strain == strain
  }

  /** The first call at or after `from` by which `side` names `strain`. */
  function FirstToName(calls: seq<Call>, strain: Strain, side: nat, from: nat): (i: nat)
    requires exists k :: from <= k < |calls| && Names(calls, k, strain, side)
    ensures from <= i < |calls| && Names(calls, i, strain, side)
    ensures forall k :: from <= k < i ==> !Names(calls, k, strain, side)
    decreases |calls| - from
  {
    if Names(calls, from, strain, side) then from else FirstToName(calls, strain, side, from + 1)
  }

  lemma {:induction false} LastBidNames(calls: seq<Call>)
    ensures LastBidOf(calls).Some? ==>
              var b := LastBidOf(calls).value;
              && b.index < |calls|
              && calls[b.index] == Bid(b.level, b.strain)
              && Names(calls, b.index, b.strain, b.index % 2)
  {
    if calls != [] && !Last(calls).Bid? { LastBidNames(Init(calls)); }
  }

  /** The last bid is followed by none, and there is one unless nobody bid. */
  lemma {:induction false} NoLaterBid(calls: seq<Call>, i: nat)
    requires i < |calls| && (LastBidOf(calls).Some? ==> LastBidOf(calls).value.index < i)
    ensures !calls[i].Bid?
  {
    if i < |calls| - 1 { NoLaterBid(Init(calls), i); }
  }

  /** bridge-types' resolution: the last bid, played by the first of its side to name its strain. */
  function FinalContract(dealer: Direction, calls: seq<Call>): Option<Outcome> {
    LastBidNames(calls);
    match LastBidOf(calls)
    case None => None
    case Some(b) =>
      var d := DoublingOf(calls);
      Some(Outcome(b.level, b.strain, d.Doubled?, d.Redoubled?,
                   dealer.Advance(FirstToName(calls, b.strain, b.index % 2, 0))))
  }

  function ContractOf(dealer: Direction, calls: seq<Call>): Option<Outcome> {
    if IsComplete(calls) then FinalContract(dealer, calls) else None
  }

  method Contract(dealer: Direction, calls: seq<Call>) returns (r: Option<Outcome>)
    ensures r == ContractOf(dealer, calls)
    ensures r.Some? ==> IsComplete(calls)
  {
    if !IsComplete(calls) {
      return None;
    }
    var auction := [];
    for i := 0 to |calls|
      invariant auction == calls[..i]
    {
      auction := auction + [calls[i]];
    }
    assert auction == calls;
    r := FinalContract(dealer, auction);
  }

  // ── The Laws as a one-pass automaton ───────────────────────────────────

  datatype Standing = Standing(level: U8, strain: Strain, side: nat)

  /** Last bid, its side and doubling, the passes since, and the number of calls. */
  datatype State = State(last: Option<Standing>, doubling: Doubling, passes: nat, turn: nat) {
    /** Law 22A: four passes, or three passes after a bid. */
    predicate Over() { passes >= 3 && (last.Some? || passes >= 4) }

    /** Laws 18, 19A and 19B. */
    predicate Allows(call: Call) {
      !Over() &&
      match call
      case Pass => true
      case Bid(level, strain) =>
        1 <= level <= 7 && (last.Some? ==> Outranks(level, strain, last.value.level, last.value.strain))
      case Double => last.Some? && doubling.Undoubled? && last.value.side != turn % 2
      case Redouble => last.Some? && doubling.Doubled? && last.value.side == turn % 2
      case Continue => false
      case Blank => false
    }

    function After(call: Call): State {
      match call
      case Bid(level, strain) => State(Some(Standing(level, strain, turn % 2)), Undoubled, 0, turn + 1)
      case Double => State(last, Doubled, 0, turn + 1)
      case Redouble => State(last, Redoubled, 0, turn + 1)
      case _ => State(last, doubling, passes + 1, turn + 1)
    }
  }

  const START := State(None, Undoubled, 0, 0)

  function Scan(calls: seq<Call>): State {
    if calls == [] then START else Scan(Init(calls)).After(Last(calls))
  }

  lemma {:induction false} ScanSnoc(calls: seq<Call>, call: Call)
    ensures Scan(calls + [call]) == Scan(calls).After(call)
  {
    InitOfSnoc(calls, call);
  }

  /** What the automaton's state says about the calls it has read. */
  ghost predicate Reflects(s: State, calls: seq<Call>) {
    && s.turn == |calls|
    && s.passes <= |calls|
    && (forall i :: |calls| - s.passes <= i < |calls| ==> calls[i] == Pass)
    && (s.passes < |calls| ==> calls[|calls| - s.passes - 1] != Pass)
    && (s.last.None? <==> s.passes == |calls|)
    && s.doubling == DoublingOf(calls)
    && (match LastBidOf(calls)
        case None => s.last.None?
        case Some(b) => s.last == Some(Standing(b.level, b.strain, b.index % 2)))
    && (match LastActionOf(calls)
        case None => s.last.None? || s.doubling.Redoubled?
        case Some((i, ABid)) => s.last.Some? && s.doubling.Undoubled? && s.last.value.side == i % 2
        case Some((i, ADouble)) => s.last.Some? && s.doubling.Doubled? && s.last.value.side != i % 2)
  }

  lemma {:induction false} ScansAgree(s: State, calls: seq<Call>)
    requires Reflects(s, calls)
    ensures IsComplete(calls) <==> s.Over()
    ensures forall call :: IsLegal(calls, call) <==> s.Allows(call)
  {
    if s.passes < 3 && s.passes < |calls| {
      assert calls[|calls| - s.passes - 1] != Pass;
    }
  }

  lemma {:induction false} ScanReflects(calls: seq<Call>)
    requires LegalAuction(calls)
    ensures Reflects(Scan(calls), calls)
  {
    if calls != [] {
      var before, call := Init(calls), Last(calls);
      LegalPrefix(calls, |before|);
      ScanReflects(before);
      ScansAgree(Scan(before), before);
      assert LegalAt(calls, |before|);
      assert Scan(before).Allows(call);
    }
  }

  /** The backward scans decide exactly what the Laws allow, on every legal auction. */
  lemma {:induction false} AuctionRefinesLaws(calls: seq<Call>, call: Call)
    requires LegalAuction(calls)
    ensures IsComplete(calls) <==> Scan(calls).Over()
    ensures IsLegal(calls, call) <==> Scan(calls).Allows(call)
  {
    ScanReflects(calls);
    ScansAgree(Scan(calls), calls);
  }

  /** 0 for one club up to 34 for seven notrump. */
  function BidValue(level: int, strain: Strain): int { 5 * (level - 1) + StrainRank(strain) }

  /** Law 18: in a legal auction every bid outranks every earlier one. */
  lemma {:induction false} BidsRise(calls: seq<Call>, i: nat, j: nat)
    requires LegalAuction(calls) && i < j < |calls| && calls[i].Bid? && calls[j].Bid?
    ensures BidValue(calls[i].level, calls[i].strain) < BidValue(calls[j].level, calls[j].strain)
    decreases j
  {
    var before := calls[..j];
    LastBidIsLast(before, i);
    assert LegalAt(calls, j);
    LegalBidOutranks(before, calls[j]);
    var b := LastBidOf(before).value;
    if i < b.index {
      BidsRise(calls, i, b.index);
    }
  }

  /** The denominations above another, from clubs up to notrump. */
  predicate IsAbove(s: Strain, other: Strain) {
    match other
    case InClubs => s in {InDiamonds, InHearts, InSpades, NoTrump}
    case InDiamonds => s in {InHearts, InSpades, NoTrump}
    case InHearts => s in {InSpades, NoTrump}
    case InSpades => s == NoTrump
    case NoTrump => false
  }

  /** Law 18: over the last bid, at `i`, a bid is sufficient when it is for more tricks, or for as many in a
      higher denomination. */
  lemma {:induction false} SufficientBid(calls: seq<Call>, i: nat, level: U8, strain: Strain)
    requires !IsComplete(calls) && i < |calls| && calls[i].Bid? && forall j :: i < j < |calls| ==> !calls[j].Bid?
    ensures IsLegal(calls, Bid(level, strain)) <==>
            1 <= level <= 7 && (level > calls[i].level || (level == calls[i].level && IsAbove(strain, calls[i].strain)))
  {
    LastBidIsLast(calls, i);
  }

  lemma {:induction false} LegalBidOutranks(calls: seq<Call>, call: Call)
    requires IsLegal(calls, call) && call.Bid? && LastBidOf(calls).Some?
    ensures var b := LastBidOf(calls).value; BidValue(b.level, b.strain) < BidValue(call.level, call.strain)
  {
  }

  lemma {:induction false} LastBidIsLast(calls: seq<Call>, i: nat)
    requires i < |calls| && calls[i].Bid?
    ensures LastBidOf(calls).Some?
    ensures var b := LastBidOf(calls).value; i <= b.index < |calls| && calls[b.index] == Bid(b.level, b.strain)
  {
    if !Last(calls).Bid? { LastBidIsLast(Init(calls), i); }
  }

  /** A finished legal auction has a contract exactly when someone bid, and its level, strain and
      doubling are the ones the automaton ends with. */
  lemma {:induction false} ContractFromAutomaton(dealer: Direction, calls: seq<Call>)
    requires LegalAuction(calls) && IsComplete(calls)
    ensures var s, c := Scan(calls), ContractOf(dealer, calls);
            && (c.Some? <==> exists i :: 0 <= i < |calls| && calls[i].Bid?)
            && (c.Some? <==> s.last.Some?)
            && (c.Some? ==>
                  && 1 <= c.value.level <= 7
                  && c.value.level == s.last.value.level
                  && c.value.strain == s.last.value.strain
                  && c.value.doubled == s.doubling.Doubled?
                  && c.value.redoubled == s.doubling.Redoubled?)
  {
    ScanReflects(calls);
    LastBidNames(calls);
    if i :| 0 <= i < |calls| && calls[i].Bid? { LastBidIsLast(calls, i); }
    if LastBidOf(calls).Some? {
      var b := LastBidOf(calls).value;
      assert LegalAt(calls, b.index);
    }
  }

  /** The declarer is the first player of the side that made the last bid to name its strain. */
  lemma {:induction false} DeclarerNamedFirst(dealer: Direction, calls: seq<Call>) returns (i: nat)
    requires LegalAuction(calls) && ContractOf(dealer, calls).Some?
    ensures Scan(calls).last.Some? && i < |calls|
    ensures ContractOf(dealer, calls).value.declarer == dealer.Advance(i)
    ensures calls[i].Bid? && calls[i].strain == Scan(calls).last.value.strain
    ensures i % 2 == Scan(calls).last.value.side
    ensures forall k: nat :: k < i && k % 2 == i % 2 && calls[k].Bid? ==> calls[k].strain != calls[i].strain
  {
    ScanReflects(calls);
    LastBidNames(calls);
    var b := LastBidOf(calls).value;
    i := FirstToName(calls, b.strain, b.index % 2, 0);
    forall k: nat | k < i && k % 2 == i % 2 && calls[k].Bid? ensures calls[k].strain != calls[i].strain {
      assert !Names(calls, k, b.strain, b.index % 2);
    }
  }

  // ── How long an auction can be ─────────────────────────────────────────

  /** Calls still possible: each of the 35 bids brings at most P P X P P XX P P after it. */
  function CallsLeft(s: State): int {
    if s.Over() then 0
    else if s.last.None? then 3 - s.passes + 316
    else
      var under := match s.doubling case Undoubled => 7 case Doubled => 4 case Redoubled => 1;
      9 * (34 - BidValue(s.last.value.level, s.last.value.strain)) + (2 - s.passes) + under
  }

  /** The standing bid is one of the 35, and a state with none has only passes behind it. */
  predicate Sane(s: State) {
    match s.last
    case None => s.doubling.Undoubled? && s.passes == s.turn <= 4
    case Some(b) => 1 <= b.level <= 7 && s.passes <= 3
  }

  lemma {:induction false} CallSpends(s: State, call: Call)
    requires Sane(s) && s.Allows(call)
    ensures Sane(s.After(call))
    ensures 0 <= CallsLeft(s.After(call)) < CallsLeft(s)
  {
  }

  lemma {:induction false} AuctionBounded(calls: seq<Call>)
    requires LegalAuction(calls)
    ensures Sane(Scan(calls)) && 0 <= CallsLeft(Scan(calls)) && |calls| + CallsLeft(Scan(calls)) <= 319
  {
    if calls != [] {
      var before := Init(calls);
      LegalPrefix(calls, |before|);
      AuctionBounded(before);
      assert LegalAt(calls, |before|);
      AuctionRefinesLaws(before, Last(calls));
      CallSpends(Scan(before), Last(calls));
    }
  }

  /** The call that wastes the least: pass while two passes remain, then double, redouble, and
      only then the next bid up. */
  function Stall(s: State): Call {
    if s.last.None? then (if s.passes < 3 then Pass else Bid(1, InClubs))
    else if s.passes < 2 then Pass
    else match s.doubling
      case Undoubled => Double
      case Doubled => Redouble
      case Redoubled =>
        var b := s.last.value;
        if b.strain != NoTrump then Bid(b.level, StrainAbove(b.strain))
        else if b.level < 7 then Bid(b.level + 1, InClubs)
        else Pass
  }

  function StrainAbove(s: Strain): Strain {
    match s
    case InClubs => InDiamonds
    case InDiamonds => InHearts
    case InHearts => InSpades
    case _ => NoTrump
  }

  /** In a stalling auction the side to act after two passes may always double or redouble. */
  predicate Stalling(s: State) {
    && Sane(s)
    && (s.last.Some? ==>
          match s.doubling
          case Undoubled => s.last.value.side == (s.turn + s.passes + 1) % 2
          case Doubled => s.last.value.side == (s.turn + s.passes) % 2
          case Redoubled => s.last.value.side < 2)
  }

  /** The bound is met: some legal auction has exactly 319 calls. */
  lemma {:induction false} LongestAuction() returns (calls: seq<Call>)
    ensures LegalAuction(calls) && IsComplete(calls) && |calls| == 319
  {
    calls := [];
    while !Scan(calls).Over()
      invariant LegalAuction(calls) && Stalling(Scan(calls))
      invariant |calls| + CallsLeft(Scan(calls)) == 319 && CallsLeft(Scan(calls)) >= 0
      decreases CallsLeft(Scan(calls))
    {
      var s := Scan(calls);
      StallSpendsOne(s);
      AuctionRefinesLaws(calls, Stall(s));
      LegalSnoc(calls, Stall(s));
      ScanSnoc(calls, Stall(s));
      calls := calls + [Stall(s)];
    }
    AuctionRefinesLaws(calls, Pass);
  }

  lemma {:induction false} StallSpendsOne(s: State)
    requires Stalling(s) && !s.Over()
    ensures s.Allows(Stall(s)) && Stalling(s.After(Stall(s)))
    ensures CallsLeft(s.After(Stall(s))) == CallsLeft(s) - 1 >= 0
  {
    if s.last.None? || s.passes < 2 {
    } else if !s.doubling.Redoubled? {
    } else {
      StallRaises(s);
    }
  }

  /** Once the bid is redoubled and two passes have followed, only a higher bid wastes no more than a call. */
  lemma {:induction false} StallRaises(s: State)
    requires Stalling(s) && !s.Over() && s.last.Some? && s.passes == 2 && s.doubling.Redoubled?
    ensures s.Allows(Stall(s)) && Stalling(s.After(Stall(s)))
    ensures CallsLeft(s.After(Stall(s))) == CallsLeft(s) - 1 >= 0
  {
    var b := s.last.value;
    if b.strain != NoTrump {
      assert StrainRank(StrainAbove(b.strain)) == StrainRank(b.strain) + 1;
    }
  }
}
