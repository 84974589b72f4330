/** What the table reports, with seats and suits written out: trick winners, tricks, results, turns, refusals. */
module TableResults {
  import opened Bridge
  import opened Auction
  import opened CardPlay
  import opened TableLog
  import opened TableLaws
  import opened TableTheorems

  // ── Who wins a trick ───────────────────────────────────────────────────

  predicate HasSuit(cards: FourCards, s: Suit) {
    exists i :: 0 <= i < 4 && cards[i].suit == s
  }

  predicate HighestOf(cards: FourCards, s: Suit, w: nat) {
    w < 4 && cards[w].suit == s && forall i :: 0 <= i < 4 && cards[i].suit == s ==> cards[i].rank <= cards[w].rank
  }

  /** The suit whose highest card wins: the contract's own if anyone played it, else the suit led. */
  function WinningSuit(strain: Strain, cards: FourCards): Suit {
    match strain
    case InClubs => if HasSuit(cards, Clubs) then Clubs else cards[0].suit
    case InDiamonds => if HasSuit(cards, Diamonds) then Diamonds else cards[0].suit
    case InHearts => if HasSuit(cards, Hearts) then Hearts else cards[0].suit
    case InSpades => if HasSuit(cards, Spades) then Spades else cards[0].suit
    case NoTrump => cards[0].suit
  }

  lemma {:induction false} BestIsHighest(cards: FourCards, strain: Strain, w: nat)
    requires BeatsTheRest(cards, TrumpOf(strain), w)
    ensures HighestOf(cards, WinningSuit(strain, cards), w)
  {
    var s := WinningSuit(strain, cards);
    if HasSuit(cards, s) {
      var k :| 0 <= k < 4 && cards[k].suit == s;
      assert k != w ==> Beats(cards[w], cards[k], cards[0].suit, TrumpOf(strain));
    }
    forall i | 0 <= i < 4 && cards[i].suit == s ensures cards[i].rank <= cards[w].rank {
      assert i != w ==> Beats(cards[w], cards[i], cards[0].suit, TrumpOf(strain));
    }
    assert 0 != w ==> Beats(cards[w], cards[0], cards[0].suit, TrumpOf(strain));
  }

  /** Every completed trick of every reachable log was won by the seat recorded with the highest card of the
      trump suit if one was played, else of the suit led. */
  lemma {:induction false} TrickGoesToHighest(board: Board, log: seq<Action>, k: nat) returns (w: nat)
    requires board.deal.Valid() && Legal(board, log) && k < |Fold(board, log).completed|
    ensures var f := Fold(board, log); var trick := f.completed[k];
            && f.contract.Some?
            && HighestOf(trick.cards, WinningSuit(f.contract.value.strain, trick.cards), w)
            && 4 * k + 4 <= |f.played|
            && f.played[4 * k + w] == PlayedCard(trick.winner, trick.cards[w])
  {
    w := WinnerPlayedWinningCard(board, log, k);
    var f := Fold(board, log);
    BestIsHighest(f.completed[k].cards, f.contract.value.strain, w);
  }

  // ── Whose tricks they are ──────────────────────────────────────────────

  /** Completed tricks won by either of two seats. */
  function WonBy(completed: seq<CompletedTrick>, a: Direction, b: Direction): nat {
    if completed == [] then 0
    else WonBy(Init(completed), a, b) + if Last(completed).winner in {a, b} then 1 else 0
  }

  lemma {:induction false} WonByPartners(completed: seq<CompletedTrick>, d: Direction)
    ensures Won(completed, d.IsNS()) == WonBy(completed, d, d.Partner())
  {
    if completed != [] {
      WonByPartners(Init(completed), d);
      SamePair(Last(completed).winner, d);
    }
  }

  lemma {:induction false} SamePair(a: Direction, d: Direction)
    ensures a.IsNS() == d.IsNS() <==> a in {d, d.Partner()}
    ensures North.Partner() == South && South.Partner() == North && East.Partner() == West && West.Partner() == East
  {
  }

  /** What a pair gets of a claim: the tricks claimed if one of them made it, else the rest. */
  function ShareOf(f: Folded, a: Direction, b: Direction): int {
    match f.claim
    case None => 0
    case Some(c) => if c.seat in {a, b} then c.tricks else 13 - |f.completed| - c.tricks
  }

  lemma {:induction false} PairTricks(board: Board, log: seq<Action>, d: Direction)
    requires board.deal.Valid() && Legal(board, log) && Fold(board, log).contract.Some?
    ensures var f := Fold(board, log);
            (if d.IsNS() then f.ns else f.ew) == WonBy(f.completed, d, d.Partner()) + ShareOf(f, d, d.Partner())
  {
    var f := Fold(board, log);
    TricksAreConserved(board, log);
    WonByPartners(f.completed, d);
    WonByEither(f.completed);
    if f.claim.Some? { SamePair(f.claim.value.seat, d); }
  }

  /** North and South's count is what North or South won and claimed; the other one is East and West's. */
  lemma {:induction false} CountsBelongToPairs(board: Board, log: seq<Action>)
    requires board.deal.Valid() && Legal(board, log) && Fold(board, log).contract.Some?
    ensures var f := Fold(board, log);
            && f.ns == WonBy(f.completed, North, South) + ShareOf(f, North, South)
            && f.ew == WonBy(f.completed, East, West) + ShareOf(f, East, West)
  {
    PairTricks(board, log, North);
    PairTricks(board, log, East);
  }

  /** The result of a complete board counts what declarer or dummy won and claimed against the contract. */
  lemma {:induction false} ResultIsDeclarers(board: Board, log: seq<Action>)
    requires board.deal.Valid() && Legal(board, log)
    requires Fold(board, log).phase == Complete && Fold(board, log).contract.Some?
    ensures var f := Fold(board, log); var c := f.contract.value;
            var declarer, dummy := c.declarer, c.declarer.Partner();
            var n := WonBy(f.completed, declarer, dummy) + ShareOf(f, declarer, dummy);
            && ResultOf(f).Some? && ResultOf(f).value.Scored?
            && ResultOf(f).value.declarerTricks == n
            && ResultOf(f).value.made == n - (c.level + 6)
            && (ResultOf(f).value.made >= 0 <==> n >= c.level + 6)
  {
    PairTricks(board, log, Fold(board, log).contract.value.declarer);
  }

  // ── Whose turn it is ───────────────────────────────────────────────────

  predicate SitsLeftOf(a: Direction, b: Direction) {
    match a
    case North => b == East
    case East => b == South
    case South => b == West
    case West => b == North
  }

  /** The dealer calls first and each call is by the player to the left of the last. */
  lemma {:induction false} CallsGoClockwise(board: Board, log: seq<Action>, i: nat)
    requires board.deal.Valid() && Legal(board, log) && i < |CallsOf(log)|
    ensures |CallsOf(log)| <= |log| && log[i].MakeCall?
    ensures if i == 0 then log[0].seat == board.dealer
            else log[i - 1].MakeCall? && SitsLeftOf(log[i - 1].seat, log[i].seat)
  {
    LogIsCallsPlaysClaim(board, log);
    var calls := CallActions(board.dealer, CallsOf(log));
    assert log[i] == calls[i];
    if i > 0 {
      assert log[i - 1] == calls[i - 1];
      AdvanceNext(board.dealer, i - 1);
    }
  }

  lemma {:induction false} LeftOfLast(d: Direction, j: nat)
    ensures SitsLeftOf(d.Advance(j), d.Advance(j + 1))
  {
    AdvanceNext(d, j);
  }

  lemma {:induction false} WithinTrick(f: Folded, c: Outcome, k: nat, j: nat)
    requires k < |f.completed| && TrickRecorded(f, c, k) && j < 3
    ensures 4 * k + 4 <= |f.played| && SitsLeftOf(f.played[4 * k + j].seat, f.played[4 * k + j + 1].seat)
  {
    var leader := f.completed[k].leader;
    assert f.played[4 * k + j].seat == leader.Advance(j);
    assert f.played[4 * k + (j + 1)].seat == leader.Advance(j + 1);
    LeftOfLast(leader, j);
  }

  lemma {:induction false} WithinCurrent(f: Folded, c: Outcome, trick: CurrentTrick, j: nat)
    requires CurrentRecorded(f, c, trick) && j + 1 < |trick.plays|
    ensures SitsLeftOf(f.played[4 * |f.completed| + j].seat, f.played[4 * |f.completed| + j + 1].seat)
  {
    assert trick.plays[j].seat == trick.leader.Advance(j);
    assert trick.plays[j + 1].seat == trick.leader.Advance(j + 1);
    LeftOfLast(trick.leader, j);
  }

  /** Every trick is recorded for the seats clockwise from its rightful leader. */
  ghost predicate AllRecorded(f: Folded, c: Outcome) {
    && (forall k :: 0 <= k < |f.completed| ==> TrickRecorded(f, c, k))
    && match f.current
       case Some(trick) => CurrentRecorded(f, c, trick)
       case None => |f.played| == 4 * |f.completed|
  }

  lemma {:induction false} ClockwiseIn(f: Folded, c: Outcome, k: nat, j: nat)
    requires AllRecorded(f, c) && j < 3 && 4 * k + j + 1 < |f.played|
    ensures SitsLeftOf(f.played[4 * k + j].seat, f.played[4 * k + j + 1].seat)
  {
    if k < |f.completed| { WithinTrick(f, c, k, j); } else { WithinCurrent(f, c, f.current.value, j); }
  }

  lemma {:induction false} LeadsIn(f: Folded, c: Outcome, k: nat)
    requires AllRecorded(f, c) && 4 * k < |f.played|
    ensures k <= |f.completed| && f.played[4 * k].seat == RightfulLeader(f, c, k)
  {
    if k < |f.completed| {
      assert TrickRecorded(f, c, k);
      assert f.played[4 * k + 0].seat == f.completed[k].leader.Advance(0);
    } else {
      var trick := f.current.value;
      assert trick.plays[0].seat == trick.leader.Advance(0);
    }
  }

  lemma {:induction false} AllRecordedNow(board: Board, log: seq<Action>)
    requires board.deal.Valid() && Legal(board, log) && Fold(board, log).played != []
    ensures Fold(board, log).contract.Some? && AllRecorded(Fold(board, log), Fold(board, log).contract.value)
  {
    PlayedMeansContract(board, log);
    RecordedSeatsAgree(board, log);
  }

  lemma {:induction false} PlayedMeansContract(board: Board, log: seq<Action>)
    requires board.deal.Valid() && Legal(board, log) && Fold(board, log).played != []
    ensures Fold(board, log).contract.Some?
  {
    ReachableInv(board, log);
    if Fold(board, log).contract.None? { NothingPlayed(board, log); }
  }

  /** Within a trick each card is by the player to the left of the last. */
  lemma {:induction false} CardsGoClockwise(board: Board, log: seq<Action>, k: nat, j: nat)
    requires board.deal.Valid() && Legal(board, log)
    requires j < 3 && 4 * k + j + 1 < |Fold(board, log).played|
    ensures var played := Fold(board, log).played; SitsLeftOf(played[4 * k + j].seat, played[4 * k + j + 1].seat)
  {
    AllRecordedNow(board, log);
    var f := Fold(board, log);
    ClockwiseIn(f, f.contract.value, k, j);
  }

  /** The player to declarer's left leads first, and then whoever won the trick before. */
  lemma {:induction false} LeadsPassToWinners(board: Board, log: seq<Action>, k: nat)
    requires board.deal.Valid() && Legal(board, log) && 4 * k < |Fold(board, log).played|
    ensures var f := Fold(board, log);
            && f.contract.Some? && k <= |f.completed|
            && if k == 0 then SitsLeftOf(f.contract.value.declarer, f.played[0].seat)
               else f.played[4 * k].seat == f.completed[k - 1].winner
  {
    AllRecordedNow(board, log);
    var f := Fold(board, log);
    LeadsIn(f, f.contract.value, k);
  }

  // ── What the fold shows ────────────────────────────────────────────────

  /** When a board is over, whose turn it shows, when the opening lead counts as made, and what is left. */
  lemma {:induction false} FoldShows(board: Board, log: seq<Action>)
    requires board.deal.Valid() && Legal(board, log)
    ensures var f := Fold(board, log);
            && f.calls == CallsOf(log) && f.played == PlaysOf(log)
            && (f.phase == Bidding <==> !Scan(f.calls).Over())
            && (f.phase == Complete <==>
                  f.phase != Bidding && (f.contract.None? || |f.played| == 52 || ClaimOf(log).Some?))
            && (f.nextToAct.None? <==> f.phase == Complete)
            && (f.openingLeadMade <==> PlaysOf(log) != [])
            && (f.claim.Some? <==> log != [] && Last(log).ClaimTricks?)
            && (f.claim.Some? ==>
                  && f.claim.value.atCard == |f.played| && f.claim.value.atTrick == |f.played| / 4 + 1
                  && Last(log) == ClaimTricks(f.claim.value.seat, f.claim.value.tricks, f.claim.value.ruling))
            && f.TricksLeft() == if f.phase == Complete then 0 else 13 - |f.played| / 4
  {
    ReachableInv(board, log);
    AuctionRefinesLaws(CallsOf(log), Pass);
    LastIsClaim(board, log);
    var f := Fold(board, log);
    if f.contract.Some? {
      var c, t := ReachablePlay(board, log);
      NoWrapBelow13(|t.completed|);
      TricksAreConserved(board, log);
    } else {
      NothingPlayed(board, log);
      NoWrapBelow13(0);
    }
  }

  /** A trick in progress, with or without cards, is shown until the board is over between two tricks. */
  lemma {:induction false} TrickShown(board: Board, log: seq<Action>)
    requires board.deal.Valid() && Legal(board, log)
    ensures var f := Fold(board, log); f.current.Some? <==> f.phase == Playing || |f.played| % 4 != 0
  {
    if Fold(board, log).contract.Some? {
      var c, t := PlayedInTricks(board, log);
      ShownByTally(board, log, c, t);
    } else {
      ReachableInv(board, log);
      NothingPlayed(board, log);
    }
  }

  lemma {:induction false} PlayedInTricks(board: Board, log: seq<Action>) returns (c: Outcome, t: Tally)
    requires board.deal.Valid() && Legal(board, log) && Fold(board, log).contract.Some?
    ensures ContractOf(board.dealer, CallsOf(log)) == Some(c) && t == TallyIn(c, log)
    ensures |Fold(board, log).played| % 4 != 0 <==> t.trick != []
  {
    c, t := ReachablePlay(board, log);
    RestOfTricks(t, c.OpeningLeader(), TrumpOf(c.strain), PlaysOf(log));
  }

  lemma {:induction false} RestOfTricks(t: Tally, opening: Direction, trump: Option<Suit>, played: seq<PlayedCard>)
    requires InTurn(t, opening, trump, played)
    ensures |played| % 4 != 0 <==> t.trick != []
  {
    assert (4 * |t.completed| + |t.trick|) % 4 == |t.trick|;
  }

  lemma {:induction false} ShownByTally(board: Board, log: seq<Action>, c: Outcome, t: Tally)
    requires ContractOf(board.dealer, CallsOf(log)) == Some(c) && t == TallyIn(c, log)
    ensures var f := Fold(board, log); f.current.Some? <==> f.phase == Playing || t.trick != []
  {
  }

  lemma {:induction false} LastIsClaim(board: Board, log: seq<Action>)
    requires TableInv(board, log)
    ensures ClaimOf(log).Some? <==> log != [] && Last(log).ClaimTricks?
    ensures ClaimOf(log).Some? ==> ClaimOf(log).value.atCard == |PlaysOf(log)|
    ensures ClaimOf(log).Some? ==>
              var c := ClaimOf(log).value; Last(log) == ClaimTricks(c.seat, c.tricks, c.ruling)
  {
    if log != [] { InitOfSnoc(Init(log), Last(log)); }
    assert log == Shape(board.dealer, CallsOf(log), PlaysOf(log), ClaimOf(log));
  }

  // ── Why an action is refused ───────────────────────────────────────────

  /** The reason given for an action: the first that applies of the auction being over, another's turn and a call
      the Laws forbid; of there being no play, another's turn and a card not held or not following; of there
      being no play and too many tricks. With none the action is accepted. */
  lemma {:induction false} RefusedForTheReason(board: Board, log: seq<Action>, a: Action)
    requires board.deal.Valid() && Legal(board, log)
    ensures var s, f := Scan(CallsOf(log)), Fold(board, log);
            RefusalOf(board, log, a) ==
            match a
            case MakeCall(seat, call) =>
              if s.Over() then Some(AuctionIsOver)
              else if seat != board.dealer.Advance(|CallsOf(log)|) then Some(NotYourCall)
              else if !s.Allows(call) then Some(IllegalCall)
              else None
            case PlayCard(seat, card) =>
              if f.phase != Playing then Some(NotInPlay)
              else if f.nextToAct != Some(seat) then Some(NotYourPlay)
              else if !CardStillFits(Table(board, log), seat, card) then Some(IllegalCard)
              else None
            case ClaimTricks(_, tricks, _) =>
              if f.phase != Playing then Some(ClaimOutsidePlay)
              else if tricks > 13 - |PlaysOf(log)| / 4 then Some(ClaimTooMany)
              else None
  {
    ReachableInv(board, log);
    FoldShows(board, log);
    match a {
      case MakeCall(_, call) => AuctionRefinesLaws(CallsOf(log), call);
      case PlayCard(seat, card) => CardFits(Table(board, log), seat, card);
      case ClaimTricks(_, _, _) =>
    }
  }
}
