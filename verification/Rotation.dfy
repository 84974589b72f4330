/** Turning the deal one seat clockwise (src/rooms.rs) changes nothing but the names of the seats. */
module Rotation {
  import opened Bridge
  import opened Auction
  import opened CardPlay
  import opened TableLog

  // ── Rotated values ─────────────────────────────────────────────────────

  function RotateSeat(seat: Direction): Direction { seat.Next() }

  function RotateDeal(d: Deal): Deal { Deal(d.west, d.north, d.east, d.south) }

  /** The recorded line is dropped: its seats no longer match. */
  function RotateBoard(b: Board): Board { Board(b.dealer.Next(), RotateDeal(b.deal), None) }

  method RotateBoardOne(b: Board) returns (r: Board)
    ensures r == RotateBoard(b)
    ensures r.dealer == b.dealer.Next() && r.line == None
    ensures forall seat: Direction :: r.deal.Hand(seat.Next()) == b.deal.Hand(seat)
  {
    var deal := Deal([], [], [], []);
    var all := [North, East, South, West];
    for i := 0 to 4
      invariant forall k :: 0 <= k < i ==> deal.Hand(all[k].Next()) == b.deal.Hand(all[k])
    {
      deal := deal.WithHand(all[i].Next(), b.deal.Hand(all[i]));
    }
    assert deal == RotateDeal(b.deal) by {
      assert deal.Hand(all[0].Next()) == b.deal.north && deal.Hand(all[1].Next()) == b.deal.east;
      assert deal.Hand(all[2].Next()) == b.deal.south && deal.Hand(all[3].Next()) == b.deal.west;
    }
    return Board(b.dealer.Next(), deal, None);
  }

  function RotateAction(a: Action): Action { a.(seat := a.seat.Next()) }

  function RotateLog(log: seq<Action>): seq<Action> {
    seq(|log|, i requires 0 <= i < |log| => RotateAction(log[i]))
  }

  function RotatePlay(p: PlayedCard): PlayedCard { p.(seat := p.seat.Next()) }

  function RotatePlays(played: seq<PlayedCard>): seq<PlayedCard> {
    seq(|played|, i requires 0 <= i < |played| => RotatePlay(played[i]))
  }

  function RotateTrick(t: CompletedTrick): CompletedTrick {
    t.(leader := t.leader.Next(), winner := t.winner.Next())
  }

  function RotateTricks(tricks: seq<CompletedTrick>): seq<CompletedTrick> {
    seq(|tricks|, i requires 0 <= i < |tricks| => RotateTrick(tricks[i]))
  }

  function RotateTally(t: Tally): Tally {
    Tally(RotateTricks(t.completed), t.leader.Next(), RotatePlays(t.trick), t.ew, t.ns)
  }

  function RotateOutcome(c: Outcome): Outcome { c.(declarer := c.declarer.Next()) }

  function RotateRaw(c: RawClaim): RawClaim { c.(seat := c.seat.Next()) }

  function RotateClaim(c: ClaimRecord): ClaimRecord { c.(seat := c.seat.Next()) }

  function RotateCurrent(c: CurrentTrick): CurrentTrick { CurrentTrick(c.leader.Next(), RotatePlays(c.plays)) }

  function Map<A, B>(o: Option<A>, f: A -> B): Option<B> {
    match o
    case None => None
    case Some(a) => Some(f(a))
  }

  /** Every seat advanced and the two sides' tricks exchanged; calls and cards as they were. */
  function RotateFolded(f: Folded): Folded {
    f.(contract := Map(f.contract, RotateOutcome),
       played := RotatePlays(f.played),
       completed := RotateTricks(f.completed),
       current := Map(f.current, RotateCurrent),
       ns := f.ew,
       ew := f.ns,
       nextToAct := Map(f.nextToAct, RotateSeat),
       claim := Map(f.claim, RotateClaim))
  }

  // ── Each part of the fold commutes with rotation ───────────────────────

  lemma {:induction false} LogPartsRotate(log: seq<Action>)
    ensures CallsOf(RotateLog(log)) == CallsOf(log)
    ensures PlaysOf(RotateLog(log)) == RotatePlays(PlaysOf(log))
    ensures ClaimOf(RotateLog(log)) == Map(ClaimOf(log), RotateRaw)
  {
    if log != [] {
      assert Init(RotateLog(log)) == RotateLog(Init(log));
      LogPartsRotate(Init(log));
    }
  }

  lemma {:induction false} ContractRotates(dealer: Direction, calls: seq<Call>)
    ensures ContractOf(dealer.Next(), calls) == Map(ContractOf(dealer, calls), RotateOutcome)
    ensures NextCaller(dealer.Next(), calls) == NextCaller(dealer, calls).Next()
  {
    AdvanceNext(dealer, |calls|);
    LastBidNames(calls);
    if LastBidOf(calls).Some? {
      var b := LastBidOf(calls).value;
      AdvanceNext(dealer, FirstToName(calls, b.strain, b.index % 2, 0));
    }
  }

  lemma {:induction false} PlayRotates(t: Tally, trump: Option<Suit>, p: PlayedCard)
    requires |t.trick| < 4
    ensures RotateTally(t).Play(RotatePlay(p), trump) == RotateTally(t.Play(p, trump))
  {
    var plays := t.trick + [p];
    assert RotatePlays(plays) == RotatePlays(t.trick) + [RotatePlay(p)];
    if |plays| == 4 {
      var cards: FourCards := [plays[0].card, plays[1].card, plays[2].card, plays[3].card];
      AdvanceNext(t.leader, Leading(cards, trump, |cards|));
      var done := CompletedTrick(t.leader, cards, TrickWinner(t.leader, cards, trump));
      assert RotateTricks(t.completed + [done]) == RotateTricks(t.completed) + [RotateTrick(done)];
    }
  }

  lemma {:induction false} TallyRotates(opening: Direction, trump: Option<Suit>, played: seq<PlayedCard>)
    ensures |TallyOf(opening, trump, played).trick| < 4
    ensures TallyOf(opening.Next(), trump, RotatePlays(played)) == RotateTally(TallyOf(opening, trump, played))
  {
    if played != [] {
      assert Init(RotatePlays(played)) == RotatePlays(Init(played));
      TallyRotates(opening, trump, Init(played));
      PlayRotates(TallyOf(opening, trump, Init(played)), trump, Last(played));
    }
  }

  lemma {:induction false} HandRotates(hand: seq<Card>, played: seq<PlayedCard>, seat: Direction)
    ensures HandAfter(hand, RotatePlays(played), seat.Next()) == HandAfter(hand, played, seat)
  {
    if played != [] {
      assert Init(RotatePlays(played)) == RotatePlays(Init(played));
      HandRotates(hand, Init(played), seat);
    }
  }

  lemma {:induction false} FoldPlayRotates(
    calls: seq<Call>, c: Outcome, played: seq<PlayedCard>, claim: Option<RawClaim>)
    ensures FoldPlay(calls, RotateOutcome(c), RotatePlays(played), Map(claim, RotateRaw)) ==
            RotateFolded(FoldPlay(calls, c, played, claim))
  {
    match claim {
      case None => OpenPlayRotates(calls, c, played);
      case Some(raw) => ClaimedPlayRotates(calls, c, played, raw);
    }
  }

  lemma {:induction false} OpenPlayRotates(calls: seq<Call>, c: Outcome, played: seq<PlayedCard>)
    ensures FoldPlay(calls, RotateOutcome(c), RotatePlays(played), None) == RotateFolded(FoldPlay(calls, c, played, None))
  {
    TallyRotates(c.OpeningLeader(), TrumpOf(c.strain), played);
    NextRotates(TallyOf(c.OpeningLeader(), TrumpOf(c.strain), played));
  }

  lemma {:induction false} ClaimedPlayRotates(calls: seq<Call>, c: Outcome, played: seq<PlayedCard>, raw: RawClaim)
    ensures FoldPlay(calls, RotateOutcome(c), RotatePlays(played), Some(RotateRaw(raw))) ==
            RotateFolded(FoldPlay(calls, c, played, Some(raw)))
  {
    var t := TallyOf(c.OpeningLeader(), TrumpOf(c.strain), played);
    TallyRotates(c.OpeningLeader(), TrumpOf(c.strain), played);
    ClaimedTallyRotates(calls, c, played, t, raw);
  }

  lemma {:induction false} ClaimedTallyRotates(
    calls: seq<Call>, c: Outcome, played: seq<PlayedCard>, t: Tally, raw: RawClaim)
    ensures ClaimedPlay(calls, RotateOutcome(c), RotatePlays(played), RotateTally(t), RotateRaw(raw)) ==
            RotateFolded(ClaimedPlay(calls, c, played, t, raw))
  {
    SettleRotates(t, raw);
  }

  lemma {:induction false} NextRotates(t: Tally)
    ensures RotateTally(t).NextToPlay() == t.NextToPlay().Next()
  {
  }

  lemma {:induction false} SettleRotates(t: Tally, claim: RawClaim)
    ensures var s := Settle(t, claim); Settle(RotateTally(t), RotateRaw(claim)) == Settlement(s.ew, s.ns, s.tricks)
  {
  }

  // ── The rotated table ──────────────────────────────────────────────────

  /** The rotated log folds to the rotated fold, whatever the log. */
  lemma {:induction false} FoldRotates(board: Board, log: seq<Action>)
    ensures Fold(RotateBoard(board), RotateLog(log)) == RotateFolded(Fold(board, log))
  {
    LogPartsRotate(log);
    var calls, played := CallsOf(log), PlaysOf(log);
    ContractRotates(board.dealer, calls);
    if ContractOf(board.dealer, calls).Some? {
      FoldPlayRotates(calls, ContractOf(board.dealer, calls).value, played, ClaimOf(log));
    }
  }

  lemma {:induction false} LeadSuitRotates(f: Folded)
    ensures RotateFolded(f).LeadSuit() == f.LeadSuit() && RotateFolded(f).TricksLeft() == f.TricksLeft()
  {
  }

  lemma {:induction false} ChecksRotate(board: Board, f: Folded, a: Action)
    ensures RefusalIn(RotateBoard(board), RotateFolded(f), RotateAction(a)) == RefusalIn(board, f, a)
  {
    LeadSuitRotates(f);
    TurnRotates(f, a.seat);
    RemainingRotates(board, f, a.seat);
  }

  lemma {:induction false} TurnRotates(f: Folded, seat: Direction)
    ensures RotateFolded(f).nextToAct == Some(seat.Next()) <==> f.nextToAct == Some(seat)
  {
  }

  lemma {:induction false} RemainingRotates(board: Board, f: Folded, seat: Direction)
    ensures Remaining(RotateBoard(board), RotateFolded(f), seat.Next()) == Remaining(board, f, seat)
  {
    assert RotateDeal(board.deal).Hand(seat.Next()) == board.deal.Hand(seat);
    HandRotates(board.deal.Hand(seat), f.played, seat);
  }

  /** The rotated action is refused for the same reason as the original, or accepted as it is. */
  lemma {:induction false} RefusalRotates(board: Board, log: seq<Action>, a: Action)
    ensures RefusalOf(RotateBoard(board), RotateLog(log), RotateAction(a)) == RefusalOf(board, log, a)
  {
    FoldRotates(board, log);
    ChecksRotate(board, Fold(board, log), a);
  }

  /** A log is legal on a board exactly when the rotated log is legal on the rotated board. */
  lemma {:induction false} LegalRotates(board: Board, log: seq<Action>)
    ensures Legal(RotateBoard(board), RotateLog(log)) <==> Legal(board, log)
  {
    forall i | 0 <= i < |log|
      ensures AcceptedAt(RotateBoard(board), RotateLog(log), i) <==> AcceptedAt(board, log, i)
    {
      assert RotateLog(log)[..i] == RotateLog(log[..i]);
      RefusalRotates(board, log[..i], log[i]);
    }
  }

  /** Four quarter turns bring every hand home. */
  lemma {:induction false} FourTurns(b: Board)
    ensures RotateBoard(RotateBoard(RotateBoard(RotateBoard(b)))) == b.(line := None)
  {
  }
}
