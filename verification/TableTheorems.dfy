/** The promises of the table, for every log reachable from a valid deal. */
module TableTheorems {
  import opened Bridge
  import opened Auction
  import opened CardPlay
  import opened TableLog
  import opened TableLaws

  // ── Turn order ─────────────────────────────────────────────────────────

  /** A reachable log is its calls, each by the seat in turn, then its plays, then at most one claim. */
  lemma {:induction false} LogIsCallsPlaysClaim(board: Board, log: seq<Action>)
    requires board.deal.Valid() && Legal(board, log)
    ensures log == CallActions(board.dealer, CallsOf(log)) + PlayActions(PlaysOf(log)) + ClaimActions(ClaimOf(log))
    ensures |log| == |CallsOf(log)| + |PlaysOf(log)| + if ClaimOf(log).Some? then 1 else 0
  {
    ReachableInv(board, log);
  }

  /** The play invariant of a reachable log that has a contract. */
  lemma {:induction false} ReachablePlay(board: Board, log: seq<Action>) returns (c: Outcome, t: Tally)
    requires board.deal.Valid() && Legal(board, log) && Fold(board, log).contract.Some?
    ensures Fold(board, log).contract == Some(c) && t == TallyIn(c, log)
    ensures ContractOf(board.dealer, CallsOf(log)) == Some(c)
    ensures Fold(board, log).played == PlaysOf(log) && Fold(board, log).completed == t.completed
    ensures InTurn(t, c.OpeningLeader(), TrumpOf(c.strain), PlaysOf(log))
    ensures CardsKept(board.deal, t, PlaysOf(log)) && TricksCounted(t) && ClaimFits(c, log)
  {
    ReachableInv(board, log);
    c := ContractOf(board.dealer, CallsOf(log)).value;
    t := TallyIn(c, log);
    assert PlayInv(board.deal, c, PlaysOf(log));
  }

  /** Who leads trick `k`: declarer's left-hand opponent, then each winner. */
  function RightfulLeader(f: Folded, c: Outcome, k: nat): Direction
    requires k <= |f.completed|
  {
    if k == 0 then c.declarer.Next() else f.completed[k - 1].winner
  }

  /** Trick `k` was led by its rightful leader, and its cards are recorded for the seats clockwise from there. */
  ghost predicate TrickRecorded(f: Folded, c: Outcome, k: nat)
    requires k < |f.completed|
  {
    var trick := f.completed[k];
    && trick.leader == RightfulLeader(f, c, k)
    && 4 * k + 4 <= |f.played|
    && forall j :: 0 <= j < 4 ==> f.played[4 * k + j] == PlayedCard(trick.leader.Advance(j), trick.cards[j])
  }

  /** Likewise the trick in progress, which is all that is played beyond the completed ones. */
  ghost predicate CurrentRecorded(f: Folded, c: Outcome, trick: CurrentTrick) {
    && trick.leader == RightfulLeader(f, c, |f.completed|)
    && |trick.plays| < 4 && |f.played| == 4 * |f.completed| + |trick.plays|
    && trick.plays == f.played[4 * |f.completed|..]
    && forall j :: 0 <= j < |trick.plays| ==> trick.plays[j].seat == trick.leader.Advance(j)
  }

  /** The seats recorded on the plays are the ones the fold derives from the leader of each trick, in the
      completed tricks and in the one in progress. */
  lemma {:induction false} RecordedSeatsAgree(board: Board, log: seq<Action>)
    requires board.deal.Valid() && Legal(board, log) && Fold(board, log).contract.Some?
    ensures var f := Fold(board, log); var c := f.contract.value;
            && (forall k :: 0 <= k < |f.completed| ==> TrickRecorded(f, c, k))
            && match f.current
               case Some(trick) => CurrentRecorded(f, c, trick)
               case None => |f.played| == 4 * |f.completed|
  {
    var c, t := ReachablePlay(board, log);
    var f := Fold(board, log);
    forall k | 0 <= k < |f.completed| ensures TrickRecorded(f, c, k) {
      assert TrickAt(t.completed, c.OpeningLeader(), TrumpOf(c.strain), PlaysOf(log), k);
    }
    CurrentIsTally(board, log, c, t);
  }

  /** The trick the fold shows is the tally's; it shows none only between tricks. */
  lemma {:induction false} CurrentIsTally(board: Board, log: seq<Action>, c: Outcome, t: Tally)
    requires ContractOf(board.dealer, CallsOf(log)) == Some(c) && t == TallyIn(c, log)
    ensures match Fold(board, log).current
            case Some(trick) => trick == CurrentTrick(t.leader, t.trick)
            case None => t.trick == []
  {
  }

  /** The seat the fold credits with a trick is the one recorded as playing the card that beats the rest. */
  lemma {:induction false} WinnerPlayedWinningCard(board: Board, log: seq<Action>, k: nat) returns (w: nat)
    requires board.deal.Valid() && Legal(board, log) && k < |Fold(board, log).completed|
    ensures var f := Fold(board, log); var trick := f.completed[k];
            && f.contract.Some?
            && BeatsTheRest(trick.cards, TrumpOf(f.contract.value.strain), w)
            && 4 * k + 4 <= |f.played|
            && f.played[4 * k + w] == PlayedCard(trick.winner, trick.cards[w])
  {
    var c, t := ReachablePlay(board, log);
    w := WinnerOfTrick(t, c.OpeningLeader(), TrumpOf(c.strain), PlaysOf(log), k);
  }

  lemma {:induction false} WinnerOfTrick(
    t: Tally, opening: Direction, trump: Option<Suit>, played: seq<PlayedCard>, k: nat) returns (w: nat)
    requires k < |t.completed| && 4 * k + 4 <= |played| && TrickAt(t.completed, opening, trump, played, k)
    requires forall i, j :: 0 <= i < j < |played| ==> played[i].card != played[j].card
    ensures BeatsTheRest(t.completed[k].cards, trump, w)
    ensures played[4 * k + w] == PlayedCard(t.completed[k].winner, t.completed[k].cards[w])
  {
    var trick := t.completed[k];
    forall i, j | 0 <= i < j < 4 ensures trick.cards[i] != trick.cards[j] {
      assert played[4 * k + i].card != played[4 * k + j].card;
    }
    w := Leading(trick.cards, trump, |trick.cards|);
    WinnerIsUnbeaten(trick.leader, trick.cards, trump, w);
  }

  // ── Cards ──────────────────────────────────────────────────────────────

  ghost predicate HasPlayedToTrick(f: Folded, seat: Direction) {
    f.current.Some? && exists j :: 0 <= j < |f.current.value.plays| && f.current.value.plays[j].seat == seat
  }

  lemma {:induction false} OffsetIsPlayed(t: Tally, seat: Direction)
    requires |t.trick| < 4 && forall j :: 0 <= j < |t.trick| ==> t.trick[j].seat == t.leader.Advance(j)
    ensures t.leader.Offset(seat) < |t.trick| <==> exists j :: 0 <= j < |t.trick| && t.trick[j].seat == seat
  {
    if t.leader.Offset(seat) < |t.trick| {
      assert t.trick[t.leader.Offset(seat)].seat == seat;
    }
    if j :| 0 <= j < |t.trick| && t.trick[j].seat == seat {
      assert t.leader.Offset(t.leader.Advance(j)) == j;
    }
  }

  /** Each seat's plays and what it still holds are its thirteen cards, and the number left is fixed
      by the tricks completed and whether the seat has played to the current one. */
  lemma {:induction false} CardsAreConserved(board: Board, log: seq<Action>, seat: Direction)
    requires board.deal.Valid() && Legal(board, log)
    ensures var f := Fold(board, log); var hand := board.deal.Hand(seat);
            && multiset(CardsBy(f.played, seat)) + multiset(Remaining(board, f, seat)) == multiset(hand)
            && |Remaining(board, f, seat)| ==
               13 - |f.completed| - (if HasPlayedToTrick(f, seat) then 1 else 0)
  {
    var f := Fold(board, log);
    ReachableInv(board, log);
    if f.contract.Some? {
      var c, t := ReachablePlay(board, log);
      HandConserved(board.deal, t, f.played, seat);
      LeftToTrick(board, log, t, seat);
    } else {
      NothingPlayed(board, log);
    }
  }

  lemma {:induction false} HandConserved(deal: Deal, t: Tally, played: seq<PlayedCard>, seat: Direction)
    requires deal.Valid() && CardsKept(deal, t, played)
    ensures var left := HandAfter(deal.Hand(seat), played, seat);
            && multiset(CardsBy(played, seat)) + multiset(left) == multiset(deal.Hand(seat))
            && |left| == 13 - TurnsTaken(t, seat)
  {
    forall x | x in CardsBy(played, seat) ensures x in deal.Hand(seat) {
      CardsByMember(played, seat, x);
      var i :| 0 <= i < |played| && played[i] == PlayedCard(seat, x);
    }
    HandsSplit(deal.Hand(seat), played, seat);
  }

  lemma {:induction false} LeftToTrick(board: Board, log: seq<Action>, t: Tally, seat: Direction)
    requires Fold(board, log).contract.Some? && t == TallyIn(Fold(board, log).contract.value, log)
    requires |t.trick| < 4 && forall j :: 0 <= j < |t.trick| ==> t.trick[j].seat == t.leader.Advance(j)
    ensures var f := Fold(board, log);
            TurnsTaken(t, seat) == |f.completed| + if HasPlayedToTrick(f, seat) then 1 else 0
  {
    OffsetIsPlayed(t, seat);
  }

  lemma {:induction false} NothingPlayed(board: Board, log: seq<Action>)
    requires TableInv(board, log) && Fold(board, log).contract.None?
    ensures Fold(board, log).played == [] && Fold(board, log).completed == [] && Fold(board, log).current.None?
  {
  }

  /** No card is played twice, each comes from its seat's hand, and each followed suit if it could. */
  lemma {:induction false} PlaysAreLawful(board: Board, log: seq<Action>)
    requires board.deal.Valid() && Legal(board, log)
    ensures var played := Fold(board, log).played;
            && (forall i :: 0 <= i < |played| ==> played[i].card in board.deal.Hand(played[i].seat))
            && (forall i, j :: 0 <= i < j < |played| ==> played[i].card != played[j].card)
            && (forall i :: 0 <= i < |played| ==> Followed(board.deal, played, i))
  {
    ReachableInv(board, log);
    if Fold(board, log).contract.Some? {
      var _, _ := ReachablePlay(board, log);
    } else {
      NothingPlayed(board, log);
    }
  }

  // ── Tricks ─────────────────────────────────────────────────────────────

  lemma {:induction false} SettleIsExact(t: Tally, raw: RawClaim)
    requires TricksCounted(t) && |t.completed| < 13 && raw.tricks <= 13 - |t.completed|
    ensures var s := Settle(t, raw);
            && s.tricks == raw.tricks && s.ns + s.ew == 13
            && (if raw.seat.IsNS() then s.ns else s.ew) == Won(t.completed, raw.seat.IsNS()) + raw.tricks
  {
    WonByEither(t.completed);
    NoWrapBelow13(|t.completed|);
    var left := 13 - |t.completed|;
    ByteExact(left, raw.tricks);
    ByteExact(t.ns, raw.tricks);
    ByteExact(t.ew, raw.tricks);
    ByteExact(t.ns, left - raw.tricks);
    ByteExact(t.ew, left - raw.tricks);
  }

  /** Tricks are conserved and every byte is the exact integer: each side's count is the tricks it won
      and, after a claim, its share of the rest, with the claimed number never cut down. */
  lemma {:induction false} TricksAreConserved(board: Board, log: seq<Action>)
    requires board.deal.Valid() && Legal(board, log) && Fold(board, log).contract.Some?
    ensures var f := Fold(board, log);
            && |f.completed| <= 13
            && match f.claim
               case None =>
                 && f.ns == Won(f.completed, true) && f.ew == Won(f.completed, false)
                 && f.ns + f.ew == |f.completed|
               case Some(claim) =>
                 && ClaimOf(log) == Some(RawClaim(claim.seat, claim.tricks, claim.ruling, claim.atCard))
                 && (if claim.seat.IsNS() then f.ns else f.ew) == Won(f.completed, claim.seat.IsNS()) + claim.tricks
                 && f.ns + f.ew == 13
  {
    var c, t := ReachablePlay(board, log);
    WonByEither(t.completed);
    var claim := ClaimOf(log);
    if claim.Some? { SettleIsExact(t, claim.value); }
  }

  /** At the end all thirteen tricks are accounted for, or none when the board was passed out. */
  lemma {:induction false} CompleteMeansThirteen(board: Board, log: seq<Action>)
    requires board.deal.Valid() && Legal(board, log) && Fold(board, log).phase == Complete
    ensures var f := Fold(board, log); f.ns + f.ew == if f.contract.Some? then 13 else 0
  {
    if Fold(board, log).contract.Some? {
      TricksAreConserved(board, log);
      PlayedOutOrClaimed(board, log);
    }
  }

  lemma {:induction false} PlayedOutOrClaimed(board: Board, log: seq<Action>)
    requires Fold(board, log).phase == Complete && Fold(board, log).contract.Some?
    ensures Fold(board, log).claim.Some? || |Fold(board, log).completed| == 13
  {
  }

  datatype BoardResult = PassedOut | Scored(declarerTricks: U8, made: int)

  /** The result of a complete board: 0 for made exactly, overtricks above and undertricks below. */
  function ResultOf(f: Folded): Option<BoardResult> {
    if f.phase != Complete then None
    else match f.contract
      case None => Some(PassedOut)
      case Some(c) =>
        var tricks := if c.declarer.IsNS() then f.ns else f.ew;
        Some(Scored(tricks, tricks - (c.level + 6)))
  }

  lemma {:induction false} ResultInRange(board: Board, log: seq<Action>)
    requires board.deal.Valid() && Legal(board, log)
    ensures var f := Fold(board, log);
            match ResultOf(f)
            case None => f.phase != Complete
            case Some(PassedOut) => forall i :: 0 <= i < |f.calls| ==> !f.calls[i].Bid?
            case Some(Scored(tricks, made)) => 0 <= tricks <= 13 && -13 <= made <= 6
  {
    ReachableInv(board, log);
    var f := Fold(board, log);
    if f.phase == Complete {
      CompleteMeansThirteen(board, log);
      ContractFromAutomaton(board.dealer, CallsOf(log));
    }
  }

  // ── Which cards are accepted ───────────────────────────────────────────

  lemma {:induction false} PlayedIsPlays(t: Table)
    ensures t.Folded().played == PlaysOf(t.log)
  {
  }

  predicate Holds(u: Table, seat: Direction, card: Card) {
    card in u.board.deal.Hand(seat) && PlayedCard(seat, card) !in PlaysOf(u.log)
  }

  /** It is the seat's turn to play, and the card is held and follows suit or the seat is void. */
  ghost predicate CardStillFits(u: Table, seat: Direction, card: Card) {
    var f := u.Folded();
    && f.phase == Playing && f.nextToAct == Some(seat) && Holds(u, seat, card)
    && (f.LeadSuit().Some? ==>
          card.suit == f.LeadSuit().value || forall c :: Holds(u, seat, c) ==> c.suit != f.LeadSuit().value)
  }

  lemma {:induction false} CardFits(u: Table, seat: Direction, card: Card)
    ensures Accepts(u.board, u.log, PlayCard(seat, card)) <==> CardStillFits(u, seat, card)
  {
    var f := u.Folded();
    PlayedIsPlays(u);
    LegalIsFollowing(card, Remaining(u.board, f, seat), f.LeadSuit());
    forall c ensures c in Remaining(u.board, f, seat) <==> Holds(u, seat, c) {
      HandAfterMember(u.board.deal.Hand(seat), f.played, seat, c);
    }
  }

  // ── Progress ───────────────────────────────────────────────────────────

  /** An upper bound on the actions still to come. */
  function ActionsLeft(board: Board, log: seq<Action>): int {
    var f := Fold(board, log);
    match f.phase
    case Bidding => CallsLeft(Scan(f.calls)) + 52
    case Playing => 52 - |f.played|
    case Complete => 0
  }

  lemma {:induction false} PlaysSoFar(t: Tally, opening: Direction, trump: Option<Suit>, played: seq<PlayedCard>)
    requires InTurn(t, opening, trump, played) && TricksCounted(t)
    ensures |played| <= 52 && (|t.completed| < 13 ==> |played| < 52)
  {
  }

  lemma {:induction false} NextHasNotPlayed(t: Tally, opening: Direction, trump: Option<Suit>, played: seq<PlayedCard>)
    requires InTurn(t, opening, trump, played) && TricksCounted(t) && |t.completed| < 13
    ensures |played| < 52 && forall j :: 0 <= j < |t.trick| ==> t.trick[j].seat != t.NextToPlay()
  {
    PlaysSoFar(t, opening, trump, played);
    TurnIsAdvance(t, opening, trump, played);
    assert t.leader.Offset(t.NextToPlay()) == |t.trick|;
    OffsetIsPlayed(t, t.NextToPlay());
  }

  /** While the play goes on the seat on turn holds a card, so a legal one. */
  lemma {:induction false} SeatOnTurnCanPlay(board: Board, log: seq<Action>) returns (seat: Direction)
    requires board.deal.Valid() && Legal(board, log) && Fold(board, log).phase == Playing
    ensures var f := Fold(board, log);
            && f.nextToAct == Some(seat)
            && !HasPlayedToTrick(f, seat)
            && LegalCards(Remaining(board, f, seat), f.LeadSuit()) != []
            && |f.played| < 52
  {
    var c, t := PlayingFold(board, log);
    var _, _ := ReachablePlay(board, log);
    NextHasNotPlayed(t, c.OpeningLeader(), TrumpOf(c.strain), PlaysOf(log));
    seat := t.NextToPlay();
    SomeCardLegal(board, log, seat);
  }

  lemma {:induction false} SomeCardLegal(board: Board, log: seq<Action>, seat: Direction)
    requires board.deal.Valid() && Legal(board, log)
    requires var f := Fold(board, log); !HasPlayedToTrick(f, seat) && |f.completed| < 13
    ensures var f := Fold(board, log); LegalCards(Remaining(board, f, seat), f.LeadSuit()) != []
  {
    var f := Fold(board, log);
    CardsAreConserved(board, log, seat);
    LegalIsFollowing(Card(Clubs, 2), Remaining(board, f, seat), f.LeadSuit());
  }

  /** From every reachable table that is not complete some action is accepted. */
  lemma {:induction false} NeverStuck(board: Board, log: seq<Action>) returns (a: Action)
    requires board.deal.Valid() && Legal(board, log) && Fold(board, log).phase != Complete
    ensures Accepts(board, log, a)
  {
    var f := Fold(board, log);
    if f.phase == Bidding {
      a := MakeCall(f.nextToAct.value, Pass);
    } else {
      var seat := SeatOnTurnCanPlay(board, log);
      var legal := LegalCards(Remaining(board, f, seat), f.LeadSuit());
      assert legal[0] in legal;
      a := PlayCard(seat, legal[0]);
    }
  }

  lemma {:induction false} CallSpendsAction(board: Board, log: seq<Action>, a: Action)
    requires TableInv(board, log) && a.MakeCall? && Accepts(board, log, a)
    ensures 0 <= ActionsLeft(board, log + [a]) < ActionsLeft(board, log)
  {
    BiddingFold(board, log);
    LogSnoc(log, a);
    var calls := CallsOf(log);
    LegalSnoc(calls, a.call);
    AuctionBounded(calls);
    AuctionBounded(calls + [a.call]);
    AuctionRefinesLaws(calls, a.call);
    CallSpends(Scan(calls), a.call);
    ScanSnoc(calls, a.call);
    NoPlaysYet(board, log);
    AfterCall(board, log + [a]);
  }

  lemma {:induction false} NoPlaysYet(board: Board, log: seq<Action>)
    requires TableInv(board, log) && !IsComplete(CallsOf(log))
    ensures PlaysOf(log) == [] && ClaimOf(log).None?
  {
  }

  lemma {:induction false} AfterCall(board: Board, log: seq<Action>)
    requires PlaysOf(log) == [] && ClaimOf(log).None?
    ensures ActionsLeft(board, log) ==
            if !IsComplete(CallsOf(log)) then CallsLeft(Scan(CallsOf(log))) + 52
            else if ContractOf(board.dealer, CallsOf(log)).Some? then 52 else 0
  {
  }

  lemma {:induction false} PlaySpendsAction(board: Board, log: seq<Action>, a: Action)
    requires board.deal.Valid() && Legal(board, log) && !a.MakeCall? && Accepts(board, log, a)
    ensures 0 <= ActionsLeft(board, log + [a]) < ActionsLeft(board, log)
  {
    var c, t := PlayingFold(board, log);
    var _ := SeatOnTurnCanPlay(board, log);
    LogSnoc(log, a);
    LeftInPlay(board, log, c);
    LeftInPlay(board, log + [a], c);
  }

  lemma {:induction false} LeftInPlay(board: Board, log: seq<Action>, c: Outcome)
    requires ContractOf(board.dealer, CallsOf(log)) == Some(c)
    ensures ActionsLeft(board, log) ==
            if |TallyIn(c, log).completed| == 13 || ClaimOf(log).Some? then 0 else 52 - |PlaysOf(log)|
  {
  }

  /** Every accepted action uses up some of what was left. */
  lemma {:induction false} EveryActionSpends(board: Board, log: seq<Action>, a: Action)
    requires board.deal.Valid() && Legal(board, log) && Accepts(board, log, a)
    ensures 0 <= ActionsLeft(board, log + [a]) < ActionsLeft(board, log)
  {
    if a.MakeCall? {
      ReachableInv(board, log);
      CallSpendsAction(board, log, a);
    } else {
      PlaySpendsAction(board, log, a);
    }
  }

  /** A run without undo has at most 319 calls and then at most 52 plays, the last of which may be a claim. */
  lemma {:induction false} RunIsBounded(board: Board, log: seq<Action>)
    requires board.deal.Valid() && Legal(board, log)
    ensures |log| + ActionsLeft(board, log) <= 319 + 52
    ensures |CallsOf(log)| <= 319
    ensures |PlaysOf(log)| + (if ClaimOf(log).Some? then 1 else 0) <= 52
  {
    ReachableInv(board, log);
    AuctionBounded(CallsOf(log));
    PlaysBounded(board, log);
    if log != [] {
      LegalLogSnoc(board, Init(log), Last(log));
      RunIsBounded(board, Init(log));
      EveryActionSpends(board, Init(log), Last(log));
    }
  }

  lemma {:induction false} PlaysBounded(board: Board, log: seq<Action>)
    requires TableInv(board, log)
    ensures |PlaysOf(log)| + (if ClaimOf(log).Some? then 1 else 0) <= 52
  {
    if ContractOf(board.dealer, CallsOf(log)).Some? {
      var c := ContractOf(board.dealer, CallsOf(log)).value;
      assert PlayInv(board.deal, c, PlaysOf(log)) && ClaimFits(c, log);
      PlaysSoFar(TallyIn(c, log), c.OpeningLeader(), TrumpOf(c.strain), PlaysOf(log));
    }
  }

  // ── Applying and undoing ───────────────────────────────────────────────

  datatype Op = Apply(a: Action) | UndoTo(n: nat)

  function Exec(t: Table, op: Op): Table {
    match op
    case Apply(a) => t.Applied(a)
    case UndoTo(n) => t.Undone(n)
  }

  function ExecAll(t: Table, ops: seq<Op>): Table {
    if ops == [] then t else Exec(ExecAll(t, Init(ops)), Last(ops))
  }

  function Replay(log: seq<Action>): seq<Op> {
    seq(|log|, i requires 0 <= i < |log| => Apply(log[i]))
  }

  /** No mix of applied and undone actions leaves the legal logs. */
  lemma {:induction false} RunsStayLegal(t: Table, ops: seq<Op>)
    requires Legal(t.board, t.log)
    ensures Legal(t.board, ExecAll(t, ops).log) && ExecAll(t, ops).board == t.board
  {
    if ops != [] {
      RunsStayLegal(t, Init(ops));
      var before := ExecAll(t, Init(ops));
      match Last(ops) {
        case Apply(a) => LegalLogSnoc(t.board, before.log, a);
        case UndoTo(n) => if n <= |before.log| { LegalLogPrefix(t.board, before.log, n); }
      }
    }
  }

  /** Replaying a log from an empty table rebuilds it exactly when it is legal. */
  lemma {:induction false} ReplayRebuilds(board: Board, log: seq<Action>)
    ensures Legal(board, log) <==> ExecAll(Table(board, []), Replay(log)).log == log
  {
    if log != [] {
      var before, a := Init(log), Last(log);
      assert Init(Replay(log)) == Replay(before);
      ReplayRebuilds(board, before);
      LegalLogSnoc(board, before, a);
      ReplayNeverLonger(board, before);
      var t := ExecAll(Table(board, []), Replay(before));
      assert ExecAll(Table(board, []), Replay(log)) == t.Applied(a);
      RunsStayLegal(Table(board, []), Replay(before));
      AppliedMeansSnoc(t, before, a);
    }
  }

  lemma {:induction false} AppliedMeansSnoc(t: Table, before: seq<Action>, a: Action)
    requires |t.log| <= |before|
    ensures t.Applied(a).log == before + [a] <==> t.log == before && Accepts(t.board, before, a)
  {
    if t.Applied(a).log == before + [a] {
      assert |t.log| == |before|;
      assert (t.log + [a])[..|before|] == (before + [a])[..|before|];
    }
  }

  lemma {:induction false} ReplayNeverLonger(board: Board, log: seq<Action>)
    ensures |ExecAll(Table(board, []), Replay(log)).log| <= |log|
  {
    if log != [] {
      assert Init(Replay(log)) == Replay(Init(log));
      ReplayNeverLonger(board, Init(log));
    }
  }

  /** However a state was reached, replaying what survives in its log reaches it too. */
  lemma {:induction false} SurvivingLogIsEnough(board: Board, ops: seq<Op>)
    ensures var t := ExecAll(Table(board, []), ops);
            ExecAll(Table(board, []), Replay(t.log)) == t
  {
    var t := ExecAll(Table(board, []), ops);
    RunsStayLegal(Table(board, []), ops);
    ReplayRebuilds(board, t.log);
    RunsStayLegal(Table(board, []), Replay(t.log));
  }

  lemma {:induction false} ReplayLast(t: Table, log: seq<Action>, a: Action)
    ensures ExecAll(t, Replay(log + [a])) == ExecAll(t, Replay(log)).Applied(a)
  {
    assert Init(Replay(log + [a])) == Replay(log);
  }

  /** Undoing and then applying the dropped actions again restores the table. */
  lemma {:induction false} UndoThenRedo(t: Table, n: nat)
    requires Legal(t.board, t.log) && n <= |t.log|
    ensures ExecAll(t.Undone(n), Replay(t.log[n..])) == t
    decreases |t.log|
  {
    if n < |t.log| {
      var before := Table(t.board, Init(t.log));
      LegalLogSnoc(t.board, before.log, Last(t.log));
      UndoThenRedo(before, n);
      assert before.Undone(n).log == t.Undone(n).log;
      assert t.log[n..] == before.log[n..] + [Last(t.log)];
      ReplayLast(t.Undone(n), before.log[n..], Last(t.log));
    } else {
      assert t.log[..n] == t.log;
    }
  }
}
