/** What holds of every reachable table log: shape, turn order, cards and tricks. */
module TableLaws {
  import opened Bridge
  import opened Auction
  import opened CardPlay
  import opened TableLog

  // ── The play, card by card ─────────────────────────────────────────────

  /** The leader of trick `k`: the previous winner, or declarer's left-hand opponent. */
  function LeaderOf(opening: Direction, completed: seq<CompletedTrick>, k: nat): Direction
    requires k <= |completed|
  {
    if k == 0 then opening else completed[k - 1].winner
  }

  /** Trick `k` of `played` was led by its rightful leader and played clockwise from there, and the
      winner recorded the winning card. */
  ghost predicate TrickAt(
    completed: seq<CompletedTrick>, opening: Direction, trump: Option<Suit>, played: seq<PlayedCard>, k: nat)
    requires k < |completed| && 4 * k + 4 <= |played|
  {
    var trick := completed[k];
    && trick.leader == LeaderOf(opening, completed, k)
    && (forall j :: 0 <= j < 4 ==> played[4 * k + j] == PlayedCard(trick.leader.Advance(j), trick.cards[j]))
    && trick.winner == TrickWinner(trick.leader, trick.cards, trump)
  }

  /** The tally's tricks are the plays in order, four at a time, each by the seat whose turn it was. */
  ghost predicate InTurn(t: Tally, opening: Direction, trump: Option<Suit>, played: seq<PlayedCard>) {
    && |played| == 4 * |t.completed| + |t.trick|
    && |t.trick| < 4
    && (forall k :: 0 <= k < |t.completed| ==> TrickAt(t.completed, opening, trump, played, k))
    && t.leader == LeaderOf(opening, t.completed, |t.completed|)
    && t.trick == played[4 * |t.completed|..]
    && (forall j :: 0 <= j < |t.trick| ==> t.trick[j].seat == t.leader.Advance(j))
  }

  function SuitLed(t: Tally): Option<Suit> {
    if t.trick == [] then None else Some(t.trick[0].card.suit)
  }

  lemma {:induction false} TurnIsAdvance(t: Tally, opening: Direction, trump: Option<Suit>, played: seq<PlayedCard>)
    requires InTurn(t, opening, trump, played)
    ensures t.NextToPlay() == t.leader.Advance(|t.trick|)
  {
    if t.trick != [] { AdvanceNext(t.leader, |t.trick| - 1); }
  }

  lemma {:induction false} TrickStays(
    t: Tally, opening: Direction, trump: Option<Suit>, played: seq<PlayedCard>, p: PlayedCard, k: nat)
    requires k < |t.completed| && 4 * k + 4 <= |played| && |t.trick| < 4
    requires TrickAt(t.completed, opening, trump, played, k)
    ensures TrickAt(t.Play(p, trump).completed, opening, trump, played + [p], k)
  {
  }

  lemma {:induction false} TrickEnds(
    t: Tally, opening: Direction, trump: Option<Suit>, played: seq<PlayedCard>, p: PlayedCard)
    requires |t.trick| == 3 && |played| == 4 * |t.completed| + 3
    requires t.leader == LeaderOf(opening, t.completed, |t.completed|)
    requires t.trick == played[4 * |t.completed|..]
    requires forall j :: 0 <= j < 3 ==> t.trick[j].seat == t.leader.Advance(j)
    requires p.seat == t.leader.Advance(3)
    ensures TrickAt(t.Play(p, trump).completed, opening, trump, played + [p], |t.completed|)
  {
    var n, played' := |t.completed|, played + [p];
    assert forall j :: 0 <= j < 3 ==> played'[4 * n + j] == t.trick[j];
  }

  lemma {:induction false} PlayKeepsTurn(
    t: Tally, opening: Direction, trump: Option<Suit>, played: seq<PlayedCard>, p: PlayedCard)
    requires InTurn(t, opening, trump, played) && p.seat == t.NextToPlay()
    ensures InTurn(t.Play(p, trump), opening, trump, played + [p])
  {
    TurnIsAdvance(t, opening, trump, played);
    TricksStay(t, opening, trump, played, p);
    if |t.trick| == 3 {
      TrickEnds(t, opening, trump, played, p);
      NextTrickStarts(t, trump, played, p);
    } else {
      TrickGoesOn(t, trump, played, p);
    }
  }

  lemma {:induction false} TricksStay(
    t: Tally, opening: Direction, trump: Option<Suit>, played: seq<PlayedCard>, p: PlayedCard)
    requires InTurn(t, opening, trump, played)
    ensures |t.Play(p, trump).completed| >= |t.completed|
    ensures forall k :: 0 <= k < |t.completed| ==>
              TrickAt(t.Play(p, trump).completed, opening, trump, played + [p], k)
  {
    forall k | 0 <= k < |t.completed|
      ensures TrickAt(t.Play(p, trump).completed, opening, trump, played + [p], k)
    {
      TrickStays(t, opening, trump, played, p, k);
    }
  }

  lemma {:induction false} TrickGoesOn(t: Tally, trump: Option<Suit>, played: seq<PlayedCard>, p: PlayedCard)
    requires |t.trick| < 3 && |played| == 4 * |t.completed| + |t.trick|
    requires t.trick == played[4 * |t.completed|..] && p.seat == t.leader.Advance(|t.trick|)
    requires forall j :: 0 <= j < |t.trick| ==> t.trick[j].seat == t.leader.Advance(j)
    ensures var u := t.Play(p, trump);
            && u == t.(trick := t.trick + [p]) && u.trick == (played + [p])[4 * |t.completed|..]
            && forall j :: 0 <= j < |u.trick| ==> u.trick[j].seat == u.leader.Advance(j)
  {
    assert (played + [p])[4 * |t.completed|..] == t.trick + [p];
  }

  lemma {:induction false} NextTrickStarts(t: Tally, trump: Option<Suit>, played: seq<PlayedCard>, p: PlayedCard)
    requires |t.trick| == 3 && |played| == 4 * |t.completed| + 3
    ensures var u := t.Play(p, trump);
            && u.trick == [] && |u.completed| == |t.completed| + 1 && (played + [p])[4 * |u.completed|..] == []
  {
  }

  // ── Cards ──────────────────────────────────────────────────────────────

  /** Cards `seat` has played so far: one per completed trick, and one if its turn in this trick is past. */
  function TurnsTaken(t: Tally, seat: Direction): nat {
    |t.completed| + if t.leader.Offset(seat) < |t.trick| then 1 else 0
  }

  /** The suit led to the trick that play `i` belongs to, if it is not itself the lead. */
  function LedBefore(played: seq<PlayedCard>, i: nat): Option<Suit>
    requires i <= |played|
  {
    if i % 4 == 0 then None else Some(played[i - i % 4].card.suit)
  }

  /** Play `i` followed suit if its seat, with what it held at that moment, could. */
  ghost predicate Followed(deal: Deal, played: seq<PlayedCard>, i: nat)
    requires i < |played|
  {
    var p := played[i];
    FollowsSuit(p.card, HandAfter(deal.Hand(p.seat), played[..i], p.seat), LedBefore(played, i))
  }

  ghost predicate CardsKept(deal: Deal, t: Tally, played: seq<PlayedCard>) {
    && (forall i :: 0 <= i < |played| ==> played[i].card in deal.Hand(played[i].seat))
    && (forall i, j :: 0 <= i < j < |played| ==> played[i].card != played[j].card)
    && (forall i :: 0 <= i < |played| ==> Followed(deal, played, i))
    && (forall seat :: NoDup(CardsBy(played, seat)))
    && (forall seat :: |CardsBy(played, seat)| == TurnsTaken(t, seat))
  }

  lemma {:induction false} TurnsTakenStep(t: Tally, trump: Option<Suit>, p: PlayedCard, seat: Direction)
    requires |t.trick| < 4 && p.seat == t.leader.Advance(|t.trick|)
    ensures TurnsTaken(t.Play(p, trump), seat) == TurnsTaken(t, seat) + if p.seat == seat then 1 else 0
  {
    OffsetUnique(t.leader, seat, |t.trick|);
  }

  lemma {:induction false} PlayKeepsDistinct(deal: Deal, played: seq<PlayedCard>, p: PlayedCard)
    requires deal.Valid() && p.card in HandAfter(deal.Hand(p.seat), played, p.seat)
    requires forall i :: 0 <= i < |played| ==> played[i].card in deal.Hand(played[i].seat)
    ensures p.card in deal.Hand(p.seat) && p.card !in CardsBy(played, p.seat)
    ensures forall i :: 0 <= i < |played| ==> played[i].card != p.card
  {
    HandAfterMember(deal.Hand(p.seat), played, p.seat, p.card);
    CardsByMember(played, p.seat, p.card);
    forall i | 0 <= i < |played| ensures played[i].card != p.card {
      assert played[i] in played;
      if played[i].seat == p.seat {
        assert played[i] == PlayedCard(p.seat, played[i].card);
      }
    }
  }

  lemma {:induction false} PlayKeepsHeld(deal: Deal, played: seq<PlayedCard>, p: PlayedCard)
    requires forall i :: 0 <= i < |played| ==> played[i].card in deal.Hand(played[i].seat)
    requires forall i, j :: 0 <= i < j < |played| ==> played[i].card != played[j].card
    requires p.card in deal.Hand(p.seat) && forall i :: 0 <= i < |played| ==> played[i].card != p.card
    ensures var all := played + [p];
            && (forall i :: 0 <= i < |all| ==> all[i].card in deal.Hand(all[i].seat))
            && (forall i, j :: 0 <= i < j < |all| ==> all[i].card != all[j].card)
  {
  }

  lemma {:induction false} PlayKeepsCards(
    deal: Deal, t: Tally, opening: Direction, trump: Option<Suit>, played: seq<PlayedCard>, p: PlayedCard)
    requires deal.Valid() && InTurn(t, opening, trump, played) && CardsKept(deal, t, played)
    requires p.seat == t.NextToPlay()
    requires FollowsSuit(p.card, HandAfter(deal.Hand(p.seat), played, p.seat), SuitLed(t))
    ensures CardsKept(deal, t.Play(p, trump), played + [p])
  {
    TurnIsAdvance(t, opening, trump, played);
    PlayKeepsDistinct(deal, played, p);
    PlayKeepsHeld(deal, played, p);
    LedIsTrickLead(t, opening, trump, played);
    PlayKeepsFollowing(deal, played, p);
    forall seat
      ensures NoDup(CardsBy(played + [p], seat))
      ensures |CardsBy(played + [p], seat)| == TurnsTaken(t.Play(p, trump), seat)
    {
      PlayCountsForSeat(t, trump, played, p, seat);
    }
  }

  lemma {:induction false} PlayCountsForSeat(
    t: Tally, trump: Option<Suit>, played: seq<PlayedCard>, p: PlayedCard, seat: Direction)
    requires NoDup(CardsBy(played, seat)) && |CardsBy(played, seat)| == TurnsTaken(t, seat)
    requires p.card !in CardsBy(played, p.seat)
    requires |t.trick| < 4 && p.seat == t.leader.Advance(|t.trick|)
    ensures NoDup(CardsBy(played + [p], seat))
    ensures |CardsBy(played + [p], seat)| == TurnsTaken(t.Play(p, trump), seat)
  {
    CardsBySnoc(played, p, seat);
    NoDupSnoc(CardsBy(played, seat), p.card);
    TurnsTakenStep(t, trump, p, seat);
  }

  lemma {:induction false} PlayKeepsFollowing(deal: Deal, played: seq<PlayedCard>, p: PlayedCard)
    requires forall i :: 0 <= i < |played| ==> Followed(deal, played, i)
    requires FollowsSuit(p.card, HandAfter(deal.Hand(p.seat), played, p.seat), LedBefore(played, |played|))
    ensures forall i :: 0 <= i < |played + [p]| ==> Followed(deal, played + [p], i)
  {
    FollowedNow(deal, played, p);
    forall i | 0 <= i < |played| ensures Followed(deal, played + [p], i) {
      FollowedLater(deal, played, p, i);
    }
  }

  lemma {:induction false} Modulo4(n: nat, r: nat)
    requires r < 4
    ensures (4 * n + r) % 4 == r
  {
  }

  lemma {:induction false} LedIsTrickLead(t: Tally, opening: Direction, trump: Option<Suit>, played: seq<PlayedCard>)
    requires InTurn(t, opening, trump, played)
    ensures LedBefore(played, |played|) == SuitLed(t)
  {
    Modulo4(|t.completed|, |t.trick|);
    assert t.trick != [] ==> t.trick[0] == played[4 * |t.completed|];
  }

  lemma {:induction false} FollowedLater(deal: Deal, played: seq<PlayedCard>, p: PlayedCard, i: nat)
    requires i < |played| && Followed(deal, played, i)
    ensures Followed(deal, played + [p], i)
  {
    assert (played + [p])[..i] == played[..i];
    assert LedBefore(played + [p], i) == LedBefore(played, i);
  }

  lemma {:induction false} FollowedNow(deal: Deal, played: seq<PlayedCard>, p: PlayedCard)
    requires FollowsSuit(p.card, HandAfter(deal.Hand(p.seat), played, p.seat), LedBefore(played, |played|))
    ensures Followed(deal, played + [p], |played|)
  {
    assert (played + [p])[..|played|] == played;
    assert LedBefore(played + [p], |played|) == LedBefore(played, |played|);
  }

  // ── Tricks ─────────────────────────────────────────────────────────────

  /** Completed tricks won by North and South, or by East and West. */
  function Won(completed: seq<CompletedTrick>, ns: bool): nat {
    if completed == [] then 0
    else Won(Init(completed), ns) + if Last(completed).winner.IsNS() == ns then 1 else 0
  }

  lemma {:induction false} WonByEither(completed: seq<CompletedTrick>)
    ensures Won(completed, true) + Won(completed, false) == |completed|
  {
    if completed != [] { WonByEither(Init(completed)); }
  }

  ghost predicate TricksCounted(t: Tally) {
    && |t.completed| <= 13
    && (|t.completed| == 13 ==> t.trick == [])
    && t.ns == Won(t.completed, true) && t.ew == Won(t.completed, false)
  }

  lemma {:induction false} PlayKeepsCount(t: Tally, trump: Option<Suit>, p: PlayedCard)
    requires TricksCounted(t) && |t.completed| < 13
    ensures TricksCounted(t.Play(p, trump))
  {
    WonByEither(t.completed);
    if |t.trick| == 3 {
      var trick := Last(t.Play(p, trump).completed);
      WonSnoc(t.completed, trick, true);
      WonSnoc(t.completed, trick, false);
    }
  }

  lemma {:induction false} WonSnoc(completed: seq<CompletedTrick>, trick: CompletedTrick, ns: bool)
    ensures Won(completed + [trick], ns) == Won(completed, ns) + if trick.winner.IsNS() == ns then 1 else 0
  {
    InitOfSnoc(completed, trick);
  }

  // ── The invariant ──────────────────────────────────────────────────────

  ghost predicate PlayInv(deal: Deal, c: Outcome, played: seq<PlayedCard>) {
    var trump := TrumpOf(c.strain);
    var t := TallyOf(c.OpeningLeader(), trump, played);
    && InTurn(t, c.OpeningLeader(), trump, played)
    && CardsKept(deal, t, played)
    && TricksCounted(t)
  }

  // ── The log's shape ────────────────────────────────────────────────────

  function CallActions(dealer: Direction, calls: seq<Call>): seq<Action> {
    seq(|calls|, i requires 0 <= i < |calls| => MakeCall(dealer.Advance(i), calls[i]))
  }

  function PlayActions(played: seq<PlayedCard>): seq<Action> {
    seq(|played|, j requires 0 <= j < |played| => PlayCard(played[j].seat, played[j].card))
  }

  function ClaimActions(claim: Option<RawClaim>): seq<Action> {
    match claim
    case None => []
    case Some(c) => [ClaimTricks(c.seat, c.tricks, c.ruling)]
  }

  /** Calls by each seat in turn from the dealer, then plays, then at most one claim. */
  function Shape(dealer: Direction, calls: seq<Call>, plays: seq<PlayedCard>, claim: Option<RawClaim>): seq<Action> {
    CallActions(dealer, calls) + PlayActions(plays) + ClaimActions(claim)
  }

  ghost predicate WellShaped(dealer: Direction, log: seq<Action>) {
    && log == Shape(dealer, CallsOf(log), PlaysOf(log), ClaimOf(log))
    && (ClaimOf(log).Some? ==> ClaimOf(log).value.atCard == |PlaysOf(log)|)
  }

  lemma {:induction false} ShapeGrows(dealer: Direction, log: seq<Action>, a: Action)
    requires WellShaped(dealer, log) && ClaimOf(log).None?
    requires a.MakeCall? ==> PlaysOf(log) == [] && a.seat == dealer.Advance(|CallsOf(log)|)
    ensures WellShaped(dealer, log + [a])
  {
    LogSnoc(log, a);
    var calls, plays := CallsOf(log), PlaysOf(log);
    match a {
      case MakeCall(_, call) => ShapeOfCall(dealer, calls, call);
      case PlayCard(seat, card) => ShapeOfPlay(dealer, calls, plays, PlayedCard(seat, card));
      case ClaimTricks(seat, tricks, ruling) =>
        ShapeOfClaim(dealer, calls, plays, RawClaim(seat, tricks, ruling, |plays|));
    }
  }

  lemma {:induction false} ShapeOfCall(dealer: Direction, calls: seq<Call>, call: Call)
    ensures Shape(dealer, calls + [call], [], None) ==
            Shape(dealer, calls, [], None) + [MakeCall(dealer.Advance(|calls|), call)]
  {
    CallActionsSnoc(dealer, calls, call);
  }

  lemma {:induction false} ShapeOfPlay(dealer: Direction, calls: seq<Call>, plays: seq<PlayedCard>, p: PlayedCard)
    ensures Shape(dealer, calls, plays + [p], None) == Shape(dealer, calls, plays, None) + [PlayCard(p.seat, p.card)]
  {
    PlayActionsSnoc(plays, p);
  }

  lemma {:induction false} ShapeOfClaim(dealer: Direction, calls: seq<Call>, plays: seq<PlayedCard>, c: RawClaim)
    ensures Shape(dealer, calls, plays, Some(c)) ==
            Shape(dealer, calls, plays, None) + [ClaimTricks(c.seat, c.tricks, c.ruling)]
  {
  }

  lemma {:induction false} CallActionsSnoc(dealer: Direction, calls: seq<Call>, call: Call)
    ensures CallActions(dealer, calls + [call]) ==
            CallActions(dealer, calls) + [MakeCall(dealer.Advance(|calls|), call)]
  {
  }

  lemma {:induction false} PlayActionsPrefix(played: seq<PlayedCard>, k: nat)
    requires k <= |played|
    ensures PlayActions(played)[..k] == PlayActions(played[..k])
  {
  }

  lemma {:induction false} PlayActionsSnoc(played: seq<PlayedCard>, p: PlayedCard)
    ensures PlayActions(played + [p]) == PlayActions(played) + [PlayCard(p.seat, p.card)]
  {
  }

  // ── The invariant over the whole log ───────────────────────────────────

  /** The tally of the plays in `log` under contract `c`. */
  function TallyIn(c: Outcome, log: seq<Action>): Tally {
    TallyOf(c.OpeningLeader(), TrumpOf(c.strain), PlaysOf(log))
  }

  ghost predicate ClaimFits(c: Outcome, log: seq<Action>) {
    ClaimOf(log).Some? ==>
      |TallyIn(c, log).completed| < 13 && ClaimOf(log).value.tricks <= 13 - |TallyIn(c, log).completed|
  }

  /** Without a contract nothing is played or claimed; with one the play is in order. */
  ghost predicate PlayFits(board: Board, log: seq<Action>) {
    match ContractOf(board.dealer, CallsOf(log))
    case None => PlaysOf(log) == [] && ClaimOf(log).None?
    case Some(c) => PlayInv(board.deal, c, PlaysOf(log)) && ClaimFits(c, log)
  }

  ghost predicate TableInv(board: Board, log: seq<Action>) {
    && WellShaped(board.dealer, log)
    && LegalAuction(CallsOf(log))
    && PlayFits(board, log)
  }

  lemma {:induction false} PlayedUnderContract(board: Board, log: seq<Action>)
    requires PlayFits(board, log) && PlaysOf(log) != []
    ensures var c := ContractOf(board.dealer, CallsOf(log)); c.Some? && PlayInv(board.deal, c.value, PlaysOf(log))
  {
  }

  lemma {:induction false} EmptyPlay(deal: Deal, c: Outcome)
    ensures PlayInv(deal, c, [])
  {
  }

  lemma {:induction false} BiddingFold(board: Board, log: seq<Action>)
    requires Fold(board, log).phase == Bidding
    ensures !IsComplete(CallsOf(log)) && ContractOf(board.dealer, CallsOf(log)).None?
    ensures Fold(board, log).nextToAct == Some(board.dealer.Advance(|CallsOf(log)|))
    ensures Fold(board, log).calls == CallsOf(log)
  {
  }

  /** What the fold reads off the tally while the play goes on. */
  lemma {:induction false} PlayingFold(board: Board, log: seq<Action>) returns (c: Outcome, t: Tally)
    requires Fold(board, log).phase == Playing
    ensures ContractOf(board.dealer, CallsOf(log)) == Some(c) && ClaimOf(log).None?
    ensures t == TallyIn(c, log) && |t.completed| != 13
    ensures var f := Fold(board, log);
            && f.contract == Some(c) && f.played == PlaysOf(log) && f.completed == t.completed
            && f.current == Some(CurrentTrick(t.leader, t.trick))
            && f.nextToAct == Some(t.NextToPlay()) && f.LeadSuit() == SuitLed(t)
  {
    c := ContractOf(board.dealer, CallsOf(log)).value;
    t := TallyIn(c, log);
  }

  lemma {:induction false} CallKeepsInv(board: Board, log: seq<Action>, a: Action)
    requires TableInv(board, log) && a.MakeCall? && Accepts(board, log, a)
    ensures TableInv(board, log + [a])
  {
    BiddingFold(board, log);
    ShapeGrows(board.dealer, log, a);
    LogSnoc(log, a);
    LegalSnoc(CallsOf(log), a.call);
    var contract := ContractOf(board.dealer, CallsOf(log + [a]));
    if contract.Some? { EmptyPlay(board.deal, contract.value); }
  }

  lemma {:induction false} PlayExtends(deal: Deal, c: Outcome, played: seq<PlayedCard>, p: PlayedCard, t: Tally)
    requires t == TallyOf(c.OpeningLeader(), TrumpOf(c.strain), played)
    requires deal.Valid() && PlayInv(deal, c, played)
    requires |t.completed| < 13 && p.seat == t.NextToPlay()
    requires FollowsSuit(p.card, HandAfter(deal.Hand(p.seat), played, p.seat), SuitLed(t))
    ensures PlayInv(deal, c, played + [p])
  {
    var opening, trump := c.OpeningLeader(), TrumpOf(c.strain);
    TallySnoc(opening, trump, played, p);
    PlayKeepsTurn(t, opening, trump, played, p);
    PlayKeepsCards(deal, t, opening, trump, played, p);
    PlayKeepsCount(t, trump, p);
  }

  /** An accepted card follows suit, given what its seat still holds. */
  lemma {:induction false} AcceptedPlayFollows(board: Board, log: seq<Action>, a: Action, c: Outcome, t: Tally)
    requires a.PlayCard? && Accepts(board, log, a)
    requires ContractOf(board.dealer, CallsOf(log)) == Some(c) && t == TallyIn(c, log)
    ensures a.seat == t.NextToPlay()
    ensures FollowsSuit(a.card, HandAfter(board.deal.Hand(a.seat), PlaysOf(log), a.seat), SuitLed(t))
  {
    var f := Fold(board, log);
    var _, _ := PlayingFold(board, log);
    LegalIsFollowing(a.card, Remaining(board, f, a.seat), f.LeadSuit());
  }

  lemma {:induction false} PlayKeepsInv(board: Board, log: seq<Action>, a: Action)
    requires board.deal.Valid() && TableInv(board, log) && a.PlayCard? && Accepts(board, log, a)
    ensures TableInv(board, log + [a])
  {
    var c, t := PlayingFold(board, log);
    AcceptedPlayFollows(board, log, a, c, t);
    ShapeGrows(board.dealer, log, a);
    LogSnoc(log, a);
    PlayExtends(board.deal, c, PlaysOf(log), PlayedCard(a.seat, a.card), t);
  }

  /** An accepted claim is for no more than the tricks left. */
  lemma {:induction false} AcceptedClaimFits(board: Board, log: seq<Action>, a: Action, c: Outcome, t: Tally)
    requires a.ClaimTricks? && Accepts(board, log, a) && |t.completed| < 13
    requires ContractOf(board.dealer, CallsOf(log)) == Some(c) && t == TallyIn(c, log)
    ensures a.tricks <= 13 - |t.completed|
  {
    var _, _ := PlayingFold(board, log);
    NoWrapBelow13(|t.completed|);
  }

  lemma {:induction false} ClaimKeepsInv(board: Board, log: seq<Action>, a: Action)
    requires TableInv(board, log) && a.ClaimTricks? && Accepts(board, log, a)
    ensures TableInv(board, log + [a])
  {
    var c, t := PlayingFold(board, log);
    assert PlayInv(board.deal, c, PlaysOf(log));
    assert |t.completed| < 13 by { assert TricksCounted(t); }
    AcceptedClaimFits(board, log, a, c, t);
    ShapeGrows(board.dealer, log, a);
    LogSnoc(log, a);
    assert TallyIn(c, log + [a]) == t;
  }

  /** Every reachable log satisfies the invariant. */
  lemma {:induction false} ReachableInv(board: Board, log: seq<Action>)
    requires board.deal.Valid() && Legal(board, log)
    ensures TableInv(board, log)
  {
    if log != [] {
      var before, a := Init(log), Last(log);
      LegalLogSnoc(board, before, a);
      ReachableInv(board, before);
      match a {
        case MakeCall(_, _) => CallKeepsInv(board, before, a);
        case PlayCard(_, _) => PlayKeepsInv(board, before, a);
        case ClaimTricks(_, _, _) => ClaimKeepsInv(board, before, a);
      }
    }
  }

  /** Any legal auction can be bid: its calls, made in turn, are a legal log. */
  lemma {:induction false} AuctionIsReachable(board: Board, calls: seq<Call>)
    requires LegalAuction(calls)
    ensures var log := CallActions(board.dealer, calls);
            Legal(board, log) && CallsOf(log) == calls && PlaysOf(log) == [] && ClaimOf(log).None?
  {
    if calls != [] {
      var before, call := Init(calls), Last(calls);
      LegalSnoc(before, call);
      AuctionIsReachable(board, before);
      CallActionsSnoc(board.dealer, before, call);
      var log, a := CallActions(board.dealer, before), MakeCall(board.dealer.Advance(|before|), call);
      LogSnoc(log, a);
      LegalLogSnoc(board, log, a);
    }
  }

  /** A legal auction with a contract hands over to the opening leader, who may lead any card held. */
  lemma {:induction false} AuctionHandsOver(board: Board, calls: seq<Call>, c: Outcome)
    requires LegalAuction(calls) && ContractOf(board.dealer, calls) == Some(c)
    ensures var log := CallActions(board.dealer, calls);
            && Legal(board, log)
            && var f := Fold(board, log);
               && f.phase == Playing && f.contract == Some(c)
               && f.nextToAct == Some(c.OpeningLeader()) && f.TricksLeft() == 13
  {
    AuctionIsReachable(board, calls);
  }

  lemma {:induction false} OpeningLead(board: Board, calls: seq<Call>, c: Outcome, card: Card)
    requires LegalAuction(calls) && ContractOf(board.dealer, calls) == Some(c)
    requires card in board.deal.Hand(c.OpeningLeader())
    ensures var log, lead := CallActions(board.dealer, calls), PlayCard(c.OpeningLeader(), card);
            && Accepts(board, log, lead) && Legal(board, log + [lead])
            && var f := Fold(board, log + [lead]);
               f.phase == Playing && f.played == [PlayedCard(lead.seat, card)] && f.TricksLeft() == 13
  {
    var log, lead := CallActions(board.dealer, calls), PlayCard(c.OpeningLeader(), card);
    AuctionIsReachable(board, calls);
    LeadIsAccepted(board, log, c, lead);
    LegalLogSnoc(board, log, lead);
    LogSnoc(log, lead);
    AfterLead(board, log + [lead], c, PlayedCard(lead.seat, card));
  }

  lemma {:induction false} LeadIsAccepted(board: Board, log: seq<Action>, c: Outcome, lead: Action)
    requires ContractOf(board.dealer, CallsOf(log)) == Some(c) && PlaysOf(log) == [] && ClaimOf(log).None?
    requires lead.PlayCard? && lead.seat == c.OpeningLeader() && lead.card in board.deal.Hand(lead.seat)
    ensures Accepts(board, log, lead)
  {
    var f := Fold(board, log);
    LegalIsFollowing(lead.card, Remaining(board, f, lead.seat), f.LeadSuit());
  }

  lemma {:induction false} AfterLead(board: Board, log: seq<Action>, c: Outcome, p: PlayedCard)
    requires ContractOf(board.dealer, CallsOf(log)) == Some(c) && PlaysOf(log) == [p] && ClaimOf(log).None?
    ensures var f := Fold(board, log); f.phase == Playing && f.played == [p] && f.TricksLeft() == 13
  {
    TallySnoc(c.OpeningLeader(), TrumpOf(c.strain), [], p);
    assert [p] == [] + [p];
  }
}
