/** A seat on turn is driven by a bot or by a person, never by both. */
module Control {
  import opened Bridge
  import opened Auction
  import opened CardPlay
  import opened TableLog
  import opened TableLaws
  import opened Rooms

  /** `held` are seats that a connected occupant sits in. */
  ghost predicate HoldsConnected(v: RoomView, sub: string, held: set<Direction>) {
    forall d :: d in held ==> d in v.seating.seats && v.seating.seats[d].sub == sub && v.seating.seats[d].connected
  }

  /** A person who drops out at `at` keeps the seat for the grace period and not an instant longer, and has
      it back the moment they return. */
  lemma {:induction false} TakeoverWaitsOutGrace(
    s: Seating, grace: Grace, seat: Direction, onTurn: bool, at: int, now: int, name: string)
    requires seat in s.seats && s.seats[seat].connected && at <= now
    ensures !s.BotControlled(grace, seat, onTurn, now)
    ensures var sub := s.seats[seat].sub; var gone := s.Dropped(sub, at);
            && (gone.BotControlled(grace, seat, onTurn, now) <==>
                  now >= at + if onTurn then grace.onTurn else grace.offTurn)
            && !gone.Rebound(seat, sub, name).BotControlled(grace, seat, onTurn, now)
    ensures s.Vacated(seat).BotControlled(grace, seat, onTurn, now) <==> seat !in s.noBot
  {
    assert s.Dropped(s.seats[seat].sub, at).seats[seat] ==
           s.seats[seat].(connected := false, disconnectedAt := Some(at));
  }

  /** It is the grace for a seat on turn that decides who acts. */
  lemma {:induction false} TurnGraceDecides(v: RoomView, seat: Direction, at: int, now: int)
    requires seat in v.seating.seats && v.seating.seats[seat].connected && at <= now
    ensures var gone := v.(seating := v.seating.Dropped(v.seating.seats[seat].sub, at));
            gone.IsBot(seat, now) <==> now >= at + v.grace.onTurn
  {
    TakeoverWaitsOutGrace(v.seating, v.grace, seat, true, at, now, v.seating.seats[seat].name);
  }

  /** The declaring side is played by a person whenever one of its two seats is a person's, by the declarer
      if both are. */
  lemma {:induction false} SideControllerPrefersPeople(v: RoomView, declarer: Direction, now: int)
    ensures v.IsBot(v.SideController(declarer, now), now) <==> v.IsBot(declarer, now) && v.IsBot(declarer.Partner(), now)
    ensures v.SideController(declarer, now) in {declarer, declarer.Partner()}
    ensures v.SideController(declarer, now) == declarer.Partner() <==>
            v.IsBot(declarer, now) && !v.IsBot(declarer.Partner(), now)
  {
    assert declarer.Partner() != declarer;
  }

  /** A bot-driven seat on turn: both seats of the declaring side are bots, or the defender is. */
  lemma {:induction false} BotSeatMeansBot(v: RoomView, f: Folded, seat: Direction, now: int)
    ensures v.IsBotSeat(f, seat, now) ==> v.IsBot(seat, now)
    ensures v.IsBotSeat(f, seat, now) && f.contract.Some? && f.contract.value.DeclarerSide(seat) ==>
              var d := f.contract.value.declarer;
              v.SideController(d, now) == d && v.IsBot(d, now)
    ensures v.IsBot(seat, now) && !(f.contract.Some? && f.contract.value.DeclarerSide(seat)) ==> v.IsBotSeat(f, seat, now)
  {
  }

  /** Whatever seats a connection believes it holds: outside an automatic auction it gets past the
      checks while the gate is open only if one of them is bot-controlled. */
  lemma {:induction false} GateMeansBot(v: RoomView, held: set<Direction>, now: int)
    requires v.GateOpen(now) && !v.ModeForces(v.table.Folded())
    requires v.BidEntitled(held) || v.PlayEntitled(held, now)
    ensures exists d :: d in held && v.IsBot(d, now)
  {
    var f := v.table.Folded();
    BotSeatMeansBot(v, f, f.nextToAct.value, now);
  }

  /** A bid from a connected occupant never passes the checks while the gate is open. */
  lemma {:induction false} BidAndGateExclude(v: RoomView, sub: string, held: set<Direction>, now: int)
    requires HoldsConnected(v, sub, held)
    ensures !(v.GateOpen(now) && v.BidEntitled(held))
  {
    if v.GateOpen(now) && v.BidEntitled(held) { GateMeansBot(v, held, now); }
  }

  /** A card passes the checks while the gate is open exactly in the automatic auction of a play-only
      board, and then the table refuses it. */
  lemma {:induction false} PlayAndGateExclude(v: RoomView, sub: string, held: set<Direction>, card: Card, now: int)
    requires HoldsConnected(v, sub, held)
    ensures var f := v.table.Folded();
            && (v.GateOpen(now) && v.PlayEntitled(held, now) <==>
                  v.mode == PlayOnly && f.phase == Bidding && f.nextToAct.Some? && f.nextToAct.value in held)
            && (v.GateOpen(now) && v.PlayEntitled(held, now) ==>
                  RefusalOf(v.table.board, v.table.log, PlayCard(f.nextToAct.value, card)) == Some(NotInPlay))
  {
    var f := v.table.Folded();
    if v.GateOpen(now) && v.PlayEntitled(held, now) && !v.ModeForces(f) { GateMeansBot(v, held, now); }
  }

  /** A play-only board with nothing called yet and a person dealing: the person's card passes the checks
      while the bots are about to bid for that seat. */
  lemma {:induction false} CardPassesInAutomaticAuction(v: RoomView, person: Occupant, now: int)
    requires v.mode == PlayOnly && v.table.log == [] && person.connected
    requires v.seating == Seating(map[v.table.board.dealer := person], {}, map[])
    ensures var held := {v.table.board.dealer};
            HoldsConnected(v, person.sub, held) && v.GateOpen(now) && v.PlayEntitled(held, now)
  {
    assert v.table.board.dealer.Advance(0) == v.table.board.dealer;
  }

  /** The seat an accepted call or card was made by is on turn once it is undone. */
  lemma {:induction false} UndoneSeatOnTurn(t: Table, i: nat)
    requires Legal(t.board, t.log) && i < |t.log| && !t.log[i].ClaimTricks?
    ensures t.Undone(i).Folded().nextToAct == Some(t.log[i].seat)
    ensures t.Undone(i).Folded().phase == if t.log[i].MakeCall? then Bidding else Playing
  {
    assert AcceptedAt(t.board, t.log, i);
  }

  lemma {:induction false} HumanSeatClosesGate(v: RoomView, seat: Direction, now: int)
    requires v.table.Folded().nextToAct == Some(seat) && !v.IsBot(seat, now)
    ensures v.GateOpen(now) <==> v.mode == PlayOnly && v.table.Folded().phase == Bidding
  {
    BotSeatMeansBot(v, v.table.Folded(), seat, now);
  }

  /** Whose card a claim came in on, read off the board it ended. */
  function SeatAtClaim(f: Folded, c: Outcome): Direction {
    if f.current.Some? && f.current.value.plays != [] then Last(f.current.value.plays).seat.Next()
    else if f.completed == [] then c.OpeningLeader()
    else Last(f.completed).winner
  }

  lemma {:induction false} LeaderBetweenTricks(opening: Direction, trump: Option<Suit>, played: seq<PlayedCard>)
    ensures var t := TallyOf(opening, trump, played);
            t.trick == [] ==> t.leader == if t.completed == [] then opening else Last(t.completed).winner
  {
  }

  /** A claim leaves the contract and says whose turn it was; nothing can follow it. */
  lemma {:induction false} ClaimTaken(board: Board, log: seq<Action>, claim: Action)
    requires claim.ClaimTricks? && Accepts(board, log, claim)
    ensures var before, after := Fold(board, log), Fold(board, log + [claim]);
            && before.phase == Playing && after.phase == Complete
            && before.contract == after.contract && after.contract.Some?
            && before.nextToAct == Some(SeatAtClaim(after, after.contract.value))
  {
    var c, t := PlayingFold(board, log);
    LogSnoc(log, claim);
    LeaderBetweenTricks(c.OpeningLeader(), TrumpOf(c.strain), PlaysOf(log));
  }

  lemma {:induction false} ClaimIsLast(board: Board, log: seq<Action>, i: nat)
    requires Legal(board, log) && i < |log| && log[i].ClaimTricks?
    ensures i == |log| - 1 && log == log[..i] + [log[i]] && Accepts(board, log[..i], log[i])
  {
    WasAccepted(board, log, i);
    assert log[..i] + [log[i]] == log[..i + 1];
    if i + 1 < |log| {
      WasAccepted(board, log, i + 1);
      NothingAfterClaim(board, log[..i], log[i], log[i + 1]);
    }
  }

  lemma {:induction false} WasAccepted(board: Board, log: seq<Action>, i: nat)
    requires Legal(board, log) && i < |log|
    ensures Accepts(board, log[..i], log[i])
  {
    assert AcceptedAt(board, log, i);
  }

  lemma {:induction false} NothingAfterClaim(board: Board, log: seq<Action>, claim: Action, a: Action)
    requires claim.ClaimTricks? && Accepts(board, log, claim)
    ensures !Accepts(board, log + [claim], a)
  {
    ClaimTaken(board, log, claim);
  }

  /** Whose turn it is again once action `i` is undone. */
  function SeatWaitedFor(t: Table, i: nat): Direction
    requires i < |t.log|
  {
    var f := t.Folded();
    if t.log[i].ClaimTricks? && f.contract.Some? then SeatAtClaim(f, f.contract.value) else t.log[i].seat
  }

  /** Whether bots act once action `i` is undone: always in an automatic auction, never after a card, and
      after a claim when a bot plays the seat it came in on. */
  predicate BotsResume(v: RoomView, i: nat, now: int)
    requires i < |v.table.log|
  {
    match v.table.log[i]
    case MakeCall(_, _) => v.mode == PlayOnly
    case PlayCard(_, _) => false
    case ClaimTricks(_, _, _) =>
      var s, contract := SeatWaitedFor(v.table, i), v.table.Folded().contract;
      && v.mode != BidOnly && v.IsBot(s, now)
      && (contract.Some? && contract.value.DeclarerSide(s) ==> v.IsBot(s.Partner(), now))
  }

  /** The table waits for `seat`: it is on turn and the driver keeps out. */
  predicate WaitsFor(v: RoomView, seat: Direction, now: int) {
    v.table.Folded().nextToAct == Some(seat) && !v.GateOpen(now)
  }

  /** Undo to the last human action: everything dropped after it was a bot's, and whose turn it is and
      whether the driver then acts can be read off the table before. It waits for that human exactly
      after a call outside an automatic auction, after a card, or after a claim made on their own turn. */
  lemma {:induction false} UndoToHuman(v: RoomView, i: nat, now: int)
    requires Legal(v.table.board, v.table.log) && v.LastHuman(i, now)
    ensures forall j :: i < j < |v.table.log| ==> v.IsBot(v.table.log[j].seat, now)
    ensures var after, a := v.(table := v.table.Undone(i)), v.table.log[i];
            && after.table.Folded().nextToAct == Some(SeatWaitedFor(v.table, i))
            && (after.GateOpen(now) <==> BotsResume(v, i, now))
            && (WaitsFor(after, a.seat, now) <==>
                  match a
                  case MakeCall(_, _) => v.mode != PlayOnly
                  case PlayCard(_, _) => true
                  case ClaimTricks(_, _, _) => SeatWaitedFor(v.table, i) == a.seat)
  {
    if v.table.log[i].ClaimTricks? {
      UndoOfClaim(v, i, now);
      BotSeatMeansBot(v, v.table.Undone(i).Folded(), v.table.log[i].seat, now);
    } else {
      UndoneSeatOnTurn(v.table, i);
      HumanSeatClosesGate(v.(table := v.table.Undone(i)), v.table.log[i].seat, now);
    }
  }

  /** A claim undone: the play goes on with the seat it came in on, a bot's only if the side playing that
      seat's cards has no person. */
  lemma {:induction false} UndoOfClaim(v: RoomView, i: nat, now: int)
    requires Legal(v.table.board, v.table.log) && i < |v.table.log| && v.table.log[i].ClaimTricks?
    ensures var after := v.(table := v.table.Undone(i)); var f := after.table.Folded();
            && f.phase == Playing && f.contract.Some? && f.contract == v.table.Folded().contract
            && f.nextToAct == Some(SeatWaitedFor(v.table, i))
            && (after.GateOpen(now) <==> BotsResume(v, i, now))
  {
    ClaimIsLast(v.table.board, v.table.log, i);
    ClaimTaken(v.table.board, v.table.log[..i], v.table.log[i]);
    PlayGate(v.(table := v.table.Undone(i)), SeatWaitedFor(v.table, i), now);
  }

  lemma {:induction false} PlayGate(v: RoomView, s: Direction, now: int)
    requires v.table.Folded().phase == Playing && v.table.Folded().contract.Some?
    requires v.table.Folded().nextToAct == Some(s)
    ensures v.GateOpen(now) <==>
            && v.mode != BidOnly && v.IsBot(s, now)
            && (v.table.Folded().contract.value.DeclarerSide(s) ==> v.IsBot(s.Partner(), now))
  {
    BotPlaysFor(v, v.table.Folded(), s, now);
  }

  lemma {:induction false} BotPlaysFor(v: RoomView, f: Folded, s: Direction, now: int)
    requires f.contract.Some?
    ensures v.IsBotSeat(f, s, now) <==>
            v.IsBot(s, now) && (f.contract.value.DeclarerSide(s) ==> v.IsBot(s.Partner(), now))
  {
    assert s.Partner().Partner() == s;
  }

  // ── Whose turn, whose gate ─────────────────────────────────────────────

  /** Who may play the next card and whether the driver will, while declarer or dummy is on turn: the declarer
      if not bot-controlled, from their own seat; else the dummy, if not bot-controlled; else the bot. */
  ghost predicate DeclarerOrDummyPlays(v: RoomView, c: Outcome, s: Direction, held: set<Direction>, now: int) {
    var declarer, dummy := c.declarer, c.declarer.Partner();
    if !v.IsBot(declarer, now) then
      !v.GateOpen(now) && (v.PlayEntitled(held, now) <==> s in held || declarer in held)
    else if !v.IsBot(dummy, now) then
      !v.GateOpen(now) && (v.PlayEntitled(held, now) <==> s in held || dummy in held)
    else
      v.GateOpen(now) && (v.PlayEntitled(held, now) <==> s in held || declarer in held)
  }

  /** In play each of declarer and dummy is played by the declarer, else by the dummy, else by the bot; a
      defender's cards are played by whoever holds that seat, else by the bot. */
  lemma {:induction false} WhoPlaysNext(v: RoomView, c: Outcome, s: Direction, held: set<Direction>, now: int)
    requires v.mode != BidOnly && v.table.Folded().phase == Playing
    requires v.table.Folded().contract == Some(c) && v.table.Folded().nextToAct == Some(s)
    ensures if s == c.declarer || s == c.declarer.Partner() then DeclarerOrDummyPlays(v, c, s, held, now)
            else (v.GateOpen(now) <==> v.IsBot(s, now)) && (v.PlayEntitled(held, now) <==> s in held)
  {
  }

  /** The boards' modes: the bots call for everyone on a play-only board, for bot-controlled seats elsewhere,
      and play no card of a bid-only board; people call, and play, everywhere else. */
  lemma {:induction false} GateByMode(v: RoomView, held: set<Direction>, now: int)
    ensures var f := v.table.Folded();
            match f.phase
            case Bidding =>
              && f.nextToAct == Some(v.table.board.dealer.Advance(|CallsOf(v.table.log)|))
              && (v.GateOpen(now) <==> v.mode == PlayOnly || v.IsBot(f.nextToAct.value, now))
              && (v.BidEntitled(held) <==> v.mode != PlayOnly && f.nextToAct.value in held)
            case Playing =>
              v.mode == BidOnly ==> !v.GateOpen(now) && !v.PlayEntitled(held, now)
            case Complete =>
              !v.GateOpen(now) && !v.BidEntitled(held) && !v.PlayEntitled(held, now)
  {
    var f := v.table.Folded();
    if f.phase == Bidding { BiddingFold(v.table.board, v.table.log); }
  }

  /** Why a call or card is turned away before the table sees it: the board's mode, then the board being over, then
      the turn being another's. Past that the table's own refusal is passed on. */
  lemma {:induction false} DenialsInOrder(v: RoomView, held: set<Direction>, call: Call, card: Card, now: int)
    ensures var f, bid := v.table.Folded(), BidDenied(v, held, call);
            && (bid == Some(ModeForbids) <==> v.mode == PlayOnly)
            && (bid == Some(NobodyOnTurn) <==> v.mode != PlayOnly && f.phase == Complete)
            && (bid == Some(NotYourTurn) <==> v.mode != PlayOnly && f.phase != Complete && !v.BidEntitled(held))
            && (v.BidEntitled(held) ==>
                  match RefusalOf(v.table.board, v.table.log, MakeCall(f.nextToAct.value, call))
                  case None => bid.None?
                  case Some(why) => bid == Some(TableRefuses(why)))
    ensures var f, play := v.table.Folded(), PlayDenied(v, held, card, now);
            && (play == Some(ModeForbids) <==> v.mode == BidOnly)
            && (play == Some(NobodyOnTurn) <==> v.mode != BidOnly && f.phase == Complete)
            && (play == Some(NotYourTurn) <==> v.mode != BidOnly && f.phase != Complete && !v.PlayEntitled(held, now))
            && (v.PlayEntitled(held, now) ==>
                  match RefusalOf(v.table.board, v.table.log, PlayCard(f.nextToAct.value, card))
                  case None => play.None?
                  case Some(why) => play == Some(TableRefuses(why)))
  {
    TurnUntilComplete(v.table);
  }

  lemma {:induction false} TurnUntilComplete(t: Table)
    ensures t.Folded().nextToAct.None? <==> t.Folded().phase == Complete
  {
  }

  const ONE_CLUB: seq<Call> := [Bid(1, InClubs), Pass, Pass, Pass]

  lemma {:induction false} OneClubContract(dealer: Direction)
    ensures LegalAuction(ONE_CLUB) && IsComplete(ONE_CLUB)
    ensures ContractOf(dealer, ONE_CLUB) == Some(Outcome(1, InClubs, false, false, dealer))
  {
    var bid := Bid(1, InClubs);
    var one, two, three := [bid], [bid, Pass], [bid, Pass, Pass];
    LegalSnoc([], bid);
    LegalSnoc(one, Pass);
    LegalSnoc(two, Pass);
    LegalSnoc(three, Pass);
    assert [] + [bid] == one;
    assert one + [Pass] == two;
    assert two + [Pass] == three;
    assert three + [Pass] == ONE_CLUB;
    assert Init(ONE_CLUB) == three && Init(three) == two && Init(two) == one;
    assert LastBidOf(ONE_CLUB) == Some(BidAt(1, InClubs, 0));
    assert DoublingOf(ONE_CLUB) == Undoubled;
    assert Names(ONE_CLUB, 0, InClubs, 0);
  }

  /** A person claims before the opening lead, after any auction: undoing the claim puts the leader on
      turn, and the gate is open exactly when a bot leads. */
  lemma {:induction false} UndoOfClaimFreesLeader(v: RoomView, calls: seq<Call>, c: Outcome, claim: Action, now: int)
    requires LegalAuction(calls) && ContractOf(v.table.board.dealer, calls) == Some(c)
    requires claim.ClaimTricks? && claim.tricks <= 13 && !v.IsBot(claim.seat, now)
    requires v.table.log == CallActions(v.table.board.dealer, calls) + [claim]
    ensures Legal(v.table.board, v.table.log) && v.LastHuman(|calls|, now)
    ensures var after := v.(table := v.table.Undone(|calls|));
            && after.table.Folded().nextToAct == Some(c.OpeningLeader())
            && (after.GateOpen(now) <==> v.mode != BidOnly && v.IsBot(c.OpeningLeader(), now))
  {
    var board := v.table.board;
    var before := CallActions(board.dealer, calls);
    AuctionHandsOver(board, calls, c);
    LegalLogSnoc(board, before, claim);
    UndoneTo(v.table, before, claim);
    PlayGate(v.(table := Table(board, before)), c.OpeningLeader(), now);
  }

  lemma {:induction false} UndoneTo(t: Table, log: seq<Action>, a: Action)
    requires t.log == log + [a]
    ensures t.Undone(|log|) == Table(t.board, log)
  {
  }

  /** One club by North, all pass, and South concedes with no one else at the table: undoing South's claim
      leaves a bot on turn with the gate open. */
  lemma {:induction false} UndoOfClaimMayFreeBot(v: RoomView, south: Occupant, now: int)
    requires v.table.board.dealer == North && v.mode == BidAndPlay && south.connected
    requires v.seating == Seating(map[South := south], {}, map[])
    requires v.table.log == CallActions(North, ONE_CLUB) + [ClaimTricks(South, 0, false)]
    ensures Legal(v.table.board, v.table.log) && v.LastHuman(|ONE_CLUB|, now)
    ensures v.(table := v.table.Undone(|ONE_CLUB|)).GateOpen(now)
  {
    OneClubContract(North);
    UndoOfClaimFreesLeader(v, ONE_CLUB, Outcome(1, InClubs, false, false, North), ClaimTricks(South, 0, false), now);
  }
}
