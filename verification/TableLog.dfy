/** The event-sourced table of src/table.rs: a board, a log of actions, and the fold that reads it. */
module TableLog {
  import opened Bridge
  import opened Auction
  import opened CardPlay
  import opened RecordedLine

  // ── Data ───────────────────────────────────────────────────────────────

  datatype Action =
    | MakeCall(seat: Direction, call: Call)
    | PlayCard(seat: Direction, card: Card)
    | ClaimTricks(seat: Direction, tricks: U8, ruling: bool)

  datatype Deal = Deal(north: seq<Card>, east: seq<Card>, south: seq<Card>, west: seq<Card>) {
    function Hand(seat: Direction): seq<Card> {
      match seat
      case North => north
      case East => east
      case South => south
      case West => west
    }

    function WithHand(seat: Direction, hand: seq<Card>): Deal {
      match seat
      case North => this.(north := hand)
      case East => this.(east := hand)
      case South => this.(south := hand)
      case West => this.(west := hand)
    }

    /** Four disjoint hands of thirteen different cards. */
    ghost predicate Valid() {
      && (forall seat :: |Hand(seat)| == 13 && NoDup(Hand(seat)))
      && (forall a, b, c :: a != b && c in Hand(a) ==> c !in Hand(b))
    }
  }

  datatype Board = Board(dealer: Direction, deal: Deal, line: Option<PlayLine>)

  datatype Phase = Bidding | Playing | Complete

  datatype ClaimRecord = ClaimRecord(seat: Direction, tricks: U8, ruling: bool, atTrick: nat, atCard: nat)

  datatype CompletedTrick = CompletedTrick(leader: Direction, cards: FourCards, winner: Direction)

  datatype CurrentTrick = CurrentTrick(leader: Direction, plays: seq<PlayedCard>)

  datatype Folded = Folded(
    phase: Phase,
    calls: seq<Call>,
    contract: Option<Outcome>,
    played: seq<PlayedCard>,
    completed: seq<CompletedTrick>,
    current: Option<CurrentTrick>,
    ns: U8,
    ew: U8,
    nextToAct: Option<Direction>,
    openingLeadMade: bool,
    claim: Option<ClaimRecord>)
  {
    /** Tricks still to play, counting the one in progress. */
    function TricksLeft(): U8 {
      if phase == Complete then 0 else U8Sub(13, ToU8(|completed|))
    }

    function LeadSuit(): Option<Suit> {
      if current.Some? && current.value.plays != [] then Some(current.value.plays[0].card.suit) else None
    }
  }

  // ── What the fold computes ─────────────────────────────────────────────

  function CallsOf(log: seq<Action>): seq<Call> {
    if log == [] then []
    else match Last(log)
      case MakeCall(_, call) => CallsOf(Init(log)) + [call]
      case _ => CallsOf(Init(log))
  }

  function PlaysOf(log: seq<Action>): seq<PlayedCard> {
    if log == [] then []
    else match Last(log)
      case PlayCard(seat, card) => PlaysOf(Init(log)) + [PlayedCard(seat, card)]
      case _ => PlaysOf(Init(log))
  }

  datatype RawClaim = RawClaim(seat: Direction, tricks: U8, ruling: bool, atCard: nat)

  /** The last claim in the log, with the number of cards played before it. */
  function ClaimOf(log: seq<Action>): Option<RawClaim> {
    if log == [] then None
    else match Last(log)
      case ClaimTricks(seat, tricks, ruling) => Some(RawClaim(seat, tricks, ruling, |PlaysOf(Init(log))|))
      case _ => ClaimOf(Init(log))
  }

  lemma {:induction false} LogSnoc(log: seq<Action>, a: Action)
    ensures CallsOf(log + [a]) == if a.MakeCall? then CallsOf(log) + [a.call] else CallsOf(log)
    ensures PlaysOf(log + [a]) ==
            if a.PlayCard? then PlaysOf(log) + [PlayedCard(a.seat, a.card)] else PlaysOf(log)
    ensures ClaimOf(log + [a]) ==
            match a
            case ClaimTricks(seat, tricks, ruling) => Some(RawClaim(seat, tricks, ruling, |PlaysOf(log)|))
            case _ => ClaimOf(log)
  {
    InitOfSnoc(log, a);
  }

  /** The tricks completed so far, the one in progress and its leader, and each side's count. */
  datatype Tally = Tally(
    completed: seq<CompletedTrick>,
    leader: Direction,
    trick: seq<PlayedCard>,
    ns: U8,
    ew: U8)
  {
    /** Derives the winner from `leader`; the recorded seats are not consulted. */
    function Play(p: PlayedCard, trump: Option<Suit>): Tally {
      var plays := trick + [p];
      if |plays| == 4 then
        var cards: FourCards := [plays[0].card, plays[1].card, plays[2].card, plays[3].card];
        var winner := TrickWinner(leader, cards, trump);
        Tally(completed + [CompletedTrick(leader, cards, winner)], winner, [],
              if winner.IsNS() then U8Add(ns, 1) else ns,
              if winner.IsNS() then ew else U8Add(ew, 1))
      else this.(trick := plays)
    }

    function NextToPlay(): Direction {
      if trick != [] then Last(trick).seat.Next() else leader
    }
  }

  function TallyOf(opening: Direction, trump: Option<Suit>, played: seq<PlayedCard>): Tally {
    if played == [] then Tally([], opening, [], 0, 0)
    else TallyOf(opening, trump, Init(played)).Play(Last(played), trump)
  }

  lemma {:induction false} TallySnoc(opening: Direction, trump: Option<Suit>, played: seq<PlayedCard>, p: PlayedCard)
    ensures TallyOf(opening, trump, played + [p]) == TallyOf(opening, trump, played).Play(p, trump)
  {
    InitOfSnoc(played, p);
  }

  /** Each side's tricks once a claim is settled, and the number it was held to. */
  datatype Settlement = Settlement(ns: U8, ew: U8, tricks: U8)

  function Settle(t: Tally, claim: RawClaim): Settlement {
    var left := U8Sub(13, ToU8(|t.completed|));
    var tricks := if claim.tricks <= left then claim.tricks else left;
    if claim.seat.IsNS() then Settlement(U8Add(t.ns, tricks), U8Add(t.ew, U8Sub(left, tricks)), tricks)
    else Settlement(U8Add(t.ns, U8Sub(left, tricks)), U8Add(t.ew, tricks), tricks)
  }

  function OpenPlay(calls: seq<Call>, c: Outcome, played: seq<PlayedCard>, t: Tally): Folded {
    var done := |t.completed| == 13;
    Folded(
      if done then Complete else Playing, calls, Some(c), played, t.completed,
      if t.trick == [] && done then None else Some(CurrentTrick(t.leader, t.trick)),
      t.ns, t.ew, if done then None else Some(t.NextToPlay()), played != [], None)
  }

  function ClaimedPlay(calls: seq<Call>, c: Outcome, played: seq<PlayedCard>, t: Tally, raw: RawClaim): Folded {
    var s := Settle(t, raw);
    Folded(
      Complete, calls, Some(c), played, t.completed,
      if t.trick == [] then None else Some(CurrentTrick(t.leader, t.trick)),
      s.ns, s.ew, None, played != [],
      Some(ClaimRecord(raw.seat, s.tricks, raw.ruling, |t.completed| + 1, raw.atCard)))
  }

  /** A claim ends the play. */
  function FoldPlay(calls: seq<Call>, c: Outcome, played: seq<PlayedCard>, claim: Option<RawClaim>): Folded {
    var t := TallyOf(c.OpeningLeader(), TrumpOf(c.strain), played);
    match claim
    case None => OpenPlay(calls, c, played, t)
    case Some(raw) => ClaimedPlay(calls, c, played, t, raw)
  }

  function Fold(board: Board, log: seq<Action>): Folded {
    var calls, played := CallsOf(log), PlaysOf(log);
    if !IsComplete(calls) then
      Folded(Bidding, calls, None, played, [], None, 0, 0, Some(NextCaller(board.dealer, calls)), false, None)
    else
      match ContractOf(board.dealer, calls)
      case None => Folded(Complete, calls, None, played, [], None, 0, 0, None, false, None)
      case Some(c) => FoldPlay(calls, c, played, ClaimOf(log))
  }

  /** What is left of `seat`'s hand once its own plays are taken out. */
  function Remaining(board: Board, f: Folded, seat: Direction): seq<Card> {
    HandAfter(board.deal.Hand(seat), f.played, seat)
  }

  // ── Accepting an action ────────────────────────────────────────────────

  datatype Refusal =
    | AuctionIsOver
    | NotYourCall
    | IllegalCall
    | NotInPlay
    | NotYourPlay
    | IllegalCard
    | ClaimOutsidePlay
    | ClaimTooMany
    | UndoForward

  /** Why `a` cannot follow `log`; None when it can. */
  function RefusalOf(board: Board, log: seq<Action>, a: Action): Option<Refusal> {
    RefusalIn(board, Fold(board, log), a)
  }

  /** The checks against the folded log `f`, in the source's order. */
  function RefusalIn(board: Board, f: Folded, a: Action): Option<Refusal> {
    match a
    case MakeCall(seat, call) =>
      if f.phase != Bidding then Some(AuctionIsOver)
      else if f.nextToAct != Some(seat) then Some(NotYourCall)
      else if !IsLegal(f.calls, call) then Some(IllegalCall)
      else None
    case PlayCard(seat, card) =>
      if f.phase != Playing then Some(NotInPlay)
      else if f.nextToAct != Some(seat) then Some(NotYourPlay)
      else if !IsLegalPlay(card, Remaining(board, f, seat), f.LeadSuit()) then Some(IllegalCard)
      else None
    case ClaimTricks(_, tricks, _) =>
      if f.phase != Playing then Some(ClaimOutsidePlay)
      else if tricks > f.TricksLeft() then Some(ClaimTooMany)
      else None
  }

  predicate Accepts(board: Board, log: seq<Action>, a: Action) {
    RefusalOf(board, log, a).None?
  }

  /** Every action was acceptable when it was made. */
  ghost predicate Legal(board: Board, log: seq<Action>) {
    forall i :: 0 <= i < |log| ==> AcceptedAt(board, log, i)
  }

  predicate AcceptedAt(board: Board, log: seq<Action>, i: nat)
    requires i < |log|
  {
    Accepts(board, log[..i], log[i])
  }

  lemma {:induction false} LegalLogPrefix(board: Board, log: seq<Action>, n: nat)
    requires Legal(board, log) && n <= |log|
    ensures Legal(board, log[..n])
  {
    forall i | 0 <= i < n ensures AcceptedAt(board, log[..n], i) {
      assert AcceptedAt(board, log, i);
      assert log[..n][..i] == log[..i];
    }
  }

  lemma {:induction false} LegalLogSnoc(board: Board, log: seq<Action>, a: Action)
    ensures Legal(board, log + [a]) <==> Legal(board, log) && Accepts(board, log, a)
  {
    var all := log + [a];
    assert all[..|log|] == log;
    if Legal(board, all) {
      LegalLogPrefix(board, all, |log|);
      assert AcceptedAt(board, all, |log|);
    }
    if Legal(board, log) && Accepts(board, log, a) {
      forall i | 0 <= i < |all| ensures AcceptedAt(board, all, i) {
        if i < |log| {
          assert all[..i] == log[..i];
          assert AcceptedAt(board, log, i);
        }
      }
    }
  }

  // ── The table ──────────────────────────────────────────────────────────

  /** A table's whole state: everything else is folded from it. */
  datatype Table = Table(board: Board, log: seq<Action>) {
    function Seq(): nat { |log| }

    function Folded(): Folded { Fold(board, log) }

    function Applied(a: Action): Table {
      if Accepts(board, log, a) then Table(board, log + [a]) else this
    }

    function Undone(n: nat): Table {
      if n <= |log| then Table(board, log[..n]) else this
    }

    ghost predicate Reachable() { board.deal.Valid() && Legal(board, log) }
  }

  class TableState {
    var board: Board
    var actions: seq<Action>

    function View(): Table
      reads this
    {
      Table(board, actions)
    }

    constructor (board: Board)
      ensures View() == Table(board, [])
    {
      this.board := board;
      actions := [];
    }

    method Apply(a: Action) returns (r: Result<nat, Refusal>)
      modifies this
      ensures View() == old(View()).Applied(a)
      ensures r == match RefusalOf(board, old(actions), a)
                   case None => Ok(old(|actions|) + 1)
                   case Some(e) => Err(e)
    {
      var f := FoldLog();
      match a {
        case MakeCall(seat, call) =>
          if f.phase != Bidding { return Err(AuctionIsOver); }
          if f.nextToAct != Some(seat) { return Err(NotYourCall); }
          if !IsLegal(f.calls, call) { return Err(IllegalCall); }
        case PlayCard(seat, card) =>
          if f.phase != Playing { return Err(NotInPlay); }
          if f.nextToAct != Some(seat) { return Err(NotYourPlay); }
          var remaining := RemainingIn(seat, f);
          if !IsLegalPlay(card, remaining, f.LeadSuit()) { return Err(IllegalCard); }
        case ClaimTricks(_, tricks, _) =>
          if f.phase != Playing { return Err(ClaimOutsidePlay); }
          if tricks > f.TricksLeft() { return Err(ClaimTooMany); }
      }
      actions := actions + [a];
      return Ok(|actions|);
    }

    method UndoTo(toSeq: nat) returns (r: Result<nat, Refusal>)
      modifies this
      ensures View() == old(View()).Undone(toSeq)
      ensures r == if toSeq <= old(|actions|) then Ok(toSeq) else Err(UndoForward)
    {
      if toSeq > |actions| {
        return Err(UndoForward);
      }
      actions := actions[..toSeq];
      return Ok(|actions|);
    }

    method RemainingIn(seat: Direction, f: Folded) returns (cards: seq<Card>)
      ensures cards == Remaining(board, f, seat)
    {
      cards := board.deal.Hand(seat);
      for i := 0 to |f.played|
        invariant cards == HandAfter(board.deal.Hand(seat), f.played[..i], seat)
      {
        assert Init(f.played[..i + 1]) == f.played[..i];
        if f.played[i].seat == seat {
          cards := Without(cards, f.played[i].card);
        }
      }
      assert f.played[..|f.played|] == f.played;
    }

    /** The fold's first pass: calls, plays and the claim, each in log order. */
    static method SortActions(actions: seq<Action>)
      returns (calls: seq<Call>, played: seq<PlayedCard>, raw: Option<RawClaim>)
      ensures calls == CallsOf(actions) && played == PlaysOf(actions) && raw == ClaimOf(actions)
    {
      calls, played, raw := [], [], None;
      for i := 0 to |actions|
        invariant calls == CallsOf(actions[..i]) && played == PlaysOf(actions[..i]) && raw == ClaimOf(actions[..i])
      {
        LogSnoc(actions[..i], actions[i]);
        assert actions[..i + 1] == actions[..i] + [actions[i]];
        match actions[i] {
          case MakeCall(_, call) => calls := calls + [call];
          case PlayCard(seat, card) => played := played + [PlayedCard(seat, card)];
          case ClaimTricks(seat, tricks, ruling) => raw := Some(RawClaim(seat, tricks, ruling, |played|));
        }
      }
      assert actions[..|actions|] == actions;
    }

    method FoldLog() returns (f: Folded)
      ensures f == Fold(board, actions)
    {
      var calls, played, raw := SortActions(actions);
      var auctionDone := IsComplete(calls);
      var contract := Contract(board.dealer, calls);
      if !auctionDone {
        return Folded(Bidding, calls, None, played, [], None, 0, 0, Some(NextCaller(board.dealer, calls)), false, None);
      }
      if contract.None? {
        return Folded(Complete, calls, None, played, [], None, 0, 0, None, false, None);
      }
      f := FoldTricks(calls, contract.value, played, raw);
    }

    /** One card of the fold's second pass. */
    static method AddCard(t: Tally, p: PlayedCard, trump: Option<Suit>) returns (r: Tally)
      requires |t.trick| < 4
      ensures r == t.Play(p, trump) && |r.trick| < 4
    {
      var Tally(completed, leader, trick, ns, ew) := t;
      trick := trick + [p];
      if |trick| == 4 {
        var cards: FourCards := [trick[0].card, trick[1].card, trick[2].card, trick[3].card];
        var winner := FindTrickWinner(leader, cards, trump);
        if winner.IsNS() {
          ns := U8Add(ns, 1);
        } else {
          ew := U8Add(ew, 1);
        }
        completed := completed + [CompletedTrick(leader, cards, winner)];
        leader := winner;
        trick := [];
      }
      return Tally(completed, leader, trick, ns, ew);
    }

    /** The fold's second pass: tricks, winners and counts. */
    static method CountTricks(opening: Direction, trump: Option<Suit>, played: seq<PlayedCard>) returns (t: Tally)
      ensures t == TallyOf(opening, trump, played)
    {
      t := Tally([], opening, [], 0, 0);
      for i := 0 to |played|
        invariant |t.trick| < 4 && t == TallyOf(opening, trump, played[..i])
      {
        t := AddCard(t, played[i], trump);
        assert played[..i + 1] == played[..i] + [played[i]];
        TallySnoc(opening, trump, played[..i], played[i]);
      }
      assert played[..|played|] == played;
    }

    static method SettleClaim(t: Tally, raw: RawClaim) returns (ns: U8, ew: U8, claim: ClaimRecord)
      ensures Settlement(ns, ew, claim.tricks) == Settle(t, raw)
      ensures claim == ClaimRecord(raw.seat, claim.tricks, raw.ruling, |t.completed| + 1, raw.atCard)
    {
      ns, ew := t.ns, t.ew;
      var left := U8Sub(13, ToU8(|t.completed|));
      var tricks := if raw.tricks <= left then raw.tricks else left;
      if raw.seat.IsNS() {
        ns := U8Add(ns, tricks);
        ew := U8Add(ew, U8Sub(left, tricks));
      } else {
        ew := U8Add(ew, tricks);
        ns := U8Add(ns, U8Sub(left, tricks));
      }
      claim := ClaimRecord(raw.seat, tricks, raw.ruling, |t.completed| + 1, raw.atCard);
    }

    static method FoldTricks(calls: seq<Call>, c: Outcome, played: seq<PlayedCard>, raw: Option<RawClaim>)
      returns (f: Folded)
      ensures f == FoldPlay(calls, c, played, raw)
    {
      var t := CountTricks(c.OpeningLeader(), TrumpOf(c.strain), played);
      var ns, ew, claim := t.ns, t.ew, None;
      if raw.Some? {
        var record;
        ns, ew, record := SettleClaim(t, raw.value);
        claim := Some(record);
      }
      var done := |t.completed| == 13 || claim.Some?;
      var next := if done then None else if t.trick != [] then Some(Last(t.trick).seat.Next()) else Some(t.leader);
      f := Folded(
        if done then Complete else Playing, calls, Some(c), played, t.completed,
        if t.trick == [] && done then None else Some(CurrentTrick(t.leader, t.trick)),
        ns, ew, next, played != [], claim);
    }
  }
}
