/** One bot turn in three phases (src/bots.rs, src/bots/bba.rs): capture, choose, commit. */
module Bots {
  import opened Bridge
  import opened Auction
  import opened CardPlay
  import opened RecordedLine
  import opened TableLog
  import opened TableLaws
  import opened TableTheorems
  import opened Rooms

  // ── Phase A: capture ───────────────────────────────────────────────────

  datatype Pending =
    | PendingCall(seat: Direction, seq_: nat, board: Board, calls: seq<Call>, pass: bool)
    | PendingCard(seat: Direction, seq_: nat, legal: seq<Card>, decisionMaker: Direction,
                  played: seq<PlayedCard>, line: Option<PlayLine>)
  {
    /** The recorded card for this turn, if play is on book and the card is legal here. */
    function LineCard(): Option<Card>
      requires PendingCard?
    {
      if line.None? || line.value.Diverged(played) then None
      else match line.value.CardFor(seat, |CardsBy(played, seat)|)
        case None => None
        case Some(card) => if card in legal then Some(card) else None
    }

    /** What choosing may come up with: a call legal after the captured auction, or a legal card. */
    ghost predicate Suggests(a: Action) {
      match this
      case PendingCall(_, _, _, _, _) => a.MakeCall? && a.seat == seat && IsLegal(calls, a.call)
      case PendingCard(_, _, _, _, _, _) => a.PlayCard? && a.seat == seat && a.card in legal
    }
  }

  function Capture(v: RoomView, now: int): Option<Pending> {
    var f := v.table.Folded();
    if !v.GateOpen(now) then None
    else
      var seat := f.nextToAct.value;
      match f.phase
      case Bidding =>
        Some(PendingCall(seat, v.table.Seq(), v.table.board, f.calls, SideOf(seat) in v.passSides))
      case Playing =>
        var legal := LegalCards(Remaining(v.table.board, f, seat), f.LeadSuit());
        if legal == [] || f.contract.None? then None
        else
          var c := f.contract.value;
          Some(PendingCard(seat, v.table.Seq(), legal, if c.DeclarerSide(seat) then c.declarer else seat,
                           f.played, v.table.board.line))
      case Complete => None
  }

  method CaptureTurn(room: Room, now: int) returns (p: Option<Pending>)
    ensures p == Capture(room.View(), now)
  {
    var f := room.table.FoldLog();
    var v := room.View();
    if f.nextToAct.None? { return None; }
    var seat := f.nextToAct.value;
    if !v.ModeAllows(f) { return None; }
    if !v.ModeForces(f) && !v.IsBotSeat(f, seat, now) { return None; }
    match f.phase {
      case Bidding =>
        return Some(PendingCall(seat, |room.table.actions|, room.table.board, f.calls, SideOf(seat) in room.passSides));
      case Playing =>
        var remaining := room.table.RemainingIn(seat, f);
        var legal := LegalCards(remaining, f.LeadSuit());
        if legal == [] || f.contract.None? { return None; }
        var c := f.contract.value;
        var decisionMaker := if c.DeclarerSide(seat) then c.declarer else seat;
        return Some(PendingCard(seat, |room.table.actions|, legal, decisionMaker, f.played, room.table.board.line));
      case Complete =>
        return None;
    }
  }

  /** An open gate at a reachable table always yields a turn to take. */
  lemma {:induction false} OpenGateCaptures(v: RoomView, now: int)
    requires v.table.Reachable()
    ensures v.GateOpen(now) <==> Capture(v, now).Some?
  {
    var f := v.table.Folded();
    if f.phase == Playing { var _ := SeatOnTurnCanPlay(v.table.board, v.table.log); }
  }

  /** Whatever is suggested for a captured turn is acceptable to the table it was captured from. */
  lemma {:induction false} SuggestionFits(v: RoomView, now: int, a: Action)
    requires Capture(v, now).Some? && Capture(v, now).value.Suggests(a)
    ensures Accepts(v.table.board, v.table.log, a) && Capture(v, now).value.seq_ == v.table.Seq()
  {
  }

  /** What is captured for whoever is on turn: for a call, the auction and whether their side is told to pass;
      for a card, exactly the cards the table would accept, and the declarer as the one who decides for either
      seat of the declaring side. */
  lemma {:induction false} CaptureSays(v: RoomView, now: int, p: Pending)
    requires Capture(v, now) == Some(p)
    ensures var f := v.table.Folded();
            && f.nextToAct == Some(p.seat) && p.seq_ == |v.table.log|
            && match p
               case PendingCall(seat, _, board, calls, pass) =>
                 && f.phase == Bidding && calls == CallsOf(v.table.log) && board == v.table.board
                 && (pass <==> if seat in {North, South} then NS in v.passSides else EW in v.passSides)
               case PendingCard(seat, _, legal, decisionMaker, played, line) =>
                 && f.phase == Playing && f.contract.Some? && legal != []
                 && (forall card :: card in legal <==> CardStillFits(v.table, seat, card))
                 && (var d := f.contract.value.declarer;
                     decisionMaker == if seat == d || seat == d.Partner() then d else seat)
                 && played == PlaysOf(v.table.log) && line == v.table.board.line
  {
    var f := v.table.Folded();
    if p.PendingCard? {
      PlayedIsPlays(v.table);
      forall card ensures card in p.legal <==> CardStillFits(v.table, p.seat, card) {
        CardFits(v.table, p.seat, card);
        LegalIsFollowing(card, Remaining(v.table.board, f, p.seat), f.LeadSuit());
      }
    }
  }

  // ── Phase B: choose a call ─────────────────────────────────────────────

  /** The next call of a cached prediction, if the calls so far are a strict prefix of it. */
  function Continuation(cache: Option<seq<Call>>, calls: seq<Call>): Option<Call> {
    if cache.Some? && |cache.value| > |calls| && cache.value[..|calls|] == calls then Some(cache.value[|calls|])
    else None
  }

  /** The prediction service's answer, kept only if it extends what was asked. */
  function Generated(reply: Option<seq<Call>>, prefix: seq<Call>): Option<seq<Call>> {
    if reply.Some? && |reply.value| >= |prefix| && reply.value[..|prefix|] == prefix then reply else None
  }

  datatype Choice = Choice(call: Call, cache: Option<seq<Call>>, asked: bool)

  /** What a request answered by `reply` leads to, with `cache` kept if the request fails. */
  function AfterRequest(cache: Option<seq<Call>>, calls: seq<Call>, reply: Option<seq<Call>>): Choice {
    match Generated(reply, calls)
    case None => Choice(Pass, cache, true)
    case Some(predicted) =>
      match Continuation(Some(predicted), calls)
      case None => Choice(Pass, Some(predicted), true)
      case Some(call) => Choice(if IsLegal(calls, call) then call else Pass, Some(predicted), true)
  }

  function Chosen(cache: Option<seq<Call>>, calls: seq<Call>, reply: Option<seq<Call>>): Choice {
    match Continuation(cache, calls)
    case None => AfterRequest(cache, calls, reply)
    case Some(call) =>
      if IsLegal(calls, call) then Choice(call, cache, false) else AfterRequest(None, calls, reply)
  }

  /** `reply` is the answer a request would get now: any list of calls, or None for no service or a failure. */
  method ChooseCall(room: Room, calls: seq<Call>, reply: Option<seq<Call>>) returns (call: Call, asked: bool)
    modifies room`bbaCache
    ensures Choice(call, room.bbaCache, asked) == Chosen(old(room.bbaCache), calls, reply)
    ensures !IsComplete(calls) ==> IsLegal(calls, call)
  {
    match Continuation(room.bbaCache, calls) {
      case None =>
      case Some(next) =>
        if IsLegal(calls, next) { return next, false; }
        room.bbaCache := None;
    }
    var predicted := Generated(reply, calls);
    if predicted.Some? {
      room.bbaCache := predicted;
      match Continuation(room.bbaCache, calls) {
        case None =>
        case Some(next) =>
          if IsLegal(calls, next) { return next, true; }
      }
    }
    return Pass, true;
  }

  /** Whatever the cache and the service say, the call is legal while the auction is on. */
  lemma {:induction false} ChosenIsLegal(cache: Option<seq<Call>>, calls: seq<Call>, reply: Option<seq<Call>>)
    requires !IsComplete(calls)
    ensures IsLegal(calls, Chosen(cache, calls, reply).call)
    ensures Chosen(cache, calls, reply).asked <==>
              !(Continuation(cache, calls).Some? && IsLegal(calls, Continuation(cache, calls).value))
  {
  }

  /** What a request leads to: a reply that extends the auction is cached and its next call made if legal; a reply
      that does not, or none, means a pass, and costs the cache only if it had an illegal call to give. */
  lemma {:induction false} RequestOutcome(cache: Option<seq<Call>>, calls: seq<Call>, reply: Option<seq<Call>>)
    ensures var c := Chosen(cache, calls, reply);
            && (!c.asked ==>
                  && c.cache == cache && cache.Some? && calls < cache.value
                  && c.call == cache.value[|calls|] && IsLegal(calls, c.call))
            && (c.asked && reply.Some? && calls <= reply.value ==>
                  && c.cache == reply
                  && c.call == if |reply.value| > |calls| && IsLegal(calls, reply.value[|calls|])
                               then reply.value[|calls|] else Pass)
            && (c.asked && (reply.None? || !(calls <= reply.value)) ==>
                  c.call == Pass && c.cache == if cache.Some? && calls < cache.value then None else cache)
  {
  }

  // ── The prediction over an auction ─────────────────────────────────────

  /** What happens next in an auction of bots and people. */
  datatype Turn =
    | BotTurn(reply: Option<seq<Call>>)                          // a bot chooses and its call is made
    | LostTurn(captured: seq<Call>, reply: Option<seq<Call>>)    // a bot chooses but comes back too late
    | PersonTurn(call: Call)                                     // a person calls, or a bot told to pass

  /** The auction, the cache and the number of requests made. */
  datatype Service = Service(calls: seq<Call>, cache: Option<seq<Call>>, requests: nat) {
    function After(turn: Turn): Service {
      match turn
      case BotTurn(reply) =>
        var c := Chosen(cache, calls, reply);
        Service(calls + [c.call], c.cache, requests + if c.asked then 1 else 0)
      case LostTurn(captured, reply) =>
        var c := Chosen(cache, captured, reply);
        Service(calls, c.cache, requests + if c.asked then 1 else 0)
      case PersonTurn(call) =>
        Service(calls + [call], cache, requests)
    }
  }

  ghost predicate TurnAt(run: seq<Service>, turns: seq<Turn>, k: nat)
    requires k < |turns| && |run| == |turns| + 1
  {
    run[k + 1] == run[k].After(turns[k])
  }

  ghost predicate ServiceRun(run: seq<Service>, turns: seq<Turn>) {
    |run| == |turns| + 1 && forall k :: 0 <= k < |turns| ==> TurnAt(run, turns, k)
  }

  /** At turn `k` the auction, and any a bot captured earlier, is still a strict prefix of the prediction. */
  ghost predicate OnCourse(run: seq<Service>, turns: seq<Turn>, predicted: seq<Call>, k: nat)
    requires k < |turns| && |run| == |turns| + 1
  {
    run[k].calls < predicted && (turns[k].LostTurn? ==> turns[k].captured < predicted)
  }

  /** If turn `k` is a bot's, the call it makes is the predicted one. */
  ghost predicate CallsAsPredicted(run: seq<Service>, turns: seq<Turn>, predicted: seq<Call>, k: nat)
    requires k < |turns| && |run| == |turns| + 1 && run[k].calls < predicted
  {
    turns[k].BotTurn? ==> run[k + 1].calls == run[k].calls + [predicted[|run[k].calls|]]
  }

  lemma {:induction false} CachedCallIsChosen(predicted: seq<Call>, calls: seq<Call>, reply: Option<seq<Call>>)
    requires calls < predicted && LegalAuction(predicted)
    ensures Chosen(Some(predicted), calls, reply) == Choice(predicted[|calls|], Some(predicted), false)
  {
    assert LegalAt(predicted, |calls|);
  }

  lemma {:induction false} FetchedCallIsChosen(cache: Option<seq<Call>>, predicted: seq<Call>, calls: seq<Call>)
    requires calls < predicted && LegalAuction(predicted)
    requires Continuation(cache, calls).Some? ==> !IsLegal(calls, Continuation(cache, calls).value)
    ensures Chosen(cache, calls, Some(predicted)) == Choice(predicted[|calls|], Some(predicted), true)
  {
    assert LegalAt(predicted, |calls|);
  }

  /** While the calls actually made, by bots and people alike, stay a strict prefix of a legal cached
      prediction, every bot call comes from it and no request is made, whatever replies there would be. */
  lemma {:induction false} PredictionIsServed(
    run: seq<Service>, turns: seq<Turn>, predicted: seq<Call>, from: nat, k: nat)
    requires LegalAuction(predicted) && ServiceRun(run, turns) && from <= k <= |turns|
    requires run[from].cache == Some(predicted)
    requires forall j :: from <= j < k ==> OnCourse(run, turns, predicted, j)
    ensures run[k].cache == Some(predicted) && run[k].requests == run[from].requests
    ensures forall j :: from <= j < k ==> run[j].calls < predicted && CallsAsPredicted(run, turns, predicted, j)
    decreases k
  {
    if k > from {
      PredictionIsServed(run, turns, predicted, from, k - 1);
      CachedTurn(run, turns, predicted, k - 1);
    }
  }

  lemma {:induction false} CachedTurn(run: seq<Service>, turns: seq<Turn>, predicted: seq<Call>, k: nat)
    requires LegalAuction(predicted) && ServiceRun(run, turns) && k < |turns|
    requires run[k].cache == Some(predicted) && OnCourse(run, turns, predicted, k)
    ensures run[k + 1].cache == Some(predicted) && run[k + 1].requests == run[k].requests
    ensures CallsAsPredicted(run, turns, predicted, k)
  {
    assert TurnAt(run, turns, k);
    match turns[k] {
      case BotTurn(reply) => CachedCallIsChosen(predicted, run[k].calls, reply);
      case LostTurn(captured, reply) => CachedCallIsChosen(predicted, captured, reply);
      case PersonTurn(_) =>
    }
  }

  /** When the cache has no legal call to give, the first bot to call makes one request, and its reply
      serves the bots for the rest of the auction it predicts. */
  lemma {:induction false} OneRequestPerAuction(
    run: seq<Service>, turns: seq<Turn>, predicted: seq<Call>, first: nat, k: nat)
    requires LegalAuction(predicted) && ServiceRun(run, turns) && first < k <= |turns|
    requires forall j :: 0 <= j < first ==> turns[j].PersonTurn?
    requires turns[first] == BotTurn(Some(predicted))
    requires var next := Continuation(run[0].cache, run[first].calls);
             next.Some? ==> !IsLegal(run[first].calls, next.value)
    requires forall j :: first <= j < k ==> OnCourse(run, turns, predicted, j)
    ensures run[k].cache == Some(predicted) && run[k].requests == run[0].requests + 1
    ensures forall j :: first <= j < k ==> run[j].calls < predicted && CallsAsPredicted(run, turns, predicted, j)
  {
    PeopleLeaveCache(run, turns, first);
    assert TurnAt(run, turns, first) && OnCourse(run, turns, predicted, first);
    FetchedCallIsChosen(run[0].cache, predicted, run[first].calls);
    PredictionIsServed(run, turns, predicted, first + 1, k);
  }

  lemma {:induction false} PeopleLeaveCache(run: seq<Service>, turns: seq<Turn>, k: nat)
    requires ServiceRun(run, turns) && k <= |turns| && forall j :: 0 <= j < k ==> turns[j].PersonTurn?
    ensures run[k].cache == run[0].cache && run[k].requests == run[0].requests
  {
    if k > 0 {
      PeopleLeaveCache(run, turns, k - 1);
      assert TurnAt(run, turns, k - 1);
    }
  }

  // ── Phase B: choose a card ─────────────────────────────────────────────

  datatype BotMode = Real | Random | Rules | Slow

  /** A deterministic member of `options`, by multiplicative hash of the action count. */
  function Pick(options: seq<Card>, seq_: nat): (c: Card)
    requires options != []
    ensures c in options
  {
    options[(seq_ * 2654435761 % 0x1_0000_0000_0000_0000) % |options|]
  }

  /** The rulebot's answer, taken unchecked; None only if it fails. */
  function RulesCard(p: Pending, rule: Option<Card>): Card
    requires p.PendingCard? && p.legal != []
  {
    match rule
    case Some(card) => card
    case None => Pick(p.legal, p.seq_)
  }

  datatype BenReply = BenReply(card: Card, player: Option<Direction>)

  function RealCard(p: Pending, ben: Option<BenReply>, rule: Option<Card>): Card
    requires p.PendingCard? && p.legal != []
  {
    if ben.Some?
       && (ben.value.player.Some? ==> ben.value.player.value == p.seat || ben.value.player.value == p.decisionMaker)
       && ben.value.card in p.legal
    then ben.value.card
    else RulesCard(p, rule)
  }

  /** The recorded line first, then the room's own bot. */
  function ChooseCard(p: Pending, mode: BotMode, ben: Option<BenReply>, rule: Option<Card>): (card: Card)
    requires p.PendingCard? && p.legal != []
  {
    match p.LineCard()
    case Some(card) => card
    case None =>
      match mode
      case Real => RealCard(p, ben, rule)
      case Random => Pick(p.legal, p.seq_)
      case Rules => RulesCard(p, rule)
      case Slow => RulesCard(p, rule)
  }

  /** The chosen card is legal unless it is an illegal answer of the rulebot, the one source not re-checked. */
  lemma {:induction false} ChosenCardIsLegal(p: Pending, mode: BotMode, ben: Option<BenReply>, rule: Option<Card>)
    requires p.PendingCard? && p.legal != []
    ensures var card := ChooseCard(p, mode, ben, rule);
            && (card !in p.legal ==> rule == Some(card))
            && (rule.Some? && rule.value in p.legal ==> p.Suggests(PlayCard(p.seat, card)))
            && (p.LineCard().Some? ==> card == p.LineCard().value && card in p.legal)
  {
  }

  /** A recorded card is played exactly when the line has been followed so far, lists it next for the seat, and it
      is legal. */
  lemma {:induction false} LineFirst(p: Pending, mode: BotMode, ben: Option<BenReply>, rule: Option<Card>, card: Card)
    requires p.PendingCard? && p.legal != []
    ensures p.LineCard() == Some(card) <==>
            && p.line.Some? && !p.line.value.OffBook(p.played) && card in p.legal
            && var script, turn := p.line.value.Queue(p.seat), |CardsBy(p.played, p.seat)|;
               turn < |script| && script[turn] == card
    ensures p.LineCard() == Some(card) ==> ChooseCard(p, mode, ben, rule) == card
  {
    if p.line.Some? { p.line.value.DivergedIsOffBook(p.played); }
  }

  /** Who answers off the line: in Real mode a legal answer of BEN's, for the seat asked about, and else the rulebot;
      in Rules and Slow modes the rulebot; in Random mode, or when the rulebot fails, some legal card that no
      service has a say in. */
  lemma {:induction false} ModesAnswer(p: Pending, mode: BotMode, ben: Option<BenReply>, rule: Option<Card>)
    requires p.PendingCard? && p.legal != [] && p.LineCard().None?
    ensures var card := ChooseCard(p, mode, ben, rule);
            if mode == Real && ben.Some? && ben.value.card in p.legal
               && ben.value.player in {None, Some(p.seat), Some(p.decisionMaker)} then
              card == ben.value.card
            else if mode != Random && rule.Some? then card == rule.value
            else card in p.legal && forall other, none :: ChooseCard(p, Random, other, none) == card
  {
  }

  // ── A whole turn ───────────────────────────────────────────────────────

  /** What is suggested for a captured turn. */
  function Suggestion(
    p: Pending, mode: BotMode, cache: Option<seq<Call>>, reply: Option<seq<Call>>, ben: Option<BenReply>,
    rule: Option<Card>): Action
    requires p.PendingCard? ==> p.legal != []
  {
    match p
    case PendingCall(seat, _, _, calls, pass) => MakeCall(seat, if pass then Pass else Chosen(cache, calls, reply).call)
    case PendingCard(seat, _, _, _, _, _) => PlayCard(seat, ChooseCard(p, mode, ben, rule))
  }

  /** Whatever the services and the cache say, a turn the driver takes at a reachable table is made at once, for the
      seat on turn, unless the rulebot named a card the table would not take. */
  lemma {:induction false} TurnIsMade(
    v: RoomView, now: int, mode: BotMode, cache: Option<seq<Call>>, reply: Option<seq<Call>>, ben: Option<BenReply>,
    rule: Option<Card>)
    requires v.table.Reachable() && v.GateOpen(now)
    ensures Capture(v, now).Some?
    ensures var p := Capture(v, now).value;
            && (p.PendingCard? ==> p.legal != [])
            && var a := Suggestion(p, mode, cache, reply, ben, rule);
               && v.table.Folded().nextToAct == Some(a.seat)
               && (p.PendingCall? && p.pass ==> a == MakeCall(p.seat, Pass))
               && (p.PendingCall? && !p.pass ==> a == MakeCall(p.seat, Chosen(cache, p.calls, reply).call))
               && (a.MakeCall? || (a.PlayCard? && rule != Some(a.card)) || CardStillFits(v.table, a.seat, a.card) ==>
                     Committed(v.table, p.seq_, a) == (Table(v.table.board, v.table.log + [a]), Done))
  {
    OpenGateCaptures(v, now);
    var p := Capture(v, now).value;
    CaptureSays(v, now, p);
    if p.PendingCard? {
      var card := ChooseCard(p, mode, ben, rule);
      ChosenCardIsLegal(p, mode, ben, rule);
      CardFits(v.table, p.seat, card);
    } else {
      BiddingFold(v.table.board, v.table.log);
      ChosenIsLegal(cache, p.calls, reply);
      SuggestionFits(v, now, Suggestion(p, mode, cache, reply, ben, rule));
    }
  }

  // ── Phase C: commit ────────────────────────────────────────────────────

  datatype Verdict = Stale | Done | Rejected

  function Committed(t: Table, seq_: nat, a: Action): (Table, Verdict) {
    if t.Seq() != seq_ then (t, Stale)
    else if Accepts(t.board, t.log, a) then (t.Applied(a), Done)
    else (t, Rejected)
  }

  method Commit(room: Room, seq_: nat, a: Action) returns (verdict: Verdict)
    modifies room.table
    ensures (room.View().table, verdict) == Committed(old(room.View()).table, seq_, a)
    ensures room.View() == old(room.View()).(table := room.View().table)
  {
    if |room.table.actions| != seq_ { return Stale; }
    var r := room.table.Apply(a);
    return if r.Ok? then Done else Rejected;
  }
}
