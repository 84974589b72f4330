/** Flattening a recorded play and replaying it seat by seat gives the play back. */
module LineReplay {
  import opened Bridge
  import opened Auction
  import opened CardPlay
  import opened RecordedLine
  import opened TableLog
  import opened TableLaws
  import opened Rooms
  import opened Bots

  // ── Recording ──────────────────────────────────────────────────────────

  /** The trick of `plays` that starts at `4 * t`, led by its first player. */
  function TrickFrom(plays: seq<PlayedCard>, t: nat): RecordedTrick
    requires 4 * t < |plays|
  {
    RecordedTrick(plays[4 * t].seat,
                  [CardAt(plays, 4 * t), CardAt(plays, 4 * t + 1), CardAt(plays, 4 * t + 2), CardAt(plays, 4 * t + 3)])
  }

  function CardAt(plays: seq<PlayedCard>, i: nat): Option<Card> {
    if i < |plays| then Some(plays[i].card) else None
  }

  /** A line of play cut into tricks of four, the last one possibly short. */
  function Recorded(plays: seq<PlayedCard>): seq<RecordedTrick> {
    seq((|plays| + 3) / 4, t requires 0 <= t < (|plays| + 3) / 4 => TrickFrom(plays, t))
  }

  /** Every card was played by its trick's first player advanced to its position. */
  ghost predicate Clockwise(plays: seq<PlayedCard>) {
    forall i :: 0 <= i < |plays| ==> SeatFits(plays, i)
  }

  predicate SeatFits(plays: seq<PlayedCard>, i: nat)
    requires i < |plays|
  {
    plays[i].seat == plays[i - i % 4].seat.Advance(i % 4)
  }

  function Min(a: int, b: int): int { if a <= b then a else b }

  lemma {:induction false} TrickPlaysBack(plays: seq<PlayedCard>, t: nat, n: nat)
    requires 4 * t < |plays| && n <= 4 && Clockwise(plays)
    ensures TrickFrom(plays, t).Plays(n) == plays[4 * t..Min(4 * t + n, |plays|)]
  {
    if n > 0 {
      TrickPlaysBack(plays, t, n - 1);
      var i := 4 * t + n - 1;
      if i < |plays| {
        Modulo4(t, n - 1);
        assert SeatFits(plays, i);
        assert plays[4 * t..i + 1] == plays[4 * t..i] + [plays[i]];
      }
    }
  }

  /** `tricks` are the first tricks of the record of `plays`. */
  ghost predicate RecordStarts(plays: seq<PlayedCard>, tricks: seq<RecordedTrick>) {
    forall t :: 0 <= t < |tricks| ==> RecordsTrick(plays, tricks[t], t)
  }

  predicate RecordsTrick(plays: seq<PlayedCard>, trick: RecordedTrick, t: nat) {
    4 * t < |plays| && trick == TrickFrom(plays, t)
  }

  lemma {:induction false} ChronologyOfRecord(plays: seq<PlayedCard>, tricks: seq<RecordedTrick>)
    requires Clockwise(plays) && RecordStarts(plays, tricks)
    ensures Chronology(tricks) == plays[..Min(4 * |tricks|, |plays|)]
  {
    if tricks != [] {
      var t := |tricks| - 1;
      assert RecordsTrick(plays, tricks[t], t);
      ChronologyOfRecord(plays, Init(tricks));
      TrickPlaysBack(plays, t, 4);
      SlicesJoin(plays, 4 * t, Min(4 * t + 4, |plays|));
    }
  }

  lemma {:induction false} SlicesJoin<T>(s: seq<T>, from: nat, to: nat)
    requires from <= to <= |s|
    ensures s[..from] + s[from..to] == s[..to]
  {
  }

  lemma {:induction false} TakeConcat<T>(a: seq<T>, b: seq<T>, k: nat)
    requires k <= |b|
    ensures (a + b)[..|a| + k] == a + b[..k]
    ensures k < |b| ==> (a + b)[|a| + k] == b[k]
  {
  }

  lemma {:induction false} QuarterUp(n: nat)
    ensures n <= 4 * ((n + 3) / 4) < n + 4
  {
  }

  /** Reading the record back in order gives the plays. */
  lemma {:induction false} RecordRoundTrip(plays: seq<PlayedCard>)
    requires Clockwise(plays)
    ensures Chronology(Recorded(plays)) == plays
  {
    var tricks := Recorded(plays);
    QuarterUp(|plays|);
    forall t | 0 <= t < |tricks| ensures RecordsTrick(plays, tricks[t], t) {
    }
    ChronologyOfRecord(plays, tricks);
    assert plays[..|plays|] == plays;
  }

  lemma {:induction false} TurnOrderIsClockwise(
    t: Tally, opening: Direction, trump: Option<Suit>, played: seq<PlayedCard>)
    requires InTurn(t, opening, trump, played)
    ensures Clockwise(played)
  {
    forall i | 0 <= i < |played| ensures SeatFits(played, i) {
      var k, j := i / 4, i % 4;
      assert i == 4 * k + j;
      if k < |t.completed| {
        assert TrickAt(t.completed, opening, trump, played, k);
        assert played[4 * k + 0].seat == t.completed[k].leader;
        assert played[4 * k + j].seat == t.completed[k].leader.Advance(j);
      } else {
        assert k == |t.completed|;
        assert played[4 * k] == t.trick[0] && played[4 * k + j] == t.trick[j];
      }
    }
  }

  // ── Replaying ──────────────────────────────────────────────────────────

  /** `line` scripts exactly the cards each seat plays in `plays`. */
  ghost predicate Scripts(line: PlayLine, plays: seq<PlayedCard>) {
    forall seat :: line.Queue(seat) == CardsBy(plays, seat)
  }

  lemma {:induction false} CardsByPrefix(plays: seq<PlayedCard>, k: nat, seat: Direction)
    requires k <= |plays|
    ensures CardsBy(plays[..k], seat) <= CardsBy(plays, seat)
  {
    if k < |plays| {
      assert Init(plays)[..k] == plays[..k];
      CardsByPrefix(Init(plays), k, seat);
    } else {
      assert plays[..k] == plays;
    }
  }

  /** The script's next card for whoever played card `k` is card `k`, and play so far is on book. */
  lemma {:induction false} ScriptedNext(line: PlayLine, plays: seq<PlayedCard>, k: nat)
    requires Scripts(line, plays) && k < |plays|
    ensures !line.Diverged(plays[..k])
    ensures line.CardFor(plays[k].seat, |CardsBy(plays[..k], plays[k].seat)|) == Some(plays[k].card)
  {
    PrefixOnBook(line, plays, k);
    var seat := plays[k].seat;
    var mine := CardsBy(plays[..k], seat);
    assert plays[..k + 1] == plays[..k] + [plays[k]];
    CardsBySnoc(plays[..k], plays[k], seat);
    CardsByPrefix(plays, k + 1, seat);
    assert line.Queue(seat) == CardsBy(plays, seat);
    assert CardsBy(plays[..k + 1], seat)[|mine|] == plays[k].card;
  }

  lemma {:induction false} PrefixOnBook(line: PlayLine, plays: seq<PlayedCard>, k: nat)
    requires Scripts(line, plays) && k <= |plays|
    ensures !line.Diverged(plays[..k])
  {
    line.DivergedIsOffBook(plays[..k]);
    forall seat ensures CardsBy(plays[..k], seat) <= line.Queue(seat) {
      CardsByPrefix(plays, k, seat);
    }
  }

  /** The card the line gives the seat on turn, as the driver would see it with every seat a bot. */
  function LineTurn(v: RoomView, now: int): Option<Action> {
    match Capture(v, now)
    case Some(p) =>
      if p.PendingCard? && p.LineCard().Some? then Some(PlayCard(p.seat, p.LineCard().value)) else None
    case None => None
  }

  /** One driver turn: commit the line's card, if there is one. */
  function LineStep(v: RoomView, now: int): RoomView {
    match LineTurn(v, now)
    case None => v
    case Some(a) => v.(table := Committed(v.table, v.table.Seq(), a).0)
  }

  ghost predicate StepAt(views: seq<RoomView>, now: int, k: nat)
    requires k + 1 < |views|
  {
    views[k + 1] == LineStep(views[k], now)
  }

  /** The room after each driver turn. */
  ghost predicate LineRun(views: seq<RoomView>, now: int) {
    views != [] && forall k :: 0 <= k < |views| - 1 ==> StepAt(views, now, k)
  }

  ghost predicate AllBots(v: RoomView, now: int) {
    v.mode != BidOnly && forall seat :: v.IsBot(seat, now)
  }

  /** At a log whose next action is the play of card `k`, the line hands the driver exactly that play. */
  lemma {:induction false} LineTurnFollows(v: RoomView, now: int, line: PlayLine, plays: seq<PlayedCard>, k: nat)
    requires AllBots(v, now) && v.table.board.line == Some(line) && Scripts(line, plays) && k < |plays|
    requires PlaysOf(v.table.log) == plays[..k]
    requires Accepts(v.table.board, v.table.log, PlayCard(plays[k].seat, plays[k].card))
    ensures LineTurn(v, now) == Some(PlayCard(plays[k].seat, plays[k].card))
  {
    AcceptedPlay(v.table.board, v.table.log, PlayCard(plays[k].seat, plays[k].card));
    BotsCapture(v, now);
    LineCardIs(Capture(v, now).value, line, plays, k);
  }

  lemma {:induction false} AcceptedPlay(board: Board, log: seq<Action>, a: Action)
    requires a.PlayCard? && Accepts(board, log, a)
    ensures var f := Fold(board, log);
            && f.phase == Playing && f.nextToAct == Some(a.seat)
            && a.card in LegalCards(Remaining(board, f, a.seat), f.LeadSuit())
  {
  }

  lemma {:induction false} LineCardIs(p: Pending, line: PlayLine, plays: seq<PlayedCard>, k: nat)
    requires Scripts(line, plays) && k < |plays|
    requires p.PendingCard? && p.line == Some(line) && p.played == plays[..k]
    requires p.seat == plays[k].seat && plays[k].card in p.legal
    ensures p.LineCard() == Some(plays[k].card)
  {
    ScriptedNext(line, plays, k);
  }

  /** With every seat a bot, whoever is on turn to play a card is captured. */
  lemma {:induction false} BotsCapture(v: RoomView, now: int)
    requires AllBots(v, now)
    requires var f := v.table.Folded();
             f.phase == Playing && f.nextToAct.Some?
             && LegalCards(Remaining(v.table.board, f, f.nextToAct.value), f.LeadSuit()) != []
    ensures var f, p := v.table.Folded(), Capture(v, now);
            && p.Some? && p.value.PendingCard?
            && p.value.seat == f.nextToAct.value && p.value.played == PlaysOf(v.table.log)
            && p.value.line == v.table.board.line
            && p.value.legal == LegalCards(Remaining(v.table.board, f, f.nextToAct.value), f.LeadSuit())
  {
    var _, _ := PlayingFold(v.table.board, v.table.log);
    var f := v.table.Folded();
    assert v.IsBot(v.ControllerOf(f, f.nextToAct.value, now), now);
    assert v.GateOpen(now);
  }

  lemma {:induction false} PlayActionsAppend(log: seq<Action>, plays: seq<PlayedCard>)
    requires PlaysOf(log) == []
    ensures PlaysOf(log + PlayActions(plays)) == plays
    ensures CallsOf(log + PlayActions(plays)) == CallsOf(log)
  {
    if plays == [] {
      assert log + PlayActions(plays) == log;
    } else {
      var before, p := Init(plays), Last(plays);
      PlayActionsSnoc(before, p);
      assert log + PlayActions(plays) == log + PlayActions(before) + [PlayCard(p.seat, p.card)];
      PlayActionsAppend(log, before);
      LogSnoc(log + PlayActions(before), PlayCard(p.seat, p.card));
    }
  }

  /** The room once the first `n` plays have followed its log. */
  function PlayedOut(v: RoomView, plays: seq<PlayedCard>, n: nat): RoomView
    requires n <= |plays|
  {
    v.(table := Table(v.table.board, v.table.log + PlayActions(plays[..n])))
  }

  /** A room whose every seat is a bot replays a legal recorded line card by card. */
  lemma {:induction false} LineIsReplayed(
    views: seq<RoomView>, now: int, line: PlayLine, plays: seq<PlayedCard>, n: nat)
    requires LineRun(views, now) && n < |views| && n <= |plays|
    requires AllBots(views[0], now) && views[0].table.board.line == Some(line) && Scripts(line, plays)
    requires PlaysOf(views[0].table.log) == []
    requires Legal(views[0].table.board, views[0].table.log + PlayActions(plays))
    ensures views[n] == PlayedOut(views[0], plays, n)
  {
    if n == 0 {
      assert views[0].table.log + PlayActions(plays[..0]) == views[0].table.log;
    } else {
      LineIsReplayed(views, now, line, plays, n - 1);
      RunPlaysOut(views, now, line, plays, n - 1);
    }
  }

  lemma {:induction false} RunPlaysOut(
    views: seq<RoomView>, now: int, line: PlayLine, plays: seq<PlayedCard>, k: nat)
    requires LineRun(views, now) && k + 1 < |views| && k < |plays|
    requires AllBots(views[0], now) && views[0].table.board.line == Some(line) && Scripts(line, plays)
    requires PlaysOf(views[0].table.log) == []
    requires Legal(views[0].table.board, views[0].table.log + PlayActions(plays))
    requires views[k] == PlayedOut(views[0], plays, k)
    ensures views[k + 1] == PlayedOut(views[0], plays, k + 1)
  {
    assert StepAt(views, now, k);
    StepPlaysOut(views[0], now, line, plays, k);
  }

  /** One turn from where the first `k` plays have been made makes the next. */
  lemma {:induction false} StepPlaysOut(v: RoomView, now: int, line: PlayLine, plays: seq<PlayedCard>, k: nat)
    requires k < |plays| && AllBots(v, now) && v.table.board.line == Some(line) && Scripts(line, plays)
    requires PlaysOf(v.table.log) == [] && Legal(v.table.board, v.table.log + PlayActions(plays))
    ensures LineStep(PlayedOut(v, plays, k), now) == PlayedOut(v, plays, k + 1)
  {
    var sofar, a := PlayedOut(v, plays, k).table, PlayCard(plays[k].seat, plays[k].card);
    NextRecordedPlay(v.table.board, v.table.log, plays, k);
    SameBots(v, sofar, now);
    LineTurnFollows(v.(table := sofar), now, line, plays, k);
    CommitAppends(sofar, a);
  }

  lemma {:induction false} SameBots(v: RoomView, t: Table, now: int)
    requires AllBots(v, now)
    ensures AllBots(v.(table := t), now)
  {
    forall seat ensures v.(table := t).IsBot(seat, now) {
      assert v.IsBot(seat, now);
    }
  }

  lemma {:induction false} CommitAppends(t: Table, a: Action)
    requires Accepts(t.board, t.log, a)
    ensures Committed(t, t.Seq(), a) == (Table(t.board, t.log + [a]), Done)
  {
  }

  /** After `k` plays of a legal continuation the next one is accepted and completes `k + 1`. */
  lemma {:induction false} NextRecordedPlay(board: Board, log: seq<Action>, plays: seq<PlayedCard>, k: nat)
    requires PlaysOf(log) == [] && k < |plays| && Legal(board, log + PlayActions(plays))
    ensures var sofar := log + PlayActions(plays[..k]);
            var a := PlayCard(plays[k].seat, plays[k].card);
            && PlaysOf(sofar) == plays[..k]
            && Accepts(board, sofar, a)
            && sofar + [a] == log + PlayActions(plays[..k + 1])
  {
    var steps := PlayActions(plays);
    PlayActionsAppend(log, plays[..k]);
    PlayActionsPrefix(plays, k);
    PlayActionsPrefix(plays, k + 1);
    TakeConcat(log, steps, k);
    assert AcceptedAt(board, log + steps, |log| + k);
    NextStep(log, steps, k);
  }

  lemma {:induction false} NextStep<T>(a: seq<T>, b: seq<T>, k: nat)
    requires k < |b|
    ensures a + b[..k] + [b[k]] == a + b[..k + 1]
  {
  }

  lemma {:induction false} LegalPlayIsClockwise(board: Board, log: seq<Action>, plays: seq<PlayedCard>)
    requires board.deal.Valid() && PlaysOf(log) == [] && Legal(board, log + PlayActions(plays))
    ensures Clockwise(plays)
  {
    var all := log + PlayActions(plays);
    PlayActionsAppend(log, plays);
    ReachableInv(board, all);
    if plays != [] {
      PlayedUnderContract(board, all);
      var c := ContractOf(board.dealer, CallsOf(all)).value;
      TurnOrderIsClockwise(TallyIn(c, all), c.OpeningLeader(), TrumpOf(c.strain), plays);
    }
  }

  /** Round trip: record a legal line of play, flatten the record into queues, and let bots follow the
      queues from the end of the auction; the play comes back whole and on book throughout. */
  lemma {:induction false} FlattenAndReplay(views: seq<RoomView>, now: int, line: PlayLine, plays: seq<PlayedCard>)
    requires LineRun(views, now) && |views| == |plays| + 1 && plays != []
    requires AllBots(views[0], now) && views[0].table.board.deal.Valid() && views[0].table.board.line == Some(line)
    requires forall seat :: line.Queue(seat) == CardsBy(Chronology(Recorded(plays)), seat)
    requires PlaysOf(views[0].table.log) == []
    requires Legal(views[0].table.board, views[0].table.log + PlayActions(plays))
    ensures Last(views).table.log == views[0].table.log + PlayActions(plays)
    ensures forall k :: 0 <= k <= |plays| ==> !line.Diverged(plays[..k])
  {
    LegalPlayIsClockwise(views[0].table.board, views[0].table.log, plays);
    RecordRoundTrip(plays);
    LineIsReplayed(views, now, line, plays, |plays|);
    assert plays[..|plays|] == plays;
    forall k | 0 <= k <= |plays| ensures !line.Diverged(plays[..k]) {
      PrefixOnBook(line, plays, k);
    }
  }
}
