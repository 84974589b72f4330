/** Deciding with the lock released: what a bot's suggestion or a checked claim meets on its return
    (src/bots.rs, src/claims.rs). */
module Optimistic {
  import opened Bridge
  import opened Auction
  import opened TableLog
  import opened TableLaws
  import opened TableTheorems
  import opened TableResults
  import opened Rooms
  import opened Bots

  // ── What may happen meanwhile ──────────────────────────────────────────

  /** A step by someone else while the lock is free. */
  datatype Meanwhile = Acts(a: Action) | Rewinds(n: nat) | Redeals(board: Board)

  function Step(t: Table, m: Meanwhile): Table {
    match m
    case Acts(a) => t.Applied(a)
    case Rewinds(n) => t.Undone(n)
    case Redeals(board) => Table(board, [])
  }

  function Steps(t: Table, ms: seq<Meanwhile>): Table {
    if ms == [] then t else Step(Steps(t, Init(ms)), Last(ms))
  }

  lemma {:induction false} StepsStayLegal(t: Table, ms: seq<Meanwhile>)
    requires Legal(t.board, t.log)
    ensures Legal(Steps(t, ms).board, Steps(t, ms).log)
  {
    if ms != [] {
      StepsStayLegal(t, Init(ms));
      var before := Steps(t, Init(ms));
      match Last(ms) {
        case Acts(a) => LegalLogSnoc(before.board, before.log, a);
        case Rewinds(n) => if n <= |before.log| { LegalLogPrefix(before.board, before.log, n); }
        case Redeals(_) =>
      }
    }
  }

  /** The board is never replaced and the log never shorter than `n`. */
  predicate NeverBelow(t: Table, ms: seq<Meanwhile>, n: nat) {
    ms == [] || (NeverBelow(t, Init(ms), n) && !Last(ms).Redeals? && |Steps(t, ms).log| >= n)
  }

  lemma {:induction false} PrefixSurvives(t: Table, ms: seq<Meanwhile>, n: nat)
    requires n <= |t.log| && NeverBelow(t, ms, n)
    ensures var u := Steps(t, ms); u.board == t.board && |u.log| >= n && u.log[..n] == t.log[..n]
  {
    if ms != [] {
      PrefixSurvives(t, Init(ms), n);
      var before := Steps(t, Init(ms));
      match Last(ms) {
        case Acts(a) => assert (before.log + [a])[..n] == before.log[..n];
        case Rewinds(k) => if k <= |before.log| { assert before.log[..k][..n] == before.log[..n]; }
        case Redeals(_) =>
      }
    }
  }

  // ── Bot suggestions ────────────────────────────────────────────────────

  /** Whatever happened meanwhile and whatever was suggested, the log stays legal, and it is either
      untouched or one accepted action longer. */
  lemma {:induction false} CommitIsSafe(t: Table, ms: seq<Meanwhile>, n: nat, a: Action)
    requires Legal(t.board, t.log)
    ensures var u := Steps(t, ms); var (w, verdict) := Committed(u, n, a);
            && Legal(w.board, w.log)
            && (verdict == Done ==> |u.log| == n && w == Table(u.board, u.log + [a]))
            && (verdict != Done ==> w == u)
            && (verdict == Stale <==> |u.log| != n)
            && (verdict == Rejected <==> |u.log| == n && !Accepts(u.board, u.log, a))
  {
    StepsStayLegal(t, ms);
    var u := Steps(t, ms);
    LegalLogSnoc(u.board, u.log, a);
  }

  /** If nothing captured was undone or re-dealt, a matching count means the same log, and the
      captured suggestion is accepted. */
  lemma {:induction false} CommitSucceeds(v: RoomView, now: int, ms: seq<Meanwhile>, a: Action)
    requires Capture(v, now).Some? && Capture(v, now).value.Suggests(a)
    requires NeverBelow(v.table, ms, v.table.Seq())
    ensures var u := Steps(v.table, ms); var n := Capture(v, now).value.seq_;
            && (u.Seq() == n ==> u == v.table && Committed(u, n, a) == (Table(u.board, u.log + [a]), Done))
            && (u.Seq() != n ==> Committed(u, n, a) == (u, Stale))
  {
    PrefixSurvives(v.table, ms, v.table.Seq());
    SuggestionFits(v, now, a);
    if Steps(v.table, ms).Seq() == v.table.Seq() { CountPinsLog(v.table, ms, v.table.Seq()); }
  }

  /** When a matching count pins the log: nothing below `n` having been undone, the log is the captured one
      exactly if its actions from `n` on are the same again. */
  lemma {:induction false} CountPinsLog(t: Table, ms: seq<Meanwhile>, n: nat)
    requires n <= |t.log| && NeverBelow(t, ms, n) && Steps(t, ms).Seq() == t.Seq()
    ensures Steps(t, ms) == t <==> Steps(t, ms).log[n..] == t.log[n..]
  {
    var u := Steps(t, ms);
    PrefixSurvives(t, ms, n);
    assert t.log == t.log[..n] + t.log[n..];
    assert u.log == u.log[..n] + u.log[n..];
  }

  /** Boards dealt meanwhile are dealt from a full pack. */
  ghost predicate FairDeals(ms: seq<Meanwhile>) {
    forall m :: m in ms && m.Redeals? ==> m.board.deal.Valid()
  }

  lemma {:induction false} StepsStayReachable(t: Table, ms: seq<Meanwhile>)
    requires t.Reachable() && FairDeals(ms)
    ensures Steps(t, ms).Reachable()
  {
    StepsStayLegal(t, ms);
    StepsDealFairly(t, ms);
  }

  lemma {:induction false} StepsDealFairly(t: Table, ms: seq<Meanwhile>)
    requires t.board.deal.Valid() && FairDeals(ms)
    ensures Steps(t, ms).board.deal.Valid()
  {
    if ms != [] {
      assert forall m :: m in Init(ms) ==> m in ms;
      assert Last(ms) in ms;
      StepsDealFairly(t, Init(ms));
    }
  }

  /** While the auction is on the log is nothing but calls. */
  lemma {:induction false} OnlyCallsYet(t: Table)
    requires t.Reachable() && !IsComplete(CallsOf(t.log))
    ensures |t.log| == |CallsOf(t.log)|
    ensures t.Folded().phase == Bidding && t.Folded().nextToAct == Some(t.board.dealer.Advance(|t.log|))
  {
    ReachableInv(t.board, t.log);
    LogIsCallsPlaysClaim(t.board, t.log);
    NoPlaysYet(t.board, t.log);
  }

  lemma {:induction false} SameAdvance(a: Direction, b: Direction, n: nat)
    ensures a.Advance(n) == b.Advance(n) <==> a == b
  {
  }

  /** A call captured at one table fits another of the same length exactly when it has the same dealer and
      the call is legal after its auction. */
  lemma {:induction false} CallFits(t: Table, u: Table, seat: Direction, call: Call)
    requires t.Reachable() && u.Reachable() && u.Seq() == t.Seq()
    requires t.Folded().phase == Bidding && t.Folded().nextToAct == Some(seat)
    ensures Accepts(u.board, u.log, MakeCall(seat, call)) <==>
            u.board.dealer == t.board.dealer && IsLegal(CallsOf(u.log), call)
  {
    BiddingFold(t.board, t.log);
    OnlyCallsYet(t);
    if !IsComplete(CallsOf(u.log)) {
      OnlyCallsYet(u);
      BiddingFold(u.board, u.log);
      SameAdvance(u.board.dealer, t.board.dealer, |t.log|);
    }
  }

  /** What the table a suggestion meets must look like for it to be made. */
  ghost predicate StillFits(t: Table, u: Table, a: Action) {
    match a
    case MakeCall(_, call) => u.board.dealer == t.board.dealer && IsLegal(CallsOf(u.log), call)
    case PlayCard(seat, card) => CardStillFits(u, seat, card)
    case ClaimTricks(_, _, _) => false
  }

  /** Whatever was applied, undone or re-dealt meanwhile, a suggestion is made exactly when the table it meets
      has the captured length and, for a call, the same dealer and an auction it is legal after; for a card,
      that seat on turn and a hand it is legal from. */
  lemma {:induction false} CommitLandsExactly(v: RoomView, now: int, ms: seq<Meanwhile>, a: Action)
    requires v.table.Reachable() && FairDeals(ms)
    requires Capture(v, now).Some? && Capture(v, now).value.Suggests(a)
    ensures var u := Steps(v.table, ms); var n := Capture(v, now).value.seq_;
            Committed(u, n, a).1 == Done <==> u.Seq() == n && StillFits(v.table, u, a)
  {
    var u := Steps(v.table, ms);
    StepsStayReachable(v.table, ms);
    CapturedTurn(v, now, a);
    match a {
      case MakeCall(seat, call) => if u.Seq() == v.table.Seq() { CallFits(v.table, u, seat, call); }
      case PlayCard(seat, card) => CardFits(u, seat, card);
    }
  }

  lemma {:induction false} CapturedTurn(v: RoomView, now: int, a: Action)
    requires Capture(v, now).Some? && Capture(v, now).value.Suggests(a)
    ensures Capture(v, now).value.seq_ == v.table.Seq() && v.table.Folded().nextToAct == Some(a.seat)
    ensures !a.ClaimTricks? && (a.MakeCall? ==> v.table.Folded().phase == Bidding)
  {
  }

  /** Applies alone never take anything away. */
  lemma {:induction false} AppliesNeverBelow(t: Table, ms: seq<Meanwhile>)
    requires forall m :: m in ms ==> m.Acts?
    ensures NeverBelow(t, ms, |t.log|) && |Steps(t, ms).log| >= |t.log|
  {
    if ms != [] {
      assert forall m :: m in Init(ms) ==> m in ms;
      AppliesNeverBelow(t, Init(ms));
      assert Last(ms) in ms;
    }
  }

  /** One call, undone and replaced by a higher one, brings the count back: the suggestion captured
      over the lower one passes the count and is refused by the table. */
  lemma {:induction false} CountMayMatchAnotherLog(board: Board)
    ensures var one, two := MakeCall(board.dealer, Bid(1, InClubs)), MakeCall(board.dealer, Bid(2, InClubs));
            var a := MakeCall(board.dealer.Next(), Bid(1, InDiamonds));
            var t := Table(board, [one]);
            var u := Steps(t, [Rewinds(0), Acts(two)]);
            && Legal(board, t.log) && Accepts(board, t.log, a)
            && u == Table(board, [two]) && u.Seq() == t.Seq()
            && Committed(u, t.Seq(), a) == (u, Rejected)
  {
    var one, two := Bid(1, InClubs), Bid(2, InClubs);
    OpeningBid(board, one);
    OpeningBid(board, two);
    SecondBid(board, one, Bid(1, InDiamonds));
    SecondBid(board, two, Bid(1, InDiamonds));
    var t := Table(board, [MakeCall(board.dealer, one)]);
    var ms := [Rewinds(0), Acts(MakeCall(board.dealer, two))];
    assert Init(ms) == [Rewinds(0)] && Init(Init(ms)) == [];
    assert Steps(t, Init(ms)) == Table(board, []);
    assert Steps(t, ms) == Table(board, [MakeCall(board.dealer, two)]);
  }

  lemma {:induction false} OpeningBid(board: Board, bid: Call)
    requires bid.Bid? && 1 <= bid.level <= 7
    ensures Accepts(board, [], MakeCall(board.dealer, bid)) && Legal(board, [MakeCall(board.dealer, bid)])
  {
    var opening := MakeCall(board.dealer, bid);
    assert board.dealer.Advance(0) == board.dealer;
    LegalLogSnoc(board, [], opening);
    assert [opening] == [] + [opening];
  }

  /** After an opening bid the next bid is accepted exactly when it outranks it. */
  lemma {:induction false} SecondBid(board: Board, bid: Call, next: Call)
    requires bid.Bid? && next.Bid? && 1 <= next.level <= 7
    ensures Accepts(board, [MakeCall(board.dealer, bid)], MakeCall(board.dealer.Next(), next)) <==>
            Outranks(next.level, next.strain, bid.level, bid.strain)
  {
    var log := [MakeCall(board.dealer, bid)];
    assert Init(log) == [] && CallsOf(log) == [bid];
    OneBid(bid, next);
    NextCall(board, log, [bid], next);
    assert board.dealer.Advance(1) == board.dealer.Next();
  }

  lemma {:induction false} NextCall(board: Board, log: seq<Action>, calls: seq<Call>, next: Call)
    requires CallsOf(log) == calls && !IsComplete(calls)
    ensures Accepts(board, log, MakeCall(board.dealer.Advance(|calls|), next)) <==> IsLegal(calls, next)
  {
  }

  lemma {:induction false} OneBid(bid: Call, next: Call)
    requires bid.Bid? && next.Bid? && 1 <= next.level <= 7
    ensures !IsComplete([bid])
    ensures IsLegal([bid], next) <==> Outranks(next.level, next.strain, bid.level, bid.strain)
  {
    assert LastBidOf([bid]) == Some(BidAt(bid.level, bid.strain, 0));
  }

  // ── Claims ─────────────────────────────────────────────────────────────

  datatype ClaimRequest = ClaimRequest(seat: Direction, tricks: U8, playsSeen: nat, ruling: bool)

  datatype ClaimDenial = EndsAtContract | NotDuringPlay | StaleClaim | TooMany | NotProved | RefusedByTable

  /** The checks made before the claim goes to the solver. */
  function ClaimCheck(v: RoomView, req: ClaimRequest): Option<ClaimDenial> {
    var f := v.table.Folded();
    if v.mode == BidOnly then Some(EndsAtContract)
    else if f.phase != Playing then Some(NotDuringPlay)
    else if req.playsSeen != |f.played| then Some(StaleClaim)
    else if req.tricks > f.TricksLeft() then Some(TooMany)
    else None
  }

  /** The second phase: only the number of cards played is compared before the table is asked. */
  function ClaimApplied(t: Table, req: ClaimRequest): (Table, Option<ClaimDenial>) {
    if |t.Folded().played| != req.playsSeen then (t, Some(StaleClaim))
    else
      var claim := ClaimTricks(req.seat, req.tricks, req.ruling);
      if Accepts(t.board, t.log, claim) then (t.Applied(claim), None) else (t, Some(RefusedByTable))
  }

  method CheckClaim(room: Room, req: ClaimRequest) returns (denied: Option<ClaimDenial>)
    ensures denied == ClaimCheck(room.View(), req)
  {
    if room.mode == BidOnly { return Some(EndsAtContract); }
    var f := room.table.FoldLog();
    if f.phase != Playing { return Some(NotDuringPlay); }
    if req.playsSeen != |f.played| { return Some(StaleClaim); }
    if req.tricks > f.TricksLeft() { return Some(TooMany); }
    return None;
  }

  /** `proved` is the solver's verdict, asked for only when the claim is not a ruling and checks are on. */
  method ApplyClaim(room: Room, req: ClaimRequest, verify: bool, proved: bool) returns (denied: Option<ClaimDenial>)
    modifies room.table
    ensures !req.ruling && verify && !proved ==> denied == Some(NotProved) && room.View() == old(room.View())
    ensures req.ruling || !verify || proved ==>
              (room.View().table, denied) == ClaimApplied(old(room.View()).table, req)
    ensures room.View() == old(room.View()).(table := room.View().table)
  {
    if !req.ruling && verify && !proved { return Some(NotProved); }
    var f := room.table.FoldLog();
    if |f.played| != req.playsSeen { return Some(StaleClaim); }
    var r := room.table.Apply(ClaimTricks(req.seat, req.tricks, req.ruling));
    return if r.Ok? then None else Some(RefusedByTable);
  }

  /** The first phase's checks, in order: the board's mode, the play being on, the cards the claimer had seen, and
      the tricks there are left. */
  lemma {:induction false} ClaimIsChecked(v: RoomView, req: ClaimRequest)
    requires v.table.Reachable()
    ensures ClaimCheck(v, req) ==
            if v.mode == BidOnly then Some(EndsAtContract)
            else if v.table.Folded().phase != Playing then Some(NotDuringPlay)
            else if req.playsSeen != |PlaysOf(v.table.log)| then Some(StaleClaim)
            else if req.tricks > 13 - |PlaysOf(v.table.log)| / 4 then Some(TooMany)
            else None
  {
    FoldShows(v.table.board, v.table.log);
  }

  lemma {:induction false} ClaimIsSafe(t: Table, ms: seq<Meanwhile>, req: ClaimRequest)
    requires Legal(t.board, t.log)
    ensures var u := Steps(t, ms); var (w, denied) := ClaimApplied(u, req);
            var claim := ClaimTricks(req.seat, req.tricks, req.ruling);
            && Legal(w.board, w.log)
            && (denied.Some? ==> w == u)
            && (denied == Some(StaleClaim) <==> |PlaysOf(u.log)| != req.playsSeen)
            && (denied == Some(RefusedByTable) <==>
                  |PlaysOf(u.log)| == req.playsSeen && !Accepts(u.board, u.log, claim))
            && (denied.None? ==> w == Table(u.board, u.log + [claim]) && w.Folded().phase == Complete)
  {
    StepsStayLegal(t, ms);
    var u, claim := Steps(t, ms), ClaimTricks(req.seat, req.tricks, req.ruling);
    LegalLogSnoc(u.board, u.log, claim);
    PlayedIsPlays(u);
    if Accepts(u.board, u.log, claim) {
      var _, _ := PlayingFold(u.board, u.log);
      LogSnoc(u.log, claim);
    }
  }

  /** If nothing that was checked was undone or re-dealt and the card count still matches, either the log
      is the one checked and the claim is accepted, or another claim got in first and this one is refused. */
  lemma {:induction false} ClaimMeetsItsPosition(v: RoomView, ms: seq<Meanwhile>, req: ClaimRequest)
    requires Legal(v.table.board, v.table.log) && ClaimCheck(v, req).None?
    requires NeverBelow(v.table, ms, v.table.Seq())
    requires |Steps(v.table, ms).Folded().played| == req.playsSeen
    ensures var u := Steps(v.table, ms);
            && (u == v.table || exists c: Action :: c.ClaimTricks? && u == Table(v.table.board, v.table.log + [c]))
            && (ClaimApplied(u, req).1.None? <==> u == v.table)
  {
    var t, u := v.table, Steps(v.table, ms);
    PrefixSurvives(t, ms, t.Seq());
    StepsStayLegal(t, ms);
    PlayedIsPlays(t);
    PlayedIsPlays(u);
    assert t.log[..t.Seq()] == t.log && u.log[..|u.log|] == u.log;
    OnlyAClaimFollows(t, u.log, |u.log|);
    if |u.log| == |t.log| + 1 {
      assert u.log == u.log[..|t.log|] + [u.log[|t.log|]];
      assert u == Table(t.board, t.log + [u.log[|t.log|]]);
    }
    ClaimOnceOnly(v, u, req);
  }

  /** With no card played since, a legal log that extends one in play adds at most a claim. */
  lemma {:induction false} OnlyAClaimFollows(t: Table, log: seq<Action>, n: nat)
    requires t.Folded().phase == Playing && Legal(t.board, log)
    requires |t.log| <= n <= |log| && log[..|t.log|] == t.log && |PlaysOf(log)| == |PlaysOf(t.log)|
    ensures n == |t.log| || (n == |t.log| + 1 && log[|t.log|].ClaimTricks?)
    decreases n
  {
    if n > |t.log| {
      OnlyAClaimFollows(t, log, n - 1);
      NextFollows(t, log, n - 1);
    }
  }

  lemma {:induction false} NextFollows(t: Table, log: seq<Action>, k: nat)
    requires t.Folded().phase == Playing && Legal(t.board, log)
    requires |t.log| <= k < |log| && log[..|t.log|] == t.log && |PlaysOf(log)| == |PlaysOf(t.log)|
    requires k == |t.log| || (k == |t.log| + 1 && log[|t.log|].ClaimTricks?)
    ensures k == |t.log| && log[k].ClaimTricks?
  {
    NoCardBetween(t, log, k + 1);
    assert AcceptedAt(t.board, log, k);
    assert log[..k + 1] == log[..k] + [log[k]];
    ShapeSoFar(t.log, log, k);
    ClaimThenNothing(t, log[..k], log[k]);
  }

  lemma {:induction false} ShapeSoFar(captured: seq<Action>, log: seq<Action>, k: nat)
    requires |captured| <= k < |log| && log[..|captured|] == captured
    requires k == |captured| || (k == |captured| + 1 && log[|captured|].ClaimTricks?)
    ensures captured <= log[..k]
    ensures log[..k] == captured || (|log[..k]| == |captured| + 1 && log[..k][|captured|].ClaimTricks?)
  {
    assert log[..k][..|captured|] == log[..|captured|];
  }

  lemma {:induction false} ClaimThenNothing(t: Table, log: seq<Action>, a: Action)
    requires t.Folded().phase == Playing && Accepts(t.board, log, a) && |PlaysOf(log + [a])| == |PlaysOf(t.log)|
    requires t.log <= log && (log == t.log || (|log| == |t.log| + 1 && log[|t.log|].ClaimTricks?))
    ensures log == t.log && a.ClaimTricks?
  {
    if log == t.log {
      InPlayWithoutCard(t.board, t.log, a);
    } else {
      assert log == t.log + [log[|t.log|]];
      ClaimEndsPlay(t.board, t.log, log[|t.log|]);
    }
  }

  /** During the play whatever is accepted is a card or a claim. */
  lemma {:induction false} InPlayWithoutCard(board: Board, log: seq<Action>, a: Action)
    requires Fold(board, log).phase == Playing && Accepts(board, log, a)
    requires |PlaysOf(log + [a])| == |PlaysOf(log)|
    ensures a.ClaimTricks?
  {
    LogSnoc(log, a);
  }

  lemma {:induction false} ClaimEndsPlay(board: Board, log: seq<Action>, claim: Action)
    requires Fold(board, log).phase == Playing && claim.ClaimTricks?
    ensures Fold(board, log + [claim]).phase == Complete
    ensures forall a :: !Accepts(board, log + [claim], a)
  {
    var _, _ := PlayingFold(board, log);
    LogSnoc(log, claim);
  }

  lemma {:induction false} NoCardBetween(t: Table, log: seq<Action>, n: nat)
    requires |t.log| <= n <= |log| && log[..|t.log|] == t.log && |PlaysOf(log)| == |PlaysOf(t.log)|
    ensures |PlaysOf(log[..n])| == |PlaysOf(t.log)|
  {
    assert log[..n][..|t.log|] == t.log;
    PlaysOnlyGrow(log, n);
    PlaysOnlyGrow(log[..n], |t.log|);
  }

  lemma {:induction false} PlaysOnlyGrow(log: seq<Action>, n: nat)
    requires n <= |log|
    ensures |PlaysOf(log[..n])| <= |PlaysOf(log)|
  {
    if n < |log| {
      assert Init(log)[..n] == log[..n];
      PlaysOnlyGrow(Init(log), n);
    } else {
      assert log[..n] == log;
    }
  }

  /** The checked claim goes through on the table it was checked on and not behind another claim. */
  lemma {:induction false} ClaimOnceOnly(v: RoomView, u: Table, req: ClaimRequest)
    requires ClaimCheck(v, req).None? && |u.Folded().played| == req.playsSeen
    requires u == v.table || exists c: Action :: c.ClaimTricks? && u == Table(v.table.board, v.table.log + [c])
    ensures ClaimApplied(u, req).1.None? <==> u == v.table
  {
    if u == v.table {
      ClaimPasses(v, req);
    } else {
      var c: Action :| c.ClaimTricks? && u == Table(v.table.board, v.table.log + [c]);
      ClaimEndsPlay(v.table.board, v.table.log, c);
    }
  }

  /** During the play the tricks left are a matter of the cards played. */
  lemma {:induction false} TricksLeftByCount(t: Table)
    requires t.Reachable() && t.Folded().phase == Playing
    ensures t.Folded().TricksLeft() == 13 - |t.Folded().played| / 4
  {
    var _, _ := PlayingFold(t.board, t.log);
    var c, tally := ReachablePlay(t.board, t.log);
    NoWrapBelow13(|tally.completed|);
  }

  /** Whatever was applied, undone or re-dealt meanwhile, a checked claim is accepted exactly when the table
      it meets shows the count that was checked and its play is still on. */
  lemma {:induction false} ClaimLandsExactly(v: RoomView, ms: seq<Meanwhile>, req: ClaimRequest)
    requires v.table.Reachable() && FairDeals(ms) && ClaimCheck(v, req).None?
    ensures var f := Steps(v.table, ms).Folded();
            ClaimApplied(Steps(v.table, ms), req).1.None? <==> |f.played| == req.playsSeen && f.phase == Playing
  {
    var u := Steps(v.table, ms);
    StepsStayReachable(v.table, ms);
    TricksLeftByCount(v.table);
    if u.Folded().phase == Playing { TricksLeftByCount(u); }
  }

  /** After an undo and a different lead the count matches again, and a claim checked against the one
      position is applied to the other: so it goes after any auction with a contract. */
  lemma {:induction false} ClaimMayJudgeAnotherPosition(
    v: RoomView, calls: seq<Call>, c: Outcome, req: ClaimRequest, x: Card, y: Card)
    requires v.mode == BidAndPlay && LegalAuction(calls) && ContractOf(v.table.board.dealer, calls) == Some(c)
    requires var hand := v.table.board.deal.Hand(c.OpeningLeader()); x != y && x in hand && y in hand
    requires v.table.log == CallActions(v.table.board.dealer, calls) + [PlayCard(c.OpeningLeader(), x)]
    requires req.tricks <= 13 && req.playsSeen == 1
    ensures var u := Steps(v.table, [Rewinds(|calls|), Acts(PlayCard(c.OpeningLeader(), y))]);
            && Legal(v.table.board, v.table.log) && ClaimCheck(v, req).None?
            && u.Folded().played != v.table.Folded().played
            && ClaimApplied(u, req).1.None?
  {
    var board, leader := v.table.board, c.OpeningLeader();
    OpeningLead(board, calls, c, x);
    OpeningLead(board, calls, c, y);
    var bids := CallActions(board.dealer, calls);
    RewindAndReplace(v.table, bids, PlayCard(leader, x), PlayCard(leader, y));
    ClaimPasses(v, req);
    ClaimPasses(v.(table := Table(board, bids + [PlayCard(leader, y)])), req);
  }

  /** A claim in range, made during the play by someone who has seen every card, passes both phases. */
  lemma {:induction false} ClaimPasses(v: RoomView, req: ClaimRequest)
    requires v.mode != BidOnly
    requires var f := v.table.Folded(); f.phase == Playing && |f.played| == req.playsSeen && req.tricks <= f.TricksLeft()
    ensures ClaimCheck(v, req).None? && ClaimApplied(v.table, req).1.None?
  {
  }

  lemma {:induction false} RewindAndReplace(t: Table, bids: seq<Action>, a: Action, b: Action)
    requires t.log == bids + [a] && Accepts(t.board, bids, b)
    ensures Steps(t, [Rewinds(|bids|), Acts(b)]) == Table(t.board, bids + [b])
  {
    var ms := [Rewinds(|bids|), Acts(b)];
    assert Init(ms) == [Rewinds(|bids|)] && Init(Init(ms)) == [];
    assert t.log[..|bids|] == bids;
    assert Steps(t, Init(ms)) == Table(t.board, bids);
  }
}
