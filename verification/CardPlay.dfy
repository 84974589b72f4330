/** Following suit and winning tricks, as in src/engine/play.rs. */
module CardPlay {
  import opened Bridge

  function TrumpOf(strain: Strain): Option<Suit> {
    match strain
    case InClubs => Some(Clubs)
    case InDiamonds => Some(Diamonds)
    case InHearts => Some(Hearts)
    case InSpades => Some(Spades)
    case NoTrump => None
  }

  // ── Following suit ─────────────────────────────────────────────────────

  function OfSuit(cards: seq<Card>, suit: Suit): (r: seq<Card>)
    ensures forall c :: c in r <==> c in cards && c.suit == suit
  {
    if cards == [] then []
    else if Last(cards).suit == suit then OfSuit(Init(cards), suit) + [Last(cards)]
    else OfSuit(Init(cards), suit)
  }

  function LegalCards(remaining: seq<Card>, lead: Option<Suit>): seq<Card> {
    match lead
    case None => remaining
    case Some(suit) =>
      var follow := OfSuit(remaining, suit);
      if follow == [] then remaining else follow
  }

  predicate IsLegalPlay(card: Card, remaining: seq<Card>, lead: Option<Suit>) {
    card in LegalCards(remaining, lead)
  }

  /** Law 44C: the card is held, and follows suit unless the seat is void. */
  ghost predicate FollowsSuit(card: Card, remaining: seq<Card>, lead: Option<Suit>) {
    && card in remaining
    && (lead.Some? ==> card.suit == lead.value || forall c :: c in remaining ==> c.suit != lead.value)
  }

  lemma {:induction false} LegalIsFollowing(card: Card, remaining: seq<Card>, lead: Option<Suit>)
    ensures IsLegalPlay(card, remaining, lead) <==> FollowsSuit(card, remaining, lead)
    ensures LegalCards(remaining, lead) == [] <==> remaining == []
  {
    if lead.Some? {
      var follow := OfSuit(remaining, lead.value);
      if follow != [] { assert follow[0] in follow; }
      if c :| c in remaining && c.suit == lead.value { assert c in follow; }
    }
  }

  // ── Winning the trick ──────────────────────────────────────────────────

  predicate Beats(a: Card, b: Card, lead: Suit, trump: Option<Suit>) {
    var aTrump, bTrump := trump == Some(a.suit), trump == Some(b.suit);
    if aTrump && !bTrump then true
    else if !aTrump && bTrump then false
    else if aTrump && bTrump then a.rank > b.rank
    else if a.suit == lead && b.suit != lead then true
    else if a.suit != lead && b.suit == lead then false
    else if a.suit == lead && b.suit == lead then a.rank > b.rank
    else false
  }

  lemma {:induction false} BeatsIsStrictOrder(a: Card, b: Card, c: Card, lead: Suit, trump: Option<Suit>)
    ensures !Beats(a, a, lead, trump)
    ensures Beats(a, b, lead, trump) ==> !Beats(b, a, lead, trump)
    ensures Beats(a, b, lead, trump) && Beats(b, c, lead, trump) ==> Beats(a, c, lead, trump)
  {
  }

  type FourCards = s: seq<Card> | |s| == 4 witness seq(4, _ => Card(Clubs, 2))

  /** Position of the winner among the first `n` cards, keeping the earlier one unless beaten. */
  function Leading(cards: FourCards, trump: Option<Suit>, n: nat): (w: nat)
    requires 1 <= n <= 4
    ensures w < n
  {
    if n == 1 then 0
    else
      var w := Leading(cards, trump, n - 1);
      if Beats(cards[n - 1], cards[w], cards[0].suit, trump) then n - 1 else w
  }

  function TrickWinner(leader: Direction, cards: FourCards, trump: Option<Suit>): Direction {
    leader.Advance(Leading(cards, trump, |cards|))
  }

  /** Position `w` beats every other card of the trick. */
  ghost predicate BeatsTheRest(cards: FourCards, trump: Option<Suit>, w: nat) {
    w < 4 && forall i :: 0 <= i < 4 && i != w ==> Beats(cards[w], cards[i], cards[0].suit, trump)
  }

  lemma {:induction false} LeaderBeatsSoFar(cards: FourCards, trump: Option<Suit>, n: nat)
    requires NoDup(cards) && 1 <= n <= 4
    ensures var w := Leading(cards, trump, n);
            && (trump == Some(cards[w].suit) || cards[w].suit == cards[0].suit)
            && forall i :: 0 <= i < n && i != w ==> Beats(cards[w], cards[i], cards[0].suit, trump)
  {
    if n > 1 {
      LeaderBeatsSoFar(cards, trump, n - 1);
      var w, lead := Leading(cards, trump, n - 1), cards[0].suit;
      assert cards[w] != cards[n - 1];
      if Beats(cards[n - 1], cards[w], lead, trump) {
        forall i | 0 <= i < n - 1 ensures Beats(cards[n - 1], cards[i], lead, trump) {
          BeatsIsStrictOrder(cards[n - 1], cards[w], cards[i], lead, trump);
        }
      }
    }
  }

  /** Of four distinct cards the winner is the one no other card beats, and it beats the rest. */
  lemma {:induction false} WinnerIsUnbeaten(leader: Direction, cards: FourCards, trump: Option<Suit>, w: nat)
    requires NoDup(cards) && w < 4
    ensures TrickWinner(leader, cards, trump) == leader.Advance(w) <==> BeatsTheRest(cards, trump, w)
    ensures BeatsTheRest(cards, trump, w) <==>
              forall i :: 0 <= i < 4 ==> !Beats(cards[i], cards[w], cards[0].suit, trump)
  {
    LeaderBeatsSoFar(cards, trump, 4);
    var best, lead := Leading(cards, trump, |cards|), cards[0].suit;
    forall i | 0 <= i < 4 ensures !Beats(cards[i], cards[best], lead, trump) {
      BeatsIsStrictOrder(cards[best], cards[i], cards[i], lead, trump);
    }
    assert best != w ==> leader.Advance(w) != leader.Advance(best) && Beats(cards[best], cards[w], lead, trump);
    assert best != w ==> !Beats(cards[w], cards[best], lead, trump);
  }

  /** Laws 44E and 44F: the highest trump if one was played, else the highest card of the suit led. */
  lemma {:induction false} WinnerByTheLaws(cards: FourCards, trump: Option<Suit>, i: nat)
    requires NoDup(cards) && i < 4
    ensures var w := Leading(cards, trump, |cards|);
            if exists k :: 0 <= k < 4 && trump == Some(cards[k].suit) then
              trump == Some(cards[w].suit) && (cards[i].suit == cards[w].suit ==> cards[i].rank <= cards[w].rank)
            else
              cards[w].suit == cards[0].suit && (cards[i].suit == cards[0].suit ==> cards[i].rank <= cards[w].rank)
  {
    LeaderBeatsSoFar(cards, trump, 4);
  }

  method FindTrickWinner(leader: Direction, plays: FourCards, trump: Option<Suit>) returns (seat: Direction)
    ensures seat == TrickWinner(leader, plays, trump)
    ensures NoDup(plays) ==> BeatsTheRest(plays, trump, leader.Offset(seat))
  {
    var lead := plays[0].suit;
    var winner := 0;
    for i := 1 to 4
      invariant winner == Leading(plays, trump, i)
    {
      if Beats(plays[i], plays[winner], lead, trump) {
        winner := i;
      }
    }
    seat := leader;
    for k := 0 to winner
      invariant seat == leader.Advance(k)
    {
      AdvanceNext(leader, k);
      seat := seat.Next();
    }
    if NoDup(plays) {
      LeaderBeatsSoFar(plays, trump, 4);
      assert leader.Offset(seat) == winner;
    }
  }

  // ── Hands as they are played ───────────────────────────────────────────

  /** `cards` with every copy of `card` taken out. */
  function Without(cards: seq<Card>, card: Card): (r: seq<Card>)
    ensures forall c :: c in r <==> c in cards && c != card
  {
    if cards == [] then []
    else if Last(cards) == card then Without(Init(cards), card)
    else Without(Init(cards), card) + [Last(cards)]
  }

  lemma {:induction false} WithoutOne(cards: seq<Card>, card: Card)
    requires NoDup(cards)
    ensures NoDup(Without(cards, card))
    ensures multiset(Without(cards, card)) == multiset(cards) - multiset{card}
    ensures |Without(cards, card)| == |cards| - if card in cards then 1 else 0
  {
    if cards != [] {
      var before, last := Init(cards), Last(cards);
      NoDupSnoc(before, last);
      WithoutOne(before, card);
      NoDupSnoc(Without(before, card), last);
    }
  }

  /** The cards `seat` played, in order. */
  function CardsBy(played: seq<PlayedCard>, seat: Direction): seq<Card> {
    if played == [] then []
    else if Last(played).seat == seat then CardsBy(Init(played), seat) + [Last(played).card]
    else CardsBy(Init(played), seat)
  }

  lemma {:induction false} CardsBySnoc(played: seq<PlayedCard>, p: PlayedCard, seat: Direction)
    ensures CardsBy(played + [p], seat) ==
            if p.seat == seat then CardsBy(played, seat) + [p.card] else CardsBy(played, seat)
  {
    InitOfSnoc(played, p);
  }

  lemma {:induction false} CardsByMember(played: seq<PlayedCard>, seat: Direction, card: Card)
    ensures card in CardsBy(played, seat) <==> PlayedCard(seat, card) in played
  {
    if played != [] {
      CardsByMember(Init(played), seat, card);
      assert played == Init(played) + [Last(played)];
    }
  }

  /** What is left of `hand` once the cards `seat` played are taken out one by one. */
  function HandAfter(hand: seq<Card>, played: seq<PlayedCard>, seat: Direction): seq<Card> {
    if played == [] then hand
    else
      var held := HandAfter(hand, Init(played), seat);
      if Last(played).seat == seat then Without(held, Last(played).card) else held
  }

  lemma {:induction false} HandAfterMember(hand: seq<Card>, played: seq<PlayedCard>, seat: Direction, card: Card)
    ensures card in HandAfter(hand, played, seat) <==> card in hand && PlayedCard(seat, card) !in played
  {
    if played != [] {
      HandAfterMember(hand, Init(played), seat, card);
      assert played == Init(played) + [Last(played)];
    }
  }

  /** Two piles that make up `hand`, the second without repeats. */
  ghost predicate Split(hand: seq<Card>, gone: seq<Card>, held: seq<Card>) {
    && multiset(gone) + multiset(held) == multiset(hand)
    && |gone| + |held| == |hand|
    && NoDup(held)
  }

  lemma {:induction false} SplitMoves(hand: seq<Card>, gone: seq<Card>, held: seq<Card>, card: Card)
    requires Split(hand, gone, held) && card in hand && card !in gone
    ensures Split(hand, gone + [card], Without(held, card))
  {
    assert card in multiset(hand);
    assert card in held;
    WithoutOne(held, card);
  }

  /** Cards all from the hand and all different leave exactly the rest of it. */
  lemma {:induction false} HandsSplit(hand: seq<Card>, played: seq<PlayedCard>, seat: Direction)
    requires NoDup(hand) && NoDup(CardsBy(played, seat))
    requires forall c :: c in CardsBy(played, seat) ==> c in hand
    ensures Split(hand, CardsBy(played, seat), HandAfter(hand, played, seat))
  {
    if played != [] {
      var before, p := Init(played), Last(played);
      if p.seat == seat {
        NoDupSnoc(CardsBy(before, seat), p.card);
        HandsSplit(hand, before, seat);
        SplitMoves(hand, CardsBy(before, seat), HandAfter(hand, before, seat), p.card);
      } else {
        HandsSplit(hand, before, seat);
      }
    }
  }
}
