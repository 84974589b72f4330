/** A deal source's recorded play, flattened into one queue of cards per seat (src/table.rs). */
module RecordedLine {
  import opened Bridge
  import opened CardPlay

  type Queues = q: seq<seq<Card>> | |q| == 4 witness [[], [], [], []]

  datatype PlayLine = PlayLine(bySeat: Queues) {
    function Queue(seat: Direction): seq<Card> { bySeat[seat.Index()] }

    /** The card scripted for `seat`'s `i`-th turn. */
    function CardFor(seat: Direction, i: nat): Option<Card> {
      if i < |Queue(seat)| then Some(Queue(seat)[i]) else None
    }

    /** Some seat has left its script: played another card, or more cards than it lists. */
    ghost predicate OffBook(played: seq<PlayedCard>) {
      exists seat :: !(CardsBy(played, seat) <= Queue(seat))
    }

    /** The check as it runs: the first play that is not the next one scripted for its seat. */
    predicate Diverged(played: seq<PlayedCard>) {
      played != [] &&
      var before, p := Init(played), Last(played);
      Diverged(before) || CardFor(p.seat, |CardsBy(before, p.seat)|) != Some(p.card)
    }

    lemma {:induction false} DivergedIsOffBook(played: seq<PlayedCard>)
      ensures Diverged(played) <==> OffBook(played)
    {
      if played != [] {
        var before, p := Init(played), Last(played);
        DivergedIsOffBook(before);
        if seat :| !(CardsBy(before, seat) <= Queue(seat)) {
          assert CardsBy(before, seat) <= CardsBy(played, seat);
        }
        var mine := CardsBy(before, p.seat);
        assert CardsBy(played, p.seat) == mine + [p.card];
        if !Diverged(before) {
          assert mine <= Queue(p.seat);
          assert CardFor(p.seat, |mine|) == Some(p.card) <==> mine + [p.card] <= Queue(p.seat);
        }
      }
    }

    /** On book stays on book when plays are undone. */
    lemma {:induction false} UndoStaysOnBook(played: seq<PlayedCard>, n: nat)
      requires n <= |played| && !Diverged(played)
      ensures !Diverged(played[..n])
    {
      if n < |played| {
        assert Init(played)[..n] == played[..n];
        UndoStaysOnBook(Init(played), n);
      } else {
        assert played[..n] == played;
      }
    }

    method CheckDiverged(played: seq<PlayedCard>) returns (diverged: bool)
      ensures diverged == Diverged(played)
      ensures diverged <==> OffBook(played)
    {
      DivergedIsOffBook(played);
      var counts := [0, 0, 0, 0];
      for i := 0 to |played|
        invariant |counts| == 4 && !Diverged(played[..i])
        invariant forall seat: Direction :: counts[seat.Index()] == |CardsBy(played[..i], seat)|
      {
        var p := played[i];
        var idx := p.seat.Index();
        assert Init(played[..i + 1]) == played[..i];
        forall seat: Direction ensures seat.Index() == idx <==> seat == p.seat {
        }
        match CardFor(p.seat, counts[idx]) {
          case Some(expected) =>
            if expected != p.card {
              OnlyIfPrefixOnBook(played, i + 1);
              return true;
            }
          case None =>
            OnlyIfPrefixOnBook(played, i + 1);
            return true;
        }
        counts := counts[idx := counts[idx] + 1];
      }
      assert played[..|played|] == played;
      return false;
    }

    lemma {:induction false} OnlyIfPrefixOnBook(played: seq<PlayedCard>, n: nat)
      requires n <= |played| && Diverged(played[..n])
      ensures Diverged(played)
    {
      if !Diverged(played) { UndoStaysOnBook(played, n); }
    }
  }

  /** One trick of a recorded line; positions the source lacks are None. */
  datatype RecordedTrick = RecordedTrick(leader: Direction, cards: TrickCards) {
    function PlayerAt(pos: nat): Direction { leader.Advance(pos) }

    /** The plays recorded for the first `n` positions. */
    function Plays(n: nat): seq<PlayedCard>
      requires n <= 4
    {
      if n == 0 then []
      else Plays(n - 1) + match cards[n - 1] case None => [] case Some(c) => [PlayedCard(PlayerAt(n - 1), c)]
    }
  }

  type TrickCards = s: seq<Option<Card>> | |s| == 4 witness [None, None, None, None]

  /** The recorded plays in the order they were made. */
  function Chronology(tricks: seq<RecordedTrick>): seq<PlayedCard> {
    if tricks == [] then [] else Chronology(Init(tricks)) + Last(tricks).Plays(4)
  }

  ghost predicate Queued(bySeat: Queues, plays: seq<PlayedCard>) {
    forall seat: Direction :: bySeat[seat.Index()] == CardsBy(plays, seat)
  }

  lemma {:induction false} QueuePush(bySeat: Queues, plays: seq<PlayedCard>, p: PlayedCard)
    requires Queued(bySeat, plays)
    ensures Queued(bySeat[p.seat.Index() := bySeat[p.seat.Index()] + [p.card]], plays + [p])
  {
    forall seat: Direction {
      CardsBySnoc(plays, p, seat);
    }
  }

  lemma {:induction false} PlaysStep(before: seq<PlayedCard>, trick: RecordedTrick, pos: nat)
    requires pos < 4
    ensures before + trick.Plays(pos + 1) ==
            match trick.cards[pos]
            case None => before + trick.Plays(pos)
            case Some(c) => before + trick.Plays(pos) + [PlayedCard(trick.PlayerAt(pos), c)]
  {
  }

  /** Push one recorded trick's cards, in position order. */
  method QueueTrick(queues: Queues, trick: RecordedTrick, ghost before: seq<PlayedCard>) returns (bySeat: Queues)
    requires Queued(queues, before)
    ensures Queued(bySeat, before + trick.Plays(4))
  {
    bySeat := queues;
    assert before + trick.Plays(0) == before;
    for pos := 0 to 4
      invariant Queued(bySeat, before + trick.Plays(pos))
    {
      PlaysStep(before, trick, pos);
      if trick.cards[pos].Some? {
        var p := PlayedCard(trick.PlayerAt(pos), trick.cards[pos].value);
        var idx := p.seat.Index();
        QueuePush(bySeat, before + trick.Plays(pos), p);
        bySeat := bySeat[idx := bySeat[idx] + [p.card]];
      }
    }
  }

  method FromSequence(play: Option<seq<RecordedTrick>>) returns (line: Option<PlayLine>)
    ensures line.None? <==> play.None? || Chronology(play.value) == []
    ensures line.Some? ==> forall seat :: line.value.Queue(seat) == CardsBy(Chronology(play.value), seat)
  {
    if play.None? {
      return None;
    }
    var tricks := play.value;
    var bySeat: Queues := [[], [], [], []];
    for t := 0 to |tricks|
      invariant Queued(bySeat, Chronology(tricks[..t]))
    {
      assert Init(tricks[..t + 1]) == tricks[..t];
      bySeat := QueueTrick(bySeat, tricks[t], Chronology(tricks[..t]));
    }
    assert tricks[..|tricks|] == tricks;
    EmptyQueues(bySeat, Chronology(tricks));
    if forall i :: 0 <= i < 4 ==> bySeat[i] == [] {
      return None;
    }
    return Some(PlayLine(bySeat));
  }

  lemma {:induction false} EmptyQueues(bySeat: Queues, plays: seq<PlayedCard>)
    requires Queued(bySeat, plays)
    ensures plays == [] <==> forall i :: 0 <= i < 4 ==> bySeat[i] == []
  {
    if plays != [] {
      assert bySeat[Last(plays).seat.Index()] != [];
    } else {
      forall i | 0 <= i < 4 ensures bySeat[i] == [] {
        assert North.Advance(i).Index() == i;
      }
    }
  }
}
