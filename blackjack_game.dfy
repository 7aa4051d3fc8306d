/**
 * Two-player blackjack for medals. Both players stake the bet when the
 * invitation is accepted; the pot (twice the bet) goes to the winner, with
 * half a bet more for a lone natural, and a tie or a cancelled game
 * refunds both stakes.
 */
module Blackjack {
  import opened Records
  import opened DataService
  import opened EconomyBase
  import ChallengeRegistry

  const FACE_COUNT: int := 13
  const SUIT_COUNT: int := 4
  const DECK_SIZE: int := 52
  /** CARD_VALUES in CARD_FACES order: A, 2..10, J, Q, K. */
  const FACE_VALUES: seq<int> := [11, 2, 3, 4, 5, 6, 7, 8, 9, 10, 10, 10, 10]
  /** The index of 'A' in CARD_FACES. */
  const ACE: int := 0
  const BUST_LIMIT: int := 21

  /** A card: an index into CARD_FACES and one into SUITS. */
  datatype Card = Card(face: int, suit: int)

  predicate ValidCard(c: Card)
  {
    0 <= c.face < FACE_COUNT && 0 <= c.suit < SUIT_COUNT
  }

  predicate ValidCards(cs: seq<Card>)
  {
    forall i :: 0 <= i < |cs| ==> ValidCard(cs[i])
  }

  /** A card's value with an ace counted as 11. */
  function CardValue(c: Card): (v: int)
    requires ValidCard(c)
    ensures 2 <= v <= 11 && (v == 11 <==> c.face == ACE)
  {
    FACE_VALUES[c.face]
  }

  // ---------------------------------------------------------------------
  // The deck
  // ---------------------------------------------------------------------

  /** create_deck's order: suits outermost, faces innermost. */
  function FullDeck(): seq<Card>
  {
    seq(DECK_SIZE, i requires 0 <= i < DECK_SIZE => Card(i % FACE_COUNT, i / FACE_COUNT))
  }

  /** The deck holds every card exactly once. */
  lemma FullDeckIsADeck()
    ensures |FullDeck()| == DECK_SIZE && ValidCards(FullDeck())
    ensures forall c :: ValidCard(c) ==> c in FullDeck()
    ensures forall i, j :: 0 <= i < j < DECK_SIZE ==> FullDeck()[i] != FullDeck()[j]
  {
    var d := FullDeck();
    forall c | ValidCard(c) ensures c in d {
      var i := c.suit * FACE_COUNT + c.face;
      assert 0 <= i < DECK_SIZE;
      assert i / FACE_COUNT == c.suit && i % FACE_COUNT == c.face;
      assert d[i] == c;
    }
    forall i, j | 0 <= i < j < DECK_SIZE ensures d[i] != d[j] {
    }
  }

  /** create_deck: thirteen faces for each of the four suits. */
  method CreateDeck() returns (deck: seq<Card>)
    ensures deck == FullDeck()
  {
    deck := [];
    var s := 0;
    while s < SUIT_COUNT
      invariant 0 <= s <= SUIT_COUNT
      invariant deck == FullDeck()[..s * FACE_COUNT]
    {
      var f := 0;
      while f < FACE_COUNT
        invariant 0 <= f <= FACE_COUNT
        invariant deck == FullDeck()[..s * FACE_COUNT + f]
      {
        var i := s * FACE_COUNT + f;
        assert i / FACE_COUNT == s && i % FACE_COUNT == f;
        assert FullDeck()[..i + 1] == FullDeck()[..i] + [Card(f, s)];
        deck := deck + [Card(f, s)];
        f := f + 1;
      }
      s := s + 1;
    }
  }

  /** A shuffled deck: the 52 cards in some order. */
  predicate IsDeckShuffle(s: seq<Card>)
  {
    multiset(s) == multiset(FullDeck())
  }

  lemma ShuffleIsFullDeck(s: seq<Card>)
    requires IsDeckShuffle(s)
    ensures |s| == DECK_SIZE && ValidCards(s)
  {
    FullDeckIsADeck();
    assert |s| == |multiset(s)| == |multiset(FullDeck())| == DECK_SIZE;
    forall i | 0 <= i < |s| ensures ValidCard(s[i]) {
      assert s[i] in multiset(s);
      assert s[i] in FullDeck();
    }
  }

  /** draw_card's card: the last of the deck, or of a fresh shuffle when the deck is empty. */
  function Drawn(deck: seq<Card>, reshuffled: seq<Card>): Card
    requires |reshuffled| == DECK_SIZE
  {
    if deck == [] then reshuffled[DECK_SIZE - 1] else deck[|deck| - 1]
  }

  /** The deck after draw_card. */
  function AfterDraw(deck: seq<Card>, reshuffled: seq<Card>): seq<Card>
    requires |reshuffled| == DECK_SIZE
  {
    if deck == [] then reshuffled[..DECK_SIZE - 1] else deck[..|deck| - 1]
  }

  /** A draw moves one card out of the deck: nothing is lost or invented. */
  lemma DrawConservesCards(deck: seq<Card>, reshuffled: seq<Card>)
    requires IsDeckShuffle(reshuffled)
    ensures |reshuffled| == DECK_SIZE
    ensures var from := if deck == [] then reshuffled else deck;
            multiset(AfterDraw(deck, reshuffled)) + multiset{Drawn(deck, reshuffled)} == multiset(from)
    ensures ValidCards(deck) ==> ValidCard(Drawn(deck, reshuffled)) && ValidCards(AfterDraw(deck, reshuffled))
  {
    ShuffleIsFullDeck(reshuffled);
    var from := if deck == [] then reshuffled else deck;
    assert from == AfterDraw(deck, reshuffled) + [Drawn(deck, reshuffled)];
  }

  // ---------------------------------------------------------------------
  // Hand values
  // ---------------------------------------------------------------------

  /** The hand's total with every ace counted as 11. */
  function RawSum(hand: seq<Card>): int
    requires ValidCards(hand)
  {
    if hand == [] then 0 else RawSum(hand[..|hand| - 1]) + CardValue(hand[|hand| - 1])
  }

  /** The number of aces in the hand. */
  function Aces(hand: seq<Card>): nat
    requires ValidCards(hand)
  {
    if hand == [] then 0 else Aces(hand[..|hand| - 1]) + (if hand[|hand| - 1].face == ACE then 1 else 0)
  }

  lemma {:induction false} AcesBounds(hand: seq<Card>)
    requires ValidCards(hand)
    ensures 0 <= Aces(hand) <= |hand| && RawSum(hand) >= 2 * |hand| + 9 * Aces(hand)
    ensures RawSum(hand) - 10 * Aces(hand) <= 10 * |hand|
  {
    if hand != [] {
      AcesBounds(hand[..|hand| - 1]);
    }
  }

  /** Aces turned from 11 into 1, one at a time, while the total is over 21. */
  function Soften(value: int, aces: int): int
    decreases aces
  {
    if value > BUST_LIMIT && aces > 0 then Soften(value - 10, aces - 1) else value
  }

  /** calculate_hand_value as a definition. */
  function HandValue(hand: seq<Card>): int
    requires ValidCards(hand)
  {
    Soften(RawSum(hand), Aces(hand))
  }

  /**
   * Soften picks the best count of soft aces: never above the raw total
   * nor below it with every ace hard, 21 or less whenever some count of
   * hard aces reaches 21 or less and then at least that total, and a total
   * over 21 only with every ace hard.
   */
  lemma {:induction false} SoftenIsBest(value: int, aces: int, k: int)
    requires 0 <= k <= aces
    ensures value - 10 * aces <= Soften(value, aces) <= value
    ensures value - 10 * k <= BUST_LIMIT ==> value - 10 * k <= Soften(value, aces) <= BUST_LIMIT
    ensures Soften(value, aces) > BUST_LIMIT ==> Soften(value, aces) == value - 10 * aces
    decreases aces
  {
    if value > BUST_LIMIT && aces > 0 {
      if k > 0 {
        SoftenIsBest(value - 10, aces - 1, k - 1);
      } else {
        SoftenIsBest(value - 10, aces - 1, 0);
      }
    }
  }

  /** The hand value is the best total the aces allow. */
  lemma HandValueIsBest(hand: seq<Card>, k: int)
    requires ValidCards(hand) && 0 <= k <= Aces(hand)
    ensures RawSum(hand) - 10 * Aces(hand) <= HandValue(hand) <= RawSum(hand)
    ensures RawSum(hand) - 10 * k <= BUST_LIMIT ==> RawSum(hand) - 10 * k <= HandValue(hand) <= BUST_LIMIT
    ensures HandValue(hand) > BUST_LIMIT ==> HandValue(hand) == RawSum(hand) - 10 * Aces(hand)
    ensures |hand| <= HandValue(hand)
    ensures |hand| == 2 ==> HandValue(hand) <= BUST_LIMIT
  {
    SoftenIsBest(RawSum(hand), Aces(hand), k);
    SoftenIsBest(RawSum(hand), Aces(hand), Aces(hand));
    AcesBounds(hand);
  }

  /** calculate_hand_value: sum at 11 per ace, then soften aces while over 21. */
  method CalculateHandValue(hand: seq<Card>) returns (value: int)
    requires ValidCards(hand)
    ensures value == HandValue(hand)
  {
    value := 0;
    var aces := 0;
    var i := 0;
    while i < |hand|
      invariant 0 <= i <= |hand|
      invariant value == RawSum(hand[..i]) && aces == Aces(hand[..i])
    {
      assert hand[..i + 1][..i] == hand[..i];
      value := value + CardValue(hand[i]);
      if hand[i].face == ACE {
        aces := aces + 1;
      }
      i := i + 1;
    }
    assert hand[..i] == hand;
    while value > BUST_LIMIT && aces > 0
      invariant Soften(value, aces) == HandValue(hand)
      decreases aces
    {
      value := value - 10;
      aces := aces - 1;
    }
  }

  /** A natural: two cards worth 21. */
  predicate Natural(hand: seq<Card>)
    requires ValidCards(hand)
  {
    |hand| == 2 && HandValue(hand) == BUST_LIMIT
  }

  /** A natural is exactly an ace with a ten-valued card. */
  lemma NaturalIsAceAndTen(hand: seq<Card>)
    requires ValidCards(hand) && |hand| == 2
    ensures Natural(hand) <==>
              (CardValue(hand[0]) == 11 && CardValue(hand[1]) == 10) ||
              (CardValue(hand[0]) == 10 && CardValue(hand[1]) == 11)
  {
    var first := hand[..1];
    assert first[..0] == [];
    assert RawSum(first) == CardValue(hand[0]) && Aces(first) == (if hand[0].face == ACE then 1 else 0);
    assert hand[..|hand| - 1] == first;
    assert RawSum(hand) == CardValue(hand[0]) + CardValue(hand[1]);
    assert Aces(hand) == (if hand[0].face == ACE then 1 else 0) + (if hand[1].face == ACE then 1 else 0);
  }

  // ---------------------------------------------------------------------
  // The verdict and the payout
  // ---------------------------------------------------------------------

  datatype Side = InitiatorSide | OpponentSide

  /** The winning side (none for a tie) and whether it won with a lone natural. */
  datatype Verdict = Verdict(winner: Option<Side>, bonus: bool)

  function Other(s: Side): Side
  {
    if s == InitiatorSide then OpponentSide else InitiatorSide
  }

  /**
   * determine_winner. A lone natural wins with the bonus; otherwise a bust
   * loses to a non-bust, two busts tie, and two standing hands compare.
   */
  function WinnerOf(ih: seq<Card>, oh: seq<Card>): (v: Verdict)
    requires ValidCards(ih) && ValidCards(oh)
    ensures v.bonus <==> Natural(ih) != Natural(oh)
    ensures v.bonus ==> v.winner == Some(if Natural(ih) then InitiatorSide else OpponentSide)
    ensures !v.bonus ==>
              (v.winner == Some(InitiatorSide) <==>
                 HandValue(ih) <= BUST_LIMIT && (HandValue(oh) > BUST_LIMIT || HandValue(ih) > HandValue(oh))) &&
              (v.winner == Some(OpponentSide) <==>
                 HandValue(oh) <= BUST_LIMIT && (HandValue(ih) > BUST_LIMIT || HandValue(oh) > HandValue(ih)))
    ensures v.winner.None? <==>
              Natural(ih) == Natural(oh) &&
              ((HandValue(ih) > BUST_LIMIT && HandValue(oh) > BUST_LIMIT) || HandValue(ih) == HandValue(oh))
  {
    var iv := HandValue(ih);
    var ov := HandValue(oh);
    var ib := |ih| == 2 && iv == BUST_LIMIT;
    var ob := |oh| == 2 && ov == BUST_LIMIT;
    if ib && !ob then Verdict(Some(InitiatorSide), true)
    else if ob && !ib then Verdict(Some(OpponentSide), true)
    else if iv > BUST_LIMIT then (if ov > BUST_LIMIT then Verdict(None, false) else Verdict(Some(OpponentSide), false))
    else if ov > BUST_LIMIT then Verdict(Some(InitiatorSide), false)
    else if iv > ov then Verdict(Some(InitiatorSide), false)
    else if ov > iv then Verdict(Some(OpponentSide), false)
    else Verdict(None, false)
  }

  /** Swapping the hands swaps the winner: the rule favours neither seat. */
  lemma WinnerIsSymmetric(ih: seq<Card>, oh: seq<Card>)
    requires ValidCards(ih) && ValidCards(oh)
    ensures var v := WinnerOf(ih, oh);
            var w := WinnerOf(oh, ih);
            w.bonus == v.bonus &&
            (v.winner.None? <==> w.winner.None?) &&
            (v.winner.Some? ==> w.winner == Some(Other(v.winner.value)))
  {
  }

  /** What handle_game_over credits the initiator and the opponent. */
  function Payout(v: Verdict, bet: int): (p: (int, int))
    ensures v.winner.None? ==> p == (bet, bet)
    ensures v.winner.Some? ==>
              var prize := 2 * bet + (if v.bonus then bet / 2 else 0);
              p == (if v.winner == Some(InitiatorSide) then (prize, 0) else (0, prize))
  {
    match v.winner
    case None => (bet, bet)
    case Some(side) =>
      var total := if v.bonus then 2 * bet + bet / 2 else 2 * bet;
      if side == InitiatorSide then (total, 0) else (0, total)
  }

  /** Add an amount to a member's pockets, creating the record if absent. */
  function Credit(doc: Document, m: Member, amount: int, sb: int): Document
  {
    doc[m.key := AddPockets(UserOf(doc, m, sb), amount)]
  }

  /** Both stakes taken when the invitation is accepted. */
  function Stake(doc: Document, i: Member, o: Member, bet: int, sb: int): Document
  {
    Credit(Credit(doc, i, -bet, sb), o, -bet, sb)
  }

  /** The game's settlement: a tie refunds both; a win pays the winner only. */
  function Settle(doc: Document, i: Member, o: Member, v: Verdict, bet: int, sb: int): Document
  {
    var p := Payout(v, bet);
    match v.winner
    case None => Credit(Credit(doc, i, p.0, sb), o, p.1, sb)
    case Some(InitiatorSide) => Credit(doc, i, p.0, sb)
    case Some(OpponentSide) => Credit(doc, o, p.1, sb)
  }

  /**
   * Stake then settle: a tie gives both players their pockets back; a
   * win moves one bet from the loser to the winner, plus half a bet of new
   * medals for a lone natural. Nobody else is touched.
   */
  lemma StakeThenSettle(doc: Document, i: Member, o: Member, v: Verdict, bet: int, sb: int)
    requires i.key in doc && o.key in doc && i.key != o.key
    ensures var d := Settle(Stake(doc, i, o, bet, sb), i, o, v, bet, sb);
            d.Keys == doc.Keys &&
            (forall k :: k in doc && k != i.key && k != o.key ==> d[k] == doc[k]) &&
            d[i.key].(pockets := doc[i.key].pockets) == doc[i.key] &&
            d[o.key].(pockets := doc[o.key].pockets) == doc[o.key]
    ensures var d := Settle(Stake(doc, i, o, bet, sb), i, o, v, bet, sb);
            var bonus := if v.bonus then bet / 2 else 0;
            (v.winner.None? ==> d[i.key].pockets == doc[i.key].pockets && d[o.key].pockets == doc[o.key].pockets) &&
            (v.winner == Some(InitiatorSide) ==>
               d[i.key].pockets == doc[i.key].pockets + bet + bonus && d[o.key].pockets == doc[o.key].pockets - bet) &&
            (v.winner == Some(OpponentSide) ==>
               d[o.key].pockets == doc[o.key].pockets + bet + bonus && d[i.key].pockets == doc[i.key].pockets - bet)
  {
  }

  // ---------------------------------------------------------------------
  // The game
  // ---------------------------------------------------------------------

  class BlackjackGame {
    const initiator: Member
    const opponent: Member
    const bet: int
    /** Both players contribute the bet. */
    const pot: int
    var deck: seq<Card>
    var initiatorHand: seq<Card>
    var opponentHand: seq<Card>
    var currentTurn: Member
    var initiatorStood: bool
    var opponentStood: bool
    var gameOver: bool
    var winner: Option<Side>
    var blackjackBonus: bool

    /**
     * Turns run in order: the initiator plays until standing or busting,
     * then the opponent; the game is over exactly when both have stood.
     */
    predicate Valid()
      reads this
    {
      initiator.key != opponent.key && pot == 2 * bet &&
      ValidCards(deck) && ValidCards(initiatorHand) && ValidCards(opponentHand) &&
      |initiatorHand| >= 2 && |opponentHand| >= 2 &&
      (currentTurn == initiator || currentTurn == opponent) &&
      (opponentStood ==> initiatorStood) &&
      (gameOver <==> initiatorStood && opponentStood) &&
      (!gameOver ==> (currentTurn == opponent <==> initiatorStood) && winner.None? && !blackjackBonus)
    }

    /** A new game: the shuffled deck deals two cards to each player from its end. */
    constructor (initiator: Member, opponent: Member, bet: int, shuffled: seq<Card>)
      requires initiator.key != opponent.key && IsDeckShuffle(shuffled)
      ensures Valid() && !gameOver && currentTurn == initiator && winner.None? && !blackjackBonus
      ensures |shuffled| == DECK_SIZE
      ensures initiatorHand == [shuffled[51], shuffled[50]] && opponentHand == [shuffled[49], shuffled[48]]
      ensures deck == shuffled[..48] && pot == 2 * bet
      ensures this.initiator == initiator && this.opponent == opponent && this.bet == bet
    {
      ShuffleIsFullDeck(shuffled);
      this.initiator := initiator;
      this.opponent := opponent;
      this.bet := bet;
      pot := bet * 2;
      deck := shuffled[..48];
      initiatorHand := [shuffled[51], shuffled[50]];
      opponentHand := [shuffled[49], shuffled[48]];
      currentTurn := initiator;
      initiatorStood := false;
      opponentStood := false;
      gameOver := false;
      winner := None;
      blackjackBonus := false;
    }

    /** draw_card: pop the deck's last card, reshuffling a fresh deck when it is empty. */
    method DrawCard(reshuffled: seq<Card>) returns (c: Card)
      requires ValidCards(deck) && IsDeckShuffle(reshuffled)
      modifies this`deck
      ensures |reshuffled| == DECK_SIZE
      ensures c == Drawn(old(deck), reshuffled) && deck == AfterDraw(old(deck), reshuffled)
      ensures ValidCard(c) && ValidCards(deck)
    {
      DrawConservesCards(deck, reshuffled);
      if deck == [] {
        deck := reshuffled;
      }
      c := deck[|deck| - 1];
      deck := deck[..|deck| - 1];
    }

    /** determine_winner on the two hands. */
    method DetermineWinner()
      requires ValidCards(initiatorHand) && ValidCards(opponentHand) && !blackjackBonus
      modifies this`winner, this`blackjackBonus
      ensures Verdict(winner, blackjackBonus) == WinnerOf(initiatorHand, opponentHand)
    {
      var iv := CalculateHandValue(initiatorHand);
      var ov := CalculateHandValue(opponentHand);
      var ib := |initiatorHand| == 2 && iv == BUST_LIMIT;
      var ob := |opponentHand| == 2 && ov == BUST_LIMIT;
      if ib && !ob {
        winner, blackjackBonus := Some(InitiatorSide), true;
        return;
      }
      if ob && !ib {
        winner, blackjackBonus := Some(OpponentSide), true;
        return;
      }
      if iv > BUST_LIMIT {
        winner := if ov > BUST_LIMIT then None else Some(OpponentSide);
        return;
      }
      if ov > BUST_LIMIT {
        winner := Some(InitiatorSide);
        return;
      }
      if iv > ov {
        winner := Some(InitiatorSide);
      } else if ov > iv {
        winner := Some(OpponentSide);
      } else {
        winner := None;
      }
    }

    /** check_game_over: over once both stood, else the turn passes to whoever has not stood. */
    method CheckGameOver() returns (over: bool)
      requires ValidCards(initiatorHand) && ValidCards(opponentHand) && !blackjackBonus
      modifies this`gameOver, this`currentTurn, this`winner, this`blackjackBonus
      ensures over <==> initiatorStood && opponentStood
      ensures over ==> gameOver && Verdict(winner, blackjackBonus) == WinnerOf(initiatorHand, opponentHand) &&
                       currentTurn == old(currentTurn)
      ensures !over ==> gameOver == old(gameOver) && winner == old(winner) && blackjackBonus == old(blackjackBonus) &&
                        currentTurn == (if initiatorStood then opponent else if opponentStood then initiator else old(currentTurn))
    {
      if initiatorStood && opponentStood {
        gameOver := true;
        DetermineWinner();
        return true;
      }
      if initiatorStood {
        currentTurn := opponent;
      } else if opponentStood {
        currentTurn := initiator;
      }
      over := false;
    }

    /**
     * stand for the player whose turn it is: the initiator's stand passes
     * the turn, the opponent's ends the game with the verdict.
     */
    method Stand(player: Member)
      requires Valid() && !gameOver && player == currentTurn
      modifies this
      ensures Valid()
      ensures deck == old(deck) && initiatorHand == old(initiatorHand) && opponentHand == old(opponentHand)
      ensures player == initiator ==> !gameOver && initiatorStood && !opponentStood && currentTurn == opponent
      ensures player != initiator ==>
                gameOver && currentTurn == old(currentTurn) &&
                Verdict(winner, blackjackBonus) == WinnerOf(initiatorHand, opponentHand)
    {
      if player.key == initiator.key {
        initiatorStood := true;
      } else {
        opponentStood := true;
      }
      var _ := CheckGameOver();
    }

    /**
     * hit for the player whose turn it is: one card drawn onto their
     * hand; a bust counts as standing.
     */
    method Hit(player: Member, reshuffled: seq<Card>)
      requires Valid() && !gameOver && player == currentTurn && IsDeckShuffle(reshuffled)
      modifies this
      ensures Valid() && |reshuffled| == DECK_SIZE
      ensures deck == AfterDraw(old(deck), reshuffled)
      ensures var c := Drawn(old(deck), reshuffled);
              (player == initiator ==> initiatorHand == old(initiatorHand) + [c] && opponentHand == old(opponentHand)) &&
              (player != initiator ==> opponentHand == old(opponentHand) + [c] && initiatorHand == old(initiatorHand))
      ensures var hand := if player == initiator then initiatorHand else opponentHand;
              (HandValue(hand) <= BUST_LIMIT ==>
                 !gameOver && currentTurn == old(currentTurn) &&
                 initiatorStood == old(initiatorStood) && opponentStood == old(opponentStood)) &&
              (HandValue(hand) > BUST_LIMIT && player == initiator ==> !gameOver && initiatorStood && currentTurn == opponent) &&
              (HandValue(hand) > BUST_LIMIT && player != initiator ==>
                 gameOver && Verdict(winner, blackjackBonus) == WinnerOf(initiatorHand, opponentHand))
    {
      var c := DrawCard(reshuffled);
      var v;
      if player.key == initiator.key {
        initiatorHand := initiatorHand + [c];
        v := CalculateHandValue(initiatorHand);
      } else {
        opponentHand := opponentHand + [c];
        v := CalculateHandValue(opponentHand);
      }
      if v > BUST_LIMIT {
        // Marking the player stood and checking for the end is exactly Stand.
        Stand(player);
      }
    }
  }

  // ---------------------------------------------------------------------
  // Settling on the ledger
  // ---------------------------------------------------------------------

  /** handle_game_over: pay out the verdict. */
  method HandleGameOver(l: Ledger, g: BlackjackGame)
    requires g.Valid() && g.gameOver
    modifies l
    ensures l.doc == Settle(old(l.doc), g.initiator, g.opponent, Verdict(g.winner, g.blackjackBonus), g.bet, l.startingBalance)
  {
    var p := Payout(Verdict(g.winner, g.blackjackBonus), g.bet);
    match g.winner {
      case None =>
        var _ := UpdatePockets(l, g.initiator, p.0);
        var _ := UpdatePockets(l, g.opponent, p.1);
      case Some(side) =>
        if side == InitiatorSide {
          var _ := UpdatePockets(l, g.initiator, p.0);
        } else {
          var _ := UpdatePockets(l, g.opponent, p.1);
        }
    }
  }

  /**
   * handle_timeout: the player whose turn it was forfeits, and the other
   * takes the pot (no bonus, whatever the hands).
   */
  method HandleTimeout(l: Ledger, g: BlackjackGame)
    requires g.Valid()
    modifies l, g`winner
    ensures g.winner == Some(if g.currentTurn == g.initiator then OpponentSide else InitiatorSide)
    ensures l.doc == Credit(old(l.doc), if g.currentTurn == g.initiator then g.opponent else g.initiator, g.pot, l.startingBalance)
  {
    var gainer := g.initiator;
    if g.currentTurn.key == g.initiator.key {
      g.winner := Some(OpponentSide);
      gainer := g.opponent;
    } else {
      g.winner := Some(InitiatorSide);
    }
    var _ := UpdatePockets(l, gainer, g.pot);
  }

  /** cancel_game: both stakes returned. */
  method CancelGame(l: Ledger, g: BlackjackGame)
    requires g.Valid()
    modifies l
    ensures l.doc == Settle(old(l.doc), g.initiator, g.opponent, Verdict(None, false), g.bet, l.startingBalance)
  {
    var _ := UpdatePockets(l, g.initiator, g.bet);
    var _ := UpdatePockets(l, g.opponent, g.bet);
  }

  /**
   * A player who lets the turn lapse is stood for; if that ends the game
   * the timeout rule pays, otherwise the other player's turn begins.
   */
  method TurnTimeout(l: Ledger, g: BlackjackGame)
    requires g.Valid() && !g.gameOver
    modifies l, g
    ensures g.Valid()
    ensures old(g.currentTurn) == g.initiator ==> !g.gameOver && g.currentTurn == g.opponent && l.doc == old(l.doc)
    ensures old(g.currentTurn) != g.initiator ==>
              g.gameOver && g.winner == Some(InitiatorSide) &&
              l.doc == Credit(old(l.doc), g.initiator, g.pot, l.startingBalance)
  {
    g.Stand(g.currentTurn);
    if g.gameOver {
      HandleTimeout(l, g);
    }
  }

  // ---------------------------------------------------------------------
  // Games in progress
  // ---------------------------------------------------------------------

  /** ACTIVE_GAMES keys: the player's id, a dash, the guild's id. */
  function GameKey(userKey: string, guildKey: string): string
  {
    userKey + "-" + guildKey
  }

  /** Within one guild, two members' keys never collide. */
  lemma GameKeyInjective(u1: string, u2: string, guildKey: string)
    requires IsDigits(u1) && IsDigits(u2) && GameKey(u1, guildKey) == GameKey(u2, guildKey)
    ensures u1 == u2
  {
    var k1 := GameKey(u1, guildKey);
    assert |u1| == |u2|;
    assert u1 == k1[..|u1|];
    assert u2 == GameKey(u2, guildKey)[..|u2|];
  }

  /** The two players of a registered game. */
  datatype GameRef = GameRef(initiatorKey: string, opponentKey: string)

  class ActiveGames {
    var games: map<string, GameRef>

    constructor ()
      ensures games == map[]
    {
      games := map[];
    }

    predicate Busy(userKey: string, guildKey: string)
      reads this
    {
      GameKey(userKey, guildKey) in games
    }

    /** register_game: both players' keys point at the game. */
    method Register(i: string, o: string, guildKey: string)
      modifies this
      ensures games == old(games)[GameKey(i, guildKey) := GameRef(i, o)][GameKey(o, guildKey) := GameRef(i, o)]
      ensures Busy(i, guildKey) && Busy(o, guildKey)
    {
      games := games[GameKey(i, guildKey) := GameRef(i, o)];
      games := games[GameKey(o, guildKey) := GameRef(i, o)];
    }

    /** unregister_game: both keys dropped when present. */
    method Unregister(i: string, o: string, guildKey: string)
      modifies this
      ensures games == old(games) - {GameKey(i, guildKey), GameKey(o, guildKey)}
      ensures !Busy(i, guildKey) && !Busy(o, guildKey)
    {
      if GameKey(i, guildKey) in games {
        games := games - {GameKey(i, guildKey)};
      }
      if GameKey(o, guildKey) in games {
        games := games - {GameKey(o, guildKey)};
      }
    }
  }

  // ---------------------------------------------------------------------
  // /blackjack and the invitation
  // ---------------------------------------------------------------------

  datatype BlackjackOutcome =
    | InitiatorImprisoned
    | InitiatorInChallenge
    | OpponentImprisoned(tier: string)
    | SelfChallenge
    | BotOpponent
    | BadBet
    | InitiatorShort(pockets: int)
    | OpponentShort(pockets: int)
    | AlreadyPlaying
    | Invited

  datatype BlackjackResult = BlackjackResult(outcome: BlackjackOutcome, doc: Document)

  /**
   * The checks of /blackjack, in order, up to sending the invitation; the
   * initiator's and then the opponent's records are created on the way.
   */
  function BlackjackRule(doc: Document, i: Member, o: Member, bet: int, inChallenge: bool,
                         iBusy: bool, oBusy: bool, sb: int): (res: BlackjackResult)
    ensures res.outcome == Invited <==>
              UserOf(doc, i, sb).prison.None? && !inChallenge && UserOf(doc, o, sb).prison.None? &&
              o.key != i.key && !o.isBot && bet > 0 &&
              UserOf(doc, i, sb).pockets >= bet && UserOf(doc, o, sb).pockets >= bet && !iBusy && !oBusy
    ensures res.outcome == InitiatorImprisoned <==> UserOf(doc, i, sb).prison.Some?
    ensures res.outcome == SelfChallenge ==> o.key == i.key
    ensures res.outcome == BadBet ==> bet <= 0
    ensures res.outcome == InitiatorShort(UserOf(doc, i, sb).pockets) || res.outcome == OpponentShort(UserOf(doc, o, sb).pockets) ||
            !(res.outcome.InitiatorShort? || res.outcome.OpponentShort?)
    ensures res.outcome != InitiatorImprisoned && res.outcome != InitiatorInChallenge ==>
              res.doc == doc[i.key := UserOf(doc, i, sb)][o.key := UserOf(doc[i.key := UserOf(doc, i, sb)], o, sb)]
    ensures res.outcome == InitiatorImprisoned || res.outcome == InitiatorInChallenge ==>
              res.doc == doc[i.key := UserOf(doc, i, sb)]
    ensures forall k :: k in res.doc ==> k in doc || k == i.key || k == o.key
    ensures forall k :: k in doc ==> k in res.doc && res.doc[k] == doc[k]
  {
    var ia := UserOf(doc, i, sb);
    var d1 := doc[i.key := ia];
    if ia.prison.Some? then BlackjackResult(InitiatorImprisoned, d1)
    else if inChallenge then BlackjackResult(InitiatorInChallenge, d1)
    else
      var oa := UserOf(d1, o, sb);
      var d2 := d1[o.key := oa];
      if oa.prison.Some? then BlackjackResult(OpponentImprisoned(oa.prison.value.tier), d2)
      else if o.key == i.key then BlackjackResult(SelfChallenge, d2)
      else if o.isBot then BlackjackResult(BotOpponent, d2)
      else if bet <= 0 then BlackjackResult(BadBet, d2)
      else if ia.pockets < bet then BlackjackResult(InitiatorShort(ia.pockets), d2)
      else if oa.pockets < bet then BlackjackResult(OpponentShort(oa.pockets), d2)
      else if iBusy || oBusy then BlackjackResult(AlreadyPlaying, d2)
      else BlackjackResult(Invited, d2)
  }

  /** /blackjack on the ledger, up to the invitation. */
  method StartBlackjack(l: Ledger, reg: ChallengeRegistry.Manager, active: ActiveGames, i: Member, o: Member,
                        bet: int, guildKey: string) returns (outcome: BlackjackOutcome)
    modifies l
    ensures var res := BlackjackRule(old(l.doc), i, o, bet, reg.IsInChallenge(i.key),
                                     active.Busy(i.key, guildKey), active.Busy(o.key, guildKey), l.startingBalance);
            outcome == res.outcome && l.doc == res.doc
  {
    ghost var sb := l.startingBalance;
    ghost var ia := UserOf(l.doc, i, sb);
    ghost var d1 := l.doc[i.key := ia];
    var free := CheckPrisonStatus(l, i);
    if !free {
      return InitiatorImprisoned;
    }
    var allowed := CheckBalanceChallenge(reg, i);
    if !allowed {
      return InitiatorInChallenge;
    }
    ghost var oa0 := UserOf(d1, o, sb);
    ghost var d2 := d1[o.key := oa0];
    var oa := l.GetUserData(o);
    assert oa == oa0 && l.doc == d2;
    if oa.prison.Some? {
      return OpponentImprisoned(oa.prison.value.tier);
    }
    if o.key == i.key {
      return SelfChallenge;
    }
    if o.isBot {
      return BotOpponent;
    }
    if bet <= 0 {
      return BadBet;
    }
    assert i.key in d2 && d2[i.key] == ia;
    var ip := GetPockets(l, i);
    assert ip == ia.pockets && l.doc == d2;
    if ip < bet {
      return InitiatorShort(ip);
    }
    var op := GetPockets(l, o);
    assert op == oa.pockets && l.doc == d2;
    if op < bet {
      return OpponentShort(op);
    }
    if active.Busy(i.key, guildKey) || active.Busy(o.key, guildKey) {
      return AlreadyPlaying;
    }
    outcome := Invited;
  }

  datatype AcceptOutcome = Accepted | InsufficientFunds

  datatype AcceptResult = AcceptResult(outcome: AcceptOutcome, doc: Document)

  /**
   * The Accept button as written: only the opponent's pockets are checked
   * again, so an initiator who spent medals while the invitation was open
   * is staked into debt.
   */
  function AcceptAsWritten(doc: Document, i: Member, o: Member, bet: int, sb: int): (res: AcceptResult)
    ensures res.outcome == Accepted <==> UserOf(doc, o, sb).pockets >= bet
  {
    var d := doc[o.key := UserOf(doc, o, sb)];
    if d[o.key].pockets < bet then AcceptResult(InsufficientFunds, d)
    else AcceptResult(Accepted, Stake(d, i, o, bet, sb))
  }

  /**
   * Whenever the initiator's pockets fell below the bet while the opponent
   * can still cover it, the as-written button stakes the initiator into debt.
   */
  lemma AcceptAsWrittenOverdraws(doc: Document, i: Member, o: Member, bet: int, sb: int)
    requires i.key in doc && o.key in doc && i.key != o.key
    requires doc[i.key].pockets < bet <= doc[o.key].pockets
    ensures var res := AcceptAsWritten(doc, i, o, bet, sb);
            res.outcome == Accepted && res.doc[i.key].pockets < 0
  {
  }

  /** The Accept button with both players' pockets checked again. */
  function Accept(doc: Document, i: Member, o: Member, bet: int, sb: int): (res: AcceptResult)
    requires i.key != o.key
    ensures res.outcome == Accepted <==> UserOf(doc, i, sb).pockets >= bet && UserOf(doc, o, sb).pockets >= bet
    ensures res.outcome == Accepted ==>
              res.doc == Stake(doc, i, o, bet, sb) &&
              res.doc[i.key].pockets >= 0 && res.doc[o.key].pockets >= 0
    ensures res.outcome == InsufficientFunds ==>
              res.doc == doc[i.key := UserOf(doc, i, sb)][o.key := UserOf(doc, o, sb)]
  {
    var d := doc[i.key := UserOf(doc, i, sb)][o.key := UserOf(doc, o, sb)];
    if d[i.key].pockets < bet || d[o.key].pockets < bet then AcceptResult(InsufficientFunds, d)
    else AcceptResult(Accepted, Stake(d, i, o, bet, sb))
  }

  /** Accepting on the ledger: re-check, stake both, start and register the game. */
  method AcceptInvite(l: Ledger, active: ActiveGames, i: Member, o: Member, bet: int, guildKey: string, shuffled: seq<Card>)
    returns (outcome: AcceptOutcome, g: BlackjackGame?)
    requires i.key != o.key && IsDeckShuffle(shuffled)
    modifies l, active
    ensures var res := Accept(old(l.doc), i, o, bet, l.startingBalance);
            outcome == res.outcome && l.doc == res.doc
    ensures outcome == Accepted ==>
              g != null && fresh(g) && g.Valid() && !g.gameOver && g.pot == 2 * bet &&
              active.games == old(active.games)[GameKey(i.key, guildKey) := GameRef(i.key, o.key)]
                                               [GameKey(o.key, guildKey) := GameRef(i.key, o.key)]
    ensures outcome == InsufficientFunds ==> g == null && active.games == old(active.games)
  {
    ghost var sb := l.startingBalance;
    ghost var d := l.doc[i.key := UserOf(l.doc, i, sb)][o.key := UserOf(l.doc, o, sb)];
    var ip := GetPockets(l, i);
    var op := GetPockets(l, o);
    assert l.doc == d && ip == d[i.key].pockets && op == d[o.key].pockets;
    if ip < bet || op < bet {
      return InsufficientFunds, null;
    }
    var _ := UpdatePockets(l, i, -bet);
    var _ := UpdatePockets(l, o, -bet);
    assert l.doc == Stake(d, i, o, bet, sb);
    g := new BlackjackGame(i, o, bet, shuffled);
    active.Register(i.key, o.key, guildKey);
    outcome := Accepted;
  }
}
