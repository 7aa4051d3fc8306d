/**
 * The balance challenge: a member whose pockets and savings together pass
 * the house's own balance is made to play the house at blackjack, first to
 * three round wins. Beating the house pays 1000 medals into savings and
 * exempts the member from future challenges; losing costs 1000 medals, a
 * stay in the Jaeger Camp, and sends every other member to the Rook
 * Division.
 */
module BalanceChallenge {
  import opened Records
  import opened DataService
  import opened EconomyBase
  import opened Blackjack
  import PrisonSystem
  import ChallengeRegistry

  /** A total strictly above this triggers the challenge. */
  const SENNABOT_BALANCE: int := 15000
  const CHALLENGE_BET: int := 1000
  /** The house's own account key and name. */
  const SENNABOT_KEY: string := "1349242668672090253"
  const SENNABOT_NAME: string := "SennaBot"
  const CHALLENGE_TIMEOUT: int := 120
  const WINS_NEEDED: int := 3
  /** The house draws while below this. */
  const HOUSE_STANDS: int := 17
  const LOSER_SENTENCE: int := 3600
  const BYSTANDER_SENTENCE: int := 21600

  /** The house as a member, for creating its record. */
  const SENNABOT: Member := Member(SENNABOT_KEY, SENNABOT_NAME, true)

  // ---------------------------------------------------------------------
  // Triggering
  // ---------------------------------------------------------------------

  /**
   * should_trigger_challenge on the member's record: never after beating
   * the house or while already playing, else exactly when the total is
   * strictly above the threshold.
   */
  function ShouldTrigger(a: Account, inChallenge: bool): (r: bool)
    ensures a.beatChallenge || inChallenge ==> !r
    ensures !a.beatChallenge && !inChallenge ==> (r <==> Total(a) > SENNABOT_BALANCE)
  {
    if a.beatChallenge then false
    else if inChallenge then false
    else a.pockets + a.savings > SENNABOT_BALANCE
  }

  /** should_trigger_challenge on the ledger: the record is created on the way. */
  method ShouldTriggerChallenge(l: Ledger, reg: ChallengeRegistry.Manager, m: Member) returns (r: bool)
    modifies l
    ensures r == ShouldTrigger(UserOf(old(l.doc), m, l.startingBalance), reg.IsInChallenge(m.key))
    ensures l.doc == old(l.doc)[m.key := UserOf(old(l.doc), m, l.startingBalance)]
  {
    var a := l.GetUserData(m);
    if a.beatChallenge {
      return false;
    }
    if reg.IsInChallenge(m.key) {
      return false;
    }
    r := a.pockets + a.savings > SENNABOT_BALANCE;
  }

  /** mark_challenge_beaten: the flag set on the (possibly new) record. */
  method MarkChallengeBeaten(l: Ledger, m: Member)
    modifies l
    ensures l.doc == old(l.doc)[m.key := UserOf(old(l.doc), m, l.startingBalance).(beatChallenge := true)]
  {
    var a := l.GetUserData(m);
    l.Put(m.key, a.(beatChallenge := true));
  }

  /** A member who has beaten the house is never challenged again, however rich. */
  lemma BeatenNeverRetriggers(doc: Document, m: Member, sb: int, inChallenge: bool)
    ensures var d := doc[m.key := UserOf(doc, m, sb).(beatChallenge := true)];
            !ShouldTrigger(UserOf(d, m, sb), inChallenge)
  {
  }

  /**
   * trigger_balance_challenge: when the member qualifies, register them
   * (by user id, in every guild) and start the series.
   */
  method TriggerBalanceChallenge(l: Ledger, reg: ChallengeRegistry.Manager, m: Member, guildKey: string)
    returns (started: bool)
    modifies l, reg
    ensures started == ShouldTrigger(UserOf(old(l.doc), m, l.startingBalance), old(reg.IsInChallenge(m.key)))
    ensures l.doc == old(l.doc)[m.key := UserOf(old(l.doc), m, l.startingBalance)]
    ensures started ==> reg.active == old(reg.active)[m.key := guildKey]
    ensures !started ==> reg.active == old(reg.active)
  {
    started := ShouldTriggerChallenge(l, reg, m);
    if started {
      reg.AddToChallenge(m.key, guildKey);
    }
  }

  /**
   * trigger_challenge_for_donation_target: bots are never challenged; a
   * qualifying target is registered when the guild has a channel to play in.
   */
  method TriggerForDonationTarget(l: Ledger, reg: ChallengeRegistry.Manager, target: Member, guildKey: string,
                                  hasChannel: bool) returns (started: bool)
    modifies l, reg
    ensures target.isBot ==> !started && l.doc == old(l.doc) && reg.active == old(reg.active)
    ensures !target.isBot ==> l.doc == old(l.doc)[target.key := UserOf(old(l.doc), target, l.startingBalance)]
    ensures started <==>
              !target.isBot && hasChannel &&
              ShouldTrigger(UserOf(old(l.doc), target, l.startingBalance), old(reg.IsInChallenge(target.key)))
    ensures started ==> reg.active == old(reg.active)[target.key := guildKey]
    ensures !started ==> reg.active == old(reg.active)
  {
    if target.isBot {
      return false;
    }
    var _ := l.GetUserData(target);
    var qualifies := ShouldTriggerChallenge(l, reg, target);
    if !qualifies || !hasChannel {
      return false;
    }
    if reg.IsInChallenge(target.key) {
      return false;
    }
    reg.AddToChallenge(target.key, guildKey);
    started := true;
  }

  // ---------------------------------------------------------------------
  // The series
  // ---------------------------------------------------------------------

  /** How one round ended for the member. */
  datatype RoundOutcome = PlayerWin | HouseWin | Tie

  class ChallengeGame {
    const user: Member
    const guildKey: string
    var userWins: int
    var botWins: int
    var gamesPlayed: int
    /** end_challenge has been reached. */
    var over: bool

    /**
     * First to three: neither count passes three, the series is over
     * exactly when one reaches it, and a tie is replayed, so the rounds
     * played are the decided rounds plus the one in progress.
     */
    predicate Valid()
      reads this
    {
      0 <= userWins <= WINS_NEEDED && 0 <= botWins <= WINS_NEEDED &&
      (over <==> userWins == WINS_NEEDED || botWins == WINS_NEEDED) &&
      !(userWins == WINS_NEEDED && botWins == WINS_NEEDED) &&
      (gamesPlayed == 0 ==> userWins == 0 && botWins == 0 && !over) &&
      (gamesPlayed > 0 ==> gamesPlayed == userWins + botWins + (if over then 0 else 1))
    }

    constructor (user: Member, guildKey: string)
      ensures Valid() && this.user == user && this.guildKey == guildKey
      ensures userWins == 0 && botWins == 0 && gamesPlayed == 0 && !over
    {
      this.user := user;
      this.guildKey := guildKey;
      userWins := 0;
      botWins := 0;
      gamesPlayed := 0;
      over := false;
    }

    /** start_challenge: the first round is dealt. */
    method StartChallenge()
      requires Valid() && gamesPlayed == 0
      modifies this`gamesPlayed
      ensures Valid() && gamesPlayed == 1
    {
      gamesPlayed := gamesPlayed + 1;
    }

    /**
     * show_game_result's scoring: a decided round adds one win to its
     * side; reaching three ends the series with that side's victory;
     * otherwise the next round starts, a tied round being played again
     * under the same number.
     */
    method ShowGameResult(outcome: RoundOutcome) returns (ended: Option<bool>)
      requires Valid() && gamesPlayed > 0 && !over
      modifies this`userWins, this`botWins, this`gamesPlayed, this`over
      ensures Valid()
      ensures userWins == old(userWins) + (if outcome == PlayerWin then 1 else 0)
      ensures botWins == old(botWins) + (if outcome == HouseWin then 1 else 0)
      ensures ended == Some(true) <==> userWins == WINS_NEEDED
      ensures ended == Some(false) <==> botWins == WINS_NEEDED
      ensures ended.None? ==> gamesPlayed == old(gamesPlayed) + (if outcome == Tie then 0 else 1)
    {
      if outcome != Tie {
        if outcome == PlayerWin {
          userWins := userWins + 1;
        } else {
          botWins := botWins + 1;
        }
      }
      if userWins >= WINS_NEEDED {
        over := true;
        return Some(true);
      } else if botWins >= WINS_NEEDED {
        over := true;
        return Some(false);
      }
      if outcome == Tie {
        gamesPlayed := gamesPlayed - 1;
      }
      gamesPlayed := gamesPlayed + 1;
      ended := None;
    }

    /** A round left to time out is the house's: one more house win, and the series may end. */
    method RoundTimeout() returns (ended: Option<bool>)
      requires Valid() && gamesPlayed > 0 && !over
      modifies this`botWins, this`gamesPlayed, this`over
      ensures Valid()
      ensures botWins == old(botWins) + 1
      ensures ended == Some(false) <==> botWins == WINS_NEEDED
      ensures ended != Some(true)
      ensures ended.None? ==> gamesPlayed == old(gamesPlayed) + 1
    {
      botWins := botWins + 1;
      if botWins >= WINS_NEEDED {
        over := true;
        return Some(false);
      }
      gamesPlayed := gamesPlayed + 1;
      ended := None;
    }
  }

  /** Best of five: at most five rounds in any valid series, and at least three decided ones once it is over. */
  lemma SeriesIsBestOfFive(g: ChallengeGame)
    requires g.Valid()
    ensures g.userWins + g.botWins <= 5 && g.gamesPlayed <= 5
    ensures g.over ==> WINS_NEEDED <= g.userWins + g.botWins
  {
  }

  // ---------------------------------------------------------------------
  // A round against the house
  // ---------------------------------------------------------------------

  /** The stand comparison: a house bust, then a player bust, then the higher hand. */
  function StandOutcome(userValue: int, houseValue: int): (o: RoundOutcome)
    ensures o == PlayerWin <==>
              houseValue > BUST_LIMIT || (userValue <= BUST_LIMIT && userValue > houseValue)
    ensures o == Tie <==> houseValue <= BUST_LIMIT && userValue <= BUST_LIMIT && userValue == houseValue
  {
    if houseValue > BUST_LIMIT then PlayerWin
    else if userValue > BUST_LIMIT then HouseWin
    else if userValue > houseValue then PlayerWin
    else if houseValue > userValue then HouseWin
    else Tie
  }

  /** Standing on 21 or less, the member loses only to a house total of 17 to 21 above theirs. */
  lemma HouseWinsOnlyAbove(userValue: int, houseValue: int)
    requires userValue <= BUST_LIMIT && houseValue >= HOUSE_STANDS
    ensures StandOutcome(userValue, houseValue) == HouseWin <==>
              HOUSE_STANDS <= houseValue <= BUST_LIMIT && houseValue > userValue
  {
  }

  /** The view of one round: the member's and the house's hands and what is left of the deck. */
  class ChallengeRound {
    var userHand: seq<Card>
    var botHand: seq<Card>
    var deck: seq<Card>
    var gameOver: bool

    /**
     * Every card comes from one shuffled deck, and while the round runs
     * the house still holds its two cards and the member has not bust.
     */
    predicate Valid()
      reads this
    {
      ValidCards(userHand) && ValidCards(botHand) && ValidCards(deck) &&
      |deck| + |userHand| + |botHand| == DECK_SIZE &&
      |userHand| >= 2 && |botHand| >= 2 &&
      (!gameOver ==> |botHand| == 2 && HandValue(userHand) <= BUST_LIMIT)
    }

    /** play_next_game's deal: two cards each from the end of a fresh shuffle, the member first. */
    constructor (shuffled: seq<Card>)
      requires IsDeckShuffle(shuffled)
      ensures Valid() && !gameOver && |shuffled| == DECK_SIZE
      ensures userHand == [shuffled[51], shuffled[50]] && botHand == [shuffled[49], shuffled[48]]
      ensures deck == shuffled[..48]
    {
      ShuffleIsFullDeck(shuffled);
      userHand := [shuffled[51], shuffled[50]];
      botHand := [shuffled[49], shuffled[48]];
      deck := shuffled[..48];
      gameOver := false;
      HandValueIsBest([shuffled[51], shuffled[50]], 0);
    }

    /**
     * The Hit button: the deck's last card onto the member's hand; a bust
     * ends the round as a house win. The deck cannot be empty here.
     */
    method Hit() returns (result: Option<RoundOutcome>)
      requires Valid() && !gameOver
      modifies this
      ensures Valid()
      ensures |old(deck)| > 0
      ensures userHand == old(userHand) + [old(deck)[|old(deck)| - 1]] && deck == old(deck)[..|old(deck)| - 1]
      ensures botHand == old(botHand)
      ensures gameOver <==> HandValue(userHand) > BUST_LIMIT
      ensures result == (if gameOver then Some(HouseWin) else None)
    {
      HandValueIsBest(userHand, 0);
      userHand := userHand + [deck[|deck| - 1]];
      deck := deck[..|deck| - 1];
      var v := CalculateHandValue(userHand);
      if v > BUST_LIMIT {
        gameOver := true;
        return Some(HouseWin);
      }
      result := None;
    }

    /** The house's draw loop: from the end of the deck until its first total of 17 or more. */
    method HouseDraws()
      requires Valid() && !gameOver
      modifies this`botHand, this`deck
      ensures ValidCards(botHand) && ValidCards(deck) && |botHand| >= 2
      ensures |deck| + |userHand| + |botHand| == DECK_SIZE
      ensures |old(botHand)| <= |botHand| && botHand[..|old(botHand)|] == old(botHand)
      ensures |deck| + |botHand| == |old(deck)| + |old(botHand)| && deck == old(deck)[..|deck|]
      ensures forall j :: |old(botHand)| <= j < |botHand| ==> botHand[j] == old(deck)[|old(deck)| - 1 - (j - |old(botHand)|)]
      ensures HandValue(botHand) >= HOUSE_STANDS
      ensures forall j :: |old(botHand)| <= j < |botHand| ==> HandValue(botHand[..j]) < HOUSE_STANDS
    {
      HandValueIsBest(userHand, 0);
      var bv := CalculateHandValue(botHand);
      ghost var startHand := botHand;
      ghost var startDeck := deck;
      while bv < HOUSE_STANDS
        invariant ValidCards(botHand) && ValidCards(deck) && bv == HandValue(botHand)
        invariant |deck| + |userHand| + |botHand| == DECK_SIZE
        invariant |startHand| <= |botHand| && botHand[..|startHand|] == startHand
        invariant |deck| + |botHand| == |startDeck| + |startHand| && deck == startDeck[..|deck|]
        invariant forall j :: |startHand| <= j < |botHand| ==> botHand[j] == startDeck[|startDeck| - 1 - (j - |startHand|)]
        invariant forall j :: |startHand| <= j < |botHand| ==> HandValue(botHand[..j]) < HOUSE_STANDS
        decreases |deck|
      {
        HandValueIsBest(botHand, 0);
        var before := botHand;
        botHand := botHand + [deck[|deck| - 1]];
        deck := deck[..|deck| - 1];
        assert botHand[..|before|] == before;
        assert forall j :: |startHand| <= j < |before| ==> botHand[..j] == before[..j];
        bv := CalculateHandValue(botHand);
      }
    }

    /**
     * The Stand button: the house draws from the end of the deck until
     * its first total of 17 or more, then the hands are compared. The
     * deck never runs out on the way.
     */
    method Stand() returns (result: RoundOutcome)
      requires Valid() && !gameOver
      modifies this
      ensures Valid() && gameOver
      ensures userHand == old(userHand)
      ensures |old(botHand)| <= |botHand| && botHand[..|old(botHand)|] == old(botHand)
      ensures |deck| + |botHand| == |old(deck)| + |old(botHand)| && deck == old(deck)[..|deck|]
      ensures forall j :: |old(botHand)| <= j < |botHand| ==> botHand[j] == old(deck)[|old(deck)| - 1 - (j - |old(botHand)|)]
      ensures HandValue(botHand) >= HOUSE_STANDS
      ensures forall j :: |old(botHand)| <= j < |botHand| ==> HandValue(botHand[..j]) < HOUSE_STANDS
      ensures result == StandOutcome(HandValue(userHand), HandValue(botHand))
    {
      HouseDraws();
      var bv := CalculateHandValue(botHand);
      gameOver := true;
      var uv := CalculateHandValue(userHand);
      if bv > BUST_LIMIT {
        result := PlayerWin;
      } else if uv > BUST_LIMIT {
        result := HouseWin;
      } else if uv > bv {
        result := PlayerWin;
      } else if bv > uv {
        result := HouseWin;
      } else {
        result := Tie;
      }
    }

    /** on_timeout: a round still running goes to the house; a finished one is left alone. */
    method OnTimeout() returns (result: Option<RoundOutcome>)
      requires Valid()
      modifies this`gameOver
      ensures Valid() && gameOver
      ensures result == (if old(gameOver) then None else Some(HouseWin))
    {
      if gameOver {
        return None;
      }
      gameOver := true;
      result := Some(HouseWin);
    }
  }

  // ---------------------------------------------------------------------
  // The end of the series
  // ---------------------------------------------------------------------

  /** A numeric key other than the member's and the house's: a bystander swept into prison. */
  predicate Bystander(k: string, userKey: string)
  {
    IsDigits(k) && k != userKey && k != SENNABOT_KEY
  }

  /** Every bystander's record sentenced to the Rook Division until now + 6 hours. */
  function RookSweep(doc: Document, userKey: string, now: int): (d: Document)
    ensures d.Keys == doc.Keys
    ensures forall k :: k in doc && !Bystander(k, userKey) ==> d[k] == doc[k]
    ensures forall k :: k in doc && Bystander(k, userKey) ==>
              d[k] == doc[k].(prison := Some(Prison(PrisonSystem.ROOK_DIVISION, now + BYSTANDER_SENTENCE)))
  {
    map k | k in doc :: if Bystander(k, userKey)
                        then doc[k].(prison := Some(Prison(PrisonSystem.ROOK_DIVISION, now + BYSTANDER_SENTENCE)))
                        else doc[k]
  }

  /**
   * end_challenge's ledger effect. A win adds 1000 to savings and sets the
   * beaten flag. A loss takes 1000 from the member's savings into the
   * house's (its record created when absent), jails the member in the
   * Jaeger Camp for an hour, and sweeps every bystander into prison.
   */
  function EndRule(doc: Document, user: Member, userWin: bool, now: int, sb: int): Document
  {
    var u := UserOf(doc, user, sb);
    if userWin then
      doc[user.key := u.(savings := u.savings + CHALLENGE_BET, beatChallenge := true)]
    else
      RookSweep(LossTransfer(doc, user, now, sb), user.key, now)
  }

  /** The loss before the sweep: the member's record jailed and 1000 poorer, the house's 1000 richer. */
  function LossTransfer(doc: Document, user: Member, now: int, sb: int): (d: Document)
    ensures d.Keys == doc.Keys + {user.key, SENNABOT_KEY}
    ensures user.key != SENNABOT_KEY ==>
              d[user.key] == UserOf(doc, user, sb).(savings := UserOf(doc, user, sb).savings - CHALLENGE_BET,
                                                    prison := Some(Prison(PrisonSystem.JAEGER_CAMP, now + LOSER_SENTENCE)))
    ensures d[SENNABOT_KEY].savings == UserOf(doc[user.key := UserOf(doc, user, sb)], SENNABOT, sb).savings + CHALLENGE_BET
    ensures forall k :: k in doc && k != user.key && k != SENNABOT_KEY ==> d[k] == doc[k]
  {
    var u := UserOf(doc, user, sb);
    var d1 := doc[user.key := u];
    var h := UserOf(d1, SENNABOT, sb);
    var loser := u.(savings := u.savings - CHALLENGE_BET,
                    prison := Some(Prison(PrisonSystem.JAEGER_CAMP, now + LOSER_SENTENCE)));
    d1[SENNABOT_KEY := h][user.key := loser][SENNABOT_KEY := h.(savings := h.savings + CHALLENGE_BET)]
  }

  /** A won series pays the member and exempts them from now on; nobody else is touched. */
  lemma EndRuleWin(doc: Document, user: Member, now: int, sb: int)
    ensures var d := EndRule(doc, user, true, now, sb);
            var u := UserOf(doc, user, sb);
            user.key in d && d[user.key].savings == u.savings + CHALLENGE_BET &&
            d[user.key].pockets == u.pockets && d[user.key].prison == u.prison &&
            !ShouldTrigger(d[user.key], false) &&
            forall k :: k in doc && k != user.key ==> k in d && d[k] == doc[k]
  {
  }

  /**
   * A lost series moves the member's 1000 medals to the house, puts the
   * member in the Jaeger Camp for an hour and every bystander in the Rook
   * Division for six, and leaves non-numeric keys untouched.
   */
  lemma EndRuleLoss(doc: Document, user: Member, now: int, sb: int)
    requires user.key != SENNABOT_KEY && IsDigits(user.key)
    ensures var d := EndRule(doc, user, false, now, sb);
            var u := UserOf(doc, user, sb);
            user.key in d &&
            d[user.key] == u.(savings := u.savings - CHALLENGE_BET,
                              prison := Some(Prison(PrisonSystem.JAEGER_CAMP, now + LOSER_SENTENCE)))
    ensures var d := EndRule(doc, user, false, now, sb);
            var d1 := doc[user.key := UserOf(doc, user, sb)];
            SENNABOT_KEY in d && d[SENNABOT_KEY].savings == UserOf(d1, SENNABOT, sb).savings + CHALLENGE_BET
    ensures var d := EndRule(doc, user, false, now, sb);
            forall k :: k in doc && Bystander(k, user.key) ==>
              k in d && d[k] == doc[k].(prison := Some(Prison(PrisonSystem.ROOK_DIVISION, now + BYSTANDER_SENTENCE)))
    ensures var d := EndRule(doc, user, false, now, sb);
            forall k :: k in doc && !IsDigits(k) ==> k in d && d[k] == doc[k]
  {
    var pre := LossTransfer(doc, user, now, sb);
    assert !Bystander(user.key, user.key) && !Bystander(SENNABOT_KEY, user.key);
    forall k | k in doc && !IsDigits(k)
      ensures k in pre && pre[k] == doc[k] && !Bystander(k, user.key)
    {
      assert IsDigits(SENNABOT_KEY);
    }
  }

  /** The for loop over the document: each bystander's record rewritten in turn. */
  method SendBystandersToRook(l: Ledger, userKey: string, now: int)
    modifies l
    ensures l.doc == RookSweep(old(l.doc), userKey, now)
  {
    var d := l.doc;
    var todo := d.Keys;
    while todo != {}
      invariant todo <= d.Keys && d.Keys == old(l.doc).Keys
      invariant forall k :: k in d && k in todo ==> d[k] == old(l.doc)[k]
      invariant forall k :: k in d && k !in todo ==> d[k] == RookSweep(old(l.doc), userKey, now)[k]
      decreases |todo|
    {
      var k :| k in todo;
      if Bystander(k, userKey) {
        d := d[k := d[k].(prison := Some(Prison(PrisonSystem.ROOK_DIVISION, now + BYSTANDER_SENTENCE)))];
      }
      todo := todo - {k};
    }
    l.doc := d;
  }

  /** end_challenge: leave the registry, then settle the series on the ledger. */
  method EndChallenge(l: Ledger, reg: ChallengeRegistry.Manager, user: Member, userWin: bool, now: int)
    modifies l, reg
    ensures reg.active == old(reg.active) - {user.key} && !reg.IsInChallenge(user.key)
    ensures l.doc == EndRule(old(l.doc), user, userWin, now, l.startingBalance)
  {
    ghost var d0 := l.doc;
    reg.RemoveFromChallenge(user.key);
    var u := l.GetUserData(user);
    assert u == UserOf(d0, user, l.startingBalance) && l.doc == d0[user.key := u];
    if userWin {
      l.Put(user.key, u.(savings := u.savings + CHALLENGE_BET));
      MarkChallengeBeaten(l, user);
    } else {
      TransferLoss(l, user, u, now);
      LossTransferAfterRead(d0, user, now, l.startingBalance);
      SendBystandersToRook(l, user.key, now);
    }
  }

  /** Reading (and so creating) the member's record first does not change the loss transfer. */
  lemma LossTransferAfterRead(doc: Document, user: Member, now: int, sb: int)
    ensures LossTransfer(doc[user.key := UserOf(doc, user, sb)], user, now, sb) == LossTransfer(doc, user, now, sb)
  {
    var u := UserOf(doc, user, sb);
    assert doc[user.key := u][user.key := u] == doc[user.key := u];
  }

  /** The loss branch's record updates: the house's record read (and created), the member's and the house's written. */
  method TransferLoss(l: Ledger, user: Member, u: Account, now: int)
    requires user.key in l.doc && l.doc[user.key] == u
    modifies l
    ensures l.doc == LossTransfer(old(l.doc), user, now, l.startingBalance)
  {
    var h := l.GetUserData(SENNABOT);
    l.Put(user.key, u.(savings := u.savings - CHALLENGE_BET,
                       prison := Some(Prison(PrisonSystem.JAEGER_CAMP, now + LOSER_SENTENCE))));
    l.Put(SENNABOT_KEY, h.(savings := h.savings + CHALLENGE_BET));
  }
}
