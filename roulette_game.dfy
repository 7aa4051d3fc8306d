/**
 * Roulette: bet pocket medals on purple, yellow or green; the wheel lands
 * on them with weights 18, 18 and 1, paying double or fourteen times.
 */
module RouletteGame {
  import opened Records
  import opened DataService
  import opened EconomyBase
  import ChallengeRegistry

  const ROULETTE_COOLDOWN: int := 420
  const PURPLE: string := "purple"
  const YELLOW: string := "yellow"
  const GREEN: string := "green"
  /** The sum of the weights: spins range over 1..37. */
  const SPINS: int := 37

  /** The weighted draw: the first 18 spins are purple, the next 18 yellow, the last green. */
  function Landing(spin: int): (c: string)
    ensures c == PURPLE <==> spin <= 18
    ensures c == YELLOW <==> 18 < spin <= 36
    ensures c == GREEN <==> 36 < spin
  {
    if spin <= 18 then PURPLE else if spin <= 36 then YELLOW else GREEN
  }

  function Multiplier(color: string): int
  {
    if color == PURPLE || color == YELLOW then 2 else 14
  }

  /** The change in pockets of a bet that was placed: the stake is lost, a hit pays stake times multiplier. */
  function Net(choice: string, bet: int, spin: int): int
  {
    var landed := Landing(spin);
    if landed == choice then bet * Multiplier(landed) - bet else -bet
  }

  datatype RouletteOutcome =
    | InPrison
    | InChallenge
    | OnCooldown(remaining: int)
    | NonPositiveBet
    | InsufficientPockets
    | Won(landed: string, payout: int)
    | Lost(landed: string)

  datatype RouletteResult = RouletteResult(outcome: RouletteOutcome, account: Account)

  /** The roulette flow: guards, bet checks, stake deducted, a hit paid, cooldown set either way. */
  function RouletteRule(a: Account, inChallenge: bool, bet: int, choice: string, spin: int, now: int): (res: RouletteResult)
    ensures (res.outcome.Won? || res.outcome.Lost?) <==>
              a.prison.None? && !inChallenge && Cooldown(a, "roulette", ROULETTE_COOLDOWN, now).ready && 0 < bet <= a.pockets
    ensures !(res.outcome.Won? || res.outcome.Lost?) ==> res.account == a
    ensures res.outcome.Won? || res.outcome.Lost? ==>
              res.account == a.(pockets := a.pockets + Net(choice, bet, spin), cooldowns := a.cooldowns["roulette" := now])
    ensures res.outcome.Won? ==> res.outcome.landed == choice && res.outcome.payout == bet * Multiplier(choice)
    ensures res.outcome.Lost? ==> res.outcome.landed != choice
  {
    if a.prison.Some? then RouletteResult(InPrison, a)
    else if inChallenge then RouletteResult(InChallenge, a)
    else
      var cd := Cooldown(a, "roulette", ROULETTE_COOLDOWN, now);
      if !cd.ready then RouletteResult(OnCooldown(cd.remaining), a)
      else if bet <= 0 then RouletteResult(NonPositiveBet, a)
      else if bet > a.pockets then RouletteResult(InsufficientPockets, a)
      else
        var staked := AddPockets(a, -bet);
        var landed := Landing(spin);
        if landed == choice then
          var payout := bet * Multiplier(landed);
          RouletteResult(Won(landed, payout), Stamp(AddPockets(staked, payout), "roulette", now))
        else RouletteResult(Lost(landed), Stamp(staked, "roulette", now))
  }

  /** A placed bet can lose at most the stake, so pockets never go negative through roulette. */
  lemma RouletteNeverOverdraws(a: Account, inChallenge: bool, bet: int, choice: string, spin: int, now: int)
    ensures var res := RouletteRule(a, inChallenge, bet, choice, spin, now);
            res.outcome.Won? || res.outcome.Lost? ==>
              res.account.pockets >= 0 && res.account.pockets >= a.pockets - bet
  {
    var res := RouletteRule(a, inChallenge, bet, choice, spin, now);
    if res.outcome.Won? {
      assert Net(choice, bet, spin) == bet * Multiplier(choice) - bet;
      MulMonotone(bet, 1, Multiplier(choice));
    }
  }

  /** The net result of one bet summed over the first n spins. */
  function SumNet(choice: string, bet: int, n: nat): int
  {
    if n == 0 then 0 else SumNet(choice, bet, n - 1) + Net(choice, bet, n)
  }

  lemma {:induction false} SumNetPurple(bet: int, n: nat)
    requires n <= SPINS
    ensures SumNet(PURPLE, bet, n) == (if n <= 18 then n * bet else 18 * bet - (n - 18) * bet)
  {
    if n > 0 {
      SumNetPurple(bet, n - 1);
    }
  }

  lemma {:induction false} SumNetYellow(bet: int, n: nat)
    requires n <= SPINS
    ensures SumNet(YELLOW, bet, n) == (if n <= 18 then -(n * bet) else if n <= 36 then -18 * bet + (n - 18) * bet else -bet)
  {
    if n > 0 {
      SumNetYellow(bet, n - 1);
    }
  }

  lemma {:induction false} SumNetGreen(bet: int, n: nat)
    requires n <= SPINS
    ensures SumNet(GREEN, bet, n) == (if n <= 36 then -(n * bet) else 13 * bet - 36 * bet)
  {
    if n > 0 {
      SumNetGreen(bet, n - 1);
    }
  }

  /**
   * The house edge: over the 37 equally likely spins a bet on purple or
   * yellow loses one stake in total, a bet on green twenty-three.
   */
  lemma HouseEdge(bet: int)
    ensures SumNet(PURPLE, bet, SPINS) == -bet
    ensures SumNet(YELLOW, bet, SPINS) == -bet
    ensures SumNet(GREEN, bet, SPINS) == -23 * bet
  {
    SumNetPurple(bet, SPINS);
    SumNetYellow(bet, SPINS);
    SumNetGreen(bet, SPINS);
  }

  /** /roulette on the ledger. */
  method Roulette(l: Ledger, reg: ChallengeRegistry.Manager, m: Member, bet: int, choice: string, spin: int, now: int)
    returns (o: RouletteOutcome)
    modifies l
    ensures var res := RouletteRule(UserOf(old(l.doc), m, l.startingBalance), reg.IsInChallenge(m.key), bet, choice, spin, now);
            o == res.outcome && l.doc == old(l.doc)[m.key := res.account]
  {
    ghost var a0 := UserOf(l.doc, m, l.startingBalance);
    ghost var d0 := l.doc[m.key := a0];
    var free := CheckPrisonStatus(l, m);
    assert l.doc == d0;
    if !free {
      return InPrison;
    }
    var allowed := CheckBalanceChallenge(reg, m);
    if !allowed {
      return InChallenge;
    }
    var cd := CheckCooldown(l, m, "roulette", ROULETTE_COOLDOWN, now);
    assert l.doc == d0 && cd == Cooldown(a0, "roulette", ROULETTE_COOLDOWN, now);
    if !cd.ready {
      return OnCooldown(cd.remaining);
    }
    if bet <= 0 {
      return NonPositiveBet;
    }
    var pockets := GetPockets(l, m);
    assert l.doc == d0 && pockets == a0.pockets;
    if bet > pockets {
      return InsufficientPockets;
    }
    o := PlaceBet(l, m, bet, choice, spin, now);
  }

  /** The bet once every guard passed: take the stake, spin, pay out a win, stamp the cooldown. */
  method PlaceBet(l: Ledger, m: Member, bet: int, choice: string, spin: int, now: int) returns (o: RouletteOutcome)
    requires m.key in l.doc
    modifies l
    ensures var staked := AddPockets(old(l.doc)[m.key], -bet);
            var landed := Landing(spin);
            if landed == choice then
              var payout := bet * Multiplier(landed);
              o == Won(landed, payout) && l.doc == old(l.doc)[m.key := Stamp(AddPockets(staked, payout), "roulette", now)]
            else
              o == Lost(landed) && l.doc == old(l.doc)[m.key := Stamp(staked, "roulette", now)]
  {
    ghost var staked := AddPockets(old(l.doc)[m.key], -bet);
    var _ := UpdatePockets(l, m, -bet);
    assert l.doc == old(l.doc)[m.key := staked];
    var landed := Landing(spin);
    if landed == choice {
      var payout := bet * Multiplier(landed);
      var _ := UpdatePockets(l, m, payout);
      assert l.doc == old(l.doc)[m.key := AddPockets(staked, payout)];
      o := Won(landed, payout);
    } else {
      o := Lost(landed);
    }
    SetCooldown(l, m, "roulette", now);
  }
}
