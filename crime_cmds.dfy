/**
 * The crime command: a 51% chance to fail, then death, a fine or prison;
 * otherwise a payout that can be critical.
 */
module CrimeCmds {
  import opened Records
  import opened DataService
  import opened EconomyBase
  import ChallengeRegistry
  import PrisonSystem

  const CRIME_COOLDOWN: int := 75
  const CRIME_PAYOUT_MIN: int := 15
  const CRIME_PAYOUT_MAX: int := 35
  const CRIME_FAIL_RATE: int := 51
  const CRIME_DEATH_CHANCE: int := 15
  const CRIME_INJURY_CHANCE: int := 65
  const FINE_MIN: int := 5
  const FINE_MAX: int := 30
  /** The reaper's tax, in tenths of savings. */
  const DEATH_TAX_TENTHS: nat := 1
  const SENTENCE: int := 3600

  /** What handle_death did: the pockets lost, the tax taken, and whether it imprisoned instead. */
  datatype DeathResult = DeathResult(account: Account, lost: int, tax: int, imprisoned: bool)

  /**
   * handle_death on a record: pockets are emptied; a tenth of savings is
   * taken when that is at least one medal, otherwise the member is sent to
   * the Officer Group for an hour.
   */
  function Death(a: Account, now: int): (r: DeathResult)
    ensures r.lost == a.pockets && r.account.pockets == 0
    ensures r.imprisoned <==> a.savings < 10
    ensures r.imprisoned ==>
              r.tax == 0 &&
              r.account == a.(pockets := 0, prison := Some(Prison(PrisonSystem.OFFICER_GROUP, now + SENTENCE)))
    ensures !r.imprisoned ==>
              1 <= r.tax && 10 * r.tax <= a.savings < 10 * (r.tax + 1) &&
              r.account == a.(pockets := 0, savings := a.savings - r.tax)
  {
    var tax := TenthsOf(a.savings, DEATH_TAX_TENTHS);
    var emptied := AddPockets(a, -a.pockets);
    if a.savings <= 0 || tax <= 0 then
      DeathResult(emptied.(prison := Some(Prison(PrisonSystem.OFFICER_GROUP, now + SENTENCE))), a.pockets, 0, true)
    else
      DeathResult(AddSavings(emptied, -tax), a.pockets, tax, false)
  }

  /** A death never leaves negative savings behind it. */
  lemma DeathKeepsSavingsSign(a: Account, now: int)
    requires a.savings >= 0
    ensures Death(a, now).account.savings >= 0
    ensures Total(Death(a, now).account) <= Total(a) || a.pockets < 0
  {
  }

  /** handle_death: the ledger steps (read, empty pockets, tax or imprison). */
  method HandleDeath(l: Ledger, m: Member, now: int) returns (d: DeathResult)
    modifies l
    ensures d == Death(UserOf(old(l.doc), m, l.startingBalance), now)
    ensures l.doc == old(l.doc)[m.key := d.account]
  {
    var pockets := GetPockets(l, m);
    var savings := GetSavings(l, m);
    var tax := TenthsOf(savings, DEATH_TAX_TENTHS);
    var _ := UpdatePockets(l, m, -pockets);
    if savings <= 0 || tax <= 0 {
      var a := l.GetUserData(m);
      var jailed := a.(prison := Some(Prison(PrisonSystem.OFFICER_GROUP, now + SENTENCE)));
      l.Put(m.key, jailed);
      return DeathResult(jailed, pockets, 0, true);
    }
    var _ := UpdateSavings(l, m, -tax);
    d := DeathResult(l.doc[m.key], pockets, tax, false);
  }

  /** The random draws of one /crime: success roll, outcome roll, fine, base reward, critical roll, multiplier. */
  datatype CrimeRolls = CrimeRolls(failRoll: int, outcomeRoll: int, fine: int, reward: int, critRoll: int, multiplier: int)

  datatype CrimeOutcome =
    | InPrison
    | InChallenge
    | OnCooldown(remaining: int)
    | Killed(lost: int, tax: int)
    | KilledImprisoned(lost: int)
    | Fined(fine: int)
    | Imprisoned
    | Succeeded(reward: int, critical: bool)

  predicate Rejected(o: CrimeOutcome)
  {
    o.InPrison? || o.InChallenge? || o.OnCooldown?
  }

  datatype CrimeResult = CrimeResult(outcome: CrimeOutcome, account: Account)

  /** The ceiling of the injury band: death chance plus the rest once prison's 20% is set aside. */
  const INJURY_BAND_END: int := CRIME_DEATH_CHANCE + (100 - CRIME_DEATH_CHANCE - (100 - CRIME_DEATH_CHANCE - CRIME_INJURY_CHANCE))

  /** The failure branch on the stamped record: death, a fine, or the Soldat Brigade by the outcome roll. */
  function Failure(stamped: Account, r: CrimeRolls, now: int): CrimeResult
  {
    if r.outcomeRoll <= CRIME_DEATH_CHANCE then
      var d := Death(stamped, now);
      CrimeResult(if d.imprisoned then KilledImprisoned(d.lost) else Killed(d.lost, d.tax), d.account)
    else if r.outcomeRoll <= INJURY_BAND_END then
      CrimeResult(Fined(r.fine), AddPockets(stamped, -r.fine))
    else
      CrimeResult(Imprisoned, stamped.(prison := Some(Prison(PrisonSystem.SOLDAT_BRIGADE, now + SENTENCE))))
  }

  /**
   * The crime flow on the caller's record: prison, challenge and cooldown
   * guards; then the failure branch (cooldown set first, then death, fine or
   * Soldat Brigade by the outcome roll) or the payout (cooldown set after).
   */
  function CrimeRule(a: Account, inChallenge: bool, r: CrimeRolls, crit: CritSettings, now: int): (res: CrimeResult)
    ensures res.outcome.InPrison? <==> a.prison.Some?
    ensures res.outcome.InChallenge? <==> a.prison.None? && inChallenge
    ensures res.outcome.OnCooldown? <==> a.prison.None? && !inChallenge && !Cooldown(a, "crime", CRIME_COOLDOWN, now).ready
    ensures Rejected(res.outcome) ==> res.account == a
    ensures !Rejected(res.outcome) ==> res.account.cooldowns == a.cooldowns["crime" := now]
    ensures !Rejected(res.outcome) ==>
              ((res.outcome.Killed? || res.outcome.KilledImprisoned?) <==> r.failRoll <= CRIME_FAIL_RATE && r.outcomeRoll <= 15) &&
              (res.outcome.Fined? <==> r.failRoll <= CRIME_FAIL_RATE && 15 < r.outcomeRoll <= 80) &&
              (res.outcome.Imprisoned? <==> r.failRoll <= CRIME_FAIL_RATE && 80 < r.outcomeRoll) &&
              (res.outcome.Succeeded? <==> r.failRoll > CRIME_FAIL_RATE)
    ensures res.outcome.Fined? ==>
              res.outcome.fine == r.fine && res.account == Stamp(a, "crime", now).(pockets := a.pockets - r.fine)
    ensures res.outcome.Imprisoned? ==>
              res.account == Stamp(a, "crime", now).(prison := Some(Prison(PrisonSystem.SOLDAT_BRIGADE, now + SENTENCE)))
    ensures res.outcome.Succeeded? ==>
              res.outcome.reward == CriticalPayout(r.reward, r.critRoll, r.multiplier, crit) &&
              res.account == Stamp(a, "crime", now).(pockets := a.pockets + res.outcome.reward)
    ensures res.outcome.Killed? || res.outcome.KilledImprisoned? ==>
              res.account == Death(Stamp(a, "crime", now), now).account
  {
    if a.prison.Some? then CrimeResult(InPrison, a)
    else if inChallenge then CrimeResult(InChallenge, a)
    else
      var cd := Cooldown(a, "crime", CRIME_COOLDOWN, now);
      if !cd.ready then CrimeResult(OnCooldown(cd.remaining), a)
      else if r.failRoll <= CRIME_FAIL_RATE then
        Failure(Stamp(a, "crime", now), r, now)
      else
        var reward := CriticalPayout(r.reward, r.critRoll, r.multiplier, crit);
        CrimeResult(Succeeded(reward, r.critRoll <= crit.chance), Stamp(AddPockets(a, reward), "crime", now))
  }

  /** With in-range draws a successful crime pays 15..35, or 45..175 on a default critical. */
  lemma CrimePayoutRange(a: Account, r: CrimeRolls, now: int)
    requires CRIME_PAYOUT_MIN <= r.reward <= CRIME_PAYOUT_MAX
    requires DEFAULT_CRIT.minMultiplier <= r.multiplier <= DEFAULT_CRIT.maxMultiplier
    ensures var o := CrimeRule(a, false, r, DEFAULT_CRIT, now).outcome;
            o.Succeeded? ==> (!o.critical ==> 15 <= o.reward <= 35) && (o.critical ==> 45 <= o.reward <= 175)
  {
    CriticalPayoutBounds(r.reward, r.critRoll, r.multiplier, DEFAULT_CRIT);
  }

  /** A failed crime never adds medals, unless pockets were already negative and death reset them. */
  lemma CrimeFailureNeverPays(a: Account, inChallenge: bool, r: CrimeRolls, crit: CritSettings, now: int)
    requires a.pockets >= 0 && a.savings >= 0 && r.fine >= 0
    ensures var res := CrimeRule(a, inChallenge, r, crit, now);
            !res.outcome.Succeeded? ==> Total(res.account) <= Total(a) && res.account.savings >= 0
  {
  }

  /** A crime that went through blocks another one for the whole 75-second window. */
  lemma CrimeBlocksRetry(a: Account, inChallenge: bool, r: CrimeRolls, crit: CritSettings, now: int)
    ensures var res := CrimeRule(a, inChallenge, r, crit, now);
            !Rejected(res.outcome) && res.account.prison.None? ==>
              CrimeRule(res.account, inChallenge, r, crit, now).outcome == OnCooldown(CRIME_COOLDOWN)
  {
  }

  /** The failure branch on the ledger: the cooldown is stamped first, then the outcome roll decides. */
  method CrimeFailureStep(l: Ledger, m: Member, r: CrimeRolls, now: int) returns (o: CrimeOutcome)
    requires m.key in l.doc
    modifies l
    ensures var res := Failure(Stamp(old(l.doc)[m.key], "crime", now), r, now);
            o == res.outcome && l.doc == old(l.doc)[m.key := res.account]
  {
    ghost var stamped := Stamp(l.doc[m.key], "crime", now);
    SetCooldown(l, m, "crime", now);
    assert l.doc == old(l.doc)[m.key := stamped];
    if r.outcomeRoll <= CRIME_DEATH_CHANCE {
      var d := HandleDeath(l, m, now);
      o := if d.imprisoned then KilledImprisoned(d.lost) else Killed(d.lost, d.tax);
    } else if r.outcomeRoll <= INJURY_BAND_END {
      var _ := UpdatePockets(l, m, -r.fine);
      o := Fined(r.fine);
    } else {
      var a := l.GetUserData(m);
      l.Put(m.key, a.(prison := Some(Prison(PrisonSystem.SOLDAT_BRIGADE, now + SENTENCE))));
      o := Imprisoned;
    }
  }

  /** /crime on the ledger: the guards, then the branch the draws select. */
  method Crime(l: Ledger, reg: ChallengeRegistry.Manager, m: Member, r: CrimeRolls, crit: CritSettings, now: int)
    returns (o: CrimeOutcome)
    modifies l
    ensures var res := CrimeRule(UserOf(old(l.doc), m, l.startingBalance), reg.IsInChallenge(m.key), r, crit, now);
            o == res.outcome && l.doc == old(l.doc)[m.key := res.account]
  {
    ghost var a0 := UserOf(l.doc, m, l.startingBalance);
    ghost var d0 := l.doc[m.key := a0];
    var free := CheckPrisonStatus(l, m);
    assert l.doc == d0 && (free <==> a0.prison.None?);
    if !free {
      return InPrison;
    }
    var allowed := CheckBalanceChallenge(reg, m);
    if !allowed {
      return InChallenge;
    }
    var cd := CheckCooldown(l, m, "crime", CRIME_COOLDOWN, now);
    assert l.doc == d0 && cd == Cooldown(a0, "crime", CRIME_COOLDOWN, now);
    if !cd.ready {
      return OnCooldown(cd.remaining);
    }
    if r.failRoll <= CRIME_FAIL_RATE {
      o := CrimeFailureStep(l, m, r, now);
    } else {
      o := CrimeSuccessStep(l, m, r, crit, now);
    }
  }

  /** The success branch on the ledger: the payout (possibly critical) added to pockets, then the cooldown stamped. */
  method CrimeSuccessStep(l: Ledger, m: Member, r: CrimeRolls, crit: CritSettings, now: int) returns (o: CrimeOutcome)
    requires m.key in l.doc
    modifies l
    ensures var a := old(l.doc)[m.key];
            var reward := CriticalPayout(r.reward, r.critRoll, r.multiplier, crit);
            o == Succeeded(reward, r.critRoll <= crit.chance) &&
            l.doc == old(l.doc)[m.key := Stamp(a, "crime", now).(pockets := a.pockets + reward)]
  {
    var reward := CriticalPayout(r.reward, r.critRoll, r.multiplier, crit);
    var _ := UpdatePockets(l, m, reward);
    SetCooldown(l, m, "crime", now);
    o := Succeeded(reward, r.critRoll <= crit.chance);
  }
}
