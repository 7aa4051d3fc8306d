/**
 * The work command: a guaranteed wage of 4..12 medals, multiplied on a
 * critical success, once a minute.
 */
module WorkCmds {
  import opened Records
  import opened DataService
  import opened EconomyBase
  import ChallengeRegistry

  const WORK_COOLDOWN: int := 60
  const WORK_PAYOUT_MIN: int := 4
  const WORK_PAYOUT_MAX: int := 12

  /** The random draws of one /work: base wage, critical roll, multiplier. */
  datatype WorkRolls = WorkRolls(wage: int, critRoll: int, multiplier: int)

  datatype WorkOutcome = InPrison | InChallenge | OnCooldown(remaining: int) | Worked(wage: int, critical: bool)

  datatype WorkResult = WorkResult(outcome: WorkOutcome, account: Account)

  /** The work flow on the caller's record: the three guards, then the wage is paid and the cooldown set. */
  function WorkRule(a: Account, inChallenge: bool, r: WorkRolls, crit: CritSettings, now: int): (res: WorkResult)
    ensures res.outcome.InPrison? <==> a.prison.Some?
    ensures res.outcome.InChallenge? <==> a.prison.None? && inChallenge
    ensures res.outcome.OnCooldown? <==> a.prison.None? && !inChallenge && !Cooldown(a, "work", WORK_COOLDOWN, now).ready
    ensures res.outcome.OnCooldown? ==> res.outcome == OnCooldown(Cooldown(a, "work", WORK_COOLDOWN, now).remaining)
    ensures !res.outcome.Worked? ==> res.account == a
    ensures res.outcome.Worked? ==>
              res.outcome.wage == CriticalPayout(r.wage, r.critRoll, r.multiplier, crit) &&
              res.outcome.critical == (r.critRoll <= crit.chance) &&
              res.account == a.(pockets := a.pockets + res.outcome.wage, cooldowns := a.cooldowns["work" := now])
  {
    if a.prison.Some? then WorkResult(InPrison, a)
    else if inChallenge then WorkResult(InChallenge, a)
    else
      var cd := Cooldown(a, "work", WORK_COOLDOWN, now);
      if !cd.ready then WorkResult(OnCooldown(cd.remaining), a)
      else
        var wage := CriticalPayout(r.wage, r.critRoll, r.multiplier, crit);
        WorkResult(Worked(wage, r.critRoll <= crit.chance), Stamp(AddPockets(a, wage), "work", now))
  }

  /** With in-range draws and the default settings, work pays 4..12, or 12..60 on a critical. */
  lemma WorkPayoutRange(a: Account, inChallenge: bool, r: WorkRolls, now: int)
    requires WORK_PAYOUT_MIN <= r.wage <= WORK_PAYOUT_MAX
    requires DEFAULT_CRIT.minMultiplier <= r.multiplier <= DEFAULT_CRIT.maxMultiplier
    ensures var o := WorkRule(a, inChallenge, r, DEFAULT_CRIT, now).outcome;
            o.Worked? ==> (!o.critical ==> 4 <= o.wage <= 12) && (o.critical ==> 12 <= o.wage <= 60)
  {
    CriticalPayoutBounds(r.wage, r.critRoll, r.multiplier, DEFAULT_CRIT);
  }

  /** Work never loses medals; after it, another /work within the minute is refused. */
  lemma WorkPaysThenBlocks(a: Account, r: WorkRolls, r2: WorkRolls, crit: CritSettings, now: int, later: int)
    requires r.wage >= 0 && r.multiplier >= 0
    requires now <= later < now + WORK_COOLDOWN
    ensures var res := WorkRule(a, false, r, crit, now);
            res.account.pockets >= a.pockets &&
            (res.outcome.Worked? ==> WorkRule(res.account, false, r2, crit, later).outcome == OnCooldown(now + WORK_COOLDOWN - later))
  {
  }

  /** /work on the ledger. */
  method Work(l: Ledger, reg: ChallengeRegistry.Manager, m: Member, r: WorkRolls, crit: CritSettings, now: int)
    returns (o: WorkOutcome)
    modifies l
    ensures var res := WorkRule(UserOf(old(l.doc), m, l.startingBalance), reg.IsInChallenge(m.key), r, crit, now);
            o == res.outcome && l.doc == old(l.doc)[m.key := res.account]
  {
    var free := CheckPrisonStatus(l, m);
    if !free {
      return InPrison;
    }
    var allowed := CheckBalanceChallenge(reg, m);
    if !allowed {
      return InChallenge;
    }
    var cd := CheckCooldown(l, m, "work", WORK_COOLDOWN, now);
    if !cd.ready {
      return OnCooldown(cd.remaining);
    }
    var wage := CriticalPayout(r.wage, r.critRoll, r.multiplier, crit);
    var _ := UpdatePockets(l, m, wage);
    SetCooldown(l, m, "work", now);
    o := Worked(wage, r.critRoll <= crit.chance);
  }
}
