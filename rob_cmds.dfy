/**
 * The rob command: steal part of another member's pockets, at the risk of
 * death, a fine with an injury, or prison; the victim is then protected
 * for ten minutes.
 */
module RobCmds {
  import opened Records
  import opened DataService
  import opened EconomyBase
  import ChallengeRegistry
  import PrisonSystem
  import InjurySystem
  import CrimeCmds

  const ROB_COOLDOWN: int := 300
  const ROB_VICTIM_COOLDOWN: int := 600
  const ROB_MIN_AMOUNT: int := 15
  const FINE_MIN: int := 5
  const FINE_MAX: int := 30
  const SENTENCE: int := 3600
  /** Targets with at most this many medals in pockets are not worth robbing. */
  const POOR_LIMIT: int := 5

  /** check_last_robbed on the target's record: robbable once 600 seconds have passed. */
  function VictimCheck(t: Account, now: int): (r: CooldownCheck)
    ensures r.ready <==> now - t.lastRobbed >= ROB_VICTIM_COOLDOWN
    ensures r.ready ==> r.remaining == 0
    ensures !r.ready ==> r.remaining > 0 && now + r.remaining == t.lastRobbed + ROB_VICTIM_COOLDOWN
  {
    var elapsed := now - t.lastRobbed;
    if elapsed >= ROB_VICTIM_COOLDOWN then CooldownCheck(true, 0)
    else CooldownCheck(false, ROB_VICTIM_COOLDOWN - elapsed)
  }

  /**
   * The amount taken from pockets p (more than 5): everything below 15,
   * otherwise the draw from int(0.6p)..int(0.8p) raised to at least 15.
   */
  function Stolen(p: int, draw: int): (s: int)
    ensures p < ROB_MIN_AMOUNT ==> s == p
    ensures p >= ROB_MIN_AMOUNT ==> s >= ROB_MIN_AMOUNT && (s == draw || s == ROB_MIN_AMOUNT)
  {
    var s := if draw > ROB_MIN_AMOUNT then draw else ROB_MIN_AMOUNT;
    if p < ROB_MIN_AMOUNT then p else s
  }

  /** With an in-range draw the thief takes at least min(p, 15) and never more than the target holds. */
  lemma StolenBounds(p: int, draw: int)
    requires p > POOR_LIMIT
    requires TenthsOf(p, 6) <= draw <= TenthsOf(p, 8)
    ensures (if p < ROB_MIN_AMOUNT then p else ROB_MIN_AMOUNT) <= Stolen(p, draw) <= p
    ensures Stolen(p, draw) > POOR_LIMIT
  {
  }

  /** The random draws of one /rob: success roll, outcome roll, fine, amount draw. */
  datatype RobRolls = RobRolls(failRoll: int, outcomeRoll: int, fine: int, stealDraw: int)

  datatype RobOutcome =
    | SelfTarget
    | InPrison
    | InChallenge
    | VictimProtected(remaining: int)
    | OnCooldown(remaining: int)
    | Killed(lost: int, tax: int)
    | KilledImprisoned(lost: int)
    | Injured(fine: int, tier: string)
    | Imprisoned
    | NothingToSteal
    | Stole(amount: int)

  predicate Rejected(o: RobOutcome)
  {
    o.SelfTarget? || o.InPrison? || o.InChallenge? || o.VictimProtected? || o.OnCooldown?
  }

  datatype RobResult = RobResult(outcome: RobOutcome, doc: Document)

  /** The width of the injury band: what death and prison leave of 100, never negative. */
  function InjuryBand(death: int, prison: int): int
  {
    if 100 - death - prison > 0 then 100 - death - prison else 0
  }

  /** The failure branch once the cooldown is stamped: death, fine with injury, or Soldat Brigade. */
  function RobFailure(stamped: Account, r: RobRolls, now: int): (res: (RobOutcome, Account))
    ensures res.0.Killed? || res.0.KilledImprisoned? || res.0.Injured? || res.0.Imprisoned?
    ensures res.1.cooldowns == stamped.cooldowns
  {
    var death := InjurySystem.OutcomeChance("death", Some(stamped.injuries));
    var prison := InjurySystem.OutcomeChance("prison", Some(stamped.injuries));
    if r.outcomeRoll <= death then
      var d := CrimeCmds.Death(stamped, now);
      (if d.imprisoned then KilledImprisoned(d.lost) else Killed(d.lost, d.tax), d.account)
    else if r.outcomeRoll <= death + InjuryBand(death, prison) then
      var hurt := InjurySystem.Injure(AddPockets(stamped, -r.fine));
      (Injured(r.fine, InjurySystem.TierOf(hurt.injuries).name), hurt)
    else
      (Imprisoned, stamped.(prison := Some(Prison(PrisonSystem.SOLDAT_BRIGADE, now + SENTENCE))))
  }

  /**
   * The rob flow on the guild document: self check; the robber's prison and
   * challenge guards; the victim's protection; the robber's cooldown, stamped
   * before the roll; then failure, or theft from the victim's pockets.
   */
  function RobRule(doc: Document, m: Member, t: Member, inChallenge: bool, r: RobRolls, sb: int, now: int): (res: RobResult)
    ensures res.outcome.SelfTarget? <==> t.key == m.key
    ensures res.outcome.SelfTarget? ==> res.doc == doc
    ensures !res.outcome.SelfTarget? ==> m.key in res.doc && res.doc.Keys == doc.Keys + {m.key} + (if res.outcome.InPrison? || res.outcome.InChallenge? then {} else {t.key})
    ensures res.outcome.InPrison? <==> t.key != m.key && UserOf(doc, m, sb).prison.Some?
    ensures Rejected(res.outcome) && !res.outcome.SelfTarget? ==> res.doc[m.key] == UserOf(doc, m, sb)
    ensures !Rejected(res.outcome) ==> res.doc[m.key].cooldowns == UserOf(doc, m, sb).cooldowns["rob" := now]
    ensures forall k :: k in doc && k != m.key && k != t.key ==> k in res.doc && res.doc[k] == doc[k]
    ensures !res.outcome.Stole? && !res.outcome.SelfTarget? && !res.outcome.InPrison? && !res.outcome.InChallenge? ==>
              res.doc[t.key] == UserOf(doc, t, sb)
    ensures res.outcome.Stole? ==> res.doc[t.key].lastRobbed == now
  {
    if t.key == m.key then RobResult(SelfTarget, doc)
    else
      var a := UserOf(doc, m, sb);
      var d1 := doc[m.key := a];
      if a.prison.Some? then RobResult(InPrison, d1)
      else if inChallenge then RobResult(InChallenge, d1)
      else
        var victim := UserOf(d1, t, sb);
        var d2 := d1[t.key := victim];
        var vc := VictimCheck(victim, now);
        var cd := Cooldown(a, "rob", ROB_COOLDOWN, now);
        if !vc.ready then RobResult(VictimProtected(vc.remaining), d2)
        else if !cd.ready then RobResult(OnCooldown(cd.remaining), d2)
        else RobProceed(d2, m, t, r, now)
  }

  /** Past the guards: stamp the robber's cooldown, roll, then fail or steal. */
  function RobProceed(d: Document, m: Member, t: Member, r: RobRolls, now: int): (res: RobResult)
    requires m.key in d && t.key in d && m.key != t.key
    ensures !Rejected(res.outcome)
    ensures res.doc.Keys == d.Keys
    ensures res.doc[m.key].cooldowns == d[m.key].cooldowns["rob" := now]
    ensures forall k :: k in d && k != m.key && k != t.key ==> res.doc[k] == d[k]
    ensures !res.outcome.Stole? ==> res.doc[t.key] == d[t.key]
    ensures res.outcome.Stole? ==> res.doc[t.key].lastRobbed == now
  {
    var stamped := Stamp(d[m.key], "rob", now);
    var victim := d[t.key];
    if r.failRoll <= InjurySystem.FailRate("rob", stamped.injuries) then
      var (o, after) := RobFailure(stamped, r, now);
      RobResult(o, d[m.key := after])
    else if victim.pockets <= POOR_LIMIT then RobResult(NothingToSteal, d[m.key := stamped])
    else
      var s := Stolen(victim.pockets, r.stealDraw);
      RobResult(Stole(s), d[m.key := AddPockets(stamped, s)][t.key := AddPockets(victim, -s).(lastRobbed := now)])
  }

  /** A theft moves medals between the two records: their combined total is unchanged. */
  lemma RobConservesMedals(doc: Document, m: Member, t: Member, inChallenge: bool, r: RobRolls, sb: int, now: int)
    ensures var res := RobRule(doc, m, t, inChallenge, r, sb, now);
            res.outcome.Stole? ==>
              Total(res.doc[m.key]) + Total(res.doc[t.key]) ==
              Total(Stamp(UserOf(doc, m, sb), "rob", now)) + Total(UserOf(doc, t, sb)) &&
              res.doc[m.key].pockets == UserOf(doc, m, sb).pockets + res.outcome.amount &&
              res.doc[t.key].pockets == UserOf(doc, t, sb).pockets - res.outcome.amount
  {
  }

  /** With an in-range draw a victim is never left with negative pockets, and loses more than 5. */
  lemma RobVictimStaysSolvent(doc: Document, m: Member, t: Member, inChallenge: bool, r: RobRolls, sb: int, now: int)
    requires var p := UserOf(doc, t, sb).pockets; TenthsOf(p, 6) <= r.stealDraw <= TenthsOf(p, 8)
    ensures var res := RobRule(doc, m, t, inChallenge, r, sb, now);
            res.outcome.Stole? ==> res.doc[t.key].pockets >= 0 && res.outcome.amount > POOR_LIMIT
  {
    var p := UserOf(doc, t, sb).pockets;
    if p > POOR_LIMIT {
      StolenBounds(p, r.stealDraw);
    }
  }

  /** A robbed member cannot be robbed again, by anyone, for the next 600 seconds. */
  lemma RobProtectsVictim(doc: Document, m: Member, t: Member, m2: Member, inChallenge: bool, r: RobRolls, r2: RobRolls, sb: int, now: int, later: int)
    requires now <= later < now + ROB_VICTIM_COOLDOWN
    requires m2.key != t.key
    ensures var res := RobRule(doc, m, t, inChallenge, r, sb, now);
            res.outcome.Stole? ==>
              var again := RobRule(res.doc, m2, t, false, r2, sb, later).outcome;
              again.InPrison? || again.VictimProtected?
  {
    var res := RobRule(doc, m, t, inChallenge, r, sb, now);
    if res.outcome.Stole? && t.key != m2.key {
      var d1 := res.doc[m2.key := UserOf(res.doc, m2, sb)];
      assert UserOf(d1, t, sb) == res.doc[t.key];
    }
  }

  /** For an uninjured robber the failure split is 15 death, 65 fine and injury, 20 prison. */
  lemma RobFailureBandsUninjured(stamped: Account, r: RobRolls, now: int)
    requires stamped.injuries <= 0
    ensures var o := RobFailure(stamped, r, now).0;
            ((o.Killed? || o.KilledImprisoned?) <==> r.outcomeRoll <= 15) &&
            (o.Injured? <==> 15 < r.outcomeRoll <= 80) &&
            (o.Imprisoned? <==> 80 < r.outcomeRoll)
    ensures InjurySystem.FailRate("rob", stamped.injuries) == InjurySystem.ROB_BASE_FAIL
  {
  }

  /** A critically injured robber dies on 40 of 100, is hurt again on 10 and goes to prison on 50. */
  lemma RobFailureBandsCritical(stamped: Account, r: RobRolls, now: int)
    requires stamped.injuries >= 4
    ensures var o := RobFailure(stamped, r, now).0;
            ((o.Killed? || o.KilledImprisoned?) <==> r.outcomeRoll <= 40) &&
            (o.Injured? <==> 40 < r.outcomeRoll <= 50) &&
            (o.Imprisoned? <==> 50 < r.outcomeRoll)
    ensures InjurySystem.FailRate("rob", stamped.injuries) == 80
  {
  }

  /** A fined robber always gains exactly one injury on top of the fine. */
  lemma RobInjuryAddsOne(stamped: Account, r: RobRolls, now: int)
    ensures var (o, after) := RobFailure(stamped, r, now);
            o.Injured? ==>
              after.injuries == stamped.injuries + 1 && after.injured &&
              after.pockets == stamped.pockets - r.fine && after.savings == stamped.savings
  {
  }

  /** set_last_robbed: the victim's protection starts now (creating the record when absent). */
  method SetLastRobbed(l: Ledger, t: Member, now: int)
    modifies l
    ensures l.doc == old(l.doc)[t.key := UserOf(old(l.doc), t, l.startingBalance).(lastRobbed := now)]
  {
    var a := l.GetUserData(t);
    l.Put(t.key, a.(lastRobbed := now));
  }

  /** check_last_robbed: reads (and creates) the victim's record. */
  method CheckLastRobbed(l: Ledger, t: Member, now: int) returns (c: CooldownCheck)
    modifies l
    ensures c == VictimCheck(UserOf(old(l.doc), t, l.startingBalance), now)
    ensures l.doc == old(l.doc)[t.key := UserOf(old(l.doc), t, l.startingBalance)]
  {
    var a := l.GetUserData(t);
    c := VictimCheck(a, now);
  }

  /** The failure branch on the ledger: the robber's record already exists and is stamped. */
  method RobFailureStep(l: Ledger, m: Member, r: RobRolls, now: int) returns (o: RobOutcome)
    requires m.key in l.doc
    modifies l
    ensures var (want, after) := RobFailure(old(l.doc)[m.key], r, now);
            o == want && l.doc == old(l.doc)[m.key := after]
  {
    var robber := l.GetUserData(m);
    var death := InjurySystem.OutcomeChance("death", Some(robber.injuries));
    var prison := InjurySystem.OutcomeChance("prison", Some(robber.injuries));
    var band := InjuryBand(death, prison);
    if r.outcomeRoll <= death {
      var d := CrimeCmds.HandleDeath(l, m, now);
      o := if d.imprisoned then KilledImprisoned(d.lost) else Killed(d.lost, d.tax);
    } else if r.outcomeRoll <= death + band {
      var _ := UpdatePockets(l, m, -r.fine);
      var _ := InjurySystem.AddInjury(l, m);
      var status := InjurySystem.GetInjuryStatus(l, m);
      o := Injured(r.fine, status.tier);
    } else {
      var a := l.GetUserData(m);
      l.Put(m.key, a.(prison := Some(Prison(PrisonSystem.SOLDAT_BRIGADE, now + SENTENCE))));
      o := Imprisoned;
    }
  }

  /** The success branch on the ledger: both records exist. */
  method RobTheftStep(l: Ledger, m: Member, t: Member, r: RobRolls, now: int) returns (o: RobOutcome)
    requires m.key in l.doc && t.key in l.doc && m.key != t.key
    modifies l
    ensures var victim := old(l.doc)[t.key];
            if victim.pockets <= POOR_LIMIT then o == NothingToSteal && l.doc == old(l.doc)
            else
              var s := Stolen(victim.pockets, r.stealDraw);
              o == Stole(s) &&
              l.doc == old(l.doc)[m.key := AddPockets(old(l.doc)[m.key], s)][t.key := AddPockets(victim, -s).(lastRobbed := now)]
  {
    var targetPockets := GetPockets(l, t);
    if targetPockets <= POOR_LIMIT {
      return NothingToSteal;
    }
    var stolen := Stolen(targetPockets, r.stealDraw);
    var _ := UpdatePockets(l, m, stolen);
    var _ := UpdatePockets(l, t, -stolen);
    SetLastRobbed(l, t, now);
    o := Stole(stolen);
  }

  /** The steps after the guards: stamp, read the fail rate, then one of the two branches. */
  method RobAfterGuards(l: Ledger, m: Member, t: Member, r: RobRolls, now: int) returns (o: RobOutcome)
    requires m.key in l.doc && t.key in l.doc && m.key != t.key
    modifies l
    ensures var res := RobProceed(old(l.doc), m, t, r, now);
            o == res.outcome && l.doc == res.doc
  {
    ghost var stamped := Stamp(old(l.doc)[m.key], "rob", now);
    ghost var d := old(l.doc)[m.key := stamped];
    SetCooldown(l, m, "rob", now);
    assert l.doc == d;
    var robber := l.GetUserData(m);
    assert robber == stamped && l.doc == d;
    var failRate := InjurySystem.FailRate("rob", robber.injuries);
    if r.failRoll <= failRate {
      o := RobFailureStep(l, m, r, now);
    } else {
      o := RobTheftStep(l, m, t, r, now);
    }
  }

  /** /rob on the ledger: each guard and update as the command issues them. */
  method Rob(l: Ledger, reg: ChallengeRegistry.Manager, m: Member, t: Member, r: RobRolls, now: int)
    returns (o: RobOutcome)
    modifies l
    ensures var res := RobRule(old(l.doc), m, t, reg.IsInChallenge(m.key), r, l.startingBalance, now);
            o == res.outcome && l.doc == res.doc
  {
    if t.key == m.key {
      return SelfTarget;
    }
    ghost var sb := l.startingBalance;
    ghost var a := UserOf(l.doc, m, sb);
    ghost var d1 := l.doc[m.key := a];
    var free := CheckPrisonStatus(l, m);
    if !free {
      return InPrison;
    }
    var allowed := CheckBalanceChallenge(reg, m);
    if !allowed {
      return InChallenge;
    }
    assert l.doc == d1;
    ghost var d2 := d1[t.key := UserOf(d1, t, sb)];
    var vc := CheckLastRobbed(l, t, now);
    assert l.doc == d2 && vc == VictimCheck(UserOf(d1, t, sb), now);
    if !vc.ready {
      return VictimProtected(vc.remaining);
    }
    assert m.key in d2 && d2[m.key] == a;
    var cd := CheckCooldown(l, m, "rob", ROB_COOLDOWN, now);
    assert l.doc == d2 && cd == Cooldown(a, "rob", ROB_COOLDOWN, now);
    if !cd.ready {
      return OnCooldown(cd.remaining);
    }
    o := RobAfterGuards(l, m, t, r, now);
  }
}
