/**
 * /escape: a prisoner rolls against the tier's escape chance, lowered by
 * injuries; a failed attempt costs a tier-specific penalty. The Jaeger
 * Camp hands over to the four-box view instead. Also the module's own
 * handle_death: a quarter of savings, or a random prison for the poor.
 */
module EscapeCmds {
  import opened Records
  import opened DataService
  import opened EconomyBase
  import opened PrisonSystem
  import InjurySystem

  /** The escape chance never drops below this floor. */
  const MIN_ESCAPE_CHANCE: int := 5
  /** Below this much savings a death means prison instead of a fine. */
  const MIN_DEATH_SAVINGS: int := 25
  /** A failed Rook Division escape adds 15 minutes. */
  const ROOK_EXTENSION: int := 900

  // ---------------------------------------------------------------------
  // handle_death

  /** What handle_death did: pockets lost, the penalty taken, and the tier when it imprisoned instead. */
  datatype EscapeDeath = EscapeDeath(account: Account, lost: int, penalty: int, tier: Option<string>)

  /**
   * handle_death on a record. With less than 25 savings the member is sent
   * to a drawn tier for an hour and keeps every medal; otherwise pockets are
   * emptied, a quarter of savings is taken, and prison and injuries are cleared.
   */
  function EscapeDeathRule(a: Account, tierRoll: int, now: int): (r: EscapeDeath)
    ensures r.lost == a.pockets
    ensures r.tier.Some? <==> a.savings < MIN_DEATH_SAVINGS
    ensures r.tier.Some? ==>
              r.penalty == 0 && r.tier.value == PRISON_TIERS[TierIndexForRoll(tierRoll)].name &&
              r.account == a.(prison := Some(Prison(r.tier.value, now + PRISON_COOLDOWN)))
    ensures r.tier.None? ==>
              4 * r.penalty <= a.savings < 4 * (r.penalty + 1) &&
              r.account == a.(pockets := 0, savings := a.savings - r.penalty, prison := None, injuries := 0, injured := false)
  {
    if a.savings < MIN_DEATH_SAVINGS then
      var name := PRISON_TIERS[TierIndexForRoll(tierRoll)].name;
      EscapeDeath(a.(prison := Some(Prison(name, now + PRISON_COOLDOWN))), a.pockets, 0, Some(name))
    else
      var penalty := a.savings / 4;
      EscapeDeath(a.(pockets := 0, savings := a.savings - penalty, prison := None, injuries := 0, injured := false),
                  a.pockets, penalty, None)
  }

  /** A fined death takes at least 6 medals, leaves three quarters of savings and a healthy, free member. */
  lemma EscapeDeathFineBounds(a: Account, tierRoll: int, now: int)
    ensures var r := EscapeDeathRule(a, tierRoll, now);
            r.tier.None? ==>
              6 <= r.penalty && 3 * a.savings <= 4 * r.account.savings &&
              Total(r.account) == Total(a) - a.pockets - r.penalty &&
              r.account.prison.None? && InjuryConsistent(r.account)
    ensures var r := EscapeDeathRule(a, tierRoll, now);
            r.tier.Some? ==> Total(r.account) == Total(a) && r.tier.value in TierNames()
  {
  }

  /** The names in the tier table. */
  function TierNames(): (s: set<string>)
    ensures forall t :: t in PRISON_TIERS ==> t.name in s
  {
    set t | t in PRISON_TIERS :: t.name
  }

  /** handle_death: read both balances, then imprison or fine and clear the record. */
  method HandleDeath(l: Ledger, m: Member, tierRoll: int, now: int) returns (d: EscapeDeath)
    modifies l
    ensures d == EscapeDeathRule(UserOf(old(l.doc), m, l.startingBalance), tierRoll, now)
    ensures l.doc == old(l.doc)[m.key := d.account]
  {
    var pockets := GetPockets(l, m);
    var savings := GetSavings(l, m);
    if savings < MIN_DEATH_SAVINGS {
      var t := SelectPrisonTier(tierRoll);
      SendToPrison(l, m.key, t.name, PRISON_COOLDOWN, tierRoll, now);
      return EscapeDeath(l.doc[m.key], pockets, 0, Some(t.name));
    }
    var penalty := savings / 4;
    var _ := UpdatePockets(l, m, -pockets);
    var _ := UpdateSavings(l, m, -penalty);
    if m.key in l.doc {
      l.Put(m.key, l.doc[m.key].(prison := None, injuries := 0, injured := false));
    }
    d := EscapeDeath(l.doc[m.key], pockets, penalty, None);
  }

  // ---------------------------------------------------------------------
  // /escape

  datatype EscapeOutcome =
    | OnCooldown(remaining: int)
    | NotInPrison
    | CorruptTier(tier: string)
    | JaegerBoxes
    | Escaped(chance: int)
    | Failed(chance: int)

  datatype EscapeResult = EscapeResult(outcome: EscapeOutcome, account: Account)

  /** The chance against which a prisoner of the given tier rolls. */
  function EscapeChance(t: PrisonTier, a: Account): (c: int)
    ensures c >= MIN_ESCAPE_CHANCE && c <= Max(MIN_ESCAPE_CHANCE, t.escapeChance)
    ensures !a.injured || a.injuries <= 0 ==> c == Max(MIN_ESCAPE_CHANCE, t.escapeChance)
  {
    Max(MIN_ESCAPE_CHANCE, t.escapeChance + InjuryDebuff(a))
  }

  /** After a failed escape: the penalty of the tier the member is held in. */
  function FailurePenalty(a: Account, tier: string): (r: Account)
    ensures tier == OFFICER_GROUP ==> r == a
    ensures tier == OLD_GUARDS ==> r == a.(savings := a.savings - 5)
    ensures tier == SOLDAT_BRIGADE ==> r == a.(savings := a.savings - 10)
    ensures tier == LANCER_LEGION ==>
              r.savings == a.savings - 15 &&
              (a.injuries < 4 ==> r == InjurySystem.Injure(a.(savings := a.savings - 15))) &&
              (a.injuries >= 4 ==> r == a.(savings := a.savings - 15))
    ensures tier == ROOK_DIVISION && a.prison.Some? ==>
              r.prison == Some(a.prison.value.(releaseTime := a.prison.value.releaseTime + ROOK_EXTENSION))
    ensures tier == ROOK_DIVISION ==>
              r.savings == a.savings && r.pockets == a.pockets &&
              r.injuries == (if a.injuries < 4 then a.injuries + 1 else a.injuries)
    ensures tier == MORTICIAN_WING ==>
              (a.injuries >= 4 ==> r == a.(savings := a.savings - 20)) &&
              (a.injuries == 3 ==> r == a.(injuries := 4, injured := true)) &&
              (a.injuries < 3 ==> r == a.(injuries := 3, injured := true))
  {
    if tier == OLD_GUARDS then AddSavings(a, -5)
    else if tier == SOLDAT_BRIGADE then AddSavings(a, -10)
    else if tier == LANCER_LEGION then
      var fined := AddSavings(a, -15);
      if InjurySystem.TierOf(fined.injuries).name != InjurySystem.CRITICAL then InjurySystem.Injure(fined) else fined
    else if tier == ROOK_DIVISION then
      var extended :=
        if a.prison.Some? then a.(prison := Some(a.prison.value.(releaseTime := a.prison.value.releaseTime + ROOK_EXTENSION)))
        else a;
      if InjurySystem.TierOf(extended.injuries).name != InjurySystem.CRITICAL then InjurySystem.Injure(extended) else extended
    else if tier == MORTICIAN_WING then
      var name := InjurySystem.TierOf(a.injuries).name;
      if name == InjurySystem.CRITICAL then AddSavings(a, -20)
      else if name == InjurySystem.SURGERY then a.(injuries := 4, injured := true)
      else a.(injuries := 3, injured := true)
    else a
  }

  /** The cooldown and sentence checks passed, so an attempt is made and the cooldown stamped. */
  predicate Attempts(a: Account, now: int)
  {
    Cooldown(a, "escape", ESCAPE_COOLDOWN, now).ready && a.prison.Some?
  }

  /** The attempt is resolved by a roll here (a known tier other than the Jaeger Camp). */
  predicate Rolls(a: Account, now: int)
  {
    Attempts(a, now) && TierNamed(a.prison.value.tier).Some? && a.prison.value.tier != JAEGER_CAMP
  }

  /**
   * The escape flow on the caller's record: the cooldown first, then the
   * sentence check, then the stamp; an unknown tier is an error and the
   * Jaeger Camp opens the box view, both after the stamp; otherwise the roll.
   */
  function EscapeRule(a: Account, roll: int, now: int): (res: EscapeResult)
    ensures res.outcome.OnCooldown? <==> !Cooldown(a, "escape", ESCAPE_COOLDOWN, now).ready
    ensures res.outcome.NotInPrison? <==> Cooldown(a, "escape", ESCAPE_COOLDOWN, now).ready && a.prison.None?
    ensures !Attempts(a, now) ==> res.account == a
    ensures Attempts(a, now) ==> res.account.cooldowns == a.cooldowns["escape" := now]
    ensures res.outcome.CorruptTier? <==> Attempts(a, now) && TierNamed(a.prison.value.tier).None?
    ensures res.outcome.JaegerBoxes? <==> Attempts(a, now) && a.prison.value.tier == JAEGER_CAMP
    ensures res.outcome.CorruptTier? || res.outcome.JaegerBoxes? ==> res.account == Stamp(a, "escape", now)
    ensures res.outcome.Escaped? || res.outcome.Failed? <==> Rolls(a, now)
    ensures Rolls(a, now) ==>
              res.outcome.chance == EscapeChance(TierNamed(a.prison.value.tier).value, a) &&
              (res.outcome.Escaped? <==> roll <= res.outcome.chance)
    ensures res.outcome.Escaped? ==> res.account == Stamp(a, "escape", now).(prison := None)
    ensures res.outcome.Failed? ==> res.account == FailurePenalty(Stamp(a, "escape", now), a.prison.value.tier)
  {
    var cd := Cooldown(a, "escape", ESCAPE_COOLDOWN, now);
    if !cd.ready then EscapeResult(OnCooldown(cd.remaining), a)
    else if a.prison.None? then EscapeResult(NotInPrison, a)
    else
      var stamped := Stamp(a, "escape", now);
      var name := a.prison.value.tier;
      var t := TierNamed(name);
      if t.None? then EscapeResult(CorruptTier(name), stamped)
      else if name == JAEGER_CAMP then EscapeResult(JaegerBoxes, stamped)
      else
        var chance := EscapeChance(t.value, stamped);
        if roll <= chance then EscapeResult(Escaped(chance), stamped.(prison := None))
        else EscapeResult(Failed(chance), FailurePenalty(stamped, name))
  }

  /** Every rolled tier gives a chance between 5 and 75; an unhurt Officer Group prisoner gets 75. */
  lemma EscapeChanceRange(a: Account, roll: int, now: int)
    ensures var o := EscapeRule(a, roll, now).outcome;
            o.Escaped? || o.Failed? ==> MIN_ESCAPE_CHANCE <= o.chance <= 75
    ensures var o := EscapeRule(a, roll, now).outcome;
            Rolls(a, now) && a.prison.value.tier == OFFICER_GROUP && a.injuries <= 0 ==> o.chance == 75
    ensures var o := EscapeRule(a, roll, now).outcome;
            Rolls(a, now) && a.prison.value.tier == MORTICIAN_WING && a.injured && a.injuries >= 4 ==>
              o.chance == MIN_ESCAPE_CHANCE
  {
  }

  /**
   * A failed escape keeps the member in the same tier, never pays, never
   * shortens the sentence or heals, and keeps injured == (injuries > 0).
   */
  lemma EscapeFailureKeepsSentence(a: Account, roll: int, now: int)
    requires a.injuries >= 0 && InjuryConsistent(a)
    ensures var res := EscapeRule(a, roll, now);
            res.outcome.Failed? ==>
              res.account.prison.Some? && res.account.prison.value.tier == a.prison.value.tier &&
              res.account.prison.value.releaseTime >= a.prison.value.releaseTime &&
              res.account.pockets == a.pockets && res.account.savings <= a.savings &&
              a.savings - res.account.savings <= 20 &&
              res.account.injuries >= a.injuries && InjuryConsistent(res.account)
  {
  }

  /** An attempt stamps the cooldown, so a second /escape at the same instant is turned away. */
  lemma EscapeBlocksRetry(a: Account, roll: int, roll2: int, now: int)
    ensures var res := EscapeRule(a, roll, now);
            Attempts(a, now) ==> EscapeRule(res.account, roll2, now).outcome == OnCooldown(ESCAPE_COOLDOWN)
  {
  }

  /** The ledger steps of a failed escape: savings fines, injuries and the Rook extension. */
  method ApplyFailurePenalty(l: Ledger, m: Member, name: string)
    requires m.key in l.doc
    modifies l
    ensures l.doc == old(l.doc)[m.key := FailurePenalty(old(l.doc)[m.key], name)]
  {
    if name == OLD_GUARDS {
      var _ := UpdateSavings(l, m, -5);
    } else if name == SOLDAT_BRIGADE {
      var _ := UpdateSavings(l, m, -10);
    } else if name == LANCER_LEGION {
      var _ := UpdateSavings(l, m, -15);
      var status := InjurySystem.GetInjuryStatus(l, m);
      if status.tier != InjurySystem.CRITICAL {
        var _ := InjurySystem.AddInjury(l, m);
      }
    } else if name == ROOK_DIVISION {
      var _ := ExtendPrisonTime(l, m.key, ROOK_EXTENSION);
      var status := InjurySystem.GetInjuryStatus(l, m);
      if status.tier != InjurySystem.CRITICAL {
        var _ := InjurySystem.AddInjury(l, m);
      }
    } else if name == MORTICIAN_WING {
      var status := InjurySystem.GetInjuryStatus(l, m);
      if status.tier == InjurySystem.CRITICAL {
        var _ := UpdateSavings(l, m, -20);
      } else if status.tier == InjurySystem.SURGERY {
        l.Put(m.key, l.doc[m.key].(injuries := 4, injured := true));
      } else {
        l.Put(m.key, l.doc[m.key].(injuries := 3, injured := true));
      }
    }
  }

  /** /escape on the ledger. */
  method Escape(l: Ledger, m: Member, roll: int, now: int) returns (o: EscapeOutcome)
    modifies l
    ensures var res := EscapeRule(UserOf(old(l.doc), m, l.startingBalance), roll, now);
            o == res.outcome && l.doc == old(l.doc)[m.key := res.account]
  {
    var cd := CheckCooldown(l, m, "escape", ESCAPE_COOLDOWN, now);
    if !cd.ready {
      return OnCooldown(cd.remaining);
    }
    var a := l.GetUserData(m);
    if a.prison.None? {
      return NotInPrison;
    }
    SetCooldown(l, m, "escape", now);
    var name := a.prison.value.tier;
    var t := TierNamed(name);
    if t.None? {
      return CorruptTier(name);
    }
    if name == JAEGER_CAMP {
      return JaegerBoxes;
    }
    var chance := Max(MIN_ESCAPE_CHANCE, t.value.escapeChance + PrisonEscapeModifier(l.doc, m.key));
    if roll <= chance {
      l.Put(m.key, l.doc[m.key].(prison := None));
      return Escaped(chance);
    }
    ApplyFailurePenalty(l, m, name);
    o := Failed(chance);
  }
}
