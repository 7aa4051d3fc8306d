/**
 * Injury tiers and the modifiers derived from them, plus the two
 * operations that change a member's injuries.
 */
module InjurySystem {
  import opened Records
  import opened DataService

  /** The integer effects of a tier (the 1.2 cooldown multiplier is not modelled). */
  datatype Effects = Effects(failRateMod: int, earningPenaltyPct: int, deathChanceMod: int, prisonChanceMod: int)

  datatype InjuryTier = InjuryTier(name: string, healCost: int, threshold: int, effects: Effects)

  const LIGHT: string := "Light Injury"
  const MODERATE: string := "Moderate Injury"
  const SURGERY: string := "Needs Surgery"
  const CRITICAL: string := "Critical Condition"
  const HEALTHY_NAME: string := "Healthy"

  /** INJURY_TIERS in table order (ascending threshold). */
  const INJURY_TIERS: seq<InjuryTier> := [
    InjuryTier(LIGHT, 10, 1, Effects(0, 0, 0, 0)),
    InjuryTier(MODERATE, 15, 2, Effects(10, 0, 0, 0)),
    InjuryTier(SURGERY, 30, 3, Effects(10, 20, 15, 20)),
    InjuryTier(CRITICAL, 50, 4, Effects(25, 20, 25, 30))
  ]

  /** The tier returned below the first threshold: no cost, neutral effects. */
  const HEALTHY: InjuryTier := InjuryTier(HEALTHY_NAME, 0, 0, Effects(0, 0, 0, 0))

  const CRIME_BASE_FAIL: int := 51
  const ROB_BASE_FAIL: int := 55
  const MAX_FAIL_RATE: int := 95
  const DEATH_CHANCE: int := 15
  const INJURY_CHANCE: int := 65
  const PRISON_CHANCE: int := 20

  /** The tier a count of injuries falls in: the highest tier whose threshold it reaches. */
  function TierOf(injuries: int): (t: InjuryTier)
    ensures t == HEALTHY <==> injuries < 1
    ensures injuries >= 1 ==> t in INJURY_TIERS && t.threshold <= injuries
    ensures forall i :: 0 <= i < |INJURY_TIERS| && INJURY_TIERS[i].threshold <= injuries ==>
              INJURY_TIERS[i].threshold <= t.threshold
  {
    if injuries >= 4 then INJURY_TIERS[3]
    else if injuries >= 3 then INJURY_TIERS[2]
    else if injuries >= 2 then INJURY_TIERS[1]
    else if injuries >= 1 then INJURY_TIERS[0]
    else HEALTHY
  }

  /** get_injury_tier: scan the table from the top and return the first tier reached. */
  method GetInjuryTier(injuries: int) returns (t: InjuryTier)
    ensures t == TierOf(injuries)
  {
    var i := |INJURY_TIERS|;
    while i > 0
      invariant 0 <= i <= |INJURY_TIERS|
      invariant forall j :: i <= j < |INJURY_TIERS| ==> injuries < INJURY_TIERS[j].threshold
    {
      i := i - 1;
      if injuries >= INJURY_TIERS[i].threshold {
        return INJURY_TIERS[i];
      }
    }
    t := HEALTHY;
  }

  /** More injuries never mean a cheaper heal or milder modifiers. */
  lemma TierMonotone(m: int, n: int)
    requires m <= n
    ensures TierOf(m).threshold <= TierOf(n).threshold
    ensures TierOf(m).healCost <= TierOf(n).healCost
    ensures TierOf(m).effects.failRateMod <= TierOf(n).effects.failRateMod
    ensures TierOf(m).effects.deathChanceMod <= TierOf(n).effects.deathChanceMod
    ensures TierOf(m).effects.prisonChanceMod <= TierOf(n).effects.prisonChanceMod
  {
  }

  function BaseFailRate(action: string): int
  {
    if action == "crime" then CRIME_BASE_FAIL else if action == "rob" then ROB_BASE_FAIL else 0
  }

  /** get_fail_rate: base rate plus the tier's modifier, capped at 95. */
  function FailRate(action: string, injuries: int): (r: int)
    ensures r <= MAX_FAIL_RATE
    ensures r >= BaseFailRate(action)
    ensures r == BaseFailRate(action) + TierOf(injuries).effects.failRateMod || r == MAX_FAIL_RATE
  {
    var raw := BaseFailRate(action) + TierOf(injuries).effects.failRateMod;
    if raw < MAX_FAIL_RATE then raw else MAX_FAIL_RATE
  }

  /** The cap never bites for the two actions that use it: rob ranges over 55..80, crime over 51..76. */
  lemma FailRateRanges(injuries: int)
    ensures ROB_BASE_FAIL <= FailRate("rob", injuries) <= 80
    ensures CRIME_BASE_FAIL <= FailRate("crime", injuries) <= 76
    ensures FailRate("rob", injuries) == ROB_BASE_FAIL + TierOf(injuries).effects.failRateMod
  {
  }

  function BaseOutcomeChance(kind: string): int
  {
    if kind == "death" then DEATH_CHANCE
    else if kind == "injury" then INJURY_CHANCE
    else if kind == "prison" then PRISON_CHANCE
    else 0
  }

  /**
   * get_outcome_chance: with a member (their injuries given), death and prison
   * add the tier's modifiers; every other kind, and any call without a member,
   * returns the base chance.
   */
  function OutcomeChance(kind: string, injuries: Option<int>): (r: int)
    ensures injuries.Some? && kind == "death" ==> r == DEATH_CHANCE + TierOf(injuries.value).effects.deathChanceMod
    ensures injuries.Some? && kind == "prison" ==> r == PRISON_CHANCE + TierOf(injuries.value).effects.prisonChanceMod
    ensures injuries.None? || (kind != "death" && kind != "prison") ==> r == BaseOutcomeChance(kind)
    ensures r >= BaseOutcomeChance(kind)
  {
    if injuries.Some? then
      var t := TierOf(injuries.value);
      if kind == "death" then BaseOutcomeChance(kind) + t.effects.deathChanceMod
      else if kind == "prison" then BaseOutcomeChance(kind) + t.effects.prisonChanceMod
      else BaseOutcomeChance(kind)
    else BaseOutcomeChance(kind)
  }

  /** get_escape_chance_modifier: a fixed debuff per tier name. */
  function EscapeChanceModifier(injuries: int): (r: int)
    ensures injuries >= 4 ==> r == -25
    ensures injuries == 3 ==> r == -15
    ensures injuries == 2 ==> r == -5
    ensures injuries == 1 ==> r == -3
    ensures injuries < 1 ==> r == 0
  {
    var name := TierOf(injuries).name;
    if name == CRITICAL then -25
    else if name == SURGERY then -15
    else if name == MODERATE then -5
    else if name == LIGHT then -3
    else 0
  }

  /** get_heal_cost: 0/10/15/30/50 by tier. */
  function HealCost(injuries: int): (c: int)
    ensures injuries < 1 ==> c == 0
    ensures injuries == 1 ==> c == 10
    ensures injuries == 2 ==> c == 15
    ensures injuries == 3 ==> c == 30
    ensures injuries >= 4 ==> c == 50
  {
    TierOf(injuries).healCost
  }

  /** One more injury, and the injured flag. */
  function Injure(a: Account): Account
  {
    a.(injuries := a.injuries + 1, injured := true)
  }

  /** All injuries healed. */
  function Healed(a: Account): Account
  {
    a.(injuries := 0, injured := false)
  }

  /** Both operations leave injured == (injuries > 0) and change no other field. */
  lemma InjuryOpsKeepConsistency(a: Account)
    requires a.injuries >= 0
    ensures InjuryConsistent(Injure(a)) && Injure(a).injuries == a.injuries + 1
    ensures InjuryConsistent(Healed(a)) && Healed(a).injuries == 0
    ensures Injure(a).(injuries := a.injuries, injured := a.injured) == a
    ensures Healed(a).(injuries := a.injuries, injured := a.injured) == a
  {
  }

  /**
   * add_injury: one more injury for an existing member, returning the new count.
   * The document is loaded before get_user_data creates a missing record, so
   * for an absent member the record is created and saved and the update then
   * fails on the stale copy (None).
   */
  method AddInjury(l: Ledger, m: Member) returns (count: Option<int>)
    modifies l
    ensures m.key in old(l.doc) ==>
              count == Some(old(l.doc)[m.key].injuries + 1) &&
              l.doc == old(l.doc)[m.key := Injure(old(l.doc)[m.key])]
    ensures m.key !in old(l.doc) ==>
              count == None &&
              l.doc == old(l.doc)[m.key := UserOf(old(l.doc), m, l.startingBalance)]
  {
    var loaded := l.doc;
    var _ := l.GetUserData(m);
    if m.key !in loaded {
      return None;
    }
    var a := Injure(loaded[m.key]);
    l.doc := loaded[m.key := a];
    count := Some(a.injuries);
  }

  /** The record heal_injuries creates for an absent member (savings 50, empty cooldowns). */
  function HealRecord(m: Member): Account
  {
    Account(if IsDigits(m.key) then DecimalValue(m.key) else 0, m.displayName, 0, 50, map[],
            false, 0, None, 0, false)
  }

  /** heal_injuries: injuries 0 and injured false, creating a record when absent. */
  method HealInjuries(l: Ledger, m: Member)
    modifies l
    ensures var a := if m.key in old(l.doc) then old(l.doc)[m.key] else HealRecord(m);
            l.doc == old(l.doc)[m.key := Healed(a)]
    ensures InjuryConsistent(l.doc[m.key]) && l.doc[m.key].injuries == 0
  {
    var guild := l.doc;
    if m.key !in guild {
      guild := guild[m.key := HealRecord(m)];
    }
    guild := guild[m.key := Healed(guild[m.key])];
    l.doc := guild;
  }

  datatype InjuryStatus = InjuryStatus(injuries: int, tier: string, healCost: int, effects: Effects)

  /** get_injury_status: count, tier name, heal cost and effects of the member's tier. */
  method GetInjuryStatus(l: Ledger, m: Member) returns (s: InjuryStatus)
    modifies l
    ensures var a := UserOf(old(l.doc), m, l.startingBalance);
            s == InjuryStatus(a.injuries, TierOf(a.injuries).name, HealCost(a.injuries), TierOf(a.injuries).effects)
    ensures l.doc == old(l.doc)[m.key := UserOf(old(l.doc), m, l.startingBalance)]
  {
    var a := l.GetUserData(m);
    var t := GetInjuryTier(a.injuries);
    s := InjuryStatus(a.injuries, t.name, t.healCost, t.effects);
  }

  /** What /status shows: the served-time notice to a member checking themselves, or the report. */
  datatype StatusView =
    | ServedTime
    | Report(status: InjuryStatus, sentence: Option<Prison>)

  /**
   * /status: fetch (creating) the member's record and injury status; a
   * sentence whose release time has come is cleared on the way, and a member
   * checking themselves is then only told so. The report shows a sentence
   * only while it runs.
   */
  method Status(l: Ledger, member: Member, callerKey: string, now: int) returns (v: StatusView)
    modifies l
    ensures var a := UserOf(old(l.doc), member, l.startingBalance);
            member.key in l.doc && l.doc[member.key].(prison := a.prison) == a &&
            l.doc == old(l.doc)[member.key := l.doc[member.key]]
    ensures var a := UserOf(old(l.doc), member, l.startingBalance);
            l.doc[member.key].prison == (if a.prison.Some? && now >= a.prison.value.releaseTime then None else a.prison)
    ensures l.doc[member.key].prison.Some? ==> now < l.doc[member.key].prison.value.releaseTime
    ensures var a := UserOf(old(l.doc), member, l.startingBalance);
            v.ServedTime? <==> member.key == callerKey && a.prison.Some? && now >= a.prison.value.releaseTime
    ensures var a := UserOf(old(l.doc), member, l.startingBalance);
            v.Report? ==>
              v.status == InjuryStatus(a.injuries, TierOf(a.injuries).name, HealCost(a.injuries), TierOf(a.injuries).effects) &&
              v.sentence == l.doc[member.key].prison
  {
    var a := l.GetUserData(member);
    var status := GetInjuryStatus(l, member);
    if a.prison.Some? {
      if now >= a.prison.value.releaseTime {
        l.doc := l.doc[member.key := l.doc[member.key].(prison := None)];
        if member.key == callerKey {
          return ServedTime;
        }
        return Report(status, None);
      }
      return Report(status, a.prison);
    }
    v := Report(status, None);
  }
}
