/**
 * The mortician: heal every injury for the tier's price, paid from
 * pockets first, unless the member is held in the Mortician Wing or the
 * Jaeger Camp.
 */
module MorticianCmds {
  import opened Records
  import opened DataService
  import opened EconomyBase
  import PrisonSystem
  import InjurySystem

  datatype HealOutcome =
    | MorticiansRefuse
    | JaegersRefuse
    | NotInjured
    | CannotAfford(cost: int, funds: int)
    | NegativePockets
    | Healed(cost: int, tier: string)

  datatype HealResult = HealResult(outcome: HealOutcome, account: Account)

  function HeldIn(a: Account, tier: string): bool
  {
    a.prison.Some? && a.prison.value.tier == tier
  }

  /**
   * see_mortician on the caller's record. Only the two tiers are refused:
   * a member held in any other tier may heal.
   */
  function MorticianRule(a: Account): (res: HealResult)
    ensures res.outcome.Healed? <==>
              !HeldIn(a, PrisonSystem.MORTICIAN_WING) && !HeldIn(a, PrisonSystem.JAEGER_CAMP) &&
              a.injuries > 0 && Total(a) >= InjurySystem.HealCost(a.injuries) && a.pockets >= 0
    ensures !res.outcome.Healed? ==> res.account == a
    ensures res.outcome.Healed? ==>
              res.outcome.cost == InjurySystem.HealCost(a.injuries) &&
              res.outcome.tier == InjurySystem.TierOf(a.injuries).name &&
              res.account == InjurySystem.Healed(PayPocketsFirst(a, res.outcome.cost))
  {
    if HeldIn(a, PrisonSystem.MORTICIAN_WING) then HealResult(MorticiansRefuse, a)
    else if HeldIn(a, PrisonSystem.JAEGER_CAMP) then HealResult(JaegersRefuse, a)
    else if a.injuries <= 0 then HealResult(NotInjured, a)
    else
      var cost := InjurySystem.HealCost(a.injuries);
      if a.pockets + a.savings < cost then HealResult(CannotAfford(cost, a.pockets + a.savings), a)
      else if a.pockets < 0 then HealResult(NegativePockets, a)
      else HealResult(Healed(cost, InjurySystem.TierOf(a.injuries).name), InjurySystem.Healed(PayPocketsFirst(a, cost)))
  }

  /** A heal costs exactly the tier's price, leaves the member healthy and never overdraws. */
  lemma HealingPaysAndCures(a: Account)
    ensures var res := MorticianRule(a);
            res.outcome.Healed? ==>
              Total(res.account) == Total(a) - res.outcome.cost &&
              10 <= res.outcome.cost <= 50 &&
              res.account.injuries == 0 && InjuryConsistent(res.account) &&
              res.account.pockets >= 0 && res.account.prison == a.prison
  {
    var res := MorticianRule(a);
    if res.outcome.Healed? {
      PayPocketsFirstSolvent(a, res.outcome.cost);
    }
  }

  /** The split payment: pockets first, the remainder from savings. */
  method PayFromPocketsFirst(l: Ledger, m: Member, cost: int)
    requires m.key in l.doc
    modifies l
    ensures l.doc == old(l.doc)[m.key := PayPocketsFirst(old(l.doc)[m.key], cost)]
  {
    var pockets := GetPockets(l, m);
    if pockets >= cost {
      var _ := UpdatePockets(l, m, -cost);
    } else {
      var remainder := cost - pockets;
      var _ := UpdatePockets(l, m, -pockets);
      var _ := UpdateSavings(l, m, -remainder);
    }
  }

  /** /see_mortician on the ledger. */
  method SeeMortician(l: Ledger, m: Member) returns (o: HealOutcome)
    modifies l
    ensures var res := MorticianRule(UserOf(old(l.doc), m, l.startingBalance));
            o == res.outcome && l.doc == old(l.doc)[m.key := res.account]
  {
    ghost var a0 := UserOf(l.doc, m, l.startingBalance);
    var loaded := l.doc;
    var a: Account;
    if m.key !in loaded {
      a := l.GetUserData(m);
    } else {
      a := loaded[m.key];
    }
    assert a == a0 && l.doc == old(l.doc)[m.key := a0];
    if HeldIn(a, PrisonSystem.MORTICIAN_WING) {
      return MorticiansRefuse;
    }
    if HeldIn(a, PrisonSystem.JAEGER_CAMP) {
      return JaegersRefuse;
    }
    var status := InjurySystem.GetInjuryStatus(l, m);
    assert l.doc == old(l.doc)[m.key := a0];
    if status.injuries <= 0 {
      return NotInjured;
    }
    var cost := status.healCost;
    var pockets := GetPockets(l, m);
    var savings := GetSavings(l, m);
    assert l.doc == old(l.doc)[m.key := a0];
    if pockets + savings < cost {
      return CannotAfford(cost, pockets + savings);
    }
    if pockets < 0 {
      return NegativePockets;
    }
    PayFromPocketsFirst(l, m, cost);
    assert l.doc == old(l.doc)[m.key := PayPocketsFirst(a0, cost)];
    InjurySystem.HealInjuries(l, m);
    o := Healed(cost, status.tier);
  }
}
