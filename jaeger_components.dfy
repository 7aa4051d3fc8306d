/**
 * The Jaeger Camp escape: four boxes hiding death, injury, healing and a
 * broken watch in a shuffled order. Only the prisoner may open one; the
 * view closes after the first box.
 */
module JaegerEscape {
  import opened Records
  import opened DataService
  import opened EconomyBase
  import PrisonSystem
  import InjurySystem

  /** The view gives up after 30 minutes. */
  const VIEW_TIMEOUT: int := 1800
  /** The flat charge when a quarter of savings is not at least one medal. */
  const FLAT_DEATH_PENALTY: int := 75
  const INJURY_EXTENSION: int := 1800
  const WATCH_EXTENSION: int := 900
  const HEAL_PRICE: int := 20

  datatype JaegerOutcome = Death | Injury | Heal | BrokenWatch

  /** The outcomes before shuffling. */
  const OUTCOMES: seq<JaegerOutcome> := [Death, Injury, Heal, BrokenWatch]

  /** A shuffle of the four outcomes over the four buttons. */
  predicate IsShuffle(s: seq<JaegerOutcome>)
  {
    multiset(s) == multiset(OUTCOMES)
  }

  /** A shuffle puts each outcome behind exactly one of four buttons. */
  lemma ShuffleIsPermutation(s: seq<JaegerOutcome>)
    requires IsShuffle(s)
    ensures |s| == 4
    ensures forall o: JaegerOutcome :: o in s
    ensures forall i, j :: 0 <= i < j < |s| ==> s[i] != s[j]
  {
    assert |s| == |multiset(s)| == |multiset(OUTCOMES)| == 4;
    forall o: JaegerOutcome
      ensures o in s
    {
      assert o in OUTCOMES by {
        match o
        case Death => assert OUTCOMES[0] == o;
        case Injury => assert OUTCOMES[1] == o;
        case Heal => assert OUTCOMES[2] == o;
        case BrokenWatch => assert OUTCOMES[3] == o;
      }
      assert multiset(s)[o] == multiset(OUTCOMES)[o] > 0;
    }
  }

  /**
   * The death charge on savings: a quarter of them, or the flat 75 when
   * savings are not positive or the quarter is not at least one medal.
   */
  function DeathPenalty(savings: int): (p: int)
    ensures savings >= 4 ==> 4 * p <= savings < 4 * (p + 1) && p >= 1
    ensures savings < 4 ==> p == FLAT_DEATH_PENALTY
  {
    if savings <= 0 || savings / 4 <= 0 then FLAT_DEATH_PENALTY else savings / 4
  }

  /**
   * Killed by the Jaegers: pockets emptied, the death charge taken from
   * savings, and then freed and healed.
   */
  function Slain(a: Account): (r: Account)
    ensures r.pockets == 0 && r.savings == a.savings - DeathPenalty(a.savings)
    ensures r.prison.None? && r.injuries == 0 && InjuryConsistent(r)
    ensures r.(pockets := a.pockets, savings := a.savings, prison := a.prison,
               injuries := a.injuries, injured := a.injured) == a
  {
    a.(pockets := 0, savings := a.savings - DeathPenalty(a.savings), prison := None, injuries := 0, injured := false)
  }

  /** A member with at least 4 savings keeps three quarters of them; a poorer one goes 75 into debt at most. */
  lemma SlainSavings(a: Account)
    requires a.savings >= 0
    ensures a.savings >= 4 ==> Slain(a).savings >= 0 && 4 * Slain(a).savings >= 3 * a.savings
    ensures a.savings < 4 ==> Slain(a).savings == a.savings - 75 && Slain(a).savings >= -75
  {
  }

  /** A sentence, if any, pushed back by the given number of seconds. */
  function Extended(a: Account, seconds: int): (r: Account)
    ensures a.prison.None? ==> r == a
    ensures a.prison.Some? ==>
              r == a.(prison := Some(a.prison.value.(releaseTime := a.prison.value.releaseTime + seconds)))
  {
    if a.prison.Some? then a.(prison := Some(a.prison.value.(releaseTime := a.prison.value.releaseTime + seconds)))
    else a
  }

  /** One injury fewer, floored at 0, with injured kept as injuries > 0; nothing for an unhurt member. */
  function OneHealed(a: Account): (r: Account)
    ensures a.injuries <= 0 ==> r == a
    ensures a.injuries > 0 ==> r == a.(injuries := a.injuries - 1, injured := a.injuries - 1 > 0)
  {
    if a.injuries > 0 then a.(injuries := Max(0, a.injuries - 1), injured := Max(0, a.injuries - 1) > 0) else a
  }

  /**
   * The prisoner's record after opening a box. A lucky death (the 45% roll)
   * only frees; the injury box adds one injury short of Critical Condition
   * and 30 minutes; the heal box costs 20 savings and one injury; the
   * watch adds 15 minutes.
   */
  function BoxRule(a: Account, o: JaegerOutcome, lucky: bool): (r: Account)
    ensures o == Death && lucky ==> r == a.(prison := None)
    ensures o == Death && !lucky ==> r == Slain(a)
    ensures o == Injury ==>
              r == Extended(if a.injuries < 4 then InjurySystem.Injure(a) else a, INJURY_EXTENSION)
    ensures o == Heal ==> r == OneHealed(a.(savings := a.savings - HEAL_PRICE))
    ensures o == BrokenWatch ==> r == Extended(a, WATCH_EXTENSION)
  {
    match o
    case Death => if lucky then a.(prison := None) else Slain(a)
    case Injury =>
      var hurt := if InjurySystem.TierOf(a.injuries).name != InjurySystem.CRITICAL then InjurySystem.Injure(a) else a;
      Extended(hurt, INJURY_EXTENSION)
    case Heal => OneHealed(AddSavings(a, -HEAL_PRICE))
    case BrokenWatch => Extended(a, WATCH_EXTENSION)
  }

  /**
   * Only the death box can end the sentence; the others keep the prisoner
   * in the same tier no sooner than before, and every box keeps
   * injured == (injuries > 0).
   */
  lemma BoxesKeepSentence(a: Account, o: JaegerOutcome, lucky: bool)
    requires a.prison.Some? && a.injuries >= 0 && InjuryConsistent(a)
    ensures var r := BoxRule(a, o, lucky);
            InjuryConsistent(r) && (r.prison.None? <==> o == Death)
    ensures var r := BoxRule(a, o, lucky);
            o != Death ==>
              r.prison.value.tier == a.prison.value.tier &&
              r.prison.value.releaseTime >= a.prison.value.releaseTime && r.pockets == a.pockets
    ensures o == BrokenWatch ==> BoxRule(a, o, lucky).prison.value.releaseTime == a.prison.value.releaseTime + 900
    ensures o == Injury ==> BoxRule(a, o, lucky).injuries == if a.injuries < 4 then a.injuries + 1 else a.injuries
  {
  }

  /** The ledger steps of a Jaeger death: empty pockets, charge savings, then free and heal. */
  method ApplyDeath(l: Ledger, m: Member)
    modifies l
    ensures l.doc == old(l.doc)[m.key := Slain(UserOf(old(l.doc), m, l.startingBalance))]
  {
    var pockets := GetPockets(l, m);
    var _ := UpdatePockets(l, m, -pockets);
    var savings := GetSavings(l, m);
    var _ := UpdateSavings(l, m, -DeathPenalty(savings));
    if m.key in l.doc {
      l.Put(m.key, l.doc[m.key].(prison := None, injuries := 0, injured := false));
    }
  }

  class EscapeJaegerView {
    /** The prisoner who opened the view; nobody else may pick. */
    const user: Member
    /** outcomes[i] is behind button i (Green, Blue, Yellow, Purple). */
    const outcomes: seq<JaegerOutcome>
    /** The view stopped after a pick. */
    var done: bool

    predicate Valid()
      reads this
    {
      IsShuffle(outcomes)
    }

    constructor (user: Member, shuffled: seq<JaegerOutcome>)
      requires IsShuffle(shuffled)
      ensures Valid() && this.user == user && outcomes == shuffled && !done
    {
      this.user := user;
      outcomes := shuffled;
      done := false;
    }

    /**
     * A press on button i. Anyone but the prisoner is turned away with no
     * change. The view is opened by /escape for a member whose record holds
     * the sentence, so the record is present.
     */
    method Press(l: Ledger, actor: string, button: int, lucky: bool) returns (o: Option<JaegerOutcome>)
      requires Valid() && !done && 0 <= button < |outcomes| && user.key in l.doc
      modifies this, l
      ensures Valid()
      ensures actor != user.key ==> o.None? && l.doc == old(l.doc) && !done
      ensures actor == user.key ==>
                o == Some(outcomes[button]) && done &&
                l.doc == old(l.doc)[user.key := BoxRule(old(l.doc)[user.key], outcomes[button], lucky)]
    {
      if actor != user.key {
        return None;
      }
      var outcome := outcomes[button];
      var _ := l.GetUserData(user);
      match outcome {
        case Death =>
          if lucky {
            l.Put(user.key, l.doc[user.key].(prison := None));
          } else {
            ApplyDeath(l, user);
          }
        case Injury =>
          var status := InjurySystem.GetInjuryStatus(l, user);
          if status.tier != InjurySystem.CRITICAL {
            var _ := InjurySystem.AddInjury(l, user);
          }
          var _ := PrisonSystem.ExtendPrisonTime(l, user.key, INJURY_EXTENSION);
        case Heal =>
          var _ := UpdateSavings(l, user, -HEAL_PRICE);
          var status := InjurySystem.GetInjuryStatus(l, user);
          if status.injuries > 0 {
            var a := l.doc[user.key];
            l.Put(user.key, a.(injuries := Max(0, a.injuries - 1), injured := Max(0, a.injuries - 1) > 0));
          }
        case BrokenWatch =>
          var _ := PrisonSystem.ExtendPrisonTime(l, user.key, WATCH_EXTENSION);
      }
      done := true;
      o := Some(outcome);
    }

    /**
     * on_timeout as written: the handler reads an attribute the view never
     * sets, the error is swallowed, and nothing changes.
     */
    method OnTimeoutAsWritten(l: Ledger)
      requires !done
      ensures l.doc == old(l.doc)
    {
    }

    /** on_timeout as intended: the prisoner who walked away dies in the camp. */
    method OnTimeout(l: Ledger)
      requires !done
      modifies l
      ensures l.doc == old(l.doc)[user.key := Slain(UserOf(old(l.doc), user, l.startingBalance))]
    {
      ApplyDeath(l, user);
    }
  }

  /** For a prisoner with medals the intended timeout changes the record, so the as-written no-op loses the penalty. */
  lemma TimeoutPenaltyLost(a: Account)
    requires a.prison.Some? || a.pockets != 0 || a.injuries != 0
    ensures Slain(a) != a
  {
  }
}
