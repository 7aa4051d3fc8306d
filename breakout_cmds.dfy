/**
 * /breakout: a free member tries to spring another member from prison.
 * The helper's eligibility, the target's sentence and the breakout
 * cooldown are checked in turn; the target's tier then picks the mini-game.
 */
module BreakoutCmds {
  import opened Records
  import opened DataService
  import opened EconomyBase
  import opened PrisonSystem
  import ChallengeRegistry

  /** The mini-game each tier opens. */
  datatype MiniGame = OfficerDoor | OldGuardsKey | SoldatDoors | LancerDoors | RookLockpick | MorticianBottles | JaegerPath

  /** The mini-game for a tier name; none for a name outside the tier table. */
  function GameFor(tier: string): (g: Option<MiniGame>)
    ensures g.Some? <==> TierNamed(tier).Some?
    ensures tier == JAEGER_CAMP ==> g == Some(JaegerPath)
  {
    if tier == OFFICER_GROUP then Some(OfficerDoor)
    else if tier == OLD_GUARDS then Some(OldGuardsKey)
    else if tier == SOLDAT_BRIGADE then Some(SoldatDoors)
    else if tier == LANCER_LEGION then Some(LancerDoors)
    else if tier == ROOK_DIVISION then Some(RookLockpick)
    else if tier == MORTICIAN_WING then Some(MorticianBottles)
    else if tier == JAEGER_CAMP then Some(JaegerPath)
    else None
  }

  /** Different tiers open different games. */
  lemma GameForIsInjective(t1: string, t2: string)
    ensures GameFor(t1).Some? && GameFor(t1) == GameFor(t2) ==> t1 == t2
  {
  }

  /** Every game belongs to some tier of the table. */
  lemma EveryGameHasATier(g: MiniGame)
    ensures exists t :: t in TierNamesOf(PRISON_TIERS) && GameFor(t) == Some(g)
  {
    var i := match g
      case OfficerDoor => 0
      case OldGuardsKey => 1
      case SoldatDoors => 2
      case LancerDoors => 3
      case RookLockpick => 4
      case MorticianBottles => 5
      case JaegerPath => 6;
    var t := PRISON_TIERS[i].name;
    assert t in TierNamesOf(PRISON_TIERS);
    assert GameFor(t) == Some(g);
  }

  function TierNamesOf(ts: seq<PrisonTier>): set<string>
  {
    set t | t in ts :: t.name
  }

  datatype BreakoutOutcome =
    | HelperImprisoned
    | HelperInChallenge
    | SelfTarget
    | BotTarget
    | TargetNotInPrison
    | OnCooldown(remaining: int)
    | UnknownTier(tier: string)
    | Opened(game: MiniGame)
    | Crashed

  datatype BreakoutResult = BreakoutResult(outcome: BreakoutOutcome, doc: Document)

  /** The helper passes the helper-side checks and names another, human member. */
  predicate ValidRequest(doc: Document, helper: Member, target: Member, inChallenge: bool, sb: int)
  {
    UserOf(doc, helper, sb).prison.None? && !inChallenge && target.key != helper.key && !target.isBot
  }

  /** A valid request whose target holds a sentence (expired or not). */
  predicate TargetHeld(doc: Document, helper: Member, target: Member, inChallenge: bool, sb: int)
  {
    ValidRequest(doc, helper, target, inChallenge, sb) && UserOf(doc, target, sb).prison.Some?
  }

  /**
   * The intended /breakout flow: the helper's prison and challenge checks,
   * the self and bot guards, the target's record (created when absent) and
   * sentence, the cooldown (stamped when it passes), then the game of the
   * target's tier.
   */
  function BreakoutRule(doc: Document, helper: Member, target: Member, inChallenge: bool, sb: int, now: int)
    : (res: BreakoutResult)
    ensures var h := UserOf(doc, helper, sb);
            (res.outcome == HelperImprisoned <==> h.prison.Some?) &&
            (res.outcome == HelperInChallenge <==> h.prison.None? && inChallenge) &&
            (res.outcome == SelfTarget <==> h.prison.None? && !inChallenge && target.key == helper.key) &&
            (res.outcome == BotTarget <==>
               h.prison.None? && !inChallenge && target.key != helper.key && target.isBot)
    ensures !ValidRequest(doc, helper, target, inChallenge, sb) ==>
              res.doc == doc[helper.key := UserOf(doc, helper, sb)]
    ensures res.outcome == TargetNotInPrison <==>
              ValidRequest(doc, helper, target, inChallenge, sb) && UserOf(doc, target, sb).prison.None?
    ensures res.outcome.OnCooldown? <==>
              TargetHeld(doc, helper, target, inChallenge, sb) &&
              !Cooldown(UserOf(doc, helper, sb), "breakout", BREAKOUT_COOLDOWN, now).ready
    ensures ValidRequest(doc, helper, target, inChallenge, sb) && (res.outcome == TargetNotInPrison || res.outcome.OnCooldown?) ==>
              res.doc == doc[helper.key := UserOf(doc, helper, sb)][target.key := UserOf(doc, target, sb)]
    ensures res.outcome.Opened? || res.outcome.UnknownTier? <==>
              TargetHeld(doc, helper, target, inChallenge, sb) &&
              Cooldown(UserOf(doc, helper, sb), "breakout", BREAKOUT_COOLDOWN, now).ready
    ensures res.outcome.Opened? || res.outcome.UnknownTier? ==>
              var tier := UserOf(doc, target, sb).prison.value.tier;
              (res.outcome.Opened? ==> GameFor(tier) == Some(res.outcome.game)) &&
              (res.outcome.UnknownTier? <==> GameFor(tier).None?) &&
              res.doc == doc[target.key := UserOf(doc, target, sb)]
                            [helper.key := Stamp(UserOf(doc, helper, sb), "breakout", now)]
    ensures res.outcome != Crashed
  {
    var h := UserOf(doc, helper, sb);
    var d1 := doc[helper.key := h];
    if h.prison.Some? then BreakoutResult(HelperImprisoned, d1)
    else if inChallenge then BreakoutResult(HelperInChallenge, d1)
    else if target.key == helper.key then BreakoutResult(SelfTarget, d1)
    else if target.isBot then BreakoutResult(BotTarget, d1)
    else TargetStage(d1, helper, target, sb, now)
  }

  /**
   * The steps after the helper-side checks, on a document that already
   * holds the helper's record: the target's record and sentence, the
   * cooldown, then the game.
   */
  function TargetStage(doc: Document, helper: Member, target: Member, sb: int, now: int): (res: BreakoutResult)
    requires helper.key in doc
    ensures var t := UserOf(doc, target, sb);
            var cd := Cooldown(doc[helper.key], "breakout", BREAKOUT_COOLDOWN, now);
            (res.outcome == TargetNotInPrison <==> t.prison.None?) &&
            (res.outcome.OnCooldown? <==> t.prison.Some? && !cd.ready) &&
            (res.outcome == TargetNotInPrison || res.outcome.OnCooldown? ==> res.doc == doc[target.key := t]) &&
            (res.outcome.Opened? || res.outcome.UnknownTier? <==> t.prison.Some? && cd.ready)
    ensures var t := UserOf(doc, target, sb);
            res.outcome.Opened? || res.outcome.UnknownTier? ==>
              (res.outcome.Opened? ==> GameFor(t.prison.value.tier) == Some(res.outcome.game)) &&
              (res.outcome.UnknownTier? <==> GameFor(t.prison.value.tier).None?) &&
              res.doc == doc[target.key := t][helper.key := Stamp(doc[helper.key], "breakout", now)]
    ensures res.outcome.TargetNotInPrison? || res.outcome.OnCooldown? || res.outcome.Opened? || res.outcome.UnknownTier?
  {
    var h := doc[helper.key];
    var d2 := doc[target.key := UserOf(doc, target, sb)];
    var held := d2[target.key].prison;
    if held.None? then BreakoutResult(TargetNotInPrison, d2)
    else
      var cd := Cooldown(h, "breakout", BREAKOUT_COOLDOWN, now);
      if !cd.ready then BreakoutResult(OnCooldown(cd.remaining), d2)
      else
        var d3 := d2[helper.key := Stamp(h, "breakout", now)];
        match GameFor(held.value.tier)
        case None => BreakoutResult(UnknownTier(held.value.tier), d3)
        case Some(g) => BreakoutResult(Opened(g), d3)
  }

  /** Opening a game stamps the cooldown: the same request again at once is refused for the full window. */
  lemma BreakoutOncePerWindow(doc: Document, helper: Member, target: Member, inChallenge: bool, sb: int, now: int)
    ensures var res := BreakoutRule(doc, helper, target, inChallenge, sb, now);
            res.outcome.Opened? ==>
              BreakoutRule(res.doc, helper, target, inChallenge, sb, now).outcome == OnCooldown(BREAKOUT_COOLDOWN)
  {
  }

  /** No breakout request moves medals or changes anyone's sentence. */
  lemma BreakoutMovesNoMedals(doc: Document, helper: Member, target: Member, inChallenge: bool, sb: int, now: int, k: string)
    requires k in doc
    ensures var d := BreakoutRule(doc, helper, target, inChallenge, sb, now).doc;
            k in d && d[k].pockets == doc[k].pockets && d[k].savings == doc[k].savings &&
            d[k].prison == doc[k].prison && d[k].injuries == doc[k].injuries
  {
  }

  /** /breakout on the ledger, with the intended helper checks. */
  method Breakout(l: Ledger, reg: ChallengeRegistry.Manager, helper: Member, target: Member, now: int)
    returns (o: BreakoutOutcome)
    modifies l
    ensures var res := BreakoutRule(old(l.doc), helper, target, reg.IsInChallenge(helper.key), l.startingBalance, now);
            o == res.outcome && l.doc == res.doc
  {
    var free := CheckPrisonStatus(l, helper);
    if !free {
      return HelperImprisoned;
    }
    var allowed := CheckBalanceChallenge(reg, helper);
    if !allowed {
      return HelperInChallenge;
    }
    if target.key == helper.key {
      return SelfTarget;
    }
    if target.isBot {
      return BotTarget;
    }
    o := OpenGame(l, helper, target, now);
  }

  /** The target-side steps of /breakout, once the helper's record exists. */
  method OpenGame(l: Ledger, helper: Member, target: Member, now: int) returns (o: BreakoutOutcome)
    requires helper.key in l.doc
    modifies l
    ensures var res := TargetStage(old(l.doc), helper, target, l.startingBalance, now);
            o == res.outcome && l.doc == res.doc
  {
    var loaded := l.doc;
    if target.key !in loaded {
      var created := l.GetUserData(target);
    }
    var held := l.doc[target.key].prison;
    if held.None? {
      return TargetNotInPrison;
    }
    var _ := CheckCooldown(l, helper, "breakout", BREAKOUT_COOLDOWN, now);
    var cd := CheckCooldown(l, helper, "breakout", BREAKOUT_COOLDOWN, now);
    if !cd.ready {
      return OnCooldown(cd.remaining);
    }
    SetCooldown(l, helper, "breakout", now);
    var g := GameFor(held.value.tier);
    if g.None? {
      return UnknownTier(held.value.tier);
    }
    o := Opened(g.value);
  }

  /**
   * /breakout as written: the first guard calls a helper the command's
   * base class does not define, so every invocation fails before any
   * state is read or written.
   */
  method BreakoutAsWritten(l: Ledger, reg: ChallengeRegistry.Manager, helper: Member, target: Member, now: int)
    returns (o: BreakoutOutcome)
    ensures o == Crashed && l.doc == old(l.doc)
  {
    o := Crashed;
  }

  /** A helper who is free and off cooldown, asking for a prisoner of the Officer Group, would open a game. */
  lemma EligibleHelperOpensGame()
    ensures var target := Member("2", "target", false);
            var doc := map[target.key := CreateDefaultUser("2", Some("target"), 50)
                                           .(prison := Some(Prison(OFFICER_GROUP, 5000)))];
            BreakoutRule(doc, Member("1", "helper", false), target, false, 50, 1000).outcome == Opened(OfficerDoor)
  {
    var target := Member("2", "target", false);
    var helper := Member("1", "helper", false);
    var doc := map[target.key := CreateDefaultUser("2", Some("target"), 50).(prison := Some(Prison(OFFICER_GROUP, 5000)))];
    assert helper.key != target.key;
    assert helper.key !in doc;
    DefaultAccountReady("1", Some("helper"), 50, "breakout", BREAKOUT_COOLDOWN, 1000);
  }
}
