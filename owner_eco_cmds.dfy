/**
 * The owner's economy terminal: add or remove medals, inspect a member's
 * status, and set injuries, sentences and cooldowns by hand. Every action
 * is refused unless the caller is the owner.
 */
module OwnerEcoCmds {
  import opened Records
  import opened DataService
  import opened EconomyBase
  import InjurySystem
  import PrisonSystem
  import RobCmds

  datatype AdminOutcome = NotOwner | NonPositiveAmount | Changed(balance: int)

  /** add_medals on a record: "pockets" credits pockets, any other account credits savings. */
  function Credited(a: Account, amount: int, account: string): (r: Account)
    ensures Total(r) == Total(a) + amount
    ensures account == "pockets" ==> r == a.(pockets := a.pockets + amount)
    ensures account != "pockets" ==> r == a.(savings := a.savings + amount)
  {
    if account == "pockets" then AddPockets(a, amount) else AddSavings(a, amount)
  }

  /**
   * remove_medals on a record: "pockets" and "savings" debit that balance
   * with no floor; any other account debits pockets first, then savings.
   */
  function Debited(a: Account, amount: int, account: string): (r: Account)
    ensures Total(r) == Total(a) - amount
    ensures account == "pockets" ==> r == a.(pockets := a.pockets - amount)
    ensures account == "savings" ==> r == a.(savings := a.savings - amount)
    ensures account != "pockets" && account != "savings" ==> r == PayPocketsFirst(a, amount) && r.pockets >= 0
  {
    if account == "pockets" then AddPockets(a, -amount)
    else if account == "savings" then AddSavings(a, -amount)
    else PayPocketsFirst(a, amount)
  }

  /** Removing what was just added to the same balance restores the record. */
  lemma CreditDebitRoundTrip(a: Account, amount: int)
    ensures Debited(Credited(a, amount, "pockets"), amount, "pockets") == a
    ensures Debited(Credited(a, amount, "savings"), amount, "savings") == a
  {
  }

  /** /add_medals: positive amounts only; the new balance of the credited account is reported. */
  method AddMedals(l: Ledger, isOwner: bool, target: Member, amount: int, account: string) returns (o: AdminOutcome)
    modifies l
    ensures !isOwner ==> o == NotOwner && l.doc == old(l.doc)
    ensures isOwner && amount <= 0 ==> o == NonPositiveAmount && l.doc == old(l.doc)
    ensures isOwner && amount > 0 ==>
              var a := Credited(UserOf(old(l.doc), target, l.startingBalance), amount, account);
              l.doc == old(l.doc)[target.key := a] &&
              o == Changed(if account == "pockets" then a.pockets else a.savings)
  {
    if !isOwner {
      return NotOwner;
    }
    if amount <= 0 {
      return NonPositiveAmount;
    }
    var a := l.GetUserData(target);
    var updated := Credited(a, amount, account);
    l.Put(target.key, updated);
    o := Changed(if account == "pockets" then updated.pockets else updated.savings);
  }

  /** /remove_medals: positive amounts only; the debited record is saved whatever its sign. */
  method RemoveMedals(l: Ledger, isOwner: bool, target: Member, amount: int, account: string) returns (o: AdminOutcome)
    modifies l
    ensures !isOwner ==> o == NotOwner && l.doc == old(l.doc)
    ensures isOwner && amount <= 0 ==> o == NonPositiveAmount && l.doc == old(l.doc)
    ensures isOwner && amount > 0 ==>
              var a := Debited(UserOf(old(l.doc), target, l.startingBalance), amount, account);
              l.doc == old(l.doc)[target.key := a] &&
              o == Changed(if account == "savings" then a.savings else a.pockets)
  {
    if !isOwner {
      return NotOwner;
    }
    if amount <= 0 {
      return NonPositiveAmount;
    }
    var a := l.GetUserData(target);
    var updated := Debited(a, amount, account);
    l.Put(target.key, updated);
    o := Changed(if account == "savings" then updated.savings else updated.pockets);
  }

  /** The windows the status listing compares against; other commands have none. */
  function CommandWindow(cmd: string): (w: int)
    ensures w >= 0
  {
    if cmd == "work" then 60
    else if cmd == "crime" then 75
    else if cmd == "rob" then RobCmds.ROB_COOLDOWN
    else if cmd == "roulette" then 420
    else if cmd == "escape" then PrisonSystem.ESCAPE_COOLDOWN
    else if cmd == "breakout" then PrisonSystem.BREAKOUT_COOLDOWN
    else 0
  }

  /** The status listing's windows agree with the commands' own cooldown constants. */
  lemma CommandWindowsAgree()
    ensures CommandWindow("rob") == RobCmds.ROB_COOLDOWN && CommandWindow("escape") == PrisonSystem.ESCAPE_COOLDOWN
    ensures CommandWindow("breakout") == PrisonSystem.BREAKOUT_COOLDOWN
  {
  }

  /** Minutes and seconds of a remaining wait. */
  datatype Wait = Wait(minutes: int, seconds: int)

  function WaitOf(remaining: int): (w: Wait)
    ensures w.minutes * 60 + w.seconds == remaining && 0 <= w.seconds < 60
  {
    Wait(remaining / 60, remaining % 60)
  }

  /** Whether a cooldown entry is listed: a non-empty name, a non-zero stamp, still inside its window. */
  predicate Listed(cmd: string, lastUse: int, now: int)
  {
    cmd != "" && lastUse != 0 && now - lastUse < CommandWindow(cmd)
  }

  /** The listing the status shows: every command still cooling down, with its wait. */
  function CoolingDown(cds: map<string, int>, now: int): (r: map<string, Wait>)
    ensures forall c :: c in r <==> c in cds && Listed(c, cds[c], now)
    ensures forall c :: c in r ==> r[c] == WaitOf(CommandWindow(c) - (now - cds[c])) && r[c].minutes * 60 + r[c].seconds > 0
  {
    map c | c in cds && Listed(c, cds[c], now) :: WaitOf(CommandWindow(c) - (now - cds[c]))
  }

  /** The loop over the cooldown table that collects the listing. */
  method ListCooldowns(cds: map<string, int>, now: int) returns (listing: map<string, Wait>)
    ensures listing == CoolingDown(cds, now)
  {
    listing := map[];
    var todo := cds.Keys;
    while todo != {}
      invariant todo <= cds.Keys
      invariant forall c :: c in listing <==> c in cds && c !in todo && Listed(c, cds[c], now)
      invariant forall c :: c in listing ==> listing[c] == WaitOf(CommandWindow(c) - (now - cds[c]))
      decreases |todo|
    {
      var c :| c in todo;
      var lastUse := cds[c];
      if c != "" && lastUse != 0 {
        var elapsed := now - lastUse;
        if elapsed < CommandWindow(c) {
          listing := listing[c := WaitOf(CommandWindow(c) - elapsed)];
        }
      }
      todo := todo - {c};
    }
  }

  datatype PrisonStatus = NotInPrison | Serving(tier: string, hours: int, minutes: int) | SentenceExpired(tier: string)

  /** The prison line: hours and minutes left of a sentence still running. */
  function PrisonStatusOf(p: Option<Prison>, now: int): (s: PrisonStatus)
    ensures p.None? <==> s.NotInPrison?
    ensures s.Serving? ==> p.value.releaseTime > now && s.hours * 3600 + s.minutes * 60 <= p.value.releaseTime - now < s.hours * 3600 + s.minutes * 60 + 60
    ensures s.SentenceExpired? ==> p.value.releaseTime <= now
  {
    match p
    case None => NotInPrison
    case Some(pr) =>
      if pr.releaseTime > now then
        var left := pr.releaseTime - now;
        Serving(pr.tier, left / 3600, (left % 3600) / 60)
      else SentenceExpired(pr.tier)
  }

  datatype Status = Status(pockets: int, savings: int, injury: string, injuries: int, prison: PrisonStatus,
                           cooldowns: map<string, Wait>, robProtection: Option<Wait>)

  /** create_status_embed: balances, injury label, prison line, cooldown listing and rob protection. */
  method StatusOf(a: Account, now: int) returns (s: Status)
    ensures s.pockets == a.pockets && s.savings == a.savings && s.injuries == a.injuries
    ensures s.injury == (if a.injured && a.injuries > 0 then InjurySystem.TierOf(a.injuries).name else InjurySystem.HEALTHY_NAME)
    ensures s.prison == PrisonStatusOf(a.prison, now)
    ensures s.cooldowns == CoolingDown(a.cooldowns, now)
    ensures s.robProtection.Some? <==> a.lastRobbed > 0 && a.lastRobbed + RobCmds.ROB_VICTIM_COOLDOWN - now > 0
    ensures s.robProtection.Some? ==> s.robProtection.value == WaitOf(a.lastRobbed + RobCmds.ROB_VICTIM_COOLDOWN - now)
  {
    var injury := InjurySystem.HEALTHY_NAME;
    if a.injured && a.injuries > 0 {
      var t := InjurySystem.GetInjuryTier(a.injuries);
      injury := t.name;
    }
    var listing := ListCooldowns(a.cooldowns, now);
    var protection: Option<Wait> := None;
    if a.lastRobbed > 0 {
      var remaining := (a.lastRobbed + RobCmds.ROB_VICTIM_COOLDOWN) - now;
      if remaining > 0 {
        protection := Some(WaitOf(remaining));
      }
    }
    s := Status(a.pockets, a.savings, injury, a.injuries, PrisonStatusOf(a.prison, now), listing, protection);
  }

  /** The rob protection the status reports is exactly the victim check's refusal. */
  lemma RobProtectionMatchesVictimCheck(a: Account, now: int)
    requires a.lastRobbed > 0
    ensures (a.lastRobbed + RobCmds.ROB_VICTIM_COOLDOWN - now > 0) <==> !RobCmds.VictimCheck(a, now).ready
  {
  }

  /** Heal Injury: clears the injuries of an existing record; an absent member is left absent. */
  method HealButton(l: Ledger, isOwner: bool, target: Member)
    modifies l
    ensures isOwner && target.key in old(l.doc) ==> l.doc == old(l.doc)[target.key := InjurySystem.Healed(old(l.doc)[target.key])]
    ensures !(isOwner && target.key in old(l.doc)) ==> l.doc == old(l.doc)
  {
    if isOwner && target.key in l.doc {
      l.doc := l.doc[target.key := InjurySystem.Healed(l.doc[target.key])];
    }
  }

  /** One of the four injury buttons: set the count to the tier's level (1..4), creating the record. */
  function WithInjuryLevel(a: Account, level: int): (r: Account)
    requires 1 <= level <= 4
    ensures InjuryConsistent(r)
    ensures InjurySystem.TierOf(r.injuries) == InjurySystem.INJURY_TIERS[level - 1]
  {
    a.(injuries := level, injured := true)
  }

  method SetInjuryLevel(l: Ledger, isOwner: bool, target: Member, level: int)
    requires 1 <= level <= 4
    modifies l
    ensures isOwner ==>
              l.doc == old(l.doc)[target.key := WithInjuryLevel(UserOf(old(l.doc), target, l.startingBalance), level)]
    ensures !isOwner ==> l.doc == old(l.doc)
  {
    if !isOwner {
      return;
    }
    var guild := l.doc;
    if target.key !in guild {
      var a := l.GetUserData(target);
      guild := guild[target.key := a];
    }
    guild := guild[target.key := WithInjuryLevel(guild[target.key], level)];
    l.doc := guild;
  }

  /** Free: clears an existing sentence and reports the tier; otherwise nothing changes. */
  method FreeButton(l: Ledger, isOwner: bool, target: Member) returns (freedFrom: Option<string>)
    modifies l
    ensures var present := isOwner && target.key in old(l.doc) && old(l.doc)[target.key].prison.Some?;
            (freedFrom.Some? <==> present) &&
            (present ==> freedFrom.value == old(l.doc)[target.key].prison.value.tier &&
                         l.doc == old(l.doc)[target.key := old(l.doc)[target.key].(prison := None)]) &&
            (!present ==> l.doc == old(l.doc))
  {
    if !isOwner || target.key !in l.doc || l.doc[target.key].prison.None? {
      return None;
    }
    freedFrom := Some(l.doc[target.key].prison.value.tier);
    l.doc := l.doc[target.key := l.doc[target.key].(prison := None)];
  }

  const PRISON_BUTTON_PREFIX: string := "prison_"

  /** Incarcerate: the tier is the button id after "prison_"; an hour's sentence, creating the record. */
  method IncarcerateButton(l: Ledger, isOwner: bool, target: Member, customId: string, now: int)
    modifies l
    ensures isOwner && HasPrefix(customId, PRISON_BUTTON_PREFIX) ==>
              var tier := customId[|PRISON_BUTTON_PREFIX|..];
              l.doc == old(l.doc)[target.key := UserOf(old(l.doc), target, l.startingBalance).(prison := Some(Prison(tier, now + PrisonSystem.PRISON_COOLDOWN)))]
    ensures !(isOwner && HasPrefix(customId, PRISON_BUTTON_PREFIX)) ==> l.doc == old(l.doc)
  {
    if !isOwner || !HasPrefix(customId, PRISON_BUTTON_PREFIX) {
      return;
    }
    var tier := customId[|PRISON_BUTTON_PREFIX|..];
    var guild := l.doc;
    if target.key !in guild {
      var a := l.GetUserData(target);
      guild := guild[target.key := a];
    }
    guild := guild[target.key := guild[target.key].(prison := Some(Prison(tier, now + PrisonSystem.PRISON_COOLDOWN)))];
    l.doc := guild;
  }

  /** Refresh All: the six known cooldowns at zero (other entries dropped) and no rob protection. */
  function Refreshed(a: Account): (r: Account)
    ensures r.lastRobbed == 0 && r.cooldowns.Keys == COOLDOWN_COMMANDS
    ensures forall c :: c in COOLDOWN_COMMANDS ==> LastUsed(r, c) == 0
    ensures r.(cooldowns := a.cooldowns, lastRobbed := a.lastRobbed) == a
  {
    a.(cooldowns := DefaultCooldowns(), lastRobbed := 0)
  }

  /** After Refresh All every command and the rob protection are ready once the longest window has passed since the epoch. */
  lemma RefreshedIsReady(a: Account, now: int)
    requires now >= 600
    ensures forall c :: c in COOLDOWN_COMMANDS ==> Cooldown(Refreshed(a), c, CommandWindow(c), now).ready
    ensures RobCmds.VictimCheck(Refreshed(a), now).ready
  {
  }

  method RefreshAllButton(l: Ledger, isOwner: bool, target: Member)
    modifies l
    ensures isOwner && target.key in old(l.doc) ==> l.doc == old(l.doc)[target.key := Refreshed(old(l.doc)[target.key])]
    ensures !(isOwner && target.key in old(l.doc)) ==> l.doc == old(l.doc)
  {
    if isOwner && target.key in l.doc {
      l.doc := l.doc[target.key := Refreshed(l.doc[target.key])];
    }
  }

  /** RobVictim: the record's rob protection is cleared. */
  method RobVictimButton(l: Ledger, isOwner: bool, target: Member)
    modifies l
    ensures isOwner && target.key in old(l.doc) ==> l.doc == old(l.doc)[target.key := old(l.doc)[target.key].(lastRobbed := 0)]
    ensures !(isOwner && target.key in old(l.doc)) ==> l.doc == old(l.doc)
    ensures isOwner && target.key in old(l.doc) ==> RobCmds.VictimCheck(l.doc[target.key], RobCmds.ROB_VICTIM_COOLDOWN).ready
  {
    if isOwner && target.key in l.doc {
      l.doc := l.doc[target.key := l.doc[target.key].(lastRobbed := 0)];
    }
  }

  /** _reset_specific_cooldown as intended: one command's stamp set to zero on an existing record. */
  function ResetOne(doc: Document, key: string, cmd: string): (d: Document)
    ensures key in doc ==> d == doc[key := doc[key].(cooldowns := doc[key].cooldowns[cmd := 0])]
    ensures key !in doc ==> d == doc
  {
    if key in doc then doc[key := doc[key].(cooldowns := doc[key].cooldowns[cmd := 0])] else doc
  }

  /** After the intended reset the command is ready again at any time at least one window after the epoch. */
  lemma ResetOneMakesReady(doc: Document, key: string, cmd: string, now: int)
    requires key in doc && now >= CommandWindow(cmd)
    ensures Cooldown(ResetOne(doc, key, cmd)[key], cmd, CommandWindow(cmd), now).ready
    ensures forall c :: c != cmd ==> LastUsed(ResetOne(doc, key, cmd)[key], c) == LastUsed(doc[key], c)
  {
  }

  /**
   * The Work, Crime, Rob, Roulette, Escape and Breakout buttons as written:
   * they call the asynchronous helper without awaiting it, so the helper
   * never runs and the document is unchanged.
   */
  function ResetButtonAsWritten(doc: Document, key: string, cmd: string): (d: Document)
    ensures d == doc
  {
    doc
  }

  /** A member on cooldown stays on cooldown after the owner presses the reset button. */
  lemma ResetButtonAsWrittenKeepsCooldown()
    ensures var a := CreateDefaultUser("7", Some("m"), 50).(cooldowns := map["work" := 100]);
            var doc := map["7" := a];
            !Cooldown(ResetButtonAsWritten(doc, "7", "work")["7"], "work", 60, 120).ready &&
            Cooldown(ResetOne(doc, "7", "work")["7"], "work", 60, 120).ready
  {
  }

  /** The per-command reset as the helper intends it. */
  method ResetSpecificCooldown(l: Ledger, isOwner: bool, target: Member, cmd: string)
    modifies l
    ensures isOwner ==> l.doc == ResetOne(old(l.doc), target.key, cmd)
    ensures !isOwner ==> l.doc == old(l.doc)
  {
    if isOwner && target.key in l.doc {
      var a := l.doc[target.key];
      l.doc := l.doc[target.key := a.(cooldowns := a.cooldowns[cmd := 0])];
    }
  }
}
