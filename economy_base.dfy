/**
 * The shared economy primitives: balance updates, cooldowns and the two
 * guards every economy command runs first (prison and balance challenge).
 */
module EconomyBase {
  import opened Records
  import opened DataService
  import ChallengeRegistry

  /** The result of check_cooldown: ready, or the seconds still to wait. */
  datatype CooldownCheck = CooldownCheck(ready: bool, remaining: int)

  /** The last use of a command; a missing entry counts as 0. */
  function LastUsed(a: Account, cmd: string): int
  {
    if cmd in a.cooldowns then a.cooldowns[cmd] else 0
  }

  /** check_cooldown on a record: ready once the window has fully elapsed (boundary included). */
  function Cooldown(a: Account, cmd: string, window: int, now: int): (r: CooldownCheck)
    ensures r.ready <==> now - LastUsed(a, cmd) >= window
    ensures r.ready ==> r.remaining == 0
    ensures !r.ready ==> r.remaining > 0 && now + r.remaining == LastUsed(a, cmd) + window
  {
    var elapsed := now - LastUsed(a, cmd);
    if elapsed >= window then CooldownCheck(true, 0) else CooldownCheck(false, window - elapsed)
  }

  /** set_cooldown on a record: the command's last use becomes now, creating the table entry. */
  function Stamp(a: Account, cmd: string, now: int): Account
  {
    a.(cooldowns := a.cooldowns[cmd := now])
  }

  /** Right after set_cooldown, a positive window is not ready and reports the whole window. */
  lemma StampBlocks(a: Account, cmd: string, window: int, now: int)
    requires window > 0
    ensures Cooldown(Stamp(a, cmd, now), cmd, window, now) == CooldownCheck(false, window)
    ensures forall c :: c != cmd ==> Cooldown(Stamp(a, cmd, now), c, window, now) == Cooldown(a, c, window, now)
  {
  }

  /** A fresh account can run every command at any time at least one window past the epoch. */
  lemma DefaultAccountReady(key: string, name: Option<string>, sb: int, cmd: string, window: int, now: int)
    requires now >= window
    ensures Cooldown(CreateDefaultUser(key, name, sb), cmd, window, now).ready
  {
  }

  /** The ledger rule of update_pockets: old + amount, no clamping. */
  function AddPockets(a: Account, amount: int): Account
  {
    a.(pockets := a.pockets + amount)
  }

  /** The ledger rule of update_savings: old + amount, no clamping. */
  function AddSavings(a: Account, amount: int): Account
  {
    a.(savings := a.savings + amount)
  }

  /** Adding then removing the same amount restores the record, through negative balances too. */
  lemma BalanceRoundTrip(a: Account, d: int)
    ensures AddPockets(AddPockets(a, d), -d) == a
    ensures AddSavings(AddSavings(a, d), -d) == a
    ensures Total(AddPockets(a, d)) == Total(a) + d && Total(AddSavings(a, d)) == Total(a) + d
  {
  }

  /** Moving d from pockets to savings (or back) keeps the total. */
  lemma TransferKeepsTotal(a: Account, d: int)
    ensures Total(AddSavings(AddPockets(a, -d), d)) == Total(a)
    ensures Total(AddPockets(AddSavings(a, -d), d)) == Total(a)
  {
  }

  /**
   * Paying an amount from pockets first and the rest from savings, as
   * donate and the mortician do.
   */
  function PayPocketsFirst(a: Account, amount: int): (r: Account)
    ensures Total(r) == Total(a) - amount
    ensures a.pockets >= amount ==> r == a.(pockets := a.pockets - amount)
    ensures a.pockets < amount ==> r == a.(pockets := 0, savings := a.savings - (amount - a.pockets))
  {
    if a.pockets >= amount then AddPockets(a, -amount)
    else AddSavings(AddPockets(a, -a.pockets), -(amount - a.pockets))
  }

  /** With non-negative pockets and enough in total, paying leaves no negative balance behind. */
  lemma PayPocketsFirstSolvent(a: Account, amount: int)
    requires a.pockets >= 0 && amount <= Total(a)
    ensures PayPocketsFirst(a, amount).pockets >= 0
    ensures a.pockets < amount ==> PayPocketsFirst(a, amount).savings >= 0
    ensures a.savings >= 0 ==> PayPocketsFirst(a, amount).savings >= 0
  {
  }

  /** The critical-success settings a payout reads through get_bot_setting. */
  datatype CritSettings = CritSettings(chance: int, minMultiplier: int, maxMultiplier: int)

  /** The defaults work and crime fall back to: 2% chance, 3x to 5x. */
  const DEFAULT_CRIT: CritSettings := CritSettings(2, 3, 5)

  /** A base payout, multiplied when the critical roll (1..100) is within the chance. */
  function CriticalPayout(base: int, critRoll: int, multiplier: int, s: CritSettings): int
  {
    if critRoll <= s.chance then base * multiplier else base
  }

  /** A payout lies between base * min and base * max when critical, and is the base otherwise. */
  lemma CriticalPayoutBounds(base: int, critRoll: int, multiplier: int, s: CritSettings)
    requires base >= 0 && s.minMultiplier <= multiplier <= s.maxMultiplier
    ensures critRoll > s.chance ==> CriticalPayout(base, critRoll, multiplier, s) == base
    ensures critRoll <= s.chance ==>
              base * s.minMultiplier <= CriticalPayout(base, critRoll, multiplier, s) <= base * s.maxMultiplier
  {
    if critRoll <= s.chance {
      MulMonotone(base, s.minMultiplier, multiplier);
      MulMonotone(base, multiplier, s.maxMultiplier);
    }
  }

  lemma MulMonotone(x: int, a: int, b: int)
    requires x >= 0 && a <= b
    ensures x * a <= x * b
  {
  }

  /** get_pockets: the member's pockets (creating the record when absent). */
  method GetPockets(l: Ledger, m: Member) returns (p: int)
    modifies l
    ensures p == UserOf(old(l.doc), m, l.startingBalance).pockets
    ensures l.doc == old(l.doc)[m.key := UserOf(old(l.doc), m, l.startingBalance)]
  {
    var a := l.GetUserData(m);
    p := a.pockets;
  }

  /** get_savings: the member's savings (creating the record when absent). */
  method GetSavings(l: Ledger, m: Member) returns (s: int)
    modifies l
    ensures s == UserOf(old(l.doc), m, l.startingBalance).savings
    ensures l.doc == old(l.doc)[m.key := UserOf(old(l.doc), m, l.startingBalance)]
  {
    var a := l.GetUserData(m);
    s := a.savings;
  }

  /** update_pockets: pockets := old + amount; only that field of that member changes. */
  method UpdatePockets(l: Ledger, m: Member, amount: int) returns (balance: int)
    modifies l
    ensures balance == UserOf(old(l.doc), m, l.startingBalance).pockets + amount
    ensures l.doc == old(l.doc)[m.key := AddPockets(UserOf(old(l.doc), m, l.startingBalance), amount)]
  {
    var a := l.GetUserData(m);
    l.Put(m.key, AddPockets(a, amount));
    balance := a.pockets + amount;
  }

  /** update_savings: savings := old + amount; only that field of that member changes. */
  method UpdateSavings(l: Ledger, m: Member, amount: int) returns (balance: int)
    modifies l
    ensures balance == UserOf(old(l.doc), m, l.startingBalance).savings + amount
    ensures l.doc == old(l.doc)[m.key := AddSavings(UserOf(old(l.doc), m, l.startingBalance), amount)]
  {
    var a := l.GetUserData(m);
    l.Put(m.key, AddSavings(a, amount));
    balance := a.savings + amount;
  }

  /** set_cooldown: record now as the command's last use. */
  method SetCooldown(l: Ledger, m: Member, cmd: string, now: int)
    modifies l
    ensures l.doc == old(l.doc)[m.key := Stamp(UserOf(old(l.doc), m, l.startingBalance), cmd, now)]
  {
    var a := l.GetUserData(m);
    l.Put(m.key, Stamp(a, cmd, now));
  }

  /** check_cooldown: reads (and creates) the record, changes nothing else. */
  method CheckCooldown(l: Ledger, m: Member, cmd: string, window: int, now: int) returns (r: CooldownCheck)
    modifies l
    ensures r == Cooldown(UserOf(old(l.doc), m, l.startingBalance), cmd, window, now)
    ensures l.doc == old(l.doc)[m.key := UserOf(old(l.doc), m, l.startingBalance)]
  {
    var a := l.GetUserData(m);
    r := Cooldown(a, cmd, window, now);
  }

  /** handle_cooldown: stamps the cooldown only when the check passes. */
  method HandleCooldown(l: Ledger, m: Member, cmd: string, window: int, now: int) returns (proceed: bool)
    modifies l
    ensures var a := UserOf(old(l.doc), m, l.startingBalance);
            proceed == Cooldown(a, cmd, window, now).ready &&
            l.doc == old(l.doc)[m.key := if proceed then Stamp(a, cmd, now) else a]
  {
    var r := CheckCooldown(l, m, cmd, window, now);
    if !r.ready {
      return false;
    }
    SetCooldown(l, m, cmd, now);
    proceed := true;
  }

  /** check_prison_status: any sentence blocks, whatever its release time. */
  method CheckPrisonStatus(l: Ledger, m: Member) returns (ok: bool)
    modifies l
    ensures ok <==> UserOf(old(l.doc), m, l.startingBalance).prison.None?
    ensures l.doc == old(l.doc)[m.key := UserOf(old(l.doc), m, l.startingBalance)]
  {
    var a := l.GetUserData(m);
    ok := a.prison.None?;
  }

  /** check_balance_challenge: a member registered in the gauntlet is blocked. */
  method CheckBalanceChallenge(reg: ChallengeRegistry.Manager, m: Member) returns (ok: bool)
    ensures ok <==> !reg.IsInChallenge(m.key)
  {
    ok := !reg.IsInChallenge(m.key);
  }
}
