/**
 * The breakout mini-games, one view per prison tier. Only the helper who
 * ran /breakout may play. A game ends either with the target freed or with
 * the helper caught and jailed in the target's tier for an hour; the Jaeger
 * path can instead lead on to the Jaeger boxes.
 */
module BreakoutViews {
  import opened Records
  import opened DataService
  import opened EconomyBase
  import opened PrisonSystem
  import InjurySystem
  import JaegerEscape

  /** How one press on a mini-game ended. */
  datatype Press = NotTheHelper | Freed | Caught | Continue | ToBoxes

  /** The success branch of every game: the target's sentence, if present, is cleared. */
  function FreeTarget(doc: Document, key: string): Document
  {
    if key in doc && doc[key].prison.Some? then doc[key := doc[key].(prison := None)] else doc
  }

  /** The failure branch: the helper, created if absent, serves an hour in the tier. */
  function Jail(doc: Document, helper: Member, tier: string, now: int, sb: int): Document
  {
    doc[helper.key := UserOf(doc, helper, sb).(prison := Some(Prison(tier, now + PRISON_COOLDOWN)))]
  }

  /** Jailed and then given one injury, as the Lancer and Rook failures do. */
  function JailHurt(doc: Document, helper: Member, tier: string, now: int, sb: int): Document
  {
    var d := Jail(doc, helper, tier, now, sb);
    d[helper.key := InjurySystem.Injure(d[helper.key])]
  }

  /**
   * Each ending touches one side only. Freeing changes nothing but the
   * target's sentence; jailing changes nothing but the helper's record,
   * which then holds an hour in the tier (and one more injury after
   * JailHurt).
   */
  lemma EndingsTouchOneSide(doc: Document, helper: Member, target: string, tier: string, now: int, sb: int, k: string)
    ensures var d := FreeTarget(doc, target);
            d.Keys == doc.Keys && (k in doc && k != target ==> d[k] == doc[k]) &&
            (target in doc ==> d[target].prison.None? && d[target].(prison := doc[target].prison) == doc[target])
    ensures var d := Jail(doc, helper, tier, now, sb);
            d.Keys == doc.Keys + {helper.key} && (k in doc && k != helper.key ==> d[k] == doc[k]) &&
            d[helper.key].prison == Some(Prison(tier, now + PRISON_COOLDOWN)) &&
            d[helper.key].(prison := UserOf(doc, helper, sb).prison) == UserOf(doc, helper, sb)
    ensures var d := JailHurt(doc, helper, tier, now, sb);
            d.Keys == doc.Keys + {helper.key} && (k in doc && k != helper.key ==> d[k] == doc[k]) &&
            d[helper.key].prison == Some(Prison(tier, now + PRISON_COOLDOWN)) &&
            d[helper.key].injuries == UserOf(doc, helper, sb).injuries + 1 && d[helper.key].injured &&
            d[helper.key].pockets == UserOf(doc, helper, sb).pockets &&
            d[helper.key].savings == UserOf(doc, helper, sb).savings
  {
  }

  method FreeTargetOn(l: Ledger, key: string)
    modifies l
    ensures l.doc == FreeTarget(old(l.doc), key)
  {
    var _ := ReleaseFromPrison(l, key);
  }

  method JailOn(l: Ledger, helper: Member, tier: string, now: int)
    modifies l
    ensures l.doc == Jail(old(l.doc), helper, tier, now, l.startingBalance)
  {
    var a := l.GetUserData(helper);
    l.doc := l.doc[helper.key := a.(prison := Some(Prison(tier, now + PRISON_COOLDOWN)))];
  }

  method JailHurtOn(l: Ledger, helper: Member, tier: string, now: int)
    modifies l
    ensures l.doc == JailHurt(old(l.doc), helper, tier, now, l.startingBalance)
  {
    JailOn(l, helper, tier, now);
    var _ := InjurySystem.AddInjury(l, helper);
  }

  // ---------------------------------------------------------------------
  // Officer Group and Old Guards: one button, one roll.
  // ---------------------------------------------------------------------

  /** The chance of a guard-tier breakout: the tier's base chance plus the helper's injury debuff, at least 5. */
  function GuardChance(t: PrisonTier, doc: Document, helperKey: string): (c: int)
    ensures c >= 5 && c <= Max(5, t.escapeChance)
    ensures c >= t.escapeChance - 25
  {
    Max(5, t.escapeChance + PrisonEscapeModifier(doc, helperKey))
  }

  /** An Officer Group breakout succeeds 50 to 75 times in 100; an Old Guards one 40 to 65. */
  lemma GuardChanceRanges(doc: Document, helperKey: string)
    ensures 50 <= GuardChance(PRISON_TIERS[0], doc, helperKey) <= 75
    ensures 40 <= GuardChance(PRISON_TIERS[1], doc, helperKey) <= 65
    ensures helperKey !in doc ==> GuardChance(PRISON_TIERS[0], doc, helperKey) == 75
  {
  }

  class GuardsView {
    const helper: Member
    const target: string
    const tier: PrisonTier
    var done: bool

    predicate Valid()
      reads this
    {
      (tier == PRISON_TIERS[0] || tier == PRISON_TIERS[1]) && helper.key != target
    }

    constructor (helper: Member, target: string, tier: PrisonTier)
      requires (tier == PRISON_TIERS[0] || tier == PRISON_TIERS[1]) && helper.key != target
      ensures Valid() && !done && this.helper == helper && this.target == target && this.tier == tier
    {
      this.helper := helper;
      this.target := target;
      this.tier := tier;
      done := false;
    }

    /** The door (or key) button: roll 1..100 against the chance. */
    method Press(l: Ledger, actor: string, roll: int, now: int) returns (p: Press)
      requires Valid() && !done
      modifies this, l
      ensures Valid()
      ensures actor != helper.key ==> p == NotTheHelper && l.doc == old(l.doc) && !done
      ensures actor == helper.key ==>
                done && (p == Freed <==> roll <= GuardChance(tier, old(l.doc), helper.key)) &&
                (p == Freed ==> l.doc == FreeTarget(old(l.doc), target)) &&
                (p != Freed ==> p == Caught && l.doc == Jail(old(l.doc), helper, tier.name, now, l.startingBalance))
    {
      if actor != helper.key {
        return NotTheHelper;
      }
      var chance := GuardChance(tier, l.doc, helper.key);
      if roll <= chance {
        FreeTargetOn(l, target);
        p := Freed;
      } else {
        JailOn(l, helper, tier.name, now);
        p := Caught;
      }
      done := true;
    }
  }

  // ---------------------------------------------------------------------
  // Soldat Brigade: two doors, one hides the target.
  // ---------------------------------------------------------------------

  class SoldatView {
    const helper: Member
    const target: string
    const correctDoor: int
    var done: bool

    predicate Valid()
      reads this
    {
      1 <= correctDoor <= 2 && helper.key != target
    }

    constructor (helper: Member, target: string, correctDoor: int)
      requires 1 <= correctDoor <= 2 && helper.key != target
      ensures Valid() && !done && this.helper == helper && this.target == target && this.correctDoor == correctDoor
    {
      this.helper := helper;
      this.target := target;
      this.correctDoor := correctDoor;
      done := false;
    }

    method Press(l: Ledger, actor: string, choice: int, now: int) returns (p: Press)
      requires Valid() && !done && 1 <= choice <= 2
      modifies this, l
      ensures Valid()
      ensures actor != helper.key ==> p == NotTheHelper && l.doc == old(l.doc) && !done
      ensures actor == helper.key ==>
                done && (p == Freed <==> choice == correctDoor) &&
                (p == Freed ==> l.doc == FreeTarget(old(l.doc), target)) &&
                (p != Freed ==> p == Caught && l.doc == Jail(old(l.doc), helper, SOLDAT_BRIGADE, now, l.startingBalance))
    {
      if actor != helper.key {
        return NotTheHelper;
      }
      if choice == correctDoor {
        FreeTargetOn(l, target);
        p := Freed;
      } else {
        JailOn(l, helper, SOLDAT_BRIGADE, now);
        p := Caught;
      }
      done := true;
    }
  }

  // ---------------------------------------------------------------------
  // Lancer Legion: four doors, and a second chance among the other three.
  // ---------------------------------------------------------------------

  /** The doors offered after a wrong first pick: 1..4 without the one chosen, in order. */
  function OtherDoors(choice: int): (r: seq<int>)
    requires 1 <= choice <= 4
    ensures |r| == 3 && choice !in r
    ensures forall d :: d in r <==> 1 <= d <= 4 && d != choice
    ensures forall i, j :: 0 <= i < j < |r| ==> r[i] < r[j]
  {
    if choice == 1 then [2, 3, 4]
    else if choice == 2 then [1, 3, 4]
    else if choice == 3 then [1, 2, 4]
    else [1, 2, 3]
  }

  datatype LancerStage = FirstPick | SecondPick(excluded: int)

  class LancerView {
    const helper: Member
    const target: string
    var correctDoor: int
    var stage: LancerStage
    var done: bool

    predicate Valid()
      reads this
    {
      helper.key != target && 1 <= correctDoor <= 4 &&
      (stage.SecondPick? ==> 1 <= stage.excluded <= 4 && correctDoor in OtherDoors(stage.excluded))
    }

    constructor (helper: Member, target: string, correctDoor: int)
      requires 1 <= correctDoor <= 4 && helper.key != target
      ensures Valid() && !done && stage == FirstPick && this.correctDoor == correctDoor
      ensures this.helper == helper && this.target == target
    {
      this.helper := helper;
      this.target := target;
      this.correctDoor := correctDoor;
      stage := FirstPick;
      done := false;
    }

    /** The first pick among four doors; a miss re-draws the correct door among the other three. */
    method PickFirst(l: Ledger, actor: string, choice: int, redraw: int) returns (p: Press)
      requires Valid() && !done && stage == FirstPick && 1 <= choice <= 4 && redraw in OtherDoors(choice)
      modifies this, l
      ensures Valid()
      ensures actor != helper.key ==>
                p == NotTheHelper && l.doc == old(l.doc) && !done && stage == FirstPick && correctDoor == old(correctDoor)
      ensures actor == helper.key && choice == old(correctDoor) ==>
                p == Freed && done && l.doc == FreeTarget(old(l.doc), target)
      ensures actor == helper.key && choice != old(correctDoor) ==>
                p == Continue && !done && stage == SecondPick(choice) && correctDoor == redraw && l.doc == old(l.doc)
    {
      if actor != helper.key {
        return NotTheHelper;
      }
      if choice == correctDoor {
        FreeTargetOn(l, target);
        done := true;
        p := Freed;
      } else {
        correctDoor := redraw;
        stage := SecondPick(choice);
        p := Continue;
      }
    }

    /** The second pick among the three other doors; a miss jails and injures the helper. */
    method PickSecond(l: Ledger, actor: string, choice: int, now: int) returns (p: Press)
      requires Valid() && !done && stage.SecondPick? && choice in OtherDoors(stage.excluded)
      modifies this, l
      ensures Valid()
      ensures actor != helper.key ==> p == NotTheHelper && l.doc == old(l.doc) && !done
      ensures actor == helper.key ==>
                done && (p == Freed <==> choice == correctDoor) &&
                (p == Freed ==> l.doc == FreeTarget(old(l.doc), target)) &&
                (p != Freed ==> p == Caught && l.doc == JailHurt(old(l.doc), helper, LANCER_LEGION, now, l.startingBalance))
    {
      if actor != helper.key {
        return NotTheHelper;
      }
      if choice == correctDoor {
        FreeTargetOn(l, target);
        p := Freed;
      } else {
        JailHurtOn(l, helper, LANCER_LEGION, now);
        p := Caught;
      }
      done := true;
    }
  }

  // ---------------------------------------------------------------------
  // Rook Division: a three-pin lock and a lockpick that breaks after four misses.
  // ---------------------------------------------------------------------

  const LOCKPICK_DURABILITY: int := 4
  const PIN_COUNT: int := 3

  /** A lock: the pin order, the pick's durability, the pins set so far. */
  datatype Lock = Lock(secret: seq<int>, durability: int, currentPin: int, solved: seq<int>)

  /** Three distinct pins drawn from 1..4. */
  predicate IsSecret(s: seq<int>)
  {
    |s| == PIN_COUNT && (forall i :: 0 <= i < |s| ==> 1 <= s[i] <= 4) &&
    (forall i, j :: 0 <= i < j < |s| ==> s[i] != s[j])
  }

  /** The set pins are exactly the first currentPin pins of the secret. */
  predicate LockValid(k: Lock)
  {
    IsSecret(k.secret) && 0 <= k.currentPin <= PIN_COUNT && k.solved == k.secret[..k.currentPin] &&
    k.durability <= LOCKPICK_DURABILITY
  }

  /** Still being picked: pins left to set and the pick unbroken. */
  predicate Picking(k: Lock)
  {
    LockValid(k) && k.currentPin < PIN_COUNT && k.durability > 0
  }

  /** Pins still to set plus picks left: every press spends one. */
  function Effort(k: Lock): int
  {
    (PIN_COUNT - k.currentPin) + k.durability
  }

  function FreshLock(secret: seq<int>): (k: Lock)
    requires IsSecret(secret)
    ensures Picking(k) && Effort(k) == 7
  {
    Lock(secret, LOCKPICK_DURABILITY, 0, [])
  }

  /**
   * One pin press, on a button still offered (a pin not yet set). The
   * right pin sets it; a wrong one costs one durability.
   */
  function PickPin(k: Lock, pin: int): (r: Lock)
    requires Picking(k) && 1 <= pin <= 4 && pin !in k.solved
    ensures LockValid(r) && r.secret == k.secret
    ensures Effort(r) == Effort(k) - 1
    ensures pin == k.secret[k.currentPin] <==> r.currentPin == k.currentPin + 1
    ensures pin == k.secret[k.currentPin] ==> r.durability == k.durability
    ensures pin != k.secret[k.currentPin] ==> r.currentPin == k.currentPin && r.durability == k.durability - 1
  {
    if pin == k.secret[k.currentPin] then
      assert k.secret[..k.currentPin + 1] == k.secret[..k.currentPin] + [pin];
      k.(solved := k.solved + [pin], currentPin := k.currentPin + 1)
    else
      k.(durability := k.durability - 1)
  }

  /**
   * A lock in play always has an unset pin on offer and at least one
   * wrong pin to press, and it opens or breaks within its remaining effort
   * less one presses (at most six from fresh).
   */
  lemma PickingHasChoices(k: Lock)
    requires Picking(k)
    ensures k.secret[k.currentPin] !in k.solved
    ensures exists pin :: 1 <= pin <= 4 && pin !in k.solved && pin != k.secret[k.currentPin]
    ensures 2 <= Effort(k) <= PIN_COUNT + LOCKPICK_DURABILITY
  {
    var s := k.secret;
    var c := k.currentPin;
    assert s == [s[0], s[1], s[2]];
    assert s[c] !in k.solved by {
      forall i | 0 <= i < c ensures k.solved[i] != s[c] {
        assert k.solved[i] == s[i];
      }
    }
    // Three distinct pins out of four leave exactly one pin outside the secret.
    var w := if 1 !in s then 1 else if 2 !in s then 2 else if 3 !in s then 3 else 4;
    assert w !in s;
    assert w !in k.solved by {
      forall i | 0 <= i < c ensures k.solved[i] != w {
        assert k.solved[i] == s[i];
      }
    }
    assert 1 <= w <= 4 && w != s[c];
  }

  class RookView {
    const helper: Member
    const target: string
    const correctSequence: seq<int>
    var lockpickDurability: int
    var currentPin: int
    var solvedPins: seq<int>
    var done: bool

    /** The view's fields as a lock. */
    function State(): Lock
      reads this
    {
      Lock(correctSequence, lockpickDurability, currentPin, solvedPins)
    }

    predicate Valid()
      reads this
    {
      helper.key != target && LockValid(State()) && (!done ==> Picking(State()))
    }

    constructor (helper: Member, target: string, secret: seq<int>)
      requires IsSecret(secret) && helper.key != target
      ensures Valid() && !done && State() == FreshLock(secret)
      ensures this.helper == helper && this.target == target
    {
      this.helper := helper;
      this.target := target;
      correctSequence := secret;
      lockpickDurability := LOCKPICK_DURABILITY;
      currentPin := 0;
      solvedPins := [];
      done := false;
    }

    /**
     * A press on pin button `pin` (only pins not yet set are offered). The
     * lock opens once all three pins are set; the pick breaks at durability
     * 0 and the helper is jailed and injured.
     */
    method Press(l: Ledger, actor: string, pin: int, now: int) returns (p: Press)
      requires Valid() && !done && 1 <= pin <= 4 && pin !in solvedPins
      modifies this, l
      ensures Valid()
      ensures actor != helper.key ==> p == NotTheHelper && l.doc == old(l.doc) && !done && State() == old(State())
      ensures actor == helper.key ==>
                State() == PickPin(old(State()), pin) &&
                (p == Freed <==> currentPin >= PIN_COUNT) &&
                (p == Caught <==> lockpickDurability <= 0) &&
                (done <==> p != Continue) &&
                (p == Freed ==> l.doc == FreeTarget(old(l.doc), target)) &&
                (p == Caught ==> l.doc == JailHurt(old(l.doc), helper, ROOK_DIVISION, now, l.startingBalance)) &&
                (p == Continue ==> l.doc == old(l.doc))
    {
      if actor != helper.key {
        return NotTheHelper;
      }
      if pin == correctSequence[currentPin] {
        assert correctSequence[..currentPin + 1] == correctSequence[..currentPin] + [pin];
        solvedPins := solvedPins + [pin];
        currentPin := currentPin + 1;
        if currentPin >= |correctSequence| {
          FreeTargetOn(l, target);
          done := true;
          p := Freed;
        } else {
          p := Continue;
        }
      } else {
        lockpickDurability := lockpickDurability - 1;
        if lockpickDurability <= 0 {
          JailHurtOn(l, helper, ROOK_DIVISION, now);
          done := true;
          p := Caught;
        } else {
          p := Continue;
        }
      }
    }
  }

  // ---------------------------------------------------------------------
  // Mortician Wing: six bottles, one holds Amatoxin.
  // ---------------------------------------------------------------------

  const BOTTLES: seq<string> := ["red", "blue", "green", "purple", "yellow", "brown"]

  /** Each element appears at most once. */
  predicate Distinct(s: seq<string>)
  {
    forall i, j :: 0 <= i < j < |s| ==> s[i] != s[j]
  }

  /** list.remove: the first occurrence of x dropped. */
  function Remove(s: seq<string>, x: string): (r: seq<string>)
    requires x in s
    ensures |r| == |s| - 1
    ensures multiset(r) == multiset(s) - multiset{x}
  {
    if s[0] == x then
      assert s == [s[0]] + s[1..];
      s[1..]
    else
      assert s == [s[0]] + s[1..];
      [s[0]] + Remove(s[1..], x)
  }

  /** Removing from a list without repeats leaves a list without repeats that lacks x and keeps every other element. */
  lemma {:induction false} RemoveDistinct(s: seq<string>, x: string)
    requires x in s && Distinct(s)
    ensures Distinct(Remove(s, x)) && x !in Remove(s, x)
    ensures forall y :: y in Remove(s, x) <==> y in s && y != x
  {
    var r := Remove(s, x);
    if s[0] == x {
      assert r == s[1..];
      forall i | 1 <= i < |s| ensures s[i] != x {
        assert s[0] != s[i];
      }
    } else {
      var t := s[1..];
      assert x in t by {
        var k :| 0 <= k < |s| && s[k] == x;
        assert t[k - 1] == x;
      }
      RemoveDistinct(t, x);
      var rt := Remove(t, x);
      assert r == [s[0]] + rt;
      assert s[0] !in rt by {
        forall i | 0 <= i < |t| ensures t[i] != s[0] {
          assert s[i + 1] == t[i];
        }
      }
      forall y ensures y in s <==> y == s[0] || y in t {
        assert s == [s[0]] + t;
      }
    }
  }

  lemma BottlesDistinct()
    ensures Distinct(BOTTLES) && |BOTTLES| == 6
  {
  }

  /** The record of a helper who drank the Amatoxin: jailed for an hour and set to Needs Surgery. */
  function Poisoned(doc: Document, helper: Member, now: int, sb: int): Document
  {
    var d := Jail(doc, helper, MORTICIAN_WING, now, sb);
    d[helper.key := d[helper.key].(injuries := 3, injured := true)]
  }

  class MorticianView {
    const helper: Member
    const target: string
    /** The bottle that holds Amatoxin after the drugs were shuffled over the six bottles. */
    const amatoxin: string
    var remaining: seq<string>
    var done: bool

    predicate Valid()
      reads this
    {
      helper.key != target && amatoxin in BOTTLES && Distinct(remaining) &&
      (forall b :: b in remaining ==> b in BOTTLES) &&
      (!done ==> amatoxin in remaining && |remaining| >= 2)
    }

    constructor (helper: Member, target: string, amatoxin: string)
      requires amatoxin in BOTTLES && helper.key != target
      ensures Valid() && !done && remaining == BOTTLES && this.amatoxin == amatoxin
      ensures this.helper == helper && this.target == target
    {
      this.helper := helper;
      this.target := target;
      this.amatoxin := amatoxin;
      remaining := BOTTLES;
      done := false;
      BottlesDistinct();
    }

    /**
     * A press on one of the bottles still offered. Amatoxin ends the game
     * with the helper jailed in Needs Surgery; a safe bottle is removed,
     * and the target is freed once only the Amatoxin is left.
     */
    method Press(l: Ledger, actor: string, color: string, now: int) returns (p: Press)
      requires Valid() && !done && color in remaining
      modifies this, l
      ensures Valid()
      ensures actor != helper.key ==> p == NotTheHelper && l.doc == old(l.doc) && !done && remaining == old(remaining)
      ensures actor == helper.key && color == amatoxin ==>
                p == Caught && done && l.doc == Poisoned(old(l.doc), helper, now, l.startingBalance)
      ensures actor == helper.key && color != amatoxin ==>
                remaining == Remove(old(remaining), color) && |remaining| == |old(remaining)| - 1 &&
                (p == Freed <==> |old(remaining)| == 2) && (done <==> p == Freed) &&
                (p == Freed ==> remaining == [amatoxin] && l.doc == FreeTarget(old(l.doc), target)) &&
                (p != Freed ==> p == Continue && l.doc == old(l.doc))
    {
      if actor != helper.key {
        return NotTheHelper;
      }
      if color == amatoxin {
        JailOn(l, helper, MORTICIAN_WING, now);
        var a := l.doc[helper.key];
        l.Put(helper.key, a.(injuries := 3, injured := true));
        done := true;
        return Caught;
      }
      RemoveDistinct(remaining, color);
      remaining := Remove(remaining, color);
      if |remaining| == 1 && remaining[0] == amatoxin {
        FreeTargetOn(l, target);
        done := true;
        p := Freed;
      } else {
        p := Continue;
      }
    }
  }

  /** Five safe bottles in a row are needed: the remaining list shrinks by one per safe pick from six. */
  lemma MorticianNeedsFiveSafePicks(remaining: seq<string>, amatoxin: string)
    requires Distinct(remaining) && amatoxin in remaining
    ensures remaining == [amatoxin] <==> |remaining| == 1
  {
    if |remaining| == 1 {
      assert remaining[0] == amatoxin;
    }
  }

  // ---------------------------------------------------------------------
  // Jaeger Camp, first stage: eight steps along the path.
  // ---------------------------------------------------------------------

  const PATH_CHANCE: int := 48
  const PATH_MIN_CHANCE: int := 8
  const PATH_LENGTH: int := 8

  /** The chance that a step is safe: 48 plus the helper's injury debuff, at least 8. */
  function PathChance(doc: Document, helperKey: string): (c: int)
    ensures 23 <= c <= PATH_CHANCE
    ensures c == PATH_CHANCE + PrisonEscapeModifier(doc, helperKey)
  {
    Max(PATH_MIN_CHANCE, PATH_CHANCE + PrisonEscapeModifier(doc, helperKey))
  }

  /**
   * A bad step: the status read creates the helper's record when absent,
   * so the injury always lands on it.
   */
  function Hurt(doc: Document, helper: Member, sb: int): Document
  {
    doc[helper.key := InjurySystem.Injure(UserOf(doc, helper, sb))]
  }

  /** A bad step leads to the boxes exactly when it takes the helper to Critical Condition. */
  predicate FallsCritical(doc: Document, helper: Member, sb: int)
  {
    InjurySystem.TierOf(Hurt(doc, helper, sb)[helper.key].injuries) == InjurySystem.INJURY_TIERS[3]
  }

  /**
   * A bad step adds exactly one injury to the helper, whose record exists
   * afterwards, and reaches Critical Condition exactly from three injuries
   * on; a helper with no record gets a fresh one with its first injury.
   */
  lemma HurtAddsOneInjury(doc: Document, helper: Member, sb: int, k: string)
    ensures var d := Hurt(doc, helper, sb);
            d.Keys == doc.Keys + {helper.key} && (k in doc && k != helper.key ==> d[k] == doc[k]) &&
            d[helper.key].injuries == UserOf(doc, helper, sb).injuries + 1 && d[helper.key].injured
    ensures helper.key !in doc ==> Hurt(doc, helper, sb)[helper.key].injuries == 1
    ensures FallsCritical(doc, helper, sb) <==> UserOf(doc, helper, sb).injuries >= 3
  {
  }

  class JaegerPathView {
    const helper: Member
    const target: string
    var pathCount: int
    var done: bool

    predicate Valid()
      reads this
    {
      helper.key != target && 0 <= pathCount <= PATH_LENGTH && (!done ==> pathCount < PATH_LENGTH)
    }

    constructor (helper: Member, target: string)
      requires helper.key != target
      ensures Valid() && !done && pathCount == 0 && this.helper == helper && this.target == target
    {
      this.helper := helper;
      this.target := target;
      pathCount := 0;
      done := false;
    }

    /**
     * One step along the path (left, straight and right behave alike). The
     * eighth step frees the target whatever the roll; before that a roll
     * above the chance injures the helper and, at Critical Condition,
     * leads on to the boxes.
     */
    method Press(l: Ledger, actor: string, roll: int, now: int) returns (p: Press)
      requires Valid() && !done
      modifies this, l
      ensures Valid()
      ensures actor != helper.key ==> p == NotTheHelper && l.doc == old(l.doc) && !done && pathCount == old(pathCount)
      ensures actor == helper.key ==>
                pathCount == old(pathCount) + 1 && (done <==> p == Freed || p == ToBoxes) &&
                (p == Freed <==> pathCount == PATH_LENGTH) &&
                (p == Freed ==> l.doc == FreeTarget(old(l.doc), target))
      ensures actor == helper.key && pathCount < PATH_LENGTH ==>
                (roll <= PathChance(old(l.doc), helper.key) ==> p == Continue && l.doc == old(l.doc)) &&
                (roll > PathChance(old(l.doc), helper.key) ==>
                   l.doc == Hurt(old(l.doc), helper, l.startingBalance) &&
                   (p == ToBoxes <==> FallsCritical(old(l.doc), helper, l.startingBalance)) &&
                   (p != ToBoxes ==> p == Continue))
    {
      if actor != helper.key {
        return NotTheHelper;
      }
      var chance := PathChance(l.doc, helper.key);
      pathCount := pathCount + 1;
      if pathCount >= PATH_LENGTH {
        FreeTargetOn(l, target);
        done := true;
        return Freed;
      }
      if roll <= chance {
        return Continue;
      }
      var _ := InjurySystem.GetInjuryStatus(l, helper);
      var _ := InjurySystem.AddInjury(l, helper);
      var status := InjurySystem.GetInjuryStatus(l, helper);
      if status.tier == InjurySystem.CRITICAL {
        done := true;
        p := ToBoxes;
      } else {
        p := Continue;
      }
    }
  }

  // ---------------------------------------------------------------------
  // Jaeger Camp, second stage: four boxes.
  // ---------------------------------------------------------------------

  datatype BoxOutcome = Knife | BrokenWatch | MedicalSupplies | JokerCard

  /** The outcomes before shuffling over Green, Blue, Yellow and Purple. */
  const BOX_OUTCOMES: seq<BoxOutcome> := [Knife, BrokenWatch, MedicalSupplies, JokerCard]

  predicate IsBoxShuffle(s: seq<BoxOutcome>)
  {
    multiset(s) == multiset(BOX_OUTCOMES)
  }

  /** A shuffle puts each outcome behind exactly one of the four boxes. */
  lemma BoxShuffleIsPermutation(s: seq<BoxOutcome>)
    requires IsBoxShuffle(s)
    ensures |s| == 4
    ensures forall o: BoxOutcome :: o in s
    ensures forall i, j :: 0 <= i < j < |s| ==> s[i] != s[j]
  {
    assert |s| == |multiset(s)| == |multiset(BOX_OUTCOMES)| == 4;
    forall o: BoxOutcome
      ensures o in s
    {
      assert o in BOX_OUTCOMES by {
        match o
        case Knife => assert BOX_OUTCOMES[0] == o;
        case BrokenWatch => assert BOX_OUTCOMES[1] == o;
        case MedicalSupplies => assert BOX_OUTCOMES[2] == o;
        case JokerCard => assert BOX_OUTCOMES[3] == o;
      }
      assert multiset(s)[o] == multiset(BOX_OUTCOMES)[o] > 0;
    }
  }

  const KNIFE_DEBT: int := 75
  const WATCH_EXTENSION: int := 900

  /** The knife's charge on the target's savings: 75 when savings are not positive, else a quarter (which may be 0). */
  function KnifeTax(savings: int): (t: int)
    ensures savings <= 0 ==> t == KNIFE_DEBT
    ensures savings > 0 ==> 0 <= t && 4 * t <= savings < 4 * (t + 1)
  {
    if savings <= 0 then KNIFE_DEBT else savings / 4
  }

  /** The target killed by the knife: pockets emptied, savings charged, freed and healed. */
  function Stabbed(a: Account): Account
  {
    a.(pockets := 0, savings := a.savings - KnifeTax(a.savings), prison := None, injuries := 0, injured := false)
  }

  /** Back in the Jaeger Camp for an hour from now. */
  function InCamp(a: Account, now: int): Account
  {
    a.(prison := Some(Prison(JAEGER_CAMP, now + PRISON_COOLDOWN)))
  }

  /** A held member's sentence pushed back; anyone else untouched. */
  function ExtendHeld(doc: Document, key: string, seconds: int): Document
  {
    if key in doc then doc[key := JaegerEscape.Extended(doc[key], seconds)] else doc
  }

  /** A present member healed by one injury. */
  function HealPresent(doc: Document, key: string): Document
  {
    if key in doc then doc[key := JaegerEscape.OneHealed(doc[key])] else doc
  }

  /**
   * The document after a box is opened. The helper's record is created
   * first. The knife kills the target when `knifeKills` (the 55% roll) and
   * the target has a record, else it frees both; the watch returns the
   * helper to the camp and adds 15 minutes to both sentences; the medical
   * supplies return the helper to the camp and heal both by one; the joker
   * injures the target (when present) and returns the helper to the camp.
   */
  function BoxesRule(doc: Document, helper: Member, target: Member, o: BoxOutcome, knifeKills: bool, now: int, sb: int)
    : (d: Document)
    requires helper.key != target.key
    ensures d.Keys == doc.Keys + {helper.key}
    ensures forall k :: k in doc && k != helper.key && k != target.key ==> d[k] == doc[k]
    ensures !(o == Knife && !knifeKills) && (target.key in doc || o == BrokenWatch || o == MedicalSupplies) ==>
              d[helper.key].prison.Some? && d[helper.key].prison.value.tier == JAEGER_CAMP &&
              d[helper.key].prison.value.releaseTime ==
                now + PRISON_COOLDOWN + (if o == BrokenWatch then WATCH_EXTENSION else 0)
    ensures o == Knife && !knifeKills ==>
              d[helper.key].prison.None? && (target.key in doc ==> d[target.key].prison.None?)
    ensures o == Knife && knifeKills && target.key in doc ==>
              d[target.key] == Stabbed(doc[target.key])
    ensures o == BrokenWatch && target.key in doc ==> d[target.key] == JaegerEscape.Extended(doc[target.key], WATCH_EXTENSION)
    ensures o == MedicalSupplies && target.key in doc ==> d[target.key] == JaegerEscape.OneHealed(doc[target.key])
    ensures o == JokerCard && target.key in doc ==> d[target.key] == InjurySystem.Injure(doc[target.key])
    ensures target.key !in doc ==> target.key !in d
  {
    var d0 := doc[helper.key := UserOf(doc, helper, sb)];
    match o
    case Knife =>
      if knifeKills then
        if target.key in d0 then d0[target.key := Stabbed(d0[target.key])][helper.key := InCamp(d0[helper.key], now)]
        else d0
      else FreeTarget(FreeTarget(d0, helper.key), target.key)
    case BrokenWatch =>
      var d1 := d0[helper.key := InCamp(d0[helper.key], now)];
      ExtendHeld(ExtendHeld(d1, helper.key, WATCH_EXTENSION), target.key, WATCH_EXTENSION)
    case MedicalSupplies =>
      var d1 := d0[helper.key := InCamp(d0[helper.key], now)];
      HealPresent(HealPresent(d1, helper.key), target.key)
    case JokerCard =>
      if target.key in d0 then d0[target.key := InjurySystem.Injure(d0[target.key])][helper.key := InCamp(d0[helper.key], now)]
      else d0
  }

  /** No box moves the helper's medals; only the knife moves the target's, and then only downwards or by the flat debt. */
  lemma BoxesMoveOnlyTargetMedals(doc: Document, helper: Member, target: Member, o: BoxOutcome, knifeKills: bool, now: int, sb: int)
    requires helper.key != target.key
    ensures var d := BoxesRule(doc, helper, target, o, knifeKills, now, sb);
            d[helper.key].pockets == UserOf(doc, helper, sb).pockets &&
            d[helper.key].savings == UserOf(doc, helper, sb).savings
    ensures var d := BoxesRule(doc, helper, target, o, knifeKills, now, sb);
            target.key in doc && !(o == Knife && knifeKills) ==>
              d[target.key].pockets == doc[target.key].pockets && d[target.key].savings == doc[target.key].savings
    ensures var d := BoxesRule(doc, helper, target, o, knifeKills, now, sb);
            target.key in doc && o == Knife && knifeKills && doc[target.key].savings >= 0 ==>
              d[target.key].savings <= doc[target.key].savings && d[target.key].savings >= -KNIFE_DEBT
  {
  }

  /** The knife's ledger steps on a present target: empty pockets, charge savings, then free and heal. */
  method Stab(l: Ledger, target: Member)
    requires target.key in l.doc
    modifies l
    ensures l.doc == old(l.doc)[target.key := Stabbed(old(l.doc)[target.key])]
  {
    var pockets := GetPockets(l, target);
    var _ := UpdatePockets(l, target, -pockets);
    var savings := GetSavings(l, target);
    var _ := UpdateSavings(l, target, -KnifeTax(savings));
    var t := l.doc[target.key];
    l.Put(target.key, t.(prison := None, injuries := 0, injured := false));
  }

  method OpenKnife(l: Ledger, helper: Member, target: Member, knifeKills: bool, now: int)
    requires helper.key != target.key
    modifies l
    ensures l.doc == BoxesRule(old(l.doc), helper, target, Knife, knifeKills, now, l.startingBalance)
  {
    var _ := l.GetUserData(helper);
    if knifeKills {
      if target.key in l.doc {
        Stab(l, target);
        l.Put(helper.key, InCamp(l.doc[helper.key], now));
      }
    } else {
      FreeTargetOn(l, helper.key);
      FreeTargetOn(l, target.key);
    }
  }

  method OpenWatch(l: Ledger, helper: Member, target: Member, now: int)
    requires helper.key != target.key
    modifies l
    ensures l.doc == BoxesRule(old(l.doc), helper, target, BrokenWatch, false, now, l.startingBalance)
  {
    ghost var d0 := old(l.doc)[helper.key := UserOf(old(l.doc), helper, l.startingBalance)];
    ghost var d1 := d0[helper.key := InCamp(d0[helper.key], now)];
    var _ := l.GetUserData(helper);
    l.Put(helper.key, InCamp(l.doc[helper.key], now));
    assert l.doc == d1;
    var _ := ExtendPrisonTime(l, helper.key, WATCH_EXTENSION);
    assert l.doc == ExtendHeld(d1, helper.key, WATCH_EXTENSION);
    var _ := ExtendPrisonTime(l, target.key, WATCH_EXTENSION);
    assert l.doc == ExtendHeld(ExtendHeld(d1, helper.key, WATCH_EXTENSION), target.key, WATCH_EXTENSION);
  }

  method OpenMedical(l: Ledger, helper: Member, target: Member, now: int)
    requires helper.key != target.key
    modifies l
    ensures l.doc == BoxesRule(old(l.doc), helper, target, MedicalSupplies, false, now, l.startingBalance)
  {
    var _ := l.GetUserData(helper);
    l.Put(helper.key, InCamp(l.doc[helper.key], now));
    l.Put(helper.key, JaegerEscape.OneHealed(l.doc[helper.key]));
    if target.key in l.doc {
      l.Put(target.key, JaegerEscape.OneHealed(l.doc[target.key]));
    }
  }

  method OpenJoker(l: Ledger, helper: Member, target: Member, now: int)
    requires helper.key != target.key
    modifies l
    ensures l.doc == BoxesRule(old(l.doc), helper, target, JokerCard, false, now, l.startingBalance)
  {
    var _ := l.GetUserData(helper);
    if target.key in l.doc {
      var _ := InjurySystem.AddInjury(l, target);
      l.Put(helper.key, InCamp(l.doc[helper.key], now));
    }
  }

  class JaegerBoxesView {
    const helper: Member
    const target: Member
    /** outcomes[i] is behind box i (Green, Blue, Yellow, Purple). */
    const outcomes: seq<BoxOutcome>
    var done: bool

    predicate Valid()
      reads this
    {
      IsBoxShuffle(outcomes) && helper.key != target.key
    }

    constructor (helper: Member, target: Member, shuffled: seq<BoxOutcome>)
      requires IsBoxShuffle(shuffled) && helper.key != target.key
      ensures Valid() && !done && outcomes == shuffled && this.helper == helper && this.target == target
    {
      this.helper := helper;
      this.target := target;
      outcomes := shuffled;
      done := false;
    }

    method Press(l: Ledger, actor: string, box: int, knifeKills: bool, now: int) returns (p: Option<BoxOutcome>)
      requires Valid() && !done && 0 <= box < |outcomes|
      modifies this, l
      ensures Valid()
      ensures actor != helper.key ==> p.None? && l.doc == old(l.doc) && !done
      ensures actor == helper.key ==>
                p == Some(outcomes[box]) && done &&
                l.doc == BoxesRule(old(l.doc), helper, target, outcomes[box], knifeKills, now, l.startingBalance)
    {
      if actor != helper.key {
        return None;
      }
      var o := outcomes[box];
      match o {
        case Knife => OpenKnife(l, helper, target, knifeKills, now);
        case BrokenWatch => OpenWatch(l, helper, target, now);
        case MedicalSupplies => OpenMedical(l, helper, target, now);
        case JokerCard => OpenJoker(l, helper, target, now);
      }
      done := true;
      p := Some(o);
    }

    /** A helper who leaves the boxes unopened is killed as in the Jaeger escape. */
    method OnTimeout(l: Ledger)
      requires !done
      modifies l
      ensures l.doc == old(l.doc)[helper.key := JaegerEscape.Slain(UserOf(old(l.doc), helper, l.startingBalance))]
    {
      JaegerEscape.ApplyDeath(l, helper);
    }
  }
}
