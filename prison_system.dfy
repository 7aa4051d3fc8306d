/**
 * Prison tiers, the weighted tier draw, and the operations that put a member
 * in prison, release them, or extend their sentence.
 */
module PrisonSystem {
  import opened Records
  import opened DataService

  datatype PrisonTier = PrisonTier(name: string, weight: int, escapeChance: int)

  const OFFICER_GROUP: string := "Officer Group"
  const OLD_GUARDS: string := "Old Guards"
  const SOLDAT_BRIGADE: string := "Soldat Brigade"
  const LANCER_LEGION: string := "Lancer Legion"
  const ROOK_DIVISION: string := "Rook Division"
  const MORTICIAN_WING: string := "Mortician Wing"
  const JAEGER_CAMP: string := "Jaeger Camp"

  /** PRISON_TIERS: name, draw weight, base escape chance (percent). */
  const PRISON_TIERS: seq<PrisonTier> := [
    PrisonTier(OFFICER_GROUP, 35, 75),
    PrisonTier(OLD_GUARDS, 20, 65),
    PrisonTier(SOLDAT_BRIGADE, 15, 50),
    PrisonTier(LANCER_LEGION, 10, 40),
    PrisonTier(ROOK_DIVISION, 10, 40),
    PrisonTier(MORTICIAN_WING, 5, 25),
    PrisonTier(JAEGER_CAMP, 5, 10)
  ]

  /** The table entry with the given name (the first match; names are distinct). */
  function TierNamed(name: string): (r: Option<PrisonTier>)
    ensures r.Some? ==> r.value in PRISON_TIERS && r.value.name == name
    ensures r.None? ==> forall t :: t in PRISON_TIERS ==> t.name != name
  {
    if name == OFFICER_GROUP then Some(PRISON_TIERS[0])
    else if name == OLD_GUARDS then Some(PRISON_TIERS[1])
    else if name == SOLDAT_BRIGADE then Some(PRISON_TIERS[2])
    else if name == LANCER_LEGION then Some(PRISON_TIERS[3])
    else if name == ROOK_DIVISION then Some(PRISON_TIERS[4])
    else if name == MORTICIAN_WING then Some(PRISON_TIERS[5])
    else if name == JAEGER_CAMP then Some(PRISON_TIERS[6])
    else None
  }

  const PRISON_COOLDOWN: int := 3600
  const ESCAPE_COOLDOWN: int := 120
  const BREAKOUT_COOLDOWN: int := 300
  const TOTAL_WEIGHT: int := 100

  /** Sum of the weights of the first n tiers. */
  function WeightBelow(n: nat): int
    requires n <= |PRISON_TIERS|
  {
    if n == 0 then 0 else WeightBelow(n - 1) + PRISON_TIERS[n - 1].weight
  }

  /** The running total once tier k is included. */
  function WeightThrough(k: nat): int
    requires k < |PRISON_TIERS|
  {
    WeightBelow(k + 1)
  }

  lemma {:induction false} WeightBelowStrictlyIncreasing(i: nat, j: nat)
    requires i < j <= |PRISON_TIERS|
    ensures WeightBelow(i) < WeightBelow(j)
    decreases j - i
  {
    if i + 1 < j {
      WeightBelowStrictlyIncreasing(i + 1, j);
    }
  }

  /** The first index from i on whose running total covers the roll, the last tier otherwise. */
  function FirstCovering(roll: int, i: nat): (j: nat)
    requires i < |PRISON_TIERS|
    ensures i <= j < |PRISON_TIERS|
    ensures j < |PRISON_TIERS| - 1 ==> roll <= WeightBelow(j + 1)
    ensures forall k :: i <= k < j ==> WeightThrough(k) < roll
    decreases |PRISON_TIERS| - i
  {
    if i == |PRISON_TIERS| - 1 || roll <= WeightBelow(i + 1) then i
    else FirstCovering(roll, i + 1)
  }

  /** The index of the tier a roll of 1..100 selects. */
  function TierIndexForRoll(roll: int): (i: nat)
    ensures i < |PRISON_TIERS|
  {
    FirstCovering(roll, 0)
  }

  /** The seven draw weights add up to 100. */
  lemma WeightsSumToTotal()
    ensures WeightBelow(|PRISON_TIERS|) == TOTAL_WEIGHT
  {
    assert WeightBelow(1) == 35;
    assert WeightBelow(2) == 55;
    assert WeightBelow(3) == 70;
    assert WeightBelow(4) == 80;
    assert WeightBelow(5) == 90;
    assert WeightBelow(6) == 95;
  }

  /** A roll in 1..100 selects tier i exactly when it lies in (WeightBelow(i), WeightBelow(i+1)]. */
  lemma TierIndexForRollInterval(roll: int, i: nat)
    requires 1 <= roll <= TOTAL_WEIGHT && i < |PRISON_TIERS|
    ensures TierIndexForRoll(roll) == i <==> WeightBelow(i) < roll <= WeightBelow(i + 1)
  {
    var j := TierIndexForRoll(roll);
    WeightsSumToTotal();
    assert WeightBelow(j) < roll by {
      if j > 0 {
        assert WeightBelow(j - 1 + 1) < roll;
      }
    }
    assert roll <= WeightBelow(j + 1);
    if j != i {
      if j < i {
        if j + 1 < i {
          WeightBelowStrictlyIncreasing(j + 1, i);
        }
      } else {
        assert WeightThrough(i) < roll;
      }
    }
  }

  /** The ends of the draw: 1..35 is the Officer Group, 96..100 the Jaeger Camp. */
  lemma RollBands(roll: int)
    requires 1 <= roll <= TOTAL_WEIGHT
    ensures roll <= 35 <==> PRISON_TIERS[TierIndexForRoll(roll)].name == OFFICER_GROUP
    ensures roll >= 96 <==> PRISON_TIERS[TierIndexForRoll(roll)].name == JAEGER_CAMP
  {
    WeightsSumToTotal();
    TierIndexForRollInterval(roll, 0);
    TierIndexForRollInterval(roll, |PRISON_TIERS| - 1);
    assert WeightBelow(1) == 35;
    assert WeightBelow(6) == 95;
  }

  /** select_prison_tier: walk the running total until it reaches the roll. */
  method SelectPrisonTier(roll: int) returns (t: PrisonTier)
    ensures t == PRISON_TIERS[TierIndexForRoll(roll)]
  {
    var running := 0;
    var i := 0;
    while i < |PRISON_TIERS|
      invariant 0 <= i <= |PRISON_TIERS|
      invariant running == WeightBelow(i)
      invariant forall k :: 0 <= k < i ==> WeightThrough(k) < roll
    {
      running := running + PRISON_TIERS[i].weight;
      if roll <= running {
        FirstCoveringIs(roll, 0, i);
        return PRISON_TIERS[i];
      }
      i := i + 1;
    }
    FirstCoveringIs(roll, 0, |PRISON_TIERS| - 1);
    t := PRISON_TIERS[|PRISON_TIERS| - 1];
  }

  /** FirstCovering is pinned down by its two ensures clauses. */
  lemma FirstCoveringIs(roll: int, i: nat, j: nat)
    requires i <= j < |PRISON_TIERS|
    requires j < |PRISON_TIERS| - 1 ==> roll <= WeightBelow(j + 1)
    requires forall k :: i <= k < j ==> WeightThrough(k) < roll
    ensures FirstCovering(roll, i) == j
    decreases j - i
  {
    if i < j {
      assert WeightThrough(i) < roll;
      FirstCoveringIs(roll, i + 1, j);
    }
  }

  /** format_time's three shapes: hours, minutes and seconds; minutes and seconds; seconds. */
  datatype TimeText = HMS(h: int, m: int, s: int) | MS(m: int, s: int) | S(s: int)

  /** format_time: floor divmod by 60 twice, then the shape chosen by the leading unit. */
  function FormatTime(seconds: int): (r: TimeText)
    ensures r.HMS? ==> r.h > 0 && r.h * 3600 + r.m * 60 + r.s == seconds
    ensures r.MS? ==> seconds / 3600 <= 0 && r.m > 0 && r.m * 60 + r.s == seconds % 3600
    ensures r.S? ==> seconds / 3600 <= 0 && (seconds / 60) % 60 == 0 && r.s == seconds % 60
    ensures (r.HMS? || r.MS?) ==> 0 <= r.m < 60 && 0 <= r.s < 60
    ensures 0 <= seconds < 60 ==> r == S(seconds)
  {
    var minutes := seconds / 60;
    var secs := seconds % 60;
    var hours := minutes / 60;
    var mins := minutes % 60;
    if hours > 0 then HMS(hours, mins, secs)
    else if mins > 0 then MS(mins, secs)
    else S(secs)
  }

  /**
   * The escape debuff a record carries: none unless it is flagged injured
   * with a positive count; otherwise by count.
   */
  function InjuryDebuff(a: Account): (r: int)
    ensures !a.injured || a.injuries <= 0 ==> r == 0
    ensures a.injured ==>
              (a.injuries >= 4 ==> r == -25) && (a.injuries == 3 ==> r == -15) &&
              (a.injuries == 2 ==> r == -5) && (a.injuries == 1 ==> r == -3)
    ensures -25 <= r <= 0
  {
    if !a.injured || a.injuries <= 0 then 0
    else if a.injuries >= 4 then -25
    else if a.injuries >= 3 then -15
    else if a.injuries >= 2 then -5
    else -3
  }

  /** get_escape_chance_modifier (prison version): no penalty for an absent member. */
  function PrisonEscapeModifier(doc: Document, key: string): (r: int)
    ensures key !in doc ==> r == 0
    ensures key in doc ==> r == InjuryDebuff(doc[key])
    ensures -25 <= r <= 0
  {
    if key !in doc then 0 else InjuryDebuff(doc[key])
  }

  /** A sentence is over once the clock reaches the release time. */
  predicate Expired(p: Prison, now: int)
  {
    now >= p.releaseTime
  }

  /** The member's record with an expired sentence cleared. */
  function AutoRelease(doc: Document, key: string, now: int): (d: Document)
    ensures key in doc && doc[key].prison.Some? && Expired(doc[key].prison.value, now) ==>
              d == doc[key := doc[key].(prison := None)]
    ensures !(key in doc && doc[key].prison.Some? && Expired(doc[key].prison.value, now)) ==> d == doc
  {
    if key in doc && doc[key].prison.Some? && Expired(doc[key].prison.value, now)
    then doc[key := doc[key].(prison := None)]
    else doc
  }

  /** is_in_prison: an unexpired sentence; an expired one is cleared on the way. */
  method IsInPrison(l: Ledger, key: string, now: int) returns (b: bool)
    modifies l
    ensures b <==> key in old(l.doc) && old(l.doc)[key].prison.Some? && !Expired(old(l.doc)[key].prison.value, now)
    ensures l.doc == AutoRelease(old(l.doc), key, now)
  {
    var guild := l.doc;
    if key !in guild || guild[key].prison.None? {
      return false;
    }
    if now >= guild[key].prison.value.releaseTime {
      l.doc := guild[key := guild[key].(prison := None)];
      return false;
    }
    b := true;
  }

  /** get_prison_tier: the tier of an unexpired sentence; an expired one is cleared. */
  method GetPrisonTier(l: Ledger, key: string, now: int) returns (tier: Option<string>)
    modifies l
    ensures tier.Some? <==> key in old(l.doc) && old(l.doc)[key].prison.Some? && !Expired(old(l.doc)[key].prison.value, now)
    ensures tier.Some? ==> tier.value == old(l.doc)[key].prison.value.tier
    ensures l.doc == AutoRelease(old(l.doc), key, now)
  {
    var guild := l.doc;
    if key !in guild || guild[key].prison.None? {
      return None;
    }
    if now >= guild[key].prison.value.releaseTime {
      l.doc := guild[key := guild[key].(prison := None)];
      return None;
    }
    tier := Some(guild[key].prison.value.tier);
  }

  /** get_release_time: the stored release time, expired or not. */
  function GetReleaseTime(doc: Document, key: string): (r: Option<int>)
    ensures r.Some? <==> key in doc && doc[key].prison.Some?
    ensures r.Some? ==> r.value == doc[key].prison.value.releaseTime
  {
    if key in doc && doc[key].prison.Some? then Some(doc[key].prison.value.releaseTime) else None
  }

  /**
   * The release time decides the sentence: a member is in prison at now
   * (as is_in_prison answers) exactly when a release time is stored and now
   * is before it, and the auto-release clears the sentence exactly when a
   * release time is stored and now has reached it. Afterwards only an
   * unexpired release time is left to read.
   */
  lemma ReleaseTimeDecidesSentence(doc: Document, key: string, now: int)
    ensures var r := GetReleaseTime(doc, key);
            (key in doc && doc[key].prison.Some? && !Expired(doc[key].prison.value, now)) <==> r.Some? && now < r.value
    ensures var r := GetReleaseTime(doc, key);
            AutoRelease(doc, key, now) != doc <==> r.Some? && now >= r.value
    ensures var r := GetReleaseTime(doc, key);
            GetReleaseTime(AutoRelease(doc, key, now), key) == if r.Some? && now < r.value then r else None
  {
    var r := GetReleaseTime(doc, key);
    if r.Some? && now >= r.value {
      assert AutoRelease(doc, key, now)[key].prison.None?;
    }
  }

  /**
   * The record send_to_prison starts from. It passes no display name to
   * get_user_data, so an absent member's fresh record is named "User_" + key.
   */
  function UnnamedUserOf(doc: Document, key: string, sb: int): (a: Account)
    ensures key in doc ==> a == doc[key]
    ensures key !in doc ==> a == CreateDefaultUser(key, None, sb) && a.username == "User_" + key
  {
    UserOf(doc, Member(key, "", false), sb)
  }

  /**
   * send_to_prison: record a sentence of the given tier (a drawn tier when the
   * tier is empty) ending duration seconds from now, creating the record if absent.
   */
  method SendToPrison(l: Ledger, key: string, tier: string, duration: int, roll: int, now: int)
    modifies l
    ensures var t := if tier == "" then PRISON_TIERS[TierIndexForRoll(roll)].name else tier;
            l.doc == old(l.doc)[key := UnnamedUserOf(old(l.doc), key, l.startingBalance).(prison := Some(Prison(t, now + duration)))]
  {
    var a := l.GetUserData(Member(key, "", false));
    var name := tier;
    if name == "" {
      var drawn := SelectPrisonTier(roll);
      name := drawn.name;
    }
    l.doc := l.doc[key := a.(prison := Some(Prison(name, now + duration)))];
  }

  /** release_from_prison: clear a sentence; false when there is none. */
  method ReleaseFromPrison(l: Ledger, key: string) returns (released: bool)
    modifies l
    ensures released <==> key in old(l.doc) && old(l.doc)[key].prison.Some?
    ensures released ==> l.doc == old(l.doc)[key := old(l.doc)[key].(prison := None)]
    ensures !released ==> l.doc == old(l.doc)
  {
    if key !in l.doc || l.doc[key].prison.None? {
      return false;
    }
    l.doc := l.doc[key := l.doc[key].(prison := None)];
    released := true;
  }

  /** extend_prison_time: push the release time back; false when there is no sentence. */
  method ExtendPrisonTime(l: Ledger, key: string, additional: int) returns (extended: bool)
    modifies l
    ensures extended <==> key in old(l.doc) && old(l.doc)[key].prison.Some?
    ensures extended ==>
              var p := old(l.doc)[key].prison.value;
              l.doc == old(l.doc)[key := old(l.doc)[key].(prison := Some(p.(releaseTime := p.releaseTime + additional)))]
    ensures !extended ==> l.doc == old(l.doc)
  {
    if key !in l.doc || l.doc[key].prison.None? {
      return false;
    }
    var p := l.doc[key].prison.value;
    l.doc := l.doc[key := l.doc[key].(prison := Some(p.(releaseTime := p.releaseTime + additional)))];
    extended := true;
  }

  /** The records the startup sweep clears: member keys holding an expired sentence. */
  predicate Releasable(k: string, a: Account, now: int)
  {
    IsDigits(k) && a.prison.Some? && Expired(a.prison.value, now)
  }

  /** One record as the startup sweep leaves it. */
  function SweepRecord(k: string, a: Account, now: int): Account
  {
    if Releasable(k, a, now) then a.(prison := None) else a
  }

  /** The document after the startup sweep. */
  function ReleasedAll(doc: Document, now: int): (d: Document)
    ensures d.Keys == doc.Keys
    ensures forall k :: k in doc && Releasable(k, doc[k], now) ==> d[k] == doc[k].(prison := None)
    ensures forall k :: k in doc && !Releasable(k, doc[k], now) ==> d[k] == doc[k]
  {
    map k | k in doc :: SweepRecord(k, doc[k], now)
  }

  /** After the sweep no member holds an expired sentence, and no unexpired one is lost. */
  lemma ReleasedAllClearsExpired(doc: Document, now: int)
    ensures forall k :: k in ReleasedAll(doc, now) && IsDigits(k) && ReleasedAll(doc, now)[k].prison.Some? ==>
              !Expired(ReleasedAll(doc, now)[k].prison.value, now)
    ensures forall k :: k in doc && doc[k].prison.Some? && !Expired(doc[k].prison.value, now) ==>
              ReleasedAll(doc, now)[k] == doc[k]
  {
  }

  /** on_ready's per-guild loop: clear every expired sentence (the count is only logged). */
  method ReleaseExpiredSentences(l: Ledger, now: int)
    modifies l
    ensures l.doc == ReleasedAll(old(l.doc), now)
  {
    ghost var d0 := l.doc;
    var guild := l.doc;
    var todo := guild.Keys;
    while todo != {}
      invariant todo <= d0.Keys && guild.Keys == d0.Keys
      invariant forall k :: k in d0 && k !in todo ==> guild[k] == SweepRecord(k, d0[k], now)
      invariant forall k :: k in todo ==> guild[k] == d0[k]
      decreases |todo|
    {
      var k :| k in todo;
      var a := guild[k];
      if IsDigits(k) && a.prison.Some? && now >= a.prison.value.releaseTime {
        guild := guild[k := a.(prison := None)];
      }
      todo := todo - {k};
    }
    assert guild == ReleasedAll(d0, now);
    l.doc := guild;
  }
}
