/**
 * The leaderboard: every member record of the guild document, ranked by
 * total medals, highest first, with prison and injury labels.
 */
module LeaderboardCmds {
  import opened Records
  import InjurySystem

  /** One row before ranking: key, total, stored name, sentence, injury label. */
  datatype Entry = Entry(key: string, total: int, username: string, prison: Option<Prison>, injury: string)

  /** The injury label: a tier only for a record flagged injured with a positive count. */
  function InjuryLabel(a: Account): (s: string)
    ensures !(a.injured && a.injuries > 0) ==> s == InjurySystem.HEALTHY_NAME
    ensures a.injured && a.injuries > 0 ==> s == InjurySystem.TierOf(a.injuries).name
  {
    if a.injured && a.injuries > 0 then
      if a.injuries >= 4 then InjurySystem.CRITICAL
      else if a.injuries >= 3 then InjurySystem.SURGERY
      else if a.injuries >= 2 then InjurySystem.MODERATE
      else InjurySystem.LIGHT
    else InjurySystem.HEALTHY_NAME
  }

  function EntryOf(key: string, a: Account): Entry
  {
    Entry(key, Total(a), a.username, a.prison, InjuryLabel(a))
  }

  /** The entries of the member keys among the document's items, in document order. */
  function EntriesOf(items: seq<(string, Account)>): (es: seq<Entry>)
    ensures |es| <= |items|
    ensures forall e :: e in es ==> IsDigits(e.key)
  {
    if items == [] then []
    else
      var rest := EntriesOf(items[..|items| - 1]);
      var (k, a) := items[|items| - 1];
      if IsDigits(k) then rest + [EntryOf(k, a)] else rest
  }

  /** Every member record, and only those, gets an entry whose total is its pockets plus savings. */
  lemma {:induction false} EntriesOfComplete(items: seq<(string, Account)>)
    ensures forall i :: 0 <= i < |items| && IsDigits(items[i].0) ==> EntryOf(items[i].0, items[i].1) in EntriesOf(items)
    ensures forall e :: e in EntriesOf(items) ==> exists i :: 0 <= i < |items| && e == EntryOf(items[i].0, items[i].1)
  {
    if items != [] {
      var init := items[..|items| - 1];
      EntriesOfComplete(init);
      assert forall i :: 0 <= i < |init| ==> init[i] == items[i];
    }
  }

  /** The loop that builds the list: skip non-member keys, append one entry per record. */
  method BuildEntries(items: seq<(string, Account)>) returns (es: seq<Entry>)
    ensures es == EntriesOf(items)
  {
    es := [];
    var i := 0;
    while i < |items|
      invariant 0 <= i <= |items|
      invariant es == EntriesOf(items[..i])
    {
      var (k, a) := items[i];
      assert items[..i + 1][..i] == items[..i];
      if IsDigits(k) {
        es := es + [EntryOf(k, a)];
      }
      i := i + 1;
    }
    assert items[..|items|] == items;
  }

  predicate SortedDesc(s: seq<Entry>)
  {
    forall i, j :: 0 <= i < j < |s| ==> s[i].total >= s[j].total
  }

  /** Place an entry before the first entry whose total is not larger than its own. */
  function Insert(x: Entry, s: seq<Entry>): (r: seq<Entry>)
    ensures multiset(r) == multiset(s) + multiset{x}
    ensures |r| == |s| + 1
  {
    if s == [] || s[0].total <= x.total then [x] + s
    else
      assert s == [s[0]] + s[1..];
      [s[0]] + Insert(x, s[1..])
  }

  /** The sort's reference definition: a stable insertion sort, highest total first. */
  function SortByTotal(s: seq<Entry>): (r: seq<Entry>)
    ensures |r| == |s|
  {
    if s == [] then [] else Insert(s[0], SortByTotal(s[1..]))
  }

  lemma {:induction false} InsertSorted(x: Entry, s: seq<Entry>)
    requires SortedDesc(s)
    ensures SortedDesc(Insert(x, s))
    ensures forall e :: e in Insert(x, s) ==> e == x || e in s
  {
    if s != [] && s[0].total > x.total {
      InsertSorted(x, s[1..]);
      var r := Insert(x, s[1..]);
      assert forall e :: e in r ==> e.total <= s[0].total by {
        forall e | e in r
          ensures e.total <= s[0].total
        {
          if e != x {
            assert e in s[1..];
          }
        }
      }
      assert forall j :: 0 < j < |[s[0]] + r| ==> ([s[0]] + r)[j] in r;
    }
  }

  lemma {:induction false} SortSorted(s: seq<Entry>)
    ensures SortedDesc(SortByTotal(s))
  {
    if s != [] {
      SortSorted(s[1..]);
      InsertSorted(s[0], SortByTotal(s[1..]));
    }
  }

  lemma {:induction false} SortPermutes(s: seq<Entry>)
    ensures multiset(SortByTotal(s)) == multiset(s)
  {
    if s != [] {
      SortPermutes(s[1..]);
      assert s == [s[0]] + s[1..];
    }
  }

  /** The entries with a given total, in order. */
  function WithTotal(s: seq<Entry>, v: int): seq<Entry>
  {
    if s == [] then [] else (if s[0].total == v then [s[0]] else []) + WithTotal(s[1..], v)
  }

  lemma {:induction false} WithTotalAppend(a: seq<Entry>, b: seq<Entry>, v: int)
    ensures WithTotal(a + b, v) == WithTotal(a, v) + WithTotal(b, v)
  {
    if a != [] {
      assert (a + b)[1..] == a[1..] + b;
      WithTotalAppend(a[1..], b, v);
    } else {
      assert a + b == b;
    }
  }

  /** Inserting x puts it ahead of every entry with its own total. */
  lemma {:induction false} InsertStable(x: Entry, s: seq<Entry>, v: int)
    ensures WithTotal(Insert(x, s), v) == (if x.total == v then [x] else []) + WithTotal(s, v)
  {
    if s == [] || s[0].total <= x.total {
      WithTotalAppend([x], s, v);
      assert ([x] + s)[1..] == s;
    } else {
      InsertStable(x, s[1..], v);
      assert ([s[0]] + Insert(x, s[1..]))[1..] == Insert(x, s[1..]);
      if x.total == v {
        assert s[0].total != v;
      }
    }
  }

  /** Stability: the entries of every total keep their document order. */
  lemma {:induction false} SortStable(s: seq<Entry>, v: int)
    ensures WithTotal(SortByTotal(s), v) == WithTotal(s, v)
  {
    if s != [] {
      SortStable(s[1..], v);
      InsertStable(s[0], SortByTotal(s[1..]), v);
    }
  }

  /** One rendered line: rank from 1, the shown name, total, sentence tier, injury label. */
  datatype Line = Line(rank: int, name: string, total: int, prisonTier: Option<string>, injury: string)

  datatype Board = NoData | Ranking(lines: seq<Line>)

  /** The name shown: the live display name of a present member, else the stored one. */
  function ShownName(e: Entry, present: map<string, string>): string
  {
    if e.key in present then present[e.key] else e.username
  }

  function LineOf(rank: int, e: Entry, present: map<string, string>): Line
  {
    Line(rank, ShownName(e, present), e.total, if e.prison.Some? then Some(e.prison.value.tier) else None, e.injury)
  }

  /** The ranking: lines for the sorted entries, numbered from 1. */
  function Ranked(sorted: seq<Entry>, present: map<string, string>): (ls: seq<Line>)
    ensures |ls| == |sorted|
    ensures forall i :: 0 <= i < |ls| ==> ls[i] == LineOf(i + 1, sorted[i], present)
  {
    seq(|sorted|, i requires 0 <= i < |sorted| => LineOf(i + 1, sorted[i], present))
  }

  /**
   * leaderboard: the document's items in their stored order; an empty
   * document has no data, otherwise every member is ranked.
   */
  method Leaderboard(items: seq<(string, Account)>, present: map<string, string>) returns (b: Board)
    ensures items == [] <==> b.NoData?
    ensures b.Ranking? ==> b.lines == Ranked(SortByTotal(EntriesOf(items)), present)
  {
    if items == [] {
      return NoData;
    }
    var es := BuildEntries(items);
    var sorted := SortByTotal(es);
    b := Ranking(Ranked(sorted, present));
  }

  /** The ranking lists every member exactly once, highest total first, ranks 1, 2, 3, ... */
  lemma LeaderboardProperties(items: seq<(string, Account)>, present: map<string, string>)
    ensures var sorted := SortByTotal(EntriesOf(items));
            var ls := Ranked(sorted, present);
            |ls| == |EntriesOf(items)| &&
            (forall i, j :: 0 <= i < j < |ls| ==> ls[i].total >= ls[j].total) &&
            (forall i :: 0 <= i < |ls| ==> ls[i].rank == i + 1) &&
            multiset(sorted) == multiset(EntriesOf(items))
  {
    SortSorted(EntriesOf(items));
    SortPermutes(EntriesOf(items));
  }
}
