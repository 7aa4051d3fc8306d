/**
 * The per-guild economy document and the records stored in it.
 *
 * A guild document maps a key to an account record. Account keys are the
 * decimal user ids; the document may also hold guild flags under
 * non-numeric keys, which every per-member sweep skips.
 */
module Records {

  datatype Option<T> = None | Some(value: T)

  /** A prison sentence: the tier's name and the release time in seconds. */
  datatype Prison = Prison(tier: string, releaseTime: int)

  /** One member's account record. */
  datatype Account = Account(
    userId: int,
    username: string,
    pockets: int,
    savings: int,
    cooldowns: map<string, int>,
    injured: bool,
    injuries: int,
    prison: Option<Prison>,
    lastRobbed: int,
    beatChallenge: bool)

  /** A guild's document: key -> account record. */
  type Document = map<string, Account>

  /** A Discord member as the commands see it: key (str of the id), display name, bot flag. */
  datatype Member = Member(key: string, displayName: string, isBot: bool)

  /** Everything the member owns. */
  function Total(a: Account): int
  {
    a.pockets + a.savings
  }

  /** max() of two integers. */
  function Max(a: int, b: int): (r: int)
    ensures r >= a && r >= b && (r == a || r == b)
  {
    if a >= b then a else b
  }

  /** The invariant that the injury operations keep. */
  predicate InjuryConsistent(a: Account)
  {
    a.injured == (a.injuries > 0)
  }

  predicate IsDigit(c: char)
  {
    '0' <= c <= '9'
  }

  /** str.isdigit() on ASCII text: non-empty and all decimal digits. */
  predicate IsDigits(s: string)
  {
    |s| > 0 && forall i :: 0 <= i < |s| ==> IsDigit(s[i])
  }

  /** The value of a string of decimal digits. */
  function DecimalValue(s: string): nat
    requires forall i :: 0 <= i < |s| ==> IsDigit(s[i])
  {
    if s == [] then 0
    else
      assert IsDigit(s[|s| - 1]);
      DecimalValue(s[..|s| - 1]) * 10 + (s[|s| - 1] as int - '0' as int)
  }

  predicate HasPrefix(s: string, p: string)
  {
    |p| <= |s| && s[..|p|] == p
  }

  /** int(x) of a non-negative product x * (k / 10), written in integers. */
  function TenthsOf(x: int, k: nat): int
  {
    if x >= 0 then (x * k) / 10 else -((-x * k) / 10)
  }

  lemma TenthsOfBounds(x: int, k: nat)
    requires x >= 0 && k <= 10
    ensures 0 <= TenthsOf(x, k) <= x
  {
  }
}
