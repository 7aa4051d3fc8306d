/**
 * The banking commands: balance, deposit (pockets to savings), withdraw
 * (savings to pockets) and donate (to another member's pockets).
 */
module AccountCmds {
  import opened Records
  import opened DataService
  import opened EconomyBase
  import ChallengeRegistry

  /** The amount argument of deposit and withdraw once parsed. */
  datatype AmountArg = All | Number(n: int) | NotANumber

  function LowerChar(c: char): char
  {
    if 'A' <= c <= 'Z' then (c as int - 'A' as int + 'a' as int) as char else c
  }

  /** ASCII lower-casing. */
  function Lower(s: string): (r: string)
    ensures |r| == |s| && forall i :: 0 <= i < |s| ==> r[i] == LowerChar(s[i])
  {
    if s == [] then [] else [LowerChar(s[0])] + Lower(s[1..])
  }

  /** The characters str.isspace() accepts, which int() strips from both ends. */
  predicate IsSpace(c: char)
  {
    c == ' ' || '\t' <= c <= '\r' || '\U{1C}' <= c <= '\U{1F}' || c == '\U{85}' || c == '\U{A0}' ||
    c == '\U{1680}' || '\U{2000}' <= c <= '\U{200A}' || c == '\U{2028}' || c == '\U{2029}' ||
    c == '\U{202F}' || c == '\U{205F}' || c == '\U{3000}'
  }

  /** s without its leading whitespace. */
  function TrimStart(s: string): (r: string)
    ensures |r| <= |s|
  {
    if s != [] && IsSpace(s[0]) then TrimStart(s[1..]) else s
  }

  /** s without its trailing whitespace. */
  function TrimEnd(s: string): (r: string)
    ensures |r| <= |s|
  {
    if s != [] && IsSpace(s[|s| - 1]) then TrimEnd(s[..|s| - 1]) else s
  }

  /** str.strip(): whitespace removed from both ends. */
  function Strip(s: string): string
  {
    TrimEnd(TrimStart(s))
  }

  /** Decimal digits in groups joined by single underscores ("1_000"), as int() reads them. */
  predicate IsNumeral(s: string)
  {
    |s| > 0 && IsDigit(s[0]) && IsDigit(s[|s| - 1]) &&
    (forall i :: 0 <= i < |s| ==> IsDigit(s[i]) || s[i] == '_') &&
    (forall i :: 0 <= i < |s| - 1 ==> s[i] == '_' ==> s[i + 1] != '_')
  }

  /** The digits of a numeral, its underscores dropped. */
  function DigitsOf(s: string): (r: string)
    ensures |r| <= |s|
  {
    if s == [] then []
    else (if s[0] == '_' then [] else [s[0]]) + DigitsOf(s[1..])
  }

  /** Dropping the underscores of digits and underscores leaves only digits. */
  lemma {:induction false} DigitsOfAreDigits(s: string)
    requires forall i :: 0 <= i < |s| ==> IsDigit(s[i]) || s[i] == '_'
    ensures forall i :: 0 <= i < |DigitsOf(s)| ==> IsDigit(DigitsOf(s)[i])
  {
    if s != [] {
      DigitsOfAreDigits(s[1..]);
    }
  }

  /** A string without underscores keeps all its characters. */
  lemma {:induction false} DigitsOfKeeps(s: string)
    requires forall i :: 0 <= i < |s| ==> s[i] != '_'
    ensures DigitsOf(s) == s
  {
    if s != [] {
      DigitsOfKeeps(s[1..]);
    }
  }

  /** The value of a numeral. */
  function NumeralValue(s: string): nat
    requires IsNumeral(s)
  {
    DigitsOfAreDigits(s);
    DecimalValue(DigitsOf(s))
  }

  /** A numeral after a '+' or '-' sign. */
  predicate IsSignedNumeral(t: string)
  {
    |t| > 1 && (t[0] == '-' || t[0] == '+') && IsNumeral(t[1..])
  }

  /** A string of plain digits has no whitespace to strip and is its own numeral. */
  lemma DigitsAreNumeral(s: string)
    ensures IsDigits(s) ==> Strip(s) == s && IsNumeral(s) && NumeralValue(s) == DecimalValue(s)
  {
    if IsDigits(s) {
      assert !IsSpace(s[0]) && !IsSpace(s[|s| - 1]);
      DigitsOfKeeps(s);
    }
  }

  /**
   * "all" in any letter case (compared before any stripping), else int():
   * whitespace stripped, an optional sign, then digit groups joined by
   * single underscores.
   */
  function ParseAmount(s: string): (r: AmountArg)
    ensures r.All? <==> Lower(s) == "all"
    ensures Lower(s) != "all" && IsNumeral(Strip(s)) ==> r == Number(NumeralValue(Strip(s)))
    ensures Lower(s) != "all" && IsSignedNumeral(Strip(s)) ==>
              var t := Strip(s);
              r == Number(if t[0] == '-' then -(NumeralValue(t[1..]) as int) else NumeralValue(t[1..]))
    ensures r.NotANumber? <==> Lower(s) != "all" && !IsNumeral(Strip(s)) && !IsSignedNumeral(Strip(s))
  {
    if Lower(s) == "all" then All
    else
      var t := Strip(s);
      if IsNumeral(t) then Number(NumeralValue(t))
      else if IsSignedNumeral(t) then
        var v: int := NumeralValue(t[1..]);
        Number(if t[0] == '-' then -v else v)
      else NotANumber
  }

  /** A word that starts with a digit is not "all" in any letter case. */
  lemma DigitFirstIsNotAll(s: string)
    requires s != [] && IsDigit(s[0])
    ensures Lower(s) != "all"
  {
    assert Lower(s)[0] == LowerChar(s[0]);
  }

  /** A word that starts and ends with a non-space has nothing to strip. */
  lemma StripKeeps(s: string)
    requires s != [] && !IsSpace(s[0]) && !IsSpace(s[|s| - 1])
    ensures Strip(s) == s
  {
  }

  /** A numeral with no surrounding whitespace is read as its value. */
  lemma ParseAmountNumeral(t: string)
    requires IsNumeral(t)
    ensures ParseAmount(t) == Number(NumeralValue(t))
  {
    DigitFirstIsNotAll(t);
    StripKeeps(t);
  }

  /** A plain digit string is read as its decimal value. */
  lemma ParseAmountDigits(d: string)
    requires IsDigits(d)
    ensures ParseAmount(d) == Number(DecimalValue(d))
  {
    DigitsAreNumeral(d);
    ParseAmountNumeral(d);
  }

  /** Whitespace around the digits is stripped away, as int() does. */
  lemma ParseAmountPadded(w: string, d: string, w': string)
    requires IsDigits(d)
    requires forall i :: 0 <= i < |w| ==> IsSpace(w[i])
    requires forall i :: 0 <= i < |w'| ==> IsSpace(w'[i])
    ensures ParseAmount(w + d + w') == Number(DecimalValue(d))
  {
    var s := w + d + w';
    assert Strip(s) == d by {
      assert TrimStart(s) == d + w' by { TrimStartSpaces(w, d + w'); assert s == w + (d + w'); }
      TrimEndSpaces(d, w');
    }
    assert Lower(s) != "all" by {
      assert s[0] == (if w == [] then d[0] else w[0]);
      assert Lower(s)[0] == LowerChar(s[0]) != 'a';
    }
    DigitsAreNumeral(d);
  }

  lemma {:induction false} TrimStartSpaces(w: string, t: string)
    requires forall i :: 0 <= i < |w| ==> IsSpace(w[i])
    requires t != [] && !IsSpace(t[0])
    ensures TrimStart(w + t) == t
  {
    if w != [] {
      assert (w + t)[1..] == w[1..] + t;
      TrimStartSpaces(w[1..], t);
    } else {
      assert w + t == t;
    }
  }

  lemma {:induction false} TrimEndSpaces(t: string, w: string)
    requires forall i :: 0 <= i < |w| ==> IsSpace(w[i])
    requires t != [] && !IsSpace(t[|t| - 1])
    ensures TrimEnd(t + w) == t
  {
    if w != [] {
      assert (t + w)[..|t + w| - 1] == t + w[..|w| - 1];
      TrimEndSpaces(t, w[..|w| - 1]);
    } else {
      assert t + w == t;
    }
  }

  /** A leading '-' negates the amount and a leading '+' keeps it. */
  lemma ParseAmountSigned(d: string)
    requires IsDigits(d)
    ensures ParseAmount("-" + d) == Number(-(DecimalValue(d) as int))
    ensures ParseAmount("+" + d) == Number(DecimalValue(d))
  {
    ParseAmountSign('-', d);
    ParseAmountSign('+', d);
  }

  lemma ParseAmountSign(c: char, d: string)
    requires c == '-' || c == '+'
    requires IsDigits(d)
    ensures ParseAmount([c] + d) == Number(if c == '-' then -(DecimalValue(d) as int) else DecimalValue(d))
  {
    SignedNumeral(c, d);
  }

  lemma SignedNumeral(c: char, d: string)
    requires c == '-' || c == '+'
    requires IsDigits(d)
    ensures var s := [c] + d;
            Lower(s) != "all" && Strip(s) == s && !IsNumeral(s) && IsSignedNumeral(s) &&
            s[0] == c && s[1..] == d && NumeralValue(d) == DecimalValue(d)
  {
    var s := [c] + d;
    assert s[0] == c && s[1..] == d && s[|s| - 1] == d[|d| - 1];
    assert Lower(s) != "all" by {
      assert Lower(s)[0] == LowerChar(c) == c;
    }
    StripKeeps(s);
    DigitsAreNumeral(d);
  }

  /** Two digit groups joined by one underscore read as the digits run together. */
  lemma ParseAmountGrouped(a: string, b: string)
    requires IsDigits(a) && IsDigits(b)
    ensures ParseAmount(a + "_" + b) == Number(DecimalValue(a + b))
  {
    GroupedNumeral(a, b);
    ParseAmountNumeral(a + "_" + b);
  }

  lemma GroupedNumeral(a: string, b: string)
    requires IsDigits(a) && IsDigits(b)
    ensures IsNumeral(a + "_" + b) && DigitsOf(a + "_" + b) == a + b
  {
    var s := a + "_" + b;
    assert s[0] == a[0] && s[|s| - 1] == b[|b| - 1];
    assert forall i :: 0 <= i < |s| ==> IsDigit(s[i]) || s[i] == '_' by {
      forall i | 0 <= i < |s|
        ensures IsDigit(s[i]) || s[i] == '_'
      {
        if i < |a| { assert s[i] == a[i]; } else if i > |a| { assert s[i] == b[i - |a| - 1]; }
      }
    }
    forall i | 0 <= i < |s| - 1 && s[i] == '_'
      ensures s[i + 1] != '_'
    {
      assert i == |a|;
      assert s[i + 1] == b[0];
    }
    DigitsOfJoin(a, b);
  }

  lemma DigitsOfJoin(a: string, b: string)
    requires IsDigits(a) && IsDigits(b)
    ensures DigitsOf(a + "_" + b) == a + b
  {
    assert a + "_" + b == a + ("_" + b);
    DigitsOfKeeps(a);
    DigitsOfKeeps(b);
    assert DigitsOf("_" + b) == DigitsOf(b) by {
      assert ("_" + b)[1..] == b;
    }
    DigitsOfConcat(a, "_" + b);
  }


  /** A doubled underscore is refused. */
  lemma ParseAmountDoubleUnderscore(a: string, b: string)
    requires IsDigits(a) && IsDigits(b)
    ensures ParseAmount(a + "__" + b) == NotANumber
  {
    var s := a + "__" + b;
    assert s[0] == a[0] && s[|s| - 1] == b[|b| - 1];
    DigitFirstIsNotAll(s);
    StripKeeps(s);
    assert s[|a|] == '_' && s[|a| + 1] == '_';
    assert !IsNumeral(s);
  }

  lemma {:induction false} DigitsOfConcat(x: string, y: string)
    ensures DigitsOf(x + y) == DigitsOf(x) + DigitsOf(y)
  {
    if x == [] {
      assert x + y == y;
    } else {
      assert (x + y)[0] == x[0] && (x + y)[1..] == x[1..] + y;
      DigitsOfConcat(x[1..], y);
    }
  }



  lemma ParseAmountExamples()
    ensures ParseAmount("ALL").All? && ParseAmount("aLl").All?
    ensures ParseAmount("25") == Number(25)
    ensures ParseAmount("").NotANumber?
  {
    assert Lower("ALL") == "all";
    assert Lower("aLl") == "all";
    assert DecimalValue("25") == DecimalValue("2") * 10 + 5;
    ParseAmountDigits("25");
    assert Lower("") == "";
  }

  datatype BankOutcome =
    | InPrison
    | InChallenge
    | NegativeBalance
    | NothingToMove
    | InvalidNumber
    | NonPositive
    | Insufficient
    | Moved(amount: int)

  datatype BankResult = BankResult(outcome: BankOutcome, account: Account)

  /** How much a deposit or withdrawal moves from a balance, or why it is refused. */
  function MoveAmount(balance: int, arg: AmountArg): (o: BankOutcome)
    ensures o.Moved? <==> balance >= 0 && ((arg.All? && balance > 0) || (arg.Number? && 0 < arg.n <= balance))
    ensures o.Moved? ==> 0 < o.amount <= balance && (arg.All? ==> o.amount == balance) && (arg.Number? ==> o.amount == arg.n)
    ensures o.NegativeBalance? <==> balance < 0
    ensures o.InvalidNumber? <==> balance >= 0 && arg.NotANumber?
  {
    if balance < 0 then NegativeBalance
    else match arg
      case All => if balance <= 0 then NothingToMove else Moved(balance)
      case NotANumber => InvalidNumber
      case Number(n) =>
        if n <= 0 then NonPositive
        else if n > balance then Insufficient
        else Moved(n)
  }

  /** deposit: prison and challenge guards, then move from pockets to savings. */
  function DepositRule(a: Account, inChallenge: bool, arg: AmountArg): (res: BankResult)
    ensures a.prison.Some? ==> res.outcome == InPrison
    ensures a.prison.None? && inChallenge ==> res.outcome == InChallenge
    ensures a.prison.None? && !inChallenge ==> res.outcome == MoveAmount(a.pockets, arg)
    ensures !res.outcome.Moved? ==> res.account == a
    ensures res.outcome.Moved? ==>
              res.account == a.(pockets := a.pockets - res.outcome.amount, savings := a.savings + res.outcome.amount)
  {
    if a.prison.Some? then BankResult(InPrison, a)
    else if inChallenge then BankResult(InChallenge, a)
    else
      var o := MoveAmount(a.pockets, arg);
      if o.Moved? then BankResult(o, AddSavings(AddPockets(a, -o.amount), o.amount)) else BankResult(o, a)
  }

  /** withdraw: prison and challenge guards, then move from savings to pockets. */
  function WithdrawRule(a: Account, inChallenge: bool, arg: AmountArg): (res: BankResult)
    ensures a.prison.Some? ==> res.outcome == InPrison
    ensures a.prison.None? && inChallenge ==> res.outcome == InChallenge
    ensures a.prison.None? && !inChallenge ==> res.outcome == MoveAmount(a.savings, arg)
    ensures !res.outcome.Moved? ==> res.account == a
    ensures res.outcome.Moved? ==>
              res.account == a.(pockets := a.pockets + res.outcome.amount, savings := a.savings - res.outcome.amount)
  {
    if a.prison.Some? then BankResult(InPrison, a)
    else if inChallenge then BankResult(InChallenge, a)
    else
      var o := MoveAmount(a.savings, arg);
      if o.Moved? then BankResult(o, AddPockets(AddSavings(a, -o.amount), o.amount)) else BankResult(o, a)
  }

  /** Moving medals between pockets and savings keeps the total and never overdraws the source. */
  lemma BankingKeepsTotal(a: Account, inChallenge: bool, arg: AmountArg)
    ensures Total(DepositRule(a, inChallenge, arg).account) == Total(a)
    ensures Total(WithdrawRule(a, inChallenge, arg).account) == Total(a)
    ensures DepositRule(a, inChallenge, arg).outcome.Moved? ==> DepositRule(a, inChallenge, arg).account.pockets >= 0
    ensures WithdrawRule(a, inChallenge, arg).outcome.Moved? ==> WithdrawRule(a, inChallenge, arg).account.savings >= 0
    ensures arg.All? && DepositRule(a, inChallenge, arg).outcome.Moved? ==> DepositRule(a, inChallenge, arg).account.pockets == 0
    ensures arg.All? && WithdrawRule(a, inChallenge, arg).outcome.Moved? ==> WithdrawRule(a, inChallenge, arg).account.savings == 0
  {
  }

  /** Depositing n and withdrawing n again restores the record, when savings started non-negative. */
  lemma DepositWithdrawRoundTrip(a: Account, n: int)
    requires a.savings >= 0
    ensures var d := DepositRule(a, false, Number(n));
            d.outcome.Moved? ==>
              var w := WithdrawRule(d.account, false, Number(n));
              w.outcome == Moved(n) && w.account == a
  {
  }

  /** balance: read (and create) the member's record. */
  method Balance(l: Ledger, member: Member) returns (pockets: int, savings: int)
    modifies l
    ensures var a := UserOf(old(l.doc), member, l.startingBalance);
            pockets == a.pockets && savings == a.savings && l.doc == old(l.doc)[member.key := a]
  {
    pockets := GetPockets(l, member);
    savings := GetSavings(l, member);
  }

  /** /deposit on the ledger. */
  method Deposit(l: Ledger, reg: ChallengeRegistry.Manager, m: Member, amount: string) returns (o: BankOutcome)
    modifies l
    ensures var res := DepositRule(UserOf(old(l.doc), m, l.startingBalance), reg.IsInChallenge(m.key), ParseAmount(amount));
            o == res.outcome && l.doc == old(l.doc)[m.key := res.account]
  {
    ghost var a0 := UserOf(l.doc, m, l.startingBalance);
    ghost var d0 := l.doc[m.key := a0];
    var free := CheckPrisonStatus(l, m);
    assert l.doc == d0;
    if !free {
      return InPrison;
    }
    var allowed := CheckBalanceChallenge(reg, m);
    if !allowed {
      return InChallenge;
    }
    var pockets := GetPockets(l, m);
    assert l.doc == d0;
    var arg := ParseAmount(amount);
    o := MoveAmount(pockets, arg);
    if o.Moved? {
      var _ := UpdatePockets(l, m, -o.amount);
      var _ := UpdateSavings(l, m, o.amount);
    }
  }

  /** /withdraw on the ledger. */
  method Withdraw(l: Ledger, reg: ChallengeRegistry.Manager, m: Member, amount: string) returns (o: BankOutcome)
    modifies l
    ensures var res := WithdrawRule(UserOf(old(l.doc), m, l.startingBalance), reg.IsInChallenge(m.key), ParseAmount(amount));
            o == res.outcome && l.doc == old(l.doc)[m.key := res.account]
  {
    ghost var a0 := UserOf(l.doc, m, l.startingBalance);
    ghost var d0 := l.doc[m.key := a0];
    var free := CheckPrisonStatus(l, m);
    assert l.doc == d0;
    if !free {
      return InPrison;
    }
    var allowed := CheckBalanceChallenge(reg, m);
    if !allowed {
      return InChallenge;
    }
    var savings := GetSavings(l, m);
    assert l.doc == d0;
    var arg := ParseAmount(amount);
    o := MoveAmount(savings, arg);
    if o.Moved? {
      var _ := UpdateSavings(l, m, -o.amount);
      var _ := UpdatePockets(l, m, o.amount);
    }
  }

  datatype DonateOutcome =
    | DonorInPrison
    | DonorInChallenge
    | SelfDonation
    | NonPositiveDonation
    | InsufficientFunds
    | NegativePockets
    | NegativeSavings
    | Donated(fromPockets: int, fromSavings: int)

  datatype DonateResult = DonateResult(outcome: DonateOutcome, doc: Document)

  /**
   * donate: prison and challenge guards, then self, amount, funds and debt
   * checks in that order; the donor pays from pockets first and the target's
   * pockets receive the full amount.
   */
  function DonateRule(doc: Document, m: Member, t: Member, inChallenge: bool, amount: int, sb: int): (res: DonateResult)
    ensures var a := UserOf(doc, m, sb);
            res.outcome.Donated? <==>
              a.prison.None? && !inChallenge && t.key != m.key && 0 < amount <= Total(a) && a.pockets >= 0 && a.savings >= 0
    ensures !res.outcome.Donated? ==> res.doc == doc[m.key := UserOf(doc, m, sb)]
    ensures res.outcome.Donated? ==>
              var a := UserOf(doc, m, sb);
              res.outcome.fromPockets + res.outcome.fromSavings == amount &&
              res.outcome.fromPockets == (if a.pockets >= amount then amount else a.pockets) &&
              res.doc == doc[m.key := PayPocketsFirst(a, amount)][t.key := AddPockets(UserOf(doc, t, sb), amount)]
  {
    var a := UserOf(doc, m, sb);
    var d1 := doc[m.key := a];
    if a.prison.Some? then DonateResult(DonorInPrison, d1)
    else if inChallenge then DonateResult(DonorInChallenge, d1)
    else if t.key == m.key then DonateResult(SelfDonation, d1)
    else if amount <= 0 then DonateResult(NonPositiveDonation, d1)
    else if amount > a.pockets + a.savings then DonateResult(InsufficientFunds, d1)
    else if a.pockets < 0 then DonateResult(NegativePockets, d1)
    else if a.savings < 0 then DonateResult(NegativeSavings, d1)
    else
      var fromPockets := if a.pockets >= amount then amount else a.pockets;
      var d2 := d1[m.key := PayPocketsFirst(a, amount)];
      DonateResult(Donated(fromPockets, amount - fromPockets), d2[t.key := AddPockets(UserOf(d1, t, sb), amount)])
  }

  /** A donation moves exactly the amount: the donor stays solvent and the pair's total is unchanged. */
  lemma DonationConserves(doc: Document, m: Member, t: Member, inChallenge: bool, amount: int, sb: int)
    ensures var res := DonateRule(doc, m, t, inChallenge, amount, sb);
            res.outcome.Donated? ==>
              var a := UserOf(doc, m, sb);
              var b := UserOf(doc, t, sb);
              res.doc[m.key].pockets >= 0 && res.doc[m.key].savings >= 0 &&
              Total(res.doc[m.key]) == Total(a) - amount &&
              Total(res.doc[t.key]) == Total(b) + amount
  {
  }

  /** The paying part of /donate: the donor's record exists and passed every check. */
  method PayDonation(l: Ledger, m: Member, t: Member, amount: int) returns (o: DonateOutcome)
    requires m.key in l.doc && t.key != m.key
    modifies l
    ensures var a := old(l.doc)[m.key];
            var d1 := old(l.doc)[m.key := PayPocketsFirst(a, amount)];
            o == Donated(if a.pockets >= amount then amount else a.pockets, amount - (if a.pockets >= amount then amount else a.pockets)) &&
            l.doc == d1[t.key := AddPockets(UserOf(old(l.doc), t, l.startingBalance), amount)]
  {
    var pockets := GetPockets(l, m);
    if pockets >= amount {
      var _ := UpdatePockets(l, m, -amount);
      o := Donated(amount, 0);
    } else {
      var remainder := amount - pockets;
      var _ := UpdatePockets(l, m, -pockets);
      var _ := UpdateSavings(l, m, -remainder);
      o := Donated(pockets, remainder);
    }
    var _ := UpdatePockets(l, t, amount);
  }

  /** /donate on the ledger. */
  method Donate(l: Ledger, reg: ChallengeRegistry.Manager, m: Member, t: Member, amount: int) returns (o: DonateOutcome)
    modifies l
    ensures var res := DonateRule(old(l.doc), m, t, reg.IsInChallenge(m.key), amount, l.startingBalance);
            o == res.outcome && l.doc == res.doc
  {
    var free := CheckPrisonStatus(l, m);
    if !free {
      return DonorInPrison;
    }
    var allowed := CheckBalanceChallenge(reg, m);
    if !allowed {
      return DonorInChallenge;
    }
    if t.key == m.key {
      return SelfDonation;
    }
    if amount <= 0 {
      return NonPositiveDonation;
    }
    var pockets := GetPockets(l, m);
    var savings := GetSavings(l, m);
    if amount > pockets + savings {
      return InsufficientFunds;
    }
    if pockets < 0 {
      return NegativePockets;
    }
    if savings < 0 {
      return NegativeSavings;
    }
    o := PayDonation(l, m, t, amount);
  }
}
