/**
 * Card format checks: vendor detection by digit pattern, the Luhn check
 * digit of ISO/IEC 7812-1 Annex B, the CVV length rule and the expiry window.
 *
 * The vendor patterns are written out as prefix and length predicates over
 * the digits of the card number; "today" is a parameter.
 */
module CardValidation {
  import opened PyValues

  datatype Vendor = Visa | Mastercard | Amex | Discover | DinersClub | Jcb

  /** The vendor table, in the order the service tries the patterns. */
  const VendorTable: seq<Vendor> := [Visa, Mastercard, Amex, Discover, DinersClub, Jcb]

  /** The name the service stores in a card's `type` field. */
  function VendorName(v: Vendor): string
  {
    match v
    case Visa => "visa"
    case Mastercard => "mastercard"
    case Amex => "amex"
    case Discover => "discover"
    case DinersClub => "diners_club"
    case Jcb => "jcb"
  }

  /** The card number with every non-digit character (dashes, blanks) removed. */
  function Digits(s: string): (d: string)
    ensures AllDigits(d) && |d| <= |s|
    ensures AllDigits(s) ==> d == s
  {
    if s == [] then []
    else (if IsDigit(s[0]) then [s[0]] else []) + Digits(s[1..])
  }

  /** Stripping works piece by piece: the digits of `a + b` are those of `a` followed by those of `b`. */
  lemma {:induction false} DigitsAppend(a: string, b: string)
    ensures Digits(a + b) == Digits(a) + Digits(b)
    decreases |a|
  {
    if a == [] {
      assert a + b == b;
    } else {
      assert (a + b)[0] == a[0] && (a + b)[1..] == a[1..] + b;
      DigitsAppend(a[1..], b);
    }
  }

  /** One character survives stripping iff it is a digit; with `DigitsAppend`, every digit is kept, in order. */
  lemma DigitsOfChar(c: char)
    ensures Digits([c]) == if IsDigit(c) then [c] else []
  {
    assert [c][1..] == [];
  }

  // ---------------------------------------------------------------------------
  // Vendor patterns, each over a string of digits

  /** 13 or 16 digits starting with 4. */
  predicate VisaPattern(d: string)
  {
    AllDigits(d) && (|d| == 13 || |d| == 16) && d[0] == '4'
  }

  /** 16 digits starting with 51 to 55, or with a four-digit prefix from 2221 to 2720. */
  predicate MastercardPattern(d: string)
  {
    AllDigits(d) && |d| == 16
    && ((d[0] == '5' && '1' <= d[1] <= '5')
        || (d[0] == '2' && 221 <= DecimalValue(d[1..4]) <= 720))
  }

  /** 15 digits starting with 34 or 37. */
  predicate AmexPattern(d: string)
  {
    AllDigits(d) && |d| == 15 && d[0] == '3' && (d[1] == '4' || d[1] == '7')
  }

  /** 16 digits starting with 644 to 649, 654 to 659, 6011, or 622126 to 622925. */
  predicate DiscoverPattern(d: string)
  {
    AllDigits(d) && |d| == 16 && d[0] == '6'
    && ((d[1] == '5' && '4' <= d[2]) || (d[1] == '4' && '4' <= d[2])
        || d[1..4] == "011"
        || (d[1..3] == "22" && 126 <= DecimalValue(d[3..6]) <= 925))
  }

  /** 14 digits starting with 300 to 305, 36 or 38. */
  predicate DinersClubPattern(d: string)
  {
    AllDigits(d) && |d| == 14 && d[0] == '3'
    && ((d[1] == '0' && d[2] <= '5') || d[1] == '6' || d[1] == '8')
  }

  /** 15 digits starting with 2131 or 1800, or 16 digits starting with 35. */
  predicate JcbPattern(d: string)
  {
    AllDigits(d)
    && ((|d| == 15 && (d[..4] == "2131" || d[..4] == "1800"))
        || (|d| == 16 && d[0] == '3' && d[1] == '5'))
  }

  predicate Matches(v: Vendor, d: string)
  {
    match v
    case Visa => VisaPattern(d)
    case Mastercard => MastercardPattern(d)
    case Amex => AmexPattern(d)
    case Discover => DiscoverPattern(d)
    case DinersClub => DinersClubPattern(d)
    case Jcb => JcbPattern(d)
  }

  /** The first vendor of `table` whose pattern matches the whole of `d`. */
  function FirstMatch(table: seq<Vendor>, d: string): (r: Option<Vendor>)
    ensures r.None? <==> forall v :: v in table ==> !Matches(v, d)
    ensures r.Some? ==>
      exists i :: 0 <= i < |table| && table[i] == r.value && Matches(r.value, d)
                  && forall j :: 0 <= j < i ==> !Matches(table[j], d)
  {
    if table == [] then None
    else if Matches(table[0], d) then Some(table[0])
    else
      var r := FirstMatch(table[1..], d);
      assert forall v :: v in table ==> v == table[0] || v in table[1..];
      if r.Some? then
        var i :| 0 <= i < |table[1..]| && table[1..][i] == r.value && Matches(r.value, d)
                 && forall j :: 0 <= j < i ==> !Matches(table[1..][j], d);
        assert table[i + 1] == r.value;
        r
      else r
  }

  /** The vendor of a card number: the first pattern of the table its digits match. */
  function VendorOf(s: string): (r: Option<Vendor>)
    ensures r.Some? ==> Matches(r.value, Digits(s))
    ensures r.None? ==> forall v: Vendor :: !Matches(v, Digits(s))
  {
    EveryVendorInTable();
    FirstMatch(VendorTable, Digits(s))
  }

  /** The vendor table lists every vendor, so a vendor outside it cannot match unnoticed. */
  lemma EveryVendorInTable()
    ensures forall v: Vendor :: v in VendorTable
  {
    forall v: Vendor ensures v in VendorTable {
      InTable(v);
    }
  }

  /** No digit string matches two vendor patterns, so the table order never decides. */
  lemma PatternsDisjoint(v: Vendor, w: Vendor, d: string)
    requires Matches(v, d) && Matches(w, d)
    ensures v == w
  {
  }

  /** A card number has a vendor exactly when its digits match that vendor's pattern. */
  lemma VendorOfMatches(s: string, v: Vendor)
    ensures VendorOf(s) == Some(v) <==> Matches(v, Digits(s))
  {
    var d := Digits(s);
    if Matches(v, d) {
      assert v in VendorTable;
      var r := VendorOf(s);
      assert r.Some?;
      PatternsDisjoint(r.value, v, d);
    }
  }

  /** An amex number has exactly 15 digits and starts with 34 or 37. */
  lemma AmexShape(s: string)
    requires VendorOf(s) == Some(Amex)
    ensures |Digits(s)| == 15 && Digits(s)[..2] in {"34", "37"}
  {
    VendorOfMatches(s, Amex);
    var d := Digits(s);
    assert d[..2] == [d[0], d[1]];
  }

  /** A visa number has 13 or 16 digits and starts with 4. */
  lemma VisaShape(s: string)
    requires VendorOf(s) == Some(Visa)
    ensures |Digits(s)| in {13, 16} && Digits(s)[0] == '4'
  {
    VendorOfMatches(s, Visa);
  }

  /** The vendor depends only on the digits of the card number. */
  lemma VendorIgnoresSeparators(s: string)
    ensures VendorOf(s) == VendorOf(Digits(s))
  {
  }

  /**
   * The service's vendor lookup: tries the table in order and returns the
   * first vendor whose pattern matches, or nothing.
   */
  method CreditCardVendor(s: string) returns (r: Option<Vendor>)
    ensures r == VendorOf(s)
    ensures r.Some? ==> Matches(r.value, Digits(s))
    ensures r.None? ==> forall v: Vendor :: !Matches(v, Digits(s))
  {
    var d := Digits(s);
    var i := 0;
    while i < |VendorTable|
      invariant 0 <= i <= |VendorTable|
      invariant FirstMatch(VendorTable, d) == FirstMatch(VendorTable[i..], d)
    {
      if Matches(VendorTable[i], d) {
        r := Some(VendorTable[i]);
        return;
      }
      i := i + 1;
    }
    r := None;
    forall v: Vendor ensures !Matches(v, d) {
      InTable(v);
    }
  }

  lemma InTable(v: Vendor)
    ensures v in VendorTable
  {
    match v
    case Visa => assert VendorTable[0] == v;
    case Mastercard => assert VendorTable[1] == v;
    case Amex => assert VendorTable[2] == v;
    case Discover => assert VendorTable[3] == v;
    case DinersClub => assert VendorTable[4] == v;
    case Jcb => assert VendorTable[5] == v;
  }

  // ---------------------------------------------------------------------------
  // Luhn check digit (ISO/IEC 7812-1, Annex B)

  /** What one digit adds to the Luhn sum: a doubled value above 9 loses 9. */
  function Contribution(c: char, doubled: bool): (n: nat)
    requires IsDigit(c)
    ensures n <= 9
    ensures !doubled ==> n == DigitValue(c)
  {
    var v := DigitValue(c);
    if !doubled then v else if 2 * v > 9 then 2 * v - 9 else 2 * v
  }

  /**
   * The Luhn sum of `d` read from the right: the rightmost digit is doubled
   * iff `doubleLast`, and doubling alternates from there leftwards.
   */
  function LuhnSum(d: string, doubleLast: bool): (n: nat)
    requires AllDigits(d)
    ensures n <= 9 * |d|
  {
    if d == [] then 0
    else Contribution(d[|d| - 1], doubleLast) + LuhnSum(d[..|d| - 1], !doubleLast)
  }

  /** A card number passes the Luhn check iff the sum over its digits is a multiple of 10. */
  function LuhnValid(s: string): (ok: bool)
    ensures Digits(s) == [] ==> ok
    ensures |Digits(s)| == 1 ==> (ok <==> Digits(s)[0] == '0')
  {
    var d := Digits(s);
    if |d| == 1 then
      LuhnSumOfOneDigit(d);
      LuhnSum(d, false) % 10 == 0
    else
      LuhnSum(d, false) % 10 == 0
  }

  /** A lone digit is its own Luhn sum, a multiple of 10 only when it is 0. */
  lemma LuhnSumOfOneDigit(d: string)
    requires AllDigits(d) && |d| == 1
    ensures LuhnSum(d, false) % 10 == 0 <==> d[0] == '0'
  {
    assert d[..0] == [];
    assert LuhnSum(d, false) == DigitValue(d[0]);
  }

  /** The Luhn sum seen from the left: the first digit is doubled iff it stands an odd distance from the right end. */
  lemma {:induction false} LuhnSumFront(e: string, b: bool)
    requires AllDigits(e) && |e| > 0
    ensures LuhnSum(e, b) == Contribution(e[0], if (|e| - 1) % 2 == 0 then b else !b) + LuhnSum(e[1..], b)
  {
    if |e| > 1 {
      var init := e[..|e| - 1];
      LuhnSumFront(init, !b);
      assert init[1..] == e[1..][..|e[1..]| - 1];
      assert e[1..][|e[1..]| - 1] == e[|e| - 1];
    }
  }

  /**
   * The service's Luhn check: walks the digits from right to left, doubling
   * every digit whose 1-based index has a parity different from the length's.
   */
  method VerifyLuhn(s: string) returns (ok: bool)
    ensures ok == LuhnValid(s)
    ensures Digits(s) == [] ==> ok
  {
    var d := Digits(s);
    var digitSum := 0;
    var parity := |d| % 2;
    var i := |d| - 1;
    while i >= 0
      invariant -1 <= i < |d|
      invariant digitSum == LuhnSum(d[i + 1..], false)
    {
      var j := DigitValue(d[i]);
      if (i + 1) % 2 != parity {
        j := j * 2;
        if j > 9 {
          j := j - 9;
        }
      }
      assert j == Contribution(d[i], (i + 1) % 2 != parity);
      DoubledFromTheRight(|d|, i);
      LuhnSumFront(d[i..], false);
      assert d[i..][1..] == d[i + 1..] && d[i..][0] == d[i];
      digitSum := digitSum + j;
      i := i - 1;
    }
    assert d[0..] == d;
    ok := digitSum % 10 == 0;
  }

  /** Index `i` (0-based) of `n` digits has a 1-based parity unlike `n`'s iff it stands an odd distance from the right end. */
  lemma DoubledFromTheRight(n: int, i: int)
    requires 0 <= i < n
    ensures ((i + 1) % 2 != n % 2) == ((n - i - 1) % 2 != 0)
  {
  }

  /** The rightmost digit is never doubled; the one before it always is. */
  lemma RightmostNotDoubled(payload: string, c: char)
    requires AllDigits(payload) && IsDigit(c)
    ensures LuhnSum(payload + [c], false) == DigitValue(c) + LuhnSum(payload, true)
  {
    var e := payload + [c];
    assert e[..|e| - 1] == payload;
  }

  /** The check digit that completes `payload`. */
  function CheckDigit(payload: string): (c: nat)
    requires AllDigits(payload)
    ensures c <= 9
  {
    (10 - LuhnSum(payload, true) % 10) % 10
  }

  /** Exactly one final digit makes a digit string pass the Luhn check. */
  lemma CheckDigitUnique(payload: string, c: char)
    requires AllDigits(payload) && IsDigit(c)
    ensures LuhnValid(payload + [c]) <==> DigitValue(c) == CheckDigit(payload)
  {
    var e := payload + [c];
    assert AllDigits(e);
    assert Digits(e) == e;
    RightmostNotDoubled(payload, c);
    CompletesToTen(DigitValue(c), LuhnSum(payload, true));
  }

  /** A digit `v` brings `s` to a multiple of ten iff it is ten minus the last digit of `s`, modulo ten. */
  lemma CompletesToTen(v: int, s: nat)
    requires 0 <= v <= 9
    ensures (v + s) % 10 == 0 <==> v == (10 - s % 10) % 10
  {
    var r := s % 10;
    assert s == 10 * (s / 10) + r;
    assert (v + s) % 10 == (v + r) % 10;
  }

  lemma ContributionInjective(x: char, y: char, doubled: bool)
    requires IsDigit(x) && IsDigit(y) && x != y
    ensures Contribution(x, doubled) != Contribution(y, doubled)
  {
  }

  /** Whether the digit at index `k` of `d` is doubled when the rightmost one is doubled iff `b`. */
  function DoubledAt(d: string, k: nat, b: bool): bool
  {
    if (|d| - 1 - k) % 2 == 0 then b else !b
  }

  /** Replacing one digit changes the Luhn sum by the change in that digit's contribution only. */
  lemma {:induction false} LuhnSumReplace(d: string, k: nat, c: char, b: bool)
    requires AllDigits(d) && k < |d| && IsDigit(c)
    ensures AllDigits(d[k := c])
    ensures LuhnSum(d[k := c], b) + Contribution(d[k], DoubledAt(d, k, b))
            == LuhnSum(d, b) + Contribution(c, DoubledAt(d, k, b))
  {
    var e := d[k := c];
    assert AllDigits(e) by {
      forall i | 0 <= i < |e| ensures IsDigit(e[i]) {
        if i != k { assert e[i] == d[i]; }
      }
    }
    var n := |d|;
    assert LuhnSum(e, b) == Contribution(e[n - 1], b) + LuhnSum(e[..n - 1], !b);
    if k == n - 1 {
      assert DoubledAt(d, k, b) == b;
      assert e[..n - 1] == d[..n - 1];
    } else {
      assert DoubledAt(d[..n - 1], k, !b) == DoubledAt(d, k, b);
      LuhnSumReplace(d[..n - 1], k, c, !b);
      assert e[..n - 1] == d[..n - 1][k := c];
      assert e[n - 1] == d[n - 1];
    }
  }

  lemma DistinctModTen(x: int, y: int)
    requires x != y && -9 <= x - y <= 9
    ensures x % 10 != y % 10
  {
  }

  /** Changing any single digit changes the Luhn sum modulo 10, so the check catches it. */
  lemma LuhnDetectsSingleDigitError(d: string, k: nat, c: char, b: bool)
    requires AllDigits(d) && k < |d| && IsDigit(c) && c != d[k]
    ensures AllDigits(d[k := c])
    ensures LuhnSum(d[k := c], b) % 10 != LuhnSum(d, b) % 10
  {
    LuhnSumReplace(d, k, c, b);
    ContributionInjective(c, d[k], DoubledAt(d, k, b));
    DistinctModTen(LuhnSum(d[k := c], b), LuhnSum(d, b));
  }

  // ---------------------------------------------------------------------------
  // CVV, whole card, expiry

  /** The CVV has 4 characters for amex, 3 for any other recognised vendor; an unrecognised card always fails. */
  function ValidateCvv(card: string, cvv: string): (ok: bool)
    ensures ok ==> VendorOf(card).Some?
    ensures VendorOf(card) == Some(Amex) ==> (ok <==> |cvv| == 4)
    ensures VendorOf(card).Some? && VendorOf(card) != Some(Amex) ==> (ok <==> |cvv| == 3)
  {
    var vendor := VendorOf(Digits(card));
    if vendor == Some(Amex) then |cvv| == 4
    else if vendor.Some? then |cvv| == 3
    else false
  }

  /** The overall verdict on a card with its three sub-results, in the service's order. */
  datatype CardCheck = CardCheck(valid: bool, vendor: Option<Vendor>, luhn: bool, cvv: bool)

  function ValidateCard(card: string, cvv: string): (r: CardCheck)
    ensures r.valid <==> r.vendor.Some? && r.luhn && r.cvv
    ensures r.vendor == VendorOf(card) && r.luhn == LuhnValid(card) && r.cvv == ValidateCvv(card, cvv)
    ensures r.valid <==> LuhnValid(card) && ValidateCvv(card, cvv)
  {
    var vendor := VendorOf(card);
    var luhn := LuhnValid(card);
    var cvvOk := ValidateCvv(card, cvv);
    CardCheck(vendor.Some? && luhn && cvvOk, vendor, luhn, cvvOk)
  }

  /** The number of years ahead an expiry may lie, unless the caller says otherwise. */
  const DefaultMaxFutureYear := 5

  /**
   * An expiry month is valid iff the 28th of that month lies strictly after
   * today and its year lies fewer than `maxFutureYear` years ahead.
   * Months outside 1..12 and years outside 1..9999 make Python's date
   * constructor raise, so they are excluded.
   */
  function ValidateDate(month: int, year: int, today: Date, maxFutureYear: int): (ok: bool)
    requires 1 <= month <= 12 && 1 <= year <= 9999
    ensures year >= today.year + maxFutureYear ==> !ok
    ensures today.year < year < today.year + maxFutureYear ==> ok
    ensures year < today.year ==> !ok
    ensures year == today.year && month == today.month ==> (ok <==> today.day < 28 && 0 < maxFutureYear)
    ensures year == today.year && month < today.month ==> !ok
    ensures year == today.year && month > today.month ==> (ok <==> 0 < maxFutureYear)
  {
    Before(today, Date(year, month, 28)) && year - today.year < maxFutureYear
  }

  /**
   * The month and year values a caller passes through `int()` before the
   * expiry check: both convert, to a month of the year and a year Python's
   * dates can hold.
   */
  predicate DateArgsValid(month: Value, year: Value)
  {
    ParseInt(month).Some? && ParseInt(year).Some?
    && 1 <= ParseInt(month).value <= 12 && 1 <= ParseInt(year).value <= 9999
  }

  /** The exception `int()` raises on a value it cannot convert. */
  function IntError(v: Value): (e: Raised)
    requires ParseInt(v).None?
  {
    if v.Str? then ValueError("int") else TypeError("int")
  }

  /**
   * `validate_date` on the values it is given: `int()` of the year, then of
   * the month, then the 28th of that month as a date, each of which can
   * raise; otherwise the comparison with today that `ValidateDate` states.
   */
  function ExpiryCheck(month: Value, year: Value, today: Date, maxFutureYear: int): (r: Result<bool>)
    ensures r.Raise? <==> !DateArgsValid(month, year)
    ensures ParseInt(year).None? ==> r == Raise(IntError(year))
    ensures ParseInt(year).Some? && ParseInt(month).None? ==> r == Raise(IntError(month))
    ensures r.Ok? ==> r.value == ValidateDate(ParseInt(month).value, ParseInt(year).value, today, maxFutureYear)
  {
    if ParseInt(year).None? then Raise(IntError(year))
    else if ParseInt(month).None? then Raise(IntError(month))
    else
      var m := ParseInt(month).value;
      var y := ParseInt(year).value;
      if !(1 <= m <= 12 && 1 <= y <= 9999) then Raise(ValueError("date"))
      else Ok(ValidateDate(m, y, today, maxFutureYear))
  }
}
