/** Printing token amounts: the fixed-point form, the trimmed form, and what they denote. */
module TokenAmount {
  import opened Arithmetic
  import opened Options
  import opened Slices

  const U64_LIMIT: nat := 0x1_0000_0000_0000_0000

  // ----- Decimal digits

  function Digit(d: nat): (c: char)
    requires d < 10
    ensures IsDigit(c) && c as int == '0' as int + d
  {
    '0' + d as char
  }

  predicate IsDigit(c: char) {
    '0' <= c <= '9'
  }

  /** `to_string` of an unsigned number. */
  function Decimal(n: nat): (s: string)
    ensures |s| > 0
  {
    if n < 10 then [Digit(n)] else Decimal(n / 10) + [Digit(n % 10)]
  }

  /** Left-pads with zeros to a width. */
  function PadLeft(s: string, width: nat): (r: string)
    ensures |r| >= width && |r| >= |s|
  {
    if |s| >= width then s else seq(width - |s|, _ => '0') + s
  }

  // ----- The two printed forms

  /** `real_number_string`: pad to decimals + 1 digits and put a point before the last `decimals`. */
  function RealNumberString(amount: nat, decimals: nat): string {
    if decimals > 0 then InsertPoint(PadLeft(Decimal(amount), decimals + 1), decimals) else Decimal(amount)
  }

  function InsertPoint(s: string, decimals: nat): string
    requires decimals <= |s|
  {
    s[..|s| - decimals] + ['.'] + s[|s| - decimals..]
  }

  function TrimEnd(s: string, c: char): string {
    if |s| > 0 && s[|s| - 1] == c then TrimEnd(s[..|s| - 1], c) else s
  }

  /** `real_number_string_trimmed`: without trailing zeros, and then without the point. */
  function RealNumberStringTrimmed(amount: nat, decimals: nat): string {
    if decimals > 0 then TrimEnd(TrimEnd(RealNumberString(amount, decimals), '0'), '.')
    else RealNumberString(amount, decimals)
  }

  // ----- The reference: reading a printed amount

  /** The number its digits spell, the point left out. */
  function Mantissa(s: string): int {
    if |s| == 0 then 0
    else
      var n := |s| - 1;
      if s[n] == '.' then Mantissa(s[..n]) else 10 * Mantissa(s[..n]) + (s[n] as int - '0' as int)
  }

  /** How many characters follow the point; none when there is no point. */
  function FractionDigits(s: string): nat {
    if '.' !in s then 0
    else
      var n := |s| - 1;
      if s[n] == '.' then 0 else 1 + FractionDigits(s[..n])
  }

  function Pow10(n: nat): (p: nat)
    ensures p >= 1
  {
    if n == 0 then 1 else 10 * Pow10(n - 1)
  }

  /** s is digits with a point among them exactly when `decimals` is not zero, and spells
      amount / 10^decimals. */
  ghost predicate Spells(s: string, amount: nat, decimals: nat) {
    && |s| > 0 && s[0] != '.' && s[|s| - 1] != '.'
    && (forall i :: 0 <= i < |s| ==> IsDigit(s[i]) || s[i] == '.')
    && Count(s, '.') == (if decimals > 0 then 1 else 0)
    && FractionDigits(s) == decimals
    && Mantissa(s) == amount
  }

  // ----- How the fixed-point form grows

  lemma PadAppend(s: string, c: char, width: nat)
    requires width >= 1
    ensures PadLeft(s + [c], width) == PadLeft(s, width - 1) + [c]
  {
    if |s| < width - 1 {
      var zeros := seq(width - 1 - |s|, _ => '0');
      assert zeros + (s + [c]) == zeros + s + [c];
    }
  }

  lemma PadZero(width: nat)
    requires width >= 1
    ensures PadLeft(['0'], width) == PadLeft([], width)
  {
    assert seq(width - 1, _ => '0') + ['0'] == seq(width, _ => '0') + [];
  }

  lemma PadStep(a: nat, width: nat)
    requires width >= 2
    ensures PadLeft(Decimal(a), width) == PadLeft(Decimal(a / 10), width - 1) + [Digit(a % 10)]
  {
    hide PadLeft;
    if a < 10 {
      assert a / 10 == 0 && a % 10 == a && Decimal(0) == ['0'];
      PadZero(width - 1);
      PadAppend([], Digit(a), width);
      assert [] + [Digit(a)] == Decimal(a);
    } else {
      PadAppend(Decimal(a / 10), Digit(a % 10), width);
    }
  }

  /** One more decimal appends one more digit. */
  lemma FixedPointStep(a: nat, decimals: nat)
    requires decimals >= 1
    ensures RealNumberString(a, decimals)
            == (if decimals == 1 then Decimal(a / 10) + ['.'] else RealNumberString(a / 10, decimals - 1)) + [Digit(a % 10)]
  {
    hide Decimal, InsertPoint, Digit, PadLeft;
    PadStep(a, decimals + 1);
    PadWide(Decimal(a / 10));
    InsertStep(PadLeft(Decimal(a / 10), decimals), Digit(a % 10), decimals - 1);
  }

  lemma PadWide(s: string)
    requires |s| > 0
    ensures PadLeft(s, 1) == s
  {
  }

  lemma InsertStep(t: string, c: char, decimals: nat)
    requires decimals <= |t|
    ensures InsertPoint(t + [c], decimals + 1) == (if decimals == 0 then t + ['.'] else InsertPoint(t, decimals)) + [c]
  {
    var s := t + [c];
    assert s[..|s| - (decimals + 1)] == t[..|t| - decimals];
    assert s[|s| - (decimals + 1)..] == t[|t| - decimals..] + [c];
  }

  lemma CountLast(s: string, c: char, x: char)
    ensures Count(s + [c], x) == Count(s, x) + (if c == x then 1 else 0)
  {
    assert (s + [c])[..|s|] == s;
  }

  lemma DigitAppended(s: string, amount: nat, decimals: nat, d: nat)
    requires Spells(s, amount, decimals) && d < 10
    ensures Spells(s + [Digit(d)], 10 * amount + d, if decimals > 0 then decimals + 1 else 0)
  {
    var r := s + [Digit(d)];
    assert r[..|s|] == s;
    CountLast(s, Digit(d), '.');
    CountAbsent(s, '.');
    CountAbsent(r, '.');
    hide Count;
  }

  lemma PointAndDigitAppended(s: string, amount: nat, d: nat)
    requires Spells(s, amount, 0) && d < 10
    ensures Spells(s + ['.'] + [Digit(d)], 10 * amount + d, 1)
  {
    var t := s + ['.'];
    var r := t + [Digit(d)];
    assert t[..|s|] == s && r[..|t|] == t;
    CountLast(s, '.', '.');
    CountLast(t, Digit(d), '.');
    assert t[|s|] == '.' && r[|s|] == '.' && r[|t|] == Digit(d) != '.';
    assert '.' in t && '.' in r;
    assert FractionDigits(t) == 0 && FractionDigits(r) == 1;
    assert Mantissa(t) == Mantissa(s) && Mantissa(r) == 10 * Mantissa(t) + d;
    hide Count, FractionDigits, Mantissa;
  }

  lemma {:induction false} DecimalSpells(a: nat)
    ensures Spells(Decimal(a), a, 0)
  {
    if a < 10 {
      assert Decimal(a)[..0] == [];
    } else {
      DecimalSpells(a / 10);
      DigitAppended(Decimal(a / 10), a / 10, 0, a % 10);
    }
  }

  /** Reading back: the fixed-point form spells exactly the amount, with exactly `decimals`
      digits after the point. */
  lemma {:induction false} FixedPointSpells(a: nat, decimals: nat)
    ensures Spells(RealNumberString(a, decimals), a, decimals)
    decreases decimals
  {
    if decimals == 0 {
      DecimalSpells(a);
    } else {
      var q, d := a / 10, a % 10;
      if decimals > 1 {
        FixedPointSpells(q, decimals - 1);
      }
      OneMoreDecimal(a, q, d, decimals);
    }
  }

  lemma OneMoreDecimal(a: nat, q: nat, d: nat, decimals: nat)
    requires d == a % 10 && q == a / 10 && decimals > 0
    requires decimals > 1 ==> Spells(RealNumberString(q, decimals - 1), q, decimals - 1)
    ensures Spells(RealNumberString(a, decimals), a, decimals)
  {
    FixedPointStep(a, decimals);
    hide RealNumberString, Spells, Decimal, Digit;
    if decimals == 1 {
      DecimalSpells(q);
      PointAndDigitAppended(Decimal(q), q, d);
    } else {
      DigitAppended(RealNumberString(q, decimals - 1), q, decimals - 1, d);
    }
  }

  // ----- Trimming

  lemma TrimLast(s: string, c: char, x: char)
    ensures TrimEnd(s + [c], x) == if c == x then TrimEnd(s, x) else s + [c]
  {
    assert (s + [c])[..|s|] == s;
  }

  lemma {:induction false} DecimalEnd(a: nat)
    ensures Decimal(a)[|Decimal(a)| - 1] == Digit(a % 10)
  {
  }

  /** Trimming takes off one zero decimal at a time, and nothing else. */
  lemma TrimStep(a: nat, decimals: nat)
    ensures decimals > 0 && a % 10 == 0 ==>
              RealNumberStringTrimmed(a, decimals) == RealNumberStringTrimmed(a / 10, decimals - 1)
    ensures decimals == 0 || a % 10 != 0 ==>
              RealNumberStringTrimmed(a, decimals) == RealNumberString(a, decimals)
  {
    if decimals > 0 {
      FixedPointStep(a, decimals);
      DecimalEnd(a / 10);
      var whole := if decimals == 1 then Decimal(a / 10) + ['.'] else RealNumberString(a / 10, decimals - 1);
      assert RealNumberString(a, decimals) == whole + [Digit(a % 10)];
      TrimLast(whole, Digit(a % 10), '0');
      if a % 10 != 0 {
        TrimLast(whole, Digit(a % 10), '.');
      } else if decimals == 1 {
        TrimLast(Decimal(a / 10), '.', '0');
        TrimLast(Decimal(a / 10), '.', '.');
      }
      hide RealNumberString, Decimal;
    }
  }

  /** The same value in lowest decimal terms. */
  function Reduce(a: nat, decimals: nat): (r: (nat, nat))
    ensures r.1 <= decimals && (r.1 == 0 || r.0 % 10 != 0)
    decreases decimals
  {
    if decimals > 0 && a % 10 == 0 then Reduce(a / 10, decimals - 1) else (a, decimals)
  }

  lemma {:induction false} TrimmedIsReduced(a: nat, decimals: nat)
    ensures var (b, e) := Reduce(a, decimals);
            RealNumberStringTrimmed(a, decimals) == RealNumberString(b, e)
    decreases decimals
  {
    TrimStep(a, decimals);
    hide RealNumberString, RealNumberStringTrimmed;
    if decimals > 0 && a % 10 == 0 {
      TrimmedIsReduced(a / 10, decimals - 1);
    }
  }

  lemma Assoc(x: nat, y: nat)
    ensures (10 * x) * y == 10 * (x * y) && x * (10 * y) == 10 * (x * y)
  {
  }

  lemma {:induction false} ReducedValue(a: nat, decimals: nat)
    ensures var (b, e) := Reduce(a, decimals); a * Pow10(e) == b * Pow10(decimals)
    decreases decimals
  {
    if decimals > 0 && a % 10 == 0 {
      var (b, e) := Reduce(a / 10, decimals - 1);
      ReducedValue(a / 10, decimals - 1);
      assert a == 10 * (a / 10);
      Assoc(a / 10, Pow10(e));
      Assoc(b, Pow10(decimals - 1));
    }
  }

  /** Trimming preserves value: the trimmed form spells a number with the same value as
      amount / 10^decimals, and ends neither in a point nor in a zero after the point. */
  lemma TrimmedKeepsValue(a: nat, decimals: nat)
    ensures var s := RealNumberStringTrimmed(a, decimals);
            var (b, e) := Reduce(a, decimals);
            && Spells(s, b, e) && a * Pow10(e) == b * Pow10(decimals)
            && ('.' in s ==> s[|s| - 1] != '0' && s[|s| - 1] != '.')
  {
    var (b, e) := Reduce(a, decimals);
    TrimmedIsReduced(a, decimals);
    FixedPointSpells(b, e);
    ReducedValue(a, decimals);
    var s := RealNumberStringTrimmed(a, decimals);
    CountAbsent(s, '.');
    if e > 0 {
      FixedPointStep(b, e);
      assert s[|s| - 1] == Digit(b % 10);
    }
    hide RealNumberString, RealNumberStringTrimmed, Count;
  }

  // ----- One string per value

  lemma PowStep(a: nat, e: nat)
    ensures a * Pow10(0) == a
    ensures e > 0 ==> a * Pow10(e) == 10 * (a * Pow10(e - 1))
  {
    if e > 0 {
      Assoc(a, Pow10(e - 1));
    }
  }

  lemma {:induction false} PowersAgree(a: nat, d: nat, b: nat, e: nat)
    requires a * Pow10(e) == b * Pow10(d) && d > e
    ensures a % 10 == 0
    decreases e
  {
    hide Pow10;
    PowStep(a, e);
    PowStep(b, d);
    if e > 0 {
      PowersAgree(a, d - 1, b, e - 1);
    }
  }

  lemma LowestTermsUnique(a: nat, d: nat, b: nat, e: nat)
    requires d == 0 || a % 10 != 0
    requires e == 0 || b % 10 != 0
    requires a * Pow10(e) == b * Pow10(d)
    ensures a == b && d == e
  {
    if d > e {
      PowersAgree(a, d, b, e);
    } else if e > d {
      PowersAgree(b, e, a, d);
    } else {
      Cancel(a, b, Pow10(d));
    }
  }

  lemma Chain(a: nat, a': nat, b: nat, b': nat, p: nat, p': nat, q: nat, q': nat)
    requires p >= 1 && q >= 1 && p' >= 1 && q' >= 1
    requires a * p' == a' * p && b * q' == b' * q
    ensures a * q == b * p <==> a' * q' == b' * p'
  {
    // a/p == a'/p' and b/q == b'/q', so the two fractions are equal or not together.
    var x, y := a * q, b * p;
    var u, v := a' * q', b' * p';
    assert x * (p' * q') == (a * p') * (q * q') by { Rearrange(a, q, p', q'); }
    assert (a' * p) * (q * q') == u * (p * q) by { Rearrange2(a', p, q, q'); }
    assert y * (p' * q') == (b * q') * (p * p') by { Rearrange3(b, p, p', q'); }
    assert (b' * q) * (p * p') == v * (p * q) by { Rearrange2(b', q, p, p'); }
    if x == y {
      Cancel(u, v, p * q);
    }
    if u == v {
      Cancel(x, y, p' * q');
    }
  }

  lemma Rearrange(a: nat, q: nat, p: nat, r: nat)
    ensures (a * q) * (p * r) == (a * p) * (q * r)
  {
  }

  lemma Rearrange2(a: nat, p: nat, q: nat, r: nat)
    ensures (a * p) * (q * r) == (a * r) * (p * q)
  {
  }

  lemma Rearrange3(b: nat, p: nat, r: nat, q: nat)
    ensures (b * p) * (r * q) == (b * q) * (p * r)
  {
  }

  /** The trimmed form is canonical: two amounts, under any decimals, print the same if and
      only if they are the same number. */
  lemma TrimmedIsCanonical(a: nat, d: nat, b: nat, e: nat)
    ensures RealNumberStringTrimmed(a, d) == RealNumberStringTrimmed(b, e) <==> a * Pow10(e) == b * Pow10(d)
  {
    var (a', d') := Reduce(a, d);
    var (b', e') := Reduce(b, e);
    TrimmedKeepsValue(a, d);
    TrimmedKeepsValue(b, e);
    TrimmedIsReduced(a, d);
    TrimmedIsReduced(b, e);
    Chain(a, a', b, b', Pow10(d), Pow10(d'), Pow10(e), Pow10(e'));
    hide RealNumberString, RealNumberStringTrimmed, Reduce, Pow10, FractionDigits, Mantissa, Count;
    if RealNumberStringTrimmed(a, d) == RealNumberStringTrimmed(b, e) {
      assert a' == b' && d' == e';
    } else if a' * Pow10(e') == b' * Pow10(d') {
      LowestTermsUnique(a', d', b', e');
    }
  }

  /** For fixed decimals no two amounts print alike, trimmed or not. */
  lemma PrintingIsInjective(a: nat, b: nat, decimals: nat)
    ensures RealNumberStringTrimmed(a, decimals) == RealNumberStringTrimmed(b, decimals) ==> a == b
    ensures RealNumberString(a, decimals) == RealNumberString(b, decimals) ==> a == b
  {
    TrimmedIsCanonical(a, decimals, b, decimals);
    FixedPointSpells(a, decimals);
    FixedPointSpells(b, decimals);
    hide RealNumberString, RealNumberStringTrimmed;
    if a * Pow10(decimals) == b * Pow10(decimals) {
      Cancel(a, b, Pow10(decimals));
    }
  }

  // ----- The cached form

  datatype UiTokenAmount = UiTokenAmount(decimals: nat, amount: string, uiAmountString: string) {

    function Print(): string {
      RealNumberString(OrDefault(ParseU64(amount)), decimals)
    }

    function PrintTrimmed(): string {
      if |uiAmountString| > 0 then uiAmountString
      else RealNumberStringTrimmed(OrDefault(ParseU64(amount)), decimals)
    }
  }

  function OrDefault(n: Option<nat>): nat {
    if n.Some? then n.value else 0
  }

  predicate AllDigits(s: string) {
    |s| > 0 && forall i :: 0 <= i < |s| ==> IsDigit(s[i])
  }

  /** `u64::from_str`: digits, perhaps after a plus sign, in range. */
  function ParseU64(s: string): Option<nat> {
    var digits := if |s| > 1 && s[0] == '+' then s[1..] else s;
    if AllDigits(digits) && 0 <= Mantissa(digits) < U64_LIMIT then Some(Mantissa(digits)) else None
  }

  function TokenAmountToUiAmount(amount: nat, decimals: nat): UiTokenAmount {
    UiTokenAmount(decimals, Decimal(amount), RealNumberStringTrimmed(amount, decimals))
  }

  lemma ParseDecimal(amount: nat)
    ensures ParseU64(Decimal(amount)) == if amount <= 0xffff_ffff_ffff_ffff then Some(amount) else None
  {
    DecimalSpells(amount);
    CountAbsent(Decimal(amount), '.');
    hide Decimal, Count;
    assert '+' < '0';
  }

  /** Text that is no number prints as zero. */
  lemma UnreadableIsZero(ui: UiTokenAmount, i: nat)
    requires 0 < i < |ui.amount| && !IsDigit(ui.amount[i]) && ui.uiAmountString == []
    ensures ui.Print() == RealNumberString(0, ui.decimals)
    ensures ui.PrintTrimmed() == RealNumberStringTrimmed(0, ui.decimals)
  {
    var s := ui.amount;
    assert !AllDigits(s) && (s[0] == '+' ==> s[1..][i - 1] == s[i] && !AllDigits(s[1..]));
    assert ParseU64(s).None?;
    hide RealNumberString, RealNumberStringTrimmed, ParseU64;
  }

  /** What the converted amount prints, through its stored text or its cache, is what the
      amount itself prints. */
  lemma UiAmountAgrees(amount: nat, decimals: nat)
    requires amount < U64_LIMIT
    ensures var ui := TokenAmountToUiAmount(amount, decimals);
            && ui.Print() == RealNumberString(amount, decimals)
            && ui.PrintTrimmed() == RealNumberStringTrimmed(amount, decimals)
            && ui.(uiAmountString := []).PrintTrimmed() == RealNumberStringTrimmed(amount, decimals)
  {
    ParseDecimal(amount);
    TrimmedKeepsValue(amount, decimals);
    hide RealNumberString, RealNumberStringTrimmed, ParseU64, Decimal;
  }
}
