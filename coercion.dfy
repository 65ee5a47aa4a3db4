/** Numeric coercion shared by both page scripts: `toNumber`, which turns loosely
    formatted currency text into a number and never fails; the character filter
    of `applyMoneyToInput`; and the decimal and en-US currency renderings that
    `toNumber` is proved to read back. */
module Coercion {
  import opened Wrappers

  // ---------- character filters ----------

  /** The characters of `s` that satisfy `p`, in order: a global regex
      replacement of the other characters by the empty string. */
  function Keep(s: string, p: char -> bool): string {
    if s == [] then []
    else if p(s[|s| - 1]) then Keep(s[..|s| - 1], p) + [s[|s| - 1]]
    else Keep(s[..|s| - 1], p)
  }

  /** The filter never lengthens its input and every character it keeps passes it. */
  lemma {:induction false} KeepPasses(s: string, p: char -> bool)
    ensures |Keep(s, p)| <= |s|
    ensures forall i :: 0 <= i < |Keep(s, p)| ==> p(Keep(s, p)[i])
    decreases |s|
  {
    if s != [] {
      KeepPasses(s[..|s| - 1], p);
    }
  }

  lemma {:induction false} KeepAppend(a: string, b: string, p: char -> bool)
    ensures Keep(a + b, p) == Keep(a, p) + Keep(b, p)
    decreases |b|
  {
    if b == [] {
      assert a + b == a;
    } else {
      var b' := b[..|b| - 1];
      assert (a + b)[..|a + b| - 1] == a + b';
      assert (a + b)[|a + b| - 1] == b[|b| - 1];
      KeepAppend(a, b', p);
    }
  }

  /** A filter leaves a string alone exactly when every character passes it. */
  lemma {:induction false} KeepIdentity(s: string, p: char -> bool)
    ensures Keep(s, p) == s <==> forall i :: 0 <= i < |s| ==> p(s[i])
    decreases |s|
  {
    KeepPasses(s, p);
    if s != [] && forall i :: 0 <= i < |s| ==> p(s[i]) {
      KeepIdentity(s[..|s| - 1], p);
    }
  }

  /** Characters toNumber deletes before parsing (the class `[$, ]`). */
  predicate NotNoise(c: char) {
    c != '$' && c != ',' && c != ' '
  }

  /** `String(v).replace(/[$, ]/g, "")`. */
  function Strip(s: string): string {
    Keep(s, NotNoise)
  }

  /** Characters kept by `applyMoneyToInput`'s cleaner (the class `[0-9.\-]`). */
  predicate IsMoneyChar(c: char) {
    ('0' <= c <= '9') || c == '.' || c == '-'
  }

  /** `String(amountStr).replace(/[^0-9.\-]/g, "")`. */
  function Clean(s: string): string {
    Keep(s, IsMoneyChar)
  }

  /** The cleaner's result holds only digits, `.` and `-`; every such character of the
      input survives, in order; and cleaning a second time changes nothing. */
  lemma CleanProperties(s: string)
    ensures forall i :: 0 <= i < |Clean(s)| ==> IsMoneyChar(Clean(s)[i])
    ensures Clean(Clean(s)) == Clean(s)
    ensures Clean(s) == s <==> forall i :: 0 <= i < |s| ==> IsMoneyChar(s[i])
  {
    KeepPasses(s, IsMoneyChar);
    KeepIdentity(Clean(s), IsMoneyChar);
    KeepIdentity(s, IsMoneyChar);
  }

  // ---------- String.prototype.trim ----------

  /** ECMAScript WhiteSpace and LineTerminator code points. */
  predicate IsWhiteSpace(c: char) {
    c == '\t' || c == '\n' || c == '\U{B}' || c == '\U{C}' || c == '\r' || c == ' '
    || c == '\U{A0}' || c == '\U{1680}' || ('\U{2000}' <= c <= '\U{200A}')
    || c == '\U{2028}' || c == '\U{2029}' || c == '\U{202F}' || c == '\U{205F}'
    || c == '\U{3000}' || c == '\U{FEFF}'
  }

  function TrimStart(s: string): string {
    if s != [] && IsWhiteSpace(s[0]) then TrimStart(s[1..]) else s
  }

  function TrimEnd(s: string): string {
    if s != [] && IsWhiteSpace(s[|s| - 1]) then TrimEnd(s[..|s| - 1]) else s
  }

  /** `s.trim()`. */
  function Trim(s: string): string {
    TrimEnd(TrimStart(s))
  }

  /** `trimStart` drops the longest all-white-space prefix: what it keeps is a suffix
      of the input that is empty or starts with a non-white-space character. */
  lemma {:induction false} TrimStartDropsWhiteSpace(s: string)
    ensures var r := TrimStart(s);
      |r| <= |s| && r == s[|s| - |r|..] &&
      (forall i :: 0 <= i < |s| - |r| ==> IsWhiteSpace(s[i])) &&
      (r == [] || !IsWhiteSpace(r[0]))
    decreases |s|
  {
    if s != [] && IsWhiteSpace(s[0]) {
      TrimStartDropsWhiteSpace(s[1..]);
    }
  }

  /** `trimEnd` drops the longest all-white-space suffix. */
  lemma {:induction false} TrimEndDropsWhiteSpace(s: string)
    ensures var r := TrimEnd(s);
      |r| <= |s| && r == s[..|r|] &&
      (forall i :: |r| <= i < |s| ==> IsWhiteSpace(s[i])) &&
      (r == [] || !IsWhiteSpace(r[|r| - 1]))
    decreases |s|
  {
    if s != [] && IsWhiteSpace(s[|s| - 1]) {
      TrimEndDropsWhiteSpace(s[..|s| - 1]);
    }
  }

  /** Neither end of a trimmed string is white space. */
  lemma TrimEnds(s: string)
    ensures var r := Trim(s); r == [] || (!IsWhiteSpace(r[0]) && !IsWhiteSpace(r[|r| - 1]))
  {
    var t := TrimStart(s);
    TrimStartDropsWhiteSpace(s);
    TrimEndDropsWhiteSpace(t);
    var r := TrimEnd(t);
    assert r != [] ==> r[0] == t[0];
  }

  /** Trimming removes only white space from the two ends: a string that does not
      begin or end with white space is left as it is. */
  lemma TrimUnchanged(s: string)
    requires s == [] || (!IsWhiteSpace(s[0]) && !IsWhiteSpace(s[|s| - 1]))
    ensures Trim(s) == s
  {
  }

  // ---------- Number(string) ----------

  /** Value of a decimal digit, or -1 for any other character. */
  function DigitValue(c: char): int {
    if '0' <= c <= '9' then c as int - '0' as int else -1
  }

  predicate IsDigit(c: char) {
    '0' <= c <= '9'
  }

  predicate AllDigits(s: string) {
    forall i :: 0 <= i < |s| ==> IsDigit(s[i])
  }

  /** The value of a decimal numeral, most significant digit first. */
  function NumeralValue(s: string): nat
    requires AllDigits(s)
  {
    if s == [] then 0
    else 10 * NumeralValue(s[..|s| - 1]) + DigitValue(s[|s| - 1])
  }

  /** Index of the first `c` in `s`, or `|s|` if there is none. */
  function IndexOf(s: string, c: char): (r: nat)
    ensures r <= |s|
  {
    if s == [] then 0 else if s[0] == c then 0 else 1 + IndexOf(s[1..], c)
  }

  function Pow10(n: nat): (r: real)
    ensures r >= 1.0
  {
    if n == 0 then 1.0 else 10.0 * Pow10(n - 1)
  }

  /** Digits with an optional fraction, `whole.fraction`, with at least one digit. */
  function ParseMantissa(s: string): Option<real> {
    var dot := IndexOf(s, '.');
    var whole := s[..dot];
    var fraction := if dot < |s| then s[dot + 1..] else [];
    if !AllDigits(whole) || !AllDigits(fraction) || (whole == [] && fraction == []) then None
    else Some(MantissaValue(whole, fraction))
  }

  /** The value of `whole.fraction` written in decimal. */
  function MantissaValue(whole: string, fraction: string): real
    requires AllDigits(whole) && AllDigits(fraction)
  {
    NumeralValue(whole) as real + NumeralValue(fraction) as real / Pow10(|fraction|)
  }

  /** `Number(t)` for a trimmed, non-empty `t`, over decimal literals: an optional sign
      and digits with an optional fraction. `None` stands for NaN. */
  function ParseNumber(t: string): Option<real> {
    if t != [] && t[0] == '-' then
      match ParseMantissa(t[1..])
      case Some(x) => Some(-x)
      case None => None
    else if t != [] && t[0] == '+' then ParseMantissa(t[1..])
    else ParseMantissa(t)
  }

  /** `toNumber(v)`: `None` is `null`/`undefined`. Deletes every `$`, `,` and space,
      trims, and parses; empty text and a NaN parse give 0. */
  function ToNumber(v: Option<string>): real {
    match v
    case None => 0.0
    case Some(s) =>
      var t := Trim(Strip(s));
      if t == [] then 0.0
      else match ParseNumber(t)
        case Some(n) => n
        case None => 0.0
  }

  /** toNumber reads the text that is left once the currency noise is gone: inserting a
      `$`, `,` or space anywhere never changes the number. */
  lemma ToNumberIgnoresNoise(a: string, c: char, b: string)
    requires !NotNoise(c)
    ensures ToNumber(Some(a + [c] + b)) == ToNumber(Some(a + b))
  {
    KeepAppend(a + [c], b, NotNoise);
    KeepAppend(a, [c], NotNoise);
    KeepAppend(a, b, NotNoise);
    assert Keep([c], NotNoise) == [] by {
      assert [c][..0] == [];
    }
  }

  // ---------- renderings that toNumber reads back ----------

  function DigitChar(d: nat): (c: char)
    requires d < 10
    ensures IsDigit(c) && DigitValue(c) == d
  {
    ('0' as int + d) as char
  }

  /** Decimal digits of a natural number, without leading zeros. */
  function NatDigits(n: nat): (r: string)
    ensures r != [] && AllDigits(r)
  {
    if n < 10 then [DigitChar(n)] else NatDigits(n / 10) + [DigitChar(n % 10)]
  }

  lemma {:induction false} NatDigitsValue(n: nat)
    ensures NumeralValue(NatDigits(n)) == n
  {
    if n >= 10 {
      var s := NatDigits(n);
      assert s[..|s| - 1] == NatDigits(n / 10);
      NatDigitsValue(n / 10);
    }
  }

  /** `String(i)` for an integer. */
  function IntText(i: int): string {
    if i < 0 then "-" + NatDigits(-i) else NatDigits(i)
  }

  function TwoDigits(k: nat): string
    requires k < 100
  {
    [DigitChar(k / 10), DigitChar(k % 10)]
  }

  function ThreeDigits(k: nat): string
    requires k < 1000
  {
    [DigitChar(k / 100), DigitChar(k / 10 % 10), DigitChar(k % 10)]
  }

  /** A whole number with en-US thousands separators: "1,234,567". */
  function Grouped(n: nat): string {
    if n < 1000 then NatDigits(n) else Grouped(n / 1000) + "," + ThreeDigits(n % 1000)
  }

  /** A cent amount as plain decimal text with two fraction digits: "-1234.56". */
  function DecimalText(cents: int): string {
    if cents < 0 then "-" + CentsText(-cents) else CentsText(cents)
  }

  /** A non-negative cent amount as whole dollars, a point and two cent digits. */
  function CentsText(m: nat): string {
    NatDigits(m / 100) + "." + TwoDigits(m % 100)
  }

  /** A cent amount as en-US currency text: "-$1,234.56". */
  function UsdText(cents: int): string {
    var m := if cents < 0 then -cents else cents;
    var u := Grouped(m / 100) + "." + TwoDigits(m % 100);
    if cents < 0 then "-$" + u else "$" + u
  }

  lemma DigitsOfThousand(n: nat)
    ensures n / 10 / 10 == n / 100 && n / 100 / 10 == n / 1000
    ensures (n % 1000) / 100 == n / 100 % 10
    ensures (n % 1000) / 10 % 10 == n / 10 % 10
    ensures (n % 1000) % 10 == n % 10
  {
    assert n / 10 / 10 == n / 100 by {}
    assert n / 100 / 10 == n / 1000 by {}
    assert (n % 1000) / 100 == n / 100 % 10 by {}
    assert (n % 1000) / 10 % 10 == n / 10 % 10 by {}
    assert (n % 1000) % 10 == n % 10 by {}
  }

  lemma NatDigitsByThousands(n: nat)
    requires n >= 1000
    ensures NatDigits(n) == NatDigits(n / 1000) + ThreeDigits(n % 1000)
  {
    DigitsOfThousand(n);
    var d1, d2, d3 := DigitChar(n / 100 % 10), DigitChar(n / 10 % 10), DigitChar(n % 10);
    assert NatDigits(n) == NatDigits(n / 10) + [d3];
    assert NatDigits(n / 10) == NatDigits(n / 100) + [d2];
    assert NatDigits(n / 100) == NatDigits(n / 1000) + [d1];
    assert ThreeDigits(n % 1000) == [d1, d2, d3];
    assert NatDigits(n / 1000) + [d1] + [d2] + [d3] == NatDigits(n / 1000) + [d1, d2, d3];
  }

  /** Any filter that keeps digits and drops `,` turns grouped digits into plain ones. */
  lemma {:induction false} KeepGrouped(n: nat, p: char -> bool)
    requires forall c :: IsDigit(c) ==> p(c)
    requires !p(',')
    ensures Keep(Grouped(n), p) == NatDigits(n)
  {
    if n < 1000 {
      KeepIdentity(NatDigits(n), p);
    } else {
      KeepGrouped(n / 1000, p);
      KeepGroupedStep(n, p);
    }
  }

  /** One group: the filter keeps the three digits and drops the separator before them. */
  lemma KeepGroupedStep(n: nat, p: char -> bool)
    requires n >= 1000
    requires forall c :: IsDigit(c) ==> p(c)
    requires !p(',')
    requires Keep(Grouped(n / 1000), p) == NatDigits(n / 1000)
    ensures Keep(Grouped(n), p) == NatDigits(n)
  {
    var t := ThreeDigits(n % 1000);
    KeepAppend(Grouped(n / 1000) + ",", t, p);
    KeepAppend(Grouped(n / 1000), ",", p);
    assert Keep(",", p) == [] by {
      assert ","[..0] == [];
    }
    KeepIdentity(t, p);
    NatDigitsByThousands(n);
  }

  lemma KeepCurrencySign(negative: bool, p: char -> bool)
    requires !p('$')
    requires negative ==> p('-')
    ensures Keep(if negative then "-$" else "$", p) == if negative then "-" else ""
  {
    var sign := if negative then "-$" else "$";
    if negative {
      assert sign[..1] == "-";
      assert sign[..1][..0] == [];
      assert Keep(sign[..1][..0], p) == [];
      assert Keep(sign[..1], p) == "-";
    } else {
      assert sign[..0] == [];
    }
  }

  /** Filtering the digits after the sign: grouped digits become plain digits and
      the point and the two cent digits stay. */
  lemma KeepUsdBody(n: nat, t: string, p: char -> bool)
    requires AllDigits(t)
    requires forall c :: IsDigit(c) ==> p(c)
    requires !p(',') && p('.')
    ensures Keep(Grouped(n) + "." + t, p) == NatDigits(n) + "." + t
  {
    KeepAppend(Grouped(n) + ".", t, p);
    KeepAppend(Grouped(n), ".", p);
    KeepGrouped(n, p);
    assert "."[..0] == [];
    KeepIdentity(t, p);
  }

  lemma CurrencyFilters(cents: int, p: char -> bool)
    requires forall c :: IsDigit(c) ==> p(c)
    requires !p(',') && !p('$') && p('.')
    requires cents < 0 ==> p('-')
    ensures Keep(UsdText(cents), p) == DecimalText(cents)
  {
    var m := if cents < 0 then -cents else cents;
    var g := Grouped(m / 100);
    var t := TwoDigits(m % 100);
    var sign := if cents < 0 then "-$" else "$";
    assert UsdText(cents) == sign + (g + "." + t);
    KeepAppend(sign, g + "." + t, p);
    KeepCurrencySign(cents < 0, p);
    KeepUsdBody(m / 100, t, p);
    var d := NatDigits(m / 100) + "." + t;
    if cents < 0 {
      assert DecimalText(cents) == "-" + d;
    } else {
      assert DecimalText(cents) == d;
      assert "" + d == d;
    }
  }

  /** `applyMoneyToInput`'s cleaner turns en-US currency text into plain decimal text:
      "$1,626.45" becomes "1626.45", and a leading minus sign survives. */
  lemma CleanUsdText(cents: int)
    ensures Clean(UsdText(cents)) == DecimalText(cents)
  {
    CurrencyFilters(cents, IsMoneyChar);
  }

  // ---------- reading the renderings back ----------

  /** With no `c` in `s`, the search runs off the end. */
  lemma {:induction false} IndexOfAbsent(s: string, c: char)
    requires forall i :: 0 <= i < |s| ==> s[i] != c
    ensures IndexOf(s, c) == |s|
    decreases |s|
  {
    if s != [] {
      assert s[0] != c;
      IndexOfAbsent(s[1..], c);
    }
  }

  /** The search stops at the first `c`. */
  lemma {:induction false} IndexOfAt(s: string, c: char, k: nat)
    requires k < |s| && s[k] == c
    requires forall i :: 0 <= i < k ==> s[i] != c
    ensures IndexOf(s, c) == k
    decreases k
  {
    if k > 0 {
      assert s[0] != c;
      assert s[1..][k - 1] == s[k];
      IndexOfAt(s[1..], c, k - 1);
    }
  }

  lemma ParseMantissaWhole(a: string)
    requires a != [] && AllDigits(a)
    ensures ParseMantissa(a) == Some(NumeralValue(a) as real)
  {
    IndexOfAbsent(a, '.');
    assert a[..|a|] == a;
    assert MantissaValue(a, []) == NumeralValue(a) as real;
  }

  lemma ParseMantissaPoint(a: string, b: string)
    requires a != [] && AllDigits(a) && AllDigits(b)
    ensures ParseMantissa(a + "." + b) == Some(MantissaValue(a, b))
  {
    var s := a + "." + b;
    assert s[|a|] == '.';
    forall i | 0 <= i < |a|
      ensures s[i] != '.'
    {
      assert s[i] == a[i];
    }
    IndexOfAt(s, '.', |a|);
    var dot := IndexOf(s, '.');
    assert s[..dot] == a;
    assert (if dot < |s| then s[dot + 1..] else []) == b;
  }

  lemma TwoDigitsValue(k: nat)
    requires k < 100
    ensures AllDigits(TwoDigits(k)) && NumeralValue(TwoDigits(k)) == k
  {
    var b := TwoDigits(k);
    assert b[..1] == [DigitChar(k / 10)];
    assert b[..1][..0] == [];
    assert NumeralValue(b[..1]) == k / 10;
    assert NumeralValue(b) == 10 * (k / 10) + k % 10;
  }

  /** Signed decimal text: a leading `-` negates the unsigned parse, and text that
      starts with a digit is parsed as an unsigned decimal. */
  lemma ParseSigned(t: string, u: string, negative: bool, x: real)
    requires ParseMantissa(u) == Some(x)
    requires u != [] && IsDigit(u[0])
    requires t == if negative then "-" + u else u
    ensures ParseNumber(t) == Some(if negative then -x else x)
  {
    if negative {
      assert t[0] == '-' && t[1..] == u;
    }
  }

  /** toNumber of text with no currency noise and no surrounding white space is the
      parse of the text itself. */
  lemma ToNumberOfPlainText(s: string)
    requires s != []
    requires forall i :: 0 <= i < |s| ==> NotNoise(s[i])
    requires !IsWhiteSpace(s[0]) && !IsWhiteSpace(s[|s| - 1])
    ensures ToNumber(Some(s)) == match ParseNumber(s) case Some(n) => n case None => 0.0
  {
    KeepIdentity(s, NotNoise);
    TrimUnchanged(s);
  }

  /** Number(String(i)) == i: the decimal rendering of an integer reads back as that integer. */
  lemma ParseIntText(i: int)
    ensures ParseNumber(IntText(i)) == Some(i as real)
  {
    var n := if i < 0 then -i else i;
    ParseNatDigits(n);
    ParseSigned(IntText(i), NatDigits(n), i < 0, n as real);
  }

  /** The digits of a natural number, parsed as an unsigned decimal, give that number. */
  lemma ParseNatDigits(n: nat)
    ensures IsDigit(NatDigits(n)[0]) && ParseMantissa(NatDigits(n)) == Some(n as real)
  {
    NatDigitsValue(n);
    ParseMantissaWhole(NatDigits(n));
  }

  /** toNumber reads the decimal rendering of any integer back as that integer. */
  lemma ToNumberOfIntText(i: int)
    ensures ToNumber(Some(IntText(i))) == i as real
  {
    var s := IntText(i);
    forall k | 0 <= k < |s|
      ensures NotNoise(s[k]) && (IsDigit(s[k]) || s[k] == '-')
    {
      if i < 0 && k > 0 {
        assert s[k] == NatDigits(-i)[k - 1];
      }
    }
    ParseIntText(i);
    ToNumberOfPlainText(s);
  }

  /** The unsigned decimal text of `m` cents starts with a digit and reads as m / 100. */
  lemma ParseCentsText(m: nat)
    ensures IsDigit(CentsText(m)[0]) && ParseMantissa(CentsText(m)) == Some(m as real / 100.0)
  {
    var a, b := NatDigits(m / 100), TwoDigits(m % 100);
    CentsMantissa(m);
    ParseMantissaPoint(a, b);
    assert CentsText(m)[0] == a[0];
  }

  /** The decimal text of a cent amount is an optional `-` before unsigned text that
      starts with a digit and reads as the magnitude of the amount. */
  lemma DecimalTextParts(cents: int) returns (u: string, x: real)
    ensures u != [] && IsDigit(u[0]) && ParseMantissa(u) == Some(x)
    ensures DecimalText(cents) == if cents < 0 then "-" + u else u
    ensures (if cents < 0 then -x else x) == cents as real / 100.0
  {
    var m: nat := if cents < 0 then -cents else cents;
    u, x := CentsText(m), m as real / 100.0;
    ParseCentsText(m);
  }

  /** The digits of the whole dollars and the two cent digits make up the amount. */
  lemma CentsMantissa(m: nat)
    ensures MantissaValue(NatDigits(m / 100), TwoDigits(m % 100)) == m as real / 100.0
  {
    var d, c := m / 100, m % 100;
    var a, b := NatDigits(d), TwoDigits(c);
    NatDigitsValue(d);
    TwoDigitsValue(c);
    assert |b| == 2;
    assert Pow10(2) == 100.0;
    assert MantissaValue(a, b) == d as real + c as real / 100.0;
    CentsSplit(m);
  }

  lemma CentsSplit(m: nat)
    ensures (m / 100) as real + (m % 100) as real / 100.0 == m as real / 100.0
  {
    assert m == (m / 100) * 100 + m % 100;
  }

  lemma DecimalTextIsPlain(cents: int)
    ensures var s := DecimalText(cents);
            s != [] && !IsWhiteSpace(s[0]) && !IsWhiteSpace(s[|s| - 1])
            && forall i :: 0 <= i < |s| ==> IsMoneyChar(s[i])
  {
    var m := if cents < 0 then -cents else cents;
    var sign := if cents < 0 then "-" else "";
    var a := NatDigits(m / 100);
    var b := TwoDigits(m % 100);
    var s := DecimalText(cents);
    assert s == sign + a + "." + b;
    forall i | 0 <= i < |s|
      ensures IsMoneyChar(s[i])
    {
      if i < |sign| {
        assert s[i] == '-';
      } else if i < |sign| + |a| {
        assert s[i] == a[i - |sign|];
      } else if i > |sign| + |a| {
        assert s[i] == b[i - |sign| - |a| - 1];
      }
    }
    assert s[|s| - 1] == b[1];
  }

  /** toNumber reads plain decimal cent text back exactly, negative amounts included. */
  lemma ToNumberOfDecimalText(cents: int)
    ensures ToNumber(Some(DecimalText(cents))) == cents as real / 100.0
  {
    DecimalTextIsPlain(cents);
    var u, x := DecimalTextParts(cents);
    ParseSigned(DecimalText(cents), u, cents < 0, x);
    ToNumberOfPlainText(DecimalText(cents));
  }

  /** toNumber reads en-US currency text back exactly: toNumber("-$1,234.56") == -1234.56.
      The `$`, the thousands separators and the sign are all handled, and negative
      amounts are not clamped. */
  lemma ToNumberOfUsdText(cents: int)
    ensures ToNumber(Some(UsdText(cents))) == cents as real / 100.0
  {
    CurrencyFilters(cents, NotNoise);
    DecimalTextIsPlain(cents);
    KeepIdentity(DecimalText(cents), NotNoise);
    ToNumberOfDecimalText(cents);
  }

  /** Worked case: toNumber("$1,234.56") == 1234.56. */
  lemma ToNumberCurrencyExample()
    ensures ToNumber(Some("$1,234.56")) == 1234.56
  {
    assert NatDigits(1) == "1";
    assert Grouped(1234) == "1,234";
    assert TwoDigits(56) == "56";
    assert UsdText(123456) == "$1,234.56";
    ToNumberOfUsdText(123456);
  }

  /** Worked case: a negative amount is returned unclamped, toNumber("-50") == -50. */
  lemma ToNumberNegativeExample()
    ensures ToNumber(Some("-50")) == -50.0
  {
    assert NatDigits(50) == "50";
    assert IntText(-50) == "-50";
    ToNumberOfIntText(-50);
  }

  /** An ASCII letter, upper or lower case. */
  predicate IsLetter(c: char) {
    ('a' <= c <= 'z') || ('A' <= c <= 'Z')
  }

  lemma ParseNumberOfWord(t: string)
    requires t != [] && forall i :: 0 <= i < |t| ==> IsLetter(t[i])
    ensures ParseNumber(t) == None
  {
    IndexOfAbsent(t, '.');
    assert t[..|t|] == t;
    assert !IsDigit(t[0]);
  }

  /** Words are not numbers: text made of letters gives 0 (for "Infinity", the one
      word `Number()` accepts, the result is not finite and also gives 0). */
  lemma ToNumberOfWord(t: string)
    requires t != [] && forall i :: 0 <= i < |t| ==> IsLetter(t[i])
    ensures ToNumber(Some(t)) == 0.0
  {
    ToNumberOfPlainText(t);
    ParseNumberOfWord(t);
  }

  /** Worked case: toNumber("abc") == 0. */
  lemma ToNumberLettersExample()
    ensures ToNumber(Some("abc")) == 0.0
  {
    ToNumberOfWord("abc");
  }
}
