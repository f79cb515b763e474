/** The decimal text of money: `Money.String` and `parseMinorUnits`. */
module Decimal {
  import opened Text
  import opened Wrappers
  import opened Monetary

  predicate IsDigit(c: char) { '0' <= c <= '9' }

  predicate AllDigits(s: string) { forall i :: 0 <= i < |s| ==> IsDigit(s[i]) }

  function DigitChar(d: nat): (c: char)
    requires d < 10
    ensures IsDigit(c) && DigitValue(c) == d
  {
    '0' + d as char
  }

  function DigitValue(c: char): (d: nat)
    requires IsDigit(c)
    ensures d < 10
  {
    (c - '0') as nat
  }

  /** `%d` of a non-negative number. */
  function Digits(n: nat): (s: string)
    ensures s != "" && AllDigits(s)
  {
    if n < 10 then [DigitChar(n)] else Digits(n / 10) + [DigitChar(n % 10)]
  }

  /** The number a digit string denotes. */
  function Value(s: string): nat
    requires AllDigits(s)
  {
    if s == "" then 0 else 10 * Value(s[..|s| - 1]) + DigitValue(s[|s| - 1])
  }

  /** `%02d` of a number below one hundred. */
  function TwoDigits(n: nat): string
    requires n < 100
  {
    [DigitChar(n / 10), DigitChar(n % 10)]
  }

  function Magnitude(minor: int64): (n: nat)
    ensures n == if minor < 0 then -(minor as int) else minor as int
  {
    if minor < 0 then (-(minor + 1)) as nat + 1 else minor as nat
  }

  /** `%d.%02d` of the magnitude, with a sign. The magnitude of the minimum is reached without
      negating it. */
  function Print(m: Money): string {
    if !m.Valid() then ""
    else
      (if m.minor < 0 then "-" else "")
      + Digits(Magnitude(m.minor) / 100) + "." + TwoDigits(Magnitude(m.minor) % 100)
  }

  /** `strings.Split(s, ".")`. */
  function Split(s: string): (parts: seq<string>)
    ensures |parts| > 0
  {
    if s == "" then [""]
    else
      var rest := Split(s[1..]);
      if s[0] == '.' then [""] + rest else [[s[0]] + rest[0]] + rest[1..]
  }

  function TrimLeftZeros(s: string): string {
    if s != "" && s[0] == '0' then TrimLeftZeros(s[1..]) else s
  }

  datatype NumberError = Syntax | Range

  /** `strconv.ParseInt(s, 10, 64)`. */
  function ParseInt(s: string): Result<int64, NumberError> {
    var negative := s != "" && s[0] == '-';
    var digits := if negative then s[1..] else s;
    if digits == "" || !AllDigits(digits) then Err(Syntax)
    else
      var v := if negative then -(Value(digits) as int) else Value(digits) as int;
      if InRange(v) then Ok(v as int64) else Err(Range)
  }

  function ParseMinorUnits(raw: string): Result<int64, MoneyError> {
    if raw == "" || !Trimmed(raw) || raw[0] == '+' then Err(InvalidAmount)
    else
      var negative := raw[0] == '-';
      var digits := if negative then raw[1..] else raw;
      var parts := Split(digits);
      if |parts| != 2 || parts[0] == "" || |parts[1]| != 2 || !AllDigits(parts[0]) || !AllDigits(parts[1])
      then Err(InvalidAmount)
      else
        var trimmed := TrimLeftZeros(parts[0] + parts[1]);
        var combined := if trimmed == "" then "0" else trimmed;
        match ParseInt(if negative then "-" + combined else combined)
        case Ok(minor) => Ok(minor)
        case Err(Range) => Err(Overflow)
        case Err(Syntax) => Err(InvalidAmount)
  }

  function ParseCurrency(code: string): Result<Currency, MoneyError> {
    if Currency(code).Valid() then Ok(Currency(code)) else Err(InvalidCurrency)
  }

  function Parse(amount: string, code: string): Result<Money, MoneyError> {
    match ParseCurrency(code)
    case Err(e) => Err(e)
    case Ok(currency) =>
      match ParseMinorUnits(amount)
      case Err(e) => Err(e)
      case Ok(minor) => Ok(Money(minor, currency))
  }

  // ----- What decimal text means, independently of the parser -----

  function Unsigned(raw: string): string {
    if raw != "" && raw[0] == '-' then raw[1..] else raw
  }

  /** An optional minus, at least one digit, a point, exactly two digits. */
  predicate WellFormed(raw: string) {
    var body := Unsigned(raw);
    |body| >= 4 && body[|body| - 3] == '.' && AllDigits(body[..|body| - 3]) && AllDigits(body[|body| - 2..])
  }

  /** The exact number of minor units a well-formed decimal denotes, in unbounded integers. */
  function Denoted(raw: string): int
    requires WellFormed(raw)
  {
    var body := Unsigned(raw);
    var magnitude := 100 * Value(body[..|body| - 3]) + Value(body[|body| - 2..]);
    if raw[0] == '-' then -magnitude else magnitude
  }

  /** Well formed, without superfluous zeros and without a negative zero. */
  predicate Canonical(raw: string) {
    && WellFormed(raw)
    && (var body := Unsigned(raw); body[0] == '0' ==> |body| == 4)
    && (raw[0] == '-' ==> Denoted(raw) != 0)
  }

  // ----- Lemmas -----

  lemma ValueConcat(a: string, b: string)
    requires AllDigits(a) && AllDigits(b) && |b| == 2
    ensures AllDigits(a + b) && Value(a + b) == 100 * Value(a) + Value(b)
  {
    var s := a + b;
    assert s[..|s| - 1] == a + [b[0]];
    assert (a + [b[0]])[..|a|] == a;
    assert b[..1] == [b[0]] && b[..1][..0] == "";
    assert Value(b) == 10 * Value(b[..1]) + DigitValue(b[1]);
    assert Value(b[..1]) == DigitValue(b[0]);
  }

  lemma {:induction false} ValueDropZero(s: string)
    requires AllDigits(s) && s != "" && s[0] == '0'
    ensures Value(s[1..]) == Value(s)
  {
    if |s| == 1 {
      assert s[..0] == "";
    } else {
      var t := s[..|s| - 1];
      ValueDropZero(t);
      assert s[1..][..|s| - 2] == t[1..];
    }
  }

  lemma {:induction false} TrimKeepsValue(s: string)
    requires AllDigits(s)
    ensures AllDigits(TrimLeftZeros(s)) && Value(TrimLeftZeros(s)) == Value(s)
  {
    if s != "" && s[0] == '0' {
      ValueDropZero(s);
      TrimKeepsValue(s[1..]);
    }
  }

  lemma {:induction false} SplitNoPoint(s: string)
    requires AllDigits(s)
    ensures Split(s) == [s]
  {
    if s != "" {
      assert IsDigit(s[0]);
      SplitNoPoint(s[1..]);
      assert [s[0]] + s[1..] == s;
    }
  }

  lemma {:induction false} SplitAtPoint(a: string, b: string)
    requires AllDigits(a) && AllDigits(b)
    ensures Split(a + "." + b) == [a, b]
  {
    var s := a + "." + b;
    if a == "" {
      assert s[1..] == b;
      SplitNoPoint(b);
    } else {
      assert IsDigit(a[0]);
      assert s[1..] == a[1..] + "." + b;
      SplitAtPoint(a[1..], b);
      assert [a[0]] + a[1..] == a;
    }
  }

  lemma {:induction false} SplitJoins(s: string)
    ensures |Split(s)| == 1 ==> s == Split(s)[0]
    ensures |Split(s)| == 2 ==> s == Split(s)[0] + "." + Split(s)[1]
  {
    if s != "" {
      SplitJoins(s[1..]);
      assert s == [s[0]] + s[1..];
    }
  }

  /** The split test of the parser accepts exactly the well-formed bodies. */
  lemma SplitDecides(body: string)
    ensures var parts := Split(body);
            (|parts| == 2 && parts[0] != "" && |parts[1]| == 2 && AllDigits(parts[0]) && AllDigits(parts[1]))
            <==> (|body| >= 4 && body[|body| - 3] == '.'
                  && AllDigits(body[..|body| - 3]) && AllDigits(body[|body| - 2..]))
    ensures |body| >= 4 && body[|body| - 3] == '.'
            && AllDigits(body[..|body| - 3]) && AllDigits(body[|body| - 2..])
            ==> Split(body) == [body[..|body| - 3], body[|body| - 2..]]
  {
    var n := |body|;
    if n >= 4 && body[n - 3] == '.' && AllDigits(body[..n - 3]) && AllDigits(body[n - 2..]) {
      assert body == body[..n - 3] + "." + body[n - 2..];
      SplitAtPoint(body[..n - 3], body[n - 2..]);
    }
    var parts := Split(body);
    if |parts| == 2 && parts[0] != "" && |parts[1]| == 2 && AllDigits(parts[0]) && AllDigits(parts[1]) {
      SplitJoins(body);
      assert body[..n - 3] == parts[0] && body[n - 2..] == parts[1];
    }
  }

  lemma DigitIsNotSpace(c: char)
    requires IsDigit(c) || c == '-'
    ensures !IsSpace(c) && c != '+'
  {}

  /** Trimming leading zeros and restoring a lone zero keeps the number. */
  lemma CombinedValue(a: string, b: string)
    requires AllDigits(a) && AllDigits(b) && |b| == 2
    ensures var trimmed := TrimLeftZeros(a + b);
            var combined := if trimmed == "" then "0" else trimmed;
            combined != "" && AllDigits(combined) && Value(combined) == 100 * Value(a) + Value(b)
  {
    ValueConcat(a, b);
    TrimKeepsValue(a + b);
    assert "0"[..0] == "" && Value("0") == 0;
  }

  lemma ParseIntOfDigits(s: string)
    requires s != "" && AllDigits(s)
    ensures ParseInt(s) == if InRange(Value(s)) then Ok(Value(s) as int64) else Err(Range)
    ensures ParseInt("-" + s) == if InRange(-(Value(s) as int)) then Ok(-(Value(s) as int) as int64) else Err(Range)
  {
    assert IsDigit(s[0]);
    assert ("-" + s)[1..] == s;
  }

  lemma WellFormedIsTrimmed(raw: string)
    requires WellFormed(raw)
    ensures raw != "" && Trimmed(raw) && raw[0] != '+'
  {
    var body := Unsigned(raw);
    var a, b := body[..|body| - 3], body[|body| - 2..];
    assert IsDigit(a[0]) && a[0] == body[0] && IsDigit(b[1]) && b[1] == raw[|raw| - 1];
    DigitIsNotSpace(raw[0]);
    DigitIsNotSpace(raw[|raw| - 1]);
  }

  lemma IllFormedIsRefused(raw: string)
    requires !WellFormed(raw)
    ensures ParseMinorUnits(raw) == Err(InvalidAmount)
  {
    hide Split, Value, ParseInt, TrimLeftZeros, Trimmed;
    SplitDecides(Unsigned(raw));
  }

  lemma WellFormedIsRead(raw: string)
    requires WellFormed(raw)
    ensures ParseMinorUnits(raw) == if InRange(Denoted(raw)) then Ok(Denoted(raw) as int64) else Err(Overflow)
  {
    WellFormedIsTrimmed(raw);
    hide Split, Value, ParseInt, TrimLeftZeros, Trimmed;
    var body := Unsigned(raw);
    SplitDecides(body);
    var a, b := body[..|body| - 3], body[|body| - 2..];
    CombinedValue(a, b);
    var trimmed := TrimLeftZeros(a + b);
    ParseIntOfDigits(if trimmed == "" then "0" else trimmed);
  }

  /** The parser computes exactly the denoted value: syntax errors are exactly the ill-formed
      texts and overflow is exactly a denoted value outside 64 bits. */
  lemma ParseMeaning(raw: string)
    ensures ParseMinorUnits(raw) ==
            if !WellFormed(raw) then Err(InvalidAmount)
            else if InRange(Denoted(raw)) then Ok(Denoted(raw) as int64)
            else Err(Overflow)
  {
    hide ParseMinorUnits, Denoted;
    if WellFormed(raw) {
      WellFormedIsRead(raw);
    } else {
      IllFormedIsRefused(raw);
    }
  }

  lemma {:induction false} ValueOfDigits(n: nat)
    ensures Value(Digits(n)) == n
  {
    if n < 10 {
      assert Digits(n)[..0] == "";
    } else {
      ValueOfDigits(n / 10);
      assert Digits(n)[..|Digits(n)| - 1] == Digits(n / 10);
    }
  }

  lemma {:induction false} DigitsHead(n: nat)
    ensures Digits(n)[0] == '0' ==> n == 0 && |Digits(n)| == 1
  {
    if n >= 10 {
      DigitsHead(n / 10);
    }
  }

  /** The only digit string without a leading zero that denotes a number is its printed form. */
  lemma {:induction false} DigitsOfValue(s: string)
    requires AllDigits(s) && s != "" && (s[0] == '0' ==> |s| == 1)
    ensures Digits(Value(s)) == s
  {
    var t := s[..|s| - 1];
    if |s| > 1 {
      DigitsOfValue(t);
      if Value(t) == 0 {
        assert false;
      }
      assert s == t + [s[|s| - 1]];
    } else {
      assert t == "" && s == [s[0]];
    }
  }

  lemma TwoDigitsValue(n: nat)
    requires n < 100
    ensures AllDigits(TwoDigits(n)) && Value(TwoDigits(n)) == n
  {
    ValueOfTwo(TwoDigits(n));
  }

  lemma ValueOfTwo(b: string)
    requires |b| == 2 && AllDigits(b)
    ensures Value(b) == 10 * DigitValue(b[0]) + DigitValue(b[1])
  {
    assert b[..1] == [b[0]] && b[..1][..0] == "";
    assert Value(b[..1]) == DigitValue(b[0]);
  }

  lemma TwoDigitsOfValue(b: string)
    requires |b| == 2 && AllDigits(b)
    ensures Value(b) < 100 && TwoDigits(Value(b)) == b
  {
    ValueOfTwo(b);
  }

  lemma PrintedParts(m: Money)
    requires m.Valid()
    ensures WellFormed(Print(m)) && Denoted(Print(m)) == m.minor as int
  {
    var n := Magnitude(m.minor);
    var a, b := Digits(n / 100), TwoDigits(n % 100);
    assert IsDigit(a[0]);
    var body := Unsigned(Print(m));
    assert body == a + "." + b;
    assert body[..|body| - 3] == a && body[|body| - 2..] == b;
    ValueOfDigits(n / 100);
    TwoDigitsValue(n % 100);
  }

  /** Parsing the printed form returns the same money, the 64-bit minimum included. */
  lemma ParsePrint(m: Money)
    requires m.Valid()
    ensures Parse(Print(m), m.currency.code) == Ok(m)
  {
    PrintedParts(m);
    ParseMeaning(Print(m));
    assert m == Money(m.minor, Currency(m.currency.code));
  }

  /** Printed forms are exactly the canonical texts: printing is canonical, and a canonical text
      that parses is the printed form of its value, so normalisation is unique. */
  lemma PrintIsTheCanonicalForm(raw: string, m: Money)
    requires m.Valid()
    ensures Canonical(Print(m))
    ensures Canonical(raw) && ParseMinorUnits(raw) == Ok(m.minor) ==> raw == Print(m)
  {
    PrintedParts(m);
    var n := Magnitude(m.minor) / 100;
    DigitsHead(n);
    assert IsDigit(Digits(n)[0]);
    ParseMeaning(raw);
    if Canonical(raw) && ParseMinorUnits(raw) == Ok(m.minor) {
      CanonicalIsPrinted(raw, m);
    }
  }

  lemma CanonicalIsPrinted(raw: string, m: Money)
    requires m.Valid() && Canonical(raw) && Denoted(raw) == m.minor as int
    ensures raw == Print(m)
  {
    var body := Unsigned(raw);
    var a, b := body[..|body| - 3], body[|body| - 2..];
    assert body == a + "." + b;
    assert a[0] == body[0];
    PrintFromParts(m, a, b);
  }

  lemma PrintFromParts(m: Money, a: string, b: string)
    requires m.Valid() && AllDigits(a) && a != "" && (a[0] == '0' ==> |a| == 1) && AllDigits(b) && |b| == 2
    requires Magnitude(m.minor) == 100 * Value(a) + Value(b)
    ensures Print(m) == (if m.minor < 0 then "-" else "") + a + "." + b
  {
    TwoDigitsOfValue(b);
    DigitsOfValue(a);
    HundredSplit(Magnitude(m.minor), Value(a), Value(b));
  }

  lemma HundredSplit(n: nat, q: nat, r: nat)
    requires n == 100 * q + r && r < 100
    ensures n / 100 == q && n % 100 == r
  {}

  /** Distinct amounts print differently. */
  lemma PrintInjective(a: Money, b: Money)
    requires a.Valid() && b.Valid() && Print(a) == Print(b)
    ensures a.minor == b.minor
  {
    PrintedParts(a);
    PrintedParts(b);
  }
}
