/**
 * Value types shared by the chart component: an option type, the C++ and
 * Qt scalar types the sources pass around (unsigned 32-bit integers, doubles,
 * date-times, colours, QVariant) and the decimal text conversions of QString
 * (`QString::number` for integers and `QString::toInt`).
 */
module Base {

  datatype Option<+T> = None | Some(value: T) {
    function GetOr(default: T): T {
      match this
      case Some(v) => v
      case None => default
    }
  }

  /** C++ `uint` on the platforms the component targets. */
  type uint32 = x: int | 0 <= x < 0x1_0000_0000

  const UINT_MAX: uint32 := 0xFFFF_FFFF
  const INT_MIN: int := -0x8000_0000
  const INT_MAX: int := 0x7FFF_FFFF

  predicate IsInt32(n: int) {
    INT_MIN <= n <= INT_MAX
  }

  /**
   * A C++ `double`, seen only through its bit pattern: the model compares
   * doubles for equality and never computes with them.
   */
  datatype Double = Double(bits: bv64)

  /** `DBL_MIN`, the smallest positive normalised double (2^-1022). */
  const MINDOUBLE: Double := Double(0x0010_0000_0000_0000)

  /** A QDateTime; the default-constructed one is invalid. */
  datatype DateTime = InvalidDateTime | DateTime(julianDay: int, msecs: int)

  /** The QVariant payloads that flow through the chart's data tables. */
  datatype Variant =
    | Invalid
    | Str(s: string)
    | Dbl(d: Double)
    | Bool(b: bool)
    | DateTimeV(dt: DateTime)

  /** A QColor: either invalid or an RGB triple. */
  datatype Color = InvalidColor | Rgb(red: int, green: int, blue: int)

  predicate StartsWith(s: string, prefix: string) {
    |prefix| <= |s| && s[..|prefix|] == prefix
  }

  predicate EndsWithChar(s: string, c: char) {
    |s| > 0 && s[|s| - 1] == c
  }

  // ---------------------------------------------------------------
  // Sequence identities, stated once for every element type so that
  // proofs about sequences of XML nodes can use them cheaply.

  lemma AppendAssoc<T>(a: seq<T>, b: seq<T>, c: seq<T>)
    ensures (a + b) + c == a + (b + c)
  {
  }

  lemma AppendEmpty<T>(a: seq<T>)
    ensures a + [] == a && [] + a == a
  {
  }

  lemma DropOne<T>(s: seq<T>, k: nat)
    requires k < |s|
    ensures s[k..][1..] == s[k + 1..]
  {
  }

  lemma DropNone<T>(s: seq<T>)
    ensures s[0..] == s
  {
  }

  lemma TakeOfAppend<T>(a: seq<T>, b: seq<T>)
    ensures (a + b)[..|a|] == a
  {
  }

  lemma TakeSnoc<T>(s: seq<T>, k: nat)
    requires k < |s|
    ensures s[..k] + [s[k]] == s[..k + 1]
  {
  }

  lemma TakeAll<T>(s: seq<T>)
    ensures s[..|s|] == s
  {
  }

  /** The first two elements of `[a, b] + rest` and what follows each. */
  lemma TwoThenRest<T>(a: T, b: T, rest: seq<T>)
    ensures ([a, b] + rest)[0] == a && ([a, b] + rest)[1..] == [b] + rest
    ensures ([b] + rest)[0] == b && ([b] + rest)[1..] == rest
  {
  }

  lemma AppendFour<T>(a: T, b: T, c: T, d: T)
    ensures ((([] + [a]) + [b]) + [c]) + [d] == [a, b, c, d]
  {
  }

  lemma MapUnionUpdate<K, V>(a: map<K, V>, b: map<K, V>, k: K, v: V)
    ensures (a + b)[k := v] == a + (b + map[k := v])
    ensures a + (b + map[]) == a + b
  {
  }

  // ---------------------------------------------------------------
  // C++ integer division, which truncates toward zero (Dafny's `/` and
  // `%` are Euclidean).

  function CDiv(a: int, b: int): int
    requires b != 0
  {
    if a >= 0 then a / b else -((-a) / b)
  }

  /** A remainder leaves values below the divisor alone. */
  lemma ModOfSmaller(a: nat, b: nat)
    requires 0 < b
    ensures a < b ==> a % b == a
  {
  }

  lemma ModPeriod(a: nat, b: nat)
    requires 0 < b
    ensures (a % b) % b == a % b
  {
    ModOfSmaller(a % b, b);
  }

  /** C++ `a % b`: the remainder has the sign of `a` and is smaller than `b` in magnitude. */
  function CRem(a: int, b: int): (r: int)
    requires b != 0
    ensures CDiv(a, b) * b + r == a
    ensures a >= 0 ==> 0 <= r && r == a % b
    ensures a <= 0 ==> r <= 0
    ensures -(if b > 0 then b else -b) < r < (if b > 0 then b else -b)
  {
    if a >= 0 then a % b else -((-a) % b)
  }

  // ---------------------------------------------------------------
  // Decimal text of integers, as QString::number(int) writes it and
  // QString::toInt(&ok) reads it back.

  predicate IsDigit(c: char) {
    '0' <= c <= '9'
  }

  predicate AllDigits(s: string) {
    forall i :: 0 <= i < |s| ==> IsDigit(s[i])
  }

  function DigitChar(d: nat): (c: char)
    requires d < 10
    ensures IsDigit(c)
  {
    "0123456789"[d]
  }

  function DigitValue(c: char): nat
    requires IsDigit(c)
  {
    (c as int - '0' as int) as nat
  }

  /** The decimal digits of `n`, most significant first, without leading zeros. */
  function Digits(n: nat): (s: string)
    ensures |s| > 0 && AllDigits(s)
  {
    if n < 10 then [DigitChar(n)] else Digits(n / 10) + [DigitChar(n % 10)]
  }

  /** The value of a string of decimal digits. */
  function DigitsValue(s: string): nat
    requires AllDigits(s)
  {
    if s == [] then 0 else DigitsValue(s[..|s| - 1]) * 10 + DigitValue(s[|s| - 1])
  }

  /** `QString::number(n)`: an optional minus sign followed by the digits of |n|. */
  function NumberText(n: int): string {
    if n < 0 then "-" + Digits(-n) else Digits(n)
  }

  /**
   * `QChar::isSpace`: the control characters tab to carriage return, the
   * space, NEL and no-break space, and the Unicode space, line and paragraph
   * separators (U+180E counts as a space in the Unicode tables Qt 3 and 4 use).
   */
  predicate IsSpace(c: char) {
    ('\t' <= c <= '\r') || c == ' ' || c == '\U{0085}' || c == '\U{00A0}' ||
    c == '\U{1680}' || c == '\U{180E}' || ('\U{2000}' <= c <= '\U{200A}') ||
    c == '\U{2028}' || c == '\U{2029}' || c == '\U{202F}' || c == '\U{205F}' || c == '\U{3000}'
  }

  predicate AllSpaces(s: string) {
    forall i :: 0 <= i < |s| ==> IsSpace(s[i])
  }

  /** `s` without its leading whitespace. */
  function TrimLeft(s: string): string {
    if s != [] && IsSpace(s[0]) then TrimLeft(s[1..]) else s
  }

  /** `s` without its trailing whitespace. */
  function TrimRight(s: string): string {
    if s != [] && IsSpace(s[|s| - 1]) then TrimRight(s[..|s| - 1]) else s
  }

  /** What `TrimLeft` drops is whitespace, and what it keeps is a suffix starting with a non-space. */
  lemma {:induction false} TrimLeftDropsSpaces(s: string)
    ensures var t := TrimLeft(s);
      |t| <= |s| && t == s[|s| - |t|..] && AllSpaces(s[..|s| - |t|]) && (t == [] || !IsSpace(t[0]))
  {
    if s != [] && IsSpace(s[0]) {
      TrimLeftDropsSpaces(s[1..]);
      var t := TrimLeft(s[1..]);
      assert s[1..][|s[1..]| - |t|..] == s[|s| - |t|..];
      assert forall i :: 1 <= i < |s| - |t| ==> s[i] == s[1..][..|s[1..]| - |t|][i - 1];
    }
  }

  /** What `TrimRight` drops is whitespace, and what it keeps is a prefix ending with a non-space. */
  lemma {:induction false} TrimRightDropsSpaces(s: string)
    ensures var t := TrimRight(s);
      |t| <= |s| && t == s[..|t|] && AllSpaces(s[|t|..]) && (t == [] || !IsSpace(t[|t| - 1]))
  {
    if s != [] && IsSpace(s[|s| - 1]) {
      TrimRightDropsSpaces(s[..|s| - 1]);
      var t := TrimRight(s[..|s| - 1]);
      assert forall i :: |t| <= i < |s| - 1 ==> s[i] == s[..|s| - 1][|t|..][i - |t|];
    }
  }

  /** `QString::trimmed`: whitespace removed from both ends. */
  function Trimmed(s: string): string {
    TrimRight(TrimLeft(s))
  }

  /**
   * `QString::toInt(&ok)`: surrounding whitespace is skipped, then an
   * optional sign followed by at least one decimal digit, whose value must
   * fit a 32-bit int; anything else fails.
   */
  function ParseInt(s: string): (r: Option<int>)
    ensures r.Some? ==> IsInt32(r.value)
  {
    ParseNumeral(Trimmed(s))
  }

  /** The sign and digits that remain once the whitespace is gone. */
  function ParseNumeral(s: string): (r: Option<int>)
    ensures r.Some? ==> IsInt32(r.value)
  {
    var negative := |s| > 0 && s[0] == '-';
    var body := if |s| > 0 && (s[0] == '-' || s[0] == '+') then s[1..] else s;
    if |body| == 0 || !AllDigits(body) then None
    else
      var v: int := if negative then -(DigitsValue(body) as int) else DigitsValue(body);
      if IsInt32(v) then Some(v) else None
  }

  /** Leading whitespace before a text that starts with a non-space is dropped, and nothing more. */
  lemma {:induction false} TrimLeftPadded(pre: string, s: string)
    requires AllSpaces(pre) && s != [] && !IsSpace(s[0])
    ensures TrimLeft(pre + s) == s
  {
    if pre != [] {
      assert (pre + s)[1..] == pre[1..] + s;
      TrimLeftPadded(pre[1..], s);
    } else {
      assert pre + s == s;
    }
  }

  /** Trailing whitespace after a text that ends with a non-space is dropped, and nothing more. */
  lemma {:induction false} TrimRightPadded(s: string, post: string)
    requires AllSpaces(post) && s != [] && !IsSpace(s[|s| - 1])
    ensures TrimRight(s + post) == s
  {
    if post != [] {
      var post' := post[..|post| - 1];
      assert (s + post)[..|s + post| - 1] == s + post';
      TrimRightPadded(s, post');
    } else {
      assert s + post == s;
    }
  }

  /** A text padded with whitespace on both sides reads as the text itself. */
  lemma ParseIntPadded(pre: string, s: string, post: string)
    requires AllSpaces(pre) && AllSpaces(post)
    requires s != [] && !IsSpace(s[0]) && !IsSpace(s[|s| - 1])
    ensures ParseInt(pre + s + post) == ParseNumeral(s)
  {
    TrimLeftPadded(pre, s + post);
    assert pre + s + post == pre + (s + post);
    TrimRightPadded(s, post);
  }

  lemma {:induction false} DigitsRoundTrip(n: nat)
    ensures DigitsValue(Digits(n)) == n
  {
    var d := DigitChar(n % 10);
    assert DigitValue(d) == n % 10;
    if n >= 10 {
      DigitsRoundTrip(n / 10);
      var s := Digits(n / 10) + [d];
      assert s[..|s| - 1] == Digits(n / 10);
    }
  }

  /** Reading back the text that QString::number wrote gives the same int. */
  lemma ParseIntNumberText(n: int)
    requires IsInt32(n)
    ensures ParseInt(NumberText(n)) == Some(n)
  {
    ParseIntNumberTextPadded(n, [], []);
    assert [] + NumberText(n) + [] == NumberText(n);
  }

  /** The same number written with whitespace around it reads back the same. */
  lemma ParseIntNumberTextPadded(n: int, pre: string, post: string)
    requires IsInt32(n) && AllSpaces(pre) && AllSpaces(post)
    ensures ParseInt(pre + NumberText(n) + post) == Some(n)
  {
    var m: nat := if n < 0 then -n else n;
    var d := Digits(m);
    DigitsRoundTrip(m);
    assert IsDigit(d[0]) && IsDigit(d[|d| - 1]);
    if n < 0 {
      assert NumberText(n) == "-" + d;
      ParseSigned(d);
    } else {
      assert NumberText(n) == d;
      ParseUnsigned(d);
    }
    ParseIntPadded(pre, NumberText(n), post);
  }

  lemma ParseSigned(d: string)
    requires |d| > 0 && AllDigits(d) && IsInt32(-(DigitsValue(d) as int))
    ensures ParseNumeral("-" + d) == Some(-(DigitsValue(d) as int))
  {
    var s := "-" + d;
    assert s[0] == '-' && s[1..] == d;
  }

  lemma ParseUnsigned(d: string)
    requires |d| > 0 && AllDigits(d) && IsInt32(DigitsValue(d))
    ensures ParseNumeral(d) == Some(DigitsValue(d) as int)
  {
    assert IsDigit(d[0]);
  }
}
