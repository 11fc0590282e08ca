/**
 * Values as the dashboard scripts see them: optional strings read from
 * localStorage, JavaScript truthiness of those strings, fetch outcomes, and
 * the built-in conversions the widgets rely on -- String.prototype.trim,
 * parseInt (no radix argument), Number.prototype.toString on integers and
 * String.prototype.padStart(2, '0').
 */
module JsValues {

  datatype Option<T> = None | Some(value: T) {
    function GetOr(default: T): T {
      if Some? then value else default
    }
  }

  /** Outcome of one `fetch(...).then(...)` chain: any network, HTTP-status or
      body-parsing error lands in `.catch` as `Failed`; otherwise the parsed
      body is `Loaded`. */
  datatype Fetched<T> = Failed | Loaded(data: T)

  /** `localStorage.getItem(key)`: null when the key is absent. */
  function GetItem(storage: map<string, string>, key: string): Option<string> {
    if key in storage then Some(storage[key]) else None
  }

  /** JavaScript truthiness of a string-or-null: null and "" are falsy. */
  predicate Truthy(s: Option<string>) {
    s.Some? && s.value != ""
  }

  // ---------------------------------------------------------------------
  // String.prototype.trim

  /** The WhiteSpace and LineTerminator code points of ECMAScript
      (section 12.2 and 12.3 of ECMA-262): TAB, VT, FF, SP, NBSP, ZWNBSP,
      the other Unicode "Zs" space separators, LF, CR, LS and PS. */
  predicate IsJsSpace(c: char) {
    c == '\U{0009}' || c == '\U{000B}' || c == '\U{000C}' || c == '\U{0020}' ||
    c == '\U{00A0}' || c == '\U{FEFF}' || c == '\U{1680}' ||
    ('\U{2000}' <= c <= '\U{200A}') || c == '\U{202F}' || c == '\U{205F}' ||
    c == '\U{3000}' || c == '\U{000A}' || c == '\U{000D}' || c == '\U{2028}' ||
    c == '\U{2029}'
  }

  predicate AllSpace(s: string) {
    forall i :: 0 <= i < |s| ==> IsJsSpace(s[i])
  }

  /** Drops leading white space. */
  function TrimStart(s: string): string {
    if |s| > 0 && IsJsSpace(s[0]) then TrimStart(s[1..]) else s
  }

  /** Drops trailing white space. */
  function TrimEnd(s: string): string {
    if |s| > 0 && IsJsSpace(s[|s| - 1]) then TrimEnd(s[..|s| - 1]) else s
  }

  /** TrimStart leaves the suffix of `s` that starts at its first non-space
      character. */
  lemma {:induction false} TrimStartSpec(s: string)
    ensures var r := TrimStart(s);
      |r| <= |s| && r == s[|s| - |r|..] && AllSpace(s[..|s| - |r|]) &&
      (r != [] ==> !IsJsSpace(r[0]))
  {
    if |s| > 0 && IsJsSpace(s[0]) {
      TrimStartSpec(s[1..]);
      var r := TrimStart(s[1..]);
      assert s[1..][..|s[1..]| - |r|] == s[1..|s| - |r|];
    }
  }

  /** TrimEnd leaves the prefix of `s` that ends at its last non-space
      character. */
  lemma {:induction false} TrimEndSpec(s: string)
    ensures var r := TrimEnd(s);
      |r| <= |s| && r == s[..|r|] && AllSpace(s[|r|..]) &&
      (r != [] ==> !IsJsSpace(r[|r| - 1]))
  {
    if |s| > 0 && IsJsSpace(s[|s| - 1]) {
      var p := s[..|s| - 1];
      TrimEndSpec(p);
      var r := TrimEnd(p);
      assert TrimEnd(s) == r;
      assert p[..|r|] == s[..|r|];
      assert s[|r|..] == p[|r|..] + [s[|s| - 1]];
    } else {
      assert s[..|s|] == s;
    }
  }

  function Trim(s: string): string {
    TrimEnd(TrimStart(s))
  }

  /** `s.trim()` is empty exactly when `s` is made of white space only, and
      otherwise it neither starts nor ends with white space. */
  lemma TrimBlank(s: string)
    ensures Trim(s) == "" <==> AllSpace(s)
    ensures Trim(s) != "" ==> !IsJsSpace(Trim(s)[0]) && !IsJsSpace(Trim(s)[|Trim(s)| - 1])
  {
    var t := TrimStart(s);
    var r := TrimEnd(t);
    TrimStartSpec(s);
    TrimEndSpec(t);
    if r == "" {
      assert t[|r|..] == t;
      assert t == "";
      assert s[..|s|] == s;
    } else {
      assert r[0] == t[0];
    }
  }

  // ---------------------------------------------------------------------
  // Decimal rendering of integers (Number.prototype.toString)

  predicate IsDecimalDigit(c: char) {
    '0' <= c <= '9'
  }

  function DigitChar(d: nat): (c: char)
    requires d < 10
    ensures IsDecimalDigit(c)
  {
    ('0' as int + d) as char
  }

  /** Shortest decimal numeral of `n`, without sign. */
  function NatToString(n: nat): (r: string)
    ensures |r| >= 1
    ensures forall i :: 0 <= i < |r| ==> IsDecimalDigit(r[i])
    ensures |r| > 1 ==> r[0] != '0'
  {
    if n < 10 then [DigitChar(n)]
    else
      var p := NatToString(n / 10);
      p + [DigitChar(n % 10)]
  }

  /** `n.toString()` for an integral number below 10^21 in magnitude. */
  function IntToString(n: int): string {
    if n < 0 then "-" + NatToString(-n) else NatToString(n)
  }

  // ---------------------------------------------------------------------
  // parseInt(s) without radix argument (section 19.2.5 of ECMA-262)

  /** Digit value in radices up to 36; 36 stands for "not a digit". */
  function DigitValue(c: char): (v: nat)
    ensures v <= 36
    ensures v < 10 <==> IsDecimalDigit(c)
  {
    if '0' <= c <= '9' then c as int - '0' as int
    else if 'a' <= c <= 'z' then c as int - 'a' as int + 10
    else if 'A' <= c <= 'Z' then c as int - 'A' as int + 10
    else 36
  }

  /** Length of the longest prefix of `s` made of digits of `radix`. */
  function DigitRun(s: string, radix: nat): (n: nat)
    ensures n <= |s|
    ensures forall i :: 0 <= i < n ==> DigitValue(s[i]) < radix
    ensures n < |s| ==> DigitValue(s[n]) >= radix
  {
    if |s| == 0 || DigitValue(s[0]) >= radix then 0
    else 1 + DigitRun(s[1..], radix)
  }

  /** Value of a numeral read most-significant digit first. */
  function DigitsValue(ds: string, radix: nat): nat {
    if |ds| == 0 then 0
    else DigitsValue(ds[..|ds| - 1], radix) * radix + DigitValue(ds[|ds| - 1])
  }

  /** The longest run of `radix` digits at the start of `body`, read as a
      number; None (NaN) when there is no digit at all. */
  function ReadDigits(body: string, radix: nat): Option<int> {
    var n := DigitRun(body, radix);
    if n == 0 then None else Some(DigitsValue(body[..n], radix))
  }

  /** The unsigned part of parseInt: radix 16 after a "0x"/"0X" prefix,
      radix 10 otherwise. */
  function ParseMagnitude(u: string): Option<int> {
    if |u| >= 2 && u[0] == '0' && (u[1] == 'x' || u[1] == 'X') then ReadDigits(u[2..], 16)
    else ReadDigits(u, 10)
  }

  /** `parseInt(s)`: skips leading white space, takes one optional sign and
      reads the digits that follow. None is NaN. The value -0 is represented
      by 0. */
  function ParseInt(s: string): Option<int> {
    var t := TrimStart(s);
    if |t| > 0 && t[0] == '-' then
      match ParseMagnitude(t[1..])
      case None => None
      case Some(m) => Some(-m)
    else if |t| > 0 && t[0] == '+' then ParseMagnitude(t[1..])
    else ParseMagnitude(t)
  }

  lemma {:induction false} NatToStringValue(n: nat)
    ensures DigitsValue(NatToString(n), 10) == n
  {
    if n >= 10 {
      var p := NatToString(n / 10);
      var r := p + [DigitChar(n % 10)];
      assert r[..|r| - 1] == p;
      NatToStringValue(n / 10);
    }
  }

  /** A numeral of decimal digits that is not a hexadecimal prefix parses to
      its own value. */
  lemma ReadDecimal(ds: string)
    requires |ds| >= 1
    requires forall i :: 0 <= i < |ds| ==> IsDecimalDigit(ds[i])
    ensures ParseMagnitude(ds) == Some(DigitsValue(ds, 10))
  {
    assert DigitRun(ds, 10) == |ds|;
    assert ds[..|ds|] == ds;
  }

  lemma TrimStartKeeps(s: string)
    requires |s| > 0 && !IsJsSpace(s[0])
    ensures TrimStart(s) == s
  {
  }

  lemma ParseUnsigned(ds: string)
    requires |ds| >= 1
    requires forall i :: 0 <= i < |ds| ==> IsDecimalDigit(ds[i])
    ensures ParseInt(ds) == Some(DigitsValue(ds, 10) as int)
  {
    assert IsDecimalDigit(ds[0]);
    TrimStartKeeps(ds);
    ReadDecimal(ds);
  }

  /** A leading minus sign negates whatever the rest reads as. */
  lemma ParseMinus(ds: string, v: int)
    requires ParseMagnitude(ds) == Some(v)
    ensures ParseInt("-" + ds) == Some(-v)
  {
    var t := "-" + ds;
    TrimStartKeeps(t);
    assert t[1..] == ds;
  }

  /** What `n.toString()` writes, parseInt reads back unchanged. */
  lemma ParseIntToString(n: int)
    ensures ParseInt(IntToString(n)) == Some(n)
  {
    var m := if n < 0 then -n else n;
    NatToStringValue(m);
    if n < 0 {
      ReadDecimal(NatToString(m));
      ParseMinus(NatToString(m), m);
    } else {
      ParseUnsigned(NatToString(m));
    }
  }

  /** A string whose first non-space character is neither a sign nor a
      decimal digit makes parseInt return NaN. */
  lemma ParseIntNaN(s: string)
    requires var t := TrimStart(s);
      t == "" || (t[0] != '+' && t[0] != '-' && !IsDecimalDigit(t[0]))
    ensures ParseInt(s) == None
  {
  }

  // ---------------------------------------------------------------------
  // String.prototype.padStart(2, '0')

  function PadStart2(s: string): (r: string)
    ensures |r| == if |s| >= 2 then |s| else 2
    ensures r[|r| - |s|..] == s
    ensures forall i :: 0 <= i < |r| - |s| ==> r[i] == '0'
  {
    if |s| >= 2 then s
    else if |s| == 1 then "0" + s
    else "00"
  }

  /** `n.toString().padStart(2, '0')`: below 100 it is exactly two digits that
      read back as `n`; from 100 on it is the plain numeral. */
  lemma {:induction false} TwoDigitsRoundTrip(n: nat)
    ensures var r := PadStart2(NatToString(n));
      (n < 100 ==> |r| == 2 && ParseInt(r) == Some(n)) &&
      (n >= 100 ==> r == NatToString(n))
  {
    var r := PadStart2(NatToString(n));
    if n < 10 {
      assert r == ['0', DigitChar(n)];
      assert r[..1] == ['0'] && ['0'][..0] == [];
      assert DigitsValue(['0'], 10) == 0;
      assert DigitValue(DigitChar(n)) == n;
      assert DigitsValue(r, 10) == n;
      ParseUnsigned(r);
    } else if n < 100 {
      assert NatToString(n / 10) == [DigitChar(n / 10)];
      assert r == NatToString(n);
      NatToStringValue(n);
      ParseUnsigned(r);
    } else {
      assert |NatToString(n / 10)| >= 2;
    }
  }
}
