/** String operations of the JavaScript runtime that the application relies
    on: `trim`, `toLowerCase`, `includes`, `padStart`, `Number#toString`,
    `parseInt`, `parseFloat` and `Number(...)`, stated on `seq<char>`. */
module Text {
  import opened Base

  /** The characters `String.prototype.trim` removes (WhiteSpace and
      LineTerminator of ECMA-262). */
  predicate IsWhitespace(c: char) {
    c == ' ' || c == '\t' || c == '\n' || c == '\r' || c == '\U{B}' || c == '\U{C}' ||
    c == '\U{A0}' || c == '\U{1680}' || ('\U{2000}' <= c <= '\U{200A}') ||
    c == '\U{2028}' || c == '\U{2029}' || c == '\U{202F}' || c == '\U{205F}' ||
    c == '\U{3000}' || c == '\U{FEFF}'
  }

  function TrimStart(s: string): (r: string)
    ensures |r| <= |s| && r == s[|s| - |r|..]
    ensures |r| > 0 ==> !IsWhitespace(r[0])
    ensures forall i :: 0 <= i < |s| - |r| ==> IsWhitespace(s[i])
  {
    if |s| > 0 && IsWhitespace(s[0]) then TrimStart(s[1..]) else s
  }

  function TrimEnd(s: string): (r: string)
    ensures |r| <= |s| && r == s[..|r|]
    ensures |r| > 0 ==> !IsWhitespace(r[|r| - 1])
    ensures forall i :: |r| <= i < |s| ==> IsWhitespace(s[i])
  {
    if |s| > 0 && IsWhitespace(s[|s| - 1]) then TrimEnd(s[..|s| - 1]) else s
  }

  /** `String.prototype.trim`. */
  function Trim(s: string): (r: string)
    ensures |r| <= |s|
    ensures |r| > 0 ==> !IsWhitespace(r[0]) && !IsWhitespace(r[|r| - 1])
    ensures r == "" <==> forall i :: 0 <= i < |s| ==> IsWhitespace(s[i])
  {
    var t := TrimStart(s);
    var r := TrimEnd(t);
    assert r == "" ==> t == "";
    r
  }

  /** `String.prototype.length`: UTF-16 code units, so a character
      outside the Basic Multilingual Plane counts twice. */
  function Utf16Length(s: string): (n: nat)
    ensures |s| <= n <= 2 * |s|
  {
    if |s| == 0 then 0
    else Utf16Length(s[..|s| - 1]) + (if s[|s| - 1] as int >= 0x1_0000 then 2 else 1)
  }

  /** A string of Basic Multilingual Plane characters has one code unit
      per character; each astral character adds one more. */
  lemma {:induction false} Utf16LengthBmp(s: string)
    requires forall i :: 0 <= i < |s| ==> s[i] as int < 0x1_0000
    ensures Utf16Length(s) == |s|
  {
    if |s| > 0 {
      Utf16LengthBmp(s[..|s| - 1]);
    }
  }

  /** `toLowerCase` on one character: ASCII and Latin-1 capitals. */
  function LowerChar(c: char): char {
    if 'A' <= c <= 'Z' then (c as int + 32) as char
    else if '\U{C0}' <= c <= '\U{DE}' && c != '\U{D7}' then (c as int + 32) as char
    else c
  }

  function ToLower(s: string): (r: string)
    ensures |r| == |s|
    ensures forall i :: 0 <= i < |s| ==> r[i] == LowerChar(s[i])
  {
    seq(|s|, i requires 0 <= i < |s| => LowerChar(s[i]))
  }

  /** `String.prototype.includes`: `needle` occurs in `hay` as a block. */
  predicate Contains(hay: string, needle: string) {
    IsPrefix(needle, hay) || (|hay| > 0 && Contains(hay[1..], needle))
  }

  predicate IsPrefix(p: string, s: string) {
    |p| <= |s| && s[..|p|] == p
  }

  /** Case-insensitive search as the list filters write it:
      `hay.toLowerCase().includes(term.toLowerCase())`. */
  predicate MatchesTerm(hay: string, term: string) {
    Contains(ToLower(hay), ToLower(term))
  }

  function Reverse(s: string): (r: string)
    ensures |r| == |s|
    ensures forall i :: 0 <= i < |s| ==> r[i] == s[|s| - 1 - i]
  {
    seq(|s|, i requires 0 <= i < |s| => s[|s| - 1 - i])
  }

  /** `Array#join(sep)` on strings. */
  function Join(parts: seq<string>, sep: string): string {
    if |parts| == 0 then ""
    else if |parts| == 1 then parts[0]
    else Join(parts[..|parts| - 1], sep) + sep + parts[|parts| - 1]
  }

  // ---------------------------------------------------------------------
  // Digits, Number#toString and padStart
  // ---------------------------------------------------------------------

  predicate IsDigit(c: char) { '0' <= c <= '9' }

  predicate IsAsciiAlnum(c: char) {
    IsDigit(c) || ('a' <= c <= 'z') || ('A' <= c <= 'Z')
  }

  /** `s.replace(/[^a-zA-Z0-9]/g, '')`. */
  function StripNonAlnum(s: string): (r: string)
    ensures |r| <= |s|
    ensures forall i :: 0 <= i < |r| ==> IsAsciiAlnum(r[i])
  {
    if |s| == 0 then ""
    else (if IsAsciiAlnum(s[0]) then [s[0]] else []) + StripNonAlnum(s[1..])
  }

  function DigitChar(d: nat): char
    requires d < 10
  {
    ('0' as int + d) as char
  }

  /** Decimal digits of a natural number, no leading zeros. */
  function NatToString(n: nat): (r: string)
    ensures |r| >= 1
    ensures forall i :: 0 <= i < |r| ==> IsDigit(r[i])
    decreases n
  {
    if n < 10 then [DigitChar(n)] else NatToString(n / 10) + [DigitChar(n % 10)]
  }

  /** `Number#toString()` on an integer. */
  function IntToString(n: int): string {
    if n < 0 then "-" + NatToString(-n) else NatToString(n)
  }

  /** `String.prototype.padStart(width, pad)` with a one-character pad. */
  function PadStart(s: string, width: nat, pad: char): (r: string)
    ensures |s| >= width ==> r == s
    ensures |s| < width ==> |r| == width && r[width - |s|..] == s
    ensures forall i :: 0 <= i < |r| - |s| ==> r[i] == pad
  {
    if |s| >= width then s else Repeat(pad, width - |s|) + s
  }

  function Repeat(c: char, n: nat): (r: string)
    ensures |r| == n
    ensures forall i :: 0 <= i < n ==> r[i] == c
  {
    if n == 0 then "" else Repeat(c, n - 1) + [c]
  }

  /** `s.slice(-n)`: the last `n` characters, or all of a shorter string. */
  function LastN(s: string, n: nat): (r: string)
    ensures |r| == if |s| < n then |s| else n
  {
    if |s| <= n then s else s[|s| - n..]
  }

  // ---------------------------------------------------------------------
  // parseInt: optional whitespace, optional sign, then a decimal or
  // (after "0x"/"0X") hexadecimal digit run; no digits means NaN (`None`).
  // ---------------------------------------------------------------------

  function DigitValue(c: char, radix: nat): (r: Option<nat>)
    ensures r.Some? ==> r.value < radix
  {
    if '0' <= c <= '9' && (c as int - '0' as int) < radix then Some(c as int - '0' as int)
    else if radix == 16 && 'a' <= c <= 'f' then Some(c as int - 'a' as int + 10)
    else if radix == 16 && 'A' <= c <= 'F' then Some(c as int - 'A' as int + 10)
    else None
  }

  /** Length of the run of radix digits at the start of `s`. */
  function DigitRun(s: string, radix: nat): (k: nat)
    ensures k <= |s|
    ensures forall i :: 0 <= i < k ==> DigitValue(s[i], radix).Some?
    ensures k < |s| ==> DigitValue(s[k], radix).None?
  {
    if |s| > 0 && DigitValue(s[0], radix).Some? then 1 + DigitRun(s[1..], radix) else 0
  }

  /** The value of a string made only of radix digits. */
  function DigitsValue(s: string, radix: nat): nat
    requires forall i :: 0 <= i < |s| ==> DigitValue(s[i], radix).Some?
  {
    if |s| == 0 then 0
    else DigitsValue(s[..|s| - 1], radix) * radix + DigitValue(s[|s| - 1], radix).value
  }

  /** The value of the run of radix digits at the start of `body`. */
  function ParseDigits(body: string, radix: nat): (r: Option<nat>)
    ensures r.None? <==> DigitRun(body, radix) == 0
  {
    var k := DigitRun(body, radix);
    if k == 0 then None else Some(DigitsValue(body[..k], radix))
  }

  /** The unsigned part: hexadecimal after "0x"/"0X", decimal otherwise. */
  function ParseUnsigned(u: string): Option<nat> {
    if |u| >= 2 && u[0] == '0' && (u[1] == 'x' || u[1] == 'X') then ParseDigits(u[2..], 16)
    else ParseDigits(u, 10)
  }

  function ParseInt(s: string): (r: Option<int>)
  {
    var t := TrimStart(s);
    if |t| > 0 && t[0] == '-' then
      match ParseUnsigned(t[1..])
      case None => None
      case Some(v) => Some(-(v as int))
    else
      var u := if |t| > 0 && t[0] == '+' then t[1..] else t;
      match ParseUnsigned(u)
      case None => None
      case Some(v) => Some(v)
  }

  lemma {:induction false} DigitsValueOfNatToString(n: nat)
    ensures forall i :: 0 <= i < |NatToString(n)| ==> DigitValue(NatToString(n)[i], 10).Some?
    ensures DigitsValue(NatToString(n), 10) == n
    decreases n
  {
    var s := NatToString(n);
    if n >= 10 {
      DigitsValueOfNatToString(n / 10);
      assert s[..|s| - 1] == NatToString(n / 10);
    }
  }

  lemma {:induction false} DigitsValueLeadingZeros(z: nat, s: string)
    requires forall i :: 0 <= i < |s| ==> DigitValue(s[i], 10).Some?
    ensures forall i :: 0 <= i < z + |s| ==> DigitValue((Repeat('0', z) + s)[i], 10).Some?
    ensures DigitsValue(Repeat('0', z) + s, 10) == DigitsValue(s, 10)
    decreases z + |s|
  {
    var t := Repeat('0', z) + s;
    if |s| == 0 {
      assert t == Repeat('0', z);
      if z > 0 {
        assert t[..|t| - 1] == Repeat('0', z - 1) + "";
        DigitsValueLeadingZeros(z - 1, "");
      }
    } else {
      assert t[..|t| - 1] == Repeat('0', z) + s[..|s| - 1];
      DigitsValueLeadingZeros(z, s[..|s| - 1]);
    }
  }

  lemma {:induction false} TrimStartDigits(p: string)
    requires |p| > 0 && IsDigit(p[0])
    ensures TrimStart(p) == p
  {
    assert !IsWhitespace(p[0]);
  }

  /** Parsing a string of decimal digits. */
  lemma {:induction false} ParseIntOfDigits(p: string)
    requires |p| > 0
    requires forall i :: 0 <= i < |p| ==> IsDigit(p[i])
    ensures forall i :: 0 <= i < |p| ==> DigitValue(p[i], 10).Some?
    ensures ParseInt(p) == Some(DigitsValue(p, 10))
  {
    TrimStartDigits(p);
    assert forall i :: 0 <= i < |p| ==> DigitValue(p[i], 10).Some?;
    DigitRunAll(p, 10);
    assert p[..|p|] == p;
    assert ParseDigits(p, 10) == Some(DigitsValue(p, 10));
    assert !(p[0] == '-' || p[0] == '+');
    assert !(|p| >= 2 && p[0] == '0' && (p[1] == 'x' || p[1] == 'X'));
    assert ParseUnsigned(p) == Some(DigitsValue(p, 10));
  }

  /** A zero-padded counter parses back to the counter: the round trip the
      DMTI correlative relies on when it reads its own last five digits. */
  lemma {:induction false} ParseIntOfPadded(n: nat, width: nat)
    ensures ParseInt(PadStart(NatToString(n), width, '0')) == Some(n)
  {
    var p := PadStart(NatToString(n), width, '0');
    PaddedDigits(n, width);
    ParseIntOfDigits(p);
  }

  lemma {:induction false} PaddedDigits(n: nat, width: nat)
    ensures forall i :: 0 <= i < |PadStart(NatToString(n), width, '0')| ==>
              IsDigit(PadStart(NatToString(n), width, '0')[i])
    ensures DigitsValue(PadStart(NatToString(n), width, '0'), 10) == n
  {
    var d := NatToString(n);
    DigitsValueOfNatToString(n);
    if |d| < width {
      var z := width - |d|;
      DigitsValueLeadingZeros(z, d);
      var p := Repeat('0', z) + d;
      forall i | 0 <= i < |p| ensures IsDigit(p[i]) {
        if i < z { assert p[i] == '0'; } else { assert p[i] == d[i - z]; }
      }
    }
  }

  lemma {:induction false} DigitRunAll(s: string, radix: nat)
    requires forall i :: 0 <= i < |s| ==> DigitValue(s[i], radix).Some?
    ensures DigitRun(s, radix) == |s|
  {
    if |s| > 0 {
      DigitRunAll(s[1..], radix);
    }
  }

  // ---------------------------------------------------------------------
  // parseFloat and Number(): decimal literals with optional sign,
  // fraction and exponent. `Infinity`, and for Number() the 0x/0o/0b
  // forms, are not modelled (they never come from the number inputs).
  // ---------------------------------------------------------------------

  function Pow10(e: nat): (r: real)
    ensures r >= 1.0
  {
    if e == 0 then 1.0 else 10.0 * Pow10(e - 1)
  }

  function Scale(v: real, e: int): real {
    if e >= 0 then v * Pow10(e) else v / Pow10(-e)
  }

  /** Length and value of the decimal literal (without sign) at the start of
      `s`: digits, optionally `.` and digits, optionally an exponent. Zero
      length means there is no literal (at least one digit is needed). */
  datatype Literal = Literal(length: nat, value: real)

  function UnsignedLiteral(s: string): (r: Literal)
    ensures r.length <= |s|
  {
    var ip := DigitRun(s, 10);
    var intVal := DigitsValue(s[..ip], 10) as real;
    var hasDot := ip < |s| && s[ip] == '.';
    var rest := if hasDot then s[ip + 1..] else [];
    var fp := DigitRun(rest, 10);
    if ip == 0 && fp == 0 then Literal(0, 0.0)
    else
      var mant := intVal + (if fp == 0 then 0.0 else DigitsValue(rest[..fp], 10) as real / Pow10(fp));
      var mlen := ip + (if hasDot then 1 + fp else 0);
      var after := s[mlen..];
      var expSign := if |after| >= 2 && (after[1] == '-' || after[1] == '+') then 1 else 0;
      var expDigits := if |after| >= 1 && (after[0] == 'e' || after[0] == 'E') then DigitRun(after[1 + expSign..], 10) else 0;
      if expDigits == 0 then Literal(mlen, mant)
      else
        var ev: int := DigitsValue(after[1 + expSign..][..expDigits], 10);
        var e := if expSign == 1 && after[1] == '-' then -ev else ev;
        Literal(mlen + 1 + expSign + expDigits, Scale(mant, e))
  }

  /** Sign and literal after leading whitespace: (consumed, value). */
  function SignedLiteral(s: string): (r: Literal)
    ensures r.length <= |s|
  {
    var signed := |s| > 0 && (s[0] == '-' || s[0] == '+');
    var lit := UnsignedLiteral(if signed then s[1..] else s);
    if lit.length == 0 then Literal(0, 0.0)
    else Literal(lit.length + (if signed then 1 else 0),
                 if signed && s[0] == '-' then -lit.value else lit.value)
  }

  /** `parseFloat`: the longest decimal literal after leading whitespace;
      `None` stands for NaN. */
  function ParseFloat(s: string): (r: Option<real>) {
    var lit := SignedLiteral(TrimStart(s));
    if lit.length == 0 then None else Some(lit.value)
  }

  /** `Number(s)` on a string: the whole trimmed text must be one decimal
      literal; blank text is 0. */
  function ToNumber(s: string): (r: Option<real>)
    ensures Trim(s) == "" ==> r == Some(0.0)
  {
    var t := Trim(s);
    if t == "" then Some(0.0)
    else
      var lit := SignedLiteral(t);
      if lit.length == 0 || lit.length != |t| then None else Some(lit.value)
  }

  /** `parseFloat(v) || 0`: NaN and zero both give 0. */
  function ParseFloatOrZero(s: string): (r: real)
    ensures ParseFloat(s).None? ==> r == 0.0
    ensures ParseFloat(s).Some? ==> r == ParseFloat(s).value
  {
    match ParseFloat(s)
    case None => 0.0
    case Some(v) => v
  }

  /** The event form's test `!v || isNaN(parseFloat(v))` fails exactly when
      this gives a number. */
  function NumericInput(s: string): (r: Option<real>)
    ensures r.Some? <==> s != "" && ParseFloat(s).Some?
    ensures r.Some? ==> r == ParseFloat(s)
  {
    if s == "" then None else ParseFloat(s)
  }

  // ---------------------------------------------------------------------
  // The default order of `Array.prototype.sort` on strings: code unit by
  // code unit, a proper prefix first.
  // ---------------------------------------------------------------------

  predicate StrLe(a: string, b: string) {
    if |a| == 0 then true
    else if |b| == 0 then false
    else if a[0] != b[0] then a[0] < b[0]
    else StrLe(a[1..], b[1..])
  }

  lemma {:induction false} StrLeTotal(a: string, b: string)
    ensures StrLe(a, b) || StrLe(b, a)
  {
    if |a| > 0 && |b| > 0 && a[0] == b[0] {
      StrLeTotal(a[1..], b[1..]);
    }
  }

  lemma {:induction false} StrLeTrans(a: string, b: string, c: string)
    requires StrLe(a, b) && StrLe(b, c)
    ensures StrLe(a, c)
  {
    if |a| > 0 && |b| > 0 && |c| > 0 && a[0] == b[0] && b[0] == c[0] {
      StrLeTrans(a[1..], b[1..], c[1..]);
    }
  }

  lemma {:induction false} StrLeAntisym(a: string, b: string)
    requires StrLe(a, b) && StrLe(b, a)
    ensures a == b
  {
    if |a| > 0 && |b| > 0 {
      StrLeAntisym(a[1..], b[1..]);
      assert a == [a[0]] + a[1..] && b == [b[0]] + b[1..];
    }
  }

  predicate StrSorted(s: seq<string>) {
    forall i, j :: 0 <= i < j < |s| ==> StrLe(s[i], s[j])
  }

  /** Inserts `x` after every element that is at most `x`. */
  function InsertStr(s: seq<string>, x: string): (r: seq<string>)
    ensures |r| == |s| + 1
  {
    if |s| == 0 then [x]
    else if StrLe(s[|s| - 1], x) then s + [x]
    else InsertStr(s[..|s| - 1], x) + [s[|s| - 1]]
  }

  /** The strings of `s` in ascending order (insertion sort). */
  function SortStrings(s: seq<string>): (r: seq<string>)
    ensures |r| == |s|
  {
    if |s| == 0 then [] else InsertStr(SortStrings(s[..|s| - 1]), s[|s| - 1])
  }

  lemma {:induction false} InsertStrMembers(s: seq<string>, x: string)
    ensures forall y :: y in InsertStr(s, x) <==> y in s || y == x
  {
    if |s| > 0 && !StrLe(s[|s| - 1], x) {
      var init := s[..|s| - 1];
      InsertStrMembers(init, x);
      assert s == init + [s[|s| - 1]];
    }
  }

  lemma {:induction false} InsertStrSorted(s: seq<string>, x: string)
    requires StrSorted(s)
    ensures StrSorted(InsertStr(s, x))
  {
    if |s| > 0 {
      var last := s[|s| - 1];
      if StrLe(last, x) {
        forall i | 0 <= i < |s| ensures StrLe(s[i], x) {
          if i < |s| - 1 { StrLeTrans(s[i], last, x); }
        }
      } else {
        var init := s[..|s| - 1];
        StrLeTotal(last, x);
        InsertStrSorted(init, x);
        InsertStrMembers(init, x);
        var r := InsertStr(init, x);
        forall i | 0 <= i < |r| ensures StrLe(r[i], last) {
          assert r[i] in init || r[i] == x;
        }
        assert InsertStr(s, x) == r + [last];
      }
    }
  }

  lemma {:induction false} InsertStrNoDup(s: seq<string>, x: string)
    requires NoDup(s) && x !in s
    ensures NoDup(InsertStr(s, x))
  {
    if |s| > 0 && !StrLe(s[|s| - 1], x) {
      var init := s[..|s| - 1];
      var last := s[|s| - 1];
      assert s == init + [last];
      InsertStrNoDup(init, x);
      InsertStrMembers(init, x);
      assert last !in InsertStr(init, x);
    }
  }

  /** Sorting keeps exactly the same strings, orders them, and keeps a
      duplicate-free list duplicate-free. */
  lemma {:induction false} SortStringsSpec(s: seq<string>)
    ensures StrSorted(SortStrings(s))
    ensures forall y :: y in SortStrings(s) <==> y in s
    ensures NoDup(s) ==> NoDup(SortStrings(s))
  {
    if |s| > 0 {
      var init := s[..|s| - 1];
      var last := s[|s| - 1];
      assert s == init + [last];
      SortStringsSpec(init);
      InsertStrSorted(SortStrings(init), last);
      InsertStrMembers(SortStrings(init), last);
      if NoDup(s) {
        InsertStrNoDup(SortStrings(init), last);
      }
    }
  }

  /** In a sorted list without duplicates each string is strictly below
      every later one. */
  lemma {:induction false} StrictlySorted(s: seq<string>)
    requires StrSorted(s) && NoDup(s)
    ensures forall i, j :: 0 <= i < j < |s| ==> StrLe(s[i], s[j]) && !StrLe(s[j], s[i])
  {
    forall i, j | 0 <= i < j < |s| ensures !StrLe(s[j], s[i]) {
      if StrLe(s[j], s[i]) { StrLeAntisym(s[i], s[j]); }
    }
  }
}
