/**
 * The few JavaScript and Node.js conversions the receipt builder relies on,
 * written out exactly:
 *   - `new Buffer(string)` encodes the string as UTF-8 (Utf8);
 *   - `string.length` counts UTF-16 code units (Utf16Length);
 *   - `n.toString(16)` writes a natural number in lower-case hexadecimal (ToHex);
 *   - `new Buffer(['0x' + digits])` reads each element as a Number and keeps
 *     its low 8 bits, NaN becoming 0 (HexNumber, ElementByte, LowByte);
 *   - `string.toUpperCase()` on the ASCII letters (ToUpper).
 */
module JsRuntime {

  datatype Option<T> = None | Some(value: T)

  /** One octet of a Node.js Buffer. */
  type byte = b: int | 0 <= b < 0x100

  /** Every character is below 0x80, so its UTF-8 image is one byte. */
  predicate IsAscii(s: string) {
    forall i :: 0 <= i < |s| ==> s[i] < '\U{80}'
  }

  // ---------------------------------------------------------------------
  // `new Buffer(string)`: UTF-8
  // ---------------------------------------------------------------------

  /** The UTF-8 bytes of one Unicode scalar value. */
  function CharUtf8(c: char): seq<byte> {
    var n := c as int;
    if n < 0x80 then
      [n]
    else if n < 0x800 then
      [(0xC0 + n / 0x40), (0x80 + n % 0x40)]
    else if n < 0x1_0000 then
      [(0xE0 + n / 0x1000), (0x80 + n / 0x40 % 0x40), (0x80 + n % 0x40)]
    else
      [(0xF0 + n / 0x4_0000), (0x80 + n / 0x1000 % 0x40),
       (0x80 + n / 0x40 % 0x40), (0x80 + n % 0x40)]
  }

  /**
   * One to four bytes: a single byte, the character itself, exactly below
   * 0x80; otherwise a lead byte of 0xC0 or more and continuation bytes
   * in 0x80..0xBF.
   */
  lemma CharUtf8Shape(c: char)
    ensures 1 <= |CharUtf8(c)| <= 4
    ensures |CharUtf8(c)| == 1 <==> c < '\U{80}'
    ensures |CharUtf8(c)| == 1 ==> CharUtf8(c)[0] == c as int
    ensures |CharUtf8(c)| > 1 ==> CharUtf8(c)[0] >= 0xC0
    ensures forall i :: 1 <= i < |CharUtf8(c)| ==> 0x80 <= CharUtf8(c)[i] < 0xC0
  {
  }

  /** The bytes `new Buffer(s)` holds. */
  function Utf8(s: string): (r: seq<byte>)
    ensures s == [] <==> r == []
  {
    if s == [] then [] else CharUtf8(s[0]) + Utf8(s[1..])
  }

  /** Every character takes at least one byte. */
  lemma {:induction false} Utf8Length(s: string)
    ensures |Utf8(s)| >= |s|
  {
    if s != [] {
      Utf8Length(s[1..]);
    }
  }

  /** Encoding a concatenation is concatenating the encodings. */
  lemma {:induction false} Utf8Append(a: string, b: string)
    ensures Utf8(a + b) == Utf8(a) + Utf8(b)
  {
    if a != [] {
      assert (a + b)[0] == a[0];
      assert (a + b)[1..] == a[1..] + b;
      Utf8Append(a[1..], b);
    } else {
      assert a + b == b;
    }
  }

  /**
   * A string is ASCII exactly when its UTF-8 image has one byte per
   * character, and then every byte is the character's code.
   */
  lemma {:induction false} Utf8OfAscii(s: string)
    ensures IsAscii(s) <==> |Utf8(s)| == |s|
    ensures IsAscii(s) ==> forall i :: 0 <= i < |s| ==> Utf8(s)[i] == s[i] as int
  {
    if s != [] {
      Utf8OfAscii(s[1..]);
      Utf8Length(s[1..]);
      assert IsAscii(s) <==> s[0] < '\U{80}' && IsAscii(s[1..]) by {
        if IsAscii(s) {
          forall i | 0 <= i < |s[1..]| ensures s[1..][i] < '\U{80}' {
            assert s[1..][i] == s[i + 1];
          }
        }
        if s[0] < '\U{80}' && IsAscii(s[1..]) {
          forall i | 0 <= i < |s| ensures s[i] < '\U{80}' {
            if i > 0 { assert s[i] == s[1..][i - 1]; }
          }
        }
      }
      if IsAscii(s) {
        forall i | 0 <= i < |s| ensures Utf8(s)[i] == s[i] as int {
          if i > 0 { assert Utf8(s)[i] == Utf8(s[1..])[i - 1]; }
        }
      }
    }
  }

  /** The string whose characters have the given code units, all below 0x100. */
  function Latin1(units: seq<byte>): (s: string)
    ensures |s| == |units|
    ensures forall i :: 0 <= i < |s| ==> s[i] as int == units[i]
  {
    seq(|units|, i requires 0 <= i < |units| => units[i] as char)
  }

  /**
   * `new Buffer(s)` for a string all of whose characters are below 0x100:
   * a character below 0x80 is its own byte, any other becomes a two-byte
   * sequence.
   */
  function Latin1Utf8(units: seq<byte>): seq<byte> {
    if units == [] then []
    else
      var u := units[0];
      (if u < 0x80 then [u] else [0xC0 + u / 0x40, 0x80 + u % 0x40]) + Latin1Utf8(units[1..])
  }

  /** Every code unit gives at least one byte. */
  lemma {:induction false} Latin1Utf8Length(units: seq<byte>)
    ensures |Latin1Utf8(units)| >= |units|
  {
    if units != [] {
      Latin1Utf8Length(units[1..]);
    }
  }

  /** Latin1Utf8 is the UTF-8 encoding of the string those code units spell. */
  lemma {:induction false} Latin1Utf8IsUtf8(units: seq<byte>)
    ensures Utf8(Latin1(units)) == Latin1Utf8(units)
  {
    if units != [] {
      var s := Latin1(units);
      assert s[0] as int == units[0];
      assert s[1..] == Latin1(units[1..]);
      Latin1Utf8IsUtf8(units[1..]);
    }
  }

  /** Every code unit is below 0x80. */
  predicate AsciiUnits(units: seq<byte>) {
    forall i :: 0 <= i < |units| ==> units[i] < 0x80
  }

  /** The UTF-8 image of some code units is those units exactly when every unit is below 0x80. */
  lemma {:induction false} Latin1Utf8Identity(units: seq<byte>)
    ensures Latin1Utf8(units) == units <==> AsciiUnits(units)
  {
    if units != [] {
      Latin1Utf8Identity(units[1..]);
      assert forall i :: 1 <= i < |units| ==> units[i] == units[1..][i - 1];
      if units[0] >= 0x80 {
        Latin1Utf8Length(units[1..]);
        assert |Latin1Utf8(units)| > |units|;
      } else {
        assert units == [units[0]] + units[1..];
      }
    }
  }

  // ---------------------------------------------------------------------
  // `string.length`: UTF-16 code units
  // ---------------------------------------------------------------------

  /** What JavaScript's `s.length` is: characters beyond the BMP count twice. */
  function Utf16Length(s: string): nat
  {
    if s == [] then 0
    else (if s[0] < '\U{1_0000}' then 1 else 2) + Utf16Length(s[1..])
  }

  /** Every character is one or two code units. */
  lemma {:induction false} Utf16LengthBounds(s: string)
    ensures |s| <= Utf16Length(s) <= 2 * |s|
  {
    if s != [] {
      Utf16LengthBounds(s[1..]);
    }
  }

  /** On ASCII text `.length` is the number of UTF-8 bytes. */
  lemma {:induction false} Utf16LengthOfAscii(s: string)
    requires IsAscii(s)
    ensures Utf16Length(s) == |s| == |Utf8(s)|
  {
    Utf8OfAscii(s);
    if s != [] {
      assert IsAscii(s[1..]) by {
        forall i | 0 <= i < |s[1..]| ensures s[1..][i] < '\U{80}' {
          assert s[1..][i] == s[i + 1];
        }
      }
      Utf16LengthOfAscii(s[1..]);
    }
  }

  // ---------------------------------------------------------------------
  // `n.toString(16)` and `new Buffer(['0x' + hex])`
  // ---------------------------------------------------------------------

  /** The lower-case hexadecimal digit for a value below 16. */
  function HexDigit(d: nat): (c: char)
    requires d < 16
    ensures DigitValue(c) == Some(d)
  {
    if d < 10 then ('0' as int + d) as char else ('a' as int + d - 10) as char
  }

  /** The value of a hexadecimal digit of either case; None for any other character. */
  function DigitValue(c: char): (r: Option<nat>)
    ensures r.Some? ==> r.value < 16
  {
    if '0' <= c <= '9' then Some(c as int - '0' as int)
    else if 'a' <= c <= 'f' then Some(c as int - 'a' as int + 10)
    else if 'A' <= c <= 'F' then Some(c as int - 'A' as int + 10)
    else None
  }

  /** `n.toString(16)` for a natural number: no leading zero, lower case. */
  function ToHex(n: nat): (r: string)
    ensures |r| >= 1
    ensures r[0] == '0' ==> n == 0
    ensures forall i :: 0 <= i < |r| ==> DigitValue(r[i]).Some?
    decreases n
  {
    if n < 16 then [HexDigit(n)] else ToHex(n / 16) + [HexDigit(n % 16)]
  }

  /** The value of a string of hexadecimal digits, most significant first; None if one is not a digit. */
  function ParseDigits(s: string): (r: Option<nat>)
    decreases |s|
  {
    if s == [] then Some(0)
    else
      match (ParseDigits(s[..|s| - 1]), DigitValue(s[|s| - 1]))
      case (Some(high), Some(low)) => Some(16 * high + low)
      case _ => None
  }

  /** `Number('0x' + digits)`: NaN (None) when there are no digits or a non-digit. */
  function HexNumber(digits: string): Option<nat> {
    if digits == [] then None else ParseDigits(digits)
  }

  /** What a Buffer keeps of one array element: the low 8 bits, and 0 for NaN. */
  function ElementByte(v: Option<nat>): (b: byte)
    ensures v.None? ==> b == 0
    ensures v.Some? ==> b == v.value % 256
  {
    match v
    case None => 0
    case Some(x) => (x % 256)
  }

  /** Reading back what `toString(16)` wrote gives the number again. */
  lemma {:induction false} HexRoundTrip(n: nat)
    ensures HexNumber(ToHex(n)) == Some(n)
    decreases n
  {
    var s := ToHex(n);
    if n < 16 {
      assert s == [HexDigit(n)];
      assert s[..|s| - 1] == [];
      assert ParseDigits(s[..|s| - 1]) == Some(0);
      assert DigitValue(s[|s| - 1]) == Some(n);
    } else {
      HexRoundTrip(n / 16);
      assert s[..|s| - 1] == ToHex(n / 16);
      assert s[|s| - 1] == HexDigit(n % 16);
    }
  }

  /** `n.toString(16)` for any integer: a minus sign before the digits of a negative one. */
  function IntToHex(n: int): (r: string)
    ensures |r| >= 1 && (n < 0 <==> r[0] == '-')
  {
    if n < 0 then "-" + ToHex(-n) else ToHex(n)
  }

  /** A string with a character that is not a hexadecimal digit has no value. */
  lemma {:induction false} ParseNonDigit(s: string, i: nat)
    requires i < |s| && DigitValue(s[i]).None?
    ensures ParseDigits(s) == None
    decreases |s|
  {
    if i < |s| - 1 {
      assert s[..|s| - 1][i] == s[i];
      ParseNonDigit(s[..|s| - 1], i);
    }
  }

  /** The low 8 bits of a natural number, and 0 for a negative one. */
  function LowByte(n: int): byte {
    if n >= 0 then n % 256 else 0
  }

  /**
   * `new Buffer(['0x' + n.toString(16)])` holds LowByte(n): the hex string
   * of a natural number reads back as the number, of which the buffer keeps
   * the low 8 bits, and the `'0x-…'` of a negative one is NaN, stored as 0.
   */
  lemma HexElement(n: int)
    ensures ElementByte(HexNumber(IntToHex(n))) == LowByte(n)
  {
    if n >= 0 {
      HexRoundTrip(n);
    } else {
      ParseNonDigit(IntToHex(n), 0);
    }
  }

  /** Builds `new Buffer(['0x' + n.toString(16)])` and returns its one byte. */
  method HexBuffer(n: int) returns (b: byte)
    ensures b == LowByte(n)
  {
    HexElement(n);
    b := ElementByte(HexNumber(IntToHex(n)));
  }

  // ---------------------------------------------------------------------
  // `string.toUpperCase()`
  // ---------------------------------------------------------------------

  function UpperChar(c: char): char {
    if 'a' <= c <= 'z' then (c as int - 32) as char else c
  }

  /** `s.toUpperCase()`, with the case mapping of the ASCII letters. */
  function ToUpper(s: string): (r: string)
    ensures |r| == |s|
    ensures forall i :: 0 <= i < |r| ==> !('a' <= r[i] <= 'z')
    ensures forall i :: 0 <= i < |r| ==> (r[i] == s[i] || r[i] as int == s[i] as int - 32)
    ensures forall i :: 0 <= i < |s| && 'a' <= s[i] <= 'z' ==> r[i] as int == s[i] as int - 32
    ensures forall i :: 0 <= i < |s| && !('a' <= s[i] <= 'z') ==> r[i] == s[i]
  {
    if s == [] then [] else [UpperChar(s[0])] + ToUpper(s[1..])
  }

  /** An upper-case letter is what exactly two one-letter strings map to: itself and its lower case. */
  lemma ToUpperIsLetter(s: string, upper: char)
    requires 'A' <= upper <= 'Z'
    ensures ToUpper(s) == [upper] <==> s == [upper] || s == [(upper as int + 32) as char]
  {
    if ToUpper(s) == [upper] {
      assert |s| == 1 && UpperChar(s[0]) == upper;
    }
  }
}
