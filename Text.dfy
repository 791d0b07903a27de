/** Text helpers shared by the control-group accessor and the run command:
    Go's strconv.Itoa and its inverse, strings.Join and strings.Split on a
    one-character separator, and two-digit lowercase hexadecimal bytes. */
module Text {

  datatype Option<+T> = None | Some(value: T) {
    function GetOr(default: T): T {
      match this
      case Some(v) => v
      case None => default
    }
  }

  /** A Go `byte`. */
  type Byte = x: int | 0 <= x < 256

  // ---------------------------------------------------------------------
  // Decimal text (strconv.Itoa)
  // ---------------------------------------------------------------------

  predicate IsDigit(c: char) {
    '0' <= c <= '9'
  }

  function DigitChar(d: nat): (c: char)
    requires d < 10
    ensures IsDigit(c) && c as int - '0' as int == d
  {
    ('0' as int + d) as char
  }

  /** Decimal digits of `n`, most significant first, with no leading zero. */
  function NatDecimal(n: nat): (r: string)
    ensures |r| >= 1
    ensures forall i :: 0 <= i < |r| ==> IsDigit(r[i])
    ensures r[0] == '0' ==> n == 0
    decreases n
  {
    if n < 10 then [DigitChar(n)] else NatDecimal(n / 10) + [DigitChar(n % 10)]
  }

  /** strconv.Itoa: an optional minus sign followed by the decimal digits. */
  function Itoa(n: int): (r: string)
    ensures |r| >= 1
    ensures (r[0] == '-') <==> n < 0
  {
    if n < 0 then "-" + NatDecimal(-n) else NatDecimal(n)
  }

  /** The value of a string of decimal digits (what a reader of the text recovers). */
  function ParseNat(s: string): int
    decreases |s|
  {
    if s == [] then 0 else ParseNat(s[..|s| - 1]) * 10 + (s[|s| - 1] as int - '0' as int)
  }

  function ParseInt(s: string): int {
    if |s| > 0 && s[0] == '-' then -ParseNat(s[1..]) else ParseNat(s)
  }

  lemma {:induction false} NatDecimalRoundTrip(n: nat)
    ensures ParseNat(NatDecimal(n)) == n
    decreases n
  {
    var r := NatDecimal(n);
    if n >= 10 {
      NatDecimalRoundTrip(n / 10);
      assert r[..|r| - 1] == NatDecimal(n / 10);
    }
  }

  /** Reading back what Itoa wrote gives the number again. */
  lemma ItoaRoundTrip(n: int)
    ensures ParseInt(Itoa(n)) == n
  {
    if n < 0 {
      NatDecimalRoundTrip(-n);
      assert Itoa(n)[1..] == NatDecimal(-n);
    } else {
      NatDecimalRoundTrip(n);
    }
  }

  // ---------------------------------------------------------------------
  // strings.Join and strings.Split on a one-character separator
  // ---------------------------------------------------------------------

  /** Index of the first `c` in `s`, or |s| when there is none. */
  function IndexOf(s: string, c: char): (k: nat)
    ensures k <= |s|
    ensures k < |s| ==> s[k] == c
    ensures forall j :: 0 <= j < k ==> s[j] != c
  {
    if s == [] then 0 else if s[0] == c then 0 else 1 + IndexOf(s[1..], c)
  }

  function Join(xs: seq<string>, sep: char): string {
    if |xs| == 0 then "" else if |xs| == 1 then xs[0] else xs[0] + [sep] + Join(xs[1..], sep)
  }

  function Split(s: string, sep: char): (r: seq<string>)
    ensures |r| >= 1
    decreases |s|
  {
    var k := IndexOf(s, sep);
    if k == |s| then [s] else [s[..k]] + Split(s[k + 1..], sep)
  }

  lemma IndexOfAfter(a: string, sep: char, b: string)
    requires sep !in a
    ensures IndexOf(a + [sep] + b, sep) == |a|
  {
    var s := a + [sep] + b;
    var k := IndexOf(s, sep);
    assert s[|a|] == sep;
  }

  /** Splitting what Join produced recovers the pieces, as long as no piece
      holds the separator. */
  lemma {:induction false} SplitJoin(xs: seq<string>, sep: char)
    requires |xs| >= 1
    requires forall i :: 0 <= i < |xs| ==> sep !in xs[i]
    ensures Split(Join(xs, sep), sep) == xs
    decreases |xs|
  {
    if |xs| > 1 {
      var rest := Join(xs[1..], sep);
      var s := xs[0] + [sep] + rest;
      IndexOfAfter(xs[0], sep, rest);
      assert s[..|xs[0]|] == xs[0];
      assert s[|xs[0]| + 1..] == rest;
      SplitJoin(xs[1..], sep);
    }
  }

  lemma Join3(a: string, b: string, c: string, sep: char)
    ensures Join([a, b, c], sep) == a + [sep] + (b + [sep] + c)
  {
    assert [a, b, c][1..] == [b, c];
    assert [b, c][1..] == [c];
    assert Join([c], sep) == c;
    assert Join([b, c], sep) == b + [sep] + c;
  }

  /** Joining one more piece adds the separator and the piece at the end. */
  lemma {:induction false} JoinSnoc(xs: seq<string>, x: string, sep: char)
    requires |xs| >= 1
    ensures Join(xs + [x], sep) == Join(xs, sep) + [sep] + x
    decreases |xs|
  {
    if |xs| > 1 {
      assert (xs + [x])[1..] == xs[1..] + [x];
      JoinSnoc(xs[1..], x, sep);
    } else {
      assert (xs + [x])[1..] == [x];
    }
  }

  /** A character that is in no piece and is not the separator is not in the joined text. */
  lemma {:induction false} JoinExcludes(xs: seq<string>, sep: char, c: char)
    requires c != sep
    requires forall i :: 0 <= i < |xs| ==> c !in xs[i]
    ensures c !in Join(xs, sep)
    decreases |xs|
  {
    if |xs| > 1 {
      JoinExcludes(xs[1..], sep, c);
    }
  }

  // ---------------------------------------------------------------------
  // Lowercase hexadecimal (fmt's %02x)
  // ---------------------------------------------------------------------

  predicate IsLowerHex(c: char) {
    '0' <= c <= '9' || 'a' <= c <= 'f'
  }

  function HexDigit(d: nat): (c: char)
    requires d < 16
    ensures IsLowerHex(c)
  {
    if d < 10 then ('0' as int + d) as char else ('a' as int + (d - 10)) as char
  }

  function HexValue(c: char): int {
    if '0' <= c <= '9' then c as int - '0' as int else c as int - 'a' as int + 10
  }

  /** `%02x` of one byte: exactly two lowercase hex digits, high nibble first. */
  function HexByte(b: Byte): (r: string)
    ensures |r| == 2 && IsLowerHex(r[0]) && IsLowerHex(r[1])
  {
    [HexDigit(b / 16), HexDigit(b % 16)]
  }

  /** Reads pairs of hex digits back into bytes (a trailing odd digit is dropped). */
  function ParseHex(s: string): seq<int>
    decreases |s|
  {
    if |s| < 2 then [] else [HexValue(s[0]) * 16 + HexValue(s[1])] + ParseHex(s[2..])
  }

  lemma HexByteRoundTrip(b: Byte)
    ensures HexValue(HexByte(b)[0]) * 16 + HexValue(HexByte(b)[1]) == b
  {
  }
}
