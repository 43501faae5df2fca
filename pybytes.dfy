/**
 * Python `bytes` as a sequence of octets, with `bytes.fromhex(s)`, its
 * inverse `b.hex()`, and repetition `s * n`.
 */
module PyBytes {
  import opened Wrappers

  newtype byte = b: int | 0 <= b < 256

  /** `s * n` for a `str` or a `bytes` value: `n` copies of `s`, end to end. */
  function Repeat<T>(s: seq<T>, n: nat): (r: seq<T>)
    ensures |r| == n * |s|
  {
    if n == 0 then [] else s + Repeat(s, n - 1)
  }

  /** The whitespace `bytes.fromhex` skips between byte pairs: ASCII space, tab, newline, vertical tab, form feed, carriage return. */
  predicate IsAsciiSpace(c: char) {
    c == ' ' || '\t' <= c <= '\r'
  }

  /** The value of one hexadecimal digit, either case; `None` for any other character. */
  function HexDigit(c: char): (r: Option<int>)
    ensures r.Some? ==> 0 <= r.value < 16
    ensures r.Some? <==> ('0' <= c <= '9' || 'a' <= c <= 'f' || 'A' <= c <= 'F')
  {
    if '0' <= c <= '9' then Some(c as int - '0' as int)
    else if 'a' <= c <= 'f' then Some(c as int - 'a' as int + 10)
    else if 'A' <= c <= 'F' then Some(c as int - 'A' as int + 10)
    else None
  }

  /**
   * `bytes.fromhex(s)`: two hexadecimal digits per byte, with ASCII
   * whitespace allowed between (never inside) the pairs. `None` is the
   * `ValueError` raised on any other character or on a digit left without
   * its partner.
   */
  function FromHex(s: string): Option<seq<byte>>
    decreases |s|
  {
    if s == [] then Some([])
    else if IsAsciiSpace(s[0]) then FromHex(s[1..])
    else if |s| < 2 || HexDigit(s[0]).None? || HexDigit(s[1]).None? then None
    else match FromHex(s[2..])
      case None => None
      case Some(rest) => Some([(HexDigit(s[0]).value * 16 + HexDigit(s[1]).value) as byte] + rest)
  }

  /** The lower-case digit for a value below 16, as `bytes.hex()` writes it. */
  function HexChar(n: int): char
    requires 0 <= n < 16
  {
    if n < 10 then ('0' as int + n) as char else ('a' as int + n - 10) as char
  }

  /** `b.hex()`: each byte as two lower-case hexadecimal digits. */
  function Hex(b: seq<byte>): (s: string)
    ensures |s| == 2 * |b|
  {
    if b == [] then "" else [HexChar(b[0] as int / 16), HexChar(b[0] as int % 16)] + Hex(b[1..])
  }

  /** `bytes.fromhex` undoes `bytes.hex`. */
  lemma {:induction false} FromHexHex(b: seq<byte>)
    ensures FromHex(Hex(b)) == Some(b)
  {
    if b != [] {
      var s := Hex(b);
      var hi, lo := b[0] as int / 16, b[0] as int % 16;
      assert HexDigit(HexChar(hi)) == Some(hi);
      assert HexDigit(HexChar(lo)) == Some(lo);
      assert s[2..] == Hex(b[1..]);
      FromHexHex(b[1..]);
      assert b == [b[0]] + b[1..];
    }
  }

  /** A string starting with two hexadecimal digits decodes to their byte followed by the decoding of the rest. */
  lemma FromHexPair(s: string)
    requires |s| >= 2 && !IsAsciiSpace(s[0]) && HexDigit(s[0]).Some? && HexDigit(s[1]).Some?
    requires FromHex(s[2..]).Some?
    ensures FromHex(s) == Some([(HexDigit(s[0]).value * 16 + HexDigit(s[1]).value) as byte] + FromHex(s[2..]).value)
  {
  }

  /** A decodable string that does not start with whitespace starts with a pair of digits. */
  lemma FromHexHead(s: string)
    requires s != [] && !IsAsciiSpace(s[0]) && FromHex(s).Some?
    ensures |s| >= 2 && HexDigit(s[0]).Some? && HexDigit(s[1]).Some? && FromHex(s[2..]).Some?
    ensures FromHex(s) == Some([(HexDigit(s[0]).value * 16 + HexDigit(s[1]).value) as byte] + FromHex(s[2..]).value)
  {
  }

  /** Whitespace in front is skipped. */
  lemma FromHexSpace(s: string)
    requires s != [] && IsAsciiSpace(s[0])
    ensures FromHex(s) == FromHex(s[1..])
  {
  }

  /** Decoding two strings that each decode on their own decodes their concatenation to the concatenated bytes. */
  lemma {:induction false} FromHexAppend(a: string, b: string)
    requires FromHex(a).Some? && FromHex(b).Some?
    ensures FromHex(a + b) == Some(FromHex(a).value + FromHex(b).value)
    decreases |a|, 1
  {
    if a == [] {
      assert a + b == b;
      assert FromHex(a).value + FromHex(b).value == FromHex(b).value;
    } else if IsAsciiSpace(a[0]) {
      FromHexAppendSpace(a, b);
    } else {
      FromHexAppendPair(a, b);
    }
  }

  /** The step of `FromHexAppend` for a string that starts with whitespace. */
  lemma {:induction false} FromHexAppendSpace(a: string, b: string)
    requires a != [] && IsAsciiSpace(a[0])
    requires FromHex(a).Some? && FromHex(b).Some?
    ensures FromHex(a + b) == Some(FromHex(a).value + FromHex(b).value)
    decreases |a|, 0
  {
    var ab := a + b;
    assert ab[0] == a[0];
    assert ab[1..] == a[1..] + b;
    FromHexSpace(a);
    FromHexSpace(ab);
    FromHexAppend(a[1..], b);
  }

  /** The step of `FromHexAppend` for a string that starts with a pair of digits. */
  lemma {:induction false} FromHexAppendPair(a: string, b: string)
    requires a != [] && !IsAsciiSpace(a[0])
    requires FromHex(a).Some? && FromHex(b).Some?
    ensures FromHex(a + b) == Some(FromHex(a).value + FromHex(b).value)
    decreases |a|, 0
  {
    FromHexHead(a);
    var ab := a + b;
    assert ab[0] == a[0] && ab[1] == a[1];
    assert ab[2..] == a[2..] + b;
    FromHexAppend(a[2..], b);
    FromHexPair(ab);
    var x := FromHex(a[2..]).value;
    var y := FromHex(b).value;
    var first := (HexDigit(a[0]).value * 16 + HexDigit(a[1]).value) as byte;
    assert [first] + x + y == [first] + (x + y);
  }

  /** Decoding `n` copies of a decodable string gives `n` copies of its bytes. */
  lemma {:induction false} FromHexRepeat(s: string, n: nat)
    requires FromHex(s).Some?
    ensures FromHex(Repeat(s, n)) == Some(Repeat(FromHex(s).value, n))
  {
    if n > 0 {
      FromHexRepeat(s, n - 1);
      FromHexAppend(s, Repeat(s, n - 1));
    }
  }

  /** Without whitespace, a decodable string has exactly two digits per decoded byte; so an odd length always fails. */
  lemma {:induction false} FromHexLength(s: string)
    requires forall k | 0 <= k < |s| :: !IsAsciiSpace(s[k])
    requires FromHex(s).Some?
    ensures |s| == 2 * |FromHex(s).value|
    decreases |s|
  {
    if s != [] {
      assert !IsAsciiSpace(s[0]);
      FromHexLength(s[2..]);
    }
  }

  /** A character that is neither a hexadecimal digit nor ASCII whitespace makes decoding fail, wherever it stands. */
  lemma {:induction false} FromHexRejects(s: string, k: nat)
    requires k < |s| && HexDigit(s[k]).None? && !IsAsciiSpace(s[k])
    ensures FromHex(s) == None
    decreases |s|
  {
    if k == 0 {
    } else if IsAsciiSpace(s[0]) {
      FromHexRejects(s[1..], k - 1);
    } else if |s| >= 2 && HexDigit(s[0]).Some? && HexDigit(s[1]).Some? {
      assert k >= 2;
      FromHexRejects(s[2..], k - 2);
    }
  }
}
