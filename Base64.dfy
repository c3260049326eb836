/** The standard base64 encoding of section 4 of RFC 4648, as Node's `Buffer.toString('base64')`
    produces it: the 64-character alphabet of Table 1 and `=` padding to a multiple of four. */
module Base64 {
  import opened Wrappers

  type byte = x: int | 0 <= x < 256
  type sextet = x: int | 0 <= x < 64

  /** The character that encodes a 6-bit group (RFC 4648, Table 1). */
  function Char(n: sextet): (c: char)
    ensures Value(c) == Some(n)
  {
    if n < 26 then ('A' as int + n) as char
    else if n < 52 then ('a' as int + (n - 26)) as char
    else if n < 62 then ('0' as int + (n - 52)) as char
    else if n == 62 then '+'
    else '/'
  }

  /** The 6-bit group a character of the alphabet encodes; `None` for any other character,
      the padding character `=` included. */
  function Value(c: char): Option<sextet>
  {
    if 'A' <= c <= 'Z' then Some(c as int - 'A' as int)
    else if 'a' <= c <= 'z' then Some(c as int - 'a' as int + 26)
    else if '0' <= c <= '9' then Some(c as int - '0' as int + 52)
    else if c == '+' then Some(62)
    else if c == '/' then Some(63)
    else None
  }

  predicate InAlphabet(c: char) {
    Value(c).Some?
  }

  /** Well-formed base64 text: whole quanta of four characters, alphabet characters only,
      except for one or two `=` that may end the last quantum. */
  ghost predicate WellFormed(s: string) {
    && |s| % 4 == 0
    && forall i :: 0 <= i < |s| ==>
         InAlphabet(s[i]) || (s[i] == '=' && i >= |s| - 2 && (i == |s| - 2 ==> s[|s| - 1] == '='))
  }

  /** One quantum: up to three bytes become four characters. */
  function EncodeQuantum(b: seq<byte>): (r: string)
    requires 1 <= |b| <= 3
    ensures |r| == 4
    ensures InAlphabet(r[0]) && InAlphabet(r[1])
    ensures InAlphabet(r[2]) <==> |b| >= 2
    ensures InAlphabet(r[3]) <==> |b| == 3
    ensures !InAlphabet(r[2]) ==> r[2] == '='
    ensures !InAlphabet(r[3]) ==> r[3] == '='
  {
    if |b| == 1 then [Char(b[0] / 4), Char((b[0] % 4) * 16), '=', '=']
    else if |b| == 2 then [Char(b[0] / 4), Char((b[0] % 4) * 16 + b[1] / 16), Char((b[1] % 16) * 4), '=']
    else [Char(b[0] / 4), Char((b[0] % 4) * 16 + b[1] / 16), Char((b[1] % 16) * 4 + b[2] / 64), Char(b[2] % 64)]
  }

  function Encode(b: seq<byte>): (r: string)
    ensures |r| == 4 * ((|b| + 2) / 3)
    decreases |b|
  {
    if |b| == 0 then []
    else if |b| <= 3 then EncodeQuantum(b)
    else
      QuantaAfterOne(|b|);
      EncodeQuantum(b[..3]) + Encode(b[3..])
  }

  lemma QuantaAfterOne(n: nat)
    requires n > 3
    ensures 4 + 4 * ((n - 3 + 2) / 3) == 4 * ((n + 2) / 3)
  {
    assert (n - 3 + 2) / 3 + 1 == (n + 2) / 3;
  }

  /** Strict decoding of one quantum. `last` says whether padding is allowed here; the bits that
      padding drops must be zero, so that every accepted text is the encoding of its bytes. */
  function DecodeQuantum(c0: char, c1: char, c2: char, c3: char, last: bool): Option<seq<byte>>
  {
    match (Value(c0), Value(c1))
    case (Some(a), Some(b)) =>
      if c2 == '=' && c3 == '=' then
        if last && b % 16 == 0 then Some([a * 4 + b / 16]) else None
      else if Value(c2).None? then None
      else
        var c := Value(c2).value;
        if c3 == '=' then
          if last && c % 4 == 0 then Some([a * 4 + b / 16, (b % 16) * 16 + c / 4]) else None
        else if Value(c3).None? then None
        else Some([a * 4 + b / 16, (b % 16) * 16 + c / 4, (c % 4) * 64 + Value(c3).value])
    case _ => None
  }

  /** Strict decoding (RFC 4648 section 4, no line breaks, no whitespace, canonical padding). */
  function Decode(s: string): Option<seq<byte>>
    decreases |s|
  {
    if |s| == 0 then Some([])
    else if |s| < 4 then None
    else
      match DecodeQuantum(s[0], s[1], s[2], s[3], |s| == 4)
      case None => None
      case Some(bytes) =>
        match Decode(s[4..])
        case None => None
        case Some(rest) => Some(bytes + rest)
  }

  lemma QuantumRoundTrip(b: seq<byte>, last: bool)
    requires 1 <= |b| <= 3
    requires |b| < 3 ==> last
    ensures var q := EncodeQuantum(b); DecodeQuantum(q[0], q[1], q[2], q[3], last) == Some(b)
  {
    if |b| == 1 {
      OneByteRoundTrip(b[0]);
      assert [b[0]] == b;
    } else if |b| == 2 {
      TwoBytesRoundTrip(b[0], b[1]);
      assert [b[0], b[1]] == b;
    } else {
      ThreeBytesRoundTrip(b[0], b[1], b[2], last);
      assert [b[0], b[1], b[2]] == b;
    }
  }

  lemma OneByteRoundTrip(b0: byte)
    ensures DecodeQuantum(Char(b0 / 4), Char((b0 % 4) * 16), '=', '=', true) == Some([b0])
  {
    var a, x := b0 / 4, (b0 % 4) * 16;
    assert x / 16 == b0 % 4 && x % 16 == 0;
    assert Value(Char(a)) == Some(a) && Value(Char(x)) == Some(x);
  }

  lemma TwoBytesRoundTrip(b0: byte, b1: byte)
    ensures DecodeQuantum(Char(b0 / 4), Char((b0 % 4) * 16 + b1 / 16), Char((b1 % 16) * 4), '=', true)
            == Some([b0, b1])
  {
    var a, x, y := b0 / 4, (b0 % 4) * 16 + b1 / 16, (b1 % 16) * 4;
    assert x / 16 == b0 % 4 && x % 16 == b1 / 16;
    assert y / 4 == b1 % 16 && y % 4 == 0;
    assert Value(Char(a)) == Some(a) && Value(Char(x)) == Some(x) && Value(Char(y)) == Some(y);
    assert Char(y) != '=';
  }

  lemma ThreeBytesRoundTrip(b0: byte, b1: byte, b2: byte, last: bool)
    ensures DecodeQuantum(Char(b0 / 4), Char((b0 % 4) * 16 + b1 / 16), Char((b1 % 16) * 4 + b2 / 64),
                          Char(b2 % 64), last)
            == Some([b0, b1, b2])
  {
    var a, x, y, z := b0 / 4, (b0 % 4) * 16 + b1 / 16, (b1 % 16) * 4 + b2 / 64, b2 % 64;
    assert x / 16 == b0 % 4 && x % 16 == b1 / 16;
    assert y / 4 == b1 % 16 && y % 4 == b2 / 64;
    assert Value(Char(a)) == Some(a) && Value(Char(x)) == Some(x);
    assert Value(Char(y)) == Some(y) && Value(Char(z)) == Some(z);
    assert Char(y) != '=' && Char(z) != '=';
  }

  /** Decoding inverts encoding: the bytes are recovered exactly. */
  lemma {:induction false} DecodeEncode(b: seq<byte>)
    ensures Decode(Encode(b)) == Some(b)
    decreases |b|
  {
    var r := Encode(b);
    if |b| == 0 {
    } else if |b| <= 3 {
      QuantumRoundTrip(b, true);
      assert r == EncodeQuantum(b) && r[4..] == [];
      assert Decode(r[4..]) == Some([]);
      assert b + [] == b;
    } else {
      var q := EncodeQuantum(b[..3]);
      assert r[..4] == q && r[4..] == Encode(b[3..]);
      QuantumRoundTrip(b[..3], |r| == 4);
      DecodeEncode(b[3..]);
      assert b[..3] + b[3..] == b;
    }
  }

  /** Every encoding is well-formed base64 text. */
  lemma {:induction false} EncodeWellFormed(b: seq<byte>)
    ensures WellFormed(Encode(b))
    decreases |b|
  {
    var r := Encode(b);
    if |b| == 0 {
    } else if |b| <= 3 {
      QuantumWellFormed(b);
    } else {
      EncodeWellFormed(b[3..]);
      QuantumThenWellFormed(EncodeQuantum(b[..3]), Encode(b[3..]));
    }
  }

  lemma QuantumWellFormed(b: seq<byte>)
    requires 1 <= |b| <= 3
    ensures WellFormed(EncodeQuantum(b))
  {
  }

  /** Four alphabet characters in front of well-formed text keep it well-formed. */
  lemma QuantumThenWellFormed(q: string, t: string)
    requires |q| == 4 && forall i :: 0 <= i < 4 ==> InAlphabet(q[i])
    requires WellFormed(t) && |t| >= 4
    ensures WellFormed(q + t)
  {
    var r := q + t;
    forall i | 0 <= i < |r|
      ensures InAlphabet(r[i]) || (r[i] == '=' && i >= |r| - 2 && (i == |r| - 2 ==> r[|r| - 1] == '='))
    {
      if i >= 4 {
        assert r[i] == t[i - 4];
        assert r[|r| - 1] == t[|t| - 1];
      }
    }
  }

  lemma CharValue(c: char)
    requires InAlphabet(c)
    ensures Char(Value(c).value) == c
  {
  }

  /** The bit arithmetic of one quantum, read back: regrouping the bytes that four 6-bit groups
      decode to gives the same groups again. */
  lemma RegroupSextets(a: sextet, b: sextet, c: sextet, d: sextet)
    ensures var x, y, z := a * 4 + b / 16, (b % 16) * 16 + c / 4, (c % 4) * 64 + d;
      && x / 4 == a && (x % 4) * 16 + y / 16 == b
      && (y % 16) * 4 + z / 64 == c && z % 64 == d
      && (b % 16 == 0 ==> (x % 4) * 16 == b)
      && (c % 4 == 0 ==> (y % 16) * 4 == c)
  {
    var x, y, z := a * 4 + b / 16, (b % 16) * 16 + c / 4, (c % 4) * 64 + d;
    assert x % 4 == b / 16 && x / 4 == a;
    assert y / 16 == b % 16 && y % 16 == c / 4;
    assert z / 64 == c % 4 && z % 64 == d;
  }

  lemma QuantumCanonical(c0: char, c1: char, c2: char, c3: char, last: bool, bytes: seq<byte>)
    requires DecodeQuantum(c0, c1, c2, c3, last) == Some(bytes)
    ensures 1 <= |bytes| <= 3 && (|bytes| < 3 ==> last)
    ensures EncodeQuantum(bytes) == [c0, c1, c2, c3]
  {
    var a: sextet, b: sextet := Value(c0).value, Value(c1).value;
    CharValue(c0);
    CharValue(c1);
    if c2 == '=' && c3 == '=' {
      assert last && b % 16 == 0 && bytes == [a * 4 + b / 16];
      PaddedTwiceCanonical(a, b);
    } else {
      var c: sextet := Value(c2).value;
      CharValue(c2);
      if c3 == '=' {
        assert last && c % 4 == 0 && bytes == [a * 4 + b / 16, (b % 16) * 16 + c / 4];
        PaddedOnceCanonical(a, b, c);
      } else {
        var d: sextet := Value(c3).value;
        CharValue(c3);
        assert bytes == [a * 4 + b / 16, (b % 16) * 16 + c / 4, (c % 4) * 64 + d];
        UnpaddedCanonical(a, b, c, d);
      }
    }
  }

  lemma PaddedTwiceCanonical(a: sextet, b: sextet)
    requires b % 16 == 0
    ensures EncodeQuantum([a * 4 + b / 16]) == [Char(a), Char(b), '=', '=']
  {
    RegroupSextets(a, b, 0, 0);
  }

  lemma PaddedOnceCanonical(a: sextet, b: sextet, c: sextet)
    requires c % 4 == 0
    ensures EncodeQuantum([a * 4 + b / 16, (b % 16) * 16 + c / 4]) == [Char(a), Char(b), Char(c), '=']
  {
    RegroupSextets(a, b, c, 0);
  }

  lemma UnpaddedCanonical(a: sextet, b: sextet, c: sextet, d: sextet)
    ensures EncodeQuantum([a * 4 + b / 16, (b % 16) * 16 + c / 4, (c % 4) * 64 + d])
            == [Char(a), Char(b), Char(c), Char(d)]
  {
    RegroupSextets(a, b, c, d);
  }

  /** Only an encoding decodes: strict decoding rejects every non-canonical text. */
  lemma {:induction false} DecodeCanonical(s: string, b: seq<byte>)
    requires Decode(s) == Some(b)
    ensures s == Encode(b)
    decreases |s|
  {
    if |s| > 0 {
      var bytes := DecodeQuantum(s[0], s[1], s[2], s[3], |s| == 4).value;
      var rest := Decode(s[4..]).value;
      QuantumCanonical(s[0], s[1], s[2], s[3], |s| == 4, bytes);
      DecodeCanonical(s[4..], rest);
      assert b == bytes + rest;
      assert s == [s[0], s[1], s[2], s[3]] + s[4..];
      if |s| == 4 {
        assert rest == [] && b == bytes;
      } else {
        assert |rest| > 0;
        assert b[..3] == bytes && b[3..] == rest;
      }
    }
  }

  /** Strict decoding accepts exactly the encodings: a text decodes to `b` if and only if it is
      the encoding of `b`. */
  lemma DecodeIffEncode(s: string, b: seq<byte>)
    ensures Decode(s) == Some(b) <==> s == Encode(b)
  {
    if s == Encode(b) {
      DecodeEncode(b);
    }
    if Decode(s) == Some(b) {
      DecodeCanonical(s, b);
    }
  }
}
