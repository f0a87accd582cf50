/**
 * The body encoder shared by the SMTP sent-copy builder and the IMAP draft
 * builder: the string is turned into its UTF-8 bytes, and each byte is
 * either copied as one character or written as `=` and two uppercase hex
 * digits. There are no soft line breaks.
 */
module QuotedPrintable {
  import opened Wrappers

  type byte = b: int | 0 <= b < 256

  // ---------------------------------------------------------------------
  // UTF-8 (`Buffer.from(str, 'utf-8')`) over Unicode scalar values

  /** The UTF-8 bytes of one scalar value. */
  function Utf8Char(c: char): (r: seq<byte>)
    ensures 1 <= |r| <= 4
    ensures |r| == 1 <==> (c as int) < 0x80
    ensures |r| > 1 ==> forall k :: 0 <= k < |r| ==> r[k] >= 0x80
  {
    var n := c as int;
    if n < 0x80 then [n]
    else if n < 0x800 then [0xC0 + n / 64, 0x80 + n % 64]
    else if n < 0x10000 then [0xE0 + n / 4096, 0x80 + (n / 64) % 64, 0x80 + n % 64]
    else [0xF0 + n / 262144, 0x80 + (n / 4096) % 64, 0x80 + (n / 64) % 64, 0x80 + n % 64]
  }

  function Utf8Encode(s: string): (r: seq<byte>)
    ensures |r| >= |s|
  {
    if s == [] then [] else Utf8Char(s[0]) + Utf8Encode(s[1..])
  }

  /** The scalar value a well-formed one- to four-byte UTF-8 sequence stands for. */
  function Utf8Value(bs: seq<byte>): int
    requires 1 <= |bs| <= 4
  {
    var b0: int := bs[0];
    if |bs| == 1 then b0
    else
      var b1: int := bs[1];
      if |bs| == 2 then (b0 - 0xC0) * 64 + (b1 - 0x80)
      else
        var b2: int := bs[2];
        if |bs| == 3 then (b0 - 0xE0) * 4096 + (b1 - 0x80) * 64 + (b2 - 0x80)
        else
          var b3: int := bs[3];
          (b0 - 0xF0) * 262144 + (b1 - 0x80) * 4096 + (b2 - 0x80) * 64 + (b3 - 0x80)
  }

  /**
   * Each scalar value is written in the shortest form the standard allows:
   * its lead byte announces the length, the others are continuation bytes,
   * and the payload bits give the value back.
   */
  lemma Utf8CharRoundTrip(c: char)
    ensures var r := Utf8Char(c);
            && Utf8Value(r) == c as int
            && (|r| == 2 ==> 0xC2 <= r[0] < 0xE0)
            && (|r| == 3 ==> 0xE0 <= r[0] < 0xF0)
            && (|r| == 4 ==> 0xF0 <= r[0] <= 0xF4)
            && (forall k :: 1 <= k < |r| ==> 0x80 <= r[k] < 0xC0)
  {
    var n := c as int;
    var r := Utf8Char(c);
    if n < 0x80 {
    } else if n < 0x800 {
      DivMod64(n);
      assert Utf8Value(r) == (n / 64) * 64 + n % 64;
    } else if n < 0x10000 {
      DivMod64(n);
      DivMod64(n / 64);
      assert n / 4096 == (n / 64) / 64;
      assert Utf8Value(r) == (n / 4096) * 4096 + ((n / 64) % 64) * 64 + n % 64;
    } else {
      DivMod64(n);
      DivMod64(n / 64);
      DivMod64(n / 4096);
      assert n / 4096 == (n / 64) / 64;
      assert n / 262144 == (n / 4096) / 64;
      assert Utf8Value(r) == (n / 262144) * 262144 + ((n / 4096) % 64) * 4096 + ((n / 64) % 64) * 64 + n % 64;
    }
  }

  /** Splitting off the low six bits. */
  lemma DivMod64(n: int)
    requires n >= 0
    ensures n == (n / 64) * 64 + n % 64 && 0 <= n % 64 < 64
  {
  }

  /** ASCII text is its own UTF-8 encoding. */
  lemma {:induction false} AsciiIsItsOwnUtf8(s: string)
    requires forall k :: 0 <= k < |s| ==> (s[k] as int) < 0x80
    ensures |Utf8Encode(s)| == |s|
    ensures forall k :: 0 <= k < |s| ==> Utf8Encode(s)[k] == s[k] as int
  {
    if s != [] {
      AsciiIsItsOwnUtf8(s[1..]);
    }
  }

  // ---------------------------------------------------------------------
  // The byte encoder

  /** Bytes copied as they are: printable ASCII except `=`, plus space and tab. */
  predicate IsLiteral(b: byte)
  {
    (33 <= b <= 126 && b != 61) || b == 32 || b == 9
  }

  /** An uppercase hex digit (`toString(16).toUpperCase()` on 0..15). */
  function HexDigit(d: int): char
    requires 0 <= d < 16
  {
    if d < 10 then ('0' as int + d) as char else ('A' as int + d - 10) as char
  }

  /** One byte: itself, or `=XX` in uppercase hex, padded to two digits. */
  function EncodeByte(b: byte): string
  {
    if IsLiteral(b) then [b as char] else ['=', HexDigit(b / 16), HexDigit(b % 16)]
  }

  /** The reference definition of `quotedPrintableEncode` on the bytes. */
  function Encode(bs: seq<byte>): string
  {
    if bs == [] then [] else EncodeByte(bs[0]) + Encode(bs[1..])
  }

  /** `quotedPrintableEncode`: the loop over the UTF-8 bytes. */
  method QuotedPrintableEncode(str: string) returns (result: string)
    ensures result == Encode(Utf8Encode(str))
  {
    var bytes := Utf8Encode(str);
    result := "";
    var i := 0;
    while i < |bytes|
      invariant 0 <= i <= |bytes|
      invariant result == Encode(bytes[..i])
    {
      var b := bytes[i];
      EncodeSnoc(bytes[..i], b);
      assert bytes[..i + 1] == bytes[..i] + [b];
      ghost var before := result;
      if IsLiteral(b) {
        result := result + [b as char];
      } else {
        result := result + ['=', HexDigit(b / 16), HexDigit(b % 16)];
      }
      assert result == before + EncodeByte(b);
      i := i + 1;
    }
    assert bytes[..i] == bytes;
  }

  lemma {:induction false} EncodeSnoc(bs: seq<byte>, b: byte)
    ensures Encode(bs + [b]) == Encode(bs) + EncodeByte(b)
  {
    if bs != [] {
      assert (bs + [b])[1..] == bs[1..] + [b];
      EncodeSnoc(bs[1..], b);
    }
  }

  // ---------------------------------------------------------------------
  // Decoding, the partner of the encoder

  function HexValue(c: char): Option<int>
  {
    if '0' <= c <= '9' then Some(c as int - '0' as int)
    else if 'A' <= c <= 'F' then Some(c as int - 'A' as int + 10)
    else None
  }

  /** Strict decoding of what the encoder writes: `=XX` with uppercase hex, or a literal character. */
  function Decode(s: string): Option<seq<byte>>
    decreases |s|
  {
    if s == [] then Some([])
    else if s[0] == '=' then
      if |s| < 3 then None
      else match (HexValue(s[1]), HexValue(s[2]), Decode(s[3..]))
        case (Some(hi), Some(lo), Some(rest)) => Some([hi * 16 + lo] + rest)
        case _ => None
    else if (s[0] as int) < 256 && IsLiteral(s[0] as int) then
      match Decode(s[1..])
      case Some(rest) => Some([s[0] as int] + rest)
      case None => None
    else None
  }

  /** Every byte sequence comes back from its encoding. */
  lemma {:induction false} DecodeEncode(bs: seq<byte>)
    ensures Decode(Encode(bs)) == Some(bs)
  {
    if bs != [] {
      var b := bs[0];
      var e := Encode(bs[1..]);
      DecodeEncode(bs[1..]);
      assert bs == [b] + bs[1..];
      if IsLiteral(b) {
        assert (EncodeByte(b) + e)[1..] == e;
      } else {
        assert (EncodeByte(b) + e)[3..] == e;
      }
    }
  }

  /** A byte is written as itself exactly when it is a literal; otherwise as `=` and its two hex digits. */
  lemma EncodeByteShape(b: byte)
    ensures |EncodeByte(b)| == 1 <==> IsLiteral(b)
    ensures IsLiteral(b) ==> EncodeByte(b)[0] as int == b
    ensures !IsLiteral(b) ==>
              (&& |EncodeByte(b)| == 3 && EncodeByte(b)[0] == '='
               && HexValue(EncodeByte(b)[1]).Some? && HexValue(EncodeByte(b)[2]).Some?
               && HexValue(EncodeByte(b)[1]).value * 16 + HexValue(EncodeByte(b)[2]).value == b)
  {
  }

  function Escaped(bs: seq<byte>): (n: nat)
    ensures n <= |bs|
  {
    if bs == [] then 0 else (if IsLiteral(bs[0]) then 0 else 1) + Escaped(bs[1..])
  }

  /** The encoding grows by two characters per escaped byte. */
  lemma {:induction false} EncodedLength(bs: seq<byte>)
    ensures |Encode(bs)| == |bs| + 2 * Escaped(bs)
  {
    if bs != [] {
      EncodedLength(bs[1..]);
    }
  }

  /** A character the encoder may write: printable ASCII or tab. */
  predicate SafeChar(c: char)
  {
    ' ' <= c <= '~' || c == '\t'
  }

  /** The encoded body holds only printable ASCII and tabs: no CR or LF, so it is a single line. */
  lemma {:induction false} EncodedIsSafe(bs: seq<byte>)
    ensures forall k :: 0 <= k < |Encode(bs)| ==> SafeChar(Encode(bs)[k])
  {
    if bs != [] {
      EncodedIsSafe(bs[1..]);
      var head := EncodeByte(bs[0]);
      var e := Encode(bs[1..]);
      forall k | 0 <= k < |head + e| ensures SafeChar((head + e)[k]) {
        if k >= |head| {
          assert (head + e)[k] == e[k - |head|];
        }
      }
    }
  }

  /** A non-ASCII character always costs three output characters per UTF-8 byte. */
  lemma NonAsciiAlwaysEscaped(c: char)
    requires (c as int) >= 0x80
    ensures Escaped(Utf8Char(c)) == |Utf8Char(c)|
    ensures |Encode(Utf8Char(c))| == 3 * |Utf8Char(c)|
  {
    var r := Utf8Char(c);
    HighBytesAllEscaped(r);
    EncodedLength(r);
  }

  lemma {:induction false} HighBytesAllEscaped(bs: seq<byte>)
    requires forall k :: 0 <= k < |bs| ==> bs[k] >= 0x80
    ensures Escaped(bs) == |bs|
  {
    if bs != [] {
      HighBytesAllEscaped(bs[1..]);
    }
  }
}
