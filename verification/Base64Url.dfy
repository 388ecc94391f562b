/** base64url without padding (section 5 of RFC 4648), as Buffer reads and writes it. */
module Base64Url {
  import opened Prelude

  type Byte = b: nat | b < 256
  type Sextet = x: nat | x < 64

  // ----- bytes and sextets -----

  function Sextets(bytes: seq<Byte>): (out: seq<Sextet>)
    decreases |bytes|
  {
    if bytes == [] then []
    else if |bytes| == 1 then [bytes[0] / 4, bytes[0] % 4 * 16]
    else if |bytes| == 2 then [bytes[0] / 4, bytes[0] % 4 * 16 + bytes[1] / 16, bytes[1] % 16 * 4]
    else Quad(bytes[0], bytes[1], bytes[2]) + Sextets(bytes[3..])
  }

  function Quad(a: Byte, b: Byte, c: Byte): (q: seq<Sextet>)
    ensures |q| == 4
  {
    [a / 4, a % 4 * 16 + b / 16, b % 16 * 4 + c / 64, c % 64]
  }

  function High(x: Sextet, y: Sextet): Byte { x * 4 + y / 16 }
  function Middle(y: Sextet, z: Sextet): Byte { y % 16 * 16 + z / 4 }
  function Low(z: Sextet, w: Sextet): Byte { z % 4 * 64 + w }

  // Bits left over at the end are dropped, and so is a lone last sextet.
  function Bytes(x: seq<Sextet>): seq<Byte>
    decreases |x|
  {
    if |x| < 2 then []
    else if |x| == 2 then [High(x[0], x[1])]
    else if |x| == 3 then [High(x[0], x[1]), Middle(x[1], x[2])]
    else Triple(x[0], x[1], x[2], x[3]) + Bytes(x[4..])
  }

  function Triple(x: Sextet, y: Sextet, z: Sextet, w: Sextet): (t: seq<Byte>)
    ensures |t| == 3
  {
    [High(x, y), Middle(y, z), Low(z, w)]
  }

  lemma TripleOfQuad(a: Byte, b: Byte, c: Byte)
    ensures var q := Quad(a, b, c); Triple(q[0], q[1], q[2], q[3]) == [a, b, c]
  {
  }

  lemma {:induction false} BytesOfSextets(bytes: seq<Byte>)
    ensures Bytes(Sextets(bytes)) == bytes
    decreases |bytes|
  {
    if |bytes| >= 3 {
      var q := Quad(bytes[0], bytes[1], bytes[2]);
      BytesOfSextets(bytes[3..]);
      TripleOfQuad(bytes[0], bytes[1], bytes[2]);
      assert Sextets(bytes)[4..] == Sextets(bytes[3..]);
      assert bytes == bytes[..3] + bytes[3..];
    }
  }

  // ----- sextets and characters -----

  function Char(x: Sextet): char {
    if x < 26 then 'A' + x as char
    else if x < 52 then 'a' + (x - 26) as char
    else if x < 62 then '0' + (x - 52) as char
    else if x == 62 then '-'
    else '_'
  }

  function Chars(x: seq<Sextet>): string {
    if x == [] then [] else [Char(x[0])] + Chars(x[1..])
  }

  // The decoder takes both alphabets.
  function Value(c: char): Option<nat> {
    if 'A' <= c <= 'Z' then Some(c as int - 'A' as int)
    else if 'a' <= c <= 'z' then Some(c as int - 'a' as int + 26)
    else if '0' <= c <= '9' then Some(c as int - '0' as int + 52)
    else if c == '-' || c == '+' then Some(62)
    else if c == '_' || c == '/' then Some(63)
    else None
  }

  // Anything else is skipped.
  function Values(s: string): seq<Sextet> {
    if s == "" then []
    else (if Value(s[0]).Some? then [Value(s[0]).value] else []) + Values(s[1..])
  }

  lemma ValueOfChar(x: Sextet)
    ensures Value(Char(x)) == Some(x)
  {
  }

  lemma {:induction false} ValuesOfChars(x: seq<Sextet>)
    ensures Values(Chars(x)) == x
  {
    if x != [] {
      ValueOfChar(x[0]);
      ValuesOfChars(x[1..]);
      assert Chars(x)[1..] == Chars(x[1..]);
    }
  }

  function Encode(bytes: seq<Byte>): string { Chars(Sextets(bytes)) }

  function Decode(s: string): seq<Byte> { Bytes(Values(s)) }

  lemma DecodeEncode(bytes: seq<Byte>)
    ensures Decode(Encode(bytes)) == bytes
  {
    ValuesOfChars(Sextets(bytes));
    BytesOfSextets(bytes);
  }
}
