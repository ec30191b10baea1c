/**
 The texts credentials travel as: base64url without padding (sections 5 and 3.2 of
 RFC 4648), the UUID text form (section 4 of RFC 9562), and the device token
 `pdv2.<device id>.<secret>` built from the two.
 */
module TokenFormat {
  import opened Basics

  type Secret = s: seq<byte> | |s| == 32 witness seq(32, _ => 0)

  // ---------------------------------------------------------------------
  // base64url
  // ---------------------------------------------------------------------

  type Sextet = n: int | 0 <= n < 64

  function Symbol(n: Sextet): char {
    if n < 26 then 'A' + (n as char)
    else if n < 52 then 'a' + ((n - 26) as char)
    else if n < 62 then '0' + ((n - 52) as char)
    else if n == 62 then '-' else '_'
  }

  /** The value of a symbol, or nothing for a character outside the alphabet. */
  function SymbolValue(c: char): Option<Sextet> {
    if 'A' <= c <= 'Z' then Some(c as int - 'A' as int)
    else if 'a' <= c <= 'z' then Some(c as int - 'a' as int + 26)
    else if '0' <= c <= '9' then Some(c as int - '0' as int + 52)
    else if c == '-' then Some(62)
    else if c == '_' then Some(63) else None
  }

  lemma SymbolInverse(n: Sextet, c: char)
    ensures SymbolValue(Symbol(n)) == Some(n)
    ensures SymbolValue(c) == Some(n) ==> Symbol(n) == c
    ensures Symbol(n) != '.' && Symbol(n) != '='
  {
  }

  const UPPER := "ABCDEFGHIJKLMNOPQRSTUVWXYZ"
  const LOWER := "abcdefghijklmnopqrstuvwxyz"
  const DIGITS := "0123456789"

  /** The alphabet of section 5 of RFC 4648, in its order. */
  lemma SymbolIsListed(n: Sextet)
    ensures |UPPER + LOWER + DIGITS + "-_"| == 64
    ensures Symbol(n) == (UPPER + LOWER + DIGITS + "-_")[n]
  {
    if n < 26 {
      UpperAt(n);
    } else if n < 52 {
      LowerAt(n - 26);
    } else if n < 62 {
      DigitAt(n - 52);
    }
  }

  lemma UpperAt(n: nat)
    requires n < 26
    ensures UPPER[n] == 'A' + n as char
  {
  }

  lemma LowerAt(n: nat)
    requires n < 26
    ensures LOWER[n] == 'a' + n as char
  {
  }

  lemma DigitAt(n: nat)
    requires n < 10
    ensures DIGITS[n] == '0' + n as char
  {
  }

  /** Three bytes as four sextets, and back. */
  function Pack(x: byte, y: byte, z: byte): (Sextet, Sextet, Sextet, Sextet) {
    var i, j, k := x as int, y as int, z as int;
    (i / 4, i % 4 * 16 + j / 16, j % 16 * 4 + k / 64, k % 64)
  }

  function Unpack(p: Sextet, q: Sextet, r: Sextet, t: Sextet): (byte, byte, byte) {
    ((p * 4 + q / 16) as byte, (q % 16 * 16 + r / 4) as byte, (r % 4 * 64 + t) as byte)
  }

  /** The three bytes and the four sextets spell one 24-bit number. */
  lemma PackKeepsNumber(x: byte, y: byte, z: byte)
    ensures var (p, q, r, t) := Pack(x, y, z);
            ((p * 64 + q) * 64 + r) * 64 + t == (x as int * 256 + y as int) * 256 + z as int
  {
    var i, j, k := x as int, y as int, z as int;
    assert i == i / 4 * 4 + i % 4 && j == j / 16 * 16 + j % 16 && k == k / 64 * 64 + k % 64;
  }

  lemma UnpackPack(x: byte, y: byte, z: byte)
    ensures var (p, q, r, t) := Pack(x, y, z); Unpack(p, q, r, t) == (x, y, z)
  {
    var i, j, k := x as int, y as int, z as int;
    assert i == i / 4 * 4 + i % 4 && j == j / 16 * 16 + j % 16 && k == k / 64 * 64 + k % 64;
  }

  /** The two parts of a number in base 4, 16 or 64 are found again in it. */
  lemma Digits(high: nat, low: nat)
    ensures low < 4 ==> (high * 4 + low) / 4 == high && (high * 4 + low) % 4 == low
    ensures low < 16 ==> (high * 16 + low) / 16 == high && (high * 16 + low) % 16 == low
    ensures low < 64 ==> (high * 64 + low) / 64 == high && (high * 64 + low) % 64 == low
  {
  }

  lemma PackUnpack(p: Sextet, q: Sextet, r: Sextet, t: Sextet)
    ensures var (x, y, z) := Unpack(p, q, r, t); Pack(x, y, z) == (p, q, r, t)
  {
    Digits(p, q / 16);
    Digits(q % 16, r / 4);
    Digits(r % 4, t);
  }

  /** The four symbols of a group. */
  function Group(x: byte, y: byte, z: byte): (s: string)
    ensures |s| == 4
  {
    var (p, q, r, t) := Pack(x, y, z);
    [Symbol(p), Symbol(q), Symbol(r), Symbol(t)]
  }

  function Encode(b: seq<byte>): string {
    if b == [] then ""
    else if |b| == 1 then Group(b[0], 0, 0)[..2]
    else if |b| == 2 then Group(b[0], b[1], 0)[..3]
    else Group(b[0], b[1], b[2]) + Encode(b[3..])
  }

  /** The three bytes four symbols stand for; nothing when one is outside the alphabet. */
  function Ungroup(a: char, b: char, c: char, d: char): Option<(byte, byte, byte)> {
    var p, q, r, t := SymbolValue(a), SymbolValue(b), SymbolValue(c), SymbolValue(d);
    if p.None? || q.None? || r.None? || t.None? then None
    else Some(Unpack(p.value, q.value, r.value, t.value))
  }

  /** Decoding refuses unknown symbols, a lone last symbol, and unused bits that are not zero. */
  function Decode(s: string): Option<seq<byte>> {
    if s == "" then Some([])
    else if |s| == 1 then None
    else if |s| == 2 then
      var g := Ungroup(s[0], s[1], 'A', 'A');
      if g.None? || g.value.1 != 0 then None else Some([g.value.0])
    else if |s| == 3 then
      var g := Ungroup(s[0], s[1], s[2], 'A');
      if g.None? || g.value.2 != 0 then None else Some([g.value.0, g.value.1])
    else
      var g, rest := Ungroup(s[0], s[1], s[2], s[3]), Decode(s[4..]);
      if g.None? || rest.None? then None else Some([g.value.0, g.value.1, g.value.2] + rest.value)
  }

  lemma UngroupSymbols(p: Sextet, q: Sextet, r: Sextet, t: Sextet)
    ensures Ungroup(Symbol(p), Symbol(q), Symbol(r), Symbol(t)) == Some(Unpack(p, q, r, t))
  {
    SymbolInverse(p, 'A');
    SymbolInverse(q, 'A');
    SymbolInverse(r, 'A');
    SymbolInverse(t, 'A');
  }

  lemma PaddingIsZero(x: byte, y: byte)
    ensures Group(x, y, 0)[3] == 'A' && Group(x, 0, 0)[2] == 'A'
  {
  }

  lemma UngroupGroup(x: byte, y: byte, z: byte)
    ensures var g := Group(x, y, z); Ungroup(g[0], g[1], g[2], g[3]) == Some((x, y, z))
    ensures Group(x, y, 0)[3] == 'A' && Group(x, 0, 0)[2] == 'A'
  {
    PaddingIsZero(x, y);
    UnpackPack(x, y, z);
    var (p, q, r, t) := Pack(x, y, z);
    UngroupSymbols(p, q, r, t);
    assert Group(x, y, z) == [Symbol(p), Symbol(q), Symbol(r), Symbol(t)];
  }

  lemma GroupUngroup(a: char, b: char, c: char, d: char)
    requires Ungroup(a, b, c, d).Some?
    ensures var (x, y, z) := Ungroup(a, b, c, d).value; Group(x, y, z) == [a, b, c, d]
  {
    var p, q, r, t := SymbolValue(a).value, SymbolValue(b).value, SymbolValue(c).value, SymbolValue(d).value;
    PackUnpack(p, q, r, t);
    SymbolInverse(p, a);
    SymbolInverse(q, b);
    SymbolInverse(r, c);
    SymbolInverse(t, d);
  }

  lemma GroupPlain(x: byte, y: byte, z: byte)
    ensures '.' !in Group(x, y, z) && '=' !in Group(x, y, z)
  {
    var (p, q, r, t) := Pack(x, y, z);
    SymbolInverse(p, 'A');
    SymbolInverse(q, 'A');
    SymbolInverse(r, 'A');
    SymbolInverse(t, 'A');
  }

  lemma {:induction false} EncodedLength(b: seq<byte>)
    ensures |Encode(b)| == (4 * |b| + 2) / 3
    ensures '.' !in Encode(b) && '=' !in Encode(b)
  {
    if |b| == 1 {
      GroupPlain(b[0], 0, 0);
    } else if |b| == 2 {
      GroupPlain(b[0], b[1], 0);
    } else if |b| >= 3 {
      GroupPlain(b[0], b[1], b[2]);
      EncodedLength(b[3..]);
    }
  }

  lemma DecodeEncodedShort(b: seq<byte>)
    requires 1 <= |b| <= 2
    ensures Decode(Encode(b)) == Some(b)
  {
    var s := Encode(b);
    if |b| == 1 {
      UngroupGroup(b[0], 0, 0);
      assert Ungroup(s[0], s[1], 'A', 'A') == Some((b[0], 0, 0));
      assert b == [b[0]];
    } else {
      UngroupGroup(b[0], b[1], 0);
      assert Ungroup(s[0], s[1], s[2], 'A') == Some((b[0], b[1], 0));
      assert b == [b[0], b[1]];
    }
  }

  lemma {:induction false} DecodeEncoded(b: seq<byte>)
    ensures Decode(Encode(b)) == Some(b)
  {
    if 1 <= |b| <= 2 {
      DecodeEncodedShort(b);
    } else if |b| >= 3 {
      UngroupGroup(b[0], b[1], b[2]);
      DecodeEncoded(b[3..]);
      assert Encode(b)[4..] == Encode(b[3..]);
      assert b == [b[0], b[1], b[2]] + b[3..];
    }
  }

  lemma {:induction false} EncodeDecoded(s: string)
    requires Decode(s).Some?
    ensures Encode(Decode(s).value) == s
  {
    var b := Decode(s).value;
    if |s| == 2 {
      GroupUngroup(s[0], s[1], 'A', 'A');
    } else if |s| == 3 {
      GroupUngroup(s[0], s[1], s[2], 'A');
    } else if |s| >= 4 {
      GroupUngroup(s[0], s[1], s[2], s[3]);
      EncodeDecoded(s[4..]);
      assert b[3..] == Decode(s[4..]).value;
      assert s == [s[0], s[1], s[2], s[3]] + s[4..];
    }
  }

  // ---------------------------------------------------------------------
  // UUID text
  // ---------------------------------------------------------------------

  type Nibble = n: int | 0 <= n < 16

  function HexDigit(n: Nibble): char {
    if n < 10 then '0' + (n as char) else 'a' + ((n - 10) as char)
  }

  /** Parsing accepts both cases. */
  function HexValue(c: char): Option<Nibble> {
    if '0' <= c <= '9' then Some(c as int - '0' as int)
    else if 'a' <= c <= 'f' then Some(c as int - 'a' as int + 10)
    else if 'A' <= c <= 'F' then Some(c as int - 'A' as int + 10) else None
  }

  lemma HexIsListed(n: Nibble)
    ensures HexDigit(n) == "0123456789abcdef"[n]
  {
  }

  lemma HexInverse(n: Nibble)
    ensures HexValue(HexDigit(n)) == Some(n) && HexDigit(n) != '.'
  {
  }

  function Hex(b: seq<byte>): (s: string)
    ensures |s| == 2 * |b|
  {
    if b == [] then "" else [HexDigit(b[0] as int / 16), HexDigit(b[0] as int % 16)] + Hex(b[1..])
  }

  function UnHex(s: string): (r: Option<seq<byte>>)
    ensures r.Some? ==> 2 * |r.value| == |s|
  {
    if s == "" then Some([])
    else if |s| == 1 then None
    else
      var h, l, rest := HexValue(s[0]), HexValue(s[1]), UnHex(s[2..]);
      if h.None? || l.None? || rest.None? then None
      else Some([(h.value * 16 + l.value) as byte] + rest.value)
  }

  lemma {:induction false} UnHexHex(b: seq<byte>)
    ensures UnHex(Hex(b)) == Some(b)
    ensures '.' !in Hex(b)
  {
    if b != [] {
      var h, l := b[0] as int / 16, b[0] as int % 16;
      HexInverse(h);
      HexInverse(l);
      UnHexHex(b[1..]);
      assert Hex(b)[2..] == Hex(b[1..]);
      assert b == [b[0]] + b[1..];
    }
  }

  /** Two digits a byte, the high one first. */
  lemma {:induction false} HexAt(b: seq<byte>, i: nat)
    requires i < |b|
    ensures Hex(b)[2 * i] == "0123456789abcdef"[b[i] as int / 16]
    ensures Hex(b)[2 * i + 1] == "0123456789abcdef"[b[i] as int % 16]
  {
    if i == 0 {
      HexIsListed(b[0] as int / 16);
      HexIsListed(b[0] as int % 16);
    } else {
      HexAt(b[1..], i - 1);
      assert Hex(b)[2..] == Hex(b[1..]);
    }
  }

  /** `8-4-4-4-12` out of 32 hexadecimal digits. */
  function Hyphenate(h: string): (s: string)
    requires |h| == 32
    ensures |s| == 36
  {
    h[..8] + "-" + h[8..12] + "-" + h[12..16] + "-" + h[16..20] + "-" + h[20..]
  }

  function UuidText(u: Uuid): (s: string)
    ensures |s| == 36
  {
    Hyphenate(Hex(u))
  }

  function ParseHyphenated(s: string): Option<Uuid>
    requires |s| == 36
  {
    if s[8] == '-' && s[13] == '-' && s[18] == '-' && s[23] == '-'
    then UnHex(s[..8] + s[9..13] + s[14..18] + s[19..23] + s[24..]) else None
  }

  /** `Uuid::parse_str`: hyphenated, simple, braced and URN forms, in either case. */
  function ParseUuid(s: string): Option<Uuid> {
    if |s| == 36 then ParseHyphenated(s)
    else if |s| == 32 then UnHex(s)
    else if |s| == 38 && s[0] == '{' && s[37] == '}' then ParseHyphenated(s[1..37])
    else if |s| == 45 && s[..9] == "urn:uuid:" then ParseHyphenated(s[9..])
    else None
  }

  /** Only the text a UUID prints as is accepted as a device id. */
  function ParseDeviceId(s: string): Option<Uuid> {
    var id := ParseUuid(s);
    if id.Some? && UuidText(id.value) == s then id else None
  }

  lemma HyphensOnly(h: string)
    requires |h| == 32
    ensures var s := Hyphenate(h); s[8] == '-' && s[13] == '-' && s[18] == '-' && s[23] == '-'
    ensures var s := Hyphenate(h); s[..8] + s[9..13] + s[14..18] + s[19..23] + s[24..] == h
  {
    var s := Hyphenate(h);
    assert s[..8] == h[..8] && s[9..13] == h[8..12] && s[14..18] == h[12..16];
    assert s[19..23] == h[16..20] && s[24..] == h[20..];
  }

  lemma HyphenateAddsNoDot(h: string)
    requires |h| == 32 && '.' !in h
    ensures '.' !in Hyphenate(h)
  {
    assert '.' !in h[..8] + "-" && '.' !in h[8..12] + "-" && '.' !in h[12..16] + "-" && '.' !in h[16..20] + "-";
  }

  lemma DeviceIdRoundTrip(u: Uuid)
    ensures ParseDeviceId(UuidText(u)) == Some(u)
    ensures '.' !in UuidText(u)
  {
    UnHexHex(u);
    HyphensOnly(Hex(u));
    HyphenateAddsNoDot(Hex(u));
  }

  // ---------------------------------------------------------------------
  // Device tokens
  // ---------------------------------------------------------------------

  const TOKEN_VERSION := "pdv2"
  const SECRET_TEXT_LENGTH := 43

  function PrintToken(device: Uuid, secret: Secret): string {
    TOKEN_VERSION + "." + UuidText(device) + "." + Encode(secret)
  }

  /** `str::split('.')`. */
  function Split(s: string): (r: seq<string>)
    ensures r != []
  {
    if s == "" then [""]
    else
      var rest := Split(s[1..]);
      if s[0] == '.' then [""] + rest else [[s[0]] + rest[0]] + rest[1..]
  }

  function Join(parts: seq<string>): string
    requires parts != []
  {
    if |parts| == 1 then parts[0] else parts[0] + "." + Join(parts[1..])
  }

  lemma {:induction false} JoinSplit(s: string)
    ensures Join(Split(s)) == s
  {
    if s != "" {
      var rest := Split(s[1..]);
      JoinSplit(s[1..]);
      if s[0] == '.' {
        assert ([""] + rest)[1..] == rest;
      } else {
        assert ([[s[0]] + rest[0]] + rest[1..])[1..] == rest[1..];
      }
      assert s == [s[0]] + s[1..];
    }
  }

  lemma {:induction false} SplitFirst(a: string, rest: string)
    requires '.' !in a
    ensures Split(a + "." + rest) == [a] + Split(rest)
  {
    var s := a + "." + rest;
    if a == "" {
      assert s[1..] == rest;
    } else {
      SplitFirst(a[1..], rest);
      assert s[1..] == a[1..] + "." + rest;
      assert a == [a[0]] + a[1..];
    }
  }

  lemma {:induction false} SplitLast(a: string)
    requires '.' !in a
    ensures Split(a) == [a]
  {
    if a != "" {
      SplitLast(a[1..]);
      assert a == [a[0]] + a[1..];
    }
  }

  function ParseToken(token: string): Option<(Uuid, Secret)> {
    var parts := Split(token);
    if |parts| != 3 || parts[0] != TOKEN_VERSION || |parts[2]| != SECRET_TEXT_LENGTH || '=' in parts[2]
    then None
    else
      var device, decoded := ParseDeviceId(parts[1]), Decode(parts[2]);
      if device.None? || decoded.None? || Encode(decoded.value) != parts[2] || |decoded.value| != 32
      then None else Some((device.value, decoded.value))
  }

  lemma PrintedParts(id: string, text: string)
    requires '.' !in id && '.' !in text
    ensures Split(TOKEN_VERSION + "." + id + "." + text) == [TOKEN_VERSION, id, text]
  {
    assert TOKEN_VERSION + "." + id + "." + text == TOKEN_VERSION + "." + (id + "." + text);
    SplitFirst(TOKEN_VERSION, id + "." + text);
    SplitFirst(id, text);
    SplitLast(text);
  }

  lemma ParsePrinted(device: Uuid, secret: Secret)
    ensures ParseToken(PrintToken(device, secret)) == Some((device, secret))
  {
    DeviceIdRoundTrip(device);
    DecodeEncoded(secret);
    EncodedLength(secret);
    PrintedParts(UuidText(device), Encode(secret));
  }

  lemma PrintParsed(token: string)
    requires ParseToken(token).Some?
    ensures PrintToken(ParseToken(token).value.0, ParseToken(token).value.1) == token
  {
    var parts := Split(token);
    JoinSplit(token);
    assert parts[1..][1..] == [parts[2]];
    assert Join(parts[1..]) == parts[1] + "." + parts[2];
    assert token == parts[0] + "." + (parts[1] + "." + parts[2]);
  }

  /** A text is accepted exactly when it is the printing of what it is read as. */
  lemma TokenIsCanonical(token: string, device: Uuid, secret: Secret)
    ensures ParseToken(token) == Some((device, secret)) <==> token == PrintToken(device, secret)
  {
    ParsePrinted(device, secret);
    if ParseToken(token) == Some((device, secret)) {
      PrintParsed(token);
    }
  }
}
