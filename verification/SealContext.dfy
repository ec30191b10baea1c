/**
 The associated data that result bodies, share tokens and link notices are sealed under: bytes
 joined without separators, which still tell any two contexts apart.
 */
module SealContext {
  import opened Basics
  import opened ResultPages

  /** What each kind of content is sealed for, in the bytes of its fields. */
  datatype Context =
    | BodyContext(device: Uuid, resultId: seq<byte>, hash: seq<byte>)
    | TokenContext(device: Uuid, resultId: seq<byte>, hash: seq<byte>)
    | NoticeContext(device: Uuid, resultId: seq<byte>, hash: seq<byte>, noticeId: seq<byte>)

  /** A hash is 64 hexadecimal digits and a notification id a printed UUID; a result id has any length. */
  predicate WellFormed(c: Context) {
    |c.hash| == 64 && (c.NoticeContext? ==> |c.noticeId| == 36)
  }

  function Purpose(c: Context): (b: seq<byte>)
    ensures |b| == if c.BodyContext? then 10 else 16
    ensures b[6] == if c.BodyContext? then 66 else if c.TokenContext? then 83 else 76
  {
    match c
    case BodyContext(_, _, _) => Ascii("ResultBody")
    case TokenContext(_, _, _) => Ascii("ResultShareToken")
    case NoticeContext(_, _, _, _) => Ascii("ResultLinkNotice")
  }

  function Suffix(c: Context): seq<byte> {
    if c.NoticeContext? then c.hash + c.noticeId else c.hash
  }

  /** `aad` and `notice_aad` */
  function Bytes(c: Context): seq<byte> {
    Purpose(c) + (c.device + (c.resultId + Suffix(c)))
  }

  lemma SplitBack(a: seq<byte>, x: seq<byte>, b: seq<byte>, y: seq<byte>)
    requires |x| == |y| && a + x == b + y
    ensures a == b && x == y
  {
    assert |a| == |b|;
    SplitEqual(a, x, b, y);
  }

  lemma SameKind(c: Context, d: Context)
    requires Bytes(c) == Bytes(d)
    ensures Purpose(c)[6] == Purpose(d)[6] && |Purpose(c)| == |Purpose(d)|
  {
    assert Bytes(c)[6] == Purpose(c)[6] && Bytes(d)[6] == Purpose(d)[6];
  }

  /** Content sealed in one context opens in no other: their associated data differ. */
  lemma ContextsDiffer(c: Context, d: Context)
    requires WellFormed(c) && WellFormed(d)
    ensures Bytes(c) == Bytes(d) <==> c == d
  {
    if Bytes(c) == Bytes(d) {
      SameKind(c, d);
      SplitEqual(Purpose(c), c.device + (c.resultId + Suffix(c)), Purpose(d), d.device + (d.resultId + Suffix(d)));
      SplitEqual(c.device, c.resultId + Suffix(c), d.device, d.resultId + Suffix(d));
      SplitBack(c.resultId, Suffix(c), d.resultId, Suffix(d));
      if c.NoticeContext? {
        SplitEqual(c.hash, c.noticeId, d.hash, d.noticeId);
      }
    }
  }

  /** Without a hash of fixed length the fields could be shifted between each other. */
  lemma LengthsAreNeeded(device: Uuid)
    ensures exists c: Context, d: Context :: c != d && c.BodyContext? && d.BodyContext? && Bytes(c) == Bytes(d)
  {
    var c, d := BodyContext(device, [1], [2]), BodyContext(device, [], [1, 2]);
    assert [1] + [2] == [] + [1, 2];
    assert c.resultId + Suffix(c) == d.resultId + Suffix(d);
    assert Bytes(c) == Bytes(d);
  }

  // ---------------------------------------------------------------------
  // The bytes of what ResultPages seals under
  // ---------------------------------------------------------------------

  function Utf8Char(c: char): (b: seq<byte>)
    ensures |b| == Utf8Width(c)
  {
    var n := c as int;
    if n < 0x80 then [n as byte]
    else if n < 0x800 then [(0xC0 + n / 64) as byte, (0x80 + n % 64) as byte]
    else if n < 0x10000 then [(0xE0 + n / 4096) as byte, (0x80 + n / 64 % 64) as byte, (0x80 + n % 64) as byte]
    else
      [(0xF0 + n / 262_144) as byte, (0x80 + n / 4096 % 64) as byte, (0x80 + n / 64 % 64) as byte,
       (0x80 + n % 64) as byte]
  }

  /** `str::as_bytes` */
  function Utf8(s: string): (b: seq<byte>)
    ensures |b| == Utf8Len(s)
  {
    if s == [] then [] else Utf8Char(s[0]) + Utf8(s[1..])
  }

  /** The first byte of a character says how many there are. */
  lemma LeadSaysWidth(c: char)
    ensures var lead := Utf8Char(c)[0] as int;
            Utf8Width(c) == if lead < 0xC0 then 1 else if lead < 0xE0 then 2 else if lead < 0xF0 then 3 else 4
  {
  }

  lemma Digits64(n: nat)
    ensures n / 4096 == n / 64 / 64 && n / 262_144 == n / 4096 / 64
    ensures n == n / 262_144 * 262_144 + n / 4096 % 64 * 4096 + n / 64 % 64 * 64 + n % 64
  {
  }

  /** The number the bytes of one character spell. */
  function CodePoint(b: seq<byte>): int {
    if |b| == 1 then b[0] as int
    else if |b| == 2 then (b[0] as int - 0xC0) * 64 + (b[1] as int - 0x80)
    else if |b| == 3 then (b[0] as int - 0xE0) * 4096 + (b[1] as int - 0x80) * 64 + (b[2] as int - 0x80)
    else if |b| == 4 then
      (b[0] as int - 0xF0) * 262_144 + (b[1] as int - 0x80) * 4096 + (b[2] as int - 0x80) * 64 + (b[3] as int - 0x80)
    else 0
  }

  lemma Utf8CharSpells(c: char)
    ensures CodePoint(Utf8Char(c)) == c as int
  {
    Digits64(c as int);
  }

  lemma {:induction false} Utf8Injective(s: string, t: string)
    requires Utf8(s) == Utf8(t)
    ensures s == t
    decreases |s|
  {
    if s != [] && t != [] {
      assert Utf8(s)[0] == Utf8Char(s[0])[0] && Utf8(t)[0] == Utf8Char(t[0])[0];
      LeadSaysWidth(s[0]);
      LeadSaysWidth(t[0]);
      SplitEqual(Utf8Char(s[0]), Utf8(s[1..]), Utf8Char(t[0]), Utf8(t[1..]));
      Utf8CharSpells(s[0]);
      Utf8CharSpells(t[0]);
      Utf8Injective(s[1..], t[1..]);
      assert s == [s[0]] + s[1..] && t == [t[0]] + t[1..];
    }
  }

  /** The context an associated datum stands for; `hex` prints a hash. */
  function ContextOf(hex: Hash -> seq<byte>, a: Aad): Context {
    match a
    case BodyAad(device, resultId, hash) => BodyContext(device, Utf8(resultId), hex(hash))
    case TokenAad(device, resultId, hash) => TokenContext(device, Utf8(resultId), hex(hash))
    case NoticeAad(device, resultId, hash, noticeId) => NoticeContext(device, Utf8(resultId), hex(hash), Utf8(noticeId))
  }

  /**
   Two associated data have the same bytes exactly when they are the same, as long as their two
   hashes do not collide: what the ideal cipher compares is what the bytes compare.
   */
  lemma AadsDiffer(hex: Hash -> seq<byte>, a: Aad, b: Aad)
    requires WellFormed(ContextOf(hex, a)) && WellFormed(ContextOf(hex, b))
    requires hex(a.hash) == hex(b.hash) ==> a.hash == b.hash
    ensures Bytes(ContextOf(hex, a)) == Bytes(ContextOf(hex, b)) <==> a == b
  {
    ContextsDiffer(ContextOf(hex, a), ContextOf(hex, b));
    if ContextOf(hex, a) == ContextOf(hex, b) {
      Utf8Injective(a.resultId, b.resultId);
      if a.NoticeAad? {
        Utf8Injective(a.noticeId, b.noticeId);
      }
    }
  }
}
