/**
 The authorization revision of a device: the bytes fed to the revision hash, and why they
 tell apart any two authorizations.
 */
module DeviceRevision {
  import opened Basics

  // ---------------------------------------------------------------------
  // Fields
  // ---------------------------------------------------------------------

  datatype DeviceScope =
    | NotifyWrite | NotifyReadOwn | ChannelRead | ChannelManage | GatewayConnect | RunQuery | RunControl

  const ALL_SCOPES := [NotifyWrite, NotifyReadOwn, ChannelRead, ChannelManage, GatewayConnect, RunQuery, RunControl]

  function ScopeText(s: DeviceScope): string {
    match s
    case NotifyWrite => "notify:write"
    case NotifyReadOwn => "notify:read_own"
    case ChannelRead => "channel:read"
    case ChannelManage => "channel:manage"
    case GatewayConnect => "gateway:connect"
    case RunQuery => "job:query"
    case RunControl => "job:control"
  }

  type I64 = n: int | -0x8000_0000_0000_0000 <= n <= I64_MAX

  /** What an authorization depends on. */
  datatype Authorization = Authorization(
    device: Uuid, hash: seq<byte>, version: I64, enabled: bool, revokedAt: Option<I64>, scopes: set<DeviceScope>)

  // ---------------------------------------------------------------------
  // Bytes
  // ---------------------------------------------------------------------

  /** The last `k` big-endian bytes of `n`. */
  function BigEndian(n: nat, k: nat): (b: seq<byte>)
    ensures |b| == k
  {
    if k == 0 then [] else BigEndian(n / 256, k - 1) + [(n % 256) as byte]
  }

  function Power256(k: nat): nat {
    if k == 0 then 1 else 256 * Power256(k - 1)
  }

  lemma {:induction false} BigEndianInjective(m: nat, n: nat, k: nat)
    requires m < Power256(k) && n < Power256(k) && BigEndian(m, k) == BigEndian(n, k)
    ensures m == n
  {
    if k > 0 {
      var a, b := BigEndian(m / 256, k - 1), BigEndian(n / 256, k - 1);
      assert (a + [(m % 256) as byte])[..k - 1] == a && (b + [(n % 256) as byte])[..k - 1] == b;
      assert (a + [(m % 256) as byte])[k - 1] == (b + [(n % 256) as byte])[k - 1];
      BigEndianInjective(m / 256, n / 256, k - 1);
    }
  }

  lemma EightBytes()
    ensures Power256(8) == U64_MODULUS
  {
    assert Power256(4) == 0x1_0000_0000;
    assert Power256(6) == 256 * 256 * Power256(4);
  }

  /** `u64::to_be_bytes` */
  function U64Bytes(n: nat): (b: seq<byte>)
    requires n < U64_MODULUS
    ensures |b| == 8
  {
    BigEndian(n, 8)
  }

  /** `i64::to_be_bytes`: two's complement. */
  function I64Bytes(n: I64): (b: seq<byte>)
    ensures |b| == 8
  {
    U64Bytes(if n < 0 then n + U64_MODULUS else n)
  }

  lemma U64BytesInjective(m: nat, n: nat)
    requires m < U64_MODULUS && n < U64_MODULUS && U64Bytes(m) == U64Bytes(n)
    ensures m == n
  {
    EightBytes();
    BigEndianInjective(m, n, 8);
  }

  lemma I64BytesInjective(m: I64, n: I64)
    requires I64Bytes(m) == I64Bytes(n)
    ensures m == n
  {
    U64BytesInjective(if m < 0 then m + U64_MODULUS else m, if n < 0 then n + U64_MODULUS else n);
  }

  function ScopeBytes(s: DeviceScope): (b: seq<byte>)
    ensures 0 < |b| < 16
  {
    Ascii(ScopeText(s))
  }

  lemma ScopeBytesInjective(a: DeviceScope, b: DeviceScope)
    requires ScopeBytes(a) == ScopeBytes(b)
    ensures a == b
  {
    var x, y := ScopeText(a), ScopeText(b);
    forall i | 0 <= i < |x| ensures x[i] == y[i] {
      assert ScopeBytes(a)[i] == ScopeBytes(b)[i];
      assert x[i] in x && y[i] in y;
    }
    assert x == y;
    assert x[0] == y[0] && x[|x| - 1] == y[|y| - 1];
  }

  // ---------------------------------------------------------------------
  // The stream
  // ---------------------------------------------------------------------

  /** The members of a scope set in the order a BTreeSet yields them. */
  function InOrder(scopes: set<DeviceScope>, from: nat): (s: seq<DeviceScope>)
    requires from <= |ALL_SCOPES|
    ensures forall x :: x in s <==> x in scopes && x in ALL_SCOPES[from..]
    decreases |ALL_SCOPES| - from
  {
    if from == |ALL_SCOPES| then []
    else
      var rest := InOrder(scopes, from + 1);
      assert ALL_SCOPES[from..] == [ALL_SCOPES[from]] + ALL_SCOPES[from + 1..];
      if ALL_SCOPES[from] in scopes then [ALL_SCOPES[from]] + rest else rest
  }

  function ScopeBlock(s: DeviceScope): seq<byte> {
    U64Bytes(|ScopeBytes(s)|) + ScopeBytes(s)
  }

  function ScopeBlocks(s: seq<DeviceScope>): seq<byte> {
    if s == [] then [] else ScopeBlock(s[0]) + ScopeBlocks(s[1..])
  }

  function RevokedBytes(revokedAt: Option<I64>): seq<byte> {
    match revokedAt
    case Some(at) => [1] + I64Bytes(at)
    case None => [0]
  }

  function Flag(b: bool): byte {
    if b then 1 else 0
  }

  /** What a caller must hold to: the length of the stored hash fits its prefix. */
  predicate Encodable(a: Authorization) {
    |a.hash| < U64_MODULUS
  }

  lemma EveryScope(x: DeviceScope)
    ensures x in ALL_SCOPES
  {
    match x
    case NotifyWrite => assert ALL_SCOPES[0] == x;
    case NotifyReadOwn => assert ALL_SCOPES[1] == x;
    case ChannelRead => assert ALL_SCOPES[2] == x;
    case ChannelManage => assert ALL_SCOPES[3] == x;
    case GatewayConnect => assert ALL_SCOPES[4] == x;
    case RunQuery => assert ALL_SCOPES[5] == x;
    case RunControl => assert ALL_SCOPES[6] == x;
  }

  lemma {:induction false} InOrderSize(scopes: set<DeviceScope>, from: nat)
    requires from <= |ALL_SCOPES|
    ensures |InOrder(scopes, from)| <= |ALL_SCOPES| - from
    decreases |ALL_SCOPES| - from
  {
    if from < |ALL_SCOPES| {
      InOrderSize(scopes, from + 1);
    }
  }

  lemma ScopesDiffer(i: nat)
    requires i < |ALL_SCOPES|
    ensures ALL_SCOPES[i] !in ALL_SCOPES[i + 1..]
  {
    forall j | i < j < |ALL_SCOPES| ensures ALL_SCOPES[j] != ALL_SCOPES[i] {}
  }

  /** The list has one entry for each member, so its length is the size the source writes. */
  lemma {:induction false} InOrderCounts(scopes: set<DeviceScope>, from: nat)
    requires from <= |ALL_SCOPES| && forall x | x in scopes :: x in ALL_SCOPES[from..]
    ensures |InOrder(scopes, from)| == |scopes|
    decreases |ALL_SCOPES| - from
  {
    if from < |ALL_SCOPES| {
      var first := ALL_SCOPES[from];
      assert ALL_SCOPES[from..] == [first] + ALL_SCOPES[from + 1..];
      ScopesDiffer(from);
      InOrderCounts(scopes - {first}, from + 1);
      InOrderWithout(scopes, first, from + 1);
    } else {
      assert ALL_SCOPES[from..] == [];
      assert scopes == {};
    }
  }

  lemma {:induction false} InOrderWithout(scopes: set<DeviceScope>, first: DeviceScope, from: nat)
    requires from <= |ALL_SCOPES| && first !in ALL_SCOPES[from..]
    ensures InOrder(scopes - {first}, from) == InOrder(scopes, from)
    decreases |ALL_SCOPES| - from
  {
    if from < |ALL_SCOPES| {
      assert ALL_SCOPES[from] in ALL_SCOPES[from..];
      assert ALL_SCOPES[from..] == [ALL_SCOPES[from]] + ALL_SCOPES[from + 1..];
      InOrderWithout(scopes, first, from + 1);
    }
  }

  lemma ListedCounts(scopes: set<DeviceScope>)
    ensures |Listed(scopes)| == |scopes|
  {
    forall x | x in scopes ensures x in ALL_SCOPES[0..] {
      EveryScope(x);
      assert ALL_SCOPES[0..] == ALL_SCOPES;
    }
    InOrderCounts(scopes, 0);
  }

  function Listed(scopes: set<DeviceScope>): (s: seq<DeviceScope>)
    ensures |s| <= 7
  {
    InOrderSize(scopes, 0);
    InOrder(scopes, 0)
  }

  function Stream(a: Authorization): seq<byte>
    requires Encodable(a)
  {
    var listed := Listed(a.scopes);
    a.device + (U64Bytes(|a.hash|) + (a.hash + (I64Bytes(a.version) + ([Flag(a.enabled)]
      + (RevokedBytes(a.revokedAt) + (U64Bytes(|listed|) + ScopeBlocks(listed)))))))
  }

  // ---------------------------------------------------------------------
  // Injectivity
  // ---------------------------------------------------------------------

  lemma RevokedInjective(a: Option<I64>, x: seq<byte>, b: Option<I64>, y: seq<byte>)
    requires RevokedBytes(a) + x == RevokedBytes(b) + y
    ensures a == b && x == y
  {
    assert (RevokedBytes(a) + x)[0] == (RevokedBytes(b) + y)[0];
    assert a.Some? <==> b.Some?;
    SplitEqual(RevokedBytes(a), x, RevokedBytes(b), y);
    if a.Some? {
      SplitEqual([1], I64Bytes(a.value), [1], I64Bytes(b.value));
      I64BytesInjective(a.value, b.value);
    }
  }

  /** A length-prefixed text is recognised at the front of a stream. */
  lemma PrefixedInjective(a: seq<byte>, x: seq<byte>, b: seq<byte>, y: seq<byte>)
    requires |a| < U64_MODULUS && |b| < U64_MODULUS
    requires (U64Bytes(|a|) + a) + x == (U64Bytes(|b|) + b) + y
    ensures a == b && x == y
  {
    assert (U64Bytes(|a|) + a) + x == U64Bytes(|a|) + (a + x);
    assert (U64Bytes(|b|) + b) + y == U64Bytes(|b|) + (b + y);
    SplitEqual(U64Bytes(|a|), a + x, U64Bytes(|b|), b + y);
    U64BytesInjective(|a|, |b|);
    SplitEqual(a, x, b, y);
  }

  lemma BlockInjective(a: DeviceScope, x: seq<byte>, b: DeviceScope, y: seq<byte>)
    requires ScopeBlock(a) + x == ScopeBlock(b) + y
    ensures a == b && x == y
  {
    PrefixedInjective(ScopeBytes(a), x, ScopeBytes(b), y);
    ScopeBytesInjective(a, b);
  }

  lemma {:induction false} BlocksInjective(s: seq<DeviceScope>, t: seq<DeviceScope>)
    requires |s| == |t| && ScopeBlocks(s) == ScopeBlocks(t)
    ensures s == t
  {
    if s != [] {
      BlockInjective(s[0], ScopeBlocks(s[1..]), t[0], ScopeBlocks(t[1..]));
      BlocksInjective(s[1..], t[1..]);
      assert s == [s[0]] + s[1..] && t == [t[0]] + t[1..];
    }
  }

  lemma ListedInjective(a: set<DeviceScope>, b: set<DeviceScope>)
    requires Listed(a) == Listed(b)
    ensures a == b
  {
    forall x ensures x in a <==> x in b {
      EveryScope(x);
      assert ALL_SCOPES[0..] == ALL_SCOPES;
      assert x in a <==> x in Listed(a);
    }
  }

  lemma HeadInjective(a: Authorization, x: seq<byte>, b: Authorization, y: seq<byte>)
    requires Encodable(a) && Encodable(b)
    requires a.device + (U64Bytes(|a.hash|) + (a.hash + x)) == b.device + (U64Bytes(|b.hash|) + (b.hash + y))
    ensures a.device == b.device && a.hash == b.hash && x == y
  {
    SplitEqual(a.device, U64Bytes(|a.hash|) + (a.hash + x), b.device, U64Bytes(|b.hash|) + (b.hash + y));
    SplitEqual(U64Bytes(|a.hash|), a.hash + x, U64Bytes(|b.hash|), b.hash + y);
    U64BytesInjective(|a.hash|, |b.hash|);
    SplitEqual(a.hash, x, b.hash, y);
  }

  lemma TailInjective(s: seq<DeviceScope>, t: seq<DeviceScope>)
    requires |s| <= 7 && |t| <= 7 && U64Bytes(|s|) + ScopeBlocks(s) == U64Bytes(|t|) + ScopeBlocks(t)
    ensures s == t
  {
    SplitEqual(U64Bytes(|s|), ScopeBlocks(s), U64Bytes(|t|), ScopeBlocks(t));
    U64BytesInjective(|s|, |t|);
    BlocksInjective(s, t);
  }

  /** The stream determines every field: two authorizations have one revision only if they are the same. */
  lemma StreamInjective(a: Authorization, b: Authorization)
    requires Encodable(a) && Encodable(b)
    ensures Stream(a) == Stream(b) <==> a == b
  {
    if Stream(a) == Stream(b) {
      var la, lb := Listed(a.scopes), Listed(b.scopes);
      var ta, tb := U64Bytes(|la|) + ScopeBlocks(la), U64Bytes(|lb|) + ScopeBlocks(lb);
      var ra, rb := RevokedBytes(a.revokedAt) + ta, RevokedBytes(b.revokedAt) + tb;
      HeadInjective(a, I64Bytes(a.version) + ([Flag(a.enabled)] + ra),
                    b, I64Bytes(b.version) + ([Flag(b.enabled)] + rb));
      SplitEqual(I64Bytes(a.version), [Flag(a.enabled)] + ra, I64Bytes(b.version), [Flag(b.enabled)] + rb);
      I64BytesInjective(a.version, b.version);
      SplitEqual([Flag(a.enabled)], ra, [Flag(b.enabled)], rb);
      assert [Flag(a.enabled)][0] == [Flag(b.enabled)][0];
      RevokedInjective(a.revokedAt, ta, b.revokedAt, tb);
      TailInjective(la, lb);
      ListedInjective(a.scopes, b.scopes);
    }
  }

  // ---------------------------------------------------------------------
  // Feeding the hasher
  // ---------------------------------------------------------------------

  /** One more piece moves from what is left to what is fed. */
  lemma Fed(fed: seq<byte>, piece: seq<byte>, rest: seq<byte>)
    ensures (fed + piece) + rest == fed + (piece + rest)
  {
  }

  lemma NextBlock(listed: seq<DeviceScope>, i: nat)
    requires i < |listed|
    ensures ScopeBlocks(listed[i..]) == ScopeBlock(listed[i]) + ScopeBlocks(listed[i + 1..])
  {
    assert listed[i..][0] == listed[i] && listed[i..][1..] == listed[i + 1..];
  }

  /** The loop over the scopes, in set order. */
  method FeedScopes(fed0: seq<byte>, listed: seq<DeviceScope>) returns (fed: seq<byte>)
    ensures fed == fed0 + ScopeBlocks(listed)
  {
    fed := fed0;
    assert listed[0..] == listed;
    for i := 0 to |listed|
      invariant fed + ScopeBlocks(listed[i..]) == fed0 + ScopeBlocks(listed)
    {
      NextBlock(listed, i);
      Fed(fed, ScopeBlock(listed[i]), ScopeBlocks(listed[i + 1..]));
      Fed(fed, U64Bytes(|ScopeBytes(listed[i])|), ScopeBytes(listed[i]));
      fed := fed + U64Bytes(|ScopeBytes(listed[i])|);
      fed := fed + ScopeBytes(listed[i]);
    }
  }

  method FeedRevokedAt(fed0: seq<byte>, revokedAt: Option<I64>) returns (fed: seq<byte>)
    ensures fed == fed0 + RevokedBytes(revokedAt)
  {
    match revokedAt {
      case Some(at) =>
        Fed(fed0, [1], I64Bytes(at));
        fed := fed0 + [1];
        fed := fed + I64Bytes(at);
      case None =>
        fed := fed0 + [0];
    }
  }

  lemma StreamFromTheLeft(a: Authorization)
    requires Encodable(a)
    ensures var listed := Listed(a.scopes);
            Stream(a) == ((((((a.device + U64Bytes(|a.hash|)) + a.hash) + I64Bytes(a.version)) + [Flag(a.enabled)])
                           + RevokedBytes(a.revokedAt)) + U64Bytes(|listed|)) + ScopeBlocks(listed)
  {
    var listed := Listed(a.scopes);
    var t6 := U64Bytes(|listed|) + ScopeBlocks(listed);
    var t5 := RevokedBytes(a.revokedAt) + t6;
    var t4 := [Flag(a.enabled)] + t5;
    var t3 := I64Bytes(a.version) + t4;
    var t2 := a.hash + t3;
    var f1 := a.device + U64Bytes(|a.hash|);
    Fed(a.device, U64Bytes(|a.hash|), t2);
    Fed(f1, a.hash, t3);
    Fed(f1 + a.hash, I64Bytes(a.version), t4);
    Fed(f1 + a.hash + I64Bytes(a.version), [Flag(a.enabled)], t5);
    Fed(f1 + a.hash + I64Bytes(a.version) + [Flag(a.enabled)], RevokedBytes(a.revokedAt), t6);
    Fed(f1 + a.hash + I64Bytes(a.version) + [Flag(a.enabled)] + RevokedBytes(a.revokedAt),
        U64Bytes(|listed|), ScopeBlocks(listed));
  }

  /** The updates of the hasher, one after the other. */
  method FeedRevision(a: Authorization) returns (fed: seq<byte>)
    requires Encodable(a)
    ensures fed == Stream(a)
  {
    StreamFromTheLeft(a);
    fed := a.device;
    fed := fed + U64Bytes(|a.hash|);
    fed := fed + a.hash;
    fed := fed + I64Bytes(a.version);
    fed := fed + [Flag(a.enabled)];
    fed := FeedRevokedAt(fed, a.revokedAt);
    var listed := Listed(a.scopes);
    fed := fed + U64Bytes(|listed|);
    fed := FeedScopes(fed, listed);
  }
}
