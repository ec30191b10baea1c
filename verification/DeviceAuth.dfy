/**
 Device credentials: their lifecycle, authentication by an optimistic read and a fenced
 write transaction, and authorization leases.

 The secret hash is ideal: a hash is as good as the secret it was taken of.
 */
module DeviceAuth {
  import opened Basics
  import opened TokenFormat
  import opened DeviceRevision

  const LAST_SEEN_INTERVAL_MS: int := 60_000

  datatype SecretHash = SecretHash(of: Secret)

  /** 32 bytes that differ for different secrets. */
  function HashBytes(h: SecretHash): (b: seq<byte>)
    ensures |b| == 32
  {
    h.of
  }

  /** A row of `devices` with its rows of `device_scopes`. */
  datatype Device = Device(
    name: string, hash: SecretHash, version: I64, enabled: bool, createdAt: I64,
    lastSeen: Option<I64>, revokedAt: Option<I64>, rotatedAt: Option<I64>, scopes: set<DeviceScope>)

  type Devices = map<Uuid, Device>

  datatype DeviceError = InvalidName | InvalidScopes | InvalidId | NotFound | DeviceRevoked

  datatype AuthError = Unauthorized | Revoked

  datatype Revision = Revision(of: seq<byte>)

  datatype Authenticated = Authenticated(id: Uuid, name: string, scopes: set<DeviceScope>, revision: Revision)

  function AuthorizationOf(id: Uuid, d: Device): (a: Authorization)
    ensures Encodable(a)
  {
    Authorization(id, HashBytes(d.hash), d.version, d.enabled, d.revokedAt, d.scopes)
  }

  function RevisionOf(id: Uuid, d: Device): Revision {
    Revision(Stream(AuthorizationOf(id, d)))
  }

  // ---------------------------------------------------------------------
  // Lifecycle transactions
  // ---------------------------------------------------------------------

  predicate AllWhitespace(s: string) {
    forall c | c in s :: IsWhitespace(c)
  }

  function TrimStart(s: string): (r: string)
    ensures |r| <= |s| && (r != [] ==> !IsWhitespace(r[0]))
  {
    if s != [] && IsWhitespace(s[0]) then TrimStart(s[1..]) else s
  }

  function TrimEnd(s: string): (r: string)
    ensures r <= s && (r != [] ==> !IsWhitespace(r[|r| - 1]))
  {
    if s != [] && IsWhitespace(s[|s| - 1]) then TrimEnd(s[..|s| - 1]) else s
  }

  /** `str::trim` */
  function Trim(s: string): (r: string)
    ensures IsTrimmed(r) && |r| <= |s|
  {
    TrimEnd(TrimStart(s))
  }

  lemma {:induction false} TrimStartTakes(s: string) returns (a: string)
    ensures s == a + TrimStart(s) && AllWhitespace(a)
  {
    a := [];
    if s != [] && IsWhitespace(s[0]) {
      var rest := TrimStartTakes(s[1..]);
      a := [s[0]] + rest;
      assert s == [s[0]] + s[1..];
    }
  }

  lemma {:induction false} TrimEndTakes(s: string) returns (b: string)
    ensures s == TrimEnd(s) + b && AllWhitespace(b)
  {
    b := [];
    if s != [] && IsWhitespace(s[|s| - 1]) {
      var rest := TrimEndTakes(s[..|s| - 1]);
      b := rest + [s[|s| - 1]];
      assert s == s[..|s| - 1] + [s[|s| - 1]];
    }
  }

  /** Trimming takes white space from the two ends and nothing else. */
  lemma TrimTakesEnds(s: string) returns (a: string, b: string)
    ensures s == a + Trim(s) + b && AllWhitespace(a) && AllWhitespace(b)
  {
    a := TrimStartTakes(s);
    b := TrimEndTakes(TrimStart(s));
    assert s == a + (Trim(s) + b);
  }

  function CreateTx(ds: Devices, id: Uuid, name: string, scopes: set<DeviceScope>, hash: SecretHash, now: I64)
    : (Devices, Result<(), DeviceError>)
  {
    if !(1 <= |Trim(name)| <= 80) then (ds, Err(InvalidName))
    else if scopes == {} then (ds, Err(InvalidScopes))
    else (ds[id := Device(Trim(name), hash, 2, true, now, None, None, None, scopes)], Ok(()))
  }

  function RotateTx(ds: Devices, id: Uuid, scopes: set<DeviceScope>, hash: SecretHash, now: I64)
    : (Devices, Result<(), DeviceError>)
  {
    if scopes == {} then (ds, Err(InvalidScopes))
    else if id !in ds then (ds, Err(NotFound))
    else if !ds[id].enabled || ds[id].revokedAt.Some? then (ds, Err(DeviceRevoked))
    else (ds[id := ds[id].(hash := hash, version := 2, rotatedAt := Some(now), scopes := scopes)], Ok(()))
  }

  function RotatePreservingTx(ds: Devices, id: Uuid, hash: SecretHash, now: I64)
    : (Devices, Result<set<DeviceScope>, DeviceError>)
  {
    if id !in ds then (ds, Err(NotFound))
    else if ds[id].revokedAt.Some? then (ds, Err(DeviceRevoked))
    else if ds[id].scopes == {} then (ds, Err(InvalidScopes))
    else (ds[id := ds[id].(hash := hash, version := 2, rotatedAt := Some(now))], Ok(ds[id].scopes))
  }

  function RevokeTx(ds: Devices, id: Uuid, now: I64): (Devices, Result<(), DeviceError>) {
    if id !in ds then (ds, Err(NotFound))
    else
      var first := if ds[id].revokedAt.Some? then ds[id].revokedAt else Some(now);
      (ds[id := ds[id].(enabled := false, revokedAt := first)], Ok(()))
  }

  function SetEnabledTx(ds: Devices, id: Uuid, enabled: bool): (Devices, Result<(), DeviceError>) {
    if id !in ds then (ds, Err(NotFound))
    else if ds[id].revokedAt.None? then (ds[id := ds[id].(enabled := enabled)], Ok(()))
    else if enabled then (ds, Err(DeviceRevoked))
    else (ds, Ok(()))
  }

  // ---------------------------------------------------------------------
  // Authentication
  // ---------------------------------------------------------------------

  /** What one look at a committed table answers to a device id and a secret. */
  function Judge(ds: Devices, id: Uuid, secret: Secret): Result<Authenticated, AuthError> {
    if id !in ds || ds[id].version != 2 || ds[id].hash != SecretHash(secret) then Err(Unauthorized)
    else if !ds[id].enabled || ds[id].revokedAt.Some? then Err(Revoked)
    else Ok(Authenticated(id, ds[id].name, ds[id].scopes, RevisionOf(id, ds[id])))
  }

  function Verdict(ds: Devices, token: string): Result<Authenticated, AuthError> {
    var parsed := ParseToken(token);
    if parsed.None? then Err(Unauthorized) else Judge(ds, parsed.value.0, parsed.value.1)
  }

  /** The device's stored credential is this secret. */
  predicate HoldsSecret(ds: Devices, id: Uuid, secret: Secret) {
    id in ds && ds[id].version == 2 && ds[id].hash.of == secret
  }

  predicate IsOpen(d: Device) {
    d.enabled && d.revokedAt.None?
  }

  /**
   A text is accepted exactly when it is the printed token of an open device with its stored secret, and
   answers with that device; it is told of a revocation exactly when that device is not open.
   */
  lemma VerdictMeans(ds: Devices, token: string)
    ensures Verdict(ds, token).Ok? <==>
              exists id, secret :: token == PrintToken(id, secret) && HoldsSecret(ds, id, secret) && IsOpen(ds[id])
    ensures Verdict(ds, token) == Err(Revoked) <==>
              exists id, secret :: token == PrintToken(id, secret) && HoldsSecret(ds, id, secret) && !IsOpen(ds[id])
    ensures forall id, secret | token == PrintToken(id, secret) && HoldsSecret(ds, id, secret) && IsOpen(ds[id]) ::
              Verdict(ds, token) == Ok(Authenticated(id, ds[id].name, ds[id].scopes, RevisionOf(id, ds[id])))
  {
    if ParseToken(token).Some? {
      PrintParsed(token);
      var (id, secret) := ParseToken(token).value;
      assert token == PrintToken(id, secret);
    }
    forall id, secret | token == PrintToken(id, secret) ensures ParseToken(token) == Some((id, secret)) {
      ParsePrinted(id, secret);
    }
  }

  predicate FenceHolds(ds: Devices, id: Uuid, hash: SecretHash) {
    id in ds && ds[id].hash == hash && ds[id].version == 2 && ds[id].enabled && ds[id].revokedAt.None?
  }

  /** `last_seen_at` moves at most once a minute. */
  function Seen(lastSeen: Option<I64>, now: I64): Option<I64> {
    if lastSeen.None? || lastSeen.value <= now - LAST_SEEN_INTERVAL_MS then Some(now) else lastSeen
  }

  /** After a successful authentication the recorded time is less than a minute old, or in the future. */
  lemma SeenWithinAMinute(lastSeen: Option<I64>, now: I64)
    ensures Seen(lastSeen, now).Some? && now - LAST_SEEN_INTERVAL_MS < Seen(lastSeen, now).value
    ensures Seen(lastSeen, now) != lastSeen ==> Seen(lastSeen, now) == Some(now)
  {
  }

  /** The fence: the write that proves the credential is still the one that was read. */
  function TouchTx(ds: Devices, id: Uuid, hash: SecretHash, now: I64): Devices {
    if FenceHolds(ds, id, hash) then ds[id := ds[id].(lastSeen := Seen(ds[id].lastSeen, now))] else ds
  }

  /** The device was seen, as recorded within the minute, and nothing else has changed. */
  predicate SeenOnly(ds: Devices, ds': Devices, id: Uuid, now: I64) {
    && id in ds && id in ds' && ds'[id].lastSeen.Some? && now - 60_000 < ds'[id].lastSeen.value
    && ds' == ds[id := ds[id].(lastSeen := ds'[id].lastSeen)]
  }

  lemma TouchMovesTime(ds: Devices, id: Uuid, hash: SecretHash, now: I64)
    requires FenceHolds(ds, id, hash)
    ensures SeenOnly(ds, TouchTx(ds, id, hash, now), id, now)
  {
  }

  datatype Lease =
    | ActiveLease(id: Uuid, scopes: set<DeviceScope>, revision: Revision)
    | LeaseRevoked | LeaseDisabled | LeaseMissing

  /** `gateway_authorization_state` */
  function LeaseOf(ds: Devices, id: Uuid): Lease {
    if id !in ds then LeaseMissing
    else if ds[id].revokedAt.Some? || ds[id].version != 2 then LeaseRevoked
    else if !ds[id].enabled then LeaseDisabled
    else ActiveLease(id, ds[id].scopes, RevisionOf(id, ds[id]))
  }

  /** What a lease says of a device, in full. */
  lemma LeaseMeans(ds: Devices, id: Uuid)
    ensures LeaseOf(ds, id).ActiveLease? <==> id in ds && ds[id].version == 2 && IsOpen(ds[id])
    ensures LeaseOf(ds, id) == LeaseMissing <==> id !in ds
    ensures LeaseOf(ds, id) == LeaseDisabled <==>
              id in ds && ds[id].version == 2 && ds[id].revokedAt.None? && !ds[id].enabled
  {
  }

  // ---------------------------------------------------------------------
  // Runs
  // ---------------------------------------------------------------------

  /** The tables, and every secret a credential was ever issued with. */
  datatype Sys = Sys(devices: Devices, issued: set<Secret>)

  datatype Op =
    | DoCreate(id: Uuid, name: string, scopes: set<DeviceScope>, secret: Secret, now: I64)
    | DoRotate(id: Uuid, scopes: set<DeviceScope>, secret: Secret, now: I64)
    | DoRotatePreserving(id: Uuid, secret: Secret, now: I64)
    | DoRevoke(id: Uuid, now: I64)
    | DoSetEnabled(id: Uuid, enabled: bool)
    | DoTouch(id: Uuid, hash: SecretHash, now: I64)

  function Issue(s: Sys, secret: Secret, devices: Devices): Sys {
    Sys(devices, s.issued + {secret})
  }

  /** Device ids and secrets are drawn fresh; a draw that is not changes nothing here. */
  function Apply(s: Sys, op: Op): Sys {
    match op
    case DoCreate(id, name, scopes, secret, now) =>
      if id in s.devices || secret in s.issued then s
      else Issue(s, secret, CreateTx(s.devices, id, name, scopes, SecretHash(secret), now).0)
    case DoRotate(id, scopes, secret, now) =>
      if secret in s.issued then s
      else Issue(s, secret, RotateTx(s.devices, id, scopes, SecretHash(secret), now).0)
    case DoRotatePreserving(id, secret, now) =>
      if secret in s.issued then s
      else Issue(s, secret, RotatePreservingTx(s.devices, id, SecretHash(secret), now).0)
    case DoRevoke(id, now) => s.(devices := RevokeTx(s.devices, id, now).0)
    case DoSetEnabled(id, enabled) => s.(devices := SetEnabledTx(s.devices, id, enabled).0)
    case DoTouch(id, hash, now) => s.(devices := TouchTx(s.devices, id, hash, now))
  }

  function Run(s: Sys, ops: seq<Op>): Sys
    decreases |ops|
  {
    if ops == [] then s else Run(Apply(s, ops[0]), ops[1..])
  }

  ghost predicate Reaches(s: Sys, s': Sys) {
    exists ops :: s' == Run(s, ops)
  }

  predicate DeviceInv(s: Sys, d: Device) {
    && (d.enabled ==> d.revokedAt.None?)
    && d.scopes != {} && d.version == 2 && d.hash.of in s.issued
  }

  predicate Inv(s: Sys) {
    && (forall id | id in s.devices :: DeviceInv(s, s.devices[id]))
    && (forall a, b | a in s.devices && b in s.devices && a != b :: s.devices[a].hash != s.devices[b].hash)
  }

  predicate SeenLater(a: Option<I64>, b: Option<I64>) {
    a.Some? ==> b.Some? && (b == a || a.value + LAST_SEEN_INTERVAL_MS <= b.value)
  }

  /** A device keeps its name and birth; its first revocation is for ever; it is seen later, by whole minutes. */
  predicate DeviceGrows(a: Device, b: Device) {
    && b.name == a.name && b.createdAt == a.createdAt
    && (a.revokedAt.Some? ==> b.revokedAt == a.revokedAt)
    && SeenLater(a.lastSeen, b.lastSeen)
  }

  /** An issued secret that opens nothing now. */
  predicate Retired(s: Sys, secret: Secret) {
    secret in s.issued && forall id | id in s.devices :: s.devices[id].hash != SecretHash(secret)
  }

  predicate Grows(s: Sys, s': Sys) {
    && s.issued <= s'.issued
    && forall id | id in s.devices :: id in s'.devices && DeviceGrows(s.devices[id], s'.devices[id])
  }

  /** An operation replaces at most one device, and its hash is the old one or freshly drawn. */
  predicate Replaces(s: Sys, s': Sys, id: Uuid) {
    && s.issued <= s'.issued
    && (s'.devices == s.devices || (id in s'.devices && s'.devices == s.devices[id := s'.devices[id]]))
    && (id in s.devices && id in s'.devices ==> DeviceGrows(s.devices[id], s'.devices[id]))
    && (id in s'.devices && s'.devices != s.devices ==>
          || (id in s.devices && s'.devices[id].hash == s.devices[id].hash)
          || s'.devices[id].hash.of !in s.issued)
  }

  lemma CreateReplaces(s: Sys, op: Op)
    requires Inv(s) && op.DoCreate?
    ensures Replaces(s, Apply(s, op), op.id)
    ensures op.id in Apply(s, op).devices ==> DeviceInv(Apply(s, op), Apply(s, op).devices[op.id])
  {
    if op.id in s.devices {
      assert DeviceInv(s, s.devices[op.id]);
    }
  }

  lemma RotateReplaces(s: Sys, op: Op)
    requires Inv(s) && (op.DoRotate? || op.DoRotatePreserving?)
    ensures Replaces(s, Apply(s, op), op.id)
    ensures op.id in Apply(s, op).devices ==> DeviceInv(Apply(s, op), Apply(s, op).devices[op.id])
  {
    if op.id in s.devices {
      assert DeviceInv(s, s.devices[op.id]);
    }
  }

  lemma ApplyReplaces(s: Sys, op: Op)
    requires Inv(s)
    ensures Replaces(s, Apply(s, op), op.id)
    ensures op.id in Apply(s, op).devices ==> DeviceInv(Apply(s, op), Apply(s, op).devices[op.id])
  {
    if op.DoCreate? {
      CreateReplaces(s, op);
    } else if op.DoRotate? || op.DoRotatePreserving? {
      RotateReplaces(s, op);
    } else if op.id in s.devices {
      assert DeviceInv(s, s.devices[op.id]);
      assert s.devices[op.id := s.devices[op.id]] == s.devices;
    }
  }

  lemma ReplacesKeeps(s: Sys, s': Sys, id: Uuid)
    requires Inv(s) && Replaces(s, s', id) && (id in s'.devices ==> DeviceInv(s', s'.devices[id]))
    ensures Inv(s') && Grows(s, s')
  {
    forall x | x in s'.devices ensures DeviceInv(s', s'.devices[x]) {
      if x != id {
        assert DeviceInv(s, s.devices[x]);
      }
    }
    forall x | x in s.devices ensures s.devices[x].hash.of in s.issued {
      assert DeviceInv(s, s.devices[x]);
    }
  }

  lemma GrowsTransitive(a: Sys, b: Sys, c: Sys)
    requires Grows(a, b) && Grows(b, c)
    ensures Grows(a, c)
  {
  }

  lemma {:induction false} RunInv(s: Sys, ops: seq<Op>)
    requires Inv(s)
    ensures Inv(Run(s, ops)) && Grows(s, Run(s, ops))
    decreases |ops|
  {
    if ops != [] {
      var s1 := Apply(s, ops[0]);
      ApplyReplaces(s, ops[0]);
      ReplacesKeeps(s, s1, ops[0].id);
      RunInv(s1, ops[1..]);
      GrowsTransitive(s, s1, Run(s1, ops[1..]));
    }
  }

  // ---------------------------------------------------------------------
  // What the lifecycle promises
  // ---------------------------------------------------------------------

  lemma ApplyRetires(s: Sys, op: Op, secret: Secret)
    requires Inv(s) && Retired(s, secret)
    ensures Retired(Apply(s, op), secret)
  {
    ApplyReplaces(s, op);
  }

  /** A token that has been rotated out is unauthorized in every later state, never again more than that. */
  lemma {:induction false} RotatedOutForGood(s: Sys, ops: seq<Op>, id: Uuid, secret: Secret)
    requires Inv(s) && Retired(s, secret)
    ensures Retired(Run(s, ops), secret)
    ensures Verdict(Run(s, ops).devices, PrintToken(id, secret)) == Err(Unauthorized)
    decreases |ops|
  {
    ParsePrinted(id, secret);
    if ops != [] {
      var s1 := Apply(s, ops[0]);
      ApplyRetires(s, ops[0], secret);
      ApplyReplaces(s, ops[0]);
      ReplacesKeeps(s, s1, ops[0].id);
      RotatedOutForGood(s1, ops[1..], id, secret);
    }
  }

  /** A rotation retires the secret it replaces and makes the new one current. */
  lemma RotationRetires(s: Sys, id: Uuid, scopes: set<DeviceScope>, secret: Secret, now: I64)
    requires Inv(s) && id in s.devices && secret !in s.issued && IsOpen(s.devices[id]) && scopes != {}
    ensures var s' := Apply(s, DoRotate(id, scopes, secret, now));
            && Retired(s', s.devices[id].hash.of)
            && Verdict(s'.devices, PrintToken(id, secret)).Ok?
            && Verdict(s'.devices, PrintToken(id, secret)).value.scopes == scopes
  {
    assert DeviceInv(s, s.devices[id]);
    ParsePrinted(id, secret);
  }

  lemma PreservingRotationRetires(s: Sys, id: Uuid, secret: Secret, now: I64)
    requires Inv(s) && id in s.devices && secret !in s.issued && s.devices[id].revokedAt.None?
    ensures var s' := Apply(s, DoRotatePreserving(id, secret, now));
            && Retired(s', s.devices[id].hash.of)
            && s'.devices[id].scopes == s.devices[id].scopes && s'.devices[id].enabled == s.devices[id].enabled
            && (s.devices[id].enabled ==> Verdict(s'.devices, PrintToken(id, secret)).Ok?)
  {
    assert DeviceInv(s, s.devices[id]);
    ParsePrinted(id, secret);
  }

  /** A revoked device keeps its first revocation time, never authenticates and never holds a lease again. */
  lemma RevokedForGood(s: Sys, ops: seq<Op>, id: Uuid, secret: Secret)
    requires Inv(s) && id in s.devices && s.devices[id].revokedAt.Some?
    ensures var ds := Run(s, ops).devices;
            && id in ds && ds[id].revokedAt == s.devices[id].revokedAt && !ds[id].enabled && ds[id].scopes != {}
            && Verdict(ds, PrintToken(id, secret)).Err? && LeaseOf(ds, id) == LeaseRevoked
  {
    RunInv(s, ops);
    ParsePrinted(id, secret);
    assert DeviceInv(Run(s, ops), Run(s, ops).devices[id]);
  }

  /** Only a holder of the stored secret is told that a device is revoked or disabled. */
  lemma RevokedIsToldToHolders(ds: Devices, token: string)
    requires Verdict(ds, token) == Err(Revoked)
    ensures exists id, secret :: token == PrintToken(id, secret) && id in ds && ds[id].hash == SecretHash(secret)
  {
    PrintParsed(token);
    var (id, secret) := ParseToken(token).value;
    assert token == PrintToken(id, secret) && id in ds && ds[id].hash == SecretHash(secret);
  }

  /** An authenticated revision and a later lease agree exactly when no authorization field has changed. */
  lemma LeaseAgreesIffUnchanged(before: Devices, token: string, after: Devices, id: Uuid)
    requires Verdict(before, token).Ok? && Verdict(before, token).value.id == id && LeaseOf(after, id).ActiveLease?
    ensures id in before && id in after
    ensures Verdict(before, token).value.revision == LeaseOf(after, id).revision <==>
              after[id].hash == before[id].hash && after[id].scopes == before[id].scopes
  {
    StreamInjective(AuthorizationOf(id, before[id]), AuthorizationOf(id, after[id]));
  }

  /** The write of the fence is invisible to authorization: a lease read next agrees with what was returned. */
  lemma LeaseFollowsAuthentication(ds: Devices, token: string, now: I64)
    requires Verdict(ds, token).Ok?
    ensures var a := Verdict(ds, token).value;
            && a.id in ds
            && LeaseOf(TouchTx(ds, a.id, ds[a.id].hash, now), a.id) == ActiveLease(a.id, a.scopes, a.revision)
  {
  }

  lemma SeenKeepsRevision(id: Uuid, d: Device, seen: Option<I64>)
    ensures RevisionOf(id, d.(lastSeen := seen)) == RevisionOf(id, d)
  {
  }

  // ---------------------------------------------------------------------
  // The service
  // ---------------------------------------------------------------------

  class DeviceAuthService {
    var devices: Devices
    ghost var issued: set<Secret>

    constructor ()
      ensures View() == Sys(map[], {}) && Inv(View())
    {
      devices, issued := map[], {};
    }

    ghost function View(): Sys
      reads this
    {
      Sys(devices, issued)
    }

    method CreateDevice(id: Uuid, name: string, scopes: set<DeviceScope>, secret: Secret, now: I64)
      returns (token: Result<string, DeviceError>)
      requires Inv(View()) && id !in devices && secret !in issued
      modifies this
      ensures View() == Apply(old(View()), DoCreate(id, name, scopes, secret, now)) && Inv(View())
      ensures token == Err(InvalidName) <==> !(1 <= |Trim(name)| <= 80)
      ensures token == Err(InvalidScopes) <==> 1 <= |Trim(name)| <= 80 && scopes == {}
      ensures token.Ok? <==> 1 <= |Trim(name)| <= 80 && scopes != {}
      ensures token.Ok? ==>
                && devices
                   == old(devices)[id := Device(Trim(name), SecretHash(secret), 2, true, now, None, None, None, scopes)]
                && Verdict(devices, token.value)
                   == Ok(Authenticated(id, Trim(name), scopes, RevisionOf(id, devices[id])))
      ensures token.Err? ==> devices == old(devices)
    {
      ApplyReplaces(View(), DoCreate(id, name, scopes, secret, now));
      ReplacesKeeps(View(), Apply(View(), DoCreate(id, name, scopes, secret, now)), id);
      ParsePrinted(id, secret);
      issued := issued + {secret};
      var trimmed := Trim(name);
      if !(1 <= |trimmed| <= 80) { return Err(InvalidName); }
      if scopes == {} { return Err(InvalidScopes); }
      devices := devices[id := Device(trimmed, SecretHash(secret), 2, true, now, None, None, None, scopes)];
      return Ok(PrintToken(id, secret));
    }

    /** The transaction of a rotation. */
    method RotateTransaction(id: Uuid, scopes: set<DeviceScope>, secret: Secret, now: I64)
      returns (r: Result<(), DeviceError>)
      requires Inv(View()) && secret !in issued
      modifies this
      ensures View() == Apply(old(View()), DoRotate(id, scopes, secret, now)) && Inv(View())
      ensures r.Ok? <==> scopes != {} && id in old(devices) && IsOpen(old(devices)[id])
      ensures r == Err(InvalidScopes) <==> scopes == {}
      ensures r == Err(NotFound) <==> scopes != {} && id !in old(devices)
      ensures r.Err? ==> devices == old(devices) && r.error in {InvalidScopes, NotFound, DeviceRevoked}
      ensures r.Ok? ==>
                devices == old(devices)[id := old(devices)[id].(hash := SecretHash(secret), version := 2,
                                                                rotatedAt := Some(now), scopes := scopes)]
    {
      ApplyReplaces(View(), DoRotate(id, scopes, secret, now));
      ReplacesKeeps(View(), Apply(View(), DoRotate(id, scopes, secret, now)), id);
      issued := issued + {secret};
      if scopes == {} { return Err(InvalidScopes); }
      if id !in devices { return Err(NotFound); }
      if !devices[id].enabled || devices[id].revokedAt.Some? { return Err(DeviceRevoked); }
      var rotated := devices[id].(hash := SecretHash(secret), version := 2, rotatedAt := Some(now), scopes := scopes);
      devices := devices[id := rotated];
      return Ok(());
    }

    /** Only an open device with some scopes asked for is given a new credential, and then exactly that changes. */
    method RotateDevice(text: string, scopes: set<DeviceScope>, secret: Secret, now: I64)
      returns (token: Result<string, DeviceError>)
      requires Inv(View()) && secret !in issued
      modifies this
      ensures Inv(View())
      ensures token == Err(InvalidId) <==> ParseDeviceId(text).None?
      ensures token.Err? ==> devices == old(devices)
      ensures ParseDeviceId(text).Some? ==>
                var id := ParseDeviceId(text).value;
                && View() == Apply(old(View()), DoRotate(id, scopes, secret, now))
                && (token.Ok? <==> scopes != {} && id in old(devices) && IsOpen(old(devices)[id]))
                && (token == Err(InvalidScopes) <==> scopes == {})
                && (token == Err(NotFound) <==> scopes != {} && id !in old(devices))
                && (token == Err(DeviceRevoked) <==> scopes != {} && id in old(devices) && !IsOpen(old(devices)[id]))
                && (token.Ok? ==>
                      && token.value == PrintToken(id, secret)
                      && devices == old(devices)[id := old(devices)[id].(hash := SecretHash(secret), version := 2,
                                                                         rotatedAt := Some(now), scopes := scopes)])
    {
      var parsed := ParseDeviceId(text);
      if parsed.None? { return Err(InvalidId); }
      var r := RotateTransaction(parsed.value, scopes, secret, now);
      if r.Err? { return Err(r.error); }
      return Ok(PrintToken(parsed.value, secret));
    }

    /** The transaction of a rotation that keeps the scopes, which are read under the same fence. */
    method RotatePreservingTransaction(id: Uuid, secret: Secret, now: I64)
      returns (r: Result<set<DeviceScope>, DeviceError>)
      requires Inv(View()) && secret !in issued
      modifies this
      ensures View() == Apply(old(View()), DoRotatePreserving(id, secret, now)) && Inv(View())
      ensures r.Ok? <==> id in old(devices) && old(devices)[id].revokedAt.None?
      ensures r.Err? ==> devices == old(devices) && r.error == if id in old(devices) then DeviceRevoked else NotFound
      ensures r.Ok? ==>
                && r.value == old(devices)[id].scopes && r.value != {}
                && devices == old(devices)[id := old(devices)[id].(hash := SecretHash(secret), version := 2,
                                                                   rotatedAt := Some(now))]
    {
      ApplyReplaces(View(), DoRotatePreserving(id, secret, now));
      ReplacesKeeps(View(), Apply(View(), DoRotatePreserving(id, secret, now)), id);
      issued := issued + {secret};
      if id !in devices { return Err(NotFound); }
      if devices[id].revokedAt.Some? { return Err(DeviceRevoked); }
      var scopes := devices[id].scopes;
      assert DeviceInv(old(View()), old(devices)[id]);
      devices := devices[id := devices[id].(hash := SecretHash(secret), version := 2, rotatedAt := Some(now))];
      return Ok(scopes);
    }

    /** A new credential for any device that is not revoked, even a disabled one. */
    method RotatePreservingScopes(text: string, secret: Secret, now: I64)
      returns (r: Result<(string, set<DeviceScope>), DeviceError>)
      requires Inv(View()) && secret !in issued
      modifies this
      ensures Inv(View())
      ensures r == Err(InvalidId) <==> ParseDeviceId(text).None?
      ensures r.Err? ==> devices == old(devices)
      ensures ParseDeviceId(text).Some? ==>
                var id := ParseDeviceId(text).value;
                && View() == Apply(old(View()), DoRotatePreserving(id, secret, now))
                && (r.Ok? <==> id in old(devices) && old(devices)[id].revokedAt.None?)
                && (r == Err(NotFound) <==> id !in old(devices))
                && (r == Err(DeviceRevoked) <==> id in old(devices) && old(devices)[id].revokedAt.Some?)
                && (r.Ok? ==>
                      && r.value == (PrintToken(id, secret), old(devices)[id].scopes) && r.value.1 != {}
                      && devices == old(devices)[id := old(devices)[id].(hash := SecretHash(secret), version := 2,
                                                                         rotatedAt := Some(now))])
    {
      var parsed := ParseDeviceId(text);
      if parsed.None? { return Err(InvalidId); }
      var scopes := RotatePreservingTransaction(parsed.value, secret, now);
      if scopes.Err? { return Err(scopes.error); }
      return Ok((PrintToken(parsed.value, secret), scopes.value));
    }

    /** Any known device is closed, with the time of its first revocation. */
    method RevokeDevice(text: string, now: I64) returns (r: Result<(), DeviceError>)
      requires Inv(View())
      modifies this`devices
      ensures Inv(View())
      ensures r == Err(InvalidId) <==> ParseDeviceId(text).None?
      ensures r.Err? ==> devices == old(devices)
      ensures ParseDeviceId(text).Some? ==>
                var id := ParseDeviceId(text).value;
                && View() == Apply(old(View()), DoRevoke(id, now))
                && (r.Ok? <==> id in old(devices)) && (r == Err(NotFound) <==> id !in old(devices))
                && (r.Ok? ==>
                      var first := old(devices)[id].revokedAt;
                      && devices == old(devices)[id := old(devices)[id].(enabled := false,
                                                  revokedAt := if first.Some? then first else Some(now))]
                      && LeaseOf(devices, id) == LeaseRevoked)
    {
      var parsed := ParseDeviceId(text);
      if parsed.None? { return Err(InvalidId); }
      var id := parsed.value;
      ApplyReplaces(View(), DoRevoke(id, now));
      ReplacesKeeps(View(), Apply(View(), DoRevoke(id, now)), id);
      if id !in devices { return Err(NotFound); }
      var first := if devices[id].revokedAt.Some? then devices[id].revokedAt else Some(now);
      devices := devices[id := devices[id].(enabled := false, revokedAt := first)];
      return Ok(());
    }

    /** Every known device ends with the flag asked for, except that a revoked one is not enabled again. */
    method SetDeviceEnabled(text: string, enabled: bool) returns (r: Result<(), DeviceError>)
      requires Inv(View())
      modifies this`devices
      ensures Inv(View())
      ensures r == Err(InvalidId) <==> ParseDeviceId(text).None?
      ensures r.Err? ==> devices == old(devices)
      ensures ParseDeviceId(text).Some? ==>
                var id := ParseDeviceId(text).value;
                && View() == Apply(old(View()), DoSetEnabled(id, enabled))
                && (r == Err(NotFound) <==> id !in old(devices))
                && (r == Err(DeviceRevoked) <==> enabled && id in old(devices) && old(devices)[id].revokedAt.Some?)
                && (r.Ok? <==> id in old(devices) && (enabled ==> old(devices)[id].revokedAt.None?))
                && (r.Ok? ==> devices == old(devices)[id := old(devices)[id].(enabled := enabled)])
    {
      var parsed := ParseDeviceId(text);
      if parsed.None? { return Err(InvalidId); }
      var id := parsed.value;
      ApplyReplaces(View(), DoSetEnabled(id, enabled));
      ReplacesKeeps(View(), Apply(View(), DoSetEnabled(id, enabled)), id);
      if id !in devices { return Err(NotFound); }
      assert DeviceInv(View(), devices[id]);
      if devices[id].revokedAt.None? {
        devices := devices[id := devices[id].(enabled := enabled)];
      } else if enabled {
        return Err(DeviceRevoked);
      } else {
        assert devices[id := devices[id].(enabled := enabled)] == devices;
      }
      return Ok(());
    }

    /** Other transactions run. */
    method Interfere(next: Sys)
      requires Inv(View()) && Reaches(View(), next)
      modifies this
      ensures View() == next && Inv(View()) && Grows(old(View()), View())
    {
      ghost var ops :| next == Run(View(), ops);
      RunInv(View(), ops);
      devices, issued := next.devices, next.issued;
    }

    /** The fenced transaction, for a credential that an earlier read found current and open. */
    method FencedTransaction(id: Uuid, secret: Secret, now: I64) returns (r: Result<Authenticated, AuthError>)
      modifies this`devices
      ensures r == Judge(old(devices), id, secret)
      ensures View() == Apply(old(View()), DoTouch(id, SecretHash(secret), now))
      ensures r.Err? ==> View() == old(View())
      ensures r.Ok? ==> r.value.id == id && SeenOnly(old(devices), devices, id, now)
    {
      var candidate := SecretHash(secret);
      if !FenceHolds(devices, id, candidate) {
        if id !in devices { return Err(Unauthorized); }
        var current := devices[id];
        if current.version == 2 && current.hash == candidate && (!current.enabled || current.revokedAt.Some?) {
          return Err(Revoked);
        }
        return Err(Unauthorized);
      }
      SeenKeepsRevision(id, devices[id], Seen(devices[id].lastSeen, now));
      TouchMovesTime(devices, id, candidate, now);
      devices := devices[id := devices[id].(lastSeen := Seen(devices[id].lastSeen, now))];
      var snapshot := devices[id];
      return Ok(Authenticated(id, snapshot.name, snapshot.scopes, RevisionOf(id, snapshot)));
    }

    /**
     An optimistic read, then a fenced transaction with anything in between. Whatever ran, the
     answer is the verdict of one committed state: the one first read, or the one the fence saw;
     and a success is always the latter's.
     */
    method Authenticate(token: string, next: Sys, now: I64) returns (r: Result<Authenticated, AuthError>)
      requires Inv(View()) && Reaches(View(), next)
      modifies this
      ensures r == Verdict(old(devices), token) || r == Verdict(next.devices, token)
      ensures r.Ok? ==> r == Verdict(next.devices, token)
      ensures r.Ok? ==> View() == Apply(next, DoTouch(r.value.id, next.devices[r.value.id].hash, now))
      // a success is recorded within the minute, and changes nothing else
      ensures r.Ok? ==> SeenOnly(next.devices, devices, r.value.id, now)
      ensures r.Err? ==> View() == old(View()) || View() == next
    {
      var parsed := ParseToken(token);
      if parsed.None? { return Err(Unauthorized); }
      PrintParsed(token);
      var (id, secret) := parsed.value;
      if id !in devices { return Err(Unauthorized); }
      var row := devices[id];
      if row.version != 2 { return Err(Unauthorized); }
      if row.hash != SecretHash(secret) { return Err(Unauthorized); }
      if !row.enabled || row.revokedAt.Some? { return Err(Revoked); }
      Interfere(next);
      r := FencedTransaction(id, secret, now);
    }
  }
}
