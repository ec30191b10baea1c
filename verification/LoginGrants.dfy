/**
 The process-local registry of admin-login grants: the grant table and its index of active
 grants by device, what each critical section does to them, and the registry object.
 */
module LoginGrants {
  import opened Basics
  import opened TokenFormat

  /** Ten minutes; times and lifetimes are in nanoseconds. */
  const MAX_GRANT_LIFETIME: int := 600_000_000_000

  datatype TokenHash = TokenHash(of: string)

  datatype GrantStatus = Active | Consuming | Consumed | Failed

  datatype Entry = Entry(
    hash: TokenHash, owner: Uuid, revision: string, generation: nat, epoch: nat, expiresAt: int, state: GrantStatus)

  datatype Consumption = Consumption(grantId: Uuid, owner: Uuid, revision: string, generation: nat, epoch: nat)

  /** `GrantState`, the data behind the state mutex. */
  datatype Registry = Registry(grants: map<Uuid, Entry>, active: map<Uuid, Uuid>)

  const NO_GRANTS := Registry(map[], map[])

  function Count(m: map<Uuid, nat>, device: Uuid): nat {
    if device in m then m[device] else 0
  }

  /** `wrapping_add(1)` on a u64 generation. */
  function Bumped(gens: map<Uuid, nat>, device: Uuid): map<Uuid, nat> {
    gens[device := (Count(gens, device) + 1) % U64_MODULUS]
  }

  /** The generations after the devices of `devices` were invalidated, one after the other. */
  function BumpedEach(gens: map<Uuid, nat>, devices: seq<Uuid>): map<Uuid, nat>
    decreases |devices|
  {
    if devices == [] then gens else BumpedEach(Bumped(gens, devices[0]), devices[1..])
  }

  lemma WrappedSum(a: nat, b: nat)
    ensures (a % U64_MODULUS + b) % U64_MODULUS == (a + b) % U64_MODULUS
  {
  }

  lemma {:induction false} BumpedEachCounts(gens: map<Uuid, nat>, devices: seq<Uuid>, device: Uuid)
    requires Count(gens, device) < U64_MODULUS
    ensures Count(BumpedEach(gens, devices), device) == (Count(gens, device) + multiset(devices)[device]) % U64_MODULUS
    decreases |devices|
  {
    if devices != [] {
      var n, rest := Count(gens, device), multiset(devices[1..])[device];
      assert devices == [devices[0]] + devices[1..];
      assert multiset(devices)[device] == rest + if device == devices[0] then 1 else 0;
      BumpedEachCounts(Bumped(gens, devices[0]), devices[1..], device);
      WrappedSum(n + 1, rest);
    }
  }

  /** 43 characters of canonical base64url for 32 bytes. */
  predicate WellFormedToken(token: string) {
    && |token| == 43 && Decode(token).Some? && |Decode(token).value| == 32
    && Encode(Decode(token).value) == token
  }

  /** Exactly the encodings of secrets. */
  lemma WellFormedMeans(token: string)
    ensures WellFormedToken(token) <==> exists secret: Secret :: token == Encode(secret)
  {
    if WellFormedToken(token) {
      var secret: Secret := Decode(token).value;
      assert token == Encode(secret);
    }
    forall secret: Secret | token == Encode(secret) ensures WellFormedToken(token) {
      EncodedLength(secret);
      DecodeEncoded(secret);
    }
  }

  // ---------------------------------------------------------------------
  // Critical sections
  // ---------------------------------------------------------------------

  /** `cleanup_expired` */
  function Cleanup(r: Registry, now: int): Registry {
    var grants := map g | g in r.grants && r.grants[g].expiresAt > now :: r.grants[g];
    Registry(grants,
             map d | d in r.active && r.active[d] in grants
                     && grants[r.active[d]].owner == d && grants[r.active[d]].state.Active? :: r.active[d])
  }

  /** The new grant replaces the device's active one. */
  function InsertGrant(r: Registry, g: Uuid, e: Entry): Registry {
    var others := if e.owner in r.active then r.grants - {r.active[e.owner]} else r.grants;
    Registry(others[g := e], r.active[e.owner := g])
  }

  function SetState(r: Registry, g: Uuid, st: GrantStatus): Registry
    requires g in r.grants
  {
    r.(grants := r.grants[g := r.grants[g].(state := st)])
  }

  predicate Admits(e: Entry, hash: TokenHash, now: int, generation: nat, epoch: nat) {
    && e.hash == hash && e.state.Active? && e.expiresAt > now && generation == e.generation && epoch == e.epoch
  }

  function BeginGrant(r: Registry, g: Uuid): Registry
    requires g in r.grants
  {
    SetState(r, g, Consuming).(active := r.active - {r.grants[g].owner})
  }

  function ConsumptionOf(r: Registry, g: Uuid): Consumption
    requires g in r.grants
  {
    var e := r.grants[g];
    Consumption(g, e.owner, e.revision, e.generation, e.epoch)
  }

  predicate Completes(e: Entry, c: Consumption, generation: nat, epoch: nat, closed: bool, now: int) {
    && e.state.Consuming? && e.owner == c.owner && e.revision == c.revision
    && e.generation == c.generation && generation == c.generation
    && e.epoch == c.epoch && epoch == c.epoch && !closed && e.expiresAt > now
  }

  function CancelGrant(r: Registry, g: Uuid, owner: Uuid, now: int): Registry {
    var live := Cleanup(r, now);
    if g in live.grants && live.grants[g].owner == owner && live.grants[g].state.Active? then
      Registry(live.grants - {g}, live.active - {owner})
    else live
  }

  function SweepDevice(r: Registry, device: Uuid): Registry {
    Registry(map g | g in r.grants && r.grants[g].owner != device :: r.grants[g], r.active - {device})
  }

  // ---------------------------------------------------------------------
  // The index agrees with the table
  // ---------------------------------------------------------------------

  /**
   Every active grant is the one its device's index entry names, and every index entry names a
   grant of its device that is active, or one of `spoilt`.
   */
  predicate Indexed(r: Registry, spoilt: set<Uuid>) {
    && (forall d | d in r.active ::
          && r.active[d] in r.grants && r.grants[r.active[d]].owner == d
          && (r.grants[r.active[d]].state.Active? || r.active[d] in spoilt))
    && (forall g | g in r.grants && r.grants[g].state.Active? ::
          r.grants[g].owner in r.active && r.active[r.grants[g].owner] == g)
  }

  /** Active grants and the devices' index entries name each other, one to one. */
  predicate Corresponds(r: Registry) {
    Indexed(r, {})
  }

  lemma CleanupIndexed(r: Registry, spoilt: set<Uuid>, now: int)
    requires Indexed(r, spoilt)
    ensures Corresponds(Cleanup(r, now)) && Indexed(Cleanup(r, now), spoilt)
  {
  }

  lemma InsertIndexed(r: Registry, spoilt: set<Uuid>, g: Uuid, e: Entry)
    requires Indexed(r, spoilt) && g !in r.grants && e.state.Active?
    ensures Indexed(InsertGrant(r, g, e), spoilt)
  {
  }

  lemma BeginIndexed(r: Registry, spoilt: set<Uuid>, g: Uuid)
    requires Indexed(r, spoilt) && g in r.grants && r.grants[g].state.Active?
    ensures Indexed(BeginGrant(r, g), spoilt)
  {
  }

  /** Ending a grant that is still active spoils its index entry. */
  lemma FinishIndexed(r: Registry, spoilt: set<Uuid>, g: Uuid, st: GrantStatus)
    requires Indexed(r, spoilt) && g in r.grants && !st.Active?
    ensures Indexed(SetState(r, g, st), if r.grants[g].state.Active? then spoilt + {g} else spoilt)
  {
  }

  lemma CancelIndexed(r: Registry, spoilt: set<Uuid>, g: Uuid, owner: Uuid, now: int)
    requires Indexed(r, spoilt)
    ensures Corresponds(CancelGrant(r, g, owner, now)) && Indexed(CancelGrant(r, g, owner, now), spoilt)
  {
    CleanupIndexed(r, spoilt, now);
  }

  lemma SweepIndexed(r: Registry, spoilt: set<Uuid>, device: Uuid)
    requires Indexed(r, spoilt)
    ensures Indexed(SweepDevice(r, device), spoilt)
  {
  }

  lemma InsertedIndexed(r: Registry, spoilt: set<Uuid>, g: Uuid, e: Entry, now: int)
    requires Indexed(r, spoilt) && g !in r.grants && e.state.Active?
    ensures Indexed(InsertGrant(Cleanup(r, now), g, e), spoilt)
  {
    CleanupIndexed(r, spoilt, now);
    InsertIndexed(Cleanup(r, now), spoilt, g, e);
  }

  lemma InsertedEntries(r: Registry, g: Uuid, e: Entry, now: int)
    requires g !in r.grants
    ensures var r' := InsertGrant(Cleanup(r, now), g, e);
            && g in r'.grants && r'.grants[g] == e
            && (forall x | x in r'.grants && x != g :: x in r.grants && r'.grants[x] == r.grants[x])
  {
  }

  /** At most one active grant of a device is left: the new one. */
  lemma InsertedIsTheOnlyActive(r: Registry, spoilt: set<Uuid>, g: Uuid, e: Entry, now: int)
    requires Indexed(r, spoilt) && g !in r.grants && e.state.Active?
    ensures var r' := InsertGrant(Cleanup(r, now), g, e);
            forall x | x in r'.grants && x != g && r'.grants[x].state.Active? :: r'.grants[x].owner != e.owner
  {
    InsertedIndexed(r, spoilt, g, e, now);
  }

  // ---------------------------------------------------------------------
  // Which grants go
  // ---------------------------------------------------------------------

  /** Of the grants, exactly those stay that `stays` names, each as it was; no new one comes. */
  ghost predicate OnlyStay(r: Registry, r': Registry, stays: (Uuid, Entry) -> bool) {
    && (forall g :: g in r'.grants <==> g in r.grants && stays(g, r.grants[g]))
    && (forall g | g in r'.grants :: r'.grants[g] == r.grants[g])
  }

  lemma CleanupTakes(r: Registry, now: int)
    ensures OnlyStay(r, Cleanup(r, now), (g, e: Entry) => e.expiresAt > now)
  {
  }

  lemma CancelTakes(r: Registry, g: Uuid, owner: Uuid, now: int)
    ensures OnlyStay(r, CancelGrant(r, g, owner, now),
                     (x, e: Entry) => e.expiresAt > now && !(x == g && e.owner == owner && e.state.Active?))
  {
  }

  lemma SweepTakes(r: Registry, device: Uuid)
    ensures OnlyStay(r, SweepDevice(r, device), (g, e: Entry) => e.owner != device)
    ensures forall d :: d in SweepDevice(r, device).active <==> d in r.active && d != device
    ensures forall d | d in r.active && d != device :: SweepDevice(r, device).active[d] == r.active[d]
  {
  }

  /** A new grant takes the place of its device's active one, and of no other. */
  lemma InsertTakes(r: Registry, spoilt: set<Uuid>, g: Uuid, e: Entry, now: int)
    requires Indexed(r, spoilt) && g !in r.grants
    ensures var r' := InsertGrant(Cleanup(r, now), g, e);
            && g in r'.grants && r'.grants[g] == e
            && OnlyStay(r, r'.(grants := r'.grants - {g}),
                        (x, f: Entry) => f.expiresAt > now && !(f.owner == e.owner && f.state.Active?))
  {
  }

  // ---------------------------------------------------------------------
  // Authorizations
  // ---------------------------------------------------------------------

  /** `authorization_matches`, on the registry's open flag, generations and epoch. */
  predicate Authorizes(gens: map<Uuid, nat>, epoch: nat, closed: bool, device: Uuid, generation: nat,
                       processEpoch: nat) {
    !closed && Count(gens, device) == generation && epoch == processEpoch
  }

  /**
   The device's generation at some moment is authorized from then on, whatever other devices are
   invalidated, until its own device is, and then until that has happened 2^64 times; and only in an
   open registry of the same epoch.
   */
  lemma AuthorizedUntilInvalidated(gens: map<Uuid, nat>, epoch: nat, processEpoch: nat, closed: bool, device: Uuid,
                                   devices: seq<Uuid>)
    requires Count(gens, device) < U64_MODULUS
    ensures Authorizes(BumpedEach(gens, devices), epoch, closed, device, Count(gens, device), processEpoch) <==>
              !closed && epoch == processEpoch && multiset(devices)[device] % U64_MODULUS == 0
  {
    BumpedEachCounts(gens, devices, device);
  }

  // ---------------------------------------------------------------------
  // The registry object
  // ---------------------------------------------------------------------

  datatype GrantError = InvalidRequest | Refused | NoRandom | NoClock

  /** What the caller is told: the token, and the wall-clock time it expires at, in milliseconds. */
  datatype Issued = Issued(token: string, expiresAt: int)

  /** `Duration::MAX`: 2^64 seconds, less one nanosecond. */
  const MAX_DURATION: int := U64_MODULUS * 1_000_000_000 - 1

  const NANOS_IN_A_MILLI: int := 1_000_000

  /** Calls that do not overlap. Overlapping calls are runs of the steps in `LoginGrantRuns`. */
  class GrantRegistry {
    var grants: map<Uuid, Entry>
    var active: map<Uuid, Uuid>
    var generations: map<Uuid, nat>
    var epoch: nat
    var closed: bool
    /** The grants that were active when a finish ended them, since the last cleanup. */
    ghost var spoilt: set<Uuid>

    constructor ()
      ensures State() == NO_GRANTS && Valid() && spoilt == {} && generations == map[] && epoch == 0 && !closed
    {
      grants, active, generations, epoch, closed, spoilt := map[], map[], map[], 0, false, {};
    }

    function State(): Registry
      reads this
    {
      Registry(grants, active)
    }

    /** The index agrees with the table, except where a finish has spoilt it. */
    ghost predicate Valid()
      reads this
    {
      Indexed(State(), spoilt) && forall g | g in spoilt && g in grants :: grants[g].state.Failed?
    }

    /** It agrees one to one if and only if no entry names a spoilt grant. */
    lemma CorrespondsIff()
      requires Valid()
      ensures Corresponds(State()) <==> forall d | d in active :: active[d] !in spoilt
    {
    }

    /** Whatever was spoilt is gone afterwards. */
    method CleanupExpired(now: int)
      requires Valid()
      modifies this`grants, this`active, this`spoilt
      ensures State() == Cleanup(old(State()), now) && Valid() && spoilt == {}
      ensures OnlyStay(old(State()), State(), (g, e: Entry) => e.expiresAt > now)
    {
      CleanupIndexed(State(), spoilt, now);
      CleanupTakes(State(), now);
      grants := map g | g in grants && grants[g].expiresAt > now :: grants[g];
      active := map d | d in active && active[d] in grants
                        && grants[active[d]].owner == d && grants[active[d]].state.Active? :: active[d];
      spoilt := {};
    }

    /**
     A fresh grant becomes the device's only active one. `wall` and `secret` are what the clock and
     the random source gave.
     */
    method Issue(g: Uuid, secret: Option<Secret>, owner: Uuid, revision: string, now: int, wall: Option<int>,
                 lifetime: int)
      returns (issued: Result<Issued, GrantError>)
      requires Valid() && g !in grants
      modifies this`grants, this`active, this`spoilt
      ensures Valid() && (issued.Ok? ==> spoilt == {})
      ensures var valid := 0 < lifetime <= 600_000_000_000;
              // a Duration holds less than 2^64 seconds, and the receipt's time is an i64 of milliseconds
              var clocks := && now + lifetime < U64_MODULUS * 1_000_000_000
                            && wall.Some? && wall.value + lifetime / NANOS_IN_A_MILLI <= I64_MAX;
              && (issued == Err(InvalidRequest) <==> !valid)
              && (issued == Err(NoClock) <==> valid && !clocks)
              && (issued == Err(NoRandom) <==> valid && clocks && secret.None?)
              && (issued == Err(Refused) <==> valid && clocks && secret.Some? && closed)
              && (issued.Ok? <==> valid && clocks && secret.Some? && !closed)
      ensures issued.Err? ==> State() == old(State())
      ensures issued.Ok? ==>
                && WellFormedToken(issued.value.token) && g in grants
                && issued.value.expiresAt == wall.value + lifetime / NANOS_IN_A_MILLI
                && grants[g] == Entry(TokenHash(issued.value.token), owner, revision, Count(generations, owner), epoch,
                                      now + lifetime, Active)
                && State() == InsertGrant(Cleanup(old(State()), now), g, grants[g])
                && (forall x | x in grants && x != g && grants[x].state.Active? :: grants[x].owner != owner)
      // every other grant stays that has not expired and is not the one this replaces
      ensures issued.Ok? ==>
                OnlyStay(old(State()), Registry(grants - {g}, active),
                         (x, e: Entry) => e.expiresAt > now && !(e.owner == owner && e.state.Active?))
    {
      if lifetime <= 0 || lifetime > MAX_GRANT_LIFETIME { return Err(InvalidRequest); }
      if now + lifetime > MAX_DURATION { return Err(NoClock); }
      if wall.None? || wall.value + lifetime / NANOS_IN_A_MILLI > I64_MAX { return Err(NoClock); }
      if secret.None? { return Err(NoRandom); }
      EncodedLength(secret.value);
      DecodeEncoded(secret.value);
      var text := Encode(secret.value);
      var generation := Count(generations, owner);
      if closed { return Err(Refused); }
      var e := Entry(TokenHash(text), owner, revision, generation, epoch, now + lifetime, Active);
      InsertedEntries(State(), g, e, now);
      InsertedIsTheOnlyActive(State(), spoilt, g, e, now);
      InsertTakes(State(), spoilt, g, e, now);
      CleanupExpired(now);
      InsertIndexed(State(), spoilt, g, e);
      Insert(g, e);
      return Ok(Issued(text, wall.value + lifetime / NANOS_IN_A_MILLI));
    }

    /** The index entry, the grant it replaces, and the grant itself. */
    method Insert(g: Uuid, e: Entry)
      modifies this`grants, this`active
      ensures State() == InsertGrant(old(State()), g, e)
    {
      if e.owner in active {
        grants := grants - {active[e.owner]};
      }
      active := active[e.owner := g];
      grants := grants[g := e];
    }

    /** Only the holder of a live active grant's token of the current generation may begin, and only once. */
    method BeginConsume(g: Uuid, token: string, now: int) returns (c: Result<Consumption, GrantError>)
      requires Valid()
      modifies this`grants, this`active, this`spoilt
      ensures Valid() && (c.Ok? ==> spoilt == {})
      ensures c.Ok? <==>
                && WellFormedToken(token) && !closed && g in old(grants)
                && Admits(old(grants)[g], TokenHash(token), now, Count(generations, old(grants)[g].owner), epoch)
      ensures c.Ok? ==>
                && c.value == ConsumptionOf(old(State()), g)
                && g in Cleanup(old(State()), now).grants && State() == BeginGrant(Cleanup(old(State()), now), g)
      // every grant stays that has not expired, and only the one that was begun changes
      ensures c.Ok? ==>
                && g in grants && grants[g] == old(grants)[g].(state := Consuming)
                && OnlyStay(old(State()), Registry(grants[g := old(grants)[g]], active),
                            (x, e: Entry) => e.expiresAt > now)
      ensures c.Err? ==>
                State() == if WellFormedToken(token) && !closed then Cleanup(old(State()), now) else old(State())
    {
      if !WellFormedToken(token) || closed { return Err(Refused); }
      CleanupExpired(now);
      if g !in grants { return Err(Refused); }
      var e := grants[g];
      if !Admits(e, TokenHash(token), now, Count(generations, e.owner), epoch) { return Err(Refused); }
      BeginIndexed(State(), spoilt, g);
      c := Ok(ConsumptionOf(State(), g));
      grants := grants[g := e.(state := Consuming)];
      active := active - {e.owner};
    }

    /**
     A consumption ends: consumed if everything still holds, otherwise failed. A grant that is still
     active, as none is that a begin has handed out, is spoilt by it.
     */
    method FinishConsumption(c: Consumption, succeeded: bool, now: int) returns (ok: bool)
      requires Valid()
      modifies this`grants, this`spoilt
      ensures Valid()
      ensures spoilt == old(spoilt)
                        + if c.grantId in old(grants) && old(grants)[c.grantId].state.Active? then {c.grantId} else {}
      ensures Corresponds(State()) <==>
                Corresponds(old(State())) && (c.grantId in old(grants) ==> !old(grants)[c.grantId].state.Active?)
      ensures ok <==> succeeded && c.grantId in old(grants)
                      && Completes(old(grants)[c.grantId], c, Count(generations, c.owner), epoch, closed, now)
      ensures grants.Keys == old(grants).Keys
      ensures c.grantId in grants ==>
                grants[c.grantId] == old(grants)[c.grantId].(state := if ok then Consumed else Failed)
      ensures forall x | x in grants && x != c.grantId :: grants[x] == old(grants)[x]
    {
      if c.grantId !in grants { return false; }
      ok := succeeded && Completes(grants[c.grantId], c, Count(generations, c.owner), epoch, closed, now);
      FinishIndexed(State(), spoilt, c.grantId, if ok then Consumed else Failed);
      if grants[c.grantId].state.Active? {
        spoilt := spoilt + {c.grantId};
      }
      grants := grants[c.grantId := grants[c.grantId].(state := if ok then Consumed else Failed)];
    }

    method CancelOwned(g: Uuid, owner: Uuid, now: int)
      requires Valid()
      modifies this`grants, this`active, this`spoilt
      ensures State() == CancelGrant(old(State()), g, owner, now) && Valid() && spoilt == {}
      ensures OnlyStay(old(State()), State(),
                       (x, e: Entry) => e.expiresAt > now && !(x == g && e.owner == owner && e.state.Active?))
    {
      CancelTakes(State(), g, owner, now);
      CancelIndexed(State(), spoilt, g, owner, now);
      CleanupExpired(now);
      if g in grants && grants[g].owner == owner && grants[g].state.Active? {
        grants := grants - {g};
        active := active - {owner};
      }
    }

    /** The device's grants go, and its generation moves on. */
    method InvalidateDevice(device: Uuid)
      requires Valid()
      modifies this`grants, this`active, this`generations
      ensures State() == SweepDevice(old(State()), device) && Valid()
      ensures forall g :: g in grants <==> g in old(grants) && old(grants)[g].owner != device
      ensures forall g | g in grants :: grants[g] == old(grants)[g]
      ensures forall d :: d in active <==> d in old(active) && d != device
      ensures forall d | d in active :: active[d] == old(active)[d]
      ensures Count(generations, device) == (Count(old(generations), device) + 1) % U64_MODULUS
      ensures forall d | d != device :: Count(generations, d) == Count(old(generations), d)
      ensures generations == Bumped(old(generations), device)
    {
      SweepIndexed(State(), spoilt, device);
      grants := map g | g in grants && grants[g].owner != device :: grants[g];
      active := active - {device};
      generations := Bumped(generations, device);
    }

    method AuthorizationMatches(device: Uuid, generation: nat, processEpoch: nat) returns (ok: bool)
      ensures ok <==> Authorizes(generations, epoch, closed, device, generation, processEpoch)
    {
      ok := !closed && Count(generations, device) == generation && epoch == processEpoch;
    }

    /** The registry closes for good. */
    method Clear()
      modifies this`grants, this`active, this`epoch, this`closed, this`spoilt
      ensures closed && State() == NO_GRANTS && Valid() && spoilt == {} && epoch == (old(epoch) + 1) % U64_MODULUS
    {
      closed := true;
      epoch := (epoch + 1) % U64_MODULUS;
      grants, active, spoilt := map[], map[], {};
    }
  }
}
