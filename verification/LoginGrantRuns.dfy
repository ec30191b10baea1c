/**
 Overlapping calls on the grant registry. A call is a thread that moves from one access of
 shared data to the next: the state mutex guards the grant table, but generations, the epoch
 and the closed flag are read and written without it. A run is any schedule of any threads.
 */
module LoginGrantRuns {
  import opened Basics
  import opened LoginGrants

  // ---------------------------------------------------------------------
  // Calls and the points between their accesses
  // ---------------------------------------------------------------------

  /** The arguments of `issue`, with the grant id and token it drew. */
  datatype IssueCall = IssueCall(g: Uuid, hash: TokenHash, owner: Uuid, revision: string, now: int, expiresAt: int)

  /** `from` is history: how often each device had been bumped when the call started. */
  datatype BeginCall = BeginCall(g: Uuid, hash: TokenHash, now: int, from: map<Uuid, nat>)
  datatype FinishCall = FinishCall(c: Consumption, succeeded: bool, now: int, from: map<Uuid, nat>)
  datatype MatchCall = MatchCall(device: Uuid, generation: nat, epoch: nat, from: map<Uuid, nat>)

  /** `seen` is history: how often the device had been bumped when its generation was read. */
  datatype Pc =
    | Idle
    | IssueStart(i: IssueCall)
    | IssueGeneration(i: IssueCall, generation: nat, seen: nat)
    | IssueReady(i: IssueCall, generation: nat, seen: nat, epoch: nat)
    | IssueLocked(i: IssueCall, generation: nat, seen: nat, epoch: nat)
    | IssueOpen(i: IssueCall, generation: nat, seen: nat, epoch: nat)
    | BeginStart(b: BeginCall)
    | BeginLocked(b: BeginCall)
    | BeginOpen(b: BeginCall)
    | BeginGeneration(b: BeginCall, generation: nat, seen: nat)
    | BeginReady(b: BeginCall, generation: nat, seen: nat, epoch: nat)
    | FinishStart(f: FinishCall)
    | FinishLocked(f: FinishCall)
    | FinishGeneration(f: FinishCall, generation: nat, seen: nat)
    | FinishEpoch(f: FinishCall, generation: nat, seen: nat, epoch: nat)
    | FinishReady(f: FinishCall, generation: nat, seen: nat, epoch: nat, closed: bool)
    | DeviceSwept(device: Uuid)
    | MatchStart(m: MatchCall)
    | MatchOpen(m: MatchCall)
    | MatchGeneration(m: MatchCall, seen: nat)
    | ClearClosed
    | ClearBumped

  predicate Holding(pc: Pc) {
    || pc.IssueLocked? || pc.IssueOpen? || pc.BeginLocked? || pc.BeginOpen? || pc.BeginGeneration? || pc.BeginReady?
    || pc.FinishLocked? || pc.FinishGeneration? || pc.FinishEpoch? || pc.FinishReady?
  }

  predicate Issuing(pc: Pc) {
    pc.IssueStart? || pc.IssueGeneration? || pc.IssueReady? || pc.IssueLocked? || pc.IssueOpen?
  }

  datatype PassKind = BeginPass | FinishPass | MatchPass

  /** History: a call that succeeded on a generation, with the bumps at its start and at its read. */
  datatype Pass = Pass(kind: PassKind, device: Uuid, generation: nat, start: nat, seen: nat)

  /**
   `spoilt` are the grants that were still active when a finish ended them: no begin had handed out
   the consumption it was called with.
   */
  datatype History = History(
    bumps: map<Uuid, nat>, epochBumps: nat, cleared: bool, ids: set<Uuid>, born: map<Uuid, nat>,
    handed: set<Consumption>, began: multiset<Uuid>, finished: multiset<Uuid>, spoilt: set<Uuid>, passes: set<Pass>)

  datatype Sys = Sys(
    reg: Registry, gens: map<Uuid, nat>, epoch: nat, closed: bool,
    lock: Option<nat>, pcs: map<nat, Pc>, h: History)

  datatype Act =
    | StartIssue(i: IssueCall)
    | StartBegin(g: Uuid, token: string, now: int)
    | StartFinish(c: Consumption, succeeded: bool, now: int)
    | DoCancel(g: Uuid, owner: Uuid, now: int)
    | StartInvalidate(device: Uuid)
    | StartMatch(device: Uuid, generation: nat, epoch: nat)
    | StartClear

  const INIT := Sys(NO_GRANTS, map[], 0, false, None, map[],
                    History(map[], 0, false, {}, map[], {}, multiset{}, multiset{}, {}, {}))

  function PcOf(s: Sys, t: nat): Pc {
    if t in s.pcs then s.pcs[t] else Idle
  }

  function At(s: Sys, t: nat, pc: Pc): Sys {
    s.(pcs := s.pcs[t := pc])
  }

  /** A thread waits while another holds the state mutex. */
  function Locked(s: Sys, t: nat, pc: Pc): Sys {
    if s.lock.Some? then s else At(s.(lock := Some(t)), t, pc)
  }

  function Released(s: Sys, t: nat): Sys {
    At(s.(lock := None), t, Idle)
  }

  // ---------------------------------------------------------------------
  // Steps
  // ---------------------------------------------------------------------

  predicate ValidLifetime(i: IssueCall) {
    0 < i.expiresAt - i.now <= MAX_GRANT_LIFETIME
  }

  function Start(s: Sys, t: nat, a: Act): Sys {
    match a
    case StartIssue(i) =>
      if i.g in s.h.ids || !ValidLifetime(i) then s
      else At(s.(h := s.h.(ids := s.h.ids + {i.g})), t, IssueStart(i))
    case StartBegin(g, token, now) =>
      if !WellFormedToken(token) then s
      else At(s, t, BeginStart(BeginCall(g, TokenHash(token), now, s.h.bumps)))
    case StartFinish(c, succeeded, now) =>
      At(s, t, FinishStart(FinishCall(c, succeeded, now, s.h.bumps)))
    case DoCancel(g, owner, now) =>
      if s.lock.Some? then s else At(s.(reg := CancelGrant(s.reg, g, owner, now)), t, Idle)
    case StartInvalidate(device) =>
      if s.lock.Some? then s else At(s.(reg := SweepDevice(s.reg, device)), t, DeviceSwept(device))
    case StartMatch(device, generation, epoch) =>
      At(s, t, MatchStart(MatchCall(device, generation, epoch, s.h.bumps)))
    case StartClear => At(s.(closed := true), t, ClearClosed)
  }

  function InsertStep(s: Sys, t: nat, i: IssueCall, generation: nat, seen: nat, epoch: nat): Sys {
    var e := Entry(i.hash, i.owner, i.revision, generation, epoch, i.expiresAt, Active);
    Released(s.(reg := InsertGrant(Cleanup(s.reg, i.now), i.g, e), h := s.h.(born := s.h.born[i.g := seen])), t)
  }

  /** Cleans up, finds the grant, and reads its owner's generation. */
  function LookupStep(s: Sys, t: nat, b: BeginCall): Sys {
    var r := Cleanup(s.reg, b.now);
    if b.g !in r.grants then Released(s.(reg := r), t)
    else
      var owner := r.grants[b.g].owner;
      At(s.(reg := r), t, BeginGeneration(b, Count(s.gens, owner), Count(s.h.bumps, owner)))
  }

  function BeginStep(s: Sys, t: nat, b: BeginCall, generation: nat, seen: nat, epoch: nat): Sys {
    if b.g in s.reg.grants && Admits(s.reg.grants[b.g], b.hash, b.now, generation, epoch) then
      var c := ConsumptionOf(s.reg, b.g);
      Released(s.(reg := BeginGrant(s.reg, b.g),
                  h := s.h.(handed := s.h.handed + {c}, began := s.h.began + multiset{b.g},
                            passes := s.h.passes
                              + {Pass(BeginPass, c.owner, c.generation, Count(b.from, c.owner), seen)})), t)
    else Released(s, t)
  }

  function FinishStep(s: Sys, t: nat, f: FinishCall, generation: nat, seen: nat, epoch: nat, closed: bool): Sys {
    var g := f.c.grantId;
    if g !in s.reg.grants then Released(s, t)
    else if f.succeeded && Completes(s.reg.grants[g], f.c, generation, epoch, closed, f.now) then
      Released(s.(reg := SetState(s.reg, g, Consumed),
                  h := s.h.(finished := s.h.finished + multiset{g},
                            passes := s.h.passes
                              + {Pass(FinishPass, f.c.owner, f.c.generation, Count(f.from, f.c.owner), seen)})), t)
    else
      var spoilt := if s.reg.grants[g].state.Active? then s.h.spoilt + {g} else s.h.spoilt;
      Released(s.(reg := SetState(s.reg, g, Failed), h := s.h.(spoilt := spoilt)), t)
  }

  function BumpStep(s: Sys, t: nat, device: Uuid): Sys {
    var bumps := s.h.bumps[device := Count(s.h.bumps, device) + 1];
    At(s.(gens := Bumped(s.gens, device), h := s.h.(bumps := bumps)), t, Idle)
  }

  function MatchStep(s: Sys, t: nat, m: MatchCall, seen: nat): Sys {
    if s.epoch != m.epoch then At(s, t, Idle)
    else
      At(s.(h := s.h.(passes := s.h.passes
                        + {Pass(MatchPass, m.device, m.generation, Count(m.from, m.device), seen)})), t, Idle)
  }

  function EpochStep(s: Sys, t: nat): Sys {
    At(s.(epoch := (s.epoch + 1) % U64_MODULUS, h := s.h.(epochBumps := s.h.epochBumps + 1)), t, ClearBumped)
  }

  function ClearStep(s: Sys, t: nat): Sys {
    if s.lock.Some? then s else At(s.(reg := NO_GRANTS, h := s.h.(cleared := true)), t, Idle)
  }

  /** One step of thread `t`: its next access, or the start of the call `a` when it is idle. */
  function Step(s: Sys, t: nat, a: Act): Sys {
    match PcOf(s, t)
    case Idle => Start(s, t, a)
    case IssueStart(i) => At(s, t, IssueGeneration(i, Count(s.gens, i.owner), Count(s.h.bumps, i.owner)))
    case IssueGeneration(i, generation, seen) => At(s, t, IssueReady(i, generation, seen, s.epoch))
    case IssueReady(i, generation, seen, epoch) => Locked(s, t, IssueLocked(i, generation, seen, epoch))
    case IssueLocked(i, generation, seen, epoch) =>
      if s.closed then Released(s, t) else At(s, t, IssueOpen(i, generation, seen, epoch))
    case IssueOpen(i, generation, seen, epoch) => InsertStep(s, t, i, generation, seen, epoch)
    case BeginStart(b) => Locked(s, t, BeginLocked(b))
    case BeginLocked(b) => if s.closed then Released(s, t) else At(s, t, BeginOpen(b))
    case BeginOpen(b) => LookupStep(s, t, b)
    case BeginGeneration(b, generation, seen) => At(s, t, BeginReady(b, generation, seen, s.epoch))
    case BeginReady(b, generation, seen, epoch) => BeginStep(s, t, b, generation, seen, epoch)
    case FinishStart(f) => Locked(s, t, FinishLocked(f))
    case FinishLocked(f) =>
      if f.c.grantId !in s.reg.grants then Released(s, t)
      else At(s, t, FinishGeneration(f, Count(s.gens, f.c.owner), Count(s.h.bumps, f.c.owner)))
    case FinishGeneration(f, generation, seen) => At(s, t, FinishEpoch(f, generation, seen, s.epoch))
    case FinishEpoch(f, generation, seen, epoch) => At(s, t, FinishReady(f, generation, seen, epoch, s.closed))
    case FinishReady(f, generation, seen, epoch, closed) => FinishStep(s, t, f, generation, seen, epoch, closed)
    case DeviceSwept(device) => BumpStep(s, t, device)
    case MatchStart(m) => if s.closed then At(s, t, Idle) else At(s, t, MatchOpen(m))
    case MatchOpen(m) =>
      if Count(s.gens, m.device) != m.generation then At(s, t, Idle)
      else At(s, t, MatchGeneration(m, Count(s.h.bumps, m.device)))
    case MatchGeneration(m, seen) => MatchStep(s, t, m, seen)
    case ClearClosed => EpochStep(s, t)
    case ClearBumped => ClearStep(s, t)
  }

  datatype Turn = Turn(thread: nat, act: Act)

  function Run(s: Sys, turns: seq<Turn>): Sys
    decreases |turns|
  {
    if turns == [] then s else Run(Step(s, turns[0].thread, turns[0].act), turns[1..])
  }

  // ---------------------------------------------------------------------
  // What every schedule keeps
  // ---------------------------------------------------------------------

  /** The mutex is held by the thread inside its critical section. */
  predicate LockInv(s: Sys) {
    && (forall t | t in s.pcs && Holding(s.pcs[t]) :: s.lock == Some(t))
    && (s.lock.Some? ==> Holding(PcOf(s, s.lock.value)))
  }

  /** Generations and the epoch are their bump counts, modulo the word size; bumping the epoch closes first. */
  ghost predicate ClockInv(s: Sys) {
    && (forall d: Uuid :: Count(s.gens, d) == Count(s.h.bumps, d) % U64_MODULUS)
    && s.epoch == s.h.epochBumps % U64_MODULUS
    && (s.h.epochBumps > 0 ==> s.closed)
  }

  /**
   A grant carries the generation it was born in and epoch zero. It has begun once unless it is
   active or spoilt, and what it is consumed by was handed out.
   */
  predicate EntryInv(s: Sys, g: Uuid)
    requires g in s.reg.grants
  {
    var e := s.reg.grants[g];
    && g in s.h.ids && g in s.h.born && s.h.born[g] <= Count(s.h.bumps, e.owner)
    && e.generation == s.h.born[g] % U64_MODULUS && e.epoch == 0
    && s.h.began[g] == (if e.state.Active? || g in s.h.spoilt then 0 else 1) && (g in s.h.spoilt ==> e.state.Failed?)
    && (e.state.Consuming? ==> ConsumptionOf(s.reg, g) in s.h.handed)
    && (e.state.Active? || e.state.Consuming? ==> s.h.finished[g] == 0)
  }

  /** A grant begins at most once, and finishes successfully at most once, after it has begun. */
  ghost predicate OnceInv(h: History) {
    forall g: Uuid ::
      && h.began[g] <= 1 && h.finished[g] <= h.began[g]
      && (h.began[g] > 0 ==> g in h.ids && g in h.born)
  }

  /** A consumption was handed out by the one begin of its grant. */
  predicate HandedInv(s: Sys) {
    forall c | c in s.h.handed ::
      && s.h.began[c.grantId] == 1 && c.epoch == 0
      && c.grantId in s.h.born && c.generation == s.h.born[c.grantId] % U64_MODULUS
      && s.h.born[c.grantId] <= Count(s.h.bumps, c.owner)
      && (c.grantId in s.reg.grants ==> c == ConsumptionOf(s.reg, c.grantId))
  }

  predicate PassInv(h: History, p: Pass) {
    p.start <= p.seen <= Count(h.bumps, p.device) && p.generation == p.seen % U64_MODULUS
  }

  predicate FromPast(h: History, from: map<Uuid, nat>) {
    forall d | d in from :: from[d] <= Count(h.bumps, d)
  }

  /** An issuing thread's grant id is its own and in no table yet. */
  predicate IssueInv(s: Sys, i: IssueCall) {
    i.g in s.h.ids && i.g !in s.reg.grants && i.g !in s.h.born
  }

  predicate ReadInv(s: Sys, device: Uuid, from: nat, generation: nat, seen: nat) {
    from <= seen <= Count(s.h.bumps, device) && generation == seen % U64_MODULUS
  }

  predicate PcInv(s: Sys, pc: Pc) {
    match pc
    case IssueStart(i) => IssueInv(s, i)
    case IssueGeneration(i, generation, seen) => IssueInv(s, i) && ReadInv(s, i.owner, 0, generation, seen)
    case IssueReady(i, generation, seen, epoch) =>
      IssueInv(s, i) && ReadInv(s, i.owner, 0, generation, seen) && (epoch != 0 ==> s.closed)
    case IssueLocked(i, generation, seen, epoch) =>
      IssueInv(s, i) && ReadInv(s, i.owner, 0, generation, seen) && (epoch != 0 ==> s.closed)
    case IssueOpen(i, generation, seen, epoch) =>
      IssueInv(s, i) && ReadInv(s, i.owner, 0, generation, seen) && epoch == 0 && !s.h.cleared
    case BeginStart(b) => FromPast(s.h, b.from)
    case BeginLocked(b) => FromPast(s.h, b.from)
    case BeginOpen(b) => FromPast(s.h, b.from) && !s.h.cleared
    case BeginGeneration(b, generation, seen) =>
      && b.g in s.reg.grants && !s.h.cleared
      && ReadInv(s, s.reg.grants[b.g].owner, Count(b.from, s.reg.grants[b.g].owner), generation, seen)
    case BeginReady(b, generation, seen, epoch) =>
      && b.g in s.reg.grants && !s.h.cleared
      && ReadInv(s, s.reg.grants[b.g].owner, Count(b.from, s.reg.grants[b.g].owner), generation, seen)
    case FinishStart(f) => FromPast(s.h, f.from)
    case FinishLocked(f) => FromPast(s.h, f.from)
    case FinishGeneration(f, generation, seen) => ReadInv(s, f.c.owner, Count(f.from, f.c.owner), generation, seen)
    case FinishEpoch(f, generation, seen, _) => ReadInv(s, f.c.owner, Count(f.from, f.c.owner), generation, seen)
    case FinishReady(f, generation, seen, _, _) => ReadInv(s, f.c.owner, Count(f.from, f.c.owner), generation, seen)
    case MatchStart(m) => FromPast(s.h, m.from)
    case MatchOpen(m) => FromPast(s.h, m.from)
    case MatchGeneration(m, seen) => ReadInv(s, m.device, Count(m.from, m.device), m.generation, seen)
    case ClearClosed => s.closed
    case ClearBumped => s.closed && s.h.epochBumps > 0
    case _ => true
  }

  predicate DistinctIssues(s: Sys) {
    forall t, u | t in s.pcs && u in s.pcs && t != u && Issuing(s.pcs[t]) && Issuing(s.pcs[u]) ::
      s.pcs[t].i.g != s.pcs[u].i.g
  }

  predicate ClearedInv(s: Sys) {
    s.h.cleared ==> s.closed && s.reg == NO_GRANTS && s.h.epochBumps > 0
  }

  predicate Threads(s: Sys) {
    forall t | t in s.pcs :: PcInv(s, s.pcs[t])
  }

  ghost predicate Inv(s: Sys) {
    && LockInv(s) && ClockInv(s) && Indexed(s.reg, s.h.spoilt) && ClearedInv(s)
    && (forall g | g in s.reg.grants :: EntryInv(s, g))
    && OnceInv(s.h) && HandedInv(s) && (forall p | p in s.h.passes :: PassInv(s.h, p))
    && DistinctIssues(s) && Threads(s) && s.h.spoilt <= s.h.born.Keys <= s.h.ids
  }

  lemma InitInv()
    ensures Inv(INIT)
  {
  }

  // ---------------------------------------------------------------------
  // One step keeps it
  // ---------------------------------------------------------------------

  /** History only grows, and a closed registry stays closed. */
  ghost predicate Grows(s: Sys, s': Sys) {
    && (forall d: Uuid :: Count(s.h.bumps, d) <= Count(s'.h.bumps, d))
    && s.h.ids <= s'.h.ids && s.h.handed <= s'.h.handed && (s.closed ==> s'.closed)
    && s.h.epochBumps <= s'.h.epochBumps
  }

  lemma PcStays(s: Sys, s': Sys, pc: Pc)
    requires PcInv(s, pc) && Grows(s, s')
    requires Holding(pc) ==> s'.reg == s.reg && s'.h.cleared == s.h.cleared
    requires Issuing(pc) ==> pc.i.g !in s'.reg.grants && pc.i.g !in s'.h.born
    ensures PcInv(s', pc)
  {
  }

  /** A step of one thread leaves the others where they are. */
  lemma ThreadsStay(s: Sys, s': Sys, t: nat, pc: Pc)
    requires Threads(s) && Grows(s, s') && s'.pcs == s.pcs[t := pc] && PcInv(s', pc)
    requires forall u | u in s.pcs && u != t && Holding(s.pcs[u]) :: s'.reg == s.reg && s'.h.cleared == s.h.cleared
    requires forall u | u in s.pcs && u != t && Issuing(s.pcs[u]) ::
               s.pcs[u].i.g !in s'.reg.grants && s.pcs[u].i.g !in s'.h.born
    ensures Threads(s')
  {
    forall u | u in s'.pcs ensures PcInv(s', s'.pcs[u]) {
      if u != t {
        PcStays(s, s', s.pcs[u]);
      }
    }
  }

  lemma LockStays(s: Sys, s': Sys, t: nat, pc: Pc)
    requires LockInv(s) && s'.pcs == s.pcs[t := pc]
    requires Holding(pc) <==> s'.lock == Some(t)
    requires if s.lock.None? || s.lock == Some(t) then s'.lock.None? || s'.lock == Some(t) else s'.lock == s.lock
    ensures LockInv(s')
  {
  }

  lemma IssuesStayDistinct(s: Sys, s': Sys, t: nat, pc: Pc)
    requires DistinctIssues(s) && Threads(s) && s'.pcs == s.pcs[t := pc]
    requires Issuing(pc) ==> (Issuing(PcOf(s, t)) && PcOf(s, t).i == pc.i) || pc.i.g !in s.h.ids
    ensures DistinctIssues(s')
  {
    forall u | u in s.pcs && Issuing(s.pcs[u]) ensures s.pcs[u].i.g in s.h.ids {
      assert PcInv(s, s.pcs[u]);
    }
  }

  lemma EntryStays(s: Sys, s': Sys, g: Uuid)
    requires g in s.reg.grants && EntryInv(s, g) && Grows(s, s')
    requires g in s'.reg.grants && s'.reg.grants[g] == s.reg.grants[g]
    requires g in s'.h.born && s'.h.born[g] == s.h.born[g]
    requires s'.h.began[g] == s.h.began[g] && s'.h.finished[g] == s.h.finished[g] && s'.h.spoilt == s.h.spoilt
    ensures EntryInv(s', g)
  {
  }

  lemma HandedStays(s: Sys, s': Sys)
    requires HandedInv(s) && Grows(s, s') && s'.h.handed == s.h.handed && s'.h.began == s.h.began
    requires forall g | g in s.h.born :: g in s'.h.born && s'.h.born[g] == s.h.born[g]
    requires forall g | g in s'.reg.grants && s.h.began[g] == 1 ::
               g in s.reg.grants && ConsumptionOf(s'.reg, g) == ConsumptionOf(s.reg, g)
    ensures HandedInv(s')
  {
  }

  /** The lock, the grant ids being issued and the other threads, after a step of thread `t`. */
  lemma Frame(s: Sys, s': Sys, t: nat, pc: Pc)
    requires LockInv(s) && DistinctIssues(s) && Threads(s) && Grows(s, s') && s'.pcs == s.pcs[t := pc] && PcInv(s', pc)
    requires Holding(pc) <==> s'.lock == Some(t)
    requires if s.lock.None? || s.lock == Some(t) then s'.lock.None? || s'.lock == Some(t) else s'.lock == s.lock
    requires Issuing(pc) ==> (Issuing(PcOf(s, t)) && PcOf(s, t).i == pc.i) || pc.i.g !in s.h.ids
    requires s'.reg == s.reg || s.lock.None? || s.lock == Some(t)
    requires s'.h.cleared == s.h.cleared || s.lock.None?
    requires forall g | g in s'.reg.grants || g in s'.h.born ::
               g in s.reg.grants || g in s.h.born || (Issuing(PcOf(s, t)) && PcOf(s, t).i.g == g)
    ensures LockInv(s') && DistinctIssues(s') && Threads(s')
  {
    LockStays(s, s', t, pc);
    IssuesStayDistinct(s, s', t, pc);
    forall u | u in s.pcs && u != t && Issuing(s.pcs[u])
      ensures s.pcs[u].i.g !in s'.reg.grants && s.pcs[u].i.g !in s'.h.born
    {
      assert PcInv(s, s.pcs[u]);
    }
    ThreadsStay(s, s', t, pc);
  }

  lemma PassesStay(h: History, h': History)
    requires forall p | p in h.passes :: PassInv(h, p)
    requires forall d: Uuid :: Count(h.bumps, d) <= Count(h'.bumps, d)
    requires forall p | p in h'.passes && p !in h.passes :: PassInv(h', p)
    ensures forall p | p in h'.passes :: PassInv(h', p)
  {
    forall p | p in h'.passes ensures PassInv(h', p) {
      if p in h.passes {
        assert PassInv(h, p);
      }
    }
  }

  /** The parts of history that tell what became of the grants. */
  predicate SameFates(h: History, h': History) {
    && h'.born == h.born && h'.began == h.began && h'.finished == h.finished && h'.handed == h.handed
    && h'.spoilt == h.spoilt
  }

  /** A step that leaves the grants alone. */
  lemma QuietStep(s: Sys, s': Sys, t: nat, pc: Pc)
    requires Inv(s) && Grows(s, s') && s'.reg == s.reg && SameFates(s.h, s'.h) && s'.h.cleared == s.h.cleared
    requires s'.pcs == s.pcs[t := pc] && PcInv(s', pc) && ClockInv(s')
    requires Holding(pc) <==> s'.lock == Some(t)
    requires if s.lock.None? || s.lock == Some(t) then s'.lock.None? || s'.lock == Some(t) else s'.lock == s.lock
    requires Issuing(pc) ==> (Issuing(PcOf(s, t)) && PcOf(s, t).i == pc.i) || pc.i.g !in s.h.ids
    requires forall p | p in s'.h.passes && p !in s.h.passes :: PassInv(s'.h, p)
    ensures Inv(s')
  {
    Frame(s, s', t, pc);
    forall g | g in s'.reg.grants ensures EntryInv(s', g) {
      assert EntryInv(s, g);
      EntryStays(s, s', g);
    }
    HandedStays(s, s');
    PassesStay(s.h, s'.h);
  }

  /** A step of the lock's holder, or with the lock free, that only removes grants. */
  lemma ShrinkStep(s: Sys, s': Sys, t: nat, pc: Pc)
    requires Inv(s) && Grows(s, s') && SameFates(s.h, s'.h) && s'.h.passes == s.h.passes
    requires s'.h.cleared == s.h.cleared || s.lock.None?
    requires Indexed(s'.reg, s.h.spoilt) && ClockInv(s') && ClearedInv(s')
    requires forall g | g in s'.reg.grants :: g in s.reg.grants && s'.reg.grants[g] == s.reg.grants[g]
    requires s.lock.None? || s.lock == Some(t)
    requires s'.pcs == s.pcs[t := pc] && PcInv(s', pc)
    requires (Holding(pc) <==> s'.lock == Some(t)) && (s'.lock.None? || s'.lock == Some(t)) && !Issuing(pc)
    ensures Inv(s')
  {
    Frame(s, s', t, pc);
    forall g | g in s'.reg.grants ensures EntryInv(s', g) {
      assert EntryInv(s, g);
      EntryStays(s, s', g);
    }
    HandedStays(s, s');
    PassesStay(s.h, s'.h);
  }

  // ---------------------------------------------------------------------
  // The steps that make, begin and finish a grant
  // ---------------------------------------------------------------------

  lemma InsertInv(s: Sys, t: nat, i: IssueCall, generation: nat, seen: nat, epoch: nat)
    requires Inv(s) && PcOf(s, t) == IssueOpen(i, generation, seen, epoch)
    ensures Inv(InsertStep(s, t, i, generation, seen, epoch))
    ensures Grows(s, InsertStep(s, t, i, generation, seen, epoch))
  {
    var s' := InsertStep(s, t, i, generation, seen, epoch);
    var e := Entry(i.hash, i.owner, i.revision, generation, epoch, i.expiresAt, Active);
    assert PcInv(s, s.pcs[t]) && s.lock == Some(t);
    InsertedIndexed(s.reg, s.h.spoilt, i.g, e, i.now);
    InsertFrame(s, t, i, generation, seen, epoch);
    InsertEntries(s, t, i, generation, seen, epoch);
    InsertHistory(s, t, i, generation, seen, epoch);
  }

  lemma InsertHistory(s: Sys, t: nat, i: IssueCall, generation: nat, seen: nat, epoch: nat)
    requires HandedInv(s) && OnceInv(s.h) && IssueInv(s, i) && s.h.spoilt <= s.h.born.Keys <= s.h.ids
    requires forall p | p in s.h.passes :: PassInv(s.h, p)
    ensures var s' := InsertStep(s, t, i, generation, seen, epoch);
            && HandedInv(s') && OnceInv(s'.h) && s'.h.spoilt <= s'.h.born.Keys <= s'.h.ids
            && forall p | p in s'.h.passes :: PassInv(s'.h, p)
  {
    var s' := InsertStep(s, t, i, generation, seen, epoch);
    InsertedEntries(s.reg, i.g, Entry(i.hash, i.owner, i.revision, generation, epoch, i.expiresAt, Active), i.now);
    assert s.h.began[i.g] == 0;
    HandedStays(s, s');
    PassesStay(s.h, s'.h);
    forall g: Uuid ensures s'.h.began[g] > 0 ==> g in s'.h.born {
      assert s.h.began[g] > 0 ==> g in s.h.born;
    }
  }

  lemma InsertFrame(s: Sys, t: nat, i: IssueCall, generation: nat, seen: nat, epoch: nat)
    requires LockInv(s) && DistinctIssues(s) && Threads(s) && PcOf(s, t) == IssueOpen(i, generation, seen, epoch)
    ensures var s' := InsertStep(s, t, i, generation, seen, epoch);
            LockInv(s') && DistinctIssues(s') && Threads(s') && Grows(s, s')
  {
    assert PcInv(s, s.pcs[t]) && s.lock == Some(t);
    InsertedEntries(s.reg, i.g, Entry(i.hash, i.owner, i.revision, generation, epoch, i.expiresAt, Active), i.now);
    Frame(s, InsertStep(s, t, i, generation, seen, epoch), t, Idle);
  }

  lemma InsertEntries(s: Sys, t: nat, i: IssueCall, generation: nat, seen: nat, epoch: nat)
    requires OnceInv(s.h) && PcInv(s, IssueOpen(i, generation, seen, epoch)) && s.h.spoilt <= s.h.born.Keys
    requires forall g | g in s.reg.grants :: EntryInv(s, g)
    ensures var s' := InsertStep(s, t, i, generation, seen, epoch); forall g | g in s'.reg.grants :: EntryInv(s', g)
  {
    var s' := InsertStep(s, t, i, generation, seen, epoch);
    InsertedEntries(s.reg, i.g, Entry(i.hash, i.owner, i.revision, generation, epoch, i.expiresAt, Active), i.now);
    forall g | g in s'.reg.grants ensures EntryInv(s', g) {
      if g != i.g {
        assert EntryInv(s, g);
        EntryStays(s, s', g);
      } else {
        assert s.h.began[g] == 0;
      }
    }
  }

  predicate BeginSucceeds(s: Sys, b: BeginCall, generation: nat, epoch: nat) {
    b.g in s.reg.grants && Admits(s.reg.grants[b.g], b.hash, b.now, generation, epoch)
  }

  lemma BeginEntries(s: Sys, t: nat, b: BeginCall, generation: nat, seen: nat, epoch: nat)
    requires BeginSucceeds(s, b, generation, epoch)
    requires forall g | g in s.reg.grants :: EntryInv(s, g)
    ensures var s' := BeginStep(s, t, b, generation, seen, epoch); forall g | g in s'.reg.grants :: EntryInv(s', g)
  {
    var s' := BeginStep(s, t, b, generation, seen, epoch);
    forall g | g in s'.reg.grants ensures EntryInv(s', g) {
      assert EntryInv(s, g);
    }
  }

  lemma BeginHistory(s: Sys, t: nat, b: BeginCall, generation: nat, seen: nat, epoch: nat)
    requires BeginSucceeds(s, b, generation, epoch) && EntryInv(s, b.g) && OnceInv(s.h) && HandedInv(s)
    ensures var s' := BeginStep(s, t, b, generation, seen, epoch); OnceInv(s'.h) && HandedInv(s')
  {
    var s' := BeginStep(s, t, b, generation, seen, epoch);
    forall g: Uuid
      ensures s'.h.began[g] <= 1 && s'.h.finished[g] <= s'.h.began[g]
      ensures s'.h.began[g] > 0 ==> g in s'.h.ids && g in s'.h.born
    {
      assert s.h.began[g] <= 1 && s.h.finished[g] <= s.h.began[g];
    }
    forall c | c in s.h.handed ensures s'.h.began[c.grantId] == 1 {
      assert s.h.began[c.grantId] == 1;
    }
  }

  lemma BeginFrame(s: Sys, t: nat, b: BeginCall, generation: nat, seen: nat, epoch: nat)
    requires LockInv(s) && DistinctIssues(s) && Threads(s) && PcOf(s, t) == BeginReady(b, generation, seen, epoch)
    requires Indexed(s.reg, s.h.spoilt) && BeginSucceeds(s, b, generation, epoch)
    ensures var s' := BeginStep(s, t, b, generation, seen, epoch);
            LockInv(s') && DistinctIssues(s') && Threads(s') && Grows(s, s') && Indexed(s'.reg, s'.h.spoilt)
  {
    BeginIndexed(s.reg, s.h.spoilt, b.g);
    assert s.lock == Some(t);
    Frame(s, BeginStep(s, t, b, generation, seen, epoch), t, Idle);
  }

  lemma BeginInv(s: Sys, t: nat, b: BeginCall, generation: nat, seen: nat, epoch: nat)
    requires Inv(s) && PcOf(s, t) == BeginReady(b, generation, seen, epoch) && BeginSucceeds(s, b, generation, epoch)
    ensures Inv(BeginStep(s, t, b, generation, seen, epoch)) && Grows(s, BeginStep(s, t, b, generation, seen, epoch))
  {
    var s' := BeginStep(s, t, b, generation, seen, epoch);
    assert PcInv(s, s.pcs[t]) && EntryInv(s, b.g);
    BeginFrame(s, t, b, generation, seen, epoch);
    BeginEntries(s, t, b, generation, seen, epoch);
    BeginHistory(s, t, b, generation, seen, epoch);
    PassesStay(s.h, s'.h);
  }

  lemma FinishEntries(s: Sys, t: nat, f: FinishCall, generation: nat, seen: nat, epoch: nat, closed: bool)
    requires f.c.grantId in s.reg.grants && OnceInv(s.h)
    requires forall g | g in s.reg.grants :: EntryInv(s, g)
    ensures var s' := FinishStep(s, t, f, generation, seen, epoch, closed);
            forall g | g in s'.reg.grants :: EntryInv(s', g)
  {
    var s' := FinishStep(s, t, f, generation, seen, epoch, closed);
    forall g | g in s'.reg.grants ensures EntryInv(s', g) {
      assert EntryInv(s, g);
    }
  }

  lemma FinishHistory(s: Sys, t: nat, f: FinishCall, generation: nat, seen: nat, epoch: nat, closed: bool)
    requires f.c.grantId in s.reg.grants && EntryInv(s, f.c.grantId) && OnceInv(s.h)
    ensures OnceInv(FinishStep(s, t, f, generation, seen, epoch, closed).h)
  {
    var s' := FinishStep(s, t, f, generation, seen, epoch, closed);
    forall g: Uuid
      ensures s'.h.began[g] <= 1 && s'.h.finished[g] <= s'.h.began[g]
      ensures s'.h.began[g] > 0 ==> g in s'.h.ids && g in s'.h.born
    {
      assert s.h.began[g] <= 1 && s.h.finished[g] <= s.h.began[g];
    }
  }

  lemma FinishHanded(s: Sys, t: nat, f: FinishCall, generation: nat, seen: nat, epoch: nat, closed: bool)
    requires f.c.grantId in s.reg.grants && HandedInv(s)
    requires ReadInv(s, f.c.owner, Count(f.from, f.c.owner), generation, seen)
    requires forall p | p in s.h.passes :: PassInv(s.h, p)
    ensures var s' := FinishStep(s, t, f, generation, seen, epoch, closed);
            HandedInv(s') && forall p | p in s'.h.passes :: PassInv(s'.h, p)
  {
    var s' := FinishStep(s, t, f, generation, seen, epoch, closed);
    HandedStays(s, s');
    PassesStay(s.h, s'.h);
  }

  lemma FinishFrame(s: Sys, t: nat, f: FinishCall, generation: nat, seen: nat, epoch: nat, closed: bool)
    requires LockInv(s) && DistinctIssues(s) && Threads(s)
    requires PcOf(s, t) == FinishReady(f, generation, seen, epoch, closed)
    requires f.c.grantId in s.reg.grants && Indexed(s.reg, s.h.spoilt)
    ensures var s' := FinishStep(s, t, f, generation, seen, epoch, closed);
            LockInv(s') && DistinctIssues(s') && Threads(s') && Grows(s, s') && Indexed(s'.reg, s'.h.spoilt)
  {
    FinishIndexed(s.reg, s.h.spoilt, f.c.grantId, Consumed);
    FinishIndexed(s.reg, s.h.spoilt, f.c.grantId, Failed);
    assert s.lock == Some(t);
    Frame(s, FinishStep(s, t, f, generation, seen, epoch, closed), t, Idle);
  }

  lemma FinishInv(s: Sys, t: nat, f: FinishCall, generation: nat, seen: nat, epoch: nat, closed: bool)
    requires Inv(s) && PcOf(s, t) == FinishReady(f, generation, seen, epoch, closed) && f.c.grantId in s.reg.grants
    ensures var s' := FinishStep(s, t, f, generation, seen, epoch, closed); Inv(s') && Grows(s, s')
  {
    var s' := FinishStep(s, t, f, generation, seen, epoch, closed);
    assert PcInv(s, s.pcs[t]) && s.lock == Some(t) && EntryInv(s, f.c.grantId);
    FinishFrame(s, t, f, generation, seen, epoch, closed);
    FinishEntries(s, t, f, generation, seen, epoch, closed);
    FinishHistory(s, t, f, generation, seen, epoch, closed);
    FinishHanded(s, t, f, generation, seen, epoch, closed);
  }

  // ---------------------------------------------------------------------
  // Every step, every schedule
  // ---------------------------------------------------------------------

  /** Grant ids that are being issued stay apart. */
  predicate KeepsIssue(s: Sys, t: nat, pc: Pc) {
    Issuing(pc) ==> Issuing(PcOf(s, t)) && PcOf(s, t).i == pc.i
  }

  /** A thread moves on without touching the lock. */
  lemma AtInv(s: Sys, t: nat, pc: Pc)
    requires Inv(s) && PcInv(s, pc) && KeepsIssue(s, t, pc)
    requires Holding(pc) <==> s.lock == Some(t)
    ensures Inv(At(s, t, pc)) && Grows(s, At(s, t, pc))
  {
    QuietStep(s, At(s, t, pc), t, pc);
  }

  lemma AcquireInv(s: Sys, t: nat, pc: Pc)
    requires Inv(s) && PcInv(s, pc) && KeepsIssue(s, t, pc) && Holding(pc)
    ensures Inv(Locked(s, t, pc)) && Grows(s, Locked(s, t, pc))
  {
    if s.lock.None? {
      QuietStep(s, Locked(s, t, pc), t, pc);
    }
  }

  lemma ReleaseInv(s: Sys, t: nat)
    requires Inv(s) && s.lock == Some(t)
    ensures Inv(Released(s, t)) && Grows(s, Released(s, t))
  {
    QuietStep(s, Released(s, t), t, Idle);
  }

  lemma GenerationIsCurrent(s: Sys, device: Uuid)
    requires ClockInv(s)
    ensures Count(s.gens, device) == Count(s.h.bumps, device) % U64_MODULUS
    ensures s.epoch != 0 ==> s.closed
  {
  }

  lemma IssueReads(s: Sys, t: nat, a: Act)
    requires Inv(s) && PcOf(s, t).IssueStart?
    ensures Inv(Step(s, t, a)) && Grows(s, Step(s, t, a))
  {
    var pc := PcOf(s, t);
    assert PcInv(s, pc);
    GenerationIsCurrent(s, pc.i.owner);
    AtInv(s, t, IssueGeneration(pc.i, Count(s.gens, pc.i.owner), Count(s.h.bumps, pc.i.owner)));
  }

  lemma IssueReadsEpoch(s: Sys, t: nat, a: Act)
    requires Inv(s) && PcOf(s, t).IssueGeneration?
    ensures Inv(Step(s, t, a)) && Grows(s, Step(s, t, a))
  {
    var pc := PcOf(s, t);
    assert PcInv(s, pc);
    GenerationIsCurrent(s, pc.i.owner);
    AtInv(s, t, IssueReady(pc.i, pc.generation, pc.seen, s.epoch));
  }

  lemma IssueLocks(s: Sys, t: nat, a: Act)
    requires Inv(s) && PcOf(s, t).IssueReady?
    ensures Inv(Step(s, t, a)) && Grows(s, Step(s, t, a))
  {
    var pc := PcOf(s, t);
    assert PcInv(s, pc);
    AcquireInv(s, t, IssueLocked(pc.i, pc.generation, pc.seen, pc.epoch));
  }

  lemma IssueChecks(s: Sys, t: nat, a: Act)
    requires Inv(s) && PcOf(s, t).IssueLocked?
    ensures Inv(Step(s, t, a)) && Grows(s, Step(s, t, a))
  {
    var pc := PcOf(s, t);
    assert PcInv(s, pc);
    assert s.lock == Some(t);
    if s.closed {
      ReleaseInv(s, t);
    } else {
      AtInv(s, t, IssueOpen(pc.i, pc.generation, pc.seen, pc.epoch));
    }
  }

  lemma IssueInserts(s: Sys, t: nat, a: Act)
    requires Inv(s) && PcOf(s, t).IssueOpen?
    ensures Inv(Step(s, t, a)) && Grows(s, Step(s, t, a))
  {
    var pc := PcOf(s, t);
    assert PcInv(s, pc);
    InsertInv(s, t, pc.i, pc.generation, pc.seen, pc.epoch);
  }

  lemma IssueStepInv(s: Sys, t: nat, a: Act)
    requires Inv(s) && Issuing(PcOf(s, t))
    ensures Inv(Step(s, t, a)) && Grows(s, Step(s, t, a))
  {
    match PcOf(s, t)
    case IssueStart(_) => IssueReads(s, t, a);
    case IssueGeneration(_, _, _) => IssueReadsEpoch(s, t, a);
    case IssueReady(_, _, _, _) => IssueLocks(s, t, a);
    case IssueLocked(_, _, _, _) => IssueChecks(s, t, a);
    case IssueOpen(_, _, _, _) => IssueInserts(s, t, a);
  }

  lemma LookupMisses(s: Sys, t: nat, now: int)
    requires Inv(s) && s.lock == Some(t)
    ensures var s' := Released(s.(reg := Cleanup(s.reg, now)), t); Inv(s') && Grows(s, s')
  {
    CleanupIndexed(s.reg, s.h.spoilt, now);
    ShrinkStep(s, Released(s.(reg := Cleanup(s.reg, now)), t), t, Idle);
  }

  lemma LookupReads(s: Sys, b: BeginCall)
    requires ClockInv(s) && FromPast(s.h, b.from) && !s.h.cleared && b.g in Cleanup(s.reg, b.now).grants
    ensures var r := Cleanup(s.reg, b.now);
            var owner := r.grants[b.g].owner;
            PcInv(s.(reg := r), BeginGeneration(b, Count(s.gens, owner), Count(s.h.bumps, owner)))
  {
    GenerationIsCurrent(s, Cleanup(s.reg, b.now).grants[b.g].owner);
  }

  lemma LookupFinds(s: Sys, t: nat, b: BeginCall)
    requires Inv(s) && PcOf(s, t) == BeginOpen(b) && b.g in Cleanup(s.reg, b.now).grants
    ensures Inv(LookupStep(s, t, b)) && Grows(s, LookupStep(s, t, b))
  {
    assert PcInv(s, s.pcs[t]) && s.lock == Some(t);
    CleanupIndexed(s.reg, s.h.spoilt, b.now);
    LookupReads(s, b);
    var r := Cleanup(s.reg, b.now);
    var owner := r.grants[b.g].owner;
    var pc := BeginGeneration(b, Count(s.gens, owner), Count(s.h.bumps, owner));
    ShrinkStep(s, At(s.(reg := r), t, pc), t, pc);
  }

  lemma BeginOpens(s: Sys, t: nat, a: Act)
    requires Inv(s) && PcOf(s, t).BeginLocked?
    ensures Inv(Step(s, t, a)) && Grows(s, Step(s, t, a))
  {
    var pc := PcOf(s, t);
    assert PcInv(s, pc);
    assert s.lock == Some(t);
    if s.closed {
      ReleaseInv(s, t);
    } else {
      AtInv(s, t, BeginOpen(pc.b));
    }
  }

  lemma BeginLooksUp(s: Sys, t: nat, a: Act)
    requires Inv(s) && PcOf(s, t).BeginOpen?
    ensures Inv(Step(s, t, a)) && Grows(s, Step(s, t, a))
  {
    var pc := PcOf(s, t);
    assert PcInv(s, pc);
    if pc.b.g in Cleanup(s.reg, pc.b.now).grants {
      LookupFinds(s, t, pc.b);
    } else {
      LookupMisses(s, t, pc.b.now);
    }
  }

  lemma BeginReadsEpoch(s: Sys, t: nat, a: Act)
    requires Inv(s) && PcOf(s, t).BeginGeneration?
    ensures Inv(Step(s, t, a)) && Grows(s, Step(s, t, a))
  {
    var pc := PcOf(s, t);
    assert PcInv(s, pc);
    assert s.lock == Some(t);
    AtInv(s, t, BeginReady(pc.b, pc.generation, pc.seen, s.epoch));
  }

  lemma BeginCommits(s: Sys, t: nat, a: Act)
    requires Inv(s) && PcOf(s, t).BeginReady?
    ensures Inv(Step(s, t, a)) && Grows(s, Step(s, t, a))
  {
    var pc := PcOf(s, t);
    assert PcInv(s, pc);
    if BeginSucceeds(s, pc.b, pc.generation, pc.epoch) {
      BeginInv(s, t, pc.b, pc.generation, pc.seen, pc.epoch);
    } else {
      ReleaseInv(s, t);
    }
  }

  lemma BeginLocks(s: Sys, t: nat, a: Act)
    requires Inv(s) && PcOf(s, t).BeginStart?
    ensures Inv(Step(s, t, a)) && Grows(s, Step(s, t, a))
  {
    var pc := PcOf(s, t);
    assert PcInv(s, pc);
    AcquireInv(s, t, BeginLocked(pc.b));
  }

  lemma BeginStepInv(s: Sys, t: nat, a: Act)
    requires Inv(s)
    requires var pc := PcOf(s, t);
             pc.BeginStart? || pc.BeginLocked? || pc.BeginOpen? || pc.BeginGeneration? || pc.BeginReady?
    ensures Inv(Step(s, t, a)) && Grows(s, Step(s, t, a))
  {
    match PcOf(s, t)
    case BeginStart(_) => BeginLocks(s, t, a);
    case BeginLocked(_) => BeginOpens(s, t, a);
    case BeginOpen(_) => BeginLooksUp(s, t, a);
    case BeginGeneration(_, _, _) => BeginReadsEpoch(s, t, a);
    case BeginReady(_, _, _, _) => BeginCommits(s, t, a);
  }

  lemma FinishLocks(s: Sys, t: nat, a: Act)
    requires Inv(s) && PcOf(s, t).FinishStart?
    ensures Inv(Step(s, t, a)) && Grows(s, Step(s, t, a))
  {
    var pc := PcOf(s, t);
    assert PcInv(s, pc);
    AcquireInv(s, t, FinishLocked(pc.f));
  }

  lemma FinishReads(s: Sys, t: nat, a: Act)
    requires Inv(s) && PcOf(s, t).FinishLocked?
    ensures Inv(Step(s, t, a)) && Grows(s, Step(s, t, a))
  {
    var pc := PcOf(s, t);
    assert PcInv(s, pc);
    assert s.lock == Some(t);
    GenerationIsCurrent(s, pc.f.c.owner);
    if pc.f.c.grantId !in s.reg.grants {
      ReleaseInv(s, t);
    } else {
      AtInv(s, t, FinishGeneration(pc.f, Count(s.gens, pc.f.c.owner), Count(s.h.bumps, pc.f.c.owner)));
    }
  }

  lemma FinishReadsEpoch(s: Sys, t: nat, a: Act)
    requires Inv(s) && PcOf(s, t).FinishGeneration?
    ensures Inv(Step(s, t, a)) && Grows(s, Step(s, t, a))
  {
    var pc := PcOf(s, t);
    assert PcInv(s, pc);
    assert s.lock == Some(t);
    AtInv(s, t, FinishEpoch(pc.f, pc.generation, pc.seen, s.epoch));
  }

  lemma FinishReadsClosed(s: Sys, t: nat, a: Act)
    requires Inv(s) && PcOf(s, t).FinishEpoch?
    ensures Inv(Step(s, t, a)) && Grows(s, Step(s, t, a))
  {
    var pc := PcOf(s, t);
    assert PcInv(s, pc);
    assert s.lock == Some(t);
    AtInv(s, t, FinishReady(pc.f, pc.generation, pc.seen, pc.epoch, s.closed));
  }

  lemma FinishCommits(s: Sys, t: nat, a: Act)
    requires Inv(s) && PcOf(s, t).FinishReady?
    ensures Inv(Step(s, t, a)) && Grows(s, Step(s, t, a))
  {
    var pc := PcOf(s, t);
    assert PcInv(s, pc);
    if pc.f.c.grantId in s.reg.grants {
      FinishInv(s, t, pc.f, pc.generation, pc.seen, pc.epoch, pc.closed);
    } else {
      ReleaseInv(s, t);
    }
  }

  lemma FinishStepInv(s: Sys, t: nat, a: Act)
    requires Inv(s)
    requires var pc := PcOf(s, t);
             pc.FinishStart? || pc.FinishLocked? || pc.FinishGeneration? || pc.FinishEpoch? || pc.FinishReady?
    ensures Inv(Step(s, t, a)) && Grows(s, Step(s, t, a))
  {
    match PcOf(s, t)
    case FinishStart(_) => FinishLocks(s, t, a);
    case FinishLocked(_) => FinishReads(s, t, a);
    case FinishGeneration(_, _, _) => FinishReadsEpoch(s, t, a);
    case FinishEpoch(_, _, _, _) => FinishReadsClosed(s, t, a);
    case FinishReady(_, _, _, _, _) => FinishCommits(s, t, a);
  }

  /** A thread outside the lock gives up. */
  lemma LeaveInv(s: Sys, t: nat)
    requires Inv(s) && s.lock != Some(t)
    ensures Inv(At(s, t, Idle)) && Grows(s, At(s, t, Idle))
  {
    QuietStep(s, At(s, t, Idle), t, Idle);
  }

  lemma MatchOpens(s: Sys, t: nat, a: Act)
    requires Inv(s) && PcOf(s, t).MatchStart?
    ensures Inv(Step(s, t, a)) && Grows(s, Step(s, t, a))
  {
    var pc := PcOf(s, t);
    assert PcInv(s, pc);
    if s.closed {
      LeaveInv(s, t);
    } else {
      AtInv(s, t, MatchOpen(pc.m));
    }
  }

  lemma MatchReads(s: Sys, t: nat, a: Act)
    requires Inv(s) && PcOf(s, t).MatchOpen?
    ensures Inv(Step(s, t, a)) && Grows(s, Step(s, t, a))
  {
    var pc := PcOf(s, t);
    assert PcInv(s, pc);
    GenerationIsCurrent(s, pc.m.device);
    if Count(s.gens, pc.m.device) != pc.m.generation {
      LeaveInv(s, t);
    } else {
      AtInv(s, t, MatchGeneration(pc.m, Count(s.h.bumps, pc.m.device)));
    }
  }

  lemma MatchDecides(s: Sys, t: nat, a: Act)
    requires Inv(s) && PcOf(s, t).MatchGeneration?
    ensures Inv(Step(s, t, a)) && Grows(s, Step(s, t, a))
  {
    var pc := PcOf(s, t);
    assert PcInv(s, pc);
    if s.epoch != pc.m.epoch {
      LeaveInv(s, t);
    } else {
      MatchInv(s, t, pc.m, pc.seen);
    }
  }

  lemma MatchInv(s: Sys, t: nat, m: MatchCall, seen: nat)
    requires Inv(s) && PcOf(s, t) == MatchGeneration(m, seen) && s.epoch == m.epoch
    ensures Inv(MatchStep(s, t, m, seen)) && Grows(s, MatchStep(s, t, m, seen))
  {
    assert PcInv(s, s.pcs[t]);
    QuietStep(s, MatchStep(s, t, m, seen), t, Idle);
  }

  lemma MatchStepInv(s: Sys, t: nat, a: Act)
    requires Inv(s) && (PcOf(s, t).MatchStart? || PcOf(s, t).MatchOpen? || PcOf(s, t).MatchGeneration?)
    ensures Inv(Step(s, t, a)) && Grows(s, Step(s, t, a))
  {
    match PcOf(s, t)
    case MatchStart(_) => MatchOpens(s, t, a);
    case MatchOpen(_) => MatchReads(s, t, a);
    case MatchGeneration(_, _) => MatchDecides(s, t, a);
  }

  lemma BumpInv(s: Sys, t: nat, device: Uuid)
    requires Inv(s) && PcOf(s, t) == DeviceSwept(device)
    ensures Inv(BumpStep(s, t, device)) && Grows(s, BumpStep(s, t, device))
  {
    var s' := BumpStep(s, t, device);
    forall d: Uuid
      ensures Count(s'.gens, d) == Count(s'.h.bumps, d) % U64_MODULUS && Count(s.h.bumps, d) <= Count(s'.h.bumps, d)
    {
      assert Count(s.gens, d) == Count(s.h.bumps, d) % U64_MODULUS;
      NextModulo(Count(s.h.bumps, d));
    }
    QuietStep(s, s', t, Idle);
  }

  lemma NextModulo(n: nat)
    ensures (n % U64_MODULUS + 1) % U64_MODULUS == (n + 1) % U64_MODULUS
  {
  }

  lemma ClearStepInv(s: Sys, t: nat, a: Act)
    requires Inv(s) && (PcOf(s, t).ClearClosed? || PcOf(s, t).ClearBumped?)
    ensures Inv(Step(s, t, a)) && Grows(s, Step(s, t, a))
  {
    var s', pc := Step(s, t, a), PcOf(s, t);
    assert PcInv(s, pc);
    if pc.ClearClosed? {
      NextModulo(s.h.epochBumps);
      QuietStep(s, s', t, ClearBumped);
    } else if s' != s {
      ShrinkStep(s, s', t, Idle);
    }
  }

  lemma CancelInv(s: Sys, t: nat, g: Uuid, owner: Uuid, now: int)
    requires Inv(s) && s.lock.None? && PcOf(s, t).Idle?
    ensures var s' := At(s.(reg := CancelGrant(s.reg, g, owner, now)), t, Idle); Inv(s') && Grows(s, s')
  {
    CancelIndexed(s.reg, s.h.spoilt, g, owner, now);
    ShrinkStep(s, At(s.(reg := CancelGrant(s.reg, g, owner, now)), t, Idle), t, Idle);
  }

  lemma StartIssueInv(s: Sys, t: nat, i: IssueCall)
    requires Inv(s) && PcOf(s, t).Idle? && i.g !in s.h.ids
    ensures var s' := At(s.(h := s.h.(ids := s.h.ids + {i.g})), t, IssueStart(i)); Inv(s') && Grows(s, s')
  {
    forall g | g in s.reg.grants ensures g in s.h.ids {
      assert EntryInv(s, g);
    }
    QuietStep(s, At(s.(h := s.h.(ids := s.h.ids + {i.g})), t, IssueStart(i)), t, IssueStart(i));
  }

  lemma SweepInv(s: Sys, t: nat, device: Uuid)
    requires Inv(s) && PcOf(s, t).Idle? && s.lock.None?
    ensures var s' := At(s.(reg := SweepDevice(s.reg, device)), t, DeviceSwept(device)); Inv(s') && Grows(s, s')
  {
    SweepIndexed(s.reg, s.h.spoilt, device);
    ShrinkStep(s, At(s.(reg := SweepDevice(s.reg, device)), t, DeviceSwept(device)), t, DeviceSwept(device));
  }

  lemma CloseInv(s: Sys, t: nat)
    requires Inv(s) && PcOf(s, t).Idle?
    ensures var s' := At(s.(closed := true), t, ClearClosed); Inv(s') && Grows(s, s')
  {
    QuietStep(s, At(s.(closed := true), t, ClearClosed), t, ClearClosed);
  }

  lemma StartInv(s: Sys, t: nat, a: Act)
    requires Inv(s) && PcOf(s, t).Idle?
    ensures Inv(Start(s, t, a)) && Grows(s, Start(s, t, a))
  {
    var s' := Start(s, t, a);
    if s' != s {
      match a
      case StartIssue(i) => StartIssueInv(s, t, i);
      case DoCancel(g, owner, now) => CancelInv(s, t, g, owner, now);
      case StartInvalidate(device) => SweepInv(s, t, device);
      case StartClear => CloseInv(s, t);
      case _ => AtInv(s, t, PcOf(s', t));
    }
  }

  lemma StepInv(s: Sys, t: nat, a: Act)
    requires Inv(s)
    ensures Inv(Step(s, t, a)) && Grows(s, Step(s, t, a))
  {
    var pc := PcOf(s, t);
    if pc.Idle? {
      StartInv(s, t, a);
    } else if Issuing(pc) {
      IssueStepInv(s, t, a);
    } else if pc.DeviceSwept? {
      BumpInv(s, t, pc.device);
    } else if pc.MatchStart? || pc.MatchOpen? || pc.MatchGeneration? {
      MatchStepInv(s, t, a);
    } else if pc.ClearClosed? || pc.ClearBumped? {
      ClearStepInv(s, t, a);
    } else if pc.BeginStart? || pc.BeginLocked? || pc.BeginOpen? || pc.BeginGeneration? || pc.BeginReady? {
      BeginStepInv(s, t, a);
    } else {
      FinishStepInv(s, t, a);
    }
  }

  lemma {:induction false} RunInv(s: Sys, turns: seq<Turn>)
    requires Inv(s)
    ensures Inv(Run(s, turns))
    decreases |turns|
  {
    if turns != [] {
      StepInv(s, turns[0].thread, turns[0].act);
      RunInv(Step(s, turns[0].thread, turns[0].act), turns[1..]);
    }
  }
}
