/**
 What the grant registry promises under every schedule of overlapping calls.
 */
module LoginGrantGuarantees {
  import opened Basics
  import opened TokenFormat
  import opened LoginGrants
  import opened LoginGrantRuns

  lemma ReachableInv(turns: seq<Turn>)
    ensures Inv(Run(INIT, turns))
  {
    InitInv();
    RunInv(INIT, turns);
  }

  // ---------------------------------------------------------------------
  // One active grant per device, used once
  // ---------------------------------------------------------------------

  /** A device has at most one active grant, and its index entry names that one. */
  lemma OneActiveGrantPerDevice(turns: seq<Turn>, a: Uuid, b: Uuid)
    ensures var r := Run(INIT, turns).reg;
            && (a in r.grants && r.grants[a].state.Active? ==>
                  r.grants[a].owner in r.active && r.active[r.grants[a].owner] == a)
            && (a in r.grants && b in r.grants && r.grants[a].owner == r.grants[b].owner ==>
                  r.grants[a].state.Active? && r.grants[b].state.Active? ==> a == b)
  {
    ReachableInv(turns);
  }

  /**
   The index and the active grants correspond one to one, except for the entries a finish has
   spoilt: exactly those whose grant was ended by a consumption nobody was handed.
   */
  lemma CorrespondsUnlessSpoilt(turns: seq<Turn>)
    ensures var s := Run(INIT, turns);
            Corresponds(s.reg) <==> forall d | d in s.reg.active :: s.reg.active[d] !in s.h.spoilt
  {
    ReachableInv(turns);
    var s := Run(INIT, turns);
    forall d | d in s.reg.active
      ensures s.reg.grants[s.reg.active[d]].state.Active? <==> s.reg.active[d] !in s.h.spoilt
    {
      assert EntryInv(s, s.reg.active[d]);
    }
  }

  /** Every finish is called with a consumption that a begin has handed out. */
  predicate FinishesHanded(s: Sys, turns: seq<Turn>)
    decreases |turns|
  {
    turns != [] ==>
      && (PcOf(s, turns[0].thread).Idle? && turns[0].act.StartFinish? ==> turns[0].act.c in s.h.handed)
      && FinishesHanded(Step(s, turns[0].thread, turns[0].act), turns[1..])
  }

  predicate Finishing(pc: Pc) {
    pc.FinishStart? || pc.FinishLocked? || pc.FinishGeneration? || pc.FinishEpoch? || pc.FinishReady?
  }

  /** Nothing is spoilt, and the finishes under way will spoil nothing. */
  predicate Unspoilt(s: Sys) {
    s.h.spoilt == {} && forall t | t in s.pcs && Finishing(s.pcs[t]) :: s.pcs[t].f.c in s.h.handed
  }

  /** A step moves one thread, and only a finish that commits spoils anything. */
  predicate Moves(s: Sys, s': Sys, t: nat) {
    && (s' == s || s'.pcs == s.pcs[t := PcOf(s', t)])
    && s.h.handed <= s'.h.handed && s'.h.spoilt == s.h.spoilt
  }

  lemma MovesUnspoilt(s: Sys, s': Sys, t: nat)
    requires Unspoilt(s) && Moves(s, s', t) && (Finishing(PcOf(s', t)) ==> PcOf(s', t).f.c in s'.h.handed)
    ensures Unspoilt(s')
  {
  }

  lemma StartUnspoilt(s: Sys, t: nat, a: Act)
    requires Unspoilt(s) && PcOf(s, t).Idle? && (a.StartFinish? ==> a.c in s.h.handed)
    ensures Unspoilt(Start(s, t, a))
  {
    var s' := Start(s, t, a);
    assert Moves(s, s', t);
    MovesUnspoilt(s, s', t);
  }

  lemma IssueUnspoilt(s: Sys, t: nat, a: Act)
    requires Unspoilt(s) && Issuing(PcOf(s, t))
    ensures Unspoilt(Step(s, t, a))
  {
    var s' := Step(s, t, a);
    assert Moves(s, s', t) && !Finishing(PcOf(s', t));
    MovesUnspoilt(s, s', t);
  }

  lemma FinishMoves(s: Sys, t: nat, a: Act)
    requires Finishing(PcOf(s, t)) && !PcOf(s, t).FinishReady?
    ensures var s' := Step(s, t, a);
            Moves(s, s', t) && (Finishing(PcOf(s', t)) ==> PcOf(s', t).f == PcOf(s, t).f)
  {
  }

  lemma FinishCommitMoves(s: Sys, t: nat, a: Act)
    requires PcOf(s, t).FinishReady?
    requires var g := PcOf(s, t).f.c.grantId; g in s.reg.grants ==> !s.reg.grants[g].state.Active?
    ensures Moves(s, Step(s, t, a), t) && PcOf(Step(s, t, a), t).Idle?
  {
  }

  lemma FinishUnspoilt(s: Sys, t: nat, a: Act)
    requires Unspoilt(s) && Finishing(PcOf(s, t)) && HandedInv(s)
    requires var g := PcOf(s, t).f.c.grantId; g in s.reg.grants ==> EntryInv(s, g)
    ensures Unspoilt(Step(s, t, a))
  {
    if PcOf(s, t).FinishReady? {
      FinishCommitMoves(s, t, a);
    } else {
      FinishMoves(s, t, a);
    }
    MovesUnspoilt(s, Step(s, t, a), t);
  }

  lemma BeginMoves(s: Sys, t: nat, a: Act)
    requires PcOf(s, t).BeginStart? || PcOf(s, t).BeginLocked? || PcOf(s, t).BeginGeneration?
    ensures Moves(s, Step(s, t, a), t) && !Finishing(PcOf(Step(s, t, a), t))
  {
  }

  lemma BeginLookupMoves(s: Sys, t: nat, a: Act)
    requires PcOf(s, t).BeginOpen?
    ensures Moves(s, Step(s, t, a), t) && !Finishing(PcOf(Step(s, t, a), t))
  {
    assert Step(s, t, a) == LookupStep(s, t, PcOf(s, t).b);
  }

  lemma BeginCommitMoves(s: Sys, t: nat, a: Act)
    requires PcOf(s, t).BeginReady?
    ensures Moves(s, Step(s, t, a), t) && !Finishing(PcOf(Step(s, t, a), t))
  {
  }

  lemma MatchMoves(s: Sys, t: nat, a: Act)
    requires PcOf(s, t).MatchStart? || PcOf(s, t).MatchOpen? || PcOf(s, t).MatchGeneration?
    ensures Moves(s, Step(s, t, a), t) && !Finishing(PcOf(Step(s, t, a), t))
  {
    match PcOf(s, t)
    case MatchStart(m) => assert Step(s, t, a) == At(s, t, if s.closed then Idle else MatchOpen(m));
    case MatchOpen(m) =>
    case MatchGeneration(m, seen) => assert Step(s, t, a) == MatchStep(s, t, m, seen);
  }

  lemma BumpMoves(s: Sys, t: nat, a: Act)
    requires PcOf(s, t).DeviceSwept? || PcOf(s, t).ClearClosed? || PcOf(s, t).ClearBumped?
    ensures Moves(s, Step(s, t, a), t) && !Finishing(PcOf(Step(s, t, a), t))
  {
  }

  lemma OtherUnspoilt(s: Sys, t: nat, a: Act)
    requires Unspoilt(s) && !PcOf(s, t).Idle? && !Issuing(PcOf(s, t)) && !Finishing(PcOf(s, t))
    ensures Unspoilt(Step(s, t, a))
  {
    var pc := PcOf(s, t);
    if pc.BeginStart? || pc.BeginLocked? || pc.BeginGeneration? {
      BeginMoves(s, t, a);
    } else if pc.BeginOpen? {
      BeginLookupMoves(s, t, a);
    } else if pc.BeginReady? {
      BeginCommitMoves(s, t, a);
    } else if pc.MatchStart? || pc.MatchOpen? || pc.MatchGeneration? {
      MatchMoves(s, t, a);
    } else {
      BumpMoves(s, t, a);
    }
    MovesUnspoilt(s, Step(s, t, a), t);
  }

  lemma StepUnspoilt(s: Sys, t: nat, a: Act)
    requires Inv(s) && Unspoilt(s) && (PcOf(s, t).Idle? && a.StartFinish? ==> a.c in s.h.handed)
    ensures Unspoilt(Step(s, t, a))
  {
    var pc := PcOf(s, t);
    if pc.Idle? {
      StartUnspoilt(s, t, a);
    } else if Issuing(pc) {
      IssueUnspoilt(s, t, a);
    } else if Finishing(pc) {
      FinishUnspoilt(s, t, a);
    } else {
      OtherUnspoilt(s, t, a);
    }
  }

  /** When callers finish only what they were handed, index and active grants correspond one to one throughout. */
  lemma {:induction false} HandedFinishesKeepTheIndex(s: Sys, turns: seq<Turn>)
    requires Inv(s) && Unspoilt(s) && FinishesHanded(s, turns)
    ensures Corresponds(Run(s, turns).reg) && Unspoilt(Run(s, turns))
    decreases |turns|
  {
    if turns != [] {
      StepUnspoilt(s, turns[0].thread, turns[0].act);
      StepInv(s, turns[0].thread, turns[0].act);
      HandedFinishesKeepTheIndex(Step(s, turns[0].thread, turns[0].act), turns[1..]);
    }
  }

  /** No grant is begun twice or finished successfully twice, and none is finished that was not begun. */
  lemma UsedAtMostOnce(turns: seq<Turn>, g: Uuid)
    ensures var h := Run(INIT, turns).h; h.began[g] <= 1 && h.finished[g] <= h.began[g]
  {
    ReachableInv(turns);
    assert OnceInv(Run(INIT, turns).h);
  }

  /** Every grant and every consumption carries process epoch zero: the epoch moves only after the registry closes. */
  lemma GrantsAreOfEpochZero(turns: seq<Turn>, g: Uuid, c: Consumption)
    ensures var s := Run(INIT, turns);
            && (g in s.reg.grants ==> s.reg.grants[g].epoch == 0)
            && (c in s.h.handed ==> c.epoch == 0)
  {
    ReachableInv(turns);
    var s := Run(INIT, turns);
    if g in s.reg.grants {
      assert EntryInv(s, g);
    }
  }

  // ---------------------------------------------------------------------
  // What becomes of a grant
  // ---------------------------------------------------------------------

  /** Why a step takes a grant away: it has expired, it is replaced, cancelled or swept, or the registry is cleared. */
  predicate Takes(s: Sys, t: nat, a: Act, g: Uuid)
    requires g in s.reg.grants
  {
    var e := s.reg.grants[g];
    match PcOf(s, t)
    case Idle =>
      s.lock.None? && (match a
                       case DoCancel(x, owner, now) =>
                         e.expiresAt <= now || (x == g && owner == e.owner && e.state.Active?)
                       case StartInvalidate(device) => device == e.owner
                       case _ => false)
    case IssueOpen(i, _, _, _) => e.expiresAt <= i.now || (i.owner == e.owner && e.state.Active?)
    case BeginOpen(b) => e.expiresAt <= b.now
    case ClearBumped => s.lock.None?
    case _ => false
  }

  /** The state a step leaves a grant in that it does not take. */
  function StateAfter(s: Sys, t: nat, g: Uuid): GrantStatus
    requires g in s.reg.grants
  {
    match PcOf(s, t)
    case BeginReady(b, generation, _, epoch) =>
      if b.g == g && BeginSucceeds(s, b, generation, epoch) then Consuming else s.reg.grants[g].state
    case FinishReady(f, generation, _, epoch, closed) =>
      if f.c.grantId != g then s.reg.grants[g].state
      else if f.succeeded && Completes(s.reg.grants[g], f.c, generation, epoch, closed, f.now) then Consumed
      else Failed
    case _ => s.reg.grants[g].state
  }

  /** What a step does to one grant, whosever it is. */
  predicate Fate(s: Sys, s': Sys, t: nat, a: Act, g: Uuid) {
    if g in s.reg.grants then
      && (g !in s'.reg.grants <==> Takes(s, t, a, g))
      && (g in s'.reg.grants ==> s'.reg.grants[g] == s.reg.grants[g].(state := StateAfter(s, t, g)))
    else
      var pc := PcOf(s, t);
      && (g in s'.reg.grants <==> pc.IssueOpen? && pc.i.g == g)
      && (g in s'.reg.grants ==>
            s'.reg.grants[g]
              == Entry(pc.i.hash, pc.i.owner, pc.i.revision, pc.generation, pc.epoch, pc.i.expiresAt, Active))
  }

  lemma StartFate(s: Sys, t: nat, a: Act, g: Uuid)
    requires PcOf(s, t).Idle?
    ensures Fate(s, Start(s, t, a), t, a, g)
  {
    match a
    case DoCancel(x, owner, now) => CancelTakes(s.reg, x, owner, now);
    case StartInvalidate(device) => SweepTakes(s.reg, device);
    case _ =>
  }

  lemma IssueFate(s: Sys, t: nat, a: Act, g: Uuid)
    requires PcOf(s, t).IssueOpen? && Indexed(s.reg, s.h.spoilt) && PcOf(s, t).i.g !in s.reg.grants
    ensures Fate(s, Step(s, t, a), t, a, g)
  {
    var pc := PcOf(s, t);
    var e := Entry(pc.i.hash, pc.i.owner, pc.i.revision, pc.generation, pc.epoch, pc.i.expiresAt, Active);
    InsertTakes(s.reg, s.h.spoilt, pc.i.g, e, pc.i.now);
    assert Step(s, t, a) == InsertStep(s, t, pc.i, pc.generation, pc.seen, pc.epoch);
  }

  lemma LookupFate(s: Sys, t: nat, a: Act, g: Uuid)
    requires PcOf(s, t).BeginOpen?
    ensures Fate(s, Step(s, t, a), t, a, g)
  {
    CleanupTakes(s.reg, PcOf(s, t).b.now);
    assert Step(s, t, a) == LookupStep(s, t, PcOf(s, t).b);
  }

  lemma BeginFate(s: Sys, t: nat, a: Act, b: BeginCall, generation: nat, seen: nat, epoch: nat, g: Uuid)
    requires PcOf(s, t) == BeginReady(b, generation, seen, epoch)
    ensures Fate(s, BeginStep(s, t, b, generation, seen, epoch), t, a, g)
  {
  }

  lemma FinishFate(s: Sys, t: nat, a: Act, f: FinishCall, generation: nat, seen: nat, epoch: nat, closed: bool, g: Uuid)
    requires PcOf(s, t) == FinishReady(f, generation, seen, epoch, closed)
    ensures Fate(s, FinishStep(s, t, f, generation, seen, epoch, closed), t, a, g)
  {
  }

  /** The other steps leave the table as it is, or clear it. */
  lemma OtherFate(s: Sys, t: nat, a: Act, g: Uuid)
    requires var pc := PcOf(s, t);
             !pc.Idle? && !pc.IssueOpen? && !pc.BeginOpen? && !pc.BeginReady? && !pc.FinishReady?
    ensures Fate(s, Step(s, t, a), t, a, g)
  {
  }

  /**
   In every schedule a step does to a grant exactly this: it takes it if and only if there is one of
   the reasons above, moves its state if and only if it begins or finishes that very grant, and leaves
   every grant of every other device alone.
   */
  lemma EveryGrantHasItsFate(turns: seq<Turn>, t: nat, a: Act, g: Uuid)
    ensures var s := Run(INIT, turns); Fate(s, Step(s, t, a), t, a, g)
  {
    ReachableInv(turns);
    var s := Run(INIT, turns);
    var pc := PcOf(s, t);
    if pc.Idle? {
      StartFate(s, t, a, g);
    } else if pc.IssueOpen? {
      assert PcInv(s, pc);
      IssueFate(s, t, a, g);
    } else if pc.BeginOpen? {
      LookupFate(s, t, a, g);
    } else if pc.BeginReady? {
      BeginFate(s, t, a, pc.b, pc.generation, pc.seen, pc.epoch, g);
    } else if pc.FinishReady? {
      FinishFate(s, t, a, pc.f, pc.generation, pc.seen, pc.epoch, pc.closed, g);
    } else {
      OtherFate(s, t, a, g);
    }
  }

  /** An invalidation leaves every grant of another device as it was. */
  lemma OthersKeepTheirGrants(turns: seq<Turn>, t: nat, device: Uuid, g: Uuid)
    requires PcOf(Run(INIT, turns), t).Idle?
    requires g in Run(INIT, turns).reg.grants && Run(INIT, turns).reg.grants[g].owner != device
    ensures var s := Run(INIT, turns);
            var s' := Step(s, t, StartInvalidate(device));
            && g in s'.reg.grants && s'.reg.grants[g] == s.reg.grants[g]
            && (s.reg.grants[g].owner in s.reg.active ==>
                  s.reg.grants[g].owner in s'.reg.active
                  && s'.reg.active[s.reg.grants[g].owner] == s.reg.active[s.reg.grants[g].owner])
  {
    StartFate(Run(INIT, turns), t, StartInvalidate(device), g);
    SweepTakes(Run(INIT, turns).reg, device);
  }

  // ---------------------------------------------------------------------
  // Generations
  // ---------------------------------------------------------------------

  lemma SameResidue(a: nat, b: nat)
    ensures a % U64_MODULUS == b % U64_MODULUS <==> (a - b) % U64_MODULUS == 0
  {
  }

  lemma SmallResidue(a: nat, b: nat)
    requires a < U64_MODULUS && b < U64_MODULUS
    ensures a % U64_MODULUS == b % U64_MODULUS <==> a == b
  {
  }

  /** What is known of a begin about to commit. */
  lemma BeginReads(turns: seq<Turn>, t: nat, b: BeginCall, generation: nat, seen: nat, epoch: nat)
    requires PcOf(Run(INIT, turns), t) == BeginReady(b, generation, seen, epoch)
    ensures var s := Run(INIT, turns);
            && b.g in s.reg.grants && b.g in s.h.born
            && var e := s.reg.grants[b.g];
               && e.generation == s.h.born[b.g] % U64_MODULUS && e.epoch == 0 && generation == seen % U64_MODULUS
               && s.h.born[b.g] <= Count(s.h.bumps, e.owner)
               && Count(b.from, e.owner) <= seen <= Count(s.h.bumps, e.owner)
  {
    ReachableInv(turns);
    var s := Run(INIT, turns);
    assert PcInv(s, s.pcs[t]) && EntryInv(s, b.g);
  }

  /**
   When a begin decides, its token, the grant's state and its expiry must hold, and the number of
   times the owner was invalidated between the grant's generation read and the begin's own read
   must be a multiple of 2^64. Nothing else is asked, and nothing less.
   */
  lemma BeginDecides(turns: seq<Turn>, t: nat, b: BeginCall, generation: nat, seen: nat, epoch: nat)
    requires PcOf(Run(INIT, turns), t) == BeginReady(b, generation, seen, epoch)
    ensures var s := Run(INIT, turns);
            && b.g in s.reg.grants && b.g in s.h.born
            && var e := s.reg.grants[b.g];
               (BeginSucceeds(s, b, generation, epoch) <==>
                  e.hash == b.hash && e.state.Active? && e.expiresAt > b.now && epoch == 0
                  && (seen - s.h.born[b.g]) % U64_MODULUS == 0)
  {
    BeginReads(turns, t, b, generation, seen, epoch);
    SameResidue(seen, Run(INIT, turns).h.born[b.g]);
  }

  /**
   A begin that succeeds read the generation its grant was born in, as long as its owner was
   invalidated fewer than 2^64 times. So a call that starts after an invalidation cannot begin an
   older grant, not even one whose issue read the old generation and inserted after the sweep.
   */
  lemma StaleGrantNeverBegins(turns: seq<Turn>, t: nat, b: BeginCall, generation: nat, seen: nat, epoch: nat)
    requires PcOf(Run(INIT, turns), t) == BeginReady(b, generation, seen, epoch)
    requires BeginSucceeds(Run(INIT, turns), b, generation, epoch)
    ensures var s := Run(INIT, turns);
            && b.g in s.h.born
            && var owner, born := s.reg.grants[b.g].owner, s.h.born[b.g];
               Count(s.h.bumps, owner) < U64_MODULUS ==> seen == born && Count(b.from, owner) <= born
  {
    BeginReads(turns, t, b, generation, seen, epoch);
    var s := Run(INIT, turns);
    if Count(s.h.bumps, s.reg.grants[b.g].owner) < U64_MODULUS {
      SmallResidue(seen, s.h.born[b.g]);
    }
  }

  lemma HandedReads(turns: seq<Turn>, c: Consumption)
    requires c in Run(INIT, turns).h.handed
    ensures var h := Run(INIT, turns).h;
            && c.grantId in h.born && c.generation == h.born[c.grantId] % U64_MODULUS
            && h.born[c.grantId] <= Count(h.bumps, c.owner)
  {
    ReachableInv(turns);
  }

  lemma FinishReads(turns: seq<Turn>, t: nat, f: FinishCall, generation: nat, seen: nat, epoch: nat, closed: bool)
    requires PcOf(Run(INIT, turns), t) == FinishReady(f, generation, seen, epoch, closed)
    ensures var h := Run(INIT, turns).h;
            generation == seen % U64_MODULUS && Count(f.from, f.c.owner) <= seen <= Count(h.bumps, f.c.owner)
  {
    ReachableInv(turns);
    var s := Run(INIT, turns);
    assert PcInv(s, s.pcs[t]);
  }

  /** Of a grant being consumed, exactly one consumption agrees with it, and that one was handed out. */
  lemma AgreesIffHanded(turns: seq<Turn>, c: Consumption)
    requires var r := Run(INIT, turns).reg; c.grantId in r.grants && r.grants[c.grantId].state.Consuming?
    ensures var s := Run(INIT, turns); c == ConsumptionOf(s.reg, c.grantId) <==> c in s.h.handed
  {
    ReachableInv(turns);
    assert EntryInv(Run(INIT, turns), c.grantId);
  }

  lemma GrantReads(turns: seq<Turn>, g: Uuid)
    requires g in Run(INIT, turns).reg.grants
    ensures var s := Run(INIT, turns);
            && g in s.h.born && s.reg.grants[g].generation == s.h.born[g] % U64_MODULUS && s.reg.grants[g].epoch == 0
            && s.h.born[g] <= Count(s.h.bumps, s.reg.grants[g].owner)
  {
    ReachableInv(turns);
    assert EntryInv(Run(INIT, turns), g);
  }

  /** The same for a consumption that finishes successfully; and it is one that was handed out. */
  lemma StaleConsumptionNeverFinishes(turns: seq<Turn>, t: nat, f: FinishCall, generation: nat, seen: nat,
                                      epoch: nat, closed: bool)
    requires PcOf(Run(INIT, turns), t) == FinishReady(f, generation, seen, epoch, closed)
    requires f.c.grantId in Run(INIT, turns).reg.grants
    requires Completes(Run(INIT, turns).reg.grants[f.c.grantId], f.c, generation, epoch, closed, f.now)
    ensures var s := Run(INIT, turns);
            && f.c.grantId in s.h.born && f.c in s.h.handed
            && var born := s.h.born[f.c.grantId];
               Count(s.h.bumps, f.c.owner) < U64_MODULUS ==> seen == born && Count(f.from, f.c.owner) <= born
  {
    FinishReads(turns, t, f, generation, seen, epoch, closed);
    GrantReads(turns, f.c.grantId);
    AgreesIffHanded(turns, f.c);
    var s := Run(INIT, turns);
    if Count(s.h.bumps, f.c.owner) < U64_MODULUS {
      SmallResidue(seen, s.h.born[f.c.grantId]);
    }
  }

  /**
   When a finish decides, its consumption must have been handed out and its grant must still be
   consuming and unexpired, the registry was open when asked, and the invalidations since the
   grant's generation read are a multiple of 2^64. The other comparisons never decide.
   */
  lemma FinishDecides(turns: seq<Turn>, t: nat, f: FinishCall, generation: nat, seen: nat, epoch: nat, closed: bool)
    requires PcOf(Run(INIT, turns), t) == FinishReady(f, generation, seen, epoch, closed)
    requires f.c.grantId in Run(INIT, turns).reg.grants
    ensures var s := Run(INIT, turns);
            && f.c.grantId in s.h.born
            && var e := s.reg.grants[f.c.grantId];
               (Completes(e, f.c, generation, epoch, closed, f.now) <==>
                  f.c in s.h.handed && e.state.Consuming? && e.expiresAt > f.now && !closed && epoch == 0
                  && (seen - s.h.born[f.c.grantId]) % U64_MODULUS == 0)
  {
    FinishReads(turns, t, f, generation, seen, epoch, closed);
    GrantReads(turns, f.c.grantId);
    if Run(INIT, turns).reg.grants[f.c.grantId].state.Consuming? {
      AgreesIffHanded(turns, f.c);
    }
    SameResidue(seen, Run(INIT, turns).h.born[f.c.grantId]);
  }

  lemma MatchReadsCurrent(turns: seq<Turn>, t: nat, m: MatchCall, seen: nat)
    requires PcOf(Run(INIT, turns), t) == MatchGeneration(m, seen)
    ensures var h := Run(INIT, turns).h;
            m.generation == seen % U64_MODULUS && Count(m.from, m.device) <= seen <= Count(h.bumps, m.device)
  {
    ReachableInv(turns);
    var s := Run(INIT, turns);
    assert PcInv(s, s.pcs[t]);
  }

  /**
   An authorization check passes exactly when it finds the registry open, then the generation it was
   given, that is, invalidations of the device that agree with it modulo 2^64, and then the epoch.
   */
  lemma CheckDecides(turns: seq<Turn>, t: nat, a: Act, m: MatchCall)
    requires Count(m.from, m.device) <= Count(Run(INIT, turns).h.bumps, m.device)
    ensures var s := Run(INIT, turns);
            var s', bumps := Step(s, t, a), Count(s.h.bumps, m.device);
            && (PcOf(s, t) == MatchStart(m) ==> PcOf(s', t) == if s.closed then Idle else MatchOpen(m))
            && (PcOf(s, t) == MatchOpen(m) ==>
                  PcOf(s', t) == if m.generation == bumps % U64_MODULUS then MatchGeneration(m, bumps) else Idle)
            && forall seen | PcOf(s, t) == MatchGeneration(m, seen) ::
                 s'.h.passes == if s.epoch != m.epoch then s.h.passes
                                else s.h.passes
                                     + {Pass(MatchPass, m.device, m.generation, Count(m.from, m.device), seen)}
  {
    ReachableInv(turns);
    assert Count(Run(INIT, turns).gens, m.device) == Count(Run(INIT, turns).h.bumps, m.device) % U64_MODULUS;
  }

  /** And for an authorization check on what a consumption carries. */
  lemma StaleAuthorizationNeverMatches(turns: seq<Turn>, t: nat, m: MatchCall, seen: nat, c: Consumption)
    requires PcOf(Run(INIT, turns), t) == MatchGeneration(m, seen)
    requires c in Run(INIT, turns).h.handed && m.device == c.owner && m.generation == c.generation
    ensures var s := Run(INIT, turns);
            && c.grantId in s.h.born
            && var born := s.h.born[c.grantId];
               Count(s.h.bumps, c.owner) < U64_MODULUS ==> seen == born && Count(m.from, c.owner) <= born
  {
    MatchReadsCurrent(turns, t, m, seen);
    HandedReads(turns, c);
    var s := Run(INIT, turns);
    if Count(s.h.bumps, c.owner) < U64_MODULUS {
      SmallResidue(seen, s.h.born[c.grantId]);
    }
  }

  /** Of all recorded successes, none read a generation other than the one it succeeded on. */
  lemma PassesReadWhatTheyCarry(turns: seq<Turn>, p: Pass)
    requires p in Run(INIT, turns).h.passes
    ensures p.start <= p.seen <= Count(Run(INIT, turns).h.bumps, p.device) && p.generation == p.seen % U64_MODULUS
  {
    ReachableInv(turns);
    assert PassInv(Run(INIT, turns).h, p);
  }

  // ---------------------------------------------------------------------
  // A cleared registry
  // ---------------------------------------------------------------------

  /** The checks already past the closed flag carry what a grant carries. */
  predicate ChecksOfEpochZero(s: Sys) {
    forall t | t in s.pcs :: (s.pcs[t].MatchOpen? || s.pcs[t].MatchGeneration?) ==> s.pcs[t].m.epoch == 0
  }

  lemma {:induction false} EpochsGrow(s: Sys, turns: seq<Turn>)
    requires Inv(s)
    ensures s.h.epochBumps <= Run(s, turns).h.epochBumps
    decreases |turns|
  {
    if turns != [] {
      StepInv(s, turns[0].thread, turns[0].act);
      EpochsGrow(Step(s, turns[0].thread, turns[0].act), turns[1..]);
    }
  }

  /** Nothing more becomes of any grant, and no check passes. */
  predicate Inert(s: Sys, s': Sys) {
    && s'.h.cleared && SameFates(s.h, s'.h)
    && (ChecksOfEpochZero(s) ==> ChecksOfEpochZero(s'))
    && (ChecksOfEpochZero(s) && s.h.epochBumps < U64_MODULUS ==> s'.h.passes == s.h.passes)
  }

  lemma InertMove(s: Sys, s': Sys, t: nat)
    requires s'.h.cleared && SameFates(s.h, s'.h) && s'.h.passes == s.h.passes
    requires s' == s || s'.pcs == s.pcs[t := PcOf(s', t)]
    requires !PcOf(s', t).MatchOpen? && !PcOf(s', t).MatchGeneration?
    ensures Inert(s, s')
  {
  }

  lemma ClearedStart(s: Sys, t: nat, a: Act)
    requires s.h.cleared && PcOf(s, t).Idle?
    ensures Inert(s, Start(s, t, a))
  {
    InertMove(s, Start(s, t, a), t);
  }

  lemma ClearedIssue(s: Sys, t: nat, a: Act)
    requires s.h.cleared && s.closed && Issuing(PcOf(s, t)) && !PcOf(s, t).IssueOpen?
    ensures Inert(s, Step(s, t, a))
  {
  }

  lemma ClearedBegin(s: Sys, t: nat, a: Act)
    requires s.h.cleared && s.closed && (PcOf(s, t).BeginStart? || PcOf(s, t).BeginLocked?)
    ensures Inert(s, Step(s, t, a))
  {
  }

  lemma ClearedFinish(s: Sys, t: nat, a: Act)
    requires s.h.cleared && s.closed && s.reg == NO_GRANTS
    requires var pc := PcOf(s, t);
             pc.FinishStart? || pc.FinishLocked? || pc.FinishGeneration? || pc.FinishEpoch? || pc.FinishReady?
    ensures Inert(s, Step(s, t, a))
  {
  }

  lemma ClearedMatch(s: Sys, t: nat, a: Act)
    requires s.h.cleared && s.closed && s.h.epochBumps > 0 && s.epoch == s.h.epochBumps % U64_MODULUS
    requires PcOf(s, t).MatchStart? || PcOf(s, t).MatchOpen? || PcOf(s, t).MatchGeneration?
    ensures Inert(s, Step(s, t, a))
  {
    if s.h.epochBumps < U64_MODULUS {
      SmallResidue(s.h.epochBumps, 0);
    }
  }

  lemma ClearedOther(s: Sys, t: nat, a: Act)
    requires s.h.cleared && (PcOf(s, t).DeviceSwept? || PcOf(s, t).ClearClosed? || PcOf(s, t).ClearBumped?)
    ensures Inert(s, Step(s, t, a))
  {
  }

  lemma ClearedStep(s: Sys, t: nat, a: Act)
    requires Inv(s) && s.h.cleared
    ensures Inert(s, Step(s, t, a))
  {
    var pc := PcOf(s, t);
    if pc.Idle? {
      ClearedStart(s, t, a);
    } else {
      assert PcInv(s, pc);
      if Issuing(pc) {
        ClearedIssue(s, t, a);
      } else if pc.BeginStart? || pc.BeginLocked? {
        ClearedBegin(s, t, a);
      } else if pc.MatchStart? || pc.MatchOpen? || pc.MatchGeneration? {
        ClearedMatch(s, t, a);
      } else if pc.DeviceSwept? || pc.ClearClosed? || pc.ClearBumped? {
        ClearedOther(s, t, a);
      } else {
        ClearedFinish(s, t, a);
      }
    }
  }

  /**
   Once a clear has returned, whatever calls were in flight: the table and the index stay empty,
   no grant is issued, begun or finished, and no authorization a grant carries passes a check
   again (fewer than 2^64 clears).
   */
  lemma {:induction false} ClearedForGood(s: Sys, turns: seq<Turn>)
    requires Inv(s) && s.h.cleared
    ensures var s' := Run(s, turns);
            && s'.reg == NO_GRANTS && SameFates(s.h, s'.h)
            && (ChecksOfEpochZero(s) && s'.h.epochBumps < U64_MODULUS ==> s'.h.passes == s.h.passes)
    decreases |turns|
  {
    if turns != [] {
      var s1 := Step(s, turns[0].thread, turns[0].act);
      ClearedStep(s, turns[0].thread, turns[0].act);
      StepInv(s, turns[0].thread, turns[0].act);
      ClearedForGood(s1, turns[1..]);
      EpochsGrow(s1, turns[1..]);
    }
  }

  // ---------------------------------------------------------------------
  // The window between a read and its commit
  // ---------------------------------------------------------------------

  lemma {:induction false} RunOneMore(s: Sys, turns: seq<Turn>, t: nat, a: Act)
    ensures Run(s, turns + [Turn(t, a)]) == Step(Run(s, turns), t, a)
    decreases |turns|
  {
    if turns == [] {
      assert turns + [Turn(t, a)] == [Turn(t, a)];
      assert [Turn(t, a)][1..] == [];
    } else {
      var more := turns + [Turn(t, a)];
      assert more[0] == turns[0] && more[1..] == turns[1..] + [Turn(t, a)];
      RunOneMore(Step(s, turns[0].thread, turns[0].act), turns[1..], t, a);
    }
  }

  function RaceIssue(g: Uuid, token: string, owner: Uuid): IssueCall {
    IssueCall(g, TokenHash(token), owner, "", 0, 1)
  }

  /** An issue that has read generation 0, and an invalidation that has swept and not yet bumped. */
  function AfterSweep(i: IssueCall): Sys {
    INIT.(pcs := map[1 := IssueReady(i, 0, 0, 0), 2 := DeviceSwept(i.owner)], h := INIT.h.(ids := {i.g}))
  }

  lemma ReachSweep(i: IssueCall) returns (turns: seq<Turn>)
    requires ValidLifetime(i)
    ensures Run(INIT, turns) == AfterSweep(i)
  {
    turns := [];
    var issued := INIT.(h := INIT.h.(ids := {i.g}));
    RunOneMore(INIT, turns, 1, StartIssue(i));
    turns := turns + [Turn(1, StartIssue(i))];
    assert Run(INIT, turns) == At(issued, 1, IssueStart(i));
    RunOneMore(INIT, turns, 1, StartClear);
    turns := turns + [Turn(1, StartClear)];
    assert Run(INIT, turns) == At(issued, 1, IssueGeneration(i, 0, 0));
    RunOneMore(INIT, turns, 1, StartClear);
    turns := turns + [Turn(1, StartClear)];
    assert Run(INIT, turns) == At(issued, 1, IssueReady(i, 0, 0, 0));
    RunOneMore(INIT, turns, 2, StartInvalidate(i.owner));
    turns := turns + [Turn(2, StartInvalidate(i.owner))];
    assert SweepDevice(NO_GRANTS, i.owner) == NO_GRANTS;
  }

  function RaceEntry(i: IssueCall): Entry {
    Entry(i.hash, i.owner, i.revision, 0, 0, i.expiresAt, Active)
  }

  /** The issue inserts after the sweep. */
  function AfterInsert(i: IssueCall): Sys {
    INIT.(reg := Registry(map[i.g := RaceEntry(i)], map[i.owner := i.g]),
          pcs := map[1 := Idle, 2 := DeviceSwept(i.owner)], h := INIT.h.(ids := {i.g}, born := map[i.g := 0]))
  }

  lemma ReachInsert(i: IssueCall) returns (turns: seq<Turn>)
    requires ValidLifetime(i)
    ensures Run(INIT, turns) == AfterInsert(i)
  {
    turns := ReachSweep(i);
    RunOneMore(INIT, turns, 1, StartClear);
    turns := turns + [Turn(1, StartClear)];
    assert Run(INIT, turns) == At(AfterSweep(i).(lock := Some(1)), 1, IssueLocked(i, 0, 0, 0));
    RunOneMore(INIT, turns, 1, StartClear);
    turns := turns + [Turn(1, StartClear)];
    assert Run(INIT, turns) == At(AfterSweep(i).(lock := Some(1)), 1, IssueOpen(i, 0, 0, 0));
    RunOneMore(INIT, turns, 1, StartClear);
    turns := turns + [Turn(1, StartClear)];
    assert Cleanup(NO_GRANTS, i.now) == NO_GRANTS;
    assert InsertGrant(NO_GRANTS, i.g, RaceEntry(i)) == AfterInsert(i).reg;
    assert Run(INIT, turns).pcs == AfterInsert(i).pcs;
  }

  function RaceBegin(i: IssueCall, token: string): BeginCall {
    BeginCall(i.g, TokenHash(token), i.now, map[])
  }

  lemma ReachLocked(i: IssueCall, token: string) returns (turns: seq<Turn>)
    requires ValidLifetime(i) && WellFormedToken(token)
    ensures Run(INIT, turns) == At(AfterInsert(i).(lock := Some(3)), 3, BeginLocked(RaceBegin(i, token)))
  {
    turns := ReachInsert(i);
    RunOneMore(INIT, turns, 3, StartBegin(i.g, token, i.now));
    turns := turns + [Turn(3, StartBegin(i.g, token, i.now))];
    assert Run(INIT, turns) == At(AfterInsert(i), 3, BeginStart(RaceBegin(i, token)));
    RunOneMore(INIT, turns, 3, StartClear);
    turns := turns + [Turn(3, StartClear)];
  }

  lemma ReachLookup(i: IssueCall, token: string) returns (turns: seq<Turn>)
    requires ValidLifetime(i) && WellFormedToken(token)
    ensures Run(INIT, turns) == At(AfterInsert(i).(lock := Some(3)), 3, BeginGeneration(RaceBegin(i, token), 0, 0))
  {
    turns := ReachLocked(i, token);
    RunOneMore(INIT, turns, 3, StartClear);
    turns := turns + [Turn(3, StartClear)];
    RaceLooksUp(i, token);
    RunOneMore(INIT, turns, 3, StartClear);
    turns := turns + [Turn(3, StartClear)];
  }

  lemma RaceLooksUp(i: IssueCall, token: string)
    requires ValidLifetime(i)
    ensures var s := At(AfterInsert(i).(lock := Some(3)), 3, BeginLocked(RaceBegin(i, token)));
            Step(Step(s, 3, StartClear), 3, StartClear)
              == At(AfterInsert(i).(lock := Some(3)), 3, BeginGeneration(RaceBegin(i, token), 0, 0))
  {
    var open := At(AfterInsert(i).(lock := Some(3)), 3, BeginOpen(RaceBegin(i, token)));
    assert Step(At(AfterInsert(i).(lock := Some(3)), 3, BeginLocked(RaceBegin(i, token))), 3, StartClear) == open;
    assert Cleanup(AfterInsert(i).reg, i.now) == AfterInsert(i).reg;
    assert LookupStep(open, 3, RaceBegin(i, token))
        == At(AfterInsert(i).(lock := Some(3)), 3, BeginGeneration(RaceBegin(i, token), 0, 0));
  }

  /** A begin that has read generation 0 and the epoch. */
  function AfterReads(i: IssueCall, token: string): Sys {
    At(AfterInsert(i).(lock := Some(3)), 3, BeginReady(RaceBegin(i, token), 0, 0, 0))
  }

  lemma ReachReads(i: IssueCall, token: string) returns (turns: seq<Turn>)
    requires ValidLifetime(i) && WellFormedToken(token)
    ensures Run(INIT, turns) == AfterReads(i, token)
  {
    turns := ReachLookup(i, token);
    RunOneMore(INIT, turns, 3, StartClear);
    turns := turns + [Turn(3, StartClear)];
  }

  /**
   The window the registry leaves: a begin that read the generation before a bump commits after
   it, on a grant inserted after the sweep. So "no begin after the bump" holds exactly for begins
   whose generation read comes after the bump, as `BeginDecides` says. A finish or a match of the
   consumption handed out here is refused if it reads after the bump; if it read before, it has
   the same window, as the two lemmas below show.
   */
  lemma BeginCanOvertakeBump(g: Uuid, secret: Secret, owner: Uuid) returns (turns: seq<Turn>)
    ensures var s := Run(INIT, turns);
            && PcOf(s, 3) == BeginReady(BeginCall(g, TokenHash(Encode(secret)), 0, map[]), 0, 0, 0)
            && g in s.h.born && s.h.born[g] < Count(s.h.bumps, owner)
            && g in s.reg.grants && s.reg.grants[g].owner == owner
            && BeginSucceeds(s, PcOf(s, 3).b, 0, 0)
  {
    var token := Encode(secret);
    EncodedLength(secret);
    DecodeEncoded(secret);
    var i := RaceIssue(g, token, owner);
    turns := ReachReads(i, token);
    RunOneMore(INIT, turns, 2, StartClear);
    turns := turns + [Turn(2, StartClear)];
    RaceEnds(i, token);
  }

  lemma RaceEnds(i: IssueCall, token: string)
    requires ValidLifetime(i) && i.hash == TokenHash(token)
    ensures var s := Step(AfterReads(i, token), 2, StartClear);
            && PcOf(s, 3) == BeginReady(RaceBegin(i, token), 0, 0, 0)
            && s.h.born == map[i.g := 0] && Count(s.h.bumps, i.owner) == 1
            && i.g in s.reg.grants && s.reg.grants[i.g] == RaceEntry(i)
            && BeginSucceeds(s, RaceBegin(i, token), 0, 0)
  {
    assert Step(AfterReads(i, token), 2, StartClear) == BumpStep(AfterReads(i, token), 2, i.owner);
  }

  /** A thread moves twice from one point to another. */
  lemma AtAt(s: Sys, t: nat, pc: Pc, pc': Pc)
    ensures At(At(s, t, pc), t, pc') == At(s, t, pc')
  {
    assert s.pcs[t := pc][t := pc'] == s.pcs[t := pc'];
  }

  lemma OneMove(turns: seq<Turn>, s: Sys, t: nat, pc: Pc, pc': Pc) returns (more: seq<Turn>)
    requires Run(INIT, turns) == At(s, t, pc) && Step(At(s, t, pc), t, StartClear) == At(At(s, t, pc), t, pc')
    ensures Run(INIT, more) == At(s, t, pc')
  {
    RunOneMore(INIT, turns, t, StartClear);
    AtAt(s, t, pc, pc');
    more := turns + [Turn(t, StartClear)];
  }

  lemma ReachFinishLock(turns: seq<Turn>, s: Sys, t: nat, c: Consumption, now: int) returns (more: seq<Turn>)
    requires Run(INIT, turns) == s && PcOf(s, t).Idle? && s.lock.None?
    ensures Run(INIT, more) == At(s.(lock := Some(t)), t, FinishLocked(FinishCall(c, true, now, s.h.bumps)))
  {
    var f := FinishCall(c, true, now, s.h.bumps);
    more := turns + [Turn(t, StartFinish(c, true, now))];
    RunOneMore(INIT, turns, t, StartFinish(c, true, now));
    assert Run(INIT, more) == At(s, t, FinishStart(f));
    RunOneMore(INIT, more, t, StartClear);
    more := more + [Turn(t, StartClear)];
    AtAt(s.(lock := Some(t)), t, FinishStart(f), FinishLocked(f));
  }

  lemma FinishPastLock(s: Sys, t: nat, f: FinishCall)
    requires f.c.grantId in s.reg.grants
    ensures Step(At(s, t, FinishLocked(f)), t, StartClear)
         == At(At(s, t, FinishLocked(f)), t, FinishGeneration(f, Count(s.gens, f.c.owner), Count(s.h.bumps, f.c.owner)))
  {
  }

  lemma FinishPastGeneration(s: Sys, t: nat, f: FinishCall, generation: nat, seen: nat)
    ensures Step(At(s, t, FinishGeneration(f, generation, seen)), t, StartClear)
         == At(At(s, t, FinishGeneration(f, generation, seen)), t, FinishEpoch(f, generation, seen, s.epoch))
  {
  }

  lemma FinishPastEpoch(s: Sys, t: nat, f: FinishCall, generation: nat, seen: nat, epoch: nat)
    ensures Step(At(s, t, FinishEpoch(f, generation, seen, epoch)), t, StartClear)
         == At(At(s, t, FinishEpoch(f, generation, seen, epoch)), t, FinishReady(f, generation, seen, epoch, s.closed))
  {
  }

  /** An idle thread that finishes takes the lock and reads what it compares. */
  lemma ReachFinish(turns: seq<Turn>, s: Sys, t: nat, c: Consumption, now: int) returns (more: seq<Turn>)
    requires Run(INIT, turns) == s && PcOf(s, t).Idle? && s.lock.None? && c.grantId in s.reg.grants
    ensures Run(INIT, more) == At(s.(lock := Some(t)), t,
              FinishReady(FinishCall(c, true, now, s.h.bumps), Count(s.gens, c.owner), Count(s.h.bumps, c.owner),
                          s.epoch, s.closed))
  {
    var f, generation, seen := FinishCall(c, true, now, s.h.bumps), Count(s.gens, c.owner), Count(s.h.bumps, c.owner);
    var held := s.(lock := Some(t));
    more := ReachFinishLock(turns, s, t, c, now);
    FinishPastLock(held, t, f);
    more := OneMove(more, held, t, FinishLocked(f), FinishGeneration(f, generation, seen));
    FinishPastGeneration(held, t, f, generation, seen);
    more := OneMove(more, held, t, FinishGeneration(f, generation, seen), FinishEpoch(f, generation, seen, s.epoch));
    FinishPastEpoch(held, t, f, generation, seen, s.epoch);
    more := OneMove(more, held, t, FinishEpoch(f, generation, seen, s.epoch),
                    FinishReady(f, generation, seen, s.epoch, s.closed));
  }

  /** The begin has committed; the invalidation has still not bumped. */
  function AfterBegin(i: IssueCall, token: string): Sys {
    BeginStep(AfterReads(i, token), 3, RaceBegin(i, token), 0, 0, 0)
  }

  function RaceConsumption(i: IssueCall): Consumption {
    Consumption(i.g, i.owner, i.revision, 0, 0)
  }

  lemma BegunIs(i: IssueCall, token: string)
    requires ValidLifetime(i) && i.hash == TokenHash(token)
    ensures var s := AfterBegin(i, token);
            && i.g in s.reg.grants && s.reg.grants[i.g] == RaceEntry(i).(state := Consuming)
            && RaceConsumption(i) in s.h.handed
            && s.lock.None? && s.gens == map[] && s.h.bumps == map[] && s.epoch == 0 && !s.closed
            && s.h.born == map[i.g := 0] && PcOf(s, 2) == DeviceSwept(i.owner) && PcOf(s, 4).Idle?
  {
  }

  lemma ReachBegin(i: IssueCall, token: string) returns (turns: seq<Turn>)
    requires ValidLifetime(i) && WellFormedToken(token)
    ensures Run(INIT, turns) == AfterBegin(i, token)
  {
    turns := ReachReads(i, token);
    RunOneMore(INIT, turns, 3, StartClear);
    turns := turns + [Turn(3, StartClear)];
  }

  /** The bump of the waiting invalidation comes between the reads of a call and its end. */
  lemma BumpBetween(turns: seq<Turn>, s: Sys, t: nat, device: Uuid, pc: Pc) returns (more: seq<Turn>)
    requires Run(INIT, turns) == s && PcOf(s, t) == DeviceSwept(device) && PcOf(s, 4) == pc && t != 4
    requires s.h.bumps == map[]
    ensures var s' := Run(INIT, more);
            && PcOf(s', 4) == pc && s'.reg == s.reg && s'.epoch == s.epoch
            && s'.h.born == s.h.born && s'.h.handed == s.h.handed
            && Count(s'.h.bumps, device) == 1
  {
    RunOneMore(INIT, turns, t, StartClear);
    more := turns + [Turn(t, StartClear)];
    assert Run(INIT, more) == BumpStep(s, t, device);
  }

  /** A finish that read the generation before a bump succeeds after it. */
  lemma FinishCanOvertakeBump(g: Uuid, secret: Secret, owner: Uuid) returns (turns: seq<Turn>)
    ensures var s, c := Run(INIT, turns), Consumption(g, owner, "", 0, 0);
            && PcOf(s, 4) == FinishReady(FinishCall(c, true, 0, map[]), 0, 0, 0, false)
            && c in s.h.handed && g in s.h.born && s.h.born[g] < Count(s.h.bumps, owner)
            && g in s.reg.grants && Completes(s.reg.grants[g], c, 0, 0, false, 0)
  {
    var token := Encode(secret);
    EncodedLength(secret);
    DecodeEncoded(secret);
    var i := RaceIssue(g, token, owner);
    var s, c := AfterBegin(i, token), RaceConsumption(i);
    turns := ReachBegin(i, token);
    BegunIs(i, token);
    turns := ReachFinish(turns, s, 4, c, 0);
    var pc := FinishReady(FinishCall(c, true, 0, map[]), 0, 0, 0, false);
    turns := BumpBetween(turns, At(s.(lock := Some(4)), 4, pc), 2, owner, pc);
  }

  lemma MatchPastStart(s: Sys, t: nat, m: MatchCall)
    requires !s.closed
    ensures Step(At(s, t, MatchStart(m)), t, StartClear) == At(At(s, t, MatchStart(m)), t, MatchOpen(m))
  {
  }

  lemma MatchPastOpen(s: Sys, t: nat, m: MatchCall)
    requires Count(s.gens, m.device) == m.generation
    ensures Step(At(s, t, MatchOpen(m)), t, StartClear)
         == At(At(s, t, MatchOpen(m)), t, MatchGeneration(m, Count(s.h.bumps, m.device)))
  {
  }

  lemma ReachMatch(turns: seq<Turn>, s: Sys, t: nat, device: Uuid) returns (more: seq<Turn>)
    requires Run(INIT, turns) == s && PcOf(s, t).Idle? && !s.closed
    ensures Run(INIT, more) == At(s, t,
              MatchGeneration(MatchCall(device, Count(s.gens, device), s.epoch, s.h.bumps), Count(s.h.bumps, device)))
  {
    var m := MatchCall(device, Count(s.gens, device), s.epoch, s.h.bumps);
    RunOneMore(INIT, turns, t, StartMatch(device, m.generation, m.epoch));
    more := turns + [Turn(t, StartMatch(device, m.generation, m.epoch))];
    MatchPastStart(s, t, m);
    more := OneMove(more, s, t, MatchStart(m), MatchOpen(m));
    MatchPastOpen(s, t, m);
    more := OneMove(more, s, t, MatchOpen(m), MatchGeneration(m, Count(s.h.bumps, device)));
  }

  /** So does a match: only its comparison of epochs is left, and that holds. */
  lemma MatchCanOvertakeBump(g: Uuid, secret: Secret, owner: Uuid) returns (turns: seq<Turn>)
    ensures var s, c := Run(INIT, turns), Consumption(g, owner, "", 0, 0);
            && PcOf(s, 4) == MatchGeneration(MatchCall(owner, c.generation, c.epoch, map[]), 0) && s.epoch == c.epoch
            && c in s.h.handed && g in s.h.born && s.h.born[g] < Count(s.h.bumps, owner)
  {
    var token := Encode(secret);
    EncodedLength(secret);
    DecodeEncoded(secret);
    var i := RaceIssue(g, token, owner);
    var s := AfterBegin(i, token);
    turns := ReachBegin(i, token);
    BegunIs(i, token);
    turns := ReachMatch(turns, s, 4, owner);
    var pc := MatchGeneration(MatchCall(owner, 0, 0, map[]), 0);
    turns := BumpBetween(turns, At(s, 4, pc), 2, owner, pc);
  }

  // ---------------------------------------------------------------------
  // A consumption nobody was handed
  // ---------------------------------------------------------------------

  lemma MadeUpFinishEnds(i: IssueCall, f: FinishCall)
    requires f.c == RaceConsumption(i)
    ensures var s := Step(At(AfterInsert(i).(lock := Some(4)), 4, FinishReady(f, 0, 0, 0, false)), 4, StartClear);
            i.owner in s.reg.active && s.reg.active[i.owner] == i.g && i.g in s.h.spoilt && !Corresponds(s.reg)
  {
    var ready := At(AfterInsert(i).(lock := Some(4)), 4, FinishReady(f, 0, 0, 0, false));
    assert Step(ready, 4, StartClear) == FinishStep(ready, 4, f, 0, 0, 0, false);
  }

  /** Finishing a grant that is still active ends it and leaves its index entry behind. */
  lemma MadeUpFinishSpoils(g: Uuid, hash: TokenHash, owner: Uuid) returns (turns: seq<Turn>)
    ensures var s := Run(INIT, turns);
            owner in s.reg.active && s.reg.active[owner] == g && g in s.h.spoilt && !Corresponds(s.reg)
  {
    var i := IssueCall(g, hash, owner, "", 0, 1);
    var s, c := AfterInsert(i), RaceConsumption(i);
    turns := ReachInsert(i);
    turns := ReachFinish(turns, s, 4, c, 0);
    var f := FinishCall(c, true, 0, s.h.bumps);
    RunOneMore(INIT, turns, 4, StartClear);
    turns := turns + [Turn(4, StartClear)];
    MadeUpFinishEnds(i, f);
  }
}
