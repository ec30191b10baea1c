/**
 The delivery worker's statements on the outbox: expiry, claiming, recovery of stale
 claims, release, completion and unblocking. Each statement is the set of notices it
 changes; the schema's trigger carries the change to the result row.
 */
module OutboxWorker {
  import opened Basics
  import opened Delivery
  import opened ResultPages

  const STALE_CLAIM_MS: int := 300_000

  datatype RetryClass = Network | RateLimited | ContextChanged | ContextRejected | AmbiguousMinusTwo

  /** What a channel reports. A cancelled send is released, never completed. */
  datatype ChannelOutcome =
    | Accepted
    | Retryable(kind: RetryClass)
    | OutcomeBlockedActivation
    | OutcomeBlockedReconnect
    | BlockedTargetChanged
    | PermanentFailure

  datatype WorkerStep =
    | ExpireDue(now: int)
    | ClaimNotice(key: NoticeKey, token: string, now: int)
    | ExpireClaimed(now: int)
    | RecoverStale(now: int)
    | ReleaseClaim(key: NoticeKey, token: string, now: int)
    | FinishClaim(key: NoticeKey, token: string, outcome: ChannelOutcome, now: int)
    | Unblock(reconnect: bool, now: int)

  function NetworkRetry(attempts: int): Option<int> {
    if attempts == 1 then Some(5_000) else if attempts == 2 then Some(30_000)
    else if attempts == 3 then Some(120_000) else if attempts == 4 then Some(600_000)
    else if attempts == 5 then Some(1_800_000) else None
  }

  function RateLimitRetry(attempts: int): Option<int> {
    if attempts == 1 then Some(30_000) else if attempts == 2 then Some(120_000)
    else if attempts == 3 then Some(600_000) else None
  }

  /** The next status and the next attempt after a send that was not accepted. */
  function FailureTransition(outcome: ChannelOutcome, attempts: int, now: int): (DeliveryStatus, Option<int>)
    requires !outcome.Accepted?
  {
    match outcome
    case Retryable(kind) =>
      var delay := match kind
        case Network => NetworkRetry(attempts)
        case RateLimited => RateLimitRetry(attempts)
        case ContextChanged => if attempts <= 1 then Some(0) else None
        case _ => if attempts <= 1 then Some(30_000) else None;
      if delay.Some? then (RetryWait, Some(now + delay.value))
      else if kind.Network? || kind.RateLimited? then (DeadLetter, None)
      else (BlockedActivation, None)
    case OutcomeBlockedActivation => (BlockedActivation, None)
    case OutcomeBlockedReconnect => (BlockedReconnect, None)
    case _ => (DeadLetter, None)
  }

  predicate Claimable(n: Notice, now: int) {
    && n.expiresAt > now
    && (|| (n.status.PendingChannel? && n.notBefore <= now)
        || (n.status.RetryWait? && n.nextAttemptAt.Some? && n.nextAttemptAt.value <= now))
  }

  predicate HeldBy(n: Notice, token: string) {
    n.status.SendingChannel? && n.claim.Some? && n.claim.value.token == token
  }

  /** The WHERE clause of a step. */
  predicate Selects(step: WorkerStep, k: NoticeKey, n: Notice) {
    match step
    case ExpireDue(now) => n.expiresAt <= now && IsSendable(n.status)
    case ClaimNotice(key, _, now) => k == key && Claimable(n, now)
    case ExpireClaimed(now) => n.status.SendingChannel? && n.expiresAt <= now
    case RecoverStale(now) =>
      && n.status.SendingChannel? && n.expiresAt > now
      && (n.claim.Some? ==> n.claim.value.at < now - STALE_CLAIM_MS)
    case ReleaseClaim(key, token, _) => k == key && HeldBy(n, token)
    case FinishClaim(key, token, _, _) => k == key && HeldBy(n, token)
    case Unblock(reconnect, now) =>
      n.expiresAt > now && n.status == if reconnect then BlockedReconnect else BlockedActivation
  }

  /** The SET clause of a step. */
  function Updated(step: WorkerStep, n: Notice): Notice {
    match step
    case ExpireDue(now) => n.(status := Expired, claim := None, nextAttemptAt := None, updatedAt := now)
    case ClaimNotice(_, token, now) =>
      n.(status := SendingChannel, claim := Some(Claim(token, now)), attempts := n.attempts + 1, updatedAt := now)
    case ExpireClaimed(now) => n.(status := Expired, claim := None, nextAttemptAt := None, updatedAt := now)
    case RecoverStale(now) => n.(status := RetryWait, claim := None, nextAttemptAt := Some(now), updatedAt := now)
    case ReleaseClaim(_, _, now) =>
      n.(status := if n.expiresAt <= now then Expired else RetryWait,
         nextAttemptAt := if n.expiresAt <= now then None else Some(now),
         attempts := if n.attempts > 0 then n.attempts - 1 else 0, claim := None, updatedAt := now)
    case FinishClaim(_, _, outcome, now) =>
      if outcome.Accepted? then
        n.(status := ProviderAccepted, claim := None, nextAttemptAt := None, updatedAt := now)
      else
        var (status, next) :=
          if now >= n.expiresAt then (Expired, None) else FailureTransition(outcome, n.attempts, now);
        if next.Some? && next.value >= n.expiresAt then
          n.(status := Expired, claim := None, nextAttemptAt := None, updatedAt := now)
        else n.(status := status, claim := None, nextAttemptAt := next, updatedAt := now)
    case Unblock(_, now) => n.(status := RetryWait, nextAttemptAt := Some(now), updatedAt := now)
  }

  function Changes(db: Db, step: WorkerStep): map<NoticeKey, Notice> {
    map k | k in db.outbox && Selects(step, k, db.outbox[k]) :: Updated(step, db.outbox[k])
  }

  /** A change the rest of the model relies on: it reopens nothing and moves only delivery columns. */
  predicate LegalChange(a: Notice, b: Notice) {
    && !IsTerminal(a.status)
    && b.id == a.id && b.dedupeKey == a.dedupeKey && b.payload == a.payload && b.expiresAt == a.expiresAt
    && b.target == a.target && b.title == a.title && b.createdAt == a.createdAt
    && (b.status.SendingChannel? <==> b.claim.Some?)
  }

  lemma StepsAreLegal(step: WorkerStep, k: NoticeKey, n: Notice)
    requires Selects(step, k, n)
    requires n.status.SendingChannel? <==> n.claim.Some?
    ensures LegalChange(n, Updated(step, n))
  {
  }

  /**
   A notice that waits for another try after a failed send waits until a time not before now and
   before it expires, and has been tried at most five times.
   */
  lemma RetriesAreInTime(key: NoticeKey, token: string, outcome: ChannelOutcome, now: int, n: Notice)
    requires Updated(FinishClaim(key, token, outcome, now), n).status.RetryWait?
    ensures var next := Updated(FinishClaim(key, token, outcome, now), n).nextAttemptAt;
            next.Some? && now <= next.value < n.expiresAt && n.attempts <= 5
  {
  }

  /**
   The worker moves a notice as the domain allows except when it unblocks one:
   a blocked notice goes to retry_wait, a move the domain's relation does not have.
   */
  lemma WorkerFollowsDomain(step: WorkerStep, k: NoticeKey, n: Notice)
    requires Selects(step, k, n)
    ensures CanTransitionTo(n.status, Updated(step, n).status) <==> !step.Unblock?
  {
  }

  // ---------------------------------------------------------------------
  // What each statement leaves of every notice
  // ---------------------------------------------------------------------

  function OutboxAfter(db: Db, step: WorkerStep): map<NoticeKey, Notice> {
    UpdateNotices(db, Changes(db, step)).outbox
  }

  lemma StatementOnOne(db: Db, step: WorkerStep, k: NoticeKey)
    requires k in db.outbox
    ensures OutboxAfter(db, step).Keys == db.outbox.Keys
    ensures OutboxAfter(db, step)[k]
              == if Selects(step, k, db.outbox[k]) then Updated(step, db.outbox[k]) else db.outbox[k]
  {
  }

  /** What waits or is blocked past its expiry is expired, and what is being sent past it; nothing else moves. */
  lemma ExpiryIsExact(db: Db, now: int, k: NoticeKey)
    requires k in db.outbox
    ensures var n := db.outbox[k];
            var expired := n.(status := Expired, claim := None, nextAttemptAt := None, updatedAt := now);
            && OutboxAfter(db, ExpireDue(now))[k]
                 == (if && n.expiresAt <= now
                        && n.status in {PendingChannel, RetryWait, BlockedActivation, BlockedReconnect}
                     then expired else n)
            && OutboxAfter(db, ExpireClaimed(now))[k]
                 == (if n.expiresAt <= now && n.status == SendingChannel then expired else n)
  {
    StatementOnOne(db, ExpireDue(now), k);
    StatementOnOne(db, ExpireClaimed(now), k);
  }

  /** A claim takes the notice it names if its time has come, and the attempt counts. */
  lemma ClaimIsExact(db: Db, key: NoticeKey, token: string, now: int, k: NoticeKey)
    requires k in db.outbox
    ensures var n := db.outbox[k];
            OutboxAfter(db, ClaimNotice(key, token, now))[k]
              == if k == key && now < n.expiresAt
                    && ((n.status == PendingChannel && n.notBefore <= now)
                        || (n.status == RetryWait && n.nextAttemptAt.Some? && n.nextAttemptAt.value <= now))
                 then n.(status := SendingChannel, claim := Some(Claim(token, now)), attempts := n.attempts + 1,
                         updatedAt := now)
                 else n
  {
    StatementOnOne(db, ClaimNotice(key, token, now), k);
  }

  /** Claims older than five minutes, or without a time, are waiting again at once. */
  lemma RecoveryIsExact(db: Db, now: int, k: NoticeKey)
    requires k in db.outbox
    ensures var n := db.outbox[k];
            OutboxAfter(db, RecoverStale(now))[k]
              == if n.status == SendingChannel && now < n.expiresAt
                    && (n.claim.None? || n.claim.value.at + 300_000 < now)
                 then n.(status := RetryWait, claim := None, nextAttemptAt := Some(now), updatedAt := now)
                 else n
  {
    StatementOnOne(db, RecoverStale(now), k);
  }

  /** Blocked notices of the one kind that have not expired are waiting again at once. */
  lemma UnblockIsExact(db: Db, reconnect: bool, now: int, k: NoticeKey)
    requires k in db.outbox
    ensures var n := db.outbox[k];
            OutboxAfter(db, Unblock(reconnect, now))[k]
              == if now < n.expiresAt && n.status == (if reconnect then BlockedReconnect else BlockedActivation)
                 then n.(status := RetryWait, nextAttemptAt := Some(now), updatedAt := now)
                 else n
  {
    StatementOnOne(db, Unblock(reconnect, now), k);
  }

  predicate IsClaimedBy(n: Notice, token: string) {
    n.status == SendingChannel && n.claim.Some? && n.claim.value.token == token
  }

  /** A release by the holder of the claim gives the attempt back. */
  lemma ReleaseIsExact(db: Db, key: NoticeKey, token: string, now: int, k: NoticeKey)
    requires k in db.outbox
    ensures var n := db.outbox[k];
            OutboxAfter(db, ReleaseClaim(key, token, now))[k]
              == if !(k == key && IsClaimedBy(n, token)) then n
                 else if n.expiresAt <= now then
                   n.(status := Expired, claim := None, nextAttemptAt := None,
                      attempts := Max(n.attempts - 1, 0), updatedAt := now)
                 else
                   n.(status := RetryWait, claim := None, nextAttemptAt := Some(now),
                      attempts := Max(n.attempts - 1, 0), updatedAt := now)
  {
    StatementOnOne(db, ReleaseClaim(key, token, now), k);
  }

  const NETWORK_DELAYS: seq<int> := [5_000, 30_000, 120_000, 600_000, 1_800_000]
  const RATE_LIMIT_DELAYS: seq<int> := [30_000, 120_000, 600_000]

  /** How long the attempt that failed may be followed by another, by the kind of failure. */
  function DelayAfter(kind: RetryClass, attempts: int): Option<int> {
    match kind
    case Network => if 1 <= attempts <= 5 then Some(NETWORK_DELAYS[attempts - 1]) else None
    case RateLimited => if 1 <= attempts <= 3 then Some(RATE_LIMIT_DELAYS[attempts - 1]) else None
    case ContextChanged => if attempts <= 1 then Some(0) else None
    case ContextRejected => if attempts <= 1 then Some(30_000) else None
    case AmbiguousMinusTwo => if attempts <= 1 then Some(30_000) else None
  }

  /** What the holder of a claim makes of a notice by what the channel said. */
  function FinishedAs(n: Notice, outcome: ChannelOutcome, now: int): (DeliveryStatus, Option<int>) {
    if outcome.Accepted? then (ProviderAccepted, None)
    else if n.expiresAt <= now then (Expired, None)
    else
      match outcome
      case Retryable(kind) =>
        var delay := DelayAfter(kind, n.attempts);
        if delay.Some? then
          if n.expiresAt <= now + delay.value then (Expired, None) else (RetryWait, Some(now + delay.value))
        else (if kind == Network || kind == RateLimited then DeadLetter else BlockedActivation, None)
      case OutcomeBlockedActivation => (BlockedActivation, None)
      case OutcomeBlockedReconnect => (BlockedReconnect, None)
      case _ => (DeadLetter, None)
  }

  lemma DelaysAgree(kind: RetryClass, attempts: int, now: int)
    ensures var (status, next) := FailureTransition(Retryable(kind), attempts, now);
            && next == (if DelayAfter(kind, attempts).Some? then Some(now + DelayAfter(kind, attempts).value) else None)
            && status == if next.Some? then RetryWait
                         else if kind == Network || kind == RateLimited then DeadLetter else BlockedActivation
  {
  }

  lemma FinishIsExact(db: Db, key: NoticeKey, token: string, outcome: ChannelOutcome, now: int, k: NoticeKey)
    requires k in db.outbox
    ensures var n := db.outbox[k];
            OutboxAfter(db, FinishClaim(key, token, outcome, now))[k]
              == if !(k == key && IsClaimedBy(n, token)) then n
                 else n.(status := FinishedAs(n, outcome, now).0, nextAttemptAt := FinishedAs(n, outcome, now).1,
                         claim := None, updatedAt := now)
  {
    StatementOnOne(db, FinishClaim(key, token, outcome, now), k);
    if outcome.Retryable? {
      DelaysAgree(outcome.kind, db.outbox[k].attempts, now);
    }
  }

  /**
   A claimed notice is its claimant's: no other claim, and no release or finish with another token,
   changes it.
   */
  lemma ClaimIsExclusive(db: Db, k: NoticeKey, token: string, other: string, outcome: ChannelOutcome, now: int)
    requires k in db.outbox && IsClaimedBy(db.outbox[k], token) && other != token
    ensures OutboxAfter(db, ClaimNotice(k, other, now))[k] == db.outbox[k]
    ensures OutboxAfter(db, ReleaseClaim(k, other, now))[k] == db.outbox[k]
    ensures OutboxAfter(db, FinishClaim(k, other, outcome, now))[k] == db.outbox[k]
  {
    ClaimIsExact(db, k, other, now, k);
    ReleaseIsExact(db, k, other, now, k);
    FinishIsExact(db, k, other, outcome, now, k);
  }

  /** A revocation cancels what the domain allows to be cancelled. */
  lemma CancellingFollowsDomain(n: Notice, r: string)
    requires CancelledByRevoke(n, r)
    ensures CanTransitionTo(n.status, Cancelled)
  {
  }
}
