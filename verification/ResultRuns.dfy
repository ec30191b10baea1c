/**
 Runs of the result-page tables: any sequence of publish, resend, revoke, retention,
 worker, ingress and device transactions, in any order and with any clock readings.
 */
module ResultRuns {
  import opened Basics
  import opened Delivery
  import opened TokenFormat
  import opened ResultPages
  import opened OutboxWorker

  /**
   The tables with three history variables: the highest clock reading a retention
   statement has used, the row every link notification id was minted for, and the
   minted ids that reached the outbox.
   */
  datatype Sys = Sys(db: Db, swept: int, minted: map<string, string>, posted: set<string>)

  datatype Op =
    | DoPublish(device: Uuid, p: Publication, target: Option<string>, at: nat, ids: Ids)
    | DoResend(device: Uuid, resultId: string, requestId: string, now: int, notice: string, outbox: string)
    | DoRevoke(row: string, requestId: string, now: int)
    | DoPurge(now: int)
    | DoRetain(now: int)
    | DoWork(step: WorkerStep)
    | DoEnqueue(key: NoticeKey, plain: Notice)
    | DoSetDevice(device: Uuid, flags: DeviceFlags)

  /** The length of a printed UUID, in characters and in bytes. */
  predicate IsRowId(r: string) {
    |r| == 36 && Utf8Len(r) == 36
  }

  /** Random ids are new: never minted, never in a table. */
  predicate FreshIds(s: Sys, device: Uuid, ids: Ids) {
    && IsRowId(ids.row) && ids.row !in s.db.results
    && FreshNotice(s, device, ids.notice, ids.outbox)
    && (forall r | r in s.db.shares :: s.db.shares[r].digest != TokenDigest(ids.token))
  }

  predicate FreshNotice(s: Sys, device: Uuid, notice: string, outbox: string) {
    && notice !in s.minted && NoticeKey(DeviceOrigin(device), notice) !in s.db.outbox
    && !OutboxIdTaken(s.db, outbox)
  }

  /** `validate_notification`, on the columns kept here; `createdAt` is the time of acceptance. */
  predicate ValidNotification(k: NoticeKey, n: Notice) {
    && 1 <= Utf8Len(k.noticeId) <= 128 && 1 <= Utf8Len(n.dedupeKey) <= 256 && 1 <= |n.title| <= 128
    && 0 < n.expiresAt && 0 < n.expiresAt - n.createdAt <= MAX_TTL_MS
  }

  /** The schema's checks on origin and target: a device must exist, and only the system names a target. */
  predicate ValidOrigin(db: Db, origin: Origin, target: Option<string>) {
    match origin
    case DeviceOrigin(device) => device in db.devices && target.None?
    case SystemOrigin => target.Some? && ValidTarget(target.value)
    case AdminOrigin => target.None?
  }

  predicate IsWaiting(n: Notice) {
    && n.payload.Plain? && n.status.PendingChannel? && n.claim.None? && n.nextAttemptAt.None? && n.attempts == 0
    && n.notBefore == n.createdAt == n.updatedAt
  }

  /** What an ingress route inserts: a plain notification, waiting, under keys of the caller's choice. */
  predicate QueuesPlain(db: Db, k: NoticeKey, n: Notice) {
    && IsWaiting(n) && |n.id| == 36 && ValidOrigin(db, k.origin, n.target) && ValidNotification(k, n)
    && CanQueue(db, k, n)
  }

  // ---------------------------------------------------------------------
  // Steps
  // ---------------------------------------------------------------------

  ghost function PublishStep(cfg: Config, s: Sys, device: Uuid, p: Publication, target: Option<string>,
                             now: nat, ids: Ids): Sys
  {
    if !FreshIds(s, device, ids) || !ValidPublication(p, MAX_RESULT_BODY_BYTES) then s
    else
      var expires := Prepare(cfg, p, target, now);
      if expires.Err? then s
      else
        var (db, outcome) := PublishTx(s.db, cfg, device, p, target.value, now, expires.value, ids);
        if outcome != Published then s
        else s.(db := db, minted := s.minted[ids.notice := ids.row], posted := s.posted + {ids.notice})
  }

  ghost function ResendStep(cfg: Config, s: Sys, device: Uuid, resultId: string, requestId: string, now: int,
                            notice: string, outbox: string): Sys
  {
    if !FreshNotice(s, device, notice, outbox) then s
    else
      var (db, outcome) := ResendTx(s.db, cfg, device, resultId, requestId, now, notice, outbox);
      if outcome != Resent then s
      else
        s.(db := db, minted := s.minted[notice := Pick(RowsNamed(s.db, device, resultId))],
           posted := if NoticeKey(DeviceOrigin(device), notice) in db.outbox then s.posted + {notice} else s.posted)
  }

  function RevokeStep(s: Sys, row: string, requestId: string, now: int): Sys {
    s.(db := RevokeTx(s.db, row, requestId, now).0)
  }

  function Purged(s: Sys, now: int): Sys {
    s.(db := PurgeBodies(s.db, now), swept := Max(s.swept, now))
  }

  function Retain(s: Sys, cfg: Config, now: int): Sys
    requires CopySucceeds(s.db, cfg, now)
  {
    s.(db := RetainOutbox(s.db, cfg, now).value, swept := Max(s.swept, now))
  }

  function RetainStep(s: Sys, cfg: Config, now: int): Sys {
    if CopySucceeds(s.db, cfg, now) then Retain(s, cfg, now) else s
  }

  /** An UPDATE of some notices. */
  function Updates(s: Sys, changes: map<NoticeKey, Notice>): Sys {
    s.(db := UpdateNotices(s.db, changes))
  }

  function Queued(s: Sys, k: NoticeKey, n: Notice): Sys {
    s.(db := s.db.(outbox := s.db.outbox[k := n]))
  }

  function QueueStep(s: Sys, k: NoticeKey, n: Notice): Sys {
    if QueuesPlain(s.db, k, n) then Queued(s, k, n) else s
  }

  function WithDevice(s: Sys, device: Uuid, flags: DeviceFlags): Sys {
    s.(db := s.db.(devices := s.db.devices[device := flags]))
  }

  ghost function Apply(cfg: Config, s: Sys, op: Op): Sys {
    match op
    case DoPublish(device, p, target, at, ids) => PublishStep(cfg, s, device, p, target, at, ids)
    case DoResend(device, resultId, requestId, now, notice, outbox) =>
      ResendStep(cfg, s, device, resultId, requestId, now, notice, outbox)
    case DoRevoke(row, requestId, now) => RevokeStep(s, row, requestId, now)
    case DoPurge(now) => Purged(s, now)
    case DoRetain(now) => RetainStep(s, cfg, now)
    case DoWork(step) => Updates(s, Changes(s.db, step))
    case DoEnqueue(key, plain) => QueueStep(s, key, plain)
    case DoSetDevice(device, flags) => WithDevice(s, device, flags)
  }

  ghost function Run(cfg: Config, s: Sys, ops: seq<Op>): Sys
    decreases |ops|
  {
    if ops == [] then s else Run(cfg, Apply(cfg, s, ops[0]), ops[1..])
  }

  const EMPTY := Sys(Db(map[], map[], map[], map[], map[]), 0, map[], {})

  // ---------------------------------------------------------------------
  // What every run keeps
  // ---------------------------------------------------------------------

  /** The text every notice of a row carries. */
  function TextOf(db: Db, r: string): string
    requires r in db.results && r in db.shares
  {
    LinkText(db.results[r].title, db.shares[r].publicOrigin, db.shares[r].digest.of)
  }

  /** A row is what was published: only its purge, its revocation and its delivery columns move. */
  predicate FaithfulRow(r: string, row: ResultRow) {
    var p := row.digest.of;
    && IsRowId(r)
    && row.resultId == p.resultId && row.dedupeKey == p.dedupeKey && row.title == p.title
    && row.sourceHash == Sha256(p.body) && row.bodyBytes == Utf8Len(p.body)
    && row.bodyRetainUntil == row.pageExpiresAt && row.acceptedAt < row.pageExpiresAt
    && 0 <= row.acceptedAt <= row.updatedAt
    && (row.body.Some? <==> row.bodyPurgedAt.None?)
    && (row.body.Some? ==> row.body.value == Sealed(p.body, BodyAad(row.device, row.resultId, row.sourceHash)))
  }

  predicate FaithfulShare(row: ResultRow, share: Share) {
    share.token == Sealed(Encode(share.digest.of), TokenAad(row.device, row.resultId, row.sourceHash))
  }

  predicate MintedFor(s: Sys, notice: string, r: string) {
    notice in s.minted && s.minted[notice] == r
  }

  predicate RowInv(s: Sys, r: string)
    requires r in s.db.results
  {
    var row := s.db.results[r];
    && FaithfulRow(r, row)
    && row.device in s.db.devices
    && r in s.db.shares && FaithfulShare(row, s.db.shares[r])
    && MintedFor(s, row.initialNotice, r) && row.initialNotice in s.posted
    && MintedFor(s, row.currentNotice, r)
    // what retention has taken away belonged to a page past its expiry
    && (row.bodyPurgedAt.Some? ==> row.pageExpiresAt <= s.swept)
    && (!IsLive(s.db, r, row.initialNotice) ==> row.pageExpiresAt <= s.swept)
    // the trigger keeps the stored status equal to the live one
    && (IsLive(s.db, r, row.currentNotice) ==> row.noticeStatus == LiveNotice(s.db, r, row.currentNotice).status)
  }

  predicate NoticeInv(s: Sys, k: NoticeKey)
    requires k in s.db.outbox
  {
    var n := s.db.outbox[k];
    && (n.status.SendingChannel? <==> n.claim.Some?)
    && (n.payload.Link? ==>
          var r := n.payload.resultRow;
          && r in s.db.results && r in s.db.shares && k.origin == DeviceOrigin(s.db.results[r].device)
          && |n.title| <= 128 && n.target.Some? && ValidTarget(n.target.value)
          && MintedFor(s, k.noticeId, r) && k.noticeId in s.posted && n.expiresAt <= s.db.results[r].pageExpiresAt
          && var row := s.db.results[r];
             n.payload.text == Sealed(TextOf(s.db, r), NoticeAad(row.device, row.resultId, row.sourceHash, k.noticeId)))
  }

  predicate UniqueNames(rows: map<string, ResultRow>) {
    forall a, b | a in rows && b in rows && a != b && rows[a].device == rows[b].device ::
      rows[a].resultId != rows[b].resultId && rows[a].dedupeKey != rows[b].dedupeKey
  }

  predicate UniqueTokens(shares: map<string, Share>) {
    forall a, b | a in shares && b in shares && a != b :: shares[a].digest != shares[b].digest
  }

  predicate UniqueOutboxIds(outbox: map<NoticeKey, Notice>) {
    forall a, b | a in outbox && b in outbox && a != b :: outbox[a].id != outbox[b].id
  }

  /** A resend action owns a notification id of its own, minted for its row. */
  predicate ActionInv(s: Sys, a: ActionKey)
    requires a in s.db.actions
  {
    && a.row in s.db.results
    && (a.kind.ResendAction? ==>
          && s.db.actions[a].notice.Some?
          && MintedFor(s, s.db.actions[a].notice.value, a.row)
          && s.db.actions[a].notice.value != s.db.results[a.row].initialNotice)
  }

  predicate UniqueActions(actions: map<ActionKey, Action>) {
    forall a, b | a in actions && b in actions && a != b && a.kind.ResendAction? && b.kind.ResendAction? ::
      actions[a].notice != actions[b].notice
  }

  /** Every minted id is the first notice of its row or belongs to one of its resends. */
  ghost predicate MintInv(s: Sys, notice: string)
    requires notice in s.minted
  {
    var r := s.minted[notice];
    && r in s.db.results
    && (notice == s.db.results[r].initialNotice
        || exists q :: ActionKey(r, ResendAction, q) in s.db.actions
                       && s.db.actions[ActionKey(r, ResendAction, q)].notice == Some(notice))
  }

  ghost predicate Inv(s: Sys) {
    && s.db.shares.Keys == s.db.results.Keys
    && UniqueNames(s.db.results) && UniqueTokens(s.db.shares) && UniqueOutboxIds(s.db.outbox)
    && UniqueActions(s.db.actions) && s.posted <= s.minted.Keys
    && (forall r | r in s.db.results :: RowInv(s, r))
    && (forall k | k in s.db.outbox :: NoticeInv(s, k))
    && (forall a | a in s.db.actions :: ActionInv(s, a))
    && (forall n | n in s.minted :: MintInv(s, n))
  }

  lemma EmptyInv()
    ensures Inv(EMPTY)
  {
  }

  // ---------------------------------------------------------------------
  // What no step takes back
  // ---------------------------------------------------------------------

  /** The columns no statement ever rewrites. */
  predicate SameIdentity(a: ResultRow, b: ResultRow) {
    && a.device == b.device && a.resultId == b.resultId && a.dedupeKey == b.dedupeKey && a.digest == b.digest
    && a.title == b.title && a.sourceHash == b.sourceHash && a.bodyBytes == b.bodyBytes
    && a.acceptedAt == b.acceptedAt && a.pageExpiresAt == b.pageExpiresAt && a.bodyRetainUntil == b.bodyRetainUntil
    && a.initialNotice == b.initialNotice
  }

  /** A row keeps its identity, its purge and its revocation, and its version never goes back. */
  predicate RowMoves(a: ResultRow, b: ResultRow) {
    && SameIdentity(a, b) && a.updatedAt <= b.updatedAt
    && (a.bodyPurgedAt.Some? ==> b.bodyPurgedAt == a.bodyPurgedAt)
    && (a.revokedAt.Some? ==> b.revokedAt == a.revokedAt)
  }

  predicate RowGrows(s: Sys, s': Sys, r: string)
    requires r in s.db.results
  {
    r in s'.db.results && RowMoves(s.db.results[r], s'.db.results[r])
  }

  predicate ShareKept(s: Sys, s': Sys, r: string)
    requires r in s.db.shares
  {
    r in s'.db.shares && s'.db.shares[r] == s.db.shares[r]
  }

  predicate ActionKept(s: Sys, s': Sys, a: ActionKey)
    requires a in s.db.actions
  {
    a in s'.db.actions && s'.db.actions[a] == s.db.actions[a]
  }

  predicate HistoryGrows(s: Sys, s': Sys) {
    && s.swept <= s'.swept && s.posted <= s'.posted && s.db.devices.Keys <= s'.db.devices.Keys
    && (forall n | n in s.minted :: MintedFor(s', n, s.minted[n]))
  }

  /** Results, shares, actions and history only grow, and a result keeps its identity. */
  predicate Grows(s: Sys, s': Sys) {
    && HistoryGrows(s, s')
    && (forall r | r in s.db.results :: RowGrows(s, s', r))
    && (forall r | r in s.db.shares :: ShareKept(s, s', r))
    && (forall a | a in s.db.actions :: ActionKept(s, s', a))
  }

  /** The columns a queued notice is never given again. */
  predicate SameLetter(a: Notice, b: Notice) {
    && b.id == a.id && b.dedupeKey == a.dedupeKey && b.payload == a.payload && b.title == a.title
    && b.target == a.target && b.expiresAt == a.expiresAt
  }

  lemma NoticeStays(s: Sys, s': Sys, k: NoticeKey)
    requires Grows(s, s') && k in s.db.outbox && NoticeInv(s, k)
    requires k in s'.db.outbox && SameLetter(s.db.outbox[k], s'.db.outbox[k])
    requires s'.db.outbox[k].status.SendingChannel? <==> s'.db.outbox[k].claim.Some?
    ensures NoticeInv(s', k)
  {
    var n := s.db.outbox[k];
    if n.payload.Link? {
      assert RowGrows(s, s', n.payload.resultRow);
      assert ShareKept(s, s', n.payload.resultRow);
    }
  }

  lemma ActionStays(s: Sys, s': Sys, a: ActionKey)
    requires Grows(s, s') && a in s.db.actions && ActionInv(s, a)
    ensures a in s'.db.actions && ActionInv(s', a)
  {
    assert ActionKept(s, s', a);
    assert RowGrows(s, s', a.row);
  }

  lemma MintStays(s: Sys, s': Sys, n: string)
    requires Grows(s, s') && n in s.minted && MintInv(s, n)
    ensures n in s'.minted && MintInv(s', n)
  {
    var r := s.minted[n];
    assert MintedFor(s', n, r);
    assert RowGrows(s, s', r);
    if n != s.db.results[r].initialNotice {
      var q :| ActionKey(r, ResendAction, q) in s.db.actions
               && s.db.actions[ActionKey(r, ResendAction, q)].notice == Some(n);
      assert ActionKept(s, s', ActionKey(r, ResendAction, q));
    }
  }

  /** The parts of a row's invariant a step has to look at again. */
  lemma RowStays(s: Sys, s': Sys, r: string)
    requires Grows(s, s') && r in s.db.results && RowInv(s, r)
    requires r in s'.db.results && FaithfulRow(r, s'.db.results[r])
    requires MintedFor(s', s'.db.results[r].currentNotice, r)
    requires s'.db.results[r].bodyPurgedAt.Some? ==> s'.db.results[r].pageExpiresAt <= s'.swept
    requires !IsLive(s'.db, r, s'.db.results[r].initialNotice) ==> s'.db.results[r].pageExpiresAt <= s'.swept
    requires IsLive(s'.db, r, s'.db.results[r].currentNotice) ==>
               s'.db.results[r].noticeStatus == LiveNotice(s'.db, r, s'.db.results[r].currentNotice).status
    ensures RowInv(s', r)
  {
    assert RowGrows(s, s', r);
    assert ShareKept(s, s', r);
    assert MintedFor(s', s.db.results[r].initialNotice, r);
  }

  /** The step when neither the row nor its two joined notices change. */
  lemma RowUntouched(s: Sys, s': Sys, r: string)
    requires Grows(s, s') && r in s.db.results && RowInv(s, r)
    requires r in s'.db.results && s'.db.results[r] == s.db.results[r]
    requires forall n | n == s.db.results[r].initialNotice || n == s.db.results[r].currentNotice ::
               var k := NoticeKey(DeviceOrigin(s.db.results[r].device), n);
               (k in s'.db.outbox <==> k in s.db.outbox)
               && (k in s.db.outbox ==> s'.db.outbox[k] == s.db.outbox[k])
    ensures RowInv(s', r)
  {
    assert MintedFor(s', s.db.results[r].currentNotice, r);
    RowStays(s, s', r);
  }

  // ---------------------------------------------------------------------
  // Publishing keeps it
  // ---------------------------------------------------------------------

  datatype Publishing = Publishing(device: Uuid, p: Publication, target: string, now: int, expires: int, ids: Ids)

  predicate NamesFree(db: Db, device: Uuid, p: Publication) {
    forall r | r in db.results && db.results[r].device == device ::
      db.results[r].resultId != p.resultId && db.results[r].dedupeKey != p.dedupeKey
  }

  ghost predicate PublishOpen(cfg: Config, s: Sys, e: Publishing) {
    && cfg.publicOrigin.Some?
    && e.p.sourceHash == Sha256(e.p.body) && 0 <= e.now < e.expires && e.device in s.db.devices
    && e.p.notificationExpiresAt <= e.expires
    && FreshIds(s, e.device, e.ids) && NamesFree(s.db, e.device, e.p)
    && Retained(s.db.results) + Utf8Len(e.p.body) <= cfg.maxRetainedBodyBytes
    && CanQueue(s.db, NoticeKey(DeviceOrigin(e.device), e.ids.notice),
                NewNotice(cfg, e.device, e.p, e.target, e.now, e.ids))
  }

  /** The state a publication that commits leads to. */
  ghost function PublishResult(cfg: Config, s: Sys, e: Publishing): Option<Sys> {
    if !PublishOpen(cfg, s, e) then None
    else
      var k := NoticeKey(DeviceOrigin(e.device), e.ids.notice);
      Some(Sys(Db(s.db.results[e.ids.row := NewRow(e.device, e.p, e.now, e.expires, e.ids)],
                  s.db.shares[e.ids.row := NewShare(cfg, e.device, e.p, e.now, e.ids)], s.db.actions,
                  s.db.outbox[k := NewNotice(cfg, e.device, e.p, e.target, e.now, e.ids)], s.db.devices),
               s.swept, s.minted[e.ids.notice := e.ids.row], s.posted + {e.ids.notice}))
  }

  ghost predicate Publishes(cfg: Config, s: Sys, s': Sys, e: Publishing) {
    PublishResult(cfg, s, e) == Some(s')
  }

  function Attempt(cfg: Config, device: Uuid, p: Publication, target: string, now: int, ids: Ids): Publishing {
    Publishing(device, p, target, now, now + cfg.shareTtlDays * DAY_MS, ids)
  }

  lemma NoMatchMeansFree(db: Db, device: Uuid, p: Publication)
    ensures RowsMatching(db, device, p.resultId, p.dedupeKey) == {} <==> NamesFree(db, device, p)
  {
    if RowsMatching(db, device, p.resultId, p.dedupeKey) == {} {
      forall r | r in db.results && db.results[r].device == device
        ensures db.results[r].resultId != p.resultId && db.results[r].dedupeKey != p.dedupeKey
      {
        assert r !in RowsMatching(db, device, p.resultId, p.dedupeKey);
      }
    }
  }

  lemma PublishEffect(cfg: Config, s: Sys, device: Uuid, p: Publication, target: Option<string>, now: nat, ids: Ids)
    requires ValidConfig(cfg)
    ensures var s' := PublishStep(cfg, s, device, p, target, now, ids);
            s' == s || (target.Some? && Publishes(cfg, s, s', Attempt(cfg, device, p, target.value, now, ids)))
  {
    NoMatchMeansFree(s.db, device, p);
  }

  lemma PublishGrows(cfg: Config, s: Sys, s': Sys, e: Publishing)
    requires Publishes(cfg, s, s', e)
    requires s.db.shares.Keys == s.db.results.Keys
    ensures Grows(s, s')
  {
    ghost var row, share := NewRow(e.device, e.p, e.now, e.expires, e.ids), NewShare(cfg, e.device, e.p, e.now, e.ids);
    assert s'.db.results == s.db.results[e.ids.row := row] && s'.db.shares == s.db.shares[e.ids.row := share];
    assert e.ids.row !in s.db.results;
    forall r | r in s.db.results ensures RowGrows(s, s', r) {
      assert s'.db.results[r] == s.db.results[r];
    }
    forall r | r in s.db.shares ensures ShareKept(s, s', r) {
      assert r in s.db.results;
    }
    forall n | n in s.minted ensures MintedFor(s', n, s.minted[n]) {}
  }

  lemma PublishNewRow(cfg: Config, s: Sys, s': Sys, e: Publishing)
    requires Publishes(cfg, s, s', e)
    ensures RowInv(s', e.ids.row)
    ensures NoticeInv(s', NoticeKey(DeviceOrigin(e.device), e.ids.notice))
  {
  }

  lemma PublishUnique(cfg: Config, s: Sys, s': Sys, e: Publishing)
    requires Publishes(cfg, s, s', e)
    requires UniqueNames(s.db.results) && UniqueTokens(s.db.shares) && UniqueOutboxIds(s.db.outbox)
    ensures UniqueNames(s'.db.results) && UniqueTokens(s'.db.shares) && UniqueOutboxIds(s'.db.outbox)
  {
  }

  lemma PublishKeys(cfg: Config, s: Sys, s': Sys, e: Publishing)
    requires Publishes(cfg, s, s', e)
    requires s.db.shares.Keys == s.db.results.Keys && s.posted <= s.minted.Keys && UniqueActions(s.db.actions)
    ensures s'.db.shares.Keys == s'.db.results.Keys && s'.posted <= s'.minted.Keys && UniqueActions(s'.db.actions)
  {
  }

  lemma PublishedRows(cfg: Config, s: Sys, s': Sys, e: Publishing)
    requires Publishes(cfg, s, s', e) && s.db.shares.Keys == s.db.results.Keys
    requires forall r | r in s.db.results :: RowInv(s, r)
    ensures forall r | r in s'.db.results :: RowInv(s', r)
  {
    PublishGrows(cfg, s, s', e);
    PublishNewRow(cfg, s, s', e);
    forall r | r in s'.db.results ensures RowInv(s', r) {
      if r != e.ids.row {
        assert RowInv(s, r);
        RowUntouched(s, s', r);
      }
    }
  }

  lemma PublishedNotices(cfg: Config, s: Sys, s': Sys, e: Publishing)
    requires Publishes(cfg, s, s', e) && s.db.shares.Keys == s.db.results.Keys
    requires forall k | k in s.db.outbox :: NoticeInv(s, k)
    ensures forall k | k in s'.db.outbox :: NoticeInv(s', k)
  {
    PublishGrows(cfg, s, s', e);
    PublishNewRow(cfg, s, s', e);
    forall k | k in s'.db.outbox ensures NoticeInv(s', k) {
      if k in s.db.outbox {
        assert NoticeInv(s, k);
        NoticeStays(s, s', k);
      }
    }
  }

  lemma PublishedActions(cfg: Config, s: Sys, s': Sys, e: Publishing)
    requires Publishes(cfg, s, s', e) && s.db.shares.Keys == s.db.results.Keys
    requires forall a | a in s.db.actions :: ActionInv(s, a)
    requires forall n | n in s.minted :: MintInv(s, n)
    ensures forall a | a in s'.db.actions :: ActionInv(s', a)
    ensures forall n | n in s'.minted :: MintInv(s', n)
  {
    PublishGrows(cfg, s, s', e);
    forall a | a in s'.db.actions ensures ActionInv(s', a) {
      ActionStays(s, s', a);
    }
    forall n | n in s'.minted ensures MintInv(s', n) {
      if n != e.ids.notice {
        assert MintInv(s, n);
        MintStays(s, s', n);
      }
    }
  }

  lemma PublishedInv(cfg: Config, s: Sys, s': Sys, e: Publishing)
    requires Inv(s) && Publishes(cfg, s, s', e)
    ensures Inv(s')
  {
    PublishUnique(cfg, s, s', e);
    PublishKeys(cfg, s, s', e);
    PublishedRows(cfg, s, s', e);
    PublishedNotices(cfg, s, s', e);
    PublishedActions(cfg, s, s', e);
  }

  // ---------------------------------------------------------------------
  // Steps that mint nothing
  // ---------------------------------------------------------------------

  /** The outbox of a step that inserts no notice and gives none another payload. */
  predicate QuietOutbox(db: Db, db': Db) {
    forall k | k in db'.outbox ::
      && k in db.outbox && SameLetter(db.outbox[k], db'.outbox[k])
      && (db'.outbox[k].status.SendingChannel? <==> db'.outbox[k].claim.Some?)
  }

  predicate QuietActions(db: Db, db': Db) {
    forall a | a in db'.actions :: a in db.actions || (a.kind.RevokeAction? && a.row in db.results)
  }

  lemma QuietUnique(s: Sys, s': Sys)
    requires Grows(s, s') && s'.db.results.Keys == s.db.results.Keys && QuietOutbox(s.db, s'.db)
    requires UniqueNames(s.db.results) && UniqueOutboxIds(s.db.outbox)
    ensures UniqueNames(s'.db.results) && UniqueOutboxIds(s'.db.outbox)
  {
    forall r | r in s'.db.results ensures SameIdentity(s.db.results[r], s'.db.results[r]) {
      assert RowGrows(s, s', r);
    }
  }

  lemma QuietActionsUnique(s: Sys, s': Sys)
    requires Grows(s, s') && QuietActions(s.db, s'.db) && UniqueActions(s.db.actions)
    ensures UniqueActions(s'.db.actions)
  {
    forall a | a in s.db.actions ensures s'.db.actions[a] == s.db.actions[a] {
      assert ActionKept(s, s', a);
    }
  }

  lemma QuietInv(s: Sys, s': Sys)
    requires Inv(s) && Grows(s, s')
    requires s'.minted == s.minted && s'.posted == s.posted && s'.db.shares == s.db.shares
    requires s'.db.results.Keys == s.db.results.Keys
    requires QuietOutbox(s.db, s'.db) && QuietActions(s.db, s'.db)
    requires forall r | r in s'.db.results :: RowInv(s', r)
    ensures Inv(s')
  {
    QuietUnique(s, s');
    QuietActionsUnique(s, s');
    forall k | k in s'.db.outbox ensures NoticeInv(s', k) {
      assert NoticeInv(s, k);
      NoticeStays(s, s', k);
    }
    forall a | a in s'.db.actions ensures ActionInv(s', a) {
      if a in s.db.actions {
        assert ActionInv(s, a);
        ActionStays(s, s', a);
      }
    }
    forall n | n in s'.minted ensures MintInv(s', n) {
      assert MintInv(s, n);
      MintStays(s, s', n);
    }
  }

  // ---------------------------------------------------------------------
  // Updating notices keeps it
  // ---------------------------------------------------------------------

  predicate LegalChanges(db: Db, changes: map<NoticeKey, Notice>) {
    forall k | k in changes :: k in db.outbox && LegalChange(db.outbox[k], changes[k])
  }

  lemma UpdateGrows(s: Sys, changes: map<NoticeKey, Notice>)
    requires LegalChanges(s.db, changes)
    ensures Grows(s, Updates(s, changes))
    ensures Updates(s, changes).db.results.Keys == s.db.results.Keys
  {
    var s' := Updates(s, changes);
    forall r | r in s.db.results ensures RowGrows(s, s', r) {}
    forall n | n in s.minted ensures MintedFor(s', n, s.minted[n]) {}
  }

  lemma UpdateKeepsRow(s: Sys, changes: map<NoticeKey, Notice>, r: string)
    requires LegalChanges(s.db, changes) && r in s.db.results && RowInv(s, r)
    ensures RowInv(Updates(s, changes), r)
  {
    var s' := Updates(s, changes);
    UpdateGrows(s, changes);
    var row, row' := s.db.results[r], s'.db.results[r];
    assert row' == TouchedRow(r, row, changes);
    forall n: string ensures IsLive(s'.db, r, n) <==> IsLive(s.db, r, n) {
      var k := NoticeKey(DeviceOrigin(row.device), n);
      if k in changes { assert LegalChange(s.db.outbox[k], changes[k]); }
    }
    assert MintedFor(s', row'.currentNotice, r);
    RowStays(s, s', r);
  }

  lemma UpdateInv(s: Sys, changes: map<NoticeKey, Notice>)
    requires Inv(s) && LegalChanges(s.db, changes)
    ensures Inv(Updates(s, changes))
  {
    var s' := Updates(s, changes);
    UpdateGrows(s, changes);
    UpdateRows(s, changes);
    UpdateQuiet(s, changes);
    QuietInv(s, s');
  }

  lemma UpdateRows(s: Sys, changes: map<NoticeKey, Notice>)
    requires LegalChanges(s.db, changes) && forall r | r in s.db.results :: RowInv(s, r)
    ensures forall r | r in Updates(s, changes).db.results :: RowInv(Updates(s, changes), r)
  {
    forall r | r in s.db.results ensures RowInv(Updates(s, changes), r) {
      UpdateKeepsRow(s, changes, r);
    }
  }

  lemma UpdateQuiet(s: Sys, changes: map<NoticeKey, Notice>)
    requires LegalChanges(s.db, changes) && forall k | k in s.db.outbox :: NoticeInv(s, k)
    ensures QuietOutbox(s.db, Updates(s, changes).db)
  {
    var s' := Updates(s, changes);
    forall k | k in s'.db.outbox && k !in changes
      ensures s'.db.outbox[k].status.SendingChannel? <==> s'.db.outbox[k].claim.Some?
    {
      assert NoticeInv(s, k);
    }
  }

  lemma WorkLegal(s: Sys, step: WorkerStep)
    requires Inv(s)
    ensures LegalChanges(s.db, Changes(s.db, step))
  {
    var changes := Changes(s.db, step);
    forall k | k in changes ensures LegalChange(s.db.outbox[k], changes[k]) {
      assert NoticeInv(s, k);
      StepsAreLegal(step, k, s.db.outbox[k]);
    }
  }

  lemma CancellationsLegal(db: Db, r: string, now: int)
    ensures LegalChanges(db, Cancellations(db, r, now))
  {
  }

  // ---------------------------------------------------------------------
  // Revoking keeps it
  // ---------------------------------------------------------------------

  function Stamped(s: Sys, r: string, now: int): Sys
    requires r in s.db.results
  {
    s.(db := s.db.(results := s.db.results[r := RevokedRow(s.db.results[r], now)]))
  }

  function Recorded(s: Sys, a: ActionKey, now: int): Sys {
    if a in s.db.actions then s else s.(db := s.db.(actions := s.db.actions[a := Action(None, now)]))
  }

  /** The invariant puts a claim token on exactly the notices being sent. */
  lemma SameOutboxIsQuiet(s: Sys, db': Db)
    requires Inv(s) && db'.outbox == s.db.outbox
    ensures QuietOutbox(s.db, db')
  {
    forall k | k in db'.outbox ensures db'.outbox[k].status.SendingChannel? <==> db'.outbox[k].claim.Some? {
      assert NoticeInv(s, k);
    }
  }

  lemma StampedGrows(s: Sys, r: string, now: int)
    requires r in s.db.results
    ensures Grows(s, Stamped(s, r, now))
    ensures Stamped(s, r, now).db.results.Keys == s.db.results.Keys
    ensures QuietActions(s.db, Stamped(s, r, now).db)
  {
    var s' := Stamped(s, r, now);
    forall n | n in s.minted ensures MintedFor(s', n, s.minted[n]) {}
  }

  lemma StampedKeepsRow(s: Sys, r: string, now: int, x: string)
    requires r in s.db.results && x in s.db.results && RowInv(s, x)
    ensures RowInv(Stamped(s, r, now), x)
  {
    var s' := Stamped(s, r, now);
    StampedGrows(s, r, now);
    assert MintedFor(s', s.db.results[x].currentNotice, x);
    RowStays(s, s', x);
  }

  lemma StampedRows(s: Sys, r: string, now: int)
    requires r in s.db.results && forall x | x in s.db.results :: RowInv(s, x)
    ensures var s' := Stamped(s, r, now); forall x | x in s'.db.results :: RowInv(s', x)
  {
    forall x | x in s.db.results ensures RowInv(Stamped(s, r, now), x) {
      StampedKeepsRow(s, r, now, x);
    }
  }

  lemma StampedInv(s: Sys, r: string, now: int)
    requires Inv(s) && r in s.db.results
    ensures Inv(Stamped(s, r, now))
  {
    var s' := Stamped(s, r, now);
    StampedGrows(s, r, now);
    StampedRows(s, r, now);
    assert QuietOutbox(s.db, s'.db) by { SameOutboxIsQuiet(s, s'.db); }
    QuietInv(s, s');
  }

  lemma RecordedGrows(s: Sys, a: ActionKey, now: int)
    ensures Grows(s, Recorded(s, a, now))
  {
    var s' := Recorded(s, a, now);
    forall n | n in s.minted ensures MintedFor(s', n, s.minted[n]) {}
  }

  lemma RecordedInv(s: Sys, a: ActionKey, now: int)
    requires Inv(s) && a.row in s.db.results && a.kind.RevokeAction?
    ensures Inv(Recorded(s, a, now))
  {
    if a !in s.db.actions {
      var s' := Recorded(s, a, now);
      RecordedGrows(s, a, now);
      forall x | x in s'.db.results ensures RowInv(s', x) {
        assert RowInv(s, x);
        RowUntouched(s, s', x);
      }
      SameOutboxIsQuiet(s, s'.db);
      assert QuietActions(s.db, s'.db);
      QuietInv(s, s');
    }
  }

  lemma GrowsTransitive(a: Sys, b: Sys, c: Sys)
    requires Grows(a, b) && Grows(b, c)
    ensures Grows(a, c)
  {
    forall n | n in a.minted ensures MintedFor(c, n, a.minted[n]) {
      assert MintedFor(b, n, a.minted[n]);
      assert MintedFor(c, n, b.minted[n]);
    }
    forall r | r in a.db.results ensures RowGrows(a, c, r) {
      assert RowGrows(a, b, r) && RowGrows(b, c, r);
    }
    forall r | r in a.db.shares ensures ShareKept(a, c, r) {
      assert ShareKept(a, b, r) && ShareKept(b, c, r);
    }
    forall x | x in a.db.actions ensures ActionKept(a, c, x) {
      assert ActionKept(a, b, x) && ActionKept(b, c, x);
    }
  }

  /** A revocation is a stamp, the cancellations, and a recorded action. */
  lemma RevokeSteps(s: Sys, r: string, requestId: string, now: int)
    requires r in s.db.results && ValidRequestId(requestId)
    ensures var s1 := Stamped(s, r, now);
            var s2 := Updates(s1, Cancellations(s1.db, r, now));
            RevokeStep(s, r, requestId, now)
              == Recorded(s2, ActionKey(r, RevokeAction, requestId), now)
  {
  }

  lemma RevokeInv(s: Sys, r: string, requestId: string, now: int)
    requires Inv(s)
    ensures var s' := RevokeStep(s, r, requestId, now); Grows(s, s') && Inv(s')
  {
    if r in s.db.results && ValidRequestId(requestId) {
      var s1 := Stamped(s, r, now);
      StampedGrows(s, r, now);
      StampedInv(s, r, now);
      CancellationsLegal(s1.db, r, now);
      var changes := Cancellations(s1.db, r, now);
      UpdateInv(s1, changes);
      UpdateGrows(s1, changes);
      var s2 := Updates(s1, changes);
      RecordedGrows(s2, ActionKey(r, RevokeAction, requestId), now);
      RecordedInv(s2, ActionKey(r, RevokeAction, requestId), now);
      GrowsTransitive(s, s1, s2);
      GrowsTransitive(s, s2, Recorded(s2, ActionKey(r, RevokeAction, requestId), now));
      RevokeSteps(s, r, requestId, now);
    } else {
      GrowsReflexive(s);
    }
  }

  lemma GrowsReflexive(s: Sys)
    ensures Grows(s, s)
  {
  }

  // ---------------------------------------------------------------------
  // Resending keeps it
  // ---------------------------------------------------------------------

  function ResentRow(row: ResultRow, now: int, notice: string): ResultRow {
    row.(currentNotice := notice, noticeStatus := PendingChannel, updatedAt := ResendStamp(row.updatedAt, now))
  }

  datatype Resending = Resending(row: string, requestId: string, now: int, notice: string, outbox: string,
                                 text: string, queued: bool)

  predicate ResendsOpen(s: Sys, e: Resending) {
    && e.row in s.db.results && IsLive(s.db, e.row, s.db.results[e.row].initialNotice)
    && ActionKey(e.row, ResendAction, e.requestId) !in s.db.actions
    && s.db.results[e.row].revokedAt.None? && e.now < s.db.results[e.row].pageExpiresAt
    && FreshNotice(s, s.db.results[e.row].device, e.notice, e.outbox)
    && e.text == LiveNotice(s.db, e.row, s.db.results[e.row].initialNotice).payload.text.plain
  }

  /** The state a resend that commits leads to; `queued` says whether its notice reached the outbox. */
  function ResendResult(s: Sys, e: Resending): Option<Sys> {
    if !ResendsOpen(s, e) then None
    else
      var row, action := s.db.results[e.row], ActionKey(e.row, ResendAction, e.requestId);
      var k := NoticeKey(DeviceOrigin(row.device), e.notice);
      var n := ResentNotice(s.db, e.row, e.requestId, e.now, e.text, e.notice, e.outbox);
      if e.queued != CanQueue(s.db, k, n) then None
      else
        Some(Sys(Db(s.db.results[e.row := ResentRow(row, e.now, e.notice)], s.db.shares,
                    s.db.actions[action := Action(Some(e.notice), e.now)],
                    if e.queued then s.db.outbox[k := n] else s.db.outbox, s.db.devices),
                 s.swept, s.minted[e.notice := e.row], if e.queued then s.posted + {e.notice} else s.posted))
  }

  predicate Resends(s: Sys, s': Sys, e: Resending) {
    ResendResult(s, e) == Some(s')
  }

  ghost predicate ResendsNamed(s: Sys, s': Sys, device: Uuid, resultId: string, requestId: string, now: int,
                               notice: string, outbox: string) {
    exists e: Resending ::
      && Resends(s, s', e) && s.db.results[e.row].device == device && s.db.results[e.row].resultId == resultId
      && e.requestId == requestId && e.now == now && e.notice == notice && e.outbox == outbox
  }

  lemma ResendEffect(cfg: Config, s: Sys, device: Uuid, resultId: string, requestId: string, now: int,
                     notice: string, outbox: string)
    ensures var s' := ResendStep(cfg, s, device, resultId, requestId, now, notice, outbox);
            s' == s || ResendsNamed(s, s', device, resultId, requestId, now, notice, outbox)
  {
    var s' := ResendStep(cfg, s, device, resultId, requestId, now, notice, outbox);
    if s' != s {
      var r := Pick(RowsNamed(s.db, device, resultId));
      var row := s.db.results[r];
      var k := NoticeKey(DeviceOrigin(row.device), notice);
      var text := LiveNotice(s.db, r, row.initialNotice).payload.text.plain;
      var n := ResentNotice(s.db, r, requestId, now, text, notice, outbox);
      assert Resends(s, s', Resending(r, requestId, now, notice, outbox, text, CanQueue(s.db, k, n)));
    }
  }

  lemma ResendGrows(s: Sys, s': Sys, e: Resending)
    requires Resends(s, s', e)
    ensures Grows(s, s')
  {
    forall n | n in s.minted ensures MintedFor(s', n, s.minted[n]) {}
    forall x | x in s.db.results ensures RowGrows(s, s', x) {}
    forall a | a in s.db.actions ensures ActionKept(s, s', a) {}
  }

  /** The resent row: its current notice is the new one, pending, if it was queued at all. */
  lemma ResendRowInv(s: Sys, s': Sys, e: Resending)
    requires Resends(s, s', e) && RowInv(s, e.row)
    ensures RowInv(s', e.row)
  {
    ResendGrows(s, s', e);
    assert s'.db.results[e.row] == ResentRow(s.db.results[e.row], e.now, e.notice);
    assert s.db.results[e.row].initialNotice != e.notice;
    assert IsLive(s'.db, e.row, s.db.results[e.row].initialNotice);
    RowStays(s, s', e.row);
  }

  lemma ResendOtherRow(s: Sys, s': Sys, e: Resending, x: string)
    requires Resends(s, s', e)
    requires x in s.db.results && x != e.row && RowInv(s, x)
    ensures RowInv(s', x)
  {
    ResendGrows(s, s', e);
    assert s.db.results[x].initialNotice != e.notice && s.db.results[x].currentNotice != e.notice;
    RowUntouched(s, s', x);
  }

  lemma ResendNotice(s: Sys, s': Sys, e: Resending)
    requires Resends(s, s', e)
    requires e.row in s.db.shares
    requires NoticeInv(s, NoticeKey(DeviceOrigin(s.db.results[e.row].device), s.db.results[e.row].initialNotice))
    ensures e.queued ==> NoticeInv(s', NoticeKey(DeviceOrigin(s.db.results[e.row].device), e.notice))
  {
  }

  lemma ResendUnique(s: Sys, s': Sys, e: Resending)
    requires Resends(s, s', e)
    requires UniqueNames(s.db.results) && UniqueOutboxIds(s.db.outbox)
    requires s.db.shares.Keys == s.db.results.Keys && s.posted <= s.minted.Keys
    ensures UniqueNames(s'.db.results) && UniqueOutboxIds(s'.db.outbox)
    ensures s'.db.shares.Keys == s'.db.results.Keys && s'.posted <= s'.minted.Keys && s'.db.shares == s.db.shares
  {
  }

  lemma ResendActions(s: Sys, s': Sys, e: Resending)
    requires Resends(s, s', e)
    requires UniqueActions(s.db.actions) && MintedFor(s, s.db.results[e.row].initialNotice, e.row)
    requires forall a | a in s.db.actions :: ActionInv(s, a)
    ensures UniqueActions(s'.db.actions)
    ensures forall a | a in s'.db.actions :: ActionInv(s', a)
  {
    ResendGrows(s, s', e);
    var action := ActionKey(e.row, ResendAction, e.requestId);
    forall a | a in s.db.actions ensures ActionInv(s', a) {
      ActionStays(s, s', a);
    }
    forall a | a in s.db.actions && a.kind.ResendAction? ensures s.db.actions[a].notice != Some(e.notice) {
      assert ActionInv(s, a);
    }
    assert s'.db.results[e.row].initialNotice != e.notice;
    assert ActionInv(s', action);
  }

  lemma ResendRows(s: Sys, s': Sys, e: Resending)
    requires Resends(s, s', e)
    requires forall x | x in s.db.results :: RowInv(s, x)
    ensures forall x | x in s'.db.results :: RowInv(s', x)
  {
    forall x | x in s'.db.results ensures RowInv(s', x) {
      if x == e.row {
        ResendRowInv(s, s', e);
      } else {
        ResendOtherRow(s, s', e, x);
      }
    }
  }

  lemma ResendNotices(s: Sys, s': Sys, e: Resending)
    requires Resends(s, s', e)
    requires e.row in s.db.shares && forall k | k in s.db.outbox :: NoticeInv(s, k)
    ensures forall k | k in s'.db.outbox :: NoticeInv(s', k)
  {
    ResendGrows(s, s', e);
    ResendNotice(s, s', e);
    forall k | k in s'.db.outbox ensures NoticeInv(s', k) {
      if k in s.db.outbox {
        NoticeStays(s, s', k);
      }
    }
  }

  lemma ResendMints(s: Sys, s': Sys, e: Resending)
    requires Resends(s, s', e)
    requires forall n | n in s.minted :: MintInv(s, n)
    ensures forall n | n in s'.minted :: MintInv(s', n)
  {
    ResendGrows(s, s', e);
    forall n | n in s'.minted ensures MintInv(s', n) {
      if n in s.minted {
        MintStays(s, s', n);
      } else {
        assert s'.db.actions[ActionKey(e.row, ResendAction, e.requestId)].notice == Some(n);
      }
    }
  }

  lemma ResentTables(s: Sys, s': Sys, e: Resending)
    requires Inv(s) && Resends(s, s', e)
    ensures s'.db.shares.Keys == s'.db.results.Keys && s'.posted <= s'.minted.Keys
    ensures UniqueNames(s'.db.results) && UniqueTokens(s'.db.shares) && UniqueOutboxIds(s'.db.outbox)
    ensures UniqueActions(s'.db.actions)
    ensures forall a | a in s'.db.actions :: ActionInv(s', a)
  {
    assert RowInv(s, e.row);
    ResendUnique(s, s', e);
    ResendActions(s, s', e);
  }

  lemma ResentEntries(s: Sys, s': Sys, e: Resending)
    requires Inv(s) && Resends(s, s', e)
    ensures forall x | x in s'.db.results :: RowInv(s', x)
    ensures forall k | k in s'.db.outbox :: NoticeInv(s', k)
    ensures forall n | n in s'.minted :: MintInv(s', n)
  {
    assert RowInv(s, e.row);
    ResendRows(s, s', e);
    ResendNotices(s, s', e);
    ResendMints(s, s', e);
  }

  lemma ResentInv(s: Sys, s': Sys, e: Resending)
    requires Inv(s) && Resends(s, s', e)
    ensures Inv(s')
  {
    ResentTables(s, s', e);
    ResentEntries(s, s', e);
  }

  // ---------------------------------------------------------------------
  // Retention, ingress and devices keep it
  // ---------------------------------------------------------------------

  /** A purged body was due. */
  lemma PurgedWasDue(db: Db, now: int, r: string)
    requires r in db.results && SortKey(db.results[r].bodyRetainUntil, r) in FirstN(DueBodies(db, now), RETENTION_BATCH)
    ensures db.results[r].bodyPurgedAt.None? && db.results[r].bodyRetainUntil <= now
  {
  }

  lemma PurgeGrows(s: Sys, now: int)
    ensures Grows(s, Purged(s, now))
    ensures Purged(s, now).db.results.Keys == s.db.results.Keys
  {
    var s' := Purged(s, now);
    forall n | n in s.minted ensures MintedFor(s', n, s.minted[n]) {}
    forall r | r in s.db.results ensures RowGrows(s, s', r) {}
  }

  lemma PurgeKeepsRow(s: Sys, now: int, r: string)
    requires r in s.db.results && RowInv(s, r)
    ensures RowInv(Purged(s, now), r)
  {
    var s' := Purged(s, now);
    PurgeGrows(s, now);
    if SortKey(s.db.results[r].bodyRetainUntil, r) in FirstN(DueBodies(s.db, now), RETENTION_BATCH) {
      PurgedWasDue(s.db, now, r);
    }
    assert MintedFor(s', s'.db.results[r].currentNotice, r);
    RowStays(s, s', r);
  }

  lemma PurgeRows(s: Sys, now: int)
    requires forall r | r in s.db.results :: RowInv(s, r)
    ensures forall r | r in Purged(s, now).db.results :: RowInv(Purged(s, now), r)
  {
    forall r | r in s.db.results ensures RowInv(Purged(s, now), r) {
      PurgeKeepsRow(s, now, r);
    }
  }

  lemma PurgeInv(s: Sys, now: int)
    requires Inv(s)
    ensures Inv(Purged(s, now))
  {
    PurgeGrows(s, now);
    PurgeRows(s, now);
    SameOutboxIsQuiet(s, Purged(s, now).db);
    QuietInv(s, Purged(s, now));
  }

  /** Outbox ids are unique, so a sort key names one notice. */
  lemma SortKeyNamesNotice(db: Db, a: NoticeKey, b: NoticeKey)
    requires UniqueOutboxIds(db.outbox) && a in db.outbox && b in db.outbox
    requires NoticeSort(db.outbox[a]) == NoticeSort(db.outbox[b])
    ensures a == b
  {
  }

  lemma DeletedWasDue(db: Db, cfg: Config, now: int, k: NoticeKey)
    requires UniqueOutboxIds(db.outbox) && k in db.outbox
    requires NoticeSort(db.outbox[k]) in FirstN(DueNotices(db, cfg, now), RETENTION_BATCH)
    ensures NoticeDue(db, cfg, db.outbox[k], now)
  {
    var j :| j in db.outbox && NoticeDue(db, cfg, db.outbox[j], now)
             && NoticeSort(db.outbox[j]) == NoticeSort(db.outbox[k]);
    SortKeyNamesNotice(db, j, k);
  }

  /** Every row the copy selects has a live current notice: notification ids belong to one row. */
  lemma CopiedIsLive(s: Sys, cfg: Config, now: int, r: string)
    requires UniqueOutboxIds(s.db.outbox) && r in s.db.results && r in CopiedRows(s.db, cfg, now)
    requires forall x | x in s.db.results :: MintedFor(s, s.db.results[x].currentNotice, x)
    requires forall k | k in s.db.outbox && s.db.outbox[k].payload.Link? ::
               MintedFor(s, k.noticeId, s.db.outbox[k].payload.resultRow)
               && s.db.outbox[k].payload.resultRow in s.db.results
               && k.origin == DeviceOrigin(s.db.results[s.db.outbox[k].payload.resultRow].device)
    ensures IsLive(s.db, r, s.db.results[r].currentNotice)
  {
    var batch := FirstN(DueCurrent(s.db, cfg, now), RETENTION_BATCH);
    var k :| k in s.db.outbox && NoticeSort(s.db.outbox[k]) in batch && s.db.outbox[k].payload.Link?
             && s.db.outbox[k].payload.resultRow == r;
    var j :| j in s.db.outbox && j.noticeId in CurrentNotices(s.db)
             && NoticeSort(s.db.outbox[j]) == NoticeSort(s.db.outbox[k]);
    SortKeyNamesNotice(s.db, j, k);
    var x :| x in s.db.results && s.db.results[x].currentNotice == k.noticeId;
    assert x == r;
  }

  /** The retention transaction never trips over the NOT NULL status column. */
  lemma RetentionCommits(s: Sys, cfg: Config, now: int)
    requires Inv(s)
    ensures CopySucceeds(s.db, cfg, now)
  {
    forall x | x in s.db.results ensures MintedFor(s, s.db.results[x].currentNotice, x) {
      assert RowInv(s, x);
    }
    forall k | k in s.db.outbox && s.db.outbox[k].payload.Link?
      ensures MintedFor(s, k.noticeId, s.db.outbox[k].payload.resultRow)
      ensures s.db.outbox[k].payload.resultRow in s.db.results
      ensures k.origin == DeviceOrigin(s.db.results[s.db.outbox[k].payload.resultRow].device)
    {
      assert NoticeInv(s, k);
    }
    forall r | r in CopiedRows(s.db, cfg, now) && r in s.db.results
      ensures IsLive(s.db, r, s.db.results[r].currentNotice)
    {
      CopiedIsLive(s, cfg, now, r);
    }
  }

  lemma RetainGrows(s: Sys, cfg: Config, now: int)
    requires CopySucceeds(s.db, cfg, now)
    ensures Grows(s, Retain(s, cfg, now))
    ensures Retain(s, cfg, now).db.results.Keys == s.db.results.Keys
  {
    var s' := Retain(s, cfg, now);
    forall n | n in s.minted ensures MintedFor(s', n, s.minted[n]) {}
    forall r | r in s.db.results ensures RowGrows(s, s', r) {}
  }

  lemma RetainKeepsRow(s: Sys, cfg: Config, now: int, r: string)
    requires CopySucceeds(s.db, cfg, now) && UniqueOutboxIds(s.db.outbox) && r in s.db.results && RowInv(s, r)
    ensures RowInv(Retain(s, cfg, now), r)
  {
    var s' := Retain(s, cfg, now);
    RetainGrows(s, cfg, now);
    var row := s.db.results[r];
    var k := NoticeKey(DeviceOrigin(row.device), row.initialNotice);
    if IsLive(s.db, r, row.initialNotice) && !IsLive(s'.db, r, row.initialNotice) {
      DeletedWasDue(s.db, cfg, now, k);
    }
    assert MintedFor(s', s'.db.results[r].currentNotice, r);
    RowStays(s, s', r);
  }

  lemma RetainRows(s: Sys, cfg: Config, now: int)
    requires CopySucceeds(s.db, cfg, now) && UniqueOutboxIds(s.db.outbox)
    requires forall r | r in s.db.results :: RowInv(s, r)
    ensures forall r | r in Retain(s, cfg, now).db.results :: RowInv(Retain(s, cfg, now), r)
  {
    forall r | r in s.db.results ensures RowInv(Retain(s, cfg, now), r) {
      RetainKeepsRow(s, cfg, now, r);
    }
  }

  lemma RetainQuiet(s: Sys, cfg: Config, now: int)
    requires CopySucceeds(s.db, cfg, now) && forall k | k in s.db.outbox :: NoticeInv(s, k)
    ensures QuietOutbox(s.db, Retain(s, cfg, now).db)
  {
    forall k | k in Retain(s, cfg, now).db.outbox
      ensures s.db.outbox[k].status.SendingChannel? <==> s.db.outbox[k].claim.Some?
    {
      assert NoticeInv(s, k);
    }
  }

  lemma RetainInv(s: Sys, cfg: Config, now: int)
    requires Inv(s)
    ensures CopySucceeds(s.db, cfg, now) && Inv(Retain(s, cfg, now))
  {
    RetentionCommits(s, cfg, now);
    RetainGrows(s, cfg, now);
    RetainRows(s, cfg, now);
    RetainQuiet(s, cfg, now);
    QuietInv(s, Retain(s, cfg, now));
  }

  lemma QueueGrows(s: Sys, k: NoticeKey, n: Notice)
    ensures Grows(s, Queued(s, k, n))
  {
    forall x | x in s.minted ensures MintedFor(Queued(s, k, n), x, s.minted[x]) {}
  }

  /** A plain row never joins a result, whatever id its sender chose for it. */
  lemma QueueKeepsRow(s: Sys, k: NoticeKey, n: Notice, r: string)
    requires QueuesPlain(s.db, k, n) && r in s.db.results && RowInv(s, r)
    ensures RowInv(Queued(s, k, n), r)
  {
    QueueGrows(s, k, n);
    assert MintedFor(Queued(s, k, n), s.db.results[r].currentNotice, r);
    RowStays(s, Queued(s, k, n), r);
  }

  lemma QueueRows(s: Sys, k: NoticeKey, n: Notice)
    requires QueuesPlain(s.db, k, n) && forall r | r in s.db.results :: RowInv(s, r)
    ensures forall r | r in Queued(s, k, n).db.results :: RowInv(Queued(s, k, n), r)
  {
    forall r | r in s.db.results ensures RowInv(Queued(s, k, n), r) {
      QueueKeepsRow(s, k, n, r);
    }
  }

  lemma QueueNotices(s: Sys, k: NoticeKey, n: Notice)
    requires QueuesPlain(s.db, k, n) && UniqueOutboxIds(s.db.outbox)
    requires forall x | x in s.db.outbox :: NoticeInv(s, x)
    ensures UniqueOutboxIds(Queued(s, k, n).db.outbox)
    ensures forall x | x in Queued(s, k, n).db.outbox :: NoticeInv(Queued(s, k, n), x)
  {
    var s' := Queued(s, k, n);
    QueueGrows(s, k, n);
    forall x | x in s'.db.outbox ensures NoticeInv(s', x) {
      if x != k {
        NoticeStays(s, s', x);
      }
    }
  }

  /** Actions and minted ids follow when nothing is minted and no action is added. */
  lemma ActionsAndMintsStay(s: Sys, s': Sys)
    requires Grows(s, s') && s'.db.actions == s.db.actions && s'.minted == s.minted
    requires forall a | a in s.db.actions :: ActionInv(s, a)
    requires forall n | n in s.minted :: MintInv(s, n)
    ensures forall a | a in s'.db.actions :: ActionInv(s', a)
    ensures forall n | n in s'.minted :: MintInv(s', n)
  {
    forall a | a in s'.db.actions ensures ActionInv(s', a) {
      ActionStays(s, s', a);
    }
    forall n | n in s'.minted ensures MintInv(s', n) {
      MintStays(s, s', n);
    }
  }

  lemma QueueInv(s: Sys, k: NoticeKey, n: Notice)
    requires Inv(s) && QueuesPlain(s.db, k, n)
    ensures Inv(Queued(s, k, n))
  {
    QueueGrows(s, k, n);
    QueueRows(s, k, n);
    QueueNotices(s, k, n);
    ActionsAndMintsStay(s, Queued(s, k, n));
  }

  lemma DeviceGrows(s: Sys, device: Uuid, flags: DeviceFlags)
    ensures Grows(s, WithDevice(s, device, flags))
  {
    forall x | x in s.minted ensures MintedFor(WithDevice(s, device, flags), x, s.minted[x]) {}
  }

  lemma DeviceRows(s: Sys, device: Uuid, flags: DeviceFlags)
    requires forall r | r in s.db.results :: RowInv(s, r)
    ensures forall r | r in WithDevice(s, device, flags).db.results :: RowInv(WithDevice(s, device, flags), r)
  {
    DeviceGrows(s, device, flags);
    forall r | r in s.db.results ensures RowInv(WithDevice(s, device, flags), r) {
      RowUntouched(s, WithDevice(s, device, flags), r);
    }
  }

  lemma DeviceInv(s: Sys, device: Uuid, flags: DeviceFlags)
    requires Inv(s)
    ensures Inv(WithDevice(s, device, flags))
  {
    DeviceGrows(s, device, flags);
    DeviceRows(s, device, flags);
    SameOutboxIsQuiet(s, WithDevice(s, device, flags).db);
    QuietInv(s, WithDevice(s, device, flags));
  }

  // ---------------------------------------------------------------------
  // Every run
  // ---------------------------------------------------------------------

  lemma PublishInv(cfg: Config, s: Sys, device: Uuid, p: Publication, target: Option<string>, now: nat, ids: Ids)
    requires Inv(s) && ValidConfig(cfg)
    ensures var s' := PublishStep(cfg, s, device, p, target, now, ids); Inv(s') && Grows(s, s')
  {
    GrowsReflexive(s);
    PublishEffect(cfg, s, device, p, target, now, ids);
    var s' := PublishStep(cfg, s, device, p, target, now, ids);
    if s' != s {
      PublishedInv(cfg, s, s', Attempt(cfg, device, p, target.value, now, ids));
      PublishGrows(cfg, s, s', Attempt(cfg, device, p, target.value, now, ids));
    }
  }

  lemma ResendInv(cfg: Config, s: Sys, device: Uuid, resultId: string, requestId: string, now: int,
                  notice: string, outbox: string)
    requires Inv(s) && ValidConfig(cfg)
    ensures var s' := ResendStep(cfg, s, device, resultId, requestId, now, notice, outbox); Inv(s') && Grows(s, s')
  {
    GrowsReflexive(s);
    ResendEffect(cfg, s, device, resultId, requestId, now, notice, outbox);
    var s' := ResendStep(cfg, s, device, resultId, requestId, now, notice, outbox);
    if s' != s {
      var e :| Resends(s, s', e);
      ResentInv(s, s', e);
      ResendGrows(s, s', e);
    }
  }

  lemma WorkInv(s: Sys, step: WorkerStep)
    requires Inv(s)
    ensures var s' := Updates(s, Changes(s.db, step)); Inv(s') && Grows(s, s')
  {
    WorkLegal(s, step);
    UpdateInv(s, Changes(s.db, step));
    UpdateGrows(s, Changes(s.db, step));
  }

  /** Every step keeps the invariant and takes nothing back. */
  lemma ApplyInv(cfg: Config, s: Sys, op: Op)
    requires Inv(s) && ValidConfig(cfg)
    ensures Inv(Apply(cfg, s, op)) && Grows(s, Apply(cfg, s, op))
  {
    match op
    case DoPublish(device, p, target, now, ids) => PublishInv(cfg, s, device, p, target, now, ids);
    case DoResend(device, resultId, requestId, now, notice, outbox) =>
      ResendInv(cfg, s, device, resultId, requestId, now, notice, outbox);
    case DoRevoke(row, requestId, now) => RevokeInv(s, row, requestId, now);
    case DoPurge(now) => PurgeInv(s, now); PurgeGrows(s, now);
    case DoRetain(now) => RetainInv(s, cfg, now); RetainGrows(s, cfg, now);
    case DoWork(step) => WorkInv(s, step);
    case DoEnqueue(key, plain) =>
      if QueuesPlain(s.db, key, plain) {
        QueueInv(s, key, plain);
        QueueGrows(s, key, plain);
      } else {
        GrowsReflexive(s);
      }
    case DoSetDevice(device, flags) => DeviceInv(s, device, flags); DeviceGrows(s, device, flags);
  }

  lemma {:induction false} RunInv(cfg: Config, s: Sys, ops: seq<Op>)
    requires Inv(s) && ValidConfig(cfg)
    ensures Inv(Run(cfg, s, ops)) && Grows(s, Run(cfg, s, ops))
    decreases |ops|
  {
    if ops == [] {
      GrowsReflexive(s);
    } else {
      var s' := Apply(cfg, s, ops[0]);
      ApplyInv(cfg, s, ops[0]);
      RunInv(cfg, s', ops[1..]);
      GrowsTransitive(s, s', Run(cfg, s', ops[1..]));
    }
  }

  lemma {:induction false} RunTwice(cfg: Config, s: Sys, a: seq<Op>, b: seq<Op>)
    ensures Run(cfg, s, a + b) == Run(cfg, Run(cfg, s, a), b)
    decreases |a|
  {
    if a == [] {
      assert a + b == b;
    } else {
      assert (a + b)[0] == a[0] && (a + b)[1..] == a[1..] + b;
      RunTwice(cfg, Apply(cfg, s, a[0]), a[1..], b);
    }
  }
}
