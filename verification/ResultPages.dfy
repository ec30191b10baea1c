/**
 Durable result pages: the tables they live in, the transactions that change them,
 and the reads that project them. Every write transaction is one atomic function from
 tables to tables. The clock reading, the random ids and the share token are arguments.

 The cipher is ideal: a sealed value opens only under the associated data it was
 sealed with. Hashes are ideal: a digest is as good as what it was taken of.
 */
module ResultPages {
  import opened Basics
  import opened Delivery
  import opened TokenFormat

  const DAY_MS: int := 86_400_000
  const MAX_TTL_MS: int := 30 * DAY_MS
  const RETENTION_BATCH: nat := 500
  const MAX_RESULT_BODY_BYTES: nat := 262_144

  // ---------------------------------------------------------------------
  // Publications
  // ---------------------------------------------------------------------

  datatype Hash = Sha256(of: string)

  datatype Publication = Publication(
    schemaVersion: int, resultId: string, dedupeKey: string, kind: string, contentMode: string,
    source: string, correlationKey: string, resultRevision: string, title: string, body: string,
    sourceHash: Hash, createdAt: int, notificationExpiresAt: int,
    startedAt: Option<int>, completedAt: Option<int>, durationMs: Option<int>)

  predicate ValidTime(t: int) {
    0 <= t <= 9_007_199_254_740_991
  }

  predicate ValidOptionalTime(t: Option<int>) {
    t.Some? ==> ValidTime(t.value)
  }

  predicate ValidKey(s: string, max: nat) {
    0 < Utf8Len(s) <= max && forall c | c in s :: !IsControl(c) && !IsWhitespace(c)
  }

  function Decimal(s: string): int {
    if s == "" then 0 else Decimal(s[..|s| - 1]) * 10 + (s[|s| - 1] as int - '0' as int)
  }

  predicate ValidPublication(p: Publication, maxBody: nat) {
    && p.schemaVersion == 1
    && p.kind == "run_completed" && p.contentMode == "full_final" && p.source == "codex_stop"
    && ValidKey(p.resultId, 128) && ValidKey(p.dedupeKey, 256) && ValidKey(p.correlationKey, 128)
    && 0 < |p.resultRevision| <= 20 && (forall c | c in p.resultRevision :: IsDigit(c))
    && p.resultRevision[0] != '0' && Decimal(p.resultRevision) <= I64_MAX
    && (exists c :: c in p.title && !IsWhitespace(c)) && |p.title| <= 128
    && (forall c | c in p.title :: !IsControl(c))
    && Utf8Len(p.body) <= maxBody
    && p.sourceHash == Sha256(p.body)
    && ValidTime(p.createdAt) && ValidTime(p.notificationExpiresAt)
    && p.createdAt < p.notificationExpiresAt
    && ValidOptionalTime(p.startedAt) && ValidOptionalTime(p.completedAt) && ValidOptionalTime(p.durationMs)
  }

  // ---------------------------------------------------------------------
  // Ideal cipher
  // ---------------------------------------------------------------------

  datatype Aad =
    | BodyAad(device: Uuid, resultId: string, hash: Hash)
    | TokenAad(device: Uuid, resultId: string, hash: Hash)
    | NoticeAad(device: Uuid, resultId: string, hash: Hash, noticeId: string)

  datatype Sealed = Sealed(plain: string, aad: Aad)

  function Open(s: Sealed, aad: Aad): Option<string> {
    if s.aad == aad then Some(s.plain) else None
  }

  // ---------------------------------------------------------------------
  // Tables
  // ---------------------------------------------------------------------

  datatype RequestDigest = RequestDigest(of: Publication)
  datatype TokenDigest = TokenDigest(of: Secret)

  datatype ResultRow = ResultRow(
    device: Uuid, resultId: string, dedupeKey: string, digest: RequestDigest, title: string,
    body: Option<Sealed>, bodyBytes: nat, sourceHash: Hash,
    acceptedAt: int, pageExpiresAt: int, bodyRetainUntil: int,
    bodyPurgedAt: Option<int>, revokedAt: Option<int>,
    initialNotice: string, currentNotice: string, noticeStatus: DeliveryStatus, updatedAt: int)

  datatype Share = Share(digest: TokenDigest, token: Sealed, publicOrigin: string, createdAt: int)

  datatype ActionKind = ResendAction | RevokeAction
  datatype ActionKey = ActionKey(row: string, kind: ActionKind, requestId: string)
  datatype Action = Action(notice: Option<string>, createdAt: int)

  /** `origin_key`: devices, the interactive system origin, and the admin origin. */
  datatype Origin = DeviceOrigin(device: Uuid) | SystemOrigin | AdminOrigin

  /** The unique index on (origin_key, notification_id). */
  datatype NoticeKey = NoticeKey(origin: Origin, noticeId: string)

  /** A plain row carries its own body; a protected link belongs to a result row. */
  datatype Payload = Plain | Link(resultRow: string, text: Sealed)

  datatype Claim = Claim(token: string, at: int)

  datatype Notice = Notice(
    id: string, dedupeKey: string, target: Option<string>, title: string, payload: Payload,
    status: DeliveryStatus, notBefore: int, expiresAt: int, attempts: int,
    claim: Option<Claim>, nextAttemptAt: Option<int>, createdAt: int, updatedAt: int)

  datatype DeviceFlags = DeviceFlags(enabled: bool, revoked: bool)

  datatype Db = Db(
    results: map<string, ResultRow>, shares: map<string, Share>, actions: map<ActionKey, Action>,
    outbox: map<NoticeKey, Notice>, devices: map<Uuid, DeviceFlags>)

  datatype Config = Config(
    enabled: bool, hasCipher: bool, publicOrigin: Option<string>, shareTtlDays: nat,
    maxBodyBytes: nat, maxRetainedBodyBytes: nat, acceptedDays: nat, deadLetterDays: nat,
    inboundTerminalDays: nat, inboundExpiredDays: nat)

  /** What `config.rs` demands before the server starts. */
  predicate ValidConfig(c: Config) {
    && 1 <= c.shareTtlDays <= 30
    && 1 <= c.maxBodyBytes <= MAX_RESULT_BODY_BYTES
    && c.maxBodyBytes <= c.maxRetainedBodyBytes <= 1_073_741_824
  }

  predicate Available(c: Config) {
    c.enabled && c.hasCipher && c.publicOrigin.Some?
  }

  datatype ResultError =
    | Validation | Conflict | NotFound | Inaccessible | TargetUnavailable
    | Unavailable | Capacity | Database | Clock

  // ---------------------------------------------------------------------
  // Receipts
  // ---------------------------------------------------------------------

  datatype PageState = PageAvailable | PageRevoked | PageExpired | PageContentUnavailable

  datatype Receipt = Receipt(
    resultId: string, sourceHash: Hash, acceptedAt: int, updatedAt: int, pageState: PageState,
    pageExpiresAt: int, noticeId: string, noticeStatus: DeliveryStatus)

  function PageStateOf(row: ResultRow, now: int): PageState {
    if row.revokedAt.Some? then PageRevoked
    else if now >= row.pageExpiresAt then PageExpired
    else if row.bodyPurgedAt.Some? then PageContentUnavailable
    else PageAvailable
  }

  function ReportedUpdatedAt(row: ResultRow, now: int): int {
    Max(row.updatedAt, if now >= row.pageExpiresAt then row.pageExpiresAt else 0)
  }

  /** The join of a result row and one of its notices on notification id and result row. */
  predicate IsLive(db: Db, r: string, noticeId: string)
    requires r in db.results
  {
    var k := NoticeKey(DeviceOrigin(db.results[r].device), noticeId);
    k in db.outbox && db.outbox[k].payload.Link? && db.outbox[k].payload.resultRow == r
  }

  function LiveNotice(db: Db, r: string, noticeId: string): Notice
    requires r in db.results && IsLive(db, r, noticeId)
  {
    db.outbox[NoticeKey(DeviceOrigin(db.results[r].device), noticeId)]
  }

  /** `COALESCE(o.status, r.notification_status)` over the left join with the current notice. */
  function ReportedStatus(db: Db, r: string): DeliveryStatus
    requires r in db.results
  {
    var row := db.results[r];
    if IsLive(db, r, row.currentNotice) then LiveNotice(db, r, row.currentNotice).status
    else row.noticeStatus
  }

  function ReceiptOf(db: Db, r: string, now: int): Receipt
    requires r in db.results
  {
    var row := db.results[r];
    Receipt(row.resultId, row.sourceHash, row.acceptedAt, ReportedUpdatedAt(row, now),
            PageStateOf(row, now), row.pageExpiresAt, row.currentNotice, ReportedStatus(db, r))
  }

  function RowsNamed(db: Db, device: Uuid, resultId: string): set<string> {
    set r | r in db.results && db.results[r].device == device && db.results[r].resultId == resultId
  }

  function RowsMatching(db: Db, device: Uuid, resultId: string, dedupeKey: string): set<string> {
    set r | r in db.results && db.results[r].device == device
            && (db.results[r].resultId == resultId || db.results[r].dedupeKey == dedupeKey)
  }

  /** A row of a query result; which one, when there are several, is the engine's choice. */
  ghost function Pick(rows: set<string>): (r: string)
    requires rows != {}
    ensures r in rows
    ensures |rows| == 1 ==> rows == {r}
  {
    var r :| r in rows;
    assert |rows - {r}| == |rows| - 1;
    assert rows == (rows - {r}) + {r};
    r
  }

  ghost function ReceiptFor(db: Db, device: Uuid, resultId: string, now: int): Result<Receipt, ResultError> {
    var rows := RowsNamed(db, device, resultId);
    if rows == {} then Err(NotFound)
    else
      Ok(ReceiptOf(db, Pick(rows), now))
  }

  /** `existing`: the replay lookup by either unique key. */
  ghost function Existing(db: Db, device: Uuid, p: Publication, now: int): Result<Option<Receipt>, ResultError> {
    var rows := RowsMatching(db, device, p.resultId, p.dedupeKey);
    if rows == {} then Ok(None)
    else if |rows| != 1 || db.results[Pick(rows)].digest != RequestDigest(p) then Err(Conflict)
    else Ok(Some(ReceiptOf(db, Pick(rows), now)))
  }

  // ---------------------------------------------------------------------
  // Publishing
  // ---------------------------------------------------------------------

  datatype Ids = Ids(row: string, notice: string, outbox: string, token: Secret)

  function ResultDedupe(resultId: string): string {
    "result:" + resultId
  }

  function ResendDedupe(row: string, requestId: string): string {
    "result-resend:" + row + ":" + requestId
  }

  /** The schema's check on a frozen target account. */
  predicate ValidTarget(t: string) {
    && |t| == 67 && t[..3] == "wx:"
    && forall c | c in t[3..] :: IsDigit(c) || 'a' <= c <= 'f'
  }

  function LinkText(title: string, origin: string, token: Secret): string {
    "📄 " + title + "\n\n完整结果已保存，可点击下方链接查看。\n\n查看完整结果：\n" + origin + "/r/" + Encode(token)
  }

  /** The checks before the write transaction; on success the time the page expires. */
  function Prepare(cfg: Config, p: Publication, target: Option<string>, now: int): Result<int, ResultError> {
    if !Available(cfg) then Err(Unavailable)
    else if !ValidPublication(p, cfg.maxBodyBytes) then Err(Validation)
    else if target.None? then Err(TargetUnavailable)
    else
      var expires := now + cfg.shareTtlDays * DAY_MS;
      if expires > I64_MAX then Err(Clock)
      else if p.notificationExpiresAt <= now || p.notificationExpiresAt > expires then Err(Validation)
      else Ok(expires)
  }

  /** `SUM(body_bytes) ... WHERE body_purged_at IS NULL`. */
  ghost function Retained(rows: map<string, ResultRow>): nat {
    if rows == map[] then 0
    else
      var r :| r in rows;
      RetainedBy(rows[r]) + Retained(rows - {r})
  }

  function RetainedBy(row: ResultRow): nat {
    if row.bodyPurgedAt.None? then row.bodyBytes else 0
  }

  predicate DedupeTaken(db: Db, origin: Origin, dedupeKey: string) {
    exists k :: k in db.outbox && k.origin == origin && db.outbox[k].dedupeKey == dedupeKey
  }

  predicate OutboxIdTaken(db: Db, id: string) {
    exists k :: k in db.outbox && db.outbox[k].id == id
  }

  /** The unique constraints and the presence a row of the outbox is inserted under. */
  predicate CanQueue(db: Db, k: NoticeKey, n: Notice) {
    && k !in db.outbox && !DedupeTaken(db, k.origin, n.dedupeKey) && !OutboxIdTaken(db, n.id)
    && n.createdAt < n.expiresAt && |n.title| <= 128
    && (n.payload.Link? ==> n.target.Some? && ValidTarget(n.target.value))
  }

  datatype PublishOutcome = Published | Duplicate | Rejected(error: ResultError)

  function NewRow(device: Uuid, p: Publication, now: int, expires: int, ids: Ids): ResultRow {
    ResultRow(device, p.resultId, p.dedupeKey, RequestDigest(p), p.title,
              Some(Sealed(p.body, BodyAad(device, p.resultId, p.sourceHash))), Utf8Len(p.body), p.sourceHash,
              now, expires, expires, None, None, ids.notice, ids.notice, PendingChannel, now)
  }

  function NewShare(cfg: Config, device: Uuid, p: Publication, now: int, ids: Ids): Share
    requires cfg.publicOrigin.Some?
  {
    Share(TokenDigest(ids.token), Sealed(Encode(ids.token), TokenAad(device, p.resultId, p.sourceHash)),
          cfg.publicOrigin.value, now)
  }

  function NewNotice(cfg: Config, device: Uuid, p: Publication, target: string, now: int, ids: Ids): Notice
    requires cfg.publicOrigin.Some?
  {
    var text := LinkText(p.title, cfg.publicOrigin.value, ids.token);
    Notice(ids.outbox, ResultDedupe(p.resultId), Some(target), p.title,
           Link(ids.row, Sealed(text, NoticeAad(device, p.resultId, p.sourceHash, ids.notice))),
           PendingChannel, now, p.notificationExpiresAt, 0, None, None, now, now)
  }

  /** One write transaction inserts the result, its share and its first notice, or changes nothing. */
  function InsertPublication(db: Db, retained: nat, cfg: Config, device: Uuid, p: Publication, target: string,
                             now: int, expires: int, ids: Ids): (out: (Db, PublishOutcome))
    requires cfg.publicOrigin.Some?
    ensures out.1 != Published ==> out.0 == db
    ensures out.1.Rejected? ==> out.1.error == Capacity || out.1.error == Database
  {
    var row, share := NewRow(device, p, now, expires, ids), NewShare(cfg, device, p, now, ids);
    var k, notice := NoticeKey(DeviceOrigin(device), ids.notice), NewNotice(cfg, device, p, target, now, ids);
    if retained + Utf8Len(p.body) > cfg.maxRetainedBodyBytes then (db, Rejected(Capacity))
    else if ids.row in db.results || RowsMatching(db, device, p.resultId, p.dedupeKey) != {} then (db, Duplicate)
    else if device !in db.devices then (db, Rejected(Database))
    else if exists r :: r in db.shares && db.shares[r].digest == share.digest then (db, Rejected(Database))
    else if !CanQueue(db, k, notice) then (db, Rejected(Database))
    else
      (db.(results := db.results[ids.row := row],
           shares := db.shares[ids.row := share],
           outbox := db.outbox[k := notice]), Published)
  }

  ghost function PublishTx(db: Db, cfg: Config, device: Uuid, p: Publication, target: string,
                           now: int, expires: int, ids: Ids): (Db, PublishOutcome)
    requires cfg.publicOrigin.Some?
  {
    InsertPublication(db, Retained(db.results), cfg, device, p, target, now, expires, ids)
  }

  function PublishedReceipt(p: Publication, now: int, expires: int, ids: Ids): Receipt {
    Receipt(p.resultId, p.sourceHash, now, now, PageAvailable, expires, ids.notice, PendingChannel)
  }

  // ---------------------------------------------------------------------
  // Resending and revoking
  // ---------------------------------------------------------------------

  predicate ValidRequestId(q: string) {
    0 < Utf8Len(q) <= 128 && forall c | c in q :: !IsControl(c)
  }

  datatype ResendOutcome = Resent | Replayed | Refused(error: ResultError)

  function ResentNotice(db: Db, r: string, requestId: string, now: int, text: string,
                        noticeId: string, outboxId: string): Notice
    requires r in db.results && IsLive(db, r, db.results[r].initialNotice)
  {
    var row, first := db.results[r], LiveNotice(db, r, db.results[r].initialNotice);
    Notice(outboxId, ResendDedupe(r, requestId), first.target, first.title,
           Link(r, Sealed(text, NoticeAad(row.device, row.resultId, row.sourceHash, noticeId))),
           PendingChannel, now, row.pageExpiresAt, 0, None, None, now, now)
  }

  /** The stamp that makes every new resend visible as a later version. */
  function ResendStamp(updatedAt: int, now: int): int {
    if updatedAt >= now then updatedAt + 1 else now
  }

  /** The transaction behind the writer fence, for the row that (device, result id) names. */
  function ResendRow(db: Db, cfg: Config, r: string, requestId: string, now: int,
                     noticeId: string, outboxId: string): (out: (Db, ResendOutcome))
    requires r in db.results
    ensures out.1 != Resent ==> out.0 == db
  {
    var row, action := db.results[r], ActionKey(r, ResendAction, requestId);
    if action in db.actions then (db, Replayed)
    else if row.revokedAt.Some? || now >= row.pageExpiresAt then (db, Refused(Inaccessible))
    else if !IsLive(db, r, row.initialNotice) then (db, Refused(Database))
    else if !cfg.hasCipher then (db, Refused(Unavailable))
    else
      var text := Open(LiveNotice(db, r, row.initialNotice).payload.text,
                       NoticeAad(row.device, row.resultId, row.sourceHash, row.initialNotice));
      if text.None? then (db, Refused(Unavailable))
      else
        var notice := ResentNotice(db, r, requestId, now, text.value, noticeId, outboxId);
        var k := NoticeKey(DeviceOrigin(row.device), noticeId);
        // INSERT OR IGNORE: a taken key leaves the outbox as it was
        var outbox := if CanQueue(db, k, notice) then db.outbox[k := notice] else db.outbox;
        (db.(outbox := outbox,
             actions := db.actions[action := Action(Some(noticeId), now)],
             results := db.results[r := row.(currentNotice := noticeId, noticeStatus := PendingChannel,
                                             updatedAt := ResendStamp(row.updatedAt, now))]), Resent)
  }

  ghost function ResendTx(db: Db, cfg: Config, device: Uuid, resultId: string, requestId: string, now: int,
                          noticeId: string, outboxId: string): (out: (Db, ResendOutcome))
    ensures out.1 != Resent ==> out.0 == db
  {
    var rows := RowsNamed(db, device, resultId);
    if !ValidRequestId(requestId) then (db, Refused(Validation))
    else if |rows| != 1 then (db, Refused(NotFound))
    else ResendRow(db, cfg, Pick(rows), requestId, now, noticeId, outboxId)
  }

  /** The trigger `notification_outbox_current_result_status`, fired for every updated notice. */
  function TouchedRow(r: string, row: ResultRow, changes: map<NoticeKey, Notice>): ResultRow {
    var k := NoticeKey(DeviceOrigin(row.device), row.currentNotice);
    if k in changes && changes[k].payload.Link? && changes[k].payload.resultRow == r then
      row.(noticeStatus := changes[k].status,
           updatedAt := if changes[k].updatedAt > row.updatedAt then changes[k].updatedAt else row.updatedAt + 1)
    else row
  }

  /** An UPDATE of some notices, with the trigger it fires. */
  function UpdateNotices(db: Db, changes: map<NoticeKey, Notice>): Db {
    db.(outbox := db.outbox + changes,
        results := map r | r in db.results :: TouchedRow(r, db.results[r], changes))
  }

  predicate CancelledByRevoke(n: Notice, r: string) {
    n.payload.Link? && n.payload.resultRow == r && n.claim.None? && IsSendable(n.status)
  }

  function CancelledNotice(n: Notice, now: int): Notice {
    n.(status := Cancelled, nextAttemptAt := None, updatedAt := Max(n.updatedAt + 1, now))
  }

  function Cancellations(db: Db, r: string, now: int): map<NoticeKey, Notice> {
    map k | k in db.outbox && CancelledByRevoke(db.outbox[k], r) :: CancelledNotice(db.outbox[k], now)
  }

  function RevokedRow(row: ResultRow, now: int): ResultRow {
    if row.revokedAt.Some? then row
    else row.(revokedAt := Some(now), updatedAt := Max(row.updatedAt + 1, now))
  }

  function RevokeTx(db: Db, r: string, requestId: string, now: int): (out: (Db, Result<(), ResultError>))
    ensures out.1.Err? ==> out.0 == db
  {
    if !ValidRequestId(requestId) then (db, Err(Validation))
    else if r !in db.results then (db, Err(NotFound))
    else
      var stamped := db.(results := db.results[r := RevokedRow(db.results[r], now)]);
      var cancelled := UpdateNotices(stamped, Cancellations(stamped, r, now));
      var action := ActionKey(r, RevokeAction, requestId);
      var actions := if action in db.actions then db.actions else db.actions[action := Action(None, now)];
      (cancelled.(actions := actions), Ok(()))
  }

  // ---------------------------------------------------------------------
  // Reading
  // ---------------------------------------------------------------------

  function LinkOf(db: Db, cfg: Config, r: string, now: int): Result<string, ResultError>
    requires r in db.results && r in db.shares
  {
    var row, share := db.results[r], db.shares[r];
    if row.revokedAt.Some? || now >= row.pageExpiresAt then Err(Inaccessible)
    else if !cfg.hasCipher then Err(Unavailable)
    else
      var token := Open(share.token, TokenAad(row.device, row.resultId, row.sourceHash));
      if token.None? then Err(Unavailable) else Ok(share.publicOrigin + "/r/" + token.value)
  }

  /** `link`: the address of a page its owner may still open. */
  ghost function LinkFor(db: Db, cfg: Config, device: Uuid, resultId: string, now: int): Result<string, ResultError> {
    var rows := set r | r in RowsNamed(db, device, resultId) && r in db.shares;
    if rows == {} then Err(NotFound) else LinkOf(db, cfg, Pick(rows), now)
  }

  function DecodeShareToken(text: string): Option<Secret> {
    if |text| != 43 then None
    else
      var b := Decode(text);
      if b.None? || |b.value| != 32 then None else b
  }

  /** `public_body`, for the row a share belongs to. */
  function BodyOf(db: Db, cfg: Config, r: string, now: int): Result<string, ResultError>
    requires r in db.results
  {
    var row := db.results[r];
    if row.device !in db.devices then Err(Inaccessible)
    else
      var owner := db.devices[row.device];
      if !owner.enabled || owner.revoked || row.revokedAt.Some? || now >= row.pageExpiresAt then Err(Inaccessible)
      else if !cfg.hasCipher then Err(Unavailable)
      else if row.body.None? then Err(Inaccessible)
      else
        var text := Open(row.body.value, BodyAad(row.device, row.resultId, row.sourceHash));
        if text.None? then Err(Unavailable)
        else if Sha256(text.value) != row.sourceHash then Err(Inaccessible)
        else Ok(text.value)
  }

  ghost function PublicBody(db: Db, cfg: Config, text: string, now: int): Result<string, ResultError> {
    var token := DecodeShareToken(text);
    if token.None? then Err(Inaccessible)
    else
      var rows := set r | r in db.shares && r in db.results && db.shares[r].digest == TokenDigest(token.value);
      if rows == {} then Err(Inaccessible)
      else
        BodyOf(db, cfg, Pick(rows), now)
  }

  /** What the worker sends for a claimed link: nothing once the page is revoked or expired. */
  function SendableText(db: Db, k: NoticeKey, now: int): Option<string>
    requires k in db.outbox
  {
    var n := db.outbox[k];
    if !n.payload.Link? || n.payload.resultRow !in db.results then None
    else
      var row := db.results[n.payload.resultRow];
      if row.revokedAt.Some? || row.pageExpiresAt <= now then None
      else Open(n.payload.text, NoticeAad(row.device, row.resultId, row.sourceHash, k.noticeId))
  }

  // ---------------------------------------------------------------------
  // Retention
  // ---------------------------------------------------------------------

  function DaysToMs(days: nat): nat {
    days * 24 * 60 * 60 * 1_000
  }

  function DueBodies(db: Db, now: int): set<SortKey> {
    set r | r in db.results && db.results[r].bodyPurgedAt.None? && db.results[r].bodyRetainUntil <= now
      :: SortKey(db.results[r].bodyRetainUntil, r)
  }

  function PurgedRow(row: ResultRow, now: int): ResultRow {
    row.(body := None, bodyPurgedAt := Some(now), updatedAt := Max(row.updatedAt, now))
  }

  /** Drops the bodies of the first batch of pages past their retention. */
  function PurgeBodies(db: Db, now: int): Db {
    var batch := FirstN(DueBodies(db, now), RETENTION_BATCH);
    db.(results := map r | r in db.results ::
          if SortKey(db.results[r].bodyRetainUntil, r) in batch then PurgedRow(db.results[r], now)
          else db.results[r])
  }

  predicate PageOpen(db: Db, n: Notice, now: int) {
    n.payload.Link? && n.payload.resultRow in db.results && db.results[n.payload.resultRow].pageExpiresAt > now
  }

  /** Old enough to delete, and not a notice of a page that is still open. */
  predicate NoticeDue(db: Db, cfg: Config, n: Notice, now: int) {
    && !PageOpen(db, n, now)
    && (|| ((n.status.ProviderAccepted? || n.status.Cancelled? || n.status.Expired?)
            && n.updatedAt < now - DaysToMs(cfg.acceptedDays))
        || (n.status.DeadLetter? && n.updatedAt < now - DaysToMs(cfg.deadLetterDays)))
  }

  function NoticeSort(n: Notice): SortKey {
    SortKey(n.updatedAt, n.id)
  }

  function DueNotices(db: Db, cfg: Config, now: int): set<SortKey> {
    set k | k in db.outbox && NoticeDue(db, cfg, db.outbox[k], now) :: NoticeSort(db.outbox[k])
  }

  function CurrentNotices(db: Db): set<string> {
    set r | r in db.results :: db.results[r].currentNotice
  }

  /** Due notices of a result whose id is some result's current notice. */
  function DueCurrent(db: Db, cfg: Config, now: int): set<SortKey> {
    var current := CurrentNotices(db);
    set k | k in db.outbox && NoticeDue(db, cfg, db.outbox[k], now)
            && db.outbox[k].payload.Link? && k.noticeId in current
      :: NoticeSort(db.outbox[k])
  }

  /** The result rows whose notification status the first statement rewrites. */
  function CopiedRows(db: Db, cfg: Config, now: int): set<string> {
    var batch := FirstN(DueCurrent(db, cfg, now), RETENTION_BATCH);
    set k | k in db.outbox && NoticeSort(db.outbox[k]) in batch && db.outbox[k].payload.Link?
      :: db.outbox[k].payload.resultRow
  }

  function CopyStatus(db: Db, r: string, now: int): ResultRow
    requires r in db.results && IsLive(db, r, db.results[r].currentNotice)
  {
    var row := db.results[r];
    row.(noticeStatus := LiveNotice(db, r, row.currentNotice).status, updatedAt := Max(row.updatedAt, now))
  }

  /** NOT NULL on the status column: the copy fails when a selected row has no live current notice. */
  predicate CopySucceeds(db: Db, cfg: Config, now: int) {
    forall r | r in CopiedRows(db, cfg, now) && r in db.results :: IsLive(db, r, db.results[r].currentNotice)
  }

  /** Copies the status of the batch onto its results, then deletes the first batch of due notices. */
  function RetainOutbox(db: Db, cfg: Config, now: int): Option<Db> {
    if !CopySucceeds(db, cfg, now) then None
    else
      var copied := CopiedRows(db, cfg, now);
      var batch := FirstN(DueNotices(db, cfg, now), RETENTION_BATCH);
      Some(db.(results := map r | r in db.results ::
                 if r in copied then CopyStatus(db, r, now) else db.results[r],
               outbox := map k | k in db.outbox && NoticeSort(db.outbox[k]) !in batch :: db.outbox[k]))
  }
}
