/**
 What the result pages promise over every run: published bodies stay readable until
 their page expires, receipts never go back, a revocation is final, every resend adds
 one notice, and retention takes nothing a receipt still reports.
 */
module ResultGuarantees {
  import opened Basics
  import opened Delivery
  import opened TokenFormat
  import opened ResultPages
  import opened OutboxWorker
  import opened ResultRuns

  // ---------------------------------------------------------------------
  // Accessible pages
  // ---------------------------------------------------------------------

  lemma NamedRow(s: Sys, r: string)
    requires Inv(s) && r in s.db.results
    ensures RowsNamed(s.db, s.db.results[r].device, s.db.results[r].resultId) == {r}
  {
  }

  lemma SharedRow(s: Sys, r: string)
    requires Inv(s) && r in s.db.results
    ensures r in s.db.shares
    ensures (set x | x in s.db.shares && x in s.db.results
                     && s.db.shares[x].digest == s.db.shares[r].digest) == {r}
  {
    assert RowInv(s, r);
  }

  lemma ShareTokenDecodes(token: Secret)
    ensures DecodeShareToken(Encode(token)) == Some(token)
  {
    EncodedLength(token);
    DecodeEncoded(token);
  }

  predicate OwnerActive(db: Db, device: Uuid) {
    device in db.devices && db.devices[device].enabled && !db.devices[device].revoked
  }

  predicate PageIsOpen(row: ResultRow, now: int) {
    row.revokedAt.None? && now < row.pageExpiresAt
  }

  /** The body of an open page is still stored, sealed as it was published. */
  lemma OpenPageHasBody(s: Sys, cfg: Config, r: string, now: int)
    requires Inv(s) && cfg.hasCipher && r in s.db.results
    requires PageIsOpen(s.db.results[r], now) && s.swept <= now && OwnerActive(s.db, s.db.results[r].device)
    ensures BodyOf(s.db, cfg, r, now) == Ok(s.db.results[r].digest.of.body)
  {
    assert RowInv(s, r);
  }

  lemma LinkIsUnique(s: Sys, r: string)
    requires Inv(s) && r in s.db.results
    ensures r in s.db.shares
    ensures (set x | x in RowsNamed(s.db, s.db.results[r].device, s.db.results[r].resultId) && x in s.db.shares) == {r}
  {
    assert RowInv(s, r);
    NamedRow(s, r);
  }

  lemma OpenPageHasLink(s: Sys, cfg: Config, r: string, now: int)
    requires Inv(s) && cfg.hasCipher && r in s.db.results && PageIsOpen(s.db.results[r], now)
    ensures r in s.db.shares
    ensures var row := s.db.results[r];
            LinkFor(s.db, cfg, row.device, row.resultId, now)
              == Ok(s.db.shares[r].publicOrigin + "/r/" + Encode(s.db.shares[r].digest.of))
  {
    LinkIsUnique(s, r);
    OpenShareHasLink(s, cfg, r, now);
  }

  lemma OpenShareHasLink(s: Sys, cfg: Config, r: string, now: int)
    requires cfg.hasCipher && r in s.db.results && RowInv(s, r) && PageIsOpen(s.db.results[r], now)
    ensures LinkOf(s.db, cfg, r, now) == Ok(s.db.shares[r].publicOrigin + "/r/" + Encode(s.db.shares[r].digest.of))
  {
  }

  lemma OpenPageReadsBack(s: Sys, cfg: Config, r: string, now: int)
    requires Inv(s) && cfg.hasCipher && r in s.db.results
    requires PageIsOpen(s.db.results[r], now) && s.swept <= now && OwnerActive(s.db, s.db.results[r].device)
    ensures r in s.db.shares
    ensures PublicBody(s.db, cfg, Encode(s.db.shares[r].digest.of), now) == Ok(s.db.results[r].digest.of.body)
  {
    SharedRow(s, r);
    OpenPageHasBody(s, cfg, r, now);
    ShareTokenDecodes(s.db.shares[r].digest.of);
  }

  /**
   In every run, at any time no earlier than the last retention sweep, an open page of an
   active owner has a link, and the token in that link returns exactly the published body.
   */
  lemma PublishedPageReadable(cfg: Config, ops: seq<Op>, r: string, now: int)
    requires ValidConfig(cfg) && cfg.hasCipher
    requires var s := Run(cfg, EMPTY, ops);
             && r in s.db.results && PageIsOpen(s.db.results[r], now) && s.swept <= now
             && OwnerActive(s.db, s.db.results[r].device)
    ensures var s := Run(cfg, EMPTY, ops); var row := s.db.results[r];
            && r in s.db.shares
            && var token := Encode(s.db.shares[r].digest.of);
               && LinkFor(s.db, cfg, row.device, row.resultId, now) == Ok(s.db.shares[r].publicOrigin + "/r/" + token)
               && PublicBody(s.db, cfg, token, now) == Ok(row.digest.of.body)
  {
    EmptyInv();
    RunInv(cfg, EMPTY, ops);
    OpenPageHasLink(Run(cfg, EMPTY, ops), cfg, r, now);
    OpenPageReadsBack(Run(cfg, EMPTY, ops), cfg, r, now);
  }

  /** `content_unavailable` is never reported at a time no earlier than the last sweep. */
  lemma NeverContentUnavailable(s: Sys, r: string, now: int)
    requires Inv(s) && r in s.db.results && s.swept <= now
    ensures PageStateOf(s.db.results[r], now) != PageContentUnavailable
  {
    assert RowInv(s, r);
  }

  /** In every run the unique keys hold, and every result has exactly one share, with a token of its own. */
  lemma OneResultPerKey(cfg: Config, ops: seq<Op>)
    requires ValidConfig(cfg)
    ensures var db := Run(cfg, EMPTY, ops).db;
            UniqueNames(db.results) && db.shares.Keys == db.results.Keys && UniqueTokens(db.shares)
  {
    EmptyInv();
    RunInv(cfg, EMPTY, ops);
  }

  /** In every run a link notice expires no later than the page it links to. */
  lemma NoLinkOutlivesItsPage(cfg: Config, ops: seq<Op>, k: NoticeKey)
    requires ValidConfig(cfg)
    requires var db := Run(cfg, EMPTY, ops).db; k in db.outbox && db.outbox[k].payload.Link?
    ensures var db := Run(cfg, EMPTY, ops).db;
            && db.outbox[k].payload.resultRow in db.results
            && db.outbox[k].expiresAt <= db.results[db.outbox[k].payload.resultRow].pageExpiresAt
  {
    EmptyInv();
    RunInv(cfg, EMPTY, ops);
    assert NoticeInv(Run(cfg, EMPTY, ops), k);
  }

  // ---------------------------------------------------------------------
  // Receipts never go back
  // ---------------------------------------------------------------------

  predicate StateMoves(a: PageState, b: PageState) {
    a == b || (a.PageAvailable? && (b.PageExpired? || b.PageRevoked?)) || (a.PageExpired? && b.PageRevoked?)
  }

  lemma RowReceiptMoves(a: ResultRow, b: ResultRow, now: int, later: int)
    requires RowMoves(a, b) && now <= later && 0 <= a.pageExpiresAt
    requires !PageStateOf(a, now).PageContentUnavailable? && !PageStateOf(b, later).PageContentUnavailable?
    ensures StateMoves(PageStateOf(a, now), PageStateOf(b, later))
    ensures ReportedUpdatedAt(a, now) <= ReportedUpdatedAt(b, later)
  {
  }

  /** From any reachable state on, receipts read in clock order only move forward. */
  lemma ReceiptsMoveForward(cfg: Config, s: Sys, ops: seq<Op>, r: string, now: int, later: int)
    requires Inv(s) && ValidConfig(cfg) && r in s.db.results
    requires now <= later && s.swept <= now && Run(cfg, s, ops).swept <= later
    ensures var s' := Run(cfg, s, ops);
            && r in s'.db.results
            && var a, b := ReceiptOf(s.db, r, now), ReceiptOf(s'.db, r, later);
               && StateMoves(a.pageState, b.pageState) && a.updatedAt <= b.updatedAt
               && b.resultId == a.resultId && b.sourceHash == a.sourceHash
               && b.acceptedAt == a.acceptedAt && b.pageExpiresAt == a.pageExpiresAt
  {
    var s' := Run(cfg, s, ops);
    RunInv(cfg, s, ops);
    assert RowGrows(s, s', r) && RowInv(s, r) && RowInv(s', r);
    RowNeverUnavailable(s, r, now);
    RowNeverUnavailable(s', r, later);
    RowReceiptMoves(s.db.results[r], s'.db.results[r], now, later);
  }

  lemma RowNeverUnavailable(s: Sys, r: string, now: int)
    requires r in s.db.results && RowInv(s, r) && s.swept <= now
    ensures !PageStateOf(s.db.results[r], now).PageContentUnavailable?
  {
  }

  /** Every change of a current notice reaches its result and strictly raises its version, even within a millisecond. */
  lemma EveryTransitionIsVisible(s: Sys, changes: map<NoticeKey, Notice>, r: string)
    requires r in s.db.results && RowInv(s, r) && LegalChanges(s.db, changes)
    requires IsLive(s.db, r, s.db.results[r].currentNotice)
    requires NoticeKey(DeviceOrigin(s.db.results[r].device), s.db.results[r].currentNotice) in changes
    ensures var row := s.db.results[r];
            var k := NoticeKey(DeviceOrigin(row.device), row.currentNotice);
            var db' := Updates(s, changes).db;
            && r in db'.results && row.updatedAt < db'.results[r].updatedAt
            && changes[k].updatedAt <= db'.results[r].updatedAt
            && ReportedStatus(db', r) == changes[k].status
  {
    var k := NoticeKey(DeviceOrigin(s.db.results[r].device), s.db.results[r].currentNotice);
    assert LegalChange(s.db.outbox[k], changes[k]);
  }

  /** The trigger makes the stored status the reported one. */
  lemma ReportedIsStored(s: Sys, r: string)
    requires Inv(s) && r in s.db.results
    ensures ReportedStatus(s.db, r) == s.db.results[r].noticeStatus
  {
    assert RowInv(s, r);
  }

  /** While `c` is the current notice of `r`, its receipt reports `st`. */
  predicate Settled(s: Sys, r: string, c: string, st: DeliveryStatus) {
    && r in s.db.results && c in s.minted
    && (s.db.results[r].currentNotice == c ==> s.db.results[r].noticeStatus == st)
  }

  lemma UpdateSettled(s: Sys, changes: map<NoticeKey, Notice>, r: string, c: string, st: DeliveryStatus)
    requires LegalChanges(s.db, changes) && IsTerminal(st) && Settled(s, r, c, st) && RowInv(s, r)
    ensures Settled(Updates(s, changes), r, c, st)
  {
    var k := NoticeKey(DeviceOrigin(s.db.results[r].device), s.db.results[r].currentNotice);
    if k in changes {
      assert LegalChange(s.db.outbox[k], changes[k]);
    }
  }

  lemma RevokeSettled(s: Sys, r: string, requestId: string, now: int, x: string, c: string, st: DeliveryStatus)
    requires Inv(s) && IsTerminal(st) && Settled(s, x, c, st)
    ensures Settled(RevokeStep(s, r, requestId, now), x, c, st)
  {
    if r in s.db.results && ValidRequestId(requestId) {
      assert RowInv(s, x);
      RevokedRowSettled(s, r, requestId, now, x, c, st);
    }
  }

  lemma RevokedRowSettled(s: Sys, r: string, requestId: string, now: int, x: string, c: string, st: DeliveryStatus)
    requires r in s.db.results && ValidRequestId(requestId) && IsTerminal(st) && Settled(s, x, c, st) && RowInv(s, x)
    ensures Settled(RevokeStep(s, r, requestId, now), x, c, st)
  {
    var s1 := Stamped(s, r, now);
    StampedKeepsRow(s, r, now, x);
    CancellationsLegal(s1.db, r, now);
    UpdateSettled(s1, Cancellations(s1.db, r, now), x, c, st);
    RevokeSteps(s, r, requestId, now);
  }

  lemma PublishSettled(cfg: Config, s: Sys, device: Uuid, p: Publication, target: Option<string>, now: nat, ids: Ids,
                       r: string, c: string, st: DeliveryStatus)
    requires ValidConfig(cfg) && Settled(s, r, c, st)
    ensures Settled(PublishStep(cfg, s, device, p, target, now, ids), r, c, st)
  {
    PublishEffect(cfg, s, device, p, target, now, ids);
  }

  /** A resend makes a notice current that was never current before. */
  lemma ResendSettled(cfg: Config, s: Sys, device: Uuid, resultId: string, requestId: string, now: int,
                      notice: string, outbox: string, r: string, c: string, st: DeliveryStatus)
    requires Settled(s, r, c, st)
    ensures Settled(ResendStep(cfg, s, device, resultId, requestId, now, notice, outbox), r, c, st)
  {
    ResendEffect(cfg, s, device, resultId, requestId, now, notice, outbox);
  }

  lemma RetainSettled(s: Sys, cfg: Config, now: int, r: string, c: string, st: DeliveryStatus)
    requires CopySucceeds(s.db, cfg, now) && Settled(s, r, c, st) && RowInv(s, r)
    ensures Settled(Retain(s, cfg, now), r, c, st)
  {
    var s' := Retain(s, cfg, now);
    assert s'.db.results[r].currentNotice == s.db.results[r].currentNotice;
  }

  lemma RetainStepSettled(s: Sys, cfg: Config, now: int, r: string, c: string, st: DeliveryStatus)
    requires Inv(s) && Settled(s, r, c, st)
    ensures Settled(RetainStep(s, cfg, now), r, c, st)
  {
    assert RowInv(s, r);
    RetentionCommits(s, cfg, now);
    RetainSettled(s, cfg, now, r, c, st);
  }

  lemma WorkSettled(s: Sys, step: WorkerStep, r: string, c: string, st: DeliveryStatus)
    requires Inv(s) && IsTerminal(st) && Settled(s, r, c, st)
    ensures Settled(Updates(s, Changes(s.db, step)), r, c, st)
  {
    assert RowInv(s, r);
    WorkLegal(s, step);
    UpdateSettled(s, Changes(s.db, step), r, c, st);
  }

  lemma OtherSettled(cfg: Config, s: Sys, op: Op, r: string, c: string, st: DeliveryStatus)
    requires op.DoPurge? || op.DoEnqueue? || op.DoSetDevice?
    requires Settled(s, r, c, st)
    ensures Settled(Apply(cfg, s, op), r, c, st)
  {
  }

  lemma ApplySettled(cfg: Config, s: Sys, op: Op, r: string, c: string, st: DeliveryStatus)
    requires Inv(s) && ValidConfig(cfg) && IsTerminal(st) && Settled(s, r, c, st)
    ensures Settled(Apply(cfg, s, op), r, c, st)
  {
    match op
    case DoPublish(device, p, target, now, ids) => PublishSettled(cfg, s, device, p, target, now, ids, r, c, st);
    case DoResend(device, resultId, requestId, now, notice, outbox) =>
      ResendSettled(cfg, s, device, resultId, requestId, now, notice, outbox, r, c, st);
    case DoRevoke(row, requestId, now) => RevokeSettled(s, row, requestId, now, r, c, st);
    case DoRetain(now) => RetainStepSettled(s, cfg, now, r, c, st);
    case DoWork(step) => WorkSettled(s, step, r, c, st);
    case _ => OtherSettled(cfg, s, op, r, c, st);
  }

  lemma {:induction false} RunSettled(cfg: Config, s: Sys, ops: seq<Op>, r: string, c: string, st: DeliveryStatus)
    requires Inv(s) && ValidConfig(cfg) && IsTerminal(st) && Settled(s, r, c, st)
    ensures Settled(Run(cfg, s, ops), r, c, st)
    decreases |ops|
  {
    if ops != [] {
      ApplySettled(cfg, s, ops[0], r, c, st);
      ApplyInv(cfg, s, ops[0]);
      RunSettled(cfg, Apply(cfg, s, ops[0]), ops[1..], r, c, st);
    }
  }

  /**
   A receipt never regresses from a terminal status: whatever happens afterwards, including
   the deletion of the notice itself, the same notice is reported with the same status.
   */
  lemma TerminalReceiptIsDurable(cfg: Config, s: Sys, ops: seq<Op>, r: string)
    requires Inv(s) && ValidConfig(cfg) && r in s.db.results && IsTerminal(ReportedStatus(s.db, r))
    ensures var s' := Run(cfg, s, ops);
            && r in s'.db.results
            && (s'.db.results[r].currentNotice == s.db.results[r].currentNotice ==>
                  ReportedStatus(s'.db, r) == ReportedStatus(s.db, r))
  {
    assert RowInv(s, r);
    ReportedIsStored(s, r);
    RunSettled(cfg, s, ops, r, s.db.results[r].currentNotice, s.db.results[r].noticeStatus);
    RunInv(cfg, s, ops);
    ReportedIsStored(Run(cfg, s, ops), r);
  }

  // ---------------------------------------------------------------------
  // Resending
  // ---------------------------------------------------------------------

  /** A new resend of an open page is never refused: its first notice is still there and still opens. */
  lemma ResendIsAnswered(s: Sys, cfg: Config, r: string, requestId: string, now: int, notice: string, outbox: string)
    requires Inv(s) && cfg.hasCipher && r in s.db.results && ValidRequestId(requestId)
    requires PageIsOpen(s.db.results[r], now) && s.swept <= now
    requires ActionKey(r, ResendAction, requestId) !in s.db.actions
    ensures var row := s.db.results[r];
            var (db, outcome) := ResendTx(s.db, cfg, row.device, row.resultId, requestId, now, notice, outbox);
            && outcome == Resent && r in db.results && db.results[r].currentNotice == notice
            && row.updatedAt < db.results[r].updatedAt && now <= db.results[r].updatedAt
  {
    assert RowInv(s, r);
    NamedRow(s, r);
    var k := NoticeKey(DeviceOrigin(s.db.results[r].device), s.db.results[r].initialNotice);
    assert NoticeInv(s, k);
    OpenRowIsResent(s, cfg, r, requestId, now, notice, outbox);
  }

  /** The first notice of an open page is there and opens, so the row's transaction goes through. */
  lemma OpenRowIsResent(s: Sys, cfg: Config, r: string, requestId: string, now: int, notice: string, outbox: string)
    requires r in s.db.results && RowInv(s, r) && cfg.hasCipher && PageIsOpen(s.db.results[r], now) && s.swept <= now
    requires var k := NoticeKey(DeviceOrigin(s.db.results[r].device), s.db.results[r].initialNotice);
             k in s.db.outbox ==> NoticeInv(s, k)
    requires ActionKey(r, ResendAction, requestId) !in s.db.actions
    ensures var row, (db, outcome) := s.db.results[r], ResendRow(s.db, cfg, r, requestId, now, notice, outbox);
            && outcome == Resent && r in db.results && db.results[r].currentNotice == notice
            && row.updatedAt < db.results[r].updatedAt && now <= db.results[r].updatedAt
  {
  }

  /** A repeated request id changes nothing and answers with the current receipt. */
  lemma ResendIsIdempotent(s: Sys, cfg: Config, r: string, requestId: string, now: int, notice: string, outbox: string)
    requires Inv(s) && r in s.db.results && ValidRequestId(requestId)
    requires ActionKey(r, ResendAction, requestId) in s.db.actions
    ensures var row := s.db.results[r];
            && ResendTx(s.db, cfg, row.device, row.resultId, requestId, now, notice, outbox) == (s.db, Replayed)
            && ReceiptFor(s.db, row.device, row.resultId, now) == Ok(ReceiptOf(s.db, r, now))
  {
    NamedRow(s, r);
  }

  /** The notice of a resend says word for word what the first one said, sealed for its own id. */
  lemma ResentTextIsTheSame(s: Sys, s': Sys, e: Resending)
    requires Inv(s) && Resends(s, s', e) && e.queued
    ensures e.row in s.db.shares && IsLive(s'.db, e.row, e.notice)
    ensures var row, n := s.db.results[e.row], LiveNotice(s'.db, e.row, e.notice);
            Open(n.payload.text, NoticeAad(row.device, row.resultId, row.sourceHash, e.notice))
              == Some(TextOf(s.db, e.row))
  {
    assert RowInv(s, e.row);
    assert NoticeInv(s, NoticeKey(DeviceOrigin(s.db.results[e.row].device), s.db.results[e.row].initialNotice));
  }

  /**
   INSERT OR IGNORE: the notice of a resend is queued exactly when the owner has no queued
   notification under the resend's own dedupe key.
   */
  lemma ResendQueuedIff(s: Sys, s': Sys, e: Resending)
    requires Inv(s) && Resends(s, s', e)
    ensures e.queued <==> !DedupeTaken(s.db, DeviceOrigin(s.db.results[e.row].device), ResendDedupe(e.row, e.requestId))
  {
    assert NoticeInv(s, NoticeKey(DeviceOrigin(s.db.results[e.row].device), s.db.results[e.row].initialNotice));
  }

  /**
   The failing family: a device that queued a plain notification under that key first makes
   its resend commit without a notice. The receipt then reports a pending notice that does not exist.
   */
  lemma PreemptedResendIsSwallowed(s: Sys, s': Sys, e: Resending)
    requires Inv(s) && Resends(s, s', e)
    requires DedupeTaken(s.db, DeviceOrigin(s.db.results[e.row].device), ResendDedupe(e.row, e.requestId))
    ensures s'.db.outbox == s.db.outbox && s'.posted == s.posted
    ensures s'.db.results[e.row].currentNotice == e.notice && !IsLive(s'.db, e.row, e.notice)
    ensures ReportedStatus(s'.db, e.row) == PendingChannel
  {
    ResendQueuedIff(s, s', e);
  }

  lemma NamedResend(cfg: Config, s: Sys, device: Uuid, resultId: string, requestId: string, now: int,
                    notice: string, outbox: string, r: string) returns (e: Resending)
    requires Inv(s) && ResendStep(cfg, s, device, resultId, requestId, now, notice, outbox) != s
    ensures Resends(s, ResendStep(cfg, s, device, resultId, requestId, now, notice, outbox), e)
    ensures e.requestId == requestId && e.now == now && e.notice == notice && e.outbox == outbox
    ensures s.db.results[e.row].device == device
    ensures r in s.db.results && s.db.results[r].device == device && s.db.results[r].resultId == resultId <==>
              r == e.row
  {
    ResendEffect(cfg, s, device, resultId, requestId, now, notice, outbox);
    var s' := ResendStep(cfg, s, device, resultId, requestId, now, notice, outbox);
    e :| Resends(s, s', e) && s.db.results[e.row].device == device && s.db.results[e.row].resultId == resultId
         && e.requestId == requestId && e.now == now && e.notice == notice && e.outbox == outbox;
    SameNamed(s.db.results, e.row, r);
  }

  lemma SameNamed(rows: map<string, ResultRow>, x: string, r: string)
    requires UniqueNames(rows) && x in rows
    ensures r in rows && rows[r].device == rows[x].device && rows[r].resultId == rows[x].resultId <==> r == x
  {
  }

  /** A plain notification of a device under the key a resend of `r` would use. */
  function Preempting(r: string, requestId: string, id: string, now: int): Notice {
    Notice(id, ResendDedupe(r, requestId), None, "n", Plain, PendingChannel, now, now + 1, 0, None, None, now, now)
  }

  /** A resend that may be made: its page is open, its request is new, and so are its ids. */
  predicate MayResend(s: Sys, r: string, requestId: string, now: int, notice: string, outbox: string) {
    && r in s.db.results && PageIsOpen(s.db.results[r], now) && s.swept <= now
    && ValidRequestId(requestId) && ActionKey(r, ResendAction, requestId) !in s.db.actions
    && FreshNotice(s, s.db.results[r].device, notice, outbox)
  }

  /** The resend is on record and its receipt reports a pending notice, but no notice was ever queued for it. */
  predicate Swallowed(s: Sys, r: string, requestId: string, notice: string) {
    && ActionKey(r, ResendAction, requestId) in s.db.actions && MintedFor(s, notice, r) && notice !in s.posted
    && r in s.db.results && s.db.results[r].currentNotice == notice && !IsLive(s.db, r, notice)
    && ReportedStatus(s.db, r) == PendingChannel
  }

  lemma PreemptedResend(cfg: Config, s: Sys, r: string, requestId: string, now: int, notice: string, outbox: string)
    requires Inv(s) && cfg.hasCipher && MayResend(s, r, requestId, now, notice, outbox)
    requires DedupeTaken(s.db, DeviceOrigin(s.db.results[r].device), ResendDedupe(r, requestId))
    ensures var row := s.db.results[r];
            Swallowed(ResendStep(cfg, s, row.device, row.resultId, requestId, now, notice, outbox),
                      r, requestId, notice)
  {
    var row := s.db.results[r];
    var s' := ResendStep(cfg, s, row.device, row.resultId, requestId, now, notice, outbox);
    ResendIsAnswered(s, cfg, r, requestId, now, notice, outbox);
    assert notice in s'.minted;
    var e := NamedResend(cfg, s, row.device, row.resultId, requestId, now, notice, outbox, r);
    PreemptedResendIsSwallowed(s, s', e);
  }

  lemma JoinedLength(a: string, b: string, c: string, d: string)
    ensures Utf8Len(a + b + c + d) <= 4 * |a| + Utf8Len(b) + 4 * |c| + Utf8Len(d)
  {
    Utf8LenBounds(a);
    Utf8LenBounds(c);
    Utf8LenJoins(a, b);
    Utf8LenJoins(a + b, c);
    Utf8LenJoins(a + b + c, d);
  }

  /** The key of a resend is one any notification may have. */
  lemma ResendDedupeFits(r: string, requestId: string)
    requires IsRowId(r) && ValidRequestId(requestId)
    ensures 1 <= Utf8Len(ResendDedupe(r, requestId)) <= 256
  {
    JoinedLength("result-resend:", r, ":", requestId);
    Utf8LenBounds(ResendDedupe(r, requestId));
  }

  /** The ids an ingress route would give the preempting notification: one the sender chose, one drawn. */
  predicate MayQueue(s: Sys, k: NoticeKey, id: string) {
    1 <= Utf8Len(k.noticeId) <= 128 && |id| == 36 && k !in s.db.outbox && !OutboxIdTaken(s.db, id)
  }

  lemma PreemptedIsTaken(s: Sys, r: string, requestId: string, now: nat, k: NoticeKey, id: string)
    requires MayQueue(s, k, id) && k.origin.DeviceOrigin? && k.origin.device in s.db.devices
    requires IsRowId(r) && ValidRequestId(requestId)
    ensures var n := Preempting(r, requestId, id, now);
            && (QueuesPlain(s.db, k, n) || DedupeTaken(s.db, k.origin, n.dedupeKey))
            && DedupeTaken(QueueStep(s, k, n).db, k.origin, n.dedupeKey)
  {
    var n := Preempting(r, requestId, id, now);
    ResendDedupeFits(r, requestId);
    if QueuesPlain(s.db, k, n) {
      assert k in QueueStep(s, k, n).db.outbox;
    }
  }

  lemma QueueStepInv(s: Sys, k: NoticeKey, n: Notice)
    requires Inv(s)
    ensures Inv(QueueStep(s, k, n))
  {
    if QueuesPlain(s.db, k, n) {
      QueueInv(s, k, n);
    }
  }

  lemma QueueLeavesFresh(s: Sys, k: NoticeKey, n: Notice, r: string, requestId: string, now: int, notice: string,
                         outbox: string)
    requires MayResend(s, r, requestId, now, notice, outbox) && notice != k.noticeId && outbox != n.id
    ensures MayResend(QueueStep(s, k, n), r, requestId, now, notice, outbox)
    ensures QueueStep(s, k, n).db.results == s.db.results
  {
  }

  /**
   The family is reached from every state: when an open page's owner first queues a plain
   notification under the key of a resend not yet asked for, that resend commits and is swallowed.
   The notification is one its ingress route accepts, unless the key is taken already.
   */
  lemma ResendCanBePreempted(cfg: Config, s: Sys, r: string, requestId: string, now: nat, plain: string, id: string,
                             notice: string, outbox: string)
    requires Inv(s) && cfg.hasCipher && MayResend(s, r, requestId, now, notice, outbox)
    requires MayQueue(s, NoticeKey(DeviceOrigin(s.db.results[r].device), plain), id) && notice != plain && outbox != id
    ensures var row, n := s.db.results[r], Preempting(r, requestId, id, now);
            var k := NoticeKey(DeviceOrigin(row.device), plain);
            && (QueuesPlain(s.db, k, n) || DedupeTaken(s.db, k.origin, n.dedupeKey))
            && Swallowed(ResendStep(cfg, QueueStep(s, k, n), row.device, row.resultId, requestId, now, notice, outbox),
                         r, requestId, notice)
  {
    var k, n := NoticeKey(DeviceOrigin(s.db.results[r].device), plain), Preempting(r, requestId, id, now);
    assert RowInv(s, r);
    QueueStepInv(s, k, n);
    PreemptedIsTaken(s, r, requestId, now, k, id);
    QueueLeavesFresh(s, k, n, r, requestId, now, notice, outbox);
    PreemptedResend(cfg, QueueStep(s, k, n), r, requestId, now, notice, outbox);
  }

  // ---------------------------------------------------------------------
  // How many notices a result has
  // ---------------------------------------------------------------------

  ghost function MintedOf(s: Sys, r: string): set<string> {
    set n | n in s.minted && s.minted[n] == r
  }

  ghost function ResendsOf(s: Sys, r: string): set<ActionKey> {
    set a | a in s.db.actions && a.kind.ResendAction? && a.row == r
  }

  /** The notices of some resend actions. */
  ghost function NoticesOf(actions: map<ActionKey, Action>, keys: set<ActionKey>): set<string> {
    set a | a in keys && a in actions && actions[a].notice.Some? :: actions[a].notice.value
  }

  lemma {:induction false} NoticesOfSize(actions: map<ActionKey, Action>, keys: set<ActionKey>)
    requires forall a | a in keys :: a in actions && a.kind.ResendAction? && actions[a].notice.Some?
    requires UniqueActions(actions)
    ensures |NoticesOf(actions, keys)| == |keys|
  {
    if keys == {} {
      assert NoticesOf(actions, keys) == {};
    } else {
      var a :| a in keys;
      NoticesOfSize(actions, keys - {a});
      assert NoticesOf(actions, keys) == NoticesOf(actions, keys - {a}) + {actions[a].notice.value};
      assert actions[a].notice.value !in NoticesOf(actions, keys - {a});
    }
  }

  lemma MintedIsFirstOrResent(s: Sys, r: string)
    requires Inv(s) && r in s.db.results
    ensures MintedOf(s, r) == {s.db.results[r].initialNotice} + NoticesOf(s.db.actions, ResendsOf(s, r))
    ensures s.db.results[r].initialNotice !in NoticesOf(s.db.actions, ResendsOf(s, r))
  {
    MintedHasOrigin(s, r);
    ResentIsMinted(s, r);
    assert RowInv(s, r);
  }

  lemma MintedHasOrigin(s: Sys, r: string)
    requires r in s.db.results && forall n | n in s.minted :: MintInv(s, n)
    ensures forall n | n in MintedOf(s, r) ::
              n == s.db.results[r].initialNotice || n in NoticesOf(s.db.actions, ResendsOf(s, r))
  {
    forall n | n in MintedOf(s, r)
      ensures n == s.db.results[r].initialNotice || n in NoticesOf(s.db.actions, ResendsOf(s, r))
    {
      assert MintInv(s, n);
    }
  }

  lemma ResentIsMinted(s: Sys, r: string)
    requires r in s.db.results && forall a | a in s.db.actions :: ActionInv(s, a)
    ensures forall n | n in NoticesOf(s.db.actions, ResendsOf(s, r)) ::
              n in MintedOf(s, r) && n != s.db.results[r].initialNotice
  {
    forall a | a in ResendsOf(s, r)
      ensures s.db.actions[a].notice.Some? && s.db.actions[a].notice.value in MintedOf(s, r)
      ensures s.db.actions[a].notice.value != s.db.results[r].initialNotice
    {
      assert ActionInv(s, a);
    }
  }

  /** A result is given one notification id at publication and one for every distinct resend request. */
  lemma OneNoticePerRequest(s: Sys, r: string)
    requires Inv(s) && r in s.db.results
    ensures |MintedOf(s, r)| == 1 + |ResendsOf(s, r)|
  {
    MintedIsFirstOrResent(s, r);
    forall a | a in ResendsOf(s, r) ensures s.db.actions[a].notice.Some? {
      assert ActionInv(s, a);
    }
    NoticesOfSize(s.db.actions, ResendsOf(s, r));
  }

  /** The family of dedupe keys resends use. */
  predicate IsResendKey(d: string) {
    |d| >= 14 && d[..14] == "result-resend:"
  }

  lemma ResendDedupeInjective(a: string, p: string, b: string, q: string)
    requires |a| == |b| && ResendDedupe(a, p) == ResendDedupe(b, q)
    ensures a == b && p == q
    ensures IsResendKey(ResendDedupe(a, p))
  {
    var x, y := ResendDedupe(a, p), ResendDedupe(b, q);
    assert x[14..14 + |a|] == a && x[15 + |a|..] == p;
    assert y[14..14 + |b|] == b && y[15 + |b|..] == q;
  }

  lemma ResultDedupeIsNoResendKey(resultId: string)
    ensures !IsResendKey(ResultDedupe(resultId))
  {
    var d := ResultDedupe(resultId);
    assert d[6] == ':';
    assert |d| >= 14 ==> d[..14][6] != "result-resend:"[6];
  }

  ghost predicate OwnsKey(s: Sys, d: string) {
    exists a :: a in s.db.actions && a.kind.ResendAction? && d == ResendDedupe(a.row, a.requestId)
  }

  /** Every minted id reached the outbox, and every resend key there belongs to a recorded resend. */
  ghost predicate AllPosted(s: Sys) {
    && s.minted.Keys == s.posted
    && forall k | k in s.db.outbox && IsResendKey(s.db.outbox[k].dedupeKey) :: OwnsKey(s, s.db.outbox[k].dedupeKey)
  }

  /** Ingress leaves the keys of resends alone. */
  predicate LeavesResendKeys(op: Op) {
    op.DoEnqueue? ==> !IsResendKey(op.plain.dedupeKey)
  }

  lemma OwnedKeyStays(s: Sys, s': Sys, d: string)
    requires Grows(s, s') && OwnsKey(s, d)
    ensures OwnsKey(s', d)
  {
    var a :| a in s.db.actions && a.kind.ResendAction? && d == ResendDedupe(a.row, a.requestId);
    assert ActionKept(s, s', a);
  }

  lemma QuietAllPosted(s: Sys, s': Sys)
    requires AllPosted(s) && Grows(s, s') && s'.minted == s.minted && s'.posted == s.posted
    requires forall k | k in s'.db.outbox && IsResendKey(s'.db.outbox[k].dedupeKey) ::
               k in s.db.outbox && s.db.outbox[k].dedupeKey == s'.db.outbox[k].dedupeKey
    ensures AllPosted(s')
  {
    forall k | k in s'.db.outbox && IsResendKey(s'.db.outbox[k].dedupeKey)
      ensures OwnsKey(s', s'.db.outbox[k].dedupeKey)
    {
      OwnedKeyStays(s, s', s.db.outbox[k].dedupeKey);
    }
  }

  lemma PublishAllPosted(cfg: Config, s: Sys, s': Sys, e: Publishing)
    requires Inv(s) && AllPosted(s) && Publishes(cfg, s, s', e)
    ensures AllPosted(s')
  {
    PublishGrows(cfg, s, s', e);
    ResultDedupeIsNoResendKey(e.p.resultId);
    forall k | k in s'.db.outbox && IsResendKey(s'.db.outbox[k].dedupeKey)
      ensures OwnsKey(s', s'.db.outbox[k].dedupeKey)
    {
      OwnedKeyStays(s, s', s.db.outbox[k].dedupeKey);
    }
  }

  /** Under a clean outbox the key of a new resend is free. */
  lemma CleanResendIsQueued(s: Sys, s': Sys, e: Resending)
    requires Inv(s) && AllPosted(s) && Resends(s, s', e)
    ensures e.queued
  {
    ResendQueuedIff(s, s', e);
    var d := ResendDedupe(e.row, e.requestId);
    ResendDedupeInjective(e.row, e.requestId, e.row, e.requestId);
    forall k | k in s.db.outbox ensures s.db.outbox[k].dedupeKey != d {
      if s.db.outbox[k].dedupeKey == d {
        var a :| a in s.db.actions && a.kind.ResendAction? && d == ResendDedupe(a.row, a.requestId);
        assert ActionInv(s, a) && RowInv(s, a.row) && RowInv(s, e.row);
        ResendDedupeInjective(a.row, a.requestId, e.row, e.requestId);
      }
    }
  }

  lemma ResendAllPosted(s: Sys, s': Sys, e: Resending)
    requires Inv(s) && AllPosted(s) && Resends(s, s', e)
    ensures AllPosted(s')
  {
    CleanResendIsQueued(s, s', e);
    QueuedResendAllPosted(s, s', e);
  }

  lemma QueuedResendAllPosted(s: Sys, s': Sys, e: Resending)
    requires AllPosted(s) && Resends(s, s', e) && e.queued
    ensures AllPosted(s')
  {
    ResendGrows(s, s', e);
    assert ActionKey(e.row, ResendAction, e.requestId) in s'.db.actions;
    forall k | k in s'.db.outbox && IsResendKey(s'.db.outbox[k].dedupeKey)
      ensures OwnsKey(s', s'.db.outbox[k].dedupeKey)
    {
      if k in s.db.outbox {
        OwnedKeyStays(s, s', s.db.outbox[k].dedupeKey);
      }
    }
  }

  lemma PublishStepAllPosted(cfg: Config, s: Sys, device: Uuid, p: Publication, target: Option<string>, now: nat,
                             ids: Ids)
    requires Inv(s) && AllPosted(s) && ValidConfig(cfg)
    ensures AllPosted(PublishStep(cfg, s, device, p, target, now, ids))
  {
    PublishEffect(cfg, s, device, p, target, now, ids);
    var s' := PublishStep(cfg, s, device, p, target, now, ids);
    if s' != s {
      PublishAllPosted(cfg, s, s', Attempt(cfg, device, p, target.value, now, ids));
    }
  }

  lemma ResendStepAllPosted(cfg: Config, s: Sys, device: Uuid, resultId: string, requestId: string, now: int,
                            notice: string, outbox: string)
    requires Inv(s) && AllPosted(s)
    ensures AllPosted(ResendStep(cfg, s, device, resultId, requestId, now, notice, outbox))
  {
    ResendEffect(cfg, s, device, resultId, requestId, now, notice, outbox);
    var s' := ResendStep(cfg, s, device, resultId, requestId, now, notice, outbox);
    if s' != s {
      var e :| Resends(s, s', e);
      ResendAllPosted(s, s', e);
    }
  }

  /** The key of a queued notice is the one it was queued under. */
  predicate SameKey(db: Db, db': Db, k: NoticeKey)
    requires k in db'.outbox
  {
    k in db.outbox && db.outbox[k].dedupeKey == db'.outbox[k].dedupeKey
  }

  lemma UpdateLetters(s: Sys, changes: map<NoticeKey, Notice>, k: NoticeKey)
    requires LegalChanges(s.db, changes) && k in Updates(s, changes).db.outbox
    ensures SameKey(s.db, Updates(s, changes).db, k)
  {
  }

  lemma RevokeLetters(s: Sys, r: string, requestId: string, now: int, k: NoticeKey)
    requires k in RevokeStep(s, r, requestId, now).db.outbox
    ensures SameKey(s.db, RevokeStep(s, r, requestId, now).db, k)
  {
    if r in s.db.results && ValidRequestId(requestId) {
      var s1 := Stamped(s, r, now);
      CancellationsLegal(s1.db, r, now);
      RevokeSteps(s, r, requestId, now);
      UpdateLetters(s1, Cancellations(s1.db, r, now), k);
    }
  }

  lemma QueueLetters(s: Sys, key: NoticeKey, n: Notice, k: NoticeKey)
    requires !IsResendKey(n.dedupeKey) && k in QueueStep(s, key, n).db.outbox
    requires IsResendKey(QueueStep(s, key, n).db.outbox[k].dedupeKey)
    ensures SameKey(s.db, QueueStep(s, key, n).db, k)
  {
  }

  lemma RetainLetters(s: Sys, cfg: Config, now: int, k: NoticeKey)
    requires k in RetainStep(s, cfg, now).db.outbox
    ensures SameKey(s.db, RetainStep(s, cfg, now).db, k)
  {
  }

  lemma WorkLetters(s: Sys, step: WorkerStep, k: NoticeKey)
    requires Inv(s) && k in Updates(s, Changes(s.db, step)).db.outbox
    ensures SameKey(s.db, Updates(s, Changes(s.db, step)).db, k)
  {
    WorkLegal(s, step);
    UpdateLetters(s, Changes(s.db, step), k);
  }

  /** The steps that neither mint nor publish leave the letters of the outbox as they are. */
  lemma OtherLetters(cfg: Config, s: Sys, op: Op, k: NoticeKey)
    requires Inv(s) && !op.DoPublish? && !op.DoResend? && LeavesResendKeys(op)
    requires var s' := Apply(cfg, s, op); k in s'.db.outbox && IsResendKey(s'.db.outbox[k].dedupeKey)
    ensures SameKey(s.db, Apply(cfg, s, op).db, k)
  {
    match op
    case DoRevoke(row, requestId, now) => RevokeLetters(s, row, requestId, now, k);
    case DoRetain(now) => RetainLetters(s, cfg, now, k);
    case DoWork(step) => WorkLetters(s, step, k);
    case DoEnqueue(key, plain) => QueueLetters(s, key, plain, k);
    case _ =>
  }

  lemma OtherStepsMintNothing(cfg: Config, s: Sys, op: Op)
    requires !op.DoPublish? && !op.DoResend?
    ensures Apply(cfg, s, op).minted == s.minted && Apply(cfg, s, op).posted == s.posted
  {
  }

  lemma OtherAllPosted(cfg: Config, s: Sys, s': Sys, op: Op)
    requires Inv(s) && AllPosted(s) && LeavesResendKeys(op) && !op.DoPublish? && !op.DoResend?
    requires s' == Apply(cfg, s, op) && Grows(s, s')
    ensures AllPosted(s')
  {
    forall k | k in s'.db.outbox && IsResendKey(s'.db.outbox[k].dedupeKey)
      ensures k in s.db.outbox && s.db.outbox[k].dedupeKey == s'.db.outbox[k].dedupeKey
    {
      OtherLetters(cfg, s, op, k);
    }
    OtherStepsMintNothing(cfg, s, op);
    QuietAllPosted(s, s');
  }

  lemma ApplyAllPosted(cfg: Config, s: Sys, op: Op)
    requires Inv(s) && AllPosted(s) && ValidConfig(cfg) && LeavesResendKeys(op)
    ensures AllPosted(Apply(cfg, s, op))
  {
    match op
    case DoPublish(device, p, target, now, ids) => PublishStepAllPosted(cfg, s, device, p, target, now, ids);
    case DoResend(device, resultId, requestId, now, notice, outbox) =>
      ResendStepAllPosted(cfg, s, device, resultId, requestId, now, notice, outbox);
    case _ =>
      ApplyInv(cfg, s, op);
      OtherAllPosted(cfg, s, Apply(cfg, s, op), op);
  }

  lemma {:induction false} RunAllPosted(cfg: Config, s: Sys, ops: seq<Op>)
    requires Inv(s) && AllPosted(s) && ValidConfig(cfg) && forall op | op in ops :: LeavesResendKeys(op)
    ensures AllPosted(Run(cfg, s, ops))
    decreases |ops|
  {
    if ops != [] {
      ApplyAllPosted(cfg, s, ops[0]);
      ApplyInv(cfg, s, ops[0]);
      RunAllPosted(cfg, Apply(cfg, s, ops[0]), ops[1..]);
    }
  }

  /** In a run whose ingress leaves resend keys alone, every notification id minted for a result reaches the outbox. */
  lemma EveryResendIsQueued(cfg: Config, ops: seq<Op>, r: string)
    requires ValidConfig(cfg) && forall op | op in ops :: LeavesResendKeys(op)
    requires r in Run(cfg, EMPTY, ops).db.results
    ensures var s := Run(cfg, EMPTY, ops);
            |PostedOf(s, r)| == 1 + |ResendsOf(s, r)|
  {
    var s := Run(cfg, EMPTY, ops);
    EmptyInv();
    RunInv(cfg, EMPTY, ops);
    RunAllPosted(cfg, EMPTY, ops);
    OneNoticePerRequest(s, r);
    assert PostedOf(s, r) == MintedOf(s, r);
  }

  // ---------------------------------------------------------------------
  // How many of them reached the outbox, in any run
  // ---------------------------------------------------------------------

  function PostedIn(minted: map<string, string>, posted: set<string>, r: string): set<string> {
    set n | n in posted && n in minted && minted[n] == r
  }

  /** The notification ids minted for `r` that reached the outbox. */
  function PostedOf(s: Sys, r: string): set<string> {
    PostedIn(s.minted, s.posted, r)
  }

  predicate Appears(s: Sys, s': Sys, r: string) {
    r !in s.db.results && r in s'.db.results
  }

  /** The operation is a resend of `r` that commits while its dedupe key is free. */
  ghost predicate FreeResend(cfg: Config, s: Sys, op: Op, r: string) {
    && op.DoResend? && Apply(cfg, s, op) != s
    && r in s.db.results && s.db.results[r].device == op.device && s.db.results[r].resultId == op.resultId
    && !DedupeTaken(s.db, DeviceOrigin(op.device), ResendDedupe(r, op.requestId))
  }

  function OneIf(b: bool): nat {
    if b then 1 else 0
  }

  ghost function FreeResends(cfg: Config, s: Sys, ops: seq<Op>, r: string): nat
    decreases |ops|
  {
    if ops == [] then 0
    else
      OneIf(FreeResend(cfg, s, ops[0], r)) + FreeResends(cfg, Apply(cfg, s, ops[0]), ops[1..], r)
  }

  /** Minting one new id for `x` adds it to what reached the outbox for `x` if it did, and changes nothing else. */
  lemma MintingPosts(minted: map<string, string>, posted: set<string>, posted': set<string>, n: string, x: string,
                     queued: bool, r: string)
    requires n !in minted && posted <= minted.Keys && posted' == if queued then posted + {n} else posted
    ensures |PostedIn(minted[n := x], posted', r)| == |PostedIn(minted, posted, r)| + OneIf(queued && x == r)
  {
    var a, b := PostedIn(minted, posted, r), PostedIn(minted[n := x], posted', r);
    if queued && x == r {
      assert b == a + {n} && n !in a;
    } else {
      assert b == a;
    }
  }

  lemma PublishPosts(cfg: Config, s: Sys, s': Sys, e: Publishing, r: string)
    requires s.posted <= s.minted.Keys && Publishes(cfg, s, s', e)
    ensures |PostedOf(s', r)| == |PostedOf(s, r)| + OneIf(Appears(s, s', r))
  {
    MintingPosts(s.minted, s.posted, s'.posted, e.ids.notice, e.ids.row, true, r);
  }

  lemma ResendPosts(s: Sys, s': Sys, e: Resending, r: string)
    requires s.posted <= s.minted.Keys && Resends(s, s', e)
    ensures |PostedOf(s', r)| == |PostedOf(s, r)| + OneIf(e.queued && e.row == r)
    ensures s'.db.results.Keys == s.db.results.Keys
  {
    MintingPosts(s.minted, s.posted, s'.posted, e.notice, e.row, e.queued, r);
  }

  lemma PublishStepPosts(cfg: Config, s: Sys, device: Uuid, p: Publication, target: Option<string>, now: nat, ids: Ids,
                         r: string)
    requires Inv(s) && ValidConfig(cfg)
    ensures var s' := PublishStep(cfg, s, device, p, target, now, ids);
            |PostedOf(s', r)| == |PostedOf(s, r)| + OneIf(Appears(s, s', r))
  {
    PublishEffect(cfg, s, device, p, target, now, ids);
    var s' := PublishStep(cfg, s, device, p, target, now, ids);
    if s' != s {
      PublishPosts(cfg, s, s', Attempt(cfg, device, p, target.value, now, ids), r);
    }
  }

  lemma ResendStepPosts(cfg: Config, s: Sys, op: Op, r: string)
    requires Inv(s) && op.DoResend?
    ensures var s' := Apply(cfg, s, op);
            |PostedOf(s', r)| == |PostedOf(s, r)| + OneIf(FreeResend(cfg, s, op, r)) && !Appears(s, s', r)
  {
    var s' := Apply(cfg, s, op);
    if s' != s {
      var e := NamedResend(cfg, s, op.device, op.resultId, op.requestId, op.now, op.notice, op.outbox, r);
      ResendPosts(s, s', e, r);
      ResendQueuedIff(s, s', e);
    }
  }

  lemma OtherStepsAddNoRow(cfg: Config, s: Sys, op: Op)
    requires !op.DoPublish? && !op.DoResend?
    ensures Apply(cfg, s, op).db.results.Keys == s.db.results.Keys
  {
  }

  /** One operation puts one notice of `r` in the outbox if it publishes `r` or resends it under a free key. */
  lemma ApplyPosts(cfg: Config, s: Sys, op: Op, r: string)
    requires Inv(s) && ValidConfig(cfg)
    ensures var s' := Apply(cfg, s, op);
            |PostedOf(s', r)| == |PostedOf(s, r)| + OneIf(Appears(s, s', r)) + OneIf(FreeResend(cfg, s, op, r))
  {
    match op
    case DoPublish(device, p, target, now, ids) => PublishStepPosts(cfg, s, device, p, target, now, ids, r);
    case DoResend(_, _, _, _, _, _) => ResendStepPosts(cfg, s, op, r);
    case _ =>
      OtherStepsMintNothing(cfg, s, op);
      OtherStepsAddNoRow(cfg, s, op);
  }

  lemma {:induction false} RunPosts(cfg: Config, s: Sys, ops: seq<Op>, r: string)
    requires Inv(s) && ValidConfig(cfg)
    ensures var s' := Run(cfg, s, ops);
            |PostedOf(s', r)| == |PostedOf(s, r)| + OneIf(Appears(s, s', r)) + FreeResends(cfg, s, ops, r)
    decreases |ops|
  {
    if ops != [] {
      var s1 := Apply(cfg, s, ops[0]);
      ApplyPosts(cfg, s, ops[0], r);
      ApplyInv(cfg, s, ops[0]);
      RunPosts(cfg, s1, ops[1..], r);
      RowsStay(cfg, s, ops[0], ops[1..], r);
    }
  }

  lemma RowsStay(cfg: Config, s: Sys, op: Op, ops: seq<Op>, r: string)
    requires Inv(s) && ValidConfig(cfg)
    ensures var s1 := Apply(cfg, s, op);
            (r in s.db.results ==> r in s1.db.results) && (r in s1.db.results ==> r in Run(cfg, s1, ops).db.results)
  {
    var s1 := Apply(cfg, s, op);
    ApplyInv(cfg, s, op);
    RunInv(cfg, s1, ops);
    assert r in s.db.results ==> RowGrows(s, s1, r);
    assert r in s1.db.results ==> RowGrows(s1, Run(cfg, s1, ops), r);
  }

  /**
   In every run, the link notices ever put in the outbox for a result number one plus the
   resends of it that committed while their dedupe key was free.
   */
  lemma NoticesEverQueued(cfg: Config, ops: seq<Op>, r: string)
    requires ValidConfig(cfg) && r in Run(cfg, EMPTY, ops).db.results
    ensures |PostedOf(Run(cfg, EMPTY, ops), r)| == 1 + FreeResends(cfg, EMPTY, ops, r)
  {
    EmptyInv();
    RunPosts(cfg, EMPTY, ops, r);
    assert PostedOf(EMPTY, r) == {};
  }
}
