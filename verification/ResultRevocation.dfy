/**
 A revocation is final: the page closes for good, no notice is created afterwards, the
 waiting notices are cancelled, and the worker never resolves their text again.
 */
module ResultRevocation {
  import opened Basics
  import opened Delivery
  import opened ResultPages
  import opened OutboxWorker
  import opened ResultRuns
  import opened ResultGuarantees

  // ---------------------------------------------------------------------
  // One revocation
  // ---------------------------------------------------------------------

  predicate WaitsFor(n: Notice, r: string) {
    n.payload.Link? && n.payload.resultRow == r && IsSendable(n.status)
  }

  lemma RevokedNotice(s: Sys, r: string, requestId: string, now: int, k: NoticeKey)
    requires r in s.db.results && ValidRequestId(requestId) && k in s.db.outbox
    requires s.db.outbox[k].status.SendingChannel? <==> s.db.outbox[k].claim.Some?
    ensures var out, n := RevokeStep(s, r, requestId, now).db.outbox, s.db.outbox[k];
            k in out && out[k] == if WaitsFor(n, r) then CancelledNotice(n, now) else n
  {
    assert Cancellations(Stamped(s, r, now).db, r, now) == Cancellations(s.db, r, now);
    RevokeSteps(s, r, requestId, now);
  }

  /** Every waiting notice of the row is cancelled; claimed and finished ones and other rows' stay as they are. */
  lemma RevokeCancels(s: Sys, r: string, requestId: string, now: int, k: NoticeKey)
    requires Inv(s) && r in s.db.results && ValidRequestId(requestId) && k in s.db.outbox
    ensures var out, n := RevokeStep(s, r, requestId, now).db.outbox, s.db.outbox[k];
            && k in out
            && out[k] == if !WaitsFor(n, r) then n
                         else n.(status := Cancelled, nextAttemptAt := None, updatedAt := Max(n.updatedAt + 1, now))
  {
    assert NoticeInv(s, k);
    RevokedNoticeCancels(s, r, requestId, now, k);
  }

  lemma RevokedNoticeCancels(s: Sys, r: string, requestId: string, now: int, k: NoticeKey)
    requires r in s.db.results && ValidRequestId(requestId) && k in s.db.outbox && NoticeInv(s, k)
    ensures var out, n := RevokeStep(s, r, requestId, now).db.outbox, s.db.outbox[k];
            && k in out
            && out[k] == if !WaitsFor(n, r) then n
                         else n.(status := Cancelled, nextAttemptAt := None, updatedAt := Max(n.updatedAt + 1, now))
  {
    RevokedNotice(s, r, requestId, now, k);
  }

  /** The first revocation stamps the row with a later version; repeating it keeps the time. */
  lemma RevokeStampsOnce(s: Sys, r: string, requestId: string, now: int)
    requires r in s.db.results && ValidRequestId(requestId)
    ensures var row, row' := s.db.results[r], RevokeStep(s, r, requestId, now).db.results[r];
            && row'.revokedAt.Some?
            && (row.revokedAt.None? ==>
                  row'.revokedAt == Some(now) && row.updatedAt < row'.updatedAt && now <= row'.updatedAt)
            && (row.revokedAt.Some? ==> row'.revokedAt == row.revokedAt)
  {
    RevokeSteps(s, r, requestId, now);
  }

  /** With no waiting notice left, a repeated revocation changes no row and no notice. */
  lemma RepeatedRevokeIsQuiet(s: Sys, r: string, requestId: string, now: int)
    requires r in s.db.results && s.db.results[r].revokedAt.Some? && ValidRequestId(requestId)
    requires forall k | k in s.db.outbox :: !WaitsFor(s.db.outbox[k], r)
    ensures RevokeStep(s, r, requestId, now).db.outbox == s.db.outbox
    ensures RevokeStep(s, r, requestId, now).db.results == s.db.results
  {
    StampedAgain(s, r, now);
    assert Cancellations(s.db, r, now) == map[];
    NoChanges(s.db);
    RevokeSteps(s, r, requestId, now);
  }

  /** Revoking a page again before anything else happens changes no row and no notice. */
  lemma RevokeTwice(s: Sys, r: string, first: string, second: string, now: int, later: int)
    requires Inv(s) && r in s.db.results && ValidRequestId(first) && ValidRequestId(second)
    ensures var s1 := RevokeStep(s, r, first, now); var s2 := RevokeStep(s1, r, second, later);
            s2.db.outbox == s1.db.outbox && s2.db.results == s1.db.results
  {
    RevokeStampsOnce(s, r, first, now);
    RevokeLeavesNoneWaiting(s, r, first, now);
    RepeatedRevokeIsQuiet(RevokeStep(s, r, first, now), r, second, later);
  }

  lemma RevokeLeavesNoneWaiting(s: Sys, r: string, requestId: string, now: int)
    requires Inv(s) && r in s.db.results && ValidRequestId(requestId)
    ensures var out := RevokeStep(s, r, requestId, now).db.outbox; forall k | k in out :: !WaitsFor(out[k], r)
  {
    forall k | k in RevokeStep(s, r, requestId, now).db.outbox
      ensures !WaitsFor(RevokeStep(s, r, requestId, now).db.outbox[k], r)
    {
      if k in s.db.outbox {
        assert NoticeInv(s, k);
      }
      RevokedIsNotWaiting(s, r, requestId, now, k);
    }
  }

  lemma RevokedIsNotWaiting(s: Sys, r: string, requestId: string, now: int, k: NoticeKey)
    requires r in s.db.results && ValidRequestId(requestId) && k in RevokeStep(s, r, requestId, now).db.outbox
    requires k in s.db.outbox ==> NoticeInv(s, k)
    ensures !WaitsFor(RevokeStep(s, r, requestId, now).db.outbox[k], r)
  {
    RevokeKeepsKeys(s, r, requestId, now, k);
    RevokedNotice(s, r, requestId, now, k);
  }

  lemma RevokeKeepsKeys(s: Sys, r: string, requestId: string, now: int, k: NoticeKey)
    requires r in s.db.results && ValidRequestId(requestId) && k in RevokeStep(s, r, requestId, now).db.outbox
    ensures k in s.db.outbox
  {
    RevokeSteps(s, r, requestId, now);
  }

  lemma StampedAgain(s: Sys, r: string, now: int)
    requires r in s.db.results && s.db.results[r].revokedAt.Some?
    ensures Stamped(s, r, now) == s
  {
    assert s.db.results[r := s.db.results[r]] == s.db.results;
  }

  lemma NoChanges(db: Db)
    ensures UpdateNotices(db, map[]) == db
  {
    assert db.outbox + map[] == db.outbox;
    assert (map r | r in db.results :: TouchedRow(r, db.results[r], map[])) == db.results;
  }

  // ---------------------------------------------------------------------
  // Every later state
  // ---------------------------------------------------------------------

  predicate Revoked(s: Sys, r: string) {
    r in s.db.results && s.db.results[r].revokedAt.Some?
  }

  lemma ResendOfRevokedRefused(cfg: Config, s: Sys, device: Uuid, resultId: string, requestId: string, now: int,
                               notice: string, outbox: string, r: string)
    requires Revoked(s, r)
    ensures MintedOf(ResendStep(cfg, s, device, resultId, requestId, now, notice, outbox), r) == MintedOf(s, r)
  {
    ResendEffect(cfg, s, device, resultId, requestId, now, notice, outbox);
  }

  lemma PublishMintsForItself(cfg: Config, s: Sys, device: Uuid, p: Publication, target: Option<string>,
                              now: nat, ids: Ids, r: string)
    requires ValidConfig(cfg) && r in s.db.results
    ensures MintedOf(PublishStep(cfg, s, device, p, target, now, ids), r) == MintedOf(s, r)
  {
    PublishEffect(cfg, s, device, p, target, now, ids);
  }

  lemma ApplyMintsNothingForRevoked(cfg: Config, s: Sys, op: Op, r: string)
    requires ValidConfig(cfg) && Revoked(s, r)
    ensures MintedOf(Apply(cfg, s, op), r) == MintedOf(s, r)
  {
    match op
    case DoPublish(device, p, target, now, ids) => PublishMintsForItself(cfg, s, device, p, target, now, ids, r);
    case DoResend(device, resultId, requestId, now, notice, outbox) =>
      ResendOfRevokedRefused(cfg, s, device, resultId, requestId, now, notice, outbox, r);
    case _ => OtherStepsMintNothing(cfg, s, op);
  }

  /** No notice is ever created for a revoked result. */
  lemma {:induction false} NoNoticeAfterRevoke(cfg: Config, s: Sys, ops: seq<Op>, r: string)
    requires Inv(s) && ValidConfig(cfg) && Revoked(s, r)
    ensures MintedOf(Run(cfg, s, ops), r) == MintedOf(s, r)
    decreases |ops|
  {
    if ops != [] {
      ApplyMintsNothingForRevoked(cfg, s, ops[0], r);
      StaysRevoked(cfg, s, ops[0], r);
      NoNoticeAfterRevoke(cfg, Apply(cfg, s, ops[0]), ops[1..], r);
    }
  }

  lemma StaysRevoked(cfg: Config, s: Sys, op: Op, r: string)
    requires Inv(s) && ValidConfig(cfg) && Revoked(s, r)
    ensures Inv(Apply(cfg, s, op)) && Revoked(Apply(cfg, s, op), r)
  {
    ApplyInv(cfg, s, op);
    assert RowGrows(s, Apply(cfg, s, op), r);
  }

  /** No text that decodes to the page's token reads it. */
  lemma RevokedBodyIsClosed(cfg: Config, s: Sys, r: string, text: string, now: int)
    requires Inv(s) && Revoked(s, r) && r in s.db.shares && DecodeShareToken(text) == Some(s.db.shares[r].digest.of)
    ensures PublicBody(s.db, cfg, text, now) == Err(Inaccessible)
  {
    SharedRow(s, r);
  }

  lemma RevokedLinkIsClosed(cfg: Config, s: Sys, r: string, now: int)
    requires Inv(s) && Revoked(s, r)
    ensures LinkFor(s.db, cfg, s.db.results[r].device, s.db.results[r].resultId, now) == Err(Inaccessible)
  {
    LinkIsUnique(s, r);
  }

  lemma RevokedResendIsRefused(cfg: Config, s: Sys, r: string, requestId: string, now: int, notice: string,
                               outbox: string)
    requires Inv(s) && Revoked(s, r) && ValidRequestId(requestId)
    requires ActionKey(r, ResendAction, requestId) !in s.db.actions
    ensures ResendTx(s.db, cfg, s.db.results[r].device, s.db.results[r].resultId, requestId, now, notice, outbox)
              == (s.db, Refused(Inaccessible))
  {
    NamedRow(s, r);
  }

  lemma RevokedTextIsNotSent(s: Sys, r: string, k: NoticeKey, now: int)
    requires Revoked(s, r) && k in s.db.outbox && s.db.outbox[k].payload.Link? && s.db.outbox[k].payload.resultRow == r
    ensures SendableText(s.db, k, now) == None
  {
  }

  /** Closed to readers with the token, to the owner asking for the link or a resend, and to the worker. */
  ghost predicate Closed(cfg: Config, db: Db, r: string, now: int)
    requires r in db.results && r in db.shares
  {
    var row := db.results[r];
    && (forall text | DecodeShareToken(text) == Some(db.shares[r].digest.of) ::
          PublicBody(db, cfg, text, now) == Err(Inaccessible))
    && LinkFor(db, cfg, row.device, row.resultId, now) == Err(Inaccessible)
    && (forall q, notice, outbox | ValidRequestId(q) && ActionKey(r, ResendAction, q) !in db.actions ::
          ResendTx(db, cfg, row.device, row.resultId, q, now, notice, outbox) == (db, Refused(Inaccessible)))
    && (forall k | k in db.outbox && db.outbox[k].payload.Link? && db.outbox[k].payload.resultRow == r ::
          SendableText(db, k, now) == None)
  }

  lemma RevokedIsClosed(cfg: Config, s: Sys, r: string, now: int)
    requires Inv(s) && Revoked(s, r) && r in s.db.shares
    ensures Closed(cfg, s.db, r, now)
  {
    forall text | DecodeShareToken(text) == Some(s.db.shares[r].digest.of)
      ensures PublicBody(s.db, cfg, text, now) == Err(Inaccessible)
    {
      RevokedBodyIsClosed(cfg, s, r, text, now);
    }
    RevokedLinkIsClosed(cfg, s, r, now);
    forall q, notice, outbox | ValidRequestId(q) && ActionKey(r, ResendAction, q) !in s.db.actions
      ensures ResendTx(s.db, cfg, s.db.results[r].device, s.db.results[r].resultId, q, now, notice, outbox)
                == (s.db, Refused(Inaccessible))
    {
      RevokedResendIsRefused(cfg, s, r, q, now, notice, outbox);
    }
    forall k | k in s.db.outbox && s.db.outbox[k].payload.Link? && s.db.outbox[k].payload.resultRow == r
      ensures SendableText(s.db, k, now) == None
    {
      RevokedTextIsNotSent(s, r, k, now);
    }
  }

  /** In every later state, at every time, a revoked page is closed. */
  lemma RevokedStaysClosed(cfg: Config, s: Sys, ops: seq<Op>, r: string, now: int)
    requires Inv(s) && ValidConfig(cfg) && Revoked(s, r)
    ensures var s' := Run(cfg, s, ops);
            && r in s'.db.results && s'.db.results[r].revokedAt == s.db.results[r].revokedAt
            && r in s'.db.shares && Closed(cfg, s'.db, r, now)
  {
    var s' := Run(cfg, s, ops);
    RunInv(cfg, s, ops);
    assert RowGrows(s, s', r) && RowInv(s', r);
    RevokedIsClosed(cfg, s', r, now);
  }

  // ---------------------------------------------------------------------
  // Finished notices stay finished
  // ---------------------------------------------------------------------

  /** Notice `k` is finished as `n`: it is never queued as anything else, though retention may delete it. */
  predicate Frozen(s: Sys, k: NoticeKey, n: Notice) {
    && IsTerminal(n.status) && k.noticeId in s.minted
    && (k in s.db.outbox && s.db.outbox[k].payload.Link? ==> s.db.outbox[k] == n)
  }

  lemma UpdateFrozen(s: Sys, changes: map<NoticeKey, Notice>, k: NoticeKey, n: Notice)
    requires LegalChanges(s.db, changes) && Frozen(s, k, n)
    ensures Frozen(Updates(s, changes), k, n)
  {
    if k in changes {
      assert LegalChange(s.db.outbox[k], changes[k]);
    }
  }

  lemma RevokeFrozen(s: Sys, r: string, requestId: string, now: int, k: NoticeKey, n: Notice)
    requires Frozen(s, k, n)
    ensures Frozen(RevokeStep(s, r, requestId, now), k, n)
  {
    if r in s.db.results && ValidRequestId(requestId) {
      var s1 := Stamped(s, r, now);
      CancellationsLegal(s1.db, r, now);
      UpdateFrozen(s1, Cancellations(s1.db, r, now), k, n);
      RevokeSteps(s, r, requestId, now);
    }
  }

  lemma PublishFrozen(cfg: Config, s: Sys, device: Uuid, p: Publication, target: Option<string>, now: nat, ids: Ids,
                      k: NoticeKey, n: Notice)
    requires ValidConfig(cfg) && Frozen(s, k, n)
    ensures Frozen(PublishStep(cfg, s, device, p, target, now, ids), k, n)
  {
    PublishEffect(cfg, s, device, p, target, now, ids);
  }

  lemma ResendFrozen(cfg: Config, s: Sys, device: Uuid, resultId: string, requestId: string, now: int,
                     notice: string, outbox: string, k: NoticeKey, n: Notice)
    requires Frozen(s, k, n)
    ensures Frozen(ResendStep(cfg, s, device, resultId, requestId, now, notice, outbox), k, n)
  {
    ResendEffect(cfg, s, device, resultId, requestId, now, notice, outbox);
  }

  lemma OtherFrozen(cfg: Config, s: Sys, op: Op, k: NoticeKey, n: Notice)
    requires op.DoPurge? || op.DoRetain? || op.DoEnqueue? || op.DoSetDevice?
    requires Frozen(s, k, n)
    ensures Frozen(Apply(cfg, s, op), k, n)
  {
  }

  lemma WorkFrozen(s: Sys, step: WorkerStep, k: NoticeKey, n: Notice)
    requires Inv(s) && Frozen(s, k, n)
    ensures Frozen(Updates(s, Changes(s.db, step)), k, n)
  {
    WorkLegal(s, step);
    UpdateFrozen(s, Changes(s.db, step), k, n);
  }

  lemma ApplyFrozen(cfg: Config, s: Sys, op: Op, k: NoticeKey, n: Notice)
    requires Inv(s) && ValidConfig(cfg) && Frozen(s, k, n)
    ensures Frozen(Apply(cfg, s, op), k, n)
  {
    match op
    case DoPublish(device, p, target, now, ids) => PublishFrozen(cfg, s, device, p, target, now, ids, k, n);
    case DoResend(device, resultId, requestId, now, notice, outbox) =>
      ResendFrozen(cfg, s, device, resultId, requestId, now, notice, outbox, k, n);
    case DoRevoke(row, requestId, now) => RevokeFrozen(s, row, requestId, now, k, n);
    case DoWork(step) => WorkFrozen(s, step, k, n);
    case _ => OtherFrozen(cfg, s, op, k, n);
  }

  lemma {:induction false} RunFrozen(cfg: Config, s: Sys, ops: seq<Op>, k: NoticeKey, n: Notice)
    requires Inv(s) && ValidConfig(cfg) && Frozen(s, k, n)
    ensures Frozen(Run(cfg, s, ops), k, n)
    decreases |ops|
  {
    if ops != [] {
      ApplyFrozen(cfg, s, ops[0], k, n);
      ApplyInv(cfg, s, ops[0]);
      RunFrozen(cfg, Apply(cfg, s, ops[0]), ops[1..], k, n);
    }
  }

  /**
   A notice that was waiting when its page was revoked is cancelled, and in every later state
   its link is either gone or still cancelled: no step makes it sendable or claims it again.
   */
  lemma CancelledForGood(cfg: Config, s: Sys, ops: seq<Op>, r: string, requestId: string, now: int, k: NoticeKey)
    requires Inv(s) && ValidConfig(cfg) && r in s.db.results && ValidRequestId(requestId)
    requires k in s.db.outbox && s.db.outbox[k].payload.Link? && s.db.outbox[k].payload.resultRow == r
    requires IsSendable(s.db.outbox[k].status)
    ensures var s' := Run(cfg, RevokeStep(s, r, requestId, now), ops);
            k in s'.db.outbox && s'.db.outbox[k].payload.Link? ==> s'.db.outbox[k].status == Cancelled
  {
    var s1 := RevokeStep(s, r, requestId, now);
    assert NoticeInv(s, k);
    RevokeCancels(s, r, requestId, now, k);
    RevokeInv(s, r, requestId, now);
    RunFrozen(cfg, s1, ops, k, s1.db.outbox[k]);
  }
}
