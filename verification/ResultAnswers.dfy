/**
 What each operation on result pages answers, in every case, and exactly what it leaves
 behind: in terms of the tables, the request and the clock.
 */
module ResultAnswers {
  import opened Basics
  import opened Delivery
  import opened TokenFormat
  import opened ResultPages
  import opened ResultRuns
  import opened ResultGuarantees

  // ---------------------------------------------------------------------
  // Reading a page
  // ---------------------------------------------------------------------

  /** Exactly the text of a token is taken for it. */
  lemma ShareTokenIsCanonical(text: string, token: Secret)
    ensures DecodeShareToken(text) == Some(token) <==> text == Encode(token)
  {
    ShareTokenDecodes(token);
    if DecodeShareToken(text) == Some(token) {
      EncodeDecoded(text);
    }
  }

  /** The page a text may read: it is the page's token, the page is open and its owner active. */
  predicate MayRead(db: Db, r: string, text: string, now: int) {
    && r in db.shares && r in db.results && text == Encode(db.shares[r].digest.of)
    && PageIsOpen(db.results[r], now) && OwnerActive(db, db.results[r].device)
  }

  lemma TextFindsRow(s: Sys, text: string, r: string)
    requires Inv(s) && r in s.db.shares && r in s.db.results && text == Encode(s.db.shares[r].digest.of)
    ensures DecodeShareToken(text) == Some(s.db.shares[r].digest.of)
    ensures (set x | x in s.db.shares && x in s.db.results
                     && s.db.shares[x].digest == TokenDigest(s.db.shares[r].digest.of)) == {r}
  {
    ShareTokenIsCanonical(text, s.db.shares[r].digest.of);
    SharedRow(s, r);
    assert TokenDigest(s.db.shares[r].digest.of) == s.db.shares[r].digest;
  }

  lemma BodyOfMeans(s: Sys, cfg: Config, r: string, now: int)
    requires r in s.db.results && RowInv(s, r)
    ensures var row := s.db.results[r];
            var open := PageIsOpen(row, now) && OwnerActive(s.db, row.device);
            && (!open ==> BodyOf(s.db, cfg, r, now) == Err(Inaccessible))
            && (open && !cfg.hasCipher ==> BodyOf(s.db, cfg, r, now) == Err(Unavailable))
            && (open && cfg.hasCipher ==>
                  BodyOf(s.db, cfg, r, now)
                    == if row.bodyPurgedAt.None? then Ok(row.digest.of.body) else Err(Inaccessible))
            && (open && s.swept <= now ==> row.bodyPurgedAt.None?)
  {
  }

  lemma NoTokenIsRefused(s: Sys, cfg: Config, text: string, now: int)
    requires forall r | r in s.db.shares && r in s.db.results :: text != Encode(s.db.shares[r].digest.of)
    ensures PublicBody(s.db, cfg, text, now) == Err(Inaccessible)
  {
    var token := DecodeShareToken(text);
    if token.Some? {
      ShareTokenIsCanonical(text, token.value);
    }
  }

  lemma TokenReadsRow(s: Sys, cfg: Config, r: string, text: string, now: int)
    requires Inv(s) && r in s.db.shares && r in s.db.results && text == Encode(s.db.shares[r].digest.of)
    ensures PublicBody(s.db, cfg, text, now) == BodyOf(s.db, cfg, r, now) && RowInv(s, r)
  {
    TextFindsRow(s, text, r);
  }

  /** The answer to the token of a page. */
  lemma TokenIsAnswered(s: Sys, cfg: Config, r: string, text: string, now: int)
    requires Inv(s) && r in s.db.shares && r in s.db.results && text == Encode(s.db.shares[r].digest.of)
    ensures !MayRead(s.db, r, text, now) ==> PublicBody(s.db, cfg, text, now) == Err(Inaccessible)
    ensures MayRead(s.db, r, text, now) && !cfg.hasCipher ==> PublicBody(s.db, cfg, text, now) == Err(Unavailable)
    ensures MayRead(s.db, r, text, now) && cfg.hasCipher && s.swept <= now ==>
              PublicBody(s.db, cfg, text, now) == Ok(s.db.results[r].digest.of.body)
  {
    TokenReadsRow(s, cfg, r, text, now);
    BodyOfMeans(s, cfg, r, now);
  }

  /**
   Who may read what: a text that is the token of an open page of an active owner returns the
   published body, and every other text is refused. A page past its expiry, revoked, or of an owner
   disabled or revoked, is refused whatever else holds.
   */
  lemma ReadIsExact(s: Sys, cfg: Config, text: string, now: int)
    requires Inv(s)
    ensures (forall r :: !MayRead(s.db, r, text, now)) ==> PublicBody(s.db, cfg, text, now) == Err(Inaccessible)
    ensures forall r | MayRead(s.db, r, text, now) && !cfg.hasCipher ::
              PublicBody(s.db, cfg, text, now) == Err(Unavailable)
    ensures forall r | MayRead(s.db, r, text, now) && cfg.hasCipher && s.swept <= now ::
              PublicBody(s.db, cfg, text, now) == Ok(s.db.results[r].digest.of.body)
  {
    forall r | MayRead(s.db, r, text, now)
      ensures !cfg.hasCipher ==> PublicBody(s.db, cfg, text, now) == Err(Unavailable)
      ensures cfg.hasCipher && s.swept <= now ==> PublicBody(s.db, cfg, text, now) == Ok(s.db.results[r].digest.of.body)
    {
      TokenIsAnswered(s, cfg, r, text, now);
    }
    if r :| r in s.db.shares && r in s.db.results && text == Encode(s.db.shares[r].digest.of) {
      TokenIsAnswered(s, cfg, r, text, now);
    } else {
      NoTokenIsRefused(s, cfg, text, now);
    }
  }

  /** A read succeeds if and only if it may. */
  lemma ReadSucceedsIff(s: Sys, cfg: Config, text: string, now: int)
    requires Inv(s) && cfg.hasCipher && s.swept <= now
    ensures PublicBody(s.db, cfg, text, now).Ok? <==> exists r :: MayRead(s.db, r, text, now)
  {
    ReadIsExact(s, cfg, text, now);
  }

  /** Nothing is read that may not be, even by a clock that runs behind the last sweep. */
  lemma NothingElseIsRead(s: Sys, cfg: Config, text: string, now: int)
    requires Inv(s) && PublicBody(s.db, cfg, text, now).Ok?
    ensures exists r ::
              MayRead(s.db, r, text, now) && PublicBody(s.db, cfg, text, now) == Ok(s.db.results[r].digest.of.body)
  {
    ReadIsExact(s, cfg, text, now);
    var r :| MayRead(s.db, r, text, now);
    TextFindsRow(s, text, r);
    assert RowInv(s, r);
    BodyOfMeans(s, cfg, r, now);
  }

  lemma LinkOfMeans(s: Sys, cfg: Config, r: string, now: int)
    requires r in s.db.results && RowInv(s, r)
    ensures LinkOf(s.db, cfg, r, now)
              == if !PageIsOpen(s.db.results[r], now) then Err(Inaccessible)
                 else if !cfg.hasCipher then Err(Unavailable)
                 else Ok(s.db.shares[r].publicOrigin + "/r/" + Encode(s.db.shares[r].digest.of))
  {
  }

  lemma LinkForRow(s: Sys, cfg: Config, r: string, now: int)
    requires Inv(s) && r in s.db.results
    ensures r in s.db.shares && RowInv(s, r)
    ensures LinkFor(s.db, cfg, s.db.results[r].device, s.db.results[r].resultId, now) == LinkOf(s.db, cfg, r, now)
  {
    LinkIsUnique(s, r);
  }

  /** The owner's link: refused with the reason, or the page's own address. */
  lemma LinkIsExact(s: Sys, cfg: Config, device: Uuid, resultId: string, now: int)
    requires Inv(s)
    ensures LinkFor(s.db, cfg, device, resultId, now) == Err(NotFound) <==> RowsNamed(s.db, device, resultId) == {}
    ensures forall r | r in RowsNamed(s.db, device, resultId) ::
              && r in s.db.shares
              && LinkFor(s.db, cfg, device, resultId, now)
                   == if !PageIsOpen(s.db.results[r], now) then Err(Inaccessible)
                      else if !cfg.hasCipher then Err(Unavailable)
                      else Ok(s.db.shares[r].publicOrigin + "/r/" + Encode(s.db.shares[r].digest.of))
  {
    if r :| r in RowsNamed(s.db, device, resultId) {
      LinkForRow(s, cfg, r, now);
      LinkOfMeans(s, cfg, r, now);
      NamedRow(s, r);
    }
  }

  /** The worker sends a link's text if and only if its page is open, and then the text of its page. */
  lemma SentIffOpen(s: Sys, k: NoticeKey, now: int)
    requires Inv(s) && k in s.db.outbox
    ensures s.db.outbox[k].payload.Plain? ==> SendableText(s.db, k, now) == None
    ensures s.db.outbox[k].payload.Link? ==>
              var r := s.db.outbox[k].payload.resultRow;
              && r in s.db.results && r in s.db.shares
              && SendableText(s.db, k, now)
                   == if PageIsOpen(s.db.results[r], now) then Some(TextOf(s.db, r)) else None
  {
    assert NoticeInv(s, k);
  }

  predicate EndsWith(s: string, end: string) {
    |end| <= |s| && s[|s| - |end|..] == end
  }

  lemma JoinEnds(a: string, b: string, c: string, d: string)
    ensures EndsWith(a + b + c + d, b + c + d)
  {
    assert a + b + c + d == a + (b + c + d);
  }

  lemma LinkTextEnds(title: string, origin: string, token: Secret)
    ensures EndsWith(LinkText(title, origin, token), origin + "/r/" + Encode(token))
    ensures "📄 " + title <= LinkText(title, origin, token)
  {
    JoinEnds("📄 " + title + "\n\n完整结果已保存，可点击下方链接查看。\n\n查看完整结果：\n", origin, "/r/", Encode(token));
  }

  /** The text that is sent begins with the title and ends in the very address the owner is given. */
  lemma SentTextCarriesLink(s: Sys, cfg: Config, r: string, now: int)
    requires Inv(s) && cfg.hasCipher && r in s.db.results && PageIsOpen(s.db.results[r], now)
    ensures r in s.db.shares
    ensures var row := s.db.results[r];
            var link := LinkFor(s.db, cfg, row.device, row.resultId, now);
            link.Ok? && EndsWith(TextOf(s.db, r), link.value) && "📄 " + row.title <= TextOf(s.db, r)
  {
    LinkForRow(s, cfg, r, now);
    LinkOfMeans(s, cfg, r, now);
    LinkTextEnds(s.db.results[r].title, s.db.shares[r].publicOrigin, s.db.shares[r].digest.of);
  }

  // ---------------------------------------------------------------------
  // Publishing
  // ---------------------------------------------------------------------

  /** What is asked of the configuration, the request and the clock. */
  predicate Admissible(cfg: Config, p: Publication, target: Option<string>, now: int) {
    && cfg.enabled && cfg.hasCipher && cfg.publicOrigin.Some? && ValidPublication(p, cfg.maxBodyBytes) && target.Some?
    && now + cfg.shareTtlDays * 86_400_000 <= I64_MAX
    && now < p.notificationExpiresAt <= now + cfg.shareTtlDays * 86_400_000
  }

  ghost predicate WithinBudget(cfg: Config, db: Db, p: Publication) {
    Retained(db.results) + Utf8Len(p.body) <= cfg.maxRetainedBodyBytes
  }

  /** What is asked of the tables beside free names and room: an owner, and a notice that can be queued. */
  predicate CanBeNotified(db: Db, device: Uuid, p: Publication, target: string) {
    device in db.devices && ValidTarget(target) && !DedupeTaken(db, DeviceOrigin(device), "result:" + p.resultId)
  }

  lemma FreshNoticeQueues(cfg: Config, s: Sys, device: Uuid, p: Publication, target: string, now: int, ids: Ids)
    requires FreshIds(s, device, ids) && Admissible(cfg, p, Some(target), now)
    ensures var notice := NewNotice(cfg, device, p, target, now, ids);
            CanQueue(s.db, NoticeKey(DeviceOrigin(device), ids.notice), notice) <==>
              ValidTarget(target) && !DedupeTaken(s.db, DeviceOrigin(device), "result:" + p.resultId)
  {
  }

  /** What the write transaction decides. */
  lemma InsertDecides(cfg: Config, s: Sys, device: Uuid, p: Publication, target: string, now: nat, ids: Ids)
    requires FreshIds(s, device, ids) && Admissible(cfg, p, Some(target), now)
    ensures var expires := now + cfg.shareTtlDays * 86_400_000;
            PublishTx(s.db, cfg, device, p, target, now, expires, ids).1
              == if !WithinBudget(cfg, s.db, p) then Rejected(Capacity)
                 else if !NamesFree(s.db, device, p) then Duplicate
                 else if !CanBeNotified(s.db, device, p, target) then Rejected(Database)
                 else Published
  {
    FreshNoticeQueues(cfg, s, device, p, target, now, ids);
    NoMatchMeansFree(s.db, device, p);
  }

  lemma PrepareMeans(cfg: Config, p: Publication, target: Option<string>, now: nat)
    requires ValidConfig(cfg)
    ensures Prepare(cfg, p, target, now)
              == if !(cfg.enabled && cfg.hasCipher && cfg.publicOrigin.Some?) then Err(Unavailable)
                 else if !ValidPublication(p, cfg.maxBodyBytes) then Err(Validation)
                 else if target.None? then Err(TargetUnavailable)
                 else if now + cfg.shareTtlDays * 86_400_000 > I64_MAX then Err(Clock)
                 else if !(now < p.notificationExpiresAt <= now + cfg.shareTtlDays * 86_400_000) then Err(Validation)
                 else Ok(now + cfg.shareTtlDays * 86_400_000)
    ensures Prepare(cfg, p, target, now).Ok? <==> Admissible(cfg, p, target, now)
    ensures Admissible(cfg, p, target, now) ==> ValidPublication(p, MAX_RESULT_BODY_BYTES)
  {
  }

  /** A publication commits if and only if all of this holds. */
  lemma PublishCommitsIff(cfg: Config, s: Sys, device: Uuid, p: Publication, target: Option<string>, now: nat, ids: Ids)
    requires ValidConfig(cfg) && FreshIds(s, device, ids)
    ensures PublishStep(cfg, s, device, p, target, now, ids) != s <==>
              && Admissible(cfg, p, target, now) && WithinBudget(cfg, s.db, p) && NamesFree(s.db, device, p)
              && CanBeNotified(s.db, device, p, target.value)
  {
    PrepareMeans(cfg, p, target, now);
    if Admissible(cfg, p, target, now) {
      InsertDecides(cfg, s, device, p, target.value, now, ids);
      assert ids.notice !in s.minted;
    }
  }

  /** What a publication inserts: these three rows and nothing else, column by column. */
  lemma PublishedRows(cfg: Config, s: Sys, s': Sys, e: Publishing)
    requires Publishes(cfg, s, s', e)
    ensures var p, n := e.p, e.ids.notice;
            && s'.db.results == s.db.results[e.ids.row :=
                 ResultRow(e.device, p.resultId, p.dedupeKey, RequestDigest(p), p.title,
                           Some(Sealed(p.body, BodyAad(e.device, p.resultId, p.sourceHash))), Utf8Len(p.body),
                           p.sourceHash, e.now, e.expires, e.expires, None, None, n, n, PendingChannel, e.now)]
            && s'.db.shares == s.db.shares[e.ids.row :=
                 Share(TokenDigest(e.ids.token),
                       Sealed(Encode(e.ids.token), TokenAad(e.device, p.resultId, p.sourceHash)),
                       cfg.publicOrigin.value, e.now)]
    ensures var p, n := e.p, e.ids.notice;
            && s'.db.outbox == s.db.outbox[NoticeKey(DeviceOrigin(e.device), n) :=
                 Notice(e.ids.outbox, "result:" + p.resultId, Some(e.target), p.title,
                        Link(e.ids.row, Sealed(LinkText(p.title, cfg.publicOrigin.value, e.ids.token),
                                               NoticeAad(e.device, p.resultId, p.sourceHash, n))),
                        PendingChannel, e.now, p.notificationExpiresAt, 0, None, None, e.now, e.now)]
            && s'.db.actions == s.db.actions && s'.db.devices == s.db.devices
  {
  }

  /** What a row counts against the budget is the length of the body it still stores. */
  lemma RetainedIsStored(s: Sys, r: string)
    requires Inv(s) && r in s.db.results
    ensures RetainedBy(s.db.results[r])
              == if s.db.results[r].body.Some? then Utf8Len(s.db.results[r].body.value.plain) else 0
  {
    assert RowInv(s, r);
  }

  // ---------------------------------------------------------------------
  // Resending
  // ---------------------------------------------------------------------

  lemma ResendRowMeans(s: Sys, cfg: Config, r: string, requestId: string, now: int, notice: string, outbox: string)
    requires r in s.db.results && RowInv(s, r) && s.swept <= now
    requires var k := NoticeKey(DeviceOrigin(s.db.results[r].device), s.db.results[r].initialNotice);
             k in s.db.outbox ==> NoticeInv(s, k)
    ensures ResendRow(s.db, cfg, r, requestId, now, notice, outbox).1
              == if ActionKey(r, ResendAction, requestId) in s.db.actions then Replayed
                 else if !PageIsOpen(s.db.results[r], now) then Refused(Inaccessible)
                 else if !cfg.hasCipher then Refused(Unavailable)
                 else Resent
  {
  }

  /** A resend's answer, in every case, at a time no earlier than the last sweep. */
  lemma ResendIsExact(s: Sys, cfg: Config, device: Uuid, resultId: string, requestId: string, now: int, notice: string,
                      outbox: string)
    requires Inv(s) && s.swept <= now
    ensures var outcome := ResendTx(s.db, cfg, device, resultId, requestId, now, notice, outbox).1;
            && (!ValidRequestId(requestId) ==> outcome == Refused(Validation))
            && (ValidRequestId(requestId) && RowsNamed(s.db, device, resultId) == {} ==> outcome == Refused(NotFound))
            && forall r | r in RowsNamed(s.db, device, resultId) && ValidRequestId(requestId) ::
                 outcome == if ActionKey(r, ResendAction, requestId) in s.db.actions then Replayed
                            else if !PageIsOpen(s.db.results[r], now) then Refused(Inaccessible)
                            else if !cfg.hasCipher then Refused(Unavailable)
                            else Resent
  {
    if r :| r in RowsNamed(s.db, device, resultId) {
      NamedRow(s, r);
      assert RowInv(s, r);
      var k := NoticeKey(DeviceOrigin(s.db.results[r].device), s.db.results[r].initialNotice);
      assert k in s.db.outbox ==> NoticeInv(s, k);
      ResendRowMeans(s, cfg, r, requestId, now, notice, outbox);
    }
  }

  /** What a committed resend leaves behind, column by column. */
  lemma ResentRows(s: Sys, s': Sys, e: Resending)
    requires Resends(s, s', e)
    ensures var row := s.db.results[e.row];
            && s'.db.results == s.db.results[e.row :=
                 row.(currentNotice := e.notice, noticeStatus := PendingChannel,
                      updatedAt := Max(row.updatedAt + 1, e.now))]
            && s'.db.actions
               == s.db.actions[ActionKey(e.row, ResendAction, e.requestId) := Action(Some(e.notice), e.now)]
            && s'.db.shares == s.db.shares && s'.db.devices == s.db.devices
    ensures var row := s.db.results[e.row];
            var k, first := NoticeKey(DeviceOrigin(row.device), e.notice), LiveNotice(s.db, e.row, row.initialNotice);
            s'.db.outbox == if !e.queued then s.db.outbox else s.db.outbox[k :=
              Notice(e.outbox, "result-resend:" + e.row + ":" + e.requestId, first.target, first.title,
                     Link(e.row, Sealed(e.text, NoticeAad(row.device, row.resultId, row.sourceHash, e.notice))),
                     PendingChannel, e.now, row.pageExpiresAt, 0, None, None, e.now, e.now)]
  {
  }

  /** So a resent notice may be delivered for as long as its page is open. */
  lemma ResentNoticeLastsAsThePage(s: Sys, s': Sys, e: Resending)
    requires Inv(s) && Resends(s, s', e) && e.queued
    ensures var row := s.db.results[e.row];
            && IsLive(s'.db, e.row, e.notice)
            && LiveNotice(s'.db, e.row, e.notice).expiresAt == row.pageExpiresAt
            && LiveNotice(s'.db, e.row, e.notice).target == LiveNotice(s.db, e.row, row.initialNotice).target
  {
    ResentRows(s, s', e);
  }

  // ---------------------------------------------------------------------
  // Revoking
  // ---------------------------------------------------------------------

  /** A revocation's answer, and its own row. */
  lemma RevokeIsExact(s: Sys, r: string, requestId: string, now: int)
    ensures RevokeTx(s.db, r, requestId, now).1
              == if !ValidRequestId(requestId) then Err(Validation)
                 else if r !in s.db.results then Err(NotFound) else Ok(())
    ensures var db := RevokeTx(s.db, r, requestId, now).0;
            && db.shares == s.db.shares && db.devices == s.db.devices && db.outbox.Keys == s.db.outbox.Keys
            && (RevokeTx(s.db, r, requestId, now).1.Ok? ==>
                  var a := ActionKey(r, RevokeAction, requestId);
                  db.actions == if a in s.db.actions then s.db.actions else s.db.actions[a := Action(None, now)])
  {
  }

  /** Of the results a revocation moves its own only. */
  lemma RevokeKeepsOthers(s: Sys, r: string, requestId: string, now: int, q: string)
    requires r in s.db.results && ValidRequestId(requestId) && q in s.db.results
    ensures var row, after := s.db.results[q], RevokeTx(s.db, r, requestId, now).0.results;
            && after.Keys == s.db.results.Keys
            && (q != r ==> after[q] == row)
  {
  }

  /** And of that one the stamp, and the status of a current notice it cancels. */
  lemma RevokeMovesItsRow(s: Sys, r: string, requestId: string, now: int)
    requires r in s.db.results && ValidRequestId(requestId)
    ensures var row, after := s.db.results[r], RevokeTx(s.db, r, requestId, now).0.results[r];
            && after.(revokedAt := row.revokedAt, noticeStatus := row.noticeStatus, updatedAt := row.updatedAt) == row
            && after.revokedAt == (if row.revokedAt.Some? then row.revokedAt else Some(now))
            && after.noticeStatus == (if CurrentIsCancelled(s, r) then Cancelled else row.noticeStatus)
  {
  }

  /** The current notice of the row waits, unclaimed. */
  predicate CurrentIsCancelled(s: Sys, r: string)
    requires r in s.db.results
  {
    var current := s.db.results[r].currentNotice;
    && IsLive(s.db, r, current) && LiveNotice(s.db, r, current).claim.None?
    && LiveNotice(s.db, r, current).status in {PendingChannel, RetryWait, BlockedActivation, BlockedReconnect}
  }

  // ---------------------------------------------------------------------
  // Receipts
  // ---------------------------------------------------------------------

  /** A receipt's columns: those of the row, the page's state at the time asked, and how its current notice stands. */
  lemma ReceiptIsExact(s: Sys, device: Uuid, resultId: string, now: int)
    requires Inv(s)
    ensures var answer := ReceiptFor(s.db, device, resultId, now);
            (forall r | r in s.db.results :: s.db.results[r].device != device || s.db.results[r].resultId != resultId)
            ==> answer == Err(NotFound)
    ensures var answer := ReceiptFor(s.db, device, resultId, now);
            forall r | r in s.db.results && s.db.results[r].device == device && s.db.results[r].resultId == resultId ::
              answer.Ok? && ReceiptTells(s, r, answer.value, now)
  {
    forall r | r in s.db.results && s.db.results[r].device == device && s.db.results[r].resultId == resultId
      ensures ReceiptFor(s.db, device, resultId, now) == Ok(ReceiptOf(s.db, r, now))
              && ReceiptTells(s, r, ReceiptOf(s.db, r, now), now)
    {
      ReceiptOfNamed(s, r, now);
      ReceiptOfTells(s, r, now);
    }
  }

  lemma ReceiptOfNamed(s: Sys, r: string, now: int)
    requires Inv(s) && r in s.db.results
    ensures ReceiptFor(s.db, s.db.results[r].device, s.db.results[r].resultId, now) == Ok(ReceiptOf(s.db, r, now))
  {
    NamedRow(s, r);
  }

  lemma ReceiptOfTells(s: Sys, r: string, now: int)
    requires r in s.db.results
    ensures ReceiptTells(s, r, ReceiptOf(s.db, r, now), now)
  {
  }

  predicate ReceiptTells(s: Sys, r: string, c: Receipt, now: int)
    requires r in s.db.results
  {
    var row := s.db.results[r];
    && c.resultId == row.resultId && c.sourceHash == row.sourceHash && c.acceptedAt == row.acceptedAt
    && c.pageExpiresAt == row.pageExpiresAt && c.noticeId == row.currentNotice
    && (c.pageState == PageRevoked <==> row.revokedAt.Some?)
    && (c.pageState == PageExpired <==> row.revokedAt.None? && row.pageExpiresAt <= now)
    && (c.pageState == PageAvailable <==> row.revokedAt.None? && now < row.pageExpiresAt && row.bodyPurgedAt.None?)
    && c.updatedAt == Max(row.updatedAt, if row.pageExpiresAt <= now then row.pageExpiresAt else 0)
    && c.noticeStatus
       == if IsLive(s.db, r, row.currentNotice) then LiveNotice(s.db, r, row.currentNotice).status else row.noticeStatus
  }

  /** Every statement on notices carries the status of a row's own current notice to it, with a later version. */
  lemma TriggerIsExact(db: Db, changes: map<NoticeKey, Notice>, r: string)
    requires r in db.results
    ensures var row, after := db.results[r], UpdateNotices(db, changes).results;
            var k := NoticeKey(DeviceOrigin(row.device), row.currentNotice);
            && after.Keys == db.results.Keys
            && after[r] == if k in changes && changes[k].payload.Link? && changes[k].payload.resultRow == r
                           then row.(noticeStatus := changes[k].status,
                                     updatedAt := Max(row.updatedAt + 1, changes[k].updatedAt))
                           else row
  {
  }
}
