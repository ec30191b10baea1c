/**
 What retention may and may not take from the result pages: the status a receipt reports
 survives the deletion of its notice, and the stored bodies never exceed their budget.
 */
module ResultRetention {
  import opened Basics
  import opened Delivery
  import opened ResultPages
  import opened ResultRuns

  // ---------------------------------------------------------------------
  // The outbox transaction, on any tables
  // ---------------------------------------------------------------------

  /** Outbox ids are unique, and a notification id that is current anywhere is its own result's. */
  predicate TiedNotices(db: Db) {
    && UniqueOutboxIds(db.outbox)
    && forall k | k in db.outbox && db.outbox[k].payload.Link? && db.outbox[k].payload.resultRow in db.results ::
         var r := db.outbox[k].payload.resultRow;
         && k.origin == DeviceOrigin(db.results[r].device)
         && forall x | x in db.results && db.results[x].currentNotice == k.noticeId :: x == r
  }

  lemma TiedCopyIsLive(db: Db, cfg: Config, now: int, r: string)
    requires TiedNotices(db) && r in db.results && r in CopiedRows(db, cfg, now)
    ensures IsLive(db, r, db.results[r].currentNotice)
  {
    var batch := FirstN(DueCurrent(db, cfg, now), RETENTION_BATCH);
    var k :| k in db.outbox && NoticeSort(db.outbox[k]) in batch && db.outbox[k].payload.Link?
             && db.outbox[k].payload.resultRow == r;
    var j :| j in db.outbox && j.noticeId in CurrentNotices(db) && NoticeSort(db.outbox[j]) == NoticeSort(db.outbox[k]);
    SortKeyNamesNotice(db, j, k);
    var x :| x in db.results && db.results[x].currentNotice == k.noticeId;
  }

  /** A current notice in the deleted batch is also in the copied batch: filtering first only moves it up. */
  lemma DeletedIsCopied(db: Db, cfg: Config, now: int, r: string)
    requires TiedNotices(db) && r in db.results && IsLive(db, r, db.results[r].currentNotice)
    requires NoticeSort(LiveNotice(db, r, db.results[r].currentNotice))
               in FirstN(DueNotices(db, cfg, now), RETENTION_BATCH)
    ensures r in CopiedRows(db, cfg, now)
  {
    var k := NoticeKey(DeviceOrigin(db.results[r].device), db.results[r].currentNotice);
    DeletedWasDue(db, cfg, now, k);
    assert k.noticeId in CurrentNotices(db);
    FilteredBatch(DueNotices(db, cfg, now), DueCurrent(db, cfg, now), RETENTION_BATCH, NoticeSort(db.outbox[k]));
  }

  /**
   One outbox transaction commits and leaves every reported status as it was. This needs
   neither the trigger nor the history of the tables, only that notification ids are tied
   to their own result.
   */
  lemma RetentionKeepsReceipts(db: Db, cfg: Config, now: int, r: string)
    requires TiedNotices(db) && r in db.results
    ensures var db' := RetainOutbox(db, cfg, now);
            db'.Some? && r in db'.value.results && ReportedStatus(db'.value, r) == ReportedStatus(db, r)
            && db'.value.results[r].currentNotice == db.results[r].currentNotice
  {
    forall x | x in CopiedRows(db, cfg, now) && x in db.results ensures IsLive(db, x, db.results[x].currentNotice) {
      TiedCopyIsLive(db, cfg, now, x);
    }
    KeepsReceipt(db, cfg, now, r);
  }

  lemma KeepsReceipt(db: Db, cfg: Config, now: int, r: string)
    requires TiedNotices(db) && r in db.results && CopySucceeds(db, cfg, now)
    ensures ReportedStatus(RetainOutbox(db, cfg, now).value, r) == ReportedStatus(db, r)
  {
    var row := db.results[r];
    var k := NoticeKey(DeviceOrigin(row.device), row.currentNotice);
    if IsLive(db, r, row.currentNotice)
       && NoticeSort(db.outbox[k]) in FirstN(DueNotices(db, cfg, now), RETENTION_BATCH) {
      DeletedIsCopied(db, cfg, now, r);
    }
  }

  /** Only finished notices older than the age for their status are deleted, and none of a page still open. */
  lemma OnlyOldFinishedNoticesGo(db: Db, cfg: Config, now: int, k: NoticeKey)
    requires UniqueOutboxIds(db.outbox) && CopySucceeds(db, cfg, now) && k in db.outbox
    requires k !in RetainOutbox(db, cfg, now).value.outbox
    ensures var n := db.outbox[k];
            && IsTerminal(n.status) && !PageOpen(db, n, now)
            && n.updatedAt + DaysToMs(if n.status.DeadLetter? then cfg.deadLetterDays else cfg.acceptedDays) < now
  {
    DeletedWasDue(db, cfg, now, k);
  }

  /** Reachable tables are tied. */
  lemma RunsAreTied(s: Sys)
    requires Inv(s)
    ensures TiedNotices(s.db)
  {
    forall k | k in s.db.outbox && s.db.outbox[k].payload.Link?
      ensures k.origin == DeviceOrigin(s.db.results[s.db.outbox[k].payload.resultRow].device)
      ensures forall x | x in s.db.results && s.db.results[x].currentNotice == k.noticeId ::
                x == s.db.outbox[k].payload.resultRow
    {
      assert NoticeInv(s, k);
      forall x | x in s.db.results && s.db.results[x].currentNotice == k.noticeId
        ensures x == s.db.outbox[k].payload.resultRow
      {
        assert RowInv(s, x);
      }
    }
  }

  // ---------------------------------------------------------------------
  // The body budget
  // ---------------------------------------------------------------------

  /** A sum over a table does not depend on the order rows are taken in. */
  lemma {:induction false} RetainedWithout(rows: map<string, ResultRow>, r: string)
    requires r in rows
    ensures Retained(rows) == RetainedBy(rows[r]) + Retained(rows - {r})
    decreases rows.Keys
  {
    var x :| x in rows && Retained(rows) == RetainedBy(rows[x]) + Retained(rows - {x});
    if x != r {
      RetainedWithout(rows - {x}, r);
      RetainedWithout(rows - {r}, x);
      assert rows - {x} - {r} == rows - {r} - {x};
    }
  }

  lemma RetainedInsert(rows: map<string, ResultRow>, r: string, row: ResultRow)
    requires r !in rows
    ensures Retained(rows[r := row]) == Retained(rows) + RetainedBy(row)
  {
    RetainedWithout(rows[r := row], r);
    assert rows[r := row] - {r} == rows;
  }

  /** Rows that keep their size and their purge retain no more than before. */
  lemma {:induction false} RetainedShrinks(a: map<string, ResultRow>, b: map<string, ResultRow>)
    requires a.Keys == b.Keys && forall r | r in a :: RetainedBy(b[r]) <= RetainedBy(a[r])
    ensures Retained(b) <= Retained(a)
    decreases a.Keys
  {
    if a != map[] {
      var r :| r in a;
      RetainedWithout(a, r);
      RetainedWithout(b, r);
      RetainedShrinks(a - {r}, b - {r});
    } else {
      assert b == map[];
    }
  }

  lemma RowMovesRetain(s: Sys, s': Sys)
    requires Grows(s, s') && s'.db.results.Keys == s.db.results.Keys
    ensures Retained(s'.db.results) <= Retained(s.db.results)
  {
    forall r | r in s.db.results ensures RetainedBy(s'.db.results[r]) <= RetainedBy(s.db.results[r]) {
      assert RowGrows(s, s', r);
    }
    RetainedShrinks(s.db.results, s'.db.results);
  }

  lemma PublishWithinBudget(cfg: Config, s: Sys, device: Uuid, p: Publication, target: Option<string>, now: nat,
                            ids: Ids)
    requires ValidConfig(cfg) && Retained(s.db.results) <= cfg.maxRetainedBodyBytes
    ensures Retained(PublishStep(cfg, s, device, p, target, now, ids).db.results) <= cfg.maxRetainedBodyBytes
  {
    PublishEffect(cfg, s, device, p, target, now, ids);
    var s' := PublishStep(cfg, s, device, p, target, now, ids);
    if s' != s {
      PublishedWithinBudget(cfg, s, s', Attempt(cfg, device, p, target.value, now, ids));
    }
  }

  lemma PublishedWithinBudget(cfg: Config, s: Sys, s': Sys, e: Publishing)
    requires Publishes(cfg, s, s', e)
    ensures Retained(s'.db.results) <= cfg.maxRetainedBodyBytes
  {
    RetainedInsert(s.db.results, e.ids.row, NewRow(e.device, e.p, e.now, e.expires, e.ids));
  }

  /** A body that is stored was within the size limit in force when it was published. */
  lemma PublishedBodyFits(cfg: Config, s: Sys, device: Uuid, p: Publication, target: Option<string>, now: nat, ids: Ids,
                          r: string)
    requires r !in s.db.results && r in PublishStep(cfg, s, device, p, target, now, ids).db.results
    ensures var row := PublishStep(cfg, s, device, p, target, now, ids).db.results[r];
            && row.bodyBytes <= cfg.maxBodyBytes && row.acceptedAt == now
            && now < p.notificationExpiresAt <= row.pageExpiresAt == now + cfg.shareTtlDays * DAY_MS <= I64_MAX
  {
  }

  lemma OtherStepsKeepRows(cfg: Config, s: Sys, op: Op)
    requires !op.DoPublish?
    ensures Apply(cfg, s, op).db.results.Keys == s.db.results.Keys
  {
    if op.DoResend? {
      ResendEffect(cfg, s, op.device, op.resultId, op.requestId, op.now, op.notice, op.outbox);
    }
  }

  /** In every reachable state the stored bodies fit the configured budget. */
  lemma {:induction false} BudgetHolds(cfg: Config, s: Sys, ops: seq<Op>)
    requires Inv(s) && ValidConfig(cfg) && Retained(s.db.results) <= cfg.maxRetainedBodyBytes
    ensures Retained(Run(cfg, s, ops).db.results) <= cfg.maxRetainedBodyBytes
    decreases |ops|
  {
    if ops != [] {
      var s', op := Apply(cfg, s, ops[0]), ops[0];
      ApplyInv(cfg, s, op);
      if op.DoPublish? {
        PublishWithinBudget(cfg, s, op.device, op.p, op.target, op.at, op.ids);
      } else {
        OtherStepsKeepRows(cfg, s, op);
        RowMovesRetain(s, s');
      }
      BudgetHolds(cfg, s', ops[1..]);
    }
  }

  lemma RunFromEmptyIsWithinBudget(cfg: Config, ops: seq<Op>)
    requires ValidConfig(cfg)
    ensures Retained(Run(cfg, EMPTY, ops).db.results) <= cfg.maxRetainedBodyBytes
  {
    EmptyInv();
    BudgetHolds(cfg, EMPTY, ops);
  }
}
