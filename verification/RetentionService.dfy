/**
 The retention worker: one round takes a batch from every table, and a run repeats rounds
 until no batch was full. Clock readings and cancellation polls are arguments.
 */
module RetentionService {
  import opened Basics
  import opened Delivery
  import opened ResultPages
  import opened ResultRuns
  import opened ResultRetention
  import opened RetentionTables

  // ---------------------------------------------------------------------
  // The result tables
  // ---------------------------------------------------------------------

  function DeletedNotices(db: Db, cfg: Config, now: int): set<NoticeKey> {
    var batch := FirstN(DueNotices(db, cfg, now), RETENTION_BATCH);
    set k | k in db.outbox && NoticeSort(db.outbox[k]) in batch
  }

  /** The purge of bodies and the outbox transaction of one round. */
  function ResultsStep(s: Sys, cfg: Config, now: int): Sys {
    RetainStep(Purged(s, now), cfg, now)
  }

  lemma PurgeKeepsDue(db: Db, cfg: Config, now: int)
    ensures DueNotices(PurgeBodies(db, now), cfg, now) == DueNotices(db, cfg, now)
  {
    var db' := PurgeBodies(db, now);
    forall n: Notice ensures NoticeDue(db', cfg, n, now) <==> NoticeDue(db, cfg, n, now) {}
  }

  lemma DeletedSize(db: Db, cfg: Config, now: int)
    requires UniqueOutboxIds(db.outbox)
    ensures |DeletedNotices(db, cfg, now)| == Min(|DueNotices(db, cfg, now)|, RETENTION_BATCH)
  {
    var due, ks := DueNotices(db, cfg, now), DeletedNotices(db, cfg, now);
    var batch := FirstN(due, RETENTION_BATCH);
    FirstNSize(due, RETENTION_BATCH);
    assert batch == set k | k in ks :: NoticeSort(db.outbox[k]) by {
      forall x | x in batch ensures exists k :: k in ks && NoticeSort(db.outbox[k]) == x {
        assert x in due;
      }
    }
    ImageSize(db.outbox, ks, batch, (k, n) => NoticeSort(n));
  }

  lemma CopyKeepsDue(db: Db, cfg: Config, now: int, n: Notice)
    requires CopySucceeds(db, cfg, now)
    ensures NoticeDue(RetainOutbox(db, cfg, now).value, cfg, n, now) <==> NoticeDue(db, cfg, n, now)
  {
  }

  lemma NoticesAfter(db: Db, cfg: Config, now: int)
    requires UniqueOutboxIds(db.outbox) && CopySucceeds(db, cfg, now)
    ensures DueNotices(RetainOutbox(db, cfg, now).value, cfg, now)
              == DueNotices(db, cfg, now) - FirstN(DueNotices(db, cfg, now), RETENTION_BATCH)
  {
    var db', due := RetainOutbox(db, cfg, now).value, DueNotices(db, cfg, now);
    var batch := FirstN(due, RETENTION_BATCH);
    forall n: Notice ensures NoticeDue(db', cfg, n, now) <==> NoticeDue(db, cfg, n, now) {
      CopyKeepsDue(db, cfg, now, n);
    }
    forall x | x in due && x !in batch ensures x in DueNotices(db', cfg, now) {
      var k :| k in db.outbox && NoticeDue(db, cfg, db.outbox[k], now) && NoticeSort(db.outbox[k]) == x;
      assert k in db'.outbox && db'.outbox[k] == db.outbox[k];
    }
    forall x | x in DueNotices(db', cfg, now) ensures x in due && x !in batch {
      var k :| k in db'.outbox && NoticeDue(db', cfg, db'.outbox[k], now) && NoticeSort(db'.outbox[k]) == x;
      assert k in db.outbox && db'.outbox[k] == db.outbox[k];
    }
  }

  lemma OutboxWithout(db: Db, cfg: Config, now: int)
    requires CopySucceeds(db, cfg, now)
    ensures |RetainOutbox(db, cfg, now).value.outbox| == |db.outbox| - |DeletedNotices(db, cfg, now)|
  {
    var db' := RetainOutbox(db, cfg, now).value;
    assert db'.outbox.Keys == db.outbox.Keys - DeletedNotices(db, cfg, now);
    MapWithout(db.outbox, db'.outbox, DeletedNotices(db, cfg, now));
  }

  lemma NoticesLeft(db: Db, cfg: Config, now: int)
    requires UniqueOutboxIds(db.outbox) && CopySucceeds(db, cfg, now)
    ensures var db' := RetainOutbox(db, cfg, now).value;
            Sweeps(|DueNotices(db, cfg, now)|, |db.outbox|, |DueNotices(db', cfg, now)|, |db'.outbox|,
                   |DeletedNotices(db, cfg, now)|)
  {
    var due := DueNotices(db, cfg, now);
    NoticesAfter(db, cfg, now);
    FirstNSize(due, RETENTION_BATCH);
    RemovedSize(due, FirstN(due, RETENTION_BATCH));
    DeletedSize(db, cfg, now);
    OutboxWithout(db, cfg, now);
  }

  /** Finished notices past the age for their status, unless the page they link to is open. */
  predicate NoticeIsOld(db: Db, cfg: Config, n: Notice, now: int) {
    && !(n.payload.Link? && n.payload.resultRow in db.results && db.results[n.payload.resultRow].pageExpiresAt > now)
    && (|| (n.status in {ProviderAccepted, Cancelled, Expired} && n.updatedAt + cfg.acceptedDays * 86_400_000 < now)
        || (n.status == DeadLetter && n.updatedAt + cfg.deadLetterDays * 86_400_000 < now))
  }

  lemma OldIsDue(db: Db, cfg: Config, n: Notice, now: int)
    ensures NoticeIsOld(db, cfg, n, now) <==> NoticeDue(db, cfg, n, now)
  {
  }

  lemma OldKeys(db: Db, cfg: Config, now: int)
    ensures DueNotices(db, cfg, now)
              == set k | k in DueRows(db.outbox, (k, n) => NoticeIsOld(db, cfg, n, now))
                   :: SortKey(db.outbox[k].updatedAt, db.outbox[k].id)
  {
    forall k | k in db.outbox
      ensures NoticeIsOld(db, cfg, db.outbox[k], now) <==> NoticeDue(db, cfg, db.outbox[k], now)
    {
      OldIsDue(db, cfg, db.outbox[k], now);
    }
  }

  lemma DeletedAreFirst(db: Db, cfg: Config, now: int)
    requires UniqueOutboxIds(db.outbox)
    ensures TakesFirst(db.outbox, DeletedNotices(db, cfg, now), (k, n: Notice) => SortKey(n.updatedAt, n.id),
                       (k, n) => NoticeIsOld(db, cfg, n, now))
  {
    OldKeys(db, cfg, now);
    BatchTakesFirst(db.outbox, DeletedNotices(db, cfg, now), DueNotices(db, cfg, now),
                    (k, n: Notice) => SortKey(n.updatedAt, n.id), (k, n) => NoticeIsOld(db, cfg, n, now));
  }

  lemma RetainDeletes(db: Db, cfg: Config, now: int)
    requires CopySucceeds(db, cfg, now)
    ensures RetainOutbox(db, cfg, now).value.outbox == db.outbox - DeletedNotices(db, cfg, now)
  {
  }

  /** What a statement has deleted: the first batch of the rows it may delete. */
  ghost predicate DeletesFirst<K, V>(t: map<K, V>, t': map<K, V>, sort: (K, V) -> SortKey, due: (K, V) -> bool) {
    t' == t - (t.Keys - t'.Keys) && TakesFirst(t, t.Keys - t'.Keys, sort, due)
  }

  lemma TakenIsDeleted<K, V>(t: map<K, V>, t': map<K, V>, gone: set<K>, sort: (K, V) -> SortKey, due: (K, V) -> bool)
    requires TakesFirst(t, gone, sort, due) && t' == t - gone
    ensures DeletesFirst(t, t', sort, due)
  {
    assert t.Keys - t'.Keys == gone;
  }

  /** The outbox transaction deletes the first batch of old notices, and nothing else from the outbox. */
  lemma NoticesTaken(db: Db, cfg: Config, now: int)
    requires UniqueOutboxIds(db.outbox) && CopySucceeds(db, cfg, now)
    ensures DeletesFirst(db.outbox, RetainOutbox(db, cfg, now).value.outbox,
                         (k, n: Notice) => SortKey(n.updatedAt, n.id), (k, n) => NoticeIsOld(db, cfg, n, now))
  {
    RetainDeletes(db, cfg, now);
    DeletedAreFirst(db, cfg, now);
    TakenIsDeleted(db.outbox, RetainOutbox(db, cfg, now).value.outbox, DeletedNotices(db, cfg, now),
                   (k, n: Notice) => SortKey(n.updatedAt, n.id), (k, n) => NoticeIsOld(db, cfg, n, now));
  }

  /** The rows whose body a statement has purged. */
  function NewlyPurged(rows: map<string, ResultRow>, rows': map<string, ResultRow>): set<string> {
    set r | r in rows && r in rows' && rows[r].bodyPurgedAt.None? && rows'[r].bodyPurgedAt.Some?
  }

  lemma PurgedAreBatch(db: Db, now: int)
    ensures NewlyPurged(db.results, PurgeBodies(db, now).results)
              == set r | r in db.results
                         && SortKey(db.results[r].bodyRetainUntil, r) in FirstN(DueBodies(db, now), RETENTION_BATCH)
  {
    var rows, due := db.results, DueBodies(db, now);
    forall r | r in rows && SortKey(rows[r].bodyRetainUntil, r) in FirstN(due, RETENTION_BATCH)
      ensures rows[r].bodyPurgedAt.None?
    {
      assert SortKey(rows[r].bodyRetainUntil, r) in due;
    }
  }

  lemma PurgedAreFirst(db: Db, now: int)
    ensures var batch := FirstN(DueBodies(db, now), RETENTION_BATCH);
            var gone := set r | r in db.results && SortKey(db.results[r].bodyRetainUntil, r) in batch;
            TakesFirst(db.results, gone, (r, row: ResultRow) => SortKey(row.bodyRetainUntil, r),
                       (r, row: ResultRow) => row.bodyPurgedAt.None? && row.bodyRetainUntil <= now)
  {
    var due := DueBodies(db, now);
    var gone := set r | r in db.results && SortKey(db.results[r].bodyRetainUntil, r) in FirstN(due, RETENTION_BATCH);
    BatchTakesFirst(db.results, gone, due, (r, row: ResultRow) => SortKey(row.bodyRetainUntil, r),
                    (r, row: ResultRow) => row.bodyPurgedAt.None? && row.bodyRetainUntil <= now);
  }

  /** The first batch of bodies past their time is purged, with the row's version, and no other row is touched. */
  lemma PurgeTakesBodies(db: Db, now: int)
    ensures var rows, rows' := db.results, PurgeBodies(db, now).results;
            var gone := NewlyPurged(rows, rows');
            && rows'.Keys == rows.Keys && PurgeBodies(db, now) == db.(results := rows')
            && TakesFirst(rows, gone, (r, row: ResultRow) => SortKey(row.bodyRetainUntil, r),
                          (r, row: ResultRow) => row.bodyPurgedAt.None? && row.bodyRetainUntil <= now)
            && forall r | r in rows ::
                 rows'[r] == if r in gone then
                               rows[r].(body := None, bodyPurgedAt := Some(now),
                                        updatedAt := Max(rows[r].updatedAt, now))
                             else rows[r]
  {
    PurgedAreBatch(db, now);
    PurgedAreFirst(db, now);
  }

  lemma BodiesAfterPurge(db: Db, now: int)
    ensures DueBodies(PurgeBodies(db, now), now) == DueBodies(db, now) - FirstN(DueBodies(db, now), RETENTION_BATCH)
  {
    var due, batch := DueBodies(db, now), FirstN(DueBodies(db, now), RETENTION_BATCH);
    var db' := PurgeBodies(db, now);
    forall x | x in due - batch ensures x in DueBodies(db', now) {
      assert x.id in db'.results && db'.results[x.id] == db.results[x.id];
    }
    forall x | x in DueBodies(db', now) ensures x in due - batch {
      assert x.id in db.results;
    }
  }

  /** The copy of a status moves no body. */
  lemma CopyKeepsBodies(db: Db, cfg: Config, now: int)
    requires CopySucceeds(db, cfg, now)
    ensures DueBodies(RetainOutbox(db, cfg, now).value, now) == DueBodies(db, now)
  {
    var db' := RetainOutbox(db, cfg, now).value;
    forall r | r in db.results
      ensures db'.results[r].bodyPurgedAt == db.results[r].bodyPurgedAt
      ensures db'.results[r].bodyRetainUntil == db.results[r].bodyRetainUntil
    {}
  }

  /** What the outbox transaction needs to commit and to count by id. */
  predicate Ready(db: Db, cfg: Config, now: int) {
    UniqueOutboxIds(db.outbox) && CopySucceeds(PurgeBodies(db, now), cfg, now)
  }

  lemma InvIsReady(s: Sys, cfg: Config, now: int)
    requires Inv(s)
    ensures Ready(s.db, cfg, now)
  {
    PurgeInv(s, now);
    RetentionCommits(Purged(s, now), cfg, now);
  }

  /** One statement purges one batch of bodies, and the round never looks for a second one. */
  lemma BodiesLeft(s: Sys, cfg: Config, now: int)
    requires Ready(s.db, cfg, now)
    ensures |DueBodies(ResultsStep(s, cfg, now).db, now)| == Max(0, |DueBodies(s.db, now)| - RETENTION_BATCH)
  {
    CopyKeepsBodies(PurgeBodies(s.db, now), cfg, now);
    BodiesAfterPurge(s.db, now);
    FirstNSize(DueBodies(s.db, now), RETENTION_BATCH);
    RemovedSize(DueBodies(s.db, now), FirstN(DueBodies(s.db, now), RETENTION_BATCH));
  }

  predicate StatusKept(s: Sys, s': Sys) {
    forall r | r in s.db.results :: r in s'.db.results && ReportedStatus(s'.db, r) == ReportedStatus(s.db, r)
  }

  lemma PurgeKeepsStatus(s: Sys, now: int)
    ensures StatusKept(s, Purged(s, now))
  {
  }

  lemma RetainKeepsStatus(s: Sys, cfg: Config, now: int)
    requires Inv(s)
    ensures StatusKept(s, RetainStep(s, cfg, now))
  {
    RunsAreTied(s);
    RetentionCommits(s, cfg, now);
    forall r | r in s.db.results
      ensures r in RetainStep(s, cfg, now).db.results
      ensures ReportedStatus(RetainStep(s, cfg, now).db, r) == ReportedStatus(s.db, r)
    {
      RetentionKeepsReceipts(s.db, cfg, now, r);
    }
  }

  /** The part of a round on the result tables keeps the invariant and every reported status. */
  lemma OutboxKeeps(s: Sys, cfg: Config, now: int)
    requires Inv(s)
    ensures var s' := ResultsStep(s, cfg, now); Inv(s') && Grows(s, s') && StatusKept(s, s')
  {
    var s1 := Purged(s, now);
    PurgeInv(s, now);
    PurgeGrows(s, now);
    PurgeKeepsStatus(s, now);
    RetainInv(s1, cfg, now);
    RetainGrows(s1, cfg, now);
    RetainKeepsStatus(s1, cfg, now);
    GrowsTransitive(s, s1, RetainStep(s1, cfg, now));
  }

  /** The tables of a run that has kept its promises since `s`. */
  ghost predicate Kept(s: Sys, s': Sys) {
    Inv(s') && Grows(s, s') && StatusKept(s, s')
  }

  lemma KeptAtStart(s: Sys)
    requires Inv(s)
    ensures Kept(s, s)
  {
    GrowsReflexive(s);
  }

  lemma PurgeKeeps(s: Sys, before: Sys, now: int)
    requires Kept(s, before)
    ensures Kept(s, Purged(before, now))
  {
    PurgeInv(before, now);
    PurgeGrows(before, now);
    PurgeKeepsStatus(before, now);
    GrowsTransitive(s, before, Purged(before, now));
  }

  lemma RoundKeeps(s: Sys, before: Sys, after: Sys, cfg: Config, now: int)
    requires Kept(s, before) && (after == before || after == ResultsStep(before, cfg, now))
    ensures Kept(s, after)
  {
    if after != before {
      OutboxKeeps(before, cfg, now);
      GrowsTransitive(s, before, after);
    }
  }

  /** The result tables after the rounds read at the given times. */
  function Rounds(s: Sys, cfg: Config, times: seq<int>): Sys {
    if times == [] then s else ResultsStep(Rounds(s, cfg, times[..|times| - 1]), cfg, times[|times| - 1])
  }

  lemma {:induction false} RoundsKeep(s: Sys, cfg: Config, times: seq<int>)
    requires Inv(s)
    ensures Kept(s, Rounds(s, cfg, times))
  {
    if times == [] {
      KeptAtStart(s);
    } else {
      var n := |times| - 1;
      RoundsKeep(s, cfg, times[..n]);
      RoundKeeps(s, Rounds(s, cfg, times[..n]), Rounds(s, cfg, times), cfg, times[n]);
    }
  }

  lemma BodiesAfterOneMore(s: Sys, cfg: Config, times: seq<int>, now: int)
    requires Inv(s)
    ensures |DueBodies(ResultsStep(Rounds(s, cfg, times), cfg, now).db, now)|
              == Max(0, |DueBodies(Rounds(s, cfg, times).db, now)| - RETENTION_BATCH)
  {
    RoundsKeep(s, cfg, times);
    InvIsReady(Rounds(s, cfg, times), cfg, now);
    BodiesLeft(Rounds(s, cfg, times), cfg, now);
  }

  lemma OneBatchMore(due: nat, left: nat, n: nat)
    requires left == Max(0, due - 500 * n)
    ensures Max(0, left - RETENTION_BATCH) == Max(0, due - 500 * (n + 1))
  {
  }

  /**
   Bodies are purged one batch a round, however many rounds the counts ask for: after rounds read
   at one time the bodies past their retention that are left are those beyond the batches taken.
   */
  lemma {:induction false} BodiesAfterRounds(s: Sys, cfg: Config, times: seq<int>, now: int)
    requires Inv(s) && forall i | 0 <= i < |times| :: times[i] == now
    ensures |DueBodies(Rounds(s, cfg, times).db, now)| == Max(0, |DueBodies(s.db, now)| - 500 * |times|)
  {
    if times != [] {
      var before := times[..|times| - 1];
      BodiesAfterRounds(s, cfg, before, now);
      BodiesAfterOneMore(s, cfg, before, now);
      OneBatchMore(|DueBodies(s.db, now)|, |DueBodies(Rounds(s, cfg, before).db, now)|, |before|);
    }
  }

  /** A property of the result tables that every statement of a round keeps, and under which its transaction commits. */
  ghost predicate KeptByRounds(cfg: Config, ok: Sys -> bool) {
    forall s, now | ok(s) :: Ready(s.db, cfg, now) && ok(Purged(s, now)) && ok(ResultsStep(s, cfg, now))
  }

  lemma KeptIsKeptByRounds(cfg: Config, s: Sys)
    ensures KeptByRounds(cfg, x => Kept(s, x))
  {
    forall x, now | Kept(s, x)
      ensures Ready(x.db, cfg, now) && Kept(s, Purged(x, now)) && Kept(s, ResultsStep(x, cfg, now))
    {
      InvIsReady(x, cfg, now);
      PurgeKeeps(s, x, now);
      RoundKeeps(s, x, ResultsStep(x, cfg, now), cfg, now);
    }
  }

  /** The outbox transaction deletes a full batch of notices, or all that are due. */
  lemma NoticesSwept(s: Sys, cfg: Config, now: int)
    requires Ready(s.db, cfg, now)
    ensures Sweeps(|DueNotices(s.db, cfg, now)|, |s.db.outbox|, |DueNotices(ResultsStep(s, cfg, now).db, cfg, now)|,
                   |ResultsStep(s, cfg, now).db.outbox|, |DeletedNotices(PurgeBodies(s.db, now), cfg, now)|)
  {
    PurgeKeepsDue(s.db, cfg, now);
    NoticesLeft(PurgeBodies(s.db, now), cfg, now);
  }

  // ---------------------------------------------------------------------
  // The service
  // ---------------------------------------------------------------------

  datatype Round = Round(outbox: nat, inbound: nat, selections: nat, confirmations: nat)

  predicate MayHaveMore(r: Round) {
    || r.outbox == RETENTION_BATCH || r.inbound == RETENTION_BATCH
    || r.selections == RETENTION_BATCH || r.confirmations == RETENTION_BATCH
  }

  datatype Tables = Tables(
    db: Db, bundles: map<string, Bundle>, inbound: map<string, Inbound>,
    selections: map<string, int>, confirmations: map<string, Confirmation>)

  /** The rows the worker may delete. */
  function Size(t: Tables): nat {
    |t.db.outbox| + |t.bundles| + |t.inbound| + |t.selections| + |t.confirmations|
  }

  function Deleted(r: Round): nat {
    r.outbox + r.inbound + r.selections + r.confirmations
  }

  function DueBodyCount(t: Tables, now: int): nat {
    |DueBodies(t.db, now)|
  }

  predicate OutboxDrained(cfg: Config, t: Tables, now: int) {
    DueNotices(t.db, cfg, now) == {} && DueBundles(cfg, t.bundles, now) == 0
  }

  predicate ChatDrained(cfg: Config, t: Tables, now: int) {
    && DueInbound(cfg, t.inbound, now) == 0 && DueSelections(t.selections, now) == 0
    && DueConfirmations(t.confirmations, now) == 0
  }

  /**
   The books of the outbox: the count is of notices and bundles together; every notice that
   stopped being due is a notice that went, and no bundle went that was not due.
   */
  predicate OutboxBooks(cfg: Config, t: Tables, t': Tables, now: int, deleted: nat) {
    && deleted == |t.db.outbox| - |t'.db.outbox| + |t.bundles| - |t'.bundles|
    && |t.db.outbox| - |t'.db.outbox| == |DueNotices(t.db, cfg, now)| - |DueNotices(t'.db, cfg, now)|
    && 0 <= |t.bundles| - |t'.bundles| <= DueBundles(cfg, t.bundles, now) - DueBundles(cfg, t'.bundles, now)
  }

  /** Neither table has more due than one batch takes, once the content purge is through. */
  predicate FitsBatch(cfg: Config, t: Tables, now: int) {
    |DueNotices(t.db, cfg, now)| <= RETENTION_BATCH && |DueBeyondPurge(cfg, t.bundles, now)| <= RETENTION_BATCH
  }

  /** The outbox part drains the outbox exactly when both tables fit their batch; a count below a batch says they do. */
  predicate OutboxEnds(cfg: Config, t: Tables, t': Tables, now: int, deleted: nat) {
    && (OutboxDrained(cfg, t', now) <==> FitsBatch(cfg, t, now))
    && (deleted < RETENTION_BATCH ==> FitsBatch(cfg, t, now))
  }

  /** What the outbox part of a round does to the tables, in numbers. */
  predicate OutboxPart(cfg: Config, t: Tables, t': Tables, now: int, deleted: nat) {
    && t' == t.(db := t'.db, bundles := t'.bundles)
    && OutboxBooks(cfg, t, t', now, deleted) && OutboxEnds(cfg, t, t', now, deleted)
    && DueBodyCount(t', now) == Max(0, DueBodyCount(t, now) - RETENTION_BATCH)
  }

  // ---------------------------------------------------------------------
  // The parts of a round, row by row
  // ---------------------------------------------------------------------

  /** Notices, on the pages as they were before the round. */
  ghost predicate NoticeRows(cfg: Config, t: Tables, t': Tables, now: int) {
    DeletesFirst(t.db.outbox, t'.db.outbox, (k, n: Notice) => SortKey(n.updatedAt, n.id),
                 (k, n) => NoticeIsOld(t.db, cfg, n, now))
  }

  /** Bundles: the first batch of due contents is purged, then the first batch of due bundles deleted. */
  ghost predicate BundleRows(cfg: Config, t: map<string, Bundle>, t': map<string, Bundle>, now: int) {
    var mid := PurgeBundles(t, now);
    && DeletesFirst(mid, t', (id, b: Bundle) => SortKey(b.updatedAt, id), (id, b) => BundleIsDue(cfg, b, now))
    && exists purged :: ContentsPurged(t, mid, purged, now)
  }

  /** Bodies: the first batch past their time, by row id; of the other columns only two may move. */
  ghost predicate BodyRows(rows: map<string, ResultRow>, rows': map<string, ResultRow>, now: int) {
    && rows'.Keys == rows.Keys
    && TakesFirst(rows, NewlyPurged(rows, rows'), (r, row: ResultRow) => SortKey(row.bodyRetainUntil, r),
                  (r, row: ResultRow) => row.bodyPurgedAt.None? && row.bodyRetainUntil <= now)
    && forall r | r in rows ::
         var a, b := rows[r], rows'[r];
         && (b.updatedAt == a.updatedAt || b.updatedAt == Max(a.updatedAt, now))
         && if r in NewlyPurged(rows, rows') then
              b == a.(body := None, bodyPurgedAt := Some(now), updatedAt := Max(a.updatedAt, now),
                      noticeStatus := b.noticeStatus)
            else b == a.(updatedAt := b.updatedAt, noticeStatus := b.noticeStatus)
  }

  ghost predicate OutboxRows(cfg: Config, t: Tables, t': Tables, now: int) {
    NoticeRows(cfg, t, t', now) && BundleRows(cfg, t.bundles, t'.bundles, now)
    && BodyRows(t.db.results, t'.db.results, now)
  }

  ghost predicate InboundRows(cfg: Config, t: Tables, t': Tables, now: int) {
    DeletesFirst(t.inbound, t'.inbound, (id, x: Inbound) => SortKey(x.updatedAt, id),
                 (id, x) => InboundIsDue(cfg, x, now))
  }

  ghost predicate SelectionRows(t: Tables, t': Tables, now: int) {
    DeletesFirst(t.selections, t'.selections, (id, expiresAt) => SortKey(expiresAt, id),
                 (id, expiresAt) => expiresAt <= now)
  }

  ghost predicate ConfirmationRows(t: Tables, t': Tables, now: int) {
    DeletesFirst(t.confirmations, t'.confirmations, (id, c: Confirmation) => SortKey(c.expiresAt, id),
                 (id, c: Confirmation) => c.expiresAt <= now && !c.pending)
  }

  lemma InboundDeleted(cfg: Config, t: map<string, Inbound>, now: int)
    ensures DeletesFirst(t, t - Doomed(InboundView(cfg, t), now), (id, x: Inbound) => SortKey(x.updatedAt, id),
                         (id, x) => InboundIsDue(cfg, x, now))
  {
    InboundTaken(cfg, t, now);
    TakenIsDeleted(t, t - Doomed(InboundView(cfg, t), now), Doomed(InboundView(cfg, t), now),
                   (id, x: Inbound) => SortKey(x.updatedAt, id), (id, x) => InboundIsDue(cfg, x, now));
  }

  lemma SelectionsDeleted(t: Tables, t': Tables, now: int)
    requires t'.selections == t.selections - Doomed(SelectionView(t.selections), now)
    ensures SelectionRows(t, t', now)
  {
    SelectionsTaken(t.selections, now);
    TakenIsDeleted(t.selections, t'.selections, Doomed(SelectionView(t.selections), now),
                   (id, expiresAt) => SortKey(expiresAt, id), (id, expiresAt) => expiresAt <= now);
  }

  lemma ConfirmationsDeleted(t: Tables, t': Tables, now: int)
    requires t'.confirmations == t.confirmations - Doomed(ConfirmationView(t.confirmations), now)
    ensures ConfirmationRows(t, t', now)
  {
    ConfirmationsTaken(t.confirmations, now);
    TakenIsDeleted(t.confirmations, t'.confirmations, Doomed(ConfirmationView(t.confirmations), now),
                   (id, c: Confirmation) => SortKey(c.expiresAt, id),
                   (id, c: Confirmation) => c.expiresAt <= now && !c.pending);
  }

  lemma PurgeKeepsOld(db: Db, cfg: Config, n: Notice, now: int)
    ensures NoticeIsOld(PurgeBodies(db, now), cfg, n, now) <==> NoticeIsOld(db, cfg, n, now)
  {
  }

  lemma PurgeKeepsOldRows(db: Db, cfg: Config, now: int)
    ensures DueRows(db.outbox, (k, n) => NoticeIsOld(PurgeBodies(db, now), cfg, n, now))
         == DueRows(db.outbox, (k, n) => NoticeIsOld(db, cfg, n, now))
  {
    forall k | k in db.outbox
      ensures NoticeIsOld(PurgeBodies(db, now), cfg, db.outbox[k], now) <==> NoticeIsOld(db, cfg, db.outbox[k], now)
    {
      PurgeKeepsOld(db, cfg, db.outbox[k], now);
    }
  }

  lemma StepNotices(cfg: Config, s: Sys, t: Tables, now: int)
    requires s.db == t.db && Ready(t.db, cfg, now)
    ensures NoticeRows(cfg, t, OutboxStep(cfg, s, t, now), now)
  {
    NoticesTaken(PurgeBodies(t.db, now), cfg, now);
    PurgeKeepsOldRows(t.db, cfg, now);
  }

  lemma StepBundles(cfg: Config, s: Sys, t: Tables, now: int)
    ensures BundleRows(cfg, t.bundles, OutboxStep(cfg, s, t, now).bundles, now)
  {
    var mid := PurgeBundles(t.bundles, now);
    PurgeTakesContents(t.bundles, now);
    BundlesTaken(cfg, mid, now);
    TakenIsDeleted(mid, OutboxStep(cfg, s, t, now).bundles, Doomed(BundleView(cfg, mid), now),
                   (id, b: Bundle) => SortKey(b.updatedAt, id), (id, b) => BundleIsDue(cfg, b, now));
  }

  lemma StepBodies(cfg: Config, s: Sys, t: Tables, now: int)
    requires s.db == t.db && Ready(t.db, cfg, now)
    ensures BodyRows(t.db.results, OutboxStep(cfg, s, t, now).db.results, now)
  {
    var rows, mid := t.db.results, PurgeBodies(t.db, now).results;
    var rows' := OutboxStep(cfg, s, t, now).db.results;
    PurgeTakesBodies(t.db, now);
    forall r | r in mid
      ensures r in rows'
      ensures rows'[r] == mid[r].(updatedAt := rows'[r].updatedAt, noticeStatus := rows'[r].noticeStatus)
      ensures rows'[r].updatedAt == mid[r].updatedAt || rows'[r].updatedAt == Max(mid[r].updatedAt, now)
    {}
    assert NewlyPurged(rows, rows') == NewlyPurged(rows, mid);
  }

  lemma OutboxPartEnding(cfg: Config, s: Sys, t: Tables, t': Tables, now: int, deleted: nat)
    requires s.db == t.db && Ready(t.db, cfg, now)
    requires t' == OutboxStep(cfg, s, t, now) && deleted == OutboxCount(cfg, t, now)
    ensures OutboxPart(cfg, t, t', now, deleted) && OutboxRows(cfg, t, t', now)
  {
    OutboxPartHolds(cfg, s, t, now);
    StepRows(cfg, s, t, now);
  }

  lemma StepRows(cfg: Config, s: Sys, t: Tables, now: int)
    requires s.db == t.db && Ready(t.db, cfg, now)
    ensures OutboxRows(cfg, t, OutboxStep(cfg, s, t, now), now)
  {
    StepNotices(cfg, s, t, now);
    StepBundles(cfg, s, t, now);
    StepBodies(cfg, s, t, now);
  }

  /** The tables after the outbox part. */
  function OutboxStep(cfg: Config, s: Sys, t: Tables, now: int): Tables {
    var bundles := PurgeBundles(t.bundles, now);
    t.(db := ResultsStep(s, cfg, now).db, bundles := bundles - Doomed(BundleView(cfg, bundles), now))
  }

  function OutboxCount(cfg: Config, t: Tables, now: int): nat {
    |DeletedNotices(PurgeBodies(t.db, now), cfg, now)| + |Doomed(BundleView(cfg, PurgeBundles(t.bundles, now)), now)|
  }

  lemma OutboxPartCounts(cfg: Config, s: Sys, t: Tables, now: int)
    requires s.db == t.db && Ready(t.db, cfg, now)
    ensures OutboxBooks(cfg, t, OutboxStep(cfg, s, t, now), now, OutboxCount(cfg, t, now))
  {
    NoticesSwept(s, cfg, now);
    PurgeKeepsBundles(t.bundles, now);
    BundlesSwept(cfg, PurgeBundles(t.bundles, now), now);
    PurgeMakesNoneDue(cfg, t.bundles, now);
  }

  // ---------------------------------------------------------------------
  // Counting two tables as one
  // ---------------------------------------------------------------------

  /** The outbox part deletes as many rows as stop being due by it, purged bundles aside. */
  lemma OutboxCountsWhatGoes(cfg: Config, s: Sys, t: Tables, now: int)
    requires s.db == t.db && Ready(t.db, cfg, now)
    ensures var n, b := |DueNotices(t.db, cfg, now)|, |DueBeyondPurge(cfg, t.bundles, now)|;
            var t' := OutboxStep(cfg, s, t, now);
            && OutboxCount(cfg, t, now) == Min(n, RETENTION_BATCH) + Min(b, RETENTION_BATCH)
            && OutboxCount(cfg, t, now) + |DueNotices(t'.db, cfg, now)| + DueBundles(cfg, t'.bundles, now) == n + b
  {
    NoticesSwept(s, cfg, now);
    BundlesSwept(cfg, PurgeBundles(t.bundles, now), now);
    DueAfterPurge(cfg, t.bundles, now);
  }

  lemma OutboxPartEnds(cfg: Config, s: Sys, t: Tables, now: int)
    requires s.db == t.db && Ready(t.db, cfg, now)
    ensures OutboxEnds(cfg, t, OutboxStep(cfg, s, t, now), now, OutboxCount(cfg, t, now))
  {
    OutboxCountsWhatGoes(cfg, s, t, now);
  }

  lemma OutboxPartHolds(cfg: Config, s: Sys, t: Tables, now: int)
    requires s.db == t.db && Ready(t.db, cfg, now)
    ensures OutboxPart(cfg, t, OutboxStep(cfg, s, t, now), now, OutboxCount(cfg, t, now))
  {
    OutboxPartCounts(cfg, s, t, now);
    OutboxPartEnds(cfg, s, t, now);
    BodiesLeft(s, cfg, now);
  }

  /**
   Comparing the sum of two batch counts with one batch size misjudges the outbox in both
   directions. With `n` due notices and `b` due bundles the purge does not touch, it says "no
   more" while due rows stay exactly when one table overflows its batch and the other is not
   empty; it says "more" with nothing left exactly when the two together make one batch.
   */
  lemma CombinedCountMisjudges(cfg: Config, s: Sys, t: Tables, now: int)
    requires s.db == t.db && Ready(t.db, cfg, now)
    ensures var n, b := |DueNotices(t.db, cfg, now)|, |DueBeyondPurge(cfg, t.bundles, now)|;
            var full := OutboxCount(cfg, t, now) == RETENTION_BATCH;
            var drained := OutboxDrained(cfg, OutboxStep(cfg, s, t, now), now);
            && (!full && !drained <==> (n > RETENTION_BATCH && b > 0) || (b > RETENTION_BATCH && n > 0))
            && (full && drained <==> n + b == RETENTION_BATCH)
  {
    OutboxCountsWhatGoes(cfg, s, t, now);
  }

  predicate InboundPart(cfg: Config, t: Tables, t': Tables, now: int, deleted: nat) {
    && t' == t.(inbound := t'.inbound, confirmations := t'.confirmations)
    && Size(t') <= Size(t) - deleted
    && deleted + DueInbound(cfg, t'.inbound, now) == DueInbound(cfg, t.inbound, now)
    && (deleted != RETENTION_BATCH ==> DueInbound(cfg, t'.inbound, now) == 0)
    && NoOrphans(t.confirmations, t'.confirmations, t.inbound.Keys - t'.inbound.Keys)
  }

  lemma InboundPartHolds(cfg: Config, t: Tables, now: int)
    ensures var gone := Doomed(InboundView(cfg, t.inbound), now);
            InboundPart(cfg, t, t.(inbound := t.inbound - gone, confirmations := Cascaded(t.confirmations, gone)),
                        now, |gone|)
  {
    var gone := Doomed(InboundView(cfg, t.inbound), now);
    InboundSwept(cfg, t.inbound, now);
    CascadeShrinks(t.confirmations, gone);
    CascadeLeavesNoOrphans(t.confirmations, gone);
    DoomedSize(InboundView(cfg, t.inbound), now);
    assert t.inbound.Keys - (t.inbound - gone).Keys == gone;
  }

  lemma InboundRowsHold(cfg: Config, t: Tables, now: int)
    ensures var gone := Doomed(InboundView(cfg, t.inbound), now);
            InboundRows(cfg, t, t.(inbound := t.inbound - gone, confirmations := Cascaded(t.confirmations, gone)), now)
  {
    InboundDeleted(cfg, t.inbound, now);
  }

  predicate SelectionPart(t: Tables, t': Tables, now: int, selections: nat, confirmations: nat) {
    && t' == t.(selections := t'.selections, confirmations := t'.confirmations)
    && Size(t') == Size(t) - selections - confirmations
    && selections + DueSelections(t'.selections, now) == DueSelections(t.selections, now)
    && (selections != RETENTION_BATCH ==> DueSelections(t'.selections, now) == 0)
    && (confirmations != RETENTION_BATCH ==> DueConfirmations(t'.confirmations, now) == 0)
    && (forall id | id in t.confirmations && t.confirmations[id].pending :: id in t'.confirmations)
  }

  lemma SelectionPartHolds(t: Tables, now: int)
    ensures var gone := Doomed(SelectionView(t.selections), now);
            var expired := Doomed(ConfirmationView(t.confirmations), now);
            SelectionPart(t, t.(selections := t.selections - gone, confirmations := t.confirmations - expired),
                          now, |gone|, |expired|)
  {
    SelectionsSwept(t.selections, now);
    ConfirmationsSwept(t.confirmations, now);
    forall id | id in t.confirmations && t.confirmations[id].pending
      ensures id !in Doomed(ConfirmationView(t.confirmations), now)
    {
      PendingIsNeverDoomed(t.confirmations, now, id);
    }
  }

  /** A whole round, in numbers: what it deleted, what it left, and the one batch of bodies it purged. */
  predicate WholeRound(cfg: Config, t: Tables, t': Tables, now: int, r: Round) {
    && OutboxBooks(cfg, t, t', now, r.outbox)
    && r.inbound + DueInbound(cfg, t'.inbound, now) == DueInbound(cfg, t.inbound, now)
    && r.selections + DueSelections(t'.selections, now) == DueSelections(t.selections, now)
    && DueBodyCount(t', now) == Max(0, DueBodyCount(t, now) - RETENTION_BATCH)
    && (!MayHaveMore(r) ==> ChatDrained(cfg, t', now))
    && OutboxEnds(cfg, t, t', now, r.outbox)
  }

  /** The first two parts without the third: selections are untouched, and confirmations but for the cascade. */
  predicate FirstTwoParts(cfg: Config, t: Tables, t': Tables, now: int, r: Round) {
    && r.selections == 0 && r.confirmations == 0 && t'.selections == t.selections
    && OutboxBooks(cfg, t, t', now, r.outbox)
    && r.inbound + DueInbound(cfg, t'.inbound, now) == DueInbound(cfg, t.inbound, now)
    && (r.inbound != RETENTION_BATCH ==> DueInbound(cfg, t'.inbound, now) == 0)
    && NoOrphans(t.confirmations, t'.confirmations, t.inbound.Keys - t'.inbound.Keys)
    && DueBodyCount(t', now) == Max(0, DueBodyCount(t, now) - RETENTION_BATCH)
    && OutboxEnds(cfg, t, t', now, r.outbox)
  }

  /** What a round does, by the poll that cut it short if one did. */
  predicate RoundOutcome(cfg: Config, t: Tables, t': Tables, now: int, r: Round, poll0: bool, poll1: bool,
                         poll2: bool) {
    if poll0 then r == Round(0, 0, 0, 0) && t' == t
    else if poll1 then r == Round(r.outbox, 0, 0, 0) && OutboxPart(cfg, t, t', now, r.outbox)
    else if poll2 then FirstTwoParts(cfg, t, t', now, r)
    else WholeRound(cfg, t, t', now, r)
  }

  /** A round never deletes fewer rows than it counts: the cascade is not counted. */
  predicate RoundIs(cfg: Config, t: Tables, t': Tables, now: int, r: Round, poll0: bool, poll1: bool, poll2: bool) {
    Size(t') <= Size(t) - Deleted(r) && RoundOutcome(cfg, t, t', now, r, poll0, poll1, poll2)
  }

  lemma OnePartMakesRound(cfg: Config, t0: Tables, t1: Tables, now: int, r: Round, poll2: bool)
    requires OutboxPart(cfg, t0, t1, now, r.outbox) && r == Round(r.outbox, 0, 0, 0)
    ensures RoundIs(cfg, t0, t1, now, r, false, true, poll2)
  {
  }

  lemma TwoPartsMakeRound(cfg: Config, t0: Tables, t1: Tables, t2: Tables, now: int, r: Round)
    requires OutboxPart(cfg, t0, t1, now, r.outbox) && InboundPart(cfg, t1, t2, now, r.inbound)
    requires r.selections == 0 && r.confirmations == 0
    ensures RoundIs(cfg, t0, t2, now, r, false, false, true)
  {
  }

  lemma ChatLeavesOutbox(cfg: Config, t: Tables, t2: Tables, t3: Tables, now: int, deleted: nat)
    requires OutboxBooks(cfg, t, t2, now, deleted) && OutboxEnds(cfg, t, t2, now, deleted)
    requires t3.db == t2.db && t3.bundles == t2.bundles
    ensures OutboxBooks(cfg, t, t3, now, deleted) && OutboxEnds(cfg, t, t3, now, deleted)
  {
  }

  /** The third part completes what the first two left. */
  lemma PartsMakeRound(cfg: Config, t0: Tables, t2: Tables, t3: Tables, now: int, cut: Round, r: Round)
    requires RoundIs(cfg, t0, t2, now, cut, false, false, true)
    requires SelectionPart(t2, t3, now, r.selections, r.confirmations)
    requires r.outbox == cut.outbox && r.inbound == cut.inbound
    ensures RoundIs(cfg, t0, t3, now, r, false, false, false)
  {
    ChatLeavesOutbox(cfg, t0, t2, t3, now, r.outbox);
  }

  /**
   Which tables a run that reports completion has drained: its last round was not full, and the
   poll that cut it short, if one did, decides what that says. Cut at the first or second poll it
   says nothing of the chat tables, which are as the round found them; cut at the third it
   vouches for the inbound commands only.
   */
  lemma CompletionMeans(cfg: Config, t: Tables, t': Tables, now: int, r: Round, poll0: bool, poll1: bool, poll2: bool)
    requires RoundOutcome(cfg, t, t', now, r, poll0, poll1, poll2) && !MayHaveMore(r)
    ensures ChatDrained(cfg, t', now) <==>
              if poll0 || poll1 then ChatDrained(cfg, t, now)
              else poll2 ==> DueSelections(t.selections, now) == 0 && DueConfirmations(t'.confirmations, now) == 0
    ensures DueInbound(cfg, t'.inbound, now) == 0 <==> (poll0 || poll1 ==> DueInbound(cfg, t.inbound, now) == 0)
    ensures OutboxDrained(cfg, t', now) <==> if poll0 then OutboxDrained(cfg, t, now) else FitsBatch(cfg, t, now)
    ensures !poll0 && r.outbox < RETENTION_BATCH ==> FitsBatch(cfg, t, now)
  {
  }

  /** What a last round leaves: no chat row due, and no outbox row either if its count was below a batch. */
  predicate WasLast(cfg: Config, t: Tables, now: int, last: Round) {
    ChatDrained(cfg, t, now) && (last.outbox < RETENTION_BATCH ==> OutboxDrained(cfg, t, now))
  }

  // ---------------------------------------------------------------------
  // Rounds that fail
  // ---------------------------------------------------------------------

  /**
   Whether the statement that fails, if one does, is reached: four statements of the outbox part are
   numbered from 0, the inbound part is 4, selections are 5 and confirmations 6.
   */
  predicate Hits(fault: Option<nat>, poll0: bool, poll1: bool, poll2: bool) {
    && fault.Some? && !poll0
    && (fault.value < 4 || (!poll1 && (fault.value == 4 || (!poll2 && fault.value <= 6))))
  }

  lemma FirstFaults(fault: Option<nat>)
    ensures fault.Some? && fault.value < 4 <==> fault in {Some(0), Some(1), Some(2), Some(3)}
  {
  }

  /** The outbox part up to the statement that fails. */
  predicate OutboxFails(cfg: Config, s: Sys, s': Sys, t: Tables, t': Tables, now: int, fault: nat) {
    && s' == (if fault == 0 then s else if fault < 3 then Purged(s, now) else ResultsStep(s, cfg, now))
    && t' == t.(db := s'.db, bundles := if fault < 2 then t.bundles else PurgeBundles(t.bundles, now))
  }

  /** How the third part ends. */
  predicate SelectionsEnd(t: Tables, t': Tables, now: int, selections: nat, confirmations: nat, fault: Option<nat>,
                          failed: bool) {
    && failed == (fault == Some(5) || fault == Some(6))
    && if failed then SelectionsFail(t, t', now, selections, fault.value) && confirmations == 0
       else SelectionPart(t, t', now, selections, confirmations)
  }

  /** One batch of selections without the confirmations. */
  predicate SelectionsFail(t: Tables, t': Tables, now: int, selections: nat, fault: nat) {
    && t' == t.(selections := t'.selections) && (fault == 5 ==> t' == t && selections == 0)
    && selections + DueSelections(t'.selections, now) == DueSelections(t.selections, now)
  }

  lemma SelectionsEndEarly(t: Tables, t': Tables, now: int)
    requires t' == t.(selections := t.selections - Doomed(SelectionView(t.selections), now))
    ensures SelectionsEnd(t, t', now, |Doomed(SelectionView(t.selections), now)|, 0, Some(6), true)
    ensures SelectionRows(t, t', now)
  {
    SelectionsSwept(t.selections, now);
    SelectionsDeleted(t, t', now);
  }

  lemma SelectionsEndWhole(t: Tables, t': Tables, now: int, fault: Option<nat>)
    requires t' == t.(selections := t.selections - Doomed(SelectionView(t.selections), now),
                      confirmations := t.confirmations - Doomed(ConfirmationView(t.confirmations), now))
    requires fault != Some(5) && fault != Some(6)
    ensures SelectionsEnd(t, t', now, |Doomed(SelectionView(t.selections), now)|,
                          |Doomed(ConfirmationView(t.confirmations), now)|, fault, false)
    ensures SelectionRows(t, t', now) && ConfirmationRows(t, t', now)
  {
    SelectionPartHolds(t, now);
    SelectionsDeleted(t, t', now);
    ConfirmationsDeleted(t, t', now);
  }

  /**
   A failure of the inbound part leaves what a cut at the second poll does, and one of the third
   part what a cut at the third poll does, but for the selections.
   */
  predicate ChatFails(cfg: Config, t: Tables, t': Tables, now: int, r: Round, fault: nat) {
    if fault == 4 then RoundOutcome(cfg, t, t', now, r, false, true, false)
    else
      && RoundOutcome(cfg, t, t'.(selections := t.selections), now, r.(selections := 0), false, false, true)
      && SelectionsFail(t'.(selections := t.selections), t', now, r.selections, fault)
  }

  lemma ThirdPartFails(cfg: Config, t0: Tables, t2: Tables, t3: Tables, now: int, cut: Round, r: Round, fault: nat)
    requires RoundIs(cfg, t0, t2, now, cut, false, false, true) && SelectionsFail(t2, t3, now, r.selections, fault)
    requires r == cut.(selections := r.selections) && fault != 4
    ensures ChatFails(cfg, t0, t3, now, r, fault)
  {
    assert t3.(selections := t0.selections) == t2 && r.(selections := 0) == cut;
  }

  /** How the parts after the outbox part end. */
  predicate ChatEnds(cfg: Config, t: Tables, t': Tables, now: int, r: Round, poll1: bool, poll2: bool,
                     fault: Option<nat>, failed: bool) {
    && failed == Hits(fault, false, poll1, poll2)
    && if failed then ChatFails(cfg, t, t', now, r, fault.value) else RoundIs(cfg, t, t', now, r, false, poll1, poll2)
  }

  lemma ThirdPartHits(fault: Option<nat>)
    requires fault.Some? ==> fault.value > 4
    ensures Hits(fault, false, false, false) <==> fault == Some(5) || fault == Some(6)
  {
    if fault.Some? {
      assert fault == Some(fault.value);
    }
  }

  lemma WholeRoundEnds(cfg: Config, t: Tables, t': Tables, now: int, r: Round, fault: Option<nat>)
    requires RoundIs(cfg, t, t', now, r, false, false, false) && !Hits(fault, false, false, false)
    ensures ChatEnds(cfg, t, t', now, r, false, false, fault, false)
  {
  }

  lemma FailedRoundEnds(cfg: Config, t: Tables, t': Tables, now: int, r: Round, fault: nat)
    requires ChatFails(cfg, t, t', now, r, fault) && 5 <= fault <= 6
    ensures ChatEnds(cfg, t, t', now, r, false, false, Some(fault), true)
  {
  }

  lemma ThirdPartEnds(cfg: Config, t0: Tables, t2: Tables, t3: Tables, now: int, cut: Round, r: Round,
                      fault: Option<nat>, failed: bool)
    requires RoundIs(cfg, t0, t2, now, cut, false, false, true) && (fault.Some? ==> fault.value > 4)
    requires SelectionsEnd(t2, t3, now, r.selections, r.confirmations, fault, failed)
    requires r == cut.(selections := r.selections, confirmations := r.confirmations)
    ensures ChatEnds(cfg, t0, t3, now, r, false, false, fault, failed)
  {
    ThirdPartHits(fault);
    if failed {
      ThirdPartFails(cfg, t0, t2, t3, now, cut, r, fault.value);
      FailedRoundEnds(cfg, t0, t3, now, r, fault.value);
    } else {
      PartsMakeRound(cfg, t0, t2, t3, now, cut, r);
      WholeRoundEnds(cfg, t0, t3, now, r, fault);
    }
  }

  lemma FirstPartEnds(cfg: Config, t0: Tables, t1: Tables, now: int, r: Round, poll1: bool, poll2: bool,
                      fault: Option<nat>)
    requires OutboxPart(cfg, t0, t1, now, r.outbox) && r == Round(r.outbox, 0, 0, 0)
    requires (fault.Some? ==> fault.value >= 4) && (poll1 || fault == Some(4))
    ensures ChatEnds(cfg, t0, t1, now, r, poll1, poll2, fault, !poll1)
  {
    OnePartMakesRound(cfg, t0, t1, now, r, poll2);
  }

  /** What a round that fails has done; `r` counts it, though the caller is not told. */
  predicate RoundFails(cfg: Config, s: Sys, s': Sys, t: Tables, t': Tables, now: int, r: Round, fault: nat) {
    if fault < 4 then r == Round(0, 0, 0, 0) && OutboxFails(cfg, s, s', t, t', now, fault)
    else s' == ResultsStep(s, cfg, now) && ChatFails(cfg, t, t', now, r, fault)
  }

  // ---------------------------------------------------------------------
  // Runs
  // ---------------------------------------------------------------------

  datatype Report = Report(
    outbox: nat, inbound: nat, selections: nat, startedAt: int, completedAt: int, completed: bool)

  /** `saturating_add` on u64. */
  function Plus(a: nat, b: nat): nat {
    Min(a + b, U64_MODULUS - 1)
  }

  function Added(report: Report, r: Round): Report {
    report.(outbox := Plus(report.outbox, r.outbox), inbound := Plus(report.inbound, r.inbound),
            selections := Plus(report.selections, r.selections))
  }

  /** The books of a run under one clock reading. */
  predicate Books(cfg: Config, t0: Tables, t: Tables, report: Report, now: int) {
    && report.outbox + report.inbound + report.selections <= Size(t0) - Size(t)
    && OutboxBooks(cfg, t0, t, now, report.outbox)
    && report.inbound + DueInbound(cfg, t.inbound, now) == DueInbound(cfg, t0.inbound, now)
    && report.selections + DueSelections(t.selections, now) == DueSelections(t0.selections, now)
  }

  /**
   The totals of a completed run are what was due at its start: all commands, all selections,
   and, unless the last count was that of two overflowing tables, all notices.
   */
  predicate DeletesWhatWasDue(cfg: Config, t0: Tables, t: Tables, report: Report, last: Round, now: int) {
    && report.inbound == DueInbound(cfg, t0.inbound, now) && report.selections == DueSelections(t0.selections, now)
    && OutboxBooks(cfg, t0, t, now, report.outbox)
    && (last.outbox < RETENTION_BATCH ==> |t0.db.outbox| - |t.db.outbox| == |DueNotices(t0.db, cfg, now)|)
  }

  lemma BooksBalance(cfg: Config, t0: Tables, t: Tables, report: Report, last: Round, now: int)
    requires Books(cfg, t0, t, report, now) && WasLast(cfg, t, now, last)
    ensures DeletesWhatWasDue(cfg, t0, t, report, last, now)
  {
  }

  lemma RoundKeepsBooks(cfg: Config, t0: Tables, t: Tables, t': Tables, report: Report, now: int, r: Round)
    requires Books(cfg, t0, t, report, now) && RoundIs(cfg, t, t', now, r, false, false, false)
    requires Size(t0) < U64_MODULUS
    ensures Books(cfg, t0, t', Added(report, r), now)
  {
  }

  /**
   The books are kept: no poll of the first `rounds` rounds finds the run cancelled, the clock reads
   the same in all of them, and the tables are not so large that a counter saturates.
   */
  ghost predicate Exact(clock: nat -> int, cancelled: nat -> bool, rounds: nat, t0: Tables) {
    && (forall i: nat | i < 4 * rounds :: !cancelled(i))
    && (forall i: nat | i <= rounds :: clock(i) == clock(0))
    && Size(t0) < U64_MODULUS
  }

  /** A poll inside the last round found the run cancelled. */
  predicate CutShort(cancelled: nat -> bool, rounds: nat)
    requires rounds > 0
  {
    cancelled(4 * rounds - 3) || cancelled(4 * rounds - 2) || cancelled(4 * rounds - 1)
  }

  /** The last of a run's rounds took the tables from `t` to `t'` as its three polls let it. */
  predicate LastRound(cfg: Config, t: Tables, t': Tables, clock: nat -> int, cancelled: nat -> bool, rounds: nat,
                      last: Round)
    requires rounds > 0
  {
    RoundOutcome(cfg, t, t', clock(rounds), last,
                 cancelled(4 * rounds - 3), cancelled(4 * rounds - 2), cancelled(4 * rounds - 1))
  }

  /** A statement of the last round fails. */
  predicate LastFails(faults: nat -> Option<nat>, cancelled: nat -> bool, rounds: nat) {
    rounds > 0
    && Hits(faults(rounds), cancelled(4 * rounds - 3), cancelled(4 * rounds - 2), cancelled(4 * rounds - 1))
  }

  /** It left the tables as its first statements did. */
  predicate FailedLast(cfg: Config, s: Sys, s': Sys, t: Tables, t': Tables, clock: nat -> int,
                       faults: nat -> Option<nat>, rounds: nat, last: Round) {
    faults(rounds).Some? && RoundFails(cfg, s, s', t, t', clock(rounds), last, faults(rounds).value)
  }

  ghost predicate KeepsBooks(cfg: Config, t0: Tables, t: Tables, report: Report, clock: nat -> int,
                             cancelled: nat -> bool, rounds: nat) {
    Exact(clock, cancelled, rounds, t0) ==> Books(cfg, t0, t, report, clock(0))
  }

  lemma StampKeepsBooks(cfg: Config, t0: Tables, t: Tables, report: Report, clock: nat -> int, cancelled: nat -> bool,
                        rounds: nat, at: int, completed: bool)
    requires KeepsBooks(cfg, t0, t, report, clock, cancelled, rounds)
    ensures KeepsBooks(cfg, t0, t, report.(completedAt := at, completed := completed), clock, cancelled, rounds)
  {
  }

  lemma RoundIsNext(cfg: Config, t0: Tables, t: Tables, t': Tables, report: Report, clock: nat -> int,
                    cancelled: nat -> bool, n: nat, r: Round)
    requires n > 0 && KeepsBooks(cfg, t0, t, report, clock, cancelled, n - 1)
    requires RoundIs(cfg, t, t', clock(n), r, cancelled(4 * n - 3), cancelled(4 * n - 2), cancelled(4 * n - 1))
    ensures LastRound(cfg, t, t', clock, cancelled, n, r) && (MayHaveMore(r) ==> Size(t') <= Size(t) - RETENTION_BATCH)
    ensures KeepsBooks(cfg, t0, t', Added(report, r), clock, cancelled, n)
  {
    if Exact(clock, cancelled, n, t0) {
      RoundKeepsBooks(cfg, t0, t, t', report, clock(n), r);
    }
  }

  lemma FailureKeeps(cfg: Config, ok: Sys -> bool, s: Sys, s': Sys, t: Tables, t': Tables, now: int, r: Round,
                     fault: nat)
    requires KeptByRounds(cfg, ok) && ok(s) && RoundFails(cfg, s, s', t, t', now, r, fault)
    ensures ok(s')
  {
    assert ok(Purged(s, now)) && ok(ResultsStep(s, cfg, now));
  }

  class RetentionService {
    const cfg: Config
    var t: Tables
    ghost var swept: int
    ghost const minted: map<string, string>
    ghost const posted: set<string>

    constructor (cfg: Config, t: Tables, ghost s: Sys)
      requires s.db == t.db
      ensures this.cfg == cfg && this.t == t && Results() == s
    {
      this.cfg, this.t := cfg, t;
      swept, minted, posted := s.swept, s.minted, s.posted;
    }

    ghost function Results(): Sys
      reads this
    {
      Sys(t.db, swept, minted, posted)
    }

    /** Bodies and bundle contents: one batch of each. */
    method PurgeContentsAt(now: int, fault: Option<nat>) returns (failed: bool)
      modifies this
      ensures failed <==> fault == Some(0) || fault == Some(1)
      ensures Results() == if fault == Some(0) then old(Results()) else Purged(old(Results()), now)
      ensures t == old(t).(db := t.db, bundles := if failed then old(t).bundles else PurgeBundles(old(t).bundles, now))
    {
      failed := true;
      if fault == Some(0) { return; }
      t := t.(db := PurgeBodies(t.db, now));
      swept := Max(swept, now);
      if fault == Some(1) { return; }
      t := t.(bundles := PurgeBundles(t.bundles, now));
      failed := false;
    }

    /** The outbox transaction and bundles: one batch of each, on tables whose contents are purged. */
    method DeleteOldAt(now: int, fault: Option<nat>) returns (deleted: nat, failed: bool)
      requires CopySucceeds(t.db, cfg, now)
      modifies this
      ensures failed <==> fault == Some(2) || fault == Some(3)
      ensures swept == if fault == Some(2) then old(swept) else Max(old(swept), now)
      ensures t == old(t).(db := if fault == Some(2) then old(t).db else RetainOutbox(old(t).db, cfg, now).value,
                           bundles := if failed then old(t).bundles
                                      else old(t).bundles - Doomed(BundleView(cfg, old(t).bundles), now))
      ensures !failed ==>
                deleted == |DeletedNotices(old(t).db, cfg, now)| + |Doomed(BundleView(cfg, old(t).bundles), now)|
    {
      deleted, failed := 0, true;
      if fault == Some(2) { return; }
      var notices := DeletedNotices(t.db, cfg, now);
      t := t.(db := RetainOutbox(t.db, cfg, now).value);
      swept := Max(swept, now);
      if fault == Some(3) { return; }
      var gone := Doomed(BundleView(cfg, t.bundles), now);
      t := t.(bundles := t.bundles - gone);
      deleted, failed := |notices| + |gone|, false;
    }

    /** The outbox part of a round. */
    method DeleteOutboxAt(now: int, fault: Option<nat>) returns (deleted: nat, failed: bool)
      requires Ready(t.db, cfg, now)
      modifies this
      ensures failed <==> fault.Some? && fault.value < 4
      ensures failed ==> OutboxFails(cfg, old(Results()), Results(), old(t), t, now, fault.value)
      ensures !failed ==> Results() == ResultsStep(old(Results()), cfg, now)
      ensures !failed ==> OutboxPart(cfg, old(t), t, now, deleted)
      ensures !failed ==> OutboxRows(cfg, old(t), t, now)
    {
      deleted := 0;
      failed := PurgeContentsAt(now, fault);
      if !failed {
        deleted, failed := DeleteOldAt(now, fault);
        if !failed {
          OutboxPartEnding(cfg, old(Results()), old(t), t, now, deleted);
        }
      }
      FirstFaults(fault);
    }

    /** One batch of inbound commands, and the confirmations that waited for them. */
    method DeleteInboundAt(now: int) returns (deleted: nat)
      modifies this
      ensures swept == old(swept) && t.db == old(t).db && InboundPart(cfg, old(t), t, now, deleted)
      ensures InboundRows(cfg, old(t), t, now)
    {
      InboundPartHolds(cfg, t, now);
      InboundRowsHold(cfg, t, now);
      var gone := Doomed(InboundView(cfg, t.inbound), now);
      t := t.(inbound := t.inbound - gone, confirmations := Cascaded(t.confirmations, gone));
      deleted := |gone|;
    }

    /** One batch of selections and one of confirmations that are not waiting for a dispatch. */
    method DeleteSelectionsAt(now: int, fault: Option<nat>)
      returns (selections: nat, confirmations: nat, failed: bool)
      modifies this
      ensures swept == old(swept) && t.db == old(t).db
      ensures SelectionsEnd(old(t), t, now, selections, confirmations, fault, failed)
      ensures fault != Some(5) ==> SelectionRows(old(t), t, now)
      ensures !failed ==> ConfirmationRows(old(t), t, now)
    {
      selections, confirmations, failed := 0, 0, true;
      if fault != Some(5) {
        var gone := Doomed(SelectionView(t.selections), now);
        t := t.(selections := t.selections - gone);
        selections := |gone|;
        if fault == Some(6) {
          SelectionsEndEarly(old(t), t, now);
        } else {
          var expired := Doomed(ConfirmationView(t.confirmations), now);
          t := t.(confirmations := t.confirmations - expired);
          confirmations, failed := |expired|, false;
          SelectionsEndWhole(old(t), t, now, fault);
        }
      }
    }

    /** The third part of a round whose first two parts came to `cut`. */
    method RunThirdPart(now: int, fault: Option<nat>, cut: Round, ghost t0: Tables) returns (r: Round, failed: bool)
      requires RoundIs(cfg, t0, t, now, cut, false, false, true) && (fault.Some? ==> fault.value > 4)
      modifies this
      ensures Results() == old(Results())
      ensures ChatEnds(cfg, t0, t, now, r, false, false, fault, failed)
    {
      var selections, confirmations;
      selections, confirmations, failed := DeleteSelectionsAt(now, fault);
      r := cut.(selections := selections, confirmations := confirmations);
      ThirdPartEnds(cfg, t0, old(t), t, now, cut, r, fault, failed);
    }

    /** The rest of a round whose outbox part has run. */
    method RunChatParts(now: int, poll1: bool, poll2: bool, fault: Option<nat>, outbox: nat, ghost t0: Tables)
      returns (r: Round, failed: bool)
      requires OutboxPart(cfg, t0, t, now, outbox) && (fault.Some? ==> fault.value >= 4)
      modifies this
      ensures Results() == old(Results())
      ensures ChatEnds(cfg, t0, t, now, r, poll1, poll2, fault, failed)
    {
      r := Round(outbox, 0, 0, 0);
      failed := !poll1 && fault == Some(4);
      if poll1 || failed {
        FirstPartEnds(cfg, t0, t, now, r, poll1, poll2, fault);
      } else {
        var gone := DeleteInboundAt(now);
        r := r.(inbound := gone);
        TwoPartsMakeRound(cfg, t0, old(t), t, now, r);
        if !poll2 {
          r, failed := RunThirdPart(now, fault, r, t0);
        }
      }
    }

    /** One round; the arguments answer its three polls, and name the statement that fails, if one does. */
    method RunRoundAt(now: int, poll0: bool, poll1: bool, poll2: bool, fault: Option<nat>)
      returns (r: Round, failed: bool)
      requires Ready(t.db, cfg, now)
      modifies this
      ensures failed <==> Hits(fault, poll0, poll1, poll2)
      ensures !failed ==> Results() == if poll0 then old(Results()) else ResultsStep(old(Results()), cfg, now)
      ensures !failed ==> RoundIs(cfg, old(t), t, now, r, poll0, poll1, poll2)
      ensures failed ==> RoundFails(cfg, old(Results()), Results(), old(t), t, now, r, fault.value)
    {
      r, failed := Round(0, 0, 0, 0), false;
      if !poll0 {
        var outbox;
        outbox, failed := DeleteOutboxAt(now, fault);
        if !failed {
          r, failed := RunChatParts(now, poll1, poll2, fault, outbox, old(t));
        }
      }
    }

    /** Round `n` of a run that started at `t0`, with the report so far. */
    method NextRound(clock: nat -> int, cancelled: nat -> bool, faults: nat -> Option<nat>, n: nat, report: Report,
                     ghost ok: Sys -> bool, ghost t0: Tables)
      returns (r: Round, sum: Report, failed: bool)
      requires KeptByRounds(cfg, ok) && ok(Results())
      requires n > 0
      requires KeepsBooks(cfg, t0, t, report, clock, cancelled, n - 1)
      modifies this
      ensures ok(Results())
      ensures failed <==> LastFails(faults, cancelled, n)
      ensures failed ==> FailedLast(cfg, old(Results()), Results(), old(t), t, clock, faults, n, r)
      // a round that asks for another has deleted at least one full batch
      ensures !failed && MayHaveMore(r) ==> Size(t) <= Size(old(t)) - RETENTION_BATCH
      ensures !failed ==> LastRound(cfg, old(t), t, clock, cancelled, n, r)
      ensures !failed ==> KeepsBooks(cfg, t0, t, sum, clock, cancelled, n)
      ensures sum.startedAt == report.startedAt
    {
      var now := clock(n);
      assert Ready(Results().db, cfg, now) && ok(ResultsStep(Results(), cfg, now));
      r, failed := RunRoundAt(now, cancelled(4 * n - 3), cancelled(4 * n - 2), cancelled(4 * n - 1), faults(n));
      sum := Added(report, r);
      if failed {
        FailureKeeps(cfg, ok, old(Results()), Results(), old(t), t, now, r, faults(n).value);
      } else {
        RoundIsNext(cfg, t0, old(t), t, report, clock, cancelled, n, r);
      }
    }

    /**
     Rounds until one had no full batch or failed, or until a poll finds the run cancelled.
     `clock(0)` is the start, `clock(i)` the reading of round `i` and `faults(i)` its failing
     statement; round `i` polls at 4(i-1) and the three after. `before` and `was` are what the last
     round found.
     */
    method RunRounds(clock: nat -> int, cancelled: nat -> bool, faults: nat -> Option<nat>, ghost ok: Sys -> bool)
      returns (report: Report, rounds: nat, last: Round, failed: bool, ghost before: Tables, ghost was: Sys)
      requires KeptByRounds(cfg, ok) && ok(Results())
      modifies this
      ensures ok(Results())
      ensures failed <==> LastFails(faults, cancelled, rounds)
      ensures failed ==> FailedLast(cfg, was, Results(), before, t, clock, faults, rounds, last)
      ensures !failed ==> (report.completed <==> rounds > 0 && !MayHaveMore(last))
      ensures !failed && !report.completed ==> cancelled(4 * rounds)
      ensures rounds == 0 ==> t == old(t)
      ensures !failed && rounds > 0 ==> LastRound(cfg, before, t, clock, cancelled, rounds, last)
      ensures !failed ==> KeepsBooks(cfg, old(t), t, report, clock, cancelled, rounds)
      ensures !failed ==> report.startedAt == clock(0) <= report.completedAt
    {
      var completed;
      report, rounds, last, failed, completed, before, was := Repeat(clock, cancelled, faults, ok);
      if failed { return; }
      var at := Max(clock(rounds + 1), report.startedAt);
      StampKeepsBooks(cfg, old(t), t, report, clock, cancelled, rounds, at, completed);
      report := report.(completedAt := at, completed := completed);
    }

    /** The loop of a run. */
    method Repeat(clock: nat -> int, cancelled: nat -> bool, faults: nat -> Option<nat>, ghost ok: Sys -> bool)
      returns (report: Report, rounds: nat, last: Round, failed: bool, completed: bool, ghost before: Tables,
               ghost was: Sys)
      requires KeptByRounds(cfg, ok) && ok(Results())
      modifies this
      ensures ok(Results())
      ensures failed <==> LastFails(faults, cancelled, rounds)
      ensures failed ==> FailedLast(cfg, was, Results(), before, t, clock, faults, rounds, last)
      ensures !failed ==> (completed <==> rounds > 0 && !MayHaveMore(last))
      ensures !failed && !completed ==> cancelled(4 * rounds)
      ensures rounds == 0 ==> t == old(t)
      ensures !failed && rounds > 0 ==> LastRound(cfg, before, t, clock, cancelled, rounds, last)
      ensures !failed ==> KeepsBooks(cfg, old(t), t, report, clock, cancelled, rounds)
      ensures report.startedAt == clock(0)
    {
      report := Report(0, 0, 0, clock(0), clock(0), false);
      rounds, last, failed, before, was := 0, Round(0, 0, 0, 0), false, t, Results();
      completed := false;
      ghost var t0 := t;
      while !cancelled(4 * rounds)
        invariant ok(Results()) && !failed && !LastFails(faults, cancelled, rounds)
        invariant !completed && report.startedAt == clock(0)
        invariant rounds == 0 ==> t == t0
        invariant rounds > 0 ==> MayHaveMore(last) && LastRound(cfg, before, t, clock, cancelled, rounds, last)
        invariant KeepsBooks(cfg, t0, t, report, clock, cancelled, rounds)
        decreases Size(t)
      {
        before, was, rounds := t, Results(), rounds + 1;
        last, report, failed := NextRound(clock, cancelled, faults, rounds, report, ok, t0);
        if failed { return; }
        if !MayHaveMore(last) {
          completed := true;
          return;
        }
      }
    }

    /** One run of the worker on the tables of any run of the system; it reports nothing when a statement fails. */
    method RunOnce(clock: nat -> int, cancelledAtLock: bool, cancelled: nat -> bool, faults: nat -> Option<nat>)
      returns (report: Option<Report>, rounds: nat, last: Round, ghost before: Tables, ghost was: Sys)
      requires Inv(Results())
      modifies this
      // the result tables keep their invariant, and every receipt the status it reported, even if a statement fails
      ensures Kept(old(Results()), Results())
      // it fails if and only if a statement of its last round does, and leaves what the statements before that one did
      ensures report.None? <==> LastFails(faults, cancelled, rounds)
      ensures report.None? ==> FailedLast(cfg, was, Results(), before, t, clock, faults, rounds, last)
      // it reports completion if and only if it had a round that was not full; only a cancellation denies it one
      ensures report.Some? ==> (report.value.completed <==> rounds > 0 && !MayHaveMore(last))
      ensures report.Some? && !report.value.completed ==> cancelledAtLock || cancelled(4 * rounds)
      ensures report.Some? ==> report.value.startedAt == clock(0) <= report.value.completedAt
      ensures cancelledAtLock ==> rounds == 0
      ensures rounds == 0 ==> t == old(t)
      // the last round did what its polls let it do
      ensures report.Some? && rounds > 0 ==> LastRound(cfg, before, t, clock, cancelled, rounds, last)
      // reported completion is worth what a whole last round leaves, if that round was whole
      ensures report.Some? && report.value.completed && !CutShort(cancelled, rounds) ==>
                WasLast(cfg, t, clock(rounds), last)
      // a run no poll cut short, under a frozen clock, deletes exactly what was due
      ensures report.Some? && report.value.completed && Exact(clock, cancelled, rounds, old(t)) ==>
                DeletesWhatWasDue(cfg, old(t), t, report.value, last, clock(0))
    {
      KeptAtStart(Results());
      rounds, last, before, was := 0, Round(0, 0, 0, 0), t, Results();
      report := Some(Report(0, 0, 0, clock(0), clock(0), false));
      if cancelledAtLock { return; }
      ghost var s := Results();
      KeptIsKeptByRounds(cfg, s);
      var done, failed;
      done, rounds, last, failed, before, was := RunRounds(clock, cancelled, faults, x => Kept(s, x));
      if failed { return None, rounds, last, before, was; }
      report := Some(done);
      if done.completed && Exact(clock, cancelled, rounds, old(t)) {
        BooksBalance(cfg, old(t), t, done, last, clock(0));
      }
    }
  }
}
