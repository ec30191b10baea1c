/**
 Backlogs on which the retention worker's combined count goes wrong, each the end of a run
 from empty tables: one device's notifications, accepted, expired and grown old.
 */
module RetentionBacklogs {
  import opened Basics
  import opened Delivery
  import opened TokenFormat
  import opened ResultPages
  import opened OutboxWorker
  import opened ResultRuns
  import opened RetentionTables
  import opened RetentionService

  // ---------------------------------------------------------------------
  // One device's notifications
  // ---------------------------------------------------------------------

  /** What a device sends: the ids it chose, each also the dedupe key, and the row ids drawn for them. */
  datatype Mail = Mail(device: Uuid, names: seq<string>, draws: seq<string>, at: nat)

  predicate ValidMail(m: Mail) {
    && |m.names| == |m.draws| && Distinct(m.names) && Distinct(m.draws)
    && (forall i | 0 <= i < |m.names| :: 1 <= Utf8Len(m.names[i]) <= 128 && |m.draws[i]| == 36)
  }

  function KeyOf(m: Mail, i: nat): NoticeKey
    requires i < |m.names|
  {
    NoticeKey(DeviceOrigin(m.device), m.names[i])
  }

  /** A notification as the ingress stores it, to expire a millisecond after it was accepted. */
  function Stored(m: Mail, i: nat): Notice
    requires i < |m.names| && i < |m.draws|
  {
    Notice(m.draws[i], m.names[i], None, "n", Plain, PendingChannel, m.at, m.at + 1, 0, None, None, m.at, m.at)
  }

  /** The device appears and sends its first `n` notifications. */
  function Sends(m: Mail, n: nat): seq<Op>
    requires ValidMail(m) && n <= |m.names|
  {
    if n == 0 then [DoSetDevice(m.device, DeviceFlags(true, false))]
    else Sends(m, n - 1) + [DoEnqueue(KeyOf(m, n - 1), Stored(m, n - 1))]
  }

  ghost predicate IsSent(m: Mail, n: nat, k: NoticeKey, x: Notice)
    requires ValidMail(m) && n <= |m.names|
  {
    exists i: nat :: i < n && k == KeyOf(m, i) && x == Stored(m, i)
  }

  /** The tables then. */
  ghost predicate Waiting(m: Mail, n: nat, db: Db)
    requires ValidMail(m) && n <= |m.names|
  {
    && db.results == map[] && m.device in db.devices && |db.outbox| == n
    && forall k | k in db.outbox :: IsSent(m, n, k, db.outbox[k])
  }

  lemma SentApart(m: Mail, n: nat, k: NoticeKey, x: Notice)
    requires ValidMail(m) && n < |m.names| && IsSent(m, n, k, x)
    ensures k != KeyOf(m, n) && x.dedupeKey != m.names[n] && x.id != m.draws[n]
  {
  }

  lemma NextIsQueued(m: Mail, n: nat, db: Db)
    requires ValidMail(m) && n < |m.names| && Waiting(m, n, db)
    ensures QueuesPlain(db, KeyOf(m, n), Stored(m, n))
  {
    forall k | k in db.outbox
      ensures k != KeyOf(m, n) && db.outbox[k].dedupeKey != m.names[n] && db.outbox[k].id != m.draws[n]
    {
      SentApart(m, n, k, db.outbox[k]);
    }
  }

  lemma NextWaits(m: Mail, n: nat, s: Sys)
    requires ValidMail(m) && n < |m.names| && Waiting(m, n, s.db)
    ensures Waiting(m, n + 1, QueueStep(s, KeyOf(m, n), Stored(m, n)).db)
  {
    NextIsQueued(m, n, s.db);
    var out := QueueStep(s, KeyOf(m, n), Stored(m, n)).db.outbox;
    forall k | k in out ensures IsSent(m, n + 1, k, out[k]) {
      if k != KeyOf(m, n) {
        assert IsSent(m, n, k, s.db.outbox[k]);
      }
    }
  }

  lemma OneStep(cfg: Config, s: Sys, op: Op)
    ensures Run(cfg, s, [op]) == Apply(cfg, s, op)
  {
    var ops := [op];
    assert ops[1..] == [] && Run(cfg, s, ops) == Run(cfg, Apply(cfg, s, op), ops[1..]);
  }

  lemma OneMoreStep(cfg: Config, s: Sys, ops: seq<Op>, op: Op)
    ensures Run(cfg, s, ops + [op]) == Apply(cfg, Run(cfg, s, ops), op)
  {
    RunTwice(cfg, s, ops, [op]);
    OneStep(cfg, Run(cfg, s, ops), op);
  }

  /** The system after the first `n` were sent. */
  function Sent(m: Mail, n: nat): Sys
    requires ValidMail(m) && n <= |m.names|
  {
    if n == 0 then WithDevice(EMPTY, m.device, DeviceFlags(true, false))
    else QueueStep(Sent(m, n - 1), KeyOf(m, n - 1), Stored(m, n - 1))
  }

  lemma {:induction false} RunIsSent(cfg: Config, m: Mail, n: nat)
    requires ValidMail(m) && n <= |m.names|
    ensures Run(cfg, EMPTY, Sends(m, n)) == Sent(m, n)
  {
    if n == 0 {
      OneStep(cfg, EMPTY, DoSetDevice(m.device, DeviceFlags(true, false)));
    } else {
      RunIsSent(cfg, m, n - 1);
      OneMoreStep(cfg, EMPTY, Sends(m, n - 1), DoEnqueue(KeyOf(m, n - 1), Stored(m, n - 1)));
    }
  }

  lemma {:induction false} SentWaits(m: Mail, n: nat)
    requires ValidMail(m) && n <= |m.names|
    ensures Waiting(m, n, Sent(m, n).db)
  {
    if n > 0 {
      SentWaits(m, n - 1);
      NextWaits(m, n - 1, Sent(m, n - 1));
    }
  }

  // ---------------------------------------------------------------------
  // They expire and grow old
  // ---------------------------------------------------------------------

  /** All of it is sent, and the worker finds it expired. */
  function Lapses(m: Mail): seq<Op>
    requires ValidMail(m)
  {
    Sends(m, |m.names|) + [DoWork(ExpireDue(m.at + 1))]
  }

  predicate IsLapsed(m: Mail, x: Notice) {
    x.payload.Plain? && x.status.Expired? && x.updatedAt == m.at + 1
  }

  lemma SentExpires(m: Mail, k: NoticeKey, x: Notice)
    requires ValidMail(m) && IsSent(m, |m.names|, k, x)
    ensures Selects(ExpireDue(m.at + 1), k, x) && IsLapsed(m, Updated(ExpireDue(m.at + 1), x))
  {
  }

  lemma MapSizes<K, V>(a: map<K, V>, b: map<K, V>)
    requires a.Keys == b.Keys
    ensures |a| == |b|
  {
    assert |a.Keys| == |a| && |b.Keys| == |b|;
  }

  lemma ExpiryTakesAll(m: Mail, db: Db)
    requires ValidMail(m) && Waiting(m, |m.names|, db)
    ensures var out := UpdateNotices(db, Changes(db, ExpireDue(m.at + 1))).outbox;
            |out| == |m.names| && forall k | k in out :: IsLapsed(m, out[k])
  {
    var changes := Changes(db, ExpireDue(m.at + 1));
    forall k | k in db.outbox ensures k in changes && IsLapsed(m, changes[k]) {
      SentExpires(m, k, db.outbox[k]);
    }
    MapSizes(db.outbox, db.outbox + changes);
  }

  lemma RunIsLapsed(cfg: Config, m: Mail)
    requires ValidMail(m)
    ensures var s := Sent(m, |m.names|);
            Run(cfg, EMPTY, Lapses(m)) == Updates(s, Changes(s.db, ExpireDue(m.at + 1)))
  {
    RunIsSent(cfg, m, |m.names|);
    OneMoreStep(cfg, EMPTY, Sends(m, |m.names|), DoWork(ExpireDue(m.at + 1)));
  }

  lemma AllAreDue(cfg: Config, m: Mail, db: Db, now: int)
    requires |db.outbox| == |m.names| && UniqueOutboxIds(db.outbox)
    requires forall k | k in db.outbox :: IsLapsed(m, db.outbox[k])
    requires m.at + 1 < now - DaysToMs(cfg.acceptedDays)
    ensures |DueNotices(db, cfg, now)| == |m.names|
  {
    assert DueNotices(db, cfg, now) == set k | k in db.outbox.Keys :: NoticeSort(db.outbox[k]);
    ImageSize(db.outbox, db.outbox.Keys, DueNotices(db, cfg, now), (k, n) => NoticeSort(n));
    assert |db.outbox.Keys| == |db.outbox|;
  }

  /** When every notification of a device has lapsed and grown old, all of them are due. */
  lemma LapsedAreDue(cfg: Config, m: Mail, now: int)
    requires ValidConfig(cfg) && ValidMail(m) && m.at + 1 < now - DaysToMs(cfg.acceptedDays)
    ensures var s := Run(cfg, EMPTY, Lapses(m)); Inv(s) && |DueNotices(s.db, cfg, now)| == |m.names|
  {
    EmptyInv();
    RunInv(cfg, EMPTY, Lapses(m));
    RunIsLapsed(cfg, m);
    SentWaits(m, |m.names|);
    ExpiryTakesAll(m, Sent(m, |m.names|).db);
    AllAreDue(cfg, m, Run(cfg, EMPTY, Lapses(m)).db, now);
  }

  // ---------------------------------------------------------------------
  // Both misjudgements
  // ---------------------------------------------------------------------

  /** A bundle the provider accepted at `at`, whose content an earlier round purged when it was to be kept no longer. */
  function PurgedBundle(id: string, at: nat, keep: nat): map<string, Bundle> {
    PurgeBundles(map[id := Bundle(BundleAccepted, at, at + keep, false)], at + keep)
  }

  lemma PurgeTakesOne(id: string, at: nat, keep: nat)
    ensures PurgedBundle(id, at, keep) == map[id := Bundle(BundleAccepted, at + keep, at + keep, true)]
  {
    var bundles, now := map[id := Bundle(BundleAccepted, at, at + keep, false)], at + keep;
    var view := BundleBodyView(bundles);
    var due := DueKeys(view, now);
    assert id in view && IsDue(view[id], now) && SortKey(at + keep, id) in due;
    assert due == {SortKey(at + keep, id)};
    FirstNSize(due, RETENTION_BATCH);
    WholeBatch(due);
  }

  lemma WholeBatch(due: set<SortKey>)
    requires |due| == 1
    ensures FirstN(due, RETENTION_BATCH) == due
  {
    FirstNSize(due, RETENTION_BATCH);
    RemovedSize(due, FirstN(due, RETENTION_BATCH));
    assert due - FirstN(due, RETENTION_BATCH) == {};
  }

  lemma OldBundleIsDue(cfg: Config, id: string, at: nat, keep: nat, now: int)
    requires at + keep < now - DaysToMs(cfg.acceptedDays)
    ensures |DueBeyondPurge(cfg, PurgedBundle(id, at, keep), now)| == 1
  {
    PurgeTakesOne(id, at, keep);
    var bundles := PurgedBundle(id, at, keep);
    var doomed, due := Doomed(BundleBodyView(bundles), now), DueBeyondPurge(cfg, bundles, now);
    DoomedSize(BundleBodyView(bundles), now);
    assert id in bundles && id !in doomed && IsDue(BundleView(cfg, bundles)[id], now);
    assert SortKey(at + keep, id) in due;
    assert due == {SortKey(at + keep, id)};
  }

  /** The tables at the end of the run, beside `bundles` and empty chat tables. */
  ghost function Backlog(cfg: Config, m: Mail, bundles: map<string, Bundle>): Tables
    requires ValidMail(m)
  {
    Tables(Run(cfg, EMPTY, Lapses(m)).db, bundles, map[], map[], map[])
  }

  /** More than a batch of old notifications beside one old bundle: the count says "no more", and due rows stay. */
  lemma OverflowIsMissed(cfg: Config, m: Mail, id: string, keep: nat, now: int)
    requires ValidConfig(cfg) && ValidMail(m) && |m.names| > RETENTION_BATCH
    requires m.at + 1 + keep < now - DaysToMs(cfg.acceptedDays)
    ensures var s, t := Run(cfg, EMPTY, Lapses(m)), Backlog(cfg, m, PurgedBundle(id, m.at, keep));
            && !MayHaveMore(Round(OutboxCount(cfg, t, now), 0, 0, 0))
            && !OutboxDrained(cfg, OutboxStep(cfg, s, t, now), now)
  {
    var s, t := Run(cfg, EMPTY, Lapses(m)), Backlog(cfg, m, PurgedBundle(id, m.at, keep));
    LapsedAreDue(cfg, m, now);
    InvIsReady(s, cfg, now);
    OldBundleIsDue(cfg, id, m.at, keep, now);
    CombinedCountMisjudges(cfg, s, t, now);
  }

  /** Exactly a batch of old notifications: the count says "more", and nothing is left. */
  lemma FullBatchAsksForMore(cfg: Config, m: Mail, now: int)
    requires ValidConfig(cfg) && ValidMail(m) && |m.names| == RETENTION_BATCH
    requires m.at + 1 < now - DaysToMs(cfg.acceptedDays)
    ensures var s, t := Run(cfg, EMPTY, Lapses(m)), Backlog(cfg, m, map[]);
            && MayHaveMore(Round(OutboxCount(cfg, t, now), 0, 0, 0))
            && OutboxDrained(cfg, OutboxStep(cfg, s, t, now), now)
  {
    var s, t := Run(cfg, EMPTY, Lapses(m)), Backlog(cfg, m, map[]);
    LapsedAreDue(cfg, m, now);
    InvIsReady(s, cfg, now);
    assert DueBeyondPurge(cfg, t.bundles, now) == {};
    CombinedCountMisjudges(cfg, s, t, now);
  }

  // ---------------------------------------------------------------------
  // Mail of any length up to ten thousand
  // ---------------------------------------------------------------------

  const MOST: nat := 10_000

  /** The `i`th of a row of version 4 UUIDs. */
  function Numbered(i: nat): Uuid
    requires i < MOST
  {
    [(i / 256) as byte, (i % 256) as byte, 0, 0, 0, 0, 0x40, 0, 0x80, 0, 0, 0, 0, 0, 0, 0]
  }

  lemma NumberedApart(i: nat, j: nat)
    requires i < MOST && j < MOST && UuidText(Numbered(i)) == UuidText(Numbered(j))
    ensures i == j
  {
    DeviceIdRoundTrip(Numbered(i));
    DeviceIdRoundTrip(Numbered(j));
    assert Numbered(i)[0] == Numbered(j)[0] && Numbered(i)[1] == Numbered(j)[1];
  }

  /** Ids of one character, rows of numbered UUIDs. */
  function Letters(device: Uuid, n: nat, at: nat): Mail
    requires n <= MOST
  {
    Mail(device, seq(n, i requires 0 <= i < n => [(0x100 + i) as char]),
         seq(n, i requires 0 <= i < n => UuidText(Numbered(i))), at)
  }

  lemma LettersAreValid(device: Uuid, n: nat, at: nat)
    requires n <= MOST
    ensures ValidMail(Letters(device, n, at)) && |Letters(device, n, at).names| == n
  {
    var m := Letters(device, n, at);
    forall i, j | 0 <= i < j < n ensures m.names[i] != m.names[j] && m.draws[i] != m.draws[j] {
      assert m.names[i][0] != m.names[j][0];
      if m.draws[i] == m.draws[j] {
        NumberedApart(i, j);
      }
    }
    forall i | 0 <= i < n ensures 1 <= Utf8Len(m.names[i]) <= 128 && |m.draws[i]| == 36 {
      Utf8LenBounds(m.names[i]);
    }
  }

  /** Both misjudgements happen: with 501 notifications up to ten thousand, and with 500. */
  lemma MisjudgedBacklogs(cfg: Config, device: Uuid, n: nat, at: nat, id: string, keep: nat, now: int)
    requires ValidConfig(cfg) && RETENTION_BATCH < n <= MOST && at + 1 + keep < now - DaysToMs(cfg.acceptedDays)
    ensures var m := Letters(device, n, at);
            && ValidMail(m)
            && var s, t := Run(cfg, EMPTY, Lapses(m)), Backlog(cfg, m, PurgedBundle(id, at, keep));
               && !MayHaveMore(Round(OutboxCount(cfg, t, now), 0, 0, 0))
               && !OutboxDrained(cfg, OutboxStep(cfg, s, t, now), now)
    ensures var m := Letters(device, RETENTION_BATCH, at);
            && ValidMail(m)
            && var s, t := Run(cfg, EMPTY, Lapses(m)), Backlog(cfg, m, map[]);
               && MayHaveMore(Round(OutboxCount(cfg, t, now), 0, 0, 0))
               && OutboxDrained(cfg, OutboxStep(cfg, s, t, now), now)
  {
    LettersAreValid(device, n, at);
    LettersAreValid(device, RETENTION_BATCH, at);
    OverflowIsMissed(cfg, Letters(device, n, at), id, keep, now);
    FullBatchAsksForMore(cfg, Letters(device, RETENTION_BATCH, at), now);
  }
}
