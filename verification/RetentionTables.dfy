/**
 The batched deletions of the retention worker: which rows of a table are due, the batch
 one statement takes, and what is left of them afterwards.
 */
module RetentionTables {
  import opened Basics
  import opened ResultPages

  // ---------------------------------------------------------------------
  // Any table a batch is taken from
  // ---------------------------------------------------------------------

  /** What a statement sees of a row: the time it sorts by, and the age it may be taken at, if any. */
  datatype Entry = Entry(at: int, age: Option<int>)

  predicate IsDue(e: Entry, now: int) {
    e.age.Some? && e.at < now - e.age.value
  }

  function DueKeys(view: map<string, Entry>, now: int): set<SortKey> {
    set id | id in view && IsDue(view[id], now) :: SortKey(view[id].at, id)
  }

  /** The ids `WHERE id IN (SELECT ... ORDER BY ... LIMIT 500)` names. */
  function Doomed(view: map<string, Entry>, now: int): set<string> {
    var batch := FirstN(DueKeys(view, now), RETENTION_BATCH);
    set id | id in view && SortKey(view[id].at, id) in batch
  }

  lemma DoomedNamesBatch(view: map<string, Entry>, now: int)
    ensures FirstN(DueKeys(view, now), RETENTION_BATCH) == set id | id in Doomed(view, now) :: SortKey(view[id].at, id)
  {
    var batch, doomed := FirstN(DueKeys(view, now), RETENTION_BATCH), Doomed(view, now);
    forall k | k in batch ensures k.id in doomed && k == SortKey(view[k.id].at, k.id) {
      assert k in DueKeys(view, now);
    }
  }

  /** A batch is full, or takes everything that is due; and it takes nothing else. */
  lemma DoomedSize(view: map<string, Entry>, now: int)
    ensures Doomed(view, now) <= view.Keys
    ensures |Doomed(view, now)| == Min(|DueKeys(view, now)|, RETENTION_BATCH)
    ensures forall id | id in Doomed(view, now) :: IsDue(view[id], now)
  {
    var batch := FirstN(DueKeys(view, now), RETENTION_BATCH);
    FirstNSize(DueKeys(view, now), RETENTION_BATCH);
    DoomedNamesBatch(view, now);
    ImageSize(view, Doomed(view, now), batch, (id, e: Entry) => SortKey(e.at, id));
    forall id | id in Doomed(view, now) ensures IsDue(view[id], now) {
      assert SortKey(view[id].at, id) in DueKeys(view, now);
    }
  }

  lemma DueAfterSweep(view: map<string, Entry>, view': map<string, Entry>, now: int)
    requires view' == view - Doomed(view, now)
    ensures DueKeys(view', now) == DueKeys(view, now) - FirstN(DueKeys(view, now), RETENTION_BATCH)
  {
    var due, batch := DueKeys(view, now), FirstN(DueKeys(view, now), RETENTION_BATCH);
    forall k | k in due && k !in batch ensures k in DueKeys(view', now) {
      assert k.id in view' && IsDue(view'[k.id], now) && k == SortKey(view'[k.id].at, k.id);
    }
    forall k | k in DueKeys(view', now) ensures k in due && k !in batch {
      assert k.id in view' && k.id !in Doomed(view, now);
    }
  }

  lemma RemovedSize<T>(a: set<T>, b: set<T>)
    requires b <= a
    ensures |a - b| == |a| - |b|
  {
    assert a == (a - b) + b;
    assert (a - b) * b == {};
  }

  lemma MapWithout<K, V>(m: map<K, V>, m': map<K, V>, gone: set<K>)
    requires gone <= m.Keys && m'.Keys == m.Keys - gone
    ensures |m'| == |m| - |gone|
  {
    RemovedSize(m.Keys, gone);
    assert |m.Keys| == |m| && |m'.Keys| == |m'|;
  }

  /** The due rows left behind are those past the batch. */
  lemma SweepLeaves(view: map<string, Entry>, view': map<string, Entry>, now: int)
    requires view' == view - Doomed(view, now)
    ensures |DueKeys(view', now)| == Max(0, |DueKeys(view, now)| - RETENTION_BATCH)
  {
    var due := DueKeys(view, now);
    FirstNSize(due, RETENTION_BATCH);
    DueAfterSweep(view, view', now);
    RemovedSize(due, FirstN(due, RETENTION_BATCH));
  }

  /** One statement: it deletes a full batch or all that is due, and says how many. */
  predicate Sweeps(due: nat, size: nat, due': nat, size': nat, deleted: nat) {
    deleted == Min(due, RETENTION_BATCH) && due' == due - deleted && size' == size - deleted
  }

  lemma Swept<V>(t: map<string, V>, t': map<string, V>, view: map<string, Entry>, view': map<string, Entry>, now: int)
    requires view.Keys == t.Keys && t' == t - Doomed(view, now) && view' == view - Doomed(view, now)
    ensures Sweeps(|DueKeys(view, now)|, |t|, |DueKeys(view', now)|, |t'|, |Doomed(view, now)|)
  {
    DoomedSize(view, now);
    SweepLeaves(view, view', now);
    MapWithout(t, t', Doomed(view, now));
  }

  // ---------------------------------------------------------------------
  // A batch, in terms of the rows
  // ---------------------------------------------------------------------

  function DueRows<K, V>(t: map<K, V>, due: (K, V) -> bool): set<K> {
    set k | k in t && due(k, t[k])
  }

  /**
   `gone` are the first of the due rows: only due ones, one batch of them or all, and none that
   stays behind sorts before one that goes. There is only one such set.
   */
  ghost predicate TakesFirst<K, V>(t: map<K, V>, gone: set<K>, sort: (K, V) -> SortKey, due: (K, V) -> bool) {
    && gone <= DueRows(t, due)
    && |gone| == Min(|DueRows(t, due)|, 500)
    && (forall a, b | a in gone && b in DueRows(t, due) && b !in gone :: KeyLess(sort(a, t[a]), sort(b, t[b])))
  }

  lemma {:induction false} ImageSize<K, V>(t: map<K, V>, ks: set<K>, keys: set<SortKey>, sort: (K, V) -> SortKey)
    requires ks <= t.Keys && keys == set k | k in ks :: sort(k, t[k])
    requires forall a, b | a in ks && b in ks && a != b :: sort(a, t[a]) != sort(b, t[b])
    ensures |ks| == |keys|
  {
    if ks == {} {
      assert keys == {};
    } else {
      var k :| k in ks;
      assert keys - {sort(k, t[k])} == set x | x in ks - {k} :: sort(x, t[x]);
      ImageSize(t, ks - {k}, keys - {sort(k, t[k])}, sort);
    }
  }

  lemma BatchTakesFirst<K, V>(t: map<K, V>, gone: set<K>, keys: set<SortKey>, sort: (K, V) -> SortKey,
                              due: (K, V) -> bool)
    requires keys == set k | k in DueRows(t, due) :: sort(k, t[k])
    requires forall a, b | a in t && b in t && a != b :: sort(a, t[a]) != sort(b, t[b])
    requires gone == set k | k in t && sort(k, t[k]) in FirstN(keys, RETENTION_BATCH)
    ensures TakesFirst(t, gone, sort, due)
  {
    var rows, batch := DueRows(t, due), FirstN(keys, RETENTION_BATCH);
    FirstNSize(keys, RETENTION_BATCH);
    forall k | k in gone ensures k in rows {
      var x :| x in rows && sort(x, t[x]) == sort(k, t[k]);
      assert x == k;
    }
    ImageSize(t, rows, keys, sort);
    forall x | x in batch ensures exists k :: k in gone && sort(k, t[k]) == x {
      var k :| k in rows && sort(k, t[k]) == x;
      assert k in gone;
    }
    ImageSize(t, gone, batch, sort);
    forall a, b | a in gone && b in rows && b !in gone ensures KeyLess(sort(a, t[a]), sort(b, t[b])) {
      BatchSortsFirst(keys, RETENTION_BATCH, sort(a, t[a]), sort(b, t[b]));
    }
  }

  /** The batch of a statement on a table keyed by the id it sorts by. */
  lemma DoomedTakesFirst<V>(t: map<string, V>, view: map<string, Entry>, now: int, sort: (string, V) -> SortKey,
                            due: (string, V) -> bool)
    requires view.Keys == t.Keys
    requires forall id | id in t ::
               sort(id, t[id]) == SortKey(view[id].at, id) && (IsDue(view[id], now) <==> due(id, t[id]))
    ensures TakesFirst(t, Doomed(view, now), sort, due)
  {
    assert DueKeys(view, now) == set id | id in DueRows(t, due) :: sort(id, t[id]);
    BatchTakesFirst(t, Doomed(view, now), DueKeys(view, now), sort, due);
  }

  // ---------------------------------------------------------------------
  // Bundles
  // ---------------------------------------------------------------------

  datatype BundleStatus =
    | Queued | Delivering | PartialFailed | BundleAccepted | BundleExpired | TargetChanged | DeliveryUnknown

  datatype Bundle = Bundle(status: BundleStatus, updatedAt: int, bodyRetainUntil: int, purged: bool)

  function BundleAge(cfg: Config, status: BundleStatus): Option<int> {
    match status
    case BundleAccepted => Some(DaysToMs(cfg.acceptedDays))
    case BundleExpired => Some(DaysToMs(cfg.acceptedDays))
    case PartialFailed => Some(DaysToMs(cfg.deadLetterDays))
    case TargetChanged => Some(DaysToMs(cfg.deadLetterDays))
    case DeliveryUnknown => Some(DaysToMs(cfg.deadLetterDays))
    case _ => None
  }

  function BundleView(cfg: Config, t: map<string, Bundle>): map<string, Entry> {
    map id | id in t :: Entry(t[id].updatedAt, BundleAge(cfg, t[id].status))
  }

  /** `column <= now` is "older than minus one millisecond". */
  const PAST: Option<int> := Some(-1)

  function BundleBodyView(t: map<string, Bundle>): map<string, Entry> {
    map id | id in t ::
      Entry(t[id].bodyRetainUntil,
            if t[id].purged || t[id].status.Queued? || t[id].status.Delivering? then None else PAST)
  }

  function PurgeBundles(t: map<string, Bundle>, now: int): map<string, Bundle> {
    var doomed := Doomed(BundleBodyView(t), now);
    map id | id in t :: if id in doomed then t[id].(purged := true, updatedAt := Max(t[id].updatedAt, now)) else t[id]
  }

  lemma BundleBodiesAfterPurge(t: map<string, Bundle>, now: int)
    ensures var view := BundleBodyView(t);
            DueKeys(BundleBodyView(PurgeBundles(t, now)), now)
              == DueKeys(view, now) - FirstN(DueKeys(view, now), RETENTION_BATCH)
  {
    var view, view' := BundleBodyView(t), BundleBodyView(PurgeBundles(t, now));
    var due, batch := DueKeys(view, now), FirstN(DueKeys(view, now), RETENTION_BATCH);
    forall k | k in due && k !in batch ensures k in DueKeys(view', now) {
      assert k.id in view' && k.id !in Doomed(view, now) && view'[k.id] == view[k.id];
    }
    forall k | k in DueKeys(view', now) ensures k in due && k !in batch {
      assert k.id in t && k.id !in Doomed(view, now) && view'[k.id] == view[k.id];
    }
  }

  /** The content purge drops one batch of due bundle bodies and keeps every bundle. */
  lemma BundleBodiesLeft(t: map<string, Bundle>, now: int)
    ensures PurgeBundles(t, now).Keys == t.Keys
    ensures |DueKeys(BundleBodyView(PurgeBundles(t, now)), now)|
              == Max(0, |DueKeys(BundleBodyView(t), now)| - RETENTION_BATCH)
  {
    var due := DueKeys(BundleBodyView(t), now);
    BundleBodiesAfterPurge(t, now);
    FirstNSize(due, RETENTION_BATCH);
    RemovedSize(due, FirstN(due, RETENTION_BATCH));
  }

  /** Contents past their time, of a bundle that is no longer on its way. */
  predicate ContentIsDue(b: Bundle, now: int) {
    && !b.purged && b.bodyRetainUntil <= now
    && b.status in {BundleAccepted, PartialFailed, BundleExpired, TargetChanged, DeliveryUnknown}
  }

  /** The contents of `purged`, the first batch of due ones, are gone, and no other bundle is touched. */
  ghost predicate ContentsPurged(t: map<string, Bundle>, t': map<string, Bundle>, purged: set<string>, now: int) {
    && TakesFirst(t, purged, (id, b: Bundle) => SortKey(b.bodyRetainUntil, id), (id, b) => ContentIsDue(b, now))
    && t'.Keys == t.Keys
    && forall id | id in t ::
         t'[id] == if id in purged then t[id].(purged := true, updatedAt := Max(t[id].updatedAt, now)) else t[id]
  }

  lemma PurgeTakesContents(t: map<string, Bundle>, now: int)
    ensures ContentsPurged(t, PurgeBundles(t, now), Doomed(BundleBodyView(t), now), now)
  {
    DoomedTakesFirst(t, BundleBodyView(t), now, (id, b: Bundle) => SortKey(b.bodyRetainUntil, id),
                     (id, b) => ContentIsDue(b, now));
  }

  /** Finished bundles past the age for their status. */
  predicate BundleIsDue(cfg: Config, b: Bundle, now: int) {
    || (b.status in {BundleAccepted, BundleExpired} && b.updatedAt + cfg.acceptedDays * 86_400_000 < now)
    || (b.status in {PartialFailed, TargetChanged, DeliveryUnknown}
        && b.updatedAt + cfg.deadLetterDays * 86_400_000 < now)
  }

  lemma BundlesTaken(cfg: Config, t: map<string, Bundle>, now: int)
    ensures TakesFirst(t, Doomed(BundleView(cfg, t), now), (id, b: Bundle) => SortKey(b.updatedAt, id),
                       (id, b) => BundleIsDue(cfg, b, now))
  {
    DoomedTakesFirst(t, BundleView(cfg, t), now, (id, b: Bundle) => SortKey(b.updatedAt, id),
                     (id, b) => BundleIsDue(cfg, b, now));
  }

  function DueBundles(cfg: Config, t: map<string, Bundle>, now: int): nat {
    |DueKeys(BundleView(cfg, t), now)|
  }

  /** Bundles old enough to delete that the content purge does not touch first. */
  function DueBeyondPurge(cfg: Config, t: map<string, Bundle>, now: int): set<SortKey> {
    var view, doomed := BundleView(cfg, t), Doomed(BundleBodyView(t), now);
    set id | id in t && id !in doomed && IsDue(view[id], now) :: SortKey(t[id].updatedAt, id)
  }

  /** The content purge makes what it touches as new as the clock, so none of that is deleted after it. */
  lemma DueAfterPurge(cfg: Config, t: map<string, Bundle>, now: int)
    ensures DueKeys(BundleView(cfg, PurgeBundles(t, now)), now) == DueBeyondPurge(cfg, t, now)
  {
    var doomed := Doomed(BundleBodyView(t), now);
    var view, view' := BundleView(cfg, t), BundleView(cfg, PurgeBundles(t, now));
    forall id | id in t ensures IsDue(view'[id], now) <==> id !in doomed && IsDue(view[id], now) {
      assert id in doomed ==> view'[id].at >= now;
    }
    forall k | k in DueBeyondPurge(cfg, t, now) ensures k in DueKeys(view', now) {
      assert k.id in t && view'[k.id] == view[k.id];
    }
    forall k | k in DueKeys(view', now) ensures k in DueBeyondPurge(cfg, t, now) {
      assert k.id in t && view'[k.id] == view[k.id];
    }
  }

  lemma PurgeMakesNoneDue(cfg: Config, t: map<string, Bundle>, now: int)
    ensures DueBundles(cfg, PurgeBundles(t, now), now) <= DueBundles(cfg, t, now)
  {
    var due, due' := DueKeys(BundleView(cfg, t), now), DueBeyondPurge(cfg, t, now);
    DueAfterPurge(cfg, t, now);
    forall k | k in due' ensures k in due {
      assert k.id in BundleView(cfg, t);
    }
    RemovedSize(due, due');
  }

  lemma BundleViewWithout(cfg: Config, t: map<string, Bundle>, gone: set<string>)
    ensures BundleView(cfg, t - gone) == BundleView(cfg, t) - gone
  {
  }

  lemma BundlesSwept(cfg: Config, t: map<string, Bundle>, now: int)
    ensures var gone := Doomed(BundleView(cfg, t), now);
            Sweeps(DueBundles(cfg, t, now), |t|, DueBundles(cfg, t - gone, now), |t - gone|, |gone|)
  {
    var gone := Doomed(BundleView(cfg, t), now);
    BundleViewWithout(cfg, t, gone);
    Swept(t, t - gone, BundleView(cfg, t), BundleView(cfg, t - gone), now);
  }

  lemma PurgeKeepsBundles(t: map<string, Bundle>, now: int)
    ensures |PurgeBundles(t, now)| == |t|
  {
    assert PurgeBundles(t, now).Keys == t.Keys;
    MapWithout(t, PurgeBundles(t, now), {});
  }

  // ---------------------------------------------------------------------
  // Inbound commands, selections and confirmations
  // ---------------------------------------------------------------------

  datatype InboundStatus = Received | Dispatching | WaitingGateway | ReplyQueued | InboundExpired | InboundDeadLetter

  datatype Inbound = Inbound(status: InboundStatus, updatedAt: int)

  function InboundAge(cfg: Config, status: InboundStatus): Option<int> {
    match status
    case ReplyQueued => Some(DaysToMs(cfg.inboundTerminalDays))
    case InboundDeadLetter => Some(DaysToMs(cfg.inboundTerminalDays))
    case InboundExpired => Some(DaysToMs(cfg.inboundExpiredDays))
    case _ => None
  }

  function InboundView(cfg: Config, t: map<string, Inbound>): map<string, Entry> {
    map id | id in t :: Entry(t[id].updatedAt, InboundAge(cfg, t[id].status))
  }

  /** Answered and dead-lettered commands past one age, expired ones past another. */
  predicate InboundIsDue(cfg: Config, x: Inbound, now: int) {
    || (x.status in {ReplyQueued, InboundDeadLetter} && x.updatedAt + cfg.inboundTerminalDays * 86_400_000 < now)
    || (x.status == InboundExpired && x.updatedAt + cfg.inboundExpiredDays * 86_400_000 < now)
  }

  lemma InboundTaken(cfg: Config, t: map<string, Inbound>, now: int)
    ensures TakesFirst(t, Doomed(InboundView(cfg, t), now), (id, x: Inbound) => SortKey(x.updatedAt, id),
                       (id, x) => InboundIsDue(cfg, x, now))
  {
    DoomedTakesFirst(t, InboundView(cfg, t), now, (id, x: Inbound) => SortKey(x.updatedAt, id),
                     (id, x) => InboundIsDue(cfg, x, now));
  }

  function DueInbound(cfg: Config, t: map<string, Inbound>, now: int): nat {
    |DueKeys(InboundView(cfg, t), now)|
  }

  lemma InboundViewWithout(cfg: Config, t: map<string, Inbound>, gone: set<string>)
    ensures InboundView(cfg, t - gone) == InboundView(cfg, t) - gone
  {
  }

  lemma InboundSwept(cfg: Config, t: map<string, Inbound>, now: int)
    ensures var gone := Doomed(InboundView(cfg, t), now);
            Sweeps(DueInbound(cfg, t, now), |t|, DueInbound(cfg, t - gone, now), |t - gone|, |gone|)
  {
    var gone := Doomed(InboundView(cfg, t), now);
    InboundViewWithout(cfg, t, gone);
    Swept(t, t - gone, InboundView(cfg, t), InboundView(cfg, t - gone), now);
  }

  /** Selection contexts by sender, with their expiry. */
  function SelectionView(t: map<string, int>): map<string, Entry> {
    map id | id in t :: Entry(t[id], PAST)
  }

  lemma SelectionsTaken(t: map<string, int>, now: int)
    ensures TakesFirst(t, Doomed(SelectionView(t), now), (id, expiresAt) => SortKey(expiresAt, id),
                       (id, expiresAt) => expiresAt <= now)
  {
    DoomedTakesFirst(t, SelectionView(t), now, (id, expiresAt) => SortKey(expiresAt, id),
                     (id, expiresAt) => expiresAt <= now);
  }

  function DueSelections(t: map<string, int>, now: int): nat {
    |DueKeys(SelectionView(t), now)|
  }

  lemma SelectionViewWithout(t: map<string, int>, gone: set<string>)
    ensures SelectionView(t - gone) == SelectionView(t) - gone
  {
  }

  lemma SelectionsSwept(t: map<string, int>, now: int)
    ensures var gone := Doomed(SelectionView(t), now);
            Sweeps(DueSelections(t, now), |t|, DueSelections(t - gone, now), |t - gone|, |gone|)
  {
    var gone := Doomed(SelectionView(t), now);
    SelectionViewWithout(t, gone);
    Swept(t, t - gone, SelectionView(t), SelectionView(t - gone), now);
  }

  /**
   A confirmation, kept under its sender's fingerprint followed by its id: fingerprints have one
   length, so this sorts as the two columns do. `message` is the inbound command it waits for.
   */
  datatype Confirmation = Confirmation(expiresAt: int, pending: bool, message: Option<string>)

  function ConfirmationView(t: map<string, Confirmation>): map<string, Entry> {
    map id | id in t :: Entry(t[id].expiresAt, if t[id].pending then None else PAST)
  }

  lemma ConfirmationsTaken(t: map<string, Confirmation>, now: int)
    ensures TakesFirst(t, Doomed(ConfirmationView(t), now), (id, c: Confirmation) => SortKey(c.expiresAt, id),
                       (id, c: Confirmation) => c.expiresAt <= now && !c.pending)
  {
    DoomedTakesFirst(t, ConfirmationView(t), now, (id, c: Confirmation) => SortKey(c.expiresAt, id),
                     (id, c: Confirmation) => c.expiresAt <= now && !c.pending);
  }

  /** `ON DELETE CASCADE`: the confirmations of the deleted commands, pending or not. */
  function Cascaded(t: map<string, Confirmation>, gone: set<string>): map<string, Confirmation> {
    map id | id in t && !(t[id].message.Some? && t[id].message.value in gone) :: t[id]
  }

  /** What is left refers to no deleted command, and what went referred to one. */
  predicate NoOrphans(before: map<string, Confirmation>, after: map<string, Confirmation>, gone: set<string>) {
    && (forall id | id in after :: id in before && after[id] == before[id]
                                   && (after[id].message.Some? ==> after[id].message.value !in gone))
    && (forall id | id in before && id !in after :: before[id].message.Some? && before[id].message.value in gone)
  }

  lemma CascadeLeavesNoOrphans(t: map<string, Confirmation>, gone: set<string>)
    ensures NoOrphans(t, Cascaded(t, gone), gone)
  {
  }

  /** A confirmation that waits for its dispatch is never taken by its age. */
  lemma PendingIsNeverDoomed(t: map<string, Confirmation>, now: int, id: string)
    requires id in t && t[id].pending
    ensures id !in Doomed(ConfirmationView(t), now)
  {
    DoomedSize(ConfirmationView(t), now);
  }

  lemma CascadeShrinks(t: map<string, Confirmation>, gone: set<string>)
    ensures |Cascaded(t, gone)| <= |t|
  {
    SubsetSize(Cascaded(t, gone).Keys, t.Keys);
    assert |Cascaded(t, gone).Keys| == |Cascaded(t, gone)| && |t.Keys| == |t|;
  }

  function DueConfirmations(t: map<string, Confirmation>, now: int): nat {
    |DueKeys(ConfirmationView(t), now)|
  }

  lemma ConfirmationViewWithout(t: map<string, Confirmation>, gone: set<string>)
    ensures ConfirmationView(t - gone) == ConfirmationView(t) - gone
  {
  }

  lemma ConfirmationsSwept(t: map<string, Confirmation>, now: int)
    ensures var gone := Doomed(ConfirmationView(t), now);
            Sweeps(DueConfirmations(t, now), |t|, DueConfirmations(t - gone, now), |t - gone|, |gone|)
  {
    var gone := Doomed(ConfirmationView(t), now);
    ConfirmationViewWithout(t, gone);
    Swept(t, t - gone, ConfirmationView(t), ConfirmationView(t - gone), now);
  }
}
