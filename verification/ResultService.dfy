/**
 The service methods that change result pages step by step. Between its replay lookup and
 its write transaction, and between attempts, a publication lets any other transactions
 run: what they leave behind is an argument, constrained only to be reachable.
 */
module ResultService {
  import opened Basics
  import opened Delivery
  import opened ResultPages
  import opened ResultRuns
  import opened ResultAnswers
  import opened ResultRetention
  import opened ResultRevocation

  // ---------------------------------------------------------------------
  // The replay lookup
  // ---------------------------------------------------------------------

  /** The row of a device that holds exactly this publication. */
  predicate Holds(db: Db, r: string, device: Uuid, p: Publication) {
    r in db.results && db.results[r].device == device && db.results[r].digest == RequestDigest(p)
  }

  /** A row of the device under one of the publication's keys that holds something else. */
  predicate Disputes(db: Db, r: string, device: Uuid, p: Publication) {
    && r in db.results && db.results[r].device == device && db.results[r].digest != RequestDigest(p)
    && (db.results[r].resultId == p.resultId || db.results[r].dedupeKey == p.dedupeKey)
  }

  lemma HolderIsTheOnlyMatch(s: Sys, r: string, device: Uuid, p: Publication)
    requires Inv(s) && Holds(s.db, r, device, p)
    ensures RowsMatching(s.db, device, p.resultId, p.dedupeKey) == {r}
  {
    assert RowInv(s, r);
  }

  lemma SingletonPick(rows: set<string>, r: string)
    requires r in rows && |rows| == 1
    ensures rows == {r} && Pick(rows) == r
  {
    assert rows == {Pick(rows)};
  }

  /** What holds of every row of a device that holds a publication: it is the only match. */
  ghost predicate HoldersAreAlone(db: Db, device: Uuid, p: Publication) {
    forall r | Holds(db, r, device, p) :: RowsMatching(db, device, p.resultId, p.dedupeKey) == {r}
  }

  lemma ReachableHoldersAreAlone(s: Sys, device: Uuid, p: Publication)
    requires Inv(s)
    ensures HoldersAreAlone(s.db, device, p)
  {
    forall r | Holds(s.db, r, device, p) ensures RowsMatching(s.db, device, p.resultId, p.dedupeKey) == {r} {
      HolderIsTheOnlyMatch(s, r, device, p);
    }
  }

  /** The lookup answers a replay with its row, a differing request with a conflict, and nothing else. */
  lemma ExistingMeans(db: Db, device: Uuid, p: Publication, now: int)
    requires HoldersAreAlone(db, device, p)
    ensures Existing(db, device, p, now) == Ok(None) <==> NamesFree(db, device, p)
    ensures forall r | Holds(db, r, device, p) :: Existing(db, device, p, now) == Ok(Some(ReceiptOf(db, r, now)))
    ensures Existing(db, device, p, now) == Err(Conflict) <==> exists r :: Disputes(db, r, device, p)
  {
    var rows := RowsMatching(db, device, p.resultId, p.dedupeKey);
    NoMatchMeansFree(db, device, p);
    if rows != {} {
      var r := Pick(rows);
      if db.results[r].digest == RequestDigest(p) {
        assert Holds(db, r, device, p);
      } else {
        assert Disputes(db, r, device, p);
      }
      forall x | Disputes(db, x, device, p) ensures Existing(db, device, p, now) == Err(Conflict) {
        assert x in rows;
      }
    }
  }

  /** Two results that hold the same publication of a device, at any two moments of a run, are one result. */
  lemma ReplayIsTheSameResult(s: Sys, s': Sys, r: string, r': string, device: Uuid, p: Publication)
    requires Inv(s) && Inv(s') && Grows(s, s')
    requires Holds(s.db, r, device, p) && Holds(s'.db, r', device, p)
    ensures r == r' && SameIdentity(s.db.results[r], s'.db.results[r'])
  {
    assert RowGrows(s, s', r);
    HolderIsTheOnlyMatch(s', r, device, p);
    HolderIsTheOnlyMatch(s', r', device, p);
  }

  /** The receipt a first publication returns is the one a replay would read back. */
  lemma PublishedReceiptReadsBack(cfg: Config, s: Sys, s': Sys, e: Publishing)
    requires Publishes(cfg, s, s', e)
    ensures ReceiptOf(s'.db, e.ids.row, e.now) == PublishedReceipt(e.p, e.now, e.expires, e.ids)
    ensures Holds(s'.db, e.ids.row, e.device, e.p)
  {
  }

  /** A receipt read off the row that holds the publication. */
  ghost predicate Answered(db: Db, device: Uuid, p: Publication, receipt: Receipt) {
    exists r, now :: Holds(db, r, device, p) && receipt == ReceiptOf(db, r, now)
  }

  lemma ReplayIsAnswered(s: Sys, device: Uuid, p: Publication, now: int)
    requires Existing(s.db, device, p, now).Ok? && Existing(s.db, device, p, now).value.Some?
    ensures Answered(s.db, device, p, Existing(s.db, device, p, now).value.value)
  {
    var r := Pick(RowsMatching(s.db, device, p.resultId, p.dedupeKey));
    assert Holds(s.db, r, device, p) && Existing(s.db, device, p, now).value.value == ReceiptOf(s.db, r, now);
  }

  /** A key that is taken stays taken: no step deletes a result or renames one. */
  lemma TakenStaysTaken(s: Sys, s': Sys, device: Uuid, p: Publication)
    requires Grows(s, s') && !NamesFree(s.db, device, p)
    ensures !NamesFree(s'.db, device, p)
  {
    var r :| r in s.db.results && s.db.results[r].device == device
             && (s.db.results[r].resultId == p.resultId || s.db.results[r].dedupeKey == p.dedupeKey);
    assert RowGrows(s, s', r);
  }

  // ---------------------------------------------------------------------
  // Publishing with interference
  // ---------------------------------------------------------------------

  /** Any other transactions, in any order. */
  ghost predicate Reaches(cfg: Config, s: Sys, s': Sys) {
    exists ops :: s' == Run(cfg, s, ops)
  }

  lemma ReachedIsGood(cfg: Config, s: Sys, s': Sys)
    requires Inv(s) && ValidConfig(cfg) && Reaches(cfg, s, s')
    ensures Inv(s') && Grows(s, s')
  {
    var ops :| s' == Run(cfg, s, ops);
    RunInv(cfg, s, ops);
  }

  lemma ReachesTransitive(cfg: Config, s: Sys, s1: Sys, s2: Sys)
    requires Reaches(cfg, s, s1) && Reaches(cfg, s1, s2)
    ensures Reaches(cfg, s, s2)
  {
    var a :| s1 == Run(cfg, s, a);
    var b :| s2 == Run(cfg, s1, b);
    RunTwice(cfg, s, a, b);
  }

  lemma ReachesItself(cfg: Config, s: Sys)
    ensures Reaches(cfg, s, s)
  {
    assert s == Run(cfg, s, []);
  }

  lemma ReachesByOne(cfg: Config, s: Sys, op: Op)
    ensures Reaches(cfg, s, Apply(cfg, s, op))
  {
    assert Run(cfg, s, [op]) == Run(cfg, Apply(cfg, s, op), [op][1..]);
  }

  lemma TakenAtRecheck(cfg: Config, s: Sys, s': Sys, device: Uuid, p: Publication)
    requires Inv(s) && ValidConfig(cfg) && Reaches(cfg, s, s')
    requires RowsMatching(s.db, device, p.resultId, p.dedupeKey) != {}
    ensures !NamesFree(s'.db, device, p)
  {
    NoMatchMeansFree(s.db, device, p);
    ReachedIsGood(cfg, s, s');
    TakenStaysTaken(s, s', device, p);
  }

  /**
   What one attempt meets: the tables at each of its three reads, its clock readings and its
   failures. A lost commit took effect, but its answer is an error.
   */
  datatype Attempts = Attempts(
    atLookup: Sys, lookupFails: bool, lookupNow: nat,
    atWrite: Sys, writeFails: bool, now: nat, ids: Ids, commitLost: bool,
    atRecheck: Sys, recheckFails: bool, recheckNow: nat)

  /** The request passes the checks before its lookup. */
  predicate Checked(cfg: Config, q: Request) {
    ValidPublication(q.p, MAX_RESULT_BODY_BYTES) && cfg.hasCipher
  }

  /**
   What an attempt that looks up must answer: a publication found there is answered with its
   receipt, one that disputes it is a conflict, and only a lookup that found neither goes on.
   */
  ghost predicate AnswersLookup(q: Request, e: Attempts, r: Result<Receipt, ResultError>) {
    && (forall x | Holds(e.atLookup.db, x, q.device, q.p) :: r == Ok(ReceiptOf(e.atLookup.db, x, e.lookupNow)))
    && ((exists x :: Disputes(e.atLookup.db, x, q.device, q.p)) ==> r == Err(Conflict))
  }

  /** The answer of a lookup that found something, as the answer of the attempt. */
  function FoundAnswer(found: Result<Option<Receipt>, ResultError>): Result<Receipt, ResultError>
    requires found != Ok(None)
  {
    if found.Err? then Err(found.error) else Ok(found.value.value)
  }

  /** The answer of the second lookup, after an insert that met a taken key. */
  ghost predicate RecheckAnswers(q: Request, e: Attempts, r: Result<Receipt, ResultError>) {
    if e.recheckFails then r == Err(Database)
    else
      && (forall x | Holds(e.atRecheck.db, x, q.device, q.p) :: r == Ok(ReceiptOf(e.atRecheck.db, x, e.recheckNow)))
      && ((exists x :: Disputes(e.atRecheck.db, x, q.device, q.p)) ==> r == Err(Conflict))
  }

  /** The answer of the write transaction, from the tables it sees: room first, then the names, then the rest. */
  ghost predicate WriteAnswers(cfg: Config, q: Request, e: Attempts, r: Result<Receipt, ResultError>) {
    var db := e.atWrite.db;
    if e.writeFails then r == Err(Database)
    else if !WithinBudget(cfg, db, q.p) then r == Err(Capacity)
    else if !NamesFree(db, q.device, q.p) then RecheckAnswers(q, e, r)
    else if q.target.None? || !CanBeNotified(db, q.device, q.p, q.target.value) || e.commitLost then r == Err(Database)
    else r == Ok(Receipt(q.p.resultId, q.p.sourceHash, e.now, e.now, PageAvailable,
                         e.now + cfg.shareTtlDays * 86_400_000, e.ids.notice, PendingChannel))
  }

  /** The answer of an attempt whose lookup found both keys free. */
  ghost predicate InsertAnswers(cfg: Config, q: Request, e: Attempts, r: Result<Receipt, ResultError>) {
    var expires := e.now + cfg.shareTtlDays * 86_400_000;
    if !(cfg.enabled && cfg.hasCipher && cfg.publicOrigin.Some?) then r == Err(Unavailable)
    else if !ValidPublication(q.p, cfg.maxBodyBytes) then r == Err(Validation)
    else if q.target.None? then r == Err(TargetUnavailable)
    else if expires > I64_MAX then r == Err(Clock)
    else if !(e.now < q.p.notificationExpiresAt <= expires) then r == Err(Validation)
    else WriteAnswers(cfg, q, e, r)
  }

  lemma PreparedAnswers(cfg: Config, q: Request, e: Attempts, r: Result<Receipt, ResultError>)
    requires ValidConfig(cfg)
    requires var expires := Prepare(cfg, q.p, q.target, e.now);
             if expires.Err? then r == Err(expires.error) else WriteAnswers(cfg, q, e, r)
    ensures InsertAnswers(cfg, q, e, r)
  {
    PrepareMeans(cfg, q.p, q.target, e.now);
  }

  /** What the write transaction of an attempt comes to. */
  ghost function OutcomeOf(cfg: Config, q: Request, e: Attempts): PublishOutcome
    requires Prepare(cfg, q.p, q.target, e.now).Ok?
  {
    var prepared := Prepare(cfg, q.p, q.target, e.now).value;
    PublishTx(e.atWrite.db, cfg, q.device, q.p, q.target.value, e.now, prepared, e.ids).1
  }

  lemma OutcomeAnswers(cfg: Config, q: Request, e: Attempts, r: Result<Receipt, ResultError>)
    requires ValidConfig(cfg) && FreshIds(e.atWrite, q.device, e.ids) && Prepare(cfg, q.p, q.target, e.now).Ok?
    requires !e.writeFails
    ensures OutcomeOf(cfg, q, e) == Duplicate && RecheckAnswers(q, e, r) ==> WriteAnswers(cfg, q, e, r)
    ensures OutcomeOf(cfg, q, e).Rejected? && r == Err(OutcomeOf(cfg, q, e).error) ==> WriteAnswers(cfg, q, e, r)
    ensures OutcomeOf(cfg, q, e) == Published
            && r == (if e.commitLost then Err(Database)
                     else Ok(PublishedReceipt(q.p, e.now, Prepare(cfg, q.p, q.target, e.now).value, e.ids))) ==>
              WriteAnswers(cfg, q, e, r)
  {
    PrepareMeans(cfg, q.p, q.target, e.now);
    InsertDecides(cfg, e.atWrite, q.device, q.p, q.target.value, e.now, e.ids);
  }

  /** A failed lookup is a database error; any other decides what is known, and the tables what is new. */
  ghost predicate AttemptAnswers(cfg: Config, q: Request, e: Attempts, r: Result<Receipt, ResultError>) {
    if e.lookupFails then r == Err(Database)
    else AnswersLookup(q, e, r) && (NamesFree(e.atLookup.db, q.device, q.p) ==> InsertAnswers(cfg, q, e, r))
  }

  /** One call of `publish`. */
  datatype Request = Request(device: Uuid, p: Publication, target: Option<string>)

  ghost function Committed(cfg: Config, q: Request, e: Attempts): Sys {
    PublishStep(cfg, e.atWrite, q.device, q.p, q.target, e.now, e.ids)
  }

  ghost predicate Possible(cfg: Config, s: Sys, q: Request, e: Attempts) {
    && Reaches(cfg, s, e.atLookup) && Reaches(cfg, e.atLookup, e.atWrite)
    && Reaches(cfg, if e.commitLost then Committed(cfg, q, e) else e.atWrite, e.atRecheck)
  }

  /** Where an attempt that failed has left the tables: at one of its reads, or with a commit it does not know of. */
  ghost predicate LeftAt(cfg: Config, q: Request, e: Attempts, s: Sys) {
    s in {e.atLookup, e.atWrite, e.atRecheck} || (e.commitLost && s == Committed(cfg, q, e))
  }

  lemma FoundAnswers(q: Request, e: Attempts, found: Result<Option<Receipt>, ResultError>)
    requires found != Ok(None)
    requires forall x | Holds(e.atLookup.db, x, q.device, q.p) ::
               found == Ok(Some(ReceiptOf(e.atLookup.db, x, e.lookupNow)))
    requires (exists x :: Disputes(e.atLookup.db, x, q.device, q.p)) ==> found == Err(Conflict)
    ensures AnswersLookup(q, e, FoundAnswer(found))
  {
  }

  /** A lookup that answers found a key taken. */
  lemma FoundIsTaken(q: Request, e: Attempts, found: Result<Option<Receipt>, ResultError>)
    requires HoldersAreAlone(e.atLookup.db, q.device, q.p) && found != Ok(None)
    requires found == Existing(e.atLookup.db, q.device, q.p, e.lookupNow)
    ensures !NamesFree(e.atLookup.db, q.device, q.p)
  {
    ExistingMeans(e.atLookup.db, q.device, q.p, e.lookupNow);
  }

  lemma FreeAnswersAny(q: Request, e: Attempts, r: Result<Receipt, ResultError>)
    requires NamesFree(e.atLookup.db, q.device, q.p)
    requires forall x | Holds(e.atLookup.db, x, q.device, q.p) ::
               RowsMatching(e.atLookup.db, q.device, q.p.resultId, q.p.dedupeKey) == {x}
    ensures AnswersLookup(q, e, r)
  {
    NoMatchMeansFree(e.atLookup.db, q.device, q.p);
  }

  /** A publication that was there when the call began is there at each of its lookups, and so is a dispute. */
  lemma StillThere(cfg: Config, s: Sys, s': Sys, x: string, q: Request)
    requires Inv(s) && ValidConfig(cfg) && Reaches(cfg, s, s')
    ensures Holds(s.db, x, q.device, q.p) ==> Holds(s'.db, x, q.device, q.p)
    ensures Disputes(s.db, x, q.device, q.p) ==> Disputes(s'.db, x, q.device, q.p)
  {
    ReachedIsGood(cfg, s, s');
    assert x in s.db.results ==> RowGrows(s, s', x);
  }

  lemma WriteReachesRecheck(cfg: Config, s: Sys, q: Request, e: Attempts)
    requires Possible(cfg, s, q, e)
    ensures Reaches(cfg, e.atWrite, e.atRecheck)
  {
    if e.commitLost {
      ReachesByOne(cfg, e.atWrite, DoPublish(q.device, q.p, q.target, e.now, e.ids));
      ReachesTransitive(cfg, e.atWrite, Committed(cfg, q, e), e.atRecheck);
    }
  }

  /** Whatever follows a commit, lost or not, the row it made holds the publication, and the replay lookup finds it. */
  lemma CommitIsFound(cfg: Config, s: Sys, s': Sys, e: Publishing, later: Sys, now: int)
    requires Inv(s) && ValidConfig(cfg) && Publishes(cfg, s, s', e) && Inv(s') && Reaches(cfg, s', later)
    ensures Holds(later.db, e.ids.row, e.device, e.p)
    ensures Existing(later.db, e.device, e.p, now) == Ok(Some(ReceiptOf(later.db, e.ids.row, now)))
  {
    PublishedReceiptReadsBack(cfg, s, s', e);
    ReachedIsGood(cfg, s', later);
    assert RowGrows(s', later, e.ids.row);
    ReachableHoldersAreAlone(later, e.device, e.p);
    ExistingMeans(later.db, e.device, e.p, now);
  }

  lemma CommitIsStep(cfg: Config, s: Sys, device: Uuid, p: Publication, target: Option<string>, now: nat, ids: Ids)
    requires ValidConfig(cfg) && FreshIds(s, device, ids)
    requires ValidPublication(p, MAX_RESULT_BODY_BYTES) && Prepare(cfg, p, target, now).Ok?
    requires PublishTx(s.db, cfg, device, p, target.value, now, Prepare(cfg, p, target, now).value, ids).1 == Published
    ensures var expires := Prepare(cfg, p, target, now).value;
            var next := PublishTx(s.db, cfg, device, p, target.value, now, expires, ids).0;
            var s' := Sys(next, s.swept, s.minted[ids.notice := ids.row], s.posted + {ids.notice});
            && s' == PublishStep(cfg, s, device, p, target, now, ids)
            && Reaches(cfg, s, s') && Answered(next, device, p, PublishedReceipt(p, now, expires, ids))
  {
    var s' := PublishStep(cfg, s, device, p, target, now, ids);
    ReachesByOne(cfg, s, DoPublish(device, p, target, now, ids));
    PublishEffect(cfg, s, device, p, target, now, ids);
    assert ids.row in s'.db.results && ids.row !in s.db.results;
    PublishedReceiptReadsBack(cfg, s, s', Attempt(cfg, device, p, target.value, now, ids));
  }

  /** The resend step, spelled out for the one row its name finds. */
  lemma ResendIsStep(cfg: Config, s: Sys, device: Uuid, resultId: string, row: string, requestId: string, now: int,
                     notice: string, outbox: string)
    requires RowsNamed(s.db, device, resultId) == {row} && ValidRequestId(requestId)
    requires FreshNotice(s, device, notice, outbox)
    ensures row in s.db.results
    ensures ResendTx(s.db, cfg, device, resultId, requestId, now, notice, outbox)
              == ResendRow(s.db, cfg, row, requestId, now, notice, outbox)
    ensures var (next, outcome) := ResendRow(s.db, cfg, row, requestId, now, notice, outbox);
            ResendStep(cfg, s, device, resultId, requestId, now, notice, outbox)
              == if outcome == Resent then
                   Sys(next, s.swept, s.minted[notice := row],
                       if NoticeKey(DeviceOrigin(device), notice) in next.outbox then s.posted + {notice} else s.posted)
                 else s
  {
    assert row in RowsNamed(s.db, device, resultId);
    SingletonPick(RowsNamed(s.db, device, resultId), row);
  }

  /** Four attempts in a row, each met by whatever the others left behind. */
  ghost predicate Schedule(cfg: Config, s: Sys, q: Request, env: seq<Attempts>) {
    && |env| == 4 && Possible(cfg, s, q, env[0])
    && (forall i | 0 < i < 4 :: Possible(cfg, env[i - 1].atRecheck, q, env[i]))
    && (forall i | 0 <= i < 4 :: FreshIds(env[i].atWrite, q.device, env[i].ids))
  }

  /** From wherever a failed attempt has left the tables, the next one's are reached. */
  lemma AttemptEnds(cfg: Config, s: Sys, q: Request, e: Attempts, s': Sys)
    requires Possible(cfg, s, q, e) && (s' == s || LeftAt(cfg, q, e, s'))
    ensures Reaches(cfg, s', e.atRecheck)
  {
    WriteReachesRecheck(cfg, s, q, e);
    ReachesItself(cfg, e.atRecheck);
    ReachesTransitive(cfg, e.atLookup, e.atWrite, e.atRecheck);
    ReachesTransitive(cfg, s, e.atLookup, e.atRecheck);
  }

  /** The tables are as the call found them or as one of its failed attempts left them. */
  ghost predicate LeftByAttempts(cfg: Config, s: Sys, q: Request, env: seq<Attempts>, s': Sys) {
    s' == s || exists i: nat :: i < |env| && LeftAt(cfg, q, env[i], s')
  }

  lemma LeftByOneMore(cfg: Config, s: Sys, q: Request, env: seq<Attempts>, before: Sys, i: nat, after: Sys)
    requires LeftByAttempts(cfg, s, q, env, before) && i < |env| && (after == before || LeftAt(cfg, q, env[i], after))
    ensures LeftByAttempts(cfg, s, q, env, after)
  {
  }

  lemma Continue(cfg: Config, s: Sys, now: Sys, q: Request, env: seq<Attempts>, i: nat)
    requires Schedule(cfg, s, q, env) && i < 4
    requires if i == 0 then now == s else Reaches(cfg, now, env[i - 1].atRecheck)
    ensures Possible(cfg, now, q, env[i])
  {
    if i > 0 {
      assert Possible(cfg, env[i - 1].atRecheck, q, env[i]);
      ReachesTransitive(cfg, now, env[i - 1].atRecheck, env[i].atLookup);
    }
  }

  /** Every attempt of a call answers for its own lookup; all but the last with the error that had it retried. */
  ghost predicate EachAnswers(cfg: Config, q: Request, env: seq<Attempts>, tries: nat, r: Result<Receipt, ResultError>)
    requires 1 <= tries <= |env|
  {
    && (forall i | 0 <= i < tries - 1 :: AttemptAnswers(cfg, q, env[i], Err(Database)))
    && AttemptAnswers(cfg, q, env[tries - 1], r)
  }

  /**
   How a call answers for a result that was there when it began: it retries while its lookups fail,
   and the first that does not fail answers the replay or refuses the differing request.
   */
  ghost predicate AnswersStart(s: Sys, q: Request, env: seq<Attempts>, tries: nat, r: Result<Receipt, ResultError>,
                               x: string)
    requires 1 <= tries <= |env| && x in s.db.results
  {
    var e := env[tries - 1];
    && (forall i | 0 <= i < tries - 1 :: env[i].lookupFails)
    && (e.lookupFails ==> r == Err(Database))
    && (!e.lookupFails && Holds(s.db, x, q.device, q.p) ==>
          x in e.atLookup.db.results && r == Ok(ReceiptOf(e.atLookup.db, x, e.lookupNow)))
    && (!e.lookupFails && Disputes(s.db, x, q.device, q.p) ==> r == Err(Conflict))
  }

  lemma {:induction false} ReachesLookup(cfg: Config, s: Sys, q: Request, env: seq<Attempts>, i: nat)
    requires Schedule(cfg, s, q, env) && i < 4
    ensures Reaches(cfg, s, env[i].atLookup)
  {
    if i > 0 {
      ReachesLookup(cfg, s, q, env, i - 1);
      var before := if i == 1 then s else env[i - 2].atRecheck;
      assert Possible(cfg, before, q, env[i - 1]) && Possible(cfg, env[i - 1].atRecheck, q, env[i]);
      WriteReachesRecheck(cfg, before, q, env[i - 1]);
      ReachesTransitive(cfg, s, env[i - 1].atLookup, env[i - 1].atWrite);
      ReachesTransitive(cfg, s, env[i - 1].atWrite, env[i - 1].atRecheck);
      ReachesTransitive(cfg, s, env[i - 1].atRecheck, env[i].atLookup);
    }
  }

  lemma AttemptAnswersFor(cfg: Config, q: Request, e: Attempts, r: Result<Receipt, ResultError>, x: string)
    requires AttemptAnswers(cfg, q, e, r)
    requires Holds(e.atLookup.db, x, q.device, q.p) || Disputes(e.atLookup.db, x, q.device, q.p)
    ensures e.lookupFails <==> r == Err(Database)
    ensures !e.lookupFails && Holds(e.atLookup.db, x, q.device, q.p) ==>
              r == Ok(ReceiptOf(e.atLookup.db, x, e.lookupNow))
    ensures !e.lookupFails && Disputes(e.atLookup.db, x, q.device, q.p) ==> r == Err(Conflict)
  {
  }

  lemma AnswersForStart(cfg: Config, s: Sys, q: Request, env: seq<Attempts>, tries: nat,
                        r: Result<Receipt, ResultError>, x: string)
    requires 1 <= tries <= |env| && EachAnswers(cfg, q, env, tries, r)
    requires Holds(s.db, x, q.device, q.p) || Disputes(s.db, x, q.device, q.p)
    requires forall i: nat | i < tries ::
               && (Holds(s.db, x, q.device, q.p) ==> Holds(env[i].atLookup.db, x, q.device, q.p))
               && (Disputes(s.db, x, q.device, q.p) ==> Disputes(env[i].atLookup.db, x, q.device, q.p))
    ensures AnswersStart(s, q, env, tries, r, x)
  {
    forall i: nat | i < tries - 1 ensures env[i].lookupFails {
      AttemptAnswersFor(cfg, q, env[i], Err(Database), x);
    }
    AttemptAnswersFor(cfg, q, env[tries - 1], r, x);
  }

  /** What each attempt answers for its own lookup settles what the call answers for its start. */
  lemma StartIsAnswered(cfg: Config, s: Sys, q: Request, env: seq<Attempts>, tries: nat,
                        r: Result<Receipt, ResultError>, x: string)
    requires Inv(s) && ValidConfig(cfg) && Schedule(cfg, s, q, env)
    requires 1 <= tries <= 4 && EachAnswers(cfg, q, env, tries, r)
    requires Holds(s.db, x, q.device, q.p) || Disputes(s.db, x, q.device, q.p)
    ensures AnswersStart(s, q, env, tries, r, x)
  {
    forall i: nat | i < tries ensures
        (Holds(s.db, x, q.device, q.p) ==> Holds(env[i].atLookup.db, x, q.device, q.p))
        && (Disputes(s.db, x, q.device, q.p) ==> Disputes(env[i].atLookup.db, x, q.device, q.p))
    {
      ReachesLookup(cfg, s, q, env, i);
      StillThere(cfg, s, env[i].atLookup, x, q);
    }
    AnswersForStart(cfg, s, q, env, tries, r, x);
  }

  /** Every row that held or disputed the publication when a call began has its answer. */
  ghost predicate StartAnswered(s: Sys, q: Request, env: seq<Attempts>, tries: nat, r: Result<Receipt, ResultError>)
    requires 1 <= tries <= |env|
  {
    forall x | Holds(s.db, x, q.device, q.p) || Disputes(s.db, x, q.device, q.p) :: AnswersStart(s, q, env, tries, r, x)
  }

  lemma EveryStartIsAnswered(cfg: Config, s: Sys, q: Request, env: seq<Attempts>, tries: nat,
                             r: Result<Receipt, ResultError>)
    requires Inv(s) && ValidConfig(cfg) && Schedule(cfg, s, q, env)
    requires 1 <= tries <= 4 && EachAnswers(cfg, q, env, tries, r)
    ensures StartAnswered(s, q, env, tries, r)
  {
    forall x | Holds(s.db, x, q.device, q.p) || Disputes(s.db, x, q.device, q.p)
      ensures AnswersStart(s, q, env, tries, r, x)
    {
      StartIsAnswered(cfg, s, q, env, tries, r, x);
    }
  }

  lemma ResendKeepsName(db: Db, cfg: Config, device: Uuid, resultId: string, row: string, requestId: string, now: int,
                        notice: string, outbox: string)
    requires RowsNamed(db, device, resultId) == {row}
    ensures RowsNamed(ResendRow(db, cfg, row, requestId, now, notice, outbox).0, device, resultId) == {row}
  {
    assert row in RowsNamed(db, device, resultId);
    forall x | x in db.results && x != row
      ensures !(db.results[x].device == device && db.results[x].resultId == resultId)
    {
      assert x !in RowsNamed(db, device, resultId);
    }
  }

  class ResultService {
    const cfg: Config
    var db: Db
    ghost var swept: int
    ghost var minted: map<string, string>
    ghost var posted: set<string>

    constructor (cfg: Config)
      requires ValidConfig(cfg)
      ensures this.cfg == cfg && View() == EMPTY && Inv(View())
    {
      this.cfg := cfg;
      db := EMPTY.db;
      swept, minted, posted := 0, map[], {};
      new;
      EmptyInv();
    }

    ghost function View(): Sys
      reads this
    {
      Sys(db, swept, minted, posted)
    }

    /** Other transactions run. */
    method Interfere(next: Sys)
      requires ValidConfig(cfg) && Inv(View()) && Reaches(cfg, View(), next)
      modifies this
      ensures View() == next && Inv(View()) && Grows(old(View()), View())
    {
      ReachedIsGood(cfg, View(), next);
      db := next.db;
      swept, minted, posted := next.swept, next.minted, next.posted;
    }

    /** `SELECT SUM(body_bytes) ... WHERE body_purged_at IS NULL`, row by row. */
    method SumRetained(rows: map<string, ResultRow>) returns (sum: nat)
      ensures sum == Retained(rows)
    {
      sum := 0;
      var rest := rows;
      while rest != map[]
        invariant sum + Retained(rest) == Retained(rows)
        decreases rest.Keys
      {
        var r :| r in rest;
        RetainedWithout(rest, r);
        sum := sum + RetainedBy(rest[r]);
        rest := rest - {r};
      }
    }

    method Lookup(device: Uuid, p: Publication, now: int) returns (found: Result<Option<Receipt>, ResultError>)
      ensures found == Existing(db, device, p, now)
    {
      var rows := RowsMatching(db, device, p.resultId, p.dedupeKey);
      if rows == {} {
        return Ok(None);
      }
      var r :| r in rows;
      if |rows| != 1 {
        return Err(Conflict);
      }
      SingletonPick(rows, r);
      if db.results[r].digest != RequestDigest(p) {
        return Err(Conflict);
      }
      return Ok(Some(ReceiptOf(db, r, now)));
    }

    /** The commit of the insert, with the history it makes. */
    method Commit(next: Db, ids: Ids, device: Uuid, p: Publication, target: Option<string>, now: nat)
      requires ValidConfig(cfg) && Inv(View()) && FreshIds(View(), device, ids)
      requires ValidPublication(p, MAX_RESULT_BODY_BYTES) && Prepare(cfg, p, target, now).Ok?
      requires PublishTx(db, cfg, device, p, target.value, now, Prepare(cfg, p, target, now).value, ids)
                 == (next, Published)
      modifies this
      ensures View() == PublishStep(cfg, old(View()), device, p, target, now, ids)
      ensures Reaches(cfg, old(View()), View())
      ensures Answered(db, device, p, PublishedReceipt(p, now, Prepare(cfg, p, target, now).value, ids))
    {
      CommitIsStep(cfg, View(), device, p, target, now, ids);
      db := next;
      minted, posted := minted[ids.notice := ids.row], posted + {ids.notice};
    }

    /** The replay lookup on the tables as they are at its read. */
    method Replay(device: Uuid, p: Publication, next: Sys, fails: bool, now: nat)
      returns (found: Result<Option<Receipt>, ResultError>)
      requires ValidConfig(cfg) && Inv(View()) && Reaches(cfg, View(), next)
      modifies this
      ensures View() == next && Inv(next)
      ensures found.Ok? && found.value.Some? ==> Answered(db, device, p, found.value.value)
      ensures found == Ok(None) ==> NamesFree(db, device, p)
      ensures found == Err(Conflict) ==> exists x :: Disputes(db, x, device, p)
      ensures if fails then found == Err(Database) else found == Existing(db, device, p, now)
      ensures !fails && found.Err? ==> found.error == Conflict
      ensures !fails ==> forall x | Holds(db, x, device, p) :: found == Ok(Some(ReceiptOf(db, x, now)))
      ensures !fails && (exists x :: Disputes(db, x, device, p)) ==> found == Err(Conflict)
    {
      Interfere(next);
      if fails { return Err(Database); }
      found := Lookup(device, p, now);
      ReachableHoldersAreAlone(View(), device, p);
      ExistingMeans(db, device, p, now);
      if found.Ok? && found.value.Some? {
        ReplayIsAnswered(View(), device, p, now);
      }
    }

    /** The second lookup: a taken key stays taken, so it never comes back empty. */
    method Recheck(q: Request, e: Attempts) returns (r: Result<Receipt, ResultError>)
      requires ValidConfig(cfg) && Inv(View()) && Reaches(cfg, View(), e.atRecheck)
      requires RowsMatching(db, q.device, q.p.resultId, q.p.dedupeKey) != {}
      modifies this
      ensures View() == e.atRecheck && RecheckAnswers(q, e, r)
      ensures r.Ok? ==> Answered(db, q.device, q.p, r.value)
      ensures r == Err(Conflict) ==> exists x :: Disputes(db, x, q.device, q.p)
    {
      TakenAtRecheck(cfg, View(), e.atRecheck, q.device, q.p);
      var found := Replay(q.device, q.p, e.atRecheck, e.recheckFails, e.recheckNow);
      return FoundAnswer(found);
    }

    /** The write transaction, and the second lookup when it meets a taken key. */
    method Write(q: Request, e: Attempts) returns (r: Result<Receipt, ResultError>)
      requires ValidConfig(cfg) && Inv(View()) && View() == e.atWrite && Reaches(cfg, View(), e.atRecheck)
      requires FreshIds(View(), q.device, e.ids)
      requires ValidPublication(q.p, MAX_RESULT_BODY_BYTES) && Prepare(cfg, q.p, q.target, e.now).Ok? && !e.writeFails
      modifies this
      ensures Reaches(cfg, old(View()), View())
      ensures r.Ok? ==> Answered(db, q.device, q.p, r.value)
      ensures r == Err(Conflict) ==> exists x :: Disputes(db, x, q.device, q.p)
      ensures r.Err? ==> LeftAt(cfg, q, e, View())
      ensures r.Err? && (r.error != Database || !e.commitLost) ==> View() in {e.atWrite, e.atRecheck}
      ensures WriteAnswers(cfg, q, e, r)
    {
      ReachesItself(cfg, View());
      var expires := Prepare(cfg, q.p, q.target, e.now).value;
      var retained := SumRetained(db.results);
      var (next, outcome) := InsertPublication(db, retained, cfg, q.device, q.p, q.target.value, e.now, expires, e.ids);
      assert outcome == OutcomeOf(cfg, q, e);
      match outcome {
        case Published =>
          Commit(next, e.ids, q.device, q.p, q.target, e.now);
          r := if e.commitLost then Err(Database) else Ok(PublishedReceipt(q.p, e.now, expires, e.ids));
        case Rejected(error) => r := Err(error);
        case Duplicate => r := Recheck(q, e);
      }
      OutcomeAnswers(cfg, q, e, r);
    }

    /** The rest of an attempt whose lookup found both keys free. */
    method Insert(q: Request, e: Attempts) returns (r: Result<Receipt, ResultError>)
      requires ValidConfig(cfg) && Inv(View()) && View() == e.atLookup
      requires Reaches(cfg, e.atLookup, e.atWrite) && Reaches(cfg, e.atWrite, e.atRecheck)
      requires FreshIds(e.atWrite, q.device, e.ids) && ValidPublication(q.p, MAX_RESULT_BODY_BYTES)
      modifies this
      ensures Reaches(cfg, e.atLookup, View())
      ensures r.Ok? ==> Answered(db, q.device, q.p, r.value)
      ensures r == Err(Conflict) ==> exists x :: Disputes(db, x, q.device, q.p)
      ensures r.Err? ==> LeftAt(cfg, q, e, View())
      ensures r.Err? && (r.error != Database || !e.commitLost) ==> View() in {e.atLookup, e.atWrite, e.atRecheck}
      ensures InsertAnswers(cfg, q, e, r)
    {
      ReachesItself(cfg, e.atLookup);
      var expires := Prepare(cfg, q.p, q.target, e.now);
      if expires.Err? {
        PreparedAnswers(cfg, q, e, Err(expires.error));
        return Err(expires.error);
      }
      Interfere(e.atWrite);
      ReachesItself(cfg, e.atWrite);
      r := Err(Database);
      if !e.writeFails {
        r := Write(q, e);
      }
      PreparedAnswers(cfg, q, e, r);
      ReachesTransitive(cfg, e.atLookup, e.atWrite, View());
    }

    /** One attempt: replay lookup, checks, write transaction. */
    method PublishOnce(q: Request, e: Attempts) returns (r: Result<Receipt, ResultError>)
      requires ValidConfig(cfg) && Inv(View()) && Possible(cfg, View(), q, e)
      requires FreshIds(e.atWrite, q.device, e.ids)
      modifies this
      ensures Reaches(cfg, old(View()), View())
      ensures r.Ok? ==> Answered(db, q.device, q.p, r.value)
      ensures r == Err(Conflict) ==> exists x :: Disputes(db, x, q.device, q.p)
      // an error inserted nothing, unless it is that of a lost commit
      ensures r.Err? ==> View() == old(View()) || LeftAt(cfg, q, e, View())
      ensures r.Err? && (r.error != Database || !e.commitLost) ==>
                View() in {old(View()), e.atLookup, e.atWrite, e.atRecheck}
      // a replay is answered, and a differing request refused, whatever the rest of the configuration says
      ensures Checked(cfg, q) ==> AttemptAnswers(cfg, q, e, r)
      // what does not pass is refused first; what is new is accepted or refused exactly as the tables say
      ensures !Checked(cfg, q) ==>
                r == Err(if ValidPublication(q.p, MAX_RESULT_BODY_BYTES) then Unavailable else Validation)
    {
      ghost var s := View();
      ReachesItself(cfg, s);
      WriteReachesRecheck(cfg, s, q, e);
      if !ValidPublication(q.p, MAX_RESULT_BODY_BYTES) { return Err(Validation); }
      if !cfg.hasCipher { return Err(Unavailable); }
      var found := Replay(q.device, q.p, e.atLookup, e.lookupFails, e.lookupNow);
      ReachableHoldersAreAlone(View(), q.device, q.p);
      if found != Ok(None) {
        if !e.lookupFails {
          FoundAnswers(q, e, found);
          FoundIsTaken(q, e, found);
        }
        return FoundAnswer(found);
      }
      r := Insert(q, e);
      FreeAnswersAny(q, e, r);
      ReachesTransitive(cfg, s, e.atLookup, View());
    }

    /** Attempt `i` of a call that found the tables at `s`. */
    method NextAttempt(q: Request, env: seq<Attempts>, i: nat, ghost s: Sys) returns (r: Result<Receipt, ResultError>)
      requires ValidConfig(cfg) && Inv(View()) && Schedule(cfg, s, q, env) && i < 4
      requires Reaches(cfg, s, View()) && LeftByAttempts(cfg, s, q, env, View())
      requires if i == 0 then View() == s else Reaches(cfg, View(), env[i - 1].atRecheck)
      modifies this
      ensures Reaches(cfg, s, View()) && Inv(View())
      ensures r.Ok? ==> Answered(db, q.device, q.p, r.value)
      ensures r == Err(Conflict) ==> exists x :: Disputes(db, x, q.device, q.p)
      ensures r.Err? ==> LeftByAttempts(cfg, s, q, env, View())
      ensures r == Err(Database) ==> Reaches(cfg, View(), env[i].atRecheck)
      ensures Checked(cfg, q) ==> AttemptAnswers(cfg, q, env[i], r)
      ensures !Checked(cfg, q) ==>
                r == Err(if ValidPublication(q.p, MAX_RESULT_BODY_BYTES) then Unavailable else Validation)
    {
      ghost var before := View();
      Continue(cfg, s, before, q, env, i);
      r := PublishOnce(q, env[i]);
      ReachesTransitive(cfg, s, before, View());
      ReachedIsGood(cfg, before, View());
      if r.Err? {
        LeftByOneMore(cfg, s, q, env, before, i, View());
        AttemptEnds(cfg, before, q, env[i], View());
      }
    }

    /**
     Up to four attempts, again only after a database error. Whatever other transactions run in
     between and whatever commits are lost, the call is a run of the tables; success names the one
     row that holds the publication; a conflict names a row under its keys that does not; and an
     error inserted nothing but by a commit that was lost.
     */
    method Publish(q: Request, env: seq<Attempts>) returns (r: Result<Receipt, ResultError>, tries: nat)
      requires ValidConfig(cfg) && Inv(View()) && Schedule(cfg, View(), q, env)
      modifies this
      ensures Reaches(cfg, old(View()), View()) && Inv(View()) && Grows(old(View()), View())
      ensures r.Ok? ==> Answered(db, q.device, q.p, r.value)
      ensures r == Err(Conflict) ==> exists x :: Disputes(db, x, q.device, q.p)
      ensures r.Err? ==> LeftByAttempts(cfg, old(View()), q, env, View())
      ensures 1 <= tries <= 4 && (r == Err(Database) ==> tries == 4)
      // every attempt answers for what its lookup found, and the call for what was there when it began
      ensures Checked(cfg, q) ==> EachAnswers(cfg, q, env, tries, r)
      ensures !Checked(cfg, q) ==>
                tries == 1 && r == Err(if ValidPublication(q.p, MAX_RESULT_BODY_BYTES) then Unavailable else Validation)
      ensures Checked(cfg, q) ==> StartAnswered(old(View()), q, env, tries, r)
    {
      ghost var s := View();
      ReachesItself(cfg, s);
      r, tries := Err(Database), 0;
      while tries < 4
        invariant tries <= 4 && r == Err(Database)
        invariant Reaches(cfg, s, View()) && Inv(View()) && LeftByAttempts(cfg, s, q, env, View())
        invariant if tries == 0 then View() == s else Reaches(cfg, View(), env[tries - 1].atRecheck)
        invariant tries > 0 ==> Checked(cfg, q) && EachAnswers(cfg, q, env, tries, r)
      {
        r := NextAttempt(q, env, tries, s);
        tries := tries + 1;
        if r != Err(Database) { break; }
      }
      ReachedIsGood(cfg, s, View());
      if Checked(cfg, q) {
        EveryStartIsAnswered(cfg, s, q, env, tries, r);
      }
    }

    /** The transaction of a resend, for the one row its name finds. */
    method ResendTransaction(row: string, device: Uuid, resultId: string, requestId: string, now: int,
                             notice: string, outbox: string) returns (refusal: Option<ResultError>)
      requires RowsNamed(db, device, resultId) == {row} && ValidRequestId(requestId)
      requires FreshNotice(View(), device, notice, outbox)
      modifies this
      ensures View() == ResendStep(cfg, old(View()), device, resultId, requestId, now, notice, outbox)
      ensures refusal.Some? ==>
                View() == old(View())
                && ResendTx(old(db), cfg, device, resultId, requestId, now, notice, outbox)
                     == (old(db), Refused(refusal.value))
      ensures refusal.None? ==> RowsNamed(db, device, resultId) == {row} && row in db.results
      ensures refusal.None? ==> !ResendTx(old(db), cfg, device, resultId, requestId, now, notice, outbox).1.Refused?
    {
      ResendIsStep(cfg, View(), device, resultId, row, requestId, now, notice, outbox);
      ResendKeepsName(db, cfg, device, resultId, row, requestId, now, notice, outbox);
      var (next, outcome) := ResendRow(db, cfg, row, requestId, now, notice, outbox);
      if outcome.Refused? { return Some(outcome.error); }
      if outcome == Resent {
        posted := if NoticeKey(DeviceOrigin(device), notice) in next.outbox then posted + {notice} else posted;
        minted := minted[notice := row];
      }
      db := next;
      assert row in RowsNamed(db, device, resultId);
      return None;
    }

    /** `resend`: one transaction behind the writer fence, then the receipt of the current notice. */
    method Resend(device: Uuid, resultId: string, requestId: string, now: int, notice: string, outbox: string,
                  readAt: int) returns (r: Result<Receipt, ResultError>)
      requires FreshNotice(View(), device, notice, outbox)
      modifies this
      ensures View() == ResendStep(cfg, old(View()), device, resultId, requestId, now, notice, outbox)
      ensures r.Err? <==> ResendTx(old(db), cfg, device, resultId, requestId, now, notice, outbox).1.Refused?
      ensures r.Ok? ==> r == ReceiptFor(db, device, resultId, readAt)
      ensures r.Err? ==>
                View() == old(View())
                && ResendTx(old(db), cfg, device, resultId, requestId, now, notice, outbox)
                     == (old(db), Refused(r.error))
    {
      if !ValidRequestId(requestId) { return Err(Validation); }
      var rows := RowsNamed(db, device, resultId);
      if |rows| != 1 { return Err(NotFound); }
      var row :| row in rows;
      SingletonPick(rows, row);
      var refusal := ResendTransaction(row, device, resultId, requestId, now, notice, outbox);
      if refusal.Some? { return Err(refusal.value); }
      SingletonPick(RowsNamed(db, device, resultId), row);
      return Ok(ReceiptOf(db, row, readAt));
    }

    /** `admin_revoke`: one transaction, then the receipt. */
    method Revoke(row: string, requestId: string, now: int, readAt: int) returns (r: Result<Receipt, ResultError>)
      requires Inv(View())
      modifies this
      ensures View() == RevokeStep(old(View()), row, requestId, now)
      ensures Inv(View()) && Grows(old(View()), View())
      ensures r.Ok? <==> ValidRequestId(requestId) && row in old(db).results
      ensures r.Ok? ==> r.value.pageState == PageRevoked && r.value == ReceiptOf(db, row, readAt)
      ensures r.Err? ==> View() == old(View()) && r.error == if ValidRequestId(requestId) then NotFound else Validation
    {
      ghost var s := View();
      RevokeInv(s, row, requestId, now);
      var (next, outcome) := RevokeTx(db, row, requestId, now);
      db := next;
      if outcome.Err? { return Err(outcome.error); }
      RevokeStampsOnce(s, row, requestId, now);
      return Ok(ReceiptOf(db, row, readAt));
    }
  }
}
