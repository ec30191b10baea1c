/**
 The administrator's list of results: newest first, filtered by page state, in pages of at
 most one hundred rows that each end in a cursor for the next.
 */
module AdminListing {
  import opened Basics
  import opened ResultPages

  // ---------------------------------------------------------------------
  // The query
  // ---------------------------------------------------------------------

  /** The WHERE clause for a requested page state. */
  predicate InState(row: ResultRow, state: PageState, now: int) {
    match state
    case PageAvailable => row.revokedAt.None? && row.bodyPurgedAt.None? && row.pageExpiresAt > now
    case PageRevoked => row.revokedAt.Some?
    case PageExpired => row.revokedAt.None? && row.pageExpiresAt <= now
    case PageContentUnavailable => row.revokedAt.None? && row.pageExpiresAt > now && row.bodyPurgedAt.Some?
  }

  datatype Query = Query(state: Option<PageState>, now: int)

  predicate Wanted(row: ResultRow, q: Query) {
    q.state.Some? ==> InState(row, q.state.value, q.now)
  }

  /** A row after the cursor in descending order sorts below it. */
  predicate PastCursor(k: SortKey, after: Option<SortKey>) {
    after.Some? ==> KeyLess(k, after.value)
  }

  function Matching(rows: map<string, ResultRow>, q: Query, after: Option<SortKey>): set<SortKey> {
    set r | r in rows && Wanted(rows[r], q) && PastCursor(SortKey(rows[r].acceptedAt, r), after)
      :: SortKey(rows[r].acceptedAt, r)
  }

  predicate Descending(s: seq<SortKey>) {
    forall i, j | 0 <= i < j < |s| :: KeyLess(s[j], s[i])
  }

  /** `s` lists `keys`, each once, in descending order: what ORDER BY ... DESC returns. */
  ghost predicate Lists(s: seq<SortKey>, keys: set<SortKey>) {
    Descending(s) && (forall k :: k in s <==> k in keys)
  }

  lemma {:induction false} LastKey(keys: set<SortKey>) returns (m: SortKey)
    requires keys != {}
    ensures m in keys && forall k | k in keys :: k == m || KeyLess(k, m)
  {
    m :| m in keys;
    if keys != {m} {
      var r := LastKey(keys - {m});
      KeyLessTotal(m, r);
      if KeyLess(m, r) {
        m := r;
      } else {
        forall k | k in keys && k != m ensures KeyLess(k, m) {
          if k != r {
            KeyLessTransitive(k, r, m);
          }
        }
      }
    }
  }

  lemma ListExists(keys: set<SortKey>)
    ensures exists s :: Lists(s, keys)
  {
    if keys == {} {
      assert Lists([], keys);
    } else {
      var m := LastKey(keys);
      ListExists(keys - {m});
      var rest :| Lists(rest, keys - {m});
      var s := [m] + rest;
      forall i, j | 0 <= i < j < |s| ensures KeyLess(s[j], s[i]) {
        assert s[j] == rest[j - 1] && s[j] in rest;
      }
      assert Lists(s, keys);
    }
  }

  /** The rows of a query, in its order. */
  ghost function Rows(keys: set<SortKey>): (s: seq<SortKey>)
    ensures Lists(s, keys)
  {
    ListExists(keys);
    var s :| Lists(s, keys);
    s
  }

  lemma EmptyLists(s: seq<SortKey>, keys: set<SortKey>)
    requires Lists(s, keys)
    ensures s == [] <==> keys == {}
  {
    if s != [] {
      assert s[0] in s;
    }
  }

  /** There is only one such order. */
  lemma {:induction false} ListIsUnique(a: seq<SortKey>, b: seq<SortKey>, keys: set<SortKey>)
    requires Lists(a, keys) && Lists(b, keys)
    ensures a == b
    decreases |a|
  {
    EmptyLists(a, keys);
    EmptyLists(b, keys);
    if a != [] {
      assert a[0] in a;
      var j :| 0 <= j < |b| && b[j] == a[0];
      assert b[0] in b;
      var i :| 0 <= i < |a| && a[i] == b[0];
      KeyLessTotal(a[0], b[0]);
      assert a[0] == b[0];
      TailLists(a, keys);
      TailLists(b, keys);
      ListIsUnique(a[1..], b[1..], keys - {a[0]});
      assert a == [a[0]] + a[1..] && b == [b[0]] + b[1..];
    }
  }

  lemma TailLists(s: seq<SortKey>, keys: set<SortKey>)
    requires s != [] && Lists(s, keys)
    ensures Lists(s[1..], keys - {s[0]})
  {
    KeyLessTotal(s[0], s[0]);
    forall k ensures k in s[1..] <==> k in keys - {s[0]} {
      if k in s[1..] {
        var i :| 0 <= i < |s[1..]| && s[1..][i] == k;
        assert s[i + 1] == k && KeyLess(s[i + 1], s[0]);
      }
      if k in keys - {s[0]} {
        var i :| 0 <= i < |s| && s[i] == k;
        assert s[1..][i - 1] == k;
      }
    }
  }

  // ---------------------------------------------------------------------
  // Pages
  // ---------------------------------------------------------------------

  datatype Page = Page(items: seq<SortKey>, next: Option<SortKey>)

  /** One page: the first `limit` of the `limit + 1` rows fetched, and a cursor if there were that many. */
  ghost function ListPage(rows: map<string, ResultRow>, limit: nat, after: Option<SortKey>, q: Query)
    : (r: Result<Page, ResultError>)
    ensures r.Ok? <==> 1 <= limit <= 100
    ensures r.Ok? ==> |r.value.items| <= limit && (r.value.next.Some? ==> |r.value.items| == limit)
  {
    if limit == 0 || limit > 100 then Err(Validation)
    else
      var all := Rows(Matching(rows, q, after));
      var fetched := all[..Min(|all|, limit + 1)];
      var items := fetched[..Min(|fetched|, limit)];
      Ok(Page(items, if |fetched| > limit then Some(items[|items| - 1]) else None))
  }

  /** The rows past the last row of a full page are the rest of the list. */
  lemma CursorCutsList(rows: map<string, ResultRow>, q: Query, after: Option<SortKey>, n: nat)
    requires 0 < n <= |Rows(Matching(rows, q, after))|
    ensures var all := Rows(Matching(rows, q, after)); Rows(Matching(rows, q, Some(all[n - 1]))) == all[n..]
  {
    var all := Rows(Matching(rows, q, after));
    var cut := all[n - 1];
    assert cut in all && PastCursor(cut, after);
    forall k ensures k in all[n..] <==> k in Matching(rows, q, Some(cut)) {
      if k in all[n..] {
        AboveTheCut(all, n, k);
        assert k in all;
      }
      if k in Matching(rows, q, Some(cut)) {
        if after.Some? {
          KeyLessTransitive(k, cut, after.value);
        }
        assert k in Matching(rows, q, after);
        BelowTheCut(all, n, k);
      }
    }
    assert Lists(all[n..], Matching(rows, q, Some(cut)));
    ListIsUnique(all[n..], Rows(Matching(rows, q, Some(cut))), Matching(rows, q, Some(cut)));
  }

  lemma AboveTheCut(s: seq<SortKey>, n: nat, k: SortKey)
    requires Descending(s) && 0 < n <= |s| && k in s[n..]
    ensures KeyLess(k, s[n - 1])
  {
    var i :| 0 <= i < |s[n..]| && s[n..][i] == k;
    assert s[n + i] == k;
  }

  lemma BelowTheCut(s: seq<SortKey>, n: nat, k: SortKey)
    requires Descending(s) && 0 < n <= |s| && k in s && KeyLess(k, s[n - 1])
    ensures k in s[n..]
  {
    var i :| 0 <= i < |s| && s[i] == k;
    KeyLessTotal(k, s[n - 1]);
    assert i >= n;
    assert s[n..][i - n] == k;
  }

  lemma NextPageIsShorter(rows: map<string, ResultRow>, limit: nat, after: Option<SortKey>, q: Query)
    requires 1 <= limit <= 100 && ListPage(rows, limit, after, q).value.next.Some?
    ensures var page := ListPage(rows, limit, after, q).value;
            && Rows(Matching(rows, q, page.next)) == Rows(Matching(rows, q, after))[limit..]
            && page.items == Rows(Matching(rows, q, after))[..limit]
  {
    CursorCutsList(rows, q, after, limit);
  }

  /** A cursor is given exactly when there are further rows, so no page it leads to is empty. */
  lemma CursorMeansMore(rows: map<string, ResultRow>, limit: nat, after: Option<SortKey>, q: Query)
    requires 1 <= limit <= 100
    ensures var page := ListPage(rows, limit, after, q).value;
            && (page.next.Some? <==> exists k :: k in Matching(rows, q, after) && k !in page.items)
            && (page.next.Some? ==> Matching(rows, q, page.next) != {})
  {
    var all, page := Rows(Matching(rows, q, after)), ListPage(rows, limit, after, q).value;
    if page.next.Some? {
      NextPageIsShorter(rows, limit, after, q);
      var k := all[limit];
      assert k in all && k in Rows(Matching(rows, q, page.next));
      forall i | 0 <= i < limit ensures page.items[i] != k {
        KeyLessTotal(all[i], k);
      }
    } else {
      assert page.items == all;
    }
  }

  /** Following the cursors from any starting point until a page has none. */
  ghost function Follow(rows: map<string, ResultRow>, limit: nat, after: Option<SortKey>, q: Query): seq<SortKey>
    requires 1 <= limit <= 100
    decreases |Rows(Matching(rows, q, after))|
  {
    var page := ListPage(rows, limit, after, q).value;
    if page.next.None? then page.items
    else
      NextPageIsShorter(rows, limit, after, q);
      page.items + Follow(rows, limit, page.next, q)
  }

  /** From any cursor the pages together are exactly the rows past it, once each, in descending order. */
  lemma {:induction false} FollowListsTheRest(rows: map<string, ResultRow>, limit: nat, after: Option<SortKey>,
                                              q: Query)
    requires 1 <= limit <= 100
    ensures Follow(rows, limit, after, q) == Rows(Matching(rows, q, after))
    decreases |Rows(Matching(rows, q, after))|
  {
    var all, page := Rows(Matching(rows, q, after)), ListPage(rows, limit, after, q).value;
    if page.next.None? {
      assert page.items == all;
    } else {
      NextPageIsShorter(rows, limit, after, q);
      FollowListsTheRest(rows, limit, page.next, q);
      assert all == all[..limit] + all[limit..];
    }
  }

  /** From the first page on, the pages list every wanted row exactly once, newest first. */
  lemma PagesListEveryRowOnce(rows: map<string, ResultRow>, limit: nat, q: Query)
    requires 1 <= limit <= 100
    ensures var listed := Follow(rows, limit, None, q);
            && Descending(listed)
            && (forall i, j | 0 <= i < j < |listed| :: listed[i] != listed[j])
            && (forall k :: k in listed <==> k.id in rows && Wanted(rows[k.id], q) && k.at == rows[k.id].acceptedAt)
  {
    FollowListsTheRest(rows, limit, None, q);
    var listed := Follow(rows, limit, None, q);
    forall i, j | 0 <= i < j < |listed| ensures listed[i] != listed[j] {
      KeyLessTotal(listed[i], listed[j]);
    }
    forall k ensures k in listed <==> k.id in rows && Wanted(rows[k.id], q) && k.at == rows[k.id].acceptedAt {
      assert k in listed <==> k in Matching(rows, q, None);
      if k.id in rows && Wanted(rows[k.id], q) && k.at == rows[k.id].acceptedAt {
        assert k == SortKey(rows[k.id].acceptedAt, k.id);
      }
    }
  }

  // ---------------------------------------------------------------------
  // Filters
  // ---------------------------------------------------------------------

  /** The four filters share the rows out: each row is in the one its receipt reports. */
  lemma FiltersAgreeWithReceipts(row: ResultRow, state: PageState, now: int)
    ensures InState(row, state, now) <==> PageStateOf(row, now) == state
  {
  }

  lemma FiltersPartition(rows: map<string, ResultRow>, now: int, k: SortKey)
    ensures k in Matching(rows, Query(None, now), None) <==>
              exists state :: k in Matching(rows, Query(Some(state), now), None)
    ensures forall a, b | k in Matching(rows, Query(Some(a), now), None)
                          && k in Matching(rows, Query(Some(b), now), None) :: a == b
  {
    if k in Matching(rows, Query(None, now), None) {
      assert k in Matching(rows, Query(Some(PageStateOf(rows[k.id], now)), now), None);
    }
  }
}
