/**
 The bounded list of recently seen message keys, updated in place, and the unbounded order
 of latest occurrences it stands for.
 */
module RecentKeys {
  import opened Basics

  const MAX_RECENT_KEYS: nat := 256
  const MAX_KEY_BYTES: nat := 256

  predicate ValidKey(key: string) {
    key != "" && Utf8Len(key) <= MAX_KEY_BYTES
  }

  // ---------------------------------------------------------------------
  // The order of latest occurrences
  // ---------------------------------------------------------------------

  /** Every key once, at its latest occurrence. */
  function Latest(history: seq<string>): seq<string> {
    if history == [] then []
    else if history[0] in history[1..] then Latest(history[1..])
    else [history[0]] + Latest(history[1..])
  }

  lemma {:induction false} LatestHolds(h: seq<string>)
    ensures Distinct(Latest(h)) && forall k :: k in Latest(h) <==> k in h
  {
    if h != [] {
      LatestHolds(h[1..]);
      assert h == [h[0]] + h[1..];
    }
  }

  function Without(s: seq<string>, key: string): seq<string> {
    if s == [] then [] else if s[0] == key then s[1..] else [s[0]] + Without(s[1..], key)
  }

  lemma {:induction false} WithoutAbsent(s: seq<string>, key: string)
    requires key !in s
    ensures Without(s, key) == s
  {
    if s != [] {
      WithoutAbsent(s[1..], key);
    }
  }

  lemma {:induction false} WithoutInTail(p: seq<string>, t: seq<string>, key: string)
    requires key !in p
    ensures Without(p + t, key) == p + Without(t, key)
  {
    if p == [] {
      assert p + t == t;
    } else {
      assert (p + t)[1..] == p[1..] + t;
      WithoutInTail(p[1..], t, key);
    }
  }

  lemma {:induction false} WithoutInHead(p: seq<string>, t: seq<string>, key: string)
    requires key !in t
    ensures Without(p + t, key) == Without(p, key) + t
  {
    if p == [] {
      assert p + t == t;
      WithoutAbsent(t, key);
    } else {
      assert (p + t)[1..] == p[1..] + t;
      WithoutInHead(p[1..], t, key);
    }
  }

  lemma {:induction false} WithoutSize(s: seq<string>, key: string)
    ensures |Without(s, key)| == if key in s then |s| - 1 else |s|
  {
    if s != [] {
      WithoutSize(s[1..], key);
      assert s == [s[0]] + s[1..];
    }
  }

  /** Seeing a key moves it to the end. */
  lemma {:induction false} LatestMoves(h: seq<string>, key: string)
    ensures Latest(h + [key]) == Without(Latest(h), key) + [key]
  {
    if h == [] {
      assert h + [key] == [key];
    } else {
      var first, rest := h[0], h[1..];
      assert (h + [key])[0] == first && (h + [key])[1..] == rest + [key];
      LatestMoves(rest, key);
      LatestHolds(rest);
      if first in rest {
      } else if first == key {
        WithoutAbsent(Latest(rest), key);
      } else {
        assert [first] + (Without(Latest(rest), key) + [key]) == ([first] + Without(Latest(rest), key)) + [key];
      }
    }
  }

  // ---------------------------------------------------------------------
  // Its last 256
  // ---------------------------------------------------------------------

  function Recent(s: seq<string>): (r: seq<string>)
    ensures |r| == Min(|s|, 256) && r == s[|s| - |r|..]
  {
    if |s| <= MAX_RECENT_KEYS then s else s[|s| - MAX_RECENT_KEYS..]
  }

  lemma RecentOfTail(p: seq<string>, t: seq<string>)
    requires p == [] || |t| >= MAX_RECENT_KEYS
    ensures Recent(p + t) == Recent(t)
  {
    if p == [] {
      assert p + t == t;
    } else {
      assert (p + t)[|p + t| - MAX_RECENT_KEYS..] == t[|t| - MAX_RECENT_KEYS..];
    }
  }

  lemma RecentSplits(all: seq<string>) returns (p: seq<string>)
    ensures all == p + Recent(all) && (p == [] || |Recent(all)| == MAX_RECENT_KEYS)
  {
    p := all[..|all| - |Recent(all)|];
  }

  lemma KeptKeyMoves(p: seq<string>, t: seq<string>, key: string)
    requires key in t && key !in p && |t| <= MAX_RECENT_KEYS && (p == [] || |t| == MAX_RECENT_KEYS)
    ensures Recent(Without(t, key) + [key]) == Recent(Without(p + t, key) + [key])
  {
    WithoutSize(t, key);
    WithoutInTail(p, t, key);
    assert Without(p + t, key) + [key] == p + (Without(t, key) + [key]);
    RecentOfTail(p, Without(t, key) + [key]);
  }

  lemma OtherKeyEnters(p: seq<string>, t: seq<string>, key: string)
    requires key !in t && (p == [] || |t| == MAX_RECENT_KEYS)
    ensures Recent(Without(t, key) + [key]) == Recent(Without(p + t, key) + [key])
  {
    WithoutInHead(p, t, key);
    WithoutAbsent(t, key);
    WithoutSize(p, key);
    assert Without(p + t, key) + [key] == Without(p, key) + (t + [key]);
    RecentOfTail(Without(p, key), t + [key]);
  }

  lemma InOnePartOnly(p: seq<string>, t: seq<string>, key: string)
    requires Distinct(p + t) && key in t
    ensures key !in p
  {
    var j :| 0 <= j < |t| && t[j] == key;
    assert (p + t)[|p| + j] == key;
    forall i | 0 <= i < |p| ensures p[i] != key {
      assert (p + t)[i] == p[i];
    }
  }

  /** The bounded update and the unbounded one agree on the last 256 keys. */
  lemma BoundedFollows(all: seq<string>, key: string)
    requires Distinct(all)
    ensures Recent(Without(Recent(all), key) + [key]) == Recent(Without(all, key) + [key])
  {
    var p := RecentSplits(all);
    if key in Recent(all) {
      InOnePartOnly(p, Recent(all), key);
      KeptKeyMoves(p, Recent(all), key);
    } else {
      OtherKeyEnters(p, Recent(all), key);
    }
  }

  // ---------------------------------------------------------------------
  // The session
  // ---------------------------------------------------------------------

  /** `position`, then `remove`. */
  method RemoveKey(keys: seq<string>, key: string) returns (rest: seq<string>)
    ensures rest == Without(keys, key)
  {
    var i := 0;
    while i < |keys| && keys[i] != key
      invariant 0 <= i <= |keys| && key !in keys[..i]
    {
      i := i + 1;
    }
    assert keys == keys[..i] + keys[i..];
    WithoutInTail(keys[..i], keys[i..], key);
    if i < |keys| {
      rest := keys[..i] + keys[i + 1..];
      assert keys[i..][1..] == keys[i + 1..];
    } else {
      rest := keys;
    }
  }

  class SessionSecrets {
    var recentKeys: seq<string>
    ghost var history: seq<string>

    constructor ()
      ensures Valid() && recentKeys == [] && history == []
    {
      recentKeys, history := [], [];
    }

    /** The list is the last 256 keys of the accepted history, by latest occurrence. */
    ghost predicate Valid()
      reads this
    {
      recentKeys == Recent(Latest(history)) && forall k | k in history :: ValidKey(k)
    }

    method RememberMessageKey(key: string) returns (ok: bool)
      requires Valid()
      modifies this
      ensures Valid() && (ok <==> 1 <= Utf8Len(key) <= 256)
      ensures history == if ok then old(history) + [key] else old(history)
    {
      if key == "" || Utf8Len(key) > MAX_KEY_BYTES { return false; }
      LatestHolds(history);
      LatestMoves(history, key);
      BoundedFollows(Latest(history), key);
      recentKeys := RemoveKey(recentKeys, key);
      recentKeys := recentKeys + [key];
      var excess := if |recentKeys| > MAX_RECENT_KEYS then |recentKeys| - MAX_RECENT_KEYS else 0;
      if excess > 0 {
        recentKeys := recentKeys[excess..];
      }
      history := history + [key];
      return true;
    }

    /** The key checks of `validate`. */
    method CheckKeys() returns (ok: bool)
      ensures ok <==> |recentKeys| <= 256 && forall k | k in recentKeys :: 1 <= Utf8Len(k) <= 256
    {
      if |recentKeys| > MAX_RECENT_KEYS { return false; }
      for i := 0 to |recentKeys|
        invariant forall k | k in recentKeys[..i] :: ValidKey(k)
      {
        if recentKeys[i] == "" || Utf8Len(recentKeys[i]) > MAX_KEY_BYTES {
          assert recentKeys[i] in recentKeys;
          return false;
        }
      }
      assert recentKeys[..|recentKeys|] == recentKeys;
      return true;
    }

    /** A list kept by remembering has no key twice and passes the checks. */
    lemma ListIsSound()
      requires Valid()
      ensures Distinct(recentKeys) && |recentKeys| <= MAX_RECENT_KEYS && forall k | k in recentKeys :: ValidKey(k)
    {
      LatestHolds(history);
      forall k | k in recentKeys ensures ValidKey(k) {
        assert k in Latest(history);
      }
    }
  }
}
