/**
 Values shared by every component: options and results, bytes and UUIDs, the
 character classes Rust's `char` methods test, and the order SQLite sorts by.
 */
module Basics {

  datatype Option<+T> = None | Some(value: T)

  datatype Result<+T, +E> = Ok(value: T) | Err(error: E)

  newtype byte = x: int | 0 <= x < 256

  type Uuid = s: seq<byte> | |s| == 16 witness seq(16, _ => 0)

  const I64_MAX: int := 0x7fff_ffff_ffff_ffff
  const U64_MODULUS: int := 0x1_0000_0000_0000_0000

  function Max(a: int, b: int): int {
    if a < b then b else a
  }

  function Min(a: int, b: int): int {
    if a < b then a else b
  }

  // ---------------------------------------------------------------------
  // Text
  // ---------------------------------------------------------------------

  /** The bytes one scalar value takes in UTF-8. */
  function Utf8Width(c: char): nat {
    var n := c as int;
    if n < 0x80 then 1 else if n < 0x800 then 2 else if n < 0x10000 then 3 else 4
  }

  /** `str::len`: the length of a text in bytes. */
  function Utf8Len(s: string): nat {
    if s == [] then 0 else Utf8Width(s[0]) + Utf8Len(s[1..])
  }

  lemma {:induction false} Utf8LenBounds(s: string)
    ensures |s| <= Utf8Len(s) <= 4 * |s|
  {
    if s != [] {
      Utf8LenBounds(s[1..]);
    }
  }

  lemma {:induction false} Utf8LenJoins(s: string, t: string)
    ensures Utf8Len(s + t) == Utf8Len(s) + Utf8Len(t)
  {
    if s == [] {
      assert s + t == t;
    } else {
      assert (s + t)[0] == s[0] && (s + t)[1..] == s[1..] + t;
      Utf8LenJoins(s[1..], t);
    }
  }

  /** `char::is_control`: general category Cc. */
  predicate IsControl(c: char) {
    var n := c as int;
    n < 0x20 || 0x7f <= n < 0xa0
  }

  /** `char::is_whitespace`: the White_Space property. */
  predicate IsWhitespace(c: char) {
    var n := c as int;
    || 9 <= n <= 13 || n == 0x20 || n == 0x85 || n == 0xa0 || n == 0x1680
    || 0x2000 <= n <= 0x200a || n == 0x2028 || n == 0x2029 || n == 0x202f
    || n == 0x205f || n == 0x3000
  }

  predicate IsDigit(c: char) {
    '0' <= c <= '9'
  }

  /** An ASCII letter, digit, underscore or hyphen. */
  predicate IsHandleChar(c: char) {
    'a' <= c <= 'z' || 'A' <= c <= 'Z' || IsDigit(c) || c == '_' || c == '-'
  }

  /** `value.trim() == value`: no white space at either end. */
  predicate IsTrimmed(s: string) {
    s == [] || (!IsWhitespace(s[0]) && !IsWhitespace(s[|s| - 1]))
  }

  /** `str::as_bytes` of ASCII text. */
  function Ascii(s: string): (b: seq<byte>)
    requires forall c | c in s :: c as int < 128
    ensures |b| == |s| && forall i | 0 <= i < |s| :: b[i] as int == s[i] as int
  {
    seq(|s|, i requires 0 <= i < |s| => (assert s[i] in s; s[i] as int as byte))
  }

  /** Two joins with first parts of one length are equal part by part. */
  lemma SplitEqual(a: seq<byte>, x: seq<byte>, b: seq<byte>, y: seq<byte>)
    requires |a| == |b| && a + x == b + y
    ensures a == b && x == y
  {
    assert (a + x)[..|a|] == a && (b + y)[..|b|] == b;
    assert (a + x)[|a|..] == x && (b + y)[|b|..] == y;
  }

  predicate Distinct<T(==)>(s: seq<T>) {
    forall i, j | 0 <= i < j < |s| :: s[i] != s[j]
  }

  // ---------------------------------------------------------------------
  // ORDER BY at, id LIMIT n
  // ---------------------------------------------------------------------

  /** SQLite's BINARY collation on text: the first difference decides, a prefix comes first. */
  predicate TextLess(a: string, b: string) {
    if b == [] then false
    else if a == [] then true
    else a[0] < b[0] || (a[0] == b[0] && TextLess(a[1..], b[1..]))
  }

  /** The place where two texts first differ, or where the first one ends. */
  predicate DiffersFirstAt(a: string, b: string, i: nat) {
    && i < |b| && i <= |a| && a[..i] == b[..i]
    && (i < |a| ==> a[i] < b[i])
  }

  lemma {:induction false} TextLessMeans(a: string, b: string)
    ensures TextLess(a, b) <==> exists i: nat :: DiffersFirstAt(a, b, i)
  {
    if b != [] && a != [] {
      TextLessMeans(a[1..], b[1..]);
      if a[0] < b[0] {
        assert DiffersFirstAt(a, b, 0);
      } else {
        if i: nat :| DiffersFirstAt(a[1..], b[1..], i) && a[0] == b[0] {
          assert a[..i + 1] == [a[0]] + a[1..][..i] && b[..i + 1] == [b[0]] + b[1..][..i];
          assert DiffersFirstAt(a, b, i + 1);
        }
        if i: nat :| DiffersFirstAt(a, b, i) {
          assert i > 0 && a[..i][0] == b[..i][0];
          assert a[1..][..i - 1] == a[..i][1..] && b[1..][..i - 1] == b[..i][1..];
          assert DiffersFirstAt(a[1..], b[1..], i - 1);
        }
      }
    } else if b != [] {
      assert DiffersFirstAt(a, b, 0);
    }
  }

  lemma {:induction false} TextLessTotal(a: string, b: string)
    ensures TextLess(a, b) || TextLess(b, a) || a == b
    ensures !(TextLess(a, b) && TextLess(b, a))
    ensures !TextLess(a, a)
  {
    if a != [] && b != [] {
      TextLessTotal(a[1..], b[1..]);
      if a[0] == b[0] && a[1..] == b[1..] {
        assert a == [a[0]] + a[1..] && b == [b[0]] + b[1..];
      }
    }
    if a != [] {
      TextLessTotal(a[1..], a[1..]);
    }
  }

  lemma {:induction false} TextLessTransitive(a: string, b: string, c: string)
    requires TextLess(a, b) && TextLess(b, c)
    ensures TextLess(a, c)
  {
    if a != [] && b != [] && c != [] && a[0] == b[0] == c[0] {
      TextLessTransitive(a[1..], b[1..], c[1..]);
    }
  }

  /** What a row is sorted by: a time column, then the row's unique id. */
  datatype SortKey = SortKey(at: int, id: string)

  predicate KeyLess(a: SortKey, b: SortKey) {
    a.at < b.at || (a.at == b.at && TextLess(a.id, b.id))
  }

  lemma KeyLessTotal(a: SortKey, b: SortKey)
    ensures KeyLess(a, b) || KeyLess(b, a) || a == b
    ensures !(KeyLess(a, b) && KeyLess(b, a))
    ensures !KeyLess(a, a)
  {
    TextLessTotal(a.id, b.id);
    TextLessTotal(a.id, a.id);
  }

  lemma KeyLessTransitive(a: SortKey, b: SortKey, c: SortKey)
    requires KeyLess(a, b) && KeyLess(b, c)
    ensures KeyLess(a, c)
  {
    if a.at == b.at == c.at {
      TextLessTransitive(a.id, b.id, c.id);
    }
  }

  /** The rows that sort before `x`. */
  function Before(rows: set<SortKey>, x: SortKey): set<SortKey> {
    set y | y in rows && KeyLess(y, x)
  }

  /** `ORDER BY at, id LIMIT n`: the rows with fewer than `n` rows before them. */
  function FirstN(rows: set<SortKey>, n: nat): set<SortKey> {
    set x | x in rows && |Before(rows, x)| < n
  }

  /** A subset never has more elements. */
  lemma {:induction false} SubsetSize<T>(a: set<T>, b: set<T>)
    requires a <= b
    ensures |a| <= |b|
    ensures |a| == |b| ==> a == b
  {
    if a != {} {
      var x :| x in a;
      SubsetSize(a - {x}, b - {x});
    }
  }

  /** Every non-empty set of keys has a first one. */
  lemma {:induction false} FirstKey(rows: set<SortKey>) returns (m: SortKey)
    requires rows != {}
    ensures m in rows && forall x | x in rows :: x == m || KeyLess(m, x)
  {
    m :| m in rows;
    if rows != {m} {
      var rest := rows - {m};
      var r := FirstKey(rest);
      KeyLessTotal(m, r);
      if KeyLess(r, m) {
        m := r;
      } else {
        forall x | x in rows && x != m ensures KeyLess(m, x) {
          if x != r {
            KeyLessTransitive(m, r, x);
          }
        }
      }
    }
  }

  /** Taking the first row away moves every other row up by one place. */
  lemma BeforeWithoutFirst(rows: set<SortKey>, m: SortKey, x: SortKey)
    requires m in rows && x in rows && x != m && KeyLess(m, x)
    ensures |Before(rows, x)| == |Before(rows - {m}, x)| + 1
  {
    assert Before(rows, x) == Before(rows - {m}, x) + {m};
  }

  lemma FirstHasNoneBefore(rows: set<SortKey>, m: SortKey)
    requires forall x | x in rows :: x == m || KeyLess(m, x)
    ensures Before(rows, m) == {}
  {
    forall x | x in rows ensures !KeyLess(x, m) {
      KeyLessTotal(x, m);
    }
  }

  lemma FirstNWithoutFirst(rows: set<SortKey>, m: SortKey, n: nat)
    requires m in rows && forall x | x in rows :: x == m || KeyLess(m, x)
    requires n > 0
    ensures FirstN(rows, n) == FirstN(rows - {m}, n - 1) + {m}
  {
    FirstHasNoneBefore(rows, m);
    forall x | x in rows - {m} ensures x in FirstN(rows, n) <==> x in FirstN(rows - {m}, n - 1) {
      BeforeWithoutFirst(rows, m, x);
    }
  }

  lemma OneMore(all: set<SortKey>, batch: set<SortKey>, rows: set<SortKey>, rest: set<SortKey>, m: SortKey)
    requires m in rows && rest == rows - {m} && batch <= rest && all == batch + {m}
    ensures all <= rows && |all| == |batch| + 1 && |rest| == |rows| - 1
  {
  }

  lemma FirstNExtends(rows: set<SortKey>, m: SortKey, n: nat)
    requires m in rows && forall x | x in rows :: x == m || KeyLess(m, x)
    requires n > 0 && FirstN(rows - {m}, n - 1) <= rows - {m}
    ensures FirstN(rows, n) <= rows && |FirstN(rows, n)| == |FirstN(rows - {m}, n - 1)| + 1
  {
    FirstNWithoutFirst(rows, m, n);
    OneMore(FirstN(rows, n), FirstN(rows - {m}, n - 1), rows, rows - {m}, m);
  }

  /** A batch holds `n` rows, or every row when there are fewer than `n`. */
  lemma {:induction false} FirstNSize(rows: set<SortKey>, n: nat)
    ensures FirstN(rows, n) <= rows
    ensures |FirstN(rows, n)| == Min(|rows|, n)
    decreases n
  {
    if n == 0 || rows == {} {
      assert FirstN(rows, n) == {};
    } else {
      var m := FirstKey(rows);
      FirstNSize(rows - {m}, n - 1);
      FirstNExtends(rows, m, n);
      assert |rows - {m}| == |rows| - 1;
    }
  }

  /** A batch of all the rows contains every filtered row that a batch of the unfiltered rows would. */
  lemma FilteredBatch(rows: set<SortKey>, filtered: set<SortKey>, n: nat, x: SortKey)
    requires filtered <= rows
    requires x in filtered && x in FirstN(rows, n)
    ensures x in FirstN(filtered, n)
  {
    SubsetSize(Before(filtered, x), Before(rows, x));
  }

  /** What is in a batch sorts before what is not. */
  lemma BatchSortsFirst(rows: set<SortKey>, n: nat, a: SortKey, b: SortKey)
    requires a in FirstN(rows, n) && b in rows && b !in FirstN(rows, n)
    ensures KeyLess(a, b)
  {
    KeyLessTotal(a, b);
    if KeyLess(b, a) {
      forall x | x in Before(rows, b) ensures x in Before(rows, a) {
        KeyLessTransitive(x, b, a);
      }
      SubsetSize(Before(rows, b), Before(rows, a));
    }
  }
}
