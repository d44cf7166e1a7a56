/**
  The order of a digest: queued events sorted by their parsed date, newest
  first, with Python's stable `sorted(..., reverse=True)` keeping events of
  equal date in queue order. A date that does not parse makes the sort raise
  before anything is sent.
*/
module DigestOrder {
  import opened PyValues
  import opened DateTimes
  import opened Records

  /** The record's date parses with the stamp format the sort key uses. */
  predicate Dated(e: EventRecord) {
    ParseStamp(e.date).Some?
  }

  predicate AllDated(es: seq<EventRecord>) {
    forall i :: 0 <= i < |es| ==> Dated(es[i])
  }

  /** The sort key: the parsed date as a point in time. */
  function Key(e: EventRecord): int
    requires Dated(e)
  {
    Micros(ParseStamp(e.date).value)
  }

  /** The key of a dated record; undated records never reach the sort. */
  function KeyOrZero(e: EventRecord): int {
    if Dated(e) then Key(e) else 0
  }

  /** Newest first: no element has a smaller key than one after it. */
  predicate NewestFirst<T>(key: T -> int, es: seq<T>) {
    forall i, j :: 0 <= i < j < |es| ==> key(es[i]) >= key(es[j])
  }

  /** The elements of `es` whose key is `k`, in their order in `es`. */
  function WithKey<T>(key: T -> int, es: seq<T>, k: int): seq<T> {
    if es == [] then []
    else (if key(es[0]) == k then [es[0]] else []) + WithKey(key, es[1..], k)
  }

  /** No element of `es` has a key above `b`. */
  predicate AtMost<T>(key: T -> int, es: seq<T>, b: int) {
    forall i :: 0 <= i < |es| ==> key(es[i]) <= b
  }

  /**
    Places `x` before the first element whose key is not above its own, so
    that `x` stays ahead of the elements of equal key that came after it.
  */
  function Insert<T>(key: T -> int, x: T, es: seq<T>): (r: seq<T>)
    ensures |r| == |es| + 1
    decreases |es|
  {
    if es == [] then [x]
    else if key(es[0]) <= key(x) then [x] + es
    else [es[0]] + Insert(key, x, es[1..])
  }

  lemma {:induction false} InsertAtMost<T>(key: T -> int, x: T, es: seq<T>, b: int)
    requires AtMost(key, es, b) && key(x) <= b
    ensures AtMost(key, Insert(key, x, es), b)
    decreases |es|
  {
    if es != [] && key(es[0]) > key(x) {
      InsertAtMost(key, x, es[1..], b);
      assert Insert(key, x, es)[1..] == Insert(key, x, es[1..]);
    }
  }

  /** Inserting into a newest-first sequence keeps it newest first. */
  lemma {:induction false} InsertSorted<T>(key: T -> int, x: T, es: seq<T>)
    requires NewestFirst(key, es)
    ensures NewestFirst(key, Insert(key, x, es))
    decreases |es|
  {
    var r := Insert(key, x, es);
    if es == [] {
    } else if key(es[0]) <= key(x) {
      assert r == [x] + es;
      forall i, j | 0 <= i < j < |r| ensures key(r[i]) >= key(r[j]) {
        if i > 0 {
          assert r[i] == es[i - 1] && r[j] == es[j - 1];
        } else {
          assert r[j] == es[j - 1];
          assert key(es[0]) >= key(es[j - 1]);
        }
      }
    } else {
      var rest := Insert(key, x, es[1..]);
      assert NewestFirst(key, es[1..]) by {
        forall i, j | 0 <= i < j < |es| - 1 ensures key(es[1..][i]) >= key(es[1..][j]) {
          assert es[1..][i] == es[i + 1] && es[1..][j] == es[j + 1];
        }
      }
      assert AtMost(key, es[1..], key(es[0])) by {
        forall i | 0 <= i < |es| - 1 ensures key(es[1..][i]) <= key(es[0]) {
          assert es[1..][i] == es[i + 1];
        }
      }
      InsertSorted(key, x, es[1..]);
      InsertAtMost(key, x, es[1..], key(es[0]));
      assert r == [es[0]] + rest;
      forall i, j | 0 <= i < j < |r| ensures key(r[i]) >= key(r[j]) {
        assert r[j] == rest[j - 1];
        if i > 0 {
          assert r[i] == rest[i - 1];
        }
      }
    }
  }

  /** Inserting adds exactly `x` to the elements. */
  lemma {:induction false} InsertPerm<T>(key: T -> int, x: T, es: seq<T>)
    ensures multiset(Insert(key, x, es)) == multiset(es) + multiset{x}
    decreases |es|
  {
    if es != [] && key(es[0]) > key(x) {
      InsertPerm(key, x, es[1..]);
      assert es == [es[0]] + es[1..];
    }
  }

  lemma WithKeyCons<T>(key: T -> int, y: T, es: seq<T>, k: int)
    ensures WithKey(key, [y] + es, k) == (if key(y) == k then [y] else []) + WithKey(key, es, k)
  {
    assert ([y] + es)[1..] == es;
  }

  /** Inserting puts `x` ahead of every element of the same key and moves no other element past one of equal key. */
  lemma {:induction false} InsertStable<T>(key: T -> int, x: T, es: seq<T>, k: int)
    ensures WithKey(key, Insert(key, x, es), k) == (if key(x) == k then [x] else []) + WithKey(key, es, k)
    decreases |es|
  {
    if es == [] {
      WithKeyCons(key, x, [], k);
    } else if key(es[0]) <= key(x) {
      WithKeyCons(key, x, es, k);
    } else {
      var rest := Insert(key, x, es[1..]);
      assert Insert(key, x, es) == [es[0]] + rest;
      InsertStable(key, x, es[1..], k);
      WithKeyCons(key, es[0], rest, k);
      WithKeyCons(key, es[0], es[1..], k);
      assert [es[0]] + es[1..] == es;
      var tail := WithKey(key, es[1..], k);
      if key(x) == k {
        // `es[0]` has a larger key than `x`, so it is not of key `k`.
        assert WithKey(key, es, k) == tail;
        assert WithKey(key, Insert(key, x, es), k) == [x] + tail;
      } else if key(es[0]) == k {
        assert WithKey(key, Insert(key, x, es), k) == [es[0]] + tail;
      } else {
        assert WithKey(key, Insert(key, x, es), k) == tail;
      }
    }
  }

  /** `sorted(es, key=key, reverse=True)`. */
  function SortNewestFirst<T>(key: T -> int, es: seq<T>): (r: seq<T>)
    ensures |r| == |es|
    decreases |es|
  {
    if es == [] then [] else Insert(key, es[0], SortNewestFirst(key, es[1..]))
  }

  /**
    The sort is a permutation, newest first, and stable: for every key the
    elements of that key keep their original order.
  */
  lemma {:induction false} SortSpec<T>(key: T -> int, es: seq<T>)
    ensures NewestFirst(key, SortNewestFirst(key, es))
    ensures multiset(SortNewestFirst(key, es)) == multiset(es)
    ensures forall k :: WithKey(key, SortNewestFirst(key, es), k) == WithKey(key, es, k)
    decreases |es|
  {
    if es != [] {
      var rest := SortNewestFirst(key, es[1..]);
      SortSpec(key, es[1..]);
      assert SortNewestFirst(key, es) == Insert(key, es[0], rest);
      InsertSorted(key, es[0], rest);
      InsertPerm(key, es[0], rest);
      assert es == [es[0]] + es[1..];
      InsertKeepsStable(key, es, rest);
    }
  }

  lemma InsertKeepsStable<T>(key: T -> int, es: seq<T>, rest: seq<T>)
    requires es != []
    requires forall k :: WithKey(key, rest, k) == WithKey(key, es[1..], k)
    ensures forall k :: WithKey(key, Insert(key, es[0], rest), k) == WithKey(key, es, k)
  {
    forall k ensures WithKey(key, Insert(key, es[0], rest), k) == WithKey(key, es, k) {
      InsertStable(key, es[0], rest, k);
      WithKeyCons(key, es[0], es[1..], k);
      assert [es[0]] + es[1..] == es;
    }
  }

  /** Elements already newest first keep their order. */
  lemma {:induction false} SortedStays<T>(key: T -> int, es: seq<T>)
    requires NewestFirst(key, es)
    ensures SortNewestFirst(key, es) == es
    decreases |es|
  {
    if es != [] {
      assert NewestFirst(key, es[1..]) by {
        forall i, j | 0 <= i < j < |es| - 1 ensures key(es[1..][i]) >= key(es[1..][j]) {
          assert es[1..][i] == es[i + 1] && es[1..][j] == es[j + 1];
        }
      }
      SortedStays(key, es[1..]);
      if |es| > 1 {
        assert key(es[1]) <= key(es[0]);
      }
    }
  }

  /** The digest order, or `None` when some date does not parse and the sort raises. */
  function SortForDigest(es: seq<EventRecord>): (r: Option<seq<EventRecord>>)
    ensures r.Some? <==> AllDated(es)
    ensures r.Some? ==> multiset(r.value) == multiset(es) && AllDated(r.value)
    ensures r.Some? ==> NewestFirst(KeyOrZero, r.value)
    ensures r.Some? ==> forall k :: WithKey(KeyOrZero, r.value, k) == WithKey(KeyOrZero, es, k)
  {
    if AllDated(es) then
      var s := SortNewestFirst(KeyOrZero, es);
      SortSpec(KeyOrZero, es);
      assert forall i :: 0 <= i < |s| ==> s[i] in multiset(es);
      Some(s)
    else None
  }
}
