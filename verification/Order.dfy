/** The order Go and SQLite compare text by, and sorting by it. */
module Order {
  /** a comes before b: at the first difference, or because a is a proper prefix. */
  predicate Less(a: string, b: string) {
    b != [] && (a == [] || a[0] < b[0] || (a[0] == b[0] && Less(a[1..], b[1..])))
  }

  lemma {:induction false} Total(a: string, b: string)
    ensures Less(a, b) || Less(b, a) || a == b
    ensures !(Less(a, b) && Less(b, a)) && !Less(a, a)
    decreases |a|
  {
    if a != [] {
      Total(a[1..], a[1..]);
      if b != [] && a[0] == b[0] {
        Total(a[1..], b[1..]);
        if a[1..] == b[1..] { assert a == [a[0]] + a[1..] && b == [b[0]] + b[1..]; }
      }
    }
  }

  lemma {:induction false} Transitive(a: string, b: string, c: string)
    requires Less(a, b) && Less(b, c)
    ensures Less(a, c)
    decreases |a|
  {
    if a != [] && a[0] == b[0] == c[0] { Transitive(a[1..], b[1..], c[1..]); }
  }

  // What things are sorted by: two IDs, the second possibly empty.
  type Key = (string, string)

  predicate Before(a: Key, b: Key) { Less(a.0, b.0) || (a.0 == b.0 && Less(a.1, b.1)) }

  lemma BeforeTotal(a: Key, b: Key)
    ensures Before(a, b) || Before(b, a) || a == b
    ensures !(Before(a, b) && Before(b, a)) && !Before(a, a)
  {
    Total(a.0, b.0);
    Total(a.1, b.1);
  }

  lemma BeforeTransitive(a: Key, b: Key, c: Key)
    requires Before(a, b) && Before(b, c)
    ensures Before(a, c)
  {
    if Less(a.0, b.0) && Less(b.0, c.0) { Transitive(a.0, b.0, c.0); }
    if Less(a.1, b.1) && Less(b.1, c.1) { Transitive(a.1, b.1, c.1); }
  }

  function Insert<T>(s: seq<T>, x: T, key: T -> Key): seq<T> {
    if s == [] then [x] else if Before(key(x), key(s[0])) then [x] + s else [s[0]] + Insert(s[1..], x, key)
  }

  function Sort<T>(s: seq<T>, key: T -> Key): seq<T> {
    if s == [] then [] else Insert(Sort(s[1..], key), s[0], key)
  }

  predicate Sorted<T>(s: seq<T>, key: T -> Key) {
    |s| <= 1 || (Before(key(s[0]), key(s[1])) && Sorted(s[1..], key))
  }

  lemma {:induction false} InsertMembers<T>(s: seq<T>, x: T, key: T -> Key)
    ensures multiset(Insert(s, x, key)) == multiset(s) + multiset{x}
  {
    if s == [] {
    } else if Before(key(x), key(s[0])) {
    } else {
      InsertMembers(s[1..], x, key);
      assert s == [s[0]] + s[1..];
    }
  }

  lemma {:induction false} SortMembers<T>(s: seq<T>, key: T -> Key)
    ensures multiset(Sort(s, key)) == multiset(s)
  {
    if s != [] {
      SortMembers(s[1..], key);
      InsertMembers(Sort(s[1..], key), s[0], key);
      assert s == [s[0]] + s[1..];
    }
  }

  lemma {:induction false} InsertSorted<T>(s: seq<T>, x: T, key: T -> Key)
    requires Sorted(s, key) && forall y <- s :: key(y) != key(x)
    ensures Sorted(Insert(s, x, key), key)
    ensures var r := Insert(s, x, key); r != [] && (r[0] == x || (s != [] && r[0] == s[0]))
  {
    if s == [] {
    } else if Before(key(x), key(s[0])) {
      assert ([x] + s)[1..] == s;
    } else {
      BeforeTotal(key(x), key(s[0]));
      InsertSorted(s[1..], x, key);
      var r := [s[0]] + Insert(s[1..], x, key);
      assert r[1..] == Insert(s[1..], x, key);
    }
  }

  // No two of them have one key.
  ghost predicate Keyed<T>(s: seq<T>, key: T -> Key) {
    s == [] || (Keyed(s[1..], key) && forall y <- s[1..] :: key(y) != key(s[0]))
  }

  /** Sorting by distinct keys gives a strictly ascending sequence. */
  lemma {:induction false} SortSorts<T>(s: seq<T>, key: T -> Key)
    requires Keyed(s, key)
    ensures Sorted(Sort(s, key), key)
  {
    if s != [] {
      SortSorts(s[1..], key);
      SortMembers(s[1..], key);
      forall y | y in Sort(s[1..], key) ensures key(y) != key(s[0]) {
        assert y in multiset(Sort(s[1..], key));
      }
      InsertSorted(Sort(s[1..], key), s[0], key);
    }
  }

  lemma {:induction false} HeadIsLeast<T>(s: seq<T>, key: T -> Key, i: nat)
    requires Sorted(s, key) && 0 < i < |s|
    ensures Before(key(s[0]), key(s[i]))
  {
    if i > 1 {
      HeadIsLeast(s[1..], key, i - 1);
      BeforeTransitive(key(s[0]), key(s[1]), key(s[i]));
    }
  }

  /** A set of keyed things has one ascending sequence. */
  lemma {:induction false} SortedUnique<T>(s: seq<T>, t: seq<T>, key: T -> Key)
    requires Sorted(s, key) && Sorted(t, key) && forall x :: x in s <==> x in t
    ensures s == t
    decreases |s|
  {
    if s == [] {
      assert forall i :: 0 <= i < |t| ==> t[i] in t;
    } else {
      assert s[0] in t;
      var i :| 0 <= i < |t| && t[i] == s[0];
      assert t[0] in t && t[0] in s;
      var j :| 0 <= j < |s| && s[j] == t[0];
      if i > 0 { HeadIsLeast(t, key, i); }
      if j > 0 { HeadIsLeast(s, key, j); }
      BeforeTotal(key(s[0]), key(t[0]));
      forall x ensures x in s[1..] <==> x in t[1..] {
        NotAgain(s, key, x);
        NotAgain(t, key, x);
      }
      SortedUnique(s[1..], t[1..], key);
      assert s == [s[0]] + s[1..] && t == [t[0]] + t[1..];
    }
  }

  lemma NotAgain<T>(s: seq<T>, key: T -> Key, x: T)
    requires s != [] && Sorted(s, key)
    ensures x in s[1..] <==> x in s && x != s[0]
  {
    if x in s[1..] {
      var i :| 0 <= i < |s| - 1 && s[1..][i] == x;
      HeadIsLeast(s, key, i + 1);
      BeforeTotal(key(s[0]), key(s[0]));
    }
  }
}
