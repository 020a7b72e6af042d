/** Sorting by a key, as done by `Array.prototype.sort` with a key comparator in
    the admin user list and by MongoDB's `sort({ field: -1 })` in the leaderboard.
    Both leave the order of equal keys unspecified; the model fixes one order
    (insertion sort) and states only what is promised: a permutation ordered by key. */
module Sorting {
  import Seqs

  /** A sort key: a number, or a string compared the way JavaScript's `<` compares
      strings (code unit by code unit, a proper prefix first). */
  datatype SortKey = IntKey(n: int) | TextKey(s: string)

  predicate TextLess(a: string, b: string) {
    if a == [] then b != []
    else if b == [] then false
    else if a[0] != b[0] then a[0] < b[0]
    else TextLess(a[1..], b[1..])
  }

  /** Strict order on keys. Numbers are placed before strings so that the order is
      total; one sort only ever compares keys of one kind. */
  predicate KeyLess(a: SortKey, b: SortKey) {
    match (a, b)
    case (IntKey(x), IntKey(y)) => x < y
    case (TextKey(x), TextKey(y)) => TextLess(x, y)
    case (IntKey(_), TextKey(_)) => true
    case (TextKey(_), IntKey(_)) => false
  }

  lemma {:induction false} TextLessIrreflexive(a: string)
    ensures !TextLess(a, a)
  {
    if a != [] {
      TextLessIrreflexive(a[1..]);
    }
  }

  lemma {:induction false} TextLessTransitive(a: string, b: string, c: string)
    requires TextLess(a, b) && TextLess(b, c)
    ensures TextLess(a, c)
  {
    if a != [] && b != [] && c != [] && a[0] == b[0] && b[0] == c[0] {
      TextLessTransitive(a[1..], b[1..], c[1..]);
    }
  }

  lemma {:induction false} TextLessTotal(a: string, b: string)
    requires a != b
    ensures TextLess(a, b) || TextLess(b, a)
  {
    if a != [] && b != [] && a[0] == b[0] {
      assert a == [a[0]] + a[1..] && b == [b[0]] + b[1..];
      TextLessTotal(a[1..], b[1..]);
    }
  }

  lemma KeyLessIrreflexive(a: SortKey)
    ensures !KeyLess(a, a)
  {
    if a.TextKey? { TextLessIrreflexive(a.s); }
  }

  lemma KeyLessTransitive(a: SortKey, b: SortKey, c: SortKey)
    requires KeyLess(a, b) && KeyLess(b, c)
    ensures KeyLess(a, c)
  {
    if a.TextKey? && b.TextKey? && c.TextKey? { TextLessTransitive(a.s, b.s, c.s); }
  }

  lemma KeyLessTotal(a: SortKey, b: SortKey)
    requires a != b
    ensures KeyLess(a, b) || KeyLess(b, a)
  {
    if a.TextKey? && b.TextKey? { TextLessTotal(a.s, b.s); }
  }

  /** `a` may be placed before `b`: ascending, `b` is not smaller; descending,
      `b` is not larger. */
  predicate Precedes(a: SortKey, b: SortKey, desc: bool) {
    if desc then !KeyLess(a, b) else !KeyLess(b, a)
  }

  lemma PrecedesTotal(a: SortKey, b: SortKey, desc: bool)
    ensures Precedes(a, b, desc) || Precedes(b, a, desc)
  {
    if a == b {
      KeyLessIrreflexive(a);
    } else {
      KeyLessTotal(a, b);
      if KeyLess(a, b) && KeyLess(b, a) { KeyLessTransitive(a, b, a); KeyLessIrreflexive(a); }
    }
  }

  lemma PrecedesTransitive(a: SortKey, b: SortKey, c: SortKey, desc: bool)
    requires Precedes(a, b, desc) && Precedes(b, c, desc)
    ensures Precedes(a, c, desc)
  {
    if a != b && b != c {
      KeyLessTotal(a, b);
      KeyLessTotal(b, c);
      if desc {
        if KeyLess(a, c) { KeyLessTransitive(b, a, c); KeyLessTransitive(c, b, c); KeyLessIrreflexive(c); }
      } else {
        if KeyLess(c, a) { KeyLessTransitive(c, a, b); KeyLessTransitive(c, b, c); KeyLessIrreflexive(c); }
      }
    }
  }

  /** Every earlier element may precede every later one. */
  ghost predicate Sorted<T>(s: seq<T>, key: T -> SortKey, desc: bool) {
    forall i, j :: 0 <= i < j < |s| ==> Precedes(key(s[i]), key(s[j]), desc)
  }

  function Insert<T>(x: T, s: seq<T>, key: T -> SortKey, desc: bool): (r: seq<T>)
    ensures multiset(r) == multiset(s) + multiset{x}
    ensures |r| == |s| + 1
  {
    if s == [] then [x]
    else if Precedes(key(x), key(s[0]), desc) then [x] + s
    else
      assert s == [s[0]] + s[1..];
      [s[0]] + Insert(x, s[1..], key, desc)
  }

  /** The order fixed by the model: insertion sort. */
  function SortBy<T>(s: seq<T>, key: T -> SortKey, desc: bool): (r: seq<T>)
    ensures multiset(r) == multiset(s)
    ensures |r| == |s|
  {
    if s == [] then []
    else
      assert s == [s[0]] + s[1..];
      Insert(s[0], SortBy(s[1..], key, desc), key, desc)
  }

  lemma {:induction false} InsertSorted<T>(x: T, s: seq<T>, key: T -> SortKey, desc: bool)
    requires Sorted(s, key, desc)
    ensures Sorted(Insert(x, s, key, desc), key, desc)
  {
    var r := Insert(x, s, key, desc);
    if s == [] {
    } else if Precedes(key(x), key(s[0]), desc) {
      forall i, j | 0 <= i < j < |r| ensures Precedes(key(r[i]), key(r[j]), desc) {
        if i == 0 && j > 1 {
          PrecedesTransitive(key(x), key(s[0]), key(s[j - 1]), desc);
        }
      }
    } else {
      PrecedesTotal(key(x), key(s[0]), desc);
      var t := Insert(x, s[1..], key, desc);
      InsertSorted(x, s[1..], key, desc);
      assert r == [s[0]] + t;
      forall i, j | 0 <= i < j < |r| ensures Precedes(key(r[i]), key(r[j]), desc) {
        if i == 0 {
          // r[j] is x or an element of s[1..]
          var y := r[j];
          assert y in multiset(t);
          assert y in multiset(s[1..]) || y == x;
          if y != x {
            var k :| 0 <= k < |s[1..]| && s[1..][k] == y;
            assert s[k + 1] == y;
          }
        }
      }
    }
  }

  /** The sort yields a permutation (see SortBy) ordered by key. */
  lemma {:induction false} SortBySorted<T>(s: seq<T>, key: T -> SortKey, desc: bool)
    ensures Sorted(SortBy(s, key, desc), key, desc)
  {
    if s != [] {
      SortBySorted(s[1..], key, desc);
      InsertSorted(s[0], SortBy(s[1..], key, desc), key, desc);
    }
  }

  /** Inserting `x` adds `f(x)` to the images of the elements. */
  lemma {:induction false} InsertMap<T, U>(x: T, s: seq<T>, key: T -> SortKey, desc: bool, f: T -> U)
    ensures multiset(Seqs.Map(f, Insert(x, s, key, desc))) == multiset(Seqs.Map(f, s)) + multiset{f(x)}
  {
    if s == [] {
      assert Seqs.Map(f, [x]) == [f(x)];
    } else if Precedes(key(x), key(s[0]), desc) {
      Seqs.MapCons(f, x, s);
    } else {
      var t := Insert(x, s[1..], key, desc);
      assert Insert(x, s, key, desc) == [s[0]] + t;
      InsertMap(x, s[1..], key, desc, f);
      Seqs.MapCons(f, s[0], t);
      assert s == [s[0]] + s[1..];
      Seqs.MapCons(f, s[0], s[1..]);
    }
  }

  /** The sort only reorders: the images of the sorted elements are the images
      of the original ones, each as often. */
  lemma {:induction false} SortByMap<T, U>(s: seq<T>, key: T -> SortKey, desc: bool, f: T -> U)
    ensures multiset(Seqs.Map(f, SortBy(s, key, desc))) == multiset(Seqs.Map(f, s))
  {
    if s != [] {
      SortByMap(s[1..], key, desc, f);
      InsertMap(s[0], SortBy(s[1..], key, desc), key, desc, f);
      assert s == [s[0]] + s[1..];
      Seqs.MapCons(f, s[0], s[1..]);
    }
  }
}
