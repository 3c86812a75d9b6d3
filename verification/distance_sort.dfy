/** Stable ascending sort of entries by a distance key, the behaviour of
    `Array.prototype.sort((a, b) => a.distance - b.distance)`. */
module DistanceSort {

  /** A distance as a JavaScript number takes it: kilometres, or `Infinity`. */
  datatype Distance = Km(km: real) | Infinite

  /** `a` may precede `b`: the comparator `a - b` is not positive. `Infinity - Infinity`
      is NaN, which the sort treats as "equal". */
  predicate DistLe(a: Distance, b: Distance) {
    b.Infinite? || (a.Km? && a.km <= b.km)
  }

  lemma DistLeTotalPreorder(a: Distance, b: Distance, c: Distance)
    ensures DistLe(a, a)
    ensures DistLe(a, b) || DistLe(b, a)
    ensures DistLe(a, b) && DistLe(b, c) ==> DistLe(a, c)
    ensures DistLe(a, b) && DistLe(b, a) <==> a == b
  {
  }

  predicate Sorted<T>(s: seq<T>, key: T -> Distance) {
    forall i, j :: 0 <= i < j < |s| ==> DistLe(key(s[i]), key(s[j]))
  }

  /** Places `x` in front of the first entry that is not closer than it. */
  function Insert<T>(x: T, s: seq<T>, key: T -> Distance): seq<T> {
    if s == [] || DistLe(key(x), key(s[0])) then [x] + s
    else [s[0]] + Insert(x, s[1..], key)
  }

  /** The sorted sequence: each entry, taken from the back, inserted in front of its equals. */
  function SortByDistance<T>(s: seq<T>, key: T -> Distance): seq<T> {
    if s == [] then [] else Insert(s[0], SortByDistance(s[1..], key), key)
  }

  /** The entries of `s` whose key is `d`, in their order in `s`. */
  function AtDistance<T>(s: seq<T>, key: T -> Distance, d: Distance): (r: seq<T>)
    ensures forall k :: 0 <= k < |r| ==> key(r[k]) == d
  {
    if s == [] then []
    else (if key(s[0]) == d then [s[0]] else []) + AtDistance(s[1..], key, d)
  }

  lemma {:induction false} InsertPermutes<T>(x: T, s: seq<T>, key: T -> Distance)
    ensures multiset(Insert(x, s, key)) == multiset(s) + multiset{x}
    decreases |s|
  {
    if s != [] && !DistLe(key(x), key(s[0])) {
      InsertPermutes(x, s[1..], key);
      assert s == [s[0]] + s[1..];
    }
  }

  lemma {:induction false} InsertSorted<T>(x: T, s: seq<T>, key: T -> Distance)
    requires Sorted(s, key)
    ensures Sorted(Insert(x, s, key), key)
    decreases |s|
  {
    var r := Insert(x, s, key);
    if s == [] {
    } else if DistLe(key(x), key(s[0])) {
      forall i, j | 0 <= i < j < |r| ensures DistLe(key(r[i]), key(r[j])) {
        if i == 0 {
          DistLeTotalPreorder(key(x), key(s[0]), key(s[j - 1]));
        } else {
          assert r[i] == s[i - 1] && r[j] == s[j - 1];
        }
      }
    } else {
      var t := Insert(x, s[1..], key);
      InsertSorted(x, s[1..], key);
      InsertPermutes(x, s[1..], key);
      assert r == [s[0]] + t;
      DistLeTotalPreorder(key(x), key(s[0]), key(x));
      forall j | 0 <= j < |t| ensures DistLe(key(s[0]), key(t[j])) {
        assert t[j] in multiset(t);
        if t[j] != x {
          assert t[j] in multiset(s[1..]);
          var m :| 0 <= m < |s[1..]| && s[1..][m] == t[j];
          assert s[1..][m] == s[m + 1];
        }
      }
      forall i, j | 0 <= i < j < |r| ensures DistLe(key(r[i]), key(r[j])) {
        if i == 0 {
          assert r[j] == t[j - 1];
        } else {
          assert r[i] == t[i - 1] && r[j] == t[j - 1];
        }
      }
    }
  }

  /** Inserting into a sorted sequence puts `x` in front of every entry at its own distance. */
  lemma {:induction false} InsertStable<T>(x: T, s: seq<T>, key: T -> Distance, d: Distance)
    requires Sorted(s, key)
    ensures AtDistance(Insert(x, s, key), key, d)
         == (if key(x) == d then [x] else []) + AtDistance(s, key, d)
    decreases |s|
  {
    if s == [] || DistLe(key(x), key(s[0])) {
      assert Insert(x, s, key)[1..] == s;
    } else {
      var t := Insert(x, s[1..], key);
      assert Sorted(s[1..], key);
      InsertStable(x, s[1..], key, d);
      assert Insert(x, s, key) == [s[0]] + t;
      assert ([s[0]] + t)[1..] == t;
      DistLeTotalPreorder(key(x), key(s[0]), key(x));
      assert key(s[0]) != key(x);
    }
  }

  /** The sort rearranges: every entry is kept, as often as it occurs. */
  lemma {:induction false} SortPermutes<T>(s: seq<T>, key: T -> Distance)
    ensures multiset(SortByDistance(s, key)) == multiset(s)
    ensures |SortByDistance(s, key)| == |s|
    decreases |s|
  {
    if s != [] {
      SortPermutes(s[1..], key);
      InsertPermutes(s[0], SortByDistance(s[1..], key), key);
      assert s == [s[0]] + s[1..];
    }
  }

  /** The sort orders entries by non-decreasing distance. */
  lemma {:induction false} SortSorted<T>(s: seq<T>, key: T -> Distance)
    ensures Sorted(SortByDistance(s, key), key)
    decreases |s|
  {
    if s != [] {
      SortSorted(s[1..], key);
      InsertSorted(s[0], SortByDistance(s[1..], key), key);
    }
  }

  /** The sort is stable: entries at equal distance keep their original relative order. */
  lemma {:induction false} SortStable<T>(s: seq<T>, key: T -> Distance, d: Distance)
    ensures AtDistance(SortByDistance(s, key), key, d) == AtDistance(s, key, d)
    decreases |s|
  {
    if s != [] {
      SortStable(s[1..], key, d);
      SortSorted(s[1..], key);
      InsertStable(s[0], SortByDistance(s[1..], key), key, d);
    }
  }
}
