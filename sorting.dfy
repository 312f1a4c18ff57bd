/** `Array.prototype.sort` with a comparator of the form `(a, b) => key(b) - key(a)`:
    a stable sort that puts larger keys first. The model sorts by insertion and
    proves the three facts that pin the result down: it is ordered by the key,
    it is a permutation of the input, and elements with equal keys keep their
    relative order. */
module Sorting {
  import opened Seqs

  ghost predicate Descending<T>(s: seq<T>, key: T -> real)
  {
    forall i, j :: 0 <= i < j < |s| ==> key(s[i]) >= key(s[j])
  }

  /** Places `x` before the first element whose key is not larger than its own. */
  function Insert<T>(x: T, s: seq<T>, key: T -> real): seq<T>
  {
    if s == [] then [x]
    else if key(x) >= key(s[0]) then [x] + s
    else [s[0]] + Insert(x, s[1..], key)
  }

  function SortDesc<T>(s: seq<T>, key: T -> real): seq<T>
  {
    if s == [] then [] else Insert(s[0], SortDesc(s[1..], key), key)
  }

  /** The predicate "has key k", used to state stability. */
  function HasKey<T>(key: T -> real, k: real): T -> bool
  {
    x => key(x) == k
  }

  lemma {:induction false} InsertPermutation<T>(x: T, s: seq<T>, key: T -> real)
    ensures multiset(Insert(x, s, key)) == multiset(s) + multiset{x}
    ensures |Insert(x, s, key)| == |s| + 1
  {
    if s != [] && key(x) < key(s[0]) {
      InsertPermutation(x, s[1..], key);
      assert s == [s[0]] + s[1..];
    }
  }

  lemma {:induction false} InsertBounded<T>(x: T, s: seq<T>, key: T -> real, b: real)
    requires key(x) <= b
    requires forall i :: 0 <= i < |s| ==> key(s[i]) <= b
    ensures forall i :: 0 <= i < |Insert(x, s, key)| ==> key(Insert(x, s, key)[i]) <= b
  {
    if s != [] && key(x) < key(s[0]) {
      InsertBounded(x, s[1..], key, b);
    }
  }

  lemma {:induction false} InsertDescending<T>(x: T, s: seq<T>, key: T -> real)
    requires Descending(s, key)
    ensures Descending(Insert(x, s, key), key)
  {
    if s == [] {
    } else if key(x) >= key(s[0]) {
      var t := [x] + s;
      forall i, j | 0 <= i < j < |t| ensures key(t[i]) >= key(t[j]) {
        assert t[j] == s[j - 1];
        if i > 0 {
          assert t[i] == s[i - 1];
        }
      }
    } else {
      var r := Insert(x, s[1..], key);
      InsertDescending(x, s[1..], key);
      InsertBounded(x, s[1..], key, key(s[0]));
      var t := [s[0]] + r;
      assert Insert(x, s, key) == t;
      forall i, j | 0 <= i < j < |t| ensures key(t[i]) >= key(t[j]) {
        assert t[j] == r[j - 1];
        if i > 0 {
          assert t[i] == r[i - 1];
        }
      }
    }
  }

  /** The result is ordered by the key, largest first, and is a permutation of the input. */
  lemma {:induction false} SortDescFacts<T>(s: seq<T>, key: T -> real)
    ensures Descending(SortDesc(s, key), key)
    ensures multiset(SortDesc(s, key)) == multiset(s)
    ensures |SortDesc(s, key)| == |s|
  {
    SortDescPermutation(s, key);
    SortDescOrdered(s, key);
  }

  lemma {:induction false} SortDescPermutation<T>(s: seq<T>, key: T -> real)
    ensures multiset(SortDesc(s, key)) == multiset(s)
    ensures |SortDesc(s, key)| == |s|
  {
    if s != [] {
      var r := SortDesc(s[1..], key);
      SortDescPermutation(s[1..], key);
      InsertPermutation(s[0], r, key);
      assert s == [s[0]] + s[1..];
      assert multiset(s) == multiset(s[1..]) + multiset{s[0]};
    }
  }

  lemma {:induction false} SortDescOrdered<T>(s: seq<T>, key: T -> real)
    ensures Descending(SortDesc(s, key), key)
  {
    if s != [] {
      SortDescOrdered(s[1..], key);
      InsertDescending(s[0], SortDesc(s[1..], key), key);
    }
  }

  lemma {:induction false} InsertStable<T>(x: T, s: seq<T>, key: T -> real, k: real)
    ensures Filter(Insert(x, s, key), HasKey(key, k)) == Filter([x] + s, HasKey(key, k))
  {
    var p := HasKey(key, k);
    if s != [] && key(x) < key(s[0]) {
      InsertStable(x, s[1..], key, k);
      assert ([s[0]] + Insert(x, s[1..], key))[1..] == Insert(x, s[1..], key);
      assert ([x] + s)[1..] == s;
      assert ([x] + s[1..])[1..] == s[1..];
    }
  }

  /** Stability: the elements with any one key appear in the same order as in the input. */
  lemma {:induction false} SortDescStable<T>(s: seq<T>, key: T -> real, k: real)
    ensures Filter(SortDesc(s, key), HasKey(key, k)) == Filter(s, HasKey(key, k))
  {
    if s != [] {
      var p := HasKey(key, k);
      SortDescStable(s[1..], key, k);
      InsertStable(s[0], SortDesc(s[1..], key), key, k);
      assert ([s[0]] + SortDesc(s[1..], key))[1..] == SortDesc(s[1..], key);
    }
  }
}
