/** Array helpers the TypeScript code uses through `filter`, `reduce`, `map`,
    `find`, `join` and `Array.from(new Set(...))`, written once as functions on
    sequences, with the facts the rest of the model relies on. */
module Seqs {

  datatype Option<T> = None | Some(value: T) {
    function GetOr(default: T): T {
      match this
      case Some(v) => v
      case None => default
    }
  }

  /** `s.filter(p)`: the elements that satisfy `p`, in their original order. */
  function Filter<T(==)>(s: seq<T>, p: T -> bool): (r: seq<T>)
    ensures |r| <= |s|
    ensures forall i :: 0 <= i < |r| ==> r[i] in s && p(r[i])
    ensures forall i :: 0 <= i < |s| && p(s[i]) ==> s[i] in r
  {
    if s == [] then [] else (if p(s[0]) then [s[0]] else []) + Filter(s[1..], p)
  }

  /** `s.map(f)`. */
  function Map<T, U>(s: seq<T>, f: T -> U): (r: seq<U>)
    ensures |r| == |s|
    ensures forall i :: 0 <= i < |s| ==> r[i] == f(s[i])
  {
    if s == [] then [] else [f(s[0])] + Map(s[1..], f)
  }

  /** `s.reduce((sum, x) => sum + f(x), 0)` over exact numbers. */
  function Sum<T>(s: seq<T>, f: T -> real): real
  {
    if s == [] then 0.0 else f(s[0]) + Sum(s[1..], f)
  }

  /** The function that is `f` where `p` holds and 0 elsewhere; summing it is
      the same as filtering by `p` first (see SumFilter). */
  function Masked<T>(f: T -> real, p: T -> bool): T -> real
  {
    x => if p(x) then f(x) else 0.0
  }

  /** `s.find(p)`: the first element satisfying `p`, if any. */
  function Find<T(==)>(s: seq<T>, p: T -> bool): (r: Option<T>)
    ensures r.None? <==> forall i :: 0 <= i < |s| ==> !p(s[i])
    ensures r.Some? ==> exists i :: 0 <= i < |s| && s[i] == r.value && p(s[i]) &&
                                    forall j :: 0 <= j < i ==> !p(s[j])
  {
    if s == [] then None
    else if p(s[0]) then Some(s[0])
    else
      var r := Find(s[1..], p);
      assert r.Some? ==> exists i :: 0 <= i < |s[1..]| && s[1..][i] == r.value && p(s[1..][i]) &&
                                     forall j :: 0 <= j < i ==> !p(s[1..][j]);
      if r.Some? then
        var i :| 0 <= i < |s[1..]| && s[1..][i] == r.value && p(s[1..][i]) &&
                 forall j :: 0 <= j < i ==> !p(s[1..][j]);
        assert s[i + 1] == r.value && forall j :: 0 <= j < i + 1 ==> !p(s[j]);
        r
      else r
  }

  ghost predicate NoDup<T>(s: seq<T>)
  {
    forall i, j :: 0 <= i < j < |s| ==> s[i] != s[j]
  }

  /** `Array.from(new Set(s))`: each element once, at its first occurrence. */
  function Dedup<T(==)>(s: seq<T>): seq<T>
  {
    if s == [] then []
    else
      var r := Dedup(s[..|s| - 1]);
      if s[|s| - 1] in r then r else r + [s[|s| - 1]]
  }

  /** `items.join(sep)`. */
  function Join(items: seq<string>, sep: string): string
  {
    if items == [] then ""
    else if |items| == 1 then items[0]
    else items[0] + sep + Join(items[1..], sep)
  }

  // ---------------------------------------------------------------------
  // Facts about these helpers

  lemma {:induction false} FilterAppend<T>(a: seq<T>, b: seq<T>, p: T -> bool)
    ensures Filter(a + b, p) == Filter(a, p) + Filter(b, p)
  {
    if a == [] {
      assert a + b == b;
    } else {
      assert (a + b)[1..] == a[1..] + b;
      FilterAppend(a[1..], b, p);
    }
  }

  /** Filtering keeps every occurrence of an element that passes and none of
      one that does not. */
  lemma {:induction false} FilterMultiset<T>(s: seq<T>, p: T -> bool)
    ensures forall x :: multiset(Filter(s, p))[x] == if p(x) then multiset(s)[x] else 0
    ensures multiset(Filter(s, p)) <= multiset(s)
  {
    if s != [] {
      FilterMultiset(s[1..], p);
      var head := if p(s[0]) then [s[0]] else [];
      assert Filter(s, p) == head + Filter(s[1..], p);
      assert multiset(Filter(s, p)) == multiset(head) + multiset(Filter(s[1..], p));
      assert s == [s[0]] + s[1..];
      assert multiset(s) == multiset{s[0]} + multiset(s[1..]);
    }
  }

  /** A filter that every element passes changes nothing. */
  lemma {:induction false} FilterAll<T>(s: seq<T>, p: T -> bool)
    requires forall i :: 0 <= i < |s| ==> p(s[i])
    ensures Filter(s, p) == s
  {
    if s != [] {
      FilterAll(s[1..], p);
    }
  }

  lemma {:induction false} SumAppend<T>(a: seq<T>, b: seq<T>, f: T -> real)
    ensures Sum(a + b, f) == Sum(a, f) + Sum(b, f)
  {
    if a == [] {
      assert a + b == b;
    } else {
      assert (a + b)[1..] == a[1..] + b;
      SumAppend(a[1..], b, f);
    }
  }

  /** Removing the element at index i takes exactly f(s[i]) off the sum. */
  lemma SumRemove<T>(s: seq<T>, i: nat, f: T -> real)
    requires i < |s|
    ensures Sum(s, f) == f(s[i]) + Sum(s[..i] + s[i + 1..], f)
  {
    assert s == s[..i] + [s[i]] + s[i + 1..];
    SumAppend(s[..i] + [s[i]], s[i + 1..], f);
    SumAppend(s[..i], [s[i]], f);
    SumAppend(s[..i], s[i + 1..], f);
  }

  /** A sum does not depend on the order of the elements. */
  lemma {:induction false} SumPermutation<T>(a: seq<T>, b: seq<T>, f: T -> real)
    requires multiset(a) == multiset(b)
    ensures Sum(a, f) == Sum(b, f)
  {
    if a != [] {
      assert a[0] in multiset(b);
      var i :| 0 <= i < |b| && b[i] == a[0];
      var rest := b[..i] + b[i + 1..];
      assert b == b[..i] + [b[i]] + b[i + 1..];
      assert a == [a[0]] + a[1..];
      assert multiset(b) == multiset(b[..i]) + multiset{b[i]} + multiset(b[i + 1..]);
      assert multiset(rest) == multiset(b[..i]) + multiset(b[i + 1..]);
      assert multiset(a) == multiset{a[0]} + multiset(a[1..]);
      assert multiset(a[1..]) == multiset(a) - multiset{a[0]};
      assert multiset(rest) == multiset(b) - multiset{b[i]};
      SumPermutation(a[1..], rest, f);
      SumRemove(b, i, f);
    }
  }

  /** Sums add pointwise: if f and g add up to h on every element, their sums do too. */
  lemma {:induction false} SumPointwise<T>(s: seq<T>, f: T -> real, g: T -> real, h: T -> real)
    requires forall i :: 0 <= i < |s| ==> f(s[i]) + g(s[i]) == h(s[i])
    ensures Sum(s, f) + Sum(s, g) == Sum(s, h)
  {
    if s != [] {
      SumPointwise(s[1..], f, g, h);
    }
  }

  /** Summing after a filter is summing the masked function. */
  lemma {:induction false} SumFilter<T>(s: seq<T>, p: T -> bool, f: T -> real)
    ensures Sum(Filter(s, p), f) == Sum(s, Masked(f, p))
  {
    if s != [] {
      SumFilter(s[1..], p, f);
      SumAppend(if p(s[0]) then [s[0]] else [], Filter(s[1..], p), f);
    }
  }

  lemma {:induction false} DedupSpec<T>(s: seq<T>)
    ensures NoDup(Dedup(s))
    ensures forall i :: 0 <= i < |s| ==> s[i] in Dedup(s)
    ensures forall i :: 0 <= i < |Dedup(s)| ==> Dedup(s)[i] in s
  {
    if s != [] {
      var init := s[..|s| - 1];
      DedupSpec(init);
      assert s == init + [s[|s| - 1]];
    }
  }

  /** Mapping a sequence maps its last element last. */
  lemma MapSnoc<T, U>(s: seq<T>, f: T -> U)
    requires s != []
    ensures Map(s, f) == Map(s[..|s| - 1], f) + [f(s[|s| - 1])]
  {
    var init := Map(s[..|s| - 1], f);
    var r := init + [f(s[|s| - 1])];
    forall i | 0 <= i < |r| ensures r[i] == Map(s, f)[i] {
      if i < |s| - 1 {
        assert r[i] == init[i] == f(s[..|s| - 1][i]);
      }
    }
  }

  /** Membership in a sequence with one more element at the end. */
  lemma InSnoc<T>(s: seq<T>, x: T, y: T)
    ensures y in s + [x] <==> y in s || y == x
  {
  }

  /** A new element appended to a sequence without repeats keeps it so. */
  lemma NoDupSnoc<T>(s: seq<T>, x: T)
    requires NoDup(s) && x !in s
    ensures NoDup(s + [x])
  {
    forall i, j | 0 <= i < j < |s| + 1 ensures (s + [x])[i] != (s + [x])[j] {
      if j == |s| {
        assert (s + [x])[i] == s[i];
      }
    }
  }

  /** Deduplicating a sequence without repeats returns it unchanged. */
  lemma {:induction false} DedupOfNoDup<T>(s: seq<T>)
    requires NoDup(s)
    ensures Dedup(s) == s
  {
    if s != [] {
      var init := s[..|s| - 1];
      assert NoDup(init);
      DedupOfNoDup(init);
      assert s[|s| - 1] !in init;
      assert s == init + [s[|s| - 1]];
    }
  }

  /** Appending more elements only adds to the end of the deduplicated
      sequence: the distinct elements of `a` come first, in their order. */
  lemma {:induction false} DedupPrefix<T>(a: seq<T>, b: seq<T>)
    ensures |Dedup(a)| <= |Dedup(a + b)|
    ensures Dedup(a + b)[..|Dedup(a)|] == Dedup(a)
  {
    if b == [] {
      assert a + b == a;
    } else {
      var init := b[..|b| - 1];
      DedupPrefix(a, init);
      assert (a + b)[..|a + b| - 1] == a + init;
    }
  }

  /** Joining two non-empty lists is joining each and putting `sep` between. */
  lemma {:induction false} JoinAppend(a: seq<string>, b: seq<string>, sep: string)
    requires a != [] && b != []
    ensures Join(a + b, sep) == Join(a, sep) + sep + Join(b, sep)
  {
    if |a| == 1 {
      assert (a + b)[0] == a[0] && (a + b)[1..] == b;
    } else {
      assert (a + b)[0] == a[0] && (a + b)[1..] == a[1..] + b;
      JoinAppend(a[1..], b, sep);
    }
  }

  /** A join of non-empty items is empty exactly when there are no items. */
  lemma {:induction false} JoinEmpty(items: seq<string>, sep: string)
    requires forall i :: 0 <= i < |items| ==> items[i] != ""
    ensures Join(items, sep) == "" <==> items == []
  {
    if |items| > 1 {
      assert |Join(items, sep)| >= |items[0]| > 0;
    }
  }
}
