/** Keyed entries and the stable sort by key that canonical JSON relies on. */
module KeyOrder {

  datatype Field<+T> = Field(key: string, value: T)

  /** Code-point order, which on UTF-8 text is also byte order. */
  predicate KeyLess(a: string, b: string) {
    if b == [] then false
    else if a == [] then true
    else if a[0] != b[0] then a[0] < b[0]
    else KeyLess(a[1..], b[1..])
  }

  lemma {:induction false} KeyLessAsymmetric(a: string, b: string)
    requires KeyLess(a, b)
    ensures !KeyLess(b, a)
  {
    if a != [] && a[0] == b[0] {
      KeyLessAsymmetric(a[1..], b[1..]);
    }
  }

  lemma {:induction false} KeyLessTransitive(a: string, b: string, c: string)
    requires KeyLess(a, b) && KeyLess(b, c)
    ensures KeyLess(a, c)
  {
    if a != [] && a[0] == b[0] == c[0] {
      KeyLessTransitive(a[1..], b[1..], c[1..]);
    }
  }

  lemma {:induction false} KeyLessConnected(a: string, b: string)
    requires a != b
    ensures KeyLess(a, b) || KeyLess(b, a)
  {
    if a != [] && b != [] && a[0] == b[0] {
      assert a == [a[0]] + a[1..] && b == [b[0]] + b[1..];
      KeyLessConnected(a[1..], b[1..]);
    }
  }

  predicate SameKeys<A, B>(xs: seq<Field<A>>, ys: seq<Field<B>>) {
    |xs| == |ys| && forall i | 0 <= i < |xs| :: xs[i].key == ys[i].key
  }

  predicate DistinctKeys<T>(es: seq<Field<T>>) {
    forall i, j | 0 <= i < j < |es| :: es[i].key != es[j].key
  }

  ghost function KeySet<T>(es: seq<Field<T>>): set<string> {
    set i | 0 <= i < |es| :: es[i].key
  }

  /** Puts `e` before the first entry whose key is not smaller, so that entries
      with equal keys keep their order. */
  function Insert<T>(e: Field<T>, es: seq<Field<T>>): (r: seq<Field<T>>)
    ensures |r| == |es| + 1
  {
    if es == [] || !KeyLess(es[0].key, e.key) then [e] + es
    else [es[0]] + Insert(e, es[1..])
  }

  function SortByKey<T>(es: seq<Field<T>>): (r: seq<Field<T>>)
    ensures |r| == |es|
  {
    if es == [] then [] else Insert(es[0], SortByKey(es[1..]))
  }

  lemma {:induction false} InsertAdds<T>(e: Field<T>, es: seq<Field<T>>)
    ensures multiset(Insert(e, es)) == multiset{e} + multiset(es)
  {
    if es != [] && KeyLess(es[0].key, e.key) {
      InsertAdds(e, es[1..]);
      assert es == [es[0]] + es[1..];
    }
  }

  /** Sorting permutes. */
  lemma {:induction false} SortPermutes<T>(es: seq<Field<T>>)
    ensures multiset(SortByKey(es)) == multiset(es)
  {
    if es != [] {
      InsertAdds(es[0], SortByKey(es[1..]));
      SortPermutes(es[1..]);
      assert es == [es[0]] + es[1..];
    }
  }

  lemma SortKeepsMembers<T(!new)>(es: seq<Field<T>>)
    ensures forall x :: x in SortByKey(es) <==> x in es
  {
    SortPermutes(es);
    forall x ensures x in SortByKey(es) <==> x in es {
      assert x in SortByKey(es) <==> x in multiset(SortByKey(es));
      assert x in es <==> x in multiset(es);
    }
  }

  predicate SortedByKey<T>(es: seq<Field<T>>) {
    forall i | 0 < i < |es| :: !KeyLess(es[i].key, es[i - 1].key)
  }

  lemma {:induction false} InsertSorted<T>(e: Field<T>, es: seq<Field<T>>)
    requires SortedByKey(es)
    ensures SortedByKey(Insert(e, es))
  {
    if es != [] && KeyLess(es[0].key, e.key) {
      InsertSorted(e, es[1..]);
      KeyLessAsymmetric(es[0].key, e.key);
      var t := Insert(e, es[1..]);
      assert t[0] == e || t[0] == es[1];
    }
  }

  lemma {:induction false} SortSorts<T>(es: seq<Field<T>>)
    ensures SortedByKey(SortByKey(es))
  {
    if es != [] {
      SortSorts(es[1..]);
      InsertSorted(es[0], SortByKey(es[1..]));
    }
  }

  lemma {:induction false} SortFixesSorted<T>(es: seq<Field<T>>)
    requires SortedByKey(es)
    ensures SortByKey(es) == es
  {
    if es != [] {
      SortFixesSorted(es[1..]);
      if |es| > 1 {
        assert !KeyLess(es[1].key, es[0].key);
      }
    }
  }

  /** Two lists with the same keys are permuted alike, whatever the values are. */
  lemma {:induction false} InsertPointwise<A, B>(
      a: Field<A>, xs: seq<Field<A>>, b: Field<B>, ys: seq<Field<B>>, R: (A, B) -> bool)
    requires a.key == b.key && R(a.value, b.value)
    requires SameKeys(xs, ys)
    requires forall i | 0 <= i < |xs| :: R(xs[i].value, ys[i].value)
    ensures SameKeys(Insert(a, xs), Insert(b, ys))
    ensures forall i | 0 <= i < |xs| + 1 :: R(Insert(a, xs)[i].value, Insert(b, ys)[i].value)
  {
    if xs != [] && KeyLess(xs[0].key, a.key) {
      InsertPointwise(a, xs[1..], b, ys[1..], R);
    }
  }

  lemma {:induction false} SortPointwise<A, B>(xs: seq<Field<A>>, ys: seq<Field<B>>, R: (A, B) -> bool)
    requires SameKeys(xs, ys)
    requires forall i | 0 <= i < |xs| :: R(xs[i].value, ys[i].value)
    ensures SameKeys(SortByKey(xs), SortByKey(ys))
    ensures forall i | 0 <= i < |xs| :: R(SortByKey(xs)[i].value, SortByKey(ys)[i].value)
  {
    if xs != [] {
      SortPointwise(xs[1..], ys[1..], R);
      InsertPointwise(xs[0], SortByKey(xs[1..]), ys[0], SortByKey(ys[1..]), R);
    }
  }

  /** Sorting loses nothing when the order of the keys is known. */
  lemma {:induction false} InsertInjective<T>(a: Field<T>, xs: seq<Field<T>>, b: Field<T>, ys: seq<Field<T>>)
    requires a.key == b.key && SameKeys(xs, ys)
    requires Insert(a, xs) == Insert(b, ys)
    ensures a == b && xs == ys
  {
    var s, t := Insert(a, xs), Insert(b, ys);
    assert s[0] == t[0] && s[1..] == t[1..];
    if xs != [] && KeyLess(xs[0].key, a.key) {
      assert s == [xs[0]] + Insert(a, xs[1..]) && t == [ys[0]] + Insert(b, ys[1..]);
      InsertInjective(a, xs[1..], b, ys[1..]);
      assert xs == [xs[0]] + xs[1..] && ys == [ys[0]] + ys[1..];
    } else {
      assert s == [a] + xs && t == [b] + ys;
    }
  }

  lemma {:induction false} SortInjective<T>(xs: seq<Field<T>>, ys: seq<Field<T>>)
    requires SameKeys(xs, ys)
    requires SortByKey(xs) == SortByKey(ys)
    ensures xs == ys
  {
    if xs != [] {
      SortPointwise(xs[1..], ys[1..], (x: T, y: T) => true);
      InsertInjective(xs[0], SortByKey(xs[1..]), ys[0], SortByKey(ys[1..]));
      SortInjective(xs[1..], ys[1..]);
      assert xs == [xs[0]] + xs[1..] && ys == [ys[0]] + ys[1..];
    }
  }

  // ---- distinct keys: the sorted list is determined by its entries ---------

  ghost predicate StrictlySorted<T>(es: seq<Field<T>>) {
    forall i, j | 0 <= i < j < |es| :: KeyLess(es[i].key, es[j].key)
  }

  lemma {:induction false} InsertStrict<T>(e: Field<T>, es: seq<Field<T>>)
    requires StrictlySorted(es)
    requires forall i | 0 <= i < |es| :: es[i].key != e.key
    ensures StrictlySorted(Insert(e, es))
  {
    if es != [] {
      if KeyLess(es[0].key, e.key) {
        InsertStrict(e, es[1..]);
        var t := Insert(e, es[1..]);
        InsertAdds(e, es[1..]);
        forall j | 0 <= j < |t| ensures KeyLess(es[0].key, t[j].key) {
          assert t[j] in multiset(t);
          assert t[j] == e || t[j] in es[1..];
        }
      } else {
        KeyLessConnected(es[0].key, e.key);
        forall j | 0 < j < |es| ensures KeyLess(e.key, es[j].key) {
          KeyLessTransitive(e.key, es[0].key, es[j].key);
        }
      }
    }
  }

  lemma {:induction false} SortStrict<T>(es: seq<Field<T>>)
    requires DistinctKeys(es)
    ensures StrictlySorted(SortByKey(es))
  {
    if es != [] {
      var s := SortByKey(es[1..]);
      SortStrict(es[1..]);
      SortPermutes(es[1..]);
      forall i | 0 <= i < |s| ensures s[i].key != es[0].key {
        assert s[i] in multiset(s);
        assert s[i] in es[1..];
      }
      InsertStrict(es[0], s);
    }
  }

  lemma {:induction false} StrictlySortedUnique<T(!new)>(xs: seq<Field<T>>, ys: seq<Field<T>>)
    requires StrictlySorted(xs) && StrictlySorted(ys)
    requires forall x :: x in xs <==> x in ys
    ensures xs == ys
  {
    assert xs != [] ==> xs[0] in xs;
    assert ys != [] ==> ys[0] in ys;
    if xs != [] {
      assert xs[0] in ys && ys[0] in xs;
      HeadIsLeast(xs, ys[0]);
      HeadIsLeast(ys, xs[0]);
      if xs[0] != ys[0] {
        KeyLessAsymmetric(xs[0].key, ys[0].key);
      }
      assert xs == [xs[0]] + xs[1..] && ys == [ys[0]] + ys[1..];
      forall x ensures x in xs[1..] <==> x in ys[1..] {
        TailExcludesHead(xs);
        TailExcludesHead(ys);
        assert x in xs <==> x == xs[0] || x in xs[1..];
        assert x in ys <==> x == ys[0] || x in ys[1..];
      }
      StrictlySortedUnique(xs[1..], ys[1..]);
    }
  }

  lemma HeadIsLeast<T>(es: seq<Field<T>>, e: Field<T>)
    requires StrictlySorted(es) && e in es
    ensures e == es[0] || KeyLess(es[0].key, e.key)
  {
  }

  lemma KeyLessIrreflexive(a: string)
    ensures !KeyLess(a, a)
  {
    if KeyLess(a, a) {
      KeyLessAsymmetric(a, a);
    }
  }

  lemma TailExcludesHead<T>(es: seq<Field<T>>)
    requires es != [] && StrictlySorted(es)
    ensures es[0] !in es[1..]
  {
    KeyLessIrreflexive(es[0].key);
    assert forall j | 0 <= j < |es[1..]| :: KeyLess(es[0].key, es[1..][j].key);
  }
}
