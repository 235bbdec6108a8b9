/** A JavaScript object used as a dictionary of arrays, the accumulator of
    both `groupMessagesByDate` functions: string keys that keep their
    insertion order (the order `Object.entries` lists them in), each bound to
    an array that elements are pushed onto. */
module Grouping {

  datatype Groups<K(==), T> = Groups(order: seq<K>, buckets: map<K, seq<T>>)

  predicate Distinct<K(==)>(s: seq<K>)
  {
    forall i, j :: 0 <= i < j < |s| ==> s[i] != s[j]
  }

  /** The shape every accumulator built by `Push` keeps: each key listed
      once, the listed keys are exactly the bound ones, and no bucket is
      empty. */
  ghost predicate WellFormed<K, T>(g: Groups<K, T>)
  {
    && Distinct(g.order)
    && (forall k :: k in g.buckets ==> k in g.order)
    && (forall k :: k in g.order ==> k in g.buckets)
    && (forall k :: k in g.buckets ==> g.buckets[k] != [])
  }

  /** `acc[k] = acc[k] || []; acc[k].push(x)`: a new key goes to the end of
      the key order; an existing key keeps its place and its bucket grows. */
  function Push<K(==), T>(g: Groups<K, T>, k: K, x: T): Groups<K, T>
  {
    if k in g.buckets then Groups(g.order, g.buckets[k := g.buckets[k] + [x]])
    else Groups(g.order + [k], g.buckets[k := [x]])
  }

  /** The accumulator after pushing every element of `xs`, in order, under
      its key. */
  function GroupBy<K(==), T>(xs: seq<T>, key: T -> K): Groups<K, T>
  {
    if xs == [] then Groups([], map[])
    else Push(GroupBy(xs[..|xs| - 1], key), key(xs[|xs| - 1]), xs[|xs| - 1])
  }

  /** The reference definition a bucket is checked against: the elements of
      `xs` whose key is `k`, in their order in `xs`. */
  function Select<K(==), T>(xs: seq<T>, key: T -> K, k: K): seq<T>
  {
    if xs == [] then []
    else Select(xs[..|xs| - 1], key, k) + (if key(xs[|xs| - 1]) == k then [xs[|xs| - 1]] else [])
  }

  /** The keys that occur in `xs`. */
  function KeySet<K(==), T>(xs: seq<T>, key: T -> K): set<K>
  {
    set i | 0 <= i < |xs| :: key(xs[i])
  }

  /** How many elements the buckets listed in `order` hold together. */
  function Total<K(==), T>(order: seq<K>, buckets: map<K, seq<T>>): nat
    requires forall k :: k in order ==> k in buckets
  {
    if order == [] then 0
    else Total(order[..|order| - 1], buckets) + |buckets[order[|order| - 1]]|
  }

  /** Grouping is a partition by key: the key order lists each key of `xs`
      once, and the bucket of a key holds exactly the elements with that key,
      in their original relative order. */
  lemma {:induction false} GroupByBuckets<K, T>(xs: seq<T>, key: T -> K)
    ensures WellFormed(GroupBy(xs, key))
    ensures GroupBy(xs, key).buckets.Keys == KeySet(xs, key)
    ensures forall k :: k in GroupBy(xs, key).buckets ==> GroupBy(xs, key).buckets[k] == Select(xs, key, k)
  {
    if xs != [] {
      var init, x := xs[..|xs| - 1], xs[|xs| - 1];
      GroupByBuckets(init, key);
      var g0 := GroupBy(init, key);
      var g := GroupBy(xs, key);
      assert g == Push(g0, key(x), x);
      assert KeySet(xs, key) == KeySet(init, key) + {key(x)} by {
        forall k | k in KeySet(xs, key) ensures k in KeySet(init, key) + {key(x)} {
          var i :| 0 <= i < |xs| && key(xs[i]) == k;
          if i < |xs| - 1 { assert init[i] == xs[i]; }
        }
        forall k | k in KeySet(init, key) ensures k in KeySet(xs, key) {
          var i :| 0 <= i < |init| && key(init[i]) == k;
          assert xs[i] == init[i];
        }
      }
      if key(x) !in g0.buckets {
        SelectAbsent(init, key, key(x));
        forall i, j | 0 <= i < j < |g.order| ensures g.order[i] != g.order[j] {
          if j == |g.order| - 1 { assert g.order[i] in g0.order; }
        }
      }
    }
  }

  /** No element is lost or repeated: the buckets together hold exactly as
      many elements as `xs`. */
  lemma {:induction false} GroupByTotal<K, T>(xs: seq<T>, key: T -> K)
    ensures WellFormed(GroupBy(xs, key))
    ensures Total(GroupBy(xs, key).order, GroupBy(xs, key).buckets) == |xs|
  {
    GroupByBuckets(xs, key);
    if xs != [] {
      var init, x := xs[..|xs| - 1], xs[|xs| - 1];
      GroupByTotal(init, key);
      var g0 := GroupBy(init, key);
      if key(x) in g0.buckets {
        TotalGrow(g0.order, g0.buckets, key(x), x);
      } else {
        TotalFresh(g0.order, g0.buckets, key(x), [x]);
        assert (g0.order + [key(x)])[..|g0.order|] == g0.order;
      }
    }
  }

  /** Binding a key that is not listed does not change the total. */
  lemma {:induction false} TotalFresh<K, T>(order: seq<K>, buckets: map<K, seq<T>>, k: K, v: seq<T>)
    requires forall k' :: k' in order ==> k' in buckets
    requires k !in order
    ensures Total(order, buckets[k := v]) == Total(order, buckets)
  {
    if order != [] {
      TotalFresh(order[..|order| - 1], buckets, k, v);
    }
  }

  /** Pushing onto the bucket of a listed key adds one to the total. */
  lemma {:induction false} TotalGrow<K, T>(order: seq<K>, buckets: map<K, seq<T>>, k: K, x: T)
    requires forall k' :: k' in order ==> k' in buckets
    requires Distinct(order) && k in order
    ensures Total(order, buckets[k := buckets[k] + [x]]) == Total(order, buckets) + 1
  {
    var init, last := order[..|order| - 1], order[|order| - 1];
    if last == k {
      assert k !in init by {
        forall i | 0 <= i < |init| ensures init[i] != k {
          assert init[i] == order[i];
        }
      }
      TotalFresh(init, buckets, k, buckets[k] + [x]);
    } else {
      TotalGrow(init, buckets, k, x);
    }
  }

  /** Every element of `xs` is in the bucket of its own key, and a bucket
      holds only elements of its key: each element lands in exactly one
      group. */
  lemma {:induction false} SelectMembers<K, T>(xs: seq<T>, key: T -> K, k: K)
    ensures forall y :: y in Select(xs, key, k) ==> key(y) == k && y in xs
    ensures forall i :: 0 <= i < |xs| && key(xs[i]) == k ==> xs[i] in Select(xs, key, k)
  {
    if xs != [] {
      var init := xs[..|xs| - 1];
      SelectMembers(init, key, k);
      forall i | 0 <= i < |xs| - 1 && key(xs[i]) == k ensures xs[i] in Select(xs, key, k) {
        assert xs[i] == init[i];
      }
    }
  }

  /** A key that does not occur selects nothing. */
  lemma {:induction false} SelectAbsent<K, T>(xs: seq<T>, key: T -> K, k: K)
    requires k !in KeySet(xs, key)
    ensures Select(xs, key, k) == []
  {
    if xs != [] {
      var init := xs[..|xs| - 1];
      assert KeySet(init, key) <= KeySet(xs, key) by {
        forall k' | k' in KeySet(init, key) ensures k' in KeySet(xs, key) {
          var i :| 0 <= i < |init| && key(init[i]) == k';
          assert xs[i] == init[i];
        }
      }
      SelectAbsent(init, key, k);
    }
  }

  /** Grouping one more element is one more `Push`. */
  lemma GroupBySnoc<K, T>(xs: seq<T>, i: nat, key: T -> K)
    requires i < |xs|
    ensures GroupBy(xs[..i + 1], key) == Push(GroupBy(xs[..i], key), key(xs[i]), xs[i])
  {
    assert xs[..i + 1][..i] == xs[..i];
  }
}
