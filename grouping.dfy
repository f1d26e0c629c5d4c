/**
 * Grouping of result records by a key, as the analysis scripts do with Python dictionaries
 * (which keep keys in first-insertion order) and as Go does with maps (which keep no order).
 * An insertion-ordered dictionary is a sequence of entries with distinct keys; building it by
 * folding the records one at a time is shown equal to folding, key by key, only the records
 * that carry that key.
 */
module Grouping {
  import opened Outcomes

  datatype Entry<K, A> = Entry(key: K, val: A)

  function Keys<K, A>(es: seq<Entry<K, A>>): (ks: seq<K>)
    ensures |ks| == |es|
    ensures forall i :: 0 <= i < |es| ==> ks[i] == es[i].key
  {
    if es == [] then [] else [es[0].key] + Keys(es[1..])
  }

  ghost predicate DistinctKeys<K, A>(es: seq<Entry<K, A>>)
  {
    forall i, j :: 0 <= i < j < |es| ==> es[i].key != es[j].key
  }

  /** Dictionary lookup `d.get(k)`. */
  function Find<K(==), A>(es: seq<Entry<K, A>>, k: K): (r: Option<A>)
    ensures r.None? <==> k !in Keys(es)
  {
    if es == [] then None else if es[0].key == k then Some(es[0].val) else Find(es[1..], k)
  }

  /**
   * A dictionary whose values are `f` of another's, key for key, answers every lookup with `f`
   * of the other's answer.
   */
  lemma {:induction false} FindMap<K, A, B>(es: seq<Entry<K, A>>, s: seq<Entry<K, B>>, f: A --> B, k: K)
    requires |s| == |es| && forall i :: 0 <= i < |es| ==> f.requires(es[i].val) && s[i] == Entry(es[i].key, f(es[i].val))
    ensures Find(s, k).None? <==> Find(es, k).None?
    ensures Find(es, k).Some? ==> f.requires(Find(es, k).value) && Find(s, k) == Some(f(Find(es, k).value))
  {
    if es != [] && es[0].key != k {
      assert forall i :: 0 <= i < |es| - 1 ==> es[1..][i] == es[i + 1] && s[1..][i] == s[i + 1];
      FindMap(es[1..], s[1..], f, k);
    }
  }

  /**
   * `if k not in d: d[k] = init` followed by `d[k] = step(d[k], x)`: the entry for `k` is
   * updated in place, or a new entry is appended after all existing ones.
   */
  function Upsert<K(==), V, A>(es: seq<Entry<K, A>>, k: K, init: A, step: (A, V) -> A, x: V): seq<Entry<K, A>>
  {
    if es == [] then [Entry(k, step(init, x))]
    else if es[0].key == k then [Entry(k, step(es[0].val, x))] + es[1..]
    else [es[0]] + Upsert(es[1..], k, init, step, x)
  }

  /** Left fold, the running accumulator of a `for` loop over `xs`. */
  function FoldSeq<V, A>(xs: seq<V>, init: A, step: (A, V) -> A): A
  {
    if xs == [] then init else step(FoldSeq(xs[..|xs| - 1], init, step), xs[|xs| - 1])
  }

  /** Regrouping a concatenation; stated once so that traces built across calls line up. */
  lemma AppendAssociates<T>(a: seq<T>, b: seq<T>, c: seq<T>)
    ensures (a + b) + c == a + (b + c)
  {
  }

  /** The records whose key is `k`, in their original order. */
  function Filter<V, K(==)>(xs: seq<V>, key: V -> K, k: K): (r: seq<V>)
    ensures |r| <= |xs|
    ensures forall i :: 0 <= i < |r| ==> key(r[i]) == k
  {
    if xs == [] then []
    else if key(xs[|xs| - 1]) == k then Filter(xs[..|xs| - 1], key, k) + [xs[|xs| - 1]]
    else Filter(xs[..|xs| - 1], key, k)
  }

  /** An element is kept exactly when it occurs and has the key. */
  lemma {:induction false} FilterMembers<V, K>(xs: seq<V>, key: V -> K, k: K)
    ensures forall x :: x in Filter(xs, key, k) <==> x in xs && key(x) == k
  {
    if xs != [] {
      FilterMembers(xs[..|xs| - 1], key, k);
      assert xs == xs[..|xs| - 1] + [xs[|xs| - 1]];
    }
  }

  /** The dictionary built by one pass over `xs` that upserts each record under its key. */
  function GroupInto<V, K(==), A>(xs: seq<V>, key: V -> K, init: A, step: (A, V) -> A): seq<Entry<K, A>>
  {
    if xs == [] then []
    else Upsert(GroupInto(xs[..|xs| - 1], key, init, step), key(xs[|xs| - 1]), init, step, xs[|xs| - 1])
  }

  /** Upserting appends a key only when it was new: keys stay in first-insertion order. */
  lemma {:induction false} UpsertKeys<K, V, A>(es: seq<Entry<K, A>>, k: K, init: A, step: (A, V) -> A, x: V)
    ensures Keys(Upsert(es, k, init, step, x)) == if k in Keys(es) then Keys(es) else Keys(es) + [k]
  {
    var u := Upsert(es, k, init, step, x);
    if es == [] {
    } else if es[0].key == k {
      assert u[1..] == es[1..];
      assert Keys(u) == [k] + Keys(es[1..]) == Keys(es);
    } else {
      UpsertKeys(es[1..], k, init, step, x);
      assert u[1..] == Upsert(es[1..], k, init, step, x);
      assert Keys(es) == [es[0].key] + Keys(es[1..]);
    }
  }

  /** Upserting changes the entry of its own key and no other. */
  lemma {:induction false} UpsertFind<K, V, A>(es: seq<Entry<K, A>>, k: K, init: A, step: (A, V) -> A, x: V, k': K)
    ensures Find(Upsert(es, k, init, step, x), k') ==
      if k' == k then Some(step(Find(es, k).GetOr(init), x)) else Find(es, k')
  {
    var u := Upsert(es, k, init, step, x);
    if es == [] {
    } else if es[0].key == k {
      assert u[1..] == es[1..];
    } else {
      UpsertFind(es[1..], k, init, step, x, k');
      assert u[1..] == Upsert(es[1..], k, init, step, x);
    }
  }

  lemma UpsertDistinct<K, V, A>(es: seq<Entry<K, A>>, k: K, init: A, step: (A, V) -> A, x: V)
    requires DistinctKeys(es)
    ensures DistinctKeys(Upsert(es, k, init, step, x))
  {
    var u := Upsert(es, k, init, step, x);
    UpsertKeys(es, k, init, step, x);
    var ks := Keys(u);
    forall i, j | 0 <= i < j < |u| ensures u[i].key != u[j].key {
      assert ks[i] == u[i].key && ks[j] == u[j].key;
      if k in Keys(es) {
        assert ks == Keys(es);
      } else {
        assert ks == Keys(es) + [k];
      }
    }
  }

  /** The grouped dictionary has one entry per distinct key, in order of first appearance. */
  lemma {:induction false} GroupKeys<V, K, A>(xs: seq<V>, key: V -> K, init: A, step: (A, V) -> A)
    ensures DistinctKeys(GroupInto(xs, key, init, step))
    ensures forall k :: k in Keys(GroupInto(xs, key, init, step)) <==> |Filter(xs, key, k)| > 0
  {
    if xs != [] {
      var prefix, x := xs[..|xs| - 1], xs[|xs| - 1];
      GroupKeys(prefix, key, init, step);
      var es := GroupInto(prefix, key, init, step);
      UpsertKeys(es, key(x), init, step, x);
      UpsertDistinct(es, key(x), init, step, x);
      forall k ensures k in Keys(GroupInto(xs, key, init, step)) <==> |Filter(xs, key, k)| > 0 {
        assert k == key(x) ==> |Filter(xs, key, k)| > 0;
      }
    }
  }

  /**
   * The central fact about one-pass grouping: the entry for `k` is what a loop over only the
   * records with key `k` would have accumulated, and there is an entry exactly when such records exist.
   */
  lemma {:induction false} GroupFind<V, K, A>(xs: seq<V>, key: V -> K, init: A, step: (A, V) -> A, k: K)
    ensures Find(GroupInto(xs, key, init, step), k) ==
      if |Filter(xs, key, k)| == 0 then None else Some(FoldSeq(Filter(xs, key, k), init, step))
  {
    if xs != [] {
      var prefix, x := xs[..|xs| - 1], xs[|xs| - 1];
      GroupFind(prefix, key, init, step, k);
      UpsertFind(GroupInto(prefix, key, init, step), key(x), init, step, x, k);
      if key(x) == k {
        var f := Filter(xs, key, k);
        assert f[..|f| - 1] == Filter(prefix, key, k);
      }
    }
  }

  /** Go's `m[k] = step(m[k], x)` over a map whose missing keys read as the zero value. */
  function MapGroupInto<V, K(==), A>(xs: seq<V>, key: V -> K, zero: A, step: (A, V) -> A): map<K, A>
  {
    if xs == [] then map[]
    else
      var m := MapGroupInto(xs[..|xs| - 1], key, zero, step);
      var k := key(xs[|xs| - 1]);
      m[k := step(if k in m then m[k] else zero, xs[|xs| - 1])]
  }

  /** The map version of the central fact: map keys are the keys that occur, order aside. */
  lemma {:induction false} MapGroupFind<V, K, A>(xs: seq<V>, key: V -> K, zero: A, step: (A, V) -> A, k: K)
    ensures k in MapGroupInto(xs, key, zero, step) <==> |Filter(xs, key, k)| > 0
    ensures k in MapGroupInto(xs, key, zero, step) ==>
      MapGroupInto(xs, key, zero, step)[k] == FoldSeq(Filter(xs, key, k), zero, step)
  {
    if xs != [] {
      var prefix, x := xs[..|xs| - 1], xs[|xs| - 1];
      MapGroupFind(prefix, key, zero, step, k);
      if key(x) == k {
        var f := Filter(xs, key, k);
        assert f[..|f| - 1] == Filter(prefix, key, k);
      }
    }
  }

  /** A loop that appends `f(x)` for each `x` whose `f(x)` is present, in order. */
  function Collect<T, U>(xs: seq<T>, f: T -> Option<U>): seq<U>
  {
    if xs == [] then []
    else
      var rest := Collect(xs[..|xs| - 1], f);
      match f(xs[|xs| - 1])
      case Some(y) => rest + [y]
      case None => rest
  }

  /** Collecting over one more element appends that element's value, if it has one. */
  lemma CollectSnoc<T, U>(xs: seq<T>, x: T, f: T -> Option<U>)
    ensures Collect(xs + [x], f) == Collect(xs, f) + (if f(x).Some? then [f(x).value] else [])
  {
    assert (xs + [x])[..|xs|] == xs;
  }

  /** The same, for a loop over `xs` that has handled its first `i` elements. */
  lemma CollectSnocAt<T, U>(xs: seq<T>, i: nat, f: T -> Option<U>)
    requires i < |xs|
    ensures Collect(xs[..i + 1], f) == Collect(xs[..i], f) + (if f(xs[i]).Some? then [f(xs[i]).value] else [])
  {
    assert xs[..i + 1] == xs[..i] + [xs[i]];
    CollectSnoc(xs[..i], xs[i], f);
  }

  /** Collecting over a concatenation collects each part in turn. */
  lemma {:induction false} CollectAppend<T, U>(xs: seq<T>, ys: seq<T>, f: T -> Option<U>)
    ensures Collect(xs + ys, f) == Collect(xs, f) + Collect(ys, f)
    decreases |ys|
  {
    if ys == [] {
      assert xs + ys == xs;
    } else {
      var init, last := ys[..|ys| - 1], ys[|ys| - 1];
      assert xs + ys == (xs + init) + [last];
      assert (xs + ys)[..|xs + ys| - 1] == xs + init;
      CollectAppend(xs, init, f);
    }
  }

  /** A collecting loop appends at most one element per input. */
  lemma {:induction false} CollectLength<T, U>(xs: seq<T>, f: T -> Option<U>)
    ensures |Collect(xs, f)| <= |xs|
  {
    if xs != [] {
      CollectLength(xs[..|xs| - 1], f);
    }
  }

  /** Every collected value comes from some input element. */
  lemma {:induction false} CollectFrom<T, U>(xs: seq<T>, f: T -> Option<U>)
    ensures forall y :: y in Collect(xs, f) ==> exists x :: x in xs && f(x) == Some(y)
  {
    if xs != [] {
      CollectFrom(xs[..|xs| - 1], f);
      assert forall x :: x in xs[..|xs| - 1] ==> x in xs;
    }
  }

  /** A loop that appends the whole sequence `f(x)` for each `x`, in order. */
  function FlatMap<T, U>(xs: seq<T>, f: T -> seq<U>): seq<U>
  {
    if xs == [] then [] else FlatMap(xs[..|xs| - 1], f) + f(xs[|xs| - 1])
  }

  lemma FlatMapSnoc<T, U>(xs: seq<T>, x: T, f: T -> seq<U>)
    ensures FlatMap(xs + [x], f) == FlatMap(xs, f) + f(x)
  {
    assert (xs + [x])[..|xs|] == xs;
  }

  lemma Distributes(a: nat, b: nat, k: nat)
    ensures (a + b) * k == a * k + b * k
  {
  }

  /** Block arithmetic: iteration `i` of block `fi` lies before the end of `n` blocks. */
  lemma BlockOffset(fi: nat, n: nat, iters: nat, i: nat)
    requires fi < n && i < iters
    ensures fi * iters + i < (fi + 1) * iters <= n * iters
  {
    var d: nat := n - fi - 1;
    Distributes(fi, 1, iters);
    Distributes(fi + 1, d, iters);
    assert fi + 1 + d == n;
  }

  /** Iteration `i` of block `fi` of a prefix sits at `fi * iters + i` of the whole. */
  lemma BlockIndex<T>(before: seq<T>, upto: seq<T>, all: seq<T>, fi: nat, n: nat, iters: nat, i: nat, x: T)
    requires fi < n && i < iters && |before| == fi * iters && |all| == n * iters && upto <= all
    requires |before| + i < |upto| && upto[|before| + i] == x
    ensures fi * iters + i < n * iters && all[fi * iters + i] == x
  {
    BlockOffset(fi, n, iters, i);
  }

  /** The positions of the elements `Collect` keeps, in order. */
  function Picked<T, U>(xs: seq<T>, f: T -> Option<U>): (ks: seq<nat>)
    ensures forall j :: 0 <= j < |ks| ==> ks[j] < |xs|
  {
    if xs == [] then []
    else
      var rest := Picked(xs[..|xs| - 1], f);
      if f(xs[|xs| - 1]).Some? then rest + [|xs| - 1] else rest
  }

  /**
   * `Collect` keeps exactly the elements whose `f` is present: its j-th output comes from the
   * j-th such element, and these positions increase.
   */
  lemma {:induction false} CollectPicked<T, U>(xs: seq<T>, f: T -> Option<U>)
    ensures |Collect(xs, f)| == |Picked(xs, f)|
    ensures forall j :: 0 <= j < |Picked(xs, f)| ==>
              f(xs[Picked(xs, f)[j]]).Some? && Collect(xs, f)[j] == f(xs[Picked(xs, f)[j]]).value
    ensures forall i :: 0 <= i < |xs| ==> (i in Picked(xs, f) <==> f(xs[i]).Some?)
    ensures forall j, j' :: 0 <= j < j' < |Picked(xs, f)| ==> Picked(xs, f)[j] < Picked(xs, f)[j']
  {
    PickedPositions(xs, f);
    if xs != [] {
      var prefix, last := xs[..|xs| - 1], |xs| - 1;
      CollectPicked(prefix, f);
      var ks, ys := Picked(prefix, f), Collect(prefix, f);
      if f(xs[last]).Some? {
        assert Picked(xs, f) == ks + [last];
        assert Collect(xs, f) == ys + [f(xs[last]).value];
      } else {
        assert Picked(xs, f) == ks;
        assert Collect(xs, f) == ys;
      }
      forall j | 0 <= j < |Picked(xs, f)|
        ensures f(xs[Picked(xs, f)[j]]).Some? && Collect(xs, f)[j] == f(xs[Picked(xs, f)[j]]).value
      {
        if j < |ks| {
          assert Picked(xs, f)[j] == ks[j] && Collect(xs, f)[j] == ys[j];
          assert xs[ks[j]] == prefix[ks[j]];
        }
      }
    }
  }

  /** The picked positions are exactly those whose `f` is present, in increasing order. */
  lemma {:induction false} PickedPositions<T, U>(xs: seq<T>, f: T -> Option<U>)
    ensures forall i :: 0 <= i < |xs| ==> (i in Picked(xs, f) <==> f(xs[i]).Some?)
    ensures forall j, j' :: 0 <= j < j' < |Picked(xs, f)| ==> Picked(xs, f)[j] < Picked(xs, f)[j']
  {
    if xs != [] {
      var prefix, last := xs[..|xs| - 1], |xs| - 1;
      PickedPositions(prefix, f);
      var ks := Picked(prefix, f);
      assert forall i :: 0 <= i < |prefix| ==> xs[i] == prefix[i];
      assert forall j :: 0 <= j < |ks| ==> ks[j] < last;
      if f(xs[last]).Some? {
        assert Picked(xs, f) == ks + [last];
      } else {
        assert Picked(xs, f) == ks;
      }
    }
  }

  /** A key that is found sits at some position of the dictionary, with the value found. */
  lemma {:induction false} FindIndex<K, A>(es: seq<Entry<K, A>>, k: K)
    requires Find(es, k).Some?
    ensures exists i :: 0 <= i < |es| && es[i].key == k && es[i].val == Find(es, k).value
  {
    if es[0].key != k {
      FindIndex(es[1..], k);
      var i :| 0 <= i < |es[1..]| && es[1..][i].key == k && es[1..][i].val == Find(es, k).value;
      assert es[i + 1] == es[1..][i];
    } else {
      assert es[0].key == k && es[0].val == Find(es, k).value;
    }
  }

  /** Upserting keeps a property of every value that the initial value has and the step preserves. */
  lemma {:induction false} UpsertAll<K, V, A>(es: seq<Entry<K, A>>, k: K, init: A, step: (A, V) -> A, x: V, p: A -> bool)
    requires p(init) && forall a :: p(a) ==> p(step(a, x))
    requires forall i :: 0 <= i < |es| ==> p(es[i].val)
    ensures forall i :: 0 <= i < |Upsert(es, k, init, step, x)| ==> p(Upsert(es, k, init, step, x)[i].val)
  {
    var u := Upsert(es, k, init, step, x);
    if es != [] && es[0].key != k {
      UpsertAll(es[1..], k, init, step, x, p);
      forall i | 0 <= i < |u| ensures p(u[i].val) {
        if i > 0 {
          assert u[i] == Upsert(es[1..], k, init, step, x)[i - 1];
        }
      }
    } else if es != [] {
      forall i | 0 <= i < |u| ensures p(u[i].val) {
        if i > 0 {
          assert u[i] == es[i];
        }
      }
    }
  }

  /** Every group built by one pass has a property that the initial value has and every step preserves. */
  lemma {:induction false} GroupIntoAll<V, K, A>(xs: seq<V>, key: V -> K, init: A, step: (A, V) -> A, p: A -> bool)
    requires p(init) && forall a, x :: p(a) ==> p(step(a, x))
    ensures forall i :: 0 <= i < |GroupInto(xs, key, init, step)| ==> p(GroupInto(xs, key, init, step)[i].val)
  {
    if xs != [] {
      GroupIntoAll(xs[..|xs| - 1], key, init, step, p);
      UpsertAll(GroupInto(xs[..|xs| - 1], key, init, step), key(xs[|xs| - 1]), init, step, xs[|xs| - 1], p);
    }
  }

  /** In a dictionary with distinct keys, looking up an entry's key finds that entry. */
  lemma FindDistinct<K, A>(es: seq<Entry<K, A>>, i: nat)
    requires DistinctKeys(es) && i < |es|
    ensures Find(es, es[i].key) == Some(es[i].val)
  {
    if i > 0 {
      assert es[0].key != es[i].key;
      assert DistinctKeys(es[1..]) by {
        forall a, b | 0 <= a < b < |es[1..]| ensures es[1..][a].key != es[1..][b].key {
          assert es[1..][a] == es[a + 1] && es[1..][b] == es[b + 1];
        }
      }
      FindDistinct(es[1..], i - 1);
    }
  }

  /** An element is collected exactly when some input maps to it. */
  lemma {:induction false} CollectMembers<T, U>(xs: seq<T>, f: T -> Option<U>, y: U)
    ensures y in Collect(xs, f) <==> exists i :: 0 <= i < |xs| && f(xs[i]) == Some(y)
  {
    if xs != [] {
      var prefix := xs[..|xs| - 1];
      CollectMembers(prefix, f, y);
      assert forall i :: 0 <= i < |prefix| ==> prefix[i] == xs[i];
      if exists i :: 0 <= i < |xs| && f(xs[i]) == Some(y) {
        var i :| 0 <= i < |xs| && f(xs[i]) == Some(y);
        if i < |prefix| {
          assert f(prefix[i]) == Some(y);
        }
      }
    }
  }
}
