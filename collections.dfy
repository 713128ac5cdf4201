/**
 * JavaScript's `Set` and `Map` as the stores use them: both remember
 * insertion order (their iteration order, and so what `[...set]` and
 * `[...map.entries()]` return), so both are modelled as sequences without
 * repeated elements (keys).
 */
module Collections {
  import opened Seqs

  /** No element occurs twice. */
  predicate Distinct<T(==)>(s: seq<T>)
  {
    forall i, j :: 0 <= i < j < |s| ==> s[i] != s[j]
  }

  /** The elements, as a mathematical set. */
  function Elements<T>(s: seq<T>): set<T>
  {
    set x | x in s
  }

  /** In a sequence without repetitions every element occurs at most once. */
  lemma {:induction false} DistinctOnce<T>(s: seq<T>, x: T)
    requires Distinct(s)
    ensures multiset(s)[x] <= 1
  {
    if |s| > 0 {
      assert s == [s[0]] + s[1..];
      DistinctOnce(s[1..], x);
      if s[0] == x {
        assert x !in s[1..];
      }
    }
  }

  /** A rearrangement of a sequence without repetitions has none either. */
  lemma PermutationDistinct<T>(a: seq<T>, b: seq<T>)
    requires multiset(a) == multiset(b) && Distinct(b)
    ensures Distinct(a)
  {
    forall i, k | 0 <= i < k < |a| ensures a[i] != a[k] {
      if a[i] == a[k] {
        assert a == a[..i] + [a[i]] + a[i + 1..k] + [a[k]] + a[k + 1..];
        DistinctOnce(b, a[i]);
      }
    }
  }

  // ---------------------------------------------------------------------
  // Set
  // ---------------------------------------------------------------------

  /** `set.add(x)`: appends `x` unless already present. */
  function SetAdd<T(==)>(s: seq<T>, x: T): (r: seq<T>)
    ensures Distinct(s) ==> Distinct(r)
    ensures Elements(r) == Elements(s) + {x}
    ensures x in s ==> r == s
  {
    if x in s then s else s + [x]
  }

  /** `new Set(xs)`: adds the elements one by one, so the first occurrence of each decides its place. */
  function SetFrom<T(==)>(xs: seq<T>): (r: seq<T>)
  {
    AddAll([], xs)
  }

  /** Adds the elements of `xs` to the set `s`, in order. */
  function AddAll<T(==)>(s: seq<T>, xs: seq<T>): (r: seq<T>)
    ensures Distinct(s) ==> Distinct(r)
    decreases |xs|
  {
    if |xs| == 0 then s else AddAll(SetAdd(s, xs[0]), xs[1..])
  }

  /** Adding elements that are new, and pairwise distinct, appends them. */
  lemma {:induction false} AddAllDistinct<T>(s: seq<T>, xs: seq<T>)
    requires Distinct(s + xs)
    ensures AddAll(s, xs) == s + xs
    decreases |xs|
  {
    if |xs| > 0 {
      assert (s + xs)[|s|] == xs[0];
      assert xs[0] !in s by {
        forall i | 0 <= i < |s|
          ensures s[i] != xs[0]
        {
          assert (s + xs)[i] == s[i];
        }
      }
      assert s + xs == (s + [xs[0]]) + xs[1..];
      AddAllDistinct(s + [xs[0]], xs[1..]);
    }
  }

  /** A sequence without repetitions comes back unchanged from `new Set(...)`. */
  lemma SetFromDistinct<T>(xs: seq<T>)
    requires Distinct(xs)
    ensures SetFrom(xs) == xs
  {
    assert [] + xs == xs;
    AddAllDistinct([], xs);
  }

  /** Adding the elements of `xs` to `s` gives exactly the elements of both. */
  lemma {:induction false} AddAllElements<T>(s: seq<T>, xs: seq<T>)
    ensures Elements(AddAll(s, xs)) == Elements(s) + Elements(xs)
    decreases |xs|
  {
    if |xs| > 0 {
      AddAllElements(SetAdd(s, xs[0]), xs[1..]);
      assert xs == [xs[0]] + xs[1..];
      assert Elements(xs) == {xs[0]} + Elements(xs[1..]);
    }
  }

  /** Adding one more element at the end is one more `add`. */
  lemma {:induction false} AddAllSnoc<T>(s: seq<T>, xs: seq<T>, x: T)
    ensures AddAll(s, xs + [x]) == SetAdd(AddAll(s, xs), x)
    decreases |xs|
  {
    if |xs| == 0 {
      assert xs + [x] == [x];
    } else {
      assert (xs + [x])[1..] == xs[1..] + [x];
      AddAllSnoc(SetAdd(s, xs[0]), xs[1..], x);
    }
  }

  lemma SetFromSnoc<T>(xs: seq<T>, x: T)
    ensures SetFrom(xs + [x]) == SetAdd(SetFrom(xs), x)
  {
    AddAllSnoc([], xs, x);
  }

  /**
   * Insertion order is first-seen order: the set built from a prefix of
   * `xs` is a prefix of the set built from all of `xs`.
   */
  lemma {:induction false} SetFromPrefix<T>(xs: seq<T>, n: nat)
    requires n <= |xs|
    ensures SetFrom(xs[..n]) <= SetFrom(xs)
    decreases |xs|
  {
    if n < |xs| {
      var init := xs[..|xs| - 1];
      assert init[..n] == xs[..n];
      SetFromPrefix(init, n);
      assert xs == init + [xs[|xs| - 1]];
      SetFromSnoc(init, xs[|xs| - 1]);
    } else {
      assert xs[..n] == xs;
    }
  }

  /** `new Set(xs)` holds exactly the elements of `xs`. */
  lemma SetFromElements<T>(xs: seq<T>)
    ensures Elements(SetFrom(xs)) == Elements(xs)
  {
    AddAllElements([], xs);
  }

  // ---------------------------------------------------------------------
  // Map
  // ---------------------------------------------------------------------

  /** The keys of a list of entries, in order. */
  function Keys<K, V>(es: seq<(K, V)>): (r: seq<K>)
    ensures |r| == |es|
    ensures forall i :: 0 <= i < |es| ==> r[i] == es[i].0
  {
    seq(|es|, i requires 0 <= i < |es| => es[i].0)
  }

  predicate DistinctKeys<K(==), V>(es: seq<(K, V)>)
  {
    forall i, j :: 0 <= i < j < |es| ==> es[i].0 != es[j].0
  }

  /** `map.has(k)`. */
  predicate Has<K(==), V>(es: seq<(K, V)>, k: K)
  {
    exists i :: 0 <= i < |es| && es[i].0 == k
  }

  /** `map.get(k)`, with `undefined` as `None`. */
  function Get<K(==), V>(es: seq<(K, V)>, k: K): (r: Option<V>)
    ensures r.Some? <==> Has(es, k)
    ensures r.Some? ==> (k, r.value) in es
  {
    if |es| == 0 then None
    else if es[0].0 == k then Some(es[0].1)
    else
      var r := Get(es[1..], k);
      assert Has(es[1..], k) ==> Has(es, k);
      assert Has(es, k) ==> Has(es[1..], k) by {
        if Has(es, k) {
          var i :| 0 <= i < |es| && es[i].0 == k;
          assert es[1..][i - 1].0 == k;
        }
      }
      r
  }

  /** In a map without repeated keys, `get` returns the value of the entry with that key. */
  lemma {:induction false} GetEntry<K, V>(es: seq<(K, V)>, i: nat)
    requires DistinctKeys(es) && i < |es|
    ensures Get(es, es[i].0) == Some(es[i].1)
  {
    if i > 0 {
      GetEntry(es[1..], i - 1);
    }
  }

  /**
   * `map.set(k, v)`: replaces the value in place when `k` is present, so the
   * key keeps its position; appends a new entry otherwise.
   */
  function Set<K(==), V>(es: seq<(K, V)>, k: K, v: V): (r: seq<(K, V)>)
    ensures |r| == if Has(es, k) then |es| else |es| + 1
  {
    if |es| == 0 then [(k, v)]
    else if es[0].0 == k then [(k, v)] + es[1..]
    else
      assert Has(es[1..], k) <==> Has(es, k) by {
        if Has(es, k) {
          var i :| 0 <= i < |es| && es[i].0 == k;
          assert es[1..][i - 1].0 == k;
        }
        if Has(es[1..], k) {
          var i :| 0 <= i < |es[1..]| && es[1..][i].0 == k;
          assert es[i + 1].0 == k;
        }
      }
      [es[0]] + Set(es[1..], k, v)
  }

  /** The keys after `map.set(k, v)`: those before, plus `k` at the end if it was new. */
  lemma {:induction false} SetKeys<K, V>(es: seq<(K, V)>, k: K, v: V)
    ensures Keys(Set(es, k, v)) == if Has(es, k) then Keys(es) else Keys(es) + [k]
  {
    if |es| > 0 {
      var r := Set(es, k, v);
      KeysCons(es);
      KeysCons(r);
      if es[0].0 != k {
        SetKeys(es[1..], k, v);
        HasTail(es, k);
        assert r[1..] == Set(es[1..], k, v);
      } else {
        assert r[1..] == es[1..];
        assert Has(es, k);
      }
    }
  }

  /** The keys of a non-empty list: the first key, then the keys of the rest. */
  lemma KeysCons<K, V>(es: seq<(K, V)>)
    requires |es| > 0
    ensures Keys(es) == [es[0].0] + Keys(es[1..])
  {
  }

  /** A key other than the first is present exactly when it is present in the rest. */
  lemma HasTail<K, V>(es: seq<(K, V)>, k: K)
    requires |es| > 0 && es[0].0 != k
    ensures Has(es, k) <==> Has(es[1..], k)
  {
    if Has(es, k) {
      var i :| 0 <= i < |es| && es[i].0 == k;
      assert es[1..][i - 1].0 == k;
    }
    if Has(es[1..], k) {
      var i :| 0 <= i < |es[1..]| && es[1..][i].0 == k;
      assert es[i + 1].0 == k;
    }
  }

  /** After `map.set(k, v)`, `k` maps to `v` and every other key keeps its value. */
  lemma {:induction false} GetSet<K, V>(es: seq<(K, V)>, k: K, v: V, k': K)
    requires DistinctKeys(es)
    ensures DistinctKeys(Set(es, k, v))
    ensures Get(Set(es, k, v), k') == if k' == k then Some(v) else Get(es, k')
  {
    SetKeys(es, k, v);
    var r := Set(es, k, v);
    if Has(es, k) {
      assert Keys(r) == Keys(es);
    } else {
      assert Keys(r) == Keys(es) + [k];
      forall i | 0 <= i < |es|
        ensures es[i].0 != k
      {
      }
    }
    assert DistinctKeys(r) by {
      forall i, j | 0 <= i < j < |r|
        ensures r[i].0 != r[j].0
      {
        assert Keys(r)[i] == r[i].0 && Keys(r)[j] == r[j].0;
      }
    }
    if |es| > 0 && es[0].0 != k {
      GetSet(es[1..], k, v, k');
    }
  }

  /** `map.delete(k)`: removes the entry for `k`, keeping the others in order. */
  function Delete<K(==), V>(es: seq<(K, V)>, k: K): (r: seq<(K, V)>)
    ensures |r| <= |es|
    ensures forall e :: e in r ==> e in es && e.0 != k
  {
    if |es| == 0 then []
    else (if es[0].0 == k then [] else [es[0]]) + Delete(es[1..], k)
  }

  /** Deleting keeps the remaining keys distinct. */
  lemma {:induction false} DeleteDistinct<K, V>(es: seq<(K, V)>, k: K)
    requires DistinctKeys(es)
    ensures DistinctKeys(Delete(es, k))
  {
    if |es| > 0 {
      DeleteDistinct(es[1..], k);
      var rest := Delete(es[1..], k);
      if es[0].0 != k {
        assert Delete(es, k) == [es[0]] + rest;
        forall j | 0 <= j < |rest|
          ensures rest[j].0 != es[0].0
        {
          assert rest[j] in es[1..];
        }
      }
    }
  }

  /** After `map.delete(k)`, `k` is absent and every other key keeps its value. */
  lemma {:induction false} GetDelete<K, V>(es: seq<(K, V)>, k: K, k': K)
    requires DistinctKeys(es)
    ensures Get(Delete(es, k), k') == if k' == k then None else Get(es, k')
  {
    if |es| > 0 {
      GetDelete(es[1..], k, k');
      var rest := Delete(es[1..], k);
      if es[0].0 == k {
        assert Delete(es, k) == rest;
        if k' != k {
          assert Get(es, k') == Get(es[1..], k');
        }
      } else {
        assert Delete(es, k) == [es[0]] + rest;
        assert ([es[0]] + rest)[1..] == rest;
      }
    }
  }

  /** `new Map(entries)`: sets the entries one by one, so a later entry overwrites an earlier one with the same key. */
  function MapFrom<K(==), V>(entries: seq<(K, V)>): (r: seq<(K, V)>)
  {
    if |entries| == 0 then []
    else
      var last := entries[|entries| - 1];
      Set(MapFrom(entries[..|entries| - 1]), last.0, last.1)
  }

  /** Appending a new key puts it at the end. */
  lemma {:induction false} SetNew<K, V>(es: seq<(K, V)>, k: K, v: V)
    requires !Has(es, k)
    ensures Set(es, k, v) == es + [(k, v)]
  {
    if |es| > 0 {
      assert es[0].0 != k;
      assert !Has(es[1..], k);
      SetNew(es[1..], k, v);
      assert es == [es[0]] + es[1..];
    }
  }

  /** Entries with distinct keys come back unchanged from `new Map(...)`. */
  lemma {:induction false} MapFromDistinct<K, V>(entries: seq<(K, V)>)
    requires DistinctKeys(entries)
    ensures MapFrom(entries) == entries
  {
    if |entries| > 0 {
      var init, last := entries[..|entries| - 1], entries[|entries| - 1];
      MapFromDistinct(init);
      assert !Has(init, last.0);
      SetNew(init, last.0, last.1);
      assert init + [last] == entries;
    }
  }

  /** `new Map(entries)` never repeats a key. */
  lemma {:induction false} MapFromIsDistinct<K, V>(entries: seq<(K, V)>)
    ensures DistinctKeys(MapFrom(entries))
  {
    if |entries| > 0 {
      var last := entries[|entries| - 1];
      MapFromIsDistinct(entries[..|entries| - 1]);
      GetSet(MapFrom(entries[..|entries| - 1]), last.0, last.1, last.0);
    }
  }
}
