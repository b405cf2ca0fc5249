/**
 * JavaScript plain objects as insertion-ordered association lists.
 *
 * `Object.keys` and `for ... in` visit own keys in insertion order (the
 * ordering of integer-like keys is not modelled). Assigning to a key that
 * is already present overwrites its value in place and keeps its position;
 * a new key goes last. Spread (`{...a, ...b}`) and `Object.assign` copy the
 * own keys of each source, left to right, with that assignment.
 */
module Objects {
  import opened Wrappers

  type Entries<V> = seq<(string, V)>

  /** The own keys of an object, in enumeration order. */
  function Keys<V>(m: Entries<V>): seq<string> {
    seq(|m|, i requires 0 <= i < |m| => m[i].0)
  }

  predicate Distinct(s: seq<string>) {
    forall i, j :: 0 <= i < j < |s| ==> s[i] != s[j]
  }

  /** A well-formed object: no key occurs twice. */
  predicate DistinctKeys<V>(m: Entries<V>) {
    Distinct(Keys(m))
  }

  lemma KeysCons<V>(m: Entries<V>)
    requires m != []
    ensures Keys(m) == [m[0].0] + Keys(m[1..])
  {
  }

  lemma KeysPrefix<V>(m: Entries<V>, n: nat)
    requires n <= |m|
    ensures Keys(m[..n]) == Keys(m)[..n]
  {
  }

  lemma KeysAppend<V>(m: Entries<V>, e: (string, V))
    ensures Keys(m + [e]) == Keys(m) + [e.0]
  {
  }

  /** The last key of a well-formed object occurs nowhere before it. */
  lemma DistinctLast(s: seq<string>)
    requires Distinct(s) && s != []
    ensures s[|s| - 1] !in s[..|s| - 1]
    ensures Distinct(s[..|s| - 1])
  {
    var n := |s| - 1;
    forall i | 0 <= i < n ensures s[..n][i] != s[n] {
      assert s[..n][i] == s[i];
    }
  }

  lemma DistinctCons(a: string, s: seq<string>)
    ensures Distinct([a] + s) <==> a !in s && Distinct(s)
  {
    if Distinct([a] + s) {
      forall i, j | 0 <= i < j < |s| ensures s[i] != s[j] {
        assert ([a] + s)[i + 1] == s[i] && ([a] + s)[j + 1] == s[j];
      }
      forall i | 0 <= i < |s| ensures s[i] != a {
        assert ([a] + s)[0] == a && ([a] + s)[i + 1] == s[i];
      }
    }
  }

  /** The position of `k` among the keys of `m` (its first occurrence). */
  function KeyIndex<V>(m: Entries<V>, k: string): (i: nat)
    requires k in Keys(m)
    ensures i < |m| && m[i].0 == k
    ensures forall j :: 0 <= j < i ==> m[j].0 != k
  {
    KeysCons(m);
    if m[0].0 == k then 0 else 1 + KeyIndex(m[1..], k)
  }

  /** The position of the first occurrence of `x` in `s`. */
  function IndexOf(s: seq<string>, x: string): (i: nat)
    requires x in s
    ensures i < |s| && s[i] == x
    ensures forall j :: 0 <= j < i ==> s[j] != x
  {
    if s[0] == x then 0 else 1 + IndexOf(s[1..], x)
  }

  /** A first occurrence, recognised by its defining property. */
  lemma IndexOfIs(s: seq<string>, x: string, i: nat)
    requires i < |s| && s[i] == x
    requires forall j :: 0 <= j < i ==> s[j] != x
    ensures x in s && IndexOf(s, x) == i
  {
  }

  /** The first occurrence of a key, recognised by its defining property. */
  lemma KeyIndexIs<V>(m: Entries<V>, k: string, i: nat)
    requires i < |m| && m[i].0 == k
    requires forall j :: 0 <= j < i ==> m[j].0 != k
    ensures k in Keys(m) && KeyIndex(m, k) == i
  {
    assert Keys(m)[i] == k;
  }

  /** Property read `m[k]`: the value stored under `k`, if any. */
  function Lookup<V>(m: Entries<V>, k: string): (r: Option<V>)
    ensures r.Some? <==> k in Keys(m)
    ensures r.Some? ==> (k, r.value) in m
  {
    if k in Keys(m) then Some(m[KeyIndex(m, k)].1) else None
  }

  /**
   * Property assignment `m[k] = v`: an existing key keeps its position and
   * takes the new value; a new key is appended.
   */
  function Put<V>(m: Entries<V>, k: string, v: V): (r: Entries<V>)
    ensures Lookup(r, k) == Some(v)
    ensures forall k' :: k' != k ==> Lookup(r, k') == Lookup(m, k')
    ensures k in Keys(m) ==> Keys(r) == Keys(m)
    ensures k !in Keys(m) ==> r == m + [(k, v)]
    ensures DistinctKeys(m) ==> DistinctKeys(r)
  {
    if k in Keys(m) then
      var i := KeyIndex(m, k);
      var r := m[i := (k, v)];
      assert Keys(r) == Keys(m);
      KeyIndexIs(r, k, i);
      assert forall k' | k' != k && k' in Keys(m) :: KeyIndex(r, k') == KeyIndex(m, k') by {
        forall k' | k' != k && k' in Keys(m) ensures KeyIndex(r, k') == KeyIndex(m, k') {
          KeyIndexIs(r, k', KeyIndex(m, k'));
        }
      }
      r
    else
      KeysAppend(m, (k, v));
      var r := m + [(k, v)];
      assert forall j :: 0 <= j < |m| ==> r[j].0 == Keys(m)[j];
      KeyIndexIs(r, k, |m|);
      assert forall k' | k' in Keys(m) :: KeyIndex(r, k') == KeyIndex(m, k') by {
        forall k' | k' in Keys(m) ensures KeyIndex(r, k') == KeyIndex(m, k') {
          KeyIndexIs(r, k', KeyIndex(m, k'));
        }
      }
      r
  }

  /**
   * The inner loop of `Object.assign` / spread: every own key of `source`,
   * in order, is assigned into `target`.
   */
  function CopyOwn<V>(target: Entries<V>, source: Entries<V>): Entries<V>
    decreases |source|
  {
    if source == [] then target
    else
      var last := source[|source| - 1];
      Put(CopyOwn(target, source[..|source| - 1]), last.0, last.1)
  }

  /** `Object.assign(target, ...sources)`: the sources are copied left to right. */
  function Assign<V>(target: Entries<V>, sources: seq<Entries<V>>): Entries<V>
    decreases |sources|
  {
    if sources == [] then target
    else CopyOwn(Assign(target, sources[..|sources| - 1]), sources[|sources| - 1])
  }

  /** Reading a key of an object extended by one entry. */
  lemma LookupAppend<V>(m: Entries<V>, k: string, v: V, q: string)
    ensures Lookup(m + [(k, v)], q) ==
              if q in Keys(m) then Lookup(m, q) else if q == k then Some(v) else None
  {
    var r := m + [(k, v)];
    KeysAppend(m, (k, v));
    if q in Keys(m) {
      KeyIndexIs(r, q, KeyIndex(m, q));
    } else if q == k {
      assert forall j :: 0 <= j < |m| ==> r[j].0 == Keys(m)[j];
      KeyIndexIs(r, k, |m|);
    }
  }

  /** Reading a key of an object whose first entry is given: the first entry wins. */
  lemma LookupCons<V>(k: string, v: V, rest: Entries<V>, q: string)
    ensures Lookup([(k, v)] + rest, q) == if q == k then Some(v) else Lookup(rest, q)
  {
    var m := [(k, v)] + rest;
    KeysCons(m);
    assert m[1..] == rest;
    if q == k {
      KeyIndexIs(m, k, 0);
    } else if q in Keys(rest) {
      var i := KeyIndex(rest, q);
      assert m[1 + i] == rest[i];
      KeyIndexIs(m, q, 1 + i);
    }
  }

  /** In a well-formed object, the value stored at a position is what a read of its key gives. */
  lemma {:induction false} LookupAt<V>(m: Entries<V>, i: nat)
    requires DistinctKeys(m)
    requires i < |m|
    ensures Lookup(m, m[i].0) == Some(m[i].1)
  {
    assert Keys(m)[0] == m[0].0 && Keys(m)[i] == m[i].0;
    if i > 0 {
      KeysCons(m);
      DistinctCons(m[0].0, Keys(m[1..]));
      LookupAt(m[1..], i - 1);
    }
  }

  /** In a well-formed object, every position's value is what a read of its key gives. */
  lemma LookupAll<V>(m: Entries<V>)
    requires DistinctKeys(m)
    ensures forall i :: 0 <= i < |m| ==> Lookup(m, m[i].0) == Some(m[i].1)
  {
    forall i | 0 <= i < |m| ensures Lookup(m, m[i].0) == Some(m[i].1) {
      LookupAt(m, i);
    }
  }

  /** Copying a well-formed object into an empty one gives back the same object. */
  lemma {:induction false} CopyOwnIntoEmpty<V>(source: Entries<V>)
    requires DistinctKeys(source)
    ensures CopyOwn([], source) == source
  {
    if source != [] {
      var n := |source| - 1;
      var prefix := source[..n];
      KeysPrefix(source, n);
      DistinctLast(Keys(source));
      assert DistinctKeys(prefix);
      CopyOwnIntoEmpty(prefix);
      assert source[n].0 == Keys(source)[n];
      assert source[n].0 !in Keys(prefix);
      assert prefix + [source[n]] == source;
    }
  }

  /**
   * What a read gives after copying a well-formed `source` into `target`:
   * the source's value when the source has the key, the target's otherwise.
   */
  lemma {:induction false} CopyOwnLookup<V>(target: Entries<V>, source: Entries<V>, q: string)
    requires DistinctKeys(source)
    ensures Lookup(CopyOwn(target, source), q) ==
              if q in Keys(source) then Lookup(source, q) else Lookup(target, q)
  {
    if source != [] {
      var n := |source| - 1;
      var prefix := source[..n];
      KeysPrefix(source, n);
      DistinctLast(Keys(source));
      assert Keys(source) == Keys(prefix) + [source[n].0];
      assert DistinctKeys(prefix);
      assert source[n].0 !in Keys(prefix);
      CopyOwnLookup(target, prefix, q);
      assert prefix + [(source[n].0, source[n].1)] == source;
      LookupAppend(prefix, source[n].0, source[n].1, q);
    }
  }

  /** The key `q` occurs in no source at or after position `from`. */
  predicate AbsentFrom<V>(sources: seq<Entries<V>>, q: string, from: nat) {
    forall j :: from <= j < |sources| ==> q !in Keys(sources[j])
  }

  /** A key that no source has keeps the target's value. */
  lemma {:induction false} AssignAbsent<V>(target: Entries<V>, sources: seq<Entries<V>>, q: string)
    requires forall j :: 0 <= j < |sources| ==> DistinctKeys(sources[j])
    requires AbsentFrom(sources, q, 0)
    ensures Lookup(Assign(target, sources), q) == Lookup(target, q)
  {
    if sources != [] {
      var n := |sources| - 1;
      var prefix := sources[..n];
      assert Assign(target, sources) == CopyOwn(Assign(target, prefix), sources[n]);
      assert forall i :: 0 <= i < n ==> prefix[i] == sources[i];
      AssignAbsent(target, prefix, q);
      CopyOwnLookup(Assign(target, prefix), sources[n], q);
    }
  }

  /**
   * Sources are copied left to right, so the LAST source that has a key
   * decides its value.
   */
  lemma {:induction false} AssignLookup<V>(target: Entries<V>, sources: seq<Entries<V>>, q: string, i: nat)
    requires forall j :: 0 <= j < |sources| ==> DistinctKeys(sources[j])
    requires i < |sources| && q in Keys(sources[i]) && AbsentFrom(sources, q, i + 1)
    ensures Lookup(Assign(target, sources), q) == Lookup(sources[i], q)
  {
    var n := |sources| - 1;
    var prefix := sources[..n];
    var before := Assign(target, prefix);
    assert Assign(target, sources) == CopyOwn(before, sources[n]);
    CopyOwnLookup(before, sources[n], q);
    if i < n {
      assert q !in Keys(sources[n]);
      assert forall j :: 0 <= j < n ==> prefix[j] == sources[j];
      assert AbsentFrom(prefix, q, i + 1);
      AssignLookup(target, prefix, q, i);
    }
  }

  /**
   * An object literal made by spreading a well-formed object and then
   * writing one more key (`{...m, k: v}`, or `Object.assign({}, m, {k: v})`)
   * is the same object as a single assignment of `k` into `m`.
   */
  lemma SpreadThenKey<V>(m: Entries<V>, k: string, v: V)
    requires DistinctKeys(m)
    ensures Assign([], [m, [(k, v)]]) == Put(m, k, v)
  {
    var sources := [m, [(k, v)]];
    assert sources[..1] == [m] && [m][..0] == [];
    assert Assign([], [m]) == CopyOwn([], m);
    CopyOwnIntoEmpty(m);
    assert Assign([], sources) == CopyOwn(m, [(k, v)]);
    assert [(k, v)][..0] == [];
  }
}
