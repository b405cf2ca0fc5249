/**
 * The key/value re-keying fold both revisions use to build event
 * properties: `Object.keys(object).reduce((memo, key) => { memo[kf(key)] =
 * vf(object[key]); return memo; }, {})`, visiting keys in order and
 * assigning into one accumulator. Here `key` is the whole key computation,
 * formatter and conversion to a property key together; a rename with the
 * identity formatter uses a `key` that maps each string to itself.
 */
module Renaming {
  import opened Wrappers
  import opened Objects
  import opened JsValues

  /** The formatted key of every entry, in visiting order. */
  function FormattedKeys(data: Entries<Value>, key: string -> string): (ks: seq<string>)
    ensures |ks| == |data|
    ensures forall j :: 0 <= j < |data| ==> ks[j] == key(data[j].0)
  {
    seq(|data|, j requires 0 <= j < |data| => key(data[j].0))
  }

  /** Entry `j` is the last one whose formatted key is `q`. */
  predicate LastWithKey(data: Entries<Value>, key: string -> string, q: string, j: int) {
    && 0 <= j < |data|
    && key(data[j].0) == q
    && forall j' :: j < j' < |data| ==> key(data[j'].0) != q
  }

  /** The fold: each entry is assigned, in order, under its formatted key. */
  function Rename(data: Entries<Value>, key: string -> string, vf: Value -> Value): (r: Entries<Value>)
    ensures DistinctKeys(r)
    decreases |data|
  {
    if data == [] then []
    else
      var n := |data| - 1;
      Put(Rename(data[..n], key, vf), key(data[n].0), vf(data[n].1))
  }

  /** A key that no entry is formatted to is absent from the result. */
  lemma {:induction false} RenameAbsent(data: Entries<Value>, key: string -> string, vf: Value -> Value, q: string)
    requires q !in FormattedKeys(data, key)
    ensures Lookup(Rename(data, key, vf), q) == None
    decreases |data|
  {
    if data != [] {
      var n := |data| - 1;
      var prefix := data[..n];
      assert FormattedKeys(data, key) == FormattedKeys(prefix, key) + [key(data[n].0)];
      RenameAbsent(prefix, key, vf, q);
    }
  }

  /**
   * What a read of the result gives: the LAST entry formatted to the key
   * wins, with its value passed through the value formatter.
   */
  lemma {:induction false} RenameLookup(data: Entries<Value>, key: string -> string, vf: Value -> Value, q: string, j: int)
    requires LastWithKey(data, key, q, j)
    ensures Lookup(Rename(data, key, vf), q) == Some(vf(data[j].1))
    decreases |data|
  {
    var n := |data| - 1;
    var prefix := data[..n];
    var r := Rename(prefix, key, vf);
    assert Rename(data, key, vf) == Put(r, key(data[n].0), vf(data[n].1));
    if j < n {
      assert LastWithKey(prefix, key, q, j) by {
        forall j' | j < j' < |prefix| ensures key(prefix[j'].0) != q {
          assert prefix[j'] == data[j'];
        }
      }
      RenameLookup(prefix, key, vf, q, j);
      assert key(data[n].0) != q;
    }
  }

  /** The keys of the result are exactly the formatted keys. */
  lemma {:induction false} RenameKeySet(data: Entries<Value>, key: string -> string, vf: Value -> Value)
    ensures forall q :: q in Keys(Rename(data, key, vf)) <==> q in FormattedKeys(data, key)
  {
    forall q ensures q in Keys(Rename(data, key, vf)) <==> q in FormattedKeys(data, key) {
      if q in FormattedKeys(data, key) {
        var fks := FormattedKeys(data, key);
        assert LastWithKey(data, key, q, LastIndex(fks, q));
        RenameLookup(data, key, vf, q, LastIndex(fks, q));
      } else {
        RenameAbsent(data, key, vf, q);
      }
    }
  }

  /** The position of the last occurrence of `x` in `s`. */
  function LastIndex(s: seq<string>, x: string): (i: nat)
    requires x in s
    ensures i < |s| && s[i] == x
    ensures forall j :: i < j < |s| ==> s[j] != x
    decreases |s|
  {
    if s[|s| - 1] == x then |s| - 1
    else
      assert x in s[..|s| - 1] by {
        var k := IndexOf(s, x);
        assert s[..|s| - 1][k] == x;
      }
      LastIndex(s[..|s| - 1], x)
  }

  /** Keys of `r` (in order) have strictly increasing first positions in `ks`. */
  predicate OrderedByFirstOccurrence(r: Entries<Value>, ks: seq<string>) {
    forall a, b :: 0 <= a < b < |r| ==> r[a].0 in ks && r[b].0 in ks && IndexOf(ks, r[a].0) < IndexOf(ks, r[b].0)
  }

  /** Assigning one more formatted key keeps the result ordered by first occurrence. */
  lemma PutKeepsOrder(r': Entries<Value>, ks': seq<string>, k: string, v: Value)
    requires OrderedByFirstOccurrence(r', ks')
    requires forall q :: q in Keys(r') <==> q in ks'
    ensures OrderedByFirstOccurrence(Put(r', k, v), ks' + [k])
  {
    var r := Put(r', k, v);
    var ks := ks' + [k];
    forall x | x in ks' ensures IndexOf(ks, x) == IndexOf(ks', x) {
      IndexOfIs(ks, x, IndexOf(ks', x));
    }
    assert forall a :: 0 <= a < |r'| ==> r'[a].0 == Keys(r')[a];
    if k in Keys(r') {
      forall a | 0 <= a < |r| ensures r[a].0 == r'[a].0 {
        assert Keys(r)[a] == Keys(r')[a];
      }
    } else {
      assert r == r' + [(k, v)];
      assert k !in ks';
      IndexOfIs(ks, k, |ks'|);
    }
  }

  /**
   * Keys are visited in order: the result lists each formatted key once,
   * ordered by where it FIRST occurs among the formatted keys, so a later
   * colliding entry overwrites the value but not the position.
   */
  lemma {:induction false} RenameKeyOrder(data: Entries<Value>, key: string -> string, vf: Value -> Value)
    ensures OrderedByFirstOccurrence(Rename(data, key, vf), FormattedKeys(data, key))
    decreases |data|
  {
    if data != [] {
      var n := |data| - 1;
      var prefix := data[..n];
      assert FormattedKeys(data, key) == FormattedKeys(prefix, key) + [key(data[n].0)];
      RenameKeyOrder(prefix, key, vf);
      RenameKeySet(prefix, key, vf);
      PutKeepsOrder(Rename(prefix, key, vf), FormattedKeys(prefix, key), key(data[n].0), vf(data[n].1));
    }
  }

  /** With identity formatters a well-formed object is rebuilt unchanged. */
  lemma {:induction false} RenameIdentity(data: Entries<Value>, key: string -> string)
    requires DistinctKeys(data)
    requires forall k :: key(k) == k
    ensures Rename(data, key, Identity) == data
    decreases |data|
  {
    if data != [] {
      var n := |data| - 1;
      var prefix := data[..n];
      KeysPrefix(data, n);
      DistinctLast(Keys(data));
      RenameIdentity(prefix, key);
      assert data[n].0 == Keys(data)[n];
      assert prefix + [(data[n].0, data[n].1)] == data;
    }
  }
}
