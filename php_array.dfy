/**
 * PHP arrays with string keys, as ordered association lists: reading a key,
 * assigning one (`$a[$k] = $v`) and `array_replace`.
 */
module PhpArray {
  import opened Common

  type Entries<V> = seq<(string, V)>

  function Keys<V(==)>(a: Entries<V>): set<string> {
    set e | e in a :: e.0
  }

  /** A well-formed PHP array holds each key once. */
  predicate DistinctKeys<V(==)>(a: Entries<V>) {
    forall i, j :: 0 <= i < j < |a| ==> a[i].0 != a[j].0
  }

  lemma KeysCons<V>(a: Entries<V>)
    requires a != []
    ensures Keys(a) == {a[0].0} + Keys(a[1..])
  {
    assert a == [a[0]] + a[1..];
  }

  /** The first key of a well-formed array occurs nowhere after it, and the rest is well-formed. */
  lemma DistinctCons<V>(a: Entries<V>)
    requires a != [] && DistinctKeys(a)
    ensures a[0].0 !in Keys(a[1..]) && DistinctKeys(a[1..])
  {
    forall e | e in a[1..] ensures e.0 != a[0].0 {
      var i :| 0 <= i < |a[1..]| && a[1..][i] == e;
      assert a[i + 1] == e;
    }
  }

  /** `$a[$key] ?? null`: the value stored under `key` (the first, should the list hold it twice). */
  function Lookup<V(==)>(a: Entries<V>, key: string): (r: Option<V>)
    ensures r.Some? <==> key in Keys(a)
    ensures r.Some? ==> (key, r.value) in a
    ensures DistinctKeys(a) ==> forall i :: 0 <= i < |a| && a[i].0 == key ==> r == Some(a[i].1)
  {
    if a == [] then None
    else
      KeysCons(a);
      if a[0].0 == key then Some(a[0].1) else Lookup(a[1..], key)
  }

  /** `$a[$key] = $v`: an existing key keeps its place, a new key goes last. */
  function Put<V(==)>(a: Entries<V>, key: string, v: V): (r: Entries<V>)
    ensures Keys(r) == Keys(a) + {key}
    ensures key in Keys(a) ==> |r| == |a| && forall i :: 0 <= i < |a| ==> r[i].0 == a[i].0
    ensures key !in Keys(a) ==> r == a + [(key, v)]
  {
    if a == [] then
      KeysCons([(key, v)]);
      [(key, v)]
    else
      KeysCons(a);
      if a[0].0 == key then
        var r := [(key, v)] + a[1..];
        KeysCons(r);
        r
      else
        var rest := Put(a[1..], key, v);
        var r := [a[0]] + rest;
        KeysCons(r);
        r
  }

  /** After `$a[$key] = $v`, reading `key` gives `v` and reading any other key is unaffected. */
  lemma {:induction false} PutLookup<V>(a: Entries<V>, key: string, v: V, k: string)
    ensures Lookup(Put(a, key, v), k) == if k == key then Some(v) else Lookup(a, k)
  {
    if a != [] && a[0].0 != key {
      PutLookup(a[1..], key, v, k);
    }
  }

  /** Assigning a key keeps an array well-formed. */
  lemma {:induction false} PutDistinct<V>(a: Entries<V>, key: string, v: V)
    requires DistinctKeys(a)
    ensures DistinctKeys(Put(a, key, v))
  {
    if a != [] {
      DistinctCons(a);
      if a[0].0 == key {
        ConsDistinct((key, v), a[1..]);
      } else {
        PutDistinct(a[1..], key, v);
        ConsDistinct(a[0], Put(a[1..], key, v));
      }
    }
  }

  lemma ConsDistinct<V>(e: (string, V), a: Entries<V>)
    requires DistinctKeys(a) && e.0 !in Keys(a)
    ensures DistinctKeys([e] + a)
  {
    var r := [e] + a;
    forall i, j | 0 <= i < j < |r| ensures r[i].0 != r[j].0 {
      assert r[j] == a[j - 1];
      if i > 0 { assert r[i] == a[i - 1]; }
    }
  }

  /** `array_replace($base, $extra)`: every entry of `extra` assigned into `base`, in order. */
  function Replace<V(==)>(base: Entries<V>, extra: Entries<V>): (r: Entries<V>)
    ensures Keys(r) == Keys(base) + Keys(extra)
    decreases |extra|
  {
    if extra == [] then base
    else
      KeysCons(extra);
      Replace(Put(base, extra[0].0, extra[0].1), extra[1..])
  }

  /** `array_replace` keeps a well-formed array well-formed. */
  lemma {:induction false} ReplaceDistinct<V>(base: Entries<V>, extra: Entries<V>)
    requires DistinctKeys(base)
    ensures DistinctKeys(Replace(base, extra))
    decreases |extra|
  {
    if extra != [] {
      PutDistinct(base, extra[0].0, extra[0].1);
      ReplaceDistinct(Put(base, extra[0].0, extra[0].1), extra[1..]);
    }
  }

  /** A key that `extra` does not mention reads as it did in `base`. */
  lemma {:induction false} ReplaceLookupOther<V>(base: Entries<V>, extra: Entries<V>, k: string)
    requires k !in Keys(extra)
    ensures Lookup(Replace(base, extra), k) == Lookup(base, k)
    decreases |extra|
  {
    if extra != [] {
      KeysCons(extra);
      PutLookup(base, extra[0].0, extra[0].1, k);
      ReplaceLookupOther(Put(base, extra[0].0, extra[0].1), extra[1..], k);
    }
  }

  /** With distinct keys in `extra`, every key of `extra` ends up bound to its value there. */
  lemma {:induction false} ReplaceLookup<V>(base: Entries<V>, extra: Entries<V>, k: string)
    requires DistinctKeys(extra)
    requires k in Keys(extra)
    ensures Lookup(Replace(base, extra), k) == Lookup(extra, k)
    decreases |extra|
  {
    KeysCons(extra);
    DistinctCons(extra);
    var next := Put(base, extra[0].0, extra[0].1);
    if extra[0].0 == k {
      PutLookup(base, k, extra[0].1, k);
      ReplaceLookupOther(next, extra[1..], k);
    } else {
      ReplaceLookup(next, extra[1..], k);
    }
  }

  /** Replacing into an array that shares no key with `extra` appends `extra` in its own order. */
  lemma {:induction false} ReplaceDisjoint<V>(base: Entries<V>, extra: Entries<V>)
    requires DistinctKeys(extra)
    requires Keys(base) !! Keys(extra)
    ensures Replace(base, extra) == base + extra
    decreases |extra|
  {
    if extra != [] {
      var e, rest := extra[0], extra[1..];
      var next := base + [e];
      assert DistinctKeys(rest) && Keys(next) !! Keys(rest) by {
        KeysCons(extra);
        DistinctCons(extra);
        KeysCons([e]);
        KeysAppend(base, [e]);
      }
      assert Replace(base, extra) == Replace(next, rest) by {
        KeysCons(extra);
        assert Put(base, e.0, e.1) == next;
      }
      ReplaceDisjoint(next, rest);
      AppendCons(base, extra);
    }
  }

  lemma AppendCons<V>(a: Entries<V>, b: Entries<V>)
    requires b != []
    ensures (a + [b[0]]) + b[1..] == a + b
  {
  }

  lemma KeysAppend<V>(a: Entries<V>, b: Entries<V>)
    ensures Keys(a + b) == Keys(a) + Keys(b)
  {
    assert forall e :: e in a + b <==> e in a || e in b;
  }

  /** `array_replace([], $extra)` is `$extra` itself. */
  lemma ReplaceIntoEmpty<V>(extra: Entries<V>)
    requires DistinctKeys(extra)
    ensures Replace([], extra) == extra
  {
    ReplaceDisjoint([], extra);
    assert [] + extra == extra;
  }
}
