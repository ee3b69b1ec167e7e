/** A JavaScript object used as a dictionary, `Record<string, V>`.

    Besides the key/value mapping, such an object has an enumeration order
    (`Object.keys`, `Object.values`, `for ... of`) which, for string keys, is
    the order in which the keys were first inserted.  `keys` holds that order
    and `entries` the mapping; `Wf` ties the two together. */
module Records {
  import opened Wrappers

  datatype Record<V> = Record(keys: seq<string>, entries: map<string, V>)

  ghost predicate Distinct<T>(s: seq<T>) {
    forall i, j :: 0 <= i < j < |s| ==> s[i] != s[j]
  }

  /** Every key enumerates exactly once, and exactly the mapped keys enumerate. */
  ghost predicate Wf<V>(r: Record<V>) {
    && Distinct(r.keys)
    && (forall k :: k in r.entries <==> k in r.keys)
  }

  /** `{}` */
  function Empty<V>(): (r: Record<V>)
    ensures Wf(r) && r.keys == [] && r.entries == map[]
  {
    Record([], map[])
  }

  /** `r[k]`, with `undefined` for a missing key. */
  function Get<V>(r: Record<V>, k: string): (v: Option<V>)
    ensures v.Some? <==> k in r.entries
    ensures v.Some? ==> v.value == r.entries[k]
  {
    if k in r.entries then Some(r.entries[k]) else None
  }

  /** `{ ...r, [k]: v }`: a key already present keeps its place in the
      enumeration order, a new key enumerates last. */
  function Put<V>(r: Record<V>, k: string, v: V): (r': Record<V>)
    ensures Wf(r) ==> Wf(r')
    ensures r'.entries == r.entries[k := v]
  {
    Record(if k in r.entries then r.keys else r.keys + [k], r.entries[k := v])
  }

  /** `s` with every occurrence of `k` dropped, the rest in order. */
  function Without(s: seq<string>, k: string): (t: seq<string>)
    ensures forall x :: x in t <==> x in s && x != k
    ensures Distinct(s) ==> Distinct(t)
    ensures |t| <= |s|
  {
    if s == [] then []
    else if s[0] == k then Without(s[1..], k)
    else
      var rest := Without(s[1..], k);
      assert Distinct(s) ==> s[0] !in s[1..];
      [s[0]] + rest
  }

  /** Dropping a key that occurs once, at `i`, closes the gap it leaves. */
  lemma {:induction false} WithoutAt(s: seq<string>, i: nat)
    requires Distinct(s) && i < |s|
    ensures Without(s, s[i]) == s[..i] + s[i + 1..]
  {
    if i == 0 {
      WithoutAbsent(s[1..], s[0]);
    } else {
      assert s[1..][i - 1] == s[i];
      WithoutAt(s[1..], i - 1);
      assert s[1..][..i - 1] == s[1..i];
      assert s[..i] == [s[0]] + s[1..i];
    }
  }

  lemma {:induction false} WithoutAbsent(s: seq<string>, k: string)
    requires k !in s
    ensures Without(s, k) == s
  {
    if s != [] {
      WithoutAbsent(s[1..], k);
    }
  }

  /** A copy of `r` after `delete copy[k]`. */
  function Delete<V>(r: Record<V>, k: string): (r': Record<V>)
    ensures Wf(r) ==> Wf(r')
    ensures r'.entries == r.entries - {k}
  {
    Record(Without(r.keys, k), r.entries - {k})
  }

  /** `Object.values(r)`: the values in key enumeration order. */
  function Values<V>(r: Record<V>): (vs: seq<V>)
    requires Wf(r)
    ensures |vs| == |r.keys|
    ensures forall i :: 0 <= i < |r.keys| ==> vs[i] == r.entries[r.keys[i]]
  {
    seq(|r.keys|, i requires 0 <= i < |r.keys| => r.entries[r.keys[i]])
  }
}
