/** The parts of PHP's runtime semantics the plugin relies on: truthiness of
    values read from the host, insertion-ordered arrays, and `join`/`explode`
    on strings. */
module Php {

  datatype Option<+T> = None | Some(value: T)

  /** PHP truthiness of a string read from the host, where a missing value
      (null or false) is `None`: "", "0" and a missing value are falsy. */
  predicate Truthy(v: Option<string>)
  {
    v.Some? && v.value != "" && v.value != "0"
  }

  // ---------------------------------------------------------------------
  // Arrays. A PHP array is an ordered map: its entries are kept in the
  // order they were first inserted, and that order is what `foreach`,
  // `array_values` and JSON encoding see.
  // ---------------------------------------------------------------------

  function Keys<K, V>(a: seq<(K, V)>): (ks: seq<K>)
    ensures |ks| == |a|
    ensures forall i :: 0 <= i < |a| ==> ks[i] == a[i].0
  {
    seq(|a|, i requires 0 <= i < |a| => a[i].0)
  }

  function Values<K, V>(a: seq<(K, V)>): (vs: seq<V>)
    ensures |vs| == |a|
    ensures forall i :: 0 <= i < |a| ==> vs[i] == a[i].1
  {
    seq(|a|, i requires 0 <= i < |a| => a[i].1)
  }

  /** Every PHP array has this: no key occurs twice. */
  predicate DistinctKeys<K(==), V>(a: seq<(K, V)>)
  {
    forall i, j :: 0 <= i < j < |a| ==> a[i].0 != a[j].0
  }

  /** No element occurs twice. */
  predicate Distinct<K(==)>(ks: seq<K>)
  {
    forall i, j :: 0 <= i < j < |ks| ==> ks[i] != ks[j]
  }

  lemma DistinctByKeys<K, V>(a: seq<(K, V)>)
    requires Distinct(Keys(a))
    ensures DistinctKeys(a)
  {
    forall i, j | 0 <= i < j < |a| ensures a[i].0 != a[j].0 {
      assert Keys(a)[i] == a[i].0 && Keys(a)[j] == a[j].0;
    }
  }

  /** Reading the entry at a known position of an array. */
  lemma LookupAt<K, V>(a: seq<(K, V)>, i: nat)
    requires DistinctKeys(a) && i < |a|
    ensures Lookup(a, a[i].0) == Some(a[i].1)
  {
    assert Keys(a)[i] == a[i].0;
  }

  /** The position of `k` in `ks`, if it occurs. */
  function IndexOf<K(==)>(ks: seq<K>, k: K): (r: Option<nat>)
    ensures r.Some? ==> r.value < |ks| && ks[r.value] == k
    ensures r.Some? ==> forall j :: 0 <= j < r.value ==> ks[j] != k
    ensures r.None? <==> k !in ks
  {
    if ks == [] then None
    else if ks[0] == k then Some(0)
    else match IndexOf(ks[1..], k)
      case None => None
      case Some(i) => Some(i + 1)
  }

  lemma {:induction false} IndexOfAppend<K>(ks: seq<K>, x: K, k: K)
    ensures IndexOf(ks + [x], k) == if k in ks then IndexOf(ks, k) else if x == k then Some(|ks|) else None
  {
    if ks == [] {
      assert ks + [x] == [x];
    } else {
      assert (ks + [x])[0] == ks[0];
      assert (ks + [x])[1..] == ks[1..] + [x];
      IndexOfAppend(ks[1..], x, k);
    }
  }

  /** The position of key `k` in the array, if the array has it. */
  function Find<K(==), V>(a: seq<(K, V)>, k: K): (r: Option<nat>)
    ensures r.Some? ==> r.value < |a| && a[r.value].0 == k
    ensures r.Some? ==> forall j :: 0 <= j < r.value ==> a[j].0 != k
    ensures r.None? <==> k !in Keys(a)
  {
    IndexOf(Keys(a), k)
  }

  /** Reading `$a[k]`; `None` when the key is absent. */
  function Lookup<K(==), V>(a: seq<(K, V)>, k: K): (r: Option<V>)
    ensures r.Some? <==> k in Keys(a)
    ensures r.Some? ==> (k, r.value) in a
  {
    match Find(a, k)
    case None => None
    case Some(i) => Some(a[i].1)
  }

  /** `$a[k] = v`: an existing key keeps its position and takes the new
      value; a new key is appended at the end. */
  function Assign<K(==,!new), V>(a: seq<(K, V)>, k: K, v: V): (r: seq<(K, V)>)
    ensures k in Keys(a) ==> Keys(r) == Keys(a)
    ensures k !in Keys(a) ==> Keys(r) == Keys(a) + [k]
    ensures Lookup(r, k) == Some(v)
    ensures forall k' :: k' != k ==> Lookup(r, k') == Lookup(a, k')
    ensures DistinctKeys(a) ==> DistinctKeys(r)
  {
    match Find(a, k)
    case Some(i) =>
      var r := a[i := (k, v)];
      assert Keys(r) == Keys(a);
      r
    case None =>
      var r := a + [(k, v)];
      assert Keys(r) == Keys(a) + [k];
      forall k' | k' != k ensures Lookup(r, k') == Lookup(a, k') {
        FindAppend(a, (k, v), k');
      }
      FindAppend(a, (k, v), k);
      r
  }

  lemma FindAppend<K, V>(a: seq<(K, V)>, e: (K, V), k: K)
    ensures Find(a + [e], k) == if k in Keys(a) then Find(a, k) else if e.0 == k then Some(|a|) else None
  {
    assert Keys(a + [e]) == Keys(a) + [e.0];
    IndexOfAppend(Keys(a), e.0, k);
  }

  /** `unset($a[k])`: the entry for `k` is dropped and the others keep
      their keys and their order (no renumbering). */
  function Unset<K(==), V>(a: seq<(K, V)>, k: K): (r: seq<(K, V)>)
    requires DistinctKeys(a)
    ensures DistinctKeys(r)
    ensures r == WithoutKey(a, k)
    ensures |r| == if k in Keys(a) then |a| - 1 else |a|
  {
    match Find(a, k)
    case None =>
      WithoutKeyAbsent(a, k);
      a
    case Some(i) =>
      UnsetAt(a, k, i);
      a[..i] + a[i + 1..]
  }

  lemma UnsetAt<K, V>(a: seq<(K, V)>, k: K, i: nat)
    requires DistinctKeys(a)
    requires i < |a| && a[i].0 == k
    ensures WithoutKey(a, k) == a[..i] + a[i + 1..]
    ensures DistinctKeys(a[..i] + a[i + 1..])
  {
    var front, back := a[..i], a[i + 1..];
    assert a == (front + [a[i]]) + back;
    KeyOnlyAt(a, i);
    WithoutKeyAbsent(front, k);
    WithoutKeyAbsent(back, k);
    assert [a[i]][1..] == [];
    assert WithoutKey([a[i]], k) == [];
    WithoutKeyConcat(front, [a[i]], k);
    assert WithoutKey(front + [a[i]], k) == front;
    WithoutKeyConcat(front + [a[i]], back, k);
    DistinctWithout(a, i);
  }

  lemma KeyOnlyAt<K, V>(a: seq<(K, V)>, i: nat)
    requires DistinctKeys(a) && i < |a|
    ensures a[i].0 !in Keys(a[..i]) && a[i].0 !in Keys(a[i + 1..])
  {
    var front, back := a[..i], a[i + 1..];
    forall j | 0 <= j < |front| ensures Keys(front)[j] != a[i].0 {
      assert front[j] == a[j];
    }
    forall j | 0 <= j < |back| ensures Keys(back)[j] != a[i].0 {
      assert back[j] == a[i + 1 + j];
    }
  }

  lemma DistinctWithout<K, V>(a: seq<(K, V)>, i: nat)
    requires DistinctKeys(a) && i < |a|
    ensures DistinctKeys(a[..i] + a[i + 1..])
  {
    var r := a[..i] + a[i + 1..];
    forall x, y | 0 <= x < y < |r| ensures r[x].0 != r[y].0 {
      var x', y' := if x < i then x else x + 1, if y < i then y else y + 1;
      assert r[x] == a[x'] && r[y] == a[y'];
    }
  }

  /** The entries of `a` whose key is not `k`, in order: the reference
      definition of what `unset` leaves. */
  function WithoutKey<K(==), V>(a: seq<(K, V)>, k: K): (r: seq<(K, V)>)
    ensures k !in Keys(r)
    ensures |r| <= |a|
  {
    if a == [] then []
    else (if a[0].0 == k then [] else [a[0]]) + WithoutKey(a[1..], k)
  }

  lemma {:induction false} WithoutKeyAbsent<K, V>(a: seq<(K, V)>, k: K)
    requires k !in Keys(a)
    ensures WithoutKey(a, k) == a
  {
    if a != [] {
      assert a[0].0 == Keys(a)[0];
      assert Keys(a[1..]) == Keys(a)[1..];
      WithoutKeyAbsent(a[1..], k);
      assert a == [a[0]] + a[1..];
    }
  }

  lemma {:induction false} WithoutKeyConcat<K, V>(a: seq<(K, V)>, b: seq<(K, V)>, k: K)
    ensures WithoutKey(a + b, k) == WithoutKey(a, k) + WithoutKey(b, k)
  {
    if a == [] {
      assert a + b == b;
    } else {
      assert (a + b)[0] == a[0];
      assert (a + b)[1..] == a[1..] + b;
      WithoutKeyConcat(a[1..], b, k);
    }
  }

  // ---------------------------------------------------------------------
  // Strings
  // ---------------------------------------------------------------------

  /** `join(sep, parts)`. */
  function Join(parts: seq<string>, sep: string): string
  {
    if |parts| == 0 then ""
    else if |parts| == 1 then parts[0]
    else parts[0] + sep + Join(parts[1..], sep)
  }

  /** `sep` occurs in `s` starting at position `j`. */
  predicate OccursAt(s: string, sep: string, j: nat)
  {
    j + |sep| <= |s| && s[j..j + |sep|] == sep
  }

  /** The leftmost occurrence of `sep` in `s` at or after position `from`. */
  function FindFrom(s: string, sep: string, from: nat): (r: Option<nat>)
    requires |sep| > 0
    decreases |s| - from
    ensures r.Some? ==> from <= r.value && OccursAt(s, sep, r.value)
    ensures r.Some? ==> forall j :: from <= j < r.value ==> !OccursAt(s, sep, j)
    ensures r.None? ==> forall j :: from <= j ==> !OccursAt(s, sep, j)
  {
    if from + |sep| > |s| then None
    else if OccursAt(s, sep, from) then Some(from)
    else FindFrom(s, sep, from + 1)
  }

  /** `explode(sep, s)`: the pieces of `s` between occurrences of `sep`,
      read left to right. */
  function Explode(s: string, sep: string): (r: seq<string>)
    requires |sep| > 0
    decreases |s|
    ensures |r| >= 1
  {
    match FindFrom(s, sep, 0)
    case None => [s]
    case Some(i) => [s[..i]] + Explode(s[i + |sep|..], sep)
  }

  /** How many times character `c` occurs in `s`. */
  function CountChar(s: string, c: char): nat
  {
    if s == [] then 0 else (if s[0] == c then 1 else 0) + CountChar(s[1..], c)
  }

  lemma {:induction false} CountCharAppend(a: string, b: string, c: char)
    ensures CountChar(a + b, c) == CountChar(a, c) + CountChar(b, c)
  {
    if a == [] {
      assert a + b == b;
    } else {
      assert (a + b)[0] == a[0];
      assert (a + b)[1..] == a[1..] + b;
      CountCharAppend(a[1..], b, c);
    }
  }

  lemma {:induction false} CountCharAbsent(s: string, c: char)
    requires c !in s
    ensures CountChar(s, c) == 0
  {
    if s != [] {
      assert forall x :: x in s[1..] ==> x in s;
      CountCharAbsent(s[1..], c);
    }
  }
}
