/**
 The ECMAScript `Map` as a sequence of pairs in insertion order: overwriting a key keeps its
 position, deleting it frees the position, and iteration follows the sequence.  The hot cache, the
 store queue and the chunk cache all read "oldest" off this order.
 */
module OrderedMap {
  datatype Option<+T> = None | Some(value: T) {
    function GetOr(default: T): T {
      match this
      case Some(v) => v
      case None => default
    }
  }

  datatype Pair<+K, +V> = Pair(key: K, value: V)

  type OMap<+K, +V> = seq<Pair<K, V>>

  ghost predicate Distinct<K, V>(m: OMap<K, V>) {
    forall i, j :: 0 <= i < j < |m| ==> m[i].key != m[j].key
  }

  /** Position of the first pair with key `k`, or `|m|`. */
  function IndexOf<K(==), V>(m: OMap<K, V>, k: K): (i: nat)
    ensures i <= |m|
    ensures i < |m| ==> m[i].key == k
    ensures forall j :: 0 <= j < i ==> m[j].key != k
  {
    if m == [] then 0 else if m[0].key == k then 0 else 1 + IndexOf(m[1..], k)
  }

  predicate Has<K(==), V>(m: OMap<K, V>, k: K) {
    IndexOf(m, k) < |m|
  }

  function Get<K(==), V>(m: OMap<K, V>, k: K): Option<V> {
    var i := IndexOf(m, k);
    if i < |m| then Some(m[i].value) else None
  }

  function Set<K(==), V>(m: OMap<K, V>, k: K, v: V): OMap<K, V> {
    var i := IndexOf(m, k);
    if i < |m| then m[i := Pair(k, v)] else m + [Pair(k, v)]
  }

  function Delete<K(==), V>(m: OMap<K, V>, k: K): OMap<K, V> {
    var i := IndexOf(m, k);
    if i < |m| then m[..i] + m[i + 1..] else m
  }

  /** In a map with distinct keys, a lookup finds exactly the pair stored under the key. */
  lemma GetIff<K, V>(m: OMap<K, V>, k: K, v: V)
    requires Distinct(m)
    ensures Get(m, k) == Some(v) <==> Pair(k, v) in m
  {
    if Pair(k, v) in m {
      var i :| 0 <= i < |m| && m[i] == Pair(k, v);
      assert IndexOf(m, k) == i;
    }
  }

  lemma GetNoneIff<K, V>(m: OMap<K, V>, k: K)
    ensures Get(m, k) == None <==> forall p :: p in m ==> p.key != k
  {
  }

  lemma SetDistinct<K, V>(m: OMap<K, V>, k: K, v: V)
    requires Distinct(m)
    ensures Distinct(Set(m, k, v))
    ensures |Set(m, k, v)| == if Has(m, k) then |m| else |m| + 1
  {
  }

  /** `set` changes the lookup of its own key only. */
  lemma SetGet<K, V>(m: OMap<K, V>, k: K, v: V, k': K)
    requires Distinct(m)
    ensures Get(Set(m, k, v), k') == if k' == k then Some(v) else Get(m, k')
  {
    SetDistinct(m, k, v);
    var r := Set(m, k, v);
    if k' == k {
      assert r[IndexOf(m, k)] == Pair(k, v);
      GetIff(r, k, v);
    } else {
      match Get(m, k')
      case Some(w) =>
        assert r[IndexOf(m, k')] == Pair(k', w);
        GetIff(r, k', w);
      case None =>
        GetNoneIff(r, k');
    }
  }

  lemma DeleteShape<K, V>(m: OMap<K, V>, k: K)
    requires Distinct(m)
    ensures Distinct(Delete(m, k))
    ensures |Delete(m, k)| == if Has(m, k) then |m| - 1 else |m|
    ensures forall j :: 0 <= j < |Delete(m, k)| ==> Delete(m, k)[j].key != k
  {
  }

  lemma DeleteMember<K, V>(m: OMap<K, V>, k: K, p: Pair<K, V>)
    requires p in m && p.key != k
    ensures p in Delete(m, k)
  {
    var i := IndexOf(m, k);
    if i < |m| {
      assert Delete(m, k) == m[..i] + m[i + 1..];
      assert m == m[..i] + [m[i]] + m[i + 1..];
    }
  }

  lemma DeleteDistinct<K, V>(m: OMap<K, V>, k: K)
    requires Distinct(m)
    ensures Distinct(Delete(m, k))
    ensures forall p :: p in Delete(m, k) <==> p in m && p.key != k
    ensures |Delete(m, k)| == if Has(m, k) then |m| - 1 else |m|
  {
    DeleteShape(m, k);
    forall p | p in m && p.key != k ensures p in Delete(m, k) { DeleteMember(m, k, p); }
  }

  /** `delete` forgets its own key only. */
  lemma DeleteGet<K, V>(m: OMap<K, V>, k: K, k': K)
    requires Distinct(m)
    ensures Get(Delete(m, k), k') == if k' == k then None else Get(m, k')
  {
    DeleteDistinct(m, k);
    if k' == k {
      GetNoneIff(Delete(m, k), k);
    } else {
      match Get(m, k')
      case Some(w) =>
        assert Pair(k', w) in m;
        GetIff(Delete(m, k), k', w);
      case None =>
        GetNoneIff(Delete(m, k), k');
    }
  }

  // ---- Deleting while iterating

  lemma DropInMiddle<K, V>(pre: OMap<K, V>, it: OMap<K, V>, i: nat)
    requires i < |it| && Distinct(pre + it[i..])
    ensures var cur := pre + it[i..];
      Has(cur, it[i].key) && Delete(cur, it[i].key) == pre + it[i + 1..] && Distinct(pre + it[i + 1..])
  {
    var cur := pre + it[i..];
    assert cur[|pre|] == it[i];
    assert IndexOf(cur, it[i].key) == |pre|;
    assert cur[..|pre|] == pre && cur[|pre| + 1..] == it[i + 1..];
    DeleteDistinct(cur, it[i].key);
  }

  lemma TakeNext<T>(it: seq<T>, i: nat)
    requires i < |it|
    ensures it[..i + 1] == it[..i] + [it[i]]
  {
  }

  lemma KeepInMiddle<T>(pre: seq<T>, it: seq<T>, i: nat)
    requires i < |it|
    ensures (pre + [it[i]]) + it[i + 1..] == pre + it[i..]
  {
  }

  /** One turn of a filtering loop: `pre` survived from `it[..i]`, and `it[i]` is dropped or kept. */
  lemma FilterTurn<K, V>(pre: OMap<K, V>, it: OMap<K, V>, i: nat, drop: bool, pre': OMap<K, V>)
    requires i < |it| && Distinct(pre + it[i..]) && pre' == pre + if drop then [] else [it[i]]
    ensures var cur := pre + it[i..]; var next := if drop then Delete(cur, it[i].key) else cur;
      next == pre' + it[i + 1..] && Distinct(next) && Has(cur, it[i].key)
  {
    DropInMiddle(pre, it, i);
    KeepInMiddle(pre, it, i);
    if drop { assert pre' == pre; }
  }

  lemma DropFirstPair<K, V>(m: OMap<K, V>)
    requires m != [] && Distinct(m)
    ensures Delete(m, m[0].key) == m[1..] && Has(m, m[0].key) && Distinct(m[1..])
  {
    assert IndexOf(m, m[0].key) == 0;
    assert m[..0] + m[0 + 1..] == m[1..];
  }

  /** A map's head may precede any part of its tail. */
  lemma ConsDistinct<K, V>(m: OMap<K, V>, rest: OMap<K, V>)
    requires m != [] && Distinct(m) && Distinct(rest) && forall p :: p in rest ==> p in m[1..]
    ensures Distinct([m[0]] + rest)
  {
    forall j | 0 <= j < |rest| ensures rest[j].key != m[0].key {
      assert rest[j] in m[1..];
    }
  }
}
