/** An insertion-ordered dictionary that forgets its oldest entries beyond a limit. */
module BoundedDict {

  datatype Ordered<K, V> = Ordered(order: seq<K>, entries: map<K, V>)

  /** The order lists the entries, each once. */
  ghost predicate Indexed<K(!new), V>(c: Ordered<K, V>) {
    && (forall i, j | 0 <= i < j < |c.order| :: c.order[i] != c.order[j])
    && (forall k :: k in c.order <==> k in c.entries)
  }

  function Without<K(==, !new)>(s: seq<K>, k: K): (r: seq<K>)
    ensures forall x :: x in r <==> x in s && x != k
    ensures |r| <= |s|
  {
    if s == [] then []
    else
      assert s == [s[0]] + s[1..];
      if s[0] == k then Without(s[1..], k) else [s[0]] + Without(s[1..], k)
  }

  lemma {:induction false} WithoutDistinct<K(!new)>(s: seq<K>, k: K)
    requires forall i, j | 0 <= i < j < |s| :: s[i] != s[j]
    ensures var r := Without(s, k); forall i, j | 0 <= i < j < |r| :: r[i] != r[j]
    ensures k in s ==> |Without(s, k)| + 1 == |s|
  {
    if s != [] {
      WithoutDistinct(s[1..], k);
      assert s == [s[0]] + s[1..];
      if s[0] == k {
        WithoutAbsent(s[1..], k);
      } else {
        var r := Without(s[1..], k);
        assert s[0] !in r;
        assert Without(s, k) == [s[0]] + r;
      }
    }
  }

  lemma {:induction false} WithoutAbsent<K(!new)>(s: seq<K>, k: K)
    requires k !in s
    ensures Without(s, k) == s
  {
    if s != [] {
      assert s == [s[0]] + s[1..];
      WithoutAbsent(s[1..], k);
    }
  }

  /** The entry becomes the youngest. */
  function Touched<K(==, !new), V>(c: Ordered<K, V>, k: K): Ordered<K, V> {
    Ordered(Without(c.order, k) + [k], c.entries)
  }

  /** Drop the oldest entries beyond the limit. */
  function Evicted<K(==), V>(c: Ordered<K, V>, limit: nat): Ordered<K, V>
    decreases |c.order|
  {
    if |c.order| <= limit then c
    else Evicted(Ordered(c.order[1..], c.entries - {c.order[0]}), limit)
  }

  /** Insert or overwrite, then evict; overwriting keeps the place in the order. */
  function Stored<K(==), V>(c: Ordered<K, V>, limit: nat, k: K, v: V): Ordered<K, V> {
    Evicted(Ordered(if k in c.entries then c.order else c.order + [k], c.entries[k := v]), limit)
  }

  lemma TouchKeeps<K(!new), V>(c: Ordered<K, V>, k: K)
    requires Indexed(c) && k in c.entries
    ensures Indexed(Touched(c, k)) && Touched(c, k).entries == c.entries
    ensures exists i :: 0 <= i < |c.order| && c.order[i] == k
                        && Touched(c, k).order == c.order[..i] + c.order[i + 1..] + [k]
  {
    WithoutDistinct(c.order, k);
    var i := WithoutOne(c.order, k);
  }

  lemma {:induction false} WithoutOne<K(!new)>(s: seq<K>, k: K) returns (i: nat)
    requires (forall i, j | 0 <= i < j < |s| :: s[i] != s[j]) && k in s
    ensures i < |s| && s[i] == k && Without(s, k) == s[..i] + s[i + 1..]
  {
    assert s == [s[0]] + s[1..];
    if s[0] == k {
      i := 0;
      WithoutAbsent(s[1..], k);
    } else {
      var m := WithoutOne(s[1..], k);
      i := m + 1;
      assert s[..i] == [s[0]] + s[1..][..m] && s[i + 1..] == s[1..][m + 1..];
    }
  }

  lemma {:induction false} EvictKeeps<K(!new), V>(c: Ordered<K, V>, limit: nat)
    requires Indexed(c)
    ensures var r := Evicted(c, limit);
            && Indexed(r)
            && |r.order| <= limit && |r.order| <= |c.order|
            && r.order == c.order[|c.order| - |r.order|..]
            && (|c.order| <= limit ==> r == c)
            && (|c.order| >= limit ==> |r.order| == limit)
            && (forall k | k in r.entries :: k in c.entries && r.entries[k] == c.entries[k])
    decreases |c.order|
  {
    if |c.order| > limit {
      DropKeeps(c);
      EvictKeeps(Ordered(c.order[1..], c.entries - {c.order[0]}), limit);
    }
  }

  lemma DropKeeps<K(!new), V>(c: Ordered<K, V>)
    requires Indexed(c) && c.order != []
    ensures Indexed(Ordered(c.order[1..], c.entries - {c.order[0]}))
  {
  }

  /**
   After a store the new entry is present and every other entry is an old one. An overwritten entry keeps its place, a
   new one comes last, and only the oldest entries beyond the limit go.
   */
  lemma StoreKeeps<K(!new), V>(c: Ordered<K, V>, limit: nat, k: K, v: V)
    requires Indexed(c) && |c.order| <= limit && limit >= 1
    ensures var r := Stored(c, limit, k, v);
            && Indexed(r) && |r.order| <= limit
            && k in r.entries && r.entries[k] == v
            && (forall x | x in r.entries && x != k :: x in c.entries && r.entries[x] == c.entries[x])
            && (k in c.entries ==> r.order == c.order)
            && (k !in c.entries && |c.order| < limit ==> r.order == c.order + [k])
            && (k !in c.entries && |c.order| == limit ==> r.order == c.order[1..] + [k])
  {
    var full := Ordered(if k in c.entries then c.order else c.order + [k], c.entries[k := v]);
    assert Indexed(full);
    EvictKeeps(full, limit);
    var r := Evicted(full, limit);
    if k !in c.entries {
      assert r.order[|r.order| - 1] == full.order[|full.order| - 1] == k;
    }
  }

  class BoundedCache<K(==, !new), V> {
    const limit: nat
    var order: seq<K>
    var entries: map<K, V>

    ghost function Contents(): Ordered<K, V>
      reads this
    {
      Ordered(order, entries)
    }

    ghost predicate Valid()
      reads this
    {
      1 <= limit && |order| <= limit && Indexed(Contents())
    }

    constructor (limit: nat)
      requires limit >= 1
      ensures Valid() && this.limit == limit && Contents() == Ordered([], map[])
    {
      this.limit, order, entries := limit, [], map[];
    }

    method Touch(k: K)
      requires Valid() && k in entries
      modifies this
      ensures Valid() && Contents() == Touched(old(Contents()), k)
    {
      TouchKeeps(Contents(), k);
      order := Without(order, k) + [k];
    }

    method Store(k: K, v: V)
      requires Valid()
      modifies this
      ensures Valid() && Contents() == Stored(old(Contents()), limit, k, v)
    {
      StoreKeeps(Contents(), limit, k, v);
      if k !in entries {
        order := order + [k];
      }
      entries := entries[k := v];
      while |order| > limit
        invariant Evicted(Contents(), limit) == Stored(old(Contents()), limit, k, v)
        decreases |order|
      {
        entries := entries - {order[0]};
        order := order[1..];
      }
    }
  }
}
