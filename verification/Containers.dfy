/** RST_Vector, a growable array, and RST_Map, an association list kept in one. */
module Containers {
  import opened Common
  /** RST_Vector */
  class Vector<T(0)> {
    var data: array<T>
    var size: nat
    var capacity: nat

    ghost predicate Valid()
      reads this
    {
      size <= capacity == data.Length && 2 <= capacity
    }

    ghost function Contents(): seq<T>
      requires Valid()
      reads this, data
    {
      data[..size]
    }

    /** RST_vector_init */
    constructor ()
      ensures Valid() && Contents() == [] && fresh(data)
    {
      capacity := 2;
      size := 0;
      data := new T[2];
    }

    /** RST_vector_push_back: a full vector doubles its capacity. */
    method PushBack(elem: T)
      requires Valid()
      modifies this, data
      ensures Valid() && Contents() == old(Contents()) + [elem]
      ensures capacity == if old(size == capacity) then 2 * old(capacity) else old(capacity)
      ensures data == old(data) || fresh(data)
    {
      if size == capacity {
        capacity := capacity * 2;
        var grown := new T[capacity];
        for i := 0 to size
          invariant data == old(data) && size == old(size) && capacity == 2 * old(capacity) == grown.Length
                    && fresh(grown)
          invariant data[..] == old(data[..]) && grown[..i] == data[..i]
        {
          grown[i] := data[i];
        }
        data := grown;
      }
      data[size] := elem;
      size := size + 1;
    }

    /** RST_vector_erase; the assertion on k is the precondition. */
    method Erase(k: nat)
      requires Valid() && k < size
      modifies this`size, data
      ensures Valid() && Contents() == old(Contents()[..k] + Contents()[k + 1..])
      ensures data == old(data) && capacity == old(capacity)
    {
      var i := k;
      while i < size - 1
        invariant k <= i <= size - 1 && size == old(size)
        invariant data[..i] == old(data[..k]) + old(data[k + 1..i + 1])
        invariant forall j :: i <= j < size ==> data[j] == old(data[j])
      {
        data[i] := data[i + 1];
        assert old(data[k + 1..i + 2]) == old(data[k + 1..i + 1]) + [old(data[i + 1])];
        i := i + 1;
      }
      size := size - 1;
      assert old(Contents()[k + 1..]) == old(data[k + 1..size]);
    }
  }

  // Association lists.

  /** Keys are at even places, each followed by its value. */
  function Paired<T>(s: seq<T>): (ps: seq<(T, T)>)
    ensures |ps| == |s| / 2 && forall k :: 0 <= k < |ps| ==> ps[k] == (s[2 * k], s[2 * k + 1])
  {
    seq(|s| / 2, k requires 0 <= k < |s| / 2 => (s[2 * k], s[2 * k + 1]))
  }

  /** The value of the first pair with the key. */
  function Lookup<T>(cmp: (T, T) -> int, ps: seq<(T, T)>, key: T): Option<T> {
    if ps == [] then None
    else if cmp(key, ps[0].0) == 0 then Some(ps[0].1)
    else Lookup(cmp, ps[1..], key)
  }

  /** A key that is present keeps the value it has. */
  function Put<T>(cmp: (T, T) -> int, ps: seq<(T, T)>, key: T, value: T): seq<(T, T)> {
    if Lookup(cmp, ps, key).Some? then ps else ps + [(key, value)]
  }

  function Without<T>(cmp: (T, T) -> int, ps: seq<(T, T)>, key: T): seq<(T, T)> {
    if ps == [] then []
    else if cmp(key, ps[0].0) == 0 then ps[1..]
    else [ps[0]] + Without(cmp, ps[1..], key)
  }

  /** The comparator returns 0 for keys that are the same. */
  ghost predicate Equates<T(!new)>(cmp: (T, T) -> int) {
    && (forall a :: cmp(a, a) == 0)
    && (forall a, b :: cmp(a, b) == 0 ==> cmp(b, a) == 0)
    && (forall a, b, c :: cmp(a, b) == 0 && cmp(b, c) == 0 ==> cmp(a, c) == 0)
  }

  predicate DistinctKeys<T>(cmp: (T, T) -> int, ps: seq<(T, T)>) {
    forall i, j :: 0 <= i < j < |ps| ==> cmp(ps[j].0, ps[i].0) != 0
  }

  lemma {:induction false} LookupNone<T>(cmp: (T, T) -> int, ps: seq<(T, T)>, key: T)
    ensures Lookup(cmp, ps, key).None? <==> forall i :: 0 <= i < |ps| ==> cmp(key, ps[i].0) != 0
    decreases |ps|
  {
    if ps != [] {
      LookupNone(cmp, ps[1..], key);
      assert forall i :: 1 <= i < |ps| ==> ps[i] == ps[1..][i - 1];
    }
  }

  lemma {:induction false} LookupSkips<T>(cmp: (T, T) -> int, ps: seq<(T, T)>, key: T, i: nat)
    requires i < |ps| && cmp(key, ps[i].0) == 0 && forall j :: 0 <= j < i ==> cmp(key, ps[j].0) != 0
    ensures Lookup(cmp, ps, key) == Some(ps[i].1)
    ensures Without(cmp, ps, key) == ps[..i] + ps[i + 1..]
    decreases |ps|
  {
    if i > 0 {
      assert forall j :: 0 <= j < i - 1 ==> ps[1..][j] == ps[j + 1];
      LookupSkips(cmp, ps[1..], key, i - 1);
      assert [ps[0]] + ps[1..][..i - 1] == ps[..i] && ps[1..][i..] == ps[i + 1..];
      assert [ps[0]] + (ps[1..][..i - 1] + ps[1..][i..]) == ps[..i] + ps[i + 1..];
    } else {
      assert ps[..0] + ps[1..] == ps[1..];
    }
  }

  lemma {:induction false} WithoutNothing<T>(cmp: (T, T) -> int, ps: seq<(T, T)>, key: T)
    requires Lookup(cmp, ps, key).None?
    ensures Without(cmp, ps, key) == ps
    decreases |ps|
  {
    if ps != [] {
      WithoutNothing(cmp, ps[1..], key);
    }
  }

  lemma {:induction false} LookupSnoc<T>(cmp: (T, T) -> int, ps: seq<(T, T)>, p: (T, T), key: T)
    ensures Lookup(cmp, ps + [p], key) ==
            if Lookup(cmp, ps, key).Some? then Lookup(cmp, ps, key) else if cmp(key, p.0) == 0 then Some(p.1) else None
    decreases |ps|
  {
    if ps == [] {
      assert ps + [p] == [p];
    } else {
      assert (ps + [p])[1..] == ps[1..] + [p];
      LookupSnoc(cmp, ps[1..], p, key);
    }
  }

  lemma {:induction false} LookupSame<T(!new)>(cmp: (T, T) -> int, ps: seq<(T, T)>, a: T, b: T)
    requires Equates(cmp) && cmp(a, b) == 0
    ensures Lookup(cmp, ps, a) == Lookup(cmp, ps, b)
    decreases |ps|
  {
    if ps != [] {
      LookupSame(cmp, ps[1..], a, b);
      var k := ps[0].0;
      assert cmp(b, a) == 0;
      assert cmp(a, k) == 0 ==> cmp(b, k) == 0;
      assert cmp(b, k) == 0 ==> cmp(a, k) == 0;
    }
  }

  /** Inserting: the key is found afterwards, with the value it had before if it had one; no other key
      is touched, and keys stay distinct. */
  lemma {:induction false} PutLookup<T(!new)>(cmp: (T, T) -> int, ps: seq<(T, T)>, key: T, value: T, q: T)
    requires Equates(cmp)
    ensures Lookup(cmp, Put(cmp, ps, key, value), q) ==
            if cmp(q, key) == 0 && Lookup(cmp, ps, q).None? then Some(value) else Lookup(cmp, ps, q)
    ensures DistinctKeys(cmp, ps) ==> DistinctKeys(cmp, Put(cmp, ps, key, value))
  {
    LookupSnoc(cmp, ps, (key, value), q);
    LookupNone(cmp, ps, key);
    if cmp(q, key) == 0 {
      LookupSame(cmp, ps, q, key);
    }
  }

  /** Erasing: the key is not found afterwards, every other key has the value it had, and keys stay
      distinct. */
  lemma {:induction false} WithoutLookup<T(!new)>(cmp: (T, T) -> int, ps: seq<(T, T)>, key: T, q: T)
    requires Equates(cmp) && DistinctKeys(cmp, ps)
    ensures Lookup(cmp, Without(cmp, ps, key), q) == if cmp(q, key) == 0 then None else Lookup(cmp, ps, q)
    ensures DistinctKeys(cmp, Without(cmp, ps, key))
    ensures forall i :: 0 <= i < |Without(cmp, ps, key)| ==> Without(cmp, ps, key)[i] in ps
    decreases |ps|
  {
    if ps != [] {
      var rest := ps[1..];
      assert DistinctKeys(cmp, rest) by { assert forall i :: 0 <= i < |rest| ==> rest[i] == ps[i + 1]; }
      WithoutLookup(cmp, rest, key, q);
      var k := ps[0].0;
      if cmp(key, k) == 0 {
        FirstOnly(cmp, ps, key, q);
      } else {
        var w := Without(cmp, rest, key);
        assert ([ps[0]] + w)[1..] == w;
        assert cmp(q, key) == 0 && cmp(q, k) == 0 ==> cmp(key, q) == 0;
        assert forall i :: 0 <= i < |w| ==> w[i] in rest;
        assert forall p :: p in rest ==> p in ps && cmp(p.0, k) != 0;
      }
    }
  }

  lemma {:induction false} FirstOnly<T(!new)>(cmp: (T, T) -> int, ps: seq<(T, T)>, key: T, q: T)
    requires Equates(cmp) && DistinctKeys(cmp, ps) && ps != [] && cmp(key, ps[0].0) == 0
    ensures Lookup(cmp, ps[1..], q) == if cmp(q, key) == 0 then None else Lookup(cmp, ps, q)
  {
    var k, rest := ps[0].0, ps[1..];
    if cmp(q, key) == 0 {
      LookupNone(cmp, rest, q);
      forall i | 0 <= i < |rest|
        ensures cmp(q, rest[i].0) != 0
      {
        var r := rest[i].0;
        assert rest[i] == ps[i + 1] && cmp(r, k) != 0;
        assert cmp(q, r) == 0 ==> cmp(r, q) == 0;
        assert cmp(r, q) == 0 ==> cmp(r, key) == 0;
        assert cmp(r, key) == 0 ==> cmp(r, k) == 0;
      }
    } else {
      assert cmp(q, k) == 0 ==> cmp(k, key) == 0 && cmp(q, key) == 0;
    }
  }

  /** RST_Map, with a comparator that tells keys apart, no key destructor, and possibly a value
      destructor, whose calls are recorded. */
  class Map<T(0,!new)> {
    const v: Vector<T>
    const comparator: (T, T) -> int
    const destroysValues: bool
    ghost var destroyed: seq<T>

    ghost predicate Valid()
      reads this, v, v.data
    {
      v.Valid() && v.size % 2 == 0 && DistinctKeys(comparator, Paired(v.Contents()))
    }

    ghost function Pairs(): seq<(T, T)>
      requires v.Valid()
      reads this, v, v.data
    {
      Paired(v.Contents())
    }

    /** RST_map_init */
    constructor (comparator: (T, T) -> int, destroysValues: bool)
      ensures Valid() && Pairs() == [] && destroyed == [] && fresh(v) && fresh(v.data)
      ensures this.comparator == comparator && this.destroysValues == destroysValues
    {
      this.comparator, this.destroysValues, destroyed := comparator, destroysValues, [];
      v := new Vector<T>();
    }

    /** RST_map_contains */
    method Contains(key: T) returns (found: bool)
      requires Valid()
      ensures found <==> Lookup(comparator, Pairs(), key).Some?
    {
      LookupNone(comparator, Pairs(), key);
      var i := 0;
      while i < v.size
        invariant i % 2 == 0 && 0 <= i <= v.size
        invariant forall k :: 0 <= k < i / 2 ==> comparator(key, Pairs()[k].0) != 0
      {
        assert Pairs()[i / 2].0 == v.data[i];
        if comparator(key, v.data[i]) == 0 {
          return true;
        }
        i := i + 2;
      }
      found := false;
    }

    /** RST_map_find */
    method Find(key: T) returns (found: Option<T>)
      requires Valid()
      ensures found == Lookup(comparator, Pairs(), key)
    {
      LookupNone(comparator, Pairs(), key);
      var i := 0;
      while i < v.size
        invariant i % 2 == 0 && 0 <= i <= v.size
        invariant forall k :: 0 <= k < i / 2 ==> comparator(key, Pairs()[k].0) != 0
      {
        assert Pairs()[i / 2] == (v.data[i], v.data[i + 1]);
        if comparator(key, v.data[i]) == 0 {
          LookupSkips(comparator, Pairs(), key, i / 2);
          return Some(v.data[i + 1]);
        }
        i := i + 2;
      }
      found := None;
    }

    /** RST_map_insert */
    method Insert(key: T, value: T)
      requires Valid()
      modifies v, v.data
      ensures Valid() && Pairs() == Put(comparator, old(Pairs()), key, value)
      ensures v.data == old(v.data) || fresh(v.data)
    {
      var found := Contains(key);
      if !found {
        ghost var s := v.Contents();
        v.PushBack(key);
        v.PushBack(value);
        assert v.Contents() == s + [key, value];
        PairedSnoc(s, key, value);
        LookupNone(comparator, Paired(s), key);
      }
    }

    /** What RST_map_erase does to the pair it has found. */
    method ErasePair(i: nat, ghost k: nat)
      requires v.Valid() && v.size % 2 == 0 && i == 2 * k && i + 1 < v.size
      modifies this, v, v.data
      ensures v.Valid() && v.data == old(v.data) && v.size == old(v.size) - 2
      ensures Pairs() == old(Pairs()[..k] + Pairs()[k + 1..])
      ensures destroyed == old(destroyed) + (if destroysValues then [old(Pairs()[k].1)] else [])
    {
      ghost var s := v.Contents();
      PairedErase(s, k);
      DropTwice(s, k);
      hide Paired;
      v.Erase(i);
      var value := v.data[i];
      assert value == v.Contents()[i];
      if destroysValues {
        destroyed := destroyed + [value];
      }
      v.Erase(i);
    }

    /** RST_map_erase: the pair after one that is erased moves into its place and is not looked at. */
    method Erase(key: T)
      requires Valid()
      modifies this, v, v.data
      ensures Valid() && Pairs() == Swept(comparator, old(Pairs()), key)
      ensures destroyed == old(destroyed) + SweptAway(comparator, old(Pairs()), key, destroysValues)
      ensures v.data == old(v.data)
    {
      hide Paired, DistinctKeys, Swept, SweptAway, Sweeping;
      ghost var ps, gone := Pairs(), [];
      SweepBegins(comparator, ps, key, destroysValues);
      var i := 0;
      while i < v.size
        invariant 0 <= i && i % 2 == 0
        invariant v.Valid() && v.data == old(v.data) && v.size % 2 == 0 && DistinctKeys(comparator, Pairs())
        invariant Sweeping(comparator, ps, key, destroysValues, Pairs(), gone, i / 2)
                  && destroyed == old(destroyed) + gone
        decreases v.size + 2 - i
      {
        ghost var qs := Pairs();
        PairAt(v.Contents(), i / 2);
        if comparator(key, v.data[i]) == 0 {
          ErasePair(i, i / 2);
          SweepErases(comparator, ps, key, destroysValues, qs, gone, i / 2);
          FewerDistinct(comparator, qs, i / 2);
          gone := gone + if destroysValues then [qs[i / 2].1] else [];
        } else {
          SweepKeeps(comparator, ps, key, destroysValues, qs, gone, i / 2);
        }
        i := i + 2;
      }
      PairCount(v.Contents());
      SweepEnds(comparator, ps, key, destroysValues, Pairs(), gone, i / 2);
    }
  }

  lemma PairAt<T>(s: seq<T>, k: nat)
    requires |s| % 2 == 0 && 2 * k < |s|
    ensures k < |Paired(s)| && Paired(s)[k] == (s[2 * k], s[2 * k + 1])
  {
  }

  lemma PairCount<T>(s: seq<T>)
    requires |s| % 2 == 0
    ensures |Paired(s)| == |s| / 2
  {
  }

  /** What one pass over the pairs, which passes over the pair after one that it erases, leaves of them. */
  function Swept<T>(cmp: (T, T) -> int, ps: seq<(T, T)>, key: T): seq<(T, T)> {
    if ps == [] then []
    else if cmp(key, ps[0].0) != 0 then [ps[0]] + Swept(cmp, ps[1..], key)
    else if |ps| == 1 then []
    else [ps[1]] + Swept(cmp, ps[2..], key)
  }

  /** The values it destroys, if it destroys values. */
  function SweptAway<T>(cmp: (T, T) -> int, ps: seq<(T, T)>, key: T, destroys: bool): seq<T> {
    if ps == [] || !destroys then []
    else if cmp(key, ps[0].0) != 0 then SweptAway(cmp, ps[1..], key, destroys)
    else if |ps| == 1 then [ps[0].1]
    else [ps[0].1] + SweptAway(cmp, ps[2..], key, destroys)
  }

  lemma DropTwice<T>(s: seq<T>, k: nat)
    requires |s| % 2 == 0 && 2 * k + 1 < |s|
    ensures var t := s[..2 * k] + s[2 * k + 1..];
            2 * k < |t| && t[..2 * k] + t[2 * k + 1..] == s[..2 * k] + s[2 * k + 2..] && t[2 * k] == Paired(s)[k].1
  {
  }

  lemma {:induction false} PairedSnoc<T>(s: seq<T>, key: T, value: T)
    requires |s| % 2 == 0
    ensures Paired(s + [key, value]) == Paired(s) + [(key, value)]
  {
    var t := s + [key, value];
    assert |t| / 2 == |s| / 2 + 1;
    forall k | 0 <= k < |s| / 2 + 1
      ensures Paired(t)[k] == (Paired(s) + [(key, value)])[k]
    {
      if k < |s| / 2 {
        assert t[2 * k] == s[2 * k] && t[2 * k + 1] == s[2 * k + 1];
      }
    }
  }

  lemma {:induction false} PairedErase<T>(s: seq<T>, k: nat)
    requires |s| % 2 == 0 && 2 * k < |s|
    ensures Paired(s[..2 * k] + s[2 * k + 2..]) == Paired(s)[..k] + Paired(s)[k + 1..]
  {
    var t := s[..2 * k] + s[2 * k + 2..];
    var ps := Paired(s)[..k] + Paired(s)[k + 1..];
    assert |t| / 2 == |s| / 2 - 1 == |ps|;
    forall j | 0 <= j < |ps|
      ensures Paired(t)[j] == ps[j]
    {
      if j >= k {
        assert t[2 * j] == s[2 * j + 2] && t[2 * j + 1] == s[2 * j + 3];
      }
    }
  }

  // Erasing in one pass.

  /** The pass has got to place k of qs, which is what it has made of ps, and has destroyed the values `gone`. */
  predicate Sweeping<T(==)>(
    cmp: (T, T) -> int, ps: seq<(T, T)>, key: T, destroys: bool, qs: seq<(T, T)>, gone: seq<T>, k: nat)
  {
    if k <= |qs| then
      Swept(cmp, ps, key) == qs[..k] + Swept(cmp, qs[k..], key)
      && SweptAway(cmp, ps, key, destroys) == gone + SweptAway(cmp, qs[k..], key, destroys)
    else Swept(cmp, ps, key) == qs && SweptAway(cmp, ps, key, destroys) == gone
  }

  lemma {:induction false} SweepBegins<T>(cmp: (T, T) -> int, ps: seq<(T, T)>, key: T, destroys: bool)
    ensures Sweeping(cmp, ps, key, destroys, ps, [], 0)
  {
    assert ps[..0] == [] && ps[0..] == ps;
  }

  lemma {:induction false} SweepEnds<T>(
    cmp: (T, T) -> int, ps: seq<(T, T)>, key: T, destroys: bool, qs: seq<(T, T)>, gone: seq<T>, k: nat)
    requires Sweeping(cmp, ps, key, destroys, qs, gone, k) && k >= |qs|
    ensures Swept(cmp, ps, key) == qs && SweptAway(cmp, ps, key, destroys) == gone
  {
    if k == |qs| {
      assert qs[..k] + [] == qs && gone + [] == gone;
    }
  }

  lemma {:induction false} SweepKeeps<T>(
    cmp: (T, T) -> int, ps: seq<(T, T)>, key: T, destroys: bool, qs: seq<(T, T)>, gone: seq<T>, k: nat)
    requires Sweeping(cmp, ps, key, destroys, qs, gone, k) && k < |qs| && cmp(key, qs[k].0) != 0
    ensures Sweeping(cmp, ps, key, destroys, qs, gone, k + 1)
  {
    assert qs[k..][1..] == qs[k + 1..];
    var rest := Swept(cmp, qs[k + 1..], key);
    assert qs[..k] + ([qs[k]] + rest) == qs[..k + 1] + rest;
  }

  lemma {:induction false} SweepErases<T>(
    cmp: (T, T) -> int, ps: seq<(T, T)>, key: T, destroys: bool, qs: seq<(T, T)>, gone: seq<T>, k: nat)
    requires Sweeping(cmp, ps, key, destroys, qs, gone, k) && k < |qs| && cmp(key, qs[k].0) == 0
    ensures Sweeping(cmp, ps, key, destroys, qs[..k] + qs[k + 1..],
                     gone + (if destroys then [qs[k].1] else []), k + 1)
  {
    var qs' := qs[..k] + qs[k + 1..];
    if |qs| == k + 1 {
      assert qs' == qs[..k] && qs[..k] + [] == qs[..k];
    } else {
      assert qs[k..][2..] == qs[k + 2..] == qs'[k + 1..];
      var rest := Swept(cmp, qs[k + 2..], key);
      assert qs[..k] + ([qs[k + 1]] + rest) == qs'[..k + 1] + rest;
      var away := SweptAway(cmp, qs[k + 2..], key, destroys);
      assert gone + ([qs[k].1] + away) == gone + [qs[k].1] + away;
      assert !destroys ==> gone + [] == gone;
    }
  }

  lemma FewerDistinct<T>(cmp: (T, T) -> int, ps: seq<(T, T)>, i: nat)
    requires DistinctKeys(cmp, ps) && i < |ps|
    ensures DistinctKeys(cmp, ps[..i] + ps[i + 1..])
  {
  }

  predicate Matches<T>(cmp: (T, T) -> int, ps: seq<(T, T)>, key: T, i: nat)
    requires i < |ps|
  {
    cmp(key, ps[i].0) == 0
  }

  /** The pairs that the key does not match. */
  function Others<T>(cmp: (T, T) -> int, ps: seq<(T, T)>, key: T): seq<(T, T)> {
    if ps == [] then [] else (if Matches(cmp, ps, key, 0) then [] else [ps[0]]) + Others(cmp, ps[1..], key)
  }

  /** The values of the pairs that it does match. */
  function MatchingValues<T>(cmp: (T, T) -> int, ps: seq<(T, T)>, key: T): seq<T> {
    if ps == [] then [] else (if Matches(cmp, ps, key, 0) then [ps[0].1] else []) + MatchingValues(cmp, ps[1..], key)
  }

  predicate BothMatch<T>(cmp: (T, T) -> int, ps: seq<(T, T)>, key: T, i: nat)
    requires i + 1 < |ps|
  {
    Matches(cmp, ps, key, i) && Matches(cmp, ps, key, i + 1)
  }

  /** The key matches no two neighbouring pairs. */
  predicate NoNeighbours<T>(cmp: (T, T) -> int, ps: seq<(T, T)>, key: T) {
    forall i :: 0 <= i < |ps| - 1 ==> !BothMatch(cmp, ps, key, i)
  }

  lemma {:induction false} NeighboursTail<T>(cmp: (T, T) -> int, ps: seq<(T, T)>, key: T)
    requires ps != []
    ensures NoNeighbours(cmp, ps, key) <==>
            NoNeighbours(cmp, ps[1..], key) && (|ps| > 1 ==> !BothMatch(cmp, ps, key, 0))
  {
    var rest := ps[1..];
    forall i | 0 <= i < |rest| - 1 ensures BothMatch(cmp, rest, key, i) == BothMatch(cmp, ps, key, i + 1) {}
    forall i | 1 <= i < |ps| - 1 ensures BothMatch(cmp, ps, key, i) == BothMatch(cmp, rest, key, i - 1) {}
  }

  lemma {:induction false} OthersUnmatched<T>(cmp: (T, T) -> int, ps: seq<(T, T)>, key: T)
    ensures Lookup(cmp, Others(cmp, ps, key), key).None?
    decreases |ps|
  {
    if ps != [] {
      var rest := Others(cmp, ps[1..], key);
      OthersUnmatched(cmp, ps[1..], key);
      OthersOfConcat(cmp, ps[0], rest, key);
      assert [] + rest == rest;
    }
  }

  lemma {:induction false} OthersOfConcat<T>(cmp: (T, T) -> int, p: (T, T), ps: seq<(T, T)>, key: T)
    ensures Others(cmp, [p] + ps, key) == (if cmp(key, p.0) == 0 then [] else [p]) + Others(cmp, ps, key)
    ensures Lookup(cmp, [p] + ps, key).None? <==> cmp(key, p.0) != 0 && Lookup(cmp, ps, key).None?
  {
    assert ([p] + ps)[1..] == ps;
  }

  lemma {:induction false} TwoTails<T>(cmp: (T, T) -> int, ps: seq<(T, T)>, key: T)
    requires |ps| > 1
    ensures ps[1..][1..] == ps[2..] && (Matches(cmp, ps[1..], key, 0) <==> Matches(cmp, ps, key, 1))
    ensures Others(cmp, ps, key) ==
            (if Matches(cmp, ps, key, 0) then [] else [ps[0]]) + (if Matches(cmp, ps, key, 1) then [] else [ps[1]])
            + Others(cmp, ps[2..], key)
    ensures MatchingValues(cmp, ps, key) ==
            (if Matches(cmp, ps, key, 0) then [ps[0].1] else []) + (if Matches(cmp, ps, key, 1) then [ps[1].1] else [])
            + MatchingValues(cmp, ps[2..], key)
  {
    assert ps[1..][1..] == ps[2..];
  }

  /** What the pass erases, for every comparator.  No pair is lost that the key does not match; and the key
      is gone, all of its pairs erased and nothing else, if and only if it matched no two neighbours. */
  lemma {:induction false} SweptExactly<T>(cmp: (T, T) -> int, ps: seq<(T, T)>, key: T)
    ensures Others(cmp, Swept(cmp, ps, key), key) == Others(cmp, ps, key)
    ensures Lookup(cmp, Swept(cmp, ps, key), key).None? <==> NoNeighbours(cmp, ps, key)
    ensures Swept(cmp, ps, key) == Others(cmp, ps, key) <==> NoNeighbours(cmp, ps, key)
    ensures NoNeighbours(cmp, ps, key) ==> SweptAway(cmp, ps, key, true) == MatchingValues(cmp, ps, key)
    decreases |ps|
  {
    hide Lookup, NoNeighbours;
    OthersUnmatched(cmp, ps, key);
    if ps == [] {
      NoneAtAll(cmp, key);
    } else {
      NeighboursTail(cmp, ps, key);
      if !Matches(cmp, ps, key, 0) {
        SweptExactly(cmp, ps[1..], key);
        OthersOfConcat(cmp, ps[0], Swept(cmp, ps[1..], key), key);
      } else if |ps| == 1 {
        NoneAtAll(cmp, key);
      } else {
        NeighboursTail(cmp, ps[1..], key);
        TwoTails(cmp, ps, key);
        SweptExactly(cmp, ps[2..], key);
        OthersOfConcat(cmp, ps[1], Swept(cmp, ps[2..], key), key);
      }
    }
  }

  lemma NoneAtAll<T>(cmp: (T, T) -> int, key: T)
    ensures Lookup(cmp, [], key).None? && NoNeighbours(cmp, [], key) && Others(cmp, [], key) == []
  {
  }

  /** A comparator that tells keys apart matches one pair at most. */
  lemma {:induction false} OnceAtMost<T(!new)>(cmp: (T, T) -> int, ps: seq<(T, T)>, key: T)
    requires Equates(cmp) && DistinctKeys(cmp, ps)
    ensures NoNeighbours(cmp, ps, key)
    ensures Others(cmp, ps, key) == Without(cmp, ps, key)
    ensures MatchingValues(cmp, ps, key) ==
            if Lookup(cmp, ps, key).Some? then [Lookup(cmp, ps, key).value] else []
    decreases |ps|
  {
    hide Equates;
    if ps != [] {
      var rest := ps[1..];
      NeighboursTail(cmp, ps, key);
      assert forall i :: 0 <= i < |rest| ==> rest[i] == ps[i + 1];
      OnceAtMost(cmp, rest, key);
      if Matches(cmp, ps, key, 0) {
        forall i | 0 < i < |ps| ensures cmp(key, ps[i].0) != 0 { NoSecondMatch(cmp, ps, key, 0, i); }
        LookupNone(cmp, rest, key);
        WithoutNothing(cmp, rest, key);
      }
    }
  }

  /** A comparator that tells keys apart leaves nothing to pass over: the pass erases the key. */
  lemma {:induction false} SweptIsWithout<T(!new)>(cmp: (T, T) -> int, ps: seq<(T, T)>, key: T, destroys: bool)
    requires Equates(cmp) && DistinctKeys(cmp, ps)
    ensures Swept(cmp, ps, key) == Without(cmp, ps, key)
    ensures SweptAway(cmp, ps, key, destroys) ==
            if destroys && Lookup(cmp, ps, key).Some? then [Lookup(cmp, ps, key).value] else []
  {
    hide Equates, NoNeighbours, Swept, Lookup, Without;
    OnceAtMost(cmp, ps, key);
    SweptExactly(cmp, ps, key);
  }

  /** Compares numbers, and takes neighbours for the same. */
  function Nearby(a: int, b: int): int { if -1 <= a - b <= 1 then 0 else a - b }

  /** With a comparator that is not transitive a key can match two neighbouring pairs of a map; it is found
      again after it has been erased. */
  lemma {:induction false} PassedOver()
    ensures var ps := [(0, 10), (2, 20)];
            && DistinctKeys(Nearby, ps) && !NoNeighbours(Nearby, ps, 1)
            && Lookup(Nearby, Swept(Nearby, ps, 1), 1).Some? && Swept(Nearby, ps, 1) == [(2, 20)]
  {
    var ps := [(0, 10), (2, 20)];
    assert BothMatch(Nearby, ps, 1, 0);
    SweptExactly(Nearby, ps, 1);
    assert |ps[2..]| == 0;
  }

  /** Two places cannot both hold the key. */
  lemma {:induction false} NoSecondMatch<T(!new)>(cmp: (T, T) -> int, ps: seq<(T, T)>, key: T, i: nat, j: nat)
    requires Equates(cmp) && DistinctKeys(cmp, ps) && i < j < |ps|
    ensures cmp(key, ps[i].0) != 0 || cmp(key, ps[j].0) != 0
  {
    var a, b := ps[i].0, ps[j].0;
    assert cmp(b, a) != 0;
    assert cmp(key, b) == 0 ==> cmp(b, key) == 0;
    assert cmp(b, key) == 0 && cmp(key, a) == 0 ==> cmp(b, a) == 0;
  }
}
