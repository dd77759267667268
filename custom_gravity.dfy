/** The gravity-source registry: an ordered, duplicate-free list of active
    sources, and the sum of their gravity at a position. Each source's own field
    shape is not modelled; a registry is built around a function that gives the
    gravity of one source at one position. */
module CustomGravity {
  import opened Vectors

  /** No source occurs twice. */
  predicate NoDuplicates<S(==)>(s: seq<S>) {
    forall i, j :: 0 <= i < j < |s| ==> s[i] != s[j]
  }

  /** Every source's gravity at `position`, in list order. */
  function Contributions<S>(field: (S, Vec3) -> Vec3, sources: seq<S>, position: Vec3): seq<Vec3> {
    seq(|sources|, i requires 0 <= i < |sources| => field(sources[i], position))
  }

  /** The total gravity at `position`, accumulated over the sources in list
      order as the loops of `GetGravity` do; it is the vector sum of the
      contributions. */
  function GravityAt<S>(field: (S, Vec3) -> Vec3, sources: seq<S>, position: Vec3): (r: Vec3)
    ensures r == Sum(Contributions(field, sources, position))
  {
    if sources == [] then Zero
    else
      var init := sources[..|sources| - 1];
      assert Contributions(field, sources, position)[..|sources| - 1] == Contributions(field, init, position);
      Add(GravityAt(field, init, position), field(sources[|sources| - 1], position))
  }

  /** Position of the first occurrence of `x` in `s`. */
  function IndexOf<S(==)>(s: seq<S>, x: S): (k: nat)
    requires x in s
    ensures k < |s| && s[k] == x && x !in s[..k]
  {
    if s[0] == x then 0 else 1 + IndexOf(s[1..], x)
  }

  /** What `List.Remove` does: drop the first occurrence of `x`, if any. */
  function RemoveFirst<S(==)>(s: seq<S>, x: S): (r: seq<S>)
    ensures |r| == if x in s then |s| - 1 else |s|
  {
    if s == [] then []
    else if s[0] == x then s[1..]
    else [s[0]] + RemoveFirst(s[1..], x)
  }

  /** Removing an element whose first occurrence is at `k` cuts the list there
      and keeps both sides in order. */
  lemma {:induction false} RemoveFirstSplit<S>(s: seq<S>, x: S, k: nat)
    requires k < |s| && s[k] == x && x !in s[..k]
    ensures RemoveFirst(s, x) == s[..k] + s[k + 1..]
  {
    if k == 0 {
      assert s[..0] + s[1..] == s[1..];
    } else {
      var t := s[1..];
      assert s[..k] == [s[0]] + t[..k - 1];
      RemoveFirstSplit(t, x, k - 1);
      assert s[k + 1..] == t[k..];
    }
  }

  /** Removing an element that does not occur changes nothing. */
  lemma {:induction false} RemoveFirstAbsent<S>(s: seq<S>, x: S)
    requires x !in s
    ensures RemoveFirst(s, x) == s
  {
    if s != [] {
      RemoveFirstAbsent(s[1..], x);
      assert s == [s[0]] + s[1..];
    }
  }

  /** Removing an element that occurs cuts the list at its first occurrence
      and keeps both sides in order; removing one that does not changes nothing. */
  lemma RemoveFirstAt<S>(s: seq<S>, x: S)
    ensures x !in s ==> RemoveFirst(s, x) == s
    ensures x in s ==> RemoveFirst(s, x) == s[..IndexOf(s, x)] + s[IndexOf(s, x) + 1..]
  {
    if x in s {
      RemoveFirstSplit(s, x, IndexOf(s, x));
    } else {
      RemoveFirstAbsent(s, x);
    }
  }

  /** Summing the gravity of a concatenation of source lists is adding the two sums. */
  lemma {:induction false} GravityAtAppend<S>(field: (S, Vec3) -> Vec3, u: seq<S>, v: seq<S>, position: Vec3)
    ensures GravityAt(field, u + v, position) == Add(GravityAt(field, u, position), GravityAt(field, v, position))
    decreases |v|
  {
    if v == [] {
      assert u + v == u;
    } else {
      var v' := v[..|v| - 1];
      assert (u + v)[..|u + v| - 1] == u + v';
      GravityAtAppend(field, u, v', position);
    }
  }

  /** Taking one source out of the middle of the list takes out its gravity. */
  lemma GravityAtWithout<S>(field: (S, Vec3) -> Vec3, s: seq<S>, k: nat, position: Vec3)
    requires k < |s|
    ensures GravityAt(field, s, position) == Add(GravityAt(field, s[..k] + s[k + 1..], position), field(s[k], position))
  {
    assert s == s[..k] + [s[k]] + s[k + 1..];
    GravityAtAppend(field, s[..k], [s[k]], position);
    GravityAtAppend(field, s[..k] + [s[k]], s[k + 1..], position);
    GravityAtAppend(field, s[..k], s[k + 1..], position);
    assert [s[k]][..0] == [];
  }

  /** Splitting a list around position `k` splits its multiset around `s[k]`. */
  lemma MultisetAround<S>(s: seq<S>, k: nat)
    requires k < |s|
    ensures multiset(s[..k] + s[k + 1..]) == multiset(s) - multiset{s[k]}
  {
    var u, v := s[..k], s[k + 1..];
    assert s == u + ([s[k]] + v);
    calc {
      multiset(s);
      multiset(u) + multiset([s[k]] + v);
      multiset(u) + (multiset{s[k]} + multiset(v));
      (multiset(u) + multiset(v)) + multiset{s[k]};
    }
    assert multiset(u + v) == multiset(u) + multiset(v);
  }

  /** Removing one occurrence of the same element from two permutations of
      each other leaves permutations of each other. */
  lemma MultisetWithout<S>(a: seq<S>, b: seq<S>, k: nat)
    requires multiset(a) == multiset(b) && |a| > 0 && k < |b| && b[k] == a[|a| - 1]
    ensures multiset(a[..|a| - 1]) == multiset(b[..k] + b[k + 1..])
  {
    MultisetAround(a, |a| - 1);
    assert a[..|a| - 1] + a[|a|..] == a[..|a| - 1];
    MultisetAround(b, k);
  }

  /** The total gravity does not depend on the order in which sources were registered. */
  lemma {:induction false} GravityOrderIndependent<S>(field: (S, Vec3) -> Vec3, a: seq<S>, b: seq<S>, position: Vec3)
    requires multiset(a) == multiset(b)
    ensures GravityAt(field, a, position) == GravityAt(field, b, position)
    decreases |a|
  {
    if a == [] {
      assert |b| == |multiset(b)| == 0;
    } else {
      var x := a[|a| - 1];
      assert x in multiset(b);
      var k :| 0 <= k < |b| && b[k] == x;
      MultisetWithout(a, b, k);
      GravityOrderIndependent(field, a[..|a| - 1], b[..k] + b[k + 1..], position);
      GravityAtWithout(field, b, k, position);
    }
  }

  /** Registering a new source adds exactly that source's gravity. */
  lemma RegisterAddsSource<S>(field: (S, Vec3) -> Vec3, sources: seq<S>, x: S, position: Vec3)
    ensures GravityAt(field, sources + [x], position) == Add(GravityAt(field, sources, position), field(x, position))
  {
  }

  /** Unregistering a registered source removes exactly that source's gravity. */
  lemma UnregisterRemovesSource<S>(field: (S, Vec3) -> Vec3, sources: seq<S>, x: S, position: Vec3)
    requires x in sources
    ensures GravityAt(field, RemoveFirst(sources, x), position) == Sub(GravityAt(field, sources, position), field(x, position))
  {
    var k := IndexOf(sources, x);
    RemoveFirstSplit(sources, x, k);
    GravityAtWithout(field, sources, k, position);
  }

  /** Removing an element that occurs takes exactly one copy of it out of the multiset. */
  lemma RemoveFirstMultiset<S>(s: seq<S>, x: S)
    requires x in s
    ensures multiset(RemoveFirst(s, x)) == multiset(s) - multiset{x}
  {
    var k := IndexOf(s, x);
    RemoveFirstAt(s, x);
    assert RemoveFirst(s, x) == s[..k] + s[k + 1..];
    MultisetAround(s, k);
  }

  /** Removing from a duplicate-free list leaves a duplicate-free list in
      which `x` no longer occurs. */
  lemma RemoveFirstKeepsUnique<S>(s: seq<S>, x: S)
    requires NoDuplicates(s)
    ensures NoDuplicates(RemoveFirst(s, x))
    ensures x !in RemoveFirst(s, x)
  {
    RemoveFirstAt(s, x);
    if x in s {
      var k := IndexOf(s, x);
      var r := RemoveFirst(s, x);
      forall i | 0 <= i < |r| ensures r[i] == s[if i < k then i else i + 1] {
        if i < k { assert r[i] == s[..k][i]; } else { assert r[i] == s[k + 1..][i - k]; }
      }
    }
  }

  /** Registering a fresh source and then unregistering it restores the list. */
  lemma RegisterUnregisterRoundTrip<S>(s: seq<S>, x: S)
    requires x !in s
    ensures RemoveFirst(s + [x], x) == s
  {
    RemoveFirstAt(s + [x], x);
    var k := IndexOf(s + [x], x);
    assert (s + [x])[..|s|] == s;
    assert k == |s|;
  }

  /** The process-wide static `sources` list of the C# class, as an explicit object. */
  class GravityRegistry<S(==)> {
    /** The gravity that one source produces at a position. */
    const field: (S, Vec3) -> Vec3
    var sources: seq<S>

    predicate Valid() reads this {
      NoDuplicates(sources)
    }

    constructor (field: (S, Vec3) -> Vec3)
      ensures Valid() && this.field == field && sources == []
    {
      this.field := field;
      sources := [];
    }

    /** Appends a source. Registering one that is already present is a
        caller error that the C# class only logs; the list then keeps the duplicate. */
    method Register(source: S)
      modifies this
      ensures sources == old(sources) + [source]
      ensures old(Valid()) && source !in old(sources) ==> Valid()
    {
      sources := sources + [source];
    }

    /** Removes the first occurrence of a source, keeping the others in order;
        an unknown source is logged by the C# class and leaves the list as it was. */
    method Unregister(source: S)
      modifies this
      ensures sources == RemoveFirst(old(sources), source)
      ensures source !in old(sources) ==> sources == old(sources)
      ensures source in old(sources) ==>
        var k := IndexOf(old(sources), source); sources == old(sources)[..k] + old(sources)[k + 1..]
      ensures source in old(sources) ==> multiset(sources) == multiset(old(sources)) - multiset{source}
      ensures old(Valid()) ==> Valid() && source !in sources
    {
      RemoveFirstAt(sources, source);
      if source in sources {
        RemoveFirstMultiset(sources, source);
      }
      if Valid() {
        RemoveFirstKeepsUnique(sources, source);
      }
      sources := RemoveFirst(sources, source);
    }

    /** Total gravity at `position`: the sum of every registered source's gravity. */
    method GetGravity(position: Vec3) returns (gravity: Vec3)
      ensures gravity == GravityAt(field, sources, position)
    {
      gravity := Zero;
      for i := 0 to |sources|
        invariant gravity == GravityAt(field, sources[..i], position)
      {
        assert sources[..i + 1][..i] == sources[..i];
        gravity := Add(gravity, field(sources[i], position));
      }
      assert sources[..|sources|] == sources;
    }

    /** The two-output overload: the same sum, and the up axis opposite to its
        normalised direction (normalisation is supplied by the caller). */
    method GetGravityAndUp(position: Vec3, normalize: Vec3 -> Vec3) returns (gravity: Vec3, upAxis: Vec3)
      ensures gravity == GravityAt(field, sources, position)
      ensures upAxis == Neg(normalize(gravity))
    {
      gravity := Zero;
      for i := 0 to |sources|
        invariant gravity == GravityAt(field, sources[..i], position)
      {
        assert sources[..i + 1][..i] == sources[..i];
        gravity := Add(gravity, field(sources[i], position));
      }
      assert sources[..|sources|] == sources;
      upAxis := Neg(normalize(gravity));
    }
  }
}
