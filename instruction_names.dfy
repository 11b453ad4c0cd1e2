/**
 * Unique instruction labels. Every instruction added to an HVI sequence
 * needs a distinct name, so a cache counts how often each requested name
 * was seen: the first request returns the name itself, the k-th returns
 * "name (k)".
 */
module InstructionNames {
  import opened Text

  /** How often each name was requested; a name is only present once requested. */
  type Uses = n: int | n >= 1 witness 1

  type Cache = map<string, Uses>

  function Seen(cache: Cache, name: string): nat
  {
    if name in cache then cache[name] else 0
  }

  /** The label handed out for the k-th request of `name` (k >= 1). */
  function Label(name: string, k: nat): string
  {
    if k <= 1 then name else name + " (" + NatToString(k) + ")"
  }

  /** One request: the label returned and the new cache. */
  function UniqueStep(cache: Cache, name: string): (string, Cache)
  {
    if name !in cache then (name, cache[name := 1])
    else (name + " (" + NatToString(cache[name] + 1) + ")", cache[name := cache[name] + 1])
  }

  /** A series of requests, in order. */
  function UniqueAll(cache: Cache, names: seq<string>): (seq<string>, Cache)
    decreases |names|
  {
    if names == [] then ([], cache)
    else
      var (l, c1) := UniqueStep(cache, names[0]);
      var (ls, c2) := UniqueAll(c1, names[1..]);
      ([l] + ls, c2)
  }

  function Count(names: seq<string>, name: string): nat
  {
    if names == [] then 0 else (if names[0] == name then 1 else 0) + Count(names[1..], name)
  }

  class InstructionNameCache {
    var cache: Cache

    constructor ()
      ensures cache == map[]
    {
      cache := map[];
    }

    method Unique(name: string) returns (unique: string)
      modifies this
      ensures (unique, cache) == UniqueStep(old(cache), name)
    {
      if name !in cache {
        cache := cache[name := 1];
        return name;
      }
      cache := cache[name := cache[name] + 1];
      unique := name + " (" + NatToString(cache[name]) + ")";
    }

    /** Request a series of names in order. */
    method UniqueSeries(names: seq<string>) returns (labels: seq<string>)
      modifies this
      ensures (labels, cache) == UniqueAll(old(cache), names)
    {
      labels := [];
      var i := 0;
      while i < |names|
        invariant 0 <= i <= |names|
        invariant (labels, cache) == UniqueAll(old(cache), names[..i])
      {
        UniqueAllSnoc(old(cache), names[..i], names[i]);
        assert names[..i + 1] == names[..i] + [names[i]];
        var l := Unique(names[i]);
        labels := labels + [l];
        i := i + 1;
      }
      assert names[..i] == names;
    }
  }

  /** Requesting one more name extends the series by that name's next label. */
  lemma {:induction false} UniqueAllSnoc(cache: Cache, names: seq<string>, name: string)
    decreases |names|
    ensures UniqueAll(cache, names + [name]) ==
      (UniqueAll(cache, names).0 + [UniqueStep(UniqueAll(cache, names).1, name).0],
       UniqueStep(UniqueAll(cache, names).1, name).1)
  {
    if names == [] {
      assert names + [name] == [name];
      assert [name][1..] == [];
      var (l, c1) := UniqueStep(cache, name);
      assert UniqueAll(cache, [name]) == ([l] + [], c1);
      assert UniqueAll(cache, names) == ([], cache);
      assert [] + [l] == [l] + [];
    } else {
      var (l0, c1) := UniqueStep(cache, names[0]);
      assert (names + [name])[0] == names[0];
      assert (names + [name])[1..] == names[1..] + [name];
      UniqueAllSnoc(c1, names[1..], name);
      var (rest, c2) := UniqueAll(c1, names[1..]);
      assert UniqueAll(cache, names) == ([l0] + rest, c2);
      assert UniqueAll(cache, names + [name]).0 == [l0] + (rest + [UniqueStep(c2, name).0]);
      assert [l0] + (rest + [UniqueStep(c2, name).0]) == ([l0] + rest) + [UniqueStep(c2, name).0];
    }
  }

  /** A request hands out the next label for that name and counts it; other names are untouched. */
  lemma UniqueStepNumbers(cache: Cache, name: string)
    ensures UniqueStep(cache, name).0 == Label(name, Seen(cache, name) + 1)
    ensures Seen(UniqueStep(cache, name).1, name) == Seen(cache, name) + 1
    ensures forall other :: other != name ==> Seen(UniqueStep(cache, name).1, other) == Seen(cache, other)
  {
  }

  lemma CountSplit(names: seq<string>, j: nat, name: string)
    requires j < |names|
    ensures Count(names[..j + 1], name) == Count(names[..j], name) + (if names[j] == name then 1 else 0)
  {
    if j > 0 {
      assert names[..j + 1][1..] == names[1..][..j];
      assert names[..j][1..] == names[1..][..j - 1];
      CountSplit(names[1..], j - 1, name);
    } else {
      assert names[..1][1..] == [];
    }
  }

  lemma {:induction false} UniqueAllLength(cache: Cache, names: seq<string>)
    decreases |names|
    ensures |UniqueAll(cache, names).0| == |names|
  {
    if names != [] {
      UniqueAllLength(UniqueStep(cache, names[0]).1, names[1..]);
    }
  }

  /** After a series of requests the cache has counted every occurrence of every name. */
  lemma {:induction false} UniqueAllCounts(cache: Cache, names: seq<string>, n: string)
    decreases |names|
    ensures Seen(UniqueAll(cache, names).1, n) == Seen(cache, n) + Count(names, n)
  {
    if names != [] {
      UniqueStepNumbers(cache, names[0]);
      UniqueAllCounts(UniqueStep(cache, names[0]).1, names[1..], n);
    }
  }

  /** The j-th label of a series is its name's label for the name's running occurrence count. */
  lemma {:induction false} UniqueAllLabels(cache: Cache, names: seq<string>, j: nat)
    decreases |names|
    requires j < |names|
    ensures |UniqueAll(cache, names).0| == |names|
    ensures UniqueAll(cache, names).0[j]
      == Label(names[j], Seen(cache, names[j]) + Count(names[..j + 1], names[j]))
  {
    UniqueAllLength(cache, names);
    if j == 0 {
      UniqueAllHead(cache, names);
    } else {
      var c1 := UniqueStep(cache, names[0]).1;
      UniqueAllLabels(c1, names[1..], j - 1);
      assert names[1..][j - 1] == names[j];
      UniqueAllTail(cache, names, j, c1, UniqueAll(c1, names[1..]).0);
    }
  }

  /** The first label of a series is the first name's next label. */
  lemma UniqueAllHead(cache: Cache, names: seq<string>)
    requires names != []
    ensures |UniqueAll(cache, names).0| >= 1
    ensures UniqueAll(cache, names).0[0] == Label(names[0], Seen(cache, names[0]) + Count(names[..1], names[0]))
  {
    UniqueStepNumbers(cache, names[0]);
    assert names[..1][1..] == [];
    assert Count(names[..1], names[0]) == 1;
  }

  /** Label `j` of a series is label `j - 1` of the series after the first request. */
  lemma UniqueAllTail(cache: Cache, names: seq<string>, j: nat, c1: Cache, rest: seq<string>)
    requires 0 < j < |names|
    requires c1 == UniqueStep(cache, names[0]).1 && rest == UniqueAll(c1, names[1..]).0 && |rest| == |names| - 1
    requires rest[j - 1] == Label(names[j], Seen(c1, names[j]) + Count(names[1..][..j], names[j]))
    ensures UniqueAll(cache, names).0[j]
      == Label(names[j], Seen(cache, names[j]) + Count(names[..j + 1], names[j]))
  {
    var x := names[j];
    UniqueStepNumbers(cache, names[0]);
    assert names[..j + 1][1..] == names[1..][..j];
    assert Count(names[..j + 1], x) == (if names[0] == x then 1 else 0) + Count(names[1..][..j], x);
    assert Seen(c1, x) == Seen(cache, x) + (if names[0] == x then 1 else 0);
    assert UniqueAll(cache, names).0 == [UniqueStep(cache, names[0]).0] + rest;
    assert UniqueAll(cache, names).0[j] == rest[j - 1];
  }

  /**
   * Labels handed out for the same base name are pairwise distinct. Labels of
   * different base names need not be: see LabelsCollideAcrossNames.
   */
  lemma LabelsDistinct(name: string, i: nat, k: nat)
    requires 1 <= i < k
    ensures Label(name, i) != Label(name, k)
  {
    var prefix := name + " (";
    if i > 1 {
      if Label(name, i) == Label(name, k) {
        var a := Label(name, i);
        assert a == prefix + NatToString(i) + ")";
        assert a == prefix + NatToString(k) + ")";
        assert |NatToString(i)| == |NatToString(k)|;
        assert NatToString(i) == a[|prefix| .. |a| - 1] == NatToString(k);
        ParseDigitsOfNatToString(i);
        ParseDigitsOfNatToString(k);
      }
    }
  }

  /**
   * The numbering is per base name only: requesting "x (2)" and then "x"
   * twice hands out the label "x (2)" twice.
   */
  lemma LabelsCollideAcrossNames()
    ensures UniqueAll(map[], ["x (2)", "x", "x"]).0 == ["x (2)", "x", "x (2)"]
  {
    var c1 := map["x (2)" := 1];
    var c2 := c1["x" := 1];
    assert UniqueStep(map[], "x (2)") == ("x (2)", c1);
    assert UniqueStep(c1, "x") == ("x", c2);
    assert NatToString(2) == "2";
    assert UniqueStep(c2, "x").0 == "x (2)";
    assert ["x (2)", "x", "x"][1..] == ["x", "x"];
    assert ["x", "x"][1..] == ["x"];
  }
}
