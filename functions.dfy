/** The generic helpers `append_dict`, `ignore` and `euclidian_distance`. */
module Functions {
  import opened Numerics

  // ---------------------------------------------------------------------------
  // append_dict

  /** The dictionary that results from copying `dictA` and then every dictionary of `args` in turn. */
  function Merged<K, V>(dictA: map<K, V>, args: seq<map<K, V>>): map<K, V>
    decreases |args|
  {
    if args == [] then dictA else Merged(dictA, args[..|args| - 1]) + args[|args| - 1]
  }

  /** `k` is a key of `args[i]` and of no later dictionary of `args`. */
  ghost predicate LastHolder<K, V>(args: seq<map<K, V>>, i: int, k: K)
  {
    0 <= i < |args| && k in args[i] && forall j :: i < j < |args| ==> k !in args[j]
  }

  /** One `for k, v in d.items(): new_dict[k] = v` loop: every entry of `src` is written into `dest`. */
  method CopyItems<K, V>(dest: map<K, V>, src: map<K, V>) returns (r: map<K, V>)
    ensures r == dest + src
  {
    r := dest;
    var keys := src.Keys;
    while keys != {}
      invariant keys <= src.Keys
      invariant r.Keys == dest.Keys + (src.Keys - keys)
      invariant forall k :: k in r ==> r[k] == if k in src.Keys - keys then src[k] else dest[k]
      decreases keys
    {
      var k :| k in keys;
      r := r[k := src[k]];
      keys := keys - {k};
    }
  }

  /**
   * `append_dict(dict_a, *args)`: a fresh dictionary filled by copying
   * `dict_a` and then each dictionary of `args`, key by key.
   */
  method AppendDict<K, V>(dictA: map<K, V>, args: seq<map<K, V>>) returns (newDict: map<K, V>)
    ensures newDict == Merged(dictA, args)
  {
    newDict := CopyItems(map[], dictA);
    assert newDict == Merged(dictA, args[..0]);
    var i := 0;
    while i < |args|
      invariant 0 <= i <= |args|
      invariant newDict == Merged(dictA, args[..i])
    {
      newDict := CopyItems(newDict, args[i]);
      assert args[..i + 1][..i] == args[..i];
      i := i + 1;
    }
    assert args[..|args|] == args;
  }

  /** The keys of the merged dictionary are those of `dictA` and of every dictionary of `args`. */
  lemma {:induction false} MergedKeys<K, V>(dictA: map<K, V>, args: seq<map<K, V>>, k: K)
    ensures k in Merged(dictA, args) <==> k in dictA || exists i :: 0 <= i < |args| && k in args[i]
    decreases |args|
  {
    if args != [] {
      var init := args[..|args| - 1];
      MergedKeys(dictA, init, k);
      if k in Merged(dictA, args) && k !in dictA && k !in args[|args| - 1] {
        var i :| 0 <= i < |init| && k in init[i];
        assert k in args[i];
      }
      if exists i :: 0 <= i < |args| && k in args[i] {
        var i :| 0 <= i < |args| && k in args[i];
        if i < |args| - 1 {
          assert k in init[i];
        }
      }
    }
  }

  /** For a key of some dictionary of `args`, the last dictionary that holds it gives its value. */
  lemma {:induction false} MergedLastWins<K, V>(dictA: map<K, V>, args: seq<map<K, V>>, i: int, k: K)
    requires LastHolder(args, i, k)
    ensures k in Merged(dictA, args) && Merged(dictA, args)[k] == args[i][k]
    decreases |args|
  {
    if i < |args| - 1 {
      var init := args[..|args| - 1];
      assert LastHolder(init, i, k) by {
        forall j | i < j < |init| ensures k !in init[j] {
          assert init[j] == args[j];
        }
      }
      MergedLastWins(dictA, init, i, k);
    }
  }

  /** A key that no dictionary of `args` holds keeps the value it has in `dictA`. */
  lemma {:induction false} MergedKeepsFirst<K, V>(dictA: map<K, V>, args: seq<map<K, V>>, k: K)
    requires k in dictA
    requires forall j :: 0 <= j < |args| ==> k !in args[j]
    ensures k in Merged(dictA, args) && Merged(dictA, args)[k] == dictA[k]
    decreases |args|
  {
    if args != [] {
      var init := args[..|args| - 1];
      forall j | 0 <= j < |init| ensures k !in init[j] {
        assert init[j] == args[j];
      }
      MergedKeepsFirst(dictA, init, k);
    }
  }

  // ---------------------------------------------------------------------------
  // ignore

  /** `ignore(iterable, *args)`: the elements of `iterable` that are not in `args`, in order. */
  function Ignore<T(==)>(iterable: seq<T>, args: seq<T>): (r: seq<T>)
    ensures |r| <= |iterable|
    ensures forall i :: 0 <= i < |r| ==> r[i] in iterable && r[i] !in args
    ensures forall i :: 0 <= i < |iterable| && iterable[i] !in args ==> iterable[i] in r
  {
    if iterable == [] then []
    else if iterable[0] in args then Ignore(iterable[1..], args)
    else [iterable[0]] + Ignore(iterable[1..], args)
  }

  /** Ignoring commutes with concatenation: order is kept and each element is judged on its own. */
  lemma {:induction false} IgnoreAppend<T>(a: seq<T>, b: seq<T>, args: seq<T>)
    ensures Ignore(a + b, args) == Ignore(a, args) + Ignore(b, args)
  {
    if a == [] {
      assert a + b == b;
    } else {
      assert (a + b)[1..] == a[1..] + b;
      IgnoreAppend(a[1..], b, args);
    }
  }

  /** Ignoring the same elements twice is the same as ignoring them once. */
  lemma {:induction false} IgnoreIdempotent<T>(iterable: seq<T>, args: seq<T>)
    ensures Ignore(Ignore(iterable, args), args) == Ignore(iterable, args)
  {
    if iterable != [] {
      IgnoreIdempotent(iterable[1..], args);
    }
  }

  // ---------------------------------------------------------------------------
  // euclidian_distance

  /** `euclidian_distance(aX, aY, bX, bY)`: `sqrt((aX - bX) ** 2 + (aY - bY) ** 2)`. */
  function EuclidianDistance(m: Maths, aX: real, aY: real, bX: real, bY: real): real
  {
    Length(m, aX - bX, aY - bY)
  }

  /** The distance is symmetric, never negative, zero between a point and itself. */
  lemma EuclidianDistanceIsMetricLike(m: Maths, aX: real, aY: real, bX: real, bY: real)
    ensures EuclidianDistance(m, aX, aY, bX, bY) == EuclidianDistance(m, bX, bY, aX, aY)
    ensures EuclidianDistance(m, aX, aY, bX, bY) >= 0.0
    ensures EuclidianDistance(m, aX, aY, aX, aY) == 0.0
  {
    LengthLaws(m, aX - bX, aY - bY);
    assert -(aX - bX) == bX - aX && -(aY - bY) == bY - aY;
    LengthLaws(m, 0.0, 0.0);
  }
}
