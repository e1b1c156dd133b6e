/**
 * The tick and epoch controller `MainWindow`: each tick every agent looks at
 * the foods within its vision, thinks, moves, decays and may eat; dead agents
 * are removed after the scan, and an empty arena gets a new generation of
 * agents and 20 new foods.
 */
module Window {
  import opened Wrappers
  import opened Numerics
  import opened Settings
  import opened Base
  import Foods
  import Functions
  import PopulationCell

  /** The colour of the foods the window creates. */
  const FOOD_COLOR: Rgb := Rgb(255.0, 0.0, 255.0)
  /** The number of foods of every generation. */
  const FOOD_COUNT: nat := 20
  /** Agents eat only after this many ticks. */
  const WARM_UP: int := 30
  /** The offset from a food's location to its centre, on each axis. */
  const FOOD_CENTRE: real := 10.0
  /** How much smaller than the vision range the eating range is. */
  const EATING_MARGIN: real := 170.0

  // ---------------------------------------------------------------------------
  // Lists

  /** The elements of `s` whose flag is `b`, in order. */
  function Picked<T>(s: seq<T>, flags: seq<bool>, b: bool): (r: seq<T>)
    requires |flags| == |s|
    ensures |r| <= |s|
  {
    if s == [] then []
    else if flags[0] == b then [s[0]] + Picked(s[1..], flags[1..], b)
    else Picked(s[1..], flags[1..], b)
  }

  /** Only elements of the list are picked. */
  lemma {:induction false} PickedWithin<T>(s: seq<T>, flags: seq<bool>, b: bool)
    requires |flags| == |s|
    ensures forall x :: x in Picked(s, flags, b) ==> x in s
    decreases |s|
  {
    if s != [] {
      PickedWithin(s[1..], flags[1..], b);
      assert forall x :: x in s[1..] ==> x in s;
    }
  }

  /** `list.remove(x)`: the first occurrence of `x` taken out; a list without `x` stays as it is. */
  function RemoveFirst<T(==)>(s: seq<T>, x: T): (r: seq<T>)
    ensures x in s ==> |r| == |s| - 1
    ensures x !in s ==> r == s
  {
    if s == [] then []
    else if s[0] == x then s[1..]
    else [s[0]] + RemoveFirst(s[1..], x)
  }

  /** `list.remove(x)` takes out exactly the first occurrence, at `i`. */
  lemma {:induction false} RemoveFirstAt<T>(s: seq<T>, x: T, i: nat)
    requires i < |s| && s[i] == x && x !in s[..i]
    ensures RemoveFirst(s, x) == s[..i] + s[i + 1..]
  {
    if i > 0 {
      assert s[1..][..i - 1] == s[..i][1..];
      RemoveFirstAt(s[1..], x, i - 1);
      assert s[1..][i..] == s[i + 1..];
    }
  }

  /** Removing every element of `xs` in turn. */
  function RemoveAll<T(==)>(s: seq<T>, xs: seq<T>): seq<T>
    decreases |xs|
  {
    if xs == [] then s else RemoveAll(RemoveFirst(s, xs[0]), xs[1..])
  }

  /** No element occurs twice. */
  predicate Distinct<T(==)>(s: seq<T>)
  {
    forall i, j :: 0 <= i < j < |s| ==> s[i] != s[j]
  }

  /** `order` gives the position of every element of `s`, so no element occurs twice. */
  ghost predicate Numbered<T>(s: seq<T>, order: map<T, nat>)
  {
    forall j :: 0 <= j < |s| ==> s[j] in order && order[s[j]] == j
  }

  /** The numbering of a sequence without repetitions. */
  ghost function Numbering<T>(s: seq<T>): (order: map<T, nat>)
    requires Distinct(s)
    ensures Numbered(s, order)
  {
    map j | 0 <= j < |s| :: s[j] := j
  }

  /** A numbered sequence has no repetitions. */
  lemma NumberedDistinct<T>(s: seq<T>, order: map<T, nat>)
    requires Numbered(s, order)
    ensures Distinct(s)
  {
    forall i, j | 0 <= i < j < |s| ensures s[i] != s[j] {
      assert order[s[i]] == i && order[s[j]] == j;
    }
  }

  /** Removals of other elements leave a head element in front. */
  lemma {:induction false} RemoveAllKeepsHead<T>(x: T, s: seq<T>, xs: seq<T>)
    requires x !in xs
    ensures RemoveAll([x] + s, xs) == [x] + RemoveAll(s, xs)
    decreases |xs|
  {
    if xs != [] {
      assert RemoveFirst([x] + s, xs[0]) == [x] + RemoveFirst(s, xs[0]) by {
        assert ([x] + s)[1..] == s;
      }
      RemoveAllKeepsHead(x, RemoveFirst(s, xs[0]), xs[1..]);
    }
  }

  /**
   * Removing, one at a time and in order, the flagged elements of a list
   * without repetitions leaves exactly its unflagged elements, in order.
   */
  lemma {:induction false} RemoveAllFlagged<T>(s: seq<T>, flags: seq<bool>)
    requires |flags| == |s| && Distinct(s)
    ensures RemoveAll(s, Picked(s, flags, true)) == Picked(s, flags, false)
    decreases |s|
  {
    if s != [] {
      var rest, restFlags := s[1..], flags[1..];
      assert Distinct(rest) by {
        forall i, j | 0 <= i < j < |rest| ensures rest[i] != rest[j] {
          assert rest[i] == s[i + 1] && rest[j] == s[j + 1];
        }
      }
      RemoveAllFlagged(rest, restFlags);
      if flags[0] {
        var dead := Picked(rest, restFlags, true);
        assert Picked(s, flags, true) == [s[0]] + dead;
        assert ([s[0]] + dead)[0] == s[0] && ([s[0]] + dead)[1..] == dead;
        assert RemoveFirst(s, s[0]) == rest;
        assert Picked(s, flags, false) == Picked(rest, restFlags, false);
      } else {
        assert s[0] !in Picked(rest, restFlags, true) by {
          PickedWithin(rest, restFlags, true);
          forall i | 0 <= i < |rest| ensures rest[i] != s[0] {
            assert rest[i] == s[i + 1];
          }
        }
        assert [s[0]] + rest == s;
        assert Picked(s, flags, true) == Picked(rest, restFlags, true);
        assert Picked(s, flags, false) == [s[0]] + Picked(rest, restFlags, false);
        RemoveAllKeepsHead(s[0], rest, Picked(rest, restFlags, true));
      }
    }
  }


  /** Picking from a list grown by one element picks from the list, then perhaps that element. */
  lemma {:induction false} PickedAppend<T>(s: seq<T>, flags: seq<bool>, x: T, flag: bool, b: bool)
    requires |flags| == |s|
    ensures Picked(s + [x], flags + [flag], b) == Picked(s, flags, b) + (if flag == b then [x] else [])
    decreases |s|
  {
    if s == [] {
      assert s + [x] == [x] && flags + [flag] == [flag];
    } else {
      var t, g := s[1..], flags[1..];
      assert (s + [x])[1..] == t + [x] && (flags + [flag])[1..] == g + [flag];
      PickedAppend(t, g, x, flag, b);
      if flags[0] == b {
        AppendAssoc([s[0]], Picked(t, g, b), if flag == b then [x] else []);
      }
    }
  }

  /** Concatenation is associative. */
  lemma AppendAssoc<T>(a: seq<T>, b: seq<T>, c: seq<T>)
    ensures a + (b + c) == (a + b) + c
  {
  }

  /** A prefix one longer is the prefix and the next element; the whole prefix is the list. */
  lemma PrefixStep<T>(s: seq<T>, i: nat)
    requires i <= |s|
    ensures i < |s| ==> s[..i + 1] == s[..i] + [s[i]]
    ensures s[..|s|] == s
  {
  }

  /** What is picked from a list without repetitions has none either. */
  lemma {:induction false} PickedDistinct<T>(s: seq<T>, flags: seq<bool>, b: bool)
    requires |flags| == |s| && Distinct(s)
    ensures Distinct(Picked(s, flags, b))
    decreases |s|
  {
    if s != [] {
      var rest := s[1..];
      assert Distinct(rest) by {
        forall i, j | 0 <= i < j < |rest| ensures rest[i] != rest[j] {
          assert rest[i] == s[i + 1] && rest[j] == s[j + 1];
        }
      }
      PickedDistinct(rest, flags[1..], b);
      var tail := Picked(rest, flags[1..], b);
      assert s[0] !in tail by {
        PickedWithin(rest, flags[1..], b);
        forall i | 0 <= i < |rest| ensures rest[i] != s[0] {
          assert rest[i] == s[i + 1];
        }
      }
    }
  }

  // ---------------------------------------------------------------------------
  // Collaborators

  /** A source of `random()` draws: a fixed stream and how much of it is used. */
  class Rng {
    const stream: nat -> Unit
    var used: nat

    constructor (stream: nat -> Unit)
      ensures this.stream == stream && used == 0
    {
      this.stream := stream;
      used := 0;
    }

    /** The next draw. */
    method Next() returns (u: Unit)
      modifies this
      ensures u == stream(old(used)) && used == old(used) + 1
    {
      u := stream(used);
      used := used + 1;
    }
  }

  /** The evolving population: its generation count and its pool of brains. */
  class Population {
    var gen: int
    var pool: seq<Brain>

    constructor (pool: seq<Brain>)
      ensures gen == 0 && this.pool == pool
    {
      gen := 0;
      this.pool := pool;
    }

    /** `epoch()`: the next generation, whose pool the evolution (not modelled) has bred as `next`. */
    method Epoch(next: seq<Brain>)
      modifies this
      ensures gen == old(gen) + 1 && pool == next
    {
      gen := gen + 1;
      pool := next;
    }
  }

  /** A pool of brains fit to drive agents: no brain twice, each with the two outputs `apply_decisions` reads. */
  ghost predicate FitPool(pool: seq<Brain>)
  {
    Distinct(pool) && forall i :: 0 <= i < |pool| ==> pool[i].Emits(2)
  }

  // ---------------------------------------------------------------------------
  // Perception

  /** The food is strictly within `range` of `at`. */
  predicate Near(m: Maths, at: Point, range: real, f: Foods.Food)
    reads f
  {
    Functions.EuclidianDistance(m, at.x, at.y, f.location.x, f.location.y) < range
  }

  /** The foods strictly within `range` of `at`, in their order (the filter of `update_world`). */
  function Visible(m: Maths, at: Point, range: real, fs: seq<Foods.Food>): (r: seq<Foods.Food>)
    reads fs
    ensures forall f :: f in r ==> f in fs
    decreases |fs|
  {
    if fs == [] then []
    else
      var init := Visible(m, at, range, fs[..|fs| - 1]);
      var f := fs[|fs| - 1];
      if Near(m, at, range, f) then init + [f] else init
  }

  /** A food is seen exactly when it is one of the foods and near. */
  lemma {:induction false} VisibleMembers(m: Maths, at: Point, range: real, fs: seq<Foods.Food>)
    ensures forall f :: f in Visible(m, at, range, fs) <==> f in fs && Near(m, at, range, f)
    decreases |fs|
  {
    if fs != [] {
      VisibleMembers(m, at, range, fs[..|fs| - 1]);
      assert forall g :: g in fs <==> g in fs[..|fs| - 1] || g == fs[|fs| - 1];
    }
  }

  /** Seeing one more food: it joins the end of the view exactly when it is near. */
  lemma VisibleAppend(m: Maths, at: Point, range: real, fs: seq<Foods.Food>, f: Foods.Food)
    ensures Visible(m, at, range, fs + [f]) == Visible(m, at, range, fs) + (if Near(m, at, range, f) then [f] else [])
  {
    assert (fs + [f])[..|fs|] == fs;
  }

  /** Different foods are seen as different foods. */
  lemma {:induction false} VisibleDistinct(m: Maths, at: Point, range: real, fs: seq<Foods.Food>)
    requires Distinct(fs)
    ensures Distinct(Visible(m, at, range, fs))
    decreases |fs|
  {
    if fs != [] {
      var init := fs[..|fs| - 1];
      assert Distinct(init);
      VisibleDistinct(m, at, range, init);
      assert fs[|fs| - 1] !in init;
    }
  }

  /** A numbering of what is seen of foods numbered by `fo`. */
  ghost function VisibleOrder(m: Maths, at: Point, range: real, fs: seq<Foods.Food>, fo: map<Foods.Food, nat>): (order: map<Foods.Food, nat>)
    reads fs
    requires Numbered(fs, fo)
    ensures Numbered(Visible(m, at, range, fs), order)
  {
    NumberedDistinct(fs, fo);
    VisibleDistinct(m, at, range, fs);
    Numbering(Visible(m, at, range, fs))
  }

  /** What an agent sees of the foods: food sightings at their locations. */
  function Sightings(view: seq<Foods.Food>): (r: seq<Seen>)
    reads view
    ensures |r| == |view|
    ensures forall k :: 0 <= k < |r| ==> r[k] == Seen(FoodKind, view[k].location)
  {
    seq(|view|, k requires 0 <= k < |view| reads view => Seen(FoodKind, view[k].location))
  }

  /** Whether each agent dies in this tick: its health is at most the decay. */
  ghost function DeadFlags(cs: seq<PopulationCell.Cell>): (flags: seq<bool>)
    reads set c | c in cs :: c.base
    ensures |flags| == |cs|
    ensures forall i :: 0 <= i < |cs| ==> flags[i] == (cs[i].base.state.health <= PopulationCell.DECAY)
    decreases |cs|
  {
    if cs == [] then []
    else DeadFlags(cs[..|cs| - 1]) + [cs[|cs| - 1].base.state.health <= PopulationCell.DECAY]
  }

  /** The fitness of each agent's brain. */
  ghost function Fitnesses(cs: seq<PopulationCell.Cell>): (fit: seq<int>)
    reads set c | c in cs :: c.base.brain
    ensures |fit| == |cs| && forall i :: 0 <= i < |cs| ==> fit[i] == cs[i].base.brain.fitness
    decreases |cs|
  {
    if cs == [] then [] else Fitnesses(cs[..|cs| - 1]) + [cs[|cs| - 1].base.brain.fitness]
  }

  /** The one input `think` gives the brain: 0 with nothing in view, else the heading of the nearest food. */
  ghost function Cue(m: Maths, loc: Location, view: seq<Seen>): seq<real>
  {
    if view == [] then [0.0]
    else match NearestFood(m, loc.Position(), view)
      case Success(p) => [Heading(m, loc.Position(), loc.orientation, p)]
      case Failure(_) => [0.0]
  }

  /** Two agents sharing neither their base nor their brain. */
  predicate Apart(c: PopulationCell.Cell, d: PopulationCell.Cell)
  {
    c.base != d.base && c.base.brain != d.base.brain
  }

  /** Different agents are different objects with different bases and brains, each brain giving two outputs. */
  ghost predicate CellsApart(cells: seq<PopulationCell.Cell>)
  {
    && Distinct(cells)
    && (forall c, d {:trigger Apart(c, d)} :: c in cells && d in cells && c != d ==> Apart(c, d))
    && (forall c :: c in cells ==> c.base.brain.Emits(2))
  }

  /** Agent `i` has a two-output brain, and its base and brain are no other agent's. */
  ghost predicate ApartAt(cells: seq<PopulationCell.Cell>, i: nat)
  {
    && i < |cells|
    && cells[i].base.brain.Emits(2)
    && forall j :: 0 <= j < |cells| && j != i ==> cells[j].base != cells[i].base && cells[j].base.brain != cells[i].base.brain
  }

  /** Every agent of agents kept apart is apart from the others. */
  lemma CellsApartAt(cells: seq<PopulationCell.Cell>, i: nat)
    requires CellsApart(cells) && i < |cells|
    ensures ApartAt(cells, i)
  {
    forall j | 0 <= j < |cells| && j != i ensures cells[j].base != cells[i].base && cells[j].base.brain != cells[i].base.brain {
      assert cells[j] in cells && cells[i] in cells && cells[j] != cells[i];
      assert Apart(cells[j], cells[i]);
    }
  }

  /** Agents pairwise apart by index, each with a two-output brain, are kept apart. */
  lemma ApartByIndex(cells: seq<PopulationCell.Cell>)
    requires forall i :: 0 <= i < |cells| ==> cells[i].base.brain.Emits(2)
    requires forall i, j :: 0 <= i < j < |cells| ==>
      cells[i] != cells[j] && cells[i].base != cells[j].base && cells[i].base.brain != cells[j].base.brain
    ensures CellsApart(cells)
  {
    forall c, d | c in cells && d in cells && c != d ensures Apart(c, d) {
      var i :| 0 <= i < |cells| && cells[i] == c;
      var j :| 0 <= j < |cells| && cells[j] == d;
      assert i != j;
    }
  }

  /** The survivors of agents kept apart are kept apart. */
  lemma PickedApart(cells: seq<PopulationCell.Cell>, flags: seq<bool>)
    requires |flags| == |cells| && CellsApart(cells)
    ensures CellsApart(Picked(cells, flags, false))
  {
    PickedDistinct(cells, flags, false);
    PickedWithin(cells, flags, false);
  }

  /** Every food seen is inside the margins and worth the standard energy. */
  ghost predicate ViewPlaced(view: seq<Foods.Food>)
    reads view
  {
    forall j :: 0 <= j < |view| ==> Foods.InMargins(view[j].location) && view[j].energy == Foods.FOOD_ENERGY
  }

  /** Every food is inside the margins and worth the standard energy. */
  ghost predicate FoodsPlaced(foods: seq<Foods.Food>)
    reads foods
  {
    forall i :: 0 <= i < |foods| ==> Foods.InMargins(foods[i].location) && foods[i].energy == Foods.FOOD_ENERGY
  }

  /** What is seen of placed foods is placed. */
  lemma SeenPlaced(foods: seq<Foods.Food>, view: seq<Foods.Food>)
    requires FoodsPlaced(foods) && forall f :: f in view ==> f in foods
    ensures ViewPlaced(view)
  {
    forall j | 0 <= j < |view|
      ensures Foods.InMargins(view[j].location) && view[j].energy == Foods.FOOD_ENERGY
    {
      assert view[j] in foods;
      var i :| 0 <= i < |foods| && foods[i] == view[j];
    }
  }

  /** Foods placed at `ls`, some of them moved to places of `view`, are still placed. */
  lemma PlacedAgain(foods: seq<Foods.Food>, view: seq<Foods.Food>, ls: seq<Point>)
    requires |ls| == |foods| && forall i :: 0 <= i < |foods| ==> Foods.InMargins(ls[i]) && foods[i].energy == Foods.FOOD_ENERGY
    requires ViewPlaced(view) && forall i :: 0 <= i < |foods| && foods[i] !in view ==> foods[i].location == ls[i]
    ensures FoodsPlaced(foods)
  {
    forall i | 0 <= i < |foods| && foods[i] in view
      ensures Foods.InMargins(foods[i].location)
    {
      var j :| 0 <= j < |view| && view[j] == foods[i];
    }
  }

  // ---------------------------------------------------------------------------
  // Eating

  /** A food at `p` can be eaten from `at`: its centre is nearer than the eating range, `range - 170`. */
  predicate Reaches(m: Maths, at: Point, range: real, p: Point)
  {
    Functions.EuclidianDistance(m, p.x + FOOD_CENTRE, p.y + FOOD_CENTRE, at.x, at.y) < range - EATING_MARGIN
  }

  /** Where the foods are. */
  function Locations(fs: seq<Foods.Food>): (ps: seq<Point>)
    reads fs
    ensures |ps| == |fs| && forall k {:trigger ps[k]} :: 0 <= k < |fs| ==> ps[k] == fs[k].location
    decreases |fs|
  {
    if fs == [] then [] else Locations(fs[..|fs| - 1]) + [fs[|fs| - 1].location]
  }

  /** Foods placed one by one at `ls` have those locations. */
  lemma LocationsAre(fs: seq<Foods.Food>, ls: seq<Point>)
    requires |ls| == |fs| && forall j :: 0 <= j < |fs| ==> fs[j].location == ls[j]
    ensures Locations(fs) == ls
  {
  }

  /** For each location of `ps`, whether a food there can be eaten from `at`. */
  function ReachFlags(m: Maths, at: Point, range: real, ps: seq<Point>): (fl: seq<bool>)
    ensures |fl| == |ps|
    decreases |ps|
  {
    if ps == [] then [] else ReachFlags(m, at, range, ps[..|ps| - 1]) + [Reaches(m, at, range, ps[|ps| - 1])]
  }

  /** Flag `j` says whether location `j` is in reach. */
  lemma {:induction false} ReachFlagsAt(m: Maths, at: Point, range: real, ps: seq<Point>, j: nat)
    requires j < |ps|
    ensures ReachFlags(m, at, range, ps)[j] == Reaches(m, at, range, ps[j])
    decreases |ps|
  {
    if j < |ps| - 1 {
      ReachFlagsAt(m, at, range, ps[..|ps| - 1], j);
    }
  }

  /** How many flags are set. */
  function Count(fl: seq<bool>): (n: nat)
    ensures n <= |fl|
    decreases |fl|
  {
    if fl == [] then 0 else Count(fl[..|fl| - 1]) + (if fl[|fl| - 1] then 1 else 0)
  }

  /** Counting one flag more on a prefix. */
  lemma CountStep(fl: seq<bool>, k: nat)
    requires k < |fl|
    ensures Count(fl[..k + 1]) == Count(fl[..k]) + (if fl[k] then 1 else 0)
  {
    assert fl[..k + 1][..k] == fl[..k];
  }

  /** The health after `n` meals of a standard food, each capped at the health cap. */
  function Meals(h: real, n: nat): real
  {
    if n == 0 then h else Capped(Meals(h, n - 1), Foods.FOOD_ENERGY as real, BASE_HEALTH_CAP)
  }

  /** From a health within the cap, `n` meals add 20 each until the cap is reached. */
  lemma {:induction false} MealsCapped(h: real, n: nat)
    requires h <= BASE_HEALTH_CAP
    ensures Meals(h, n) == if h + n as real * Foods.FOOD_ENERGY as real <= BASE_HEALTH_CAP
                           then h + n as real * Foods.FOOD_ENERGY as real else BASE_HEALTH_CAP
    ensures h <= Meals(h, n) <= BASE_HEALTH_CAP
  {
    if n > 0 {
      MealsCapped(h, n - 1);
    }
  }

  /** The spawn of draws `i` and `i + 1` of a stream. */
  function Redraw(s: nat -> Unit, i: nat): (p: Point)
    ensures Foods.InMargins(p)
  {
    Foods.Spawn(s(i), s(i + 1))
  }

  /**
   * The locations of foods first at `ps` once they have been dealt with in
   * order: each whose flag in `fl` is set has been eaten and is at the spawn
   * of the two draws of `s` after those of the foods eaten before it, the
   * first eaten taking draws `n` and `n + 1`; every other food is where it was.
   */
  function Respawned(ps: seq<Point>, fl: seq<bool>, s: nat -> Unit, n: nat): (r: seq<Point>)
    requires |fl| == |ps|
    ensures |r| == |ps|
    decreases |ps|
  {
    if ps == [] then []
    else
      var i := |ps| - 1;
      Respawned(ps[..i], fl[..i], s, n) + [if fl[i] then Redraw(s, n + 2 * Count(fl[..i])) else ps[i]]
  }

  /** Each food's location after the meals: its respawn when it was eaten, else where it was. */
  lemma {:induction false} RespawnedAt(ps: seq<Point>, fl: seq<bool>, s: nat -> Unit, n: nat)
    requires |fl| == |ps|
    ensures forall j :: 0 <= j < |ps| ==>
      Respawned(ps, fl, s, n)[j] == if fl[j] then Redraw(s, n + 2 * Count(fl[..j])) else ps[j]
    decreases |ps|
  {
    if ps != [] {
      var i := |ps| - 1;
      RespawnedAt(ps[..i], fl[..i], s, n);
      forall j | 0 <= j < i ensures fl[..i][..j] == fl[..j] {
      }
    }
  }

  /**
   * Dealing with food `k`, whose draws begin at `u`, in the list done up to
   * `k` changes only its location, to its respawn when it is eaten.
   */
  lemma RespawnedStep(ps: seq<Point>, fl: seq<bool>, s: nat -> Unit, n: nat, k: nat, u: nat)
    requires k < |fl| == |ps| && u == n + 2 * Count(fl[..k])
    ensures (Respawned(ps[..k], fl[..k], s, n) + ps[k..])[k := if fl[k] then Redraw(s, u) else ps[k]]
         == Respawned(ps[..k + 1], fl[..k + 1], s, n) + ps[k + 1..]
  {
    assert ps[..k + 1][..k] == ps[..k] && fl[..k + 1][..k] == fl[..k];
    var r := Respawned(ps[..k], fl[..k], s, n);
    assert (r + ps[k..])[k := if fl[k] then Redraw(s, u) else ps[k]] == r + [if fl[k] then Redraw(s, u) else ps[k]] + ps[k + 1..];
  }

  /**
   * The state of the loop of `Feed` once the first `k` foods, first at
   * `ps` and with reach flags `fl`, have been dealt with, from health `h0`
   * and draw `n0` of `s`: the agent's state `st`, the draws `used` and the
   * foods' locations `locs`.
   */
  ghost predicate FedAt(st: State, used: nat, locs: seq<Point>, s: nat -> Unit, ps: seq<Point>, fl: seq<bool>, h0: real, n0: nat, k: nat)
  {
    && k <= |locs| == |ps| == |fl|
    && st == State(Meals(h0, Count(fl[..k])))
    && used == n0 + 2 * Count(fl[..k])
    && locs == Respawned(ps[..k], fl[..k], s, n0) + ps[k..]
  }

  /** The bookkeeping of one turn of `Feed`: after food `k`, `k + 1` foods have been dealt with. */
  lemma FedStep(st: State, used: nat, locs: seq<Point>, s: nat -> Unit, ps: seq<Point>, fl: seq<bool>, h0: real, n0: nat, k: nat,
                before: seq<Point>)
    requires k < |ps| == |fl|
    requires before == Respawned(ps[..k], fl[..k], s, n0) + ps[k..]
    requires st == State(if fl[k] then Capped(Meals(h0, Count(fl[..k])), Foods.FOOD_ENERGY as real, BASE_HEALTH_CAP)
                         else Meals(h0, Count(fl[..k])))
    requires used == n0 + 2 * Count(fl[..k]) + (if fl[k] then 2 else 0)
    requires locs == before[k := if fl[k] then Redraw(s, n0 + 2 * Count(fl[..k])) else ps[k]]
    ensures FedAt(st, used, locs, s, ps, fl, h0, n0, k + 1)
  {
    CountStep(fl, k);
    RespawnedStep(ps, fl, s, n0, k, n0 + 2 * Count(fl[..k]));
  }

  // ---------------------------------------------------------------------------
  // MainWindow

  /** The simulation loop, without its screen. */
  class MainWindow {
    var cells: seq<PopulationCell.Cell>
    var foods: seq<Foods.Food>
    var worldInfo: seq<Foods.Food>
    var simulationTime: int
    const population: Population
    /** The stream of the standard library's `uniform`, which places agents. */
    const py: Rng
    /** The stream of numpy's `uniform`, which places foods. */
    const np: Rng
    const maths: Maths

    /**
     * The agents are different objects with different bases and brains,
     * each brain gives two outputs, the foods are different objects inside
     * the margins, and the world seen is the foods.
     */
    ghost predicate Valid()
      reads this, foods
    {
      CellsApart(cells) && Distinct(foods) && FoodsPlaced(foods) && worldInfo == foods && py != np
    }


    /**
     * `MainWindow()`: the first population from `pool`, its agents, 20
     * foods, and the world seen set to the foods; the time starts at 1.
     */
    constructor (maths: Maths, pool: seq<Brain>, pyStream: nat -> Unit, npStream: nat -> Unit)
      requires FitPool(pool)
      modifies set b | b in pool
      ensures Valid()
      ensures simulationTime == 1 && population.gen == 0 && population.pool == pool
      ensures |cells| == |pool| && forall i :: 0 <= i < |pool| ==> cells[i].base.brain == pool[i]
      ensures |foods| == FOOD_COUNT
    {
      this.maths := maths;
      simulationTime := 1;
      cells := [];
      foods := [];
      worldInfo := [];
      population := new Population(pool);
      py := new Rng(pyStream);
      np := new Rng(npStream);
      new;
      MakeCells();
      GenerateWorldEnvironment();
      UpdatePopulation();
    }

    /** The agents for the population's pool, one per brain, named after it (the loop of `generate_population`). */
    method MakeCells()
      requires FitPool(population.pool)
      modifies this, py, set b | b in population.pool
      ensures |cells| == |population.pool|
      ensures forall i :: 0 <= i < |cells| ==>
        && fresh(cells[i]) && fresh(cells[i].base)
        && cells[i].base.brain == population.pool[i] && cells[i].name == population.pool[i].id
        && cells[i].base.state == State(BASE_HEALTH) && cells[i].base.brain.fitness == 0
        && Foods.InMargins(cells[i].base.location.Position())
      ensures CellsApart(cells)
      ensures foods == old(foods) && worldInfo == old(worldInfo) && simulationTime == old(simulationTime)
    {
      var pool := population.pool;
      cells := [];
      for i := 0 to |pool|
        invariant |cells| == i
        invariant forall j :: 0 <= j < i ==>
          && fresh(cells[j]) && fresh(cells[j].base)
          && cells[j].base.brain == pool[j] && cells[j].name == pool[j].id
          && cells[j].base.state == State(BASE_HEALTH) && cells[j].base.brain.fitness == 0
          && Foods.InMargins(cells[j].base.location.Position())
        invariant forall j, k :: 0 <= j < k < i ==> cells[j] != cells[k] && cells[j].base != cells[k].base
        invariant foods == old(foods) && worldInfo == old(worldInfo) && simulationTime == old(simulationTime)
      {
        var brain := pool[i];
        var ux := py.Next();
        var uy := py.Next();
        var cell := new PopulationCell.Cell(brain.id, brain, ux, uy);
        cells := cells + [cell];
      }
      ApartByIndex(cells);
    }

    /**
     * `generate_population(first_gen=False)`: one `epoch` of the population
     * with `next` as its new pool, and fresh agents for that pool.
     */
    method GeneratePopulation(next: seq<Brain>)
      requires FitPool(next)
      modifies this, py, population, set b | b in next
      ensures population.gen == old(population.gen) + 1 && population.pool == next
      ensures |cells| == |next|
      ensures forall i :: 0 <= i < |cells| ==>
        && fresh(cells[i]) && fresh(cells[i].base)
        && cells[i].base.brain == next[i] && cells[i].name == next[i].id
        && cells[i].base.state == State(BASE_HEALTH) && cells[i].base.brain.fitness == 0
      ensures CellsApart(cells)
      ensures foods == old(foods) && worldInfo == old(worldInfo) && simulationTime == old(simulationTime)
    {
      population.Epoch(next);
      MakeCells();
    }

    /** `generate_world_environment()`: 20 new foods named "0" to "19", placed inside the margins. */
    method GenerateWorldEnvironment()
      modifies this, np
      ensures |foods| == FOOD_COUNT && Distinct(foods)
      ensures forall i :: 0 <= i < |foods| ==>
        && fresh(foods[i]) && foods[i].name == Foods.Str(i) && foods[i].energy == Foods.FOOD_ENERGY
        && foods[i].color == FOOD_COLOR && Foods.InMargins(foods[i].location)
      ensures cells == old(cells) && worldInfo == old(worldInfo) && simulationTime == old(simulationTime)
    {
      foods := [];
      for i := 0 to FOOD_COUNT
        invariant |foods| == i && Distinct(foods)
        invariant forall j :: 0 <= j < i ==>
          && fresh(foods[j]) && foods[j].name == Foods.Str(j) && foods[j].energy == Foods.FOOD_ENERGY
          && foods[j].color == FOOD_COLOR && Foods.InMargins(foods[j].location)
        invariant cells == old(cells) && worldInfo == old(worldInfo) && simulationTime == old(simulationTime)
      {
        var ux := np.Next();
        var uy := np.Next();
        var food := new Foods.Food(FOOD_COLOR, i, [], ux, uy);
        foods := foods + [food];
      }
    }

    /**
     * The eating part of an agent's turn: the foods of `view` (different
     * foods, as `order` numbers them) whose centre is nearer than the eating
     * range are eaten in order, each adding its energy up to the cap and
     * respawning at the next two draws of numpy's stream; the other foods
     * stay where they are, and so does the agent.
     */
    method Feed(cell: PopulationCell.Cell, view: seq<Foods.Food>, ghost order: map<Foods.Food, nat>)
      requires Numbered(view, order) && FoodsPlaced(foods) && forall f :: f in view ==> f in foods
      requires cell.base.state.health <= BASE_HEALTH_CAP
      modifies cell.base, np, set f | f in view
      ensures cell.base.location == old(cell.base.location)
      ensures var eaten := ReachFlags(maths, cell.base.location.Position(), cell.base.dna.visionRange, old(Locations(view)));
        && cell.base.state == State(Meals(old(cell.base.state.health), Count(eaten)))
        && np.used == old(np.used) + 2 * Count(eaten)
        && Locations(view) == Respawned(old(Locations(view)), eaten, np.stream, old(np.used))
      ensures FoodsPlaced(foods)
      ensures forall f :: f in foods && f !in view ==> f.location == old(f.location)
      ensures old(cell.base.state.health) <= cell.base.state.health <= BASE_HEALTH_CAP
    {
      ghost var ps, h0, n0, at := Locations(view), cell.base.state.health, np.used, cell.base.location.Position();
      ghost var fl := ReachFlags(maths, at, cell.base.dna.visionRange, ps);
      ghost var ls := Locations(foods);
      SeenPlaced(foods, view);
      FedNone(cell, view, ps, fl, h0, n0);
      FeedEach(cell, view, order, at, ps, fl, h0, n0);
      FedAll(cell, view, ps, fl, h0, n0);
      MealsCapped(h0, Count(fl));
      PlacedAgain(foods, view, ls);
    }

    /** The loop of `Feed`: every food of `view` is dealt with in turn, and the agent does not move. */
    method FeedEach(cell: PopulationCell.Cell, view: seq<Foods.Food>, ghost order: map<Foods.Food, nat>,
                    ghost at: Point, ghost ps: seq<Point>, ghost fl: seq<bool>, ghost h0: real, ghost n0: nat)
      requires Numbered(view, order) && ViewPlaced(view) && Fed(cell, view, ps, fl, h0, n0, 0)
      requires cell.base.location.Position() == at && fl == ReachFlags(maths, at, cell.base.dna.visionRange, ps)
      modifies cell.base, np, set f | f in view
      ensures cell.base.location == old(cell.base.location)
      ensures ViewPlaced(view)
      ensures Fed(cell, view, ps, fl, h0, n0, |view|)
    {
      for k := 0 to |view|
        invariant cell.base.location == old(cell.base.location) && cell.base.location.Position() == at
        invariant ViewPlaced(view)
        invariant Fed(cell, view, ps, fl, h0, n0, k)
      {
        FeedNext(cell, view, order, at, ps, fl, h0, n0, k);
      }
    }

    /** Before the loop of `Feed`, nothing has been dealt with. */
    lemma FedNone(cell: PopulationCell.Cell, view: seq<Foods.Food>, ps: seq<Point>, fl: seq<bool>, h0: real, n0: nat)
      requires ps == Locations(view) && |fl| == |ps|
      requires cell.base.state == State(h0) && np.used == n0
      ensures Fed(cell, view, ps, fl, h0, n0, 0)
    {
      assert ps[..0] == [] && fl[..0] == [] && ps[0..] == ps;
    }

    /** After the loop of `Feed`, every food of `view` has been dealt with. */
    lemma FedAll(cell: PopulationCell.Cell, view: seq<Foods.Food>, ps: seq<Point>, fl: seq<bool>, h0: real, n0: nat)
      requires Fed(cell, view, ps, fl, h0, n0, |view|)
      ensures cell.base.state == State(Meals(h0, Count(fl)))
      ensures np.used == n0 + 2 * Count(fl)
      ensures Locations(view) == Respawned(ps, fl, np.stream, n0)
    {
      assert ps[..|view|] == ps && fl[..|view|] == fl && ps[|view|..] == [];
    }

    /**
     * The state of `Feed` once the first `k` foods of `view`, first at `ps`
     * and with reach flags `fl`, have been dealt with, from health `h0` and
     * draw `n0`.
     */
    ghost predicate Fed(cell: PopulationCell.Cell, view: seq<Foods.Food>, ps: seq<Point>, fl: seq<bool>, h0: real, n0: nat, k: nat)
      reads cell.base, np, view
    {
      FedAt(cell.base.state, np.used, Locations(view), np.stream, ps, fl, h0, n0, k)
    }

    /** One turn of the loop of `Feed`: food `k` is dealt with. */
    method FeedNext(cell: PopulationCell.Cell, view: seq<Foods.Food>, ghost order: map<Foods.Food, nat>,
                    ghost at: Point, ghost ps: seq<Point>, ghost fl: seq<bool>, ghost h0: real, ghost n0: nat, k: nat)
      requires Numbered(view, order) && ViewPlaced(view)
      requires k < |view| && Fed(cell, view, ps, fl, h0, n0, k)
      requires cell.base.location.Position() == at && fl == ReachFlags(maths, at, cell.base.dna.visionRange, ps)
      modifies cell.base, np, view[k]
      ensures cell.base.location == old(cell.base.location)
      ensures ViewPlaced(view)
      ensures Fed(cell, view, ps, fl, h0, n0, k + 1)
    {
      ghost var u, before := np.used, Locations(view);
      assert view[k].location == ps[k] by {
        assert before[k] == (Respawned(ps[..k], fl[..k], np.stream, n0) + ps[k..])[k];
      }
      ReachFlagsAt(maths, at, cell.base.dna.visionRange, ps, k);
      FeedOne(cell, view, k, at, ps[k], fl[k], order);
      LocationsAre(view, before[k := view[k].location]);
      FedStep(cell.base.state, np.used, Locations(view), np.stream, ps, fl, h0, n0, k, before);
    }

    /** The test of food `k` of `Feed`, which is at `p`, and, when it is in reach (`eats`), the meal and its respawn. */
    method FeedOne(cell: PopulationCell.Cell, view: seq<Foods.Food>, k: nat, ghost at: Point, ghost p: Point, ghost eats: bool, ghost order: map<Foods.Food, nat>)
      requires Numbered(view, order) && ViewPlaced(view)
      requires k < |view| && view[k].location == p
      requires cell.base.location.Position() == at && eats == Reaches(maths, at, cell.base.dna.visionRange, p)
      modifies cell.base, np, view[k]
      ensures cell.base.location == old(cell.base.location)
      ensures ViewPlaced(view)
      ensures cell.base.state == if eats then State(Capped(old(cell.base.state.health), Foods.FOOD_ENERGY as real, BASE_HEALTH_CAP))
                                 else old(cell.base.state)
      ensures np.used == old(np.used) + (if eats then 2 else 0)
      ensures view[k].location == if eats then Redraw(np.stream, old(np.used)) else p
      ensures forall j :: 0 <= j < |view| && j != k ==> view[j].location == old(view[j].location)
    {
      var food := view[k];
      var distance := Functions.EuclidianDistance(maths, food.location.x + FOOD_CENTRE, food.location.y + FOOD_CENTRE,
                                                  cell.base.location.x, cell.base.location.y);
      assert distance < cell.base.dna.visionRange - EATING_MARGIN <==> eats;
      if distance < cell.base.dna.visionRange - EATING_MARGIN {
        cell.Eat(food);
        var ux := np.Next();
        var uy := np.Next();
        food.Respawn(ux, uy);
        assert ux == np.stream(old(np.used)) && uy == np.stream(old(np.used) + 1);
        assert food.location == Redraw(np.stream, old(np.used));
      }
    }

    /**
     * The first part of an agent's turn: it sees the foods of the world
     * within its vision range, thinks and moves, ages and decays, and is
     * found dead or not. No food moves.
     */
    method Sense(cell: PopulationCell.Cell) returns (dead: bool, view: seq<Foods.Food>)
      requires cell.base.brain.Emits(2)
      modifies cell.base, cell.base.brain
      ensures view == old(Visible(maths, cell.base.location.Position(), cell.base.dna.visionRange, worldInfo))
      ensures forall f :: f in worldInfo ==> f.location == old(f.location)
      ensures cell.base.brain.fitness == old(cell.base.brain.fitness) + 1
      ensures cell.base.state == State(Decayed(old(cell.base.state.health), PopulationCell.DECAY, BASE_HEALTH_CAP))
      ensures dead <==> old(cell.base.state.health) <= PopulationCell.DECAY
      ensures cell.base.location == PopulationCell.Steered(maths, cell.base.dna, cell.base.magic, old(cell.base.location),
        [cell.base.brain.predict(old(Cue(maths, cell.base.location, Sightings(Visible(maths, cell.base.location.Position(), cell.base.dna.visionRange, worldInfo)))))])
    {
      view := Visible(maths, cell.base.location.Position(), cell.base.dna.visionRange, worldInfo);
      var objectsInView := Sightings(view);
      dead := Act(cell, objectsInView);
    }

    /**
     * An agent given the food sightings `objectsInView` thinks, moves by its
     * decision, ages and decays, and is found dead or not.
     */
    method Act(cell: PopulationCell.Cell, objectsInView: seq<Seen>) returns (dead: bool)
      requires cell.base.brain.Emits(2) && forall k :: 0 <= k < |objectsInView| ==> objectsInView[k].kind == FoodKind
      modifies cell.base, cell.base.brain
      ensures cell.base.brain.fitness == old(cell.base.brain.fitness) + 1
      ensures cell.base.state == State(Decayed(old(cell.base.state.health), PopulationCell.DECAY, BASE_HEALTH_CAP))
      ensures dead <==> old(cell.base.state.health) <= PopulationCell.DECAY
      ensures cell.base.location == PopulationCell.Steered(maths, cell.base.dna, cell.base.magic, old(cell.base.location),
        [cell.base.brain.predict(old(Cue(maths, cell.base.location, objectsInView)))])
    {
      var at := cell.base.location.Position();
      ghost var loc0 := cell.base.location;
      if objectsInView != [] {
        NearestFoodAmongFoods(maths, at, objectsInView);
      }
      var thought := cell.Think(maths, objectsInView);
      assert thought == Success([cell.base.brain.predict(Cue(maths, loc0, objectsInView))]);
      cell.ApplyDecisions(maths, thought.value);
      cell.UpdateCreatureProperties();
      DecayedProperties(old(cell.base.state.health), PopulationCell.DECAY, BASE_HEALTH_CAP);
      dead := cell.base.IsDead();
    }

    /**
     * One agent's turn of `update_world`: `Sense`, and after the warm-up
     * `Feed` on the foods it has seen, measured from where it has moved to.
     * Foods it has not seen keep their place, and the foods stay inside the
     * margins.
     */
    method ScanCell(i: nat, ghost fo: map<Foods.Food, nat>) returns (dead: bool, view: seq<Foods.Food>)
      requires ApartAt(cells, i) && Numbered(foods, fo) && FoodsPlaced(foods) && worldInfo == foods
      modifies cells[i].base, cells[i].base.brain, np, set f | f in foods
      ensures FoodsPlaced(foods)
      ensures view == old(Visible(maths, cells[i].base.location.Position(), cells[i].base.dna.visionRange, worldInfo))
      ensures dead <==> old(cells[i].base.state.health) <= PopulationCell.DECAY
      ensures cells[i].base.brain.fitness == old(cells[i].base.brain.fitness) + 1
      ensures forall j :: 0 <= j < |cells| && j != i ==> cells[j].base.state == old(cells[j].base.state)
      ensures forall j :: 0 <= j < |cells| && j != i ==> cells[j].base.brain.fitness == old(cells[j].base.brain.fitness)
      ensures simulationTime <= WARM_UP ==>
        cells[i].base.state == State(Decayed(old(cells[i].base.state.health), PopulationCell.DECAY, BASE_HEALTH_CAP))
        && np.used == old(np.used)
        && forall f :: f in foods ==> f.location == old(f.location)
      ensures simulationTime > WARM_UP ==>
        var eaten := ReachFlags(maths, cells[i].base.location.Position(), cells[i].base.dna.visionRange, old(Locations(view)));
        && cells[i].base.state == State(Meals(Decayed(old(cells[i].base.state.health), PopulationCell.DECAY, BASE_HEALTH_CAP), Count(eaten)))
        && np.used == old(np.used) + 2 * Count(eaten)
        && Locations(view) == Respawned(old(Locations(view)), eaten, np.stream, old(np.used))
        && forall f :: f in foods && f !in view ==> f.location == old(f.location)
    {
      var cell := cells[i];
      ghost var seen := Visible(maths, cell.base.location.Position(), cell.base.dna.visionRange, foods);
      ghost var ps, order := Locations(seen), VisibleOrder(maths, cell.base.location.Position(), cell.base.dna.visionRange, foods, fo);
      dead, view := Sense(cell);
      LocationsAre(view, ps);
      DecayedProperties(old(cell.base.state.health), PopulationCell.DECAY, BASE_HEALTH_CAP);
      assert view == seen && Locations(view) == ps;
      Graze(i, view, order);
    }

    /**
     * The end of agent `i`'s turn: after the warm-up it `Feed`s on `view`,
     * before it nothing changes; no other agent changes.
     */
    method Graze(i: nat, view: seq<Foods.Food>, ghost order: map<Foods.Food, nat>)
      requires ApartAt(cells, i) && cells[i].base.state.health <= BASE_HEALTH_CAP
      requires Numbered(view, order) && FoodsPlaced(foods) && forall f :: f in view ==> f in foods
      modifies cells[i].base, np, set f | f in view
      ensures cells[i].base.location == old(cells[i].base.location)
      ensures FoodsPlaced(foods)
      ensures forall j :: 0 <= j < |cells| && j != i ==> cells[j].base.state == old(cells[j].base.state)
      ensures simulationTime <= WARM_UP ==>
        cells[i].base.state == old(cells[i].base.state) && np.used == old(np.used)
        && forall f :: f in foods ==> f.location == old(f.location)
      ensures simulationTime > WARM_UP ==>
        var eaten := ReachFlags(maths, cells[i].base.location.Position(), cells[i].base.dna.visionRange, old(Locations(view)));
        && cells[i].base.state == State(Meals(old(cells[i].base.state.health), Count(eaten)))
        && np.used == old(np.used) + 2 * Count(eaten)
        && Locations(view) == Respawned(old(Locations(view)), eaten, np.stream, old(np.used))
        && forall f :: f in foods && f !in view ==> f.location == old(f.location)
    {
      if simulationTime > WARM_UP {
        Feed(cells[i], view, order);
      }
    }

    /**
     * The scan of `update_world`: every agent takes its turn in order, and
     * the agents found dead are those whose health was at most the decay.
     */
    method ScanAll() returns (deadCells: seq<PopulationCell.Cell>)
      requires CellsApart(cells) && Distinct(foods) && FoodsPlaced(foods) && worldInfo == foods
      modifies set c | c in cells :: c.base, set c | c in cells :: c.base.brain, np, set f | f in foods
      ensures FoodsPlaced(foods)
      ensures deadCells == Picked(cells, old(DeadFlags(cells)), true)
      ensures forall j :: 0 <= j < |cells| ==> cells[j].base.brain.fitness == old(cells[j].base.brain.fitness) + 1
    {
      ghost var flags, fit0, fo := DeadFlags(cells), Fitnesses(cells), Numbering(foods);
      deadCells := [];
      for i := 0 to |cells|
        invariant Scanned(i, flags, fit0, deadCells)
      {
        deadCells := ScanNext(i, flags, fit0, fo, deadCells);
      }
      PrefixStep(cells, |cells|);
      PrefixStep(flags, |cells|);
    }

    /**
     * The state of `ScanAll` once the first `i` agents, whose dying flags
     * are `flags` and whose fitnesses were `fit0`, have taken their turn:
     * `deadCells` are those of them found dead.
     */
    ghost predicate Scanned(i: nat, flags: seq<bool>, fit0: seq<int>, deadCells: seq<PopulationCell.Cell>)
      reads this, set c | c in cells :: c.base, set c | c in cells :: c.base.brain, foods
    {
      && i <= |cells| == |flags| == |fit0|
      && FoodsPlaced(foods)
      && deadCells == Picked(cells[..i], flags[..i], true)
      && (forall j :: i <= j < |cells| ==> flags[j] == (cells[j].base.state.health <= PopulationCell.DECAY))
      && (forall j :: 0 <= j < i ==> cells[j].base.brain.fitness == fit0[j] + 1)
      && (forall j :: i <= j < |cells| ==> cells[j].base.brain.fitness == fit0[j])
    }

    /** One turn of the loop of `ScanAll`: agent `i` takes its turn. */
    method ScanNext(i: nat, ghost flags: seq<bool>, ghost fit0: seq<int>, ghost fo: map<Foods.Food, nat>, deadCells: seq<PopulationCell.Cell>)
      returns (deadCells': seq<PopulationCell.Cell>)
      requires i < |cells| && CellsApart(cells) && Numbered(foods, fo) && worldInfo == foods
      requires Scanned(i, flags, fit0, deadCells)
      modifies cells[i].base, cells[i].base.brain, np, set f | f in foods
      ensures Scanned(i + 1, flags, fit0, deadCells')
    {
      CellsApartAt(cells, i);
      var dead, view := ScanCell(i, fo);
      assert dead == flags[i];
      deadCells' := if dead then deadCells + [cells[i]] else deadCells;
      PrefixStep(cells, i);
      PrefixStep(flags, i);
      PickedAppend(cells[..i], flags[..i], cells[i], flags[i], true);
    }

    /** The removals of `update_world`: `cells.remove(cell)` for every dead agent in turn. */
    method Purge(deadCells: seq<PopulationCell.Cell>)
      modifies this
      ensures cells == RemoveAll(old(cells), deadCells)
      ensures foods == old(foods) && worldInfo == old(worldInfo) && simulationTime == old(simulationTime)
      ensures population.gen == old(population.gen)
    {
      for k := 0 to |deadCells|
        invariant RemoveAll(cells, deadCells[k..]) == RemoveAll(old(cells), deadCells)
        invariant foods == old(foods) && worldInfo == old(worldInfo) && simulationTime == old(simulationTime)
      {
        assert deadCells[k..][0] == deadCells[k] && deadCells[k..][1..] == deadCells[k + 1..];
        cells := RemoveFirst(cells, deadCells[k]);
      }
    }

    /**
     * `update_world()`: one tick. The time advances, every agent takes its
     * turn in order, the agents found dead are removed, and when none is
     * left the next generation is bred (its pool is `next`) with 20 new
     * foods; finally the world seen is the foods.
     */
    method UpdateWorld(next: seq<Brain>)
      requires Valid() && FitPool(next)
      modifies this, set c | c in cells :: c.base, set c | c in cells :: c.base.brain, set f | f in foods
      modifies np, py, population, set b | b in next
      ensures Valid()
      ensures simulationTime == old(simulationTime) + 1
      ensures var survivors := Picked(old(cells), old(DeadFlags(cells)), false);
        && (survivors != [] ==>
              && cells == survivors && foods == old(foods) && population.gen == old(population.gen))
        && (survivors == [] ==>
              && population.gen == old(population.gen) + 1 && population.pool == next
              && |cells| == |next| && (forall i :: 0 <= i < |next| ==> fresh(cells[i]) && cells[i].base.brain == next[i])
              && |foods| == FOOD_COUNT && forall i :: 0 <= i < FOOD_COUNT ==> fresh(foods[i]) && foods[i].name == Foods.Str(i))
      ensures forall j :: 0 <= j < |old(cells)| && old(cells)[j].base.brain !in next ==>
        old(cells)[j].base.brain.fitness == old(cells[j].base.brain.fitness) + 1
    {
      Cull();
      if |cells| == 0 {
        Restart(next);
      }
      UpdatePopulation();
    }

    /**
     * The first half of `update_world`: the time advances, every agent
     * takes its turn, and the agents found dead are removed, which leaves
     * exactly the agents whose health was above the decay.
     */
    method Cull()
      requires Valid()
      modifies this, np, set c | c in cells :: c.base, set c | c in cells :: c.base.brain, set f | f in foods
      ensures CellsApart(cells) && Distinct(foods) && FoodsPlaced(foods)
      ensures simulationTime == old(simulationTime) + 1
      ensures cells == Picked(old(cells), old(DeadFlags(cells)), false)
      ensures foods == old(foods) && population.gen == old(population.gen)
      ensures forall j :: 0 <= j < |old(cells)| ==> old(cells)[j].base.brain.fitness == old(cells[j].base.brain.fitness) + 1
    {
      ghost var flags := DeadFlags(cells);
      var deadCells := TickScan();
      Prune(deadCells, flags);
    }

    /** The time advances, then `ScanAll`; the agents and foods stay the same objects. */
    method TickScan() returns (deadCells: seq<PopulationCell.Cell>)
      requires CellsApart(cells) && Distinct(foods) && FoodsPlaced(foods) && worldInfo == foods
      modifies this, np, set c | c in cells :: c.base, set c | c in cells :: c.base.brain, set f | f in foods
      ensures cells == old(cells) && foods == old(foods) && worldInfo == old(worldInfo)
      ensures simulationTime == old(simulationTime) + 1 && FoodsPlaced(foods)
      ensures deadCells == Picked(cells, old(DeadFlags(cells)), true)
      ensures forall j :: 0 <= j < |cells| ==> cells[j].base.brain.fitness == old(cells[j].base.brain.fitness) + 1
    {
      Tick();
      deadCells := ScanAll();
    }

    /** The clock of `update_world` advances by one step. */
    method Tick()
      modifies this
      ensures simulationTime == old(simulationTime) + 1
      ensures cells == old(cells) && foods == old(foods) && worldInfo == old(worldInfo)
    {
      simulationTime := simulationTime + 1;
    }

    /** `Purge` of the agents picked by `flags`: the others stay, still kept apart. */
    method Prune(deadCells: seq<PopulationCell.Cell>, ghost flags: seq<bool>)
      requires CellsApart(cells) && |flags| == |cells| && deadCells == Picked(cells, flags, true)
      modifies this
      ensures cells == Picked(old(cells), flags, false) && CellsApart(cells)
      ensures foods == old(foods) && worldInfo == old(worldInfo) && simulationTime == old(simulationTime)
    {
      ghost var scanned := cells;
      Purge(deadCells);
      RemoveAllFlagged(scanned, flags);
      PickedApart(scanned, flags);
    }

    /**
     * The new start of `update_world` once every agent is dead: the next
     * generation of agents, bred with `next` as its pool, and 20 new foods.
     */
    method Restart(next: seq<Brain>)
      requires FitPool(next) && py != np
      modifies this, np, py, population, set b | b in next
      ensures CellsApart(cells) && Distinct(foods) && FoodsPlaced(foods)
      ensures population.gen == old(population.gen) + 1 && population.pool == next
      ensures |cells| == |next| && forall i :: 0 <= i < |next| ==> fresh(cells[i]) && cells[i].base.brain == next[i]
      ensures |foods| == FOOD_COUNT && forall i :: 0 <= i < FOOD_COUNT ==> fresh(foods[i]) && foods[i].name == Foods.Str(i)
      ensures simulationTime == old(simulationTime)
    {
      GeneratePopulation(next);
      GenerateWorldEnvironment();
    }

    /** The line `world_info = foods` of `update_population`; the drawing is not modelled. */
    method UpdatePopulation()
      modifies this
      ensures worldInfo == foods
      ensures cells == old(cells) && foods == old(foods) && simulationTime == old(simulationTime)
      ensures CellsApart(cells) && Distinct(foods) && FoodsPlaced(foods) && py != np ==> Valid()
    {
      worldInfo := foods;
    }
  }
}
