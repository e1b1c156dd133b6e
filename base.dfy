/**
 * The agent skeleton `BaseCell` (genome, state, location and brain) and the
 * perception helpers every agent variant shares: the nearest-item scan, in
 * which the first of several equally near items wins, and the relative
 * heading towards a target.
 */
module Base {
  import opened Wrappers
  import opened Numerics
  import opened Settings
  import NnMaths
  import Foods

  // ---------------------------------------------------------------------------
  // The brain: an external decision policy that owns the fitness

  /** A brain: its identifier, its prediction function and the fitness the simulation accrues on it. */
  class Brain {
    var fitness: int
    const id: int
    const predict: seq<real> -> seq<real>

    constructor (id: int, predict: seq<real> -> seq<real>)
      ensures this.id == id && this.predict == predict && fitness == 0
    {
      this.id := id;
      this.predict := predict;
      fitness := 0;
    }

    /** Every prediction has at least `n` outputs. */
    ghost predicate Emits(n: nat)
    {
      forall input :: |predict(input)| >= n
    }
  }

  // ---------------------------------------------------------------------------
  // Health bookkeeping shared by every variant

  /** `min(round(health + delta, 2), cap)`, with rounding taken as exact. */
  function Capped(health: real, delta: real, cap: real): (r: real)
    ensures r <= cap
    ensures health + delta <= cap ==> r == health + delta
    ensures health + delta > cap ==> r == cap
  {
    if health + delta <= cap then health + delta else cap
  }

  /**
   * The health after a tick that takes `decay` off through `update_health`
   * and then kills (health 0) an agent whose health is no longer positive.
   */
  function Decayed(health: real, decay: real, cap: real): real
  {
    var h := Capped(health, -decay, cap);
    if h <= 0.0 then 0.0 else h
  }

  /**
   * Such a tick never leaves the health negative nor above the cap; it leaves
   * it exactly 0 (the agent is dead) iff it was at most `decay`, and otherwise
   * takes `decay` off a health within reach of the cap.
   */
  lemma DecayedProperties(health: real, decay: real, cap: real)
    requires 0.0 < decay && 0.0 < cap
    ensures 0.0 <= Decayed(health, decay, cap) <= cap
    ensures Decayed(health, decay, cap) == 0.0 <==> health <= decay
    ensures decay < health <= cap + decay ==> Decayed(health, decay, cap) == health - decay
  {
  }

  // ---------------------------------------------------------------------------
  // What an agent sees

  /** The two kinds of thing an agent can find in its view. */
  datatype Kind = FoodKind | CreatureKind

  /** A thing in view: its kind and its location. */
  datatype Seen = Seen(kind: Kind, location: Point)

  /**
   * The errors perception raises: `NotImplementedError` (creatures can only
   * see creatures and foods) and `AttributeError` (the agent has no
   * `LOCATION` to measure from).
   */
  datatype PerceptionError = NotAFood | NoLocation

  /** `dist_to_item(self, item)`. */
  function DistTo(m: Maths, at: Point, item: Seen): real
  {
    NnMaths.DistToItem(m, at, item.location)
  }

  /** The distance from `at` to each item, in order. */
  function Distances(m: Maths, at: Point, others: seq<Seen>): (ds: seq<real>)
    ensures |ds| == |others|
    ensures forall i :: 0 <= i < |others| ==> ds[i] == DistTo(m, at, others[i])
  {
    seq(|others|, i requires 0 <= i < |others| => DistTo(m, at, others[i]))
  }

  /**
   * `ds[k]` is what a scan that keeps the smallest value so far, replacing
   * it only on a strictly smaller one, selects: strictly smaller than every
   * value before it and no larger than every value after it.
   */
  ghost predicate IsFirstMin(ds: seq<real>, k: int)
  {
    && 0 <= k < |ds|
    && (forall j :: 0 <= j < k ==> ds[j] > ds[k])
    && (forall j :: k < j < |ds| ==> ds[j] >= ds[k])
  }

  /** At most one position is the first minimum. */
  lemma FirstMinUnique(ds: seq<real>, k1: int, k2: int)
    requires IsFirstMin(ds, k1) && IsFirstMin(ds, k2)
    ensures k1 == k2
  {
    var first, second := ds[k1], ds[k2];
  }

  /** A non-empty list always has a first minimum. */
  lemma {:induction false} FirstMinExists(ds: seq<real>)
    requires ds != []
    ensures exists k :: IsFirstMin(ds, k)
    decreases |ds|
  {
    if |ds| == 1 {
      assert IsFirstMin(ds, 0);
    } else {
      var init := ds[..|ds| - 1];
      var last := |ds| - 1;
      FirstMinExists(init);
      var k :| IsFirstMin(init, k);
      assert forall j :: 0 <= j < |init| ==> init[j] == ds[j];
      if ds[last] < ds[k] {
        assert IsFirstMin(ds, last);
      } else {
        assert IsFirstMin(ds, k);
      }
    }
  }

  /** One more step of the scan: the new value is selected iff it is strictly smaller, or the first. */
  lemma FirstMinStep(ds: seq<real>, i: nat, k: int)
    requires i < |ds| && (i == 0 || IsFirstMin(ds[..i], k))
    ensures i == 0 ==> IsFirstMin(ds[..i + 1], i)
    ensures i > 0 && ds[i] < ds[k] ==> IsFirstMin(ds[..i + 1], i)
    ensures i > 0 && ds[i] >= ds[k] ==> IsFirstMin(ds[..i + 1], k)
  {
    assert forall j :: 0 <= j < i ==> ds[..i + 1][j] == ds[..i][j];
  }

  /** The position of the first minimum. */
  ghost function FirstMin(ds: seq<real>): (k: int)
    requires ds != []
    ensures IsFirstMin(ds, k)
  {
    FirstMinExists(ds);
    var k :| IsFirstMin(ds, k);
    k
  }

  /** The index of the item the nearest-item scan of `info_to_vec` selects. */
  ghost function FirstNearest(m: Maths, at: Point, others: seq<Seen>): (k: int)
    requires others != []
    ensures 0 <= k < |others|
    ensures forall j :: 0 <= j < k ==> DistTo(m, at, others[j]) > DistTo(m, at, others[k])
    ensures forall j :: k < j < |others| ==> DistTo(m, at, others[j]) >= DistTo(m, at, others[k])
  {
    FirstMin(Distances(m, at, others))
  }

  /**
   * The shared loop of `info_to_vec`: a linear scan keeping the closest item
   * so far and replacing it only on a strictly smaller distance; -1 (the
   * source's `None`) for an empty list.
   */
  method Nearest(m: Maths, at: Point, others: seq<Seen>) returns (k: int)
    ensures others == [] ==> k == -1
    ensures others != [] ==> k == FirstNearest(m, at, others)
  {
    ghost var ds := Distances(m, at, others);
    k := -1;
    var closest := 0.0;
    for i := 0 to |others|
      invariant (k == -1) == (i == 0)
      invariant i > 0 ==> 0 <= k < i && closest == ds[k]
      invariant i > 0 ==> IsFirstMin(ds[..i], k)
    {
      var d := DistTo(m, at, others[i]);
      FirstMinStep(ds, i, k);
      if k == -1 || d < closest {
        closest := d;
        k := i;
      }
    }
    assert ds[..|others|] == ds;
    if others != [] {
      FirstMinUnique(ds, k, FirstMin(ds));
    }
  }

  /**
   * What `info_to_vec` finds: the location of the first nearest item when it
   * is a food, and the error otherwise, also for an empty list (where the
   * selected item stays `None`).
   */
  ghost function NearestFood(m: Maths, at: Point, others: seq<Seen>): Result<Point, PerceptionError>
  {
    if others == [] then Failure(NotAFood)
    else
      var item := others[FirstNearest(m, at, others)];
      if item.kind == FoodKind then Success(item.location) else Failure(NotAFood)
  }

  /** When every item in view is a food, the scan finds one of them. */
  lemma NearestFoodAmongFoods(m: Maths, at: Point, others: seq<Seen>)
    requires others != []
    requires forall i :: 0 <= i < |others| ==> others[i].kind == FoodKind
    ensures NearestFood(m, at, others).Success?
    ensures exists i :: 0 <= i < |others| && others[i].location == NearestFood(m, at, others).value
  {
    var k := FirstNearest(m, at, others);
    assert others[k].location == NearestFood(m, at, others).value;
  }

  // ---------------------------------------------------------------------------
  // calc_heading

  /**
   * `calc_heading`: the bearing of `target` in degrees, `degrees(atan2(dy, dx))`,
   * less the agent's orientation, with 360 added once when its magnitude
   * exceeds 180, divided by 180.
   */
  function Heading(m: Maths, at: Point, orientation: real, target: Point): real
  {
    var thetaD := m.atan2Deg(target.y - at.y, target.x - at.x) - orientation;
    (if Abs(thetaD) > 180.0 then thetaD + 360.0 else thetaD) / 180.0
  }

  /**
   * For an orientation in [0, 360) the raw difference is at most 180, the
   * correction applies exactly when it is below -180, and the heading lies in
   * [-1, 1].
   */
  lemma HeadingInRange(m: Maths, at: Point, orientation: real, target: Point)
    requires 0.0 <= orientation < 360.0
    ensures -1.0 <= Heading(m, at, orientation, target) <= 1.0
    ensures var thetaD := m.atan2Deg(target.y - at.y, target.x - at.x) - orientation;
      thetaD <= 180.0 &&
      Heading(m, at, orientation, target) == (if thetaD < -180.0 then thetaD + 360.0 else thetaD) / 180.0
  {
    var thetaD := m.atan2Deg(target.y - at.y, target.x - at.x) - orientation;
    assert -180.0 < m.atan2Deg(target.y - at.y, target.x - at.x) <= 180.0;
    assert -540.0 < thetaD <= 180.0;
  }

  // ---------------------------------------------------------------------------
  // BaseCell

  /** The genome fields of `BaseCell`; the colour is display-only. */
  datatype DNA = DNA(color: Rgb, size: int, speed: real, visionRange: real, rotationSpeed: real)

  /** The health record. */
  datatype State = State(health: real)

  /** A location with an orientation in degrees. */
  datatype Location = Location(x: real, y: real, orientation: real)
  {
    function Position(): Point
    {
      Point(x, y)
    }
  }

  const BASE_DNA: DNA := DNA(Rgb(255.0, 255.0, 255.0), 32, 30.0, 200.0, 3.0)
  const BASE_HEALTH: real := 100.0
  const BASE_HEALTH_CAP: real := 200.0
  const MAGIC: real := 0.04

  /** The common part of the population agents. */
  class BaseCell {
    const dna: DNA
    var state: State
    var location: Location
    const brain: Brain
    const magic: real

    /**
     * `BaseCell(brain)`: fixed genome, health 100, a location drawn inside the
     * margins from `ux`, `uy`, orientation 0, and the brain's fitness reset.
     */
    constructor (brain: Brain, ux: Unit, uy: Unit)
      modifies brain
      ensures dna == BASE_DNA && state == State(BASE_HEALTH) && magic == MAGIC
      ensures location == Location(Foods.Spawn(ux, uy).x, Foods.Spawn(ux, uy).y, 0.0)
      ensures this.brain == brain && brain.fitness == 0
    {
      dna := BASE_DNA;
      state := State(BASE_HEALTH);
      var p := Foods.Spawn(ux, uy);
      location := Location(p.x, p.y, 0.0);
      this.brain := brain;
      magic := MAGIC;
      new;
      brain.fitness := 0;
    }

    /** `info_to_vec(others)`: the heading of the nearest item when it is a food. */
    method InfoToVec(m: Maths, others: seq<Seen>) returns (r: Result<real, PerceptionError>)
      ensures var seen := NearestFood(m, location.Position(), others);
        r == if seen.Success? then Success(Heading(m, location.Position(), location.orientation, seen.value))
             else Failure(seen.error)
    {
      var k := Nearest(m, location.Position(), others);
      if k != -1 && others[k].kind == FoodKind {
        r := Success(Heading(m, location.Position(), location.orientation, others[k].location));
      } else {
        r := Failure(NotAFood);
      }
    }

    /** `update_fitness(fitness)`: adds `fitness` to the brain's fitness. */
    method UpdateFitness(fitness: int)
      modifies brain
      ensures brain.fitness == old(brain.fitness) + fitness
    {
      brain.fitness := brain.fitness + fitness;
    }

    /** `update_health(delta)`: the health moves by `delta`, capped at 200. */
    method UpdateHealth(delta: real)
      modifies this
      ensures state == State(Capped(old(state.health), delta, BASE_HEALTH_CAP))
      ensures location == old(location)
    {
      state := State(Capped(state.health, delta, BASE_HEALTH_CAP));
    }

    /** `update_location(**kwargs)`: the fields given replace the old ones, the others stay. */
    method UpdateLocation(x: Option<real>, y: Option<real>, orientation: Option<real>)
      modifies this
      ensures location == Location(x.GetOr(old(location).x), y.GetOr(old(location).y),
                                   orientation.GetOr(old(location).orientation))
      ensures state == old(state)
    {
      location := Location(x.GetOr(location.x), y.GetOr(location.y), orientation.GetOr(location.orientation));
    }

    /** `kill()`: health becomes exactly 0, whatever it was, so a second kill changes nothing. */
    method Kill()
      modifies this
      ensures state == State(0.0)
      ensures location == old(location)
    {
      state := State(0.0);
    }

    /** `is_dead()`. */
    method IsDead() returns (dead: bool)
      ensures dead <==> state.health <= 0.0
    {
      dead := state.health <= 0.0;
    }
  }
}
