/**
 * The population agent `Cell(BaseCell)`: it perceives the heading of the
 * nearest food, integrates heading-and-speed decisions, loses 0.1 health per
 * tick and is killed (health 0) once its health reaches 0.
 */
module PopulationCell {
  import opened Wrappers
  import opened Numerics
  import opened Base
  import Foods

  /** The per-tick health cost. */
  const DECAY: real := 0.1

  /**
   * One decision `[turn, thrust, ...]` applied to a location: the orientation
   * turns by `turn * 720 * magic` modulo 360, the speed is the genome speed
   * plus `thrust * magic`, floored at 0, and the position advances along the
   * NEW orientation by `speed * magic`.
   */
  function Steer(m: Maths, dna: DNA, magic: real, loc: Location, decision: seq<real>): (r: Location)
    requires |decision| >= 2
    ensures 0.0 <= r.orientation < 360.0
  {
    var orientation := Mod360(loc.orientation + Rotation(decision[0], magic));
    var speed := StepSpeed(dna, magic, decision[1]);
    Location(loc.x + Advance(speed, m.cosDeg(orientation), magic),
             loc.y + Advance(speed, m.sinDeg(orientation), magic),
             orientation)
  }

  /** The turn a decision asks for, in degrees: `turn * 720 * magic`. */
  function Rotation(turn: real, magic: real): real
  {
    turn * 720.0 * magic
  }

  /** The displacement along one axis: `speed * component * magic`. */
  function Advance(speed: real, component: real, magic: real): real
  {
    speed * component * magic
  }

  /** `tmp_speed`: the genome speed plus `thrust * magic`, never below 0. */
  function StepSpeed(dna: DNA, magic: real, thrust: real): (speed: real)
    ensures speed >= 0.0
    ensures dna.speed + thrust * magic >= 0.0 ==> speed == dna.speed + thrust * magic
  {
    var tmp := dna.speed + thrust * magic;
    if tmp < 0.0 then 0.0 else tmp
  }

  /** Every decision has the two outputs `apply_decisions` reads. */
  ghost predicate WellShaped(decisions: seq<seq<real>>)
  {
    forall i :: 0 <= i < |decisions| ==> |decisions[i]| >= 2
  }

  /** The location after applying `decisions` in order. */
  function Steered(m: Maths, dna: DNA, magic: real, loc: Location, decisions: seq<seq<real>>): Location
    requires WellShaped(decisions)
    decreases |decisions|
  {
    if decisions == [] then loc
    else Steer(m, dna, magic, Steered(m, dna, magic, loc, decisions[..|decisions| - 1]), decisions[|decisions| - 1])
  }

  /** After at least one decision the orientation is in [0, 360); without one nothing moves. */
  lemma SteeredOrientation(m: Maths, dna: DNA, magic: real, loc: Location, decisions: seq<seq<real>>)
    requires WellShaped(decisions)
    ensures decisions != [] ==> 0.0 <= Steered(m, dna, magic, loc, decisions).orientation < 360.0
    ensures decisions == [] ==> Steered(m, dna, magic, loc, decisions) == loc
  {
  }

  /** Decisions compose: applying `a` and then `b` is applying `a + b`. */
  lemma {:induction false} SteeredAppend(m: Maths, dna: DNA, magic: real, loc: Location, a: seq<seq<real>>, b: seq<seq<real>>)
    requires WellShaped(a) && WellShaped(b)
    ensures WellShaped(a + b)
    ensures Steered(m, dna, magic, loc, a + b) == Steered(m, dna, magic, Steered(m, dna, magic, loc, a), b)
    decreases |b|
  {
    assert forall i :: 0 <= i < |a + b| ==> (a + b)[i] == if i < |a| then a[i] else b[i - |a|];
    if b == [] {
      assert a + b == a;
    } else {
      var b0 := b[..|b| - 1];
      assert (a + b)[..|a + b| - 1] == a + b0;
      assert forall i :: 0 <= i < |b0| ==> b0[i] == b[i];
      SteeredAppend(m, dna, magic, loc, a, b0);
    }
  }

  /** A population agent. */
  class Cell {
    const base: BaseCell
    var age: int
    const name: int

    /** `Cell(screen, name, brain)`: a fresh `BaseCell` and age 0. */
    constructor (name: int, brain: Brain, ux: Unit, uy: Unit)
      modifies brain
      ensures fresh(base) && base.brain == brain && brain.fitness == 0
      ensures base.dna == BASE_DNA && base.state == State(BASE_HEALTH) && base.magic == MAGIC
      ensures base.location == Location(Foods.Spawn(ux, uy).x, Foods.Spawn(ux, uy).y, 0.0)
      ensures age == 0 && this.name == name
    {
      base := new BaseCell(brain, ux, uy);
      age := 0;
      this.name := name;
    }

    /**
     * `think(objects_in_view)`: exactly one input, `[0]` with nothing in view
     * and `[heading]` of the nearest food otherwise, and its prediction.
     */
    method Think(m: Maths, objectsInView: seq<Seen>) returns (r: Result<seq<seq<real>>, PerceptionError>)
      ensures objectsInView == [] ==> r == Success([base.brain.predict([0.0])])
      ensures objectsInView != [] ==>
        var at := base.location.Position();
        var seen := NearestFood(m, at, objectsInView);
        r == if seen.Success? then Success([base.brain.predict([Heading(m, at, base.location.orientation, seen.value)])])
             else Failure(seen.error)
      ensures r.Success? ==> |r.value| == 1
    {
      var inputs: seq<seq<real>> := [];
      if |objectsInView| == 0 {
        inputs := inputs + [[0.0]];
      } else {
        var objectInputs := base.InfoToVec(m, objectsInView);
        if objectInputs.Failure? {
          return Failure(objectInputs.error);
        }
        inputs := inputs + [[objectInputs.value]];
      }
      var outputs: seq<seq<real>> := [];
      for i := 0 to |inputs|
        invariant outputs == seq(i, j requires 0 <= j < i => base.brain.predict(inputs[j]))
      {
        outputs := outputs + [base.brain.predict(inputs[i])];
      }
      assert outputs == [base.brain.predict(inputs[0])];
      r := Success(outputs);
    }

    /** `apply_decisions(decisions)`: each decision in order turns, then moves the agent. */
    method ApplyDecisions(m: Maths, decisions: seq<seq<real>>)
      requires WellShaped(decisions)
      modifies base
      ensures base.location == Steered(m, base.dna, base.magic, old(base.location), decisions)
      ensures base.state == old(base.state)
    {
      for i := 0 to |decisions|
        invariant base.location == Steered(m, base.dna, base.magic, old(base.location), decisions[..i])
        invariant base.state == old(base.state)
      {
        var decision := decisions[i];
        var loc0 := base.location;
        var tmpOrientation := base.location.orientation + Rotation(decision[0], base.magic);
        base.UpdateLocation(None, None, Some(Mod360(tmpOrientation)));
        var tmpSpeed := base.dna.speed + decision[1] * base.magic;
        if tmpSpeed < 0.0 {
          tmpSpeed := 0.0;
        }
        assert tmpSpeed == StepSpeed(base.dna, base.magic, decision[1]);
        var dx := Advance(tmpSpeed, m.cosDeg(base.location.orientation), base.magic);
        var dy := Advance(tmpSpeed, m.sinDeg(base.location.orientation), base.magic);
        base.UpdateLocation(Some(base.location.x + dx), Some(base.location.y + dy), None);
        assert decisions[..i + 1][..i] == decisions[..i];
        assert base.location == Steer(m, base.dna, base.magic, loc0, decision);
      }
      assert decisions[..|decisions|] == decisions;
    }

    /** `eat(food)`: the food's energy is added to the health, capped at 200. */
    method Eat(food: Foods.Food)
      modifies base
      ensures base.state == State(Capped(old(base.state.health), food.energy as real, BASE_HEALTH_CAP))
      ensures base.location == old(base.location)
    {
      base.UpdateHealth(food.energy as real);
    }

    /**
     * `update_creature_properties()`: one more fitness point, 0.1 less
     * health, and a kill when the health reaches 0.
     */
    method UpdateCreatureProperties()
      modifies base, base.brain
      ensures base.brain.fitness == old(base.brain.fitness) + 1
      ensures base.state == State(Decayed(old(base.state.health), DECAY, BASE_HEALTH_CAP))
      ensures base.location == old(base.location)
    {
      base.UpdateFitness(1);
      base.UpdateHealth(-DECAY);
      if base.state.health <= 0.0 {
        base.Kill();
      }
    }
  }
}
