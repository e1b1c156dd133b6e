/**
 * The fifth agent variant (`cell_v5.Cell`): plain fields `x`, `y`, `r`
 * (orientation in degrees) and `v` (speed), heading-and-velocity
 * integration with time step 0.04, health capped at 300 and a tick that
 * never resets the health.
 */
module CellV5 {
  import opened Wrappers
  import opened Numerics
  import opened Settings
  import opened Base
  import Foods
  import PopulationCell

  /** `settings['dt']`, the simulation time step. */
  const DT: real := 0.04
  /** `settings['v_max']`, the largest speed. */
  const V_MAX: real := 50.0
  /** `settings['dv_max']`, the largest change of speed per second. */
  const DV_MAX: real := 1.0
  /** The health cap of this variant. */
  const HEALTH_CAP: real := 300.0
  /** The per-tick health cost. */
  const DECAY: real := 0.1

  /** The moving part of the agent. */
  datatype Motion = Motion(x: real, y: real, r: real, v: real)
  {
    /** Orientation in [0, 360) and speed in [0, v_max]. */
    predicate InRange()
    {
      0.0 <= r < 360.0 && 0.0 <= v <= V_MAX
    }
  }

  /** The speed clamped into [0, v_max]. */
  function ClampSpeed(v: real): (c: real)
    ensures 0.0 <= c <= V_MAX
    ensures 0.0 <= v <= V_MAX ==> c == v
    ensures v < 0.0 ==> c == 0.0
    ensures v > V_MAX ==> c == V_MAX
  {
    if v < 0.0 then 0.0 else if v > V_MAX then V_MAX else v
  }

  /**
   * One decision `[turn, thrust, ...]`: the heading turns by
   * `turn * dr_max * dt` modulo 360, the speed changes by
   * `thrust * dv_max * dt` and is clamped, and the position advances along
   * the NEW heading at the NEW speed for one time step.
   */
  function Drive(m: Maths, s: Motion, decision: seq<real>): (t: Motion)
    requires |decision| >= 2
    ensures t.InRange()
  {
    var r := Mod360(s.r + PopulationCell.Rotation(decision[0], DT));
    var v := ClampSpeed(s.v + decision[1] * DV_MAX * DT);
    Motion(s.x + PopulationCell.Advance(v, m.cosDeg(r), DT),
           s.y + PopulationCell.Advance(v, m.sinDeg(r), DT),
           r, v)
  }

  /** The motion after applying `decisions` in order. */
  function Driven(m: Maths, s: Motion, decisions: seq<seq<real>>): Motion
    requires PopulationCell.WellShaped(decisions)
    decreases |decisions|
  {
    if decisions == [] then s
    else Drive(m, Driven(m, s, decisions[..|decisions| - 1]), decisions[|decisions| - 1])
  }

  /** Any non-empty run of decisions leaves the heading and the speed in range; an in-range start stays in range. */
  lemma {:induction false} DrivenInRange(m: Maths, s: Motion, decisions: seq<seq<real>>)
    requires PopulationCell.WellShaped(decisions)
    requires decisions != [] || s.InRange()
    ensures Driven(m, s, decisions).InRange()
  {
  }

  /** Decisions compose: applying `a` and then `b` is applying `a + b`. */
  lemma {:induction false} DrivenAppend(m: Maths, s: Motion, a: seq<seq<real>>, b: seq<seq<real>>)
    requires PopulationCell.WellShaped(a) && PopulationCell.WellShaped(b)
    ensures PopulationCell.WellShaped(a + b)
    ensures Driven(m, s, a + b) == Driven(m, Driven(m, s, a), b)
    decreases |b|
  {
    assert forall i :: 0 <= i < |a + b| ==> (a + b)[i] == if i < |a| then a[i] else b[i - |a|];
    if b == [] {
      assert a + b == a;
    } else {
      var b0 := b[..|b| - 1];
      assert (a + b)[..|a + b| - 1] == a + b0;
      assert forall i :: 0 <= i < |b0| ==> b0[i] == b[i];
      DrivenAppend(m, s, a, b0);
    }
  }

  /**
   * What `info_to_vec` does as written: its first distance calls
   * `dist_to_item(self, item)`, which reads `self.LOCATION`, an attribute this
   * class never sets, so a non-empty view always raises; an empty view
   * raises because no item is selected.
   */
  function InfoToVecAsWritten(others: seq<Seen>): (r: Result<real, PerceptionError>)
    ensures r.Failure?
    ensures others != [] <==> r == Failure(NoLocation)
  {
    if others == [] then Failure(NotAFood) else Failure(NoLocation)
  }

  /**
   * The discrepancy: with a single food in view the intended scan finds it,
   * while the code as written raises.
   */
  lemma InfoToVecAsWrittenMissesFood(m: Maths, at: Point, food: Point)
    ensures NearestFood(m, at, [Seen(FoodKind, food)]) == Success(food)
    ensures InfoToVecAsWritten([Seen(FoodKind, food)]) == Failure(NoLocation)
  {
    assert FirstNearest(m, at, [Seen(FoodKind, food)]) == 0;
  }

  /** An agent of the fifth variant. */
  class Cell {
    var x: real
    var y: real
    var r: real
    var v: real
    var health: real
    var age: int
    const visionRange: real
    const name: int
    const brain: Brain

    /** The moving part of the state. */
    function Kinematics(): Motion
      reads this
    {
      Motion(x, y, r, v)
    }

    /**
     * `Cell(screen, name, brain)`: position drawn inside the margins from
     * `ux`, `uy`, orientation `uniform(0, 360)` from `ur`, speed 30, health
     * 100, age 0 and the brain's fitness reset.
     */
    constructor (name: int, brain: Brain, ux: Unit, uy: Unit, ur: Unit)
      modifies brain
      ensures Point(x, y) == Foods.Spawn(ux, uy) && r == Uniform(0.0, 360.0, ur)
      ensures v == 30.0 && health == 100.0 && age == 0 && visionRange == 200.0
      ensures this.name == name && this.brain == brain && brain.fitness == 0
      ensures Kinematics().InRange()
    {
      var p := Foods.Spawn(ux, uy);
      x := p.x;
      y := p.y;
      visionRange := 200.0;
      r := Uniform(0.0, 360.0, ur);
      v := 30.0;
      this.name := name;
      age := 0;
      health := 100.0;
      this.brain := brain;
      new;
      brain.fitness := 0;
    }

    /**
     * `think(objects_in_view)`: one input, `[health, 0]` with nothing in view
     * and `[health, heading]` of the nearest food otherwise, and its
     * prediction.
     */
    method Think(m: Maths, objectsInView: seq<Seen>) returns (result: Result<seq<seq<real>>, PerceptionError>)
      ensures objectsInView == [] ==> result == Success([brain.predict([health, 0.0])])
      ensures objectsInView != [] ==>
        var seen := NearestFood(m, Point(x, y), objectsInView);
        result == if seen.Success? then Success([brain.predict([health, Heading(m, Point(x, y), r, seen.value)])])
                  else Failure(seen.error)
      ensures result.Success? ==> |result.value| == 1
    {
      var inputs: seq<seq<real>> := [];
      if |objectsInView| == 0 {
        inputs := inputs + [[health, 0.0]];
      } else {
        var objectInputs := InfoToVec(m, objectsInView);
        if objectInputs.Failure? {
          return Failure(objectInputs.error);
        }
        inputs := inputs + [[health, objectInputs.value]];
      }
      var outputs: seq<seq<real>> := [];
      for i := 0 to |inputs|
        invariant outputs == seq(i, j requires 0 <= j < i => brain.predict(inputs[j]))
      {
        outputs := outputs + [brain.predict(inputs[i])];
      }
      assert outputs == [brain.predict(inputs[0])];
      result := Success(outputs);
    }

    /** `apply_decisions(decisions)`: each decision in order turns, accelerates, then moves the agent. */
    method ApplyDecisions(m: Maths, decisions: seq<seq<real>>)
      requires PopulationCell.WellShaped(decisions)
      modifies this
      ensures Kinematics() == Driven(m, old(Kinematics()), decisions)
      ensures health == old(health) && age == old(age)
    {
      for i := 0 to |decisions|
        invariant Kinematics() == Driven(m, old(Kinematics()), decisions[..i])
        invariant health == old(health) && age == old(age)
      {
        ApplyDecision(m, decisions[i]);
        assert decisions[..i + 1][..i] == decisions[..i];
      }
      assert decisions[..|decisions|] == decisions;
    }

    /** The body of the `apply_decisions` loop for one decision. */
    method ApplyDecision(m: Maths, decision: seq<real>)
      requires |decision| >= 2
      modifies this
      ensures Kinematics() == Drive(m, old(Kinematics()), decision)
      ensures health == old(health) && age == old(age)
    {
      r := r + PopulationCell.Rotation(decision[0], DT);
      r := Mod360(r);
      v := v + decision[1] * DV_MAX * DT;
      if v < 0.0 {
        v := 0.0;
      }
      if v > V_MAX {
        v := V_MAX;
      }
      var dx := PopulationCell.Advance(v, m.cosDeg(r), DT);
      var dy := PopulationCell.Advance(v, m.sinDeg(r), DT);
      x := x + dx;
      y := y + dy;
    }

    /** `eat(food)`: the food's energy is added to the health, capped at 300. */
    method Eat(food: Foods.Food)
      modifies this
      ensures health == Capped(old(health), food.energy as real, HEALTH_CAP)
      ensures Kinematics() == old(Kinematics()) && age == old(age)
    {
      UpdateHealth(food.energy as real);
    }

    /** `is_dead()`. */
    method IsDead() returns (dead: bool)
      ensures dead <==> health <= 0.0
    {
      dead := health <= 0.0;
    }

    /**
     * `info_to_vec(others)` with the distances measured from `(x, y)`: the
     * heading of the first nearest item when it is a food, an error
     * otherwise; the heading lies in [-1, 1] while the orientation is in
     * range.
     */
    method InfoToVec(m: Maths, others: seq<Seen>) returns (result: Result<real, PerceptionError>)
      ensures var seen := NearestFood(m, Point(x, y), others);
        result == if seen.Success? then Success(Heading(m, Point(x, y), r, seen.value))
                  else Failure(seen.error)
      ensures result.Success? && 0.0 <= r < 360.0 ==> -1.0 <= result.value <= 1.0
    {
      var k := Nearest(m, Point(x, y), others);
      if k != -1 && others[k].kind == FoodKind {
        result := Success(Heading(m, Point(x, y), r, others[k].location));
        if 0.0 <= r < 360.0 {
          HeadingInRange(m, Point(x, y), r, others[k].location);
        }
      } else {
        result := Failure(NotAFood);
      }
    }

    /** `update_fitness(fitness)`: adds `fitness` to the brain's fitness. */
    method UpdateFitness(fitness: int)
      modifies brain
      ensures brain.fitness == old(brain.fitness) + fitness
    {
      brain.fitness := brain.fitness + fitness;
    }

    /** `update_health(delta)`: the health moves by `delta`, capped at 300. */
    method UpdateHealth(delta: real)
      modifies this
      ensures health == Capped(old(health), delta, HEALTH_CAP)
      ensures Kinematics() == old(Kinematics()) && age == old(age)
    {
      health := Capped(health, delta, HEALTH_CAP);
    }

    /**
     * `update_creature_properties()`: one more fitness point and 0.1 less
     * health. The `kill` it calls is the sprite's, which only leaves the
     * sprite groups, so the health is not reset and can fall below 0.
     */
    method UpdateCreatureProperties()
      modifies this, brain
      ensures brain.fitness == old(brain.fitness) + 1
      ensures health == Capped(old(health), -DECAY, HEALTH_CAP)
      ensures old(health) <= HEALTH_CAP + DECAY ==> health == old(health) - DECAY
      ensures Kinematics() == old(Kinematics()) && age == old(age)
    {
      UpdateFitness(1);
      UpdateHealth(-DECAY);
    }
  }
}
