/**
 * The third agent variant (`cell_v3.Cell`): the same stepped rotation and
 * edge distances as the fourth, but four outputs with a 0.7 threshold, and
 * one input (and so one output) per object in view.
 */
module CellV3 {
  import opened Wrappers
  import opened Numerics
  import opened Base
  import Foods
  import NnMaths
  import V4 = CellV4

  /** `DNA.speed`: the backward step; a forward step is half of it. */
  const SPEED: real := 5.0
  const HEALTH_CAP: real := 200.0
  /** The per-tick health cost. */
  const DECAY: real := 0.5
  /** The level an output must exceed to act. */
  const THRESHOLD: real := 0.7

  /** Which of a pair of outputs wins. */
  datatype Pick = First | Second | Neither

  /**
   * The `if`/`elif` on a pair of outputs: the first acts when it exceeds 0.7
   * and the second; otherwise the second acts when it exceeds 0.7 and the
   * first.
   */
  function Choose(a: real, b: real): Pick
  {
    if a > THRESHOLD && a > b then First
    else if b > THRESHOLD && b > a then Second
    else Neither
  }

  /** Each side acts exactly under its own condition, so equal outputs make no move. */
  lemma ChooseCases(a: real, b: real)
    ensures Choose(a, b) == First <==> a > THRESHOLD && a > b
    ensures Choose(a, b) == Second <==> b > THRESHOLD && b > a
    ensures a == b ==> Choose(a, b) == Neither
  {
  }

  /** The pose after one output `[back, forward, right, left, ...]`. */
  function Move(m: Maths, p: V4.Pose, output: seq<real>): V4.Pose
    requires |output| >= 4
  {
    var location := match Choose(output[0], output[1])
      case First => V4.Shift(m, p.location, p.angle, -SPEED)
      case Second => V4.Shift(m, p.location, p.angle, SPEED / 2.0)
      case Neither => p.location;
    var angle := match Choose(output[2], output[3])
      case First => V4.Rotate(p.angle, -V4.ROTATION_SPEED)
      case Second => V4.Rotate(p.angle, V4.ROTATION_SPEED)
      case Neither => p.angle;
    V4.Pose(location, angle)
  }

  /** Every output has the four entries `apply_movement` reads. */
  ghost predicate WellShaped(outputs: seq<seq<real>>)
  {
    forall i :: 0 <= i < |outputs| ==> |outputs[i]| >= 4
  }

  /** The pose after applying `outputs` in order. */
  function Moved(m: Maths, p: V4.Pose, outputs: seq<seq<real>>): V4.Pose
    requires WellShaped(outputs)
    decreases |outputs|
  {
    if outputs == [] then p
    else Move(m, Moved(m, p, outputs[..|outputs| - 1]), outputs[|outputs| - 1])
  }

  /** One output keeps the angle a reachable one; equal thrusts keep the location, equal spins the angle. */
  lemma MoveProperties(m: Maths, p: V4.Pose, output: seq<real>)
    requires |output| >= 4 && V4.StepAngle(p.angle)
    ensures V4.StepAngle(Move(m, p, output).angle)
    ensures output[0] == output[1] ==> Move(m, p, output).location == p.location
    ensures output[2] == output[3] ==> Move(m, p, output).angle == p.angle
    ensures Choose(output[2], output[3]) == Neither <==> Move(m, p, output).angle == p.angle
  {
    match Choose(output[2], output[3])
    case First => V4.RotateKeepsStepAngle(p.angle, -V4.ROTATION_SPEED);
    case Second => V4.RotateKeepsStepAngle(p.angle, V4.ROTATION_SPEED);
    case Neither =>
  }

  /** Any run of outputs keeps the angle a reachable one. */
  lemma {:induction false} MovedKeepsStepAngle(m: Maths, p: V4.Pose, outputs: seq<seq<real>>)
    requires WellShaped(outputs) && V4.StepAngle(p.angle)
    ensures V4.StepAngle(Moved(m, p, outputs).angle)
    decreases |outputs|
  {
    if outputs != [] {
      var init := outputs[..|outputs| - 1];
      MovedKeepsStepAngle(m, p, init);
      MoveProperties(m, Moved(m, p, init), outputs[|outputs| - 1]);
    }
  }

  /**
   * The inputs `think` builds: `[x, y, 0, 0]` with nothing in view, and
   * otherwise, per object in order, the location followed by the
   * displacement from the agent to the object.
   */
  function Inputs(at: Point, objectsInView: seq<Seen>): (inputs: seq<seq<real>>)
    ensures |inputs| == if objectsInView == [] then 1 else |objectsInView|
    ensures objectsInView == [] ==> inputs == [[at.x, at.y, 0.0, 0.0]]
    ensures forall i :: 0 <= i < |objectsInView| ==>
      inputs[i] == [at.x, at.y, objectsInView[i].location.x - at.x, objectsInView[i].location.y - at.y]
  {
    if objectsInView == [] then [[at.x, at.y, 0.0, 0.0]]
    else
      seq(|objectsInView|, i requires 0 <= i < |objectsInView| =>
        [at.x, at.y] + NnMaths.DistBetween(objectsInView[i].location, at))
  }

  /** An agent of the third variant. */
  class Cell {
    var location: Point
    var limits: V4.Limits
    var angle: int
    var direction: seq<real>
    var health: real
    var age: int
    const name: int
    const brain: Brain
    const maths: Maths

    /** The location and the angle. */
    function CurrentPose(): V4.Pose
      reads this
    {
      V4.Pose(location, angle)
    }

    /** The edge distances and the facing always match the location and the angle. */
    ghost predicate Valid()
      reads this
    {
      && V4.StepAngle(angle)
      && direction == V4.Facing(maths, angle)
      && limits == V4.LimitsOf(location)
    }

    /**
     * `Cell(screen, name, brain)`: health 100, a location inside the margins
     * from the draws `ux`, `uy`, angle 0, age 0 and the brain's fitness reset.
     */
    constructor (maths: Maths, name: int, brain: Brain, ux: Unit, uy: Unit)
      modifies brain
      ensures Valid()
      ensures location == Foods.Spawn(ux, uy) && angle == 0 && health == 100.0 && age == 0
      ensures this.name == name && this.brain == brain && this.maths == maths && brain.fitness == 0
    {
      var p := Foods.Spawn(ux, uy);
      location := p;
      limits := V4.LimitsOf(p);
      health := 100.0;
      direction := [];
      angle := 0;
      age := 0;
      this.name := name;
      this.brain := brain;
      this.maths := maths;
      new;
      brain.fitness := 0;
      SetDirection();
    }

    /** `think(objects_in_view)`: the prediction for each input, in order. */
    method Think(objectsInView: seq<Seen>) returns (outputs: seq<seq<real>>)
      ensures |outputs| == if objectsInView == [] then 1 else |objectsInView|
      ensures forall i :: 0 <= i < |outputs| ==> outputs[i] == brain.predict(Inputs(location, objectsInView)[i])
    {
      var inputs: seq<seq<real>> := [];
      if |objectsInView| == 0 {
        var objectInputs := [0.0, 0.0];
        inputs := inputs + [[location.x, location.y] + objectInputs];
        assert inputs[0] == [location.x, location.y, 0.0, 0.0];
      }
      for i := 0 to |objectsInView|
        invariant objectsInView != [] ==> |inputs| == i
        invariant objectsInView != [] ==> forall j :: 0 <= j < i ==> inputs[j] == Inputs(location, objectsInView)[j]
        invariant objectsInView == [] ==> inputs == Inputs(location, objectsInView)
      {
        var objectInputs := InfoToVec(objectsInView[i]);
        inputs := inputs + [[location.x, location.y] + objectInputs];
      }
      assert inputs == Inputs(location, objectsInView);
      outputs := [];
      for i := 0 to |inputs|
        invariant |outputs| == i
        invariant forall j :: 0 <= j < i ==> outputs[j] == brain.predict(inputs[j])
      {
        outputs := outputs + [brain.predict(inputs[i])];
      }
    }

    /** `info_to_vec(other)`: the displacement from the agent to `other`. */
    method InfoToVec(other: Seen) returns (networkInput: seq<real>)
      ensures networkInput == [other.location.x - location.x, other.location.y - location.y]
    {
      networkInput := NnMaths.DistBetween(other.location, location);
    }

    /** `set_direction()` (and the part of `do_rotate` that is not drawing). */
    method SetDirection()
      modifies this
      ensures direction == V4.Facing(maths, angle)
      ensures location == old(location) && limits == old(limits) && angle == old(angle)
      ensures health == old(health) && age == old(age)
    {
      direction := [maths.sinDeg(angle as real), maths.cosDeg(angle as real)];
    }

    /** `update_location(**kwargs)`: the coordinates given replace the old ones, and the edge distances follow. */
    method UpdateLocation(x: Option<real>, y: Option<real>)
      modifies this
      ensures location == Point(x.GetOr(old(location).x), y.GetOr(old(location).y))
      ensures limits == V4.LimitsOf(location)
      ensures angle == old(angle) && direction == old(direction) && health == old(health) && age == old(age)
    {
      location := Point(x.GetOr(location.x), y.GetOr(location.y));
      limits := V4.LimitsOf(location);
    }

    /** `update_health(delta)`: the health moves by `delta`, capped at 200. */
    method UpdateHealth(delta: real)
      modifies this
      ensures health == Capped(old(health), delta, HEALTH_CAP)
      ensures CurrentPose() == old(CurrentPose()) && age == old(age)
      ensures limits == old(limits) && direction == old(direction)
    {
      health := Capped(health, delta, HEALTH_CAP);
    }

    /** `update_fitness(fitness)`: adds `fitness` to the brain's fitness. */
    method UpdateFitness(fitness: int)
      modifies brain
      ensures brain.fitness == old(brain.fitness) + fitness
    {
      brain.fitness := brain.fitness + fitness;
    }

    /** `apply_movement(outputs)`: per output, at most one translation and then at most one turn. */
    method ApplyMovement(outputs: seq<seq<real>>)
      requires Valid() && WellShaped(outputs)
      modifies this
      ensures Valid()
      ensures CurrentPose() == Moved(maths, old(CurrentPose()), outputs)
      ensures health == old(health) && age == old(age)
    {
      for i := 0 to |outputs|
        invariant Valid()
        invariant CurrentPose() == Moved(maths, old(CurrentPose()), outputs[..i])
        invariant health == old(health) && age == old(age)
      {
        ApplyOutput(outputs[i]);
        assert outputs[..i + 1][..i] == outputs[..i];
      }
      assert outputs[..|outputs|] == outputs;
    }

    /** The body of the `apply_movement` loop for one output. */
    method ApplyOutput(output: seq<real>)
      requires Valid() && |output| >= 4
      modifies this
      ensures Valid()
      ensures CurrentPose() == Move(maths, old(CurrentPose()), output)
      ensures health == old(health) && age == old(age)
    {
      MoveProperties(maths, CurrentPose(), output);
      ghost var target := Move(maths, CurrentPose(), output);
      if output[0] > THRESHOLD && output[0] > output[1] {
        assert Choose(output[0], output[1]) == First;
        var tmpPos := [direction[0] * SPEED, direction[1] * SPEED];
        UpdateLocation(Some(location.x - tmpPos[0]), Some(location.y - tmpPos[1]));
      } else if output[1] > THRESHOLD && output[1] > output[0] {
        assert Choose(output[0], output[1]) == Second;
        var tmpPos := [direction[0] * (SPEED / 2.0), direction[1] * (SPEED / 2.0)];
        UpdateLocation(Some(location.x + tmpPos[0]), Some(location.y + tmpPos[1]));
      }
      assert location == target.location;
      if output[2] > THRESHOLD && output[2] > output[3] {
        assert Choose(output[2], output[3]) == First;
        angle := (angle - V4.ROTATION_SPEED) % 360;
        SetDirection();
      } else if output[3] > THRESHOLD && output[3] > output[2] {
        assert Choose(output[2], output[3]) == Second;
        angle := (angle + V4.ROTATION_SPEED) % 360;
        SetDirection();
      }
    }

    /**
     * `update_creature_properties()`: one more fitness point and 0.5 less
     * health, and a kill (health exactly 0) once the health is no longer
     * positive.
     */
    method UpdateCreatureProperties()
      modifies this, brain
      ensures brain.fitness == old(brain.fitness) + 1
      ensures health == Decayed(old(health), DECAY, HEALTH_CAP)
      ensures CurrentPose() == old(CurrentPose()) && age == old(age)
      ensures limits == old(limits) && direction == old(direction)
    {
      UpdateFitness(1);
      UpdateHealth(-DECAY);
      if health <= 0.0 {
        Kill();
      }
    }

    /** `is_dead()`. */
    method IsDead() returns (dead: bool)
      ensures dead <==> health <= 0.0
    {
      dead := health <= 0.0;
    }

    /** `kill()`: health becomes exactly 0. */
    method Kill()
      modifies this
      ensures health == 0.0
      ensures CurrentPose() == old(CurrentPose()) && age == old(age)
      ensures limits == old(limits) && direction == old(direction)
    {
      health := 0.0;
    }

    /** `eat(food)`: the energy is added, capped at 200. */
    method Eat(food: Foods.Food)
      modifies this
      ensures health == Capped(old(health), food.energy as real, HEALTH_CAP)
      ensures CurrentPose() == old(CurrentPose()) && age == old(age)
      ensures limits == old(limits) && direction == old(direction)
    {
      UpdateHealth(food.energy as real);
    }
  }
}
