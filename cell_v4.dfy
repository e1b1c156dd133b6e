/**
 * The fourth agent variant (`cell_v4.Cell`): an integer angle turned in steps
 * of 3 degrees, a facing vector `[sin, cos]` of that angle, distances to the
 * four arena edges kept beside the location, and a reproduction counter.
 */
module CellV4 {
  import opened Wrappers
  import opened Numerics
  import opened Settings
  import opened Base
  import Foods

  /** `DNA.speed`: the forward step; a backward step is half of it. */
  const SPEED: real := 3.0
  /** `DNA.rotation_speed`, in whole degrees. */
  const ROTATION_SPEED: int := 3
  const VISION_RANGE: real := 200.0
  const HEALTH_CAP: real := 200.0
  /** The per-tick health cost. */
  const DECAY: real := 0.5
  /** The coordinates `think` sends when nothing is in view. */
  const NOTHING_SEEN: real := -1000.0

  /** The distances from a location to the top, bottom, left and right edges. */
  datatype Limits = Limits(top: real, bottom: real, left: real, right: real)

  /** The `LIMITS` of a location. */
  function LimitsOf(p: Point): (l: Limits)
    ensures l.top + l.bottom == HEIGHT && l.left + l.right == WIDTH
  {
    Limits(p.y, HEIGHT - p.y, p.x, WIDTH - p.x)
  }

  /** Inside the margins every edge is at least a margin away. */
  lemma LimitsInsideMargins(p: Point)
    requires Foods.InMargins(p)
    ensures var l := LimitsOf(p);
      l.top >= MARGIN && l.bottom > MARGIN && l.left >= MARGIN && l.right > MARGIN
  {
  }

  /** `set_direction`: the facing vector `[sin(angle), cos(angle)]`. */
  function Facing(m: Maths, angle: int): (d: seq<real>)
    ensures |d| == 2
  {
    [m.sinDeg(angle as real), m.cosDeg(angle as real)]
  }

  /** A brain copied and mutated by `reproduce`; the copy itself is not modelled. */
  datatype Child = MutatedCopyOf(brainId: int)

  /** The location and the angle of an agent. */
  datatype Pose = Pose(location: Point, angle: int)

  /** A turn by one rotation step, either way, modulo 360. */
  function Rotate(angle: int, delta: int): int
  {
    (angle + delta) % 360
  }

  /** The location moved by `scale` times the facing of `angle`. */
  function Shift(m: Maths, location: Point, angle: int, scale: real): Point
  {
    var d := Facing(m, angle);
    Point(location.x + d[0] * scale, location.y + d[1] * scale)
  }

  /**
   * The angle after one output: `output[1] > 0` turns by `-rotation_speed`,
   * `output[1] < 0` by `+rotation_speed`.
   */
  function Turn(angle: int, spin: real): int
  {
    if spin > 0.0 then Rotate(angle, -ROTATION_SPEED)
    else if spin < 0.0 then Rotate(angle, ROTATION_SPEED)
    else angle
  }

  /**
   * The location after one output: `output[0] > 0` steps back by
   * `speed * facing`, `output[0] < 0` forward by `speed / 2 * facing`.
   */
  function Translate(m: Maths, location: Point, angle: int, thrust: real): Point
  {
    if thrust > 0.0 then Shift(m, location, angle, -SPEED)
    else if thrust < 0.0 then Shift(m, location, angle, SPEED / 2.0)
    else location
  }

  /** One output of `apply_movement`: translate along the facing from before the turn, then turn. */
  function Move(m: Maths, p: Pose, output: seq<real>): Pose
    requires |output| >= 2
  {
    Pose(Translate(m, p.location, p.angle, output[0]), Turn(p.angle, output[1]))
  }

  /** Every output has the two entries `apply_movement` reads. */
  ghost predicate WellShaped(outputs: seq<seq<real>>)
  {
    forall i :: 0 <= i < |outputs| ==> |outputs[i]| >= 2
  }

  /** The pose after applying `outputs` in order. */
  function Moved(m: Maths, p: Pose, outputs: seq<seq<real>>): Pose
    requires WellShaped(outputs)
    decreases |outputs|
  {
    if outputs == [] then p
    else Move(m, Moved(m, p, outputs[..|outputs| - 1]), outputs[|outputs| - 1])
  }

  /** A reachable angle: in [0, 360) and a multiple of the rotation step. */
  predicate StepAngle(angle: int)
  {
    0 <= angle < 360 && angle % ROTATION_SPEED == 0
  }

  /** A rotation step keeps the angle a reachable one, and always changes it. */
  lemma RotateKeepsStepAngle(angle: int, delta: int)
    requires StepAngle(angle)
    requires delta == ROTATION_SPEED || delta == -ROTATION_SPEED
    ensures StepAngle(Rotate(angle, delta))
    ensures Rotate(angle, delta) != angle
  {
    if delta < 0 {
      if angle >= 3 {
        assert Rotate(angle, delta) == angle - 3;
      } else {
        assert Rotate(angle, delta) == 357;
      }
    } else {
      if angle < 357 {
        assert Rotate(angle, delta) == angle + 3;
      } else {
        assert Rotate(angle, delta) == 0;
      }
    }
  }

  /** One turn keeps the angle a reachable one, and changes it exactly when asked to. */
  lemma TurnKeepsStepAngle(angle: int, spin: real)
    requires StepAngle(angle)
    ensures StepAngle(Turn(angle, spin))
    ensures spin == 0.0 <==> Turn(angle, spin) == angle
  {
    if spin > 0.0 {
      RotateKeepsStepAngle(angle, -ROTATION_SPEED);
    } else if spin < 0.0 {
      RotateKeepsStepAngle(angle, ROTATION_SPEED);
    }
  }

  /** Any run of outputs keeps the angle a reachable one. */
  lemma {:induction false} MovedKeepsStepAngle(m: Maths, p: Pose, outputs: seq<seq<real>>)
    requires WellShaped(outputs) && StepAngle(p.angle)
    ensures StepAngle(Moved(m, p, outputs).angle)
    decreases |outputs|
  {
    if outputs != [] {
      var init := outputs[..|outputs| - 1];
      MovedKeepsStepAngle(m, p, init);
      TurnKeepsStepAngle(Moved(m, p, init).angle, outputs[|outputs| - 1][1]);
    }
  }

  /** The one-output rules: no thrust leaves the location, no spin leaves the angle. */
  lemma MoveStill(m: Maths, p: Pose, output: seq<real>)
    requires |output| >= 2 && StepAngle(p.angle)
    ensures output[0] == 0.0 ==> Move(m, p, output).location == p.location
    ensures output[1] == 0.0 <==> Move(m, p, output).angle == p.angle
  {
    TurnKeepsStepAngle(p.angle, output[1]);
  }

  /** An agent of the fourth variant. */
  class Cell {
    var location: Point
    var limits: Limits
    var angle: int
    var direction: seq<real>
    var health: real
    var foods: int
    var childs: seq<Child>
    var age: int
    const name: int
    const brain: Brain
    const maths: Maths

    /** The location and the angle. */
    function CurrentPose(): Pose
      reads this
    {
      Pose(location, angle)
    }

    /** The edge distances and the facing always match the location and the angle. */
    ghost predicate Valid()
      reads this
    {
      && StepAngle(angle)
      && direction == Facing(maths, angle)
      && limits == LimitsOf(location)
    }

    /**
     * `Cell(screen, name, brain)`: health 100, a location inside the margins
     * from the draws `ux`, `uy`, angle 0 facing `[sin 0, cos 0]`, no food
     * eaten, no children, age 0 and the brain's fitness reset.
     */
    constructor (maths: Maths, name: int, brain: Brain, ux: Unit, uy: Unit)
      modifies brain
      ensures Valid()
      ensures location == Foods.Spawn(ux, uy) && angle == 0 && health == 100.0
      ensures foods == 0 && childs == [] && age == 0
      ensures this.name == name && this.brain == brain && this.maths == maths && brain.fitness == 0
    {
      var p := Foods.Spawn(ux, uy);
      location := p;
      limits := LimitsOf(p);
      health := 100.0;
      direction := [];
      angle := 0;
      childs := [];
      age := 0;
      foods := 0;
      this.name := name;
      this.brain := brain;
      this.maths := maths;
      new;
      brain.fitness := 0;
      SetDirection();
    }

    /**
     * `think(objects_in_view)`: one input `[health, x, y, fx, fy]`, where
     * `(fx, fy)` is the nearest food or `(-1000, -1000)` with nothing in
     * view, and its prediction.
     */
    method Think(objectsInView: seq<Seen>) returns (result: Result<seq<seq<real>>, PerceptionError>)
      ensures objectsInView == [] ==>
        result == Success([brain.predict([health, location.x, location.y, NOTHING_SEEN, NOTHING_SEEN])])
      ensures objectsInView != [] ==>
        var seen := NearestFood(maths, location, objectsInView);
        result == if seen.Success? then Success([brain.predict([health, location.x, location.y, seen.value.x, seen.value.y])])
                  else Failure(seen.error)
      ensures result.Success? ==> |result.value| == 1
    {
      var inputs: seq<seq<real>> := [];
      if |objectsInView| == 0 {
        var objectInputs := [NOTHING_SEEN, NOTHING_SEEN];
        var input := [health] + [location.x, location.y] + objectInputs;
        assert input == [health, location.x, location.y, NOTHING_SEEN, NOTHING_SEEN];
        inputs := inputs + [input];
      } else {
        var objectInputs := InfoToVec(objectsInView);
        if objectInputs.Failure? {
          return Failure(objectInputs.error);
        }
        var input := [health] + [location.x, location.y] + objectInputs.value;
        assert input == [health, location.x, location.y, objectInputs.value[0], objectInputs.value[1]];
        inputs := inputs + [input];
      }
      var outputs: seq<seq<real>> := [];
      for i := 0 to |inputs|
        invariant outputs == seq(i, j requires 0 <= j < i => brain.predict(inputs[j]))
      {
        outputs := outputs + [brain.predict(inputs[i])];
      }
      assert outputs == [brain.predict(inputs[0])];
      result := Success(outputs);
    }

    /** `set_direction()` (and the part of `do_rotate` that is not drawing). */
    method SetDirection()
      modifies this
      ensures direction == Facing(maths, angle)
      ensures location == old(location) && limits == old(limits) && angle == old(angle)
      ensures health == old(health) && foods == old(foods) && childs == old(childs) && age == old(age)
    {
      direction := [maths.sinDeg(angle as real), maths.cosDeg(angle as real)];
    }

    /** `update_location(**kwargs)`: the coordinates given replace the old ones, and the edge distances follow. */
    method UpdateLocation(x: Option<real>, y: Option<real>)
      modifies this
      ensures location == Point(x.GetOr(old(location).x), y.GetOr(old(location).y))
      ensures limits == LimitsOf(location)
      ensures angle == old(angle) && direction == old(direction)
      ensures health == old(health) && foods == old(foods) && childs == old(childs) && age == old(age)
    {
      location := Point(x.GetOr(location.x), y.GetOr(location.y));
      UpdateLimits(Some(location.y), Some(HEIGHT - location.y), Some(location.x), Some(WIDTH - location.x));
    }

    /** `update_limits(**kwargs)`: the distances given replace the old ones, the others stay. */
    method UpdateLimits(top: Option<real>, bottom: Option<real>, left: Option<real>, right: Option<real>)
      modifies this
      ensures limits == Limits(top.GetOr(old(limits).top), bottom.GetOr(old(limits).bottom),
                               left.GetOr(old(limits).left), right.GetOr(old(limits).right))
      ensures location == old(location) && angle == old(angle) && direction == old(direction)
      ensures health == old(health) && foods == old(foods) && childs == old(childs) && age == old(age)
    {
      limits := Limits(top.GetOr(limits.top), bottom.GetOr(limits.bottom), left.GetOr(limits.left), right.GetOr(limits.right));
    }

    /** `update_health(delta)`: the health moves by `delta`, capped at 200. */
    method UpdateHealth(delta: real)
      modifies this
      ensures health == Capped(old(health), delta, HEALTH_CAP)
      ensures CurrentPose() == old(CurrentPose()) && limits == old(limits) && direction == old(direction)
      ensures foods == old(foods) && childs == old(childs) && age == old(age)
    {
      health := Capped(health, delta, HEALTH_CAP);
    }

    /** `update_fitness(fitness)`: adds `fitness` to the brain's fitness. */
    method UpdateFitness(fitness: int)
      modifies brain
      ensures brain.fitness == old(brain.fitness) + fitness
    {
      brain.fitness := brain.fitness + fitness;
    }

    /**
     * `apply_movement(outputs)`: per output, a translation along the current
     * facing and then a turn, with the facing and the edge distances kept up
     * to date.
     */
    method ApplyMovement(outputs: seq<seq<real>>)
      requires Valid() && WellShaped(outputs)
      modifies this
      ensures Valid()
      ensures CurrentPose() == Moved(maths, old(CurrentPose()), outputs)
      ensures health == old(health) && foods == old(foods) && childs == old(childs) && age == old(age)
    {
      for i := 0 to |outputs|
        invariant Valid()
        invariant CurrentPose() == Moved(maths, old(CurrentPose()), outputs[..i])
        invariant health == old(health) && foods == old(foods) && childs == old(childs) && age == old(age)
      {
        ApplyOutput(outputs[i]);
        assert outputs[..i + 1][..i] == outputs[..i];
      }
      assert outputs[..|outputs|] == outputs;
    }

    /** The body of the `apply_movement` loop for one output. */
    method ApplyOutput(output: seq<real>)
      requires Valid() && |output| >= 2
      modifies this
      ensures Valid()
      ensures CurrentPose() == Move(maths, old(CurrentPose()), output)
      ensures health == old(health) && foods == old(foods) && childs == old(childs) && age == old(age)
    {
      TurnKeepsStepAngle(angle, output[1]);
      ghost var target := Move(maths, CurrentPose(), output);
      if output[0] > 0.0 {
        var tmpPos := [direction[0] * SPEED, direction[1] * SPEED];
        UpdateLocation(Some(location.x - tmpPos[0]), Some(location.y - tmpPos[1]));
      } else if output[0] < 0.0 {
        var tmpPos := [direction[0] * (SPEED / 2.0), direction[1] * (SPEED / 2.0)];
        UpdateLocation(Some(location.x + tmpPos[0]), Some(location.y + tmpPos[1]));
      }
      assert location == target.location;
      if output[1] > 0.0 {
        angle := (angle - ROTATION_SPEED) % 360;
        SetDirection();
      } else if output[1] < 0.0 {
        angle := (angle + ROTATION_SPEED) % 360;
        SetDirection();
      }
    }

    /**
     * `update_creature_properties()`: one more fitness point and 0.5 less
     * health, and a kill (health exactly 0) once the health is no longer
     * positive.
     */
    method UpdateCreatureProperties()
      modifies this, brain
      ensures brain.fitness == old(brain.fitness) + 1
      ensures health == Decayed(old(health), DECAY, HEALTH_CAP)
      ensures CurrentPose() == old(CurrentPose()) && limits == old(limits) && direction == old(direction)
      ensures foods == old(foods) && childs == old(childs) && age == old(age)
    {
      UpdateFitness(1);
      UpdateHealth(-DECAY);
      if health <= 0.0 {
        Kill();
      }
    }

    /** `kill()`: health becomes exactly 0. */
    method Kill()
      modifies this
      ensures health == 0.0
      ensures CurrentPose() == old(CurrentPose()) && limits == old(limits) && direction == old(direction)
      ensures foods == old(foods) && childs == old(childs) && age == old(age)
    {
      health := 0.0;
    }

    /**
     * `eat(food)`: the energy is added (capped at 200), the eaten count goes
     * up by one and, from the second food on, a child is added.
     */
    method Eat(food: Foods.Food)
      modifies this
      ensures health == Capped(old(health), food.energy as real, HEALTH_CAP)
      ensures foods == old(foods) + 1
      ensures childs == old(childs) + if foods >= 2 then [MutatedCopyOf(brain.id)] else []
      ensures CurrentPose() == old(CurrentPose()) && limits == old(limits) && direction == old(direction)
      ensures age == old(age)
    {
      UpdateHealth(food.energy as real);
      foods := foods + 1;
      if foods >= 2 {
        Reproduce();
      }
    }

    /** `reproduce()`: one more child, a mutated copy of the brain. */
    method Reproduce()
      modifies this
      ensures childs == old(childs) + [MutatedCopyOf(brain.id)]
      ensures health == old(health) && foods == old(foods) && CurrentPose() == old(CurrentPose())
      ensures limits == old(limits) && direction == old(direction) && age == old(age)
    {
      childs := childs + [MutatedCopyOf(brain.id)];
    }

    /** `birth()`: the children are handed over and the list is emptied. */
    method Birth()
      modifies this
      ensures childs == []
      ensures health == old(health) && foods == old(foods) && CurrentPose() == old(CurrentPose())
      ensures limits == old(limits) && direction == old(direction) && age == old(age)
    {
      childs := [];
    }

    /** `info_to_vec(others)`: the coordinates of the first nearest item when it is a food, an error otherwise. */
    method InfoToVec(others: seq<Seen>) returns (result: Result<seq<real>, PerceptionError>)
      ensures var seen := NearestFood(maths, location, others);
        result == if seen.Success? then Success([seen.value.x, seen.value.y]) else Failure(seen.error)
      ensures result.Success? ==> |result.value| == 2
    {
      var k := Nearest(maths, location, others);
      if k != -1 && others[k].kind == FoodKind {
        result := Success([others[k].location.x, others[k].location.y]);
      } else {
        result := Failure(NotAFood);
      }
    }
  }
}
