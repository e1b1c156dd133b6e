/**
 * The first agent variant (`cell.Cell`): decisions `[left, right, up, down,
 * urgency]` are averaged into one displacement, the agent also moves by grid
 * directions, and it is killed on the arena's edge, where its age becomes its
 * fitness.
 */
module CellV1 {
  import opened Wrappers
  import opened Numerics
  import opened Settings
  import opened Base
  import Foods

  /** `DNA.speed`. */
  const SPEED: real := 10.0
  const HEALTH_CAP: real := 200.0

  /** `value * urgency`: one side of a decision weighted by its urgency. */
  function Weighted(value: real, urgency: real): real
  {
    value * urgency
  }

  /** `move * speed / total`: an accumulated move averaged over `total` decisions. */
  function Averaged(move: real, total: nat): real
    requires total > 0
  {
    move * SPEED / total as real
  }

  /** Every decision unpacks into `left, right, up, down, urgency`. */
  ghost predicate WellShaped(decisions: seq<seq<real>>)
  {
    forall i :: 0 <= i < |decisions| ==> |decisions[i]| == 5
  }

  /** The horizontal pull of one decision: `-right * urgency`, `+left * urgency`, or nothing on a tie. */
  function PullX(d: seq<real>): real
    requires |d| == 5
  {
    var left, right, urgency := d[0], d[1], d[4];
    if right > left then -Weighted(right, urgency)
    else if right < left then Weighted(left, urgency)
    else 0.0
  }

  /** The vertical pull of one decision: `-up * urgency`, `+down * urgency`, or nothing on a tie. */
  function PullY(d: seq<real>): real
    requires |d| == 5
  {
    var up, down, urgency := d[2], d[3], d[4];
    if up > down then -Weighted(up, urgency)
    else if up < down then Weighted(down, urgency)
    else 0.0
  }

  /** The sum of the horizontal pulls. */
  function SumX(decisions: seq<seq<real>>): real
    requires WellShaped(decisions)
    decreases |decisions|
  {
    if decisions == [] then 0.0 else SumX(decisions[..|decisions| - 1]) + PullX(decisions[|decisions| - 1])
  }

  /** The sum of the vertical pulls. */
  function SumY(decisions: seq<seq<real>>): real
    requires WellShaped(decisions)
    decreases |decisions|
  {
    if decisions == [] then 0.0 else SumY(decisions[..|decisions| - 1]) + PullY(decisions[|decisions| - 1])
  }

  /** The actions `interpret_decisions` returns: `[0, 0]`, or the averaged pulls times the speed. */
  function Interpreted(decisions: seq<seq<real>>): (actions: seq<real>)
    requires WellShaped(decisions)
    ensures |actions| == 2
    ensures decisions == [] ==> actions == [0.0, 0.0]
  {
    if decisions == [] then [0.0, 0.0]
    else [Averaged(SumX(decisions), |decisions|), Averaged(SumY(decisions), |decisions|)]
  }

  /** A tie between left and right pulls nowhere horizontally; one between up and down nowhere vertically. */
  lemma TiesPullNowhere(d: seq<real>)
    requires |d| == 5
    ensures d[0] == d[1] ==> PullX(d) == 0.0
    ensures d[2] == d[3] ==> PullY(d) == 0.0
    ensures PullX(d) != 0.0 ==> d[0] != d[1] && d[4] != 0.0
  {
  }

  /** Pulls add up over concatenated decision lists. */
  lemma {:induction false} SumAppend(a: seq<seq<real>>, b: seq<seq<real>>)
    requires WellShaped(a) && WellShaped(b)
    ensures WellShaped(a + b)
    ensures SumX(a + b) == SumX(a) + SumX(b)
    ensures SumY(a + b) == SumY(a) + SumY(b)
    decreases |b|
  {
    assert forall i :: 0 <= i < |a + b| ==> (a + b)[i] == if i < |a| then a[i] else b[i - |a|];
    if b == [] {
      assert a + b == a;
    } else {
      var b0 := b[..|b| - 1];
      assert (a + b)[..|a + b| - 1] == a + b0;
      assert forall i :: 0 <= i < |b0| ==> b0[i] == b[i];
      SumAppend(a, b0);
    }
  }

  /** Decisions that tie on both axes leave the agent where it is. */
  lemma {:induction false} AllTiesStandStill(decisions: seq<seq<real>>)
    requires WellShaped(decisions)
    requires forall i :: 0 <= i < |decisions| ==> decisions[i][0] == decisions[i][1] && decisions[i][2] == decisions[i][3]
    ensures SumX(decisions) == 0.0 && SumY(decisions) == 0.0
    ensures Interpreted(decisions) == [0.0, 0.0]
    decreases |decisions|
  {
    if decisions != [] {
      var init := decisions[..|decisions| - 1];
      assert forall i :: 0 <= i < |init| ==> init[i] == decisions[i];
      AllTiesStandStill(init);
      TiesPullNowhere(decisions[|decisions| - 1]);
      assert 0.0 * SPEED / |decisions| as real == 0.0;
    }
  }

  /** A decision whose outputs all lie in [0, 1], as a sigmoid brain emits them. */
  predicate UnitOutputs(d: seq<real>)
  {
    forall k :: 0 <= k < |d| ==> 0.0 <= d[k] <= 1.0
  }

  lemma WeightedBounds(value: real, urgency: real)
    requires 0.0 <= value <= 1.0 && 0.0 <= urgency <= 1.0
    ensures 0.0 <= Weighted(value, urgency) <= 1.0
  {
    if value > 0.0 && urgency > 0.0 {
      ProductPositive(value, urgency);
      if value < 1.0 {
        ProductPositive(1.0 - value, urgency);
        assert (1.0 - value) * urgency == urgency - value * urgency;
      }
    }
  }

  /** With outputs in [0, 1] every decision pulls by at most 1 on each axis, and the sums by at most the count. */
  lemma {:induction false} SumsBounded(decisions: seq<seq<real>>)
    requires WellShaped(decisions)
    requires forall i :: 0 <= i < |decisions| ==> UnitOutputs(decisions[i])
    ensures -(|decisions| as real) <= SumX(decisions) <= |decisions| as real
    ensures -(|decisions| as real) <= SumY(decisions) <= |decisions| as real
    decreases |decisions|
  {
    if decisions != [] {
      var init := decisions[..|decisions| - 1];
      var d := decisions[|decisions| - 1];
      assert forall i :: 0 <= i < |init| ==> init[i] == decisions[i];
      SumsBounded(init);
      assert UnitOutputs(d);
      WeightedBounds(d[0], d[4]);
      WeightedBounds(d[1], d[4]);
      WeightedBounds(d[2], d[4]);
      WeightedBounds(d[3], d[4]);
    }
  }

  lemma AveragedBounds(move: real, total: nat)
    requires total > 0 && -(total as real) <= move <= total as real
    ensures -SPEED <= Averaged(move, total) <= SPEED
  {
    var t := total as real;
    assert move * SPEED <= t * SPEED;
    assert -(t * SPEED) <= move * SPEED;
  }

  /** With outputs in [0, 1] the agent never moves by more than its speed along either axis. */
  lemma ActionsWithinSpeed(decisions: seq<seq<real>>)
    requires WellShaped(decisions)
    requires forall i :: 0 <= i < |decisions| ==> UnitOutputs(decisions[i])
    ensures -SPEED <= Interpreted(decisions)[0] <= SPEED
    ensures -SPEED <= Interpreted(decisions)[1] <= SPEED
  {
    if decisions != [] {
      SumsBounded(decisions);
      AveragedBounds(SumX(decisions), |decisions|);
      AveragedBounds(SumY(decisions), |decisions|);
    }
  }

  /** The agent is on or beyond an edge of the arena. */
  predicate OffArena(p: Point)
  {
    p.x <= 0.0 || p.x >= WIDTH || p.y <= 0.0 || p.y >= HEIGHT
  }

  /** An agent of the first variant. */
  class Cell {
    var location: Point
    var health: real
    var age: int
    const name: int
    const brain: Brain

    /**
     * `Cell(screen, name, brain)`: health 100, a location inside the margins
     * from the draws `ux`, `uy`, age 0 and the brain's fitness reset.
     */
    constructor (name: int, brain: Brain, ux: Unit, uy: Unit)
      modifies brain
      ensures location == Foods.Spawn(ux, uy) && health == 100.0 && age == 0
      ensures this.name == name && this.brain == brain && brain.fitness == 0
    {
      location := Foods.Spawn(ux, uy);
      health := 100.0;
      age := 0;
      this.name := name;
      this.brain := brain;
      new;
      brain.fitness := 0;
    }

    /** `think(inputs)`: the prediction for the location followed by `inputs`. */
    method Think(inputs: seq<real>) returns (output: seq<real>)
      ensures output == brain.predict([location.x, location.y] + inputs)
    {
      output := brain.predict([location.x, location.y] + inputs);
    }

    /**
     * `interpret_decisions(decisions)`: the urgency-weighted pulls of all
     * decisions, averaged and scaled by the speed; `[0, 0]` without decisions.
     */
    method InterpretDecisions(decisions: seq<seq<real>>) returns (actions: seq<real>)
      requires WellShaped(decisions)
      ensures actions == Interpreted(decisions)
    {
      var moveX, moveY, total := 0.0, 0.0, 0;
      for i := 0 to |decisions|
        invariant total == i
        invariant moveX == SumX(decisions[..i]) && moveY == SumY(decisions[..i])
      {
        var d := decisions[i];
        var left, right, up, down, urgency := d[0], d[1], d[2], d[3], d[4];
        total := total + 1;
        if right > left {
          moveX := moveX + -Weighted(right, urgency);
        } else if right < left {
          moveX := moveX + Weighted(left, urgency);
        }
        if up > down {
          moveY := moveY + -Weighted(up, urgency);
        } else if up < down {
          moveY := moveY + Weighted(down, urgency);
        }
        assert decisions[..i + 1][..i] == decisions[..i];
      }
      assert decisions[..|decisions|] == decisions;
      if total != 0 {
        moveX := Averaged(moveX, total);
        moveY := Averaged(moveY, total);
      }
      actions := [moveX, moveY];
    }

    /** `apply_action(actions)`: the location moves by `actions[0]`, `actions[1]`. */
    method ApplyAction(actions: seq<real>)
      requires |actions| >= 2
      modifies this
      ensures location == Point(old(location).x + actions[0], old(location).y + actions[1])
      ensures health == old(health) && age == old(age)
    {
      UpdateLocation(Some(location.x + actions[0]), Some(location.y + actions[1]));
    }

    /**
     * `move(direction)`: one of the four grid directions moves exactly one
     * coordinate by the speed in that direction's sign; any other vector
     * moves nothing.
     */
    method Move(direction: Direction)
      modifies this
      ensures direction == UP ==> location == Point(old(location).x, old(location).y - SPEED)
      ensures direction == DOWN ==> location == Point(old(location).x, old(location).y + SPEED)
      ensures direction == LEFT ==> location == Point(old(location).x - SPEED, old(location).y)
      ensures direction == RIGHT ==> location == Point(old(location).x + SPEED, old(location).y)
      ensures direction !in {UP, DOWN, LEFT, RIGHT} ==> location == old(location)
      ensures health == old(health) && age == old(age)
    {
      if direction == UP {
        UpdateLocation(Some(location.x), Some(location.y + SPEED * direction.y as real));
      }
      if direction == LEFT {
        UpdateLocation(Some(location.x + SPEED * direction.x as real), Some(location.y + direction.y as real));
      }
      if direction == DOWN {
        UpdateLocation(Some(location.x + direction.x as real), Some(location.y + SPEED * direction.y as real));
      }
      if direction == RIGHT {
        UpdateLocation(Some(location.x + SPEED * direction.x as real), Some(location.y + direction.y as real));
      }
    }

    /** `update_location(**kwargs)`: the coordinates given replace the old ones, the others stay. */
    method UpdateLocation(x: Option<real>, y: Option<real>)
      modifies this
      ensures location == Point(x.GetOr(old(location).x), y.GetOr(old(location).y))
      ensures health == old(health) && age == old(age)
    {
      location := Point(x.GetOr(location.x), y.GetOr(location.y));
    }

    /** `update_health(delta)`: the health moves by `delta`, capped at 200. */
    method UpdateHealth(delta: real)
      modifies this
      ensures health == Capped(old(health), delta, HEALTH_CAP)
      ensures location == old(location) && age == old(age)
    {
      health := Capped(health, delta, HEALTH_CAP);
    }

    /** `update_fitness(fitness)`: adds `fitness` to the brain's fitness. */
    method UpdateFitness(fitness: int)
      modifies brain
      ensures brain.fitness == old(brain.fitness) + fitness
    {
      brain.fitness := brain.fitness + fitness;
    }

    /**
     * `update_creature_properties()`: one year older, and killed when on or
     * beyond an edge or out of health; otherwise health and fitness stay.
     */
    method UpdateCreatureProperties()
      modifies this, brain
      ensures age == old(age) + 1 && location == old(location)
      ensures OffArena(location) || old(health) <= 0.0 ==> health == 0.0 && brain.fitness == age
      ensures !(OffArena(location) || old(health) <= 0.0) ==>
        health == old(health) && brain.fitness == old(brain.fitness)
    {
      age := age + 1;
      if location.x <= 0.0 || location.x >= WIDTH || location.y <= 0.0 || location.y >= HEIGHT {
        Kill();
      }
      if health <= 0.0 {
        Kill();
      }
    }

    /**
     * `kill()`: health exactly 0 and the age saved as the brain's fitness;
     * both values depend only on the age, so a second kill changes nothing.
     */
    method Kill()
      modifies this, brain
      ensures health == 0.0 && brain.fitness == age
      ensures location == old(location) && age == old(age)
    {
      health := 0.0;
      brain.fitness := age;
    }

    /** `eat(food)`: the energy is added, capped at 200. */
    method Eat(food: Foods.Food)
      modifies this
      ensures health == Capped(old(health), food.energy as real, HEALTH_CAP)
      ensures location == old(location) && age == old(age)
    {
      UpdateHealth(food.energy as real);
    }
  }
}
