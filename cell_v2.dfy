/**
 * The second agent variant (`cell_v2.Mob`): a steering agent with a position,
 * a velocity and an acceleration as plane vectors, that wraps around the
 * arena's edges and copies its position into its location after each step.
 */
module CellV2 {
  import opened Wrappers
  import opened Numerics
  import opened Settings
  import opened Base
  import Foods

  /** `DNA.speed`: the largest length of the velocity. */
  const SPEED: real := 1.0
  /** `DNA.size`: the position starts half of it right of and below the location. */
  const SIZE: real := 32.0
  const HEALTH_CAP: real := 100.0

  /** A `pygame.math.Vector2`. */
  datatype Vec2 = Vec2(x: real, y: real)
  {
    function Plus(other: Vec2): Vec2
    {
      Vec2(x + other.x, y + other.y)
    }
  }

  /** The vector operations the agent uses but does not compute itself. */
  datatype VectorLib = VectorLib(
    length: Vec2 -> real,
    scaleToLength: (Vec2, real) -> Vec2,
    rotate: (Vec2, real) -> Vec2,
    seekWithApproach: (Vec2, Vec2, Vec2) -> Vec2)
  {
    /** A length is never negative, and `scale_to_length` does what it says on a non-zero vector. */
    ghost predicate Lawful()
    {
      && (forall v :: length(v) >= 0.0)
      && (forall v, l :: length(v) > 0.0 && l >= 0.0 ==> length(scaleToLength(v, l)) == l)
    }
  }

  /** Vector operations that obey the laws. */
  type Vectors = lib: VectorLib | lib.Lawful()
    witness VectorLib(v => 0.0, (v, l) => v, (v, a) => v, (p, v, t) => v)

  /**
   * The wrap-around of one coordinate: beyond the far edge it becomes 0, and
   * then below 0 it becomes the far edge.
   */
  function Wrap(c: real, hi: real): (w: real)
    requires hi >= 0.0
    ensures 0.0 <= w <= hi
    ensures c > hi ==> w == 0.0
    ensures c < 0.0 ==> w == hi
    ensures 0.0 <= c <= hi ==> w == c
  {
    var c1 := if c > hi then 0.0 else c;
    if c1 < 0.0 then hi else c1
  }

  /** The moving part of the agent. */
  datatype Body = Body(pos: Vec2, vel: Vec2, acc: Vec2)

  /**
   * One action of `update`: steer towards `target`, add the steering to the
   * velocity, bring the velocity back to the speed if it is longer, move by
   * it, and wrap the position around the arena.
   */
  function Step(lib: Vectors, b: Body, target: Vec2): Body
  {
    var acc := lib.seekWithApproach(b.pos, b.vel, target);
    var vel := b.vel.Plus(acc);
    var vel' := if lib.length(vel) > SPEED then lib.scaleToLength(vel, SPEED) else vel;
    var pos := b.pos.Plus(vel');
    Body(Vec2(Wrap(pos.x, WIDTH), Wrap(pos.y, HEIGHT)), vel', acc)
  }

  /** The body after all the actions, in order. */
  function Stepped(lib: Vectors, b: Body, targets: seq<Vec2>): Body
    decreases |targets|
  {
    if targets == [] then b
    else Step(lib, Stepped(lib, b, targets[..|targets| - 1]), targets[|targets| - 1])
  }

  /** After at least one action the position is inside the arena and the velocity no longer than the speed. */
  lemma {:induction false} SteppedBounds(lib: Vectors, b: Body, targets: seq<Vec2>)
    requires targets != []
    ensures var s := Stepped(lib, b, targets);
      0.0 <= s.pos.x <= WIDTH && 0.0 <= s.pos.y <= HEIGHT && lib.length(s.vel) <= SPEED
  {
    var prior := Stepped(lib, b, targets[..|targets| - 1]);
    var vel := prior.vel.Plus(lib.seekWithApproach(prior.pos, prior.vel, targets[|targets| - 1]));
    if lib.length(vel) > SPEED {
      assert lib.length(lib.scaleToLength(vel, SPEED)) == SPEED;
    }
  }

  /** A steering agent. */
  class Mob {
    var pos: Vec2
    var vel: Vec2
    var acc: Vec2
    var location: Point
    var health: real
    const name: int
    const brain: Brain

    /** The moving part of the state. */
    function Motion(): Body
      reads this
    {
      Body(pos, vel, acc)
    }

    /**
     * `Mob(screen, name, brain)`: health 100, a location inside the margins
     * from the draws `ux`, `uy`, the position half a size away from it, and
     * the velocity `(speed, 0)` rotated by `uniform(0, 360)` from `ur`.
     */
    constructor (lib: Vectors, name: int, brain: Brain, ux: Unit, uy: Unit, ur: Unit)
      modifies brain
      ensures location == Foods.Spawn(ux, uy) && health == 100.0
      ensures pos == Vec2(location.x + SIZE / 2.0, location.y + SIZE / 2.0)
      ensures vel == lib.rotate(Vec2(SPEED, 0.0), Uniform(0.0, 360.0, ur)) && acc == Vec2(0.0, 0.0)
      ensures this.name == name && this.brain == brain && brain.fitness == 0
    {
      var p := Foods.Spawn(ux, uy);
      location := p;
      health := 100.0;
      pos := Vec2(p.x + SIZE / 2.0, p.y + SIZE / 2.0);
      vel := lib.rotate(Vec2(SPEED, 0.0), Uniform(0.0, 360.0, ur));
      acc := Vec2(0.0, 0.0);
      this.name := name;
      this.brain := brain;
      new;
      brain.fitness := 0;
    }

    /**
     * `update(target)`: the actions in order; afterwards the location is the
     * position, which lies inside the arena, and the velocity is no longer
     * than the speed.
     */
    method Update(lib: Vectors, targets: seq<Vec2>)
      modifies this
      ensures Motion() == Stepped(lib, old(Motion()), targets)
      ensures targets == [] ==> location == old(location)
      ensures targets != [] ==> location == Point(pos.x, pos.y)
      ensures targets != [] ==> 0.0 <= pos.x <= WIDTH && 0.0 <= pos.y <= HEIGHT && lib.length(vel) <= SPEED
      ensures health == old(health)
    {
      for i := 0 to |targets|
        invariant Motion() == Stepped(lib, old(Motion()), targets[..i])
        invariant i == 0 ==> location == old(location)
        invariant i > 0 ==> location == Point(pos.x, pos.y)
        invariant health == old(health)
      {
        var action := targets[i];
        acc := lib.seekWithApproach(pos, vel, action);
        vel := vel.Plus(acc);
        if lib.length(vel) > SPEED {
          vel := lib.scaleToLength(vel, SPEED);
        }
        pos := pos.Plus(vel);
        if pos.x > WIDTH {
          pos := pos.(x := 0.0);
        }
        if pos.x < 0.0 {
          pos := pos.(x := WIDTH);
        }
        if pos.y > HEIGHT {
          pos := pos.(y := 0.0);
        }
        if pos.y < 0.0 {
          pos := pos.(y := HEIGHT);
        }
        UpdateLocation(Some(pos.x), Some(pos.y));
        assert targets[..i + 1][..i] == targets[..i];
      }
      assert targets[..|targets|] == targets;
      if targets != [] {
        SteppedBounds(lib, old(Motion()), targets);
      }
    }

    /** `think(inputs)`: the location of the thing seen, as a list. */
    method Think(inputs: Seen) returns (output: seq<real>)
      ensures output == [inputs.location.x, inputs.location.y]
    {
      output := [inputs.location.x, inputs.location.y];
    }

    /** `update_health(delta)`: the health moves by `delta`, capped at 100. */
    method UpdateHealth(delta: real)
      modifies this
      ensures health == Capped(old(health), delta, HEALTH_CAP)
      ensures Motion() == old(Motion()) && location == old(location)
    {
      health := Capped(health, delta, HEALTH_CAP);
    }

    /** `update_fitness(fitness)`: adds `fitness` to the brain's fitness. */
    method UpdateFitness(fitness: int)
      modifies brain
      ensures brain.fitness == old(brain.fitness) + fitness
    {
      brain.fitness := brain.fitness + fitness;
    }

    /** `update_location(**kwargs)`: the coordinates given replace the old ones, the others stay. */
    method UpdateLocation(x: Option<real>, y: Option<real>)
      modifies this
      ensures location == Point(x.GetOr(old(location).x), y.GetOr(old(location).y))
      ensures Motion() == old(Motion()) && health == old(health)
    {
      location := Point(x.GetOr(location.x), y.GetOr(location.y));
    }
  }
}
