/**
 * Food: a consumable point with a fixed energy value and a name, which
 * respawns in place (same object, new random location) when eaten.
 */
module Foods {
  import opened Wrappers
  import opened Numerics
  import opened Settings

  /** The energy every food is created with. */
  const FOOD_ENERGY: int := 20

  /** The arena less its margin on every side: where `uniform` places new things. */
  predicate InMargins(p: Point)
  {
    MARGIN <= p.x < WIDTH - MARGIN && MARGIN <= p.y < HEIGHT - MARGIN
  }

  /**
   * The location `Location(x=uniform(MARGIN, WIDTH - MARGIN), y=uniform(MARGIN,
   * HEIGHT - MARGIN))` made from the two draws `ux`, `uy` of `random()`.
   */
  function Spawn(ux: Unit, uy: Unit): (p: Point)
    ensures InMargins(p)
  {
    Point(Uniform(MARGIN, WIDTH - MARGIN, ux), Uniform(MARGIN, HEIGHT - MARGIN, uy))
  }

  /** Every location inside the margins is the spawn of some pair of draws. */
  lemma SpawnReachesEveryPoint(p: Point)
    requires InMargins(p)
    ensures exists ux: Unit, uy: Unit :: Spawn(ux, uy) == p
  {
    var ux: Unit := (p.x - MARGIN) / (WIDTH - 2.0 * MARGIN);
    var uy: Unit := (p.y - MARGIN) / (HEIGHT - 2.0 * MARGIN);
    assert Spawn(ux, uy) == p;
  }

  // ---------------------------------------------------------------------------
  // str(name)

  /** The decimal digit for `d`. */
  function Digit(d: int): char
    requires 0 <= d < 10
  {
    "0123456789"[d]
  }

  /** `str(n)` for a natural number: its decimal digits, most significant first. */
  function NatToString(n: nat): (s: string)
    ensures |s| >= 1
    ensures (|s| == 1) == (n < 10)
    ensures forall i :: 0 <= i < |s| ==> '0' <= s[i] <= '9'
  {
    if n < 10 then [Digit(n)] else NatToString(n / 10) + [Digit(n % 10)]
  }

  /** `str(n)` for any integer. */
  function Str(n: int): (s: string)
    ensures |s| >= 1
    ensures (s[0] == '-') == (n < 0)
  {
    if n < 0 then "-" + NatToString(-n) else NatToString(n)
  }

  lemma DigitInjective(a: int, b: int)
    requires 0 <= a < 10 && 0 <= b < 10
    ensures Digit(a) == Digit(b) ==> a == b
  {
  }

  /** Different numbers have different decimal names. */
  lemma {:induction false} NatToStringInjective(a: nat, b: nat)
    ensures NatToString(a) == NatToString(b) ==> a == b
  {
    if NatToString(a) == NatToString(b) && a >= 10 && b >= 10 {
      var sa, sb := NatToString(a), NatToString(b);
      assert sa[|sa| - 1] == sb[|sb| - 1];
      DigitInjective(a % 10, b % 10);
      assert sa[..|sa| - 1] == NatToString(a / 10);
      assert sb[..|sb| - 1] == NatToString(b / 10);
      NatToStringInjective(a / 10, b / 10);
    } else if NatToString(a) == NatToString(b) && a < 10 && b < 10 {
      DigitInjective(a, b);
    }
  }

  lemma StrInjective(a: int, b: int)
    ensures Str(a) == Str(b) ==> a == b
  {
    if Str(a) == Str(b) {
      if a < 0 && b < 0 {
        assert Str(a)[1..] == NatToString(-a);
        assert Str(b)[1..] == NatToString(-b);
        NatToStringInjective(-a, -b);
      } else if a >= 0 && b >= 0 {
        NatToStringInjective(a, b);
      }
    }
  }

  // ---------------------------------------------------------------------------
  // Food

  /** A piece of food in the arena. */
  class Food {
    var location: Point
    const energy: int
    const color: Rgb
    const name: string

    /**
     * `Food(screen, color, name, position)`. Two draws of `random()` place it
     * in the margins; a non-empty `position` then overrides the location. A
     * `position` of one element makes the source fail on `position[1]`.
     */
    constructor (color: Rgb, name: int, position: seq<real>, ux: Unit, uy: Unit)
      requires |position| != 1
      ensures location == if position == [] then Spawn(ux, uy) else Point(position[0], position[1])
      ensures energy == FOOD_ENERGY && this.color == color && this.name == Str(name)
    {
      location := Spawn(ux, uy);
      energy := FOOD_ENERGY;
      this.color := color;
      this.name := Str(name);
      new;
      if position != [] {
        UpdateLocation(Some(position[0]), Some(position[1]));
      }
    }

    /** `respawn()`: a fresh location inside the margins; nothing else changes. */
    method Respawn(ux: Unit, uy: Unit)
      modifies this
      ensures location == Spawn(ux, uy)
      ensures InMargins(location)
    {
      location := Spawn(ux, uy);
    }

    /** `update_location(**kwargs)`: the coordinates given replace the old ones, the others stay. */
    method UpdateLocation(x: Option<real>, y: Option<real>)
      modifies this
      ensures location == Point(x.GetOr(old(location).x), y.GetOr(old(location).y))
    {
      location := Point(x.GetOr(location.x), y.GetOr(location.y));
    }
  }
}
