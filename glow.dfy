/**
 * `Glow`: the additive halo around the planet, as far as `Planet.renderScene` reaches it. Its
 * shader material declares the uniforms `c`, `p`, `glowColor` and `viewVector`; `randomize`
 * draws a new colour and then writes it to a uniform named `color`, which the material does not
 * declare, so that write throws.
 */
module Glow {
  import opened Wrappers
  import opened Three
  import opened Rng

  /** A uniform's value: a number, a colour, or the camera-relative view vector (not followed). */
  datatype GlowValue = Scalar(x: real) | Tint(color: Color) | ViewVector

  /** The uniforms the material is created with. */
  function InitialUniforms(): (u: map<string, GlowValue>)
    ensures u.Keys == {"c", "p", "glowColor", "viewVector"}
    ensures u["c"] == Scalar(1.0) && u["p"] == Scalar(1.4) && u["glowColor"] == Tint(Color(0.0, 1.0, 1.0))
  {
    map["c" := Scalar(1.0), "p" := Scalar(1.4), "glowColor" := Tint(Color(0.0, 1.0, 1.0)),
        "viewVector" := ViewVector]
  }

  /** `randomizeColor` with draws starting at `k`: the three raw numbers, unscaled. */
  function RawColor(s: nat -> real, k: nat): (c: Color)
    requires UnitStream(s)
    ensures 0.0 <= c.r < 1.0 && 0.0 <= c.g < 1.0 && 0.0 <= c.b < 1.0
    ensures c == Color(s(k), s(k + 1), s(k + 2))
  {
    Color(s(k), s(k + 1), s(k + 2))
  }

  class Glow {
    var c: real
    var p: real
    var color: Color
    var uniforms: map<string, GlowValue>

    ghost predicate Valid()
      reads this`uniforms
    {
      uniforms.Keys == {"c", "p", "glowColor", "viewVector"}
    }

    /** The constructor draws its first colour, then builds the material. */
    constructor (rng: Rng)
      requires rng.Valid()
      modifies rng
      ensures Valid() && c == 0.33 && p == 1.27 && uniforms == InitialUniforms()
      ensures color == RawColor(rng.stream, old(rng.cursor)) && rng.cursor == old(rng.cursor) + 3
    {
      c := 0.33;
      p := 1.27;
      var r := rng.Next();
      var g := rng.Next();
      var b := rng.Next();
      color := Color(r, g, b);
      uniforms := InitialUniforms();
    }

    /** `update()`: `c` and `p` are copied into the uniforms (the view vector is not followed). */
    method Update()
      requires Valid()
      modifies this`uniforms
      ensures Valid()
      ensures uniforms == old(uniforms)["c" := Scalar(c)]["p" := Scalar(p)]
    {
      uniforms := uniforms["c" := Scalar(c)];
      uniforms := uniforms["p" := Scalar(p)];
    }

    /** `randomizeColor()`: a new colour from three raw draws. */
    method RandomizeColor(rng: Rng)
      requires rng.Valid()
      modifies this`color, rng
      ensures color == RawColor(rng.stream, old(rng.cursor)) && rng.cursor == old(rng.cursor) + 3
    {
      var r := rng.Next();
      var g := rng.Next();
      var b := rng.Next();
      color := Color(r, g, b);
    }

    /** `mat.uniforms[name].value = v`: it works when `name` is declared, and throws when
        `mat.uniforms[name]` is `undefined`. */
    method SetUniform(name: string, v: GlowValue) returns (o: Outcome)
      modifies this`uniforms
      ensures o.Pass? <==> name in old(uniforms)
      ensures o.Pass? ==> uniforms == old(uniforms)[name := v]
      ensures o.Fail? ==> uniforms == old(uniforms)
    {
      if name !in uniforms {
        return Fail("Cannot set property 'value' of undefined");
      }
      uniforms := uniforms[name := v];
      o := Pass;
    }

    /** `randomize()` as written: the colour is drawn, then the write to `uniforms.color` throws
        and no uniform changes. */
    method Randomize(rng: Rng) returns (o: Outcome)
      requires Valid() && rng.Valid()
      modifies this`color, this`uniforms, rng
      ensures Valid()
      ensures o.Fail?
      ensures color == RawColor(rng.stream, old(rng.cursor)) && rng.cursor == old(rng.cursor) + 3
      ensures uniforms == old(uniforms)
    {
      RandomizeColor(rng);
      o := SetUniform("color", Tint(color));
    }

    /** `randomize()` writing the uniform the material declares for its colour, `glowColor`. */
    method RandomizeCorrected(rng: Rng)
      requires Valid() && rng.Valid()
      modifies this`color, this`uniforms, rng
      ensures Valid()
      ensures color == RawColor(rng.stream, old(rng.cursor)) && rng.cursor == old(rng.cursor) + 3
      ensures uniforms == old(uniforms)["glowColor" := Tint(color)]
    {
      RandomizeColor(rng);
      var o := SetUniform("glowColor", Tint(color));
    }
  }
}
