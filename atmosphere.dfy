/**
 * `Atmosphere` (the scene object): a shell whose shader reads a clock, five shape parameters, an
 * alpha and a colour. `update` only advances the clock; `updateMaterial` copies the clock and
 * the parameters into the uniforms; `randomize` draws new shape parameters and a new colour and
 * ends by copying them.
 */
module Atmosphere {
  import opened Three
  import opened Rng

  /** `this.params`. */
  datatype AtmosphereParams = AtmosphereParams(visible: bool, speed: real, color: Color, opacity: real,
                                               atmo1: real, atmo2: real, atmo3: real, atmo4: real,
                                               atmo5: real)

  /** The shader material's uniforms: `time`, `atmo1` .. `atmo5`, `alpha`, `color`. */
  datatype AtmosphereUniforms = AtmosphereUniforms(time: real, atmo1: real, atmo2: real, atmo3: real,
                                                   atmo4: real, atmo5: real, alpha: real, color: Color)

  /** The constructor's settings: cyan at opacity 0.31, clock speed 0.1. */
  function InitialParams(): (p: AtmosphereParams)
    ensures p.visible && p.speed == 0.1 && p.color == Color(0.0, 1.0, 1.0) && p.opacity == 0.31
    ensures p.atmo1 == 0.5 && p.atmo2 == 0.5 && p.atmo3 == 1.0 && p.atmo4 == 0.25 && p.atmo5 == 0.01
  {
    AtmosphereParams(true, 0.1, Color(0.0, 1.0, 1.0), 0.31, 0.5, 0.5, 1.0, 0.25, 0.01)
  }

  /** The uniforms agree with the clock and the parameters (opacity is the shader's `alpha`). */
  predicate Synced(u: AtmosphereUniforms, time: real, p: AtmosphereParams)
  {
    && u.time == time && u.atmo1 == p.atmo1 && u.atmo2 == p.atmo2 && u.atmo3 == p.atmo3
    && u.atmo4 == p.atmo4 && u.atmo5 == p.atmo5 && u.alpha == p.opacity && u.color == p.color
  }

  /** The five shape draws starting at `k`: `atmo1` .. `atmo4` in [0, 1), `atmo5` in [0.1, 2.0). */
  function ShapeDrawn(p: AtmosphereParams, s: nat -> real, k: nat): (r: AtmosphereParams)
    requires UnitStream(s)
    ensures 0.0 <= r.atmo1 < 1.0 && 0.0 <= r.atmo2 < 1.0 && 0.0 <= r.atmo3 < 1.0 && 0.0 <= r.atmo4 < 1.0
    ensures 0.1 <= r.atmo5 < 2.0
    ensures r.color == p.color && r.speed == p.speed && r.opacity == p.opacity && r.visible == p.visible
  {
    p.(atmo1 := Draw(s, k, 0.0, 1.0), atmo2 := Draw(s, k + 1, 0.0, 1.0),
       atmo3 := Draw(s, k + 2, 0.0, 1.0), atmo4 := Draw(s, k + 3, 0.0, 1.0),
       atmo5 := Draw(s, k + 4, 0.1, 2.0))
  }

  /** The three colour draws starting at `k`, each channel in [0.5, 1.0). */
  function ColorDrawn(p: AtmosphereParams, s: nat -> real, k: nat): (r: AtmosphereParams)
    requires UnitStream(s)
    ensures 0.5 <= r.color.r < 1.0 && 0.5 <= r.color.g < 1.0 && 0.5 <= r.color.b < 1.0
    ensures r == p.(color := r.color)
  {
    p.(color := Color(Draw(s, k, 0.5, 1.0), Draw(s, k + 1, 0.5, 1.0), Draw(s, k + 2, 0.5, 1.0)))
  }

  /** `params` after `randomize` with draws starting at `k`: the shape, then the colour. Speed,
      opacity and visibility are kept. */
  function Randomized(p: AtmosphereParams, s: nat -> real, k: nat): (r: AtmosphereParams)
    requires UnitStream(s)
    ensures 0.0 <= r.atmo1 < 1.0 && 0.0 <= r.atmo2 < 1.0 && 0.0 <= r.atmo3 < 1.0 && 0.0 <= r.atmo4 < 1.0
    ensures 0.1 <= r.atmo5 < 2.0
    ensures 0.5 <= r.color.r < 1.0 && 0.5 <= r.color.g < 1.0 && 0.5 <= r.color.b < 1.0
    ensures r.speed == p.speed && r.opacity == p.opacity && r.visible == p.visible
  {
    ColorDrawn(ShapeDrawn(p, s, k), s, k + 5)
  }

  /** The randomized parameters depend only on the eight draws they are made of. */
  lemma RandomizedLocal(p: AtmosphereParams, s: nat -> real, t: nat -> real, k: nat)
    requires UnitStream(s) && UnitStream(t) && AgreeOn(s, t, k, 8)
    ensures Randomized(p, s, k) == Randomized(p, t, k)
  {
    assert s(k) == t(k) && s(k + 1) == t(k + 1) && s(k + 2) == t(k + 2) && s(k + 3) == t(k + 3);
    assert s(k + 4) == t(k + 4) && s(k + 5) == t(k + 5) && s(k + 6) == t(k + 6) && s(k + 7) == t(k + 7);
  }

  class Atmosphere {
    var time: real
    var params: AtmosphereParams
    var uniforms: AtmosphereUniforms

    constructor ()
      ensures time == 0.0 && params == InitialParams() && Synced(uniforms, time, params)
    {
      time := 0.0;
      params := InitialParams();
      var p := InitialParams();
      uniforms := AtmosphereUniforms(0.0, p.atmo1, p.atmo2, p.atmo3, p.atmo4, p.atmo5, p.opacity, p.color);
    }

    /** `update()`: the clock advances by `speed`; no uniform is written. */
    method Update()
      modifies this`time
      ensures time == old(time) + params.speed
    {
      time := time + params.speed;
    }

    /** `updateMaterial()`: the clock and every parameter are copied into the uniforms. */
    method UpdateMaterial()
      modifies this`uniforms
      ensures Synced(uniforms, time, params)
    {
      uniforms := uniforms.(time := time);
      uniforms := uniforms.(atmo1 := params.atmo1, atmo2 := params.atmo2, atmo3 := params.atmo3);
      uniforms := uniforms.(atmo4 := params.atmo4, atmo5 := params.atmo5);
      uniforms := uniforms.(alpha := params.opacity, color := params.color);
    }

    /** `randomizeColor()`: three draws for the colour, then `updateMaterial`. */
    method RandomizeColor(rng: Rng)
      requires rng.Valid()
      modifies this`params, this`uniforms, rng
      ensures params == ColorDrawn(old(params), rng.stream, old(rng.cursor))
      ensures rng.cursor == old(rng.cursor) + 3
      ensures Synced(uniforms, time, params)
    {
      var r := rng.RandRange(0.5, 1.0);
      var g := rng.RandRange(0.5, 1.0);
      var b := rng.RandRange(0.5, 1.0);
      params := params.(color := Color(r, g, b));
      UpdateMaterial();
    }

    /** `randomize()`: five shape draws, then `randomizeColor`; eight draws in all, after which
        the uniforms show the new parameters. */
    method Randomize(rng: Rng)
      requires rng.Valid()
      modifies this`params, this`uniforms, rng
      ensures params == Randomized(old(params), rng.stream, old(rng.cursor))
      ensures rng.cursor == old(rng.cursor) + 8
      ensures Synced(uniforms, time, params)
    {
      RandomizeShape(rng);
      RandomizeColor(rng);
    }

    /** The first five draws of `randomize`, one per shape parameter. */
    method RandomizeShape(rng: Rng)
      requires rng.Valid()
      modifies this`params, rng
      ensures params == ShapeDrawn(old(params), rng.stream, old(rng.cursor))
      ensures rng.cursor == old(rng.cursor) + 5
    {
      var a1 := rng.RandRange(0.0, 1.0);
      var a2 := rng.RandRange(0.0, 1.0);
      var a3 := rng.RandRange(0.0, 1.0);
      var a4 := rng.RandRange(0.0, 1.0);
      var a5 := rng.RandRange(0.1, 2.0);
      params := params.(atmo1 := a1, atmo2 := a2, atmo3 := a3, atmo4 := a4, atmo5 := a5);
    }
  }
}
