/**
 Length arithmetic of block output: output is committed in whole canvases, prompt and context are
 counted in token tiles.
 */
module BlockOutput {
  import opened Runtime

  const TILE := 32

  /** Python's `//` by a positive divisor rounds down, as Dafny's does. */
  function RoundUp(n: int, unit: int): int
    requires unit > 0
  {
    (n + unit - 1) / unit * unit
  }

  function RoundDown(n: int, unit: int): int
    requires unit > 0
  {
    n / unit * unit
  }

  /** `_aligned_block_output_remaining`. */
  function Remaining(promptLen: nat, maxModelLen: int): int {
    RoundDown(maxModelLen, TILE) - RoundUp(promptLen, TILE)
  }

  /** `_physical_block_output_tokens`. */
  function Physical(maxTokens: int, canvas: int): int
    requires canvas > 0
  {
    Max(canvas, RoundUp(maxTokens, canvas))
  }

  function MaxFit(promptLen: nat, canvas: int, maxModelLen: int): int
    requires canvas > 0
  {
    Max(0, RoundDown(Remaining(promptLen, maxModelLen), canvas))
  }

  /** `_fit_block_output_max_tokens`. */
  function Fit(promptLen: nat, requested: Option<int>, canvas: int, maxModelLen: int): int
    requires canvas > 0
  {
    if requested.None? then MaxFit(promptLen, canvas, maxModelLen)
    else if Physical(requested.value, canvas) <= Remaining(promptLen, maxModelLen) then requested.value
    else MaxFit(promptLen, canvas, maxModelLen)
  }

  datatype LengthError = ExceedsContext(promptLen: nat, physical: int)

  /** `_resolve_block_output_max_tokens`. */
  function Resolve(promptLen: nat, requested: Option<int>, canvas: int, maxModelLen: int): Result<int, LengthError>
    requires canvas > 0
  {
    var maxTokens := if requested.Some? then requested.value else MaxFit(promptLen, canvas, maxModelLen);
    if Physical(maxTokens, canvas) > Remaining(promptLen, maxModelLen) then Err(ExceedsContext(promptLen, Physical(maxTokens, canvas)))
    else Ok(maxTokens)
  }

  /** `_min_block_output_max_model_len`. */
  function MinModelLen(canvas: int): int
    requires canvas > 0
  {
    RoundUp(TILE + canvas, TILE)
  }

  // ----- rounding -----

  lemma Multiples(unit: int, a: int, b: int)
    requires unit > 0
    ensures a <= b ==> a * unit <= b * unit
    ensures a < b ==> a * unit + unit <= b * unit
  {
    if a < b {
      assert (a + 1) * unit <= b * unit;
    }
  }

  /** Rounding down gives the largest multiple that is not above, rounding up the smallest not below. */
  lemma Rounding(n: int, unit: int, k: int)
    requires unit > 0
    ensures RoundDown(n, unit) <= n < RoundDown(n, unit) + unit
    ensures RoundUp(n, unit) - unit < n <= RoundUp(n, unit)
    ensures k * unit <= n <==> k * unit <= RoundDown(n, unit)
    ensures k * unit >= n <==> k * unit >= RoundUp(n, unit)
  {
    var down, up := n / unit, (n + unit - 1) / unit;
    assert n == unit * down + n % unit && n + unit - 1 == unit * up + (n + unit - 1) % unit;
    Multiples(unit, k, down);
    Multiples(unit, down, k);
    Multiples(unit, k, up);
    Multiples(unit, up, k);
  }

  // ----- what the limits mean -----

  /** The budget is the largest whole number of canvases that fits, 0 when none does. */
  lemma MaxFitIsLargest(promptLen: nat, canvas: int, maxModelLen: int, k: nat)
    requires canvas > 0
    ensures var fit := MaxFit(promptLen, canvas, maxModelLen);
            && (k * canvas <= Max(0, Remaining(promptLen, maxModelLen)) <==> k * canvas <= fit)
            && 0 <= fit <= Max(0, Remaining(promptLen, maxModelLen)) && exists m: nat :: fit == m * canvas
  {
    var remaining := Remaining(promptLen, maxModelLen);
    Rounding(remaining, canvas, k);
    var m := remaining / canvas;
    Multiples(canvas, m, 0);
    Multiples(canvas, 0, m);
    Multiples(canvas, 0, k);
    Multiples(canvas, k, 0);
    var fit := MaxFit(promptLen, canvas, maxModelLen);
    var count: nat := if m >= 0 then m else 0;
    assert fit == count * canvas;
  }

  /** A budget of whole canvases is its own physical size. */
  lemma PhysicalOfMaxFit(promptLen: nat, canvas: int, maxModelLen: int)
    requires canvas > 0
    ensures var fit := MaxFit(promptLen, canvas, maxModelLen);
            && Physical(fit, canvas) == Max(canvas, fit)
            && (Physical(fit, canvas) <= Remaining(promptLen, maxModelLen) <==> fit > 0)
  {
    var remaining := Remaining(promptLen, maxModelLen);
    MaxFitIsLargest(promptLen, canvas, maxModelLen, 1);
    var fit := MaxFit(promptLen, canvas, maxModelLen);
    var m: nat :| fit == m * canvas;
    Rounding(fit, canvas, m);
    Rounding(remaining, canvas, 1);
    Multiples(canvas, 0, m);
    Multiples(canvas, m, 0);
  }

  /** The fitted limit never exceeds the request, except that a negative request a canvas does not fit
      beside becomes 0. */
  lemma FitWithinRequestExactly(promptLen: nat, requested: int, canvas: int, maxModelLen: int)
    requires canvas > 0
    ensures Fit(promptLen, Some(requested), canvas, maxModelLen) <= requested
            <==> requested >= 0 || canvas <= Remaining(promptLen, maxModelLen)
  {
    var remaining := Remaining(promptLen, maxModelLen);
    var fit := MaxFit(promptLen, canvas, maxModelLen);
    Rounding(requested, canvas, 0);
    RefusedIsAbove(promptLen, requested, canvas, maxModelLen);
    MaxFitIsLargest(promptLen, canvas, maxModelLen, 1);
  }

  /** A refused positive request is above every budget that fits. */
  lemma RefusedIsAbove(promptLen: nat, requested: int, canvas: int, maxModelLen: int)
    requires canvas > 0
    ensures requested > 0 && Physical(requested, canvas) > Remaining(promptLen, maxModelLen) ==>
              MaxFit(promptLen, canvas, maxModelLen) < requested
    ensures requested <= 0 ==> Physical(requested, canvas) == canvas
  {
    MaxFitIsLargest(promptLen, canvas, maxModelLen, 1);
    var fit := MaxFit(promptLen, canvas, maxModelLen);
    var m: nat :| fit == m * canvas;
    PositiveRoundsUp(requested, canvas);
    Rounding(requested, canvas, m);
    BelowRounded(requested, RoundUp(requested, canvas), canvas, fit, Remaining(promptLen, maxModelLen));
  }

  lemma PositiveRoundsUp(n: int, unit: int)
    requires unit > 0
    ensures n > 0 ==> RoundUp(n, unit) >= unit
    ensures n <= 0 ==> RoundUp(n, unit) <= 0
  {
    var up := (n + unit - 1) / unit;
    Multiples(unit, 1, up);
    Multiples(unit, up, 0);
  }

  lemma BelowRounded(requested: int, up: int, canvas: int, fit: int, remaining: int)
    requires canvas > 0 && up - canvas < requested <= up && (requested <= fit ==> up <= fit) && 0 <= fit <= Max(0, remaining)
    ensures requested > 0 && Max(canvas, up) > remaining && up >= canvas ==> fit < requested
  {
  }

  /** A request is left unchanged if and only if `Resolve` accepts it, but for one family: a request of 0
      tokens comes back as 0 where a canvas does not fit, and is rejected there. */
  lemma UnchangedIffAcceptedExactly(promptLen: nat, requested: int, canvas: int, maxModelLen: int)
    requires canvas > 0
    ensures (Fit(promptLen, Some(requested), canvas, maxModelLen) == requested
             <==> Resolve(promptLen, Some(requested), canvas, maxModelLen).Ok?)
            <==> !(requested == 0 && Remaining(promptLen, maxModelLen) < canvas)
  {
    RefusedIsAbove(promptLen, requested, canvas, maxModelLen);
    MaxFitIsLargest(promptLen, canvas, maxModelLen, 1);
    NoRoomForOne(promptLen, canvas, maxModelLen);
    PhysicalIsACanvas(requested, canvas);
    AcceptedExactly(requested, canvas, Physical(requested, canvas), Remaining(promptLen, maxModelLen), MaxFit(promptLen, canvas, maxModelLen));
  }

  lemma NoRoomForOne(promptLen: nat, canvas: int, maxModelLen: int)
    requires canvas > 0
    ensures Remaining(promptLen, maxModelLen) < canvas ==> MaxFit(promptLen, canvas, maxModelLen) == 0
  {
    MaxFitIsLargest(promptLen, canvas, maxModelLen, 1);
    var m: nat :| MaxFit(promptLen, canvas, maxModelLen) == m * canvas;
    Multiples(canvas, 1, m);
  }

  lemma PhysicalIsACanvas(requested: int, canvas: int)
    requires canvas > 0
    ensures canvas <= Physical(requested, canvas)
  {
  }

  /** The same on the lengths alone. */
  lemma AcceptedExactly(requested: int, canvas: int, physical: int, remaining: int, maxFit: int)
    requires 0 < canvas <= physical && 0 <= maxFit && (canvas <= Max(0, remaining) <==> canvas <= maxFit)
    requires requested > 0 && physical > remaining ==> maxFit < requested
    requires requested <= 0 ==> physical == canvas
    requires remaining < canvas ==> maxFit == 0
    ensures ((if physical <= remaining then requested else maxFit) == requested <==> physical <= remaining)
            <==> !(requested == 0 && remaining < canvas)
  {
  }

  /** A one-tile context with a one-token prompt and no room for a canvas: 0 tokens. */
  lemma ZeroRequestDiffers()
    ensures Fit(1, Some(0), 64, 32) == 0 && Resolve(1, Some(0), 64, 32).Err?
    ensures Fit(1, Some(-5), 64, 32) == 0
  {
    assert Remaining(1, 32) == 0 && Physical(0, 64) == 64;
  }

  /** Fitting twice is fitting once. */
  lemma FitIsIdempotent(promptLen: nat, requested: Option<int>, canvas: int, maxModelLen: int)
    requires canvas > 0
    ensures var fit := Fit(promptLen, requested, canvas, maxModelLen);
            Fit(promptLen, Some(fit), canvas, maxModelLen) == fit
  {
    PhysicalOfMaxFit(promptLen, canvas, maxModelLen);
  }

  /** A fitted positive limit is accepted, whatever was requested. */
  lemma FittedIsAccepted(promptLen: nat, requested: Option<int>, canvas: int, maxModelLen: int)
    requires canvas > 0 && Fit(promptLen, requested, canvas, maxModelLen) > 0
    ensures var fit := Fit(promptLen, requested, canvas, maxModelLen);
            Resolve(promptLen, Some(fit), canvas, maxModelLen) == Ok(fit)
  {
    PhysicalOfMaxFit(promptLen, canvas, maxModelLen);
  }

  /** The startup floor is tight: a context of `maxModelLen` serves a one-token prompt exactly from it on. */
  lemma MinModelLenIsTight(canvas: int, maxModelLen: int)
    requires canvas > 0
    ensures Resolve(1, None, canvas, maxModelLen).Ok? <==> maxModelLen >= MinModelLen(canvas)
    ensures Resolve(1, Some(1), canvas, maxModelLen).Ok? <==> maxModelLen >= MinModelLen(canvas)
  {
    PhysicalOfMaxFit(1, canvas, maxModelLen);
    MaxFitIsLargest(1, canvas, maxModelLen, 1);
    RefusedIsAbove(1, 1, canvas, maxModelLen);
    Rounding(1, canvas, 1);
    var tiles := maxModelLen / TILE;
    Rounding(TILE + canvas, TILE, tiles);
    Rounding(maxModelLen, TILE, (TILE + canvas + TILE - 1) / TILE);
    assert RoundUp(1, TILE) == TILE;
    assert Physical(1, canvas) == canvas;
  }
}
