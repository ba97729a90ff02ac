/**
 * The band plan the core imports from an external `bands` module
 * (`bandLimits`, `bandNames`, `Bands`, `get_band`). Its tables are not part
 * of this model, so the plan is a parameter: nothing here assumes that the
 * classifier agrees with the limits table.
 */
module Bands {
  import opened Wrappers

  datatype BandPlan<!B> = BandPlan(
    noBand: B,                       // `Bands.NOBAND`, the "no band filter" selector
    limits: B -> (real, real),       // `bandLimits[band]` as (lower, upper)
    name: B -> string,               // `bandNames[band.value]`
    classify: string -> Option<B>,   // `get_band(freq)`
    asFloat: string -> real)         // the store's `CAST(column AS FLOAT)` of a frequency text

  /** One of the two comparison terms `_get_band_lmt_terms` builds. */
  datatype Bound = Below(upper: real) | Above(lower: real)

  predicate BoundHolds<B>(plan: BandPlan<B>, bound: Bound, freq: string)
  {
    match bound
    case Below(upper) => plan.asFloat(freq) < upper
    case Above(lower) => plan.asFloat(freq) > lower
  }

  predicate AllBoundsHold<B>(plan: BandPlan<B>, bounds: seq<Bound>, freq: string)
  {
    forall i :: 0 <= i < |bounds| ==> BoundHolds(plan, bounds[i], freq)
  }

  /** The open interval of a band: both limits are excluded. */
  predicate StrictlyInside<B>(plan: BandPlan<B>, band: B, freq: string)
  {
    plan.limits(band).0 < plan.asFloat(freq) < plan.limits(band).1
  }

  /** `_get_band_lmt_terms`: `col < upper` and `col > lower`. */
  function LimitTerms<B>(plan: BandPlan<B>, band: B): (bounds: seq<Bound>)
    ensures |bounds| == 2
    ensures forall freq :: AllBoundsHold(plan, bounds, freq) <==> StrictlyInside(plan, band, freq)
  {
    var bounds := [Below(plan.limits(band).1), Above(plan.limits(band).0)];
    assert forall freq :: AllBoundsHold(plan, bounds, freq) ==> BoundHolds(plan, bounds[0], freq) && BoundHolds(plan, bounds[1], freq);
    bounds
  }

  /** A frequency sitting exactly on either band limit fails the band terms. */
  lemma BandEdgesExcluded<B>(plan: BandPlan<B>, band: B, freq: string)
    requires plan.asFloat(freq) == plan.limits(band).0 || plan.asFloat(freq) == plan.limits(band).1
    ensures !AllBoundsHold(plan, LimitTerms(plan, band), freq)
  {
  }
}
