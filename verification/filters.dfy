/**
 * The view filter of the `DataBase` facade: its state, its setters, and
 * the term list `_get_all_filters` compiles for `get_spots`.
 */
module SpotFilters {
  import opened Wrappers
  import opened Text
  import opened Query
  import opened Bands
  import opened Models

  datatype FilterState<B> = FilterState(band: B, region: Option<string>, qrtOn: bool)

  /** The filter state `DataBase.__init__` starts with: no band, no region,
      QRT spots hidden. */
  function DefaultFilter<B>(plan: BandPlan<B>): (f: FilterState<B>)
    ensures f.band == plan.noBand && f.region.None? && f.qrtOn
  {
    FilterState(plan.noBand, None, true)
  }

  function SetBandFilter<B>(f: FilterState<B>, band: B): (g: FilterState<B>)
    ensures g.band == band && g.region == f.region && g.qrtOn == f.qrtOn
  {
    f.(band := band)
  }

  function SetRegionFilter<B>(f: FilterState<B>, region: Option<string>): (g: FilterState<B>)
    ensures g.region == region && g.band == f.band && g.qrtOn == f.qrtOn
  {
    f.(region := region)
  }

  function SetQrtFilter<B>(f: FilterState<B>, isOn: bool): (g: FilterState<B>)
    ensures g.qrtOn == isOn && g.band == f.band && g.region == f.region
  {
    f.(qrtOn := isOn)
  }

  /** One term of the compiled filter. */
  datatype SpotTerm =
    | FreqBound(bound: Bound)       // a band-limit comparison on `Spot.frequency`
    | RegionPrefix(prefix: string)  // `Spot.locationDesc.startswith(prefix)`
    | NotQrt                        // `Spot.is_qrt == False`

  /** How the store evaluates a term on a row. A NULL `locationDesc`
      never starts with anything. */
  predicate TermHolds<B>(plan: BandPlan<B>, t: SpotTerm, s: Spot)
  {
    match t
    case FreqBound(bound) => BoundHolds(plan, bound, s.raw.frequency)
    case RegionPrefix(prefix) => s.raw.locationDesc.Some? && StartsWith(s.raw.locationDesc.value, prefix)
    case NotQrt => !s.isQrt
  }

  /** `sa.and_(*terms)`; the empty conjunction holds. */
  predicate AllTermsHold<B>(plan: BandPlan<B>, terms: seq<SpotTerm>, s: Spot)
  {
    forall t :: t in terms ==> TermHolds(plan, t, s)
  }

  function FreqTerms(bounds: seq<Bound>): seq<SpotTerm>
  {
    seq(|bounds|, i requires 0 <= i < |bounds| => FreqBound(bounds[i]))
  }

  /** A list of band-limit terms holds exactly when every bound does. */
  lemma FreqTermsMeaning<B>(plan: BandPlan<B>, bounds: seq<Bound>, s: Spot)
    ensures AllTermsHold(plan, FreqTerms(bounds), s) <==> AllBoundsHold(plan, bounds, s.raw.frequency)
  {
    var terms := FreqTerms(bounds);
    if AllTermsHold(plan, terms, s) {
      forall i | 0 <= i < |bounds| ensures BoundHolds(plan, bounds[i], s.raw.frequency) {
        assert terms[i] in terms;
      }
    }
    if AllBoundsHold(plan, bounds, s.raw.frequency) {
      forall t | t in terms ensures TermHolds(plan, t, s) {
        var i :| 0 <= i < |terms| && terms[i] == t;
      }
    }
  }

  // Each filter dimension stated directly, without terms.

  predicate InBandFilter<B(==)>(plan: BandPlan<B>, band: B, s: Spot)
  {
    band != plan.noBand ==> StrictlyInside(plan, band, s.raw.frequency)
  }

  predicate InRegionFilter(region: Option<string>, s: Spot)
  {
    region.Some? ==> s.raw.locationDesc.Some? && StartsWith(s.raw.locationDesc.value, region.value)
  }

  predicate PassesQrtFilter(qrtOn: bool, s: Spot)
  {
    qrtOn ==> !s.isQrt
  }

  /** Whether a spot is shown under a filter state. */
  predicate Visible<B(==)>(plan: BandPlan<B>, f: FilterState<B>, s: Spot)
  {
    InBandFilter(plan, f.band, s) && InRegionFilter(f.region, s) && PassesQrtFilter(f.qrtOn, s)
  }

  /** `_get_band_filters`: no term without a band; otherwise the two limit
      comparisons, which accept exactly the spots strictly inside the band. */
  function BandFilters<B(==)>(plan: BandPlan<B>, f: FilterState<B>): (terms: seq<SpotTerm>)
    ensures terms == [] <==> f.band == plan.noBand
    ensures |terms| <= 2
    ensures forall s: Spot :: AllTermsHold(plan, terms, s) <==> InBandFilter(plan, f.band, s)
  {
    if f.band == plan.noBand then []
    else
      var bounds := LimitTerms(plan, f.band);
      assert forall s: Spot :: AllTermsHold(plan, FreqTerms(bounds), s) <==> StrictlyInside(plan, f.band, s.raw.frequency) by {
        forall s: Spot ensures AllTermsHold(plan, FreqTerms(bounds), s) <==> StrictlyInside(plan, f.band, s.raw.frequency) {
          FreqTermsMeaning(plan, bounds, s);
        }
      }
      FreqTerms(bounds)
  }

  /** `_get_region_filters`: no term without a region; otherwise one prefix
      test, which a NULL location fails. */
  function RegionFilters<B>(plan: BandPlan<B>, f: FilterState<B>): (terms: seq<SpotTerm>)
    ensures terms == [] <==> f.region.None?
    ensures |terms| <= 1
    ensures forall s: Spot :: AllTermsHold(plan, terms, s) <==> InRegionFilter(f.region, s)
  {
    match f.region
    case None => []
    case Some(region) =>
      assert forall s: Spot :: AllTermsHold(plan, [RegionPrefix(region)], s) <==> InRegionFilter(f.region, s) by {
        assert RegionPrefix(region) in [RegionPrefix(region)];
      }
      [RegionPrefix(region)]
  }

  /** `_get_qrt_filter`: with the toggle on, one term rejecting QRT spots. */
  function QrtFilters<B>(plan: BandPlan<B>, f: FilterState<B>): (terms: seq<SpotTerm>)
    ensures terms == [] <==> !f.qrtOn
    ensures |terms| <= 1
    ensures forall s: Spot :: AllTermsHold(plan, terms, s) <==> PassesQrtFilter(f.qrtOn, s)
  {
    if f.qrtOn then
      assert NotQrt in [NotQrt];
      [NotQrt]
    else []
  }

  lemma AllTermsAppend<B>(plan: BandPlan<B>, a: seq<SpotTerm>, b: seq<SpotTerm>, s: Spot)
    ensures AllTermsHold(plan, a + b, s) <==> AllTermsHold(plan, a, s) && AllTermsHold(plan, b, s)
  {
    assert forall t :: t in a + b <==> t in a || t in b;
  }

  /** `_get_all_filters`: band, region and QRT terms in that order; the
      conjunction accepts exactly the visible spots. */
  function AllFilters<B(==)>(plan: BandPlan<B>, f: FilterState<B>): (terms: seq<SpotTerm>)
    ensures |terms| <= 4
    ensures terms == [] <==> f.band == plan.noBand && f.region.None? && !f.qrtOn
    ensures forall s: Spot :: AllTermsHold(plan, terms, s) <==> Visible(plan, f, s)
  {
    var band := BandFilters(plan, f);
    var region := RegionFilters(plan, f);
    var qrt := QrtFilters(plan, f);
    assert forall s: Spot :: AllTermsHold(plan, band + region + qrt, s) <==> Visible(plan, f, s) by {
      forall s: Spot ensures AllTermsHold(plan, band + region + qrt, s) <==> Visible(plan, f, s) {
        AllTermsAppend(plan, band + region, qrt, s);
        AllTermsAppend(plan, band, region, s);
      }
    }
    band + region + qrt
  }

  /** The order of the terms does not matter: any permutation of a term
      list accepts the same spots. */
  lemma TermOrderIrrelevant<B>(plan: BandPlan<B>, terms: seq<SpotTerm>, reordered: seq<SpotTerm>, s: Spot)
    requires multiset(terms) == multiset(reordered)
    ensures AllTermsHold(plan, terms, s) <==> AllTermsHold(plan, reordered, s)
  {
    assert forall t :: t in terms <==> t in multiset(terms);
    assert forall t :: t in reordered <==> t in multiset(reordered);
  }

  function Passes<B>(plan: BandPlan<B>, terms: seq<SpotTerm>): Spot -> bool
  {
    (s: Spot) => AllTermsHold(plan, terms, s)
  }

  /** The rows `query(Spot).filter(sa.and_(*terms)).all()` returns. */
  function Select<B(==)>(plan: BandPlan<B>, f: FilterState<B>, spots: seq<Spot>): (shown: seq<Spot>)
    ensures |shown| <= |spots|
    ensures forall i :: 0 <= i < |shown| ==> shown[i] in spots && Visible(plan, f, shown[i])
    ensures forall i :: 0 <= i < |spots| && Visible(plan, f, spots[i]) ==> spots[i] in shown
  {
    var p := Passes(plan, AllFilters(plan, f));
    assert forall s :: p(s) <==> Visible(plan, f, s);
    Where(spots, p)
  }

  /** With no band, no region and QRT spots shown, every spot is listed. */
  lemma NoFilterShowsAll<B>(plan: BandPlan<B>, f: FilterState<B>, spots: seq<Spot>)
    requires f.band == plan.noBand && f.region.None? && !f.qrtOn
    ensures Select(plan, f, spots) == spots
  {
    assert AllFilters(plan, f) == [];
    WhereAll(spots, Passes(plan, AllFilters(plan, f)));
  }

  function IsNotQrt(): Spot -> bool
  {
    (s: Spot) => !s.isQrt
  }

  /** Showing a filter's result with one more condition is filtering the
      relaxed result by that condition. */
  lemma SelectNarrows<B>(plan: BandPlan<B>, f: FilterState<B>, relaxed: FilterState<B>, extra: Spot -> bool, spots: seq<Spot>)
    requires forall s :: Visible(plan, f, s) <==> Visible(plan, relaxed, s) && extra(s)
    ensures Select(plan, f, spots) == Where(Select(plan, relaxed, spots), extra)
  {
    var p := Passes(plan, AllFilters(plan, relaxed));
    WhereWhere(spots, p, extra);
    assert forall i :: 0 <= i < |spots| ==> Passes(plan, AllFilters(plan, f))(spots[i]) == Both(p, extra)(spots[i]);
    WhereCongruent(spots, Passes(plan, AllFilters(plan, f)), Both(p, extra));
  }

  /** QRT-on removes exactly the spots flagged QRT, keeping the others in order. */
  lemma QrtFilterRemovesExactlyQrt<B>(plan: BandPlan<B>, f: FilterState<B>, spots: seq<Spot>)
    ensures Select(plan, SetQrtFilter(f, true), spots) == Where(Select(plan, SetQrtFilter(f, false), spots), IsNotQrt())
  {
    SelectNarrows(plan, SetQrtFilter(f, true), SetQrtFilter(f, false), IsNotQrt(), spots);
  }

  function HasRegion(region: string): Spot -> bool
  {
    (s: Spot) => s.raw.locationDesc.Some? && StartsWith(s.raw.locationDesc.value, region)
  }

  /** A region filter removes exactly the spots whose location does not
      start with the prefix (case-sensitive), keeping the others in order. */
  lemma RegionFilterRemovesOthers<B>(plan: BandPlan<B>, f: FilterState<B>, region: string, spots: seq<Spot>)
    ensures Select(plan, SetRegionFilter(f, Some(region)), spots)
         == Where(Select(plan, SetRegionFilter(f, None), spots), HasRegion(region))
  {
    SelectNarrows(plan, SetRegionFilter(f, Some(region)), SetRegionFilter(f, None), HasRegion(region), spots);
  }

  function InBand<B>(plan: BandPlan<B>, band: B): Spot -> bool
  {
    (s: Spot) => StrictlyInside(plan, band, s.raw.frequency)
  }

  /** A band filter removes exactly the spots outside the open band
      interval, keeping the others in order. */
  lemma BandFilterRemovesOutside<B>(plan: BandPlan<B>, f: FilterState<B>, band: B, spots: seq<Spot>)
    requires band != plan.noBand
    ensures Select(plan, SetBandFilter(f, band), spots)
         == Where(Select(plan, SetBandFilter(f, plan.noBand), spots), InBand(plan, band))
  {
    SelectNarrows(plan, SetBandFilter(f, band), SetBandFilter(f, plan.noBand), InBand(plan, band), spots);
  }
}
