/**
 * The QSO-log queries behind spot enrichment (`get_op_qso_count`,
 * `get_spot_hunted_flag`, `get_spot_hunted_bands` in src/db/db.py).
 * `dayStart` is the start of the current UTC day, passed in by the caller.
 */
module HuntLedger {
  import opened Wrappers
  import opened Text
  import opened Query
  import opened Bands
  import opened Models

  // ---------------------------------------------------------------- op_hunts

  function HasCall(call: string): Qso -> bool
  {
    (q: Qso) => q.call == call
  }

  /** The `call` column of the log, in table order. */
  function Calls(qsos: seq<Qso>): (calls: seq<string>)
    ensures |calls| == |qsos|
  {
    if |qsos| == 0 then [] else [qsos[0].call] + Calls(qsos[1..])
  }

  lemma {:induction false} CountIsMultiplicity(qsos: seq<Qso>, call: string)
    ensures |Where(qsos, HasCall(call))| == multiset(Calls(qsos))[call]
  {
    if |qsos| > 0 {
      CountIsMultiplicity(qsos[1..], call);
      assert Calls(qsos) == [qsos[0].call] + Calls(qsos[1..]);
      assert multiset(Calls(qsos)) == multiset{qsos[0].call} + multiset(Calls(qsos[1..]));
    }
  }

  /** `get_op_qso_count(call)`: how many logged QSOs have this `call`. */
  function OpQsoCount(qsos: seq<Qso>, call: string): (n: nat)
    ensures n == multiset(Calls(qsos))[call]
    ensures n <= |qsos|
  {
    CountIsMultiplicity(qsos, call);
    Count(qsos, HasCall(call))
  }

  // ------------------------------------------------------------------ hunted

  /** The three filters both hunted queries share: same call, same park,
      logged strictly after the start of today. */
  predicate SameDay(q: Qso, activator: string, reference: string, dayStart: int)
  {
    q.call == activator && q.sigInfo == reference && q.timeOn > dayStart
  }

  function TodayWith(activator: string, reference: string, dayStart: int): Qso -> bool
  {
    (q: Qso) => SameDay(q, activator, reference, dayStart)
  }

  /** The band terms of `get_spot_hunted_flag`: the limits of the spot's
      band when it classifies, and the tautology `1 == 1` (no term) when not. */
  function HuntedTerms<B>(plan: BandPlan<B>, freq: string): (bounds: seq<Bound>)
    ensures plan.classify(freq).None? ==> forall f :: AllBoundsHold(plan, bounds, f)
    ensures plan.classify(freq).Some? ==>
      forall f :: AllBoundsHold(plan, bounds, f) <==> StrictlyInside(plan, plan.classify(freq).value, f)
  {
    match plan.classify(freq)
    case Some(band) => LimitTerms(plan, band)
    case None => []
  }

  function HuntedOnBand<B>(plan: BandPlan<B>, freq: string, activator: string, reference: string, dayStart: int): Qso -> bool
  {
    (q: Qso) => SameDay(q, activator, reference, dayStart) && AllBoundsHold(plan, HuntedTerms(plan, freq), q.freq)
  }

  /** What "already hunted today" means for one QSO, stated without the
      term list: same day, and inside the spot's band if the spot has one. */
  predicate HuntsSpot<B>(plan: BandPlan<B>, freq: string, activator: string, reference: string, dayStart: int, q: Qso)
  {
    && SameDay(q, activator, reference, dayStart)
    && match plan.classify(freq)
       case None => true
       case Some(band) => StrictlyInside(plan, band, q.freq)
  }

  /** `get_spot_hunted_flag(activator, freq, ref)`. */
  function SpotHuntedFlag<B>(plan: BandPlan<B>, qsos: seq<Qso>, dayStart: int, activator: string, freq: string, reference: string): (flag: bool)
    ensures flag <==> exists i :: 0 <= i < |qsos| && HuntsSpot(plan, freq, activator, reference, dayStart, qsos[i])
  {
    var p := HuntedOnBand(plan, freq, activator, reference, dayStart);
    assert forall i :: 0 <= i < |qsos| ==> (p(qsos[i]) <==> HuntsSpot(plan, freq, activator, reference, dayStart, qsos[i]));
    Count(qsos, p) > 0
  }

  /** QSOs from before today never mark a spot as hunted. */
  lemma NothingBeforeTodayCounts<B>(plan: BandPlan<B>, qsos: seq<Qso>, dayStart: int, activator: string, freq: string, reference: string)
    requires forall i :: 0 <= i < |qsos| ==> qsos[i].timeOn <= dayStart
    ensures !SpotHuntedFlag(plan, qsos, dayStart, activator, freq, reference)
  {
  }

  /** A spot frequency the plan cannot classify drops the range test:
      any same-day QSO with matching call and park counts. */
  lemma UnclassifiedSpotIgnoresBand<B>(plan: BandPlan<B>, qsos: seq<Qso>, dayStart: int, activator: string, freq: string, reference: string)
    requires plan.classify(freq).None?
    ensures SpotHuntedFlag(plan, qsos, dayStart, activator, freq, reference)
        <==> Count(qsos, TodayWith(activator, reference, dayStart)) > 0
  {
  }

  // ------------------------------------------------------------ hunted_bands

  function Classifiable<B>(plan: BandPlan<B>): Qso -> bool
  {
    (q: Qso) => plan.classify(q.freq).Some?
  }

  /** The band name of a QSO that classifies. */
  predicate NamesBandOf<B>(plan: BandPlan<B>, q: Qso, n: string)
  {
    plan.classify(q.freq).Some? && plan.name(plan.classify(q.freq).value) == n
  }

  /** The display name of a QSO's band ("" if it does not classify). */
  function BandNameOf<B>(plan: BandPlan<B>, q: Qso): string
  {
    match plan.classify(q.freq)
    case Some(band) => plan.name(band)
    case None => ""
  }

  /** The loop of `get_spot_hunted_bands`: one name per QSO that classifies,
      the others are skipped. */
  function BandNamesOf<B>(plan: BandPlan<B>, qsos: seq<Qso>): (names: seq<string>)
    ensures |names| <= |qsos|
  {
    if |qsos| == 0 then []
    else
      match plan.classify(qsos[0].freq)
      case None => BandNamesOf(plan, qsos[1..])
      case Some(band) => [plan.name(band)] + BandNamesOf(plan, qsos[1..])
  }

  /** Exactly one name per QSO that classifies. */
  lemma {:induction false} BandNamesCount<B>(plan: BandPlan<B>, qsos: seq<Qso>)
    ensures |BandNamesOf(plan, qsos)| == |Where(qsos, Classifiable(plan))|
  {
    if |qsos| > 0 {
      BandNamesCount(plan, qsos[1..]);
      var tail := Where(qsos[1..], Classifiable(plan));
      match plan.classify(qsos[0].freq)
      case None =>
        assert Where(qsos, Classifiable(plan)) == tail;
      case Some(band) =>
        assert Where(qsos, Classifiable(plan)) == [qsos[0]] + tail;
    }
  }

  /** The k-th name is the band name of the k-th QSO that classifies. */
  lemma {:induction false} BandNamesOrder<B>(plan: BandPlan<B>, qsos: seq<Qso>, k: int)
    requires 0 <= k < |Where(qsos, Classifiable(plan))|
    ensures k < |BandNamesOf(plan, qsos)|
    ensures BandNamesOf(plan, qsos)[k] == BandNameOf(plan, Where(qsos, Classifiable(plan))[k])
  {
    BandNamesCount(plan, qsos);
    var tail := Where(qsos[1..], Classifiable(plan));
    match plan.classify(qsos[0].freq)
    case None =>
      assert Where(qsos, Classifiable(plan)) == tail;
      BandNamesOrder(plan, qsos[1..], k);
    case Some(band) =>
      assert Where(qsos, Classifiable(plan)) == [qsos[0]] + tail;
      if k > 0 {
        BandNamesOrder(plan, qsos[1..], k - 1);
      }
  }

  function HasBand<B>(plan: BandPlan<B>, n: string): Qso -> bool
  {
    (q: Qso) => NamesBandOf(plan, q, n)
  }

  /** Each name occurs once per QSO that classifies to a band of that name:
      the list is not deduplicated. */
  lemma {:induction false} BandNamesMultiplicity<B>(plan: BandPlan<B>, qsos: seq<Qso>, n: string)
    ensures multiset(BandNamesOf(plan, qsos))[n] == |Where(qsos, HasBand(plan, n))|
  {
    if |qsos| > 0 {
      BandNamesMultiplicity(plan, qsos[1..], n);
      match plan.classify(qsos[0].freq)
      case None =>
        assert BandNamesOf(plan, qsos) == BandNamesOf(plan, qsos[1..]);
      case Some(band) =>
        assert BandNamesOf(plan, qsos) == [plan.name(band)] + BandNamesOf(plan, qsos[1..]);
        assert multiset([plan.name(band)] + BandNamesOf(plan, qsos[1..]))
            == multiset{plan.name(band)} + multiset(BandNamesOf(plan, qsos[1..]));
    }
  }

  /** Every name in the list is the band of some QSO in the input. */
  lemma {:induction false} BandNamesSound<B>(plan: BandPlan<B>, qsos: seq<Qso>, i: int)
    requires 0 <= i < |BandNamesOf(plan, qsos)|
    ensures exists j :: 0 <= j < |qsos| && NamesBandOf(plan, qsos[j], BandNamesOf(plan, qsos)[i])
  {
    var rest := BandNamesOf(plan, qsos[1..]);
    match plan.classify(qsos[0].freq)
    case Some(band) =>
      if i == 0 {
        assert NamesBandOf(plan, qsos[0], BandNamesOf(plan, qsos)[0]);
      } else {
        assert BandNamesOf(plan, qsos)[i] == rest[i - 1];
        BandNamesSound(plan, qsos[1..], i - 1);
        var j :| 0 <= j < |qsos[1..]| && NamesBandOf(plan, qsos[1..][j], rest[i - 1]);
        assert qsos[1..][j] == qsos[j + 1];
      }
    case None =>
      BandNamesSound(plan, qsos[1..], i);
      var j :| 0 <= j < |qsos[1..]| && NamesBandOf(plan, qsos[1..][j], rest[i]);
      assert qsos[1..][j] == qsos[j + 1];
  }

  /** Every QSO that classifies contributes its band name. */
  lemma {:induction false} BandNamesComplete<B>(plan: BandPlan<B>, qsos: seq<Qso>, j: int)
    requires 0 <= j < |qsos| && plan.classify(qsos[j].freq).Some?
    ensures plan.name(plan.classify(qsos[j].freq).value) in BandNamesOf(plan, qsos)
  {
    if j > 0 {
      assert qsos[1..][j - 1] == qsos[j];
      BandNamesComplete(plan, qsos[1..], j - 1);
    }
  }

  /** The list behind `get_spot_hunted_bands(activator, ref)`: the band name
      of every QSO logged today with this call and park, one entry per QSO,
      duplicates kept, no band restriction. */
  function HuntedBandList<B>(plan: BandPlan<B>, qsos: seq<Qso>, dayStart: int, activator: string, reference: string): (names: seq<string>)
    ensures |names| <= Count(qsos, TodayWith(activator, reference, dayStart))
  {
    BandNamesOf(plan, Where(qsos, TodayWith(activator, reference, dayStart)))
  }

  /** One entry per same-day QSO whose frequency classifies. */
  lemma HuntedBandCount<B>(plan: BandPlan<B>, qsos: seq<Qso>, dayStart: int, activator: string, reference: string)
    ensures |HuntedBandList(plan, qsos, dayStart, activator, reference)|
         == Count(qsos, Both(TodayWith(activator, reference, dayStart), Classifiable(plan)))
  {
    BandNamesCount(plan, Where(qsos, TodayWith(activator, reference, dayStart)));
    WhereWhere(qsos, TodayWith(activator, reference, dayStart), Classifiable(plan));
  }

  /** The k-th entry is the band name of the k-th same-day matching QSO that
      classifies, in log order. */
  lemma HuntedBandOrder<B>(plan: BandPlan<B>, qsos: seq<Qso>, dayStart: int, activator: string, reference: string, k: int)
    requires 0 <= k < Count(qsos, Both(TodayWith(activator, reference, dayStart), Classifiable(plan)))
    ensures k < |HuntedBandList(plan, qsos, dayStart, activator, reference)|
    ensures HuntedBandList(plan, qsos, dayStart, activator, reference)[k]
         == BandNameOf(plan, Where(qsos, Both(TodayWith(activator, reference, dayStart), Classifiable(plan)))[k])
  {
    var today := Where(qsos, TodayWith(activator, reference, dayStart));
    HuntedBandCount(plan, qsos, dayStart, activator, reference);
    WhereWhere(qsos, TodayWith(activator, reference, dayStart), Classifiable(plan));
    BandNamesOrder(plan, today, k);
  }

  /** A band name appears once for every same-day matching QSO on a band of
      that name: duplicates are kept. */
  lemma HuntedBandMultiplicity<B>(plan: BandPlan<B>, qsos: seq<Qso>, dayStart: int, activator: string, reference: string, n: string)
    ensures multiset(HuntedBandList(plan, qsos, dayStart, activator, reference))[n]
         == Count(qsos, Both(TodayWith(activator, reference, dayStart), HasBand(plan, n)))
  {
    BandNamesMultiplicity(plan, Where(qsos, TodayWith(activator, reference, dayStart)), n);
    WhereWhere(qsos, TodayWith(activator, reference, dayStart), HasBand(plan, n));
  }

  /** No band is listed without a same-day QSO on it. */
  lemma HuntedBandSound<B>(plan: BandPlan<B>, qsos: seq<Qso>, dayStart: int, activator: string, reference: string, i: int)
    requires 0 <= i < |HuntedBandList(plan, qsos, dayStart, activator, reference)|
    ensures exists j :: 0 <= j < |qsos| && SameDay(qsos[j], activator, reference, dayStart)
                     && NamesBandOf(plan, qsos[j], HuntedBandList(plan, qsos, dayStart, activator, reference)[i])
  {
    var today := Where(qsos, TodayWith(activator, reference, dayStart));
    BandNamesSound(plan, today, i);
    var k :| 0 <= k < |today| && NamesBandOf(plan, today[k], BandNamesOf(plan, today)[i]);
    assert today[k] in qsos && TodayWith(activator, reference, dayStart)(today[k]);
  }

  /** Every same-day QSO that classifies has its band listed. */
  lemma HuntedBandComplete<B>(plan: BandPlan<B>, qsos: seq<Qso>, dayStart: int, activator: string, reference: string, j: int)
    requires 0 <= j < |qsos| && SameDay(qsos[j], activator, reference, dayStart)
    requires plan.classify(qsos[j].freq).Some?
    ensures plan.name(plan.classify(qsos[j].freq).value) in HuntedBandList(plan, qsos, dayStart, activator, reference)
  {
    var today := Where(qsos, TodayWith(activator, reference, dayStart));
    assert qsos[j] in today;
    var k :| 0 <= k < |today| && today[k] == qsos[j];
    BandNamesComplete(plan, today, k);
  }

  /** `get_spot_hunted_bands(activator, ref)`: the list joined with ",". */
  function HuntedBands<B>(plan: BandPlan<B>, qsos: seq<Qso>, dayStart: int, activator: string, reference: string): (s: string)
    ensures HuntedBandList(plan, qsos, dayStart, activator, reference) == [] ==> s == ""
    ensures var names := HuntedBandList(plan, qsos, dayStart, activator, reference);
      names != [] && (forall i :: 0 <= i < |names| ==> ',' !in names[i]) ==> Split(s, ',') == names
  {
    var names := HuntedBandList(plan, qsos, dayStart, activator, reference);
    assert names != [] && (forall i :: 0 <= i < |names| ==> ',' !in names[i]) ==> Split(Join(names, ','), ',') == names by {
      if names != [] && (forall i :: 0 <= i < |names| ==> ',' !in names[i]) {
        SplitJoin(names, ',');
      }
    }
    Join(names, ',')
  }

  /** When the spot's own frequency does not classify, a non-empty band list
      implies the spot is flagged as hunted. */
  lemma BandsImplyHuntedWhenUnclassified<B>(plan: BandPlan<B>, qsos: seq<Qso>, dayStart: int, activator: string, freq: string, reference: string)
    requires plan.classify(freq).None?
    requires HuntedBandList(plan, qsos, dayStart, activator, reference) != []
    ensures SpotHuntedFlag(plan, qsos, dayStart, activator, freq, reference)
  {
    var names := HuntedBandList(plan, qsos, dayStart, activator, reference);
    HuntedBandSound(plan, qsos, dayStart, activator, reference, 0);
    var j :| 0 <= j < |qsos| && SameDay(qsos[j], activator, reference, dayStart) && NamesBandOf(plan, qsos[j], names[0]);
    assert HuntsSpot(plan, freq, activator, reference, dayStart, qsos[j]);
  }
}
