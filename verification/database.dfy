/**
 * The `DataBase` facade of src/db/db.py, with the store as an in-memory
 * record: the spot table, the QSO log, the park table and the view filter.
 */
module DataBase {
  import opened Text
  import opened Bands
  import opened Models
  import opened HuntLedger
  import opened SpotFilters
  import opened ParkCounter
  import opened Qrt

  datatype Db<B> = Db(spots: seq<Spot>, qsos: seq<Qso>, parks: Parks, filter: FilterState<B>)

  /** `DataBase.__init__`: the spot table is emptied and the filter takes
      its defaults; the log and the park table are kept. */
  function Open<B>(plan: BandPlan<B>, qsos: seq<Qso>, parks: Parks): (db: Db<B>)
    ensures db.spots == [] && db.qsos == qsos && db.parks == parks
    ensures db.filter.band == plan.noBand && db.filter.region.None? && db.filter.qrtOn
  {
    Db([], qsos, parks, DefaultFilter(plan))
  }

  /** The loop body of `update_all_spots`: one raw spot with its five
      derived fields. */
  function EnrichSpot<B>(plan: BandPlan<B>, parks: Parks, qsos: seq<Qso>, dayStart: int, raw: RawSpot): (s: Spot)
    ensures s.raw == raw
    ensures s.parkHunts >= 0
  {
    Spot(raw,
         ParkHuntsSnapshot(parks, raw.reference),
         OpQsoCount(qsos, raw.activator),
         SpotHuntedFlag(plan, qsos, dayStart, raw.activator, raw.frequency, raw.reference),
         HuntedBands(plan, qsos, dayStart, raw.activator, raw.reference),
         IsQrt(raw.comments))
  }

  /** What each derived field of an enriched spot means. */
  lemma EnrichedFields<B>(plan: BandPlan<B>, parks: Parks, qsos: seq<Qso>, dayStart: int, raw: RawSpot)
    ensures var s := EnrichSpot(plan, parks, qsos, dayStart, raw);
      && (s.parkHunts > 0 <==> raw.reference in parks && parks[raw.reference].hunts > 0)
      && (s.parkHunts > 0 ==> s.parkHunts == parks[raw.reference].hunts)
      && s.opHunts == multiset(Calls(qsos))[raw.activator]
      && (s.hunted <==> exists i :: 0 <= i < |qsos| && HuntsSpot(plan, raw.frequency, raw.activator, raw.reference, dayStart, qsos[i]))
      && (HuntedBandList(plan, qsos, dayStart, raw.activator, raw.reference) == [] ==> s.huntedBands == "")
      && (var names := HuntedBandList(plan, qsos, dayStart, raw.activator, raw.reference);
          names != [] && (forall i :: 0 <= i < |names| ==> ',' !in names[i]) ==> Split(s.huntedBands, ',') == names)
      && (s.isQrt <==> raw.comments.Some? && var c := raw.comments.value;
            |c| >= 3 && LowerChar(c[0]) == 'q' && LowerChar(c[1]) == 'r' && LowerChar(c[2]) == 't'
            && (|c| == 3 || !IsWordChar(LowerChar(c[3]))))
  {
  }

  /** The `for` loop of `update_all_spots`: every batch element goes
      through `enrich` and is stored in batch order. */
  method EnrichBatch(enrich: RawSpot -> Spot, batch: seq<RawSpot>) returns (spots: seq<Spot>)
    ensures |spots| == |batch|
    ensures forall i :: 0 <= i < |batch| ==> spots[i] == enrich(batch[i])
  {
    spots := [];
    var i := 0;
    while i < |batch|
      invariant 0 <= i <= |batch|
      invariant |spots| == i
      invariant forall j :: 0 <= j < i ==> spots[j] == enrich(batch[j])
    {
      spots := spots + [enrich(batch[i])];
      i := i + 1;
    }
  }

  /** `update_all_spots(batch)`: the spot table is replaced by one enriched
      spot per batch element, in batch order; nothing else changes. */
  method UpdateAllSpots<B>(plan: BandPlan<B>, db: Db<B>, dayStart: int, batch: seq<RawSpot>) returns (updated: Db<B>)
    ensures updated.qsos == db.qsos && updated.parks == db.parks && updated.filter == db.filter
    ensures |updated.spots| == |batch|
    ensures forall i :: 0 <= i < |batch| ==> updated.spots[i].raw == batch[i]
    ensures forall i :: 0 <= i < |batch| ==> updated.spots[i] == EnrichSpot(plan, db.parks, db.qsos, dayStart, batch[i])
  {
    var spots := EnrichBatch((r: RawSpot) => EnrichSpot(plan, db.parks, db.qsos, dayStart, r), batch);
    updated := db.(spots := spots);
  }

  /** `get_spots()`: the stored spots the current filter shows, in table order. */
  function GetSpots<B(==)>(plan: BandPlan<B>, db: Db<B>): (shown: seq<Spot>)
    ensures forall s :: s in shown <==> s in db.spots && Visible(plan, db.filter, s)
  {
    var shown := Select(plan, db.filter, db.spots);
    assert forall s :: s in shown ==> s in db.spots && Visible(plan, db.filter, s) by {
      forall s | s in shown ensures s in db.spots && Visible(plan, db.filter, s) {
        var i :| 0 <= i < |shown| && shown[i] == s;
      }
    }
    assert forall s :: s in db.spots && Visible(plan, db.filter, s) ==> s in shown by {
      forall s | s in db.spots && Visible(plan, db.filter, s) ensures s in shown {
        var i :| 0 <= i < |db.spots| && db.spots[i] == s;
      }
    }
    shown
  }

  /** A freshly opened database lists no spots, whatever the filter. */
  lemma OpenListsNothing<B>(plan: BandPlan<B>, qsos: seq<Qso>, parks: Parks)
    ensures GetSpots(plan, Open(plan, qsos, parks)) == []
  {
  }
}
