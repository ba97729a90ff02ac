/**
 * Concrete logs and what the hunt ledger gives for them, under a one-band
 * plan in which band 20 is the 20 m band (14000 to 14350 kHz) and 0 stands
 * for no band.
 */
module Scenarios {
  import opened Wrappers
  import Text
  import opened Query
  import opened Bands
  import opened Models
  import opened HuntLedger

  function TwentyMetrePlan(): BandPlan<int>
  {
    BandPlan(
      0,
      (b: int) => if b == 20 then (14000.0, 14350.0) else (0.0, 0.0),
      (b: int) => if b == 20 then "20m" else "",
      (f: string) => if f == "14060" || f == "14074" then Some(20) else None,
      (f: string) => if f == "14060" then 14060.0 else if f == "14074" then 14074.0 else 0.0)
  }

  /** A QSO logged today with the spotted activator at the spotted park, on
      the spot's band, marks the spot hunted with bands "20m". */
  lemma HuntedTodayOnTwenty()
    ensures var log := [Qso("N0CALL", "14060", 100, "K-1234")];
      && SpotHuntedFlag(TwentyMetrePlan(), log, 0, "N0CALL", "14060", "K-1234")
      && HuntedBands(TwentyMetrePlan(), log, 0, "N0CALL", "K-1234") == "20m"
  {
    var plan := TwentyMetrePlan();
    var log := [Qso("N0CALL", "14060", 100, "K-1234")];
    assert HuntsSpot(plan, "14060", "N0CALL", "K-1234", 0, log[0]);
    assert Where(log, TodayWith("N0CALL", "K-1234", 0)) == log;
  }

  /** Two QSOs on the same band give the band twice: no deduplication. */
  lemma SameBandListedTwice()
    ensures var log := [Qso("N0CALL", "14060", 100, "K-1234"), Qso("N0CALL", "14074", 200, "K-1234")];
      HuntedBands(TwentyMetrePlan(), log, 0, "N0CALL", "K-1234") == "20m,20m"
  {
    var plan := TwentyMetrePlan();
    var first := Qso("N0CALL", "14060", 100, "K-1234");
    var second := Qso("N0CALL", "14074", 200, "K-1234");
    var log := [first, second];
    assert plan.classify(second.freq) == Some(20) && plan.name(20) == "20m";
    assert BandNamesOf(plan, [second]) == ["20m"] by {
      assert [second][1..] == [];
    }
    assert BandNamesOf(plan, log) == ["20m", "20m"] by {
      assert plan.classify(first.freq) == Some(20);
      assert log[1..] == [second];
    }
    assert HuntedBandList(plan, log, 0, "N0CALL", "K-1234") == ["20m", "20m"] by {
      WhereAll(log, TodayWith("N0CALL", "K-1234", 0));
    }
    assert Text.Join(["20m", "20m"], ',') == "20m,20m" by {
      assert ["20m", "20m"][1..] == ["20m"];
    }
  }

  /** The same QSO logged before the start of today counts for nothing. */
  lemma YesterdayDoesNotCount()
    ensures var log := [Qso("N0CALL", "14060", -5, "K-1234")];
      && !SpotHuntedFlag(TwentyMetrePlan(), log, 0, "N0CALL", "14060", "K-1234")
      && HuntedBands(TwentyMetrePlan(), log, 0, "N0CALL", "K-1234") == ""
  {
    var log := [Qso("N0CALL", "14060", -5, "K-1234")];
    assert Where(log, TodayWith("N0CALL", "K-1234", 0)) == [];
  }
}
