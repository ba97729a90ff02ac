# Hunterlog spot core in Dafny

This project models the domain rules of hunterlog's `DataBase` facade
(src/db/db.py) and one callsign rule of its POTA API client (src/pota.py).
The code ingests Parks-on-the-Air spots, enriches each one against the
operator's QSO log and park table, and lists them through a view filter.

The store is an in-memory record (`DataBase.Db`). It holds the spot table, the
QSO log, the park table keyed by reference, and the filter state. Each store
query is a filter or a count over a sequence (`Query.Where`, `Query.Count`).
The external `bands` module is a parameter, `Bands.BandPlan<B>`. It has a
limits table, a name table, a classifier and the store's text-to-float cast.
Nothing assumes that the classifier agrees with the limits table.

Modules:

- `Wrappers`: `Option`.
- `Text`: split, join, prefix test and lower-casing.
- `Query`: store filtering and counting.
- `Bands`: the band plan and band-limit terms.
- `Models`: raw and enriched spots, and QSOs.
- `HuntLedger`: `op_hunts`, `hunted` and `hunted_bands`.
- `SpotFilters`: filter state, setters, term compilation and `get_spots` selection.
- `ParkCounter`: the park hunt counter.
- `Qrt`: QRT detection on a comment.
- `DataBase`: open, enrich, replace-all and list.
- `Pota`: home-call selection.
- `Scenarios`: concrete logs checked against the ledger.

Behaviour of the code that the model keeps:

- `hunted_bands` has one entry per same-day matching QSO whose frequency classifies, duplicates kept (src/db/db.py:462-469).
- `is_qrt` holds when the lower-cased comment matches `\bqrt\b` at its start, since `re.match` is anchored there (src/db/db.py:99-103).
- Band limits are excluded at both ends, both in the view filter and in the hunted test (src/db/db.py:497-503).
- The stats lookup for "VP5/WD5JR" uses "VP5", the first of two segments (src/pota.py:32-36). The activator lookup normalises the call through `utils.callsigns.get_basecall` (src/db/db.py:17, 176), which is not part of this model.
- The hunted queries compare the QSO's `call` to the spot's activator (src/db/db.py:411-460).

## Model

| member | source | states |
|---|---|---|
| `Bands.LimitTerms` | src/db/db.py:497-503 | the two band-limit terms hold exactly when the frequency lies strictly between the band's lower and upper limit |
| `Bands.BandEdgesExcluded` | src/db/db.py:501-502 | a frequency equal to either band limit fails the band terms |
| `HuntLedger.OpQsoCount` | src/db/db.py:411-414 | `op_hunts` is the number of occurrences of the call in the log's `call` column, so at most the log size |
| `HuntLedger.HuntedTerms` | src/db/db.py:429-434 | if the spot frequency classifies, the terms are its band's open interval; otherwise they accept every QSO frequency |
| `HuntLedger.SpotHuntedFlag` | src/db/db.py:428-442 | hunted holds iff some QSO has call = activator, sig_info = park, time_on > start of today, and lies strictly inside the spot's band when that band exists |
| `HuntLedger.NothingBeforeTodayCounts` | src/db/db.py:436-441 | QSOs logged at or before the start of today never make a spot hunted |
| `HuntLedger.UnclassifiedSpotIgnoresBand` | src/db/db.py:429-441 | for an unclassifiable spot frequency, hunted holds iff some same-day QSO matches call and park |
| `HuntLedger.BandNamesOf` | src/db/db.py:462-467 | the loop emits at most one name per QSO |
| `HuntLedger.BandNamesCount` | src/db/db.py:462-467 | the band list has exactly one entry per QSO whose frequency classifies, with no deduplication |
| `HuntLedger.BandNamesOrder` | src/db/db.py:462-467 | the k-th entry is the band name of the k-th QSO that classifies, so the list follows the QSOs' order |
| `HuntLedger.BandNamesMultiplicity` | src/db/db.py:462-467 | a name occurs once per QSO that classifies to a band of that name |
| `HuntLedger.BandNamesSound` | src/db/db.py:462-467 | every entry of the band list is the band name of some input QSO that classifies |
| `HuntLedger.BandNamesComplete` | src/db/db.py:462-467 | every input QSO that classifies contributes its band name |
| `HuntLedger.HuntedBandList` | src/db/db.py:456-467 | the band list is no longer than the number of same-day QSOs with matching call and park |
| `HuntLedger.HuntedBandOrder` | src/db/db.py:456-467 | the k-th entry is the band name of the k-th same-day matching QSO that classifies, in log order |
| `HuntLedger.HuntedBandMultiplicity` | src/db/db.py:456-467 | a band name occurs exactly as often as there are same-day matching QSOs on a band of that name |
| `HuntLedger.HuntedBandCount` | src/db/db.py:456-467 | the band list length equals the number of same-day matching QSOs whose frequency classifies, so unclassifiable QSOs are skipped |
| `HuntLedger.HuntedBandSound` | src/db/db.py:456-467 | no band is listed unless a same-day QSO with matching call and park classifies to it |
| `HuntLedger.HuntedBandComplete` | src/db/db.py:456-467 | every same-day matching QSO that classifies has its band listed, whatever the spot's own band |
| `HuntLedger.HuntedBands` | src/db/db.py:469-471 | `hunted_bands` is "" when no band is listed; otherwise splitting it on "," gives back the list |
| `HuntLedger.BandsImplyHuntedWhenUnclassified` | src/db/db.py:429-467 | if the spot frequency does not classify, a non-empty band list implies the hunted flag |
| `Text.SplitJoin` | src/db/db.py:469 | a comma-joined list of comma-free names splits back into that list |
| `SpotFilters.DefaultFilter` | src/db/db.py:44-46 | the initial filter is no band, no region, QRT spots hidden |
| `SpotFilters.SetBandFilter` | src/db/db.py:473-475 | setting the band changes only the band selector |
| `SpotFilters.SetRegionFilter` | src/db/db.py:477-479 | setting the region changes only the region prefix |
| `SpotFilters.SetQrtFilter` | src/db/db.py:481-483 | setting the QRT toggle changes only the toggle |
| `SpotFilters.FreqTermsMeaning` | src/db/db.py:497-503 | the frequency terms hold on a spot exactly when every band-limit bound holds on its frequency |
| `SpotFilters.BandFilters` | src/db/db.py:490-503 | no term without a band; otherwise at most two terms, which accept exactly the spots strictly inside the band |
| `SpotFilters.RegionFilters` | src/db/db.py:505-510 | no term without a region; otherwise one term, which accepts exactly the spots whose location starts with the region |
| `SpotFilters.QrtFilters` | src/db/db.py:512-517 | no term with the toggle off; otherwise one term, which accepts exactly the non-QRT spots |
| `SpotFilters.AllFilters` | src/db/db.py:485-488 | at most four terms, none only when no filter is active, and their conjunction accepts a spot iff it is strictly inside the selected band (if any), its location starts with the region (if any), and it is not QRT (if the toggle is on) |
| `SpotFilters.TermOrderIrrelevant` | src/db/db.py:485-488 | any reordering of the term list accepts the same spots |
| `SpotFilters.Select` | src/db/db.py:147-152 | the listed spots are stored spots that the filter accepts, and every accepted stored spot is listed |
| `SpotFilters.NoFilterShowsAll` | src/db/db.py:490-517 | with no band, no region and QRT shown, every stored spot is listed in order |
| `SpotFilters.QrtFilterRemovesExactlyQrt` | src/db/db.py:512-517 | turning QRT hiding on removes exactly the QRT spots and keeps the others in order |
| `SpotFilters.RegionFilterRemovesOthers` | src/db/db.py:505-510 | a region prefix removes exactly the spots whose location does not start with it, case-sensitively; a missing location never matches |
| `SpotFilters.BandFilterRemovesOutside` | src/db/db.py:490-503 | selecting a band removes exactly the spots outside its open interval and keeps the rest in order |
| `ParkCounter.IncParkHunt` | src/db/db.py:348-372 | no park changes for `None`; an unknown park is created with one hunt; a known park gains exactly one hunt and takes the JSON's metadata; other parks are untouched |
| `ParkCounter.UpdateParkHunts` | src/db/db.py:374-404 | the park's hunts become the given value; an unknown park is created bare, a known one takes the JSON's metadata; other parks are untouched |
| `ParkCounter.ParkHuntsSnapshot` | src/db/db.py:82-86 | `park_hunts` is the park's hunts when the park exists and hunts > 0, else 0, so never negative |
| `ParkCounter.IncRaisesSnapshot` | src/db/db.py:358-369 | after logging a hunt of a park with non-negative hunts, its `park_hunts` snapshot is one higher |
| `ParkCounter.UpdateSetsSnapshot` | src/db/db.py:385-400 | after a bulk update the snapshot is the imported count if positive, else 0 |
| `ParkCounter.UpdatesKeepOtherSnapshots` | src/db/db.py:358-400 | neither update changes the snapshot of any other park |
| `Qrt.IsQrt` | src/db/db.py:99-103 | `is_qrt` is false without a comment; otherwise it holds iff the lower-cased comment begins with "qrt" followed by its end or a non-word character |
| `Qrt.QrtLeadingWord` | src/db/db.py:102 | "QRT last one" is QRT |
| `Qrt.QrtInsideWord` | src/db/db.py:102 | "QRTown" is not QRT |
| `Qrt.QrtNotAtStart` | src/db/db.py:102 | "going qrt" is not QRT, because the match is anchored at the start |
| `DataBase.Open` | src/db/db.py:41-46 | opening empties the spot table and sets the default filter, keeping the log and the parks |
| `DataBase.EnrichSpot` | src/db/db.py:78-103 | an enriched spot keeps every raw field and has a non-negative `park_hunts` |
| `DataBase.EnrichedFields` | src/db/db.py:81-103 | the derived fields are the park snapshot, the call's multiplicity in the log, the hunted condition, a band string that is "" for no band and otherwise splits back into the band list, and QRT iff there is a comment whose lower-cased text begins with "qrt" followed by its end or a non-word character |
| `DataBase.EnrichBatch` | src/db/db.py:77-103 | the loop stores one enriched value per batch element, in batch order |
| `DataBase.UpdateAllSpots` | src/db/db.py:73-124 | the new spot table is exactly one enriched spot per batch element, in batch order, and no earlier spot survives; the log, parks and filter are unchanged |
| `DataBase.GetSpots` | src/db/db.py:147-152 | a spot is listed iff it is stored and visible under the current filter |
| `DataBase.OpenListsNothing` | src/db/db.py:41-46 | right after opening, the listing is empty |
| `Pota.HomeCall` | src/pota.py:32-36 | the looked-up call is one of the "/"-separated segments, contains no "/", and is no longer than the activator call |
| `Pota.PlainCallUnchanged` | src/pota.py:32-36 | a call without "/" is used unchanged |
| `Pota.ThreeSegmentsGiveMiddle` | src/pota.py:33-34 | "A/B/C" gives B |
| `Pota.TwoSegmentsGiveFirst` | src/pota.py:35-36 | "A/B" gives A |
| `Pota.ManySegmentsGiveFirst` | src/pota.py:33-36 | four or more segments give the first |
| `Pota.PrefixedCallGivesPrefix` | src/pota.py:32-36 | "VP5/WD5JR" gives "VP5" |
| `Scenarios.HuntedTodayOnTwenty` | src/db/db.py:428-471 | a 20 m QSO today with N0CALL at K-1234 makes that spot hunted with bands "20m" |
| `Scenarios.SameBandListedTwice` | src/db/db.py:462-469 | two 20 m QSOs today give "20m,20m" |
| `Scenarios.YesterdayDoesNotCount` | src/db/db.py:436-460 | the same QSO dated before today gives not hunted and "" |

## Left out

- Storage plumbing: the engine, sessions, commits, raw SQL and the alembic version table (src/db/db.py:36-54 and 519-524). The store is an in-memory record, and commits and transactions have no counterpart.
- User configuration is outside the modelled core. `init_config` inserts a default configuration row when none exists (src/db/db.py:56-71); `get_user_config` and `update_user_config` read and overwrite that row.
- Deserialisation: `schema.load` of a spot is outside the model, and a batch arrives as `RawSpot` values. The float columns `latitude` and `longitude` are dropped, and so are `invalid`, `count` and `expire`, which the core never reads.
- Park JSON: loading it into a park row (`schema.load(..., instance=p)`) is modelled as replacing the park's metadata. The JSON is taken to carry no `hunts` key that could overwrite the counter.
- The `bands` module is not part of this model and is a parameter. `bandLimits` is total in the model, so a `KeyError` for a band missing from the table is not modelled.
- Wall clock: `datetime.utcnow()` is replaced by a `dayStart` instant, and `time_on` is an integer on the same scale. The source reads the clock once per query, so a batch that crosses midnight can mix two days; the model uses one `dayStart` per batch.
- HuntLedger.SpotHuntedFlag: the model takes the store's `time_on > now.date()` to mean `time_on > dayStart`. How the store compares a datetime column with a date is an assumption here, not something the model establishes.
- DataBase.UpdateAllSpots: `spotId` is the table's integer primary key (src/db/models/spots.py:11). A batch that repeats a `spotId` yields one row in the source, or a key error, but two entries in the model. The model also lists spots in batch order, whereas an unordered `query(Spot).all()` would scan them in `spotId` order.
- The float cast of a frequency text (`sa.cast(col, sa.Float)`) is the plan's `asFloat`. Float rounding is not modelled.
- SpotFilters.RegionFilterRemovesOthers: `startswith` is a case-sensitive prefix test, as Python reads it. SQLite's `LIKE` translation is not modelled. That translation is ASCII case-insensitive and treats `%` and `_` in the prefix as wildcards.
- Qrt.IsQrt: `lower()` and `\w` cover ASCII only. Non-ASCII letters count as non-word characters, whereas Python treats them as word characters.
- Query order: the modelled queries have no `ORDER BY`. The model returns rows in table order.
- NULL columns: a QSO's `call`, `freq` and `sig_info`, a spot's `reference` and a park's `hunts` are never NULL in the model. The NULL comparison semantics for those columns are not modelled. A NULL `locationDesc` is modelled, and it matches no region.
- Other facade operations are outside the modelled core. These are `update_park_data`, `log_qso`, `insert_qso`, `insert_spot_comments`, `update_spot_comments`, `update_activator_stat`, `get_activator*`, `build_qso_from_spot`, `get_by_mode`, `get_by_band`, `get_spot`, `get_qso`, `get_spot_comments`, `get_qsos_from_app` and `get_version`. Two of them have behaviour of their own. `get_by_band` ignores its `band` argument and returns the same filtered list as `get_spots`, which is `DataBase.GetSpots` (src/db/db.py:168-173). `build_qso_from_spot` returns a placeholder QSO when the spot is missing (src/db/db.py:244-249).
- In src/pota.py, the HTTP requests and status-code handling are left out; only the segment selection is modelled.
- Logging and the `delay_commit` flag are left out.
