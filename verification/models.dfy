/** The rows the core reads and writes: spots and logged QSOs. */
module Models {
  import opened Wrappers

  /** A spot as delivered by the spot source, before enrichment
      (the columns of the `spots` table that the core carries). */
  datatype RawSpot = RawSpot(
    spotId: int,
    activator: string,
    frequency: string,           // kHz, as text
    mode: string,
    reference: string,           // park reference, e.g. "K-7465"
    parkName: Option<string>,
    spotTime: int,
    spotter: string,
    comments: Option<string>,
    source: string,
    name: string,
    locationDesc: Option<string>,
    grid4: string,
    grid6: string)

  /** A stored spot: the raw fields plus the five derived ones. */
  datatype Spot = Spot(
    raw: RawSpot,
    parkHunts: int,
    opHunts: int,
    hunted: bool,
    huntedBands: string,
    isQrt: bool)

  /** The QSO columns the core queries. `timeOn` is an instant on the same
      scale as the "start of today" the callers pass in. */
  datatype Qso = Qso(call: string, freq: string, timeOn: int, sigInfo: string)
}
