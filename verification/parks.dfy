/**
 * The park table and its hunt counter (`inc_park_hunt`, `update_park_hunts`,
 * `get_park` in src/db/db.py), keyed by park reference.
 */
module ParkCounter {
  import opened Wrappers

  /** The descriptive columns a park JSON loads into a row. */
  datatype ParkMeta = ParkMeta(name: Option<string>, locationDesc: Option<string>)

  /** A bare `Park()` row carries no metadata. */
  const NoMeta := ParkMeta(None, None)

  /** The park JSON callers pass in (it carries no hunt count). */
  datatype ParkInfo = ParkInfo(reference: string, meta: ParkMeta)

  datatype Park = Park(reference: string, hunts: int, meta: ParkMeta)

  type Parks = map<string, Park>

  /** Every row sits under its own reference. */
  predicate WellKeyed(parks: Parks)
  {
    forall k :: k in parks ==> parks[k].reference == k
  }

  /** No park other than `key` is added, removed or changed. */
  predicate OthersUntouched(parks: Parks, updated: Parks, key: string)
  {
    && updated.Keys - {key} == parks.Keys - {key}
    && forall k :: k in parks && k != key ==> k in updated && updated[k] == parks[k]
  }

  /** `inc_park_hunt(park)`: nothing for `None`; a new row with one hunt for
      an unknown park; one more hunt (and the JSON's metadata) otherwise. */
  function IncParkHunt(parks: Parks, park: Option<ParkInfo>): (updated: Parks)
    ensures park.None? ==> updated == parks
    ensures park.Some? ==>
      var key := park.value.reference;
      && key in updated
      && updated[key].hunts == (if key in parks then parks[key].hunts + 1 else 1)
      && updated[key].meta == park.value.meta
      && OthersUntouched(parks, updated, key)
    ensures WellKeyed(parks) ==> WellKeyed(updated)
  {
    match park
    case None => parks
    case Some(info) =>
      var key := info.reference;
      if key in parks then
        parks[key := parks[key].(hunts := parks[key].hunts + 1, meta := info.meta)]
      else
        parks[key := Park(key, 1, info.meta)]
  }

  /** `update_park_hunts(park, hunts)`: the count is overwritten; an unknown
      park gets a bare row (no metadata), a known one reloads the JSON. */
  function UpdateParkHunts(parks: Parks, park: ParkInfo, hunts: int): (updated: Parks)
    ensures park.reference in updated && updated[park.reference].hunts == hunts
    ensures updated[park.reference].meta == (if park.reference in parks then park.meta else NoMeta)
    ensures OthersUntouched(parks, updated, park.reference)
    ensures WellKeyed(parks) ==> WellKeyed(updated)
  {
    var key := park.reference;
    if key in parks then
      parks[key := parks[key].(hunts := hunts, meta := park.meta)]
    else
      parks[key := Park(key, hunts, NoMeta)]
  }

  /** The `park_hunts` snapshot a spot takes: the park's count when the park
      exists and has been hunted, 0 otherwise. */
  function ParkHuntsSnapshot(parks: Parks, reference: string): (n: int)
    ensures n >= 0
    ensures n > 0 <==> reference in parks && parks[reference].hunts > 0
    ensures n > 0 ==> n == parks[reference].hunts
  {
    if reference in parks && parks[reference].hunts > 0 then parks[reference].hunts else 0
  }

  /** Logging a hunt of a park with a non-negative count raises the
      snapshot the next enrichment takes by exactly one. */
  lemma IncRaisesSnapshot(parks: Parks, park: ParkInfo)
    requires park.reference in parks ==> parks[park.reference].hunts >= 0
    ensures ParkHuntsSnapshot(IncParkHunt(parks, Some(park)), park.reference)
         == ParkHuntsSnapshot(parks, park.reference) + 1
  {
  }

  /** After a bulk update the snapshot is the imported count, or 0 for a
      non-positive one. */
  lemma UpdateSetsSnapshot(parks: Parks, park: ParkInfo, hunts: int)
    ensures ParkHuntsSnapshot(UpdateParkHunts(parks, park, hunts), park.reference) == if hunts > 0 then hunts else 0
  {
  }

  /** Snapshots of other parks are not affected by either update. */
  lemma UpdatesKeepOtherSnapshots(parks: Parks, park: ParkInfo, hunts: int, other: string)
    requires other != park.reference
    ensures ParkHuntsSnapshot(IncParkHunt(parks, Some(park)), other) == ParkHuntsSnapshot(parks, other)
    ensures ParkHuntsSnapshot(UpdateParkHunts(parks, park, hunts), other) == ParkHuntsSnapshot(parks, other)
  {
  }
}
