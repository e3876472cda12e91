/** The map's centre markers: one marker per centre, coloured by whether it
    is open, with the popup's counts and occupancy label. */
module MapMarkers {
  import opened Wrappers
  import opened Occupancy
  import opened EvacuationCenters

  datatype Icon = GreenIcon | GreyIcon

  datatype Marker = Marker(
    lat: real, lng: real, icon: Icon, name: string, address: string,
    capacity: int, occupied: int, available: int, openText: string, pct: int, status: Status)

  /** `Math.max(0, cap - occ)`: the free places, never negative. */
  function Available(cap: int, occ: int): (r: int)
    ensures r >= 0 && r >= cap - occ
    ensures r == 0 || r == cap - occ
  {
    if cap - occ > 0 then cap - occ else 0
  }

  function MarkerOf(c: Center): Marker {
    var cap := OrZero(c.capacity);
    var occ := OrZero(c.currentCount);
    var pct := Percent(cap, occ);
    Marker(c.location.lat, c.location.lng, if c.isActive then GreenIcon else GreyIcon,
           c.name, c.address, cap, occ, Available(cap, occ),
           if c.isActive then "Open" else "Closed", pct, Classify(pct))
  }

  /** `centers.map(...)`: one marker per centre, in input order. */
  function Markers(centers: seq<Center>): (ms: seq<Marker>)
    ensures |ms| == |centers|
    ensures forall i :: 0 <= i < |ms| ==> ms[i] == MarkerOf(centers[i])
  {
    seq(|centers|, i requires 0 <= i < |centers| => MarkerOf(centers[i]))
  }

  /** Each marker sits on its centre, is green exactly when the centre is
      open (and then says Open), and agrees with the selector row on the
      counts, the percentage and the label. */
  lemma MarkerAgreesWithRow(c: Center)
    ensures var m := MarkerOf(c);
      && m.lat == c.location.lat && m.lng == c.location.lng
      && (m.icon == GreenIcon <==> c.isActive)
      && (m.openText == "Open" <==> m.icon == GreenIcon)
      && m.capacity == RowOf(c).capacity && m.occupied == RowOf(c).occupied
      && m.pct == RowOf(c).pct && m.status == RowOf(c).status
      && m.available + m.occupied >= m.capacity
  {
  }

  /** Markers for two lists of centres are the markers of each, joined. */
  lemma MarkersAppend(a: seq<Center>, b: seq<Center>)
    ensures Markers(a + b) == Markers(a) + Markers(b)
  {
  }
}
