/** The evacuation-centre screen: how it loads the centres, the selector
    row drawn for each centre, and the centre chosen for navigation. */
module EvacuationCenters {
  import opened Wrappers
  import opened Payloads
  import opened Occupancy

  datatype LatLng = LatLng(lat: real, lng: real)

  datatype Center = Center(
    id: string, name: string, address: string, capacity: Option<int>, currentCount: Option<int>,
    isActive: bool, location: LatLng)

  /** The two palettes of a selector row. */
  datatype Palette = Palette(background: string, text: string)

  const OpenPalette := Palette("#ecfdf5", "#065f46")
  const ClosedPalette := Palette("#f3f4f6", "#374151")

  /** What a selector row shows for one centre. */
  datatype Row = Row(caption: string, palette: Palette, capacity: int, occupied: int, pct: int, status: Status)

  function RowOf(c: Center): (r: Row)
    ensures r.capacity == OrZero(c.capacity) && r.occupied == OrZero(c.currentCount)
    ensures r.pct == Percent(r.capacity, r.occupied) && r.status == Classify(r.pct)
    ensures c.isActive ==> r.caption == c.name && r.palette == OpenPalette
    ensures !c.isActive ==> r.caption == c.name + " (Closed)" && r.palette == ClosedPalette
  {
    var cap := OrZero(c.capacity);
    var occ := OrZero(c.currentCount);
    var pct := Percent(cap, occ);
    Row(if c.isActive then c.name else c.name + " (Closed)",
        if c.isActive then OpenPalette else ClosedPalette,
        cap, occ, pct, Classify(pct))
  }

  /** A centre with no capacity, or with its counts missing, shows 0 % and
      Available; the caption tells open and closed centres apart. */
  lemma RowDefaults(c: Center)
    ensures OrZero(c.capacity) <= 0 ==> RowOf(c).pct == 0 && RowOf(c).status == Available
    ensures c.capacity.Some? && c.capacity.value > 0 && c.currentCount.None? ==>
      RowOf(c).pct == 0 && RowOf(c).status == Available
    ensures (RowOf(c).palette == OpenPalette) <==> c.isActive
  {
    if c.capacity.Some? && c.capacity.value > 0 {
      PercentEnds(c.capacity.value);
    }
  }

  class CentersScreen {
    var centers: seq<Center>
    var loading: bool
    var selected: Option<LatLng>

    constructor ()
      ensures centers == [] && loading && selected == None
    {
      centers := [];
      loading := true;
      selected := None;
    }

    /** The mount effect: without a token or without location permission it
        stops loading and fetches nothing; otherwise the answer (or none)
        becomes the list. A failed request leaves the list as it was. Loading
        is off in every case. */
    method Init(token: bool, permissionGranted: bool, resp: Response<seq<Center>>)
      modifies this`centers, this`loading
      ensures !loading
      ensures !token || !permissionGranted || resp.Failed? ==> centers == old(centers)
      ensures token && permissionGranted && resp.Ok? ==> centers == resp.data.GetOr([])
    {
      if !token {
        loading := false;
        return;
      }
      if !permissionGranted {
        loading := false;
        return;
      }
      if resp.Ok? {
        centers := resp.data.GetOr([]);
      }
      loading := false;
    }

    /** Tapping a centre routes to exactly its coordinates. */
    method Select(c: Center)
      modifies this`selected
      ensures selected == Some(LatLng(c.location.lat, c.location.lng))
    {
      selected := Some(LatLng(c.location.lat, c.location.lng));
    }

    /** The selector shows one row per loaded centre, in order. */
    function Rows(): (rs: seq<Row>)
      reads this
      ensures |rs| == |centers|
      ensures forall i :: 0 <= i < |rs| ==> rs[i] == RowOf(centers[i])
    {
      seq(|centers|, i requires 0 <= i < |centers| reads this => RowOf(centers[i]))
    }
  }
}
