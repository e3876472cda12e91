/** The resident's live view of one emergency: the status string, the
    responder's position and the event history that the tracker screen folds
    socket events, its 3-second poller and history fetches into. */
module EmergencyTracker {
  import opened Wrappers
  import opened Strings
  import opened Payloads

  /** The `{lat, lng}` the map is given; either coordinate may end up
      undefined. */
  datatype Location = Location(lat: Option<real>, lng: Option<real>)

  /** One history row, as the server sends it or as a live event creates it. */
  datatype HistoryEntry = HistoryEntry(
    eventType: Option<string>, payload: Option<Payload>, createdAt: Option<string>)

  /** The body of a history response: an array, or anything else. */
  datatype HistoryBody = HistoryArray(entries: seq<HistoryEntry>) | NotAnArray

  // ---------------------------------------------------------------------
  // Pure parts: location formatting, status updaters, history updaters
  // ---------------------------------------------------------------------

  /** `{ lat: l.lat || l.latitude, lng: l.lng || l.longitude }` */
  function FormatLocation(raw: RawLocation): Location {
    Location(if NumTruthy(raw.lat) then raw.lat else raw.latitude,
             if NumTruthy(raw.lng) then raw.lng else raw.longitude)
  }

  /** A formatted location handed back as a raw one. */
  function AsRaw(loc: Location): RawLocation {
    RawLocation(loc.lat, loc.lng, None, None)
  }

  /** Formatting keeps a non-zero `lat`/`lng`; a zero one is not kept but
      replaced by `latitude`/`longitude`, whatever that holds. */
  lemma FormatLocationFallsThroughOnZero(raw: RawLocation)
    ensures NumTruthy(raw.lat) ==> FormatLocation(raw).lat == raw.lat
    ensures raw.lat == Some(0.0) || raw.lat == None ==> FormatLocation(raw).lat == raw.latitude
    ensures NumTruthy(raw.lng) ==> FormatLocation(raw).lng == raw.lng
    ensures raw.lng == Some(0.0) || raw.lng == None ==> FormatLocation(raw).lng == raw.longitude
  {
  }

  /** Re-formatting an already formatted location gives it back exactly when
      neither coordinate is zero: a zero coordinate turns into undefined. */
  lemma FormatLocationStableUnlessZero(loc: Location)
    ensures FormatLocation(AsRaw(loc)) == loc <==> loc.lat != Some(0.0) && loc.lng != Some(0.0)
  {
  }

  /** The initial fetch reads `responderLocation`, else the one nested under
      the responder's user record. */
  function InitialResponderLocation(d: Payload): (r: Option<RawLocation>)
    ensures d.responderLocation.Some? ==> r == d.responderLocation
    ensures d.responderLocation.None? ==> r == d.responderUserLocation
  {
    if d.responderLocation.Some? then d.responderLocation else d.responderUserLocation
  }

  /** `(s||'').toUpperCase()` is ARRIVED or RESOLVED. */
  predicate IsSticky(s: string) {
    Upper(s) == "ARRIVED" || Upper(s) == "RESOLVED"
  }

  /** The poller's `setStatus(prev => ...)`: an ARRIVED or RESOLVED status is
      kept, anything else is replaced by the polled status (default PENDING). */
  function PollStatus(prev: string, d: Payload): (r: string)
    ensures IsSticky(prev) ==> r == prev
    ensures !IsSticky(prev) && Truthy(d.status) ==> r == d.status.value
    ensures !IsSticky(prev) && !Truthy(d.status) ==> r == "PENDING"
  {
    if IsSticky(prev) then prev else OrElse(d.status, "PENDING")
  }

  /** A fetched record whose status is ARRIVED or RESOLVED stops the poller. */
  predicate PollStops(d: Payload) {
    IsSticky(OrElse(d.status, ""))
  }

  /** The status after a run of polls, each folding one fetched record. */
  function PollAll(prev: string, records: seq<Payload>): string
    decreases |records|
  {
    if records == [] then prev else PollAll(PollStatus(prev, records[0]), records[1..])
  }

  /** However many polls follow, an ARRIVED or RESOLVED status survives them. */
  lemma {:induction false} StickyThroughPolls(prev: string, records: seq<Payload>)
    requires IsSticky(prev)
    ensures PollAll(prev, records) == prev
    decreases |records|
  {
    if records != [] {
      StickyThroughPolls(PollStatus(prev, records[0]), records[1..]);
    }
  }

  /** Below ARRIVED the poll is not monotone: the last polled status wins,
      whatever it is. */
  lemma {:induction false} PollAllIsLastPolled(prev: string, records: seq<Payload>)
    requires records != []
    requires forall i :: 0 <= i < |records| ==> !IsSticky(OrElse(records[i].status, "PENDING"))
    requires !IsSticky(prev)
    ensures PollAll(prev, records) == OrElse(records[|records| - 1].status, "PENDING")
    decreases |records|
  {
    if |records| > 1 {
      PollAllIsLastPolled(PollStatus(prev, records[0]), records[1..]);
      assert records[1..][|records[1..]| - 1] == records[|records| - 1];
    }
  }

  /** What an `emergency:responderLocation` event sets the status to. */
  function LocationEventStatus(p: Payload): string {
    OrElse(p.status, "IN_PROGRESS")
  }

  /** The `event_type` of the history row a location event appends, if it
      appends one. */
  function LocationEventType(p: Payload): Option<string> {
    if Truthy(p.eventType) || Truthy(p.arrivedAt) || IntTruthy(p.ts) then
      Some(if Truthy(p.eventType) then p.eventType.value
           else if Truthy(p.arrivedAt) then "ARRIVED"
           else if IntTruthy(p.ts) then "RESPONDER_LOCATION"
           else "UPDATE")
    else None
  }

  /** A location event appends a row exactly when it carries an event type,
      an arrival time or a timestamp; without an event type of its own the row
      is ARRIVED or RESPONDER_LOCATION, never UPDATE. */
  lemma LocationEventTypeCases(p: Payload)
    ensures LocationEventType(p).Some? <==> Truthy(p.eventType) || Truthy(p.arrivedAt) || IntTruthy(p.ts)
    ensures Truthy(p.eventType) ==> LocationEventType(p) == p.eventType
    ensures !Truthy(p.eventType) && LocationEventType(p).Some? ==>
      LocationEventType(p).value == (if Truthy(p.arrivedAt) then "ARRIVED" else "RESPONDER_LOCATION")
  {
  }

  /** The history rows a location event contributes. */
  function LocationEventRows(p: Payload, now: string): seq<HistoryEntry> {
    match LocationEventType(p)
    case Some(t) => [HistoryEntry(Some(t), Some(p), Some(now))]
    case None => []
  }

  predicate IsArrivedEntry(e: HistoryEntry) {
    Upper(OrElse(e.eventType, "")) == "ARRIVED"
  }

  predicate HasArrived(h: seq<HistoryEntry>) {
    exists i :: 0 <= i < |h| && IsArrivedEntry(h[i])
  }

  /** The arrived handler's `setHistory(h => ...)`. */
  function WithArrived(h: seq<HistoryEntry>, p: Payload, now: string): seq<HistoryEntry> {
    if HasArrived(h) then h
    else h + [HistoryEntry(Some("ARRIVED"), Some(p), Some(if Truthy(p.arrivedAt) then p.arrivedAt.value else now))]
  }

  /** The arrived updater adds one ARRIVED row, stamped with `arrivedAt` when
      present, and only to a history without one; applying it again, for a
      duplicate event, changes nothing. */
  lemma WithArrivedDedups(h: seq<HistoryEntry>, p: Payload, now: string, p2: Payload, now2: string)
    ensures HasArrived(h) ==> WithArrived(h, p, now) == h
    ensures !HasArrived(h) ==> WithArrived(h, p, now) == h + [HistoryEntry(Some("ARRIVED"), Some(p), Some(OrElse(p.arrivedAt, now)))]
    ensures HasArrived(WithArrived(h, p, now))
    ensures WithArrived(WithArrived(h, p, now), p2, now2) == WithArrived(h, p, now)
  {
    var h1 := WithArrived(h, p, now);
    if !HasArrived(h) {
      assert IsArrivedEntry(h1[|h|]);
    }
  }

  /** The responder position shown after a fetched record is applied: the
      record's responder location (its own, else the responder user's),
      normalised, or the one shown before when it has none. */
  function AppliedLocation(prev: Option<Location>, d: Payload): (r: Option<Location>)
    ensures d.responderLocation.Some? ==> r == Some(FormatLocation(d.responderLocation.value))
    ensures d.responderLocation.None? && d.responderUserLocation.Some? ==>
      r == Some(FormatLocation(d.responderUserLocation.value))
    ensures d.responderLocation.None? && d.responderUserLocation.None? ==> r == prev
  {
    match InitialResponderLocation(d)
    case Some(raw) => Some(FormatLocation(raw))
    case None => prev
  }

  /** `Array.isArray(res.data) ? res.data : []` */
  function HistoryFromBody(body: HistoryBody): seq<HistoryEntry> {
    if body.HistoryArray? then body.entries else []
  }

  // ---------------------------------------------------------------------
  // The screen's state and the callbacks that update it
  // ---------------------------------------------------------------------

  class Tracker {
    /** The `emergencyId` route parameter, fixed for the screen's life. */
    const emergencyId: Option<string>
    var status: string
    var responderLocation: Option<Location>
    var history: seq<HistoryEntry>
    /** The poller's interval handle `iv` is set. */
    var polling: bool
    /** How many times the poller's interval has been cleared. */
    var pollerClears: nat

    /** The interval is cleared once at most, and exactly when it is no
        longer set. */
    ghost predicate Valid()
      reads this
    {
      pollerClears == (if polling then 0 else 1)
    }

    /** Events about another emergency are ignored when a route id is set. */
    predicate Concerns(p: Payload) {
      !Truthy(emergencyId) || p.emergencyId == emergencyId
    }

    /** Mount: initial state, and the poller is started. */
    constructor (emergencyId: Option<string>)
      ensures Valid()
      ensures this.emergencyId == emergencyId
      ensures status == "PENDING" && responderLocation == None && history == []
      ensures polling
    {
      this.emergencyId := emergencyId;
      status := "PENDING";
      responderLocation := None;
      history := [];
      polling := true;
      pollerClears := 0;
    }

    /** Folds a fetched record the way the initial fetch does: the status is
        written unconditionally, and a responder position, if any, replaces
        the shown one. */
    method ApplyRecord(d: Payload)
      modifies this
      ensures status == OrElse(d.status, "PENDING")
      ensures responderLocation == AppliedLocation(old(responderLocation), d)
      ensures history == old(history) && polling == old(polling) && pollerClears == old(pollerClears)
    {
      status := OrElse(d.status, "PENDING");
      var respLoc := InitialResponderLocation(d);
      if respLoc.Some? {
        responderLocation := Some(FormatLocation(respLoc.value));
      }
    }

    /** The initial fetch on mount. Without a token nothing happens; a record
        is applied when the request returns one; when the request by id fails
        with 404, the latest emergency is fetched and applied instead. */
    method InitialFetch(token: bool, first: Response<Payload>, firstNotFound: bool, fallback: Response<Payload>)
      requires Valid()
      modifies this
      ensures Valid()
      ensures !token ==> unchanged(this)
      ensures token && first.HasData() ==>
        && status == OrElse(first.data.value.status, "PENDING")
        && responderLocation == AppliedLocation(old(responderLocation), first.data.value)
        && history == old(history) && polling == old(polling) && pollerClears == old(pollerClears)
      ensures token && first.Failed? && firstNotFound && Truthy(emergencyId) && fallback.HasData() ==>
        && status == OrElse(fallback.data.value.status, "PENDING")
        && responderLocation == AppliedLocation(old(responderLocation), fallback.data.value)
        && history == old(history) && polling == old(polling) && pollerClears == old(pollerClears)
      ensures token && first.Ok? && first.data.None? ==> unchanged(this)
      ensures token && first.Failed? && !(firstNotFound && Truthy(emergencyId) && fallback.HasData()) ==> unchanged(this)
    {
      if !token {
        return;
      }
      if first.HasData() {
        ApplyRecord(first.data.value);
      } else if first.Failed? && firstNotFound && Truthy(emergencyId) && fallback.HasData() {
        ApplyRecord(fallback.data.value);
      }
    }

    /** `emergency:responderLocation`: moves the responder, sets the status
        unconditionally (even over ARRIVED) and may append a history row. */
    method OnResponderLocation(p: Option<Payload>, now: string)
      requires Valid()
      modifies this
      ensures Valid()
      ensures p.None? || !Concerns(p.value) ==> unchanged(this)
      ensures p.Some? && Concerns(p.value) ==>
        && status == LocationEventStatus(p.value)
        && responderLocation == (if p.value.location.Some? then Some(FormatLocation(p.value.location.value))
                                 else old(responderLocation))
        && history == old(history) + LocationEventRows(p.value, now)
        && polling == old(polling) && pollerClears == old(pollerClears)
    {
      if p.None? || !Concerns(p.value) {
        return;
      }
      var payload := p.value;
      if payload.location.Some? {
        responderLocation := Some(FormatLocation(payload.location.value));
      }
      if Truthy(payload.status) {
        status := payload.status.value;
      } else {
        status := "IN_PROGRESS";
      }
      var t := LocationEventType(payload);
      if t.Some? {
        history := history + [HistoryEntry(t, Some(payload), Some(now))];
      }
    }

    /** `emergency:accepted`: status ACCEPTED, whatever it was, and an
        ACCEPTED row is appended (duplicates included). */
    method OnAccepted(p: Option<Payload>, now: string)
      requires Valid()
      modifies this
      ensures Valid()
      ensures p.None? || !Concerns(p.value) ==> unchanged(this)
      ensures p.Some? && Concerns(p.value) ==>
        && status == "ACCEPTED"
        && history == old(history) + [HistoryEntry(Some("ACCEPTED"), p, Some(now))]
        && responderLocation == old(responderLocation)
        && polling == old(polling) && pollerClears == old(pollerClears)
    {
      if p.None? || !Concerns(p.value) {
        return;
      }
      status := "ACCEPTED";
      history := history + [HistoryEntry(Some("ACCEPTED"), p, Some(now))];
    }

    /** `emergency:arrived`: status ARRIVED and at most one ARRIVED row.
        Returns the id whose history is then re-fetched, if any. */
    method OnArrived(p: Option<Payload>, now: string, token: bool) returns (refetch: Option<string>)
      requires Valid()
      modifies this
      ensures Valid()
      ensures p.None? || !Concerns(p.value) ==> unchanged(this) && refetch == None
      ensures p.Some? && Concerns(p.value) ==>
        && status == "ARRIVED"
        && history == WithArrived(old(history), p.value, now)
        && responderLocation == old(responderLocation)
        && polling == old(polling) && pollerClears == old(pollerClears)
        && refetch == (if !token then None
                       else if Truthy(emergencyId) then emergencyId
                       else if Truthy(p.value.emergencyId) then p.value.emergencyId
                       else None)
    {
      refetch := None;
      if p.None? || !Concerns(p.value) {
        return;
      }
      status := "ARRIVED";
      history := WithArrived(history, p.value, now);
      if token {
        if Truthy(emergencyId) {
          refetch := emergencyId;
        } else if Truthy(p.value.emergencyId) {
          refetch := p.value.emergencyId;
        }
      }
    }

    /** A history response (mount fetch, re-fetch after arrival): the list is
        replaced wholesale, live-only rows included; a failed request (`None`)
        leaves it. */
    method OnHistoryFetched(body: Option<HistoryBody>)
      requires Valid()
      modifies this`history
      ensures Valid()
      ensures history == (if body.Some? then HistoryFromBody(body.value) else old(history))
    {
      if body.Some? {
        history := HistoryFromBody(body.value);
      }
    }

    /** One firing of the 3-second poller. It runs only while the interval is
        set, needs a token and an id (the route's, else the latest
        emergency's); a fetched record updates the status unless it is already
        ARRIVED or RESOLVED, moves the responder, and stops the poller when its
        own status is ARRIVED or RESOLVED; a history response replaces the
        list. */
    method PollTick(token: bool, latestId: Option<string>, record: Response<Payload>, historyBody: Option<HistoryBody>)
      requires Valid()
      modifies this
      ensures Valid()
      ensures !old(polling) || !token || !(Truthy(emergencyId) || Truthy(latestId)) ==> unchanged(this)
      ensures old(polling) && token && (Truthy(emergencyId) || Truthy(latestId)) ==>
        && status == (if record.HasData() then PollStatus(old(status), record.data.value) else old(status))
        && responderLocation == (if record.HasData() && record.data.value.responderLocation.Some?
                                 then Some(FormatLocation(record.data.value.responderLocation.value))
                                 else old(responderLocation))
        && polling == !(record.HasData() && PollStops(record.data.value))
        && history == (if historyBody.Some? then HistoryFromBody(historyBody.value) else old(history))
    {
      if !polling || !token {
        return;
      }
      if !Truthy(emergencyId) && !Truthy(latestId) {
        return;
      }
      if record.HasData() {
        var d := record.data.value;
        status := PollStatus(status, d);
        if d.responderLocation.Some? {
          responderLocation := Some(FormatLocation(d.responderLocation.value));
        }
        if PollStops(d) {
          if polling {
            polling := false;
            pollerClears := pollerClears + 1;
          }
        }
      }
      OnHistoryFetched(historyBody);
    }

    /** Unmount: the poller is cleared if it is still set. */
    method Unmount()
      requires Valid()
      modifies this`polling, this`pollerClears
      ensures Valid() && !polling
      ensures pollerClears == 1
    {
      if polling {
        polling := false;
        pollerClears := pollerClears + 1;
      }
    }
  }

  /** Scenario: a poll can regress ACCEPTED to PENDING, and a socket event
      can undo ARRIVED. */
  method SocketRegressesPollDoesNot(now: string)
  {
    var t := new Tracker(Some("e1"));
    var ev := EmptyPayload().(emergencyId := Some("e1"));
    t.OnAccepted(Some(ev), now);
    assert Upper("ACCEPTED")[1] == 'C';
    t.PollTick(true, None, Ok(Some(EmptyPayload())), None);
    assert t.status == "PENDING";
    var _ := t.OnArrived(Some(ev), now, false);
    t.OnAccepted(Some(ev), now);
    assert t.status == "ACCEPTED";
  }

  /** Scenario: once ARRIVED, a poll reporting PENDING keeps ARRIVED. */
  method PollKeepsArrived(now: string)
  {
    var t := new Tracker(Some("e1"));
    var ev := EmptyPayload().(emergencyId := Some("e1"));
    var _ := t.OnArrived(Some(ev), now, false);
    assert Upper("ARRIVED") == "ARRIVED";
    t.PollTick(true, None, Ok(Some(EmptyPayload().(status := Some("PENDING")))), None);
    assert t.status == "ARRIVED";
  }
}
