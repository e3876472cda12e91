/** The responder's assignment lifecycle: which emergency is assigned, the
    responder's duty status, the periodic location sender, and the effect of
    socket updates and of the accept / arrive / resolve / mark-fraud actions. */
module ResponderHome {
  import opened Wrappers
  import opened Strings
  import opened Seqs
  import opened Payloads

  /** The fields of `GET /users/profile` the screen reads. */
  datatype Me = Me(id: Option<string>)

  /** `emergencies.find(e => e.responderId === meId && e.status !== 'RESOLVED')` */
  function FindAssigned(emergencies: seq<Payload>, meId: Option<string>): Option<Payload>
    decreases |emergencies|
  {
    if emergencies == [] then None
    else if emergencies[0].responderId == meId && emergencies[0].status != Some("RESOLVED") then Some(emergencies[0])
    else FindAssigned(emergencies[1..], meId)
  }

  /** An emergency the responder is on: assigned to them and not resolved. */
  predicate IsMine(e: Payload, meId: Option<string>) {
    e.responderId == meId && e.status != Some("RESOLVED")
  }

  /** `find` returns the first emergency that is the responder's, and nothing
      exactly when none is. */
  lemma {:induction false} FindAssignedIsFirst(emergencies: seq<Payload>, meId: Option<string>)
    ensures FindAssigned(emergencies, meId).None? <==>
      forall i :: 0 <= i < |emergencies| ==> !IsMine(emergencies[i], meId)
    ensures FindAssigned(emergencies, meId).Some? ==>
      exists k :: 0 <= k < |emergencies| && emergencies[k] == FindAssigned(emergencies, meId).value
        && IsMine(emergencies[k], meId)
        && forall i :: 0 <= i < k ==> !IsMine(emergencies[i], meId)
    decreases |emergencies|
  {
    if emergencies != [] && !IsMine(emergencies[0], meId) {
      FindAssignedIsFirst(emergencies[1..], meId);
      var r := FindAssigned(emergencies, meId);
      if r.Some? {
        var k :| 0 <= k < |emergencies[1..]| && emergencies[1..][k] == r.value
          && IsMine(emergencies[1..][k], meId)
          && forall i :: 0 <= i < k ==> !IsMine(emergencies[1..][i], meId);
        assert emergencies[k + 1] == r.value;
        assert forall i :: 0 <= i < k + 1 ==> !IsMine(emergencies[i], meId) by {
          forall i | 0 <= i < k + 1
            ensures !IsMine(emergencies[i], meId)
          {
            if i > 0 {
              assert emergencies[i] == emergencies[1..][i - 1];
            }
          }
        }
      } else {
        forall i | 0 <= i < |emergencies|
          ensures !IsMine(emergencies[i], meId)
        {
          if i > 0 {
            assert emergencies[i] == emergencies[1..][i - 1];
          }
        }
      }
    } else if emergencies != [] {
      assert IsMine(emergencies[0], meId);
    }
  }

  /** What `formatDistance` shows: nothing, whole metres, or kilometres
      (whose one-decimal text is not modelled). */
  datatype DistanceText = NoDistance | Metres(text: string) | Kilometres(metres: nat)

  function FormatDistance(m: Option<nat>): DistanceText {
    match m
    case None => NoDistance
    case Some(v) => if v < 1000 then Metres(NatToString(v) + " m") else Kilometres(v)
  }

  /** Below a kilometre the label is the decimal distance followed by " m",
      and reading its digits back gives the distance. */
  lemma FormatDistanceMetres(m: nat)
    requires m < 1000
    ensures FormatDistance(Some(m)).Metres?
    ensures var t := FormatDistance(Some(m)).text;
      && |t| >= 3 && t[|t| - 2..] == " m"
      && (forall i :: 0 <= i < |t| - 2 ==> IsDigit(t[i]))
      && DigitsValue(t[..|t| - 2]) == m
  {
    var t := FormatDistance(Some(m)).text;
    assert t[..|t| - 2] == NatToString(m);
    DigitsValueOfNatToString(m);
  }

  /** The effect that starts the location sender: an assignment that has not
      ARRIVED. */
  predicate WantsLocationUpdates(a: Option<Payload>) {
    a.Some? && a.value.status != Some("ARRIVED")
  }

  /** The record `emergency:updated` leaves assigned, judged against `seen`,
      the assignment the listener's closure holds. */
  function UpdatedAssignment(seen: Option<Payload>, current: Option<Payload>, em: Option<Payload>): (r: Option<Payload>)
    ensures r != current ==> r == em
  {
    if em.Some? && seen.Some? && em.value.id == seen.value.id && em.value.status != Some("IN_PROGRESS") then em
    else current
  }

  /** An update is applied only to the assignment it is about and never when
      it reports IN_PROGRESS. */
  lemma UpdatedAssignmentSpec(seen: Option<Payload>, current: Option<Payload>, em: Option<Payload>)
    ensures UpdatedAssignment(seen, current, em) == em <== em.Some? && seen.Some? && em.value.id == seen.value.id && em.value.status != Some("IN_PROGRESS")
    ensures seen.None? ==> UpdatedAssignment(seen, current, em) == current
    ensures em.Some? && em.value.status == Some("IN_PROGRESS") ==> UpdatedAssignment(seen, current, em) == current
    ensures em.None? || (seen.Some? && em.value.id != seen.value.id) ==> UpdatedAssignment(seen, current, em) == current
    ensures !(em.Some? && seen.Some? && em.value.id == seen.value.id && em.value.status != Some("IN_PROGRESS")) ==>
      UpdatedAssignment(seen, current, em) == current
  {
  }

  /** The `emergency:arrived` updater: only the status of the current
      assignment changes, to ARRIVED. */
  function ArrivedAssignment(seen: Option<Payload>, current: Option<Payload>, p: Option<Payload>): (r: Option<Payload>)
    ensures r.Some? <==> current.Some?
    ensures r.Some? ==> r.value == current.value.(status := r.value.status)
    ensures r.Some? && r != current ==> r.value.status == Some("ARRIVED")
  {
    if seen.Some? && p.Some? && p.value.emergencyId == seen.value.id && current.Some? then
      Some(current.value.(status := Some("ARRIVED")))
    else current
  }

  /** An arrival for the assignment the listener saw marks the current record
      ARRIVED and changes nothing else; any other event leaves it, and a
      repeated arrival changes nothing more. */
  lemma ArrivedAssignmentSpec(seen: Option<Payload>, current: Option<Payload>, p: Option<Payload>)
    ensures seen.Some? && p.Some? && p.value.emergencyId == seen.value.id && current.Some? ==>
      ArrivedAssignment(seen, current, p) == Some(current.value.(status := Some("ARRIVED")))
    ensures !(seen.Some? && p.Some? && p.value.emergencyId == seen.value.id) ==>
      ArrivedAssignment(seen, current, p) == current
    ensures ArrivedAssignment(seen, ArrivedAssignment(seen, current, p), p) == ArrivedAssignment(seen, current, p)
  {
  }

  class Responder {
    var assignment: Option<Payload>
    var status: string
    /** `intervalRef.current` is set. */
    var senderSet: bool
    /** Location-sending intervals that are running, leaked ones included. */
    var liveSenders: nat
    var arriving: bool
    var arrivedPressed: bool
    var acceptModalVisible: bool
    var accepting: bool
    var responderTypes: seq<string>

    /** The interval in the ref is one of those running. */
    ghost predicate Valid()
      reads this
    {
      senderSet ==> liveSenders > 0
    }

    constructor ()
      ensures Valid()
      ensures assignment == None && status == "AVAILABLE"
      ensures !senderSet && liveSenders == 0
      ensures !arriving && !arrivedPressed && !acceptModalVisible && !accepting
      ensures responderTypes == []
    {
      assignment := None;
      status := "AVAILABLE";
      senderSet := false;
      liveSenders := 0;
      arriving := false;
      arrivedPressed := false;
      acceptModalVisible := false;
      accepting := false;
      responderTypes := [];
    }

    /** `startLocationUpdates`: with permission a new interval is started and
        stored in the ref, without clearing one already there. */
    method StartLocationUpdates(permissionGranted: bool)
      requires Valid()
      modifies this`senderSet, this`liveSenders
      ensures Valid()
      ensures !permissionGranted ==> senderSet == old(senderSet) && liveSenders == old(liveSenders)
      ensures permissionGranted ==> senderSet && liveSenders == old(liveSenders) + 1
    {
      if !permissionGranted {
        return;
      }
      liveSenders := liveSenders + 1;
      senderSet := true;
    }

    /** `stopLocationUpdates`: the interval in the ref, if any, is cleared and
        the ref emptied. */
    method StopLocationUpdates()
      requires Valid()
      modifies this`senderSet, this`liveSenders
      ensures Valid() && !senderSet
      ensures liveSenders == (if old(senderSet) then old(liveSenders) - 1 else old(liveSenders))
    {
      if senderSet {
        liveSenders := liveSenders - 1;
        senderSet := false;
      }
    }

    /** The effect run whenever the assignment changes: the sender runs for an
        assignment that has not ARRIVED and is stopped otherwise; an
        IN_PROGRESS assignment opens the accept modal. */
    method AssignmentEffect(permissionGranted: bool)
      requires Valid()
      modifies this`senderSet, this`liveSenders, this`acceptModalVisible
      ensures Valid()
      ensures WantsLocationUpdates(assignment) && permissionGranted ==> senderSet && liveSenders == old(liveSenders) + 1
      ensures WantsLocationUpdates(assignment) && !permissionGranted ==>
        senderSet == old(senderSet) && liveSenders == old(liveSenders)
      ensures !WantsLocationUpdates(assignment) ==>
        && !senderSet
        && liveSenders == (if old(senderSet) then old(liveSenders) - 1 else old(liveSenders))
      ensures acceptModalVisible == (old(acceptModalVisible) || (assignment.Some? && assignment.value.status == Some("IN_PROGRESS")))
    {
      if WantsLocationUpdates(assignment) {
        StartLocationUpdates(permissionGranted);
      } else {
        StopLocationUpdates();
      }
      if assignment.Some? && assignment.value.status == Some("IN_PROGRESS") {
        acceptModalVisible := true;
      }
    }

    /** `emergency:assigned`: the record is assigned and the accept modal shown. */
    method OnAssigned(em: Option<Payload>)
      modifies this`assignment, this`acceptModalVisible
      ensures assignment == em && acceptModalVisible
    {
      assignment := em;
      acceptModalVisible := true;
    }

    /** `emergency:updated`; `seen` is the assignment as the listener's closure
        holds it. */
    method OnUpdated(seen: Option<Payload>, em: Option<Payload>)
      modifies this`assignment
      ensures assignment == UpdatedAssignment(seen, old(assignment), em)
    {
      if em.None? {
        return;
      }
      if seen.Some? && em.value.id == seen.value.id && em.value.status != Some("IN_PROGRESS") {
        assignment := em;
      }
    }

    /** `emergency:arrived`; `seen` as for `OnUpdated`. */
    method OnArrived(seen: Option<Payload>, p: Option<Payload>)
      modifies this`assignment
      ensures assignment == ArrivedAssignment(seen, old(assignment), p)
    {
      if seen.Some? && p.Some? && p.value.emergencyId == seen.value.id {
        if assignment.Some? {
          assignment := Some(assignment.value.(status := Some("ARRIVED")));
        }
      }
    }

    /** `fetchAssigned`: the first emergency assigned to the responder and not
        resolved, or none. A failed request changes nothing, and so does a
        missing profile when there is some emergency to test against it. */
    method FetchAssigned(me: Response<Me>, emergencies: Response<seq<Payload>>)
      modifies this`assignment
      ensures me.HasData() && emergencies.HasData() ==>
        assignment == FindAssigned(emergencies.data.value, me.data.value.id)
      ensures me.Ok? && me.data.None? && emergencies.HasData() && emergencies.data.value == [] ==> assignment == None
      ensures me.Failed? || !emergencies.HasData() ==> assignment == old(assignment)
      ensures me.Ok? && me.data.None? && emergencies.HasData() && emergencies.data.value != [] ==>
        assignment == old(assignment)
    {
      if me.Failed? || !emergencies.HasData() {
        return;
      }
      var list := emergencies.data.value;
      if me.data.None? {
        if list == [] {
          assignment := None;
        }
        return;
      }
      assignment := FindAssigned(list, me.data.value.id);
    }

    /** `selfAssign`: refused while assigned; otherwise a returned record is
        assigned, with status ON_DUTY and the accept modal. A failed profile
        or assign request instead sends a request to the admins. */
    method SelfAssign(me: Response<Me>, assign: Response<Payload>) returns (requestedFromAdmins: bool)
      modifies this`assignment, this`status, this`acceptModalVisible
      ensures old(assignment).Some? ==> !requestedFromAdmins && unchanged(this)
      ensures old(assignment).None? && me.HasData() && Truthy(me.data.value.id) && assign.HasData() ==>
        assignment == assign.data && status == "ON_DUTY" && acceptModalVisible && !requestedFromAdmins
      ensures !(old(assignment).None? && me.HasData() && Truthy(me.data.value.id) && assign.HasData()) ==>
        assignment == old(assignment) && status == old(status) && acceptModalVisible == old(acceptModalVisible)
      ensures requestedFromAdmins <==>
        old(assignment).None? && (me.Failed? || (me.HasData() && Truthy(me.data.value.id) && assign.Failed?))
    {
      requestedFromAdmins := false;
      if assignment.Some? {
        return;
      }
      if me.Failed? {
        requestedFromAdmins := true;
        return;
      }
      if me.data.None? || !Truthy(me.data.value.id) {
        return;
      }
      if assign.Failed? {
        requestedFromAdmins := true;
        return;
      }
      if assign.data.Some? {
        assignment := assign.data;
        status := "ON_DUTY";
        acceptModalVisible := true;
      }
    }

    /** Accepting the assignment: a failed accept, or a failed fetch of the
        full record afterwards, drops the assignment and makes the responder
        AVAILABLE; a successful one puts them ON_DUTY with the full record
        (or the accept answer when the fetch is empty). */
    method Accept(post: Response<Payload>, details: Response<Payload>)
      modifies this`assignment, this`status, this`acceptModalVisible, this`accepting
      ensures old(assignment).None? ==> unchanged(this)
      ensures old(assignment).Some? ==> !accepting
      ensures old(assignment).Some? && post.Failed? ==>
        assignment == None && status == "AVAILABLE" && acceptModalVisible == old(acceptModalVisible)
      ensures old(assignment).Some? && post.HasData() && details.Failed? ==>
        assignment == None && status == "AVAILABLE" && !acceptModalVisible
      ensures old(assignment).Some? && post.HasData() && details.Ok? ==>
        && assignment == (if details.data.Some? then details.data else post.data)
        && status == "ON_DUTY" && !acceptModalVisible
      ensures old(assignment).Some? && post.Ok? && post.data.None? ==>
        assignment == old(assignment) && status == old(status) && !acceptModalVisible
    {
      if assignment.None? {
        return;
      }
      accepting := true;
      match post {
        case Failed =>
          assignment := None;
          status := "AVAILABLE";
        case Ok(None) =>
          acceptModalVisible := false;
        case Ok(Some(r)) =>
          status := "ON_DUTY";
          acceptModalVisible := false;
          match details {
            case Failed =>
              assignment := None;
              status := "AVAILABLE";
            case Ok(Some(d)) =>
              assignment := Some(d);
            case Ok(None) =>
              assignment := Some(r);
          }
      }
      accepting := false;
    }

    /** The Arrived button: disabled while arriving or once pressed. After a
        successful POST the sender is stopped and the button disabled; a
        record with an id in the answer becomes the assignment and gives the
        status (default ARRIVED). A failure records nothing. */
    method Arrive(post: Response<Payload>)
      requires Valid()
      modifies this
      ensures Valid()
      ensures old(arriving) || old(arrivedPressed) || old(assignment).None? || post.Failed? ==>
        && assignment == old(assignment) && status == old(status) && arrivedPressed == old(arrivedPressed)
        && senderSet == old(senderSet) && liveSenders == old(liveSenders)
      ensures !old(arriving) && !old(arrivedPressed) && old(assignment).Some? && post.Ok? ==>
        && arrivedPressed && !senderSet
        && liveSenders == (if old(senderSet) then old(liveSenders) - 1 else old(liveSenders))
        && (post.HasData() && Truthy(post.data.value.id) ==>
              assignment == post.data && status == OrElse(post.data.value.status, "ARRIVED"))
        && (!(post.HasData() && Truthy(post.data.value.id)) ==>
              assignment == old(assignment) && status == old(status))
      ensures arriving == old(arriving)
      ensures acceptModalVisible == old(acceptModalVisible) && accepting == old(accepting)
      ensures responderTypes == old(responderTypes)
    {
      if arriving || arrivedPressed || assignment.None? {
        return;
      }
      arriving := true;
      if post.Ok? {
        if post.data.Some? && Truthy(post.data.value.id) {
          assignment := post.data;
          status := OrElse(post.data.value.status, "ARRIVED");
        }
        StopLocationUpdates();
        arrivedPressed := true;
      }
      arriving := false;
    }

    /** Resolve: a successful POST drops the assignment and makes the
        responder AVAILABLE (the sender is left to the effect); a failure, or
        no assignment to name, changes nothing. */
    method Resolve(ok: bool)
      modifies this`assignment, this`status
      ensures old(assignment).Some? && ok ==> assignment == None && status == "AVAILABLE"
      ensures !(old(assignment).Some? && ok) ==> assignment == old(assignment) && status == old(status)
    {
      if assignment.None? || !ok {
        return;
      }
      assignment := None;
      status := "AVAILABLE";
    }

    /** Mark fraud: needs an assignment and a confirmation; a successful PUT
        stops the sender, drops the assignment and makes the responder
        AVAILABLE. */
    method MarkFraud(confirmed: bool, ok: bool)
      requires Valid()
      modifies this`assignment, this`status, this`senderSet, this`liveSenders
      ensures Valid()
      ensures old(assignment).Some? && confirmed && ok ==>
        && assignment == None && status == "AVAILABLE" && !senderSet
        && liveSenders == (if old(senderSet) then old(liveSenders) - 1 else old(liveSenders))
      ensures !(old(assignment).Some? && confirmed && ok) ==>
        && assignment == old(assignment) && status == old(status)
        && senderSet == old(senderSet) && liveSenders == old(liveSenders)
    {
      if assignment.None? || !confirmed || !ok {
        return;
      }
      StopLocationUpdates();
      assignment := None;
      status := "AVAILABLE";
    }

    /** A responder-type chip: removes every copy of the type if selected,
        else appends it. */
    method ToggleResponderType(t: string)
      modifies this`responderTypes
      ensures t in old(responderTypes) ==> responderTypes == RemoveAll(old(responderTypes), t)
      ensures t !in old(responderTypes) ==> responderTypes == old(responderTypes) + [t]
    {
      responderTypes := Toggle(responderTypes, t);
    }

    /** Unmount: the sender in the ref is stopped. */
    method Unmount()
      requires Valid()
      modifies this`senderSet, this`liveSenders
      ensures Valid() && !senderSet
    {
      StopLocationUpdates();
    }
  }

  /** Starting the sender twice and stopping it once leaves one interval
      running: the first was overwritten in the ref without being cleared. */
  method RestartLeaksSender()
  {
    var r := new Responder();
    r.StartLocationUpdates(true);
    r.StartLocationUpdates(true);
    r.StopLocationUpdates();
    r.StopLocationUpdates();
    assert !r.senderSet && r.liveSenders == 1;
  }

  /** With the listener's mount-time closure, which saw no assignment, updates
      and arrivals change nothing; a later effect run then keeps the sender
      going. */
  method MountTimeListenersIgnoreUpdates(em: Payload)
    requires em.status == Some("IN_PROGRESS")
  {
    var r := new Responder();
    r.OnAssigned(Some(em));
    r.AssignmentEffect(true);
    assert r.acceptModalVisible && r.senderSet;
    r.OnUpdated(None, Some(em.(status := Some("RESOLVED"))));
    r.OnArrived(None, Some(EmptyPayload().(emergencyId := em.id)));
    assert r.assignment == Some(em);
  }
}
