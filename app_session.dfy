/** The resident's session in the root screen: whose emergency a socket event
    is about, what the screen then shows, the manual refresh, the SOS button
    of the home screen, the page search and the routing after login. */
module AppSession {
  import opened Wrappers
  import opened Strings
  import opened Seqs
  import opened Payloads

  /** The fields of `GET /users/profile` the session reads. */
  datatype Profile = Profile(id: Option<string>, role: Option<string>, situationStatus: Option<string>)

  // ---------------------------------------------------------------------
  // Ownership of socket events
  // ---------------------------------------------------------------------

  /** An `emergency:created` payload names the session user as its owner:
      one of the three top-level fields does, or a present `user.id`. */
  predicate CreatedClaimsMine(p: Payload, cur: Option<string>) {
    || SameId(p.userId, cur) || SameId(p.residentId, cur) || SameId(p.createdBy, cur)
    || (Truthy(p.userRefId) && SameId(p.userRefId, cur))
  }

  /** `em.userId || em.residentId || em.createdBy || (em.user && em.user.id)`,
      `None` when all four are falsy. */
  function Owner(em: Payload): Option<string> {
    if Truthy(em.userId) then em.userId
    else if Truthy(em.residentId) then em.residentId
    else if Truthy(em.createdBy) then em.createdBy
    else if Truthy(em.userRefId) then em.userRefId
    else None
  }

  /** A fetched record is the session user's when its owner is. */
  predicate FetchedIsMine(em: Payload, cur: Option<string>) {
    Truthy(Owner(em)) && SameId(Owner(em), cur)
  }

  /** The owner of a fetched record is the first truthy of its four owner
      fields: a later field naming the session user does not count once an
      earlier one names someone else. */
  lemma FetchedOwnerIsFirstTruthy(em: Payload, cur: Option<string>)
    ensures Truthy(em.userId) ==> (FetchedIsMine(em, cur) <==> SameId(em.userId, cur))
    ensures !Truthy(em.userId) && Truthy(em.residentId) ==> (FetchedIsMine(em, cur) <==> SameId(em.residentId, cur))
    ensures !Truthy(em.userId) && !Truthy(em.residentId) && Truthy(em.createdBy) ==>
      (FetchedIsMine(em, cur) <==> SameId(em.createdBy, cur))
    ensures !Truthy(em.userId) && !Truthy(em.residentId) && !Truthy(em.createdBy) ==>
      (FetchedIsMine(em, cur) <==> Truthy(em.userRefId) && SameId(em.userRefId, cur))
    ensures FetchedIsMine(em, cur) ==> CreatedClaimsMine(em, cur)
  {
  }

  /** The record an `emergency:created` event assigns, if any: the payload
      when it names the session user; otherwise, when it carries an
      emergency id, the fetched record if that is the session user's. */
  function CreatedAssignment(p: Payload, fetched: Response<Payload>, cur: Option<string>): Option<Payload> {
    if CreatedClaimsMine(p, cur) then Some(p)
    else if Truthy(p.emergencyId) && fetched.HasData() && FetchedIsMine(fetched.data.value, cur) then fetched.data
    else None
  }

  /** The created event is applied exactly when the payload or the fetched
      record belongs to the session user; the fetch is only consulted for a
      payload that does not, and a failed or empty fetch applies nothing.
      With JSON `null` read as a missing field, a `null` session id matches
      no payload; the source's `null === null` match is not modelled. */
  lemma CreatedAssignmentCases(p: Payload, fetched: Response<Payload>, cur: Option<string>)
    ensures CreatedAssignment(p, fetched, cur).Some? <==>
      CreatedClaimsMine(p, cur)
      || (Truthy(p.emergencyId) && fetched.HasData() && FetchedIsMine(fetched.data.value, cur))
    ensures CreatedClaimsMine(p, cur) ==> CreatedAssignment(p, fetched, cur) == Some(p)
    ensures !CreatedClaimsMine(p, cur) && !fetched.HasData() ==> CreatedAssignment(p, fetched, cur) == None
    ensures !CreatedClaimsMine(p, cur) && !Truthy(p.emergencyId) ==> CreatedAssignment(p, fetched, cur) == None
    ensures cur == None ==> CreatedAssignment(p, fetched, cur) == None
  {
  }

  /** An `emergency:resolved` payload is the session user's when its user,
      resident or resolved-for id is; there is no fetch. */
  predicate ResolvedIsMine(p: Payload, cur: Option<string>) {
    SameId(p.userId, cur) || SameId(p.residentId, cur) || SameId(p.resolvedFor, cur)
  }

  /** The record `sos:triggered` considers: the fetched record when the
      payload carries an emergency id (nothing if the fetch fails), else the
      payload itself when its user id is the session user's. */
  function SosRecord(p: Payload, fetched: Response<Payload>, cur: Option<string>): Option<Payload> {
    if Truthy(p.emergencyId) then (if fetched.Ok? then fetched.data else None)
    else if Truthy(p.userId) && SameId(p.userId, cur) then Some(p)
    else None
  }

  /** The acceptance test of the two `sos:triggered` listeners: both accept a
      matching user id or `user.id`; the one registered once a token exists
      also accepts a matching responder id. */
  predicate SosAccepts(em: Payload, cur: Option<string>, tokenScoped: bool) {
    SameId(em.userId, cur) || SameId(em.userRefId, cur) || (tokenScoped && SameId(em.responderId, cur))
  }

  /** The record an `sos:triggered` event assigns: both listeners run, so the
      event is applied when either accepts it. */
  function SosAssignment(p: Payload, fetched: Response<Payload>, cur: Option<string>, hasToken: bool): Option<Payload> {
    var em := SosRecord(p, fetched, cur);
    if em.Some? && (SosAccepts(em.value, cur, false) || (hasToken && SosAccepts(em.value, cur, true))) then em
    else None
  }

  /** Without an emergency id only the payload can be assigned, and only when its
      own user id is the session user's; with one, only the fetched
      record can, and a responder-id match counts only once a token exists. */
  lemma SosAssignmentCases(p: Payload, fetched: Response<Payload>, cur: Option<string>, hasToken: bool)
    ensures !Truthy(p.emergencyId) ==>
      (SosAssignment(p, fetched, cur, hasToken).Some? <==> Truthy(p.userId) && SameId(p.userId, cur))
    ensures !Truthy(p.emergencyId) && SosAssignment(p, fetched, cur, hasToken).Some? ==>
      SosAssignment(p, fetched, cur, hasToken) == Some(p)
    ensures Truthy(p.emergencyId) && fetched.Failed? ==> SosAssignment(p, fetched, cur, hasToken) == None
    ensures Truthy(p.emergencyId) && fetched.HasData() ==>
      (SosAssignment(p, fetched, cur, hasToken).Some? <==>
        SosAccepts(fetched.data.value, cur, hasToken))
  {
  }

  /** The responder-id match is what tells the listeners apart. */
  lemma SosResponderMatchNeedsToken(em: Payload, cur: Option<string>)
    requires SameId(em.responderId, cur) && !SameId(em.userId, cur) && !SameId(em.userRefId, cur)
    ensures SosAssignment(em.(emergencyId := Some("e")), Ok(Some(em)), cur, true) == Some(em)
    ensures SosAssignment(em.(emergencyId := Some("e")), Ok(Some(em)), cur, false) == None
  {
  }

  // ---------------------------------------------------------------------
  // The home screen
  // ---------------------------------------------------------------------

  class MainScreen {
    /** `userIdRef.current`: the session user id, `null` until the profile loads. */
    var userId: Option<string>
    var assignedEmergency: Option<Payload>
    var modalVisible: bool
    var situation: string
    var loading: bool
    var unreadCount: nat

    constructor ()
      ensures userId == None && assignedEmergency == None && !modalVisible
      ensures situation == "SAFE" && !loading && unreadCount == 0
    {
      userId := None;
      assignedEmergency := None;
      modalVisible := false;
      situation := "SAFE";
      loading := false;
      unreadCount := 0;
    }

    /** Shows `em` as the user's emergency. */
    method Show(em: Option<Payload>)
      modifies this`assignedEmergency, this`modalVisible
      ensures assignedEmergency == em && modalVisible
    {
      assignedEmergency := em;
      modalVisible := true;
    }

    /** The profile fetch: a body sets the session id (a falsy id becomes
        `null`) and the situation (default SAFE); a failure changes nothing. */
    method FetchUserProfile(resp: Response<Profile>)
      modifies this`userId, this`situation
      ensures resp.HasData() ==>
        && userId == (if Truthy(resp.data.value.id) then resp.data.value.id else None)
        && situation == OrElse(resp.data.value.situationStatus, "SAFE")
      ensures !resp.HasData() ==> userId == old(userId) && situation == old(situation)
    {
      if resp.HasData() {
        var d := resp.data.value;
        userId := if Truthy(d.id) then d.id else None;
        situation := OrElse(d.situationStatus, "SAFE");
      }
    }

    /** `emergency:created`; `fetched` is the answer to the record fetch,
        consulted only when the payload does not name the user. */
    method OnCreated(p: Option<Payload>, fetched: Response<Payload>)
      modifies this`assignedEmergency, this`modalVisible
      ensures p.Some? && CreatedAssignment(p.value, fetched, userId).Some? ==>
        assignedEmergency == CreatedAssignment(p.value, fetched, userId) && modalVisible
      ensures p.None? || CreatedAssignment(p.value, fetched, userId).None? ==>
        assignedEmergency == old(assignedEmergency) && modalVisible == old(modalVisible)
    {
      if p.Some? {
        var em := CreatedAssignment(p.value, fetched, userId);
        if em.Some? {
          Show(em);
        }
      }
    }

    /** `emergency:resolved` for the user's emergency clears the assignment,
        hides the modal and makes the user SAFE again. */
    method OnResolved(p: Option<Payload>)
      modifies this`assignedEmergency, this`modalVisible, this`situation
      ensures p.Some? && ResolvedIsMine(p.value, userId) ==>
        assignedEmergency == None && !modalVisible && situation == "SAFE"
      ensures p.None? || !ResolvedIsMine(p.value, userId) ==>
        assignedEmergency == old(assignedEmergency) && modalVisible == old(modalVisible) && situation == old(situation)
    {
      if p.Some? && ResolvedIsMine(p.value, userId) {
        assignedEmergency := None;
        modalVisible := false;
        situation := "SAFE";
      }
    }

    /** `sos:triggered`; `hasToken` says whether the token-scoped listener is
        registered beside the mount-time one. */
    method OnSosTriggered(p: Option<Payload>, fetched: Response<Payload>, hasToken: bool)
      modifies this`assignedEmergency, this`modalVisible
      ensures p.Some? && SosAssignment(p.value, fetched, userId, hasToken).Some? ==>
        assignedEmergency == SosAssignment(p.value, fetched, userId, hasToken) && modalVisible
      ensures p.None? || SosAssignment(p.value, fetched, userId, hasToken).None? ==>
        assignedEmergency == old(assignedEmergency) && modalVisible == old(modalVisible)
    {
      if p.Some? {
        var em := SosAssignment(p.value, fetched, userId, hasToken);
        if em.Some? {
          Show(em);
        }
      }
    }

    /** `emergency:assignedEmergency` is shown without any ownership test. */
    method OnAssigned(p: Option<Payload>)
      modifies this`assignedEmergency, this`modalVisible
      ensures assignedEmergency == p && modalVisible
    {
      Show(p);
    }

    /** `notification:new`: the badge goes up by one; a notification that
        names an emergency shows the fetched record when it is the user's. */
    method OnNotification(emergencyId: Option<string>, fetched: Response<Payload>)
      modifies this`assignedEmergency, this`modalVisible, this`unreadCount
      ensures unreadCount == old(unreadCount) + 1
      ensures Truthy(emergencyId) && fetched.HasData() && SosAccepts(fetched.data.value, userId, false) ==>
        assignedEmergency == fetched.data && modalVisible
      ensures !(Truthy(emergencyId) && fetched.HasData() && SosAccepts(fetched.data.value, userId, false)) ==>
        assignedEmergency == old(assignedEmergency) && modalVisible == old(modalVisible)
    {
      unreadCount := unreadCount + 1;
      if Truthy(emergencyId) && fetched.HasData() && SosAccepts(fetched.data.value, userId, false) {
        Show(fetched.data);
      }
    }

    /** The refresh button: the latest emergency replaces the assignment,
        except that a RESOLVED one, an empty answer or a failure leave none. */
    method RefreshEmergency(token: bool, resp: Response<Payload>)
      modifies this`assignedEmergency
      ensures !token ==> assignedEmergency == old(assignedEmergency)
      ensures token ==> (assignedEmergency.Some? <==>
        resp.HasData() && Upper(OrElse(resp.data.value.status, "")) != "RESOLVED")
      ensures token && assignedEmergency.Some? ==> assignedEmergency == resp.data
    {
      if !token {
        return;
      }
      if resp.HasData() {
        assignedEmergency := resp.data;
        if Upper(OrElse(resp.data.value.status, "")) == "RESOLVED" {
          assignedEmergency := None;
        }
      } else {
        assignedEmergency := None;
      }
    }

    /** The home screen's SOS button. The situation becomes EMERGENCY only
        when there is a token, location permission, the SOS report succeeds
        and so does the situation update; loading is off afterwards. */
    method HandleSos(token: bool, permissionGranted: bool, sosSent: bool, statusSaved: bool)
      modifies this`loading, this`situation
      ensures !loading
      ensures token && permissionGranted && sosSent && statusSaved ==> situation == "EMERGENCY"
      ensures !(token && permissionGranted && sosSent && statusSaved) ==> situation == old(situation)
    {
      loading := true;
      if token && permissionGranted && sosSent {
        if statusSaved {
          situation := "EMERGENCY";
        }
      }
      loading := false;
    }
  }

  /** A created event followed by the matching resolved event leaves the user
      with no emergency and SAFE. */
  method CreatedThenResolved(cur: string, fetched: Response<Payload>)
    requires cur != ""
  {
    var m := new MainScreen();
    m.FetchUserProfile(Ok(Some(Profile(Some(cur), None, None))));
    var p := EmptyPayload().(userId := Some(cur));
    m.OnCreated(Some(p), fetched);
    assert m.assignedEmergency == Some(p) && m.modalVisible;
    m.OnResolved(Some(p));
    assert m.assignedEmergency == None && !m.modalVisible && m.situation == "SAFE";
  }

  // ---------------------------------------------------------------------
  // Page search
  // ---------------------------------------------------------------------

  /** One entry of the search table. */
  datatype Suggestion = Suggestion(title: string, icon: string, keywords: seq<string>, route: string)

  function SearchTable(): seq<Suggestion> {
    [ Suggestion("Emergency Tracker", "locate", ["track", "emergency", "sos", "help"], "EmergencyTracker"),
      Suggestion("Notifications", "notifications", ["notify", "notification", "alert", "message"], "Notifications"),
      Suggestion("Weather Information", "cloud", ["weather", "storm", "rain", "forecast"], "WeatherView"),
      Suggestion("Profile Settings", "person", ["profile", "account", "user", "settings"], "Profile"),
      Suggestion("Emergency Hotlines", "call", ["hotline", "phone", "call", "contact"], "EmergencyHotlines"),
      Suggestion("Medical Profile", "medical", ["medical", "health", "doctor"], "MedicalProfile"),
      Suggestion("Evacuation Centers", "location", ["evac", "center", "location", "shelter"], "EvacuationCentersMap"),
      Suggestion("Concerned Citizen", "person-add", ["media", "photo", "video", "submit", "citizen", "concern", "location"], "ConcernedCitizen") ]
  }

  /** The lower-cased title, or one of the keywords as written, contains the
      (already lower-cased) query. */
  predicate Matches(s: Suggestion, query: string) {
    Contains(Lower(s.title), query) || exists k | k in s.keywords :: Contains(k, query)
  }

  /** The entries of `table` suggested for the search text. */
  function Search(table: seq<Suggestion>, text: string): seq<Suggestion> {
    var query := Lower(text);
    if query == [] then [] else Filter(table, s => Matches(s, query))
  }

  /** The suggestions the search box shows. */
  function Suggestions(text: string): seq<Suggestion> {
    Search(SearchTable(), text)
  }

  /** Empty text suggests nothing; otherwise an entry is suggested exactly
      when it matches the lower-cased text, and the suggestions are entries
      of the table in table order. */
  lemma SearchSpec(table: seq<Suggestion>, text: string)
    ensures text == [] ==> Search(table, text) == []
    ensures text != [] ==> Search(table, text) == Filter(table, s => Matches(s, Lower(text)))
    ensures forall i :: 0 <= i < |Search(table, text)| ==>
      Search(table, text)[i] in table && Matches(Search(table, text)[i], Lower(text))
    ensures text != [] ==> forall i :: 0 <= i < |table| && Matches(table[i], Lower(text)) ==>
      table[i] in Search(table, text)
  {
  }

  /** The search is case-insensitive in the text typed. */
  lemma SearchIgnoresCase(table: seq<Suggestion>, text: string)
    ensures Search(table, Upper(text)) == Search(table, text)
  {
    assert Lower(Upper(text)) == Lower(text);
  }

  // ---------------------------------------------------------------------
  // Routing after login
  // ---------------------------------------------------------------------

  datatype Screen = Login | Register | Main | Responder

  class App {
    var token: Option<string>
    var screen: Screen

    constructor ()
      ensures token == None && screen == Login
    {
      token := None;
      screen := Login;
    }

    /** `saveToken`: a token is stored and the user routed by role (a
        RESPONDER role gives the responder screen, anything else, including a
        failed profile fetch, the main one); no token logs out. When storage
        fails the token is still kept in memory. */
    method SaveToken(t: Option<string>, storageOk: bool, profile: Response<Profile>)
      modifies this
      ensures Truthy(t) && storageOk ==>
        && token == t
        && (screen == Responder <==> profile.HasData() && profile.data.value.role == Some("RESPONDER"))
        && screen in {Main, Responder}
      ensures Truthy(t) && !storageOk ==> token == t && screen == old(screen)
      ensures !Truthy(t) ==> screen == Login && token == (if storageOk then None else t)
    {
      if Truthy(t) {
        if !storageOk {
          token := t;
          return;
        }
        token := t;
        if profile.HasData() && profile.data.value.role == Some("RESPONDER") {
          screen := Responder;
        } else {
          screen := Main;
        }
      } else {
        if !storageOk {
          token := t;
          screen := Login;
          return;
        }
        token := None;
        screen := Login;
      }
    }
  }
}
