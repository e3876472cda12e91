# Sagipero client core in Dafny

This project models the client side of the Sagipero emergency app, a React
Native application for residents and responders. Its centre is the
synchronisation logic. Each screen folds three kinds of input into a small
record: socket events, poll results and the user's own actions. The record
holds a status string, the responder's location, a history list and the
current assignment.

- `EmergencyTracker` covers the resident's tracker. Socket events overwrite
  the status unconditionally, while the 3-second poller keeps ARRIVED and
  RESOLVED once reached. ARRIVED history entries are de-duplicated, and every
  history fetch replaces the list wholesale.
- `AppSession` covers the home screen and the app shell. It holds the
  ownership tests for `emergency:created`, `emergency:resolved` and
  `sos:triggered` (both copies of each listener), the refresh of the latest
  emergency, the SOS flow, page search, and the routing after login.
- `ResponderHome` covers the responder's assignment lifecycle: the
  location-sender rule, the socket handlers, fetching the assignment, and
  self-assign, accept, arrive, resolve and mark-fraud.
- `Api` covers the request layer:
  - host normalisation and backend discovery;
  - the request interceptor's URL and header rewriting;
  - the retryable-error test and the bounded retry counter;
  - the SOS request.
- The remaining modules cover the smaller screens:
  - the medical profile form;
  - notifications;
  - the weather-alert banner and the weather view;
  - evacuation-centre occupancy (`Occupancy`, `EvacuationCenters`, `MapMarkers`);
  - hotlines;
  - the hold-to-send SOS button;
  - the citizen report and media screens;
  - registration;
  - the responder's inventory and vehicles.

**How the JavaScript is modelled.**
- A JSON payload is a datatype with `Option` fields.
- JavaScript truthiness is explicit:
  - `Payloads.Truthy` means present and non-empty;
  - `Payloads.OrElse` is `a || b`;
  - `Payloads.SameId` is a strict comparison against the session id, which is false while that id is `null`.
- A server reply is a `Response`: `Failed`, or `Ok` with or without a body.
- Stateful screens are classes with one method per handler. Each socket callback, timer tick or button press is one sequential method call, and fetch results are parameters.
- Pure helpers are functions, with lemmas stating what they promise.

## Model

| member | source | states |
|---|---|---|
| Payloads.OrElse | src/components/EmergencyTracker.tsx:34 | `a \|\| d` on an optional string: the value when present and non-empty, the default otherwise |
| Strings.Upper | App.tsx:337 | upper-casing keeps the length and maps each character |
| Strings.Lower | App.tsx:469 | lower-casing keeps the length and maps each character |
| Strings.Trim | src/components/MedicalProfileForm.tsx:186 | `trim()` is empty exactly for blank text; otherwise it is a substring of the input that starts and ends with a non-space |
| Strings.TrimStartCutsBlank | src/components/MedicalProfileForm.tsx:186 | the part cut before the result is all white space |
| Strings.TrimEndCutsBlank | src/components/MedicalProfileForm.tsx:186 | the part cut after the result is all white space |
| Strings.TrimCutsOnlyEnds | src/components/MedicalProfileForm.tsx:186 | `trim()` cuts only white space, and only at the two ends: the result is `s[i..j]` with `s[..i]` and `s[j..]` blank |
| Strings.LastSegment | src/components/MedicalProfileForm.tsx:102-103 | the text after the last separator is a separator-free suffix, preceded by the separator when shorter than the input |
| Strings.LastSegmentAfterSeparator | src/components/MedicalProfileForm.tsx:102-103 | splitting `prefix + "/" + name` yields `name` when `name` has no separator |
| Strings.NatToString | src/components/WeatherAlertBanner.tsx:81 | the decimal text of a number is non-empty and all digits |
| Strings.DigitsValueOfNatToString | src/components/WeatherAlertBanner.tsx:81 | reading the printed digits back gives the number |
| Seqs.Filter | App.tsx:479-482 | `filter` keeps only elements that satisfy the predicate, and keeps every such element |
| Seqs.FilterAppend | src/components/Notifications.tsx:63-64 | filtering distributes over concatenation, so kept elements stay in order |
| Seqs.FilterPartition | src/components/Notifications.tsx:63-64 | a filter and its complement split a list with nothing lost or added (multisets and lengths) |
| Seqs.FilterAll | src/components/ResponderVehicles.tsx:19 | a filter that accepts every element returns the list unchanged |
| Seqs.FilterNone | src/components/WeatherAlertBanner.tsx:28-29 | a filter that accepts no element returns the empty list |
| Seqs.RemoveAll | src/components/MedicalProfileForm.tsx:217 | `filter(i => i !== x)` removes every copy of `x` and keeps every other element with its multiplicity (the multiset with `x`'s count set to zero) |
| Seqs.RemoveAllIsFilter | src/components/MedicalProfileForm.tsx:217 | removal equals the filter that drops `x`, so the kept elements stay in their order |
| Seqs.RemoveAllAppend | src/components/MedicalProfileForm.tsx:217 | removal distributes over concatenation |
| Seqs.RemoveAllAbsent | src/components/MedicalProfileForm.tsx:217 | removing an absent element changes nothing |
| Seqs.RemoveAllAppended | src/components/MedicalProfileForm.tsx:217 | removing the element just appended (and absent before) restores the list |
| Seqs.Toggle | src/components/MedicalProfileForm.tsx:224 | include/exclude toggle: a present element is removed everywhere, with every other element kept in order and multiplicity; an absent one is appended |
| Seqs.ToggleTwiceRestores | src/components/MedicalProfileForm.tsx:224 | toggling an absent element twice gives the list back |
| EmergencyTracker.FormatLocationFallsThroughOnZero | src/components/EmergencyTracker.tsx:47-50 | `lat \|\| latitude`: a non-zero `lat` is kept, and a zero or missing one falls through to `latitude` (likewise for longitude) |
| EmergencyTracker.FormatLocationStableUnlessZero | src/components/EmergencyTracker.tsx:106-109 | re-normalising a formatted location gives it back exactly when neither coordinate is 0 |
| EmergencyTracker.InitialResponderLocation | src/components/EmergencyTracker.tsx:37-42 | the record's own `responderLocation` wins; otherwise the assigned responder user's location is used |
| EmergencyTracker.PollStatus | src/components/EmergencyTracker.tsx:232-237 | a poll keeps an ARRIVED/RESOLVED status (any case); otherwise it writes the polled status, default PENDING |
| EmergencyTracker.StickyThroughPolls | src/components/EmergencyTracker.tsx:233-236 | once ARRIVED or RESOLVED, any sequence of polls leaves the status as it is |
| EmergencyTracker.PollAllIsLastPolled | src/components/EmergencyTracker.tsx:232-237 | without stickiness, polls can lower the status: the result is the last polled status |
| EmergencyTracker.LocationEventTypeCases | src/components/EmergencyTracker.tsx:120-122 | a row is added iff eventType, arrivedAt or ts is set; its type is eventType, else ARRIVED, else RESPONDER_LOCATION (UPDATE never occurs) |
| EmergencyTracker.WithArrivedDedups | src/components/EmergencyTracker.tsx:191-195 | an ARRIVED row is appended only when none exists, dated `arrivedAt` or now; a second arrival changes nothing |
| EmergencyTracker.Tracker.constructor | src/components/EmergencyTracker.tsx:12-15 | the tracker starts PENDING, with no location and no history, and polling |
| EmergencyTracker.Tracker.ApplyRecord | src/components/EmergencyTracker.tsx:32-53 | a fetched record sets the status (default PENDING) and the normalised responder location when it has one |
| EmergencyTracker.Tracker.InitialFetch | src/components/EmergencyTracker.tsx:20-91 | no token or an empty reply changes nothing; an applied record (the one fetched, or after a 404 for a given id the latest one) sets the status and the responder position it carries, its own or else the responder user's; the history and the poller are untouched |
| EmergencyTracker.AppliedLocation | src/components/EmergencyTracker.tsx:37-42 | the position after a fetched record: its own responder location, else the responder user's, normalised; without either the previous one stays |
| EmergencyTracker.Tracker.OnResponderLocation | src/components/EmergencyTracker.tsx:95-126 | an event for another emergency changes nothing; otherwise it writes the event's status (default IN_PROGRESS) unconditionally, moves the location, and appends the event rows |
| EmergencyTracker.Tracker.OnAccepted | src/components/EmergencyTracker.tsx:128-137 | a matching event sets ACCEPTED, even over ARRIVED, and appends one ACCEPTED row |
| EmergencyTracker.Tracker.OnArrived | src/components/EmergencyTracker.tsx:185-207 | a matching event sets ARRIVED, appends a de-duplicated ARRIVED row, and asks for a history refetch of the screen's id, else the event's id, when logged in |
| EmergencyTracker.Tracker.OnHistoryFetched | src/components/EmergencyTracker.tsx:177-178 | a history reply replaces the whole list, and a non-array reply empties it |
| EmergencyTracker.Tracker.PollTick | src/components/EmergencyTracker.tsx:216-266 | a tick after the poller stopped, or without a token or id, changes nothing; otherwise sticky status, location move, stop on ARRIVED/RESOLVED, and wholesale history replacement |
| EmergencyTracker.Tracker.Unmount | src/components/EmergencyTracker.tsx:269 | unmounting stops the poller, and its interval is cleared exactly once |
| AppSession.FetchedOwnerIsFirstTruthy | App.tsx:114-115 | the fetched record's owner is the first truthy of userId, residentId, createdBy and user.id, and it must equal the session id |
| AppSession.CreatedAssignmentCases | App.tsx:100-134 | a created event is applied iff it names the user, or its fetched record is the user's; a failed fetch or a missing emergencyId leaves it unapplied; before the profile loads no payload field matches the session id (an explicit JSON `null` field is not modelled, see Left out) |
| AppSession.SosAssignmentCases | App.tsx:271-294 | with an emergencyId, the fetched record decides, and a failed fetch shows nothing; without one, the payload is shown iff its userId is the session user |
| AppSession.SosResponderMatchNeedsToken | App.tsx:83-88 | only the token-scoped listener accepts a record whose responderId is the user |
| AppSession.MainScreen.constructor | App.tsx:59-68 | the home screen starts SAFE, not loading, with no emergency, no modal and no unread count |
| AppSession.MainScreen.FetchUserProfile | App.tsx:349-362 | the profile sets the session id (a falsy id becomes null) and the situation (default SAFE); a failure changes nothing |
| AppSession.MainScreen.OnCreated | App.tsx:225-255 | the emergency and the modal are set exactly as the created-event decision says, and left alone otherwise |
| AppSession.MainScreen.OnResolved | App.tsx:256-269 | a resolved event for the user clears the emergency, hides the modal and sets SAFE; any other changes nothing |
| AppSession.MainScreen.OnSosTriggered | App.tsx:271-294 | the emergency and the modal are set exactly as the sos:triggered decision says |
| AppSession.MainScreen.OnAssigned | App.tsx:219-223 | an assigned event is shown unconditionally |
| AppSession.MainScreen.OnNotification | App.tsx:199-218 | every notification bumps the unread count; one with an emergencyId shows the fetched record when it is the user's |
| AppSession.MainScreen.RefreshEmergency | App.tsx:329-347 | with a token, an emergency remains iff the reply has a body whose status, upper-cased, is not RESOLVED; without a token nothing changes |
| AppSession.MainScreen.HandleSos | App.tsx:379-408 | the situation becomes EMERGENCY only with a token, permission, a successful send and a saved status; loading ends in every case |
| AppSession.SearchSpec | App.tsx:468-483 | an empty query suggests nothing; otherwise exactly the entries whose lower-cased title or a keyword contains the lower-cased query, in table order |
| AppSession.SearchIgnoresCase | App.tsx:469 | upper-casing the search text does not change the suggestions |
| AppSession.App.constructor | App.tsx:579-580 | the app starts on the login screen with no token |
| AppSession.App.SaveToken | App.tsx:583-626 | after a stored login the screen is RESPONDER iff the profile's role is RESPONDER, else MAIN; a null token goes to LOGIN; a storage failure keeps the in-memory token |
| ResponderHome.FindAssignedIsFirst | src/components/ResponderHome.tsx:123-124 | the found emergency is the first whose responderId is mine and status is not RESOLVED; none is found iff no such emergency exists |
| ResponderHome.FormatDistanceMetres | src/components/ResponderHome.tsx:319-321 | below 1000 the label is the distance's digits followed by " m" |
| ResponderHome.UpdatedAssignment | src/components/ResponderHome.tsx:53-55 | an update either leaves the assignment or installs the event's record |
| ResponderHome.UpdatedAssignmentSpec | src/components/ResponderHome.tsx:53-55 | the event's record is installed exactly when the assignment the listener saw has its id and the new status is not IN_PROGRESS; with nothing seen, no event, another id or an IN_PROGRESS update, the assignment stays |
| ResponderHome.ArrivedAssignment | src/components/ResponderHome.tsx:61-63 | the updater keeps an assignment present or absent and changes at most its status, to ARRIVED |
| ResponderHome.ArrivedAssignmentSpec | src/components/ResponderHome.tsx:61-63 | an arrival whose emergencyId is the seen assignment's id marks the current record ARRIVED; any other event leaves it; a repeated arrival changes nothing more |
| ResponderHome.Responder.constructor | src/components/ResponderHome.tsx:16-31 | the responder starts AVAILABLE, unassigned, with no location sender and no types |
| ResponderHome.Responder.StartLocationUpdates | src/components/ResponderHome.tsx:209-233 | with permission the sender is set and one more interval runs (an earlier one is not cleared) |
| ResponderHome.Responder.StopLocationUpdates | src/components/ResponderHome.tsx:235-240 | stopping clears the sender, and the interval only when one was set, so a second stop does nothing |
| ResponderHome.Responder.AssignmentEffect | src/components/ResponderHome.tsx:98-104 | updates run iff there is an assignment not ARRIVED; otherwise they stop; an IN_PROGRESS assignment opens the accept modal |
| ResponderHome.Responder.OnAssigned | src/components/ResponderHome.tsx:41-46 | an assignment event installs the record and opens the accept modal |
| ResponderHome.Responder.OnUpdated | src/components/ResponderHome.tsx:48-57 | the assignment becomes the update rule's result |
| ResponderHome.Responder.OnArrived | src/components/ResponderHome.tsx:58-65 | the assignment becomes the arrived rule's result |
| ResponderHome.Responder.FetchAssigned | src/components/ResponderHome.tsx:116-128 | both replies present set the first matching emergency or none; a failure leaves the assignment |
| ResponderHome.Responder.SelfAssign | src/components/ResponderHome.tsx:170-201 | refused while assigned; an assignment reply sets ON_DUTY and opens the modal; a failed request falls back to asking the admins |
| ResponderHome.Responder.Accept | src/components/ResponderHome.tsx:266-301 | success sets ON_DUTY with the full record (or the accept reply); a failed accept or detail fetch clears the assignment and sets AVAILABLE; accepting always ends |
| ResponderHome.Responder.Arrive | src/components/ResponderHome.tsx:404-432 | only a successful POST marks arrival and stops updates; a disabled button or a failure changes nothing |
| ResponderHome.Responder.Resolve | src/components/ResponderHome.tsx:450-461 | a successful resolve clears the assignment and sets AVAILABLE |
| ResponderHome.Responder.MarkFraud | src/components/ResponderHome.tsx:150-168 | a confirmed, successful mark-fraud stops updates, clears the assignment and sets AVAILABLE |
| ResponderHome.Responder.ToggleResponderType | src/components/ResponderHome.tsx:536-538 | a chip removes every copy of its type when present, keeping the other types in order, else appends it |
| ResponderHome.Responder.Unmount | src/components/ResponderHome.tsx:68-71 | unmounting stops the location sender |
| Api.NormalizeHostSpec | src/services/api.ts:8 | exactly one trailing `/api` is stripped; an empty or missing host becomes the localhost default |
| Api.ApiClient.constructor | src/services/api.ts:10 | the base host starts as the normalised configured base |
| Api.ApiClient.SetApiBase | src/services/api.ts:45-49 | the stored base is the normalised value |
| Api.ApiClient.DiscoverBackend | src/services/api.ts:52-73 | the first candidate whose config has an apiBase is returned and becomes the base; otherwise nothing changes |
| Api.CandidatesOrder | src/services/api.ts:53-57 | two candidates when the current host is set, one otherwise, plus one for a non-empty configured base: the current host first when set, with the default right after it; the default first otherwise; the non-empty normalised configured base last; no empty host is tried |
| Api.FilterHosts | src/services/api.ts:53-57 | `filter(Boolean)` on the three candidates drops exactly the empty current host and the empty or missing configured one, keeping the order |
| Api.CandidatesExact | src/services/api.ts:53-57 | the candidate list is exactly the non-empty current host, the default, and the non-empty normalised configured base, in that order |
| Api.ProbeCandidates | src/services/api.ts:59-72 | the loop over the candidates returns the config of the first host whose answer names an apiBase, or nothing |
| Api.FirstWithApiBase | src/services/api.ts:59-72 | a found config always has an apiBase |
| Api.FirstWithApiBaseSpec | src/services/api.ts:59-72 | nothing is found iff no candidate's config has an apiBase; a found config is that of the first candidate whose config has one |
| Api.NormalizeUrlIdempotent | src/services/api.ts:93-99 | URL rewriting yields an absolute or `/api` URL, keeps a relative path as its suffix, and is idempotent |
| Api.IsRetryableCases | src/services/api.ts:25-35 | no response, 429 and 5xx are retryable; other 4xx are not |
| Api.RequestConfig.constructor | src/services/api.ts:148-151 | a request starts with no Authorization header and no retries |
| Api.RequestConfig.InterceptRequest | src/services/api.ts:81-118 | a stored token sets the header to `Bearer <token>`, no token leaves it as it was, and the URL is the rewritten one |
| Api.RequestConfig.OnResponseError | src/services/api.ts:147-181 | a retry happens iff the error is retryable and fewer than 3 retries were made; the counter counts retries |
| Api.RequestConfig.Send | src/services/api.ts:147-181 | a request is attempted at most MAX_RETRIES + 1 times; every earlier attempt failed retryably; it fails only on a non-retryable error or with the budget spent |
| Api.SosRequestBodySpec | src/services/api.ts:212-216 | the description is "<type> reported via SOS" for a type, else the default SOS body |
| Api.SendSos | src/services/api.ts:185-251 | without a token nothing is posted and failure is returned; otherwise the body is posted and success follows the POST |
| MedicalProfile.WithItems | src/components/MedicalProfileForm.tsx:190-193 | replacing one category's list leaves the other two alone |
| MedicalProfile.ClearInput | src/components/MedicalProfileForm.tsx:196-207 | clearing one input leaves the other inputs and the profile alone |
| MedicalProfile.AddItemSpec | src/components/MedicalProfileForm.tsx:185-208 | blank input changes nothing; otherwise the trimmed text is appended to that category only and its input is cleared |
| MedicalProfile.ToggleFromCommonSpec | src/components/MedicalProfileForm.tsx:210-221 | a present item is removed everywhere, the rest of its list kept in order and multiplicity; an absent one appended; other lists unchanged; toggling an absent item twice restores the form |
| MedicalProfile.ToggleSpecialCircumstance | src/components/MedicalProfileForm.tsx:223-225 | the same toggle on the special circumstances: a present value removed everywhere with the rest kept in order, an absent one appended; nothing else changes |
| MedicalProfile.RemoveAt | src/components/MedicalProfileForm.tsx:279 | removing at a valid index drops exactly that element; an out-of-range index changes nothing |
| MedicalProfile.RemoveItem | src/components/MedicalProfileForm.tsx:274-282 | the element at the index is removed, the others keep their order, and other categories are untouched |
| MedicalProfile.SaveThenLoad | src/components/MedicalProfileForm.tsx:160-168 | reloading what was saved gives the profile back except medications, which the body does not carry |
| MedicalProfile.FetchProfile | src/components/MedicalProfileForm.tsx:114-139 | a reply with a body replaces the profile and nothing else (circumstances and inputs kept); a failure or an empty reply changes nothing |
| MedicalProfile.FromServerEmpty | src/components/MedicalProfileForm.tsx:121-133 | missing server fields become empty strings and lists |
| MedicalProfile.IdDisplayNameIsFileName | src/components/MedicalProfileForm.tsx:101-106 | the ID's display name is the last `/` segment of its file URL |
| Notifications.IsAlertTypeCases | src/components/Notifications.tsx:8-11 | "alert", "ALERT" and "Alert" are alert types; a missing type, empty text and "alerts" are not |
| Notifications.Load | src/components/Notifications.tsx:18-27 | a reply replaces the list (none gives []); no token or a failure keeps it |
| Notifications.Prepend | src/components/Notifications.tsx:31-34 | a socket notification goes first, with createdAt and isRead defaults that its own fields override |
| Notifications.PrependDefaults | src/components/Notifications.tsx:33 | missing fields get now and false; present ones are kept as sent |
| Notifications.MarkAsReadById | src/components/Notifications.tsx:52-60 | after the server accepts, every item with the id is flagged and the rest kept; otherwise nothing changes |
| Notifications.MarkAsReadByIdSpec | src/components/Notifications.tsx:56 | only isRead changes, items with the id become read, and marking again changes nothing |
| Notifications.MarkAsReadLocal | src/components/Notifications.tsx:46-50 | without an id only that one item is flagged |
| Notifications.SectionsPartition | src/components/Notifications.tsx:63-64 | alert and other sections partition the list by type, each in list order |
| Notifications.PrependedLandsInItsSection | src/components/Notifications.tsx:31-34 | a new notification heads its own section and leaves the other section unchanged |
| WeatherAlerts.SelectAlertsSpec | src/components/WeatherAlertBanner.tsx:26-33 | a non-empty array shows its active alerts if any, else all of them; an empty or non-array body shows none |
| WeatherAlerts.CounterReadsBack | src/components/WeatherAlertBanner.tsx:81 | with several alerts the counter reads back as index+1, a slash, and the count |
| WeatherAlerts.AlertBanner.constructor | src/components/WeatherAlertBanner.tsx:10-13 | the banner starts empty at index 0, not loading, not rotating |
| WeatherAlerts.AlertBanner.AlertsChanged | src/components/WeatherAlertBanner.tsx:55-62 | the carousel runs iff there is more than one alert |
| WeatherAlerts.AlertBanner.FetchAlerts | src/components/WeatherAlertBanner.tsx:22-39 | a reply installs the selected alerts at index 0; a failure keeps the list; loading ends in every case |
| WeatherAlerts.AlertBanner.OnNotification | src/components/WeatherAlertBanner.tsx:41-52 | only a WEATHER notification, or one with a weatherAlertId, refetches: an answer installs the selection at index 0, a failed request keeps the list, index and rotation, and loading ends; other notifications change nothing |
| WeatherAlerts.AlertBanner.RotateTick | src/components/WeatherAlertBanner.tsx:57 | a tick advances the index modulo the count, so it stays in range |
| WeatherAlerts.AlertBanner.Rendered | src/components/WeatherAlertBanner.tsx:64-81 | nothing is shown while loading or with no alerts; otherwise `alerts[index]` and its counter |
| Occupancy.Percent | src/components/EvacuationCentersMap.tsx:144 | the percentage is the nearest integer to 100·occ/cap (halves up), and 0 without capacity |
| Occupancy.PercentEnds | src/components/EvacuationCentersMap.tsx:144 | an empty centre is at 0 and a full one at 100 |
| Occupancy.PercentUnique | src/components/EvacuationCentersMap.tsx:144 | the rounding bound determines the percentage |
| Occupancy.PercentMonotone | src/components/MapComponent.tsx:93 | more occupants never lower the percentage |
| Occupancy.ClassifyRanges | src/components/EvacuationCentersMap.tsx:145-149 | Full exactly at 100; High at 76 or more otherwise, over capacity included; Limited 50-75; Available below 50 |
| Occupancy.ClassifyByOccupancy | src/components/MapComponent.tsx:91-98 | a centre at capacity is Full, one over capacity by half a percent or more is High, and a centre under about half full is Available |
| EvacuationCenters.RowOf | src/components/EvacuationCentersMap.tsx:141-155 | a row shows capacity and occupancy (0 when missing), their percentage and class; a closed centre is labelled " (Closed)" in grey, an open one green |
| EvacuationCenters.RowDefaults | src/components/EvacuationCentersMap.tsx:142-144 | no capacity or no count gives 0% Available; the palette is green iff the centre is open |
| EvacuationCenters.CentersScreen.constructor | src/components/EvacuationCentersMap.tsx:14-17 | the screen starts loading with no centres and nothing selected |
| EvacuationCenters.CentersScreen.Init | src/components/EvacuationCentersMap.tsx:22-121 | without a token or permission no centres are loaded; loading ends in every case |
| EvacuationCenters.CentersScreen.Select | src/components/EvacuationCentersMap.tsx:153 | tapping a centre targets exactly its coordinates |
| EvacuationCenters.CentersScreen.Rows | src/components/EvacuationCentersMap.tsx:141 | one row per centre, in order |
| MapMarkers.Available | src/components/MapComponent.tsx:113 | the free places are never negative and are cap - occ whenever that is not negative |
| MapMarkers.Markers | src/components/MapComponent.tsx:90-118 | one marker per centre, in input order |
| MapMarkers.MarkerAgreesWithRow | src/components/MapComponent.tsx:91-113 | a marker agrees with the selector row on occupancy and class; it is green and "Open" iff the centre is open |
| WeatherView.TablesCoverListedCodes | src/components/WeatherView.tsx:129-152 | the icon and description tables cover the same 18 codes; any other code gets the cloud icon and "Unknown weather" |
| WeatherView.CountPositive | src/components/WeatherView.tsx:160 | a code counted at least once occurs in the list |
| WeatherView.CountMonotone | src/components/WeatherView.tsx:160 | counts over longer prefixes are never smaller |
| WeatherView.FirstModeUnique | src/components/WeatherView.tsx:161 | with the strict `>` update, at most one code is the mode that first reached the top count |
| WeatherView.MostFrequentWeatherCode | src/components/WeatherView.tsx:154-168 | an empty list gives no code; otherwise a code of the list with maximal count that reached that count first |
| WeatherView.Slice | src/components/WeatherView.tsx:221 | `slice` clamps its end to the length and is empty past the end |
| WeatherView.DayWindowSpec | src/components/WeatherView.tsx:220-221 | day i sees exactly the hourly codes at 24i to 24i+23 that exist |
| WeatherView.DaySummary | src/components/WeatherView.tsx:220-250 | a day's icon and description come from the first mode of its window, or the fallbacks when it is empty |
| Hotlines.Sanitize | src/components/EmergencyHotlines.tsx:93 | the sanitised number contains only digits and '+' |
| Hotlines.SanitizeAppend | src/components/EmergencyHotlines.tsx:93 | sanitising works character by character, keeping order |
| Hotlines.SanitizeKeepsDialable | src/components/EmergencyHotlines.tsx:93 | a number is unchanged iff it is all digits and '+'; one with none of them becomes empty |
| Hotlines.SanitizeIdempotent | src/components/EmergencyHotlines.tsx:93 | sanitising twice equals sanitising once |
| Hotlines.DialUrl | src/components/EmergencyHotlines.tsx:94-103 | no URL is opened exactly on platforms other than iOS and Android |
| Hotlines.DialUrlReadsBack | src/components/EmergencyHotlines.tsx:94-97 | the URL is the platform's scheme followed by the sanitised number |
| SosButtonModel.Elapsed | src/components/SOSButton.tsx:63 | the elapsed time is now minus the start, or 0 with no start |
| SosButtonModel.SosButton.constructor | src/components/SOSButton.tsx:9-15 | the button starts unlocked, idle, with no press, selector, pending type or countdown |
| SosButtonModel.SosButton.Mount | src/components/SOSButton.tsx:17-24 | an HTTP 200 for the latest emergency locks the button |
| SosButtonModel.SosButton.PressIn | src/components/SOSButton.tsx:36-55 | a press while locked or loading is ignored; otherwise it records the start and resets the progress |
| SosButtonModel.SosButton.PressOut | src/components/SOSButton.tsx:57-78 | release always clears the timer and start; the selector opens iff at least 3000 ms elapsed |
| SosButtonModel.SosButton.SendWithType | src/components/SOSButton.tsx:82-120 | choosing a type closes the selector, records it, opens the cancel modal and arms the 5-second countdown |
| SosButtonModel.SosButton.Cancel | src/components/SOSButton.tsx:119 | cancelling disarms the countdown, hides the modal and clears the pending type |
| SosButtonModel.SosButton.CountdownFires | src/components/SOSButton.tsx:94-116 | a cancelled countdown sends nothing; denied permission sends nothing; only a successful send locks; loading ends whenever it fires |
| CitizenReport.FileName | src/components/ConcernedCitizenScreen.tsx:105 | the file name is a non-empty name without '/' |
| CitizenReport.FileNameSpec | src/components/ConcernedCitizenScreen.tsx:105 | it is the last '/' segment, or media.jpg when that segment is empty |
| CitizenReport.MimeAgreesWithMediaType | src/components/ConcernedCitizenScreen.tsx:106-115 | MIME video/mp4 and field "video" iff the media is a video, else image/jpeg and "photo" |
| CitizenReport.UploadOf | src/components/ConcernedCitizenScreen.tsx:104-115 | the upload carries the uri, the derived name and types, and the caption as typed |
| CitizenReport.UploadErrorMessage | src/components/ConcernedCitizenScreen.tsx:140 | the server's message, else the error's, else "Failed to upload media" |
| CitizenReport.ReportScreen.constructor | src/components/ConcernedCitizenScreen.tsx:23-36 | the screen starts with no media, caption, reason or location, and nothing busy |
| CitizenReport.ReportScreen.Pick | src/components/ConcernedCitizenScreen.tsx:61-64 | a picked asset replaces the media and clears the caption; a cancelled pick changes nothing |
| CitizenReport.ReportScreen.UploadMedia | src/components/ConcernedCitizenScreen.tsx:89-145 | no media, no token or a blank caption sends nothing; a 200/201 clears media, caption and progress; uploading ends in every case |
| CitizenReport.ReportScreen.ShareLocation | src/components/ConcernedCitizenScreen.tsx:147-218 | no token or a blank reason sends nothing; success records the location, clears the reason and reports the trimmed reason for non-zero coordinates; the busy flags end |
| CitizenReport.ReportScreen.SuccessTimeout | src/components/ConcernedCitizenScreen.tsx:208-210 | the success banner is hidden |
| CitizenReport.ReportedReasonIsTrimmed | src/components/ConcernedCitizenScreen.tsx:193 | the reported reason is the typed one with only the white space at its two ends removed: non-empty, no space at either end, and `reason[i..j]` with blank text on both sides |
| CitizenMedia.ItemOf | src/components/CitizenMediaScreen.tsx:38-61 | a pick is typed image and named after the asset, else media.jpg from the library and photo.jpg from the camera |
| CitizenMedia.ErrorMessage | src/components/CitizenMediaScreen.tsx:103 | the message is never empty and is the server's message when it sent one |
| CitizenMedia.MediaScreen.constructor | src/components/CitizenMediaScreen.tsx:25-28 | the screen starts with no media and no description, idle |
| CitizenMedia.MediaScreen.Pick | src/components/CitizenMediaScreen.tsx:30-63 | a picked asset becomes the media; a cancelled pick changes nothing |
| CitizenMedia.MediaScreen.SubmitMedia | src/components/CitizenMediaScreen.tsx:65-107 | no media or a blank description sends nothing; the upload is always image/jpeg; only 200/201 marks submitted; a thrown error is reported; loading ends after every upload |
| CitizenMedia.MediaScreen.SubmittedTimeout | src/components/CitizenMediaScreen.tsx:94-99 | after a submission the screen is reset |
| Register.Check | RegisterScreen.tsx:35-42 | a signup is refused iff a field is empty or terms are not agreed, and missing fields are reported first |
| Register.ErrorMessage | RegisterScreen.tsx:64 | the server's error, else the error's message, else "Signup error" |
| Register.RegisterScreen.constructor | RegisterScreen.tsx:21-32 | the form starts empty, not agreed, idle, with no success overlay |
| Register.RegisterScreen.HandleRegister | RegisterScreen.tsx:34-68 | a refused form posts nothing; a success with a body stores the token and shows the overlay, one without goes to login; a failure reports the message; loading ends after every post |
| Register.RegisterScreen.Continue | RegisterScreen.tsx:172 | Continue with a token hides the overlay and forwards the token |
| ResponderInventory.EditForm | src/components/ResponderInventory.tsx:29 | editing fills missing strings with '' and the flag as available/unavailable |
| ResponderInventory.Quantity | src/components/ResponderInventory.tsx:35 | an empty quantity is 0; a digit string is its decimal value; any other text is not a number |
| ResponderInventory.PayloadOf | src/components/ResponderInventory.tsx:35 | the payload copies the fields, reads the quantity and sets available iff the field says "available" |
| ResponderInventory.EditThenSaveKeepsItem | src/components/ResponderInventory.tsx:29-35 | saving an unchanged edit form keeps the item's quantity (0 when missing), flag and name |
| ResponderInventory.CreateFormPayload | src/components/ResponderInventory.tsx:28 | the create form saves quantity 1, available |
| ResponderInventory.InventoryScreen.constructor | src/components/ResponderInventory.tsx:7-11 | the screen starts with no items and the create form |
| ResponderInventory.InventoryScreen.Load | src/components/ResponderInventory.tsx:13-24 | a reply replaces the items (none gives []); a failure keeps them; loading ends |
| ResponderInventory.InventoryScreen.OpenCreate | src/components/ResponderInventory.tsx:28 | create mode with the empty form and the modal open |
| ResponderInventory.InventoryScreen.OpenEdit | src/components/ResponderInventory.tsx:29 | edit mode on the item with its form and the modal open |
| ResponderInventory.InventoryScreen.Save | src/components/ResponderInventory.tsx:31-49 | an empty name sends nothing; editing PUTs by id, creating POSTs; success closes the modal and reloads |
| ResponderInventory.InventoryScreen.Toggle | src/components/ResponderInventory.tsx:57-63 | toggling sends the negated availability |
| ResponderInventory.InventoryScreen.Remove | src/components/ResponderInventory.tsx:51-55 | a confirmed removal sends one DELETE and reloads on success |
| ResponderVehicles.EditForm | src/components/ResponderVehicles.tsx:30 | editing fills missing strings with '' and the flag as active/inactive |
| ResponderVehicles.PayloadOf | src/components/ResponderVehicles.tsx:35 | the payload copies the fields and is active iff the field says "active" |
| ResponderVehicles.EditThenSaveKeepsVehicle | src/components/ResponderVehicles.tsx:29-35 | saving an unchanged edit form keeps the vehicle's flag and fields; the create form saves active |
| ResponderVehicles.LoadedKeepsAll | src/components/ResponderVehicles.tsx:19 | the load filter keeps every vehicle |
| ResponderVehicles.VehiclesScreen.constructor | src/components/ResponderVehicles.tsx:7-11 | the screen starts with no vehicles and the create form |
| ResponderVehicles.VehiclesScreen.Load | src/components/ResponderVehicles.tsx:13-25 | a reply replaces the vehicles (none gives []); a failure keeps them; loading ends |
| ResponderVehicles.VehiclesScreen.OpenCreate | src/components/ResponderVehicles.tsx:29 | create mode with the empty form and the modal open |
| ResponderVehicles.VehiclesScreen.OpenEdit | src/components/ResponderVehicles.tsx:30 | edit mode on the vehicle with its form and the modal open |
| ResponderVehicles.VehiclesScreen.Save | src/components/ResponderVehicles.tsx:32-46 | editing PUTs by id, creating POSTs, with no validation; success closes the modal and reloads |
| ResponderVehicles.VehiclesScreen.Toggle | src/components/ResponderVehicles.tsx:54-60 | toggling sends the negated active flag |
| ResponderVehicles.VehiclesScreen.Remove | src/components/ResponderVehicles.tsx:48-52 | a confirmed removal sends one DELETE and reloads on success |

## Left out

- Transport and platform are not modelled: axios, AsyncStorage, socket connection, push notifications, location permission prompts, pickers, FormData, Toasts and Alerts. Their results enter as parameters (`Response`, booleans, payloads).
- Timers and races are not modelled. Poll ticks, the location sender, the SOS countdown, the carousel and success timeouts are explicit method calls, with no interleaving of asynchronous callbacks.
- Floating-point code is not modelled: the haversine distance, wind direction, the `toFixed` kilometre label, retry back-off with random jitter, and press and upload progress. `ResponderHome.FormatDistance` keeps the metres for the kilometre case instead of the text.
- Occupancy.Percent: exact integer rounding with halves up stands in for `Math.round((occ / cap) * 100)` in floating point, which can differ on inputs whose quotient is not exactly representable.
- ResponderInventory.Quantity: only digit strings are read; any other text, such as decimals, signs, spaces or hex, is treated as not a number.
- ResponderHome.Responder.OnUpdated: the handler reads the `assigned` captured at mount, which is always null, so in the running app the update never applies. The model passes that captured value as `seen` and states the rule for any value.
- ResponderHome.Responder.OnArrived: takes the captured assignment as `seen`, for the same reason.
- The `useEffect` declared inside a `catch` at App.tsx:176-189 is not a working poller and is not modelled.
- App.tsx `fetchUnreadCount`, `fetchLatestArticle` and the status-update alerts are not modelled. `HandleSos` takes the status update's outcome as a parameter.
- Logout's socket disconnect and the push registration after login are I/O and are not modelled.
- The responder-type list loaded by `fetchProfile` (src/components/ResponderHome.tsx:79) is not modelled; only the chip toggle is.
- EmergencyTracker.Tracker.Unmount: only the poller is stopped. The source removes the socket listeners too, except `emergency:accepted`, which stays registered; listeners are not part of the state.
- JSON `null` and a missing field are the same `None`.
- AppSession.CreatedAssignmentCases: `payload.residentId === cur` (App.tsx:102) is true in the source when both are JSON `null`, so before the profile loads, or for a profile without an id, another user's created event with a `null` owner field is applied; the model treats `null` as missing and never matches, so it does not show this case.
- AppSession.MainScreen.OnCreated: inherits the same gap, so a created event with a `null` owner field, received while the session id is `null`, is not modelled.
- AppSession.MainScreen.OnResolved: the resolved check at App.tsx:260 has the same `null === null` case, which would clear the user's emergency for another user's event; it is not modelled.
- Case mapping covers ASCII letters only.
- Coordinates are reals, and NaN is not modelled.
- The token in the registration success screen's route parameters is not modelled; only the token handed over by the registration screen is.
- The WebView page code is not modelled apart from the weather screen's helpers inside its HTML template (the icon and description tables, the most-frequent-code count and the day window, src/components/WeatherView.tsx:128-250): the Leaflet/OSRM routing, the chart and the DOM building are left out, as are all rendering and styles.
- `src/components/ResponderMap.tsx`, `LoginScreen.tsx`, `ProfileScreen.tsx`, the config files, `connectionHealth.ts`, `notifications.ts`, `socket.ts` and `expo-entry.js` are not part of this model.
