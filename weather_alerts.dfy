/** The weather-alert banner: which alerts it shows after a fetch, which
    notifications make it fetch again, the carousel index and what it
    renders. */
module WeatherAlerts {
  import opened Wrappers
  import opened Strings
  import opened Seqs
  import opened Payloads

  datatype WeatherAlert = WeatherAlert(id: Option<string>, title: Option<string>, isActive: bool)

  /** The body of `GET /weather-alerts`. */
  datatype AlertsBody = AlertsArray(alerts: seq<WeatherAlert>) | NotAnArray

  predicate IsActive(a: WeatherAlert) {
    a.isActive
  }

  /** The list a fetch shows: the active alerts if there are any, else all
      of them; nothing for an empty or non-array answer. */
  function SelectAlerts(body: AlertsBody): seq<WeatherAlert> {
    if body.AlertsArray? && |body.alerts| > 0 then
      var active := Filter(body.alerts, IsActive);
      if |active| > 0 then active else body.alerts
    else []
  }

  lemma SelectAlertsSpec(body: AlertsBody)
    ensures SelectAlerts(body) != [] <==> body.AlertsArray? && body.alerts != []
    ensures forall i :: 0 <= i < |SelectAlerts(body)| ==> SelectAlerts(body)[i] in body.alerts
    ensures body.AlertsArray? && (exists i :: 0 <= i < |body.alerts| && IsActive(body.alerts[i])) ==>
      && (forall i :: 0 <= i < |SelectAlerts(body)| ==> IsActive(SelectAlerts(body)[i]))
      && (forall i :: 0 <= i < |body.alerts| && IsActive(body.alerts[i]) ==> body.alerts[i] in SelectAlerts(body))
    ensures body.AlertsArray? && (forall i :: 0 <= i < |body.alerts| ==> !IsActive(body.alerts[i])) ==>
      SelectAlerts(body) == body.alerts
  {
    if body.AlertsArray? && body.alerts != [] {
      var active := Filter(body.alerts, IsActive);
      if exists i :: 0 <= i < |body.alerts| && IsActive(body.alerts[i]) {
        var i :| 0 <= i < |body.alerts| && IsActive(body.alerts[i]);
        assert body.alerts[i] in active;
      } else {
        FilterNone(body.alerts, IsActive);
      }
    }
  }

  /** A `notification:new` payload, as far as the banner reads it. */
  datatype NotificationPayload = NotificationPayload(kind: Option<string>, weatherAlertId: Option<string>)

  /** A weather notification, or one about a weather alert, makes the banner
      fetch again. */
  predicate ShouldRefetch(p: Option<NotificationPayload>) {
    p.Some? && (p.value.kind == Some("WEATHER") || Truthy(p.value.weatherAlertId))
  }

  /** What is drawn: nothing while loading or without alerts, else the
      current alert with its counter. */
  datatype Banner = NoBanner | Shown(alert: WeatherAlert, counter: string)

  /** `"index+1/length"` when there are several alerts, `!` for one. */
  function Counter(index: nat, count: nat): string {
    if count > 1 then NatToString(index + 1) + "/" + NatToString(count) else "!"
  }

  /** The counter of a carousel reads back as the position and the count. */
  lemma CounterReadsBack(index: nat, count: nat)
    requires count > 1
    ensures var c := Counter(index, count); var k := |NatToString(index + 1)|;
      && 0 < k < |c| && c[k] == '/'
      && DigitsValue(c[..k]) == index + 1
      && DigitsValue(c[k + 1..]) == count
  {
    var c := Counter(index, count);
    var k := |NatToString(index + 1)|;
    assert c[..k] == NatToString(index + 1);
    assert c[k + 1..] == NatToString(count);
    DigitsValueOfNatToString(index + 1);
    DigitsValueOfNatToString(count);
  }

  class AlertBanner {
    var alerts: seq<WeatherAlert>
    var index: nat
    var loading: bool
    /** The rotation interval `rotRef` is set. */
    var rotating: bool

    /** The index is always a valid position, and the carousel only turns
        with more than one alert. */
    ghost predicate Valid()
      reads this
    {
      && (alerts != [] ==> index < |alerts|)
      && (alerts == [] ==> index == 0)
      && (rotating ==> |alerts| > 1)
    }

    constructor ()
      ensures Valid()
      ensures alerts == [] && index == 0 && !loading && !rotating
    {
      alerts := [];
      index := 0;
      loading := false;
      rotating := false;
    }

    /** The effect re-run when the list changes: the old rotation is cleared
        and a new one started only for more than one alert. */
    method AlertsChanged()
      requires (alerts != [] ==> index < |alerts|) && (alerts == [] ==> index == 0)
      modifies this`rotating
      ensures Valid()
      ensures rotating <==> |alerts| > 1
    {
      rotating := |alerts| > 1;
    }

    /** `fetchAlerts`: an answer (`Some`) replaces the list and resets the
        index; a failed request (`None`) keeps both. Loading is off after. */
    method FetchAlerts(resp: Option<AlertsBody>)
      requires Valid()
      modifies this
      ensures Valid()
      ensures !loading
      ensures resp.Some? ==> alerts == SelectAlerts(resp.value) && index == 0 && (rotating <==> |alerts| > 1)
      ensures resp.None? ==> alerts == old(alerts) && index == old(index) && rotating == old(rotating)
    {
      loading := true;
      if resp.Some? {
        alerts := SelectAlerts(resp.value);
        index := 0;
        AlertsChanged();
      }
      loading := false;
    }

    /** `notification:new`: a weather notification triggers a fetch. */
    method OnNotification(p: Option<NotificationPayload>, resp: Option<AlertsBody>)
      requires Valid()
      modifies this
      ensures Valid()
      ensures ShouldRefetch(p) ==> !loading
      ensures ShouldRefetch(p) && resp.Some? ==> alerts == SelectAlerts(resp.value) && index == 0 && (rotating <==> |alerts| > 1)
      ensures ShouldRefetch(p) && resp.None? ==> alerts == old(alerts) && index == old(index) && rotating == old(rotating)
      ensures !ShouldRefetch(p) ==> alerts == old(alerts) && index == old(index) && rotating == old(rotating)
      ensures !ShouldRefetch(p) ==> loading == old(loading)
    {
      if ShouldRefetch(p) {
        FetchAlerts(resp);
      }
    }

    /** One turn of the carousel: the next alert, wrapping around. */
    method RotateTick()
      requires Valid()
      modifies this`index
      ensures Valid()
      ensures rotating ==> index == (old(index) + 1) % |alerts|
      ensures !rotating ==> index == old(index)
    {
      if rotating {
        index := (index + 1) % |alerts|;
      }
    }

    function Rendered(): (b: Banner)
      reads this
      requires Valid()
      ensures b.Shown? <==> !loading && alerts != []
      ensures b.Shown? ==> index < |alerts| && b.alert == alerts[index] && b.counter == Counter(index, |alerts|)
    {
      if loading || alerts == [] then NoBanner else Shown(alerts[index], Counter(index, |alerts|))
    }
  }

  /** Three alerts rotate through every position and come back to the first. */
  method CarouselCycles()
  {
    var b := new AlertBanner();
    var a := WeatherAlert(None, None, false);
    var body := AlertsArray([a, a.(id := Some("2")), a.(id := Some("3"))]);
    SelectAlertsSpec(body);
    b.FetchAlerts(Some(body));
    assert |b.alerts| == 3;
    b.RotateTick();
    b.RotateTick();
    assert b.index == 2;
    b.RotateTick();
    assert b.index == 0;
  }
}
