/** The hold-to-send SOS button: a long press opens the type selector, the
    chosen type is sent after a five-second countdown that can be cancelled,
    and a sent SOS locks the button. */
module SosButtonModel {
  import opened Wrappers
  import opened Payloads
  import Api

  const LongPressDuration: int := 3000

  datatype SosType = Medical | Fire | Flood | Earthquake

  function TypeName(t: SosType): string {
    match t
    case Medical => "MEDICAL"
    case Fire => "FIRE"
    case Flood => "FLOOD"
    case Earthquake => "EARTHQUAKE"
  }

  /** `pressStartTime.current ? now - start : 0` */
  function Elapsed(pressStart: Option<int>, now: int): (r: int)
    ensures pressStart.None? || pressStart.value == 0 ==> r == 0
    ensures pressStart.Some? && pressStart.value != 0 ==> r + pressStart.value == now
  {
    if pressStart.Some? && pressStart.value != 0 then now - pressStart.value else 0
  }

  class SosButton {
    var isLoading: bool
    var locked: bool
    var pressStart: Option<int>
    /** The progress interval `pressTimer` is set. */
    var progressTimer: bool
    var pressDuration: int
    var selectorVisible: bool
    var pendingType: Option<SosType>
    var cancelModalVisible: bool
    /** The countdown of the latest `sendWithType` is armed: neither fired nor
        cancelled. */
    var countdownArmed: bool
    /** `cancelModalCancel` has been set by a `sendWithType`. */
    var canCancel: bool

    constructor ()
      ensures !isLoading && !locked && pressStart.None? && !progressTimer && pressDuration == 0
      ensures !selectorVisible && pendingType.None? && !cancelModalVisible && !countdownArmed && !canCancel
    {
      isLoading := false;
      locked := false;
      pressStart := None;
      progressTimer := false;
      pressDuration := 0;
      selectorVisible := false;
      pendingType := None;
      cancelModalVisible := false;
      countdownArmed := false;
      canCancel := false;
    }

    /** The mount check: an HTTP 200 from `/emergencies/latest` means an
        active emergency and locks the button; anything else is ignored. */
    method Mount(latestStatus: Option<int>)
      modifies this`locked
      ensures locked == (old(locked) || latestStatus == Some(200))
    {
      if latestStatus == Some(200) {
        locked := true;
      }
    }

    /** `handlePressIn`: ignored while locked or loading; otherwise records
        the start and starts the progress timer. */
    method PressIn(now: int)
      modifies this`pressStart, this`pressDuration, this`progressTimer
      ensures locked || isLoading ==>
        pressStart == old(pressStart) && pressDuration == old(pressDuration) && progressTimer == old(progressTimer)
      ensures !(locked || isLoading) ==> pressStart == Some(now) && pressDuration == 0 && progressTimer
    {
      if locked || isLoading {
        return;
      }
      pressStart := Some(now);
      pressDuration := 0;
      progressTimer := true;
    }

    /** `handlePressOut`: clears the timer and the start, and opens the
        selector exactly when the press lasted the full duration. */
    method PressOut(now: int)
      modifies this`pressStart, this`progressTimer, this`selectorVisible
      ensures pressStart.None? && !progressTimer
      ensures selectorVisible == (old(selectorVisible) || Elapsed(old(pressStart), now) >= LongPressDuration)
    {
      progressTimer := false;
      var elapsed := Elapsed(pressStart, now);
      if elapsed >= LongPressDuration {
        selectorVisible := true;
      }
      pressStart := None;
    }

    /** `sendWithType`: closes the selector, records the type, shows the
        cancel modal and arms a fresh countdown. */
    method SendWithType(t: SosType)
      modifies this`selectorVisible, this`pendingType, this`cancelModalVisible, this`pressDuration,
        this`countdownArmed, this`canCancel
      ensures !selectorVisible && pendingType == Some(t) && cancelModalVisible && pressDuration == 0
      ensures countdownArmed && canCancel
    {
      selectorVisible := false;
      pendingType := Some(t);
      cancelModalVisible := true;
      pressDuration := 0;
      countdownArmed := true;
      canCancel := true;
    }

    /** "Cancel SOS": once a countdown exists, disarms it, hides the modal and
        forgets the type; before any, the button does nothing. */
    method Cancel()
      modifies this`countdownArmed, this`cancelModalVisible, this`pendingType
      ensures canCancel ==> !countdownArmed && !cancelModalVisible && pendingType.None?
      ensures !canCancel ==>
        countdownArmed == old(countdownArmed) && cancelModalVisible == old(cancelModalVisible) && pendingType == old(pendingType)
    {
      if canCancel {
        countdownArmed := false;
        cancelModalVisible := false;
        pendingType := None;
      }
    }

    /** The countdown fires: nothing after a cancel; otherwise the modal
        closes and the SOS is sent if location permission is granted. Only a
        successful send locks; loading is off afterwards in every case. */
    method CountdownFires(t: SosType, permissionGranted: bool, token: Option<string>, postOk: bool)
      returns (sent: Option<Api.SosResult>)
      modifies this`isLoading, this`cancelModalVisible, this`locked, this`countdownArmed
      ensures !old(countdownArmed) ==>
        sent.None? && locked == old(locked) && cancelModalVisible == old(cancelModalVisible) && isLoading == old(isLoading)
      ensures old(countdownArmed) ==> !isLoading && !cancelModalVisible && !countdownArmed
      ensures old(countdownArmed) && !permissionGranted ==> sent.None? && locked == old(locked)
      ensures old(countdownArmed) && permissionGranted ==>
        sent == Some(Api.SendSos(token, Some(TypeName(t)), postOk)) &&
        locked == (old(locked) || sent.value.success)
    {
      sent := None;
      if !countdownArmed {
        return;
      }
      countdownArmed := false;
      isLoading := true;
      cancelModalVisible := false;
      if permissionGranted {
        var response := Api.SendSos(token, Some(TypeName(t)), postOk);
        sent := Some(response);
        if response.success {
          locked := true;
        }
      }
      isLoading := false;
    }
  }

  /** A locked button ignores a long press: the release cannot open the
      selector however long it was held. */
  method LockedButtonIgnoresLongPress(now: int)
  {
    var b := new SosButton();
    b.Mount(Some(200));
    b.PressIn(now);
    b.PressOut(now + 10000);
    assert !b.selectorVisible;
  }

  /** A cancelled countdown sends nothing and leaves the button unlocked. */
  method CancelledCountdownSendsNothing(token: Option<string>)
  {
    var b := new SosButton();
    b.PressIn(1000);
    b.PressOut(4000);
    assert b.selectorVisible;
    b.SendWithType(Fire);
    b.Cancel();
    var sent := b.CountdownFires(Fire, true, token, true);
    assert sent.None? && !b.locked && b.pendingType.None?;
  }

  /** A completed countdown with a token and an accepted POST locks the button. */
  method SentCountdownLocks()
  {
    var b := new SosButton();
    b.SendWithType(Medical);
    var sent := b.CountdownFires(Medical, true, Some("t"), true);
    assert sent.Some? && sent.value.posted == Some(Api.SosRequestBody(Some("MEDICAL")));
    assert b.locked && !b.isLoading;
  }
}
