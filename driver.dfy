/**
 * The driver page's GPS tracking (public/driver.js): the gate every position
 * reported by the browser passes before it is posted to the live-location
 * API, and the Start / Stop buttons that turn the position watch on and off.
 */
module Driver {
  import opened Wrappers

  /** A JavaScript number field of a position that may be null or NaN, as
      `speed` and `heading` are. */
  datatype JsNumber = Null | NaN | Num(value: real)

  /** The truthiness test of `x || 0`: null, NaN and 0 are falsy. */
  predicate Falsy(x: JsNumber) {
    x.Null? || x.NaN? || (x.Num? && x.value == 0.0)
  }

  /** `x || 0`. */
  function OrZero(x: JsNumber): (r: real)
    ensures r == 0.0 <==> Falsy(x)
    ensures r != 0.0 ==> x == Num(r)
  {
    if x.Num? && x.value != 0.0 then x.value else 0.0
  }

  /** `position.coords`: latitude and longitude are always numbers. */
  datatype Coords = Coords(latitude: real, longitude: real, speed: JsNumber, heading: JsNumber)

  /** The JSON body posted to the live-location API. */
  datatype Payload = Payload(latitude: real, longitude: real, speed: real, heading: real)

  /** What updateLocation does with one position: shows "waiting for an
      accurate GPS signal", shows "invalid position" with the coordinates, or
      posts the payload. */
  datatype LocationUpdate =
    | AwaitingFix
    | InvalidPosition(latitude: real, longitude: real)
    | Post(payload: Payload)

  const MinLatitude: real := 5.0
  const MaxLatitude: real := 21.0
  const MinLongitude: real := 97.0
  const MaxLongitude: real := 106.0

  /** The rough box around Thailand that positions must fall in, bounds
      included. */
  predicate InServiceArea(latitude: real, longitude: real) {
    MinLatitude <= latitude <= MaxLatitude && MinLongitude <= longitude <= MaxLongitude
  }

  /** updateLocation: (0, 0) is dropped first, then anything outside the box;
      what passes is posted with its coordinates as given and with speed and
      heading defaulted to 0. */
  function UpdateLocation(c: Coords): (u: LocationUpdate)
    ensures u.Post? <==> InServiceArea(c.latitude, c.longitude)
    ensures u.AwaitingFix? <==> c.latitude == 0.0 && c.longitude == 0.0
    ensures u.InvalidPosition? ==> u.latitude == c.latitude && u.longitude == c.longitude
    ensures u.Post? ==> u.payload.latitude == c.latitude && u.payload.longitude == c.longitude
    ensures u.Post? ==> u.payload.speed == OrZero(c.speed) && u.payload.heading == OrZero(c.heading)
  {
    if c.latitude == 0.0 && c.longitude == 0.0 then AwaitingFix
    else if c.latitude < MinLatitude || c.latitude > MaxLatitude ||
            c.longitude < MinLongitude || c.longitude > MaxLongitude
    then InvalidPosition(c.latitude, c.longitude)
    else Post(Payload(c.latitude, c.longitude, OrZero(c.speed), OrZero(c.heading)))
  }

  /** updateLocation without its (0, 0) check. */
  function RangeGateOnly(c: Coords): LocationUpdate {
    if c.latitude < MinLatitude || c.latitude > MaxLatitude ||
       c.longitude < MinLongitude || c.longitude > MaxLongitude
    then InvalidPosition(c.latitude, c.longitude)
    else Post(Payload(c.latitude, c.longitude, OrZero(c.speed), OrZero(c.heading)))
  }

  /** (0, 0) already lies outside the box, so the first check changes only the
      message shown, never whether or what is posted. */
  lemma ZeroCheckOnlyChangesMessage(c: Coords)
    ensures UpdateLocation(c).Post? <==> RangeGateOnly(c).Post?
    ensures UpdateLocation(c).Post? ==> UpdateLocation(c) == RangeGateOnly(c)
    ensures UpdateLocation(c) != RangeGateOnly(c) ==> c.latitude == 0.0 && c.longitude == 0.0
  {
  }

  /** The four corners of the box are posted. */
  lemma CornersArePosted(speed: JsNumber, heading: JsNumber)
    ensures UpdateLocation(Coords(MinLatitude, MinLongitude, speed, heading)).Post?
    ensures UpdateLocation(Coords(MinLatitude, MaxLongitude, speed, heading)).Post?
    ensures UpdateLocation(Coords(MaxLatitude, MinLongitude, speed, heading)).Post?
    ensures UpdateLocation(Coords(MaxLatitude, MaxLongitude, speed, heading)).Post?
  {
  }

  /** The id `navigator.geolocation.watchPosition` returns: the Geolocation
      API makes it greater than zero, so it is always truthy. */
  type WatchId = n: int | n > 0 witness 1

  /** The text of the status line, as far as the buttons set it. */
  datatype StatusText = Initial | GeolocationUnsupported | TrackingStarted | TrackingStopped

  /** The page's tracking state: `watchId`, the two buttons' `disabled` flags
      and the status line, together with the watches the browser's
      geolocation service holds for the page. */
  class Tracker {
    var watchId: Option<WatchId>
    var startDisabled: bool
    var stopDisabled: bool
    var status: StatusText
    var activeWatches: set<WatchId>

    /** The page holds exactly the watches the browser runs for it: none, or
        the one in `watchId`. */
    predicate Valid()
      reads this
    {
      activeWatches == if watchId.Some? then {watchId.value} else {}
    }

    /** Start is disabled exactly while tracking, Stop exactly while not. */
    predicate ButtonsMatch()
      reads this
    {
      startDisabled == watchId.Some? && stopDisabled == watchId.None?
    }

    /** The page as loaded: no watch, buttons as the markup sets them. */
    constructor (startDisabled0: bool, stopDisabled0: bool)
      ensures Valid()
      ensures watchId == None && activeWatches == {} && status == Initial
      ensures startDisabled == startDisabled0 && stopDisabled == stopDisabled0
    {
      watchId := None;
      startDisabled, stopDisabled := startDisabled0, stopDisabled0;
      status := Initial;
      activeWatches := {};
    }

    /** The Start button's click handler. `supported` says whether
        `navigator.geolocation` exists; `newId` is what `watchPosition` would
        return. */
    method ClickStart(supported: bool, newId: WatchId)
      requires Valid()
      modifies this
      ensures Valid()
      ensures old(ButtonsMatch()) ==> ButtonsMatch()
      ensures !supported ==>
        status == GeolocationUnsupported &&
        watchId == old(watchId) && activeWatches == old(activeWatches) &&
        startDisabled == old(startDisabled) && stopDisabled == old(stopDisabled)
      ensures supported && old(watchId).Some? ==>
        unchanged(this)
      ensures supported && old(watchId).None? ==>
        watchId == Some(newId) && activeWatches == {newId} &&
        startDisabled && !stopDisabled && status == TrackingStarted
    {
      if !supported {
        status := GeolocationUnsupported;
        return;
      }
      if watchId.Some? {
        return;
      }
      activeWatches := activeWatches + {newId};
      watchId := Some(newId);
      status := TrackingStarted;
      startDisabled := true;
      stopDisabled := false;
    }

    /** The Stop button's click handler: clears the watch if there is one. */
    method ClickStop()
      requires Valid()
      modifies this
      ensures Valid()
      ensures old(ButtonsMatch()) ==> ButtonsMatch()
      ensures old(watchId).None? ==> unchanged(this)
      ensures old(watchId).Some? ==>
        watchId == None && activeWatches == {} &&
        !startDisabled && stopDisabled && status == TrackingStopped
    {
      if watchId.None? {
        return;
      }
      activeWatches := activeWatches - {watchId.value};
      watchId := None;
      status := TrackingStopped;
      startDisabled := false;
      stopDisabled := true;
    }
  }
}
