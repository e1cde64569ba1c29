/** The `useGeolocation` hook: a request for one position fix and its two
    asynchronous outcomes, over the hook's `coords`, `loading` and `error`
    state. The browser's positioning service is not modelled; whether it
    exists and what it reports are the events' parameters. */
module Geolocation {
  import opened Common

  const UnsupportedMessage := "Geolocalização não é suportada pelo seu navegador."
  const FailureMessage := "Falha ao obter localização. Permita o acesso."

  /** The hook's `coords` record; a coordinate is null until a fix arrives. */
  datatype Coords = Coords(lat: Option<real>, long: Option<real>)

  datatype GeoState = GeoState(coords: Coords, loading: bool, error: Option<string>)

  /** What can happen to the hook: `requestLocation()` (with or without a
      positioning service in the browser), the success callback with a
      position, and the failure callback. */
  datatype GeoEvent =
    | Request(supported: bool)
    | Fix(latitude: real, longitude: real)
    | Failure

  predicate IsCallback(e: GeoEvent)
  {
    e.Fix? || e.Failure?
  }

  /** JavaScript truthiness of a coordinate: null and 0 are falsy. */
  predicate CoordPresent(c: Option<real>)
  {
    c.Some? && c.value != 0.0
  }

  /** The state the hook starts in. */
  const Initial := GeoState(Coords(None, None), false, None)

  /** One event applied to the hook's state. */
  function Step(s: GeoState, e: GeoEvent): (r: GeoState)
    // a request never touches the coordinates already known
    ensures e.Request? ==> r.coords == s.coords
    // without a positioning service only the error changes
    ensures e == Request(false) ==> r.loading == s.loading && r.error == Some(UnsupportedMessage)
    // a supported request is pending and has cleared the previous error
    ensures e == Request(true) ==> r.loading && r.error.None?
    // every callback ends the request
    ensures IsCallback(e) ==> !r.loading
    // a fix replaces both coordinates and leaves the error alone
    ensures e.Fix? ==> r.coords == Coords(Some(e.latitude), Some(e.longitude)) && r.error == s.error
    // a failure reports and keeps the old coordinates
    ensures e.Failure? ==> r.coords == s.coords && r.error == Some(FailureMessage)
  {
    match e
    case Request(supported) =>
      if !supported then s.(error := Some(UnsupportedMessage))
      else s.(loading := true, error := None)
    case Fix(latitude, longitude) =>
      s.(coords := Coords(Some(latitude), Some(longitude)), loading := false)
    case Failure =>
      s.(error := Some(FailureMessage), loading := false)
  }

  /** The state after a whole sequence of events, oldest first. */
  function Run(s: GeoState, events: seq<GeoEvent>): GeoState
    decreases |events|
  {
    if events == [] then s
    else Step(Run(s, events[..|events| - 1]), events[|events| - 1])
  }

  /** Reference definitions, each looking only at the events that matter to
      one part of the state. */

  /** The most recent fix, if any. */
  function LastFix(events: seq<GeoEvent>): Option<GeoEvent>
    ensures LastFix(events).Some? ==> LastFix(events).value.Fix? && LastFix(events).value in events
    decreases |events|
  {
    if events == [] then None
    else if events[|events| - 1].Fix? then Some(events[|events| - 1])
    else LastFix(events[..|events| - 1])
  }

  /** The most recent event that decides `loading`: a supported request or a
      callback (an unsupported request leaves `loading` as it was). */
  function LastLoadingEvent(events: seq<GeoEvent>): Option<GeoEvent>
    decreases |events|
  {
    if events == [] then None
    else if events[|events| - 1] != Request(false) then Some(events[|events| - 1])
    else LastLoadingEvent(events[..|events| - 1])
  }

  /** The most recent event that decides `error`: any event but a fix. */
  function LastErrorEvent(events: seq<GeoEvent>): Option<GeoEvent>
    ensures LastErrorEvent(events).Some? ==> !LastErrorEvent(events).value.Fix?
    decreases |events|
  {
    if events == [] then None
    else if !events[|events| - 1].Fix? then Some(events[|events| - 1])
    else LastErrorEvent(events[..|events| - 1])
  }

  /** The error each kind of event leaves behind. */
  function ErrorLeftBy(e: GeoEvent): Option<string>
    requires !e.Fix?
  {
    match e
    case Request(supported) => if supported then None else Some(UnsupportedMessage)
    case Failure => Some(FailureMessage)
  }

  /** The coordinates are those of the last fix, or the starting ones when no
      fix arrived: requests and failures never reset them. */
  lemma {:induction false} CoordsAreLastFix(s: GeoState, events: seq<GeoEvent>)
    ensures Run(s, events).coords ==
      match LastFix(events)
      case None => s.coords
      case Some(f) => Coords(Some(f.latitude), Some(f.longitude))
    decreases |events|
  {
    if events != [] {
      CoordsAreLastFix(s, events[..|events| - 1]);
    }
  }

  /** `loading` is true exactly when the last deciding event is a supported
      request, i.e. a request is still waiting for its callback. */
  lemma {:induction false} LoadingIffPending(s: GeoState, events: seq<GeoEvent>)
    ensures Run(s, events).loading ==
      match LastLoadingEvent(events)
      case None => s.loading
      case Some(e) => e == Request(true)
    decreases |events|
  {
    if events != [] {
      LoadingIffPending(s, events[..|events| - 1]);
    }
  }

  /** The error is the one left by the last event other than a fix. */
  lemma {:induction false} ErrorIsLastReport(s: GeoState, events: seq<GeoEvent>)
    ensures Run(s, events).error ==
      match LastErrorEvent(events)
      case None => s.error
      case Some(e) => ErrorLeftBy(e)
    decreases |events|
  {
    if events != [] {
      ErrorIsLastReport(s, events[..|events| - 1]);
    }
  }

  /** Once the last event that decides `loading` is a callback, nothing is
      loading, whatever unsupported requests came after it. */
  lemma NotLoadingAfterCallback(s: GeoState, events: seq<GeoEvent>)
    requires LastLoadingEvent(events).Some? && IsCallback(LastLoadingEvent(events).value)
    ensures !Run(s, events).loading
  {
    LoadingIffPending(s, events);
  }

  /** The hook instance: its three pieces of state and the three entry points. */
  class GeolocationHook {
    var coords: Coords
    var loading: bool
    var error: Option<string>

    function State(): GeoState
      reads this
    {
      GeoState(coords, loading, error)
    }

    constructor()
      ensures State() == Initial
    {
      coords := Coords(None, None);
      loading := false;
      error := None;
    }

    /** `requestLocation()`: `supported` says whether `navigator.geolocation`
        exists; the position service's answer arrives later through
        `OnPosition` or `OnPositionError`. */
    method RequestLocation(supported: bool)
      modifies this
      ensures State() == Step(old(State()), Request(supported))
    {
      if !supported {
        error := Some(UnsupportedMessage);
        return;
      }
      loading := true;
      error := None;
    }

    /** The success callback of `getCurrentPosition`. */
    method OnPosition(latitude: real, longitude: real)
      modifies this
      ensures State() == Step(old(State()), Fix(latitude, longitude))
    {
      coords := Coords(Some(latitude), Some(longitude));
      loading := false;
    }

    /** The failure callback of `getCurrentPosition`. */
    method OnPositionError()
      modifies this
      ensures State() == Step(old(State()), Failure)
    {
      error := Some(FailureMessage);
      loading := false;
    }
  }
}
