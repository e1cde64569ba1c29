/** The attendee's presence-confirmation page: which screen it shows, the
    checks made before a presence is posted, the device id and "first" flag it
    keeps in local storage, and the handlers and effects that change its state.
    The page's geolocation state is a `GeolocationHook`; the IP lookup, the
    chamada fetch, the uuid generator and the presence post are asynchronous
    services whose answers are parameters of the methods that receive them. */
module ConfirmPresence {
  import opened Common
  import opened ChamadaModel
  import opened Geolocation
  import opened BrowserStorage

  const IdMissing := "Id da chamada não foi provido"
  const IpMissing := "Não foi possível obter o IP"
  const LocationMissing := "Não foi possível obter sua localização"
  const IpLookupFailed := "Falha ao obter o endereço IP"

  /** Everything the page's rendering and its submit handler read: the
      geolocation hook's `loading` and `coords`, the route's `idChamada`, and
      the page's own state variables. */
  datatype PageState = PageState(
    loading: bool,
    coords: Coords,
    routeId: Option<string>,
    firstLoad: bool,
    id: Option<string>,
    uuid: Option<string>,
    chamada: Option<Chamada>,
    nome: string,
    ip: string,
    displayError: string,
    success: bool,
    customInputs: seq<CustomInput>,
    customInputValues: map<string, string>)

  /** The four screens of the render chain. */
  datatype Screen =
    | Spinner            // waiting for the location or for the chamada
    | PermissionPrompt   // asks the attendee to allow location access
    | LocationHelp       // location unavailable, with a retry button
    | Form               // the confirmation form

  /** The render chain: the first condition that holds picks the screen. A
      coordinate counts as missing here when it is null or 0. */
  function ScreenOf(s: PageState): (r: Screen)
    ensures s.loading || s.chamada.None? <==> r == Spinner
    ensures r == PermissionPrompt <==> !s.loading && s.chamada.Some? && s.firstLoad
    ensures r == Form <==>
      && !s.loading && s.chamada.Some? && !s.firstLoad
      && CoordPresent(s.coords.lat) && CoordPresent(s.coords.long)
  {
    if s.loading || s.chamada.None? then Spinner
    else if s.firstLoad then PermissionPrompt
    else if !CoordPresent(s.coords.lat) || !CoordPresent(s.coords.long) then LocationHelp
    else Form
  }

  /** The presence post: its path below the API's base URL and its JSON body
      (the body's latitude key is spelled `lag`). */
  datatype PresenceRequest = PresenceRequest(
    path: string,
    nome: string,
    ip: string,
    uuid: Option<string>,
    lag: real,
    long: real,
    customInputs: map<string, string>)

  /** What a click on "Confirmar Presença" does: show a message, or post. */
  datatype Submission = Refused(message: string) | Post(request: PresenceRequest)

  /** The submit checks, in the order the handler makes them; the first that
      fails decides the message. The location check only tests for null, and
      the device uuid is not checked at all. */
  function Validate(s: PageState): (r: Submission)
    ensures r == Refused(IdMissing) <==> !Present(s.id)
    ensures r == Refused(IpMissing) <==> Present(s.id) && s.ip == ""
    ensures r == Refused(LocationMissing) <==>
      Present(s.id) && s.ip != "" && (s.coords.lat.None? || s.coords.long.None?)
    ensures r.Post? <==>
      Present(s.id) && s.ip != "" && s.coords.lat.Some? && s.coords.long.Some?
    ensures r.Post? ==> r.request == PresenceRequest(
      "/presence/" + s.id.value, s.nome, s.ip, s.uuid,
      s.coords.lat.value, s.coords.long.value, s.customInputValues)
  {
    if !Present(s.id) then Refused(IdMissing)
    else if s.ip == "" then Refused(IpMissing)
    else if s.coords.lat.None? || s.coords.long.None? then Refused(LocationMissing)
    else Post(PresenceRequest(
      "/presence/" + s.id.value, s.nome, s.ip, s.uuid,
      s.coords.lat.value, s.coords.long.value, s.customInputValues))
  }

  /** The parts of the form screen. */
  predicate FormShown(s: PageState)
  {
    ScreenOf(s) == Form && !s.success
  }

  predicate SuccessAlertShown(s: PageState)
  {
    ScreenOf(s) == Form && s.success
  }

  predicate ErrorAlertShown(s: PageState)
  {
    ScreenOf(s) == Form && s.displayError != ""
  }

  /** The chamada-id input appears only when the route carries no id. */
  predicate IdInputShown(s: PageState)
  {
    FormShown(s) && !Present(s.routeId)
  }

  /** Once a presence is confirmed the form (and with it the submit button)
      is gone; the success alert is shown instead. */
  lemma SuccessHidesForm(s: PageState)
    requires s.success
    ensures !FormShown(s) && !IdInputShown(s)
    ensures ScreenOf(s) == Form ==> SuccessAlertShown(s)
  {
  }

  /** On the form screen a refused submit and a rejected post (with a
      message) show the error alert next to the form; an accepted post shows
      the success alert and no error alert. */
  lemma AlertsAfterSubmit(s: PageState, serverMessage: string)
    requires ScreenOf(s) == Form
    ensures Validate(s).Refused? ==> ErrorAlertShown(s.(displayError := Validate(s).message))
    ensures serverMessage != "" ==> ErrorAlertShown(s.(displayError := serverMessage))
    ensures var posted := s.(displayError := "", success := true);
      SuccessAlertShown(posted) && !ErrorAlertShown(posted) && !FormShown(posted)
  {
  }

  /** A latitude of exactly 0 is missing for the render chain but present for
      the submit check. */
  lemma ZeroLatitudeDisagreement(s: PageState)
    requires s.coords.lat == Some(0.0) && s.coords.long.Some?
    requires Present(s.id) && s.ip != ""
    ensures ScreenOf(s) != Form
    ensures Validate(s).Post?
  {
  }

  /** Whenever the form is on screen the location check passes: a submit from
      the form can only be refused for the chamada id or the IP. */
  lemma FormPassesLocationCheck(s: PageState)
    requires ScreenOf(s) == Form
    ensures Validate(s) != Refused(LocationMissing)
    ensures Present(s.id) && s.ip != "" ==> Validate(s).Post?
  {
  }

  /** The device id is never checked: changing it changes only the posted body. */
  lemma UuidNotChecked(s: PageState, other: Option<string>)
    ensures Validate(s.(uuid := other)).Post? == Validate(s).Post?
    ensures Validate(s).Refused? ==> Validate(s.(uuid := other)) == Validate(s)
  {
  }

  // ---------------------------------------------------------------------
  // Local storage written by the mount effect

  /** The storage after the mount effect: a generated id is written only when
      none is stored, and "first" is rewritten only when it is already set. */
  function MountedStorage(items: map<string, string>, generated: string): (r: map<string, string>)
    ensures Stored(items, "uuid") ==> "uuid" in r && r["uuid"] == items["uuid"]
    ensures !Stored(items, "uuid") ==> "uuid" in r && r["uuid"] == generated
    ensures Stored(r, "first") <==> Stored(items, "first")
    ensures Stored(items, "first") ==> r["first"] == "true"
    ensures !Stored(items, "first") ==> ("first" in r <==> "first" in items)
    ensures !Stored(items, "first") && "first" in items ==> r["first"] == items["first"]
    ensures forall k :: k != "uuid" && k != "first" ==> (k in r <==> k in items)
    ensures forall k :: k in items && k != "uuid" && k != "first" ==> r[k] == items[k]
  {
    var withId := if Stored(items, "uuid") then items else items["uuid" := generated];
    if Stored(withId, "first") then withId["first" := "true"] else withId
  }

  /** The device id the page keeps after mounting: the one read back from storage. */
  function MountedUuid(items: map<string, string>, generated: string): Option<string>
    ensures "uuid" in MountedStorage(items, generated)
  {
    Some(MountedStorage(items, generated)["uuid"])
  }

  /** The storage after a page has been mounted once per generated id. */
  function MountedRepeatedly(items: map<string, string>, generated: seq<string>): map<string, string>
    decreases |generated|
  {
    if generated == [] then items
    else MountedRepeatedly(MountedStorage(items, generated[0]), generated[1..])
  }

  /** A second mount over the same storage reuses the id of the first. */
  lemma DeviceIdReused(items: map<string, string>, first: string, second: string)
    requires first != ""
    ensures MountedUuid(MountedStorage(items, first), second) == MountedUuid(items, first)
  {
  }

  /** Once a non-empty id is stored, every later mount reads that same id. */
  lemma {:induction false} DeviceIdStable(items: map<string, string>, generated: seq<string>, next: string)
    requires Stored(items, "uuid")
    ensures Stored(MountedRepeatedly(items, generated), "uuid")
    ensures MountedUuid(MountedRepeatedly(items, generated), next) == Some(items["uuid"])
    decreases |generated|
  {
    if generated != [] {
      DeviceIdStable(MountedStorage(items, generated[0]), generated[1..], next);
    }
  }

  /** "first" is written only when it is already set, so a storage without it
      never gets it, however many times the page is mounted: every mount
      leaves `firstLoad` true and the permission prompt keeps coming back. */
  lemma {:induction false} FirstFlagNeverArmed(items: map<string, string>, generated: seq<string>)
    requires !Stored(items, "first")
    ensures !Stored(MountedRepeatedly(items, generated), "first")
    decreases |generated|
  {
    if generated != [] {
      FirstFlagNeverArmed(MountedStorage(items, generated[0]), generated[1..]);
    }
  }

  // ---------------------------------------------------------------------
  // The page instance

  class ConfirmPresencePage {
    const geo: GeolocationHook
    const routeId: Option<string>
    var firstLoad: bool
    var id: Option<string>
    var uuid: Option<string>
    var chamada: Option<Chamada>
    var nome: string
    var ip: string
    var displayError: string
    var success: bool
    var customInputs: seq<CustomInput>
    var customInputValues: map<string, string>

    function Snapshot(): PageState
      reads this, geo
    {
      PageState(geo.loading, geo.coords, routeId, firstLoad, id, uuid, chamada,
                nome, ip, displayError, success, customInputs, customInputValues)
    }

    /** The page's initial state for a route carrying `routeId`. */
    constructor(routeId: Option<string>)
      ensures fresh(geo) && geo.State() == Initial
      ensures Snapshot() == PageState(false, Coords(None, None), routeId, true, routeId,
                                      None, None, "", "", "", false, [], map[])
    {
      geo := new GeolocationHook();
      this.routeId := routeId;
      firstLoad := true;
      id := routeId;
      uuid := None;
      chamada := None;
      nome := "";
      ip := "";
      displayError := "";
      success := false;
      customInputs := [];
      customInputValues := map[];
    }

    /** The mount effect: device id and "first" flag, then the location
        request. `generated` is what the uuid generator would return and
        `geoSupported` whether the browser has a positioning service. The IP
        lookup and the chamada fetch it starts answer later through
        `OnIpLookup` and `OnChamadaFetched`; `fetchId` is the id fetched, if any. */
    method Mount(storage: LocalStorage, generated: string, geoSupported: bool)
      returns (fetchId: Option<string>)
      modifies this, geo, storage
      ensures storage.items == MountedStorage(old(storage.items), generated)
      ensures uuid == MountedUuid(old(storage.items), generated)
      ensures firstLoad == (old(firstLoad) && !Stored(old(storage.items), "first"))
      ensures geo.State() == Step(old(geo.State()), Request(geoSupported))
      ensures fetchId == if Present(routeId) then routeId else None
      ensures id == old(id) && chamada == old(chamada) && nome == old(nome) && ip == old(ip)
      ensures displayError == old(displayError) && success == old(success)
      ensures customInputs == old(customInputs) && customInputValues == old(customInputValues)
    {
      var stored := storage.GetItem("uuid");
      if !Present(stored) {
        storage.SetItem("uuid", generated);
      }
      var first := storage.GetItem("first");
      if Present(first) {
        firstLoad := false;
        storage.SetItem("first", "true");
      }
      uuid := storage.GetItem("uuid");
      geo.RequestLocation(geoSupported);
      fetchId := if Present(routeId) then routeId else None;
    }

    /** The answer of the IP lookup: the address, or None when it failed. */
    method OnIpLookup(address: Option<string>)
      modifies this
      ensures address.Some? ==> ip == address.value && displayError == old(displayError)
      ensures address.None? ==> ip == old(ip) && displayError == IpLookupFailed
      ensures firstLoad == old(firstLoad) && id == old(id) && uuid == old(uuid)
      ensures chamada == old(chamada) && nome == old(nome) && success == old(success)
      ensures customInputs == old(customInputs) && customInputValues == old(customInputValues)
    {
      if address.Some? {
        ip := address.value;
      } else {
        displayError := IpLookupFailed;
      }
    }

    /** The answer of the chamada fetch. */
    method OnChamadaFetched(c: Chamada)
      modifies this`chamada, this`customInputs
      ensures chamada == Some(c) && customInputs == c.customInputs
    {
      chamada := Some(c);
      customInputs := c.customInputs;
    }

    /** The effect on the hook's error: a non-empty error is copied into the
        displayed one. */
    method SyncGeoError()
      modifies this`displayError
      ensures displayError ==
        if Present(geo.error) then geo.error.value else old(displayError)
    {
      if Present(geo.error) {
        displayError := geo.error.value;
      }
    }

    /** The effect on the coordinates: once both are truthy the permission
        prompt is dismissed and the displayed error cleared. */
    method SyncCoords()
      modifies this`firstLoad, this`displayError
      ensures CoordPresent(geo.coords.lat) && CoordPresent(geo.coords.long) ==>
        !firstLoad && displayError == ""
      ensures !(CoordPresent(geo.coords.lat) && CoordPresent(geo.coords.long)) ==>
        firstLoad == old(firstLoad) && displayError == old(displayError)
    {
      if CoordPresent(geo.coords.lat) && CoordPresent(geo.coords.long) {
        firstLoad := false;
        displayError := "";
      }
    }

    /** The permission prompt's button: request the location and leave the prompt. */
    method AllowLocation(geoSupported: bool)
      modifies this`firstLoad, geo
      ensures !firstLoad
      ensures geo.State() == Step(old(geo.State()), Request(geoSupported))
    {
      geo.RequestLocation(geoSupported);
      firstLoad := false;
    }

    /** The location-help screen's retry button: only a new location request. */
    method RetryLocation(geoSupported: bool)
      modifies geo
      ensures geo.State() == Step(old(geo.State()), Request(geoSupported))
    {
      geo.RequestLocation(geoSupported);
    }

    /** Typing a chamada id: the id is replaced and the details are always
        fetched again; the name and the custom values already entered are
        kept. `fetchArg` is the argument of that fetch: the typed id, or the
        route's id when the typed one is empty, and None when that is
        undefined too (the fetch is still made, with an undefined id). */
    method ChangeId(typed: string) returns (fetchArg: Option<string>)
      modifies this`id
      ensures id == Some(typed)
      ensures fetchArg == if typed != "" then Some(typed) else routeId
    {
      id := Some(typed);
      fetchArg := if typed != "" then Some(typed) else routeId;
    }

    method SetNome(value: string)
      modifies this`nome
      ensures nome == value
    {
      nome := value;
    }

    /** A custom input's change handler: writes one entry of the dictionary. */
    method SetCustomValue(inputId: string, value: string)
      modifies this`customInputValues
      ensures customInputValues == old(customInputValues)[inputId := value]
    {
      customInputValues := customInputValues[inputId := value];
    }

    /** "Confirmar Presença": either a message is shown and nothing is sent,
        or the presence post is issued (its answer arrives through
        `OnPresencePosted` or `OnPresenceRejected`). */
    method ConfirmPresence() returns (post: Option<PresenceRequest>)
      modifies this`displayError
      ensures Validate(old(Snapshot())).Refused? ==>
        post.None? && displayError == Validate(old(Snapshot())).message
      ensures Validate(old(Snapshot())).Post? ==>
        post == Some(Validate(old(Snapshot())).request) && displayError == old(displayError)
    {
      var outcome := Validate(Snapshot());
      match outcome
      case Refused(message) =>
        displayError := message;
        post := None;
      case Post(request) =>
        post := Some(request);
    }

    /** The post succeeded. */
    method OnPresencePosted()
      modifies this`displayError, this`success
      ensures displayError == "" && success
    {
      displayError := "";
      success := true;
    }

    /** The post failed with the server's message; `success` is left as it was. */
    method OnPresenceRejected(serverMessage: string)
      modifies this`displayError
      ensures displayError == serverMessage
    {
      displayError := serverMessage;
    }
  }

  /** A first visit: the spinner while the location is requested, the
      permission prompt once the request has failed, and the spinner again
      after the attendee allows access. */
  method FirstVisitScenario() returns (screens: seq<Screen>)
    ensures screens == [Spinner, PermissionPrompt, Spinner]
  {
    var storage := new LocalStorage(map[]);
    var page := new ConfirmPresencePage(Some("abc123"));
    var fetchId := page.Mount(storage, "8f1c2d3e-0000-4000-8000-000000000001", true);
    var mounted := ScreenOf(page.Snapshot());
    page.OnChamadaFetched(Chamada("abc123", "Aula", "", "", Number(0.0), Number(0.0),
                                  Number(500.0), true, []));
    page.geo.OnPositionError();
    page.SyncGeoError();
    var prompted := ScreenOf(page.Snapshot());
    page.AllowLocation(true);
    var allowed := ScreenOf(page.Snapshot());
    screens := [mounted, prompted, allowed];
  }

  /** A visit whose storage already holds "first": permission denied shows the
      location help, a retry shows the spinner, and the fix that follows
      shows the form, without reloading the page. */
  method DeniedThenRetryScenario() returns (screens: seq<Screen>)
    ensures screens == [LocationHelp, Spinner, Form]
  {
    assert Present(Some(FailureMessage));
    var storage := new LocalStorage(map["first" := "true"]);
    var page := new ConfirmPresencePage(Some("abc123"));
    var fetchId := page.Mount(storage, "8f1c2d3e-0000-4000-8000-000000000001", true);
    page.OnChamadaFetched(Chamada("abc123", "Aula", "", "", Number(0.0), Number(0.0),
                                  Number(500.0), true, []));
    page.geo.OnPositionError();
    page.SyncGeoError();
    var denied := ScreenOf(page.Snapshot());
    page.RetryLocation(true);
    var retried := ScreenOf(page.Snapshot());
    page.geo.OnPosition(-23.55, -46.63);
    page.SyncCoords();
    var located := ScreenOf(page.Snapshot());
    screens := [denied, retried, located];
  }

  const ExampleDevice := "8f1c2d3e-0000-4000-8000-000000000001"
  const ExampleChamada := Chamada("abc123", "Aula 1", "2024-03-01T10:00:00Z", "2024-03-01T12:00:00Z",
                                  Number(-23.55), Number(-46.63), Number(500.0), true, [])

  /** A returning visitor opens the link of chamada "abc123": the IP lookup,
      the chamada fetch and the position fix arrive, and a name is typed. */
  method OpenAndFill() returns (page: ConfirmPresencePage)
    ensures fresh(page) && fresh(page.geo)
    ensures page.Snapshot() == PageState(
      false, Coords(Some(-23.55), Some(-46.63)), Some("abc123"), false, Some("abc123"),
      Some(ExampleDevice), Some(ExampleChamada), "Maria", "203.0.113.7", "", false, [], map[])
  {
    var storage := new LocalStorage(map["uuid" := ExampleDevice]);
    page := new ConfirmPresencePage(Some("abc123"));
    var fetchId := page.Mount(storage, "0b7e5a11-0000-4000-8000-000000000002", true);
    page.OnIpLookup(Some("203.0.113.7"));
    page.OnChamadaFetched(ExampleChamada);
    page.geo.OnPosition(-23.55, -46.63);
    page.SyncCoords();
    page.SetNome("Maria");
  }

  /** The visitor submits from the form: the post goes to the chamada's path
      with the name, the resolved address and position and no custom values,
      and once it succeeds the success alert replaces the form. */
  method SubmitScenario() returns (formShown: bool, post: Option<PresenceRequest>, successShown: bool)
    ensures formShown
    ensures post.Some? && post.value.path == "/presence/" + "abc123"
    ensures post.value.nome == "Maria" && post.value.ip == "203.0.113.7"
    ensures post.value.uuid == Some(ExampleDevice)
    ensures post.value.lag == -23.55 && post.value.long == -46.63
    ensures post.value.customInputs == map[]
    ensures successShown
  {
    var page := OpenAndFill();
    formShown := FormShown(page.Snapshot());
    post := page.ConfirmPresence();
    page.OnPresencePosted();
    successShown := SuccessAlertShown(page.Snapshot());
  }
}
