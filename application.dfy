/**
 * The application page: a permission prompt, then a loading screen while the
 * location is read and saved, then the dashboard, or an error screen that
 * offers to try again. The two awaited calls (the browser's geolocation and
 * the POST to the server) are one `RequestOutcome` parameter.
 */
module Application {
  import opened Wrappers
  import Network
  import Schema

  /** `ApplicationState`. */
  datatype AppState = Permission | Loading | Dashboard | Error

  /** The user's position as the browser reports it. */
  datatype Position = Position(latitude: real, longitude: real, accuracy: real)

  /** How the awaited calls of a location request end. */
  datatype RequestOutcome =
    | LocationFailed                       // the geolocation call throws (denied, timeout, unavailable)
    | PostFailed(position: Position)       // the position arrives, then the POST throws (network error)
    | Posted(position: Position, status: int)  // the POST answers, with any HTTP status

  /** What `renderContent` shows. */
  datatype Screen = PermissionPrompt | LoadingScreen | DashboardView(position: Position) | Nothing | RetryPrompt

  /** The screens with a button that runs the location request. */
  predicate OffersRequest(s: Screen) {
    s.PermissionPrompt? || s.RetryPrompt?
  }

  /** `renderContent`: the dashboard is shown only when a position is known. */
  function RenderContent(state: AppState, userLocation: Option<Position>): (s: Screen)
    ensures s.DashboardView? <==> state == Dashboard && userLocation.Some?
    ensures s.DashboardView? ==> s.position == userLocation.value
    ensures s == Nothing <==> state == Dashboard && userLocation.None?
    ensures OffersRequest(s) <==> state == Permission || state == Error
  {
    match state
    case Permission => PermissionPrompt
    case Loading => LoadingScreen
    case Dashboard => if userLocation.Some? then DashboardView(userLocation.value) else Nothing
    case Error => RetryPrompt
  }

  /**
   * The body of the POST: the network fields fall back to "unknown" and 0 when
   * no reading is known (`networkInfo?.effectiveType || 'unknown'`).
   */
  function LocationPayload(sessionId: string, p: Position, networkInfo: Option<Network.NetworkInformation>)
    : (r: Schema.NewUserLocation)
    ensures r.sessionId == sessionId && r.latitude == p.latitude && r.longitude == p.longitude
    ensures r.networkType.Some? && r.networkSpeed.Some?
    ensures networkInfo.None? ==> r.networkType == Some("unknown") && r.networkSpeed == Some(0.0)
  {
    var networkType := if networkInfo.Some? && networkInfo.value.effectiveType != "" then networkInfo.value.effectiveType else "unknown";
    var networkSpeed := if networkInfo.Some? && networkInfo.value.downlink != 0.0 then networkInfo.value.downlink else 0.0;
    Schema.NewUserLocation(sessionId, p.latitude, p.longitude, Some(networkType), Some(networkSpeed))
  }

  /** With the reading taken at start-up, the payload carries that reading's type and speed. */
  lemma PayloadCarriesReading(sessionId: string, p: Position, connection: Option<Network.Connection>)
    ensures var info := Network.GetNetworkInfo(connection);
            var r := LocationPayload(sessionId, p, Some(info));
            r.networkType == Some(info.effectiveType) && r.networkSpeed == Some(info.downlink)
  {
  }

  class App {
    var state: AppState
    var userLocation: Option<Position>
    var networkInfo: Option<Network.NetworkInformation>
    /** Every state the page has been set to, oldest first. */
    ghost var history: seq<AppState>

    /** The dashboard state is only ever entered with a known position. */
    ghost predicate Valid()
      reads this
    {
      && history != []
      && history[|history| - 1] == state
      && (state == Dashboard ==> userLocation.Some?)
    }

    /** The first render: the permission prompt, with the network read once. */
    constructor (connection: Option<Network.Connection>)
      ensures Valid()
      ensures state == Permission && userLocation == None && history == [Permission]
      ensures networkInfo == Some(Network.GetNetworkInfo(connection))
    {
      state := Permission;
      userLocation := None;
      networkInfo := Some(Network.GetNetworkInfo(connection));
      history := [Permission];
    }

    /**
     * `handleRequestLocation`: loading first, then the dashboard if both calls
     * complete, else the error screen. The position is stored as soon as it
     * arrives, before the POST, so a failed POST keeps it.
     */
    method HandleRequestLocation(outcome: RequestOutcome)
      requires Valid()
      modifies this
      ensures Valid()
      ensures history == old(history) + [Loading, state]
      ensures state == (if outcome.Posted? then Dashboard else Error)
      ensures userLocation == (if outcome.LocationFailed? then old(userLocation) else Some(outcome.position))
      ensures networkInfo == old(networkInfo)
    {
      state := Loading;
      history := history + [Loading];
      match outcome {
        case LocationFailed =>
          state := Error;
        case PostFailed(p) =>
          userLocation := Some(p);
          state := Error;
        case Posted(p, _) =>
          userLocation := Some(p);
          state := Dashboard;
      }
      history := history + [state];
    }

    /** The screen for the current state. */
    function CurrentScreen(): (s: Screen)
      reads this
      requires Valid()
      ensures s != Nothing
      ensures s.DashboardView? ==> state == Dashboard && s.position == userLocation.value
    {
      RenderContent(state, userLocation)
    }
  }

  /** The error screen's retry runs the same request again, from loading. */
  method Retry(app: App, outcome: RequestOutcome)
    requires app.Valid() && app.state == Error
    modifies app
    ensures app.Valid()
    ensures OffersRequest(RenderContent(old(app.state), old(app.userLocation)))
    ensures app.history == old(app.history) + [Loading, app.state]
    ensures outcome.Posted? ==> app.CurrentScreen() == DashboardView(outcome.position)
  {
    app.HandleRequestLocation(outcome);
  }
}
