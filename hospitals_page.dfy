/**
 * The hospital-finder page: a status machine driven by the browser's geolocation
 * callbacks and by one request to the hospitals endpoint. The geolocation request
 * and the fetch are each split into the call and the callback that answers it.
 */
module HospitalsPage {
  import opened Common

  datatype Status = Idle | Loading | Success | Error | PermissionDenied

  const NoGeolocation := "Geolocation is not supported by your browser."
  const LocationDenied := "Location permission denied. Please enter your address manually."
  const FetchFailed := "Failed to fetch hospitals."

  /** A coordinates request sent to the hospitals endpoint. */
  datatype Query = Query(latitude: real, longitude: real)

  /**
   * How the request ends: an ok response whose body parsed to `data`, a non-ok
   * response, or an exception (network failure, unparsable body) with its message.
   */
  datatype FetchOutcome = Ok(data: seq<NearbyHospital>) | NotOk | Threw(message: string)

  /** What `renderContent` shows. */
  datatype View =
    | Nothing
    | Spinner
    | HospitalCards(cards: seq<NearbyHospital>)
    | ErrorAlert(text: Option<string>)
    | WarningAlert(text: Option<string>)

  datatype Snapshot = Snapshot(
    status: Status, hospitals: seq<NearbyHospital>, error: Option<string>,
    queries: seq<Query>, locating: bool, fetching: bool)

  class Page {
    var status: Status
    var hospitals: seq<NearbyHospital>
    var error: Option<string>
    /** Every request sent to the hospitals endpoint, oldest first. */
    var queries: seq<Query>
    /** The geolocation request awaits its callback. */
    var locating: bool
    /** The hospitals request awaits its response. */
    var fetching: bool

    ghost function State(): Snapshot
      reads this
    {
      Snapshot(status, hospitals, error, queries, locating, fetching)
    }

    /**
     * The error message is set exactly in the two failure states; an outstanding
     * geolocation request or fetch means the page is loading, and at most one of
     * them is outstanding.
     */
    ghost predicate Valid()
      reads this
    {
      && (error.Some? <==> status == Error || status == PermissionDenied)
      && (locating || fetching ==> status == Loading)
      && !(locating && fetching)
      && (fetching ==> queries != [])
    }

    constructor ()
      ensures Valid() && State() == Snapshot(Idle, [], None, [], false, false)
    {
      status, hospitals, error := Idle, [], None;
      queries, locating, fetching := [], false, false;
    }

    /** The mount effect, which runs once on page load. */
    method Mount(geolocationSupported: bool)
      requires Valid() && status == Idle
      modifies this
      ensures Valid()
      ensures !geolocationSupported ==>
        State() == old(State()).(status := PermissionDenied, error := Some(NoGeolocation))
      ensures geolocationSupported ==> State() == old(State()).(status := Loading, locating := true)
    {
      if !geolocationSupported {
        status := PermissionDenied;
        error := Some(NoGeolocation);
        return;
      }
      status := Loading;
      locating := true;
    }

    /** The geolocation success callback, which runs `findHospitals` up to its `await`. */
    method PositionFound(latitude: real, longitude: real)
      requires Valid() && locating
      modifies this
      ensures Valid()
      ensures State() == old(State()).(locating := false, status := Loading, error := None,
                                       queries := old(queries) + [Query(latitude, longitude)], fetching := true)
    {
      locating := false;
      status := Loading;
      error := None;
      queries := queries + [Query(latitude, longitude)];
      fetching := true;
    }

    /** The geolocation error callback (permission denied, position unavailable, timeout). */
    method PositionFailed()
      requires Valid() && locating
      modifies this
      ensures Valid()
      ensures State() == old(State()).(locating := false, status := PermissionDenied, error := Some(LocationDenied))
    {
      locating := false;
      status := PermissionDenied;
      error := Some(LocationDenied);
    }

    /**
     * `findHospitals` after its `await`: an ok response replaces the list and
     * succeeds; otherwise the list stays as it was and the page shows the error.
     */
    method FetchSettled(outcome: FetchOutcome)
      requires Valid() && fetching
      modifies this
      ensures Valid()
      ensures outcome.Ok? ==> State() == old(State()).(hospitals := outcome.data, status := Success, fetching := false)
      ensures outcome.NotOk? ==> State() == old(State()).(error := Some(FetchFailed), status := Error, fetching := false)
      ensures outcome.Threw? ==> State() == old(State()).(error := Some(outcome.message), status := Error, fetching := false)
    {
      fetching := false;
      match outcome
      case Ok(data) =>
        hospitals := data;
        status := Success;
      case NotOk =>
        error := Some(FetchFailed);
        status := Error;
      case Threw(message) =>
        error := Some(message);
        status := Error;
    }

    /** `renderContent`: cards only on success, nothing while idle, and an alert with a message in the failure states. */
    function RenderContent(): (v: View)
      reads this
      ensures v == Nothing <==> status == Idle
      ensures v == Spinner <==> status == Loading
      ensures v.HospitalCards? <==> status == Success
      ensures v.HospitalCards? ==> v.cards == hospitals
      ensures v.ErrorAlert? <==> status == Error
      ensures v.WarningAlert? <==> status == PermissionDenied
      ensures Valid() && (v.ErrorAlert? || v.WarningAlert?) ==> v.text == error && error.Some?
    {
      match status
      case Loading => Spinner
      case Success => HospitalCards(hospitals)
      case Error => ErrorAlert(error)
      case PermissionDenied => WarningAlert(error)
      case Idle => Nothing
    }
  }

  /** Page load with location granted and an ok response: the returned hospitals are shown as cards. */
  method FindNearby(latitude: real, longitude: real, data: seq<NearbyHospital>) returns (view: View, queries: seq<Query>)
    ensures view == HospitalCards(data) && queries == [Query(latitude, longitude)]
  {
    var page := new Page();
    page.Mount(true);
    page.PositionFound(latitude, longitude);
    page.FetchSettled(Ok(data));
    view, queries := page.RenderContent(), page.queries;
  }

  /** Page load in a browser without geolocation: a warning, and no request at all. */
  method NoGeolocationSupport() returns (view: View, queries: seq<Query>)
    ensures view == WarningAlert(Some(NoGeolocation)) && queries == []
  {
    var page := new Page();
    page.Mount(false);
    view, queries := page.RenderContent(), page.queries;
  }
}
