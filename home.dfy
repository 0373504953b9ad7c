/**
 * The home screen's controller (`HomeComponent`): its component state, the
 * connectivity gate, the location pipeline, the notification timer and the
 * choice of what to render. Each asynchronous resolution (connectivity probe
 * answered, permission decided, position fix delivered, timer fired) is a
 * method of its own; every outbound call is appended to `log`.
 */
module Home {
  import opened Optional
  import opened Effects
  import Permission
  import Notification

  /** An entry of the `data` prop (the city list). */
  datatype City = City(id: string, name: string, description: string, temp: string, icon: string)

  /** What `render` shows below the header. */
  datatype Screen = CityList(items: seq<City>) | Blank | NoInternet

  /**
   * The render branch: without internet the no-connection view with its
   * retry button; with internet the list when the `data` prop is present
   * (an empty array is present), and nothing when it is absent.
   */
  function Branch(isInternet: bool, data: Option<seq<City>>): (v: Screen)
    ensures v == NoInternet <==> !isInternet
    ensures v.CityList? <==> isInternet && data.Some?
    ensures v.CityList? ==> v.items == data.value
    ensures v == Blank <==> isInternet && data.None?
  {
    if !isInternet then NoInternet
    else if data.Some? then CityList(data.value)
    else Blank
  }

  /** What `Geolocation.getCurrentPosition` delivers: a fix to the success callback, or an error. */
  datatype FixOutcome = Fixed(position: Position) | FixFailed(code: int)

  class HomeComponent {
    // component state
    var dataSource: Option<seq<City>>
    var isInternet: bool
    var loading: Option<bool>
    var location: Option<Position>
    // read when the fix is requested, never written
    var highAccuracy: Option<bool>
    var forceLocation: Option<bool>
    var showLocationDialog: Option<bool>

    // every outbound call, in issue order
    var log: seq<Effect>
    // calls issued and not yet answered
    var probes: nat
    var permissionChecks: nat
    var grants: nat            // granted decisions whose fix request is not issued yet
    var fixRequests: nat
    var timers: nat
    // how many calls of each kind `log` holds
    ghost var tally: Tally

    /**
     * The ordering guarantees of the log: a location pipeline starts only
     * for a probe that answered, each start comes with exactly one list
     * refresh, each pipeline requests at most one fix, each fix yields at
     * most one current-weather call, each timer schedules at most once,
     * cancels, channels and schedules come in equal numbers, and at most one
     * notification is ever pending.
     */
    ghost predicate Valid()
      reads this
    {
      tally == TallyOf(log) &&
      var t := tally;
      t.begins + probes <= t.fetches &&
      t.cityLists == t.begins &&
      t.positions + grants + permissionChecks <= t.begins &&
      t.currentWeathers + fixRequests <= t.positions &&
      t.schedules + timers <= t.timers &&
      t.cancels == t.channels == t.schedules &&
      |Pending(log)| <= 1
    }

    /** Initial state, then the connectivity probe is issued straight away. */
    constructor ()
      ensures Valid()
      ensures dataSource == None && isInternet
      ensures loading == None && location == None
      ensures highAccuracy == None && forceLocation == None && showLocationDialog == None
      ensures log == [FetchConnectivity] && probes == 1
      ensures permissionChecks == 0 && grants == 0 && fixRequests == 0 && timers == 0
    {
      dataSource := None;
      isInternet := true;
      loading := None;
      location := None;
      highAccuracy := None;
      forceLocation := None;
      showLocationDialog := None;
      log := [];
      tally := NoCalls;
      probes := 0;
      permissionChecks := 0;
      grants := 0;
      fixRequests := 0;
      timers := 0;
      new;
      CheckInternetLoadInitial();
    }

    /** Appends one effect: it is counted once more and applied to the pending notifications. */
    method Emit(e: Effect)
      requires tally == TallyOf(log)
      modifies this`log, this`tally
      ensures log == old(log) + [e]
      ensures tally == Bump(old(tally), e) == TallyOf(log)
      ensures Pending(log) == Apply(Pending(old(log)), e)
    {
      ghost var before := log;
      log := log + [e];
      tally := Bump(tally, e);
      TallySnoc(before, e);
      assert log[..|log| - 1] == before;
    }

    /** Appends the permission queries a decision issued: only the query count moves. */
    method EmitQueries(qs: seq<Permission.Query>)
      requires tally == TallyOf(log)
      modifies this`log, this`tally
      ensures log == old(log) + QueryEffects(qs)
      ensures tally == old(tally).(queries := old(tally).queries + |qs|) == TallyOf(log)
      ensures Pending(log) == Pending(old(log))
    {
      ghost var before := log;
      var es := QueryEffects(qs);
      log := log + es;
      tally := tally.(queries := tally.queries + |qs|);
      TallyQueries(before, qs);
      PendingQuiet(before, es);
    }

    /** Issues the connectivity probe; its answer arrives through ProbeResolved. */
    method CheckInternetLoadInitial()
      requires Valid()
      modifies this`log, this`tally, this`probes
      ensures Valid()
      ensures log == old(log) + [FetchConnectivity]
      ensures probes == old(probes) + 1
    {
      Emit(FetchConnectivity);
      probes := probes + 1;
    }

    /**
     * The probe's answer. Connected: the location pipeline starts, the city
     * list is refreshed once and `isInternet` becomes true. Disconnected:
     * only `isInternet` becomes false.
     */
    method ProbeResolved(connected: bool)
      requires Valid() && probes > 0
      modifies this`log, this`tally, this`probes, this`isInternet, this`permissionChecks
      ensures Valid()
      ensures probes == old(probes) - 1
      ensures isInternet == connected
      ensures connected ==> log == old(log) + [BeginLocation, RefreshCityList]
      ensures connected ==> permissionChecks == old(permissionChecks) + 1
      ensures !connected ==> log == old(log) && permissionChecks == old(permissionChecks)
    {
      probes := probes - 1;
      if connected {
        Emit(BeginLocation);
        Emit(RefreshCityList);
        permissionChecks := permissionChecks + 1;
        isInternet := true;
      } else {
        isInternet := false;
      }
    }

    /**
     * The permission decision for a started pipeline. Refused: nothing but
     * the queries is recorded. Granted: `loading` becomes true and exactly
     * one position request is issued with the fixed options.
     */
    method PermissionResolved(p: Permission.Platform, a: Permission.Answers)
      requires Valid() && permissionChecks > 0
      modifies this`log, this`tally, this`permissionChecks, this`grants, this`loading, this`fixRequests
      ensures Valid()
      ensures permissionChecks == old(permissionChecks) - 1
      ensures grants == old(grants)
      ensures Permission.Decide(p, a).granted ==>
        loading == Some(true) && fixRequests == old(fixRequests) + 1 &&
        log == old(log) + QueryEffects(Permission.Decide(p, a).queries)
                        + [RequestPosition(FixOptions(highAccuracy, forceLocation, showLocationDialog))]
      ensures !Permission.Decide(p, a).granted ==>
        loading == old(loading) && fixRequests == old(fixRequests) &&
        log == old(log) + QueryEffects(Permission.Decide(p, a).queries)
    {
      permissionChecks := permissionChecks - 1;
      var d := Permission.Decide(p, a);
      EmitQueries(d.queries);
      if d.granted {
        grants := grants + 1;
        RequestFix();
      }
    }

    /**
     * For a granted decision only: sets `loading` and, once that state is
     * applied, issues the single position request.
     */
    method RequestFix()
      requires Valid()
      requires grants > 0
      modifies this`log, this`tally, this`grants, this`loading, this`fixRequests
      ensures Valid()
      ensures loading == Some(true)
      ensures fixRequests == old(fixRequests) + 1
      ensures grants == old(grants) - 1
      ensures log == old(log) + [RequestPosition(FixOptions(highAccuracy, forceLocation, showLocationDialog))]
    {
      loading := Some(true);
      Emit(RequestPosition(FixOptions(highAccuracy, forceLocation, showLocationDialog)));
      fixRequests := fixRequests + 1;
      grants := grants - 1;
    }

    /**
     * The position request's answer. A fix is stored, `loading` cleared and
     * the current-location weather requested once with the fix's own
     * coordinates; an error only clears `loading`.
     */
    method FixResolved(outcome: FixOutcome)
      requires Valid() && fixRequests > 0
      modifies this`log, this`tally, this`fixRequests, this`loading, this`location
      ensures Valid()
      ensures fixRequests == old(fixRequests) - 1
      ensures loading == Some(false)
      ensures outcome.Fixed? ==> location == Some(outcome.position)
      ensures outcome.Fixed? ==>
        log == old(log) + [RefreshCurrentWeather(outcome.position.latitude, outcome.position.longitude)]
      ensures outcome.FixFailed? ==> location == old(location) && log == old(log)
    {
      fixRequests := fixRequests - 1;
      match outcome
      case Fixed(position) =>
        location := Some(position);
        loading := Some(false);
        Emit(RefreshCurrentWeather(position.latitude, position.longitude));
      case FixFailed(_) =>
        loading := Some(false);
    }

    /** Arms the five-second notification timer. */
    method ComponentDidMount()
      requires Valid()
      modifies this`log, this`tally, this`timers
      ensures Valid()
      ensures log == old(log) + [ArmTimer(Notification.TimerDelayMs)]
      ensures timers == old(timers) + 1
    {
      Emit(ArmTimer(Notification.TimerDelayMs));
      timers := timers + 1;
    }

    /**
     * The timer fires at time `now`. With no current weather nothing
     * happens; otherwise cancel-all, the channel and one notification built
     * from entry 0, in that order, which then is the only one pending.
     */
    method TimerFired(currentWeatherData: seq<Notification.WeatherEntry>, now: int)
      requires Valid() && timers > 0
      modifies this`log, this`tally, this`timers
      ensures Valid()
      ensures timers == old(timers) - 1
      ensures |currentWeatherData| == 0 ==> log == old(log)
      ensures |currentWeatherData| != 0 ==>
        log == old(log) + [CancelAllNotifications,
                           CreateChannel(Notification.ChannelId, Notification.ChannelName),
                           ScheduleNotification(Notification.Payload(currentWeatherData[0], now))]
      ensures |currentWeatherData| != 0 ==>
        Pending(log) == [Notification.Payload(currentWeatherData[0], now)]
    {
      timers := timers - 1;
      if |currentWeatherData| != 0 {
        var n := Notification.Payload(currentWeatherData[0], now);
        Emit(CancelAllNotifications);
        Emit(CreateChannel(Notification.ChannelId, Notification.ChannelName));
        Emit(ScheduleNotification(n));
      }
    }

    /** The retry button of the no-connection view re-runs the connectivity probe. */
    method RetryPressed()
      requires Valid() && !isInternet
      modifies this`log, this`tally, this`probes
      ensures Valid()
      ensures log == old(log) + [FetchConnectivity]
      ensures probes == old(probes) + 1
    {
      CheckInternetLoadInitial();
    }
  }

  /**
   * Connected, permission already granted on a current Android device, and
   * the fix resolves to (lat, lon): the current-location weather is requested
   * exactly once, with exactly those coordinates, after the list refresh.
   */
  method GrantedFixScenario(lat: real, lon: real, t: int) returns (log: seq<Effect>)
    ensures log == [FetchConnectivity, BeginLocation, RefreshCityList,
                    PermissionQuery(Permission.CheckFineLocation),
                    RequestPosition(FixOptions(None, None, None)),
                    RefreshCurrentWeather(lat, lon)]
  {
    var home := new HomeComponent();
    home.ProbeResolved(true);
    home.PermissionResolved(Permission.Platform(Permission.Android, 30),
                            Permission.Answers(false, true, Permission.Denied));
    home.FixResolved(Fixed(Position(lat, lon, t)));
    log := home.log;
  }

  /**
   * Connected, current Android device, no prior grant, and the request
   * answered "denied": the check and the request are logged, and no position
   * request is issued, so no fix can ever be delivered for this pipeline.
   */
  method RefusedPermissionScenario() returns (log: seq<Effect>, loading: Option<bool>, pendingFixes: nat, pendingGrants: nat)
    ensures log == [FetchConnectivity, BeginLocation, RefreshCityList,
                    PermissionQuery(Permission.CheckFineLocation),
                    PermissionQuery(Permission.RequestFineLocation)]
    ensures loading == None
    ensures pendingFixes == 0 && pendingGrants == 0
  {
    var home := new HomeComponent();
    home.ProbeResolved(true);
    home.PermissionResolved(Permission.Platform(Permission.Android, 30),
                            Permission.Answers(false, false, Permission.Denied));
    log, loading, pendingFixes, pendingGrants := home.log, home.loading, home.fixRequests, home.grants;
  }

  /**
   * Disconnected: the no-connection view is shown, nothing but the probe was
   * issued, and tapping retry issues the probe again.
   */
  method DisconnectedRetryScenario(data: Option<seq<City>>) returns (shown: Screen, log: seq<Effect>)
    ensures shown == NoInternet
    ensures log == [FetchConnectivity, FetchConnectivity]
  {
    var home := new HomeComponent();
    home.ProbeResolved(false);
    shown := Branch(home.isInternet, data);
    home.RetryPressed();
    log := home.log;
  }
}
