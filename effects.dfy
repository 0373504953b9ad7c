/**
 * The home screen's outbound calls, recorded as an append-only effect log,
 * and two readings of a log: how many calls of each kind it holds, and which
 * local notifications are still pending once it has been replayed.
 */
module Effects {
  import opened Optional
  import Permission
  import Notification

  /** A position fix as `Geolocation.getCurrentPosition` reports it. */
  datatype Position = Position(latitude: real, longitude: real, timestamp: int)

  /** The configuration object handed to `Geolocation.getCurrentPosition`. */
  datatype LocationOptions = LocationOptions(
    androidAccuracy: string,
    iosAccuracy: string,
    enableHighAccuracy: Option<bool>,
    timeoutMs: int,
    maximumAgeMs: int,
    distanceFilter: int,
    forceRequestLocation: Option<bool>,
    showLocationDialog: Option<bool>)

  const FixTimeoutMs: int := 15000
  const FixMaximumAgeMs: int := 10000
  const FixDistanceFilter: int := 0

  /**
   * The fix request's options: precision first on both platforms, a 15 s
   * timeout, cached fixes up to 10 s old, no distance filter, and the three
   * flags passed through unchanged from component state at call time.
   */
  function FixOptions(highAccuracy: Option<bool>, forceLocation: Option<bool>, showDialog: Option<bool>): (o: LocationOptions)
    ensures o.androidAccuracy == "high" && o.iosAccuracy == "best"
    ensures o.timeoutMs == 15000 && o.maximumAgeMs == 10000 && o.distanceFilter == 0
    ensures o.enableHighAccuracy == highAccuracy
    ensures o.forceRequestLocation == forceLocation && o.showLocationDialog == showDialog
  {
    LocationOptions("high", "best", highAccuracy, FixTimeoutMs, FixMaximumAgeMs, FixDistanceFilter, forceLocation, showDialog)
  }

  datatype Effect =
    | FetchConnectivity                                   // NetInfo.fetch()
    | BeginLocation                                       // this.getLocation() starts
    | RefreshCityList                                     // props.callWeatherDataService()
    | PermissionQuery(query: Permission.Query)            // iOS query, Android check or request
    | RequestPosition(options: LocationOptions)           // Geolocation.getCurrentPosition(...)
    | RefreshCurrentWeather(latitude: real, longitude: real) // props.callCurrentWeatherDataService(lat, lon)
    | ArmTimer(delayMs: int)                              // setTimeout(..., delayMs)
    | CancelAllNotifications                              // PushNotification.cancelAllLocalNotifications()
    | CreateChannel(channelId: string, channelName: string)  // PushNotification.createChannel(...)
    | ScheduleNotification(request: Notification.Request) // PushNotification.localNotificationSchedule(...)

  /** How many calls of each kind a log holds. */
  datatype Tally = Tally(
    fetches: nat, begins: nat, cityLists: nat, queries: nat, positions: nat,
    currentWeathers: nat, timers: nat, cancels: nat, channels: nat, schedules: nat)

  const NoCalls: Tally := Tally(0, 0, 0, 0, 0, 0, 0, 0, 0, 0)

  /** The tally with `e` counted once more. */
  function Bump(t: Tally, e: Effect): Tally {
    match e
    case FetchConnectivity => t.(fetches := t.fetches + 1)
    case BeginLocation => t.(begins := t.begins + 1)
    case RefreshCityList => t.(cityLists := t.cityLists + 1)
    case PermissionQuery(_) => t.(queries := t.queries + 1)
    case RequestPosition(_) => t.(positions := t.positions + 1)
    case RefreshCurrentWeather(_, _) => t.(currentWeathers := t.currentWeathers + 1)
    case ArmTimer(_) => t.(timers := t.timers + 1)
    case CancelAllNotifications => t.(cancels := t.cancels + 1)
    case CreateChannel(_, _) => t.(channels := t.channels + 1)
    case ScheduleNotification(_) => t.(schedules := t.schedules + 1)
  }

  /** The tally of a log, read from the newest end, as the log grows there. */
  function TallyOf(log: seq<Effect>): Tally {
    if log == [] then NoCalls else Bump(TallyOf(log[..|log| - 1]), log[|log| - 1])
  }

  /** Appending one effect counts it once more and touches no other count. */
  lemma TallySnoc(log: seq<Effect>, e: Effect)
    ensures TallyOf(log + [e]) == Bump(TallyOf(log), e)
  {
  }

  /** The log entries for the permission queries a decision issued. */
  function QueryEffects(qs: seq<Permission.Query>): (es: seq<Effect>)
    ensures |es| == |qs|
    ensures forall i :: 0 <= i < |es| ==> es[i] == PermissionQuery(qs[i])
  {
    if qs == [] then [] else [PermissionQuery(qs[0])] + QueryEffects(qs[1..])
  }

  /** Appending the queries of a decision moves the query count alone, by their number. */
  lemma {:induction false} TallyQueries(log: seq<Effect>, qs: seq<Permission.Query>)
    ensures TallyOf(log + QueryEffects(qs)) == TallyOf(log).(queries := TallyOf(log).queries + |qs|)
    decreases |qs|
  {
    if qs == [] {
      assert log + QueryEffects(qs) == log;
    } else {
      var init, last := qs[..|qs| - 1], PermissionQuery(qs[|qs| - 1]);
      assert QueryEffects(qs) == QueryEffects(init) + [last];
      assert log + QueryEffects(qs) == (log + QueryEffects(init)) + [last];
      TallyQueries(log, init);
      TallySnoc(log + QueryEffects(init), last);
    }
  }

  /** An effect that leaves the set of pending notifications alone. */
  predicate Quiet(e: Effect) {
    !e.CancelAllNotifications? && !e.ScheduleNotification?
  }

  /** What one effect does to the pending notifications. */
  function Apply(pending: seq<Notification.Request>, e: Effect): seq<Notification.Request> {
    match e
    case CancelAllNotifications => []
    case ScheduleNotification(n) => pending + [n]
    case _ => pending
  }

  /** Replays `log` from left to right, starting from `pending`. */
  function Replay(pending: seq<Notification.Request>, log: seq<Effect>): seq<Notification.Request> {
    if log == [] then pending else Apply(Replay(pending, log[..|log| - 1]), log[|log| - 1])
  }

  /** The notifications pending after the whole log, starting from none. */
  function Pending(log: seq<Effect>): seq<Notification.Request> {
    Replay([], log)
  }

  /** Replaying a concatenation is replaying its parts one after the other. */
  lemma {:induction false} ReplayAppend(pending: seq<Notification.Request>, a: seq<Effect>, b: seq<Effect>)
    ensures Replay(pending, a + b) == Replay(Replay(pending, a), b)
  {
    if b == [] {
      assert a + b == a;
    } else {
      assert (a + b)[..|a + b| - 1] == a + b[..|b| - 1];
      ReplayAppend(pending, a, b[..|b| - 1]);
    }
  }

  lemma {:induction false} ReplayQuiet(pending: seq<Notification.Request>, es: seq<Effect>)
    requires forall i :: 0 <= i < |es| ==> Quiet(es[i])
    ensures Replay(pending, es) == pending
  {
    if es != [] {
      ReplayQuiet(pending, es[..|es| - 1]);
    }
  }

  /** Effects that neither cancel nor schedule leave the pending notifications as they were. */
  lemma PendingQuiet(log: seq<Effect>, es: seq<Effect>)
    requires forall i :: 0 <= i < |es| ==> Quiet(es[i])
    ensures Pending(log + es) == Pending(log)
  {
    ReplayAppend([], log, es);
    ReplayQuiet(Pending(log), es);
  }

  /**
   * Cancel-all, then a channel, then one schedule: whatever was pending
   * before, exactly the new notification is pending afterwards.
   */
  lemma CancelThenSchedule(log: seq<Effect>, id: string, name: string, n: Notification.Request)
    ensures Pending(log + [CancelAllNotifications, CreateChannel(id, name), ScheduleNotification(n)]) == [n]
  {
    var tail := [CancelAllNotifications, CreateChannel(id, name), ScheduleNotification(n)];
    ReplayAppend([], log, tail);
    var p := Pending(log);
    assert tail[..1][..0] == [];
    assert Replay(p, tail[..1]) == [];
    assert tail[..2][..1] == tail[..1];
    assert Replay(p, tail[..2]) == [];
  }
}
