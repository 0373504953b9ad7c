# Weather App home screen: orchestration model

A Dafny model of the control flow of the home screen of a React Native weather
app (`HomeComponent`). Under the UI, the screen runs a small state machine:

- a connectivity probe gates everything else;
- when connected, it starts a location pipeline and refreshes the city list once;
- the location pipeline asks a platform-dependent permission question, then requests one position fix;
- a fix is handed to the current-location weather service with its raw coordinates;
- five seconds after mounting, a timer cancels every local notification, creates the channel and schedules one repeating notification from the first current-weather entry;
- the render step shows the city list, nothing, or a no-connection view whose retry button re-runs the probe.

Every platform answer is an input: the probe's connectivity, the permission
answers, the position fix or its error, the current-weather data and the clock
when the timer fires. Every outbound call is an entry appended to an effect log
(`Effects.Effect`). Each asynchronous resolution is a method of its own on the
class `Home.HomeComponent`. The class counts issued calls that are still
unanswered, and granted permission decisions whose fix request is not issued
yet. A resolution can only arrive for a call that was made, and a position
request can only follow a granted decision.

Files:

- `optional.dfy`: the `Option` type used for JavaScript's `undefined`/`null`.
- `permission.dfy`: `hasLocationPermission` as a pure decision, with the queries it issues.
- `notification.dfy`: the notification constants, the payload templating, and the inverse readings of its strings.
- `effects.dfy`: the effect log, its per-kind tally, and the replay that gives the pending notifications.
- `home.dfy`: the component class, the render branch, and two end-to-end client scenarios.

The class invariant `HomeComponent.Valid()` says:

- location pipelines start only for answered probes;
- every pipeline start comes with exactly one city-list refresh;
- each pipeline requests at most one fix, only after a granted decision, and each fix yields at most one current-weather call;
- each timer schedules at most once, and cancel, channel and schedule calls come in equal numbers;
- at most one notification is ever pending.

## Model

| member | source | states |
|---|---|---|
| `Permission.Decide` | Source/App/Components/HomeComponent/index.js:60-92 | The request dialog is shown iff the device is neither iOS nor legacy Android and the grant check was negative. It is shown at most once, and only right after the check. The iOS query is issued iff the platform is iOS. |
| `Permission.DecideMatchesGrantedBy` | Source/App/Components/HomeComponent/index.js:60-92 | The verdict equals an independent rule. On iOS, the iOS answer decides. Elsewhere, a legacy Android device, a prior grant or a GRANTED request status each suffices. |
| `Permission.IOSReturnsQueryAnswer` | Source/App/Components/HomeComponent/index.js:62-65 | On iOS the verdict is the iOS query's answer, and that query is the only one issued. |
| `Permission.LegacyAndroidAsksNothing` | Source/App/Components/HomeComponent/index.js:67-69 | Android below API level 23 is granted with no check and no request. |
| `Permission.PriorGrantSkipsRequest` | Source/App/Components/HomeComponent/index.js:71-77 | A positive grant check grants access with no request. |
| `Permission.RequestDecides` | Source/App/Components/HomeComponent/index.js:79-91 | After a negative check, the verdict is true iff the request status string equals GRANTED ("granted"). DENIED ("denied"), NEVER_ASK_AGAIN ("never_ask_again") and every other string give false. |
| `Notification.Payload` | Source/App/Components/HomeComponent/index.js:145-167 | The schedule payload uses channel `weqs-123-wede` and entry 0's name as title. The entry's temperature can be read back from the message between "Current temperature is " and "°C". The icon code can be read back from the large-icon URL between the OpenWeatherMap base and "@2x.png", and the big-large-icon URL is the same URL. The fire date is now + 3000 ms, the launcher and small icons are fixed, and the repeat type is 'minute'. |
| `Effects.FixOptions` | Source/App/Components/HomeComponent/index.js:115-126 | The position options ask for accuracy 'high' on Android and 'best' on iOS, a 15000 ms timeout, a maximum age of 10000 ms and distance filter 0. The `enableHighAccuracy`, `forceRequestLocation` and `showLocationDialog` flags are the component's state values, passed through unchanged. |
| `Notification.PayloadInjective` | Source/App/Components/HomeComponent/index.js:147-165 | Equal payloads come from the same entry and the same scheduling time. The templating loses nothing. |
| `Notification.PuneExample` | Source/App/Components/HomeComponent/index.js:147-165 | The entry Pune / 29.5 / 01d gives title "Pune", message "Current temperature is 29.5°C" and icon URL ".../01d@2x.png". |
| `Effects.CancelThenSchedule` | Source/App/Components/HomeComponent/index.js:135-168 | After cancel-all, create-channel and schedule, exactly the new notification is pending, whatever was pending before. |
| `Home.Branch` | Source/App/Components/HomeComponent/index.js:213-247 | Without internet, the no-connection view. With internet and a present `data` prop, the list of exactly that data. With internet and no `data`, nothing. |
| `Home.HomeComponent.constructor` | Source/App/Components/HomeComponent/index.js:34-43 | Sets `isInternet` true and `dataSource` null, leaves `loading`, `location` and the three fix flags undefined, and then issues the connectivity probe. |
| `Home.HomeComponent.CheckInternetLoadInitial` | Source/App/Components/HomeComponent/index.js:44-46 | Issues exactly one connectivity probe and changes nothing else. |
| `Home.HomeComponent.ProbeResolved` | Source/App/Components/HomeComponent/index.js:46-58 | Connected: the location pipeline starts, the city list is refreshed exactly once, and `isInternet` becomes true. Disconnected: `isInternet` becomes false and nothing is logged. |
| `Home.HomeComponent.PermissionResolved` | Source/App/Components/HomeComponent/index.js:94-101 | The decision's queries are logged. If permission is refused, `loading`, `location` and the rest of the log are untouched and no fix is requested. |
| `Home.HomeComponent.RequestFix` | Source/App/Components/HomeComponent/index.js:102-127 | Callable only for a granted decision, whose grant it consumes. `loading` becomes true, then exactly one position request is issued with accuracy high/best, timeout 15000, maximumAge 10000, distanceFilter 0 and the three state flags. |
| `Home.HomeComponent.FixResolved` | Source/App/Components/HomeComponent/index.js:104-114 | On a fix: the fix is stored, `loading` becomes false, and exactly one current-weather call is made with the fix's own latitude and longitude. On an error: only `loading` becomes false. |
| `Home.HomeComponent.ComponentDidMount` | Source/App/Components/HomeComponent/index.js:131-133 | Arms one 5000 ms timer. |
| `Home.HomeComponent.TimerFired` | Source/App/Components/HomeComponent/index.js:133-170 | Empty current-weather data: no cancel, no channel and no schedule. Otherwise exactly cancel-all, then `createChannel('weqs-123-wede', 'Weather App')`, then one schedule of entry 0's payload, after which exactly that notification is pending. |
| `Home.HomeComponent.RetryPressed` | Source/App/Components/HomeComponent/index.js:240-244 | The retry button of the no-connection view re-runs the full connectivity probe. |
| `Home.GrantedFixScenario` | Source/App/Components/HomeComponent/index.js:46-110 | Connected, prior grant on Android, fix at (lat, lon). The whole log is: probe, pipeline start, one list refresh, the grant check, one position request, and one current-weather call with exactly (lat, lon). |
| `Home.RefusedPermissionScenario` | Source/App/Components/HomeComponent/index.js:94-100 | Connected, current Android device, no prior grant, request answered "denied". The log holds only the probe, the pipeline start, the list refresh, the check and the request. `loading` stays undefined, and no fix request or grant is outstanding. |
| `Home.DisconnectedRetryScenario` | Source/App/Components/HomeComponent/index.js:53-57 | Disconnected: the no-connection view is shown and only the probe was issued. Retry issues the probe again and nothing more. |

## Left out

- The platform libraries (NetInfo, PermissionsAndroid, Geolocation, PushNotification) are foreign calls. Their answers are method parameters and their invocations are log entries.
- The request status is the platform's result string. The three values compared against ("granted", "denied", "never_ask_again") are those of `PermissionsAndroid.RESULTS` in React Native, which is not part of this model.
- Platform-call failures are not modelled. The source has no handler, so a rejected permission or probe promise just propagates and nothing else happens. The model has no failure answer for those calls.
- `hasLocationPermissionIOS` is called at `index.js:63` but is not defined in `index.js`, so its logic is not part of this model. As written, the call throws a TypeError on iOS. The promise of `hasLocationPermission` is then rejected, so is `getLocation`'s, and no fix is ever requested. The input `Answers.iosGranted` stands for the answer of the intended helper, not for what this file does on iOS.
- the `createChannel` completion callback is empty and is not modelled.
- Timing: the 5000 ms `setTimeout` is the explicit `TimerFired` method, and `Date.now()` is its `now` parameter.
- The interleaving between the location pipeline and the list refresh is not modelled. All of a decision's permission queries are logged together when the decision resolves, including the request dialog. In the source, the first query goes out when `getLocation` reaches its first `await`, and the request goes out when the check answers. The user's answer to the dialog may come after the 5000 ms timer has fired. The model never puts timer effects between a decision's queries.
- Temperature, names and icon codes are strings. `temp` stands for the text JavaScript produces for the number, so float formatting is not modelled. Coordinates are reals that are passed through untouched.
- UI rendering is not modelled: the list rows, the header, styles, device dimensions, the image asset, and the `navigate('Details', …)` call on a row press.
- `getDerivedStateFromProps` is not modelled. It is `async`, so React receives a Promise and not a state patch. `dataSource` is also never read by render, so it stays null in the model.
- The fix flags `highAccuracy`, `forceLocation` and `showLocationDialog` are never assigned in the component. They are fields that stay undefined and are passed through into the request options.
- The model follows the code, not a redesign, so it leaves out behaviour the code does not have:
  - subscription-based readiness of the weather data;
  - cancelling timers and requests on teardown;
  - routing NEVER_ASK_AGAIN to the system settings (the DENIED and NEVER_ASK_AGAIN branches of the code are empty).
- `props.currentWeatherData` is a sequence. The model does not cover the `undefined` prop, on which the source's `.length` would throw.
- The pending-notification invariant is about one component's own log. The device-wide notification store that separate screen instances share is not modelled; `Effects.CancelThenSchedule` states the property for any prior log.
