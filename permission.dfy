/**
 * The location-permission decision of the home screen (`hasLocationPermission`).
 * Every platform answer is an input, so the chain of early returns becomes a
 * pure function that yields the boolean verdict together with the platform
 * queries it issued, in order.
 */
module Permission {

  /** `Platform.OS`; anything that is neither 'ios' nor 'android' is OtherOS. */
  datatype OS = IOS | Android | OtherOS

  /** `Platform.OS` and `Platform.Version` (the Android API level). */
  datatype Platform = Platform(os: OS, version: int)

  /** The result of `PermissionsAndroid.request`: the string the platform answers with. */
  type RequestStatus = string

  /** The values of `PermissionsAndroid.RESULTS` that the decision compares against. */
  const Granted: RequestStatus := "granted"
  const Denied: RequestStatus := "denied"
  const NeverAskAgain: RequestStatus := "never_ask_again"

  /**
   * What the platform answers when asked: the iOS permission query, the
   * Android grant check, and the Android request dialog.
   */
  datatype Answers = Answers(iosGranted: bool, alreadyGranted: bool, requestStatus: RequestStatus)

  /** The platform permission calls the decision can issue. */
  datatype Query = QueryIOS | CheckFineLocation | RequestFineLocation

  /** The verdict and the queries issued to reach it, in issue order. */
  datatype Decision = Decision(granted: bool, queries: seq<Query>)

  /** The API level from which Android asks for location permission at run time. */
  const RuntimePermissionLevel: int := 23

  predicate LegacyAndroid(p: Platform) {
    p.os == Android && p.version < RuntimePermissionLevel
  }

  /**
   * The early-return chain. The request dialog is shown only when the grant
   * check came back negative, and then at most once; the status string is
   * compared with `Granted`, so `Denied`, `NeverAskAgain` and every other
   * string fall through to `false`.
   */
  function Decide(p: Platform, a: Answers): (d: Decision)
    ensures RequestFineLocation in d.queries <==> p.os != IOS && !LegacyAndroid(p) && !a.alreadyGranted
    ensures RequestFineLocation in d.queries ==> d.queries == [CheckFineLocation, RequestFineLocation]
    ensures QueryIOS in d.queries <==> p.os == IOS
    ensures multiset(d.queries)[RequestFineLocation] <= 1
  {
    if p.os == IOS then
      Decision(a.iosGranted, [QueryIOS])
    else if LegacyAndroid(p) then
      Decision(true, [])
    else if a.alreadyGranted then
      Decision(true, [CheckFineLocation])
    else
      Decision(a.requestStatus == Granted, [CheckFineLocation, RequestFineLocation])
  }

  /**
   * An independent statement of when access is granted: iOS answers for
   * itself; everywhere else one of a legacy Android device, a prior grant or
   * a granted request suffices.
   */
  predicate GrantedBy(p: Platform, a: Answers) {
    if p.os == IOS then a.iosGranted
    else LegacyAndroid(p) || a.alreadyGranted || a.requestStatus == Granted
  }

  lemma DecideMatchesGrantedBy(p: Platform, a: Answers)
    ensures Decide(p, a).granted <==> GrantedBy(p, a)
  {
  }

  lemma IOSReturnsQueryAnswer(p: Platform, a: Answers)
    requires p.os == IOS
    ensures Decide(p, a) == Decision(a.iosGranted, [QueryIOS])
  {
  }

  lemma LegacyAndroidAsksNothing(p: Platform, a: Answers)
    requires LegacyAndroid(p)
    ensures Decide(p, a).granted && Decide(p, a).queries == []
  {
  }

  lemma PriorGrantSkipsRequest(p: Platform, a: Answers)
    requires p.os != IOS && !LegacyAndroid(p) && a.alreadyGranted
    ensures Decide(p, a).granted && Decide(p, a).queries == [CheckFineLocation]
  {
  }

  lemma RequestDecides(p: Platform, a: Answers)
    requires p.os != IOS && !LegacyAndroid(p) && !a.alreadyGranted
    ensures Decide(p, a).granted <==> a.requestStatus == Granted
    ensures a.requestStatus == Denied || a.requestStatus == NeverAskAgain ==> !Decide(p, a).granted
  {
  }
}
