/**
 * The local notification the home screen schedules five seconds after it
 * mounts: its fixed constants and the payload templated from the first
 * current-weather entry.
 */
module Notification {
  import opened Optional

  /** An entry of `currentWeatherData`; `temp` is the text JavaScript prints for the number. */
  datatype WeatherEntry = WeatherEntry(name: string, temp: string, icon: string)

  /** The object handed to `PushNotification.localNotificationSchedule`; `date` is in epoch milliseconds. */
  datatype Request = Request(
    channelId: string,
    title: string,
    message: string,
    date: int,
    largeIcon: string,
    largeIconUrl: string,
    smallIcon: string,
    bigLargeIcon: string,
    bigLargeIconUrl: string,
    repeatType: string)

  const ChannelId: string := "weqs-123-wede"
  const ChannelName: string := "Weather App"
  /** Delay from mounting to the data check, in milliseconds. */
  const TimerDelayMs: int := 5000
  /** Delay from scheduling to the first firing, in milliseconds. */
  const FireDelayMs: int := 3000
  const MessagePrefix: string := "Current temperature is "
  const MessageSuffix: string := "°C"
  const IconBase: string := "https://openweathermap.org/img/wn/"
  const IconSuffix: string := "@2x.png"
  const LauncherIcon: string := "ic_launcher"
  const SmallIcon: string := "ic_notification"
  const RepeatType: string := "minute"

  function Message(temp: string): string {
    MessagePrefix + temp + MessageSuffix
  }

  function IconUrl(icon: string): string {
    IconBase + icon + IconSuffix
  }

  /**
   * The notification scheduled at time `now` for entry 0 of the current
   * weather: its name is the title, its temperature is recoverable from the
   * message, its icon code from both icon URLs, and it fires `FireDelayMs`
   * after `now`, repeating every minute.
   */
  function Payload(e: WeatherEntry, now: int): (n: Request)
    ensures n.channelId == ChannelId
    ensures n.title == e.name
    ensures TemperatureOf(n.message) == Some(e.temp)
    ensures n.date == now + FireDelayMs
    ensures IconCodeOf(n.largeIconUrl) == Some(e.icon)
    ensures n.bigLargeIconUrl == n.largeIconUrl
    ensures n.largeIcon == n.bigLargeIcon == LauncherIcon
    ensures n.smallIcon == SmallIcon
    ensures n.repeatType == RepeatType
  {
    Request(
      ChannelId, e.name, Message(e.temp), now + FireDelayMs,
      LauncherIcon, IconUrl(e.icon), SmallIcon,
      LauncherIcon, IconUrl(e.icon), RepeatType)
  }

  /** The middle of `s` once `prefix` and `suffix` are taken off, if `s` has both. */
  function StripAffixes(s: string, prefix: string, suffix: string): (r: Option<string>)
    ensures r.Some? ==> |s| == |prefix| + |r.value| + |suffix|
  {
    if |prefix| + |suffix| <= |s| && s[..|prefix|] == prefix && s[|s| - |suffix|..] == suffix
    then Some(s[|prefix|..|s| - |suffix|])
    else None
  }

  /** Stripping undoes wrapping ... */
  lemma StripWrapped(prefix: string, x: string, suffix: string)
    ensures StripAffixes(prefix + x + suffix, prefix, suffix) == Some(x)
  {
  }

  /** ... and a string that strips is exactly the wrapping of what it strips to. */
  lemma WrapStripped(s: string, prefix: string, suffix: string)
    requires StripAffixes(s, prefix, suffix).Some?
    ensures s == prefix + StripAffixes(s, prefix, suffix).value + suffix
  {
  }

  /** The temperature text a notification message carries. */
  function TemperatureOf(message: string): Option<string> {
    StripAffixes(message, MessagePrefix, MessageSuffix)
  }

  /** The icon code a large-icon URL points at. */
  function IconCodeOf(url: string): Option<string> {
    StripAffixes(url, IconBase, IconSuffix)
  }

  /** The payload is determined by the entry and the time, and determines them back. */
  lemma PayloadInjective(e1: WeatherEntry, now1: int, e2: WeatherEntry, now2: int)
    requires Payload(e1, now1) == Payload(e2, now2)
    ensures e1 == e2 && now1 == now2
  {
  }

  /** The Pune example: title "Pune", message with "29.5°C", icon URL ending in "01d@2x.png". */
  lemma PuneExample(now: int)
    ensures Payload(WeatherEntry("Pune", "29.5", "01d"), now).title == "Pune"
    ensures Payload(WeatherEntry("Pune", "29.5", "01d"), now).message == "Current temperature is 29.5°C"
    ensures Payload(WeatherEntry("Pune", "29.5", "01d"), now).largeIconUrl
            == "https://openweathermap.org/img/wn/01d@2x.png"
  {
  }
}
