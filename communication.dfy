/** The helpers of the communication module: the presence of a team member as a text and a
    colour, and the "time ago" text shown beside activities and members. */
module Communication {
  import opened Text

  /** `TeamMember["status"]`. */
  datatype MemberStatus = Online | Away | Busy | Offline

  /** `getStatusText(status)`: online, away and busy have their own words; anything else reads
      as offline. */
  function StatusText(status: MemberStatus): (r: string)
    ensures status.Offline? <==> r == "离线"
  {
    match status
    case Online => "在线"
    case Away => "离开"
    case Busy => "忙碌"
    case _ => "离线"
  }

  /** `getStatusColor(status)`: green, yellow and red for online, away and busy; anything else
      is grey. */
  function StatusColor(status: MemberStatus): (r: string)
    ensures status.Offline? <==> r == "bg-gray-400"
  {
    match status
    case Online => "bg-green-500"
    case Away => "bg-yellow-500"
    case Busy => "bg-red-500"
    case _ => "bg-gray-400"
  }

  /** The text and the colour each tell the statuses apart. */
  lemma StatusShownApart(s: MemberStatus, t: MemberStatus)
    requires s != t
    ensures StatusText(s) != StatusText(t) && StatusColor(s) != StatusColor(t)
  {
  }

  // ---------------------------------------------------------------- time ago

  const MinuteMs: nat := 1000 * 60
  const HourMs: nat := 1000 * 60 * 60

  /** `Math.floor(diff / unit)` for a positive unit: the largest whole number of units not
      above `diff`, negative when `diff` is. */
  function FloorDiv(diff: int, unit: nat): (q: int)
    requires unit > 0
    ensures q * unit <= diff < (q + 1) * unit
  {
    diff / unit
  }

  /** How long ago a moment was, as `formatTime` words it. */
  datatype Age = JustNow | MinutesAgo(minutes: nat) | HoursAgo(hours: nat) | OnDate

  /** The bucket `formatTime` picks for an elapsed time of `diff` milliseconds: under a minute
      (a moment in the future included) is "just now", under an hour counts whole minutes,
      under a day whole hours, and anything older shows the date. */
  function AgeOf(diff: int): (r: Age)
    ensures r.JustNow? <==> diff < 60000
    ensures r.MinutesAgo? <==> 60000 <= diff < 3600000
    ensures r.HoursAgo? <==> 3600000 <= diff < 86400000
    ensures r.OnDate? <==> 86400000 <= diff
    ensures r.MinutesAgo? ==> 1 <= r.minutes <= 59 && r.minutes * 60000 <= diff < (r.minutes + 1) * 60000
    ensures r.HoursAgo? ==> 1 <= r.hours <= 23 && r.hours * 3600000 <= diff < (r.hours + 1) * 3600000
  {
    var minutes := FloorDiv(diff, MinuteMs);
    var hours := FloorDiv(diff, HourMs);
    if minutes < 1 then JustNow
    else if minutes < 60 then MinutesAgo(minutes)
    else if hours < 24 then HoursAgo(hours)
    else OnDate
  }

  /** The text of a bucket; the date is `toLocaleDateString("zh-CN")`, which the runtime
      supplies. */
  function AgeText(age: Age, localeDate: string): string
  {
    match age
    case JustNow => "刚刚"
    case MinutesAgo(m) => NatToString(m) + "分钟前"
    case HoursAgo(h) => NatToString(h) + "小时前"
    case OnDate => localeDate
  }

  /** `formatTime(date)` read at the moment `now`, both in milliseconds since the epoch. */
  function FormatTime(now: int, date: int, localeDate: string): (r: string)
    ensures now - date < 60000 ==> r == "刚刚"
    ensures 60000 <= now - date < 3600000 ==> r == NatToString((now - date) / 60000) + "分钟前"
    ensures 3600000 <= now - date < 86400000 ==> r == NatToString((now - date) / 3600000) + "小时前"
    ensures 86400000 <= now - date ==> r == localeDate
  {
    AgeText(AgeOf(now - date), localeDate)
  }

  /** The elapsed time a bucket stands for, in whole minutes at least. */
  function Rank(age: Age): nat
  {
    match age
    case JustNow => 0
    case MinutesAgo(m) => m
    case HoursAgo(h) => 60 * h
    case OnDate => 24 * 60
  }

  /** An older moment never reads as more recent: the buckets grow with the elapsed time. */
  lemma AgeMonotone(d1: int, d2: int)
    requires d1 <= d2
    ensures Rank(AgeOf(d1)) <= Rank(AgeOf(d2))
  {
    var a1, a2 := AgeOf(d1), AgeOf(d2);
    if a1.MinutesAgo? && a2.HoursAgo? {
      assert a1.minutes < 60;
    } else if a1.HoursAgo? && a2.HoursAgo? {
      assert a1.hours * 3600000 <= d2 < (a2.hours + 1) * 3600000;
    } else if a1.MinutesAgo? && a2.MinutesAgo? {
      assert a1.minutes * 60000 <= d2 < (a2.minutes + 1) * 60000;
    }
  }

  /** The words tell the buckets apart: two moments that read the same outside the date
      bucket are in the same bucket. */
  lemma AgeTextInjective(a: Age, b: Age, localeDate: string)
    requires !a.OnDate? && !b.OnDate?
    requires AgeText(a, localeDate) == AgeText(b, localeDate)
    ensures a == b
  {
    var s, t := AgeText(a, localeDate), AgeText(b, localeDate);
    if a.MinutesAgo? || a.HoursAgo? {
      var n := if a.MinutesAgo? then a.minutes else a.hours;
      assert s[..|s| - 3] == NatToString(n);
      assert IsDigit(s[0]);
    }
    if b.MinutesAgo? || b.HoursAgo? {
      var n := if b.MinutesAgo? then b.minutes else b.hours;
      assert t[..|t| - 3] == NatToString(n);
      assert IsDigit(t[0]);
    }
    if a.MinutesAgo? && b.MinutesAgo? {
      NatToStringInjective(a.minutes, b.minutes);
    } else if a.HoursAgo? && b.HoursAgo? {
      NatToStringInjective(a.hours, b.hours);
    }
  }
}
