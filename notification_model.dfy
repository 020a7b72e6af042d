/** The notification document of server/src/models/Notification.ts: its
    defaults and the `isExpired` and `timeAgo` virtuals. */
module NotificationModel {
  import opened Wrappers
  import Text
  import Arith

  datatype NotificationType = Info | Success | Warning | Error | PaymentNote | TaskNote | SystemNote
  datatype Priority = Low | MediumPriority | High

  datatype Notification = Notification(
    userId: nat,
    title: string,
    message: string,
    kind: NotificationType,
    isRead: bool,
    priority: Priority,
    actionUrl: Option<string>,
    expiresAt: Option<int>,
    createdAt: int)

  /** A notification created with only its required fields. */
  function NewNotification(userId: nat, title: string, message: string, now: int): (n: Notification)
    ensures n.kind == Info && !n.isRead && n.priority == Low
    ensures n.userId == userId && n.title == title && n.message == message
    ensures n.expiresAt.None? && n.createdAt == now
  {
    Notification(userId, title, message, Info, false, Low, None, None, now)
  }

  /** The `isExpired` virtual, `new Date()` being `now`. */
  function IsExpired(n: Notification, now: int): (b: bool)
    ensures n.expiresAt.None? ==> !b
    ensures n.expiresAt.Some? ==> (b <==> now > n.expiresAt.value)
  {
    if n.expiresAt.None? then false else now > n.expiresAt.value
  }

  /** Which branch of `timeAgo` applies; `OnDate` is the locale date string. */
  datatype Age = JustNow | MinutesAgo(m: nat) | HoursAgo(h: nat) | DaysAgo(d: nat) | OnDate

  /** `Math.floor(ms / 60000)`: the divisor is positive, so the Euclidean
      quotient is the floor. */
  function WholeMinutes(ms: int): int {
    ms / 60000
  }

  /** The bucketing of the `timeAgo` virtual. */
  function AgeOf(createdAt: int, now: int): (a: Age)
    ensures var m := WholeMinutes(now - createdAt);
            && (a == JustNow <==> m < 1)
            && (a.MinutesAgo? <==> 1 <= m < 60)
            && (a.MinutesAgo? ==> a.m == m)
            && (a.HoursAgo? <==> 60 <= m && 1 <= m / 60 < 24)
            && (a.HoursAgo? ==> a.h == m / 60)
            && (a.DaysAgo? <==> 24 <= m / 60 && 1 <= m / 60 / 24 < 7)
            && (a.DaysAgo? ==> a.d == m / 60 / 24)
            && (a == OnDate <==> m / 60 / 24 >= 7)
  {
    var m := WholeMinutes(now - createdAt);
    if m < 1 then JustNow
    else if m < 60 then MinutesAgo(m)
    else
      var h := m / 60;
      if h < 24 then HoursAgo(h)
      else
        var d := h / 24;
        if d < 7 then DaysAgo(d) else OnDate
  }

  /** The label shown for an age; the date fallback is rendered by the locale. */
  function AgeLabel(a: Age): (r: Option<string>)
    ensures a == OnDate <==> r.None?
  {
    match a
    case JustNow => Some("Just now")
    case MinutesAgo(m) => Some(Text.NatToString(m) + "m ago")
    case HoursAgo(h) => Some(Text.NatToString(h) + "h ago")
    case DaysAgo(d) => Some(Text.NatToString(d) + "d ago")
    case OnDate => None
  }

  /** The text `timeAgo` shows, from the whole minutes elapsed. */
  lemma AgeText(createdAt: int, now: int)
    ensures var m, l := WholeMinutes(now - createdAt), AgeLabel(AgeOf(createdAt, now));
            && (m < 1 ==> l == Some("Just now"))
            && (1 <= m < 60 ==> l == Some(Text.NatToString(m) + "m ago"))
            && (60 <= m && m / 60 < 24 ==> l == Some(Text.NatToString(m / 60) + "h ago"))
            && (24 <= m / 60 && m / 60 / 24 < 7 ==> l == Some(Text.NatToString(m / 60 / 24) + "d ago"))
            && (m / 60 / 24 >= 7 ==> l.None?)
  {
  }

  /** The buckets in the order time passes through them. */
  function AgeRank(a: Age): nat {
    match a
    case JustNow => 0
    case MinutesAgo(_) => 1
    case HoursAgo(_) => 2
    case DaysAgo(_) => 3
    case OnDate => 4
  }

  /** As time passes a notification never moves back to an earlier bucket. */
  lemma {:induction false} AgeMonotone(createdAt: int, now1: int, now2: int)
    requires now1 <= now2
    ensures AgeRank(AgeOf(createdAt, now1)) <= AgeRank(AgeOf(createdAt, now2))
  {
    Arith.DivMonotone(now1 - createdAt, now2 - createdAt, 60000);
    var m1, m2 := WholeMinutes(now1 - createdAt), WholeMinutes(now2 - createdAt);
    Arith.DivMonotone(m1, m2, 60);
    Arith.DivMonotone(m1 / 60, m2 / 60, 24);
  }
}
