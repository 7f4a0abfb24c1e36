/**
 * The notification bell of the back office: the badge counting unread
 * notifications, marking one or all of them read once the back end accepts
 * it, the icon of each notification type and the "time ago" caption.
 * Notifications are objects: marking one read changes it in the list that
 * holds it. The clock is a parameter: times are milliseconds since the
 * epoch, as `Date.getTime` gives them.
 */
module NotificationBell {
  import opened Text
  import opened Collections

  class Notification {
    var idNotification: int
    var isRead: bool
    var notificationType: string

    constructor (idNotification: int, isRead: bool, notificationType: string)
      ensures this.idNotification == idNotification && this.isRead == isRead
      ensures this.notificationType == notificationType
    {
      this.idNotification := idNotification;
      this.isRead := isRead;
      this.notificationType := notificationType;
    }
  }

  predicate Unread(isRead: bool) { !isRead }

  /** The read flags of the notifications, in list order. */
  function ReadFlags(notifications: seq<Notification>): (r: seq<bool>)
    reads notifications
    ensures |r| == |notifications|
    ensures forall i :: 0 <= i < |notifications| ==> r[i] == notifications[i].isRead
  {
    seq(|notifications|, i reads notifications requires 0 <= i < |notifications| => notifications[i].isRead)
  }

  /** No notification object is listed twice. */
  predicate Distinct(notifications: seq<Notification>)
  {
    forall i, j :: 0 <= i < j < |notifications| ==> notifications[i] != notifications[j]
  }

  /** Nothing is unread exactly when every flag says read. */
  lemma NothingUnreadIffAllRead(flags: seq<bool>)
    ensures Count(flags, Unread) == 0 <==> forall i :: 0 <= i < |flags| ==> flags[i]
  {
    FilterMembership(flags, Unread, false);
    var unread := Filter(flags, Unread);
    if unread != [] {
      assert Unread(unread[0]);
      assert false in unread;
    }
    if false in flags {
      assert false in unread;
    }
  }

  class NotificationBellComponent {
    var notifications: seq<Notification>
    var unreadCount: int

    constructor ()
      ensures notifications == [] && unreadCount == 0
    {
      notifications, unreadCount := [], 0;
    }

    /** The badge counts the unread notifications of the list, which holds each object once. */
    ghost predicate Consistent()
      reads this, notifications
    {
      Distinct(notifications) && unreadCount == Count(ReadFlags(notifications), Unread)
    }

    /** The notifications arrived: the list is replaced and the badge counts its unread ones. */
    method OnNotificationsLoaded(loaded: seq<Notification>)
      modifies this`notifications, this`unreadCount
      ensures notifications == loaded
      ensures unreadCount == Count(ReadFlags(loaded), Unread)
      ensures Distinct(loaded) ==> Consistent()
    {
      notifications := loaded;
      unreadCount := Count(ReadFlags(loaded), Unread);
    }

    /**
     * `markAsRead`: an unread notification becomes read and the badge
     * drops by one, never below zero, once the back end accepts; a read one
     * is left alone.
     */
    method MarkAsRead(notification: Notification, accepted: bool)
      modifies notification`isRead, this`unreadCount
      ensures old(notification.isRead) || !accepted ==>
        notification.isRead == old(notification.isRead) && unreadCount == old(unreadCount)
      ensures !old(notification.isRead) && accepted ==>
        notification.isRead && unreadCount == (if old(unreadCount) > 0 then old(unreadCount) - 1 else 0)
      ensures old(Consistent()) && notification in notifications ==> Consistent()
    {
      ghost var before := ReadFlags(notifications);
      if !notification.isRead && accepted {
        notification.isRead := true;
        unreadCount := if unreadCount - 1 > 0 then unreadCount - 1 else 0;
        if old(Consistent()) && notification in notifications {
          var k :| 0 <= k < |notifications| && notifications[k] == notification;
          assert ReadFlags(notifications) == before[k := true];
          CountUpdate(before, k, true, Unread);
        }
      }
    }

    /** `markAllAsRead`: once the back end accepts, every listed notification is read and the badge is zero. */
    method MarkAllAsRead(accepted: bool)
      modifies notifications`isRead, this`unreadCount
      ensures accepted ==> (forall i :: 0 <= i < |notifications| ==> notifications[i].isRead) && unreadCount == 0
      ensures accepted && Distinct(notifications) ==> Consistent()
      ensures !accepted ==> unreadCount == old(unreadCount) && ReadFlags(notifications) == old(ReadFlags(notifications))
    {
      if accepted {
        for i := 0 to |notifications|
          invariant forall j :: 0 <= j < i ==> notifications[j].isRead
        {
          notifications[i].isRead := true;
        }
        unreadCount := 0;
        NothingUnreadIffAllRead(ReadFlags(notifications));
      }
    }
  }

  /** The notification types the bell knows. */
  const KnownTypes: set<string> := {"NEW_ORDER", "ORDER_COMPLETED", "ORDER_CANCELLED", "LOW_STOCK"}

  /** `getNotificationIcon`: one icon per known type, the generic bell for any other. */
  function GetNotificationIcon(notificationType: string): (r: string)
    ensures r == "notifications" <==> notificationType !in KnownTypes
  {
    if notificationType == "NEW_ORDER" then "shopping_cart"
    else if notificationType == "ORDER_COMPLETED" then "check_circle"
    else if notificationType == "ORDER_CANCELLED" then "cancel"
    else if notificationType == "LOW_STOCK" then "warning"
    else "notifications"
  }

  /** The icon of a known type tells the type apart from every other type. */
  lemma IconIdentifiesType(a: string, b: string)
    requires a in KnownTypes
    requires GetNotificationIcon(a) == GetNotificationIcon(b)
    ensures a == b
  {
    assert "shopping_cart" != "check_circle" && "shopping_cart" != "cancel" && "shopping_cart" != "warning";
    assert "check_circle" != "cancel" && "check_circle" != "warning" && "cancel" != "warning";
  }

  /** `getNotificationIconClass`: a style for new orders, cancellations and low stock, none otherwise. */
  function GetNotificationIconClass(notificationType: string): (r: string)
    ensures r == "" <==> notificationType !in {"NEW_ORDER", "ORDER_CANCELLED", "LOW_STOCK"}
  {
    if notificationType == "NEW_ORDER" then "new-order"
    else if notificationType == "ORDER_CANCELLED" then "order-cancelled"
    else if notificationType == "LOW_STOCK" then "low-stock"
    else ""
  }

  /** How long ago, as `getTimeAgo` rounds it: a moment, or whole minutes, hours or days. */
  datatype Elapsed = Moment | Minutes(n: nat) | Hours(n: nat) | Days(n: nat)

  /** The elapsed whole seconds; the division rounds down like `Math.floor`, also for a time in the future. */
  function ElapsedSeconds(nowMillis: int, createdMillis: int): (r: int)
    ensures r * 1000 <= nowMillis - createdMillis < (r + 1) * 1000
  {
    (nowMillis - createdMillis) / 1000
  }

  /** The bucket of a number of elapsed seconds, its count rounded down. */
  function ElapsedOf(seconds: int): (r: Elapsed)
    ensures r.Moment? <==> seconds < 60
    ensures r.Minutes? <==> 60 <= seconds < 3600
    ensures r.Hours? <==> 3600 <= seconds < 86400
    ensures r.Days? <==> 86400 <= seconds
    ensures r.Minutes? ==> 1 <= r.n < 60 && r.n * 60 <= seconds < (r.n + 1) * 60
    ensures r.Hours? ==> 1 <= r.n < 24 && r.n * 3600 <= seconds < (r.n + 1) * 3600
    ensures r.Days? ==> 1 <= r.n && r.n * 86400 <= seconds < (r.n + 1) * 86400
  {
    if seconds < 60 then Moment
    else if seconds < 3600 then Minutes(seconds / 60)
    else if seconds < 86400 then Hours(seconds / 3600)
    else Days(seconds / 86400)
  }

  function ElapsedText(e: Elapsed): string
  {
    match e
    case Moment => "Hace un momento"
    case Minutes(n) => "Hace " + NatToString(n) + " min"
    case Hours(n) => "Hace " + NatToString(n) + " h"
    case Days(n) => "Hace " + NatToString(n) + " días"
  }

  /** `getTimeAgo`. */
  function GetTimeAgo(nowMillis: int, createdMillis: int): string
  {
    ElapsedText(ElapsedOf(ElapsedSeconds(nowMillis, createdMillis)))
  }

  /**
   * The caption is "Hace un momento" under a minute; otherwise the number
   * it shows, read back as decimal digits, is the count of whole minutes,
   * hours or days that have passed, in the largest unit that fits.
   */
  lemma TimeAgoReadsBack(nowMillis: int, createdMillis: int)
    ensures var s := ElapsedSeconds(nowMillis, createdMillis);
      s < 60 ==> GetTimeAgo(nowMillis, createdMillis) == "Hace un momento"
    ensures var s := ElapsedSeconds(nowMillis, createdMillis);
      60 <= s < 3600 ==> exists digits ::
        GetTimeAgo(nowMillis, createdMillis) == "Hace " + digits + " min" && AllDigits(digits)
        && DigitsValue(digits) * 60 <= s < (DigitsValue(digits) + 1) * 60
    ensures var s := ElapsedSeconds(nowMillis, createdMillis);
      3600 <= s < 86400 ==> exists digits ::
        GetTimeAgo(nowMillis, createdMillis) == "Hace " + digits + " h" && AllDigits(digits)
        && DigitsValue(digits) * 3600 <= s < (DigitsValue(digits) + 1) * 3600
    ensures var s := ElapsedSeconds(nowMillis, createdMillis);
      86400 <= s ==> exists digits ::
        GetTimeAgo(nowMillis, createdMillis) == "Hace " + digits + " días" && AllDigits(digits)
        && DigitsValue(digits) * 86400 <= s < (DigitsValue(digits) + 1) * 86400
  {
    var e := ElapsedOf(ElapsedSeconds(nowMillis, createdMillis));
    if !e.Moment? {
      DigitsValueOfNatToString(e.n);
    }
  }
}
