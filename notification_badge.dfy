/** The header bell: an unread counter loaded from the notification list, a
    capped label, and the highlight that follows the counter. */
module NotificationBadge {
  import opened Common
  import opened Notifications

  /** The bubble's text: the count itself, or "9+" above nine. */
  function CountLabel(count: nat): (s: string)
    ensures count > 9 <==> s == "9+"
    ensures count <= 9 ==> |s| == 1 && IsDigit(s[0]) && DigitsValue(s) == count
    ensures |s| <= 2
  {
    NatToStringValue(count);
    if count > 9 then "9+" else NatToString(count)
  }

  /** Distinct counts up to nine show distinct labels; every count above nine
      shares the one capped label. */
  lemma CountLabelInjectiveBelowCap(a: nat, b: nat)
    requires a <= 9 && b <= 9 && CountLabel(a) == CountLabel(b)
    ensures a == b
  {
  }

  predicate BubbleVisible(count: nat) {
    count > 0
  }

  /** The bell's colour: primary blue while something is unread, slate otherwise. */
  function IconColor(count: nat): (c: string)
    ensures c == "#3b82f6" <==> BubbleVisible(count)
  {
    if count > 0 then "#3b82f6" else "#64748b"
  }

  class NotificationCounter {
    var unreadCount: nat

    constructor ()
      ensures unreadCount == 0
    {
      unreadCount := 0;
    }

    /** `loadUnreadCount`: the number of unread records on success; a failed
        fetch only logs, keeping the previous count. */
    method Load(fetched: Outcome<seq<Notification>>)
      modifies this
      ensures fetched.Ok? ==> unreadCount == UnreadCount(fetched.value)
      ensures fetched.Ok? ==> unreadCount <= |fetched.value|
      ensures fetched.Fail? ==> unreadCount == old(unreadCount)
    {
      if fetched.Ok? {
        unreadCount := UnreadCount(fetched.value);
      }
    }
  }
}
