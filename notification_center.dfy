/** The notification centre page (components/notifications/notification-center.tsx): the text
    and buttons of each notification, the Clear All button, and the guards around marking one
    or all notifications read. The marking itself is the notifications store's. */
module NotificationCenter {
  import opened Common
  import opened ApiClient

  /** `s.replace(/_/g, " ")`. */
  function UnderscoresToSpaces(s: string): (r: string)
    ensures |r| == |s|
    ensures forall i | 0 <= i < |s| :: r[i] == (if s[i] == '_' then ' ' else s[i])
  {
    if s == [] then []
    else [if s[0] == '_' then ' ' else s[0]] + UnderscoresToSpaces(s[1..])
  }

  /** The badge text of a notification's `type`. */
  function TypeLabel(n: NotificationItem): string {
    UnderscoresToSpaces(n.kind)
  }

  /** No underscore is left, nothing else changes, and a type without underscores is shown as
      it is. */
  lemma TypeLabelSpec(n: NotificationItem)
    ensures forall i | 0 <= i < |TypeLabel(n)| :: TypeLabel(n)[i] != '_'
    ensures forall i | 0 <= i < |n.kind| :: n.kind[i] != '_' && n.kind[i] != ' ' ==> TypeLabel(n)[i] == n.kind[i]
    ensures (forall i | 0 <= i < |n.kind| :: n.kind[i] != '_') ==> TypeLabel(n) == n.kind
    ensures UnderscoresToSpaces(TypeLabel(n)) == TypeLabel(n)
  {
  }

  /** `notification.data?.trackingCode` when it is a string. */
  function TrackingCode(n: NotificationItem): (code: Option<string>)
    ensures code.Some? ==> n.data.Some? && "trackingCode" in n.data.value && n.data.value["trackingCode"] == JString(code.value)
  {
    if n.data.Some? && "trackingCode" in n.data.value && n.data.value["trackingCode"].JString?
    then Some(n.data.value["trackingCode"].s)
    else None
  }

  /** `hasTracking`. */
  predicate HasTracking(n: NotificationItem) {
    n.data.Some? && "trackingCode" in n.data.value && n.data.value["trackingCode"].JString?
  }

  /** The tracking chip is shown exactly when there is a code to show in it. */
  lemma HasTrackingIff(n: NotificationItem)
    ensures HasTracking(n) <==> TrackingCode(n).Some?
    ensures HasTracking(n) <==> exists s :: n.data.Some? && "trackingCode" in n.data.value && n.data.value["trackingCode"] == JString(s)
  {
    if HasTracking(n) {
      var s := n.data.value["trackingCode"].s;
      assert n.data.value["trackingCode"] == JString(s);
    }
  }

  /** `formatTimestamp(value)`: `time` is `new Date(value).getTime()` (None for NaN) and
      `local` its `toLocaleString(...)`. */
  function FormatTimestamp(value: Option<string>, time: Option<int>, local: string): (r: string)
    ensures !Truthy(value) || time.None? ==> r == ""
    ensures Truthy(value) && time.Some? ==> r == local
  {
    if !Truthy(value) then "" else if time.None? then "" else local
  }

  datatype Button = Button(disabled: bool, caption: string)

  /** The Mark as read button of one notification: only unread ones have it, and it is
      disabled while that notification or all of them are being marked. */
  function MarkButton(n: NotificationItem, markingId: Option<string>, markingAll: bool): (b: Option<Button>)
    ensures b.Some? <==> !n.isRead
    ensures b.Some? ==> (b.value.disabled <==> markingId == Some(n.id) || markingAll)
    ensures b.Some? ==> b.value.caption == (if markingId == Some(n.id) then "..." else "Mark as read")
  {
    if n.isRead then None
    else Some(Button(markingId == Some(n.id) || markingAll, if markingId == Some(n.id) then "..." else "Mark as read"))
  }

  /** The Clear All button: disabled when nothing is unread (`!unreadCount`, so a negative
      counter leaves it enabled) or a mark-all runs. */
  function ClearAllButton(unreadCount: int, markingAll: bool): (b: Button)
    ensures b.disabled <==> unreadCount == 0 || markingAll
    ensures markingAll ==> b.caption == "Processing..."
    ensures !markingAll && unreadCount >= 0 ==> b.caption == "Clear All (" + NatToDecimal(unreadCount) + ")"
    ensures !markingAll && unreadCount < 0 ==> b.caption == "Clear All (-" + NatToDecimal(-unreadCount) + ")"
  {
    Button(unreadCount == 0 || markingAll,
      if markingAll then "Processing..." else "Clear All (" + IntToDecimal(unreadCount) + ")")
  }

  /** A counter of -1 leaves the button enabled and shows the sign. */
  lemma ClearAllNegativeCount()
    ensures ClearAllButton(-1, false) == Button(false, "Clear All (-1)")
  {
    assert NatToDecimal(1) == "1";
  }

  function Heading(heading: Option<string>): (r: string)
    ensures heading.Some? ==> r == heading.value
    ensures heading.None? ==> r == "Notifications"
  {
    OrElse(heading, "Notifications")
  }

  class NotificationCenterPage {
    var markingId: Option<string>
    var markingAll: bool
    var markCalls: seq<string>     // the ids passed to `markNotification`
    var markAllCalls: nat          // how often `markAll` was called

    constructor()
      ensures markingId == None && !markingAll && markCalls == [] && markAllCalls == 0
    {
      markingId, markingAll, markCalls, markAllCalls := None, false, [], 0;
    }

    /** `handleMarkAll` up to the call: nothing happens when nothing is unread or a mark-all
        already runs; a negative counter passes the `!unreadCount` guard. */
    method BeginMarkAll(unreadCount: int)
      modifies this
      ensures unreadCount == 0 || old(markingAll) ==> markingAll == old(markingAll) && markAllCalls == old(markAllCalls)
      ensures !(unreadCount == 0 || old(markingAll)) ==> markingAll && markAllCalls == old(markAllCalls) + 1
      ensures markingId == old(markingId) && markCalls == old(markCalls)
    {
      if unreadCount == 0 || markingAll {
        return;
      }
      markingAll := true;
      markAllCalls := markAllCalls + 1;
    }

    /** `markAll()` settled: the `finally` clears `markingAll`, and a failure is rethrown. */
    method FinishMarkAll(outcome: Result<()>) returns (r: Result<()>)
      modifies this
      ensures !markingAll && r == outcome
      ensures markingId == old(markingId) && markCalls == old(markCalls) && markAllCalls == old(markAllCalls)
    {
      markingAll := false;
      r := outcome;
    }

    /** `handleMark(id)` up to the call: ignored while another mark runs. The guard is the
        truthiness of `markingId`, so an empty id does not block. */
    method BeginMark(id: string)
      modifies this
      ensures Truthy(old(markingId)) ==> markingId == old(markingId) && markCalls == old(markCalls)
      ensures !Truthy(old(markingId)) ==> markingId == Some(id) && markCalls == old(markCalls) + [id]
      ensures markingAll == old(markingAll) && markAllCalls == old(markAllCalls)
    {
      if Truthy(markingId) {
        return;
      }
      markingId := Some(id);
      markCalls := markCalls + [id];
    }

    /** `markNotification(id)` settled: `markingId` is reset either way, and a failure is
        rethrown. */
    method FinishMark(outcome: Result<()>) returns (r: Result<()>)
      modifies this
      ensures markingId == None && r == outcome
      ensures markingAll == old(markingAll) && markCalls == old(markCalls) && markAllCalls == old(markAllCalls)
    {
      markingId := None;
      r := outcome;
    }
  }

  /** While a notification is being marked its own button is disabled and shows "...", and
      every button is disabled during a mark-all. */
  lemma MarkButtonDuringMarking(n: NotificationItem, markingAll: bool)
    requires !n.isRead
    ensures MarkButton(n, Some(n.id), markingAll) == Some(Button(true, "..."))
    ensures MarkButton(n, None, true).Some? && MarkButton(n, None, true).value.disabled
  {
  }
}
