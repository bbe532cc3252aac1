/** The notification store of lib/notifications-context.tsx: a list of at most 100
    notifications and an unread counter, loaded over REST, kept current by socket pushes,
    and marked read through REST calls whose results are inputs here. */
module Notifications {
  import opened Common
  import opened ApiClient

  const MaxNotifications: nat := 100

  // ---------------------------------------------------------------------------
  // List transforms

  /** The items whose id is not `id`, in their original order. */
  function Others(list: seq<NotificationItem>, id: string): (r: seq<NotificationItem>)
    ensures forall i | 0 <= i < |r| :: r[i].id != id
    ensures forall x | x in list :: multiset(r)[x] == if x.id != id then multiset(list)[x] else 0
    ensures Subsequence(r, list)
  {
    var r := Filter(list, NotId(id));
    assert forall i | 0 <= i < |r| :: r[i] in r;
    r
  }

  function NotId(id: string): NotificationItem -> bool {
    (item: NotificationItem) => item.id != id
  }

  /** An item with the id in front is dropped, and a list without the id is kept whole. */
  lemma OthersCons(x: NotificationItem, rest: seq<NotificationItem>)
    requires forall i | 0 <= i < |rest| :: rest[i].id != x.id
    ensures Others([x] + rest, x.id) == rest
  {
    assert ([x] + rest)[1..] == rest;
    assert forall y | y in rest :: NotId(x.id)(y);
    FilterAll(rest, NotId(x.id));
  }

  /** The `setNotifications` update of `handlePayload`: drop the items with the incoming id,
      put the incoming item first, keep the first 100. */
  function Upsert(list: seq<NotificationItem>, incoming: NotificationItem): (r: seq<NotificationItem>)
    ensures 1 <= |r| <= MaxNotifications && r[0] == incoming
    ensures forall i | 1 <= i < |r| :: r[i].id != incoming.id
    ensures |r| == Min(1 + |Others(list, incoming.id)|, MaxNotifications)
    ensures r[1..] == Others(list, incoming.id)[..|r| - 1]
  {
    var filtered := Others(list, incoming.id);
    var kept := filtered[..Min(|filtered|, MaxNotifications - 1)];
    assert ([incoming] + kept)[1..] == kept;
    assert forall i | 0 <= i < |kept| :: kept[i] == filtered[i];
    [incoming] + kept
  }

  /** The other items keep their relative order, and none is lost while there is room. */
  lemma UpsertKeepsOthers(list: seq<NotificationItem>, incoming: NotificationItem)
    ensures Subsequence(Upsert(list, incoming)[1..], list)
    ensures |Others(list, incoming.id)| < MaxNotifications ==> Upsert(list, incoming)[1..] == Others(list, incoming.id)
  {
    var o := Others(list, incoming.id);
    var r := Upsert(list, incoming);
    PrefixSubsequence(o, |r| - 1);
    SubsequenceTrans(r[1..], o, list);
  }

  /** Pushing the same notification twice leaves the list as after the first push. */
  lemma UpsertIdempotent(list: seq<NotificationItem>, incoming: NotificationItem)
    ensures Upsert(Upsert(list, incoming), incoming) == Upsert(list, incoming)
  {
    var r := Upsert(list, incoming);
    var tail := r[1..];
    assert r == [incoming] + tail;
    OthersCons(incoming, tail);
    assert tail[..|tail|] == tail;
  }

  lemma {:induction false} PrefixSubsequence<T>(s: seq<T>, n: nat)
    requires n <= |s|
    ensures Subsequence(s[..n], s)
  {
    if n == 0 {
    } else {
      PrefixSubsequence(s[1..], n - 1);
      assert s[..n][1..] == s[1..][..n - 1];
    }
  }

  lemma {:induction false} SubsequenceTrans<T>(a: seq<T>, b: seq<T>, c: seq<T>)
    requires Subsequence(a, b) && Subsequence(b, c)
    ensures Subsequence(a, c)
    decreases |c|
  {
    if a == [] {
    } else if b == [] {
    } else if c == [] {
    } else if b[0] == c[0] && Subsequence(b[1..], c[1..]) {
      if a[0] == b[0] && Subsequence(a[1..], b[1..]) {
        SubsequenceTrans(a[1..], b[1..], c[1..]);
      } else {
        SubsequenceTrans(a, b[1..], c[1..]);
      }
    } else {
      SubsequenceTrans(a, b, c[1..]);
    }
  }

  /** The `prev.map` of `markNotification`: the item with the returned id is replaced. */
  function ReplaceById(list: seq<NotificationItem>, updated: NotificationItem): (r: seq<NotificationItem>)
    ensures |r| == |list|
    ensures forall i | 0 <= i < |r| :: r[i].id == list[i].id
    ensures forall i | 0 <= i < |r| :: r[i] == if list[i].id == updated.id then updated else list[i]
  {
    ReplaceMatching(list, (item: NotificationItem) => item.id == updated.id, updated)
  }

  /** Read items are untouched; unread ones become read and keep any `readAt` they had,
      else get `now` (the `new Date().toISOString()` of the call). */
  function MarkRead(item: NotificationItem, now: string): (r: NotificationItem)
    ensures r.isRead
    ensures item.isRead ==> r == item
    ensures item.readAt.Some? ==> r.readAt == item.readAt
    ensures !item.isRead && item.readAt.None? ==> r.readAt == Some(now)
    ensures r.(isRead := item.isRead, readAt := item.readAt) == item
  {
    if item.isRead then item else item.(isRead := true, readAt := Some(OrElse(item.readAt, now)))
  }

  function MarkAllRead(list: seq<NotificationItem>, now: string): (r: seq<NotificationItem>)
    ensures |r| == |list|
    ensures forall i | 0 <= i < |r| :: r[i] == MarkRead(list[i], now)
  {
    if list == [] then [] else [MarkRead(list[0], now)] + MarkAllRead(list[1..], now)
  }

  function UnreadCount(list: seq<NotificationItem>): (n: nat)
    ensures n <= |list|
  {
    |Filter(list, (item: NotificationItem) => !item.isRead)|
  }

  /** After marking all read nothing is unread, and marking again changes nothing. */
  lemma MarkAllReadComplete(list: seq<NotificationItem>, now: string, later: string)
    ensures UnreadCount(MarkAllRead(list, now)) == 0
    ensures MarkAllRead(MarkAllRead(list, now), later) == MarkAllRead(list, now)
  {
    var r := MarkAllRead(list, now);
    assert forall x | x in r :: x.isRead;
    FilterNone(r, (item: NotificationItem) => !item.isRead);
  }

  /** The `join:*` emits of `joinRooms`: the user room, then the role room. */
  function NotificationJoins(userId: string, role: Role): (r: seq<Emit>)
    ensures |r| >= 1 && r[0] == Emit("join:user", userId)
    ensures role == CUSTOMER ==> r == [Emit("join:user", userId), Emit("join:customer", userId)]
    ensures role == AGENT ==> r == [Emit("join:user", userId), Emit("join:agent", userId)]
    ensures role == ADMIN ==> r == [Emit("join:user", userId)]
  {
    [Emit("join:user", userId)]
      + (if role == CUSTOMER then [Emit("join:customer", userId)] else [])
      + (if role == AGENT then [Emit("join:agent", userId)] else [])
  }

  // ---------------------------------------------------------------------------
  // Socket payloads

  /** A `notification:user` payload: either `{ notification, unreadCount }` or a bare item.
      `asItem` is the payload itself read as an item, with `None` when it lacks an `_id`
      (or has an empty one); `unreadCount` is `Some` exactly when it is a number. */
  datatype PayloadBody = PayloadBody(
    notification: Option<Option<NotificationItem>>,
    asItem: Option<NotificationItem>,
    unreadCount: Option<int>)

  /** `payload?.notification ?? payload`, then the `_id` test: the item to upsert, if any. */
  function Incoming(payload: Option<PayloadBody>): (r: Option<NotificationItem>)
    ensures r.Some? ==> r.value.id != ""
    ensures payload.None? ==> r.None?
  {
    match payload
    case None => None
    case Some(p) =>
      var item := if p.notification.Some? then p.notification.value else p.asItem;
      if item.Some? && item.value.id != "" then item else None
  }

  /** What `markNotificationRead` resolved to. */
  datatype MarkResult = MarkResult(data: Option<NotificationItem>, meta: Option<PaginationMeta>)

  function MetaUnread(meta: Option<PaginationMeta>): Option<int> {
    if meta.Some? then meta.value.unreadCount else None
  }

  // ---------------------------------------------------------------------------
  // The provider's state

  /** One socket created by an effect run: who it joins for, which of its handlers are
      attached, and whether it was disconnected. */
  datatype SocketState = SocketState(userId: string, role: Role, onConnect: bool, onNotification: bool, disconnected: bool)

  /** One run of the socket effect: its captured user, its `cancelled` flag and its
      `socketInstance`. */
  datatype EffectRun = EffectRun(userId: string, role: Role, cancelled: bool, instance: Option<nat>)

  class NotificationStore {
    var notifications: seq<NotificationItem>
    var unreadCount: int
    var loading: bool
    var ready: bool
    var sockets: seq<SocketState>        // every socket created, indexed by creation order
    var socketRef: Option<nat>           // `socketRef.current`
    var runs: seq<EffectRun>             // every effect run that got past its guards
    var emitted: seq<(nat, Emit)>        // every emit, with the socket it went to

    ghost predicate Valid()
      reads this
    {
      (socketRef.Some? ==> socketRef.value < |sockets|) &&
      (forall r | 0 <= r < |runs| :: runs[r].instance.Some? ==> runs[r].instance.value < |sockets|)
    }

    constructor()
      ensures notifications == [] && unreadCount == 0 && !loading && !ready
      ensures sockets == [] && socketRef.None? && runs == [] && emitted == []
      ensures Valid()
    {
      notifications, unreadCount, loading, ready := [], 0, false, false;
      sockets, socketRef, runs, emitted := [], None, [], [];
    }

    /** The start of `loadNotifications`: without a token the store is emptied and ready;
        with one, `loading` is set and the request goes out. */
    method BeginLoad(accessToken: Option<string>) returns (requested: bool)
      modifies this
      ensures requested <==> Truthy(accessToken)
      ensures !requested ==> notifications == [] && unreadCount == 0 && ready && loading == old(loading)
      ensures requested ==> loading && notifications == old(notifications) && unreadCount == old(unreadCount) && ready == old(ready)
      ensures sockets == old(sockets) && socketRef == old(socketRef) && runs == old(runs) && emitted == old(emitted)
    {
      if !Truthy(accessToken) {
        notifications := [];
        unreadCount := 0;
        ready := true;
        return false;
      }
      loading := true;
      return true;
    }

    /** The rest of `loadNotifications` once `fetchNotifications` settled; `Err` is a throw. */
    method FinishLoad(outcome: Result<PaginatedResponse<NotificationItem>>)
      modifies this
      ensures outcome.Ok? ==> notifications == outcome.value.data
      ensures outcome.Ok? ==> unreadCount == OrElse(MetaUnread(outcome.value.meta), UnreadCount(outcome.value.data))
      ensures outcome.Err? ==> notifications == old(notifications) && unreadCount == old(unreadCount)
      ensures !loading && ready
      ensures sockets == old(sockets) && socketRef == old(socketRef) && runs == old(runs) && emitted == old(emitted)
    {
      if outcome.Ok? {
        notifications := outcome.value.data;
        unreadCount := OrElse(MetaUnread(outcome.value.meta), UnreadCount(outcome.value.data));
      }
      loading := false;
      ready := true;
    }

    /** `handlePayload`: an item with an id is upserted; a numeric `unreadCount`
        overwrites the counter, which is otherwise left alone. */
    method HandlePayload(payload: Option<PayloadBody>)
      modifies this
      ensures Incoming(payload).None? ==> notifications == old(notifications) && unreadCount == old(unreadCount)
      ensures Incoming(payload).Some? ==> notifications == Upsert(old(notifications), Incoming(payload).value)
      ensures Incoming(payload).Some? && payload.value.unreadCount.Some? ==> unreadCount == payload.value.unreadCount.value
      ensures Incoming(payload).Some? && payload.value.unreadCount.None? ==> unreadCount == old(unreadCount)
      ensures loading == old(loading) && ready == old(ready)
      ensures sockets == old(sockets) && socketRef == old(socketRef) && runs == old(runs) && emitted == old(emitted)
    {
      var incoming := Incoming(payload);
      if incoming.None? {
        return;
      }
      notifications := Upsert(notifications, incoming.value);
      if payload.value.unreadCount.Some? {
        unreadCount := payload.value.unreadCount.value;
      }
    }

    /** `markNotification(id)` with the settled `markNotificationRead` call (`Err` is a throw);
        the returned item is the method's result. */
    method MarkNotification(accessToken: Option<string>, outcome: Result<MarkResult>) returns (r: Option<NotificationItem>)
      modifies this
      ensures (!Truthy(accessToken) || outcome.Err? || outcome.value.data.None?) ==>
        r.None? && notifications == old(notifications) && unreadCount == old(unreadCount)
      ensures Truthy(accessToken) && outcome.Ok? && outcome.value.data.Some? ==>
        r == outcome.value.data &&
        notifications == ReplaceById(old(notifications), outcome.value.data.value) &&
        unreadCount == OrElse(MetaUnread(outcome.value.meta), old(unreadCount))
      ensures loading == old(loading) && ready == old(ready)
      ensures sockets == old(sockets) && socketRef == old(socketRef) && runs == old(runs) && emitted == old(emitted)
    {
      if !Truthy(accessToken) {
        return None;
      }
      if outcome.Err? || outcome.value.data.None? {
        return None;
      }
      var updated := outcome.value.data.value;
      notifications := ReplaceById(notifications, updated);
      if MetaUnread(outcome.value.meta).Some? {
        unreadCount := MetaUnread(outcome.value.meta).value;
      }
      return Some(updated);
    }

    /** `markAll()` with the settled `markAllNotifications` call, whose value is the
        response `meta`; `now` is the instant the list update runs. */
    method MarkAll(accessToken: Option<string>, outcome: Result<Option<PaginationMeta>>, now: string)
      modifies this
      ensures !Truthy(accessToken) || outcome.Err? ==> notifications == old(notifications) && unreadCount == old(unreadCount)
      ensures Truthy(accessToken) && outcome.Ok? ==>
        notifications == MarkAllRead(old(notifications), now) &&
        unreadCount == OrElse(MetaUnread(outcome.value), 0)
      ensures loading == old(loading) && ready == old(ready)
      ensures sockets == old(sockets) && socketRef == old(socketRef) && runs == old(runs) && emitted == old(emitted)
    {
      if !Truthy(accessToken) || outcome.Err? {
        return;
      }
      notifications := MarkAllRead(notifications, now);
      unreadCount := OrElse(MetaUnread(outcome.value), 0);
    }

    /** The socket effect for the current `accessToken` and `user`. Without either, the
        socket in `socketRef` loses its `notification:user` handlers and is disconnected;
        without a user id nothing happens; otherwise a run starts and waits for the loader.
        The returned index names that run. */
    method StartEffect(accessToken: Option<string>, user: Option<User>) returns (run: Option<nat>)
      requires Valid()
      modifies this
      ensures Valid()
      ensures (!Truthy(accessToken) || user.None?) ==>
        run.None? && runs == old(runs) && socketRef.None? && sockets == Shut(old(sockets), old(socketRef), false)
      ensures Truthy(accessToken) && user.Some? && !Truthy(UserId(user.value)) ==>
        run.None? && runs == old(runs) && sockets == old(sockets) && socketRef == old(socketRef)
      ensures Truthy(accessToken) && user.Some? && Truthy(UserId(user.value)) ==>
        run == Some(|old(runs)|) && runs == old(runs) + [EffectRun(UserId(user.value).value, user.value.role, false, None)] &&
        sockets == old(sockets) && socketRef == old(socketRef)
      ensures emitted == old(emitted)
      ensures notifications == old(notifications) && unreadCount == old(unreadCount)
      ensures loading == old(loading) && ready == old(ready)
    {
      if !Truthy(accessToken) || user.None? {
        sockets := Shut(sockets, socketRef, false);
        socketRef := None;
        return None;
      }
      var userId := UserId(user.value);
      if !Truthy(userId) {
        return None;
      }
      runs := runs + [EffectRun(userId.value, user.value.role, false, None)];
      return Some(|runs| - 1);
    }

    /** `ensureSocketClient` resolved for run `r`; `available` is whether it gave a client.
        A live run then creates its socket, records it in `socketRef`, attaches both
        handlers and joins its rooms at once. */
    method LoaderResolved(r: nat, available: bool)
      requires Valid()
      modifies this
      ensures Valid()
      ensures (r >= |old(runs)| || !available || old(runs)[r].cancelled) ==>
        sockets == old(sockets) && socketRef == old(socketRef) && runs == old(runs) && emitted == old(emitted)
      ensures r < |old(runs)| && available && !old(runs)[r].cancelled ==>
        var run := old(runs)[r];
        var s := |old(sockets)|;
        && sockets == old(sockets) + [SocketState(run.userId, run.role, true, true, false)]
        && socketRef == Some(s)
        && runs == old(runs)[r := run.(instance := Some(s))]
        && emitted == old(emitted) + Tagged(s, NotificationJoins(run.userId, run.role))
      ensures notifications == old(notifications) && unreadCount == old(unreadCount)
      ensures loading == old(loading) && ready == old(ready)
    {
      if r >= |runs| || !available || runs[r].cancelled {
        return;
      }
      var run := runs[r];
      var s := |sockets|;
      sockets := sockets + [SocketState(run.userId, run.role, true, true, false)];
      socketRef := Some(s);
      runs := runs[r := run.(instance := Some(s))];
      emitted := emitted + Tagged(s, NotificationJoins(run.userId, run.role));
    }

    /** Socket `s` fired `connect`: while its `connect` handler is attached it joins again. */
    method OnConnect(s: nat)
      modifies this
      ensures s < |sockets| && sockets[s].onConnect && !sockets[s].disconnected ==>
        emitted == old(emitted) + Tagged(s, NotificationJoins(sockets[s].userId, sockets[s].role))
      ensures !(s < |sockets| && sockets[s].onConnect && !sockets[s].disconnected) ==> emitted == old(emitted)
      ensures sockets == old(sockets) && socketRef == old(socketRef) && runs == old(runs)
      ensures notifications == old(notifications) && unreadCount == old(unreadCount)
      ensures loading == old(loading) && ready == old(ready)
    {
      if s < |sockets| && sockets[s].onConnect && !sockets[s].disconnected {
        emitted := emitted + Tagged(s, NotificationJoins(sockets[s].userId, sockets[s].role));
      }
    }

    /** Socket `s` delivered a `notification:user` payload. */
    method OnNotification(s: nat, payload: Option<PayloadBody>)
      modifies this
      ensures s < |sockets| && sockets[s].onNotification && !sockets[s].disconnected ==>
        (Incoming(payload).Some? ==> notifications == Upsert(old(notifications), Incoming(payload).value)) &&
        (Incoming(payload).None? ==> notifications == old(notifications))
      ensures s < |sockets| && sockets[s].onNotification && !sockets[s].disconnected ==>
        (Incoming(payload).Some? && payload.value.unreadCount.Some? ==> unreadCount == payload.value.unreadCount.value) &&
        (!(Incoming(payload).Some? && payload.value.unreadCount.Some?) ==> unreadCount == old(unreadCount))
      ensures !(s < |sockets| && sockets[s].onNotification && !sockets[s].disconnected) ==>
        notifications == old(notifications) && unreadCount == old(unreadCount)
      ensures sockets == old(sockets) && socketRef == old(socketRef) && runs == old(runs) && emitted == old(emitted)
      ensures loading == old(loading) && ready == old(ready)
    {
      if s < |sockets| && sockets[s].onNotification && !sockets[s].disconnected {
        HandlePayload(payload);
      }
    }

    /** The effect cleanup of run `r`: it is cancelled, its socket (if created) loses both
        handlers and is disconnected, and `socketRef` is cleared when it still names that
        socket. */
    method Cleanup(r: nat)
      requires Valid()
      modifies this
      ensures Valid()
      ensures r >= |old(runs)| ==> runs == old(runs) && sockets == old(sockets) && socketRef == old(socketRef)
      ensures r < |old(runs)| ==>
        var inst := old(runs)[r].instance;
        && runs == old(runs)[r := old(runs)[r].(cancelled := true)]
        && sockets == Shut(old(sockets), inst, true)
        && (socketRef == if old(socketRef) == inst then None else old(socketRef))
      ensures emitted == old(emitted)
      ensures notifications == old(notifications) && unreadCount == old(unreadCount)
      ensures loading == old(loading) && ready == old(ready)
    {
      if r >= |runs| {
        return;
      }
      var inst := runs[r].instance;
      runs := runs[r := runs[r].(cancelled := true)];
      sockets := Shut(sockets, inst, true);
      if socketRef == inst {
        socketRef := None;
      }
    }
  }

  /** `off` on socket `s`, if any, of its `notification:user` handler (and of its `connect`
      handler when `alsoConnect`), then `disconnect()`. */
  function Shut(sockets: seq<SocketState>, s: Option<nat>, alsoConnect: bool): (r: seq<SocketState>)
    requires s.Some? ==> s.value < |sockets|
    ensures |r| == |sockets|
    ensures forall i | 0 <= i < |r| && Some(i) != s :: r[i] == sockets[i]
    ensures s.Some? ==> var t := r[s.value];
      && !t.onNotification && t.disconnected && t.userId == sockets[s.value].userId && t.role == sockets[s.value].role
      && t.onConnect == (sockets[s.value].onConnect && !alsoConnect)
  {
    if s.None? then sockets
    else
      var t := sockets[s.value];
      sockets[s.value := t.(onConnect := t.onConnect && !alsoConnect, onNotification := false, disconnected := true)]
  }
}
