/** The `useParcelRealtime` hook of lib/hooks/use-parcel-realtime.ts: which Socket.IO rooms
    a page joins for a parcel and a user, when, and how incoming events reach the latest
    callbacks. Socket creation is an input (`LoaderResolved`); emits and handler calls are
    recorded in order. */
module ParcelRealtime {
  import opened Common
  import opened ApiClient
  import Notifications

  datatype ParcelStatusEvent = ParcelStatusEvent(
    parcelId: string,
    trackingCode: Option<string>,
    status: ParcelStatus,
    note: Option<string>,
    updatedAt: Option<string>,
    deliveredAt: Option<string>,
    failureReason: Option<string>)

  /** One incoming socket event. */
  datatype SocketEvent =
    | StatusEvent(status: ParcelStatusEvent)     // "parcel:status"
    | TrackingEvent(tracking: Json)               // "parcel:tracking"
    | NotificationEvent(notification: Json)       // "notification:user"

  /** The effect's guard: enabled, and a parcel id or a user id to join with. */
  predicate ShouldConnect(enabled: bool, parcelId: Option<string>, userId: Option<string>) {
    enabled && (Truthy(parcelId) || Truthy(userId))
  }

  /** The emits of `joinRooms`: the parcel room first, if any; then, with a user id, the
      user room and the room of a customer or agent role. */
  function RealtimeJoins(parcelId: Option<string>, userId: Option<string>, role: Option<Role>): (r: seq<Emit>)
    ensures Truthy(parcelId) ==> |r| >= 1 && r[0] == Emit("join:parcel", parcelId.value)
    ensures forall k | 0 <= k < |r| :: r[k].event == "join:parcel" ==> k == 0 && Truthy(parcelId)
    ensures !Truthy(userId) ==> |r| <= 1
    ensures Truthy(userId) ==> |r| == (if Truthy(parcelId) then 1 else 0) + (if role == Some(CUSTOMER) || role == Some(AGENT) then 2 else 1)
    ensures Truthy(userId) ==>
      r[if Truthy(parcelId) then 1 else 0] == Emit("join:user", userId.value)
    ensures Truthy(userId) && role == Some(CUSTOMER) ==> r[|r| - 1] == Emit("join:customer", userId.value)
    ensures Truthy(userId) && role == Some(AGENT) ==> r[|r| - 1] == Emit("join:agent", userId.value)
    ensures Truthy(userId) && role != Some(CUSTOMER) && role != Some(AGENT) ==> r[|r| - 1] == Emit("join:user", userId.value)
    ensures r == [] <==> !Truthy(parcelId) && !Truthy(userId)
  {
    (if Truthy(parcelId) then [Emit("join:parcel", parcelId.value)] else [])
      + (if Truthy(userId) then
           [Emit("join:user", userId.value)]
             + (if role == Some(CUSTOMER) then [Emit("join:customer", userId.value)] else [])
             + (if role == Some(AGENT) then [Emit("join:agent", userId.value)] else [])
         else [])
  }

  /** With a signed-in user of any role, the hook joins the parcel room, if any, and then
      exactly the rooms the notification provider joins; a user without a role gets only the
      user room. */
  lemma JoinsExtendNotificationJoins(parcelId: Option<string>, userId: string, role: Role)
    requires userId != ""
    ensures RealtimeJoins(parcelId, Some(userId), Some(role))
      == (if Truthy(parcelId) then [Emit("join:parcel", parcelId.value)] else []) + Notifications.NotificationJoins(userId, role)
    ensures RealtimeJoins(parcelId, Some(userId), None)
      == (if Truthy(parcelId) then [Emit("join:parcel", parcelId.value)] else []) + [Emit("join:user", userId)]
  {
  }

  datatype HookSocket = HookSocket(
    parcelId: Option<string>, userId: Option<string>, role: Option<Role>,
    onConnect: bool, listening: bool, disconnected: bool)

  datatype HookRun = HookRun(
    parcelId: Option<string>, userId: Option<string>, role: Option<Role>,
    cancelled: bool, socket: Option<nat>)

  class ParcelRealtimeHook {
    var statusHandler: Option<nat>          // `statusHandler.current`, by identity
    var trackingHandler: Option<nat>
    var notificationHandler: Option<nat>
    var sockets: seq<HookSocket>
    var runs: seq<HookRun>
    var emitted: seq<(nat, Emit)>
    var delivered: seq<(nat, SocketEvent)>  // every callback invocation, with the callback

    ghost predicate Valid()
      reads this
    {
      forall r | 0 <= r < |runs| :: runs[r].socket.Some? ==> runs[r].socket.value < |sockets|
    }

    constructor(onStatus: Option<nat>, onTracking: Option<nat>, onNotification: Option<nat>)
      ensures Valid()
      ensures statusHandler == onStatus && trackingHandler == onTracking && notificationHandler == onNotification
      ensures sockets == [] && runs == [] && emitted == [] && delivered == []
    {
      statusHandler, trackingHandler, notificationHandler := onStatus, onTracking, onNotification;
      sockets, runs, emitted, delivered := [], [], [], [];
    }

    /** The three ref effects: the latest callbacks replace the stored ones. */
    method UpdateHandlers(onStatus: Option<nat>, onTracking: Option<nat>, onNotification: Option<nat>)
      modifies this
      ensures statusHandler == onStatus && trackingHandler == onTracking && notificationHandler == onNotification
      ensures sockets == old(sockets) && runs == old(runs) && emitted == old(emitted) && delivered == old(delivered)
    {
      statusHandler, trackingHandler, notificationHandler := onStatus, onTracking, onNotification;
    }

    /** The connection effect for the current options and user: past its guards a run starts
        and waits for the loader. The returned index names that run. */
    method StartEffect(enabled: bool, parcelId: Option<string>, user: Option<User>) returns (run: Option<nat>)
      requires Valid()
      modifies this
      ensures Valid()
      ensures var userId := if user.Some? then UserId(user.value) else None;
        run.Some? <==> ShouldConnect(enabled, parcelId, userId)
      ensures run.None? ==> runs == old(runs)
      ensures run.Some? ==> run.value == |old(runs)|
      ensures var userId := if user.Some? then UserId(user.value) else None;
        var role := if user.Some? then Some(user.value.role) else None;
        run.Some? ==> runs == old(runs) + [HookRun(parcelId, userId, role, false, None)]
      ensures sockets == old(sockets) && emitted == old(emitted) && delivered == old(delivered)
      ensures statusHandler == old(statusHandler) && trackingHandler == old(trackingHandler)
      ensures notificationHandler == old(notificationHandler)
    {
      var userId := if user.Some? then UserId(user.value) else None;
      if !enabled {
        return None;
      }
      if !Truthy(parcelId) && !Truthy(userId) {
        return None;
      }
      var role := if user.Some? then Some(user.value.role) else None;
      runs := runs + [HookRun(parcelId, userId, role, false, None)];
      return Some(|runs| - 1);
    }

    /** `ensureSocketClient` resolved for run `r`: a live run creates its socket, attaches
        the `connect` and event handlers, and joins at once. */
    method LoaderResolved(r: nat, available: bool)
      requires Valid()
      modifies this
      ensures Valid()
      ensures (r >= |old(runs)| || !available || old(runs)[r].cancelled) ==>
        sockets == old(sockets) && runs == old(runs) && emitted == old(emitted)
      ensures r < |old(runs)| && available && !old(runs)[r].cancelled ==>
        var run := old(runs)[r];
        var s := |old(sockets)|;
        && sockets == old(sockets) + [HookSocket(run.parcelId, run.userId, run.role, true, true, false)]
        && runs == old(runs)[r := run.(socket := Some(s))]
        && emitted == old(emitted) + Tagged(s, RealtimeJoins(run.parcelId, run.userId, run.role))
      ensures delivered == old(delivered)
      ensures statusHandler == old(statusHandler) && trackingHandler == old(trackingHandler)
      ensures notificationHandler == old(notificationHandler)
    {
      if r >= |runs| || !available || runs[r].cancelled {
        return;
      }
      var run := runs[r];
      var s := |sockets|;
      sockets := sockets + [HookSocket(run.parcelId, run.userId, run.role, true, true, false)];
      runs := runs[r := run.(socket := Some(s))];
      emitted := emitted + Tagged(s, RealtimeJoins(run.parcelId, run.userId, run.role));
    }

    /** Socket `s` (re)connected: the same rooms are joined again. */
    method OnConnect(s: nat)
      modifies this
      ensures s < |sockets| && sockets[s].onConnect && !sockets[s].disconnected ==>
        emitted == old(emitted) + Tagged(s, RealtimeJoins(sockets[s].parcelId, sockets[s].userId, sockets[s].role))
      ensures !(s < |sockets| && sockets[s].onConnect && !sockets[s].disconnected) ==> emitted == old(emitted)
      ensures sockets == old(sockets) && runs == old(runs) && delivered == old(delivered)
      ensures statusHandler == old(statusHandler) && trackingHandler == old(trackingHandler)
      ensures notificationHandler == old(notificationHandler)
    {
      if s < |sockets| && sockets[s].onConnect && !sockets[s].disconnected {
        emitted := emitted + Tagged(s, RealtimeJoins(sockets[s].parcelId, sockets[s].userId, sockets[s].role));
      }
    }

    /** The callback an event is forwarded to: whatever the matching ref holds now. */
    function HandlerFor(ev: SocketEvent): Option<nat>
      reads this
    {
      match ev
      case StatusEvent(_) => statusHandler
      case TrackingEvent(_) => trackingHandler
      case NotificationEvent(_) => notificationHandler
    }

    /** Socket `s` received `ev`: while its handlers are attached, the current callback of
        that kind, if any, is called with it. */
    method OnEvent(s: nat, ev: SocketEvent)
      modifies this
      ensures s < |sockets| && sockets[s].listening && !sockets[s].disconnected && HandlerFor(ev).Some? ==>
        delivered == old(delivered) + [(HandlerFor(ev).value, ev)]
      ensures !(s < |sockets| && sockets[s].listening && !sockets[s].disconnected && HandlerFor(ev).Some?) ==>
        delivered == old(delivered)
      ensures sockets == old(sockets) && runs == old(runs) && emitted == old(emitted)
      ensures statusHandler == old(statusHandler) && trackingHandler == old(trackingHandler)
      ensures notificationHandler == old(notificationHandler)
    {
      if s < |sockets| && sockets[s].listening && !sockets[s].disconnected {
        var h := HandlerFor(ev);
        if h.Some? {
          delivered := delivered + [(h.value, ev)];
        }
      }
    }

    /** The effect cleanup of run `r`: cancelled, and its socket (if created) loses every
        handler and is disconnected. */
    method Cleanup(r: nat)
      requires Valid()
      modifies this
      ensures Valid()
      ensures r >= |old(runs)| ==> runs == old(runs) && sockets == old(sockets)
      ensures r < |old(runs)| ==>
        var sock := old(runs)[r].socket;
        && runs == old(runs)[r := old(runs)[r].(cancelled := true)]
        && (sock.None? ==> sockets == old(sockets))
        && (sock.Some? ==> sockets == old(sockets)[sock.value :=
              old(sockets)[sock.value].(onConnect := false, listening := false, disconnected := true)])
      ensures emitted == old(emitted) && delivered == old(delivered)
      ensures statusHandler == old(statusHandler) && trackingHandler == old(trackingHandler)
      ensures notificationHandler == old(notificationHandler)
    {
      if r >= |runs| {
        return;
      }
      var sock := runs[r].socket;
      runs := runs[r := runs[r].(cancelled := true)];
      if sock.Some? {
        var s := sock.value;
        sockets := sockets[s := sockets[s].(onConnect := false, listening := false, disconnected := true)];
      }
    }
  }
}
