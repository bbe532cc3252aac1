/** The tracking timeline (components/customer/tracking-timeline.tsx): the marker drawn beside
    each event and the connectors between them. */
module TrackingTimeline {
  datatype TrackingEvent = TrackingEvent(
    status: string, timestamp: string, location: string, description: string, completed: bool)

  datatype Marker = Check | Clock | Circle

  datatype Connector = SuccessConnector | MutedConnector

  /** `events.findIndex((e) => !e.completed)`: the first pending event, or -1. */
  function FirstPending(events: seq<TrackingEvent>): (r: int)
    ensures -1 <= r < |events|
    ensures r == -1 <==> forall i | 0 <= i < |events| :: events[i].completed
    ensures r >= 0 ==> !events[r].completed && forall i | 0 <= i < r :: events[i].completed
  {
    if events == [] then -1
    else if !events[0].completed then 0
    else
      var r := FirstPending(events[1..]);
      assert forall i | 1 <= i < |events| :: events[i] == events[1..][i - 1];
      if r == -1 then -1 else r + 1
  }

  /** The marker of the event at `index`. */
  function MarkerAt(events: seq<TrackingEvent>, index: int): Marker
    requires 0 <= index < |events|
  {
    if events[index].completed then Check
    else if index == FirstPending(events) then Clock
    else Circle
  }

  /** The markers, one per event. */
  function Markers(events: seq<TrackingEvent>): (m: seq<Marker>)
    ensures |m| == |events|
    ensures forall i | 0 <= i < |events| :: m[i] == MarkerAt(events, i)
  {
    seq(|events|, i requires 0 <= i < |events| => MarkerAt(events, i))
  }

  /** A completed event gets a check; exactly the first pending event gets the clock; every
      other pending event gets a circle. */
  lemma MarkerSpec(events: seq<TrackingEvent>, i: int)
    requires 0 <= i < |events|
    ensures events[i].completed ==> Markers(events)[i] == Check
    ensures Markers(events)[i] == Clock <==>
      !events[i].completed && forall j | 0 <= j < i :: events[j].completed
    ensures Markers(events)[i] == Circle <==>
      !events[i].completed && exists j | 0 <= j < i :: !events[j].completed
  {
    var p := FirstPending(events);
    if !events[i].completed && forall j | 0 <= j < i :: events[j].completed {
      assert p == i;
    }
    if !events[i].completed && exists j | 0 <= j < i :: !events[j].completed {
      assert p < i;
    }
  }

  /** There is at most one clock, and there is one exactly when some event is pending. */
  lemma AtMostOneClock(events: seq<TrackingEvent>)
    ensures forall i, j | 0 <= i < j < |events| :: !(Markers(events)[i] == Clock && Markers(events)[j] == Clock)
    ensures (exists i | 0 <= i < |events| :: Markers(events)[i] == Clock)
        <==> exists i | 0 <= i < |events| :: !events[i].completed
  {
    var m := Markers(events);
    var p := FirstPending(events);
    if exists i | 0 <= i < |events| :: !events[i].completed {
      assert m[p] == Clock;
    }
  }

  /** The connectors below each event but the last, styled by that event's `completed`. */
  function Connectors(events: seq<TrackingEvent>): (c: seq<Connector>)
    ensures |c| == if events == [] then 0 else |events| - 1
    ensures forall i | 0 <= i < |c| :: (c[i] == SuccessConnector <==> events[i].completed)
  {
    if |events| <= 1 then []
    else seq(|events| - 1, i requires 0 <= i < |events| - 1 => if events[i].completed then SuccessConnector else MutedConnector)
  }

  /** The line below an event has the success colour exactly when the event shows a check. */
  lemma ConnectorsFollowMarkers(events: seq<TrackingEvent>, i: int)
    requires 0 <= i < |events| - 1
    ensures Connectors(events)[i] == SuccessConnector <==> Markers(events)[i] == Check
  {
  }
}
