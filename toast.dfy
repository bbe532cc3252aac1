/** The toast store of components/ui/use-toast.ts: module-level state (`memoryState`,
    `toastCount`, the `toastTimeouts` map and the `listeners` array) changed by `dispatch`,
    `genId`, `toast` and the subscription effect of `useToast`. */
module Toast {
  import opened Common

  const ToastLimit: nat := 5
  const ToastRemoveDelay: nat := 1000
  const DefaultDuration: int := 4000
  /** `Number.MAX_SAFE_INTEGER`, 2^53 - 1. */
  const MaxSafeInteger: nat := 9007199254740991

  datatype Variant = Default | Destructive

  datatype Toast = Toast(id: string, title: Option<string>, description: Option<string>, variant: Variant, duration: int)

  datatype Action =
    | AddToast(toast: Toast)
    | DismissToast(toastId: Option<string>)
    | RemoveToast(toastId: Option<string>)

  /** The list the reducer returns for `action`. */
  function Reduce(toasts: seq<Toast>, action: Action): (r: seq<Toast>)
    ensures action.AddToast? ==>
      && 1 <= |r| == Min(|toasts| + 1, ToastLimit) && r[0] == action.toast
      && r[1..] == toasts[..|r| - 1]
    ensures action.DismissToast? ==> r == toasts
    ensures action.RemoveToast? && Truthy(action.toastId) ==>
      && Subsequence(r, toasts)
      && (forall t | t in toasts :: t in r <==> t.id != action.toastId.value)
      && (forall t | t in toasts :: multiset(r)[t] == if t.id != action.toastId.value then multiset(toasts)[t] else 0)
    ensures action.RemoveToast? && !Truthy(action.toastId) ==> r == []
  {
    match action
    case AddToast(t) =>
      var r := ([t] + toasts)[..Min(|toasts| + 1, ToastLimit)];
      assert r[1..] == toasts[..|r| - 1];
      r
    case DismissToast(_) => toasts
    case RemoveToast(toastId) =>
      if Truthy(toastId) then
        var f := (t: Toast) => t.id != toastId.value;
        var r := Filter(toasts, f);
        assert forall t | t in toasts :: t in r <==> f(t) by {
          forall t | t in toasts ensures t in r <==> f(t) {
            FilterMembership(toasts, f, t);
          }
        }
        r
      else []
  }

  /** No action takes the list past `ToastLimit` once it is within it. */
  lemma ReduceKeepsLimit(toasts: seq<Toast>, action: Action)
    requires |toasts| <= ToastLimit
    ensures |Reduce(toasts, action)| <= ToastLimit
  {
  }

  /** The ids a DISMISS targets: the given one, or every current toast's. */
  function DismissTargets(toasts: seq<Toast>, toastId: Option<string>): (ids: seq<string>)
    ensures Truthy(toastId) ==> ids == [toastId.value]
    ensures !Truthy(toastId) ==> |ids| == |toasts| && forall i | 0 <= i < |toasts| :: ids[i] == toasts[i].id
  {
    if Truthy(toastId) then [toastId.value] else seq(|toasts|, i requires 0 <= i < |toasts| => toasts[i].id)
  }

  /** The ids in `s`, as a set. */
  function Elements(s: seq<string>): (r: set<string>)
    ensures forall id :: id in r <==> id in s
  {
    set id | id in s
  }

  predicate NoDuplicates(s: seq<string>) {
    forall i, j | 0 <= i < j < |s| :: s[i] != s[j]
  }

  /** The timers the `ids.forEach` starts, in order: one per id that has none yet. */
  function NewTimers(existing: set<string>, ids: seq<string>): (r: seq<string>)
    decreases |ids|
  {
    if ids == [] then []
    else if ids[0] in existing then NewTimers(existing, ids[1..])
    else [ids[0]] + NewTimers(existing + {ids[0]}, ids[1..])
  }

  /** At most one timer per id: the new timers are distinct, none duplicates an existing
      one, and together they cover every targeted id. */
  lemma {:induction false} NewTimersSpec(existing: set<string>, ids: seq<string>)
    ensures NoDuplicates(NewTimers(existing, ids))
    ensures forall id | id in NewTimers(existing, ids) :: id !in existing && id in ids
    ensures forall id | id in ids && id !in existing :: id in NewTimers(existing, ids)
    decreases |ids|
  {
    if ids != [] {
      if ids[0] in existing {
        NewTimersSpec(existing, ids[1..]);
        assert forall id | id in ids :: id == ids[0] || id in ids[1..];
      } else {
        NewTimersSpec(existing + {ids[0]}, ids[1..]);
        var rest := NewTimers(existing + {ids[0]}, ids[1..]);
        var r := [ids[0]] + rest;
        assert forall k | 1 <= k < |r| :: r[k] == rest[k - 1];
        assert forall id | id in ids :: id == ids[0] || id in ids[1..];
      }
    }
  }

  /** The timers of `ids[i..]` are those of `ids[i]` followed by those of the rest, once
      `ids[i]` counts as having one. */
  lemma NewTimersStep(existing: set<string>, ids: seq<string>, i: nat)
    requires i < |ids|
    ensures NewTimers(existing, ids[i..])
         == NewTimers(existing, [ids[i]]) + NewTimers(existing + {ids[i]}, ids[i + 1..])
  {
    assert ids[i..][1..] == ids[i + 1..];
    assert [ids[i]][1..] == [];
    if ids[i] in existing {
      assert existing + {ids[i]} == existing;
    }
  }

  /** `listeners.indexOf(l)`: the first position holding `l`, or -1. */
  function IndexOf(s: seq<nat>, l: nat): (k: int)
    ensures -1 <= k < |s|
    ensures k == -1 <==> l !in s
    ensures k >= 0 ==> s[k] == l && l !in s[..k]
  {
    if s == [] then -1
    else if s[0] == l then 0
    else
      var k := IndexOf(s[1..], l);
      assert k >= 0 ==> s[..k + 1] == [s[0]] + s[1..][..k];
      if k == -1 then -1 else k + 1
  }

  /** `if (index > -1) listeners.splice(index, 1)`: only the first occurrence goes. */
  function RemoveFirst(s: seq<nat>, l: nat): (r: seq<nat>)
    ensures l !in s ==> r == s
    ensures l in s ==> |r| == |s| - 1 && multiset(r) == multiset(s) - multiset{l}
    ensures l in s ==> r[..IndexOf(s, l)] == s[..IndexOf(s, l)] && r[IndexOf(s, l)..] == s[IndexOf(s, l) + 1..]
  {
    var k := IndexOf(s, l);
    if k > -1 then
      assert s == s[..k] + [l] + s[k + 1..];
      s[..k] + s[k + 1..]
    else s
  }

  /** What each listener receives: every one of them, in order, gets the new state. */
  function Deliveries(listeners: seq<nat>, state: seq<Toast>): (r: seq<(nat, seq<Toast>)>)
    ensures |r| == |listeners|
    ensures forall i | 0 <= i < |r| :: r[i] == (listeners[i], state)
  {
    if listeners == [] then [] else Deliveries(listeners[..|listeners| - 1], state) + [(listeners[|listeners| - 1], state)]
  }

  /** `toastCount + 1` modulo `MAX_SAFE_INTEGER`. */
  function NextCount(count: nat): (c: nat)
    ensures c < MaxSafeInteger
  {
    (count + 1) % MaxSafeInteger
  }

  /** Two successive ids differ: the counter moves, and decimal rendering is injective. */
  lemma SuccessiveIdsDiffer(count: nat)
    requires count < MaxSafeInteger
    ensures NatToDecimal(NextCount(count)) != NatToDecimal(count)
  {
    DecimalInjective(NextCount(count), count);
  }

  datatype ToastInput = ToastInput(title: Option<string>, description: Option<string>, variant: Option<Variant>, duration: Option<int>)

  /** The toast `toast(input)` adds. */
  function MakeToast(id: string, input: ToastInput): (t: Toast)
    ensures t.id == id && t.title == input.title && t.description == input.description
    ensures t.variant == (if input.variant.Some? then input.variant.value else Default)
    ensures t.duration == (if input.duration.Some? then input.duration.value else DefaultDuration)
  {
    Toast(id, input.title, input.description, OrElse(input.variant, Default), OrElse(input.duration, DefaultDuration))
  }

  class ToastStore {
    var memoryState: seq<Toast>
    var toastCount: nat
    var timeouts: set<string>                  // the keys of `toastTimeouts`
    var timers: seq<string>                    // one entry per pending removal timer
    var listeners: seq<nat>                    // the subscribed `setState` functions
    var deliveries: seq<(nat, seq<Toast>)>     // every listener call, in order

    ghost predicate Valid()
      reads this
    {
      && toastCount < MaxSafeInteger
      && NoDuplicates(timers)
      && (forall id | id in timers :: id in timeouts)
      && (forall id | id in timeouts :: id in timers)
    }

    constructor()
      ensures Valid()
      ensures memoryState == [] && toastCount == 0 && timeouts == {} && timers == []
      ensures listeners == [] && deliveries == []
    {
      memoryState, toastCount, timeouts, timers := [], 0, {}, [];
      listeners, deliveries := [], [];
    }

    method GenId() returns (id: string)
      requires Valid()
      modifies this
      ensures Valid()
      ensures toastCount == NextCount(old(toastCount)) && id == NatToDecimal(toastCount)
      ensures id != NatToDecimal(old(toastCount))
      ensures memoryState == old(memoryState) && timeouts == old(timeouts) && timers == old(timers)
      ensures listeners == old(listeners) && deliveries == old(deliveries)
    {
      SuccessiveIdsDiffer(toastCount);
      toastCount := NextCount(toastCount);
      id := NatToDecimal(toastCount);
    }

    /** One step of the `ids.forEach`: a removal timer for `id` unless it has one. */
    method ScheduleRemoval(id: string)
      requires Valid()
      modifies this
      ensures Valid()
      ensures timers == old(timers) + NewTimers(old(timeouts), [id])
      ensures timeouts == old(timeouts) + {id}
      ensures memoryState == old(memoryState) && toastCount == old(toastCount)
      ensures listeners == old(listeners) && deliveries == old(deliveries)
    {
      if id !in timeouts {
        assert id !in timers;
        timeouts := timeouts + {id};
        timers := timers + [id];
      }
    }

    /** The side effect of DISMISS: a removal timer for each target that has none. */
    method ScheduleRemovals(ids: seq<string>)
      requires Valid()
      modifies this
      ensures Valid()
      ensures timers == old(timers) + NewTimers(old(timeouts), ids)
      ensures timeouts == old(timeouts) + Elements(ids)
      ensures memoryState == old(memoryState) && toastCount == old(toastCount)
      ensures listeners == old(listeners) && deliveries == old(deliveries)
    {
      var i := 0;
      while i < |ids|
        invariant 0 <= i <= |ids|
        invariant timers + NewTimers(timeouts, ids[i..]) == old(timers) + NewTimers(old(timeouts), ids)
        invariant timeouts == old(timeouts) + Elements(ids[..i])
        invariant Valid()
        invariant memoryState == old(memoryState) && toastCount == old(toastCount)
        invariant listeners == old(listeners) && deliveries == old(deliveries)
      {
        var id := ids[i];
        ghost var t0, before := timeouts, timers;
        NewTimersStep(t0, ids, i);
        assert ids[..i + 1] == ids[..i] + [id];
        ScheduleRemoval(id);
        ConcatAssoc(before, NewTimers(t0, [id]), NewTimers(timeouts, ids[i + 1..]));
        i := i + 1;
      }
      assert ids[..i] == ids;
    }

    /** `dispatch(action)`: the reducer (with the timers of a DISMISS), then every listener
        is called with the new state. */
    method Dispatch(action: Action)
      requires Valid()
      modifies this
      ensures Valid()
      ensures memoryState == Reduce(old(memoryState), action)
      ensures deliveries == old(deliveries) + Deliveries(listeners, memoryState)
      ensures action.DismissToast? ==>
        var ids := DismissTargets(old(memoryState), action.toastId);
        timers == old(timers) + NewTimers(old(timeouts), ids) && timeouts == old(timeouts) + Elements(ids)
      ensures !action.DismissToast? ==> timers == old(timers) && timeouts == old(timeouts)
      ensures toastCount == old(toastCount) && listeners == old(listeners)
    {
      if action.DismissToast? {
        ScheduleRemovals(DismissTargets(memoryState, action.toastId));
      }
      memoryState := Reduce(memoryState, action);
      Broadcast();
    }

    /** `listeners.forEach((l) => l(memoryState))`: each listener, in order, gets the state. */
    method Broadcast()
      modifies this
      ensures deliveries == old(deliveries) + Deliveries(listeners, memoryState)
      ensures memoryState == old(memoryState) && toastCount == old(toastCount)
      ensures timeouts == old(timeouts) && timers == old(timers) && listeners == old(listeners)
    {
      var log := deliveries;
      var i := 0;
      while i < |listeners|
        invariant 0 <= i <= |listeners|
        invariant log == old(deliveries) + Deliveries(listeners[..i], memoryState)
      {
        assert listeners[..i + 1][..i] == listeners[..i];
        log := log + [(listeners[i], memoryState)];
        i := i + 1;
      }
      assert listeners[..i] == listeners;
      deliveries := log;
    }

    /** `toast(input)`: a fresh id, then ADD of the toast with the defaults filled in. */
    method ShowToast(input: ToastInput) returns (id: string)
      requires Valid()
      modifies this
      ensures Valid()
      ensures toastCount == NextCount(old(toastCount)) && id == NatToDecimal(toastCount)
      ensures memoryState == Reduce(old(memoryState), AddToast(MakeToast(id, input)))
      ensures memoryState[0] == MakeToast(id, input)
      ensures deliveries == old(deliveries) + Deliveries(listeners, memoryState)
      ensures timers == old(timers) && timeouts == old(timeouts) && listeners == old(listeners)
    {
      id := GenId();
      Dispatch(AddToast(MakeToast(id, input)));
    }

    /** The removal timer for `id` fires: the map entry goes, then REMOVE of that id. */
    method FireTimer(id: string)
      requires Valid()
      modifies this
      ensures Valid()
      ensures id !in old(timeouts) ==>
        memoryState == old(memoryState) && timers == old(timers) && timeouts == old(timeouts) && deliveries == old(deliveries)
      ensures id in old(timeouts) ==>
        && timeouts == old(timeouts) - {id}
        && timers == RemoveTimer(old(timers), id)
        && memoryState == Reduce(old(memoryState), RemoveToast(Some(id)))
        && deliveries == old(deliveries) + Deliveries(listeners, memoryState)
      ensures toastCount == old(toastCount) && listeners == old(listeners)
    {
      if id !in timeouts {
        return;
      }
      RemoveTimerSpec(timers, id);
      timeouts := timeouts - {id};
      timers := RemoveTimer(timers, id);
      Dispatch(RemoveToast(Some(id)));
    }

    /** The `useToast` effect: `listeners.push(setState)`. */
    method Subscribe(l: nat)
      modifies this
      ensures listeners == old(listeners) + [l]
      ensures memoryState == old(memoryState) && toastCount == old(toastCount)
      ensures timeouts == old(timeouts) && timers == old(timers) && deliveries == old(deliveries)
    {
      listeners := listeners + [l];
    }

    /** The effect cleanup: only the first occurrence of that listener is removed. */
    method Unsubscribe(l: nat)
      modifies this
      ensures listeners == RemoveFirst(old(listeners), l)
      ensures memoryState == old(memoryState) && toastCount == old(toastCount)
      ensures timeouts == old(timeouts) && timers == old(timers) && deliveries == old(deliveries)
    {
      listeners := RemoveFirst(listeners, l);
    }
  }

  function RemoveTimer(timers: seq<string>, id: string): seq<string> {
    Filter(timers, (t: string) => t != id)
  }

  lemma RemoveTimerSpec(timers: seq<string>, id: string)
    requires NoDuplicates(timers)
    ensures NoDuplicates(RemoveTimer(timers, id))
    ensures forall t | t in RemoveTimer(timers, id) :: t in timers && t != id
    ensures forall t | t in timers && t != id :: t in RemoveTimer(timers, id)
  {
    var f := (t: string) => t != id;
    forall t | t in timers && t != id ensures t in RemoveTimer(timers, id) {
      FilterMembership(timers, f, t);
    }
    FilterNoDuplicates(timers, f);
  }

  lemma NoDuplicatesTail(s: seq<string>)
    requires s != [] && NoDuplicates(s)
    ensures NoDuplicates(s[1..]) && s[0] !in s[1..]
  {
    var tail := s[1..];
    forall i, j | 0 <= i < j < |tail| ensures tail[i] != tail[j] {
      assert tail[i] == s[i + 1] && tail[j] == s[j + 1];
    }
  }

  lemma NoDuplicatesCons(x: string, rest: seq<string>)
    requires x !in rest && NoDuplicates(rest)
    ensures NoDuplicates([x] + rest)
  {
    var r := [x] + rest;
    forall i, j | 0 <= i < j < |r| ensures r[i] != r[j] {
      assert r[j] == rest[j - 1];
      if i > 0 { assert r[i] == rest[i - 1]; }
    }
  }

  lemma {:induction false} FilterNoDuplicates(s: seq<string>, f: string -> bool)
    requires NoDuplicates(s)
    ensures NoDuplicates(Filter(s, f))
  {
    if s != [] {
      NoDuplicatesTail(s);
      FilterNoDuplicates(s[1..], f);
      if f(s[0]) {
        NoDuplicatesCons(s[0], Filter(s[1..], f));
      }
    }
  }
}
