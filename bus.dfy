/** SM_Filter's named-listener event bus: a map from event name to the listeners registered under it. */
module Bus {
  import opened Wrappers
  import opened Seqs

  /** A listener function, known only by its identity (`!==` compares references). */
  datatype Listener = Listener(id: nat)

  /** One invocation `callback(data)` made by `emit`. */
  datatype Call = Call(listener: Listener, data: string)

  /** `this._events`: a name is registered once `on` has created its list; an emptied list stays registered. */
  type Events = map<string, seq<Listener>>

  function RemoveError(name: string): string {
    "Can't remove a listener. Event \"" + name + "\" doesn't exits."
  }

  function EmitError(name: string): string {
    "Can't emit an event. Event \"" + name + "\" doesn't exits."
  }

  /** The listeners currently under `name`, the empty list when there are none. */
  function Listeners(events: Events, name: string): (r: seq<Listener>)
    ensures name !in events ==> r == []
    ensures name in events ==> r == events[name]
  {
    if name in events then events[name] else []
  }

  /** `listener(data)` for each listener, in order. */
  function Calls(ls: seq<Listener>, data: string): (r: seq<Call>)
    ensures |r| == |ls|
    ensures forall i :: 0 <= i < |ls| ==> r[i] == Call(ls[i], data)
  {
    seq(|ls|, i requires 0 <= i < |ls| => Call(ls[i], data))
  }

  /** `on(name, listener)`: creates the list when it is missing, then appends. */
  function Subscribe(events: Events, name: string, l: Listener): (r: Events)
    ensures r.Keys == events.Keys + {name}
    ensures r[name] == Listeners(events, name) + [l]
    ensures forall n :: n in events && n != name ==> r[n] == events[n]
  {
    events[name := Listeners(events, name) + [l]]
  }

  /** `removeListener(name, l)`: throws for an unregistered name, otherwise drops every occurrence of `l`. */
  function Unsubscribe(events: Events, name: string, l: Listener): (r: Result<Events, string>)
    ensures r.Failure? <==> name !in events
    ensures r.Failure? ==> r.error == RemoveError(name)
    ensures r.Success? ==> r.value.Keys == events.Keys && l !in r.value[name]
    ensures r.Success? ==> r.value[name] == Without(events[name], l)
    ensures r.Success? ==> forall n :: n in events && n != name ==> r.value[n] == events[n]
  {
    if name !in events then Failure(RemoveError(name))
    else Success(events[name := Without(events[name], l)])
  }

  /** `emit(name, data)`: throws for an unregistered name, otherwise calls each listener once, in registration order. */
  function Dispatch(events: Events, name: string, data: string): (r: Result<seq<Call>, string>)
    ensures r.Failure? <==> name !in events
    ensures r.Failure? ==> r.error == EmitError(name)
    ensures r.Success? ==> |r.value| == |events[name]|
    ensures r.Success? ==> forall i :: 0 <= i < |r.value| ==> r.value[i] == Call(events[name][i], data)
  {
    if name !in events then Failure(EmitError(name)) else Success(Calls(events[name], data))
  }

  /** After `on(name, l)`, `emit(name, data)` ends with the call of `l`, after the earlier listeners. */
  lemma SubscribeThenDispatch(events: Events, name: string, l: Listener, data: string)
    ensures Dispatch(Subscribe(events, name, l), name, data)
         == Success(Calls(Listeners(events, name), data) + [Call(l, data)])
  {
    var ls := Listeners(events, name);
    assert Calls(ls + [l], data) == Calls(ls, data) + [Call(l, data)];
  }

  /** Registering under one name changes nothing for `emit` on another. */
  lemma SubscribeOtherName(events: Events, name: string, other: string, l: Listener, data: string)
    requires other != name
    ensures Dispatch(Subscribe(events, name, l), other, data) == Dispatch(events, other, data)
  {
  }

  /** `removeListener` keeps every other listener with its number of registrations and leaves none of `l`. */
  lemma UnsubscribeKeepsOthers(events: Events, name: string, l: Listener, k: Listener)
    requires name in events && k != l
    ensures multiset(Unsubscribe(events, name, l).value[name])[k] == multiset(events[name])[k]
    ensures multiset(Unsubscribe(events, name, l).value[name])[l] == 0
  {
    WithoutCounts(events[name], l, k);
  }

  /**
   * `on(name, l)` then `removeListener(name, l)` removes the listener and every earlier registration of it,
   * but the name stays registered, so a later `emit(name, …)` calls the others and does not throw.
   */
  lemma SubscribeThenUnsubscribe(events: Events, name: string, l: Listener)
    ensures Unsubscribe(Subscribe(events, name, l), name, l)
         == Success(events[name := Without(Listeners(events, name), l)])
  {
    var ls := Listeners(events, name);
    WithoutConcat(ls, [l], l);
    assert Without([l], l) == [];
    assert Without(ls + [l], l) == Without(ls, l);
    var sub := Subscribe(events, name, l);
    assert sub[name := Without(sub[name], l)] == events[name := Without(ls, l)];
  }
}
