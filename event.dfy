/** Model of the observer registry `EventManager` (modules/core/event.py).
    Observers are opaque identities of type `O`, compared with `==` as the
    registry's `remove` does; a call `observer.update(event_type, data)` made by
    `notify` is recorded as a `Delivery`, so `notify` yields the ordered
    sequence of deliveries it makes. */
module Event {
  import opened Wrappers

  /** One call of `update(eventType, data)` on `observer`. */
  datatype Delivery<O, D> = Delivery(observer: O, eventType: string, data: D)

  /** The failure of `detach` for an observer that is not registered. */
  datatype EventError = ObserverNotFound

  /** The position of the first occurrence of `o` in `s`. */
  function FirstIndex<O(==)>(s: seq<O>, o: O): (i: nat)
    requires o in s
    ensures i < |s| && s[i] == o
    ensures o !in s[..i]
  {
    if s[0] == o then 0
    else
      var j := FirstIndex(s[1..], o);
      assert s[..j + 1] == [s[0]] + s[1..][..j];
      j + 1
  }

  /** `s` without its first occurrence of `o`: what the list's `remove` leaves. */
  function RemoveFirst<O(==)>(s: seq<O>, o: O): (r: seq<O>)
    requires o in s
    ensures |r| == |s| - 1
    ensures multiset(r) == multiset(s) - multiset{o}
  {
    var i := FirstIndex(s, o);
    assert s == s[..i] + [o] + s[i + 1..];
    s[..i] + s[i + 1..]
  }

  /** Whatever precedes and follows the first occurrence of `o` is kept, in
      order: removal takes out exactly that one entry. */
  lemma RemoveFirstSplit<O>(p: seq<O>, o: O, q: seq<O>)
    requires o !in p
    ensures RemoveFirst(p + [o] + q, o) == p + q
  {
    var s := p + [o] + q;
    var i := FirstIndex(s, o);
    assert s[|p|] == o;
    assert s[..|p|] == p;
    assert s[|p| + 1..] == q;
  }

  /** Attaching an observer that was not registered and detaching it again
      restores the registry. */
  lemma AttachThenDetach<O>(s: seq<O>, o: O)
    requires o !in s
    ensures o in s + [o]
    ensures RemoveFirst(s + [o], o) == s
  {
  }

  /** Removing the only occurrence of `o` leaves it unregistered, so a second
      removal fails. */
  lemma DetachLastOccurrence<O>(s: seq<O>, o: O)
    requires multiset(s)[o] == 1
    ensures o !in RemoveFirst(s, o)
  {
  }

  /** The registry: the ordered list of attached observers, duplicates allowed. */
  class EventManager<O(==)> {
    var observers: seq<O>

    constructor ()
      ensures observers == []
    {
      observers := [];
    }

    /** Appends `o`; never fails and does no duplicate check. */
    method Attach(o: O)
      modifies this
      ensures observers == old(observers) + [o]
      ensures |observers| == |old(observers)| + 1
    {
      observers := observers + [o];
    }

    /** Removes the first occurrence of `o`, or fails and changes nothing
        when `o` is not registered. */
    method Detach(o: O) returns (r: Outcome<EventError>)
      modifies this
      ensures r.Pass? <==> o in old(observers)
      ensures r.Fail? ==> r.error == ObserverNotFound && observers == old(observers)
      ensures r.Pass? ==> observers == RemoveFirst(old(observers), o)
      ensures multiset(observers) == multiset(old(observers)) - multiset{o}
    {
      if o !in observers {
        return Fail(ObserverNotFound);
      }
      observers := RemoveFirst(observers, o);
      return Pass;
    }

    /** Calls `update(eventType, data)` on every registered entry, in
        registration order, once per occurrence; the registry is unchanged. */
    method Notify<D>(eventType: string, data: D) returns (deliveries: seq<Delivery<O, D>>)
      ensures |deliveries| == |observers|
      ensures forall i :: 0 <= i < |observers| ==>
                deliveries[i] == Delivery(observers[i], eventType, data)
    {
      deliveries := [];
      for i := 0 to |observers|
        invariant |deliveries| == i
        invariant forall k :: 0 <= k < i ==>
                    deliveries[k] == Delivery(observers[k], eventType, data)
      {
        deliveries := deliveries + [Delivery(observers[i], eventType, data)];
      }
    }
  }

  /** Three observers attached in order all receive a "register" event once,
      in that order. */
  method RegisterScenario<O(==)>(a: O, b: O, c: O, username: string)
    returns (deliveries: seq<Delivery<O, map<string, string>>>)
    ensures deliveries == [Delivery(a, "register", map["username" := username]),
                           Delivery(b, "register", map["username" := username]),
                           Delivery(c, "register", map["username" := username])]
  {
    var manager := new EventManager<O>();
    manager.Attach(a);
    manager.Attach(b);
    manager.Attach(c);
    deliveries := manager.Notify("register", map["username" := username]);
  }

  /** An observer attached twice is notified twice; detaching it removes one
      entry at a time, and a detach after the last entry is gone fails. */
  method DuplicateScenario<O(==)>(a: O, t: string)
    returns (twice: seq<Delivery<O, int>>, first: Outcome<EventError>,
             second: Outcome<EventError>, third: Outcome<EventError>, none: seq<Delivery<O, int>>)
    ensures twice == [Delivery(a, t, 0), Delivery(a, t, 0)]
    ensures first == Pass && second == Pass && third == Fail(ObserverNotFound)
    ensures none == []
  {
    var manager := new EventManager<O>();
    manager.Attach(a);
    manager.Attach(a);
    twice := manager.Notify(t, 0);
    first := manager.Detach(a);
    second := manager.Detach(a);
    third := manager.Detach(a);
    none := manager.Notify(t, 0);
  }
}
