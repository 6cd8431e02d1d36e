/**
 * The event bus of src/event-bus.ts: a dictionary from event names to the
 * handlers subscribed to them, in subscription order. A handler is a
 * function compared by reference; here it is an identity number. `emit`
 * calls every handler of the event in order (their asynchronous completion
 * is not modelled) and answers which handlers it called.
 */
module EventBus {
  import opened Common

  /** A subscribed handler, by identity. */
  type HandlerId = nat

  /** `h` removed from `hs` wherever it occurs, the rest in order (`filter(h => h !== handler)`). */
  function Remove(hs: seq<HandlerId>, h: HandlerId): seq<HandlerId>
  {
    if hs == [] then []
    else
      var last := hs[|hs| - 1];
      Remove(hs[..|hs| - 1], h) + (if last == h then [] else [last])
  }

  /**
   * Removing `h` leaves no `h` and keeps every other handler as many times
   * as it was subscribed.
   */
  lemma {:induction false} RemoveCount(hs: seq<HandlerId>, h: HandlerId, g: HandlerId)
    ensures multiset(Remove(hs, h))[g] == if g == h then 0 else multiset(hs)[g]
  {
    if hs != [] {
      var n := |hs| - 1;
      RemoveCount(hs[..n], h, g);
      RemoveCountStep(hs[..n], hs[n], h, g);
      SplitLast(hs);
    }
  }

  /** The induction step of `RemoveCount`: one more handler at the end. */
  lemma RemoveCountStep(p: seq<HandlerId>, x: HandlerId, h: HandlerId, g: HandlerId)
    requires multiset(Remove(p, h))[g] == if g == h then 0 else multiset(p)[g]
    ensures multiset(Remove(p + [x], h))[g] == if g == h then 0 else multiset(p + [x])[g]
  {
    var kept := if x == h then [] else [x];
    assert Remove(p + [x], h) == Remove(p, h) + kept by {
      assert (p + [x])[..|p|] == p;
    }
    assert multiset(Remove(p + [x], h)) == multiset(Remove(p, h)) + multiset(kept);
  }

  /** A handler that was never subscribed is not affected: removing it changes nothing. */
  lemma {:induction false} RemoveAbsent(hs: seq<HandlerId>, h: HandlerId)
    requires h !in hs
    ensures Remove(hs, h) == hs
  {
    if hs != [] {
      var n := |hs| - 1;
      assert h !in hs[..n];
      RemoveAbsent(hs[..n], h);
      assert hs == hs[..n] + [hs[n]];
    }
  }

  /** Removing after appending a handler to a list without it gives the list back. */
  lemma RemoveAppended(hs: seq<HandlerId>, h: HandlerId)
    requires h !in hs
    ensures Remove(hs + [h], h) == hs
  {
    assert (hs + [h])[..|hs|] == hs;
    RemoveAbsent(hs, h);
  }

  /** The handlers `emit(name)` calls, in order: none for an event nobody subscribed to. */
  function Handlers(events: map<string, seq<HandlerId>>, name: string): (hs: seq<HandlerId>)
    ensures name !in events ==> hs == []
    ensures name in events ==> hs == events[name]
  {
    if name in events then events[name] else []
  }

  class Bus {
    /** The subscriptions per event name. */
    var events: map<string, seq<HandlerId>>

    /** A bus without subscriptions. */
    constructor()
      ensures events == map[]
    {
      events := map[];
    }

    /** `on`: create the event's list if missing, then append the handler. */
    method On(event: string, handler: HandlerId)
      modifies this
      ensures events == old(events)[event := Handlers(old(events), event) + [handler]]
    {
      if event !in events {
        events := events[event := []];
      }
      events := events[event := events[event] + [handler]];
    }

    /**
     * `off` (the handler argument may be omitted): nothing for an unknown event; with a handler, every subscription
     * of that handler to the event is removed (the entry stays, possibly
     * empty); without one, the event's entry is deleted.
     */
    method Off(event: string, handler: Option<HandlerId>)
      modifies this
      ensures event !in old(events) ==> events == old(events)
      ensures event in old(events) && handler.Some? ==>
        events == old(events)[event := Remove(old(events)[event], handler.value)]
      ensures event in old(events) && handler.None? ==> events == old(events) - {event}
    {
      if event !in events {
        return;
      }
      if handler.Some? {
        var kept := [];
        var hs := events[event];
        var i := 0;
        while i < |hs|
          invariant 0 <= i <= |hs|
          invariant kept == Remove(hs[..i], handler.value)
        {
          assert hs[..i + 1][..i] == hs[..i];
          if hs[i] != handler.value {
            kept := kept + [hs[i]];
          }
          i := i + 1;
        }
        assert hs[..i] == hs;
        events := events[event := kept];
      } else {
        events := events - {event};
      }
    }

    /** `emit`: call each handler of the event, in subscription order. */
    method Emit(name: string) returns (called: seq<HandlerId>)
      ensures called == Handlers(events, name)
    {
      if name !in events {
        return [];
      }
      called := [];
      var hs := events[name];
      for i := 0 to |hs|
        invariant called == hs[..i]
      {
        called := called + [hs[i]];
      }
      assert hs[..|hs|] == hs;
    }
  }

  /**
   * Subscribing and then unsubscribing a handler that was not yet
   * subscribed leaves the event's handlers as they were (the entry itself
   * remains, empty if it was created by the subscription).
   */
  lemma OnThenOff(events: map<string, seq<HandlerId>>, event: string, h: HandlerId)
    requires h !in Handlers(events, event)
    ensures var after := events[event := Handlers(events, event) + [h]];
      Handlers(after[event := Remove(after[event], h)], event) == Handlers(events, event)
  {
    RemoveAppended(Handlers(events, event), h);
  }

  /** The event bus tests: after `on` a handler is called by `emit`; after `on` then `off` it is not. */
  lemma BusExample(events: map<string, seq<HandlerId>>, h: HandlerId)
    requires "testEvent2" !in events
    ensures h in Handlers(events["testEvent" := Handlers(events, "testEvent") + [h]], "testEvent")
    ensures var after := events["testEvent2" := [h]];
      h !in Handlers(after["testEvent2" := Remove(after["testEvent2"], h)], "testEvent2")
    ensures Handlers(map[], "nonExistentEvent") == []
  {
    RemoveCount([h], h, h);
  }
}
