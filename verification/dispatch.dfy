/**
 * Event dispatch, as analyzers see it: each analyzer registers (filter,
 * callback) pairs at construction, and the replay hands every event of the
 * session, in log order, to every registered callback whose filter matches, in
 * registration order. An analyzer's state after a session is therefore a left
 * fold of its callbacks over the event sequence. A callback also learns the
 * event's position in the log: that is the moment at which it reads the
 * selected combatant's state.
 */
module EventDispatch {
  import opened CombatEvents

  /**
   * One `addEventListener(filter, callback)` registration of an analyzer with
   * state `S`. The callback gets the state, the event's log position and the event.
   */
  datatype Subscription<!S> = Subscription(filter: Filter, callback: (S, nat, Event) -> S)

  /** Delivers the event at log position `at` to every matching subscription, in registration order. */
  function Dispatch<S>(subs: seq<Subscription<S>>, s: S, at: nat, e: Event): S
    decreases |subs|
  {
    if |subs| == 0 then s
    else
      var s' := if Matches(subs[0].filter, e) then subs[0].callback(s, at, e) else s;
      Dispatch(subs[1..], s', at, e)
  }

  /** Replays a whole event sequence: the last event is processed last. */
  function Replay<S>(subs: seq<Subscription<S>>, s: S, events: seq<Event>): S
    decreases |events|
  {
    if |events| == 0 then s
    else Dispatch(subs, Replay(subs, s, events[..|events| - 1]), |events| - 1, events[|events| - 1])
  }

  /** The events of `events` that `f` selects, in their original order. */
  function Select(f: Filter, events: seq<Event>): (r: seq<Event>)
    ensures |r| <= |events|
    ensures forall i :: 0 <= i < |r| ==> Matches(f, r[i])
    decreases |events|
  {
    if |events| == 0 then []
    else
      var init := Select(f, events[..|events| - 1]);
      var last := events[|events| - 1];
      if Matches(f, last) then init + [last] else init
  }

  /** Delivery to an analyzer with two listeners: the first registered sees the event first. */
  lemma DispatchPair<S>(first: Subscription<S>, second: Subscription<S>, s: S, at: nat, e: Event)
    ensures Dispatch([first, second], s, at, e) ==
      var s1 := if Matches(first.filter, e) then first.callback(s, at, e) else s;
      if Matches(second.filter, e) then second.callback(s1, at, e) else s1
  {
    var subs := [first, second];
    var s1 := if Matches(first.filter, e) then first.callback(s, at, e) else s;
    var s2 := if Matches(second.filter, e) then second.callback(s1, at, e) else s1;
    assert subs[1..] == [second];
    assert subs[1..][1..] == [];
    assert Dispatch(subs, s, at, e) == Dispatch([second], s1, at, e);
    assert Dispatch([second], s1, at, e) == Dispatch([], s2, at, e);
  }

  /** An analyzer that registered no listeners keeps its initial state, whatever the log. */
  lemma {:induction false} ReplayWithoutSubscriptions<S>(subs: seq<Subscription<S>>, s: S, events: seq<Event>)
    requires |subs| == 0
    ensures Replay(subs, s, events) == s
    decreases |events|
  {
    if |events| != 0 {
      ReplayWithoutSubscriptions(subs, s, events[..|events| - 1]);
    }
  }

  /** A listener that appends every event it receives to a log. */
  function Recorder(f: Filter): Subscription<seq<Event>> {
    Subscription(f, (log: seq<Event>, at: nat, e: Event) => log + [e])
  }

  /**
   * Dispatch never drops, duplicates or reorders an event: a recording
   * listener sees exactly the matching events, in log order, after whatever
   * it had seen before.
   */
  lemma {:induction false} RecorderObservesInOrder(f: Filter, seen: seq<Event>, events: seq<Event>)
    ensures Replay([Recorder(f)], seen, events) == seen + Select(f, events)
    decreases |events|
  {
    if |events| != 0 {
      var init := events[..|events| - 1];
      var last := events[|events| - 1];
      RecorderObservesInOrder(f, seen, init);
      var subs := [Recorder(f)];
      assert subs[1..] == [];
      var before := Replay(subs, seen, init);
      if Matches(f, last) {
        assert Dispatch(subs, before, |init|, last) == before + [last];
        assert seen + Select(f, init) + [last] == seen + (Select(f, init) + [last]);
      } else {
        assert Dispatch(subs, before, |init|, last) == before;
      }
    }
  }
}
