/**
 * The process-wide event bus: a dictionary from event identifiers to
 * multicast callback chains.  A chain is the invocation list of a C#
 * delegate: `+=` appends, `-=` removes the LAST occurrence of the callback,
 * and a chain that becomes empty is the null delegate, whose key the bus
 * deletes.
 */
module EventBus {
  import opened Engine

  // The identifiers the game publishes under.
  const PauseGame: string := "PauseGame"
  const InventoryToggled: string := "InventoryToggled"
  const InventorySlotCleared: string := "InventorySlotCleared"
  const CharacterMoved: string := "CharacterMoved"
  const CharacterStopped: string := "CharacterStopped"
  const CharacterAttacked: string := "CharacterAttacked"
  const ItemCollection: string := "ItemCollection"

  /** The payload of an event: who triggered it, what it is about, and where. */
  datatype EventData = EventData(trigger: Option<ObjectId>, target: Option<ObjectId>, targetPosition: Vec3)

  /** A freshly allocated payload: both references null, position zero. */
  const BlankData: EventData := EventData(None, None, Zero)

  /** The instance methods the game registers as callbacks. */
  datatype Handler =
    | InventoryAddItem | InventoryRemoveItem | InventoryToggle
    | PauseOnPauseGame
    | IndicatorOnPlayerMoved | IndicatorOnPlayerStopped
    | AnimationOnPlayerMoved | AnimationOnPlayerStopped | AnimationOnPlayerAttack

  /** A delegate to an instance method: equal exactly when target and method agree. */
  datatype CallbackId = Callback(owner: ObjectId, handler: Handler)

  /** One call `TriggerEvent(id, data)` made by a component. */
  datatype Message = Message(id: string, data: Option<EventData>)

  /** One callback run by a dispatch, with the payload it received. */
  datatype Invocation = Invocation(callback: CallbackId, data: Option<EventData>)

  /** What a callback may do to the bus while it runs. */
  datatype BusOp = Subscribe(id: string, callback: CallbackId) | Unsubscribe(id: string, callback: CallbackId)

  /** One (identifier, callback) pair a component registers. */
  datatype Subscription = Subscription(id: string, callback: CallbackId)

  type Registry = map<string, seq<CallbackId>>

  /** No identifier is kept with an empty (null) chain. */
  predicate NoEmptyChain(m: Registry) {
    forall id :: id in m ==> m[id] != []
  }

  /** The index of the last occurrence of `x` in `s`. */
  function LastIndexOf<T(==)>(s: seq<T>, x: T): (k: nat)
    requires x in s
    ensures k < |s| && s[k] == x && x !in s[k + 1..]
  {
    if s[|s| - 1] == x then |s| - 1
    else
      assert s == s[..|s| - 1] + [s[|s| - 1]];
      var k := LastIndexOf(s[..|s| - 1], x);
      assert s[k + 1..] == s[..|s| - 1][k + 1..] + [s[|s| - 1]];
      k
  }

  /** Delegate subtraction: the last occurrence of `x` is taken out, if any. */
  function RemoveLast<T(==)>(s: seq<T>, x: T): (r: seq<T>)
    ensures x !in s ==> r == s
  {
    if s == [] then []
    else if s[|s| - 1] == x then s[..|s| - 1]
    else
      assert s == s[..|s| - 1] + [s[|s| - 1]];
      RemoveLast(s[..|s| - 1], x) + [s[|s| - 1]]
  }

  /** Exactly the last occurrence is the one taken out. */
  lemma {:induction false} RemoveLastSpec<T>(s: seq<T>, x: T)
    requires x in s
    ensures RemoveLast(s, x) == s[..LastIndexOf(s, x)] + s[LastIndexOf(s, x) + 1..]
  {
    if s[|s| - 1] != x {
      var q := s[..|s| - 1];
      assert s == q + [s[|s| - 1]];
      RemoveLastSpec(q, x);
      var k := LastIndexOf(s, x);
      assert k == LastIndexOf(q, x);
      assert s[k + 1..] == q[k + 1..] + [s[|s| - 1]];
    }
  }

  /** Removing one occurrence takes exactly one copy of `x` out of the chain. */
  lemma {:induction false} RemoveLastTakesOne<T>(s: seq<T>, x: T)
    ensures multiset(RemoveLast(s, x)) == multiset(s) - multiset{x}
    ensures |RemoveLast(s, x)| == if x in s then |s| - 1 else |s|
  {
    if s != [] {
      var q := s[..|s| - 1];
      assert s == q + [s[|s| - 1]];
      if s[|s| - 1] != x {
        RemoveLastTakesOne(q, x);
      }
    }
  }

  /** The registry after `AddListener(id, cb)`. */
  function Subscribed(m: Registry, id: string, cb: CallbackId): (r: Registry)
    ensures id in r && r[id] == (if id in m then m[id] else []) + [cb]
    ensures forall k :: k != id ==> (k in r <==> k in m)
    ensures forall k :: k != id && k in m ==> r[k] == m[k]
    ensures NoEmptyChain(m) ==> NoEmptyChain(r)
  {
    if id !in m then m[id := [cb]] else m[id := m[id] + [cb]]
  }

  /** The registry after `RemoveListener(id, cb)`. */
  function Unsubscribed(m: Registry, id: string, cb: CallbackId): (r: Registry)
    ensures id !in m ==> r == m
    ensures id in m && RemoveLast(m[id], cb) == [] ==> id !in r
    ensures id in m && RemoveLast(m[id], cb) != [] ==> id in r && r[id] == RemoveLast(m[id], cb)
    ensures forall k :: k != id ==> (k in r <==> k in m)
    ensures forall k :: k != id && k in m ==> r[k] == m[k]
    ensures NoEmptyChain(m) ==> NoEmptyChain(r)
  {
    if id !in m then m
    else
      var rest := RemoveLast(m[id], cb);
      if rest == [] then m - {id} else m[id := rest]
  }

  /** The invocations of one chain, each receiving the same payload. */
  function Calls(chain: seq<CallbackId>, data: Option<EventData>): (r: seq<Invocation>)
    ensures |r| == |chain|
    ensures forall i :: 0 <= i < |r| ==> r[i] == Invocation(chain[i], data)
  {
    if chain == [] then [] else [Invocation(chain[0], data)] + Calls(chain[1..], data)
  }

  /** What `TriggerEvent(id, data)` runs on registry `m`. */
  function Dispatch(m: Registry, id: string, data: Option<EventData>): seq<Invocation> {
    if id in m then Calls(m[id], data) else []
  }

  function Apply(m: Registry, op: BusOp): Registry {
    match op
    case Subscribe(id, cb) => Subscribed(m, id, cb)
    case Unsubscribe(id, cb) => Unsubscribed(m, id, cb)
  }

  function ApplyAll(m: Registry, ops: seq<BusOp>): (r: Registry)
    ensures NoEmptyChain(m) ==> NoEmptyChain(r)
    decreases |ops|
  {
    if ops == [] then m else ApplyAll(Apply(m, ops[0]), ops[1..])
  }

  /** The registry after each callback of `chain` has applied its own bus operations, in order. */
  function Reacted(m: Registry, chain: seq<CallbackId>, reactions: CallbackId -> seq<BusOp>): (r: Registry)
    ensures NoEmptyChain(m) ==> NoEmptyChain(r)
    decreases |chain|
  {
    if chain == [] then m else Reacted(ApplyAll(m, reactions(chain[0])), chain[1..], reactions)
  }

  function SubscribeEach(m: Registry, subs: seq<Subscription>): Registry
    decreases |subs|
  {
    if subs == [] then m else SubscribeEach(Subscribed(m, subs[0].id, subs[0].callback), subs[1..])
  }

  function UnsubscribeEach(m: Registry, subs: seq<Subscription>): Registry
    decreases |subs|
  {
    if subs == [] then m else UnsubscribeEach(Unsubscribed(m, subs[0].id, subs[0].callback), subs[1..])
  }

  predicate DistinctIds(subs: seq<Subscription>) {
    forall i, j :: 0 <= i < j < |subs| ==> subs[i].id != subs[j].id
  }

  /** Removing a callback right after adding it restores the registry exactly. */
  lemma SubscribeThenUnsubscribe(m: Registry, id: string, cb: CallbackId)
    requires NoEmptyChain(m)
    ensures Unsubscribed(Subscribed(m, id, cb), id, cb) == m
  {
    var chain := if id in m then m[id] else [];
    assert RemoveLast(chain + [cb], cb) == chain;
  }

  /** Operations on two different identifiers commute. */
  lemma UnsubscribeCommutes(m: Registry, id: string, cb: CallbackId, id2: string, cb2: CallbackId)
    requires id != id2
    ensures Unsubscribed(Subscribed(m, id2, cb2), id, cb) == Subscribed(Unsubscribed(m, id, cb), id2, cb2)
  {
    var lhs := Unsubscribed(Subscribed(m, id2, cb2), id, cb);
    var rhs := Subscribed(Unsubscribed(m, id, cb), id2, cb2);
    assert lhs.Keys == rhs.Keys;
    forall k | k in lhs
      ensures lhs[k] == rhs[k]
    {
    }
  }

  lemma {:induction false} UnsubscribePastSubscribes(m: Registry, id: string, cb: CallbackId, subs: seq<Subscription>)
    requires forall i :: 0 <= i < |subs| ==> subs[i].id != id
    ensures Unsubscribed(SubscribeEach(m, subs), id, cb) == SubscribeEach(Unsubscribed(m, id, cb), subs)
    decreases |subs|
  {
    if subs != [] {
      var m' := Subscribed(m, subs[0].id, subs[0].callback);
      UnsubscribePastSubscribes(m', id, cb, subs[1..]);
      UnsubscribeCommutes(m, id, cb, subs[0].id, subs[0].callback);
    }
  }

  /**
   * A component that subscribes a list of callbacks under distinct
   * identifiers and later unsubscribes the same list leaves the bus as it
   * found it.
   */
  lemma {:induction false} SubscriptionsRoundTrip(m: Registry, subs: seq<Subscription>)
    requires NoEmptyChain(m)
    requires DistinctIds(subs)
    ensures UnsubscribeEach(SubscribeEach(m, subs), subs) == m
    decreases |subs|
  {
    if subs != [] {
      var s := subs[0];
      var rest := subs[1..];
      var m1 := Subscribed(m, s.id, s.callback);
      UnsubscribePastSubscribes(m1, s.id, s.callback, rest);
      SubscribeThenUnsubscribe(m, s.id, s.callback);
      assert Unsubscribed(SubscribeEach(m1, rest), s.id, s.callback) == SubscribeEach(m, rest);
      SubscriptionsRoundTrip(m, rest);
    }
  }

  /** A chain that held only `cb` disappears from the registry when `cb` is removed. */
  lemma UnsubscribeDropsEmptiedKey(m: Registry, id: string, cb: CallbackId)
    requires id in m && m[id] == [cb]
    ensures id !in Unsubscribed(m, id, cb)
    ensures Dispatch(Unsubscribed(m, id, cb), id, None) == []
  {
    assert RemoveLast(m[id], cb) == [];
  }

  /** Subscribing the same callback twice makes it run twice, after everything registered before. */
  lemma DuplicatesRunTwice(m: Registry, id: string, cb: CallbackId, data: Option<EventData>)
    ensures var before := Dispatch(m, id, data);
            Dispatch(Subscribed(Subscribed(m, id, cb), id, cb), id, data)
              == before + [Invocation(cb, data), Invocation(cb, data)]
  {
    var chain := if id in m then m[id] else [];
    var after := Subscribed(Subscribed(m, id, cb), id, cb);
    assert after[id] == chain + [cb, cb];
    assert Dispatch(m, id, data) == Calls(chain, data);
    var r := Calls(chain + [cb, cb], data);
    assert r == Calls(chain, data) + [Invocation(cb, data), Invocation(cb, data)];
  }

  /** With callbacks A then B under one identifier: A runs before B; after removing A only B runs; after removing B nothing is left. */
  lemma TwoListenersScenario(a: CallbackId, b: CallbackId, id: string, data: Option<EventData>)
    requires a != b
    ensures var m1 := Subscribed(Subscribed(map[], id, a), id, b);
            && Dispatch(m1, id, data) == [Invocation(a, data), Invocation(b, data)]
            && Dispatch(Unsubscribed(m1, id, a), id, data) == [Invocation(b, data)]
            && Unsubscribed(Unsubscribed(m1, id, a), id, b) == map[]
  {
    var m1 := Subscribed(Subscribed(map[], id, a), id, b);
    assert m1[id] == [a, b];
    assert RemoveLast([a, b], a) == [b] by {
      assert RemoveLast([a], a) == [];
    }
    assert RemoveLast([b], b) == [];
  }

  /** The bus: `listeners` is the static dictionary `m_eventListeners`. */
  class EventManager {
    var listeners: Registry

    ghost predicate Valid()
      reads this
    {
      NoEmptyChain(listeners)
    }

    constructor ()
      ensures Valid() && listeners == map[]
    {
      listeners := map[];
    }

    /**
     * Runs the chain stored under `id`.  The chain is read once, before the
     * first callback: callback `c` may subscribe or unsubscribe through
     * `reactions(c)`, which changes the registry but not this dispatch.
     */
    method TriggerEvent(id: string, data: Option<EventData>, reactions: CallbackId -> seq<BusOp>)
      returns (trace: seq<Invocation>)
      requires Valid()
      modifies this
      ensures Valid()
      ensures trace == Dispatch(old(listeners), id, data)
      ensures id !in old(listeners) ==> listeners == old(listeners)
      ensures id in old(listeners) ==> listeners == Reacted(old(listeners), old(listeners)[id], reactions)
    {
      trace := [];
      if id in listeners {
        var chain := listeners[id];
        var i := 0;
        while i < |chain|
          invariant 0 <= i <= |chain|
          invariant Valid()
          invariant trace == Calls(chain[..i], data)
          invariant Reacted(old(listeners), chain, reactions) == Reacted(listeners, chain[i..], reactions)
        {
          assert chain[..i + 1] == chain[..i] + [chain[i]];
          assert Calls(chain[..i + 1], data) == Calls(chain[..i], data) + [Invocation(chain[i], data)];
          trace := trace + [Invocation(chain[i], data)];
          listeners := ApplyAll(listeners, reactions(chain[i]));
          assert chain[i..][1..] == chain[i + 1..];
          i := i + 1;
        }
        assert chain[..i] == chain;
      }
    }

    method AddListener(id: string, cb: CallbackId)
      requires Valid()
      modifies this
      ensures Valid()
      ensures listeners == Subscribed(old(listeners), id, cb)
    {
      if id !in listeners {
        listeners := listeners[id := [cb]];
      } else {
        listeners := listeners[id := listeners[id] + [cb]];
      }
    }

    method RemoveListener(id: string, cb: CallbackId)
      requires Valid()
      modifies this
      ensures Valid()
      ensures listeners == Unsubscribed(old(listeners), id, cb)
    {
      if id in listeners {
        listeners := listeners[id := RemoveLast(listeners[id], cb)];
        if listeners[id] == [] {
          listeners := listeners - {id};
        }
      }
    }

    /** Registers each subscription in order. */
    method AddListeners(subs: seq<Subscription>)
      requires Valid()
      modifies this
      ensures Valid()
      ensures listeners == SubscribeEach(old(listeners), subs)
    {
      var i := 0;
      while i < |subs|
        invariant 0 <= i <= |subs|
        invariant Valid()
        invariant SubscribeEach(old(listeners), subs) == SubscribeEach(listeners, subs[i..])
      {
        AddListener(subs[i].id, subs[i].callback);
        assert subs[i..][1..] == subs[i + 1..];
        i := i + 1;
      }
    }

    /** Unregisters each subscription in order. */
    method RemoveListeners(subs: seq<Subscription>)
      requires Valid()
      modifies this
      ensures Valid()
      ensures listeners == UnsubscribeEach(old(listeners), subs)
    {
      var i := 0;
      while i < |subs|
        invariant 0 <= i <= |subs|
        invariant Valid()
        invariant UnsubscribeEach(old(listeners), subs) == UnsubscribeEach(listeners, subs[i..])
      {
        RemoveListener(subs[i].id, subs[i].callback);
        assert subs[i..][1..] == subs[i + 1..];
        i := i + 1;
      }
    }
  }
}
