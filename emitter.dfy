/**
 * The listener table of the in-process bus (`EventEmitter`): a dictionary
 * from event name to the ordered list of listeners registered for it.  The
 * table operations are pure functions over `Table`; the class applies them
 * to its `listeners` field in place.
 */
module SharedEmitter {
  import opened Types

  type Table<K(!new), L> = map<K, seq<L>>

  /** The list registered under `name`; an absent entry reads as empty. */
  function ListenersOf<K(!new), L>(t: Table<K, L>, name: K): seq<L> {
    if name in t then t[name] else []
  }

  /** `list.filter(x => x !== l)`: every occurrence of `l` dropped, the rest kept in order. */
  function Without<L(==)>(s: seq<L>, l: L): (r: seq<L>)
    ensures forall x :: x in r ==> x in s && x != l
    ensures forall x :: x in s && x != l ==> x in r
    ensures |r| <= |s|
  {
    if s == [] then []
    else if s[0] == l then Without(s[1..], l)
    else [s[0]] + Without(s[1..], l)
  }

  /** Filtering out a listener that is not there changes nothing. */
  lemma {:induction false} WithoutAbsent<L>(s: seq<L>, l: L)
    requires l !in s
    ensures Without(s, l) == s
  {
    if s != [] {
      WithoutAbsent(s[1..], l);
    }
  }

  /** Filtering distributes over concatenation. */
  lemma {:induction false} WithoutAppend<L>(a: seq<L>, b: seq<L>, l: L)
    ensures Without(a + b, l) == Without(a, l) + Without(b, l)
  {
    if a == [] {
      assert a + b == b;
    } else {
      assert (a + b)[1..] == a[1..] + b;
      WithoutAppend(a[1..], b, l);
    }
  }

  /** `on`: the listener goes to the end of the event's list, which is created when absent; duplicates stay. */
  function Add<K(!new), L>(t: Table<K, L>, name: K, l: L): (r: Table<K, L>)
    ensures r.Keys == t.Keys + {name}
    ensures ListenersOf(r, name) == ListenersOf(t, name) + [l]
    ensures forall n :: n != name ==> ListenersOf(r, n) == ListenersOf(t, n)
  {
    t[name := ListenersOf(t, name) + [l]]
  }

  /** `off`: every occurrence of the listener leaves that event's list only; no entry, no change. */
  function Remove<K(!new), L(==)>(t: Table<K, L>, name: K, l: L): (r: Table<K, L>)
    ensures r.Keys == t.Keys
    ensures ListenersOf(r, name) == Without(ListenersOf(t, name), l)
    ensures name !in t ==> r == t
    ensures forall n :: n != name ==> ListenersOf(r, n) == ListenersOf(t, n)
  {
    if name in t then t[name := Without(t[name], l)] else t
  }

  /** `removeAllListeners(name)` deletes that one entry; `removeAllListeners()` empties the table. */
  function RemoveKey<K(!new), L>(t: Table<K, L>, name: Option<K>): (r: Table<K, L>)
    ensures name.None? ==> r == map[]
    ensures name.Some? ==> r.Keys == t.Keys - {name.value}
    ensures forall n :: n in r ==> n in t && r[n] == t[n]
  {
    match name
    case None => map[]
    case Some(n) => t - {n}
  }

  /** `on(e, l)` then `off(e, l)` with `l` not yet registered for `e` leaves every list as it was. */
  lemma OnThenOff<K(!new), L>(t: Table<K, L>, name: K, l: L)
    requires l !in ListenersOf(t, name)
    ensures forall n :: ListenersOf(Remove(Add(t, name, l), name, l), n) == ListenersOf(t, n)
  {
    var s := ListenersOf(t, name);
    WithoutAppend(s, [l], l);
    WithoutAbsent(s, l);
    assert Without([l], l) == [];
  }

  /** A table change made by a listener while it runs. */
  datatype TableOp<K(!new), L> = On(name: K, listener: L) | Off(name: K, listener: L)

  /** What one listener call does: the table changes it makes, then whether it throws. */
  datatype Reaction<K(!new), L> = Reaction(ops: seq<TableOp<K, L>>, throws: bool)

  function ApplyOp<K(!new), L(==)>(t: Table<K, L>, op: TableOp<K, L>): Table<K, L> {
    match op
    case On(n, l) => Add(t, n, l)
    case Off(n, l) => Remove(t, n, l)
  }

  function ApplyOps<K(!new), L(==)>(t: Table<K, L>, ops: seq<TableOp<K, L>>): Table<K, L>
    decreases |ops|
  {
    if ops == [] then t else ApplyOps(ApplyOp(t, ops[0]), ops[1..])
  }

  /** The table after the first `n` listener calls of an emission, call `i` reacting as `react(i)`. */
  function Reacted<K(!new), L(==)>(t: Table<K, L>, n: nat, react: nat -> Reaction<K, L>): Table<K, L> {
    if n == 0 then t else ApplyOps(Reacted(t, n - 1, react), react(n - 1).ops)
  }

  /** A listener that leaves the table alone and returns normally. */
  function Quiet<K(!new), L>(i: nat): Reaction<K, L> {
    Reaction([], false)
  }

  lemma {:induction false} QuietLeavesTable<K(!new), L>(t: Table<K, L>, n: nat)
    ensures Reacted(t, n, Quiet) == t
  {
    if n > 0 {
      QuietLeavesTable(t, n - 1);
    }
  }

  /** One subscription: a listener for an event name. */
  datatype Subscription<K(!new), L> = Sub(name: K, listener: L)

  function Names<K(!new), L>(subs: seq<Subscription<K, L>>): set<K> {
    set i | 0 <= i < |subs| :: subs[i].name
  }

  function Subscribers<K(!new), L>(subs: seq<Subscription<K, L>>): set<L> {
    set i | 0 <= i < |subs| :: subs[i].listener
  }

  lemma TailSubscriptions<K(!new), L>(subs: seq<Subscription<K, L>>)
    requires subs != []
    ensures Names(subs[1..]) <= Names(subs)
    ensures Subscribers(subs[1..]) <= Subscribers(subs)
  {
    forall n | n in Names(subs[1..]) ensures n in Names(subs) {
      var j :| 0 <= j < |subs[1..]| && subs[1..][j].name == n;
      assert subs[j + 1].name == n;
    }
    forall x | x in Subscribers(subs[1..]) ensures x in Subscribers(subs) {
      var j :| 0 <= j < |subs[1..]| && subs[1..][j].listener == x;
      assert subs[j + 1].listener == x;
    }
  }

  /** `on` for each subscription in turn. */
  function AddEach<K(!new), L>(t: Table<K, L>, subs: seq<Subscription<K, L>>): Table<K, L>
    decreases |subs|
  {
    if subs == [] then t else AddEach(Add(t, subs[0].name, subs[0].listener), subs[1..])
  }

  /** `off` for each subscription in turn. */
  function RemoveEach<K(!new), L(==)>(t: Table<K, L>, subs: seq<Subscription<K, L>>): Table<K, L>
    decreases |subs|
  {
    if subs == [] then t else RemoveEach(Remove(t, subs[0].name, subs[0].listener), subs[1..])
  }

  /** Subscribing puts each listener in its event's list and touches no other event. */
  lemma {:induction false} AddEachSubscribes<K(!new), L>(t: Table<K, L>, subs: seq<Subscription<K, L>>)
    ensures forall i :: 0 <= i < |subs| ==> subs[i].listener in ListenersOf(AddEach(t, subs), subs[i].name)
    ensures forall n :: n !in Names(subs) ==> ListenersOf(AddEach(t, subs), n) == ListenersOf(t, n)
    decreases |subs|
  {
    if subs != [] {
      var t' := Add(t, subs[0].name, subs[0].listener);
      AddEachSubscribes(t', subs[1..]);
      TailSubscriptions(subs);
      AddEachKeeps(t', subs[1..], subs[0].name, subs[0].listener);
      forall i | 0 <= i < |subs|
        ensures subs[i].listener in ListenersOf(AddEach(t, subs), subs[i].name)
      {
        if i > 0 {
          assert subs[i] == subs[1..][i - 1];
        }
      }
      forall n | n !in Names(subs)
        ensures ListenersOf(AddEach(t, subs), n) == ListenersOf(t, n)
      {
        assert n != subs[0].name;
      }
    }
  }

  /** Later `on` calls never drop a listener that is already registered. */
  lemma {:induction false} AddEachKeeps<K(!new), L>(t: Table<K, L>, subs: seq<Subscription<K, L>>, name: K, l: L)
    requires l in ListenersOf(t, name)
    ensures l in ListenersOf(AddEach(t, subs), name)
    decreases |subs|
  {
    if subs != [] {
      AddEachKeeps(Add(t, subs[0].name, subs[0].listener), subs[1..], name, l);
    }
  }

  /**
   * Unsubscribing removes each subscribed listener from its event's list,
   * keeps every other listener of every list, and touches no other event.
   */
  lemma {:induction false} RemoveEachUnsubscribes<K(!new), L>(t: Table<K, L>, subs: seq<Subscription<K, L>>)
    ensures forall i :: 0 <= i < |subs| ==> subs[i].listener !in ListenersOf(RemoveEach(t, subs), subs[i].name)
    ensures forall n, x :: x !in Subscribers(subs) ==>
      (x in ListenersOf(RemoveEach(t, subs), n) <==> x in ListenersOf(t, n))
    ensures forall n :: n !in Names(subs) ==> ListenersOf(RemoveEach(t, subs), n) == ListenersOf(t, n)
    decreases |subs|
  {
    if subs != [] {
      var t' := Remove(t, subs[0].name, subs[0].listener);
      RemoveEachUnsubscribes(t', subs[1..]);
      TailSubscriptions(subs);
      RemoveEachKeepsOut(t', subs[1..], subs[0].name, subs[0].listener);
      forall i | 0 <= i < |subs|
        ensures subs[i].listener !in ListenersOf(RemoveEach(t, subs), subs[i].name)
      {
        if i > 0 {
          assert subs[i] == subs[1..][i - 1];
        }
      }
      forall n, x | x !in Subscribers(subs)
        ensures x in ListenersOf(RemoveEach(t, subs), n) <==> x in ListenersOf(t, n)
      {
        assert x != subs[0].listener;
      }
      forall n | n !in Names(subs)
        ensures ListenersOf(RemoveEach(t, subs), n) == ListenersOf(t, n)
      {
        assert n != subs[0].name;
      }
    }
  }

  /** Later `off` calls never bring a removed listener back. */
  lemma {:induction false} RemoveEachKeepsOut<K(!new), L>(t: Table<K, L>, subs: seq<Subscription<K, L>>, name: K, l: L)
    requires l !in ListenersOf(t, name)
    ensures l !in ListenersOf(RemoveEach(t, subs), name)
    decreases |subs|
  {
    if subs != [] {
      RemoveEachKeepsOut(Remove(t, subs[0].name, subs[0].listener), subs[1..], name, l);
    }
  }

  /**
   * An emission whose listeners do not touch the table (every endpoint
   * model's own emissions: the listeners' bodies are the other endpoints'
   * handlers, which the session scenarios run in emission order).
   */
  method EmitQuiet<L(==)>(bus: EventEmitter<L>, ev: BusEvent)
    modifies bus
    ensures bus.listeners == old(bus.listeners)
    ensures bus.log == old(bus.log) + [ev]
  {
    var called := bus.Emit(ev, Quiet);
    QuietLeavesTable(old(bus.listeners), |called|);
  }

  /**
   * The bus.  `log` records every emission in order; it is the observable
   * output of the bus that the endpoint models state their contracts over.
   */
  class EventEmitter<L(==)> {
    var listeners: Table<EventName, L>
    var log: seq<BusEvent>

    constructor ()
      ensures listeners == map[] && log == []
    {
      listeners := map[];
      log := [];
    }

    method On(name: EventName, listener: L)
      modifies this
      ensures listeners == Add(old(listeners), name, listener)
      ensures log == old(log)
    {
      var list := ListenersOf(listeners, name);
      list := list + [listener];
      listeners := listeners[name := list];
    }

    method Off(name: EventName, listener: L)
      modifies this
      ensures listeners == Remove(old(listeners), name, listener)
      ensures log == old(log)
    {
      if name in listeners {
        listeners := listeners[name := Without(listeners[name], listener)];
      }
    }

    /**
     * `emit`: calls, in registration order, the listeners registered for the
     * event when `emit` starts.  Call `i` may change the table and may throw
     * (`react(i)`); neither changes who is called, since the loop runs over a
     * snapshot and each call is wrapped in its own try/catch.
     */
    method Emit(ev: BusEvent, react: nat -> Reaction<EventName, L>) returns (called: seq<L>)
      modifies this
      ensures called == ListenersOf(old(listeners), ev.name)
      ensures listeners == Reacted(old(listeners), |called|, react)
      ensures log == old(log) + [ev]
    {
      log := log + [ev];
      called := [];
      var snapshot := ListenersOf(listeners, ev.name);
      ghost var start := listeners;
      var i := 0;
      while i < |snapshot|
        invariant 0 <= i <= |snapshot|
        invariant |called| == i && forall j :: 0 <= j < i ==> called[j] == snapshot[j]
        invariant listeners == Reacted(start, i, react)
        invariant log == old(log) + [ev]
      {
        called := called + [snapshot[i]];
        var outcome := react(i);
        listeners := ApplyOps(listeners, outcome.ops);
        // outcome.throws: the exception is caught and logged; the loop goes on
        i := i + 1;
      }
      assert called == snapshot;
    }

    method RemoveAllListeners(name: Option<EventName>)
      modifies this
      ensures listeners == RemoveKey(old(listeners), name)
      ensures log == old(log)
    {
      match name {
        case Some(n) => listeners := listeners - {n};
        case None => listeners := map[];
      }
    }
  }
}
