/** The in-memory event bus: a map of shared listener sets that subscriptions hold on to. */
module EventBus {

  /** A listener function, by identity. */
  type Listener = nat

  const EVERY_RUN := "*"

  // ----- A JavaScript Set, in the order it is walked -----

  predicate NoTwice(s: seq<Listener>) {
    forall i, j :: 0 <= i < j < |s| ==> s[i] != s[j]
  }

  function Add(s: seq<Listener>, l: Listener): seq<Listener> {
    if l in s then s else s + [l]
  }

  function Remove(s: seq<Listener>, l: Listener): seq<Listener> {
    if s == [] then []
    else Remove(s[..|s| - 1], l) + if s[|s| - 1] == l then [] else [s[|s| - 1]]
  }

  lemma {:induction false} RemoveFacts(s: seq<Listener>, l: Listener)
    requires NoTwice(s)
    ensures NoTwice(Remove(s, l))
    ensures forall k :: k in Remove(s, l) <==> k in s && k != l
    ensures l !in s ==> Remove(s, l) == s
  {
    if s != [] {
      var init, last := s[..|s| - 1], s[|s| - 1];
      RemoveFacts(init, l);
      assert s == init + [last];
      assert last !in init;
    }
  }

  lemma EmptySet()
    ensures NoTwice([])
  {}

  lemma {:induction false} RemoveEmpty(s: seq<Listener>, l: Listener)
    ensures Remove(s, l) == [] <==> forall k :: k in s ==> k == l
  {
    if s != [] {
      var init, last := s[..|s| - 1], s[|s| - 1];
      RemoveEmpty(init, l);
      assert s == init + [last];
      assert forall k :: k in s <==> k in init || k == last;
      assert Remove(s, l) == Remove(init, l) + if last == l then [] else [last];
      assert last in s;
    }
  }

  lemma NothingToRemove(l: Listener)
    ensures Remove([], l) == []
  {}

  lemma AddFacts(s: seq<Listener>, l: Listener)
    requires NoTwice(s)
    ensures NoTwice(Add(s, l)) && Add(s, l) != []
  {}

  /** Unsubscribing undoes subscribing. */
  lemma OffUndoes(s: seq<Listener>, l: Listener)
    requires NoTwice(s) && l !in s
    ensures Remove(Add(s, l), l) == s
  {
    assert (s + [l])[..|s|] == s;
    RemoveFacts(s, l);
  }

  class ListenerSet {
    var members: seq<Listener>

    constructor ()
      ensures members == []
    {
      members := [];
    }
  }

  /** What the unsubscribe function closes over. */
  datatype Subscription = Subscription(run: string, listeners: ListenerSet, listener: Listener)

  class InMemoryEventBus {
    var listeners: map<string, ListenerSet>
    /** Every set ever handed to a subscription, and the run it belongs to. */
    ghost var issued: map<ListenerSet, string>

    ghost predicate InUse(s: ListenerSet)
      requires s in issued
      reads this
    {
      issued[s] in listeners && listeners[issued[s]] == s
    }

    /** Sets are not shared between runs, and the ones in the map have members. */
    ghost predicate Valid()
      reads this, issued.Keys
    {
      && (forall run :: run in listeners ==> listeners[run] in issued && issued[listeners[run]] == run)
      && (forall s :: s in issued ==> NoTwice(s.members) && (InUse(s) ==> s.members != []))
    }

    /** The sets in the map are exactly the ones that have members. */
    ghost predicate Clean()
      reads this, issued.Keys
    {
      forall s :: s in issued ==> (InUse(s) <==> s.members != [])
    }

    /** The listeners of a run, in the order they are called. */
    ghost function Hearing(run: string): seq<Listener>
      reads this, listeners.Values
    {
      if run in listeners then listeners[run].members else []
    }

    ghost predicate Issued(sub: Subscription)
      reads this
    {
      sub.listeners in issued && issued[sub.listeners] == sub.run
    }

    constructor ()
      ensures Valid() && Clean() && fresh(this) && issued == map[] && listeners == map[]
    {
      listeners, issued := map[], map[];
    }

    /** The run's set, or a new one. */
    method SetOf(run: string) returns (s: ListenerSet)
      requires Valid()
      modifies this`issued
      ensures Valid() && (old(Clean()) ==> Clean()) && s in issued && issued[s] == run && s.members == Hearing(run)
      ensures if run in listeners then s == listeners[run] && issued == old(issued)
              else fresh(s) && issued == old(issued)[s := run]
    {
      EmptySet();
      if run in listeners { return listeners[run]; }
      s := new ListenerSet();
      issued := issued[s := run];
    }

    /** The listener joins the run's set, and the set is in the map. */
    method Join(run: string, s: ListenerSet, listener: Listener)
      requires Valid() && s in issued && issued[s] == run && s.members == Hearing(run)
      requires run in listeners ==> listeners[run] == s
      modifies this`listeners, s
      ensures Valid() && Hearing(run) == Add(old(Hearing(run)), listener) && listeners == old(listeners)[run := s]
      ensures forall other :: other != run ==> Hearing(other) == old(Hearing(other))
      ensures old(Clean()) ==> Clean()
    {
      hide NoTwice;
      AddFacts(s.members, listener);
      if listener !in s.members { s.members := s.members + [listener]; }
      listeners := listeners[run := s];
    }

    method Subscribe(run: string, listener: Listener) returns (sub: Subscription)
      requires Valid()
      modifies this, if run in listeners then {listeners[run]} else {}
      ensures Valid() && Hearing(run) == Add(old(Hearing(run)), listener)
      ensures forall other :: other != run ==> Hearing(other) == old(Hearing(other))
      ensures sub.run == run && sub.listener == listener && Issued(sub)
              && listeners == old(listeners)[run := sub.listeners]
      ensures forall s :: s in old(issued) ==> s in issued && issued[s] == old(issued)[s]
      ensures if run in old(listeners) then sub.listeners == old(listeners)[run] else fresh(sub.listeners)
      ensures old(Clean()) ==> Clean()
    {
      hide NoTwice, Add, Clean;
      var s := SetOf(run);
      Join(run, s, listener);
      sub := Subscription(run, s, listener);
    }

    /**
     * Unsubscribing takes out the one listener. Through a set that is no longer in the map it takes
     * out nobody, or, if that set is empty afterwards, everybody who has subscribed to the run since.
     * On a clean bus it is right exactly when the set still had members or nobody else was listening,
     * and it leaves the bus clean when the listener was still in its set.
     */
    method Off(sub: Subscription)
      requires Valid() && Issued(sub)
      modifies this, sub.listeners
      ensures Valid() && issued == old(issued)
      ensures sub.listeners.members == Remove(old(sub.listeners.members), sub.listener)
      ensures listeners == if sub.listeners.members == [] then old(listeners) - {sub.run} else old(listeners)
      ensures Hearing(sub.run) == if old(InUse(sub.listeners)) then Remove(old(Hearing(sub.run)), sub.listener)
                                  else if sub.listeners.members == [] then []
                                  else old(Hearing(sub.run))
      ensures forall other :: other != sub.run ==> Hearing(other) == old(Hearing(other))
      ensures old(Clean()) && sub.listener in old(sub.listeners.members) ==> Clean()
      ensures old(Clean()) ==>
                (Hearing(sub.run) == Remove(old(Hearing(sub.run)), sub.listener)
                 <==> old(sub.listeners.members) != [] || forall l :: l in old(Hearing(sub.run)) ==> l == sub.listener)
    {
      hide NoTwice, Remove;
      RemoveFacts(sub.listeners.members, sub.listener);
      RemoveEmpty(Hearing(sub.run), sub.listener);
      NothingToRemove(sub.listener);
      sub.listeners.members := Remove(sub.listeners.members, sub.listener);
      if sub.listeners.members == [] { listeners := listeners - {sub.run}; }
    }

    /** The listeners called, in order; one that throws does not keep the others from being called. */
    method Publish(run: string) returns (called: seq<Listener>)
      requires Valid()
      ensures called == Hearing(run) + Hearing(EVERY_RUN)
    {
      called := Deliver(run);
      var rest := Deliver(EVERY_RUN);
      called := called + rest;
    }

    method Deliver(key: string) returns (called: seq<Listener>)
      ensures called == Hearing(key)
    {
      called := [];
      if key !in listeners { return; }
      var s := listeners[key];
      for j := 0 to |s.members|
        invariant called == s.members[..j]
      {
        called := called + [s.members[j]];
      }
      assert s.members[..|s.members|] == s.members;
    }
  }

  /** A bus whose one listener of the run has come and gone. */
  method Left(run: string, first: Listener) returns (bus: InMemoryEventBus, a: Subscription)
    ensures fresh(bus) && fresh(a.listeners) && bus.Valid() && bus.Issued(a) && a.run == run && a.listener == first
    ensures a.listeners.members == [] && bus.listeners == map[]
  {
    hide NoTwice, Remove;
    EmptySet();
    OffUndoes([], first);
    bus := new InMemoryEventBus();
    a := bus.Subscribe(run, first);
    bus.Off(a);
  }

  /** Two parties on one run: the first unsubscribes twice, and the second hears nothing any more. */
  method OffTwice(run: string, first: Listener, second: Listener) returns (called: seq<Listener>)
    requires run != EVERY_RUN
    ensures called == []
  {
    hide NoTwice, Remove;
    NothingToRemove(first);
    var bus, a := Left(run, first);
    var b := bus.Subscribe(run, second);
    bus.Off(a);
    called := bus.Publish(run);
  }

  /** A bus where one listener subscribed twice to a run and has ended one of the two. */
  method HalfLeft(run: string, listener: Listener) returns (bus: InMemoryEventBus, b: Subscription)
    ensures fresh(bus) && fresh(b.listeners) && bus.Valid() && bus.Issued(b) && b.run == run && b.listener == listener
    ensures b.listeners.members == [] && bus.listeners == map[]
  {
    hide NoTwice, Remove;
    EmptySet();
    OffUndoes([], listener);
    bus := new InMemoryEventBus();
    var a := bus.Subscribe(run, listener);
    b := bus.Subscribe(run, listener);
    bus.Off(a);
  }

  /** No unsubscribe function is called twice, and still the newcomer hears nothing: two callers shared an entry. */
  method OffShared(run: string, listener: Listener, newcomer: Listener) returns (called: seq<Listener>)
    requires run != EVERY_RUN
    ensures called == []
  {
    hide NoTwice, Remove;
    NothingToRemove(listener);
    var bus, b := HalfLeft(run, listener);
    var c := bus.Subscribe(run, newcomer);
    bus.Off(b);
    called := bus.Publish(run);
  }
}
