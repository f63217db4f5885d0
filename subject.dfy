/**
 * Publish/subscribe: a `Subject` is an ordered list of observers, and a
 * `MultiSubject` keeps one `Subject` per topic, creating it when the topic
 * is first subscribed to. Observers are identities (a JavaScript function
 * compared with `!==`); calling them is recorded as the list of calls made,
 * in the order they are made.
 */
module Subjects {

  /** One observer invocation: who was called and with what. */
  datatype Call<T, M> = Call(observer: T, message: M)

  /** `s.filter(o => o !== x)`: every occurrence of `x` removed, the rest in order. */
  function Without<T(==)>(s: seq<T>, x: T): (r: seq<T>)
    ensures forall i :: 0 <= i < |r| ==> r[i] in s && r[i] != x
    ensures forall i :: 0 <= i < |s| && s[i] != x ==> s[i] in r
    ensures |r| <= |s|
  {
    if s == [] then [] else (if s[0] == x then [] else [s[0]]) + Without(s[1..], x)
  }

  /** Filtering distributes over concatenation, so the kept observers keep their relative order. */
  lemma {:induction false} WithoutAppend<T>(a: seq<T>, b: seq<T>, x: T)
    ensures Without(a + b, x) == Without(a, x) + Without(b, x)
  {
    if a == [] {
      assert a + b == b;
    } else {
      assert (a + b)[1..] == a[1..] + b;
      WithoutAppend(a[1..], b, x);
    }
  }

  /** Each other observer keeps its number of occurrences; `x` has none left. */
  lemma {:induction false} WithoutMultiset<T>(s: seq<T>, x: T)
    ensures multiset(Without(s, x)) == multiset(s)[x := 0]
  {
    if s != [] {
      WithoutMultiset(s[1..], x);
      assert s == [s[0]] + s[1..];
    }
  }

  /** Removing an observer that is not subscribed changes nothing. */
  lemma {:induction false} WithoutAbsent<T>(s: seq<T>, x: T)
    requires x !in s
    ensures Without(s, x) == s
  {
    if s != [] {
      WithoutAbsent(s[1..], x);
    }
  }

  /** Unsubscribing twice is the same as unsubscribing once. */
  lemma WithoutIdempotent<T>(s: seq<T>, x: T)
    ensures Without(Without(s, x), x) == Without(s, x)
  {
    WithoutAbsent(Without(s, x), x);
  }

  /** Subscribing and then unsubscribing the same observer leaves the others as they were. */
  lemma SubscribeThenUnsubscribe<T>(s: seq<T>, x: T)
    ensures Without(s + [x], x) == Without(s, x)
  {
    WithoutAppend(s, [x], x);
    assert [x][1..] == [];
  }

  /** The calls `observers.forEach(o => o(message))` makes. */
  function Broadcast<T, M>(observers: seq<T>, message: M): seq<Call<T, M>> {
    seq(|observers|, i requires 0 <= i < |observers| => Call(observers[i], message))
  }

  /** Calls every observer once per occurrence in the list, in list order. */
  method Notify<T, M>(observers: seq<T>, message: M) returns (calls: seq<Call<T, M>>)
    ensures |calls| == |observers|
    ensures forall i :: 0 <= i < |observers| ==> calls[i] == Call(observers[i], message)
  {
    calls := [];
    for i := 0 to |observers|
      invariant |calls| == i
      invariant forall j :: 0 <= j < i ==> calls[j] == Call(observers[j], message)
    {
      calls := calls + [Call(observers[i], message)];
    }
  }

  /** The calls made are exactly `Broadcast`'s, so a method that states its trace as `Broadcast` states it pointwise. */
  lemma BroadcastIsNotify<T, M>(observers: seq<T>, message: M, calls: seq<Call<T, M>>)
    requires |calls| == |observers|
    requires forall i :: 0 <= i < |observers| ==> calls[i] == Call(observers[i], message)
    ensures calls == Broadcast(observers, message)
  {
  }

  class Subject<T(==)> {
    var observers: seq<T>

    constructor ()
      ensures observers == []
    {
      observers := [];
    }

    method Subscribe(observer: T)
      modifies this
      ensures observers == old(observers) + [observer]
    {
      observers := observers + [observer];
    }

    method Unsubscribe(observer: T)
      modifies this
      ensures observers == Without(old(observers), observer)
    {
      observers := Without(observers, observer);
    }

    method Emit<M>(message: M) returns (calls: seq<Call<T, M>>)
      ensures |calls| == |observers|
      ensures forall i :: 0 <= i < |observers| ==> calls[i] == Call(observers[i], message)
    {
      calls := Notify(observers, message);
    }
  }

  class MultiSubject<T(==)> {
    var subjects: map<string, Subject<T>>
    ghost var Repr: set<object>

    /** Every topic has its own `Subject`. */
    ghost predicate Valid()
      reads this, Repr
    {
      (forall e :: e in subjects ==> subjects[e] in Repr) &&
      (forall e, f :: e in subjects && f in subjects && e != f ==> subjects[e] != subjects[f])
    }

    /** The observer list of every topic created so far. */
    ghost function Topics(): map<string, seq<T>>
      reads this, Repr
      requires Valid()
    {
      map e | e in subjects :: subjects[e].observers
    }

    constructor ()
      ensures Valid() && fresh(Repr) && Topics() == map[]
    {
      subjects := map[];
      Repr := {};
    }

    method Subscribe(event: string, observer: T)
      requires Valid()
      modifies this, Repr
      ensures Valid() && fresh(Repr - old(Repr))
      ensures Topics() == old(Topics())[event :=
        (if event in old(Topics()) then old(Topics())[event] else []) + [observer]]
    {
      if event !in subjects {
        var s := new Subject<T>();
        subjects := subjects[event := s];
        Repr := Repr + {s};
      }
      subjects[event].Subscribe(observer);
    }

    method Unsubscribe(event: string, observer: T)
      requires Valid()
      modifies Repr
      ensures Valid() && Repr == old(Repr) && subjects == old(subjects)
      ensures Topics() == if event in old(Topics())
                          then old(Topics())[event := Without(old(Topics())[event], observer)]
                          else old(Topics())
    {
      if event !in subjects {
        return;
      }
      subjects[event].Unsubscribe(observer);
    }

    method Emit<M>(event: string, message: M) returns (calls: seq<Call<T, M>>)
      requires Valid()
      ensures event !in Topics() ==> calls == []
      ensures event in Topics() ==> |calls| == |Topics()[event]|
      ensures event in Topics() ==>
                forall i :: 0 <= i < |calls| ==> calls[i] == Call(Topics()[event][i], message)
    {
      calls := [];
      if event in subjects {
        calls := subjects[event].Emit(message);
      }
    }
  }
}
