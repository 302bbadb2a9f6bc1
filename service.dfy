/**
 * The listener registry every service extends (`NotifiableService`).
 * Listener callbacks are foreign code: a listener is an opaque id, and a
 * notification is recorded in a ghost trace of the callbacks it invoked
 * instead of being run.
 */
module Service {

  /** An opaque listener; two ids are the same listener iff they are equal. */
  type Listener = nat

  predicate Distinct<T(==)>(s: seq<T>) {
    forall i, j :: 0 <= i < j < |s| ==> s[i] != s[j]
  }

  /** `s` with every occurrence of `x` removed, the order of the rest kept. */
  function Without(s: seq<Listener>, x: Listener): (r: seq<Listener>)
    ensures x !in r
    ensures forall y :: y in r <==> y in s && y != x
    ensures x !in s ==> r == s
  {
    if s == [] then []
    else (if s[0] == x then [] else [s[0]]) + Without(s[1..], x)
  }

  lemma {:induction false} WithoutKeepsDistinct(s: seq<Listener>, x: Listener)
    requires Distinct(s)
    ensures Distinct(Without(s, x))
    ensures x in s ==> |Without(s, x)| == |s| - 1
  {
    if s != [] {
      assert Distinct(s[1..]);
      WithoutKeepsDistinct(s[1..], x);
      assert s[0] !in s[1..] by {
        forall k | 0 <= k < |s[1..]| ensures s[1..][k] != s[0] {
          assert s[1..][k] == s[k + 1];
        }
      }
      if x in s && s[0] != x {
        assert x in s[1..];
      }
    }
  }

  class NotifiableService {
    /** The registered listeners, in the order a JavaScript `Set` iterates them
        (insertion order); a listener appears at most once. */
    var listeners: seq<Listener>
    /** Every callback invocation so far, oldest first; each receives this service. */
    ghost var calls: seq<Listener>
    /** How many times `notify` has run. */
    ghost var rounds: nat

    ghost predicate Valid()
      reads this`listeners
    {
      Distinct(listeners)
    }

    constructor ()
      ensures Valid() && listeners == [] && calls == [] && rounds == 0
    {
      listeners := [];
      calls := [];
      rounds := 0;
    }

    /** Registers `listener` unless it already is; returns it for chaining. */
    method AddListener(listener: Listener) returns (r: Listener)
      requires Valid()
      modifies this`listeners
      ensures Valid() && r == listener
      ensures listener in old(listeners) ==> listeners == old(listeners)
      ensures listener !in old(listeners) ==> listeners == old(listeners) + [listener]
    {
      if listener !in listeners {
        listeners := listeners + [listener];
      }
      r := listener;
    }

    /** Unregisters `listener`; a listener that is not registered changes nothing. */
    method RemoveListener(listener: Listener)
      requires Valid()
      modifies this`listeners
      ensures Valid()
      ensures listeners == Without(old(listeners), listener)
      ensures listener in old(listeners) ==> |listeners| == |old(listeners)| - 1
    {
      WithoutKeepsDistinct(listeners, listener);
      listeners := Without(listeners, listener);
    }

    /** Invokes every registered listener once, in registration order. */
    method Notify()
      requires Valid()
      modifies this`calls, this`rounds
      ensures Valid() && listeners == old(listeners)
      ensures calls == old(calls) + listeners
      ensures rounds == old(rounds) + 1
    {
      var i := 0;
      while i < |listeners|
        invariant 0 <= i <= |listeners|
        invariant calls == old(calls) + listeners[..i]
        invariant rounds == old(rounds)
      {
        calls := calls + [listeners[i]];
        i := i + 1;
      }
      assert listeners[..i] == listeners;
      rounds := rounds + 1;
    }

    /** Unregisters every listener. */
    method ClearListeners()
      modifies this`listeners
      ensures Valid() && listeners == []
    {
      listeners := [];
    }

    /** This service has run `notify` exactly once since the pre-state. */
    twostate predicate NotifiedOnce()
      reads this
    {
      && listeners == old(listeners)
      && calls == old(calls) + listeners
      && rounds == old(rounds) + 1
    }
  }

  /** In a sequence without repeats every element occurs once. */
  lemma {:induction false} DistinctOccursOnce(s: seq<Listener>, l: Listener)
    requires Distinct(s)
    ensures multiset(s)[l] == if l in s then 1 else 0
  {
    if s != [] {
      assert s == [s[0]] + s[1..];
      assert Distinct(s[1..]);
      DistinctOccursOnce(s[1..], l);
      if l == s[0] {
        assert l !in s[1..] by {
          forall k | 0 <= k < |s[1..]| ensures s[1..][k] != l {
            assert s[1..][k] == s[k + 1];
          }
        }
      }
    }
  }

  /** A notification invokes each registered listener exactly once and no other. */
  lemma NotificationInvokesEachOnce(registered: seq<Listener>, before: seq<Listener>, after: seq<Listener>, l: Listener)
    requires Distinct(registered)
    requires after == before + registered
    ensures multiset(after[|before|..])[l] == if l in registered then 1 else 0
  {
    assert after[|before|..] == registered;
    DistinctOccursOnce(registered, l);
  }
}
