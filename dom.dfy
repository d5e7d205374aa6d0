/** The part of the DOM event API the hooks use: an event target holding an
    ordered list of registered listeners. A listener is identified by its event
    type and by the identity of its handler closure, as `removeEventListener`
    matches them. */
module Dom {

  datatype EventType = MouseMove | MouseLeave | Scroll

  datatype Listener = Listener(event: EventType, handler: nat)

  /** `s` with every registration of `l` taken out, order otherwise kept. */
  function Without(s: seq<Listener>, l: Listener): (r: seq<Listener>)
    ensures forall m :: m in r <==> m in s && m != l
    ensures |r| <= |s|
  {
    if s == [] then [] else (if s[0] == l then [] else [s[0]]) + Without(s[1..], l)
  }

  lemma {:induction false} WithoutAbsent(s: seq<Listener>, l: Listener)
    requires l !in s
    ensures Without(s, l) == s
  {
    if s != [] {
      WithoutAbsent(s[1..], l);
    }
  }

  lemma {:induction false} WithoutConcat(s: seq<Listener>, t: seq<Listener>, l: Listener)
    ensures Without(s + t, l) == Without(s, l) + Without(t, l)
  {
    if s != [] {
      assert (s + t)[1..] == s[1..] + t;
      WithoutConcat(s[1..], t, l);
    } else {
      assert s + t == t;
    }
  }

  /** Removing the listeners a mount appended, in the order it appended them,
      gives back the registrations that were there before the mount. */
  lemma UndoAppend(s: seq<Listener>, a: Listener, b: Listener)
    requires a != b && a !in s && b !in s
    ensures Without(Without(s + [a, b], a), b) == s
    ensures Without(s + [a], a) == s
  {
    WithoutConcat(s, [a, b], a);
    WithoutAbsent(s, a);
    assert Without([a, b], a) == [b];
    WithoutConcat(s, [b], b);
    WithoutAbsent(s, b);
    WithoutConcat(s, [a], a);
  }

  class EventTarget {
    var listeners: seq<Listener>

    constructor ()
      ensures listeners == []
    {
      listeners := [];
    }

    /** `addEventListener`: registering the same listener again has no effect. */
    method AddEventListener(l: Listener)
      modifies this
      ensures listeners == if l in old(listeners) then old(listeners) else old(listeners) + [l]
    {
      if l !in listeners {
        listeners := listeners + [l];
      }
    }

    /** `removeEventListener`: removing a listener that is not registered has no effect. */
    method RemoveEventListener(l: Listener)
      modifies this
      ensures listeners == Without(old(listeners), l)
      ensures l !in old(listeners) ==> listeners == old(listeners)
    {
      if l !in listeners {
        WithoutAbsent(listeners, l);
      }
      listeners := Without(listeners, l);
    }
  }
}
