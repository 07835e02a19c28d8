/**
  The life cycle of an event subscription (src/event_listener.rs).

  A host event source keeps the JavaScript functions added to it. An
  `EventListener` adds its callback on construction and owns it; dropping
  the listener removes the callback again, but only while the listener
  still owns it; `forget` gives ownership up, leaks the closure, and leaves
  the callback registered for good.
 */
module EventListeners {
  import opened Prelude

  /**
    A wasm-bindgen `Closure`: a JavaScript function object that wraps a Rust
    callback. Each one is a distinct object, so the host tells them apart by
    identity.
   */
  class Closure<F> {
    const body: F
    /** Set by `Closure::forget`: the function is never freed. */
    var leaked: bool

    /** `Closure::new`. */
    constructor (body: F)
      ensures this.body == body && !leaked
    {
      this.body := body;
      leaked := false;
    }

    /** `Closure::forget`. */
    method Forget()
      modifies this
      ensures leaked
    {
      leaked := true;
    }
  }

  /**
    A host event source (`web_extensions_sys::EventTarget`). Its state is the
    multiset of functions currently added to it; the host's own add and
    remove are foreign calls, modelled as adding and removing one occurrence.
   */
  class HostTarget {
    var registrations: multiset<object>

    constructor ()
      ensures registrations == multiset{}
    {
      registrations := multiset{};
    }

    /** `addListener` of the host. */
    method AddListener(f: object)
      modifies this
      ensures registrations == old(registrations) + multiset{f}
    {
      registrations := registrations + multiset{f};
    }

    /** `removeListener` of the host. */
    method RemoveListener(f: object)
      modifies this
      ensures registrations == old(registrations) - multiset{f}
    {
      registrations := registrations - multiset{f};
    }
  }

  class EventListener<F> {
    const target: HostTarget
    /** `Some` while the listener owns its callback; emptied by `forget`. */
    var callback: Option<Closure<F>>

    /** The listener owns a callback that is registered on its target. */
    ghost predicate Owns()
      reads this, target
    {
      callback.Some? && callback.value in target.registrations
    }

    /**
      `raw_new`: registers the callback on the target once more and owns it.
     */
    constructor RawNew(target: HostTarget, callback: Closure<F>)
      modifies target
      ensures this.target == target && this.callback == Some(callback)
      ensures target.registrations == old(target.registrations) + multiset{callback}
      ensures Owns()
    {
      target.AddListener(callback);
      this.target := target;
      this.callback := Some(callback);
    }

    /**
      `new`: wraps the callback in a fresh closure and behaves as `raw_new`
      on the same target.
     */
    static method New(target: HostTarget, body: F) returns (l: EventListener<F>)
      modifies target
      ensures fresh(l) && l.target == target
      ensures l.callback.Some? && fresh(l.callback.value)
      ensures l.callback.value.body == body && !l.callback.value.leaked
      ensures target.registrations == old(target.registrations) + multiset{l.callback.value}
      ensures l.Owns()
    {
      var c := new Closure(body);
      l := new EventListener.RawNew(target, c);
    }

    /**
      `Drop::drop`: if the listener still owns its callback, exactly that
      callback is removed from exactly its target; otherwise nothing changes.
      The listener itself is not changed.
     */
    method Drop()
      modifies target
      ensures callback.Some? ==> target.registrations == old(target.registrations) - multiset{callback.value}
      ensures callback.None? ==> target.registrations == old(target.registrations)
    {
      if callback.Some? {
        target.RemoveListener(callback.value);
      }
    }

    /**
      `forget`: takes the callback out of the listener, leaks it, and then
      drops the listener (it is consumed by value), which now removes
      nothing: the callback stays registered.
     */
    method Forget()
      modifies this, target, (if callback.Some? then {callback.value} else {})
      ensures callback.None?
      ensures target.registrations == old(target.registrations)
      ensures old(callback).Some? ==> old(callback).value.leaked
    {
      var taken := callback;
      callback := None;
      if taken.Some? {
        taken.value.Forget();
      }
      Drop();
    }
  }

  /**
    Two subscriptions on one target: the one that is forgotten stays
    registered, the one that is dropped is removed, and no other
    registration of the target is touched.
   */
  method ForgetOneDropOther<F>(target: HostTarget, kept: F, removed: F)
    returns (forgotten: Closure<F>)
    modifies target
    ensures target.registrations == old(target.registrations) + multiset{forgotten}
    ensures forgotten.body == kept && forgotten.leaked
  {
    var a := EventListener.New(target, kept);
    var b := EventListener.New(target, removed);
    forgotten := a.callback.value;
    a.Forget();
    b.Drop();
    assert b.callback.value != forgotten;
    assert target.registrations == old(target.registrations) + multiset{forgotten};
  }
}
