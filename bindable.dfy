/** The property wrappers `Bindable` (strong view) and `WeakBindable` (weak
    view). Each publisher bound with `bind(_:to:)` keeps one subscription in
    `cancellables`; a delivery on it writes one key path of the view. Each
    method is proved to perform one step of BindableModel. */
module Bindables {
  import opened Binding
  import opened BindableModel

  class Bindable<A> {
    var wrappedValue: Object<A>
    var cancellables: set<Sub>
    var nextToken: nat  // identity of the next `AnyCancellable`

    ghost function State(): Binder<A>
      reads this
    {
      Binder(Some(wrappedValue), cancellables, nextToken)
    }

    ghost predicate Valid()
      reads this
    {
      WellFormed(State())
    }

    constructor (wrappedValue: Object<A>)
      ensures Valid() && State() == Init(Some(wrappedValue))
      ensures this.wrappedValue == wrappedValue && cancellables == {}
    {
      this.wrappedValue := wrappedValue;
      cancellables := {};
      nextToken := 0;
    }

    /** Assigning `wrappedValue`; a stored property without observers. */
    method SetWrappedValue(view: Object<A>)
      requires Valid()
      modifies this
      ensures Valid() && State() == Assign(old(State()), Some(view))
      ensures wrappedValue == view && cancellables == old(cancellables)
    {
      wrappedValue := view;
    }

    /** `bind(_:to:)` for a key path of plain type. */
    method Bind(key: AttrKey)
      requires Valid()
      modifies this
      ensures Valid() && State() == BindableModel.Bind(old(State()), key, false)
      ensures cancellables == old(cancellables) + {Sub(old(nextToken), KeyPath(key, false))}
      ensures |cancellables| == |old(cancellables)| + 1 && wrappedValue == old(wrappedValue)
    {
      cancellables := cancellables + {Sub(nextToken, KeyPath(key, false))};
      nextToken := nextToken + 1;
    }

    /** `bind(_:to:)` for a key path of optional type. */
    method BindOptional(key: AttrKey)
      requires Valid()
      modifies this
      ensures Valid() && State() == BindableModel.Bind(old(State()), key, true)
      ensures cancellables == old(cancellables) + {Sub(old(nextToken), KeyPath(key, true))}
      ensures |cancellables| == |old(cancellables)| + 1 && wrappedValue == old(wrappedValue)
    {
      cancellables := cancellables + {Sub(nextToken, KeyPath(key, true))};
      nextToken := nextToken + 1;
    }

    /** The sink of subscription `sub` receiving `v`: `wrappedValue[keyPath: k] = v`. */
    method Deliver(sub: Sub, v: A)
      requires Valid()
      modifies this
      ensures Valid() && State() == BindableModel.Deliver(old(State()), sub, v)
      ensures cancellables == old(cancellables)
      ensures sub in cancellables ==>
        wrappedValue.attrs == WriteAttr(old(wrappedValue.attrs), sub.kind.key, sub.kind.optional, v)
      ensures sub !in cancellables ==> wrappedValue == old(wrappedValue)
    {
      if sub in cancellables {
        wrappedValue := wrappedValue.(attrs := WriteAttr(wrappedValue.attrs, sub.kind.key, sub.kind.optional, v));
      }
    }

    method UnbindAll()
      requires Valid()
      modifies this
      ensures Valid() && State() == BindableModel.UnbindAll(old(State()))
      ensures cancellables == {} && wrappedValue == old(wrappedValue)
    {
      cancellables := {};
    }
  }

  class WeakBindable<A> {
    var view: Option<Object<A>>  // a weak reference: None once released
    var cancellables: set<Sub>
    var nextToken: nat

    ghost function State(): Binder<A>
      reads this
    {
      Binder(view, cancellables, nextToken)
    }

    ghost predicate Valid()
      reads this
    {
      WellFormed(State())
    }

    constructor (wrappedValue: Option<Object<A>>)
      ensures Valid() && State() == Init(wrappedValue)
      ensures view == wrappedValue && cancellables == {}
    {
      view := wrappedValue;
      cancellables := {};
      nextToken := 0;
    }

    /** The `wrappedValue` getter: the view the binder holds, or None once
        nil was assigned or the view was released. */
    function WrappedValue(): (v: Option<Object<A>>)
      reads this
      ensures v == State().view
    {
      view
    }

    /** The `wrappedValue` setter: stores the view and touches nothing else. */
    method SetWrappedValue(newValue: Option<Object<A>>)
      requires Valid()
      modifies this
      ensures Valid() && State() == Assign(old(State()), newValue)
      ensures WrappedValue() == newValue && cancellables == old(cancellables)
    {
      view := newValue;
    }

    /** ARC releasing the view: the weak reference reads nil from now on. */
    method Deallocate()
      requires Valid()
      modifies this
      ensures Valid() && State() == BindableModel.Deallocate(old(State()))
      ensures WrappedValue() == None && cancellables == old(cancellables)
    {
      view := None;
    }

    method Bind(key: AttrKey)
      requires Valid()
      modifies this
      ensures Valid() && State() == BindableModel.Bind(old(State()), key, false)
      ensures cancellables == old(cancellables) + {Sub(old(nextToken), KeyPath(key, false))}
      ensures |cancellables| == |old(cancellables)| + 1 && view == old(view)
    {
      cancellables := cancellables + {Sub(nextToken, KeyPath(key, false))};
      nextToken := nextToken + 1;
    }

    method BindOptional(key: AttrKey)
      requires Valid()
      modifies this
      ensures Valid() && State() == BindableModel.Bind(old(State()), key, true)
      ensures cancellables == old(cancellables) + {Sub(old(nextToken), KeyPath(key, true))}
      ensures |cancellables| == |old(cancellables)| + 1 && view == old(view)
    {
      cancellables := cancellables + {Sub(nextToken, KeyPath(key, true))};
      nextToken := nextToken + 1;
    }

    /** `wrappedValue?[keyPath: k] = v`: nothing happens while the view is nil. */
    method Deliver(sub: Sub, v: A)
      requires Valid()
      modifies this
      ensures Valid() && State() == BindableModel.Deliver(old(State()), sub, v)
      ensures cancellables == old(cancellables)
      ensures old(view).Some? && sub in cancellables ==>
        view == Some(Object(WriteAttr(old(view).value.attrs, sub.kind.key, sub.kind.optional, v)))
      ensures old(view).None? || sub !in cancellables ==> view == old(view)
    {
      if sub in cancellables && view.Some? {
        view := Some(view.value.(attrs := WriteAttr(view.value.attrs, sub.kind.key, sub.kind.optional, v)));
      }
    }

    method UnbindAll()
      requires Valid()
      modifies this
      ensures Valid() && State() == BindableModel.UnbindAll(old(State()))
      ensures cancellables == {} && view == old(view)
    {
      cancellables := {};
    }
  }
}
