/** The state of a unidirectional binder (`Bindable` / `WeakBindable`) as a
    value, and what each of its operations does to it. The classes in module
    Bindables are proved against these functions. */
module BindableModel {
  import opened Binding

  /** A view as a unidirectional binder sees it: its key-path attributes. */
  datatype Object<A> = Object(attrs: Attributes<A>)

  /** `view` is None only in the weak variant, after nil was assigned or the
      view was deallocated. `next` is the next unused subscription token. */
  datatype Binder<A> = Binder(view: Option<Object<A>>, cancellables: set<Sub>, next: nat)

  /** Every stored subscription writes a key path and has its own token,
      below `next`, so the token the next `bind(_:to:)` takes is fresh. */
  predicate WellFormed<A>(b: Binder<A>)
  {
    && IdsBelow(b.cancellables, b.next)
    && DistinctIds(b.cancellables)
    && forall s | s in b.cancellables :: s.kind.KeyPath?
  }

  /** `init(wrappedValue:)`: no subscriptions yet. */
  function Init<A>(view: Option<Object<A>>): (b: Binder<A>)
    ensures WellFormed(b) && b.view == view && b.cancellables == {}
  {
    Binder(view, {}, 0)
  }

  /** Assigning `wrappedValue`: only the view changes. */
  function Assign<A>(b: Binder<A>, view: Option<Object<A>>): (r: Binder<A>)
    ensures r.view == view && r.cancellables == b.cancellables
    ensures WellFormed(b) ==> WellFormed(r)
  {
    b.(view := view)
  }

  /** ARC releasing the weakly held view. */
  function Deallocate<A>(b: Binder<A>): (r: Binder<A>)
    ensures r.view == None && r.cancellables == b.cancellables
    ensures WellFormed(b) ==> WellFormed(r)
  {
    b.(view := None)
  }

  /** The subscription the next `bind(_:to:)` call stores. */
  function NewBinding<A>(b: Binder<A>, key: AttrKey, optional: bool): (s: Sub)
  {
    Sub(b.next, KeyPath(key, optional))
  }

  /** `bind(_:to:)`, either overload: stores one new subscription and keeps
      every earlier one. */
  function Bind<A>(b: Binder<A>, key: AttrKey, optional: bool): (r: Binder<A>)
    ensures r.view == b.view
    ensures r.cancellables == b.cancellables + {NewBinding(b, key, optional)}
    ensures WellFormed(b) ==> WellFormed(r) && |r.cancellables| == |b.cancellables| + 1
  {
    b.(cancellables := b.cancellables + {NewBinding(b, key, optional)}, next := b.next + 1)
  }

  /** Whether a delivery on `sub` reaches a view: the subscription is still
      stored and the view is present. */
  predicate Delivers<A>(b: Binder<A>, sub: Sub)
  {
    sub in b.cancellables && sub.kind.KeyPath? && b.view.Some?
  }

  /** The sink of a subscription receiving `v`: the key-path write into the view. */
  function Deliver<A>(b: Binder<A>, sub: Sub, v: A): (r: Binder<A>)
    ensures r.cancellables == b.cancellables && r.next == b.next
    ensures !Delivers(b, sub) ==> r == b
    ensures Delivers(b, sub) ==> r.view.Some?
  {
    if Delivers(b, sub) then
      b.(view := Some(Object(WriteAttr(b.view.value.attrs, sub.kind.key, sub.kind.optional, v))))
    else
      b
  }

  /** `unbindAll()`: drops every subscription and keeps the view. */
  function UnbindAll<A>(b: Binder<A>): (r: Binder<A>)
    ensures r.cancellables == {} && r.view == b.view
    ensures WellFormed(b) ==> WellFormed(r)
  {
    b.(cancellables := {})
  }

  /** A delivery sets the bound attribute to the value and leaves every other
      attribute as it was; the optional overload stores the value as present. */
  lemma DeliverWritesOneAttribute<A>(b: Binder<A>, sub: Sub, v: A)
    requires Delivers(b, sub)
    ensures var before, after := b.view.value.attrs, Deliver(b, sub, v).view.value.attrs;
      && after.Keys == before.Keys + {sub.kind.key}
      && after[sub.kind.key] == (if sub.kind.optional then Optional(Some(v)) else Plain(v))
      && forall k | k in before && k != sub.kind.key :: after[k] == before[k]
  {
  }

  lemma UnbindAllIdempotent<A>(b: Binder<A>)
    ensures UnbindAll(UnbindAll(b)) == UnbindAll(b)
  {
  }

  /** Once unbound, no former binding can change the view. */
  lemma DeliverAfterUnbindAll<A>(b: Binder<A>, sub: Sub, v: A)
    ensures Deliver(UnbindAll(b), sub, v) == UnbindAll(b)
  {
  }

  /** With the weak view gone, a delivery changes nothing. */
  lemma DeliverWithoutView<A>(b: Binder<A>, sub: Sub, v: A)
    requires b.view.None?
    ensures Deliver(b, sub, v) == b
  {
  }

  /** The operations a client (or ARC, or a publisher) can apply. */
  datatype Event<A> =
    | Assigned(view: Option<Object<A>>)
    | Deallocated
    | Bound(key: AttrKey, optional: bool)
    | Delivered(sub: Sub, value: A)
    | AllUnbound

  function Step<A>(b: Binder<A>, e: Event<A>): (r: Binder<A>)
  {
    match e
    case Assigned(view) => Assign(b, view)
    case Deallocated => Deallocate(b)
    case Bound(key, optional) => Bind(b, key, optional)
    case Delivered(sub, v) => Deliver(b, sub, v)
    case AllUnbound => UnbindAll(b)
  }

  /** The binder after the events `es`, applied in order. */
  function Run<A>(b: Binder<A>, es: seq<Event<A>>): (r: Binder<A>)
    ensures WellFormed(b) ==> WellFormed(r)
    decreases |es|
  {
    if es == [] then b else Step(Run(b, es[..|es| - 1]), es[|es| - 1])
  }

  /** Every event except `unbindAll` keeps all stored subscriptions. */
  lemma StepKeeps<A>(b: Binder<A>, e: Event<A>)
    requires !e.AllUnbound?
    ensures b.cancellables <= Step(b, e).cancellables
  {
  }

  /** A binding stays active through any later events, up to the next
      `unbindAll`: earlier bindings are never replaced by later ones. */
  lemma {:induction false} BindingStaysActive<A>(b: Binder<A>, es: seq<Event<A>>, i: nat)
    requires i < |es| && es[i].Bound?
    requires forall j | i < j < |es| :: !es[j].AllUnbound?
    ensures NewBinding(Run(b, es[..i]), es[i].key, es[i].optional) in Run(b, es).cancellables
  {
    var last := |es| - 1;
    assert es[..last][..i] == es[..i] by { assert i <= last; }
    if i < last {
      BindingStaysActive(b, es[..last], i);
      StepKeeps(Run(b, es[..last]), es[last]);
    } else {
      assert es[..last] == es[..i];
    }
  }
}
