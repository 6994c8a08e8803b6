/** Vocabulary shared by the unidirectional and the bidirectional binders:
    views as value cells, key-path attributes, and subscriptions as explicit
    tokens (each one stands for one `AnyCancellable` a binder keeps). */
module Binding {

  datatype Option<T> = None | Some(value: T)

  /** Names a writable key path of a view (for instance "text" or "isEnabled"). */
  type AttrKey = string

  /** Identity of a view object. */
  type ViewId = nat

  /** Identity of an external subject a binder can be bound to. */
  type ChannelId = nat

  /** What a key path holds: an attribute of plain type, or one of optional type. */
  datatype Slot<A> = Plain(a: A) | Optional(o: Option<A>)

  type Attributes<A> = map<AttrKey, Slot<A>>

  /** A bidirectionally bindable control: its identity, its `bindableValue`
      and its other key-path attributes. */
  datatype Control<V, A> = Control(id: ViewId, bindableValue: V, attrs: Attributes<A>)

  /** What a subscription listens to and what its sink does. */
  datatype Kind =
    | ViewChange(view: ViewId)              // the view's change publisher, feeding the relay
    | KeyPath(key: AttrKey, optional: bool) // a publisher writing one attribute of the view
    | SourceToView(channel: ChannelId)      // the bound subject writing `bindableValue`
    | RelayToSource(channel: ChannelId)     // the relay sending into the bound subject

  /** One subscription: its token (distinct within its binder, see DistinctIds) and its kind. */
  datatype Sub = Sub(id: nat, kind: Kind)

  /** A value sent into an external subject by the relay subscription `via`. */
  datatype Send<V> = Send(via: Sub, value: V)

  /** Every token in `subs` was handed out before `next`. */
  predicate IdsBelow(subs: set<Sub>, next: nat)
  {
    forall s | s in subs :: s.id < next
  }

  /** No two subscriptions in `subs` share a token: each `AnyCancellable` is
      its own object. */
  predicate DistinctIds(subs: set<Sub>)
  {
    forall s, t | s in subs && t in subs && s.id == t.id :: s == t
  }

  /** A subscription taking token `next` keeps the tokens distinct and below
      the advanced counter. */
  lemma AddFresh(subs: set<Sub>, next: nat, added: Sub)
    requires IdsBelow(subs, next) && DistinctIds(subs) && added.id == next
    ensures IdsBelow(subs + {added}, next + 1) && DistinctIds(subs + {added})
  {
  }

  /** The key-path write `view[keyPath: k] = v`; a key path of optional type
      receives the value wrapped as present. */
  function WriteAttr<A>(attrs: Attributes<A>, key: AttrKey, optional: bool, v: A): (r: Attributes<A>)
    ensures r.Keys == attrs.Keys + {key}
    ensures optional ==> r[key] == Optional(Some(v))
    ensures !optional ==> r[key] == Plain(v)
    ensures forall k | k in attrs && k != key :: r[k] == attrs[k]
  {
    attrs[key := if optional then Optional(Some(v)) else Plain(v)]
  }
}
