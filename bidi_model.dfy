/** The state machine of a bidirectional binder (`BiDiBindable` and
    `WeakBiDiBindable`) as a value: what each operation and each delivery does
    to the binder, which values it sends into external subjects, and the
    feedback-suppression argument. The classes in module BiDiBindables are
    proved against these functions. */
module BiDiModel {
  import opened Binding

  /** `view` is None only in the weak variant. `viewSub` is the subscription
      to the view's change publisher (`viewCancellable`); `programmatic` is
      `isProgrammaticUpdate`; `next` is the next unused subscription token. */
  datatype Binder<V, A> = Binder(
    view: Option<Control<V, A>>,
    unidirectional: set<Sub>,
    bidirectional: set<Sub>,
    viewSub: Option<Sub>,
    programmatic: bool,
    next: nat)

  /** A binder after one event, with the values the event sent into external subjects. */
  datatype Outcome<V(==), A> = Outcome(after: Binder<V, A>, sent: set<Send<V>>)

  /** The two subscriptions `bind(with:)` stores for channel `ch`: the
      subject's sink writing the view, and the relay's sink sending to the subject. */
  function ChannelPair(id: nat, ch: ChannelId): (pair: set<Sub>)
  {
    {Sub(id, SourceToView(ch)), Sub(id + 1, RelayToSource(ch))}
  }

  /** The channels the bidirectional subscriptions are attached to. */
  function Channels(bidi: set<Sub>): (chs: set<ChannelId>)
  {
    set s | s in bidi && (s.kind.SourceToView? || s.kind.RelayToSource?) :: s.kind.channel
  }

  /** Every subscription the binder holds: the unidirectional ones, the
      bidirectional ones and the view subscription. */
  function Held<V, A>(b: Binder<V, A>): (held: set<Sub>)
    ensures b.unidirectional <= held && b.bidirectional <= held
    ensures b.viewSub.Some? ==> b.viewSub.value in held
    ensures forall s | s in held :: s in b.unidirectional || s in b.bidirectional || b.viewSub == Some(s)
  {
    b.unidirectional + b.bidirectional + if b.viewSub.Some? then {b.viewSub.value} else {}
  }

  /** The binder's invariant between events: the flag is down, the
      bidirectional set is empty or the pair of one channel, every held
      subscription has its own token, below `next`, and a live view
      subscription is on the current view. */
  ghost predicate Valid<V, A>(b: Binder<V, A>)
  {
    && !b.programmatic
    && IdsBelow(Held(b), b.next)
    && DistinctIds(Held(b))
    && (forall s | s in b.unidirectional :: s.kind.KeyPath?)
    && (b.bidirectional == {} || exists id: nat, ch :: b.bidirectional == ChannelPair(id, ch))
    && (b.viewSub.Some? ==> b.viewSub.value.kind.ViewChange?)
    && (b.viewSub.Some? && b.view.Some? ==> b.viewSub.value.kind.view == b.view.value.id)
  }

  /** The subscription to the change publisher of `view`, if there is a view. */
  function Subscribe<V(==), A>(view: Option<Control<V, A>>, token: nat): (s: Option<Sub>)
    ensures s.Some? <==> view.Some?
    ensures s.Some? ==> s.value == Sub(token, ViewChange(view.value.id))
  {
    if view.Some? then Some(Sub(token, ViewChange(view.value.id))) else None
  }

  /** `init(wrappedValue:)`: subscribes to the view's changes and nothing else. */
  function Init<V(==), A>(view: Option<Control<V, A>>): (b: Binder<V, A>)
    ensures Valid(b) && b.view == view
    ensures b.unidirectional == {} && b.bidirectional == {}
    ensures b.viewSub.Some? <==> view.Some?
  {
    Binder(view, {}, {}, Subscribe(view, 0), false, 1)
  }

  /** Assigning `wrappedValue` (the strong variant's `didSet`, the weak
      variant's setter): the old view subscription is dropped and exactly one
      new one, on the new view, takes its place; none when the view is nil. */
  function Assign<V(==), A>(b: Binder<V, A>, view: Option<Control<V, A>>): (r: Binder<V, A>)
    ensures r.view == view && r.programmatic == b.programmatic
    ensures r.unidirectional == b.unidirectional && r.bidirectional == b.bidirectional
    ensures view.None? ==> r.viewSub == None
    ensures view.Some? ==> r.viewSub == Some(Sub(b.next, ViewChange(view.value.id)))
    ensures Valid(b) ==> Valid(r) && (b.viewSub.Some? ==> r.viewSub != b.viewSub)
  {
    b.(view := view, viewSub := Subscribe(view, b.next), next := b.next + 1)
  }

  /** ARC releasing the weakly held view. `viewCancellable` is not touched. */
  function Deallocate<V(==), A>(b: Binder<V, A>): (r: Binder<V, A>)
    ensures r.view == None && r.viewSub == b.viewSub && r.programmatic == b.programmatic
    ensures r.unidirectional == b.unidirectional && r.bidirectional == b.bidirectional
    ensures Valid(b) ==> Valid(r)
  {
    b.(view := None)
  }

  /** `bind(_:to:)`, either overload: one more unidirectional subscription. */
  function BindKeyPath<V(==), A>(b: Binder<V, A>, key: AttrKey, optional: bool): (r: Binder<V, A>)
    ensures r.unidirectional == b.unidirectional + {Sub(b.next, KeyPath(key, optional))}
    ensures r.view == b.view && r.viewSub == b.viewSub && r.programmatic == b.programmatic
    ensures r.bidirectional == b.bidirectional
    ensures Valid(b) ==> Valid(r) && |r.unidirectional| == |b.unidirectional| + 1
  {
    var added := Sub(b.next, KeyPath(key, optional));
    HoldingOneMore(b, added);
    b.(unidirectional := b.unidirectional + {added}, next := b.next + 1)
  }

  /** Storing one more unidirectional subscription under the next token keeps the invariant. */
  lemma HoldingOneMore<V, A>(b: Binder<V, A>, added: Sub)
    requires added.id == b.next && added.kind.KeyPath?
    ensures Valid(b) ==> Valid(b.(unidirectional := b.unidirectional + {added}, next := b.next + 1))
  {
    if Valid(b) {
      var r := b.(unidirectional := b.unidirectional + {added}, next := b.next + 1);
      assert Held(r) == Held(b) + {added};
      AddFresh(Held(b), b.next, added);
    }
  }

  /** `bind(with:)`: the previous bidirectional subscriptions are dropped and
      the two for `ch` are stored, so `ch` is the one bound channel. */
  function BindWith<V(==), A>(b: Binder<V, A>, ch: ChannelId): (r: Binder<V, A>)
    ensures r.bidirectional == ChannelPair(b.next, ch) && Channels(r.bidirectional) == {ch}
    ensures r.view == b.view && r.viewSub == b.viewSub && r.programmatic == b.programmatic
    ensures r.unidirectional == b.unidirectional
    ensures Valid(b) ==> Valid(r)
  {
    var r := b.(bidirectional := ChannelPair(b.next, ch), next := b.next + 2);
    assert Sub(b.next, SourceToView(ch)) in r.bidirectional;
    r
  }

  /** `unbindAll()`: every subscription is dropped; the view stays. */
  function UnbindAll<V(==), A>(b: Binder<V, A>): (r: Binder<V, A>)
    ensures r.unidirectional == {} && r.bidirectional == {} && r.viewSub == None
    ensures r.view == b.view && r.programmatic == b.programmatic
    ensures Valid(b) ==> Valid(r)
  {
    b.(unidirectional := {}, bidirectional := {}, viewSub := None)
  }

  /** Whether a change notification of the current view reaches the
      binder's sink: there is a view and the live view subscription is on it. */
  predicate Notified<V(==), A>(b: Binder<V, A>)
  {
    b.view.Some? && b.viewSub.Some? && b.viewSub.value.kind == ViewChange(b.view.value.id)
  }

  /** The view-change sink receiving `v`: dropped while the flag is up,
      otherwise sent into the relay, which sends it on through every relay
      subscription. */
  function Forward<V(==), A>(b: Binder<V, A>, v: V): (sent: set<Send<V>>)
    ensures sent != {} ==> Notified(b) && !b.programmatic
    ensures forall d | d in sent :: d.value == v && d.via in b.bidirectional && d.via.kind.RelayToSource?
    ensures Notified(b) && !b.programmatic ==>
      forall s | s in b.bidirectional && s.kind.RelayToSource? :: Send(s, v) in sent
  {
    if Notified(b) && !b.programmatic then
      set s | s in b.bidirectional && s.kind.RelayToSource? :: Send(s, v)
    else
      {}
  }

  /** The control set to `v` by the user; its change publisher then fires.
      Without a view there is nothing to interact with. */
  function UserChange<V(==), A>(b: Binder<V, A>, v: V): (o: Outcome<V, A>)
    ensures b.view.None? ==> o == Outcome(b, {})
    ensures b.view.Some? ==> o.after.view == Some(b.view.value.(bindableValue := v))
    ensures o.after == b.(view := o.after.view)
    ensures forall d | d in o.sent :: d.value == v && d.via in b.bidirectional
    ensures Valid(b) ==> Valid(o.after)
  {
    if b.view.None? then
      Outcome(b, {})
    else
      var after := b.(view := Some(b.view.value.(bindableValue := v)));
      Outcome(after, Forward(after, v))
  }

  /** Whether the binder holds a subscription to the subject `ch`. */
  predicate Listens<V(==), A>(b: Binder<V, A>, ch: ChannelId)
  {
    exists s | s in b.bidirectional :: s.kind == SourceToView(ch)
  }

  /** The binder while the subject's sink runs, between raising and lowering
      the flag. The flag is up, so the change notification the write fires
      (its echo, carrying `v`) is dropped by the sink and reaches no subject;
      apart from the flag and the shown value, nothing has changed yet. */
  function Writing<V(==), A>(b: Binder<V, A>, v: V): (w: Binder<V, A>)
    ensures w.programmatic
    ensures Forward(w, v) == {}
    ensures w.view.Some? == b.view.Some? && w.next == b.next
    ensures w.unidirectional == b.unidirectional && w.bidirectional == b.bidirectional && w.viewSub == b.viewSub
  {
    b.(programmatic := true, view := if b.view.Some? then Some(b.view.value.(bindableValue := v)) else None)
  }

  /** Subject `ch` emitting `v`. If the binder listens to it, the flag is
      raised, `bindableValue` is written, and the flag is lowered. `echoes`
      says whether the write makes the control fire its change notification
      synchronously; that echo reaches the sink while the flag is up. */
  function SourceEmit<V(==), A>(b: Binder<V, A>, ch: ChannelId, v: V, echoes: bool): (o: Outcome<V, A>)
    ensures o.sent == {}
    ensures Listens(b, ch) ==> !o.after.programmatic
    ensures !Listens(b, ch) ==> o.after == b
    ensures o.after.unidirectional == b.unidirectional && o.after.bidirectional == b.bidirectional
    ensures o.after.viewSub == b.viewSub && o.after.next == b.next
    ensures Valid(b) ==> Valid(o.after)
  {
    if !Listens(b, ch) then
      Outcome(b, {})
    else
      var w := Writing(b, v);
      var echo := if echoes && w.view.Some? then Forward(w, v) else {};
      Outcome(w.(programmatic := false), echo)
  }

  /** A unidirectional subscription delivering `a`: `wrappedValue[keyPath: k] = a`.
      This is a mutating access to `wrappedValue`, so the `didSet` (strong)
      or the setter (weak) runs as for an assignment of the same view. */
  function DeliverKeyPath<V(==), A>(b: Binder<V, A>, sub: Sub, a: A): (r: Binder<V, A>)
    ensures r.unidirectional == b.unidirectional && r.bidirectional == b.bidirectional
    ensures r.programmatic == b.programmatic
    ensures sub !in b.unidirectional || b.view.None? ==> r == b
    ensures Valid(b) ==> Valid(r)
  {
    if sub in b.unidirectional && sub.kind.KeyPath? && b.view.Some? then
      Assign(b, Some(b.view.value.(attrs := WriteAttr(b.view.value.attrs, sub.kind.key, sub.kind.optional, a))))
    else
      b
  }

  // ---------------------------------------------------------------------
  // Properties of single events

  /** The relay subscription of a bound pair. */
  lemma RelaysOfPair(id: nat, ch: ChannelId)
    ensures (set s | s in ChannelPair(id, ch) && s.kind.RelayToSource?) == {Sub(id + 1, RelayToSource(ch))}
  {
  }

  /** Forwarding under the invariant: at most one send, and exactly one,
      to the bound channel, when a channel is bound and the view subscription
      is live. */
  lemma ForwardOnce<V, A>(b: Binder<V, A>, v: V)
    requires Valid(b)
    ensures |Forward(b, v)| <= 1
    ensures |Forward(b, v)| == 1 <==> Notified(b) && b.bidirectional != {}
    ensures forall d | d in Forward(b, v) :: d.via.kind.channel in Channels(b.bidirectional)
  {
    if Notified(b) && b.bidirectional != {} {
      var id: nat, ch :| b.bidirectional == ChannelPair(id, ch);
      RelaysOfPair(id, ch);
      assert Forward(b, v) == {Send(Sub(id + 1, RelayToSource(ch)), v)};
    } else {
      assert Forward(b, v) == {};
    }
  }

  /** A user change while channel `ch` is bound and the view subscription is
      live reaches `ch` exactly once, with the same value; with no channel
      bound or no live subscription it reaches nothing. */
  lemma UserChangeReachesBoundChannel<V, A>(b: Binder<V, A>, v: V)
    requires Valid(b) && b.view.Some?
    ensures var sent := UserChange(b, v).sent;
      && |sent| <= 1
      && (|sent| == 1 <==> Notified(b) && b.bidirectional != {})
      && forall d | d in sent :: d.value == v && d.via.kind.channel in Channels(b.bidirectional)
  {
    var after := UserChange(b, v).after;
    assert Valid(after);
    ForwardOnce(after, v);
  }

  /** A subject-driven write shows `v` on a present view and changes nothing
      else; the flag ends down; nothing is sent back, whether or not the
      write echoes a change notification. */
  lemma SourceWriteShowsValue<V, A>(b: Binder<V, A>, ch: ChannelId, v: V, echoes: bool)
    requires Valid(b) && Listens(b, ch) && b.view.Some?
    ensures var o := SourceEmit(b, ch, v, echoes);
      && o.after == b.(view := Some(b.view.value.(bindableValue := v)))
      && o.sent == {}
      && Valid(o.after)
  {
  }

  /** The round trip: a user change sent to the bound subject `ch` comes back
      from `ch` as a write of the same value, which leaves the binder as the
      user change left it and is not sent again, echo or no echo. */
  lemma UserChangeRoundTrip<V, A>(b: Binder<V, A>, ch: ChannelId, v: V, echoes: bool)
    requires Valid(b) && b.view.Some? && Notified(b) && Channels(b.bidirectional) == {ch}
    ensures var first := UserChange(b, v);
      && |first.sent| == 1
      && (forall d | d in first.sent :: d.value == v && d.via.kind == RelayToSource(ch))
      && SourceEmit(first.after, ch, v, echoes) == Outcome(first.after, {})
  {
    UserChangeReachesBoundChannel(b, v);
    var first := UserChange(b, v);
    var id: nat, c :| b.bidirectional == ChannelPair(id, c);
    var source := Sub(id, SourceToView(c));
    assert source in ChannelPair(id, c);
    assert c == ch by {
      assert source in b.bidirectional;
      assert c in Channels(b.bidirectional);
    }
    assert source in first.after.bidirectional;
  }

  /** After `bind(with: a)` then `bind(with: c)`, only `c` is bound: emissions
      of `a` leave the binder as it is, and user changes reach only `c`. */
  lemma RebindSupersedes<V, A>(b: Binder<V, A>, a: ChannelId, c: ChannelId, v: V, echoes: bool)
    requires a != c
    ensures var r := BindWith(BindWith(b, a), c);
      && Channels(r.bidirectional) == {c}
      && !Listens(r, a)
      && SourceEmit(r, a, v, echoes) == Outcome(r, {})
      && forall d | d in UserChange(r, v).sent :: d.via.kind == RelayToSource(c)
  {
    var r := BindWith(BindWith(b, a), c);
    assert r.bidirectional == ChannelPair(BindWith(b, a).next, c);
  }

  lemma UnbindAllIdempotent<V, A>(b: Binder<V, A>)
    ensures UnbindAll(UnbindAll(b)) == UnbindAll(b)
  {
  }

  /** After `unbindAll()` no user change reaches any channel and no subject
      reaches the view. */
  lemma SilentAfterUnbindAll<V, A>(b: Binder<V, A>, ch: ChannelId, v: V, echoes: bool)
    ensures UserChange(UnbindAll(b), v).sent == {}
    ensures SourceEmit(UnbindAll(b), ch, v, echoes) == Outcome(UnbindAll(b), {})
  {
  }

  /** `unbindAll()` also drops the view subscription, and `bind(with:)` does
      not restore it: a channel bound afterwards still drives the view but
      receives no user changes until the view is assigned again. */
  lemma RebindAfterUnbindAllIsOneWay<V, A>(b: Binder<V, A>, ch: ChannelId, v: V)
    ensures var r := BindWith(UnbindAll(b), ch);
      && Listens(r, ch)
      && UserChange(r, v).sent == {}
  {
    assert Sub(b.next, SourceToView(ch)) in BindWith(UnbindAll(b), ch).bidirectional;
  }

  /** A key-path delivery on a stored subscription writes the bound attribute
      of the same view (see WriteAttr for the key-by-key effect) and leaves its
      value alone. Being an assignment of `wrappedValue`, it also re-subscribes
      to the view, with a fresh token, even when `unbindAll()` had dropped the
      view subscription. */
  lemma KeyPathDeliveryResubscribes<V, A>(b: Binder<V, A>, sub: Sub, a: A)
    requires Valid(b) && sub in b.unidirectional && b.view.Some?
    ensures var r := DeliverKeyPath(b, sub, a);
      && r.view.Some?
      && r.view.value.id == b.view.value.id
      && r.view.value.attrs == WriteAttr(b.view.value.attrs, sub.kind.key, sub.kind.optional, a)
      && r.view.value.bindableValue == b.view.value.bindableValue
      && r.viewSub == Some(Sub(b.next, ViewChange(b.view.value.id)))
      && (forall s | s in Held(b) :: s.id != r.viewSub.value.id)
      && Notified(r)
  {
  }

  /** The weak variant without a view: subject writes and key-path writes
      change nothing but the flag, which ends down; there is no view
      subscription after assigning nil. */
  lemma InertWithoutView<V, A>(b: Binder<V, A>, ch: ChannelId, v: V, echoes: bool, sub: Sub, a: A)
    requires Valid(b) && b.view.None?
    ensures SourceEmit(b, ch, v, echoes) == Outcome(b, {})
    ensures DeliverKeyPath(b, sub, a) == b
    ensures UserChange(b, v) == Outcome(b, {})
    ensures Assign(b, None).viewSub == None && Init<V, A>(None).viewSub == None
  {
  }

  // ---------------------------------------------------------------------
  // Runs of events

  /** Everything that can happen to a binder: client calls, ARC, the user,
      and deliveries from subjects and publishers. */
  datatype Event<V, A> =
    | ViewAssigned(view: Option<Control<V, A>>)
    | ViewDeallocated
    | KeyPathBound(key: AttrKey, optional: bool)
    | ChannelBound(channel: ChannelId)
    | AllUnbound
    | UserChanged(value: V)
    | SourceEmitted(channel: ChannelId, value: V, echoes: bool)
    | KeyPathDelivered(sub: Sub, attr: A)

  function Step<V(==), A>(b: Binder<V, A>, e: Event<V, A>): (o: Outcome<V, A>)
  {
    match e
    case ViewAssigned(view) => Outcome(Assign(b, view), {})
    case ViewDeallocated => Outcome(Deallocate(b), {})
    case KeyPathBound(key, optional) => Outcome(BindKeyPath(b, key, optional), {})
    case ChannelBound(ch) => Outcome(BindWith(b, ch), {})
    case AllUnbound => Outcome(UnbindAll(b), {})
    case UserChanged(v) => UserChange(b, v)
    case SourceEmitted(ch, v, echoes) => SourceEmit(b, ch, v, echoes)
    case KeyPathDelivered(sub, a) => Outcome(DeliverKeyPath(b, sub, a), {})
  }

  /** The binder after a run, and what each event of the run sent. */
  datatype Trace<V(==), A> = Trace(final: Binder<V, A>, log: seq<set<Send<V>>>)

  function Run<V(==), A>(b: Binder<V, A>, es: seq<Event<V, A>>): (t: Trace<V, A>)
    ensures |t.log| == |es|
    decreases |es|
  {
    if es == [] then
      Trace(b, [])
    else
      var t := Run(b, es[..|es| - 1]);
      var o := Step(t.final, es[|es| - 1]);
      Trace(o.after, t.log + [o.sent])
  }

  /** What an event may send: only a user change sends, at most one value,
      and that value is the user's. */
  predicate NoEcho<V(==), A>(e: Event<V, A>, sent: set<Send<V>>)
  {
    sent != {} ==> e.UserChanged? && |sent| == 1 && forall d | d in sent :: d.value == e.value
  }

  lemma StepKeepsValid<V, A>(b: Binder<V, A>, e: Event<V, A>)
    requires Valid(b)
    ensures Valid(Step(b, e).after) && NoEcho(e, Step(b, e).sent)
  {
    match e
    case UserChanged(v) =>
      if b.view.Some? {
        UserChangeReachesBoundChannel(b, v);
      }
    case _ =>
  }

  /** Over any run from a valid binder the invariant holds after every event,
      subject-driven writes and their echoes never send anything, and each
      user change reaches at most one subject, with its own value. */
  lemma {:induction false} RunKeepsValid<V, A>(b: Binder<V, A>, es: seq<Event<V, A>>)
    requires Valid(b)
    ensures Valid(Run(b, es).final)
    ensures forall i | 0 <= i < |es| :: NoEcho(es[i], Run(b, es).log[i])
    decreases |es|
  {
    if es != [] {
      var prefix := es[..|es| - 1];
      RunKeepsValid(b, prefix);
      StepKeepsValid(Run(b, prefix).final, es[|es| - 1]);
      forall i | 0 <= i < |es|
        ensures NoEcho(es[i], Run(b, es).log[i])
      {
        if i < |es| - 1 {
          assert es[i] == prefix[i];
        }
      }
    }
  }

  /** The channels bound after a run, read off the run: those of the last
      `bind(with:)`, unless an `unbindAll()` came after it. */
  function LatestBinding<V(==), A>(b: Binder<V, A>, es: seq<Event<V, A>>): (chs: set<ChannelId>)
    decreases |es|
  {
    if es == [] then
      Channels(b.bidirectional)
    else
      match es[|es| - 1]
      case ChannelBound(ch) => {ch}
      case AllUnbound => {}
      case _ => LatestBinding(b, es[..|es| - 1])
  }

  lemma {:induction false} BoundAfterRun<V, A>(b: Binder<V, A>, es: seq<Event<V, A>>)
    ensures Channels(Run(b, es).final.bidirectional) == LatestBinding(b, es)
    decreases |es|
  {
    if es != [] {
      BoundAfterRun(b, es[..|es| - 1]);
    }
  }

  /** After any run, a user change reaches only the channel of the latest
      `bind(with:)` still in force, and none after `unbindAll()`. */
  lemma UserChangeReachesLatestOnly<V, A>(b: Binder<V, A>, es: seq<Event<V, A>>, v: V)
    ensures forall d | d in UserChange(Run(b, es).final, v).sent ::
      d.via.kind.channel in LatestBinding(b, es)
  {
    BoundAfterRun(b, es);
    var f := Run(b, es).final;
    forall d | d in UserChange(f, v).sent
      ensures d.via.kind.channel in Channels(f.bidirectional)
    {
      assert d.via in f.bidirectional;
    }
  }
}
