/** The property wrappers `BiDiBindable` (strong view) and `WeakBiDiBindable`
    (weak view). Their fields are the wrappers' stored properties, plus
    `nextToken`, a counter standing for the identity of each new
    `AnyCancellable`. The relay `subject` is not a field: it holds no state,
    and it appears only through the relay subscriptions it feeds.
    Each method is proved to perform one step of BiDiModel, whose lemmas carry
    the feedback-suppression argument. */
module BiDiBindables {
  import opened Binding
  import opened BiDiModel

  class BiDiBindable<V(==), A> {
    var wrappedValue: Control<V, A>
    var unidirectionalCancellables: set<Sub>
    var bidirectionalCancellables: set<Sub>
    var viewCancellable: Option<Sub>
    var isProgrammaticUpdate: bool
    var nextToken: nat  // identity of the next `AnyCancellable`

    ghost function State(): Binder<V, A>
      reads this
    {
      Binder(Some(wrappedValue), unidirectionalCancellables, bidirectionalCancellables,
             viewCancellable, isProgrammaticUpdate, nextToken)
    }

    ghost predicate Valid()
      reads this
    {
      BiDiModel.Valid(State())
    }

    constructor (wrappedValue: Control<V, A>)
      ensures Valid() && State() == Init(Some(wrappedValue))
      ensures viewCancellable == Some(Sub(0, ViewChange(wrappedValue.id)))
    {
      this.wrappedValue := wrappedValue;
      unidirectionalCancellables := {};
      bidirectionalCancellables := {};
      isProgrammaticUpdate := false;
      viewCancellable := Some(Sub(0, ViewChange(wrappedValue.id)));
      nextToken := 1;
    }

    /** The `didSet` of `wrappedValue`: cancels the view subscription and
        subscribes to the change publisher of the (new) view. */
    method DidSet()
      modifies this`viewCancellable, this`nextToken
      ensures viewCancellable == Some(Sub(old(nextToken), ViewChange(wrappedValue.id)))
      ensures nextToken == old(nextToken) + 1
    {
      viewCancellable := Some(Sub(nextToken, ViewChange(wrappedValue.id)));
      nextToken := nextToken + 1;
    }

    /** Assigning `wrappedValue`: exactly one view subscription, on the new view. */
    method SetWrappedValue(view: Control<V, A>)
      requires Valid()
      modifies this
      ensures Valid() && State() == Assign(old(State()), Some(view))
      ensures wrappedValue == view
      ensures viewCancellable == Some(Sub(old(nextToken), ViewChange(view.id)))
    {
      wrappedValue := view;
      DidSet();
    }

    /** `bind(_:to:)` for a key path of plain (`optional` false) or optional type. */
    method BindKeyPath(key: AttrKey, optional: bool)
      requires Valid()
      modifies this
      ensures Valid() && State() == BiDiModel.BindKeyPath(old(State()), key, optional)
      ensures unidirectionalCancellables == old(unidirectionalCancellables) + {Sub(old(nextToken), KeyPath(key, optional))}
    {
      unidirectionalCancellables := unidirectionalCancellables + {Sub(nextToken, KeyPath(key, optional))};
      nextToken := nextToken + 1;
    }

    /** A unidirectional subscription delivering `a`: the key-path write is a
        mutating access to `wrappedValue`, so `didSet` runs too. */
    method DeliverKeyPath(sub: Sub, a: A)
      requires Valid()
      modifies this
      ensures Valid() && State() == BiDiModel.DeliverKeyPath(old(State()), sub, a)
      ensures bidirectionalCancellables == old(bidirectionalCancellables)
      ensures unidirectionalCancellables == old(unidirectionalCancellables)
      ensures sub in old(unidirectionalCancellables) ==>
        && wrappedValue == old(wrappedValue).(attrs := WriteAttr(old(wrappedValue.attrs), sub.kind.key, sub.kind.optional, a))
        && viewCancellable == Some(Sub(old(nextToken), ViewChange(wrappedValue.id)))
      ensures sub !in old(unidirectionalCancellables) ==> State() == old(State())
    {
      if sub in unidirectionalCancellables {
        wrappedValue := wrappedValue.(attrs := WriteAttr(wrappedValue.attrs, sub.kind.key, sub.kind.optional, a));
        DidSet();
      }
    }

    /** `bind(with:)`: drops the previous channel's subscriptions, then stores
        the subject's sink and the relay's sink for `ch`. */
    method BindWith(ch: ChannelId)
      requires Valid()
      modifies this
      ensures Valid() && State() == BiDiModel.BindWith(old(State()), ch)
      ensures bidirectionalCancellables == ChannelPair(old(nextToken), ch)
      ensures viewCancellable == old(viewCancellable) && wrappedValue == old(wrappedValue)
    {
      bidirectionalCancellables := {};
      bidirectionalCancellables := bidirectionalCancellables + {Sub(nextToken, SourceToView(ch))};
      bidirectionalCancellables := bidirectionalCancellables + {Sub(nextToken + 1, RelayToSource(ch))};
      nextToken := nextToken + 2;
      assert State() == BiDiModel.BindWith(old(State()), ch);
    }

    method UnbindAll()
      requires Valid()
      modifies this
      ensures Valid() && State() == BiDiModel.UnbindAll(old(State()))
      ensures unidirectionalCancellables == {} && bidirectionalCancellables == {}
      ensures viewCancellable == None && wrappedValue == old(wrappedValue)
    {
      unidirectionalCancellables := {};
      bidirectionalCancellables := {};
      viewCancellable := None;
    }

    /** The sink of the view subscription receiving `v`: dropped while
        `isProgrammaticUpdate` is up; otherwise the relay sends `v` through
        each relay subscription into its subject. */
    method ViewDidChange(v: V) returns (sent: set<Send<V>>)
      ensures sent == Forward(State(), v)
      ensures sent != {} ==> !isProgrammaticUpdate && viewCancellable.Some?
      ensures forall d | d in sent :: d.value == v && d.via in bidirectionalCancellables
    {
      if viewCancellable.Some? && viewCancellable.value.kind == ViewChange(wrappedValue.id) && !isProgrammaticUpdate {
        sent := set s | s in bidirectionalCancellables && s.kind.RelayToSource? :: Send(s, v);
      } else {
        sent := {};
      }
    }

    /** The user sets the control to `v`; its change publisher fires. */
    method UserChange(v: V) returns (sent: set<Send<V>>)
      requires Valid()
      modifies this
      ensures Valid() && Outcome(State(), sent) == BiDiModel.UserChange(old(State()), v)
      ensures wrappedValue == old(wrappedValue).(bindableValue := v)
      ensures |sent| <= 1
    {
      ghost var before := State();
      wrappedValue := wrappedValue.(bindableValue := v);
      assert State() == BiDiModel.UserChange(before, v).after;
      sent := ViewDidChange(v);
      ForwardOnce(State(), v);
    }

    /** Subject `ch` emitting `v`: if the binder listens to it, the flag is
        raised around the write of `bindableValue`. `echoes` says whether the
        control fires its change notification synchronously on that write. */
    method SourceEmit(ch: ChannelId, v: V, echoes: bool) returns (sent: set<Send<V>>)
      requires Valid()
      modifies this
      ensures Valid() && Outcome(State(), sent) == BiDiModel.SourceEmit(old(State()), ch, v, echoes)
      ensures sent == {} && !isProgrammaticUpdate
      ensures Listens(old(State()), ch) ==> wrappedValue == old(wrappedValue).(bindableValue := v)
      ensures !Listens(old(State()), ch) ==> wrappedValue == old(wrappedValue)
    {
      sent := {};
      if exists s | s in bidirectionalCancellables :: s.kind == SourceToView(ch) {
        isProgrammaticUpdate := true;
        wrappedValue := wrappedValue.(bindableValue := v);
        if echoes {
          sent := ViewDidChange(v);
        }
        isProgrammaticUpdate := false;
      }
    }
  }

  class WeakBiDiBindable<V(==), A> {
    var view: Option<Control<V, A>>  // a weak reference: None once released
    var unidirectionalCancellables: set<Sub>
    var bidirectionalCancellables: set<Sub>
    var viewCancellable: Option<Sub>
    var isProgrammaticUpdate: bool
    var nextToken: nat

    ghost function State(): Binder<V, A>
      reads this
    {
      Binder(view, unidirectionalCancellables, bidirectionalCancellables,
             viewCancellable, isProgrammaticUpdate, nextToken)
    }

    ghost predicate Valid()
      reads this
    {
      BiDiModel.Valid(State())
    }

    constructor (wrappedValue: Option<Control<V, A>>)
      ensures Valid() && State() == Init(wrappedValue)
      ensures wrappedValue.None? ==> viewCancellable == None
    {
      view := wrappedValue;
      unidirectionalCancellables := {};
      bidirectionalCancellables := {};
      isProgrammaticUpdate := false;
      viewCancellable := if wrappedValue.Some? then Some(Sub(0, ViewChange(wrappedValue.value.id))) else None;
      nextToken := 1;
    }

    /** The `wrappedValue` getter: the view the binder holds, which a live
        view subscription watches. */
    function WrappedValue(): (v: Option<Control<V, A>>)
      reads this
      ensures v == State().view
      ensures Valid() && v.Some? && viewCancellable.Some? ==> viewCancellable.value.kind == ViewChange(v.value.id)
    {
      view
    }

    /** The `wrappedValue` setter: stores the view, cancels the view
        subscription and subscribes to the new view, if there is one. */
    method SetWrappedValue(newValue: Option<Control<V, A>>)
      requires Valid()
      modifies this
      ensures Valid() && State() == Assign(old(State()), newValue)
      ensures WrappedValue() == newValue
      ensures newValue.None? ==> viewCancellable == None
      ensures newValue.Some? ==> viewCancellable == Some(Sub(old(nextToken), ViewChange(newValue.value.id)))
    {
      view := newValue;
      viewCancellable := if view.Some? then Some(Sub(nextToken, ViewChange(view.value.id))) else None;
      nextToken := nextToken + 1;
    }

    /** ARC releasing the view; `viewCancellable` is left as it is. */
    method Deallocate()
      requires Valid()
      modifies this
      ensures Valid() && State() == BiDiModel.Deallocate(old(State()))
      ensures WrappedValue() == None && viewCancellable == old(viewCancellable)
    {
      view := None;
    }

    method BindKeyPath(key: AttrKey, optional: bool)
      requires Valid()
      modifies this
      ensures Valid() && State() == BiDiModel.BindKeyPath(old(State()), key, optional)
      ensures unidirectionalCancellables == old(unidirectionalCancellables) + {Sub(old(nextToken), KeyPath(key, optional))}
    {
      unidirectionalCancellables := unidirectionalCancellables + {Sub(nextToken, KeyPath(key, optional))};
      nextToken := nextToken + 1;
    }

    /** `wrappedValue?[keyPath: k] = a`: with a view present this writes the
        attribute and runs the setter again; with none it does nothing. */
    method DeliverKeyPath(sub: Sub, a: A)
      requires Valid()
      modifies this
      ensures Valid() && State() == BiDiModel.DeliverKeyPath(old(State()), sub, a)
      ensures sub in old(unidirectionalCancellables) && old(view).Some? ==>
        && view == Some(old(view).value.(attrs := WriteAttr(old(view).value.attrs, sub.kind.key, sub.kind.optional, a)))
        && viewCancellable == Some(Sub(old(nextToken), ViewChange(old(view).value.id)))
      ensures sub !in old(unidirectionalCancellables) || old(view).None? ==> State() == old(State())
    {
      if sub in unidirectionalCancellables && view.Some? {
        var written := view.value.(attrs := WriteAttr(view.value.attrs, sub.kind.key, sub.kind.optional, a));
        SetWrappedValue(Some(written));
      }
    }

    method BindWith(ch: ChannelId)
      requires Valid()
      modifies this
      ensures Valid() && State() == BiDiModel.BindWith(old(State()), ch)
      ensures bidirectionalCancellables == ChannelPair(old(nextToken), ch)
      ensures viewCancellable == old(viewCancellable) && view == old(view)
    {
      bidirectionalCancellables := {};
      bidirectionalCancellables := bidirectionalCancellables + {Sub(nextToken, SourceToView(ch))};
      bidirectionalCancellables := bidirectionalCancellables + {Sub(nextToken + 1, RelayToSource(ch))};
      nextToken := nextToken + 2;
      assert State() == BiDiModel.BindWith(old(State()), ch);
    }

    method UnbindAll()
      requires Valid()
      modifies this
      ensures Valid() && State() == BiDiModel.UnbindAll(old(State()))
      ensures unidirectionalCancellables == {} && bidirectionalCancellables == {}
      ensures viewCancellable == None && view == old(view)
    {
      unidirectionalCancellables := {};
      bidirectionalCancellables := {};
      viewCancellable := None;
    }

    /** The sink of the view subscription receiving `v`. */
    method ViewDidChange(v: V) returns (sent: set<Send<V>>)
      ensures sent == Forward(State(), v)
      ensures sent != {} ==> !isProgrammaticUpdate && view.Some? && viewCancellable.Some?
      ensures forall d | d in sent :: d.value == v && d.via in bidirectionalCancellables
    {
      if view.Some? && viewCancellable.Some? && viewCancellable.value.kind == ViewChange(view.value.id)
        && !isProgrammaticUpdate
      {
        sent := set s | s in bidirectionalCancellables && s.kind.RelayToSource? :: Send(s, v);
      } else {
        sent := {};
      }
    }

    /** The user sets the control to `v`; without a view nothing happens. */
    method UserChange(v: V) returns (sent: set<Send<V>>)
      requires Valid()
      modifies this
      ensures Valid() && Outcome(State(), sent) == BiDiModel.UserChange(old(State()), v)
      ensures |sent| <= 1
    {
      sent := {};
      if view.Some? {
        view := Some(view.value.(bindableValue := v));
        sent := ViewDidChange(v);
        ForwardOnce(State(), v);
      }
    }

    /** Subject `ch` emitting `v`: the flag is raised around
        `wrappedValue?.bindableValue = v`, which does nothing without a view. */
    method SourceEmit(ch: ChannelId, v: V, echoes: bool) returns (sent: set<Send<V>>)
      requires Valid()
      modifies this
      ensures Valid() && Outcome(State(), sent) == BiDiModel.SourceEmit(old(State()), ch, v, echoes)
      ensures sent == {} && !isProgrammaticUpdate
      ensures old(view).None? ==> State() == old(State())
    {
      sent := {};
      if exists s | s in bidirectionalCancellables :: s.kind == SourceToView(ch) {
        isProgrammaticUpdate := true;
        if view.Some? {
          view := Some(view.value.(bindableValue := v));
          if echoes {
            sent := ViewDidChange(v);
          }
        }
        isProgrammaticUpdate := false;
      }
    }
  }
}
