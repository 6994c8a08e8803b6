# BindableUIKit binders in Dafny

BindableUIKit binds reactive value sources to UIKit controls. This project models its binding engine:

- **`Bindable` / `WeakBindable`** (unidirectional). Each `bind(_:to:)` call stores one subscription. Each value that subscription delivers is written into one key path of the view. `unbindAll()` drops every subscription.
- **`BiDiBindable` / `WeakBiDiBindable`** (bidirectional). These couple a control to one two-way subject. A value from the subject is written into the control's `bindableValue` with `isProgrammaticUpdate` raised. A change notification from the control is dropped while that flag is up. Otherwise it goes into an internal relay, and the relay sends it into the bound subject.

The model has three parts:

- `Binding` holds the shared vocabulary:
  - a subscription (an `AnyCancellable`) is a token `Sub(id, kind)`. Its id is below the binder's counter `next` and differs from the id of every other subscription the binder holds, so each new token is fresh;
  - a view is a value cell `Control(id, bindableValue, attrs)`;
  - a key path is a key into `attrs`;
  - an external subject is a `ChannelId`;
  - a value the relay sends into a subject is a `Send(via, value)`.
- `BindableModel` and `BiDiModel` give each binder's state as a datatype, and each operation or delivery as a function on it. They also state the properties as lemmas. These include the feedback-suppression argument over arbitrary runs of events (`RunKeepsValid`).
- `Bindables` and `BiDiBindables` are the four classes. Their fields are the wrappers' stored properties plus `nextToken`, a counter that stands for the identity of each new `AnyCancellable`. The bidirectional classes have no field for the relay `subject`: it holds no state, and it appears only through the relay subscriptions it feeds. Each method updates them in place and is proved to perform one step of the pure model (`State() == F(old(State()))`). The weak variants keep the view as an `Option`; ARC releasing the view is `Deallocate`.

Events that the source receives from outside become explicit methods:

- `UserChange(v)`: the user sets the control, and its change publisher fires.
- `SourceEmit(ch, v, echoes)`: subject `ch` delivers `v`. `echoes` says whether the control fires its change notification synchronously when `bindableValue` is written.
- `DeliverKeyPath(sub, a)` / `Deliver(sub, a)`: a unidirectional publisher delivers a value.

How the model reads the code where it matters:

- **Key-path writes re-subscribe the view.** Two lines do this:
  - `BiDiBindable.swift:43`: `wrappedValue[keyPath:] = value` goes through a `WritableKeyPath`. That is a mutating access to `wrappedValue`, so `didSet` runs.
  - `BiDiBindable.swift:108`: `wrappedValue?[keyPath:] = value` runs the setter when a view is present.

  So a unidirectional delivery cancels the view subscription and installs a fresh one on the same view (`DeliverKeyPath`, `KeyPathDeliveryResubscribes`). The writes of `bindableValue` at lines 59 and 124 go through a class-bound protocol's nonmutating setter, so they do not re-subscribe.
- **`unbindAll()` clears `viewCancellable`, and `bind(with:)` does not restore it.** A subject bound after `unbindAll()` still drives the view. User changes reach it only after the view is assigned again, or after a key-path delivery re-subscribes (`RebindAfterUnbindAllIsOneWay`). The code installs the view subscription only in `init` and in the `wrappedValue` `didSet`/setter; `unbindAll()` clears it and `bind(with:)` does not restore it.
- **Weak-view deallocation leaves `viewCancellable` as it is**, as ARC does. The released view can no longer fire, so nothing reaches the sink.

## Model

| member | source | states |
|---|---|---|
| `Binding.WriteAttr` | Sources/BindableUIKit/Bindable.swift:22-23 | a key-path write sets that key: to `Plain(v)`, or to `Optional(Some(v))` for an optional key path; every other attribute is unchanged |
| `BindableModel.Init` | Sources/BindableUIKit/Bindable.swift:49-51 | a new binder holds the given view and no subscriptions |
| `BindableModel.Assign` | Sources/BindableUIKit/Bindable.swift:41-44 | assigning `wrappedValue` replaces the view and leaves `cancellables` untouched |
| `BindableModel.Deallocate` | Sources/BindableUIKit/Bindable.swift:46 | a released weak view reads nil; subscriptions are kept |
| `BindableModel.Bind` | Sources/BindableUIKit/Bindable.swift:21-32 | each `bind` adds exactly one new subscription and keeps every earlier one; the view is unchanged |
| `BindableModel.Deliver` | Sources/BindableUIKit/Bindable.swift:53-64 | a delivery on a subscription that is no longer stored, or with no view, changes nothing; subscriptions are never changed by a delivery |
| `BindableModel.DeliverWritesOneAttribute` | Sources/BindableUIKit/Bindable.swift:22-23 | delivering `v` for key `k` sets attribute `k` to `v` (wrapped as present for an optional key path) and leaves every other attribute unchanged |
| `BindableModel.UnbindAll` | Sources/BindableUIKit/Bindable.swift:34-36 | `unbindAll` leaves no subscription and keeps the view |
| `BindableModel.UnbindAllIdempotent` | Sources/BindableUIKit/Bindable.swift:66-68 | calling `unbindAll` twice equals calling it once |
| `BindableModel.DeliverAfterUnbindAll` | Sources/BindableUIKit/Bindable.swift:34-36 | after `unbindAll`, a delivery on any former binding leaves the binder unchanged |
| `BindableModel.DeliverWithoutView` | Sources/BindableUIKit/Bindable.swift:54-56 | with the weak view nil, a delivery is a no-op |
| `BindableModel.Run` | Sources/BindableUIKit/Bindable.swift:21-36 | every run of operations from a well-formed binder ends well-formed: only key-path subscriptions, each with its own token below `next` |
| `BindableModel.StepKeeps` | Sources/BindableUIKit/Bindable.swift:21-32 | every operation other than `unbindAll` keeps every stored subscription |
| `BindableModel.BindingStaysActive` | Sources/BindableUIKit/Bindable.swift:21-25 | a binding made at any point of a run is still stored at its end unless an `unbindAll` came later; later binds never replace earlier ones |
| `Bindables.Bindable.constructor` | Sources/BindableUIKit/Bindable.swift:17-19 | `init` stores the view with no subscriptions |
| `Bindables.Bindable.SetWrappedValue` | Sources/BindableUIKit/Bindable.swift:13 | assigning the view leaves `cancellables` as it was |
| `Bindables.Bindable.Bind` | Sources/BindableUIKit/Bindable.swift:21-25 | stores exactly one new subscription for the key path; the set grows by one |
| `Bindables.Bindable.BindOptional` | Sources/BindableUIKit/Bindable.swift:27-32 | the same, for a key path of optional type |
| `Bindables.Bindable.Deliver` | Sources/BindableUIKit/Bindable.swift:22-23 | a stored subscription writes its key path; any other delivery leaves the view unchanged |
| `Bindables.Bindable.UnbindAll` | Sources/BindableUIKit/Bindable.swift:34-36 | `cancellables` becomes empty; `wrappedValue` is unchanged |
| `Bindables.WeakBindable.constructor` | Sources/BindableUIKit/Bindable.swift:49-51 | `init` stores the optional view with no subscriptions |
| `Bindables.WeakBindable.WrappedValue` | Sources/BindableUIKit/Bindable.swift:42 | the getter returns the view the binder holds: the one last assigned, or nil once ARC released it (see `SetWrappedValue`, `Deallocate`) |
| `Bindables.WeakBindable.SetWrappedValue` | Sources/BindableUIKit/Bindable.swift:41-44 | `wrappedValue` reads back the value assigned; `cancellables` is untouched |
| `Bindables.WeakBindable.Deallocate` | Sources/BindableUIKit/Bindable.swift:46 | the weak reference reads nil afterwards; `cancellables` is untouched |
| `Bindables.WeakBindable.Bind` | Sources/BindableUIKit/Bindable.swift:53-57 | stores exactly one new subscription |
| `Bindables.WeakBindable.BindOptional` | Sources/BindableUIKit/Bindable.swift:59-64 | stores exactly one new subscription for an optional key path |
| `Bindables.WeakBindable.Deliver` | Sources/BindableUIKit/Bindable.swift:54-56 | with a view present, a stored subscription writes its key path into it; with the view nil, or on a dropped subscription, nothing changes |
| `Bindables.WeakBindable.UnbindAll` | Sources/BindableUIKit/Bindable.swift:66-68 | `cancellables` becomes empty; the view is unchanged |
| `BiDiModel.Init` | Sources/BindableUIKit/BiDiBindable.swift:96-103 | a new binder satisfies the invariant, has no unidirectional or bidirectional subscriptions, and has a view subscription exactly when it has a view |
| `BiDiModel.Assign` | Sources/BindableUIKit/BiDiBindable.swift:14-22 | assigning the view replaces the old view subscription with exactly one fresh one on the new view (none for nil); both subscription sets and the flag are unchanged; the invariant is kept |
| `BiDiModel.Deallocate` | Sources/BindableUIKit/BiDiBindable.swift:89 | a released weak view reads nil; `viewCancellable` and both sets are kept |
| `BiDiModel.BindKeyPath` | Sources/BindableUIKit/BiDiBindable.swift:40-52 | one more unidirectional subscription; nothing else changes; the invariant is kept |
| `BiDiModel.BindWith` | Sources/BindableUIKit/BiDiBindable.swift:54-65 | the bidirectional set becomes exactly the two subscriptions for the new channel, whatever was bound before; that channel is the only one bound; the view subscription is untouched |
| `BiDiModel.UnbindAll` | Sources/BindableUIKit/BiDiBindable.swift:67-71 | both sets are empty and `viewCancellable` is nil; the view is kept |
| `BiDiModel.Forward` | Sources/BindableUIKit/BiDiBindable.swift:17-20 | a change notification is sent on iff the view subscription is live on the current view and the flag is down; it then goes through every relay subscription, with the same value |
| `BiDiModel.UserChange` | Sources/BindableUIKit/BiDiBindable.swift:33-37 | a user change sets the control's value, changes no other state, and sends only that value, only through bidirectional subscriptions; without a view nothing happens |
| `BiDiModel.Writing` | Sources/BindableUIKit/BiDiBindable.swift:58-60 | while a subject's value is being written the flag is up, so the echo of that value is dropped by the sink and sent nowhere; no subscription changes |
| `BiDiModel.SourceEmit` | Sources/BindableUIKit/BiDiBindable.swift:57-61 | a subject emission never sends anything, echo or not; the flag ends down; subscriptions are unchanged; a subject the binder does not listen to changes nothing |
| `BiDiModel.DeliverKeyPath` | Sources/BindableUIKit/BiDiBindable.swift:42-44 | a key-path delivery keeps both subscription sets and the flag; on a dropped subscription or with no view it is a no-op; the invariant is kept |
| `BiDiModel.RelaysOfPair` | Sources/BindableUIKit/BiDiBindable.swift:62-64 | a bound channel has exactly one relay subscription |
| `BiDiModel.ForwardOnce` | Sources/BindableUIKit/BiDiBindable.swift:62-64 | under the invariant, a notification is sent at most once, exactly once iff a channel is bound and the view subscription is live, and only to a bound channel |
| `BiDiModel.UserChangeReachesBoundChannel` | Sources/BindableUIKit/BiDiBindable.swift:62-64 | a user change reaches the bound subject exactly once, with the same value, when the view subscription is live; otherwise it reaches nothing |
| `BiDiModel.SourceWriteShowsValue` | Sources/BindableUIKit/BiDiBindable.swift:57-61 | after a subject write of `v` on a live view, `bindableValue` is `v`, nothing else changed, nothing was sent and the invariant holds |
| `BiDiModel.UserChangeRoundTrip` | Sources/BindableUIKit/BiDiBindable.swift:54-65 | a user change is sent once to the bound subject; that subject's write-back of the value changes nothing and sends nothing, whether or not it echoes |
| `BiDiModel.RebindSupersedes` | Sources/BindableUIKit/BiDiBindable.swift:54-56 | after binding `a` and then `c`, only `c` is bound: `a`'s emissions change nothing, and user changes reach only `c` |
| `BiDiModel.UnbindAllIdempotent` | Sources/BindableUIKit/BiDiBindable.swift:67-71 | calling `unbindAll` twice equals calling it once |
| `BiDiModel.SilentAfterUnbindAll` | Sources/BindableUIKit/BiDiBindable.swift:67-71 | after `unbindAll`, user changes reach no channel and subject emissions change nothing |
| `BiDiModel.RebindAfterUnbindAllIsOneWay` | Sources/BindableUIKit/BiDiBindable.swift:54-71 | a channel bound after `unbindAll` drives the view, but user changes do not reach it |
| `BiDiModel.KeyPathDeliveryResubscribes` | Sources/BindableUIKit/BiDiBindable.swift:42-44 | a key-path delivery on a stored subscription writes the bound attribute of the same view (`WriteAttr`) and leaves `bindableValue` alone; it also installs a view subscription on that view whose token no held subscription has |
| `BiDiModel.InertWithoutView` | Sources/BindableUIKit/BiDiBindable.swift:122-126 | with the weak view nil, subject writes, key-path writes and user changes change nothing (the flag ends down), and assigning nil or starting with nil leaves no view subscription |
| `BiDiModel.StepKeepsValid` | Sources/BindableUIKit/BiDiBindable.swift:14-71 | every event keeps the invariant (flag down, at most one channel, every held subscription with its own token below `next`); only a user change sends, at most one value, and it is the user's |
| `BiDiModel.RunKeepsValid` | Sources/BindableUIKit/BiDiBindable.swift:17-20 | over any run of events the invariant holds, and no subject write or its echo is ever sent back; each user change is sent at most once |
| `BiDiModel.BoundAfterRun` | Sources/BindableUIKit/BiDiBindable.swift:54-71 | after any run, the bound channel is that of the last `bind(with:)`, or none if an `unbindAll` came after it |
| `BiDiModel.UserChangeReachesLatestOnly` | Sources/BindableUIKit/BiDiBindable.swift:54-65 | after any run, a user change reaches only the channel of the latest `bind(with:)` still in force |
| `BiDiBindables.BiDiBindable.constructor` | Sources/BindableUIKit/BiDiBindable.swift:31-38 | `init` subscribes to the view's changes and stores nothing else |
| `BiDiBindables.BiDiBindable.DidSet` | Sources/BindableUIKit/BiDiBindable.swift:15-22 | `didSet` replaces `viewCancellable` with one fresh subscription on the current view |
| `BiDiBindables.BiDiBindable.SetWrappedValue` | Sources/BindableUIKit/BiDiBindable.swift:14-22 | assigning the view leaves exactly one view subscription, on the new view |
| `BiDiBindables.BiDiBindable.BindKeyPath` | Sources/BindableUIKit/BiDiBindable.swift:40-52 | stores one new unidirectional subscription |
| `BiDiBindables.BiDiBindable.DeliverKeyPath` | Sources/BindableUIKit/BiDiBindable.swift:42-44 | on a stored subscription, the view becomes itself with the bound attribute written (`WriteAttr`) and `didSet` installs a fresh view subscription on it; on any other, nothing changes; both subscription sets are unchanged |
| `BiDiBindables.BiDiBindable.BindWith` | Sources/BindableUIKit/BiDiBindable.swift:54-65 | the bidirectional set becomes the pair for the new channel; the view and its subscription are unchanged |
| `BiDiBindables.BiDiBindable.UnbindAll` | Sources/BindableUIKit/BiDiBindable.swift:67-71 | both sets are empty and `viewCancellable` is nil; the view is kept |
| `BiDiBindables.BiDiBindable.ViewDidChange` | Sources/BindableUIKit/BiDiBindable.swift:17-20 | the sink sends only while the flag is down and the view subscription is live, only through bidirectional subscriptions, and only the value it received |
| `BiDiBindables.BiDiBindable.UserChange` | Sources/BindableUIKit/BiDiBindable.swift:33-37 | the control shows the user's value, and at most one value is sent |
| `BiDiBindables.BiDiBindable.SourceEmit` | Sources/BindableUIKit/BiDiBindable.swift:57-61 | the flag is raised around the write and ends down; the view shows the value if the binder listens to the channel; nothing is sent |
| `BiDiBindables.WeakBiDiBindable.constructor` | Sources/BindableUIKit/BiDiBindable.swift:96-103 | `init` with nil has no view subscription |
| `BiDiBindables.WeakBiDiBindable.WrappedValue` | Sources/BindableUIKit/BiDiBindable.swift:77 | the getter returns the view the binder holds; under the invariant, a live view subscription is on that view |
| `BiDiBindables.WeakBiDiBindable.SetWrappedValue` | Sources/BindableUIKit/BiDiBindable.swift:76-87 | the setter stores the view and leaves one fresh view subscription on it, none for nil |
| `BiDiBindables.WeakBiDiBindable.Deallocate` | Sources/BindableUIKit/BiDiBindable.swift:89 | the weak reference reads nil; `viewCancellable` is kept |
| `BiDiBindables.WeakBiDiBindable.BindKeyPath` | Sources/BindableUIKit/BiDiBindable.swift:105-117 | stores one new unidirectional subscription |
| `BiDiBindables.WeakBiDiBindable.DeliverKeyPath` | Sources/BindableUIKit/BiDiBindable.swift:107-109 | with a view present and a stored subscription, the view becomes itself with the bound attribute written (`WriteAttr`) and the setter installs a fresh view subscription on it; with the view nil or a dropped subscription, nothing changes |
| `BiDiBindables.WeakBiDiBindable.BindWith` | Sources/BindableUIKit/BiDiBindable.swift:119-130 | the bidirectional set becomes the pair for the new channel |
| `BiDiBindables.WeakBiDiBindable.UnbindAll` | Sources/BindableUIKit/BiDiBindable.swift:132-136 | both sets are empty and `viewCancellable` is nil; the view is kept |
| `BiDiBindables.WeakBiDiBindable.ViewDidChange` | Sources/BindableUIKit/BiDiBindable.swift:81-85 | sends only with a view, a live subscription and the flag down, and only the value it received |
| `BiDiBindables.WeakBiDiBindable.UserChange` | Sources/BindableUIKit/BiDiBindable.swift:98-102 | at most one value is sent; without a view nothing happens |
| `BiDiBindables.WeakBiDiBindable.SourceEmit` | Sources/BindableUIKit/BiDiBindable.swift:122-126 | nothing is sent and the flag ends down; with the view nil the state is unchanged |
| `Scenarios.ToggleRoundTrip` | Sources/BindableUIKit/BiDiBindable.swift:54-65 | a switch bound to a Boolean subject shows the subject's `true` without sending it back; the user's `false` reaches the subject exactly once |

## Left out

- `Source.swift` (a wrapper over `CurrentValueSubject`) is not part of this model. A subject is an abstract `ChannelId`, and each of its emissions is an explicit `SourceEmit` event. This includes the replay of the current value that a `CurrentValueSubject` delivers on subscription.
- `ValueBindable.swift` (the UIKit adapters) is not part of this model. A control is a value cell. Whether writing `bindableValue` makes the control fire its change notification is the `echoes` parameter, because UIKit's behaviour cannot be seen here. The link between `bindableValue` and the key path it is built on (e.g. `text`) is not modelled: they are separate cells.
- `receive(on: DispatchQueue.main)` and `@MainActor`: each delivery is one sequential step. The asynchronous hop to the main queue is not modelled.
- `SourceEmit`: `echoes` covers only an echo the control fires synchronously inside the write. An echo delivered on a later turn, after the flag is lowered, is a separate `UserChange` event, and it is forwarded to the subject, in the model as in the code.
- Combine and ARC internals are not modelled. `AnyCancellable` is a token, and dropping it from a set cancels it. Deallocating the binder itself (`[weak self]`) is not modelled. A released subject (`[weak sourceSubject]`) is not modelled either: the model records the `Send` regardless. The relay `PassthroughSubject` holds no state, and its fan-out is `Forward`.
- Generic key paths: a key path is a string key, and all attributes share one value type `A`. Its optional overload is the `optional` flag of the subscription.
- `projectedValue` is property-wrapper syntax and is left out.
- The concrete value types (`String`, `Bool`, `Float`, `Date`, …) are left out: the bound value type is generic.
