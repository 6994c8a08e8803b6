/** A client of BiDiBindable: a switch bound to a Boolean subject, driven
    first by the subject and then by the user. */
module Scenarios {
  import opened Binding
  import opened BiDiModel
  import opened BiDiBindables

  /** The subject sets `true`: the switch shows it, and the write's echo is
      not sent back. The user then flips the switch to `false`: the subject
      receives exactly that value, once. */
  method ToggleRoundTrip() returns (shown: bool, echoed: set<Send<bool>>, forwarded: set<Send<bool>>)
    ensures shown && echoed == {}
    ensures |forwarded| == 1
    ensures forall d | d in forwarded :: d.value == false && d.via.kind == RelayToSource(7)
  {
    var binder := new BiDiBindable<bool, bool>(Control(1, false, map[]));
    binder.BindWith(7);
    ghost var bound := binder.State();
    assert Listens(bound, 7) by {
      assert Sub(1, SourceToView(7)) in bound.bidirectional;
    }
    SourceWriteShowsValue(bound, 7, true, true);
    echoed := binder.SourceEmit(7, true, true);
    shown := binder.wrappedValue.bindableValue;
    ghost var before := binder.State();
    assert before.bidirectional == ChannelPair(1, 7);
    UserChangeRoundTrip(before, 7, false, true);
    forwarded := binder.UserChange(false);
  }
}
