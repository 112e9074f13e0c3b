/** The battery event stream: onListen, onCancel and the broadcast receiver that pushes a
    battery record to the listener each time the battery state changes. */
module BatteryStream {
  import opened Wrappers
  import opened Device
  import Battery

  /** An event sink handed over by the channel; sinks are told apart by identity only. */
  datatype Sink = Sink(id: nat)

  /** One `events.success(batteryInfo)` call. */
  datatype Delivery = Delivery(sink: Sink, record: Battery.BatteryRecord)

  /** The stream handler's state: the current sink (null when no one listens) and whether
      the battery receiver is registered with the context. `delivered` records, in order,
      every event pushed to a sink. */
  class BatteryEventSource {
    var sink: Option<Sink>
    var receiverRegistered: bool
    ghost var delivered: seq<Delivery>

    /** A sink is only ever set while the receiver is registered. */
    ghost predicate Valid()
      reads this
    {
      sink.Some? ==> receiverRegistered
    }

    constructor ()
      ensures Valid()
      ensures sink.None? && !receiverRegistered && delivered == []
    {
      sink := None;
      receiverRegistered := false;
      delivered := [];
    }

    /** onListen: keep the sink (which the channel may pass as null) and register the receiver
        for battery-changed broadcasts. A second listen is taken to leave the receiver registered
        once, so that one cancel unregisters it. */
    method OnListen(events: Option<Sink>)
      modifies this
      ensures Valid()
      ensures sink == events && receiverRegistered
      ensures delivered == old(delivered)
    {
      sink := events;
      receiverRegistered := true;
    }

    /** onCancel: unregister the receiver, then drop the sink. Unregistering a receiver that is
        not registered throws IllegalArgumentException before the sink is touched; `threw`
        reports that. Either way no sink remains and no receiver is registered afterwards. */
    method OnCancel() returns (threw: bool)
      requires Valid()
      modifies this
      ensures Valid()
      ensures threw <==> !old(receiverRegistered)
      ensures sink.None? && !receiverRegistered
      ensures threw ==> sink == old(sink)
      ensures delivered == old(delivered)
    {
      if !receiverRegistered {
        threw := true;
        return;
      }
      receiverRegistered := false;
      sink := None;
      threw := false;
    }

    /** A battery-changed broadcast reaching the receiver. It only arrives while the receiver is
        registered; the receiver then reads the battery state afresh and pushes it to the sink,
        if there is one. */
    method OnBroadcast(d: Snapshot)
      requires Valid()
      modifies this
      ensures Valid()
      ensures sink == old(sink) && receiverRegistered == old(receiverRegistered)
      ensures old(sink).Some? ==> delivered == old(delivered) + [Delivery(old(sink).value, Battery.BatteryInfo(d))]
      ensures old(sink).None? ==> delivered == old(delivered)
    {
      if receiverRegistered {
        var batteryInfo := Battery.BatteryInfo(d);
        if sink.Some? {
          delivered := delivered + [Delivery(sink.value, batteryInfo)];
        }
      }
    }
  }

  /** A listener sees one event per broadcast while it listens and none after it cancels;
      cancelling a second time throws. */
  method ListenReceiveCancel(s: Sink, d1: Snapshot, d2: Snapshot)
    returns (source: BatteryEventSource, secondCancelThrew: bool)
    ensures fresh(source)
    ensures source.delivered == [Delivery(s, Battery.BatteryInfo(d1))]
    ensures source.sink.None? && !source.receiverRegistered
    ensures secondCancelThrew
  {
    source := new BatteryEventSource();
    source.OnListen(Some(s));
    source.OnBroadcast(d1);
    var threw := source.OnCancel();
    assert !threw;
    source.OnBroadcast(d2);
    secondCancelThrew := source.OnCancel();
  }

  /** Cancelling before anyone listened throws, as unregistering an unknown receiver does. */
  method CancelWithoutListen() returns (threw: bool)
    ensures threw
  {
    var source := new BatteryEventSource();
    threw := source.OnCancel();
  }
}
