/** The handler of the server's "initiate factory reset" request. */
module FactoryResetHandler {
  import opened Wrappers
  import opened DMProtocol

  /**
   * A factory reset is decided only by whether the device has a DeviceAction:
   * without one it is "not implemented"; with one the reset-start event is
   * fired and the request accepted, with no further precondition.
   */
  function ResetOutcome(hasDeviceAction: bool): (o: Outcome)
    ensures o.rc in {Accepted, NotImplemented}
    ensures o.rc == Accepted <==> hasDeviceAction
    ensures o.event.Some? <==> hasDeviceAction
    ensures o.event.Some? ==> o.event.value == DeviceFactoryResetStart
  {
    if !hasDeviceAction then Outcome(NotImplemented, None)
    else Outcome(Accepted, Some(DeviceFactoryResetStart))
  }

  /** The request handler, bound to one managed client. */
  class FactoryResetRequestHandler {
    const dmClient: ManagedDevice

    constructor (dmClient: ManagedDevice)
      ensures this.dmClient == dmClient
    {
      this.dmClient := dmClient;
    }

    /** The topic this handler serves. */
    function GetTopic(): ServerTopic {
      InitiateFactoryReset
    }

    /** Subscribes to the handler's own topic. */
    method Subscribe()
      modifies dmClient`topicCalls
      ensures dmClient.topicCalls == old(dmClient.topicCalls) + [TopicCall.Subscribe(GetTopic())]
      ensures GetTopic() in Subscribed(dmClient.topicCalls)
    {
      dmClient.SubscribeTo(InitiateFactoryReset);
    }

    /** Unsubscribes from the handler's own topic. */
    method Unsubscribe()
      modifies dmClient`topicCalls
      ensures dmClient.topicCalls == old(dmClient.topicCalls) + [TopicCall.Unsubscribe(GetTopic())]
      ensures GetTopic() !in Subscribed(dmClient.topicCalls)
    {
      dmClient.UnsubscribeFrom(InitiateFactoryReset);
    }

    /**
     * Handles one request: sends exactly one response, carrying the request's
     * `reqId` as it came and the code ResetOutcome decides, and fires the
     * event it decides. Nothing of the request but `reqId` is read.
     */
    method HandleRequest(request: Request)
      modifies dmClient`responses, dmClient`firedEvents
      ensures var o := ResetOutcome(old(dmClient.hasDeviceAction));
        && dmClient.responses == old(dmClient.responses) + [Response(request.reqId, o.rc.Code())]
        && dmClient.firedEvents == old(dmClient.firedEvents) + (if o.event.Some? then [o.event.value] else [])
    {
      var rc := Accepted;
      var reqId := request.reqId;
      if !dmClient.hasDeviceAction {
        rc := NotImplemented;
      } else {
        dmClient.FireEvent(DeviceFactoryResetStart);
        rc := Accepted;
      }
      dmClient.Respond(Response(reqId, rc.Code()));
    }
  }

}
