/** The handler of the server's "initiate firmware download" request. */
module FirmwareDownloadHandler {
  import opened Wrappers
  import opened DMProtocol

  /**
   * The precondition chain of a download request, decided from the device's
   * firmware descriptor alone: no descriptor is "not implemented"; a
   * descriptor that is not idle, or an idle one without a URL, is a bad
   * request; an idle descriptor with a URL fires one download-start event and
   * is accepted. Only a null URL is refused: a malformed one is accepted.
   */
  function DownloadOutcome(firmware: Option<DeviceFirmware>): (o: Outcome)
    ensures o.rc in {Accepted, BadRequest, NotImplemented}
    ensures o.rc == NotImplemented <==> firmware.None?
    ensures o.rc == Accepted <==> firmware.Some? && firmware.value.state == Idle && firmware.value.url.Some?
    ensures o.event.Some? <==> o.rc == Accepted
    ensures o.event.Some? ==> o.event.value == FirmwareDownloadStart
  {
    match firmware
    case None => Outcome(NotImplemented, None)
    case Some(fw) =>
      if fw.state != Idle then Outcome(BadRequest, None)
      else if fw.url.Some? then Outcome(Accepted, Some(FirmwareDownloadStart))
      else Outcome(BadRequest, None)
  }

  /** A firmware that is not idle is refused with 400 whatever its URL. */
  lemma BusyFirmwareIgnoresUrl(state: FirmwareState, url1: Option<string>, url2: Option<string>)
    requires state != Idle
    ensures DownloadOutcome(Some(DeviceFirmware(state, url1))) == DownloadOutcome(Some(DeviceFirmware(state, url2)))
    ensures DownloadOutcome(Some(DeviceFirmware(state, url1))) == Outcome(BadRequest, None)
  {
  }

  /** The request handler, bound to one managed client. */
  class FirmwareDownloadRequestHandler {
    const dmClient: ManagedDevice

    constructor (dmClient: ManagedDevice)
      ensures this.dmClient == dmClient
    {
      this.dmClient := dmClient;
    }

    /** The topic this handler serves. */
    function GetTopic(): ServerTopic {
      InitiateFirmwareDownload
    }

    /** Subscribes to the handler's own topic. */
    method Subscribe()
      modifies dmClient`topicCalls
      ensures dmClient.topicCalls == old(dmClient.topicCalls) + [TopicCall.Subscribe(GetTopic())]
      ensures GetTopic() in Subscribed(dmClient.topicCalls)
    {
      dmClient.SubscribeTo(InitiateFirmwareDownload);
    }

    /** Unsubscribes from the handler's own topic. */
    method Unsubscribe()
      modifies dmClient`topicCalls
      ensures dmClient.topicCalls == old(dmClient.topicCalls) + [TopicCall.Unsubscribe(GetTopic())]
      ensures GetTopic() !in Subscribed(dmClient.topicCalls)
    {
      dmClient.UnsubscribeFrom(InitiateFirmwareDownload);
    }

    /**
     * Handles one request: sends exactly one response, carrying the request's
     * `reqId` as it came and the code DownloadOutcome decides, and fires the
     * event it decides (at most one). The initial internal-error code is
     * overwritten on every path.
     */
    method HandleRequest(request: Request)
      modifies dmClient`responses, dmClient`firedEvents
      ensures var o := DownloadOutcome(old(dmClient.firmware));
        && dmClient.responses == old(dmClient.responses) + [Response(request.reqId, o.rc.Code())]
        && dmClient.firedEvents == old(dmClient.firedEvents) + (if o.event.Some? then [o.event.value] else [])
    {
      var rc := InternalError;
      var reqId := request.reqId;
      var deviceFirmware := dmClient.firmware;
      if deviceFirmware.None? {
        rc := NotImplemented;
      } else if deviceFirmware.value.state != Idle {
        rc := BadRequest;
      } else {
        if deviceFirmware.value.url.Some? {
          dmClient.FireEvent(FirmwareDownloadStart);
          rc := Accepted;
        } else {
          rc := BadRequest;
        }
      }
      dmClient.Respond(Response(reqId, rc.Code()));
    }
  }
}
