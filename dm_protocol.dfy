/**
 * What the two server-request handlers share: the server topics they bind to,
 * the response codes, the request and response documents reduced to the fields
 * the handlers touch, and the managed client they read device data from and
 * answer through.
 */
module DMProtocol {
  import opened Wrappers

  /** The server topics the device subscribes to for server-initiated actions. */
  datatype ServerTopic =
    | InitiateFirmwareDownload
    | InitiateFirmwareUpdate
    | InitiateReboot
    | InitiateFactoryReset

  /** The response codes a handler may answer with. */
  datatype ResponseCode = Accepted | BadRequest | InternalError | NotImplemented
  {
    /** The numeric code put in the response document's `rc` field. */
    function Code(): (c: int)
      ensures 200 <= c < 600
    {
      match this
      case Accepted => 202
      case BadRequest => 400
      case InternalError => 500
      case NotImplemented => 501
    }
  }

  /** The state of the device's firmware descriptor. */
  datatype FirmwareState = Idle | Downloading | Downloaded

  /** A firmware descriptor, reduced to what the download handler checks; `url` is null when unset. */
  datatype DeviceFirmware = DeviceFirmware(state: FirmwareState, url: Option<string>)

  /** Domain events the handlers fire towards the device's own action handlers. */
  datatype DeviceEvent = FirmwareDownloadStart | DeviceFactoryResetStart

  /**
   * A server request. `reqId` is absent when the document has no such member;
   * `fields` stands for every other member, which the handlers never read.
   */
  datatype Request = Request(reqId: Option<string>, fields: map<string, string>)

  /** What a handler decides for one request: the response code and the event fired, if any. */
  datatype Outcome = Outcome(rc: ResponseCode, event: Option<DeviceEvent>)

  /** The response document `{reqId, rc}`. */
  datatype Response = Response(reqId: Option<string>, rc: int)

  /** A subscription change asked of the transport. */
  datatype TopicCall = Subscribe(topic: ServerTopic) | Unsubscribe(topic: ServerTopic)

  /** The topics a sequence of subscription changes leaves subscribed. */
  function Subscribed(calls: seq<TopicCall>): set<ServerTopic>
  {
    if calls == [] then {}
    else
      var last := calls[|calls| - 1];
      match last
      case Subscribe(t) => Subscribed(calls[..|calls| - 1]) + {t}
      case Unsubscribe(t) => Subscribed(calls[..|calls| - 1]) - {t}
  }

  /**
   * The managed client as the handlers see it: the device data they read (the
   * firmware descriptor, whether a DeviceAction is present) and what they cause
   * (responses sent, events fired, subscription changes).
   */
  class ManagedDevice {
    var firmware: Option<DeviceFirmware>
    var hasDeviceAction: bool
    var responses: seq<Response>
    var firedEvents: seq<DeviceEvent>
    var topicCalls: seq<TopicCall>

    constructor (firmware: Option<DeviceFirmware>, hasDeviceAction: bool)
      ensures this.firmware == firmware && this.hasDeviceAction == hasDeviceAction
      ensures responses == [] && firedEvents == [] && topicCalls == []
    {
      this.firmware := firmware;
      this.hasDeviceAction := hasDeviceAction;
      responses, firedEvents, topicCalls := [], [], [];
    }

    /** Publishes a response to the server. */
    method Respond(response: Response)
      modifies this`responses
      ensures responses == old(responses) + [response]
    {
      responses := responses + [response];
    }

    /** Hands an event to the device's action handlers. */
    method FireEvent(event: DeviceEvent)
      modifies this`firedEvents
      ensures firedEvents == old(firedEvents) + [event]
    {
      firedEvents := firedEvents + [event];
    }

    /** Subscribes to a server topic; afterwards the topic is subscribed. */
    method SubscribeTo(topic: ServerTopic)
      modifies this`topicCalls
      ensures topicCalls == old(topicCalls) + [Subscribe(topic)]
      ensures Subscribed(topicCalls) == Subscribed(old(topicCalls)) + {topic}
    {
      topicCalls := topicCalls + [Subscribe(topic)];
      assert topicCalls[..|topicCalls| - 1] == old(topicCalls);
    }

    /** Unsubscribes from a server topic; afterwards the topic is not subscribed. */
    method UnsubscribeFrom(topic: ServerTopic)
      modifies this`topicCalls
      ensures topicCalls == old(topicCalls) + [Unsubscribe(topic)]
      ensures Subscribed(topicCalls) == Subscribed(old(topicCalls)) - {topic}
    {
      topicCalls := topicCalls + [Unsubscribe(topic)];
      assert topicCalls[..|topicCalls| - 1] == old(topicCalls);
    }
  }
}
