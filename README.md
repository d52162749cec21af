# Device management engine of the IoT Foundation Java client, in Dafny

This project models the device-management core of the IBM Watson IoT
Platform (IoT Foundation) Java client library and proves properties of that
model. It covers four parts:

- **The resource-change listener (`DMListener`).**
  - A process-wide map holds one listener per managed client.
  - `start` reuses the listener a client already has, or creates one.
  - `createNotifiers` gives the listener one change notifier for each resource
    the device has (location, diagnostic error codes, diagnostic log). Each
    notifier is bound to its resource's update topic, and the listener
    registers itself as an observer of that resource.
  - `propertyChange` routes each event name to one notifier operation.
  - `stop` removes the listener and deregisters it.
  - Modelled as the class `DMListener.Registry`. Its state as a value is
    `Snapshot`, and the step functions `StartStep`, `CreateStep` and `StopStep`
    act on that value. A listener is registered on a resource, exactly once,
    precisely when its notifier field for that resource is set. This
    invariant (`CoherentState`) is proved to be kept by every operation.
- **The two server-request handlers (`FirmwareDownloadRequestHandler`,
  `FactoryResetRequestHandler`).**
  - Each handler is bound to one server topic.
  - Each decides a response code from the device's data, fires at most one
    device event, and sends exactly one `{reqId, rc}` response, with the
    request's `reqId` echoed as it came.
  - The decision is a pure function (`DownloadOutcome`, `ResetOutcome`). The
    handler class calls it through the managed client (`DMProtocol.ManagedDevice`),
    which records responses, events and subscriptions.
- **The sample device agent (`SampleRasPiDMAgentWithCustomMqttClient`).**
  - `trimedValue` trims property values.
  - The `manage [lifetime]` command is parsed with `split(" ")` and
    `Integer.parseInt`, and the lifetime gets a one-hour floor.
  - `sendManageRequest` schedules the renewal task. Its delay and period are
    the lifetime less two minutes.
  - The firmware and reboot commands declare a capability and send manage again
    with lifetime 0.
  - The location, error-code and log update tasks are scheduled at most once
    each.
  - `sendUnManageRequest` cancels and clears the task slots.
  - The scheduled thread pool is a map from future to `(task, delay, period)`.
  - The agent is the class `SampleAgent.Agent`. Each of its methods is
    proved against a function on values: the task methods against step
    functions on `TaskState`, and each command of the loop against `Step`
    on the whole agent, `AgentState`.
  - `UserAction` runs the command loop over a finite sequence of input lines,
    and ends with the agent `Run` gives for those lines.
- **The java.lang text operations that the agent's behaviour depends on
  (`JavaText`).**
  - `String.trim()`.
  - `String.split(" ")`, including the removal of trailing empty strings.
  - `Integer.parseInt`, with `Integer.toString` as its inverse.

The agent as written never stores the renewal's future in `manageTask` (see
Findings). The model keeps that code as written
(`SendManageRequestAsWritten`, `ManageStepAsWritten`) and shows its effect. The
command loop uses the corrected `SendManageRequest`. For the corrected version
the model proves that at most one renewal is ever live, that it is held by
`manageTask`, and that unmanage cancels it.

## Model

| member | source | states |
|---|---|---|
| DMListener.NotifyTopicInjective | src/com/ibm/iotf/devicemgmt/device/listener/DMListener.java:88-109 | `NotifyTopic` gives each resource the update topic its notifier is built with. The three notifiers are bound to three distinct update topics. |
| DMListener.Route | src/com/ibm/iotf/devicemgmt/device/listener/DMListener.java:48-68 | `Action.Kind` and `Action.Operation` give the resource and the notifier operation of each case. An event name gets a route exactly when it is one of the five case labels. The route it gets is the one named by that label. Any other name matches no case, and nothing happens. |
| DMListener.RouteOfEventName | src/com/ibm/iotf/devicemgmt/device/listener/DMListener.java:48-68 | `EventName` gives each case its label. Every route is reached by its own event name, so each of the five names selects exactly one notifier operation. |
| DMListener.FillStep | src/com/ibm/iotf/devicemgmt/device/listener/DMListener.java:87-110 | One block of createNotifiers leaves the set of clients in the map unchanged. |
| DMListener.FilledCompletes | src/com/ibm/iotf/devicemgmt/device/listener/DMListener.java:85-116 | `Filled` is createNotifiers on one listener, three `FillField` blocks in source order. After createNotifiers, the listener has a notifier for every resource the device has, and it keeps its identity. |
| DMListener.FilledCount | src/com/ibm/iotf/devicemgmt/device/listener/DMListener.java:85-116 | createNotifiers creates one notifier for each registration it adds. |
| DMListener.FilledKeeps | src/com/ibm/iotf/devicemgmt/device/listener/DMListener.java:85-116 | createNotifiers keeps a notifier that already exists, and it leaves the field null for a resource the device lacks. |
| DMListener.FilledFresh | src/com/ibm/iotf/devicemgmt/device/listener/DMListener.java:85-116 | A notifier created for a present resource whose field was null is bound to that resource's topic and has a new identity. |
| DMListener.FilledIdentitiesDistinct | src/com/ibm/iotf/devicemgmt/device/listener/DMListener.java:85-116 | The notifiers created for two different resources are different objects. |
| DMListener.FilledOnComplete | src/com/ibm/iotf/devicemgmt/device/listener/DMListener.java:85-116 | createNotifiers changes nothing on a listener that already has all its notifiers, so it is idempotent. |
| DMListener.FilledWellFormed | src/com/ibm/iotf/devicemgmt/device/listener/DMListener.java:85-116 | createNotifiers sets fields only for resources the device has, and each with its own topic. |
| DMListener.FilledRegistrations | src/com/ibm/iotf/devicemgmt/device/listener/DMListener.java:85-116 | After createNotifiers, the listener's registrations are the ones it held before plus the ones createNotifiers added. |
| DMListener.CreateStepIsFilled | src/com/ibm/iotf/devicemgmt/device/listener/DMListener.java:85-116 | `CreateStep` is createNotifiers on the whole registry. createNotifiers replaces only this client's listener. Its observers gain exactly one registration for each present resource whose notifier was null. |
| DMListener.AddKeepsCoherent | src/com/ibm/iotf/devicemgmt/device/listener/DMListener.java:88-92 | Creating a notifier for a null field and registering the listener as an observer keeps the invariant: the listener is registered exactly when its field is set. |
| DMListener.FillKeepsCoherent | src/com/ibm/iotf/devicemgmt/device/listener/DMListener.java:87-110 | Each block of createNotifiers keeps that invariant. |
| DMListener.CreateKeepsCoherent | src/com/ibm/iotf/devicemgmt/device/listener/DMListener.java:85-116 | createNotifiers as a whole keeps that invariant. |
| DMListener.InsertKeepsCoherent | src/com/ibm/iotf/devicemgmt/device/listener/DMListener.java:77-80 | Putting a new listener without notifiers into the map keeps that invariant. |
| DMListener.Admit | src/com/ibm/iotf/devicemgmt/device/listener/DMListener.java:76-81 | After the first half of start, the client is in the map. |
| DMListener.AdmitKeepsCoherent | src/com/ibm/iotf/devicemgmt/device/listener/DMListener.java:76-81 | The first half of start keeps that invariant. |
| DMListener.RemoveKeepsCoherent | src/com/ibm/iotf/devicemgmt/device/listener/DMListener.java:120-132 | Removing a listener and deregistering it from the resources of its set fields keeps that invariant. |
| DMListener.StartKeepsValid | src/com/ibm/iotf/devicemgmt/device/listener/DMListener.java:72-83 | `StartStep` is start on the whole registry. start keeps the registry coherent, and every listener in the map complete. |
| DMListener.StartKeepsOthers | src/com/ibm/iotf/devicemgmt/device/listener/DMListener.java:76-82 | start adds only this client to the map, and every other client keeps its listener. |
| DMListener.StartAgainChangesNothing | src/com/ibm/iotf/devicemgmt/device/listener/DMListener.java:76-82 | A second start for a client reuses its listener, adds no observer, and changes nothing. |
| DMListener.StartOnCompleteChangesNothing | src/com/ibm/iotf/devicemgmt/device/listener/DMListener.java:76-82 | start changes nothing for a client whose listener already has all its notifiers. |
| DMListener.FillOnCompleteChangesNothing | src/com/ibm/iotf/devicemgmt/device/listener/DMListener.java:87-110 | A block of createNotifiers changes nothing for such a listener. |
| DMListener.StartFreshListener | src/com/ibm/iotf/devicemgmt/device/listener/DMListener.java:76-82 | A first start creates a listener with a new identity. That listener has a notifier exactly for the resources the device has, is registered once on each, and uses one identity per notifier. |
| DMListener.StopKeepsValid | src/com/ibm/iotf/devicemgmt/device/listener/DMListener.java:118-133 | `StopStep` is stop on the whole registry. stop keeps the registry valid. |
| DMListener.StopDeregistersAll | src/com/ibm/iotf/devicemgmt/device/listener/DMListener.java:118-133 | After stop, no resource of the client is observed by any listener. |
| DMListener.StartThenStop | src/com/ibm/iotf/devicemgmt/device/listener/DMListener.java:72-133 | For a client not yet started, start followed by stop leaves the map and the observer lists as they were. |
| DMListener.StopThenStartIsFresh | src/com/ibm/iotf/devicemgmt/device/listener/DMListener.java:76-120 | After stop, the client is no longer in the map, and a later start builds a new listener with a new identity. |
| DMListener.Registry.FillNotifier | src/com/ibm/iotf/devicemgmt/device/listener/DMListener.java:87-110 | One block of createNotifiers on the registry, as FillStep. |
| DMListener.Registry.constructor | src/com/ibm/iotf/devicemgmt/device/listener/DMListener.java:32 | The map starts empty, no listener observes any resource, and the registry is valid. |
| DMListener.Registry.CreateNotifiers | src/com/ibm/iotf/devicemgmt/device/listener/DMListener.java:85-116 | createNotifiers on the registry, as CreateStep. It keeps the registry coherent. |
| DMListener.Registry.Start | src/com/ibm/iotf/devicemgmt/device/listener/DMListener.java:72-83 | start on the registry, as StartStep. It keeps the registry valid. |
| DMListener.Registry.Stop | src/com/ibm/iotf/devicemgmt/device/listener/DMListener.java:118-133 | stop on the registry, as StopStep. It removes the client and exactly the registrations of its created notifiers, and it keeps the registry valid. |
| DMListener.Registry.PropertyChange | src/com/ibm/iotf/devicemgmt/device/listener/DMListener.java:47-69 | A name with no route is ignored. A route to a resource the device has calls the routed operation on that resource's notifier, which is bound to the resource's topic. The field is null only when the device lacks the resource. |
| DMListener.Registry.Notify | src/com/ibm/iotf/devicemgmt/device/listener/DMListener.java:50-66 | The routed operation is called on the notifier field, and a null field throws. |
| FirmwareDownloadHandler.DownloadOutcome | src/com/ibm/iotf/devicemgmt/device/handler/FirmwareDownloadRequestHandler.java:81-100 | rc is 202, 400 or 501, never the initial 500. It is 501 exactly when there is no descriptor, and 202 exactly when the state is idle and the URL is set. An event is fired exactly on 202, and it is the download start. |
| FirmwareDownloadHandler.BusyFirmwareIgnoresUrl | src/com/ibm/iotf/devicemgmt/device/handler/FirmwareDownloadRequestHandler.java:88-89 | When the firmware is not idle, the answer is 400 with no event, whatever the URL is. |
| FirmwareDownloadHandler.FirmwareDownloadRequestHandler.Subscribe | src/com/ibm/iotf/devicemgmt/device/handler/FirmwareDownloadRequestHandler.java:44-54 | The handler's topic (`GetTopic`) is initiate firmware download. Subscribes to the handler's own topic, initiate firmware download, which is then subscribed. |
| FirmwareDownloadHandler.FirmwareDownloadRequestHandler.Unsubscribe | src/com/ibm/iotf/devicemgmt/device/handler/FirmwareDownloadRequestHandler.java:59-62 | Unsubscribes from that topic, which is then no longer subscribed. |
| FirmwareDownloadHandler.FirmwareDownloadRequestHandler.HandleRequest | src/com/ibm/iotf/devicemgmt/device/handler/FirmwareDownloadRequestHandler.java:79-103 | Sends exactly one response, which carries the request's reqId and DownloadOutcome's code, and fires exactly the event DownloadOutcome decides. |
| FactoryResetHandler.ResetOutcome | src/com/ibm/iotf/devicemgmt/device/handler/FactoryResetRequestHandler.java:69-82 | rc is 202 or 501, and it is 202 exactly when a DeviceAction is present. The factory-reset start event is fired exactly then. |
| FactoryResetHandler.FactoryResetRequestHandler.Subscribe | src/com/ibm/iotf/devicemgmt/device/handler/FactoryResetRequestHandler.java:43-53 | The handler's topic (`GetTopic`) is initiate factory reset. Subscribes to initiate factory reset, which is then subscribed. |
| FactoryResetHandler.FactoryResetRequestHandler.Unsubscribe | src/com/ibm/iotf/devicemgmt/device/handler/FactoryResetRequestHandler.java:58-61 | Unsubscribes from initiate factory reset, which is then no longer subscribed. |
| FactoryResetHandler.FactoryResetRequestHandler.HandleRequest | src/com/ibm/iotf/devicemgmt/device/handler/FactoryResetRequestHandler.java:67-86 | Sends exactly one response, which carries the request's reqId and ResetOutcome's code, and fires exactly the event ResetOutcome decides. It reads nothing else of the request. |
| DMProtocol.ResponseCode.Code | src/com/ibm/iotf/devicemgmt/device/handler/FirmwareDownloadRequestHandler.java:101 | The numeric code sent as rc is an HTTP status from 200 to 599. |
| DMProtocol.ManagedDevice.Respond | src/com/ibm/iotf/devicemgmt/device/handler/FirmwareDownloadRequestHandler.java:102 | respond appends exactly the response to those the managed client has sent. |
| DMProtocol.ManagedDevice.FireEvent | src/com/ibm/iotf/devicemgmt/device/handler/FirmwareDownloadRequestHandler.java:94 | fireEvent appends exactly the event to those fired. |
| DMProtocol.ManagedDevice.SubscribeTo | src/com/ibm/iotf/devicemgmt/device/handler/FirmwareDownloadRequestHandler.java:53 | subscribe records the call, and the topic is then subscribed in addition to those already subscribed. |
| DMProtocol.ManagedDevice.UnsubscribeFrom | src/com/ibm/iotf/devicemgmt/device/handler/FirmwareDownloadRequestHandler.java:61 | unsubscribe records the call, and the topic is then no longer subscribed; the others keep their state. |
| JavaText.TrimStart | samples/iotfdevicemanagement/src/com/ibm/iotf/sample/devicemgmt/device/SampleRasPiDMAgentWithCustomMqttClient.java:181 | The result is a suffix of the input. What was dropped is all characters at or below U+0020, and the result does not start with such a character. |
| JavaText.TrimEnd | samples/iotfdevicemanagement/src/com/ibm/iotf/sample/devicemgmt/device/SampleRasPiDMAgentWithCustomMqttClient.java:181 | The result is a prefix of the input. What was dropped is all characters at or below U+0020, and the result does not end with such a character. |
| JavaText.Trim | samples/iotfdevicemanagement/src/com/ibm/iotf/sample/devicemgmt/device/SampleRasPiDMAgentWithCustomMqttClient.java:181 | The result of trim neither starts nor ends with a character at or below U+0020. |
| JavaText.TrimDecomposes | samples/iotfdevicemanagement/src/com/ibm/iotf/sample/devicemgmt/device/SampleRasPiDMAgentWithCustomMqttClient.java:181 | The input is a removed prefix, then the trimmed text, then a removed suffix, and both removed parts are all whitespace or control characters. |
| JavaText.TrimIdempotent | samples/iotfdevicemanagement/src/com/ibm/iotf/sample/devicemgmt/device/SampleRasPiDMAgentWithCustomMqttClient.java:181 | Trimming twice is the same as trimming once. |
| JavaText.Pieces | samples/iotfdevicemanagement/src/com/ibm/iotf/sample/devicemgmt/device/SampleRasPiDMAgentWithCustomMqttClient.java:481 | The text between spaces comes out as at least one piece, and no piece contains a space. |
| JavaText.JoinPieces | samples/iotfdevicemanagement/src/com/ibm/iotf/sample/devicemgmt/device/SampleRasPiDMAgentWithCustomMqttClient.java:481 | Joining the pieces with single spaces gives the line back. |
| JavaText.PiecesJoin | samples/iotfdevicemanagement/src/com/ibm/iotf/sample/devicemgmt/device/SampleRasPiDMAgentWithCustomMqttClient.java:481 | Cutting a join of space-free pieces gives the pieces back. |
| JavaText.DropTrailingEmpty | samples/iotfdevicemanagement/src/com/ibm/iotf/sample/devicemgmt/device/SampleRasPiDMAgentWithCustomMqttClient.java:481 | Only empty pieces at the end are removed, and all of them are. |
| JavaText.Split | samples/iotfdevicemanagement/src/com/ibm/iotf/sample/devicemgmt/device/SampleRasPiDMAgentWithCustomMqttClient.java:481 | split(" "): a line without a space comes back whole. Otherwise the result is its pieces less the trailing empty ones, and no piece contains a space. |
| JavaText.SplitWordAndArgument | samples/iotfdevicemanagement/src/com/ibm/iotf/sample/devicemgmt/device/SampleRasPiDMAgentWithCustomMqttClient.java:481 | A word, one space and a non-empty argument split into exactly those two strings. |
| JavaText.ParseInt | samples/iotfdevicemanagement/src/com/ibm/iotf/sample/devicemgmt/device/SampleRasPiDMAgentWithCustomMqttClient.java:490 | parseInt succeeds exactly on an optional `-` or `+` followed by one or more ASCII digits whose signed value fits in 32 bits. The value is that signed value: minus the digits after `-`, the digits otherwise. A failure is the NumberFormatException. |
| JavaText.FormatNat | samples/iotfdevicemanagement/src/com/ibm/iotf/sample/devicemgmt/device/SampleRasPiDMAgentWithCustomMqttClient.java:490 | The partner of parseInt: a non-empty run of decimal digits. |
| JavaText.FormatInt | samples/iotfdevicemanagement/src/com/ibm/iotf/sample/devicemgmt/device/SampleRasPiDMAgentWithCustomMqttClient.java:490 | The decimal text of an int, the partner of parseInt: non-empty and without a space, so it stays one piece of a split line. |
| JavaText.DigitsValueOfFormat | samples/iotfdevicemanagement/src/com/ibm/iotf/sample/devicemgmt/device/SampleRasPiDMAgentWithCustomMqttClient.java:490 | The digits written for n read back as n. |
| JavaText.ParseFormat | samples/iotfdevicemanagement/src/com/ibm/iotf/sample/devicemgmt/device/SampleRasPiDMAgentWithCustomMqttClient.java:490 | parseInt of the decimal text of n gives back n exactly when n is a 32-bit int, and fails otherwise. |
| JavaText.ParsePlusSign | samples/iotfdevicemanagement/src/com/ibm/iotf/sample/devicemgmt/device/SampleRasPiDMAgentWithCustomMqttClient.java:490 | A leading `+` changes nothing: parseInt reads `+N` as it reads `N`. |
| SampleAgent.TrimmedValue | samples/iotfdevicemanagement/src/com/ibm/iotf/sample/devicemgmt/device/SampleRasPiDMAgentWithCustomMqttClient.java:177-183 | A null value gives "", and any other value gives its trim, which has no surrounding whitespace. |
| SampleAgent.TrimmedValueIdempotent | samples/iotfdevicemanagement/src/com/ibm/iotf/sample/devicemgmt/device/SampleRasPiDMAgentWithCustomMqttClient.java:177-183 | A trimmed value goes through trimedValue unchanged. |
| SampleAgent.ClampLifetime | samples/iotfdevicemanagement/src/com/ibm/iotf/sample/devicemgmt/device/SampleRasPiDMAgentWithCustomMqttClient.java:492-496 | The result is 0 or at least 3600. The lifetime is unchanged exactly when it is 0 or at least 3600; otherwise, negatives included, it becomes 3600. |
| SampleAgent.ClampIdempotent | samples/iotfdevicemanagement/src/com/ibm/iotf/sample/devicemgmt/device/SampleRasPiDMAgentWithCustomMqttClient.java:492-496 | Clamping a clamped lifetime changes nothing. |
| SampleAgent.Interpret | samples/iotfdevicemanagement/src/com/ibm/iotf/sample/devicemgmt/device/SampleRasPiDMAgentWithCustomMqttClient.java:481-543 | A line that splits into nothing has no command. Otherwise the first piece alone picks the command: each of unmanage, firmware, reboot, location, errorcode, log and quit is chosen exactly when the first piece is that word, and any word outside the eight command words is unknown and carries that word. Manage is chosen exactly when the first piece is "manage". With exactly two pieces the second is parsed: it is rejected exactly when parseInt fails, and otherwise the lifetime is the clamped parsed value. With any other number of pieces the lifetime is 0. |
| SampleAgent.ManageCommand | samples/iotfdevicemanagement/src/com/ibm/iotf/sample/devicemgmt/device/SampleRasPiDMAgentWithCustomMqttClient.java:487-502 | `manage N`, for any integer N, asks for the clamped N when N is a 32-bit int, and is rejected when it is not. |
| SampleAgent.ManageNonInteger | samples/iotfdevicemanagement/src/com/ibm/iotf/sample/devicemgmt/device/SampleRasPiDMAgentWithCustomMqttClient.java:487-501 | `manage` followed by a word that is not an int sends no request. |
| SampleAgent.ManageWithoutLifetime | samples/iotfdevicemanagement/src/com/ibm/iotf/sample/devicemgmt/device/SampleRasPiDMAgentWithCustomMqttClient.java:503-505 | `manage` alone asks for lifetime 0. |
| SampleAgent.BlankLineHasNoWord | samples/iotfdevicemanagement/src/com/ibm/iotf/sample/devicemgmt/device/SampleRasPiDMAgentWithCustomMqttClient.java:481-483 | A line holding one space splits into nothing, so parameters[0] throws. |
| SampleAgent.RenewalSchedule | samples/iotfdevicemanagement/src/com/ibm/iotf/sample/devicemgmt/device/SampleRasPiDMAgentWithCustomMqttClient.java:305-312 | A renewal is scheduled exactly when the lifetime is positive. Its initial delay and its period are both the lifetime less two minutes, and the period is legal exactly when the lifetime exceeds two minutes. |
| SampleAgent.ClampedRenewalIsLegal | samples/iotfdevicemanagement/src/com/ibm/iotf/sample/devicemgmt/device/SampleRasPiDMAgentWithCustomMqttClient.java:305-312 | For every lifetime the command loop can send, any renewal has delay and period of at least 3480 seconds. |
| SampleAgent.ManageAsWrittenAddsRenewal | samples/iotfdevicemanagement/src/com/ibm/iotf/sample/devicemgmt/device/SampleRasPiDMAgentWithCustomMqttClient.java:300-312 | `ManageStepAsWritten` is sendManageRequest as written on the task bookkeeping. As written, each manage over two minutes adds a new renewal to the live ones, and manageTask stays null. |
| SampleAgent.ManageAsWrittenKeepsTasksOk | samples/iotfdevicemanagement/src/com/ibm/iotf/sample/devicemgmt/device/SampleRasPiDMAgentWithCustomMqttClient.java:300-312 | As written, sendManageRequest keeps the task bookkeeping sound and leaves manageTask as it was. |
| SampleAgent.ManageKeepsOneRenewal | samples/iotfdevicemanagement/src/com/ibm/iotf/sample/devicemgmt/device/SampleRasPiDMAgentWithCustomMqttClient.java:300-312 | `ManageStep` is sendManageRequest with the future kept. A manage then leaves exactly one live renewal when the lifetime exceeds two minutes: manageTask holds it, and it is RenewalSchedule's task for that lifetime. Otherwise it leaves none and manageTask is null. The location, error-code and log slots, and every task that is not a renewal, are left as they were (`ManageKeepsUpdates`). |
| SampleAgent.ManageStepKeepsUpdates | samples/iotfdevicemanagement/src/com/ibm/iotf/sample/devicemgmt/device/SampleRasPiDMAgentWithCustomMqttClient.java:300-312 | A manage cancels only the renewal manageTask holds and adds only a renewal, so it keeps the update slots and exactly the tasks that are not renewals. |
| SampleAgent.CancelLeavesNoRenewal | samples/iotfdevicemanagement/src/com/ibm/iotf/sample/devicemgmt/device/SampleRasPiDMAgentWithCustomMqttClient.java:301-303 | `CancelManage` is the cancel at the head of sendManageRequest. Cancelling the renewal held by manageTask leaves no renewal live. |
| SampleAgent.ManageKeepsRenewalsSafe | samples/iotfdevicemanagement/src/com/ibm/iotf/sample/devicemgmt/device/SampleRasPiDMAgentWithCustomMqttClient.java:305-312 | A manage with lifetime 0 or at least one hour leaves every live renewal at least 58 minutes apart. |
| SampleAgent.UnmanageClearsTasks | samples/iotfdevicemanagement/src/com/ibm/iotf/sample/devicemgmt/device/SampleRasPiDMAgentWithCustomMqttClient.java:376-399 | `UnmanageStep` is the cancels of sendUnManageRequest. After unmanage, all four slots are null, so every task can be scheduled again, and the bookkeeping stays sound. When manageTask held the renewal, no renewal survives. |
| SampleAgent.UnmanageKeepsUnheldRenewals | samples/iotfdevicemanagement/src/com/ibm/iotf/sample/devicemgmt/device/SampleRasPiDMAgentWithCustomMqttClient.java:376-399 | With manageTask null, which is always the case as written, unmanage cancels no renewal. |
| SampleAgent.ManageZeroAsWritten | samples/iotfdevicemanagement/src/com/ibm/iotf/sample/devicemgmt/device/SampleRasPiDMAgentWithCustomMqttClient.java:300-312 | With manageTask null, as it always is in the source, a manage with lifetime 0 (the one addFirmwareHandler and addDeviceActionHandler send) leaves the tasks as they were, as written and corrected alike. |
| SampleAgent.ScheduleFillsEmptySlot | samples/iotfdevicemanagement/src/com/ibm/iotf/sample/devicemgmt/device/SampleRasPiDMAgentWithCustomMqttClient.java:139-175 | `Slot` is the field a schedule task checks and fills. On a null slot the schedule task starts its own update task with delay 0 and period 30 under a fresh future, which the slot then holds. The pool gains exactly that task, and manageTask and the other slots are kept. On a filled slot, in any state, nothing changes. |
| SampleAgent.ScheduleOnce | samples/iotfdevicemanagement/src/com/ibm/iotf/sample/devicemgmt/device/SampleRasPiDMAgentWithCustomMqttClient.java:139-175 | `ScheduleStep` is one schedule task on the bookkeeping. Each schedule task fills its slot at most once, and a second call changes nothing. |
| SampleAgent.ScheduleKeepsTasksOk | samples/iotfdevicemanagement/src/com/ibm/iotf/sample/devicemgmt/device/SampleRasPiDMAgentWithCustomMqttClient.java:139-175 | Scheduling an update task keeps the bookkeeping sound, with at most one task of each kind, held by its slot. It touches neither manageTask nor any renewal. |
| SampleAgent.RenewalLeakAsWritten | samples/iotfdevicemanagement/src/com/ibm/iotf/sample/devicemgmt/device/SampleRasPiDMAgentWithCustomMqttClient.java:300-312 | As written, `manage 7200` twice and then unmanage leave two renewals live. With the future kept, they leave none. |
| SampleAgent.ShutdownKeepsTasksOk | samples/iotfdevicemanagement/src/com/ibm/iotf/sample/devicemgmt/device/SampleRasPiDMAgentWithCustomMqttClient.java:321-330 | Shutting the pool down and then unmanaging leaves no live task and sound bookkeeping. |
| SampleAgent.Step | samples/iotfdevicemanagement/src/com/ibm/iotf/sample/devicemgmt/device/SampleRasPiDMAgentWithCustomMqttClient.java:483-543 | What one command does to the agent. Only quit terminates it, and only firmware and reboot declare a capability (firmware actions and device actions). Unmanage and quit send one unmanage request each. At most one manage request is sent, only by manage, firmware or reboot, and it carries the lifetime (0 for firmware and reboot) and the capabilities after the command. Manage sends it exactly when the lifetime is not 1 to 120 seconds, while firmware and reboot always send it. A rejected lifetime, an unknown word and an empty line change nothing. |
| SampleAgent.NonIntegerManageChangesNothing | samples/iotfdevicemanagement/src/com/ibm/iotf/sample/devicemgmt/device/SampleRasPiDMAgentWithCustomMqttClient.java:487-501 | A `manage` line whose lifetime is not an int leaves the whole agent as it was: no request, no task, no capability. |
| SampleAgent.StepKeepsReady | samples/iotfdevicemanagement/src/com/ibm/iotf/sample/devicemgmt/device/SampleRasPiDMAgentWithCustomMqttClient.java:483-543 | Every command the loop can interpret keeps the agent Ready: sound task bookkeeping, the only live renewal held by manageTask and at least 58 minutes apart, and every manage request sent asking for 0 or at least one hour. |
| SampleAgent.Next | samples/iotfdevicemanagement/src/com/ibm/iotf/sample/devicemgmt/device/SampleRasPiDMAgentWithCustomMqttClient.java:478-549 | One pass of the loop: the agent is terminated afterwards exactly when it already was or the line is quit, and once terminated nothing changes. |
| SampleAgent.NextKeepsReady | samples/iotfdevicemanagement/src/com/ibm/iotf/sample/devicemgmt/device/SampleRasPiDMAgentWithCustomMqttClient.java:478-549 | One pass of the loop keeps the agent Ready. |
| SampleAgent.Run | samples/iotfdevicemanagement/src/com/ibm/iotf/sample/devicemgmt/device/SampleRasPiDMAgentWithCustomMqttClient.java:478-550 | The agent after the first n lines. The managed client is kept throughout. |
| SampleAgent.RunKeepsReady | samples/iotfdevicemanagement/src/com/ibm/iotf/sample/devicemgmt/device/SampleRasPiDMAgentWithCustomMqttClient.java:478-550 | Whatever lines it reads, the loop keeps the agent Ready. |
| SampleAgent.RunStopsAtQuit | samples/iotfdevicemanagement/src/com/ibm/iotf/sample/devicemgmt/device/SampleRasPiDMAgentWithCustomMqttClient.java:535-538 | After n lines the agent is terminated exactly when it was at the start or one of those lines is quit. |
| SampleAgent.RunAfterQuit | samples/iotfdevicemanagement/src/com/ibm/iotf/sample/devicemgmt/device/SampleRasPiDMAgentWithCustomMqttClient.java:535-538 | Once the agent has terminated, or a quit line has been read (`QuitRead`, which `RunTerminatedIsQuitRead` proves is the same), the remaining lines change nothing. |
| SampleAgent.AtMostOneRenewal | samples/iotfdevicemanagement/src/com/ibm/iotf/sample/devicemgmt/device/SampleRasPiDMAgentWithCustomMqttClient.java:95 | When manageTask holds the renewal, at most one renewal is live. |
| SampleAgent.Agent.constructor | samples/iotfdevicemanagement/src/com/ibm/iotf/sample/devicemgmt/device/SampleRasPiDMAgentWithCustomMqttClient.java:92-98 | A new agent has no client, no slot filled and an empty pool. |
| SampleAgent.Agent.CreateManagedClient | samples/iotfdevicemanagement/src/com/ibm/iotf/sample/devicemgmt/device/SampleRasPiDMAgentWithCustomMqttClient.java:192-264 | After createManagedClient succeeds, the managed client exists. |
| SampleAgent.Agent.Cancel | samples/iotfdevicemanagement/src/com/ibm/iotf/sample/devicemgmt/device/SampleRasPiDMAgentWithCustomMqttClient.java:302 | A cancelled periodic task is no longer in the pool. |
| SampleAgent.Agent.CancelSlot | samples/iotfdevicemanagement/src/com/ibm/iotf/sample/devicemgmt/device/SampleRasPiDMAgentWithCustomMqttClient.java:380-383 | Cancels the future a slot holds, if any. |
| SampleAgent.Agent.ScheduleAtFixedRate | samples/iotfdevicemanagement/src/com/ibm/iotf/sample/devicemgmt/device/SampleRasPiDMAgentWithCustomMqttClient.java:308-311 | A task with a legal period goes into the pool under a new future. |
| SampleAgent.Agent.SendManageRequestAsWritten | samples/iotfdevicemanagement/src/com/ibm/iotf/sample/devicemgmt/device/SampleRasPiDMAgentWithCustomMqttClient.java:300-319 | sendManageRequest as written, as ManageStepAsWritten. A lifetime of 1 to 120 throws before the request is sent, a null client throws, and otherwise the request goes out with the declared capabilities. |
| SampleAgent.Agent.SendManageRequest | samples/iotfdevicemanagement/src/com/ibm/iotf/sample/devicemgmt/device/SampleRasPiDMAgentWithCustomMqttClient.java:300-319 | The same, with the renewal's future kept in manageTask, as ManageStep. |
| SampleAgent.Agent.AddFirmwareHandler | samples/iotfdevicemanagement/src/com/ibm/iotf/sample/devicemgmt/device/SampleRasPiDMAgentWithCustomMqttClient.java:340-352 | With a client, declares firmware support and sends manage with lifetime 0, which schedules no renewal. Without one, nothing changes. |
| SampleAgent.Agent.AddDeviceActionHandler | samples/iotfdevicemanagement/src/com/ibm/iotf/sample/devicemgmt/device/SampleRasPiDMAgentWithCustomMqttClient.java:362-373 | With a client, declares device-action support and sends manage with lifetime 0. Without one, nothing changes. |
| SampleAgent.Agent.ScheduleLocationTask | samples/iotfdevicemanagement/src/com/ibm/iotf/sample/devicemgmt/device/SampleRasPiDMAgentWithCustomMqttClient.java:139-147 | With the managed client, schedules the location update every 30 seconds only when its slot is null, as ScheduleStep. Without the device data, building the task throws before anything is scheduled, so nothing changes. |
| SampleAgent.Agent.ScheduleErrorCodeTask | samples/iotfdevicemanagement/src/com/ibm/iotf/sample/devicemgmt/device/SampleRasPiDMAgentWithCustomMqttClient.java:152-160 | With the managed client, schedules the error-code update every 30 seconds only when its slot is null, as ScheduleStep. Without the device data, building the task throws before anything is scheduled, so nothing changes. |
| SampleAgent.Agent.ScheduleLogTask | samples/iotfdevicemanagement/src/com/ibm/iotf/sample/devicemgmt/device/SampleRasPiDMAgentWithCustomMqttClient.java:166-175 | With the managed client, schedules the log update every 30 seconds only when its slot is null, as ScheduleStep. Without the device data, building the task throws before anything is scheduled, so nothing changes. |
| SampleAgent.Agent.SendUnManageRequest | samples/iotfdevicemanagement/src/com/ibm/iotf/sample/devicemgmt/device/SampleRasPiDMAgentWithCustomMqttClient.java:376-400 | With a client, sends unmanage, then cancels and nulls every filled slot, as UnmanageStep. Without one, it throws and nothing changes. |
| SampleAgent.Agent.Terminate | samples/iotfdevicemanagement/src/com/ibm/iotf/sample/devicemgmt/device/SampleRasPiDMAgentWithCustomMqttClient.java:321-330 | With a client, shuts the pool down, dropping every periodic task, and sends unmanage. The agent is then terminated. |
| SampleAgent.Agent.Execute | samples/iotfdevicemanagement/src/com/ibm/iotf/sample/devicemgmt/device/SampleRasPiDMAgentWithCustomMqttClient.java:483-543 | One command of the switch, with a managed client: the whole agent (capabilities, task slots, pool, requests sent, terminated) becomes what Step gives for that command. The result says whether the command was quit. |
| SampleAgent.Agent.ExecuteManagement | samples/iotfdevicemanagement/src/com/ibm/iotf/sample/devicemgmt/device/SampleRasPiDMAgentWithCustomMqttClient.java:485-521 | manage, unmanage, firmware and reboot, with a managed client: the agent becomes what Step gives for the command. |
| SampleAgent.Agent.ExecuteUpdate | samples/iotfdevicemanagement/src/com/ibm/iotf/sample/devicemgmt/device/SampleRasPiDMAgentWithCustomMqttClient.java:523-533 | location, errorcode and log, with a managed client: the agent becomes what Step gives for the command. |
| SampleAgent.Agent.HandleCommand | samples/iotfdevicemanagement/src/com/ibm/iotf/sample/devicemgmt/device/SampleRasPiDMAgentWithCustomMqttClient.java:478-549 | One pass of the loop: the command is the interpretation of the line, and the agent becomes what Step gives for it. |
| SampleAgent.UserAction | samples/iotfdevicemanagement/src/com/ibm/iotf/sample/devicemgmt/device/SampleRasPiDMAgentWithCustomMqttClient.java:471-552 | With a managed client, lines are handled in order, each as its interpretation, until the first quit, or until the input ends with no quit. The agent ends exactly as Run gives for all the lines. It stays Ready, and at most one renewal is live. |

## Left out

- MQTT and TLS connection setup, properties-file loading, and the default-path lookup are left out. They are I/O, and they only feed `createManagedClient`, which the model reduces to "the managed client exists".
- `scheduleDeviceEventPublishTask` is left out: nothing calls it.
- Printing and logging are left out. They have no effect the model could observe.
- `Scanner` input becomes a finite sequence of lines. When the input ends without `quit`, the loop stops. The Java loop would spin on the `NoSuchElementException` instead.
- `System.exit` after `quit`, and `mqttClient.disconnect()` in terminate, are left out: `Terminate` marks the agent terminated and the loop stops.
- The platform's answer to a manage request comes with each input line (`Input.accepts`). `ManagedDevice.manage` and `unmanage` are not part of this model; they appear only as the recorded requests.
- Real time and concurrency are left out. Scheduled tasks never run; the pool records only which periodic tasks are live, with their delay and period.
- Scheduling after `shutdown` is left out, because the program exits right after it.
- UserAction: the loop requires the managed client, because `main` calls `userAction` only after `createManagedClient` has succeeded (lines 112-113). A loop without a client is not modelled. Without a client, `Terminate` sends nothing and changes no task, and the `Schedule*Task` methods change nothing, as the null device data makes them throw. The throwing `disconnect` is left out, as said above.
- AddFirmwareHandler: sends manage through the corrected `SendManageRequest`. This changes nothing, because its lifetime is 0 and manageTask is always null in the source, so both versions leave the tasks as they were (`ManageZeroAsWritten`).
- AddDeviceActionHandler: the same as AddFirmwareHandler.
- UserAction: the loop uses the corrected sendManageRequest (`SendManageRequest`). The source's loop uses it as written, where each manage over two minutes adds a renewal nothing holds (`ManageAsWrittenAddsRenewal`), so "at most one live renewal" does not hold for the loop as written.
- Execute: carries out manage with the corrected sendManageRequest, as UserAction does; as written, its manage adds an unheld renewal instead of replacing the one in manageTask.
- ExecuteManagement: the same correction as Execute, for manage, firmware and reboot.
- HandleCommand: the same correction as Execute.
- Step: describes the corrected sendManageRequest; `ManageStepAsWritten` describes the task bookkeeping as written.
- Run: built from Step, so it describes the loop with the corrected sendManageRequest.
- The notifiers' own `handleEvent` and `clearEvent`, and the resources' observer lists, are left out. A call is recorded as (notifier, topic, operation). The observer lists are one multiset of registrations, counting only these listeners.
- DMListener.DMClient: the resources a device has are fixed for each client. The source reads them through `getDeviceData()` on every call; the sample builds its device data once.
- DMListener: the five event-name constants live in resource classes that are not part of this model, so stand-in literals are used. The routing proofs depend only on the names being pairwise distinct, which they must be as case labels of one switch.
- JavaText.ParseInt: only ASCII digits are modelled. `Integer.parseInt` also accepts other Unicode decimal digits.
- JavaText.Trim: the function's own contract states only that the result has no trimmable character at either end. Where the result sits inside the input is proved separately, in `JavaText.TrimDecomposes`.
- Gson mechanics are left out. A request is its `reqId` (absent or a string) plus the members no handler reads. A response is `{reqId, rc}`.
- The handler base class (`DMRequestHandler`: `respond`, `subscribe`, `unsubscribe`) is not part of this model. Its effects are recorded on `DMProtocol.ManagedDevice`.

## Findings

| source | as written | input that shows it | evidently intended | confidence | as-written member | corrected member |
|---|---|---|---|---|---|---|
| samples/iotfdevicemanagement/src/com/ibm/iotf/sample/devicemgmt/device/SampleRasPiDMAgentWithCustomMqttClient.java:308-311 | The future returned by `scheduleAtFixedRate` is dropped. `manageTask` (line 95) is never assigned, so the cancels at 301-303 and 380-383 never fire. Renewal tasks pile up, and unmanage leaves them running. | `manage 7200`, `manage 7200`, `unmanage`: two renewal tasks stay scheduled. | Store the future in `manageTask`, so that each manage replaces the previous renewal and unmanage cancels it. | not executed | SampleAgent.RenewalLeakAsWritten | SampleAgent.ManageKeepsOneRenewal |
