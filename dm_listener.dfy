/**
 * The resource-change listener: one listener per managed client, kept in a
 * process-wide map; each listener lazily creates one change notifier per
 * resource of the device (location, diagnostic error codes, diagnostic log),
 * registers itself as an observer of that resource, and routes every
 * property-change event to one notifier operation.
 */
module DMListener {
  import opened Wrappers

  /** The observable resources of a device's data. */
  datatype ResourceKind = Location | ErrorCode | Log

  /** The device topics the notifiers publish on. */
  datatype DeviceTopic = UpdateLocation | CreateDiagErrCodes | AddDiagLog

  /** Each notifier is bound to the update topic of its own resource. */
  function NotifyTopic(k: ResourceKind): DeviceTopic {
    match k
    case Location => UpdateLocation
    case ErrorCode => CreateDiagErrCodes
    case Log => AddDiagLog
  }

  /** No two resources share an update topic. */
  lemma NotifyTopicInjective(k1: ResourceKind, k2: ResourceKind)
    ensures NotifyTopic(k1) == NotifyTopic(k2) ==> k1 == k2
  {
  }

  /**
   * A managed client (the map's key), with the resources its device data
   * holds; a resource that is absent is a null getter in the source.
   */
  datatype DMClient = DMClient(id: nat, location: bool, errorCode: bool, log: bool)
  {
    predicate Has(k: ResourceKind) {
      match k
      case Location => location
      case ErrorCode => errorCode
      case Log => log
    }
  }

  /** A change notifier; `id` is its identity, handed out when it is created. */
  datatype Notifier = Notifier(id: nat, topic: DeviceTopic)

  /** A listener: its identity and its three notifier fields (None is null). */
  datatype Listener = Listener(id: nat, location: Option<Notifier>, errorCode: Option<Notifier>, log: Option<Notifier>)
  {
    function Get(k: ResourceKind): Option<Notifier> {
      match k
      case Location => location
      case ErrorCode => errorCode
      case Log => log
    }

    /** The listener with the notifier field for `k` set to `n`. */
    function Set(k: ResourceKind, n: Option<Notifier>): (l: Listener)
      ensures l.id == id && l.Get(k) == n
      ensures forall k': ResourceKind :: k' != k ==> l.Get(k') == Get(k')
    {
      match k
      case Location => this.(location := n)
      case ErrorCode => this.(errorCode := n)
      case Log => this.(log := n)
    }
  }

  /** "The listener with identity `listener` observes resource `kind` of `device`". */
  datatype Registration = Registration(device: DMClient, kind: ResourceKind, listener: nat)

  // ---------------------------------------------------------------------------
  // Event routing
  // ---------------------------------------------------------------------------

  // The property names the resources fire. Their values live in the resource
  // classes, which are not part of this model; the routing depends only on their
  // being pairwise distinct (they are case labels of one switch).
  const LOG_CHANGE_EVENT: string := "LogChangeEvent"
  const ERRORCODE_CHANGE_EVENT: string := "ErrorCodeChangeEvent"
  const ERRORCODE_CLEAR_EVENT: string := "ClearErrorCodes"
  const LOG_CLEAR_EVENT: string := "ClearLog"
  const LOCATION_RESOURCE_NAME: string := "location"

  /** Which notifier operation an event calls. */
  datatype Op = HandleEvent | ClearEvent

  /** The five routes of the switch. */
  datatype Action = LogChange | ErrorCodeChange | ErrorCodeClear | LogClear | LocationChange
  {
    /** The resource whose notifier the route calls. */
    function Kind(): ResourceKind {
      match this
      case LogChange => Log
      case ErrorCodeChange => ErrorCode
      case ErrorCodeClear => ErrorCode
      case LogClear => Log
      case LocationChange => Location
    }

    /** The notifier operation the route calls. */
    function Operation(): Op {
      match this
      case LogChange => HandleEvent
      case ErrorCodeChange => HandleEvent
      case ErrorCodeClear => ClearEvent
      case LogClear => ClearEvent
      case LocationChange => HandleEvent
    }
  }

  /** The event name each route answers to. */
  function EventName(a: Action): string {
    match a
    case LogChange => LOG_CHANGE_EVENT
    case ErrorCodeChange => ERRORCODE_CHANGE_EVENT
    case ErrorCodeClear => ERRORCODE_CLEAR_EVENT
    case LogClear => LOG_CLEAR_EVENT
    case LocationChange => LOCATION_RESOURCE_NAME
  }

  /**
   * The switch of propertyChange as a function: the route of an event name,
   * None when no case matches (the switch has no default, so nothing happens).
   * A route is found exactly for the five names, and it is the one whose name
   * was given.
   */
  function Route(name: string): (a: Option<Action>)
    ensures a.Some? <==> name in {LOG_CHANGE_EVENT, ERRORCODE_CHANGE_EVENT, ERRORCODE_CLEAR_EVENT, LOG_CLEAR_EVENT, LOCATION_RESOURCE_NAME}
    ensures a.Some? ==> EventName(a.value) == name
  {
    if name == LOG_CHANGE_EVENT then Some(LogChange)
    else if name == ERRORCODE_CHANGE_EVENT then Some(ErrorCodeChange)
    else if name == ERRORCODE_CLEAR_EVENT then Some(ErrorCodeClear)
    else if name == LOG_CLEAR_EVENT then Some(LogClear)
    else if name == LOCATION_RESOURCE_NAME then Some(LocationChange)
    else None
  }

  /** Every route is reached by its own event name, so each name selects exactly one notifier call. */
  lemma RouteOfEventName(a: Action)
    ensures Route(EventName(a)) == Some(a)
  {
  }

  /** A notifier operation that was carried out. */
  datatype NotifierCall = NotifierCall(notifier: nat, topic: DeviceTopic, op: Op)

  /** What delivering one event did. */
  datatype Delivery =
    | Ignored                          // the name matched no case
    | Delivered(call: NotifierCall)    // the routed notifier was called
    | NullNotifier(kind: ResourceKind) // the routed notifier field was null: a NullPointerException

  // ---------------------------------------------------------------------------
  // The registry of listeners
  // ---------------------------------------------------------------------------

  /** Notifier fields that are set only for resources the device has, each bound to its own topic. */
  ghost predicate WellFormed(d: DMClient, l: Listener, nextId: nat) {
    && l.id < nextId
    && forall k: ResourceKind :: l.Get(k).Some? ==>
         (&& d.Has(k)
          && l.Get(k).value.topic == NotifyTopic(k)
          && l.Get(k).value.id < nextId)
  }

  /** A notifier exists for every resource the device has. */
  ghost predicate Complete(d: DMClient, l: Listener) {
    forall k: ResourceKind :: d.Has(k) ==> l.Get(k).Some?
  }

  /**
   * How often registration `r` belongs in the observer lists when `m` is the
   * map of listeners: once if the current listener of `r.device` has identity
   * `r.listener` and a notifier for `r.kind`, never otherwise.
   */
  ghost function Expected(m: map<DMClient, Listener>, r: Registration): nat {
    if r.device in m && m[r.device].id == r.listener && m[r.device].Get(r.kind).Some? then 1 else 0
  }

  /** Setting a null notifier field adds exactly the registration of that listener on that resource. */
  lemma ExpectedAfterSet(m: map<DMClient, Listener>, d: DMClient, k: ResourceKind, n: Notifier, r: Registration)
    requires d in m && m[d].Get(k).None?
    ensures Expected(m[d := m[d].Set(k, Some(n))], r) == Expected(m, r) + (if r == Registration(d, k, m[d].id) then 1 else 0)
  {
  }

  /** Removing a client's listener takes away exactly the registrations of its set notifier fields. */
  lemma ExpectedAfterRemove(m: map<DMClient, Listener>, d: DMClient, r: Registration)
    ensures Expected(m - {d}, r) == Expected(m, r) -
      (if d in m && r.device == d && r.listener == m[d].id && m[d].Get(r.kind).Some? then 1 else 0)
  {
  }

  /** The registration of listener `id` on resource `k` of `d`, when `present`. */
  function RegistrationIf(present: bool, d: DMClient, k: ResourceKind, id: nat): multiset<Registration> {
    if present then multiset{Registration(d, k, id)} else multiset{}
  }

  /** The registrations createNotifiers adds for listener `l` of `d`: one per resource the device has whose field is null. */
  function NewRegistrations(d: DMClient, l: Listener): multiset<Registration> {
    RegistrationIf(d.location && l.location.None?, d, Location, l.id)
    + RegistrationIf(d.errorCode && l.errorCode.None?, d, ErrorCode, l.id)
    + RegistrationIf(d.log && l.log.None?, d, Log, l.id)
  }

  /** The registrations listener `l` of `d` holds: one per notifier field that is set. */
  function HeldRegistrations(d: DMClient, l: Listener): multiset<Registration> {
    RegistrationIf(l.location.Some?, d, Location, l.id)
    + RegistrationIf(l.errorCode.Some?, d, ErrorCode, l.id)
    + RegistrationIf(l.log.Some?, d, Log, l.id)
  }

  /**
   * createNotifiers' step for resource `k`: a null field of a resource the
   * device has gets a notifier bound to the resource's topic, with the next
   * free identity; anything else is left as it is.
   */
  function FillField(d: DMClient, l: Listener, k: ResourceKind, next: nat): (Listener, nat) {
    if d.Has(k) && l.Get(k).None? then (l.Set(k, Some(Notifier(next, NotifyTopic(k)))), next + 1) else (l, next)
  }

  /** The listener createNotifiers leaves and the next free identity: location, then error code, then log. */
  function Filled(d: DMClient, l: Listener, next: nat): (Listener, nat) {
    var s1 := FillField(d, l, Location, next);
    var s2 := FillField(d, s1.0, ErrorCode, s1.1);
    FillField(d, s2.0, Log, s2.1)
  }

  /** createNotifiers completes the listener and keeps its identity. */
  lemma FilledCompletes(d: DMClient, l: Listener, next: nat)
    ensures Complete(d, Filled(d, l, next).0)
    ensures Filled(d, l, next).0.id == l.id
  {
    var f := Filled(d, l, next).0;
    assert d.Has(Location) ==> f.Get(Location).Some?;
    assert d.Has(ErrorCode) ==> f.Get(ErrorCode).Some?;
    assert d.Has(Log) ==> f.Get(Log).Some?;
  }

  /** createNotifiers uses up one fresh identity per registration it adds. */
  lemma FilledCount(d: DMClient, l: Listener, next: nat)
    ensures Filled(d, l, next).1 == next + |NewRegistrations(d, l)|
  {
  }

  /** createNotifiers keeps the notifiers the listener had, and the null fields of resources the device lacks. */
  lemma FilledKeeps(d: DMClient, l: Listener, next: nat, k: ResourceKind)
    requires !(d.Has(k) && l.Get(k).None?)
    ensures Filled(d, l, next).0.Get(k) == l.Get(k)
  {
  }

  /** Each notifier createNotifiers creates is bound to its resource's topic and has a fresh identity. */
  lemma FilledFresh(d: DMClient, l: Listener, next: nat, k: ResourceKind)
    requires d.Has(k) && l.Get(k).None?
    ensures Filled(d, l, next).0.Get(k).Some?
    ensures Filled(d, l, next).0.Get(k).value.topic == NotifyTopic(k)
    ensures next <= Filled(d, l, next).0.Get(k).value.id < Filled(d, l, next).1
  {
  }

  /** Distinct resources get notifiers with distinct identities. */
  lemma FilledIdentitiesDistinct(d: DMClient, l: Listener, next: nat, k1: ResourceKind, k2: ResourceKind)
    requires k1 != k2
    requires d.Has(k1) && l.Get(k1).None? && d.Has(k2) && l.Get(k2).None?
    ensures Filled(d, l, next).0.Get(k1).value.id != Filled(d, l, next).0.Get(k2).value.id
  {
  }

  /** On a complete listener createNotifiers changes nothing. */
  lemma FilledOnComplete(d: DMClient, l: Listener, next: nat)
    requires Complete(d, l)
    ensures Filled(d, l, next) == (l, next)
  {
    assert d.Has(Location) ==> l.Get(Location).Some?;
    assert d.Has(ErrorCode) ==> l.Get(ErrorCode).Some?;
    assert d.Has(Log) ==> l.Get(Log).Some?;
  }

  /** A listener that started well formed stays well formed. */
  lemma FilledWellFormed(d: DMClient, l: Listener, next: nat)
    requires WellFormed(d, l, next)
    ensures WellFormed(d, Filled(d, l, next).0, Filled(d, l, next).1)
  {
    FilledCompletes(d, l, next);
  }

  /** Adding three multisets in turn adds their sum. */
  lemma AddInTurn<T>(a: multiset<T>, b: multiset<T>, c: multiset<T>, e: multiset<T>)
    ensures a + b + c + e == a + (b + c + e)
  {
  }

  /** Six multisets summed pairwise or in two groups of three give the same multiset. */
  lemma Regroup<T>(a1: multiset<T>, a2: multiset<T>, a3: multiset<T>, b1: multiset<T>, b2: multiset<T>, b3: multiset<T>)
    ensures (a1 + b1) + (a2 + b2) + (a3 + b3) == (a1 + a2 + a3) + (b1 + b2 + b3)
  {
  }

  /**
   * A listener that has a notifier exactly where `l` had one or where `l` had
   * none for a resource of the device holds `l`'s registrations plus the new ones.
   */
  lemma HeldAfterFill(d: DMClient, l: Listener, f: Listener)
    requires f.id == l.id
    requires f.location.Some? <==> l.location.Some? || d.location
    requires f.errorCode.Some? <==> l.errorCode.Some? || d.errorCode
    requires f.log.Some? <==> l.log.Some? || d.log
    ensures HeldRegistrations(d, f) == HeldRegistrations(d, l) + NewRegistrations(d, l)
  {
    var a1 := RegistrationIf(l.location.Some?, d, Location, l.id);
    var a2 := RegistrationIf(l.errorCode.Some?, d, ErrorCode, l.id);
    var a3 := RegistrationIf(l.log.Some?, d, Log, l.id);
    var b1 := RegistrationIf(d.location && l.location.None?, d, Location, l.id);
    var b2 := RegistrationIf(d.errorCode && l.errorCode.None?, d, ErrorCode, l.id);
    var b3 := RegistrationIf(d.log && l.log.None?, d, Log, l.id);
    assert RegistrationIf(f.location.Some?, d, Location, f.id) == a1 + b1;
    assert RegistrationIf(f.errorCode.Some?, d, ErrorCode, f.id) == a2 + b2;
    assert RegistrationIf(f.log.Some?, d, Log, f.id) == a3 + b3;
    Regroup(a1, a2, a3, b1, b2, b3);
  }

  /** After createNotifiers the listener holds the registrations it held before plus the ones it added. */
  lemma FilledRegistrations(d: DMClient, l: Listener, next: nat)
    ensures HeldRegistrations(d, Filled(d, l, next).0) == HeldRegistrations(d, l) + NewRegistrations(d, l)
  {
    var f := Filled(d, l, next).0;
    FilledCompletes(d, l, next);
    forall k: ResourceKind
      ensures f.Get(k).Some? <==> l.Get(k).Some? || d.Has(k)
    {
      if d.Has(k) && l.Get(k).None? {
        FilledFresh(d, l, next, k);
      } else {
        FilledKeeps(d, l, next, k);
      }
    }
    assert f.Get(Location) == f.location && f.Get(ErrorCode) == f.errorCode && f.Get(Log) == f.log;
    HeldAfterFill(d, l, f);
  }

  /**
   * Every listener is well formed, and a listener observes a resource, once,
   * exactly when its notifier field for that resource is set; listeners no
   * longer in the map observe nothing.
   */
  ghost predicate CoherentState(m: map<DMClient, Listener>, obs: multiset<Registration>, nextId: nat) {
    && (forall d {:trigger WellFormed(d, m[d], nextId)} | d in m :: WellFormed(d, m[d], nextId))
    && (forall r: Registration {:trigger Expected(m, r)} :: obs[r] == Expected(m, r))
  }

  /** Creating a notifier for a null field, with a fresh identity, and registering it keeps the state coherent. */
  lemma AddKeepsCoherent(m: map<DMClient, Listener>, obs: multiset<Registration>, nextId: nat, d: DMClient, k: ResourceKind)
    requires CoherentState(m, obs, nextId)
    requires d in m && d.Has(k) && m[d].Get(k).None?
    ensures CoherentState(m[d := m[d].Set(k, Some(Notifier(nextId, NotifyTopic(k))))],
                          obs + multiset{Registration(d, k, m[d].id)}, nextId + 1)
  {
    var n := Notifier(nextId, NotifyTopic(k));
    var m' := m[d := m[d].Set(k, Some(n))];
    var obs' := obs + multiset{Registration(d, k, m[d].id)};
    forall r: Registration
      ensures obs'[r] == Expected(m', r)
    {
      ExpectedAfterSet(m, d, k, n, r);
    }
    forall d' | d' in m'
      ensures WellFormed(d', m'[d'], nextId + 1)
    {
      assert WellFormed(d', m[d'], nextId);
    }
  }

  /** Updating a key twice keeps the second value only. */
  lemma UpdateTwice<K, V>(m: map<K, V>, k: K, x: V, y: V)
    ensures m[k := x][k := y] == m[k := y]
  {
  }

  /** The registry's state: the map of listeners, the observer registrations and the identity counter. */
  datatype Snapshot = Snapshot(listeners: map<DMClient, Listener>, observers: multiset<Registration>, nextId: nat)

  /** One block of createNotifiers, for resource `k`, on the registry's state. */
  function FillStep(s: Snapshot, d: DMClient, k: ResourceKind): (r: Snapshot)
    requires d in s.listeners
    ensures r.listeners.Keys == s.listeners.Keys
  {
    var l := s.listeners[d];
    var f := FillField(d, l, k, s.nextId);
    Snapshot(s.listeners[d := f.0], s.observers + RegistrationIf(d.Has(k) && l.Get(k).None?, d, k, l.id), f.1)
  }

  /** createNotifiers on the registry's state: its three blocks in order. */
  function CreateStep(s: Snapshot, d: DMClient): Snapshot
    requires d in s.listeners
  {
    FillStep(FillStep(FillStep(s, d, Location), d, ErrorCode), d, Log)
  }

  /**
   * createNotifiers replaces only the listener of `d`, by Filled's, and adds to
   * the observers exactly the registrations NewRegistrations counts.
   */
  lemma CreateStepIsFilled(s: Snapshot, d: DMClient)
    requires d in s.listeners
    ensures var l := s.listeners[d];
      CreateStep(s, d) == Snapshot(s.listeners[d := Filled(d, l, s.nextId).0], s.observers + NewRegistrations(d, l), Filled(d, l, s.nextId).1)
  {
    var l := s.listeners[d];
    var f1 := FillField(d, l, Location, s.nextId);
    var f2 := FillField(d, f1.0, ErrorCode, f1.1);
    var f3 := FillField(d, f2.0, Log, f2.1);
    var r1 := RegistrationIf(d.location && l.location.None?, d, Location, l.id);
    var r2 := RegistrationIf(d.errorCode && l.errorCode.None?, d, ErrorCode, l.id);
    var r3 := RegistrationIf(d.log && l.log.None?, d, Log, l.id);
    assert f1.0.id == l.id && f1.0.Get(ErrorCode) == l.Get(ErrorCode) && f1.0.Get(Log) == l.Get(Log);
    assert f2.0.id == l.id && f2.0.Get(Log) == l.Get(Log);
    var s1 := FillStep(s, d, Location);
    assert s1 == Snapshot(s.listeners[d := f1.0], s.observers + r1, f1.1);
    var s2 := FillStep(s1, d, ErrorCode);
    UpdateTwice(s.listeners, d, f1.0, f2.0);
    assert s2 == Snapshot(s.listeners[d := f2.0], s.observers + r1 + r2, f2.1);
    UpdateTwice(s.listeners, d, f2.0, f3.0);
    assert FillStep(s2, d, Log) == Snapshot(s.listeners[d := f3.0], s.observers + r1 + r2 + r3, f3.1);
    AddInTurn(s.observers, r1, r2, r3);
  }

  /** One block of createNotifiers keeps the state coherent. */
  lemma FillKeepsCoherent(s: Snapshot, d: DMClient, k: ResourceKind)
    requires CoherentState(s.listeners, s.observers, s.nextId) && d in s.listeners
    ensures var r := FillStep(s, d, k); CoherentState(r.listeners, r.observers, r.nextId)
  {
    var m := s.listeners;
    if d.Has(k) && m[d].Get(k).None? {
      AddKeepsCoherent(m, s.observers, s.nextId, d, k);
    } else {
      assert m[d := m[d]] == m;
    }
  }

  /** createNotifiers as a whole keeps the state coherent. */
  lemma CreateKeepsCoherent(s: Snapshot, d: DMClient)
    requires CoherentState(s.listeners, s.observers, s.nextId) && d in s.listeners
    ensures var r := CreateStep(s, d); CoherentState(r.listeners, r.observers, r.nextId)
  {
    var s1 := FillStep(s, d, Location);
    var s2 := FillStep(s1, d, ErrorCode);
    FillKeepsCoherent(s, d, Location);
    FillKeepsCoherent(s1, d, ErrorCode);
    FillKeepsCoherent(s2, d, Log);
  }

  /** Putting a fresh listener without notifiers in the map keeps the state coherent. */
  lemma InsertKeepsCoherent(m: map<DMClient, Listener>, obs: multiset<Registration>, nextId: nat, d: DMClient)
    requires CoherentState(m, obs, nextId) && d !in m
    ensures CoherentState(m[d := Listener(nextId, None, None, None)], obs, nextId + 1)
  {
    var m' := m[d := Listener(nextId, None, None, None)];
    forall r: Registration
      ensures obs[r] == Expected(m', r)
    {
      assert Expected(m, r) == Expected(m', r);
    }
    forall d' | d' in m'
      ensures WellFormed(d', m'[d'], nextId + 1)
    {
      if d' != d {
        assert WellFormed(d', m[d'], nextId);
      }
    }
  }

  /** Removing a listener from the map and deregistering it from its resources keeps the state coherent. */
  lemma RemoveKeepsCoherent(m: map<DMClient, Listener>, obs: multiset<Registration>, nextId: nat, d: DMClient)
    requires CoherentState(m, obs, nextId) && d in m
    ensures CoherentState(m - {d}, obs - HeldRegistrations(d, m[d]), nextId)
  {
    var obs' := obs - HeldRegistrations(d, m[d]);
    forall r: Registration
      ensures obs'[r] == Expected(m - {d}, r)
    {
      ExpectedAfterRemove(m, d, r);
    }
    forall d' | d' in m - {d}
      ensures WellFormed(d', (m - {d})[d'], nextId)
    {
      assert WellFormed(d', m[d'], nextId);
    }
  }

  /** Coherent, and every listener in the map has a notifier for each resource its device has. */
  ghost predicate ValidState(s: Snapshot) {
    && CoherentState(s.listeners, s.observers, s.nextId)
    && forall d | d in s.listeners :: Complete(d, s.listeners[d])
  }

  /** The first half of start: the listener of `d` is reused, or a fresh one without notifiers is put in the map. */
  function Admit(s: Snapshot, d: DMClient): (r: Snapshot)
    ensures d in r.listeners
  {
    if d in s.listeners then s
    else Snapshot(s.listeners[d := Listener(s.nextId, None, None, None)], s.observers, s.nextId + 1)
  }

  /** Admitting a listener keeps the state coherent. */
  lemma AdmitKeepsCoherent(s: Snapshot, d: DMClient)
    requires CoherentState(s.listeners, s.observers, s.nextId)
    ensures var a := Admit(s, d); CoherentState(a.listeners, a.observers, a.nextId)
  {
    if d !in s.listeners {
      InsertKeepsCoherent(s.listeners, s.observers, s.nextId, d);
    }
  }

  /** start on the registry's state: admit the listener, then createNotifiers. */
  function StartStep(s: Snapshot, d: DMClient): Snapshot {
    CreateStep(Admit(s, d), d)
  }

  /** start keeps the registry valid. */
  lemma StartKeepsValid(s: Snapshot, d: DMClient)
    requires ValidState(s)
    ensures ValidState(StartStep(s, d))
  {
    var a := Admit(s, d);
    if d !in s.listeners {
      InsertKeepsCoherent(s.listeners, s.observers, s.nextId, d);
    }
    CreateKeepsCoherent(a, d);
    CreateStepIsFilled(a, d);
    FilledCompletes(d, a.listeners[d], a.nextId);
    var r := StartStep(s, d);
    forall d' | d' in r.listeners
      ensures Complete(d', r.listeners[d'])
    {
      if d' != d {
        assert r.listeners[d'] == s.listeners[d'];
      }
    }
  }

  /** start adds `d` to the map and leaves every other client's listener as it was. */
  lemma StartKeepsOthers(s: Snapshot, d: DMClient)
    ensures StartStep(s, d).listeners.Keys == s.listeners.Keys + {d}
    ensures forall d' | d' in s.listeners && d' != d :: StartStep(s, d).listeners[d'] == s.listeners[d']
  {
    CreateStepIsFilled(Admit(s, d), d);
  }

  /** A second start for a client changes nothing: its listener is reused and already complete. */
  lemma StartAgainChangesNothing(s: Snapshot, d: DMClient)
    requires ValidState(s) && d in s.listeners
    ensures StartStep(s, d) == s
  {
    StartOnCompleteChangesNothing(s, d);
  }

  /** start changes nothing for a client whose listener is already complete. */
  lemma StartOnCompleteChangesNothing(s: Snapshot, d: DMClient)
    requires d in s.listeners && Complete(d, s.listeners[d])
    ensures StartStep(s, d) == s
  {
    assert Admit(s, d) == s;
    FillOnCompleteChangesNothing(s, d, Location);
    FillOnCompleteChangesNothing(s, d, ErrorCode);
    FillOnCompleteChangesNothing(s, d, Log);
  }

  /** A block of createNotifiers changes nothing for a complete listener. */
  lemma FillOnCompleteChangesNothing(s: Snapshot, d: DMClient, k: ResourceKind)
    requires d in s.listeners && Complete(d, s.listeners[d])
    ensures FillStep(s, d, k) == s
  {
    var l := s.listeners[d];
    assert d.Has(k) ==> l.Get(k).Some?;
    assert s.listeners[d := l] == s.listeners;
    assert s.observers + multiset{} == s.observers;
  }

  /**
   * A first start gives the client a listener with an identity no earlier
   * listener had, holding a notifier exactly for the resources the device has,
   * registered once on each of them.
   */
  lemma StartFreshListener(s: Snapshot, d: DMClient)
    requires d !in s.listeners
    ensures StartStep(s, d).listeners[d].id == s.nextId
    ensures forall k: ResourceKind :: StartStep(s, d).listeners[d].Get(k).Some? <==> d.Has(k)
    ensures StartStep(s, d).observers == s.observers + NewRegistrations(d, Listener(s.nextId, None, None, None))
    ensures StartStep(s, d).nextId == s.nextId + 1 + |NewRegistrations(d, Listener(s.nextId, None, None, None))|
  {
    var a := Admit(s, d);
    var l := Listener(s.nextId, None, None, None);
    CreateStepIsFilled(a, d);
    FilledCompletes(d, l, a.nextId);
    FilledCount(d, l, a.nextId);
    forall k: ResourceKind
      ensures StartStep(s, d).listeners[d].Get(k).Some? ==> d.Has(k)
    {
      if !d.Has(k) {
        FilledKeeps(d, l, a.nextId, k);
      }
    }
  }

  /** stop on the registry's state: the listener of `d` leaves the map and the observer lists of its resources. */
  function StopStep(s: Snapshot, d: DMClient): Snapshot {
    if d in s.listeners then Snapshot(s.listeners - {d}, s.observers - HeldRegistrations(d, s.listeners[d]), s.nextId)
    else s
  }

  /** stop keeps the registry valid. */
  lemma StopKeepsValid(s: Snapshot, d: DMClient)
    requires ValidState(s)
    ensures ValidState(StopStep(s, d))
  {
    if d in s.listeners {
      RemoveKeepsCoherent(s.listeners, s.observers, s.nextId, d);
      var r := StopStep(s, d);
      forall d' | d' in r.listeners
        ensures Complete(d', r.listeners[d'])
      {
        assert r.listeners[d'] == s.listeners[d'];
      }
    }
  }

  /** After stop no resource of the client is observed by any listener: nothing of it is left registered. */
  lemma StopDeregistersAll(s: Snapshot, d: DMClient, r: Registration)
    requires ValidState(s) && r.device == d
    ensures StopStep(s, d).observers[r] == 0
  {
    StopKeepsValid(s, d);
    var t := StopStep(s, d);
    assert t.observers[r] == Expected(t.listeners, r);
  }

  /**
   * start followed by stop for a client that had no listener leaves the map of
   * listeners and the observer lists as they were; only identities are used up.
   */
  lemma StartThenStop(s: Snapshot, d: DMClient)
    requires d !in s.listeners
    ensures StopStep(StartStep(s, d), d) == Snapshot(s.listeners, s.observers, StartStep(s, d).nextId)
  {
    var l := Listener(s.nextId, None, None, None);
    var f := Filled(d, l, s.nextId + 1);
    FirstStartShape(s, d);
    var t := StartStep(s, d);
    FilledRegistrations(d, l, s.nextId + 1);
    assert HeldRegistrations(d, l) == multiset{};
    assert HeldRegistrations(d, t.listeners[d]) == NewRegistrations(d, l);
    UpdateThenRemove(s.listeners, d, f.0);
    AddThenSubtract(s.observers, NewRegistrations(d, l));
  }

  /** A first start puts Filled's listener for a fresh listener in the map and adds its registrations. */
  lemma FirstStartShape(s: Snapshot, d: DMClient)
    requires d !in s.listeners
    ensures var l := Listener(s.nextId, None, None, None); var f := Filled(d, l, s.nextId + 1);
      StartStep(s, d) == Snapshot(s.listeners[d := f.0], s.observers + NewRegistrations(d, l), f.1)
  {
    var l := Listener(s.nextId, None, None, None);
    var a := Admit(s, d);
    assert a == Snapshot(s.listeners[d := l], s.observers, s.nextId + 1);
    var f := Filled(d, l, s.nextId + 1);
    CreateStepIsFilled(a, d);
    UpdateTwice(s.listeners, d, l, f.0);
  }

  /** After stop, a new start for the same client builds a fresh listener, with an identity no earlier listener had. */
  lemma StopThenStartIsFresh(s: Snapshot, d: DMClient)
    ensures d !in StopStep(s, d).listeners
    ensures StartStep(StopStep(s, d), d).listeners[d].id == s.nextId
  {
    StartFreshListener(StopStep(s, d), d);
  }

  /** Adding a key that was absent and then removing it gives the map back. */
  lemma UpdateThenRemove<K, V>(m: map<K, V>, k: K, v: V)
    requires k !in m
    ensures m[k := v] - {k} == m
  {
  }

  /** Adding a multiset and then subtracting it gives the multiset back. */
  lemma AddThenSubtract<T>(a: multiset<T>, b: multiset<T>)
    ensures (a + b) - b == a
  {
  }

  /**
   * The static map of listeners, with the observer lists of the devices'
   * resources (restricted to these listeners), the identity counter, and the
   * notifier calls made so far.
   */
  class Registry {
    var dmListeners: map<DMClient, Listener>
    var observers: multiset<Registration>
    var nextId: nat
    var calls: seq<NotifierCall>

    /** The state is coherent: see CoherentState. */
    ghost predicate Coherent()
      reads this
    {
      CoherentState(dmListeners, observers, nextId)
    }

    /** The registry's state as a value. */
    ghost function State(): Snapshot
      reads this
    {
      Snapshot(dmListeners, observers, nextId)
    }

    /** Coherent, and every listener in the map has a notifier for each resource its device has. */
    ghost predicate Valid()
      reads this
    {
      ValidState(State())
    }

    constructor ()
      ensures Valid()
      ensures dmListeners == map[] && observers == multiset{} && calls == []
    {
      dmListeners, observers, nextId, calls := map[], multiset{}, 0, [];
    }

    /**
     * One block of createNotifiers: when the device has resource `k` and the
     * listener's notifier for it is still null, creates the notifier, bound to
     * the resource's topic, and registers the listener as an observer of the
     * resource; otherwise does nothing.
     */
    method FillNotifier(d: DMClient, k: ResourceKind)
      requires d in dmListeners
      modifies this`dmListeners, this`observers, this`nextId
      ensures State() == FillStep(old(State()), d, k)
    {
      ghost var s := State();
      var l := dmListeners[d];
      if d.Has(k) && l.Get(k).None? {
        observers := observers + multiset{Registration(d, k, l.id)};
        dmListeners := dmListeners[d := l.Set(k, Some(Notifier(nextId, NotifyTopic(k))))];
        nextId := nextId + 1;
      } else {
        assert s.observers + RegistrationIf(false, d, k, l.id) == s.observers;
        assert s.listeners[d := l] == s.listeners;
      }
    }

    /**
     * createNotifiers: its three blocks, one per resource. The listener of `d`
     * becomes Filled's and the observers gain NewRegistrations; the state stays
     * coherent.
     */
    method CreateNotifiers(d: DMClient)
      requires Coherent() && d in dmListeners
      modifies this`dmListeners, this`observers, this`nextId
      ensures State() == CreateStep(old(State()), d)
      ensures Coherent()
    {
      CreateKeepsCoherent(State(), d);
      FillNotifier(d, Location);
      FillNotifier(d, ErrorCode);
      FillNotifier(d, Log);
    }

    /**
     * start: reuses the client's listener when there is one and otherwise puts
     * a fresh one in the map, then creates its notifiers. Other clients'
     * listeners are untouched; a second start for the same client changes
     * nothing; a fresh listener gets an identity no earlier listener had.
     */
    method Start(d: DMClient)
      requires Valid()
      modifies this`dmListeners, this`observers, this`nextId
      ensures State() == StartStep(old(State()), d)
      ensures Valid()
    {
      ghost var s0 := State();
      StartKeepsValid(s0, d);
      AdmitKeepsCoherent(s0, d);
      if d !in dmListeners {
        dmListeners := dmListeners[d := Listener(nextId, None, None, None)];
        nextId := nextId + 1;
      }
      assert State() == Admit(s0, d);
      assert Coherent();
      CreateNotifiers(d);
    }

    /**
     * stop: removes the client's listener from the map and deregisters it from
     * exactly the resources whose notifier it had created (HeldRegistrations).
     * For a client never started it changes nothing.
     */
    method Stop(d: DMClient)
      requires Valid()
      modifies this`dmListeners, this`observers
      ensures State() == StopStep(old(State()), d)
      ensures Valid()
    {
      StopKeepsValid(State(), d);
      var dmListener := if d in dmListeners then Some(dmListeners[d]) else None;
      dmListeners := dmListeners - {d};
      if dmListener.Some? {
        observers := observers - HeldRegistrations(d, dmListener.value);
      }
    }

    /**
     * propertyChange, received by the listener of `d`: routes the event's name
     * and calls the routed notifier operation, which is recorded. An unknown
     * name does nothing. A name routed to a resource the device has always
     * reaches that resource's notifier; only for a resource the device lacks is
     * the field null.
     */
    method PropertyChange(d: DMClient, name: string) returns (r: Delivery)
      requires Valid() && d in dmListeners
      modifies this`calls
      ensures Route(name).None? ==> r == Ignored && calls == old(calls)
      ensures Route(name).Some? && d.Has(Route(name).value.Kind()) ==>
        var a := Route(name).value;
        var n := dmListeners[d].Get(a.Kind()).value;
        && n.topic == NotifyTopic(a.Kind())
        && r == Delivered(NotifierCall(n.id, n.topic, a.Operation()))
        && calls == old(calls) + [r.call]
      ensures Route(name).Some? && !d.Has(Route(name).value.Kind()) ==>
        r == NullNotifier(Route(name).value.Kind()) && calls == old(calls)
    {
      var l := dmListeners[d];
      assert WellFormed(d, l, nextId) && Complete(d, l);
      if name == LOG_CHANGE_EVENT {
        r := Notify(l.log, Log, HandleEvent);
      } else if name == ERRORCODE_CHANGE_EVENT {
        r := Notify(l.errorCode, ErrorCode, HandleEvent);
      } else if name == ERRORCODE_CLEAR_EVENT {
        r := Notify(l.errorCode, ErrorCode, ClearEvent);
      } else if name == LOG_CLEAR_EVENT {
        r := Notify(l.log, Log, ClearEvent);
      } else if name == LOCATION_RESOURCE_NAME {
        r := Notify(l.location, Location, HandleEvent);
      } else {
        r := Ignored;
      }
    }

    /** Calls `op` on a notifier field; a null field throws instead. */
    method Notify(field: Option<Notifier>, kind: ResourceKind, op: Op) returns (r: Delivery)
      modifies this`calls
      ensures field.None? ==> r == NullNotifier(kind) && calls == old(calls)
      ensures field.Some? ==> r == Delivered(NotifierCall(field.value.id, field.value.topic, op)) && calls == old(calls) + [r.call]
    {
      if field.None? {
        r := NullNotifier(kind);
      } else {
        r := Delivered(NotifierCall(field.value.id, field.value.topic, op));
        calls := calls + [r.call];
      }
    }
  }
}
