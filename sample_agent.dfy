/**
 * The sample device-management agent's lifecycle and command logic: property
 * trimming, the `manage [lifetime]` command with its one-hour floor, the
 * renewal and update tasks kept in a scheduled thread pool, and the
 * manage/unmanage requests sent to the platform.
 */
module SampleAgent {
  import opened Wrappers
  import opened JavaText

  // ---------------------------------------------------------------------------
  // Property values
  // ---------------------------------------------------------------------------

  /**
   * trimedValue: "" for a missing property, the trimmed value otherwise. The
   * separate test for "" changes nothing, since trimming "" gives "".
   */
  function TrimmedValue(value: Option<string>): (r: string)
    ensures value.None? ==> r == ""
    ensures value.Some? ==> r == Trim(value.value)
    ensures r == [] || (!IsTrimmable(r[0]) && !IsTrimmable(r[|r| - 1]))
  {
    if value.None? || value.value == "" then "" else Trim(value.value)
  }

  /** A value that went through trimedValue comes out of it unchanged. */
  lemma TrimmedValueIdempotent(value: Option<string>)
    ensures TrimmedValue(Some(TrimmedValue(value))) == TrimmedValue(value)
  {
    if value.Some? {
      TrimIdempotent(value.value);
    }
  }

  // ---------------------------------------------------------------------------
  // The command line
  // ---------------------------------------------------------------------------

  /** The minimum lifetime of a manage request, one hour in seconds. */
  const MIN_LIFETIME: int := 3600

  /** A non-zero lifetime under one hour, negative ones included, becomes one hour. */
  function ClampLifetime(lifetime: int): (r: int)
    ensures r == 0 || r >= MIN_LIFETIME
    ensures r == lifetime <==> lifetime == 0 || lifetime >= MIN_LIFETIME
    ensures r != lifetime ==> r == MIN_LIFETIME
  {
    if lifetime != 0 && lifetime < MIN_LIFETIME then MIN_LIFETIME else lifetime
  }

  /** Clamping a clamped lifetime changes nothing. */
  lemma ClampIdempotent(lifetime: int)
    ensures ClampLifetime(ClampLifetime(lifetime)) == ClampLifetime(lifetime)
  {
  }

  /** What one line typed at the agent asks for. */
  datatype Command =
    | Manage(lifetime: int)    // manage, with the lifetime to send
    | ManageBadLifetime        // manage with an argument that is not an int: nothing is sent
    | Unmanage
    | Firmware
    | Reboot
    | Location
    | ErrorCode
    | Log
    | Quit
    | Unknown(word: string)    // the default branch
    | NoWord                   // the line splits into no piece: parameters[0] throws

  /** The case labels of userAction's switch. */
  const COMMAND_WORDS: set<string> := {"manage", "unmanage", "firmware", "reboot", "location", "errorcode", "log", "quit"}

  /**
   * The switch of userAction on the first piece of `input.split(" ")`. For
   * manage, exactly two pieces give the parsed and clamped lifetime, or no
   * request when the second piece is not an int; any other number of pieces
   * gives lifetime 0.
   */
  function Interpret(input: string): (c: Command)
    ensures c == NoWord <==> Split(input) == []
    ensures c.Manage? || c == ManageBadLifetime <==> Split(input) != [] && Split(input)[0] == "manage"
    ensures c == ManageBadLifetime <==> |Split(input)| == 2 && Split(input)[0] == "manage" && ParseInt(Split(input)[1]).None?
    ensures c.Manage? ==> c.lifetime == 0 || c.lifetime >= MIN_LIFETIME
    ensures c.Manage? && |Split(input)| != 2 ==> c.lifetime == 0
    ensures |Split(input)| == 2 && Split(input)[0] == "manage" && ParseInt(Split(input)[1]).Some? ==>
      c == Manage(ClampLifetime(ParseInt(Split(input)[1]).value))
    ensures Split(input) != [] ==> var w := Split(input)[0];
      && (c == Unmanage <==> w == "unmanage")
      && (c == Firmware <==> w == "firmware")
      && (c == Reboot <==> w == "reboot")
      && (c == Location <==> w == "location")
      && (c == ErrorCode <==> w == "errorcode")
      && (c == Log <==> w == "log")
      && (c == Quit <==> w == "quit")
      && (c.Unknown? <==> w !in COMMAND_WORDS)
      && (c.Unknown? ==> c.word == w)
  {
    var parameters := Split(input);
    if |parameters| == 0 then NoWord
    else
      match parameters[0]
      case "manage" =>
        if |parameters| == 2 then
          match ParseInt(parameters[1])
          case None => ManageBadLifetime
          case Some(lifetime) => Manage(ClampLifetime(lifetime))
        else
          Manage(0)
      case "unmanage" => Unmanage
      case "firmware" => Firmware
      case "reboot" => Reboot
      case "location" => Location
      case "errorcode" => ErrorCode
      case "log" => Log
      case "quit" => Quit
      case _ => Unknown(parameters[0])
  }

  /** `manage` and one word split into those two pieces. */
  lemma SplitManageLine(arg: string)
    requires ' ' !in arg && arg != ""
    ensures Split("manage " + arg) == ["manage", arg]
  {
    SplitWordAndArgument("manage", arg);
    assert "manage " + arg == "manage" + " " + arg;
  }

  /** `manage N` asks for the clamped N when N is an int, and sends nothing when N is out of range. */
  lemma ManageCommand(n: int)
    ensures Interpret("manage " + FormatInt(n)) == if IsInt32(n) then Manage(ClampLifetime(n)) else ManageBadLifetime
  {
    SplitManageLine(FormatInt(n));
    ParseFormat(n);
  }

  /** `manage` followed by a word that is not an int sends nothing. */
  lemma ManageNonInteger(arg: string)
    requires ' ' !in arg && arg != "" && ParseInt(arg).None?
    ensures Interpret("manage " + arg) == ManageBadLifetime
  {
    SplitManageLine(arg);
  }

  /** `manage` alone asks for lifetime 0. */
  lemma ManageWithoutLifetime()
    ensures Interpret("manage") == Manage(0)
  {
    assert ' ' !in "manage";
  }

  /** A line of one space splits into no piece at all. */
  lemma BlankLineHasNoWord()
    ensures Interpret(" ") == NoWord
  {
    assert " "[0] == ' ';
    assert FirstSpace(" ") == 0;
    assert " "[1..] == "";
    assert Pieces(" ") == ["", ""];
  }

  // ---------------------------------------------------------------------------
  // The scheduled thread pool
  // ---------------------------------------------------------------------------

  /** Handle of a task scheduled in the pool. */
  type FutureId = nat

  /** The periodic tasks the agent schedules. */
  datatype Task = ManageRenewal(lifetime: int) | LocationUpdate | ErrorCodeUpdate | LogUpdate

  /** A periodic task with its initial delay and period, in seconds. */
  datatype Scheduled = Scheduled(task: Task, delay: int, period: int)

  const TWO_MINUTES: int := 60 * 2
  const UPDATE_PERIOD: int := 30

  /** The renewal sendManageRequest schedules: none for lifetime 0, otherwise delay and period of lifetime less two minutes. */
  function RenewalSchedule(lifetime: int): (r: Option<Scheduled>)
    ensures r.Some? <==> lifetime > 0
    ensures r.Some? ==> r.value.task == ManageRenewal(lifetime) && r.value.delay == r.value.period
    ensures r.Some? ==> r.value.delay == lifetime - TWO_MINUTES && r.value.period == lifetime - TWO_MINUTES
    ensures r.Some? ==> (r.value.period > 0 <==> lifetime > TWO_MINUTES)
  {
    if lifetime > 0 then Some(Scheduled(ManageRenewal(lifetime), lifetime - TWO_MINUTES, lifetime - TWO_MINUTES)) else None
  }

  /** Every lifetime the command loop can send schedules either nothing or a renewal at least 58 minutes apart. */
  lemma ClampedRenewalIsLegal(n: int)
    ensures var r := RenewalSchedule(ClampLifetime(n));
      r.Some? ==> r.value.delay == r.value.period >= MIN_LIFETIME - TWO_MINUTES
  {
  }

  /**
   * The agent's task bookkeeping as a value: the four task slots (null as
   * None), the pool of live periodic tasks by future, and the next future.
   */
  datatype TaskState = TaskState(
    manage: Option<FutureId>,
    location: Option<FutureId>,
    errorcode: Option<FutureId>,
    log: Option<FutureId>,
    pool: map<FutureId, Scheduled>,
    next: FutureId)
  {
    /** The futures the four slots hold. */
    function SlotIds(): set<FutureId> {
      Held(manage) + Held(location) + Held(errorcode) + Held(log)
    }

    /** The live renewal tasks. */
    function Renewals(): set<FutureId> {
      set id | id in pool && pool[id].task.ManageRenewal?
    }
  }

  /** The future a task slot holds, as a set: empty when the slot is null. */
  function Held(slot: Option<FutureId>): set<FutureId> {
    if slot.Some? then {slot.value} else {}
  }

  /** Removing four key sets in turn removes their union. */
  lemma SubtractInTurn<K, V>(m: map<K, V>, a: set<K>, b: set<K>, c: set<K>, d: set<K>)
    ensures m - a - b - c - d == m - (a + b + c + d)
  {
    var l, r := m - a - b - c - d, m - (a + b + c + d);
    assert l.Keys == r.Keys;
  }

  /** No slot filled and nothing scheduled: the state of a new agent. */
  const NoTasks: TaskState := TaskState(None, None, None, None, map[], 0)

  /**
   * Futures are fresh handles; a filled update slot holds a live task of its
   * own kind, and the manage slot a renewal if anything live; each update task
   * in the pool is the one its slot holds, so there is at most one of each.
   */
  ghost predicate TasksOk(t: TaskState) {
    && (forall id | id in t.pool :: id < t.next)
    && (t.manage.Some? ==> t.manage.value < t.next)
    && (t.manage.Some? && t.manage.value in t.pool ==> t.pool[t.manage.value].task.ManageRenewal?)
    && (t.location.Some? ==> t.location.value in t.pool && t.pool[t.location.value].task == LocationUpdate)
    && (t.errorcode.Some? ==> t.errorcode.value in t.pool && t.pool[t.errorcode.value].task == ErrorCodeUpdate)
    && (t.log.Some? ==> t.log.value in t.pool && t.pool[t.log.value].task == LogUpdate)
    && (forall id | id in t.pool && t.pool[id].task == LocationUpdate :: t.location == Some(id))
    && (forall id | id in t.pool && t.pool[id].task == ErrorCodeUpdate :: t.errorcode == Some(id))
    && (forall id | id in t.pool && t.pool[id].task == LogUpdate :: t.log == Some(id))
  }

  /** The only live renewal, if any, is the one the manage slot holds. */
  ghost predicate RenewalHeld(t: TaskState) {
    forall id | id in t.pool && t.pool[id].task.ManageRenewal? :: t.manage == Some(id)
  }

  /** Every live renewal fires at least 58 minutes apart, starting after its period. */
  ghost predicate SafeRenewals(t: TaskState) {
    forall id | id in t.pool && t.pool[id].task.ManageRenewal? ::
      t.pool[id].delay == t.pool[id].period >= MIN_LIFETIME - TWO_MINUTES
  }

  /** The first statement of sendManageRequest: cancel manageTask when set; the field keeps the future. */
  function CancelManage(t: TaskState): TaskState {
    if t.manage.Some? then t.(pool := t.pool - {t.manage.value}) else t
  }

  /**
   * The tasks after sendManageRequest as written: manageTask cancelled, then,
   * for a lifetime over two minutes, the renewal scheduled under a future
   * that nothing keeps.
   */
  function ManageStepAsWritten(t: TaskState, lifetime: int): TaskState {
    var c := CancelManage(t);
    if lifetime > TWO_MINUTES then c.(pool := c.pool[c.next := RenewalSchedule(lifetime).value], next := c.next + 1)
    else c
  }

  /** The tasks after sendManageRequest with the renewal's future kept in manageTask. */
  function ManageStep(t: TaskState, lifetime: int): TaskState {
    var c := CancelManage(t).(manage := None);
    if lifetime > TWO_MINUTES then
      c.(manage := Some(c.next), pool := c.pool[c.next := RenewalSchedule(lifetime).value], next := c.next + 1)
    else c
  }

  /** The tasks after sendUnManageRequest: every slot's future cancelled and every slot cleared. */
  function UnmanageStep(t: TaskState): TaskState {
    TaskState(None, None, None, None, t.pool - t.SlotIds(), t.next)
  }

  /** scheduleLocationTask, scheduleErrorCodeTask or scheduleLogTask on the tasks, by the task it schedules. */
  function ScheduleStep(t: TaskState, task: Task): TaskState
    requires !task.ManageRenewal?
  {
    var s := Scheduled(task, 0, UPDATE_PERIOD);
    match task
    case LocationUpdate =>
      if t.location.Some? then t else t.(location := Some(t.next), pool := t.pool[t.next := s], next := t.next + 1)
    case ErrorCodeUpdate =>
      if t.errorcode.Some? then t else t.(errorcode := Some(t.next), pool := t.pool[t.next := s], next := t.next + 1)
    case LogUpdate =>
      if t.log.Some? then t else t.(log := Some(t.next), pool := t.pool[t.next := s], next := t.next + 1)
  }

  /** As written, a renewal is added on each manage over two minutes and manageTask never holds one. */
  lemma ManageAsWrittenAddsRenewal(t: TaskState, lifetime: int)
    requires TasksOk(t) && t.manage.None? && lifetime > TWO_MINUTES
    ensures TasksOk(ManageStepAsWritten(t, lifetime))
    ensures ManageStepAsWritten(t, lifetime).manage.None?
    ensures ManageStepAsWritten(t, lifetime).Renewals() == t.Renewals() + {t.next}
    ensures t.next !in t.Renewals()
  {
    var r := ManageStepAsWritten(t, lifetime);
    assert r.pool == t.pool[t.next := RenewalSchedule(lifetime).value];
  }

  /** sendManageRequest as written keeps the task bookkeeping sound. */
  lemma ManageAsWrittenKeepsTasksOk(t: TaskState, lifetime: int)
    requires TasksOk(t)
    ensures TasksOk(ManageStepAsWritten(t, lifetime))
    ensures ManageStepAsWritten(t, lifetime).manage == t.manage
  {
    var c := CancelManage(t);
    assert TasksOk(c);
    if lifetime > TWO_MINUTES {
      assert c.manage.Some? ==> c.manage.value !in c.pool && c.manage.value != c.next;
    }
  }

  /**
   * With the future kept, sendManageRequest leaves exactly one live renewal,
   * held by manageTask, when the lifetime is over two minutes, and none
   * otherwise. The update slots and every task that is not a renewal stay as
   * they were.
   */
  lemma ManageKeepsOneRenewal(t: TaskState, lifetime: int)
    requires TasksOk(t) && RenewalHeld(t)
    ensures TasksOk(ManageStep(t, lifetime)) && RenewalHeld(ManageStep(t, lifetime))
    ensures ManageStep(t, lifetime).Renewals() == if lifetime > TWO_MINUTES then {t.next} else {}
    ensures lifetime > TWO_MINUTES ==>
      ManageStep(t, lifetime).manage == Some(t.next) && ManageStep(t, lifetime).pool[t.next] == RenewalSchedule(lifetime).value
    ensures lifetime <= TWO_MINUTES ==> ManageStep(t, lifetime).manage.None?
    ensures ManageKeepsUpdates(t, ManageStep(t, lifetime))
  {
    var c := CancelManage(t).(manage := None);
    CancelLeavesNoRenewal(t);
    if lifetime > TWO_MINUTES {
      HoldNewRenewal(c, RenewalSchedule(lifetime).value);
    }
    ManageStepKeepsUpdates(t, lifetime);
  }

  /** A manage cancels at most the renewal manageTask holds and adds at most a renewal. */
  lemma ManageStepKeepsUpdates(t: TaskState, lifetime: int)
    requires TasksOk(t)
    ensures ManageKeepsUpdates(t, ManageStep(t, lifetime))
  {
    var r := ManageStep(t, lifetime);
    var c := CancelManage(t);
    assert forall id | id in t.pool && !t.pool[id].task.ManageRenewal? :: id in c.pool && c.pool[id] == t.pool[id];
    if lifetime > TWO_MINUTES {
      assert r.pool == c.pool[t.next := RenewalSchedule(lifetime).value];
    } else {
      assert r.pool == c.pool;
    }
  }

  /**
   * `r` has the update slots of `t`, and exactly the tasks of `t` that are
   * not renewals.
   */
  ghost predicate ManageKeepsUpdates(t: TaskState, r: TaskState) {
    && r.location == t.location && r.errorcode == t.errorcode && r.log == t.log
    && (forall id | id in t.pool && !t.pool[id].task.ManageRenewal? :: id in r.pool && r.pool[id] == t.pool[id])
    && (forall id | id in r.pool && !r.pool[id].task.ManageRenewal? :: id in t.pool && t.pool[id] == r.pool[id])
  }

  /**
   * With manageTask null, which it always is in the source, a manage with
   * lifetime 0 is the same as written and corrected: nothing is cancelled and
   * nothing scheduled.
   */
  lemma ManageZeroAsWritten(t: TaskState)
    requires t.manage.None?
    ensures ManageStep(t, 0) == ManageStepAsWritten(t, 0) == t
  {
  }

  /** Cancelling the held renewal and clearing manageTask leaves no renewal live. */
  lemma CancelLeavesNoRenewal(t: TaskState)
    requires TasksOk(t) && RenewalHeld(t)
    ensures TasksOk(CancelManage(t).(manage := None))
    ensures forall id | id in CancelManage(t).pool :: !CancelManage(t).pool[id].task.ManageRenewal?
    ensures CancelManage(t).(manage := None).Renewals() == {}
  {
  }

  /** Scheduling a renewal under a fresh future held by manageTask makes it the only renewal. */
  lemma HoldNewRenewal(c: TaskState, s: Scheduled)
    requires TasksOk(c) && c.manage.None? && s.task.ManageRenewal?
    requires forall id | id in c.pool :: !c.pool[id].task.ManageRenewal?
    ensures var r := c.(manage := Some(c.next), pool := c.pool[c.next := s], next := c.next + 1);
      TasksOk(r) && RenewalHeld(r) && r.Renewals() == {c.next}
  {
    var r := c.(manage := Some(c.next), pool := c.pool[c.next := s], next := c.next + 1);
    assert c.next !in c.pool;
    assert forall id | id in r.pool && r.pool[id].task.ManageRenewal? :: id == c.next;
  }

  /** A manage with a lifetime the command loop can send keeps every live renewal safe. */
  lemma ManageKeepsRenewalsSafe(t: TaskState, lifetime: int)
    requires SafeRenewals(t) && (lifetime == 0 || lifetime >= MIN_LIFETIME)
    ensures SafeRenewals(ManageStep(t, lifetime))
  {
  }

  /**
   * sendUnManageRequest leaves all four slots null and cancels exactly the
   * slots' futures, so the tasks can be scheduled again; with the renewal
   * held by manageTask no renewal survives.
   */
  lemma UnmanageClearsTasks(t: TaskState)
    requires TasksOk(t)
    ensures TasksOk(UnmanageStep(t))
    ensures UnmanageStep(t).SlotIds() == {}
    ensures RenewalHeld(t) ==> UnmanageStep(t).Renewals() == {} && RenewalHeld(UnmanageStep(t))
    ensures SafeRenewals(t) ==> SafeRenewals(UnmanageStep(t))
  {
    var u := UnmanageStep(t);
    forall id | id in u.pool
      ensures u.pool[id].task.ManageRenewal?
    {
      assert id !in t.SlotIds();
    }
    if RenewalHeld(t) {
      assert forall id | id in t.Renewals() :: id in t.SlotIds();
    }
  }

  /** As written, manageTask is always null, so unmanage cancels no renewal: every live renewal survives it. */
  lemma UnmanageKeepsUnheldRenewals(t: TaskState)
    requires TasksOk(t) && t.manage.None?
    ensures UnmanageStep(t).Renewals() == t.Renewals()
  {
    var u := UnmanageStep(t);
    forall id | id in t.Renewals()
      ensures id in u.Renewals()
    {
      assert id !in t.SlotIds();
    }
  }

  /** The slot scheduleLocationTask, scheduleErrorCodeTask or scheduleLogTask fills. */
  function Slot(t: TaskState, task: Task): Option<FutureId>
    requires !task.ManageRenewal?
  {
    match task
    case LocationUpdate => t.location
    case ErrorCodeUpdate => t.errorcode
    case LogUpdate => t.log
  }

  /**
   * A schedule task on an empty slot starts its update task now and every 30
   * seconds under a fresh future, which the slot then holds, and changes no
   * other slot and no other task; on a filled slot it changes nothing.
   */
  lemma ScheduleFillsEmptySlot(t: TaskState, task: Task)
    requires !task.ManageRenewal?
    ensures Slot(t, task).Some? ==> ScheduleStep(t, task) == t
    ensures Slot(t, task).None? ==>
      var r := ScheduleStep(t, task);
      && Slot(r, task) == Some(t.next)
      && r.pool == t.pool[t.next := Scheduled(task, 0, UPDATE_PERIOD)]
      && r.next == t.next + 1
      && r.manage == t.manage
      && (forall other: Task | !other.ManageRenewal? && other != task :: Slot(r, other) == Slot(t, other))
  {
  }

  /** Each schedule task fills its slot once: a second call changes nothing. */
  lemma ScheduleOnce(t: TaskState, task: Task)
    requires !task.ManageRenewal?
    ensures ScheduleStep(ScheduleStep(t, task), task) == ScheduleStep(t, task)
  {
  }

  /** Scheduling an update task keeps the bookkeeping sound and touches no renewal. */
  lemma ScheduleKeepsTasksOk(t: TaskState, task: Task)
    requires !task.ManageRenewal? && TasksOk(t)
    ensures TasksOk(ScheduleStep(t, task))
    ensures ScheduleStep(t, task).manage == t.manage
    ensures ScheduleStep(t, task).Renewals() == t.Renewals()
    ensures RenewalHeld(t) ==> RenewalHeld(ScheduleStep(t, task))
    ensures SafeRenewals(t) ==> SafeRenewals(ScheduleStep(t, task))
  {
    var r := ScheduleStep(t, task);
    if r != t {
      assert r.pool == t.pool[t.next := Scheduled(task, 0, UPDATE_PERIOD)];
    }
  }

  /**
   * As written, `manage 7200` twice and then `unmanage` leave two renewals
   * live, where one manage's renewal should replace the other's and unmanage
   * should cancel it.
   */
  lemma RenewalLeakAsWritten()
    ensures |UnmanageStep(ManageStepAsWritten(ManageStepAsWritten(NoTasks, 7200), 7200)).Renewals()| == 2
    ensures |UnmanageStep(ManageStep(ManageStep(NoTasks, 7200), 7200)).Renewals()| == 0
  {
    var renewal := RenewalSchedule(7200).value;
    var t1 := ManageStepAsWritten(NoTasks, 7200);
    assert t1.pool == map[0 := renewal];
    var t2 := ManageStepAsWritten(t1, 7200);
    assert t2.pool == map[0 := renewal, 1 := renewal];
    var u := UnmanageStep(t2);
    assert u.pool == t2.pool;
    assert u.Renewals() == {0, 1};
    ManageKeepsOneRenewal(NoTasks, 7200);
    ManageKeepsOneRenewal(ManageStep(NoTasks, 7200), 7200);
    UnmanageClearsTasks(ManageStep(ManageStep(NoTasks, 7200), 7200));
  }

  /** What sendManageRequest ends with. */
  datatype ManageOutcome =
    | Sent(accepted: bool) // the request was sent; whether the platform accepted it
    | IllegalPeriod        // scheduleAtFixedRate refused a period <= 0 (lifetime 1..120)
    | NoClient             // the managed client was null: a NullPointerException
  /** A manage request as sent: the lifetime and the capabilities declared. */
  datatype ManageRequest = ManageRequest(lifetime: int, firmwareActions: bool, deviceActions: bool)

  /** Every request asks for lifetime 0 or at least one hour. */
  ghost predicate Clamped(requests: seq<ManageRequest>) {
    forall i | 0 <= i < |requests| :: requests[i].lifetime == 0 || requests[i].lifetime >= MIN_LIFETIME
  }

  /** Sending a request with lifetime 0 or at least one hour keeps the requests clamped. */
  lemma ClampedAppend(requests: seq<ManageRequest>, sent: seq<ManageRequest>)
    requires Clamped(requests) && Clamped(sent)
    ensures Clamped(requests + sent)
  {
  }

  // ---------------------------------------------------------------------------
  // The agent as a value, and what one command does to it
  // ---------------------------------------------------------------------------

  /**
   * Everything the agent keeps: whether its managed client exists (the device
   * data and the client built by createManagedClient), the capabilities
   * declared, the tasks, the manage requests sent, how many unmanage requests
   * were sent, and whether it terminated.
   */
  datatype AgentState = AgentState(
    hasClient: bool,
    firmwareActions: bool,
    deviceActions: bool,
    tasks: TaskState,
    manageRequests: seq<ManageRequest>,
    unmanageRequests: nat,
    terminated: bool)

  /**
   * The manage request sendManageRequest sends for `lifetime` with a client:
   * none when scheduling the renewal throws (lifetime 1 to 120), one otherwise.
   */
  function SentManage(s: AgentState, lifetime: int): seq<ManageRequest> {
    if 0 < lifetime <= TWO_MINUTES then [] else [ManageRequest(lifetime, s.firmwareActions, s.deviceActions)]
  }

  /**
   * What one command of userAction's switch does to an agent with a managed
   * client, with the renewal's future kept in manageTask. Only quit
   * terminates; only firmware and reboot declare a capability; a manage
   * without a valid lifetime, an unknown word and an empty line change nothing.
   */
  function Step(s: AgentState, cmd: Command): (r: AgentState)
    requires s.hasClient
    ensures r.hasClient
    ensures r.terminated <==> s.terminated || cmd == Quit
    ensures r.firmwareActions <==> s.firmwareActions || cmd == Firmware
    ensures r.deviceActions <==> s.deviceActions || cmd == Reboot
    ensures r.unmanageRequests == s.unmanageRequests + (if cmd == Unmanage || cmd == Quit then 1 else 0)
    ensures s.manageRequests <= r.manageRequests && |r.manageRequests| <= |s.manageRequests| + 1
    ensures |r.manageRequests| > |s.manageRequests| ==>
      (cmd.Manage? || cmd == Firmware || cmd == Reboot) &&
      r.manageRequests[|s.manageRequests|] ==
        ManageRequest(if cmd.Manage? then cmd.lifetime else 0, r.firmwareActions, r.deviceActions)
    ensures cmd.Manage? ==> (|r.manageRequests| > |s.manageRequests| <==> !(0 < cmd.lifetime <= TWO_MINUTES))
    ensures cmd == Firmware || cmd == Reboot ==> |r.manageRequests| == |s.manageRequests| + 1
    ensures cmd == ManageBadLifetime || cmd.Unknown? || cmd == NoWord ==> r == s
  {
    match cmd
    case Manage(lifetime) =>
      s.(tasks := ManageStep(s.tasks, lifetime), manageRequests := s.manageRequests + SentManage(s, lifetime))
    case Unmanage =>
      s.(tasks := UnmanageStep(s.tasks), unmanageRequests := s.unmanageRequests + 1)
    case Firmware =>
      var f := s.(firmwareActions := true);
      f.(tasks := ManageStep(s.tasks, 0), manageRequests := s.manageRequests + SentManage(f, 0))
    case Reboot =>
      var f := s.(deviceActions := true);
      f.(tasks := ManageStep(s.tasks, 0), manageRequests := s.manageRequests + SentManage(f, 0))
    case Location => s.(tasks := ScheduleStep(s.tasks, LocationUpdate))
    case ErrorCode => s.(tasks := ScheduleStep(s.tasks, ErrorCodeUpdate))
    case Log => s.(tasks := ScheduleStep(s.tasks, LogUpdate))
    case Quit =>
      s.(tasks := UnmanageStep(s.tasks.(pool := map[])), unmanageRequests := s.unmanageRequests + 1, terminated := true)
    case ManageBadLifetime => s
    case Unknown(_) => s
    case NoWord => s
  }

  /** A manage line whose lifetime is not an int sends nothing and changes nothing. */
  lemma NonIntegerManageChangesNothing(s: AgentState, arg: string)
    requires s.hasClient && ' ' !in arg && arg != "" && ParseInt(arg).None?
    ensures Step(s, Interpret("manage " + arg)) == s
  {
    ManageNonInteger(arg);
  }

  /**
   * What the command loop keeps: sound task bookkeeping, the only live renewal
   * held by manageTask, every renewal safe, every manage request clamped.
   */
  ghost predicate Ready(s: AgentState) {
    TasksOk(s.tasks) && RenewalHeld(s.tasks) && SafeRenewals(s.tasks) && Clamped(s.manageRequests)
  }

  /** Every command the loop can interpret keeps the agent ready. */
  lemma StepKeepsReady(s: AgentState, cmd: Command)
    requires s.hasClient && Ready(s)
    requires cmd.Manage? ==> cmd.lifetime == 0 || cmd.lifetime >= MIN_LIFETIME
    ensures Ready(Step(s, cmd))
  {
    match cmd
    case Manage(lifetime) =>
      ManageKeepsOneRenewal(s.tasks, lifetime);
      ManageKeepsRenewalsSafe(s.tasks, lifetime);
      ClampedAppend(s.manageRequests, SentManage(s, lifetime));
    case Unmanage => UnmanageClearsTasks(s.tasks);
    case Firmware => CapabilityKeepsReady(s, s.(firmwareActions := true));
    case Reboot => CapabilityKeepsReady(s, s.(deviceActions := true));
    case Location => ScheduleKeepsTasksOk(s.tasks, LocationUpdate);
    case ErrorCode => ScheduleKeepsTasksOk(s.tasks, ErrorCodeUpdate);
    case Log => ScheduleKeepsTasksOk(s.tasks, LogUpdate);
    case Quit => ShutdownKeepsTasksOk(s.tasks);
    case ManageBadLifetime =>
    case Unknown(_) =>
    case NoWord =>
  }

  /** Declaring a capability and sending manage with lifetime 0 keeps the agent ready. */
  lemma CapabilityKeepsReady(s: AgentState, f: AgentState)
    requires Ready(s) && f.tasks == s.tasks && f.manageRequests == s.manageRequests
    ensures Ready(f.(tasks := ManageStep(s.tasks, 0), manageRequests := s.manageRequests + SentManage(f, 0)))
  {
    ManageKeepsOneRenewal(s.tasks, 0);
    ManageKeepsRenewalsSafe(s.tasks, 0);
    ClampedAppend(s.manageRequests, SentManage(f, 0));
  }

  /** The line is quit. */
  predicate IsQuit(input: Input) {
    Interpret(input.line) == Quit
  }

  /** One pass of userAction's loop: the line's command, unless the agent has terminated. */
  function Next(s: AgentState, input: Input): (r: AgentState)
    requires s.hasClient
    ensures r.hasClient
    ensures r.terminated <==> s.terminated || IsQuit(input)
    ensures s.terminated ==> r == s
  {
    if s.terminated then s else Step(s, Interpret(input.line))
  }

  /** One pass of the loop keeps the agent ready. */
  lemma NextKeepsReady(s: AgentState, input: Input)
    requires s.hasClient && Ready(s)
    ensures Ready(Next(s, input))
  {
    if !s.terminated {
      StepKeepsReady(s, Interpret(input.line));
    }
  }

  /**
   * The agent after userAction reads the first `n` of `inputs`: each line's
   * command in turn, and nothing once it has terminated.
   */
  function Run(s: AgentState, inputs: seq<Input>, n: nat): (r: AgentState)
    requires s.hasClient && n <= |inputs|
    ensures r.hasClient
  {
    if n == 0 then s else Next(Run(s, inputs, n - 1), inputs[n - 1])
  }

  /** The command loop keeps the agent ready whatever lines it reads. */
  lemma {:induction false} RunKeepsReady(s: AgentState, inputs: seq<Input>, n: nat)
    requires s.hasClient && Ready(s) && n <= |inputs|
    ensures Ready(Run(s, inputs, n))
  {
    if n > 0 {
      RunKeepsReady(s, inputs, n - 1);
      NextKeepsReady(Run(s, inputs, n - 1), inputs[n - 1]);
    }
  }

  /** The agent ends terminated exactly when it was, or when one of the lines read is quit. */
  lemma {:induction false} RunStopsAtQuit(s: AgentState, inputs: seq<Input>, n: nat)
    requires s.hasClient && n <= |inputs|
    ensures Run(s, inputs, n).terminated <==> s.terminated || exists i | 0 <= i < n :: IsQuit(inputs[i])
  {
    RunTerminatedIsQuitRead(s, inputs, n);
    QuitReadIsSome(s.terminated, inputs, n);
  }

  /** Whether the agent has terminated after `n` lines, starting from `terminated`. */
  predicate QuitRead(terminated: bool, inputs: seq<Input>, n: nat)
    requires n <= |inputs|
  {
    if n == 0 then terminated else QuitRead(terminated, inputs, n - 1) || IsQuit(inputs[n - 1])
  }

  /** Run terminates exactly as QuitRead says. */
  lemma {:induction false} RunTerminatedIsQuitRead(s: AgentState, inputs: seq<Input>, n: nat)
    requires s.hasClient && n <= |inputs|
    ensures Run(s, inputs, n).terminated == QuitRead(s.terminated, inputs, n)
  {
    if n > 0 {
      RunTerminatedIsQuitRead(s, inputs, n - 1);
      RunTerminatesAtLine(s, inputs, n);
    }
  }

  /** QuitRead holds exactly when the agent started terminated or some line read is quit. */
  lemma {:induction false} QuitReadIsSome(terminated: bool, inputs: seq<Input>, n: nat)
    requires n <= |inputs|
    ensures QuitRead(terminated, inputs, n) <==> terminated || exists i | 0 <= i < n :: IsQuit(inputs[i])
  {
    if n > 0 {
      QuitReadIsSome(terminated, inputs, n - 1);
      QuitAmongLast(inputs, n);
    }
  }

  /** Reading the `n`-th line terminates the agent exactly when it had terminated or the line is quit. */
  lemma RunTerminatesAtLine(s: AgentState, inputs: seq<Input>, n: nat)
    requires s.hasClient && 0 < n <= |inputs|
    ensures Run(s, inputs, n).terminated <==> Run(s, inputs, n - 1).terminated || IsQuit(inputs[n - 1])
  {
  }

  /** Some line among the first `n` is quit exactly when one among the first `n - 1` is or the `n`-th is. */
  lemma QuitAmongLast(inputs: seq<Input>, n: nat)
    requires 0 < n <= |inputs|
    ensures (exists i | 0 <= i < n :: IsQuit(inputs[i])) <==>
      (exists i | 0 <= i < n - 1 :: IsQuit(inputs[i])) || IsQuit(inputs[n - 1])
  {
    if exists i | 0 <= i < n :: IsQuit(inputs[i]) {
      var i :| 0 <= i < n && IsQuit(inputs[i]);
      assert i < n - 1 || IsQuit(inputs[n - 1]);
    }
  }

  /** Once the agent has terminated, or a quit line has been read (`QuitRead`), the lines after that change nothing. */
  lemma {:induction false} RunAfterQuit(s: AgentState, inputs: seq<Input>, k: nat, n: nat)
    requires s.hasClient && k <= n <= |inputs| && QuitRead(s.terminated, inputs, k)
    ensures Run(s, inputs, n) == Run(s, inputs, k)
    decreases n
  {
    RunTerminatedIsQuitRead(s, inputs, k);
    if k < n {
      RunAfterQuit(s, inputs, k, n - 1);
    }
  }

  /** One line of input, with what the platform answers to the manage request it may cause. */
  datatype Input = Input(line: string, accepts: bool)

  /**
   * The agent: whether its managed client exists, the capabilities declared,
   * the four task slots, the pool of live periodic tasks, and the manage and
   * unmanage requests sent so far.
   */
  class Agent {
    var hasClient: bool
    var supportsFirmwareActions: bool
    var supportsDeviceActions: bool
    var manageTask: Option<FutureId>
    var locationTask: Option<FutureId>
    var errorcodeTask: Option<FutureId>
    var logTask: Option<FutureId>
    var pool: map<FutureId, Scheduled>
    var nextFuture: FutureId
    var manageRequests: seq<ManageRequest>
    var unmanageRequests: nat
    var terminated: bool

    /** The task bookkeeping as a value. */
    function Tasks(): TaskState
      reads this
    {
      TaskState(manageTask, locationTask, errorcodeTask, logTask, pool, nextFuture)
    }

    /** The whole agent as a value. */
    function State(): AgentState
      reads this
    {
      AgentState(hasClient, supportsFirmwareActions, supportsDeviceActions, Tasks(), manageRequests, unmanageRequests, terminated)
    }

    constructor ()
      ensures Tasks() == NoTasks
      ensures !hasClient && !supportsFirmwareActions && !supportsDeviceActions && !terminated
      ensures manageRequests == [] && unmanageRequests == 0
    {
      hasClient, supportsFirmwareActions, supportsDeviceActions, terminated := false, false, false, false;
      manageTask, locationTask, errorcodeTask, logTask := None, None, None, None;
      pool, nextFuture, manageRequests, unmanageRequests := map[], 0, [], 0;
    }

    /** createManagedClient, once the properties are read and the connection is made. */
    method CreateManagedClient()
      modifies this`hasClient
      ensures hasClient
    {
      hasClient := true;
    }

    /** ScheduledFuture.cancel(false) on a periodic task: it never runs again. */
    method Cancel(id: FutureId)
      modifies this`pool
      ensures pool == old(pool) - {id}
    {
      pool := pool - {id};
    }

    /** Cancels the future a task slot holds, if any. */
    method CancelSlot(slot: Option<FutureId>)
      modifies this`pool
      ensures pool == old(pool) - Held(slot)
    {
      if slot.Some? {
        Cancel(slot.value);
      }
    }

    /** scheduleAtFixedRate with a positive period: the task gets a fresh future. */
    method ScheduleAtFixedRate(s: Scheduled) returns (id: FutureId)
      requires s.period > 0
      modifies this`pool, this`nextFuture
      ensures id == old(nextFuture) && nextFuture == id + 1
      ensures pool == old(pool)[id := s]
    {
      id := nextFuture;
      pool := pool[id := s];
      nextFuture := nextFuture + 1;
    }

    /**
     * sendManageRequest as written: cancels manageTask when set, schedules the
     * renewal when the lifetime is positive (a lifetime of at most two minutes
     * makes the period illegal and throws), then sends the request, which
     * needs the managed client. The renewal's future is dropped.
     */
    method SendManageRequestAsWritten(lifetime: int, accepts: bool) returns (o: ManageOutcome)
      modifies this`pool, this`nextFuture, this`manageRequests
      ensures o == IllegalPeriod <==> 0 < lifetime <= TWO_MINUTES
      ensures o != IllegalPeriod ==> (o == NoClient <==> !hasClient)
      ensures o.Sent? ==> o.accepted == accepts
      ensures Tasks() == ManageStepAsWritten(old(Tasks()), lifetime)
      ensures manageRequests == old(manageRequests) + (if o.Sent? then [ManageRequest(lifetime, supportsFirmwareActions, supportsDeviceActions)] else [])
    {
      if manageTask.Some? {
        Cancel(manageTask.value);
      }
      if lifetime > 0 {
        if lifetime - TWO_MINUTES <= 0 {
          return IllegalPeriod;
        }
        var _ := ScheduleAtFixedRate(RenewalSchedule(lifetime).value);
      }
      if !hasClient {
        return NoClient;
      }
      manageRequests := manageRequests + [ManageRequest(lifetime, supportsFirmwareActions, supportsDeviceActions)];
      o := Sent(accepts);
    }

    /**
     * sendManageRequest with the renewal's future kept in manageTask, so that
     * the next manage or unmanage cancels it (see ManageKeepsOneRenewal).
     */
    method SendManageRequest(lifetime: int, accepts: bool) returns (o: ManageOutcome)
      modifies this`manageTask, this`pool, this`nextFuture, this`manageRequests
      ensures o == IllegalPeriod <==> 0 < lifetime <= TWO_MINUTES
      ensures o != IllegalPeriod ==> (o == NoClient <==> !hasClient)
      ensures o.Sent? ==> o.accepted == accepts
      ensures Tasks() == ManageStep(old(Tasks()), lifetime)
      ensures manageRequests == old(manageRequests) + (if o.Sent? then [ManageRequest(lifetime, supportsFirmwareActions, supportsDeviceActions)] else [])
    {
      if manageTask.Some? {
        Cancel(manageTask.value);
      }
      manageTask := None;
      if lifetime > 0 {
        if lifetime - TWO_MINUTES <= 0 {
          return IllegalPeriod;
        }
        var id := ScheduleAtFixedRate(RenewalSchedule(lifetime).value);
        manageTask := Some(id);
      }
      if !hasClient {
        return NoClient;
      }
      manageRequests := manageRequests + [ManageRequest(lifetime, supportsFirmwareActions, supportsDeviceActions)];
      o := Sent(accepts);
    }

    /**
     * addFirmwareHandler: with a managed client, declares firmware support and
     * sends manage again with lifetime 0, which schedules no renewal; without
     * one it does nothing.
     */
    method AddFirmwareHandler(accepts: bool)
      modifies this`supportsFirmwareActions, this`manageTask, this`pool, this`nextFuture, this`manageRequests
      ensures !old(hasClient) ==> unchanged(this)
      ensures hasClient ==> supportsFirmwareActions && Tasks() == ManageStep(old(Tasks()), 0)
      ensures hasClient ==> manageRequests == old(manageRequests) + [ManageRequest(0, true, supportsDeviceActions)]
    {
      if hasClient {
        supportsFirmwareActions := true;
        var _ := SendManageRequest(0, accepts);
      }
    }

    /**
     * addDeviceActionHandler: with a managed client, declares device-action
     * support and sends manage again with lifetime 0; without one it does nothing.
     */
    method AddDeviceActionHandler(accepts: bool)
      modifies this`supportsDeviceActions, this`manageTask, this`pool, this`nextFuture, this`manageRequests
      ensures !old(hasClient) ==> unchanged(this)
      ensures hasClient ==> supportsDeviceActions && Tasks() == ManageStep(old(Tasks()), 0)
      ensures hasClient ==> manageRequests == old(manageRequests) + [ManageRequest(0, supportsFirmwareActions, true)]
    {
      if hasClient {
        supportsDeviceActions := true;
        var _ := SendManageRequest(0, accepts);
      }
    }

    /**
     * scheduleLocationTask: schedules the location update every 30 seconds,
     * only when the slot is empty. Without the device data, building the task
     * throws before the slot is filled.
     */
    method ScheduleLocationTask()
      modifies this`locationTask, this`pool, this`nextFuture
      ensures Tasks() == if hasClient then ScheduleStep(old(Tasks()), LocationUpdate) else old(Tasks())
    {
      if locationTask.None? && hasClient {
        var id := ScheduleAtFixedRate(Scheduled(LocationUpdate, 0, UPDATE_PERIOD));
        locationTask := Some(id);
      }
    }

    /** scheduleErrorCodeTask: as scheduleLocationTask, for the error-code update. */
    method ScheduleErrorCodeTask()
      modifies this`errorcodeTask, this`pool, this`nextFuture
      ensures Tasks() == if hasClient then ScheduleStep(old(Tasks()), ErrorCodeUpdate) else old(Tasks())
    {
      if errorcodeTask.None? && hasClient {
        var id := ScheduleAtFixedRate(Scheduled(ErrorCodeUpdate, 0, UPDATE_PERIOD));
        errorcodeTask := Some(id);
      }
    }

    /** scheduleLogTask: as scheduleLocationTask, for the log update. */
    method ScheduleLogTask()
      modifies this`logTask, this`pool, this`nextFuture
      ensures Tasks() == if hasClient then ScheduleStep(old(Tasks()), LogUpdate) else old(Tasks())
    {
      if logTask.None? && hasClient {
        var id := ScheduleAtFixedRate(Scheduled(LogUpdate, 0, UPDATE_PERIOD));
        logTask := Some(id);
      }
    }

    /**
     * sendUnManageRequest: sends unmanage, then cancels and clears every filled
     * slot. Without a managed client the first call throws and nothing changes.
     */
    method SendUnManageRequest() returns (ok: bool)
      modifies this`manageTask, this`locationTask, this`errorcodeTask, this`logTask, this`pool, this`unmanageRequests
      ensures ok == hasClient
      ensures !hasClient ==> unchanged(this)
      ensures hasClient ==> unmanageRequests == old(unmanageRequests) + 1 && Tasks() == UnmanageStep(old(Tasks()))
    {
      if !hasClient {
        return false;
      }
      unmanageRequests := unmanageRequests + 1;
      ghost var t0 := Tasks();
      CancelSlot(manageTask);
      manageTask := None;
      CancelSlot(locationTask);
      locationTask := None;
      CancelSlot(errorcodeTask);
      errorcodeTask := None;
      CancelSlot(logTask);
      logTask := None;
      SubtractInTurn(t0.pool, Held(t0.manage), Held(t0.location), Held(t0.errorcode), Held(t0.log));
      ok := true;
    }

    /**
     * terminate: with a managed client, shuts the pool down, which drops every
     * periodic task, then sends unmanage; the program then exits.
     */
    method Terminate()
      modifies this`manageTask, this`locationTask, this`errorcodeTask, this`logTask, this`pool, this`unmanageRequests, this`terminated
      ensures terminated
      ensures hasClient ==> unmanageRequests == old(unmanageRequests) + 1 && Tasks() == UnmanageStep(old(Tasks()).(pool := map[]))
      ensures !hasClient ==> Tasks() == old(Tasks()) && unmanageRequests == old(unmanageRequests)
    {
      if hasClient {
        pool := map[];
        var _ := SendUnManageRequest();
      }
      terminated := true;
    }

    /**
     * Carries out one command of userAction's switch, manage using
     * SendManageRequest: the agent becomes Step's. Returns whether the
     * command was quit.
     */
    method Execute(cmd: Command, accepts: bool) returns (quit: bool)
      requires hasClient
      modifies this
      ensures State() == Step(old(State()), cmd)
      ensures quit <==> cmd == Quit
    {
      quit := false;
      match cmd
      case Manage(_) => ExecuteManagement(cmd, accepts);
      case Unmanage => ExecuteManagement(cmd, accepts);
      case Firmware => ExecuteManagement(cmd, accepts);
      case Reboot => ExecuteManagement(cmd, accepts);
      case Location => ExecuteUpdate(cmd);
      case ErrorCode => ExecuteUpdate(cmd);
      case Log => ExecuteUpdate(cmd);
      case Quit =>
        Terminate();
        quit := true;
      case ManageBadLifetime =>
      case Unknown(_) =>
      case NoWord =>
    }

    /** The commands that talk to the platform: manage, unmanage, firmware and reboot. */
    method ExecuteManagement(cmd: Command, accepts: bool)
      requires hasClient
      requires cmd.Manage? || cmd == Unmanage || cmd == Firmware || cmd == Reboot
      modifies this
      ensures State() == Step(old(State()), cmd)
    {
      match cmd
      case Manage(lifetime) =>
        var _ := SendManageRequest(lifetime, accepts);
      case Unmanage =>
        var _ := SendUnManageRequest();
      case Firmware =>
        AddFirmwareHandler(accepts);
      case Reboot =>
        AddDeviceActionHandler(accepts);
    }

    /** The commands that schedule a periodic update: location, errorcode and log. */
    method ExecuteUpdate(cmd: Command)
      requires hasClient
      requires cmd == Location || cmd == ErrorCode || cmd == Log
      modifies this
      ensures State() == Step(old(State()), cmd)
    {
      match cmd
      case Location => ScheduleLocationTask();
      case ErrorCode => ScheduleErrorCodeTask();
      case Log => ScheduleLogTask();
    }

    /** One pass of userAction's loop: interprets the line and carries out its command. */
    method HandleCommand(input: Input) returns (cmd: Command)
      requires hasClient
      modifies this
      ensures cmd == Interpret(input.line)
      ensures State() == Step(old(State()), cmd)
    {
      cmd := Interpret(input.line);
      var _ := Execute(cmd, input.accepts);
    }
  }

  /** Shutting the pool down leaves no task live and keeps the bookkeeping sound but for the update slots. */
  lemma ShutdownKeepsTasksOk(t: TaskState)
    requires TasksOk(t)
    ensures TasksOk(UnmanageStep(t.(pool := map[])))
    ensures RenewalHeld(UnmanageStep(t.(pool := map[])))
    ensures UnmanageStep(t.(pool := map[])).pool == map[]
  {
  }

  /**
   * userAction over a finite sequence of input lines, once the managed client
   * exists: handles them in order until quit, which terminates the agent, so
   * the agent ends as Run says. It stays ready, and at most one renewal is live.
   */
  method UserAction(agent: Agent, inputs: seq<Input>) returns (handled: nat, ghost commands: seq<Command>)
    requires agent.hasClient && Ready(agent.State()) && !agent.terminated
    modifies agent
    ensures agent.State() == Run(old(agent.State()), inputs, |inputs|)
    ensures Ready(agent.State()) && |agent.Tasks().Renewals()| <= 1
    ensures handled <= |inputs| && |commands| == handled
    ensures forall i | 0 <= i < handled :: commands[i] == Interpret(inputs[i].line)
    ensures agent.terminated ==> handled > 0 && commands[handled - 1] == Quit && Quit !in commands[..handled - 1]
    ensures !agent.terminated ==> handled == |inputs| && Quit !in commands
  {
    ghost var s0 := agent.State();
    handled, commands := 0, [];
    while handled < |inputs| && !agent.terminated
      invariant handled <= |inputs| && |commands| == handled
      invariant agent.hasClient && agent.State() == Run(s0, inputs, handled)
      invariant Interprets(inputs, commands)
      invariant agent.terminated ==> handled > 0 && commands[handled - 1] == Quit && Quit !in commands[..handled - 1]
      invariant !agent.terminated ==> Quit !in commands
    {
      var cmd := agent.HandleCommand(inputs[handled]);
      assert (commands + [cmd])[..handled] == commands;
      commands := commands + [cmd];
      handled := handled + 1;
    }
    if agent.terminated {
      RunTerminatedIsQuitRead(s0, inputs, handled);
      RunAfterQuit(s0, inputs, handled, |inputs|);
    }
    RunKeepsReady(s0, inputs, |inputs|);
    InterpretsEach(inputs, commands);
    AtMostOneRenewal(agent.Tasks());
  }

  /** `commands` are the commands of the first inputs, in order. */
  ghost predicate Interprets(inputs: seq<Input>, commands: seq<Command>)
    decreases |commands|
  {
    && |commands| <= |inputs|
    && (commands == [] ||
        (Interprets(inputs, commands[..|commands| - 1]) && commands[|commands| - 1] == Interpret(inputs[|commands| - 1].line)))
  }

  /** Each command is the interpretation of the input at its position. */
  lemma {:induction false} InterpretsEach(inputs: seq<Input>, commands: seq<Command>)
    requires Interprets(inputs, commands)
    ensures forall i | 0 <= i < |commands| :: commands[i] == Interpret(inputs[i].line)
    decreases |commands|
  {
    if commands != [] {
      var init := commands[..|commands| - 1];
      InterpretsEach(inputs, init);
      assert forall i | 0 <= i < |init| :: commands[i] == init[i];
    }
  }

  /** With the renewal held by manageTask at most one renewal is live. */
  lemma AtMostOneRenewal(t: TaskState)
    requires RenewalHeld(t)
    ensures |t.Renewals()| <= 1
  {
    if t.manage.Some? && t.manage.value in t.Renewals() {
      assert t.Renewals() == {t.manage.value};
    } else {
      assert t.Renewals() == {};
    }
  }
}
