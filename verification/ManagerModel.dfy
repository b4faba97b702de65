/**
 The process manager as a state machine.  A handler holds the manager lock while
 it works through a list of items (processes to create, idle processes to change,
 to close or to hand over); `job` is what is left of that work, so one transition
 is one critical section of the fan-out and the items may go in any order.
 Channels are sequences.  Outcomes that the manager does not decide (whether a
 sandbox agrees to change, which user is free) are part of the event.

 A request group is referred to by its position in the scheduler's registration
 order, and a process name by the overall index inside it: lemma `ProcessNameFresh`
 shows that names with different overall indexes are different strings, whatever
 their contracts and local indexes.
 */
module ManagerModel {
  import opened Basics
  import opened Keys

  // ----- sequences used as queues and linked hash maps -----

  function DropAt<T>(s: seq<T>, i: nat): (r: seq<T>)
    requires i < |s|
    ensures |r| == |s| - 1
    ensures forall x :: x in r ==> x in s
  {
    s[..i] + s[i + 1..]
  }

  function IndexFrom(s: seq<nat>, x: nat, from: nat): (i: nat)
    requires from <= |s|
    ensures from <= i <= |s|
    ensures i < |s| ==> s[i] == x
    ensures forall j :: from <= j < i ==> s[j] != x
    decreases |s| - from
  {
    if from == |s| || s[from] == x then from else IndexFrom(s, x, from + 1)
  }

  /** Removal from a linked hash map's ordering. */
  function Drop(s: seq<nat>, x: nat): (r: seq<nat>)
    ensures forall y :: y in r ==> y in s
    ensures forall y :: y in s && y != x ==> y in r
    ensures x !in s ==> r == s
    ensures |r| == if x in s then |s| - 1 else |s|
  {
    var i := IndexFrom(s, x, 0);
    if i < |s| then DropAt(s, i) else s
  }

  function Push(s: seq<nat>, x: nat): seq<nat> {
    if x in s then s else s + [x]
  }

  // ----- the process tables -----

  /** A process as the manager lists it: `pid` stands for the process object, which keeps its identity and its
      user when it is renamed. */
  datatype Entry = Entry(pid: nat, group: nat, user: nat)

  datatype Tables = Tables(
    idle: map<nat, Entry>,         // linked hash map: table ...
    order: seq<nat>,               // ... and ordering, oldest first
    busy: map<nat, Entry>,
    busyLen: int,                  // len(busyProcesses)
    groups: map<nat, set<nat>>)    // group -> process name set

  /** getProcessByName finds the name. */
  predicate Listed(t: Tables, id: nat) {
    id in t.idle || id in t.busy
  }

  function EntryOf(t: Tables, id: nat): Entry
    requires Listed(t, id)
  {
    if id in t.idle then t.idle[id] else t.busy[id]
  }

  function WithMember(groups: map<nat, set<nat>>, group: nat, id: nat): map<nat, set<nat>> {
    groups[group := (if group in groups then groups[group] else {}) + {id}]
  }

  function WithoutMember(groups: map<nat, set<nat>>, group: nat, id: nat): map<nat, set<nat>> {
    if group !in groups then groups
    else if groups[group] - {id} == {} then groups - {group}
    else groups[group := groups[group] - {id}]
  }

  /** addProcessToCache with isBusy. */
  function Insert(t: Tables, id: nat, e: Entry): Tables {
    t.(busy := t.busy[id := e], busyLen := if id in t.busy then t.busyLen else t.busyLen + 1,
       groups := WithMember(t.groups, e.group, id))
  }

  /** removeProcessFromCache. */
  function Delete(t: Tables, group: nat, id: nat): Tables {
    t.(busy := t.busy - {id}, busyLen := if id in t.busy then t.busyLen - 1 else t.busyLen,
       idle := t.idle - {id}, order := Drop(t.order, id), groups := WithoutMember(t.groups, group, id))
  }

  function IdleToBusy(t: Tables, id: nat): Tables
    requires id in t.idle
  {
    t.(busy := t.busy[id := t.idle[id]], busyLen := if id in t.busy then t.busyLen else t.busyLen + 1,
       idle := t.idle - {id}, order := Drop(t.order, id))
  }

  function BusyToIdle(t: Tables, id: nat): Tables
    requires id in t.busy
  {
    t.(idle := t.idle[id := t.busy[id]], order := Push(t.order, id), busy := t.busy - {id}, busyLen := t.busyLen - 1)
  }

  // ----- waiting groups and responses -----

  /** A process-ready response on its way to a request group. */
  datatype Response = Response(group: nat, num: nat)

  datatype Desk = Desk(waiting: seq<nat>, outbox: seq<Response>)

  /** sendProcessReadyResp: a group that the scheduler does not know gets nothing. */
  function Send(d: Desk, known: nat, group: nat, num: nat): Desk {
    d.(outbox := if group < known then d.outbox + [Response(group, num)] else d.outbox)
  }

  /** removeFromWaitingGroup. */
  function Wake(d: Desk, known: nat, group: nat): Desk {
    Send(Desk(Drop(d.waiting, group), d.outbox), known, group, 0)
  }

  // ----- the manager -----

  datatype Request =
    | GetProcess(group: nat, num: nat)
    | SandboxExit(group: nat, id: nat)

  datatype Match = Match(id: nat, group: nat)

  /** The rest of a running handler's work. */
  datatype Job =
    | NoJob
    | Creating(group: nat, total: nat, need: nat, left: nat)
    | Reusing(group: nat, total: nat, need: nat, picks: seq<nat>)
    | Cleaning(victims: seq<nat>, closed: nat)
    | Pairing(pairs: seq<Match>)
    | Launching(todo: seq<nat>)

  datatype Config = Config(isOrig: bool, max: nat, releaseRate: real)

  datatype Manager = Manager(
    cfg: Config,
    known: seq<GroupKey>,    // the request groups registered with the scheduler
    t: Tables,
    desk: Desk,
    inbox: seq<Request>,
    idleTokens: nat,         // allocateIdleCh
    newTokens: nat,          // allocateNewCh
    serial: nat,             // names generated so far
    cleanArmed: bool,
    job: Job)

  function Initial(cfg: Config): Manager {
    Manager(cfg, [], Tables(map[], [], map[], 0, map[]), Desk([], []), [], 0, 0, 0, true, NoJob)
  }

  /** getAvailableProcessNum. */
  function Available(m: Manager): int {
    m.cfg.max - |m.t.order| - m.t.busyLen
  }

  /** "Meet the same idle process": contract name and version are compared, the chain is not. */
  predicate SameContract(m: Manager, g: nat, h: nat) {
    g < |m.known| && h < |m.known| && m.known[g].name == m.known[h].name && m.known[g].version == m.known[h].version
  }

  /** Removing a process wakes its group when it was the group's last. */
  function AfterDelete(d: Desk, t: Tables, known: nat, group: nat, id: nat): Desk {
    if group in t.groups && group !in WithoutMember(t.groups, group, id) then Wake(d, known, group) else d
  }

  function RemoveFromCache(m: Manager, group: nat, id: nat): Manager {
    m.(t := Delete(m.t, group, id), desk := AfterDelete(m.desk, m.t, |m.known|, group, id))
  }

  function AddToCache(m: Manager, id: nat, e: Entry): Manager {
    m.(t := Insert(m.t, id, e))
  }

  /** A process object moves to another contract: old name out, new name in, busy. */
  function Transfer(t: Tables, id: nat, group: nat, to: nat): Tables
    requires id in t.idle
  {
    Insert(Delete(t, t.idle[id].group, id), to, Entry(t.idle[id].pid, group, t.idle[id].user))
  }

  function Rename(m: Manager, id: nat, group: nat): Manager
    requires id in m.t.idle
  {
    m.(t := Transfer(m.t, id, group, m.serial + 1), serial := m.serial + 1,
       desk := AfterDelete(m.desk, m.t, |m.known|, m.t.idle[id].group, id))
  }

  datatype Made = Failed | Made(pid: nat, user: nat)

  datatype Event =
    | Learn(key: GroupKey)               // the scheduler registers a group
    | Ask(group: nat, num: nat)          // a group's GetProcessReqMsg
    | ReportExit(group: nat, id: nat)    // a process's SandboxExitMsg
    | Deliver(i: nat)                    // a group takes a response
    | MarkBusy(id: nat)                  // ChangeProcessState(name, true)
    | MarkIdle(id: nat)                  // ChangeProcessState(name, false)
    | BeginRequest | Create(made: Made) | BeginReuse | Reuse(i: nat, ok: bool) | EndRequest
    | HandleExit(freed: bool)
    | CleanTick | Close(i: nat, ok: bool, freed: bool) | EndClean
    | BeginIdle | Hand(i: nat, ok: bool) | EndIdle
    | BeginNew | Launch(i: nat, made: Made) | EndNew

  // ----- ChangeProcessState -----

  function DoMarkBusy(m: Manager, id: nat): Manager {
    if id in m.t.idle then m.(t := IdleToBusy(m.t, id)) else m
  }

  /** addProcessToIdle: a waiting group of the same contract is woken, any other waiting group gets a token. */
  function DoMarkIdle(m: Manager, id: nat): Manager {
    if id !in m.t.busy then m
    else
      var g := m.t.busy[id].group;
      var desk := if g in m.desk.waiting then Wake(m.desk, |m.known|, g) else m.desk;
      m.(t := BusyToIdle(m.t, id), desk := desk,
         idleTokens := if desk.waiting != [] then m.idleTokens + 1 else m.idleTokens)
  }

  // ----- handleGetProcessReq -----

  function DoBeginRequest(m: Manager): Manager
    requires m.inbox != [] && m.inbox[0].GetProcess?
  {
    var r := m.inbox[0];
    var m1 := m.(inbox := m.inbox[1..]);
    if r.num == 0 then m1.(desk := Wake(m.desk, |m.known|, r.group))
    else m1.(job := Creating(r.group, r.num, r.num, if Available(m) > 0 then Min(r.num, Available(m)) else 0))
  }

  function DoCreate(m: Manager, made: Made): Manager
    requires m.job.Creating? && m.job.left > 0 && m.job.need > 0
  {
    match made
    case Failed => m.(serial := m.serial + 1, job := m.job.(left := m.job.left - 1))
    case Made(pid, user) =>
      AddToCache(m, m.serial + 1, Entry(pid, m.job.group, user))
        .(serial := m.serial + 1, job := m.job.(left := m.job.left - 1, need := m.job.need - 1))
  }

  function DoBeginReuse(m: Manager): Manager
    requires m.job.Creating?
  {
    m.(job := Reusing(m.job.group, m.job.total, m.job.need, m.t.order[..Min(m.job.need, |m.t.order|)]))
  }

  function DoReuse(m: Manager, i: nat, ok: bool): Manager
    requires m.job.Reusing? && i < |m.job.picks| && m.job.need > 0 && m.job.picks[i] in m.t.idle
  {
    var id := m.job.picks[i];
    var rest := m.job.(picks := DropAt(m.job.picks, i));
    if SameContract(m, m.job.group, m.t.idle[id].group) then m.(job := rest.(need := rest.need - 1))
    else if !ok then m.(serial := m.serial + 1, job := rest)
    else Rename(m, id, m.job.group).(job := rest.(need := rest.need - 1))
  }

  function DoEndRequest(m: Manager): Manager
    requires m.job.Reusing? && m.job.need <= m.job.total
  {
    var desk := if m.job.need == m.job.total then Desk(Push(m.desk.waiting, m.job.group), m.desk.outbox)
                else Send(m.desk, |m.known|, m.job.group, m.job.total - m.job.need);
    m.(desk := desk, job := NoJob)
  }

  // ----- handleSandboxExitMsg -----

  function DoHandleExit(m: Manager, freed: bool): Manager
    requires m.inbox != [] && m.inbox[0].SandboxExit?
  {
    var r := m.inbox[0];
    if !freed then m.(inbox := m.inbox[1..])
    else RemoveFromCache(m, r.group, r.id).(inbox := m.inbox[1..], newTokens := m.newTokens + 1)
  }

  // ----- handleCleanIdleProcesses -----

  /** int(releaseRate * max) - available, capped by the idle processes. */
  function ReleaseNum(m: Manager): int {
    Min((m.cfg.releaseRate * m.cfg.max as real).Floor - Available(m), |m.t.order|)
  }

  function DoCleanTick(m: Manager): Manager {
    m.(cleanArmed := false,
       job := if ReleaseNum(m) <= 0 then m.job else Cleaning(m.t.order[..ReleaseNum(m)], 0))
  }

  function DoClose(m: Manager, i: nat, ok: bool, freed: bool): Manager
    requires m.job.Cleaning? && i < |m.job.victims| && m.job.victims[i] in m.t.idle
  {
    var id := m.job.victims[i];
    var rest := m.job.(victims := DropAt(m.job.victims, i));
    if !ok then m.(job := rest)
    else if !freed then m.(job := rest.(closed := rest.closed + 1))
    else RemoveFromCache(m, m.t.idle[id].group, id).(job := rest.(closed := rest.closed + 1))
  }

  function DoEndClean(m: Manager): Manager
    requires m.job.Cleaning?
  {
    m.(newTokens := if m.job.closed > 0 then m.newTokens + 1 else m.newTokens, cleanArmed := true, job := NoJob)
  }

  // ----- handleAllocateIdleProcesses -----

  function Zip(ids: seq<nat>, groups: seq<nat>): (r: seq<Match>)
    requires |ids| == |groups|
    ensures |r| == |ids|
    ensures forall i :: 0 <= i < |r| ==> r[i] == Match(ids[i], groups[i])
  {
    seq(|ids|, i requires 0 <= i < |ids| => Match(ids[i], groups[i]))
  }

  function DoBeginIdle(m: Manager): Manager
    requires m.idleTokens > 0
  {
    var n := Min(|m.desk.waiting|, |m.t.order|);
    m.(idleTokens := m.idleTokens - 1,
       job := if n == 0 then m.job else Pairing(Zip(m.t.order[..n], m.desk.waiting[..n])))
  }

  function DoHand(m: Manager, i: nat, ok: bool): Manager
    requires m.job.Pairing? && i < |m.job.pairs| && m.job.pairs[i].id in m.t.idle
  {
    var Match(id, group) := m.job.pairs[i];
    var rest := Pairing(DropAt(m.job.pairs, i));
    if SameContract(m, group, m.t.idle[id].group) then
      m.(job := rest, desk := Send(Wake(m.desk, |m.known|, group), |m.known|, group, 0))
    else if !ok then m.(serial := m.serial + 1, job := rest)
    else Rename(m.(job := rest, desk := Wake(Send(m.desk, |m.known|, group, 1), |m.known|, group)), id, group)
  }

  // ----- handleAllocateNewProcesses -----

  function DoBeginNew(m: Manager): Manager
    requires m.newTokens > 0 && Available(m) >= 0
  {
    var n := Min(|m.desk.waiting|, Available(m));
    m.(newTokens := m.newTokens - 1, job := if n == 0 then m.job else Launching(m.desk.waiting[..n]))
  }

  function DoLaunch(m: Manager, i: nat, made: Made): Manager
    requires m.job.Launching? && i < |m.job.todo|
  {
    var group := m.job.todo[i];
    var rest := Launching(DropAt(m.job.todo, i));
    if group >= |m.known| then m.(job := rest)
    else
      var told := Send(m.desk, |m.known|, group, 1);
      match made
      case Failed => m.(serial := m.serial + 1, job := rest, desk := told)
      case Made(pid, user) =>
        AddToCache(m, m.serial + 1, Entry(pid, group, user))
          .(serial := m.serial + 1, job := rest, desk := Wake(told, |m.known|, group))
  }

  // ----- which events may happen -----

  /** The exit of the process is reported and not yet handled. */
  predicate Reported(inbox: seq<Request>, id: nat) {
    exists i | 0 <= i < |inbox| :: inbox[i].SandboxExit? && inbox[i].id == id
  }

  /** A new process gets an object and a user that no live process has. */
  ghost predicate FreshMade(t: Tables, made: Made) {
    made.Made? ==> forall n: nat :: Listed(t, n) ==> EntryOf(t, n).pid != made.pid && EntryOf(t, n).user != made.user
  }

  /** The lock is free, or the event is one of the running handler's; the surroundings keep their promises:
      only registered groups ask, an exit is reported once and by a live process, an exited sandbox does not
      agree to change or close, and fewer than 2^64 names are generated. */
  ghost predicate Enabled(m: Manager, ev: Event) {
    match ev
    case Learn(key) => true
    case Ask(group, num) => group < |m.known|
    case ReportExit(group, id) => !Reported(m.inbox, id) && Listed(m.t, id) && EntryOf(m.t, id).group == group
    case Deliver(i) => i < |m.desk.outbox|
    case MarkBusy(id) => m.job.NoJob?
    case MarkIdle(id) => m.job.NoJob?
    case BeginRequest => m.job.NoJob? && m.inbox != [] && m.inbox[0].GetProcess?
    case Create(made) => m.job.Creating? && m.job.left > 0 && m.serial + 1 < TWO_64 && FreshMade(m.t, made)
    case BeginReuse => m.job.Creating? && m.job.left == 0
    case Reuse(i, ok) => m.job.Reusing? && i < |m.job.picks| && m.serial + 1 < TWO_64
                         && (ok ==> !Reported(m.inbox, m.job.picks[i]))
    case EndRequest => m.job.Reusing? && m.job.picks == []
    case HandleExit(freed) => m.job.NoJob? && m.inbox != [] && m.inbox[0].SandboxExit?
    case CleanTick => m.job.NoJob? && m.cleanArmed
    case Close(i, ok, freed) => m.job.Cleaning? && i < |m.job.victims|
                                && (ok ==> !Reported(m.inbox, m.job.victims[i]))
    case EndClean => m.job.Cleaning? && m.job.victims == []
    case BeginIdle => m.job.NoJob? && m.idleTokens > 0
    case Hand(i, ok) => m.job.Pairing? && i < |m.job.pairs| && m.serial + 1 < TWO_64
                        && (ok ==> !Reported(m.inbox, m.job.pairs[i].id))
    case EndIdle => m.job.Pairing? && m.job.pairs == []
    case BeginNew => m.job.NoJob? && m.newTokens > 0
    case Launch(i, made) => m.job.Launching? && i < |m.job.todo| && m.serial + 1 < TWO_64 && FreshMade(m.t, made)
    case EndNew => m.job.Launching? && m.job.todo == []
  }

  /** What the code takes for granted when it carries the event out; it follows from the invariant. */
  predicate Runnable(m: Manager, ev: Event) {
    match ev
    case Deliver(i) => i < |m.desk.outbox|
    case BeginRequest => m.inbox != [] && m.inbox[0].GetProcess?
    case Create(_) => m.job.Creating? && m.job.left > 0 && m.job.need > 0
    case BeginReuse => m.job.Creating?
    case Reuse(i, _) => m.job.Reusing? && i < |m.job.picks| && m.job.need > 0 && m.job.picks[i] in m.t.idle
    case EndRequest => m.job.Reusing? && m.job.need <= m.job.total
    case HandleExit(_) => m.inbox != [] && m.inbox[0].SandboxExit? && Listed(m.t, m.inbox[0].id)
    case Close(i, _, _) => m.job.Cleaning? && i < |m.job.victims| && m.job.victims[i] in m.t.idle
    case EndClean => m.job.Cleaning?
    case BeginIdle => m.idleTokens > 0
    case Hand(i, _) => m.job.Pairing? && i < |m.job.pairs| && m.job.pairs[i].id in m.t.idle
    case BeginNew => m.newTokens > 0 && Available(m) >= 0
    case Launch(i, _) => m.job.Launching? && i < |m.job.todo|
    case _ => true
  }

  function Apply(m: Manager, ev: Event): Manager
    requires Runnable(m, ev)
  {
    match ev
    case Learn(key) => m.(known := m.known + [key])
    case Ask(group, num) => m.(inbox := m.inbox + [GetProcess(group, num)])
    case ReportExit(group, id) => m.(inbox := m.inbox + [SandboxExit(group, id)])
    case Deliver(i) => m.(desk := m.desk.(outbox := DropAt(m.desk.outbox, i)))
    case MarkBusy(id) => DoMarkBusy(m, id)
    case MarkIdle(id) => DoMarkIdle(m, id)
    case BeginRequest => DoBeginRequest(m)
    case Create(made) => DoCreate(m, made)
    case BeginReuse => DoBeginReuse(m)
    case Reuse(i, ok) => DoReuse(m, i, ok)
    case EndRequest => DoEndRequest(m)
    case HandleExit(freed) => DoHandleExit(m, freed)
    case CleanTick => DoCleanTick(m)
    case Close(i, ok, freed) => DoClose(m, i, ok, freed)
    case EndClean => DoEndClean(m)
    case BeginIdle => DoBeginIdle(m)
    case Hand(i, ok) => DoHand(m, i, ok)
    case EndIdle => m.(job := NoJob)
    case BeginNew => DoBeginNew(m)
    case Launch(i, made) => DoLaunch(m, i, made)
    case EndNew => m.(job := NoJob)
  }
}
