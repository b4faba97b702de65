/**
 The process manager as an object: the fields that the code updates, and its
 handlers with their loops.  A handler is proved to perform exactly its run of the
 manager's state machine, from the event that starts it until the lock is free,
 in whatever order the goroutines take its items.
 */
module ProcessManagers {
  import opened Keys
  import opened ManagerModel
  import I = ManagerIndexes

  /** What the surroundings decide: the outcome of creating a process under a name, for an idle process whether it
      agrees to change or close and whether its user can be given back, and which of `n` items comes next, so that every
      order of the goroutines is some `pick`. */
  datatype Env = Env(made: nat -> Made, agrees: nat -> bool, frees: nat -> bool, pick: nat -> nat)

  function Which(env: Env, n: nat): (i: nat)
    requires n > 0
    ensures i < n
  {
    env.pick(n) % n
  }

  /** The next event of the handler that is running. */
  function NextOf(m: Manager, env: Env): Event
    requires !m.job.NoJob?
  {
    match m.job
    case Creating(_, _, _, left) => if left > 0 then Create(env.made(m.serial + 1)) else BeginReuse
    case Reusing(_, _, _, picks) =>
      if picks == [] then EndRequest
      else var i := Which(env, |picks|); Reuse(i, env.agrees(picks[i]))
    case Cleaning(victims, _) =>
      if victims == [] then EndClean
      else var i := Which(env, |victims|); Close(i, env.agrees(victims[i]), env.frees(victims[i]))
    case Pairing(pairs) =>
      if pairs == [] then EndIdle
      else var i := Which(env, |pairs|); Hand(i, env.agrees(pairs[i].id))
    case Launching(todo) =>
      if todo == [] then EndNew
      else Launch(Which(env, |todo|), env.made(m.serial + 1))
  }

  /** The running handler's next `n` events lead from `m` to `r`. */
  ghost predicate Performs(m: Manager, env: Env, n: nat, r: Manager)
    decreases n
  {
    if n == 0 then r == m
    else !m.job.NoJob? && Runnable(m, NextOf(m, env)) && Performs(Apply(m, NextOf(m, env)), env, n - 1, r)
  }

  lemma PerformsNone(m: Manager, env: Env)
    ensures Performs(m, env, 0, m)
  {
  }

  lemma {:induction false} PerformsMore(m: Manager, env: Env, n: nat, r: Manager)
    requires Performs(m, env, n, r) && !r.job.NoJob? && Runnable(r, NextOf(r, env))
    ensures Performs(m, env, n + 1, Apply(r, NextOf(r, env)))
    decreases n
  {
    hide Runnable, Apply, NextOf;
    if n > 0 {
      PerformsMore(Apply(m, NextOf(m, env)), env, n - 1, r);
    }
  }

  /** The handler runs to its end, and the lock is free again. */
  ghost predicate Completes(m: Manager, env: Env, r: Manager) {
    r.job.NoJob? && exists n: nat :: Performs(m, env, n, r)
  }

  lemma {:induction false} OneEnd(m: Manager, env: Env, n: nat, r: Manager, k: nat, q: Manager)
    requires Performs(m, env, n, r) && Performs(m, env, k, q) && r.job.NoJob? && q.job.NoJob?
    ensures r == q
    decreases n
  {
    hide Runnable, Apply, NextOf;
    if n > 0 && k > 0 {
      OneEnd(Apply(m, NextOf(m, env)), env, n - 1, r, k - 1, q);
    }
  }

  /** A handler ends in one way only: its contract below fixes the whole new state. */
  lemma CompletesOnce(m: Manager, env: Env, r: Manager, q: Manager)
    requires Completes(m, env, r) && Completes(m, env, q)
    ensures r == q
  {
    var n: nat :| Performs(m, env, n, r);
    var k: nat :| Performs(m, env, k, q);
    OneEnd(m, env, n, r, k, q);
  }

  class ProcessManager {
    const cfg: Config
    var known: seq<GroupKey>
    var idleProcesses: map<nat, Entry>
    var idleOrder: seq<nat>
    var busyProcesses: map<nat, Entry>
    var processGroups: map<nat, set<nat>>
    var waitingRequestGroups: seq<nat>
    var responses: seq<Response>
    var eventCh: seq<Request>
    var allocateIdleCh: nat
    var allocateNewCh: nat
    var processCnt: nat
    var cleanArmed: bool

    ghost function T(): Tables
      reads this
    {
      Tables(idleProcesses, idleOrder, busyProcesses, |busyProcesses|, processGroups)
    }

    ghost function D(): Desk
      reads this
    {
      Desk(waitingRequestGroups, responses)
    }

    /** The manager as the state machine sees it while a handler has `job` left. */
    ghost function View(job: Job): (m: Manager)
      reads this
      ensures m.job == job
    {
      Manager(cfg, known, T(), D(), eventCh, allocateIdleCh, allocateNewCh, processCnt, cleanArmed, job)
    }

    constructor (config: Config)
      ensures View(NoJob) == Initial(config)
    {
      cfg, known, idleProcesses, idleOrder, busyProcesses := config, [], map[], [], map[];
      processGroups, waitingRequestGroups, responses, eventCh := map[], [], [], [];
      allocateIdleCh, allocateNewCh, processCnt, cleanArmed := 0, 0, 0, true;
    }

    /** getAvailableProcessNum. */
    function GetAvailable(): (n: int)
      reads this
      ensures n == Available(View(NoJob))
    {
      cfg.max - |idleOrder| - |busyProcesses|
    }

    // ----- waiting groups -----

    method SendProcessReadyResp(group: nat, num: nat)
      modifies `responses
      ensures D() == Send(old(D()), |known|, group, num)
    {
      if group < |known| {
        responses := responses + [Response(group, num)];
      }
    }

    method RemoveFromWaitingGroup(group: nat)
      modifies `waitingRequestGroups, `responses
      ensures D() == Wake(old(D()), |known|, group)
    {
      waitingRequestGroups := Drop(waitingRequestGroups, group);
      SendProcessReadyResp(group, 0);
    }

    // ----- the tables -----

    method AddToProcessGroup(group: nat, id: nat)
      modifies `processGroups
      ensures processGroups == WithMember(old(processGroups), group, id)
    {
      if group !in processGroups {
        processGroups := processGroups[group := {}];
      }
      processGroups := processGroups[group := processGroups[group] + {id}];
      assert processGroups == WithMember(old(processGroups), group, id);
    }

    /** The group's last process takes the group and its place on the waiting list with it. */
    method RemoveFromProcessGroup(group: nat, id: nat)
      modifies `processGroups, `waitingRequestGroups, `responses
      ensures processGroups == WithoutMember(old(processGroups), group, id)
      ensures D() == if group in old(processGroups) && group !in processGroups then
        Wake(old(D()), |known|, group) else old(D())
    {
      if group !in processGroups {
        return;
      }
      processGroups := processGroups[group := processGroups[group] - {id}];
      if processGroups[group] == {} {
        processGroups := processGroups - {group};
        RemoveFromWaitingGroup(group);
        assert processGroups == old(processGroups) - {group};
      }
    }

    method AddProcessToCache(id: nat, e: Entry)
      modifies `busyProcesses, `processGroups
      ensures T() == Insert(old(T()), id, e)
    {
      busyProcesses := busyProcesses[id := e];
      AddToProcessGroup(e.group, id);
    }

    method RemoveProcessFromCache(group: nat, id: nat)
      modifies `busyProcesses, `idleProcesses, `idleOrder, `processGroups, `waitingRequestGroups, `responses
      ensures T() == Delete(old(T()), group, id) && D() == AfterDelete(old(D()), old(T()), |known|, group, id)
    {
      I.MapDropSize(busyProcesses, id);
      busyProcesses := busyProcesses - {id};
      idleProcesses, idleOrder := idleProcesses - {id}, Drop(idleOrder, id);
      RemoveFromProcessGroup(group, id);
    }

    /** ChangeProcessState: fails when the process is not where it should be. */
    method ChangeProcessState(id: nat, toBusy: bool) returns (ok: bool)
      modifies this
      ensures ok == (id in if toBusy then old(idleProcesses) else old(busyProcesses))
      ensures View(NoJob) == if toBusy then DoMarkBusy(old(View(NoJob)), id) else DoMarkIdle(old(View(NoJob)), id)
    {
      hide Wake;
      if toBusy {
        ok := IdleToBusyList(id);
      } else {
        ok := BusyToIdleList(id);
      }
    }

    method IdleToBusyList(id: nat) returns (ok: bool)
      modifies `busyProcesses, `idleProcesses, `idleOrder
      ensures ok == (id in old(idleProcesses)) && T() == if ok then IdleToBusy(old(T()), id) else old(T())
    {
      if id !in idleProcesses {
        return false;
      }
      busyProcesses := busyProcesses[id := idleProcesses[id]];
      idleProcesses, idleOrder := idleProcesses - {id}, Drop(idleOrder, id);
      return true;
    }

    method BusyToIdleList(id: nat) returns (ok: bool)
      modifies `busyProcesses, `idleProcesses, `idleOrder, `waitingRequestGroups, `responses, `allocateIdleCh
      ensures ok == (id in old(busyProcesses)) && T() == if ok then BusyToIdle(old(T()), id) else old(T())
      ensures var g := if ok then old(busyProcesses)[id].group else 0;
              && D() == (if ok && g in old(waitingRequestGroups) then Wake(old(D()), |known|, g) else old(D()))
              && allocateIdleCh == (if ok && waitingRequestGroups != [] then
                  old(allocateIdleCh) + 1 else old(allocateIdleCh))
    {
      hide Wake;
      if id !in busyProcesses {
        return false;
      }
      I.MapDropSize(busyProcesses, id);
      AddProcessToIdle(id, busyProcesses[id]);
      busyProcesses := busyProcesses - {id};
      return true;
    }

    method AddProcessToIdle(id: nat, e: Entry)
      modifies `idleProcesses, `idleOrder, `waitingRequestGroups, `responses, `allocateIdleCh
      ensures idleProcesses == old(idleProcesses)[id := e] && idleOrder == Push(old(idleOrder), id)
      ensures D() == if e.group in old(waitingRequestGroups) then Wake(old(D()), |known|, e.group) else old(D())
      ensures allocateIdleCh == if waitingRequestGroups != [] then old(allocateIdleCh) + 1 else old(allocateIdleCh)
    {
      idleProcesses, idleOrder := idleProcesses[id := e], Push(idleOrder, id);
      if e.group in waitingRequestGroups {
        RemoveFromWaitingGroup(e.group);
      }
      if |waitingRequestGroups| > 0 {
        allocateIdleCh := allocateIdleCh + 1;
      }
    }
  
    /** "Meet the same idle process". */
    predicate Same(g: nat, h: nat)
      reads this
      ensures Same(g, h) == SameContract(View(NoJob), g, h)
    {
      g < |known| && h < |known| && known[g].name == known[h].name && known[g].version == known[h].version
    }

    // ----- handleGetProcessReq -----

    /** One of the goroutines that create processes. */
    method CreateOne(job: Job, made: Made) returns (rest: Job)
      requires job.Creating? && job.left > 0 && job.need > 0
      modifies `processCnt, `busyProcesses, `processGroups
      ensures View(rest) == DoCreate(old(View(job)), made)
    {
      hide Insert;
      processCnt := processCnt + 1;
      match made
      case Failed => rest := job.(left := job.left - 1);
      case Made(pid, user) =>
        rest := job.(left := job.left - 1, need := job.need - 1);
        AddProcessToCache(processCnt, Entry(pid, job.group, user));
    }

    /** The process object gets another name and contract. */
    method Move(id: nat, group: nat, name: nat)
      requires id in idleProcesses
      modifies `busyProcesses, `idleProcesses, `idleOrder, `processGroups, `waitingRequestGroups, `responses
      ensures T() == Transfer(old(T()), id, group, name)
      ensures D() == AfterDelete(old(D()), old(T()), |known|, old(idleProcesses)[id].group, id)
    {
      hide Insert, Delete, AfterDelete;
      var e := idleProcesses[id];
      RemoveProcessFromCache(e.group, id);
      AddProcessToCache(name, Entry(e.pid, group, e.user));
    }

    /** One of the goroutines that change idle processes. */
    method ReuseOne(job: Job, i: nat, ok: bool) returns (rest: Job)
      requires job.Reusing? && i < |job.picks| && job.need > 0 && job.picks[i] in idleProcesses
      modifies `processCnt, `busyProcesses, `idleProcesses, `idleOrder, `processGroups, `waitingRequestGroups,
        `responses
      ensures View(rest) == DoReuse(old(View(job)), i, ok) && rest.Reusing? && rest.picks == DropAt(job.picks, i)
      ensures forall n :: n in old(idleProcesses) && n != job.picks[i] ==> n in idleProcesses
      ensures job.need - 1 <= rest.need <= job.need
    {
      hide Transfer, AfterDelete, DropAt;
      var id := job.picks[i];
      if Same(job.group, idleProcesses[id].group) {
        return Reusing(job.group, job.total, job.need - 1, DropAt(job.picks, i));
      }
      processCnt := processCnt + 1;
      rest := Reusing(job.group, job.total, if ok then job.need - 1 else job.need, DropAt(job.picks, i));
      if ok {
        TransferKeeps(T(), id, job.group, processCnt);
        Move(id, job.group, processCnt);
      }
    }

    method CreateAll(todo: Job, env: Env, ghost was: Manager, ghost before: nat) returns (job: Job, ghost n: nat)
      requires todo.Creating? && todo.left <= todo.need <= todo.total && Performs(was, env, before, View(todo))
      modifies `processCnt, `busyProcesses, `processGroups
      ensures Performs(was, env, n, View(job))
      ensures job.Creating? && job.left == 0 && job.need <= job.total && job.group == todo.group &&
        job.total == todo.total
    {
      hide Performs, DoCreate;
      job, n := todo, before;
      while job.left > 0
        invariant Performs(was, env, n, View(job))
        invariant job.Creating? && job.left <= job.need <= job.total && job.group == todo.group &&
          job.total == todo.total
        decreases job.left
      {
        var outcome := env.made(processCnt + 1);
        PerformsMore(was, env, n, View(job));
        CreateShrinks(View(job), outcome);
        n := n + 1;
        job := CreateOne(job, outcome);
      }
    }

    method ReuseAll(todo: Job, env: Env, ghost was: Manager, ghost before: nat) returns (job: Job, ghost n: nat)
      requires todo.Reusing? && |todo.picks| <= todo.need <= todo.total && Performs(was, env, before, View(todo))
      requires I.Distinct(todo.picks) && forall n :: n in todo.picks ==> n in idleProcesses
      modifies `processCnt, `busyProcesses, `idleProcesses, `idleOrder, `processGroups, `waitingRequestGroups,
        `responses
      ensures Performs(was, env, n, View(job))
      ensures job.Reusing? && job.picks == [] && job.need <= job.total && job.group == todo.group &&
        job.total == todo.total
    {
      hide Performs, DoReuse, DropAt;
      job, n := todo, before;
      while job.picks != []
        invariant Performs(was, env, n, View(job))
        invariant job.Reusing? && |job.picks| <= job.need <= job.total && job.group == todo.group &&
          job.total == todo.total
        invariant I.Distinct(job.picks) && forall n :: n in job.picks ==> n in idleProcesses
        decreases |job.picks|
      {
        var i := Which(env, |job.picks|);
        var ok := env.agrees(job.picks[i]);
        PerformsMore(was, env, n, View(job));
        ReuseGroup(View(job), i, ok);
        I.DropAtShape(job.picks, i);
        n := n + 1;
        job := ReuseOne(job, i, ok);
      }
    }

    /** The request is taken; with nothing needed the group is only told. */
    method TakeRequest() returns (job: Job)
      requires eventCh != [] && eventCh[0].GetProcess?
      modifies `eventCh, `waitingRequestGroups, `responses
      ensures View(job) == DoBeginRequest(old(View(NoJob)))
      ensures job.NoJob? || (job.Creating? && job.left <= job.need <= job.total)
    {
      var msg, available := eventCh[0], GetAvailable();
      eventCh := eventCh[1..];
      if msg.num == 0 {
        RemoveFromWaitingGroup(msg.group);
        return NoJob;
      }
      return Creating(msg.group, msg.num, msg.num, if available > 0 then Min(msg.num, available) else 0);
    }

    /** A group that got nothing waits, any other is told what it got. */
    method AnswerRequest(job: Job)
      requires job.Reusing? && job.need <= job.total
      modifies `waitingRequestGroups, `responses
      ensures View(NoJob) == DoEndRequest(old(View(job)))
    {
      if job.need == job.total {
        waitingRequestGroups := Push(waitingRequestGroups, job.group);
      } else {
        SendProcessReadyResp(job.group, job.total - job.need);
      }
    }

    /** The idle list shows idle processes, once each. */
    ghost predicate IdleListed()
      reads `idleOrder, `idleProcesses
    {
      I.Distinct(idleOrder) && forall n :: n in idleOrder ==> n in idleProcesses
    }

    /** peekIdleProcesses for a request. */
    method PickIdle(job: Job) returns (rest: Job)
      requires job.Creating? && job.need <= job.total && IdleListed()
      ensures View(rest) == DoBeginReuse(View(job))
      ensures rest.Reusing? && |rest.picks| <= rest.need <= rest.total && I.Distinct(rest.picks)
      ensures forall n :: n in rest.picks ==> n in idleProcesses
    {
      rest := Reusing(job.group, job.total, job.need, idleOrder[..Min(job.need, |idleOrder|)]);
    }

    /** Idle processes for what is still missing, and the answer. */
    method ReuseAndAnswer(todo: Job, env: Env, ghost was: Manager, ghost before: nat)
      requires todo.Creating? && todo.left == 0 && todo.need <= todo.total && IdleListed()
      requires Performs(was, env, before, View(todo))
      modifies this
      ensures Completes(was, env, View(NoJob))
    {
      hide Performs, DoEndRequest, DoBeginReuse, IdleListed, I.Distinct, View;
      PerformsMore(was, env, before, View(todo));
      var job := PickIdle(todo);
      ghost var n;
      job, n := ReuseAll(job, env, was, before + 1);
      PerformsMore(was, env, n, View(job));
      AnswerRequest(job);
    }

    /** The whole handler: processes are created while there is room, then idle ones are changed, and what is still
        missing decides whether the group waits or is told. */
    method HandleGetProcessReq(env: Env)
      requires eventCh != [] && eventCh[0].GetProcess? && IdleListed()
      modifies this
      ensures Completes(DoBeginRequest(old(View(NoJob))), env, View(NoJob))
    {
      hide Performs, DoBeginRequest, IdleListed, View;
      var job := TakeRequest();
      ghost var was := View(job);
      PerformsNone(was, env);
      if job.Creating? {
        ghost var n;
        job, n := CreateAll(job, env, was, 0);
        ReuseAndAnswer(job, env, was, n);
      }
    }

    // ----- handleSandboxExitMsg and handleCleanIdleProcesses -----

    /** closeSandbox; `freed` tells whether the user queue took the user back. */
    method CloseSandbox(group: nat, id: nat, freed: bool)
      modifies `busyProcesses, `idleProcesses, `idleOrder, `processGroups, `waitingRequestGroups, `responses
      ensures T() == if freed then Delete(old(T()), group, id) else old(T())
      ensures D() == if freed then AfterDelete(old(D()), old(T()), |known|, group, id) else old(D())
    {
      if freed {
        RemoveProcessFromCache(group, id);
      }
    }

    method HandleSandboxExitMsg(freed: bool)
      requires eventCh != [] && eventCh[0].SandboxExit?
      modifies this
      ensures View(NoJob) == DoHandleExit(old(View(NoJob)), freed)
    {
      hide Delete, AfterDelete;
      var msg := eventCh[0];
      eventCh := eventCh[1..];
      CloseSandbox(msg.group, msg.id, freed);
      if freed {
        allocateNewCh := allocateNewCh + 1;
      }
    }

    method CloseOne(job: Job, i: nat, ok: bool, freed: bool) returns (rest: Job)
      requires job.Cleaning? && i < |job.victims| && job.victims[i] in idleProcesses
      modifies `busyProcesses, `idleProcesses, `idleOrder, `processGroups, `waitingRequestGroups, `responses
      ensures View(rest) == DoClose(old(View(job)), i, ok, freed) && rest.Cleaning? &&
        rest.victims == DropAt(job.victims, i)
      ensures forall n :: n in old(idleProcesses) && n != job.victims[i] ==> n in idleProcesses
    {
      hide DropAt;
      var id := job.victims[i];
      var closed := if ok then job.closed + 1 else job.closed;
      rest := Cleaning(DropAt(job.victims, i), closed);
      if ok {
        DeleteKeeps(T(), idleProcesses[id].group, id);
        hide Delete, AfterDelete;
        CloseSandbox(idleProcesses[id].group, id, freed);
      }
    }

    method CloseAll(todo: Job, env: Env, ghost was: Manager) returns (job: Job, ghost n: nat)
      requires todo.Cleaning? && was == View(todo)
      requires I.Distinct(todo.victims) && forall n :: n in todo.victims ==> n in idleProcesses
      modifies `busyProcesses, `idleProcesses, `idleOrder, `processGroups, `waitingRequestGroups, `responses
      ensures Performs(was, env, n, View(job)) && job.Cleaning? && job.victims == []
    {
      hide Performs, DoClose, DropAt;
      PerformsNone(was, env);
      job, n := todo, 0;
      while job.victims != []
        invariant Performs(was, env, n, View(job)) && job.Cleaning?
        invariant I.Distinct(job.victims) && forall n :: n in job.victims ==> n in idleProcesses
        decreases |job.victims|
      {
        var i := Which(env, |job.victims|);
        var ok, freed := env.agrees(job.victims[i]), env.frees(job.victims[i]);
        PerformsMore(was, env, n, View(job));
        I.DropAtShape(job.victims, i);
        n := n + 1;
        job := CloseOne(job, i, ok, freed);
      }
    }

    /** How many processes a cleaning may close, and which; without any, the timer is not started again. */
    method StartCleaning() returns (job: Job)
      requires IdleListed()
      modifies `cleanArmed
      ensures View(job) == DoCleanTick(old(View(NoJob))) && (job.NoJob? || job.Cleaning?)
      ensures job.Cleaning? ==> I.Distinct(job.victims) && forall n :: n in job.victims ==> n in idleProcesses
    {
      cleanArmed := false;
      var releaseNum := Min((cfg.releaseRate * cfg.max as real).Floor - GetAvailable(), |idleOrder|);
      job := if releaseNum <= 0 then NoJob else Cleaning(idleOrder[..releaseNum], 0);
    }

    /** Freed slots are announced, and the timer is started again. */
    method FinishCleaning(job: Job)
      requires job.Cleaning?
      modifies `allocateNewCh, `cleanArmed
      ensures View(NoJob) == DoEndClean(old(View(job)))
    {
      if job.closed > 0 {
        allocateNewCh := allocateNewCh + 1;
      }
      cleanArmed := true;
    }

    method HandleCleanIdleProcesses(env: Env)
      requires IdleListed()
      modifies this
      ensures Completes(DoCleanTick(old(View(NoJob))), env, View(NoJob))
    {
      hide Performs, DoCleanTick, DoEndClean, IdleListed, I.Distinct, View;
      var job := StartCleaning();
      ghost var was := View(job);
      PerformsNone(was, env);
      if job.Cleaning? {
        ghost var n;
        job, n := CloseAll(job, env, was);
        PerformsMore(was, env, n, View(job));
        FinishCleaning(job);
      }
    }

    // ----- handleAllocateIdleProcesses -----

    /** A handler that is through has nothing left. */
    lemma Through(job: Job)
      ensures View(NoJob) == View(job).(job := NoJob)
    {
    }

    method HandOne(job: Job, i: nat, ok: bool) returns (rest: Job)
      requires job.Pairing? && i < |job.pairs| && job.pairs[i].id in idleProcesses
      modifies `processCnt, `busyProcesses, `idleProcesses, `idleOrder, `processGroups, `waitingRequestGroups,
        `responses
      ensures View(rest) == DoHand(old(View(job)), i, ok) && rest == Pairing(DropAt(job.pairs, i))
      ensures forall n :: n in old(idleProcesses) && n != job.pairs[i].id ==> n in idleProcesses
    {
      hide Transfer, AfterDelete, Wake, Send, DropAt;
      var Match(id, group) := job.pairs[i];
      rest := Pairing(DropAt(job.pairs, i));
      if Same(group, idleProcesses[id].group) {
        RemoveFromWaitingGroup(group);
        SendProcessReadyResp(group, 0);
        return;
      }
      processCnt := processCnt + 1;
      if ok {
        HandOver(id, group);
      }
    }

    /** The group is told and woken, and the process moves to it. */
    method HandOver(id: nat, group: nat)
      requires id in idleProcesses
      modifies `busyProcesses, `idleProcesses, `idleOrder, `processGroups, `waitingRequestGroups, `responses
      ensures T() == Transfer(old(T()), id, group, processCnt) && idleProcesses == old(idleProcesses) - {id}
      ensures D() == AfterDelete(Wake(Send(old(D()), |known|, group, 1), |known|, group), old(T()), |known|,
                                 old(idleProcesses[id].group), id)
    {
      hide Transfer, AfterDelete, Wake, Send;
      TransferKeeps(T(), id, group, processCnt);
      SendProcessReadyResp(group, 1);
      RemoveFromWaitingGroup(group);
      Move(id, group, processCnt);
    }

    method HandAll(todo: Job, env: Env, ghost was: Manager) returns (job: Job, ghost n: nat)
      requires todo.Pairing? && was == View(todo)
      requires Separate(todo.pairs) && forall i :: 0 <= i < |todo.pairs| ==> todo.pairs[i].id in idleProcesses
      modifies `processCnt, `busyProcesses, `idleProcesses, `idleOrder, `processGroups, `waitingRequestGroups,
        `responses
      ensures Performs(was, env, n, View(job)) && job == Pairing([])
    {
      hide Performs, DoHand, DropAt;
      PerformsNone(was, env);
      job, n := todo, 0;
      while job.pairs != []
        invariant Performs(was, env, n, View(job)) && job.Pairing?
        invariant Separate(job.pairs) && forall i :: 0 <= i < |job.pairs| ==> job.pairs[i].id in idleProcesses
        decreases |job.pairs|
      {
        var i := Which(env, |job.pairs|);
        var ok := env.agrees(job.pairs[i].id);
        PerformsMore(was, env, n, View(job));
        I.PairsWithout(job.pairs, i);
        n := n + 1;
        job := HandOne(job, i, ok);
      }
    }

    /** Waiting groups and idle processes, oldest with oldest. */
    method StartPairing() returns (job: Job)
      requires allocateIdleCh > 0 && IdleListed()
      modifies `allocateIdleCh
      ensures View(job) == DoBeginIdle(old(View(NoJob))) && (job.NoJob? || job.Pairing?)
      ensures job.Pairing? ==> Separate(job.pairs) && forall i :: 0 <= i < |job.pairs| ==>
        job.pairs[i].id in idleProcesses
    {
      allocateIdleCh := allocateIdleCh - 1;
      var n := Min(|waitingRequestGroups|, |idleOrder|);
      job := if n == 0 then NoJob else Pairing(Zip(idleOrder[..n], waitingRequestGroups[..n]));
    }

    method HandleAllocateIdleProcesses(env: Env)
      requires allocateIdleCh > 0 && IdleListed()
      modifies this
      ensures Completes(DoBeginIdle(old(View(NoJob))), env, View(NoJob))
    {
      hide Performs, DoBeginIdle, IdleListed, Separate, View;
      var job := StartPairing();
      ghost var was := View(job);
      PerformsNone(was, env);
      if job.Pairing? {
        ghost var n;
        job, n := HandAll(job, env, was);
        PerformsMore(was, env, n, View(job));
        Through(job);
      }
    }

    // ----- handleAllocateNewProcesses -----

    method LaunchOne(job: Job, i: nat, made: Made) returns (rest: Job)
      requires job.Launching? && i < |job.todo|
      modifies `processCnt, `busyProcesses, `processGroups, `waitingRequestGroups, `responses
      ensures View(rest) == DoLaunch(old(View(job)), i, made) && rest == Launching(DropAt(job.todo, i))
    {
      hide Insert, Wake, Send, DropAt;
      var group := job.todo[i];
      rest := Launching(DropAt(job.todo, i));
      if group >= |known| {
        return;
      }
      SendProcessReadyResp(group, 1);
      processCnt := processCnt + 1;
      match made
      case Failed =>
      case Made(pid, user) =>
        RemoveFromWaitingGroup(group);
        AddProcessToCache(processCnt, Entry(pid, group, user));
    }

    /** The groups that have waited longest, as many as there are free slots. */
    method StartLaunching() returns (job: Job)
      requires allocateNewCh > 0 && GetAvailable() >= 0
      modifies `allocateNewCh
      ensures View(job) == DoBeginNew(old(View(NoJob))) && (job.NoJob? || job.Launching?)
    {
      var n := Min(|waitingRequestGroups|, GetAvailable());
      allocateNewCh := allocateNewCh - 1;
      job := if n == 0 then NoJob else Launching(waitingRequestGroups[..n]);
    }

    method LaunchAll(todo: Job, env: Env, ghost was: Manager) returns (job: Job, ghost n: nat)
      requires todo.Launching? && was == View(todo)
      modifies `processCnt, `busyProcesses, `processGroups, `waitingRequestGroups, `responses
      ensures Performs(was, env, n, View(job)) && job == Launching([])
    {
      hide Performs, DoLaunch, DropAt;
      PerformsNone(was, env);
      job, n := todo, 0;
      while job.todo != []
        invariant Performs(was, env, n, View(job)) && job.Launching?
        decreases |job.todo|
      {
        var i := Which(env, |job.todo|);
        var outcome := env.made(processCnt + 1);
        PerformsMore(was, env, n, View(job));
        n := n + 1;
        job := LaunchOne(job, i, outcome);
      }
    }

    method HandleAllocateNewProcesses(env: Env)
      requires allocateNewCh > 0 && GetAvailable() >= 0
      modifies this
      ensures Completes(DoBeginNew(old(View(NoJob))), env, View(NoJob))
    {
      hide Performs, DoBeginNew, View;
      var job := StartLaunching();
      ghost var was := View(job);
      PerformsNone(was, env);
      if job.Launching? {
        ghost var n;
        job, n := LaunchAll(job, env, was);
        PerformsMore(was, env, n, View(job));
        Through(job);
      }
    }
  }

  /** No two pairs share a process. */
  predicate Separate(pairs: seq<Match>) {
    forall i, j :: 0 <= i < j < |pairs| ==> pairs[i].id != pairs[j].id
  }

  lemma DeleteKeeps(t: Tables, group: nat, id: nat)
    ensures Delete(t, group, id).idle == t.idle - {id}
  {
  }

  lemma CreateShrinks(m: Manager, made: Made)
    requires Runnable(m, Create(made)) && m.job.left <= m.job.need <= m.job.total
    ensures var j := DoCreate(m, made).job;
            j.Creating? && j.left == m.job.left - 1 && j.left <= j.need <= j.total && j.group == m.job.group &&
              j.total == m.job.total
  {
    hide Insert;
  }

  lemma ReuseGroup(m: Manager, i: nat, ok: bool)
    requires Runnable(m, Reuse(i, ok))
    ensures var j := DoReuse(m, i, ok).job; j.Reusing? && j.group == m.job.group && j.total == m.job.total
  {
    hide Transfer, AfterDelete, SameContract;
  }

  lemma TransferKeeps(t: Tables, id: nat, group: nat, to: nat)
    requires id in t.idle
    ensures Transfer(t, id, group, to).idle == t.idle - {id}
  {
  }
}
