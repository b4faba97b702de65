/**
 No wake-up is lost inside the manager: a request that has been made is somewhere
 until it is answered, a group that loses its last process is told, and spare
 capacity and waiting groups meet only while a token announces them.
 */
module ManagerWakeups {
  import opened Keys
  import opened ManagerModel
  import opened ManagerIndexes

  predicate Asked(inbox: seq<Request>, g: nat) {
    exists i | 0 <= i < |inbox| :: inbox[i].GetProcess? && inbox[i].group == g
  }

  predicate Told(outbox: seq<Response>, g: nat) {
    exists i | 0 <= i < |outbox| :: outbox[i].group == g
  }

  predicate Serving(job: Job, g: nat) {
    (job.Creating? || job.Reusing?) && job.group == g
  }

  /** The group's request is queued, being handled, parked on the waiting list, or answered. */
  predicate Attended(m: Manager, g: nat) {
    Asked(m.inbox, g) || Serving(m.job, g) || g in m.desk.waiting || Told(m.desk.outbox, g)
  }

  /** The group has a process, or a response on its way that makes it look again. */
  predicate Provided(m: Manager, g: nat) {
    g in m.t.groups || Told(m.desk.outbox, g)
  }

  /** The event is the delivery of a response to the group. */
  predicate DeliveredTo(m: Manager, ev: Event, g: nat) {
    ev.Deliver? && ev.i < |m.desk.outbox| && m.desk.outbox[ev.i].group == g
  }

  lemma SendTells(d: Desk, known: nat, group: nat, num: nat, g: nat)
    ensures Told(d.outbox, g) ==> Told(Send(d, known, group, num).outbox, g)
    ensures group < known ==> Told(Send(d, known, group, num).outbox, group)
  {
    var r := Send(d, known, group, num).outbox;
    if i :| 0 <= i < |d.outbox| && d.outbox[i].group == g {
      assert r[i].group == g;
    }
    if group < known {
      assert r[|d.outbox|].group == group;
    }
  }

  /** Waking removes a group from the waiting list only by telling it. */
  lemma WakeTells(d: Desk, known: nat, group: nat, g: nat)
    requires group < known
    ensures Told(d.outbox, g) ==> Told(Wake(d, known, group).outbox, g)
    ensures Told(Wake(d, known, group).outbox, group)
    ensures g in d.waiting ==> g in Wake(d, known, group).waiting || Told(Wake(d, known, group).outbox, g)
  {
    SendTells(Desk(Drop(d.waiting, group), d.outbox), known, group, 0, g);
  }

  lemma AfterDeleteTells(d: Desk, t: Tables, known: nat, group: nat, id: nat, g: nat)
    requires group < known
    ensures var r := AfterDelete(d, t, known, group, id);
            && (Told(d.outbox, g) ==> Told(r.outbox, g))
            && (g in d.waiting ==> g in r.waiting || Told(r.outbox, g))
            && (g in t.groups ==> g in WithoutMember(t.groups, group, id) || Told(r.outbox, g))
  {
    WakeTells(d, known, group, g);
  }

  lemma AskedStays(inbox: seq<Request>, r: Request, g: nat)
    ensures Asked(inbox, g) ==> Asked(inbox + [r], g)
    ensures r.GetProcess? ==> Asked(inbox + [r], r.group)
  {
    var after := inbox + [r];
    if i :| 0 <= i < |inbox| && inbox[i].GetProcess? && inbox[i].group == g {
      assert after[i].group == g;
    }
    assert after[|inbox|] == r;
  }

  lemma AskedPopped(inbox: seq<Request>, g: nat)
    requires inbox != [] && !(inbox[0].GetProcess? && inbox[0].group == g)
    ensures Asked(inbox, g) ==> Asked(inbox[1..], g)
  {
    if i :| 0 <= i < |inbox| && inbox[i].GetProcess? && inbox[i].group == g {
      assert inbox[1..][i - 1].group == g;
    }
  }

  lemma ToldAfterDelivery(outbox: seq<Response>, i: nat, g: nat)
    requires i < |outbox| && outbox[i].group != g
    ensures Told(outbox, g) ==> Told(DropAt(outbox, i), g)
  {
    var r := DropAt(outbox, i);
    if j :| 0 <= j < |outbox| && outbox[j].group == g {
      assert r[if j < i then j else j - 1].group == g;
    }
  }

  /** What an event does to the responses, the waiting list and the groups: nothing is dropped silently. */
  ghost predicate DeskKept(m: Manager, r: Manager, g: nat) {
    && (Told(m.desk.outbox, g) ==> Told(r.desk.outbox, g))
    && (g in m.desk.waiting ==> g in r.desk.waiting || Told(r.desk.outbox, g))
    && (g in m.t.groups ==> g in r.t.groups || Told(r.desk.outbox, g))
  }

  lemma ReuseKeeps(m: Manager, i: nat, ok: bool, g: nat)
    requires Good(m) && Enabled(m, Reuse(i, ok)) && Runnable(m, Reuse(i, ok))
    ensures DeskKept(m, DoReuse(m, i, ok), g)
  {
    hide Told, Drop, DeskOk, ExitsLive, JobFits;
    var id := m.job.picks[i];
    assert Listed(m.t, id);
    AfterDeleteTells(m.desk, m.t, |m.known|, m.t.idle[id].group, id, g);
  }

  lemma HandKeeps(m: Manager, i: nat, ok: bool, g: nat)
    requires Good(m) && Enabled(m, Hand(i, ok)) && Runnable(m, Hand(i, ok))
    ensures DeskKept(m, DoHand(m, i, ok), g)
  {
    hide Told, Drop, Wake, Send, DeskOk, ExitsLive, JobFits;
    var Match(id, group) := m.job.pairs[i];
    var old0 := m.t.idle[id].group;
    assert Listed(m.t, id);
    var told := Send(m.desk, |m.known|, group, 1);
    SendTells(m.desk, |m.known|, group, 1, g);
    SendKeepsWaiting(m.desk, |m.known|, group, 1);
    WakeTells(told, |m.known|, group, g);
    AfterDeleteTells(Wake(told, |m.known|, group), m.t, |m.known|, old0, id, g);
    WakeTells(m.desk, |m.known|, group, g);
    SendTells(Wake(m.desk, |m.known|, group), |m.known|, group, 0, g);
    SendKeepsWaiting(Wake(m.desk, |m.known|, group), |m.known|, group, 0);
  }

  lemma SendKeepsWaiting(d: Desk, known: nat, group: nat, num: nat)
    ensures Send(d, known, group, num).waiting == d.waiting
  {
  }

  lemma LaunchKeeps(m: Manager, i: nat, made: Made, g: nat)
    requires Good(m) && Enabled(m, Launch(i, made))
    ensures DeskKept(m, DoLaunch(m, i, made), g)
  {
    hide Told, Drop, Wake, Send, DeskOk, ExitsLive, JobFits;
    var group := m.job.todo[i];
    assert group in m.job.todo;
    SendTells(m.desk, |m.known|, group, 1, g);
    SendKeepsWaiting(m.desk, |m.known|, group, 1);
    WakeTells(Send(m.desk, |m.known|, group, 1), |m.known|, group, g);
  }

  lemma RemoveKeeps(m: Manager, id: nat, g: nat)
    requires TablesOk(m.t, m.serial, |m.known|) && Listed(m.t, id)
    ensures DeskKept(m, RemoveFromCache(m, EntryOf(m.t, id).group, id), g)
  {
    AfterDeleteTells(m.desk, m.t, |m.known|, EntryOf(m.t, id).group, id, g);
  }

  lemma EndRequestKeeps(m: Manager, g: nat)
    requires Good(m) && Enabled(m, EndRequest) && Runnable(m, EndRequest)
    ensures DeskKept(m, DoEndRequest(m), g)
    ensures m.job.group in DoEndRequest(m).desk.waiting || Told(DoEndRequest(m).desk.outbox, m.job.group)
  {
    SendTells(m.desk, |m.known|, m.job.group, m.job.total - m.job.need, g);
  }

  /** No event but the delivery itself loses a response, a waiting group or a group's last process unnoticed. */
  lemma DeskStep(m: Manager, ev: Event, g: nat)
    requires Good(m) && Enabled(m, ev) && Runnable(m, ev) && !DeliveredTo(m, ev, g)
    ensures DeskKept(m, Apply(m, ev), g)
  {
    hide Good, Told, Wake, Send, AfterDelete, TablesOk, DeskOk, ExitsLive, JobFits, SameContract;
    match ev
    case Deliver(i) => ToldAfterDelivery(m.desk.outbox, i, g);
    case Reuse(i, ok) => ReuseKeeps(m, i, ok, g);
    case Hand(i, ok) => HandKeeps(m, i, ok, g);
    case Launch(i, made) => LaunchKeeps(m, i, made, g);
    case EndRequest => EndRequestKeeps(m, g);
    case HandleExit(_) => ExitKeeps(m, ev, g);
    case Close(_, _, _) => ExitKeeps(m, ev, g);
    case BeginRequest => BeginKeeps(m, ev, g);
    case MarkIdle(_) => BeginKeeps(m, ev, g);
    case _ =>
  }

  lemma ExitKeeps(m: Manager, ev: Event, g: nat)
    requires Good(m) && Enabled(m, ev) && Runnable(m, ev) && (ev.HandleExit? || ev.Close?)
    ensures DeskKept(m, Apply(m, ev), g)
  {
    RemoveKeeps(m, if ev.HandleExit? then m.inbox[0].id else m.job.victims[ev.i], g);
  }

  lemma BeginKeeps(m: Manager, ev: Event, g: nat)
    requires Good(m) && Enabled(m, ev) && Runnable(m, ev) && (ev.BeginRequest? || ev.MarkIdle?)
    ensures DeskKept(m, Apply(m, ev), g)
  {
    if ev.BeginRequest? {
      WakeTells(m.desk, |m.known|, m.inbox[0].group, g);
    } else if ev.id in m.t.busy {
      assert Listed(m.t, ev.id);
      WakeTells(m.desk, |m.known|, m.t.busy[ev.id].group, g);
    }
  }

  /** A request stays in the channel until a handler takes it. */
  lemma AskedKept(m: Manager, ev: Event, g: nat)
    requires Enabled(m, ev) && Runnable(m, ev) && Asked(m.inbox, g) && !ev.BeginRequest?
    ensures Asked(Apply(m, ev).inbox, g)
  {
    hide Asked, Wake, Send, AfterDelete, SameContract, Transfer, Insert, Delete, Reported, FreshMade;
    match ev
    case Ask(group, num) => AskedStays(m.inbox, GetProcess(group, num), g);
    case ReportExit(group, id) => AskedStays(m.inbox, SandboxExit(group, id), g);
    case HandleExit(_) => AskedPopped(m.inbox, g);
    case _ =>
  }

  /** It stays with the handler until it is answered or put on the waiting list. */
  lemma ServingKept(m: Manager, ev: Event, g: nat)
    requires Good(m) && Enabled(m, ev) && Runnable(m, ev) && Serving(m.job, g)
    ensures Attended(Apply(m, ev), g)
  {
    hide Good, Told, Asked, Wake, Send, AfterDelete, SameContract, Transfer, Insert, Delete, Reported, FreshMade;
    if ev.EndRequest? {
      EndRequestKeeps(m, g);
    }
  }

  /** A request is attended to until its answer is delivered. */
  lemma AttendedStep(m: Manager, ev: Event, g: nat)
    requires Good(m) && Enabled(m, ev) && Runnable(m, ev) && !DeliveredTo(m, ev, g) && Attended(m, g)
    ensures Attended(Apply(m, ev), g)
  {
    hide Good, Enabled, Runnable, Told, Asked, Serving;
    DeskStep(m, ev, g);
    if ev.BeginRequest? {
      BeginAttends(m, g);
    } else {
      hide Apply;
      if Asked(m.inbox, g) {
        AskedKept(m, ev, g);
      } else if Serving(m.job, g) {
        ServingKept(m, ev, g);
      }
    }
  }

  lemma BeginAttends(m: Manager, g: nat)
    requires Good(m) && Enabled(m, BeginRequest) && Attended(m, g) && DeskKept(m, DoBeginRequest(m), g)
    ensures Attended(DoBeginRequest(m), g)
  {
    if m.inbox[0].group == g {
      if m.inbox[0].num == 0 {
        WakeTells(m.desk, |m.known|, g, g);
      }
    } else {
      AskedPopped(m.inbox, g);
    }
  }

  /** A group that has a process, or is about to look again, stays so until it looks again. */
  lemma ProvidedStep(m: Manager, ev: Event, g: nat)
    requires Good(m) && Enabled(m, ev) && Runnable(m, ev) && !DeliveredTo(m, ev, g) && Provided(m, g)
    ensures Provided(Apply(m, ev), g)
  {
    DeskStep(m, ev, g);
  }

  // ----- spare capacity -----

  /** Process creation works: a user is available and the scheduler is set. */
  predicate Reliable(ev: Event) {
    (ev.Create? || ev.Launch?) ==> ev.made.Made?
  }

  /** A handler that is at work will use the free slots or announce them. */
  ghost predicate SlotsUsed(job: Job, available: int, waiting: seq<nat>) {
    match job
    case Cleaning(_, closed) => closed > 0
    case Launching(todo) => |todo| == available || forall g :: g in waiting ==> g in todo
    case _ => false
  }

  /** Groups wait only while no slot is free, unless a token or the running handler announces the free slots. */
  ghost predicate SlotsAnnounced(m: Manager) {
    && (m.desk.waiting != [] ==>
          Available(m) == 0 || m.newTokens > 0 || SlotsUsed(m.job, Available(m), m.desk.waiting))
    && (m.job.Creating? && m.job.need == m.job.total ==> Available(m) == 0 || m.job.left > 0)
    && (m.job.Reusing? && m.job.need == m.job.total ==> Available(m) == 0)
  }

  lemma AvailableAfterTransfer(m: Manager, id: nat, group: nat)
    requires TablesOk(m.t, m.serial, |m.known|) && id in m.t.idle
    ensures var t := Transfer(m.t, id, group, m.serial + 1); |t.order| + t.busyLen == |m.t.order| + m.t.busyLen
  {
    assert !Listed(m.t, m.serial + 1);
    RenameSize(m.t, id, group, m.serial + 1);
  }

  lemma ShrinksOnly(d: Desk, t: Tables, known: nat, group: nat, id: nat)
    ensures AfterDelete(d, t, known, group, id).waiting != [] ==> d.waiting != []
    ensures Wake(d, known, group).waiting != [] ==> d.waiting != []
  {
  }

  lemma SlotsReuse(m: Manager, i: nat, ok: bool)
    requires Good(m) && SlotsAnnounced(m) && Enabled(m, Reuse(i, ok)) && Runnable(m, Reuse(i, ok))
    ensures SlotsAnnounced(DoReuse(m, i, ok))
  {
    hide Drop, DeskOk, ExitsLive, Wake, AfterDelete, Transfer;
    var id := m.job.picks[i];
    AvailableAfterTransfer(m, id, m.job.group);
    ShrinksOnly(m.desk, m.t, |m.known|, m.t.idle[id].group, id);
  }

  lemma SlotsHand(m: Manager, i: nat, ok: bool)
    requires Good(m) && SlotsAnnounced(m) && Enabled(m, Hand(i, ok)) && Runnable(m, Hand(i, ok))
    ensures SlotsAnnounced(DoHand(m, i, ok))
  {
    hide Drop, DeskOk, ExitsLive, Wake, Send, AfterDelete, Transfer;
    var Match(id, group) := m.job.pairs[i];
    var told := Send(m.desk, |m.known|, group, 1);
    AvailableAfterTransfer(m, id, group);
    SendKeepsWaiting(m.desk, |m.known|, group, 1);
    SendKeepsWaiting(Wake(m.desk, |m.known|, group), |m.known|, group, 0);
    ShrinksOnly(m.desk, m.t, |m.known|, group, id);
    ShrinksOnly(told, m.t, |m.known|, group, id);
    ShrinksOnly(Wake(told, |m.known|, group), m.t, |m.known|, m.t.idle[id].group, id);
  }

  lemma SlotsLaunch(m: Manager, i: nat, made: Made)
    requires Good(m) && SlotsAnnounced(m) && Enabled(m, Launch(i, made)) && made.Made?
    ensures SlotsAnnounced(DoLaunch(m, i, made))
  {
    var group := m.job.todo[i];
    assert group in m.job.todo;
    assert !Listed(m.t, m.serial + 1);
    DropShape(m.desk.waiting, group);
    var rest := DropAt(m.job.todo, i);
    forall g | g in m.job.todo && g != group ensures g in rest {
      var j :| 0 <= j < |m.job.todo| && m.job.todo[j] == g;
      assert rest[if j < i then j else j - 1] == g;
    }
  }

  lemma SlotsExit(m: Manager, ev: Event)
    requires Good(m) && SlotsAnnounced(m) && Enabled(m, ev) && Runnable(m, ev) && (ev.HandleExit? || ev.Close?)
    ensures SlotsAnnounced(Apply(m, ev))
  {
    hide Drop, DeskOk, ExitsLive, Wake, AfterDelete, TablesOk;
    var id := if ev.HandleExit? then m.inbox[0].id else m.job.victims[ev.i];
    var group := if ev.HandleExit? then m.inbox[0].group else m.t.idle[id].group;
    ShrinksOnly(m.desk, m.t, |m.known|, group, id);
  }

  lemma SlotsMark(m: Manager, ev: Event)
    requires Good(m) && SlotsAnnounced(m) && Enabled(m, ev) && (ev.MarkBusy? || ev.MarkIdle?)
    ensures SlotsAnnounced(Apply(m, ev))
  {
    hide DeskOk, ExitsLive, Wake;
    if ev.id in m.t.busy {
      ShrinksOnly(m.desk, m.t, |m.known|, m.t.busy[ev.id].group, 0);
    }
  }

  lemma SlotsRequest(m: Manager, ev: Event)
    requires Good(m) && SlotsAnnounced(m) && Enabled(m, ev) && Runnable(m, ev) && Reliable(ev)
    requires ev.BeginRequest? || ev.Create? || ev.BeginReuse? || ev.EndRequest?
    ensures SlotsAnnounced(Apply(m, ev))
  {
    if ev.Create? {
      assert !Listed(m.t, m.serial + 1);
    }
  }

  lemma SlotsNew(m: Manager, ev: Event)
    requires Good(m) && SlotsAnnounced(m) && Enabled(m, ev) && Runnable(m, ev) && (ev.BeginNew? || ev.EndNew?)
    ensures SlotsAnnounced(Apply(m, ev))
  {
    hide TablesOk, ExitsLive;
    if ev.BeginNew? {
      assert m.desk.waiting[..|m.desk.waiting|] == m.desk.waiting;
    } else if m.desk.waiting != [] {
      assert m.desk.waiting[0] in m.desk.waiting;
    }
  }

  /** Every event keeps free slots announced. */
  lemma SlotsStep(m: Manager, ev: Event)
    requires Good(m) && SlotsAnnounced(m) && Enabled(m, ev) && Runnable(m, ev) && Reliable(ev)
    ensures SlotsAnnounced(Apply(m, ev))
  {
    hide TablesOk, DeskOk, ExitsLive, Wake, Send, AfterDelete, Transfer, SameContract;
    match ev
    case Reuse(i, ok) => SlotsReuse(m, i, ok);
    case Hand(i, ok) => SlotsHand(m, i, ok);
    case Launch(i, made) => SlotsLaunch(m, i, made);
    case HandleExit(_) => SlotsExit(m, ev);
    case Close(_, _, _) => SlotsExit(m, ev);
    case MarkBusy(_) => SlotsMark(m, ev);
    case MarkIdle(_) => SlotsMark(m, ev);
    case BeginRequest => SlotsRequest(m, ev);
    case Create(_) => SlotsRequest(m, ev);
    case BeginReuse => SlotsRequest(m, ev);
    case EndRequest => SlotsRequest(m, ev);
    case BeginNew => SlotsNew(m, ev);
    case EndNew => SlotsNew(m, ev);
    case _ =>
  }

  // ----- idle processes -----

  /** Sandboxes agree to change. */
  predicate Willing(ev: Event) {
    (ev.Reuse? || ev.Hand?) ==> ev.ok
  }

  /** One chain: two registered groups never share contract name and version. */
  ghost predicate OneChain(m: Manager) {
    forall g: nat, h: nat :: SameContract(m, g, h) ==> g == h
  }

  /** The running hand-over covers all idle processes or all waiting groups. */
  ghost predicate Covered(pairs: seq<Match>, order: seq<nat>, waiting: seq<nat>) {
    || (forall n :: n in order ==> exists i :: 0 <= i < |pairs| && pairs[i].id == n)
    || (forall g :: g in waiting ==> exists i :: 0 <= i < |pairs| && pairs[i].group == g)
  }

  /** No group in the list has an idle process of its own. */
  ghost predicate Apart(idle: map<nat, Entry>, g: nat) {
    forall n :: n in idle ==> idle[n].group != g
  }

  /** Waiting groups and idle processes meet only while a token or the running hand-over announces them. */
  ghost predicate IdleAnnounced(m: Manager) {
    && (forall g :: g in m.desk.waiting ==> Apart(m.t.idle, g))
    && (m.desk.waiting != [] && m.t.order != [] ==>
          m.idleTokens > 0 || (m.job.Pairing? && Covered(m.job.pairs, m.t.order, m.desk.waiting)))
    && (m.job.Pairing? ==> forall i :: 0 <= i < |m.job.pairs| ==> Apart(m.t.idle, m.job.pairs[i].group))
    && (m.job.Creating? ==> m.job.total > 0)
    && (m.job.Reusing? && m.job.need == m.job.total ==> m.job.picks != [] || m.t.order == [])
  }

  lemma IdleReuse(m: Manager, i: nat, ok: bool)
    requires Good(m) && IdleAnnounced(m) && Enabled(m, Reuse(i, ok)) && Runnable(m, Reuse(i, ok))
    requires ok || SameContract(m, m.job.group, m.t.idle[m.job.picks[i]].group)
    ensures IdleAnnounced(DoReuse(m, i, ok))
  {
    hide ExitsLive;
    var id := m.job.picks[i];
    DeskSubset(m.desk, m.t, |m.known|, m.t.idle[id].group, id);
  }

  lemma DeskSubset(d: Desk, t: Tables, known: nat, group: nat, id: nat)
    ensures forall g :: g in AfterDelete(d, t, known, group, id).waiting ==> g in d.waiting
    ensures forall g :: g in Wake(d, known, group).waiting ==> g in d.waiting
    ensures d.waiting == [] ==> AfterDelete(d, t, known, group, id).waiting == [] && Wake(d, known, group).waiting == []
  {
  }

  lemma IdleRemove(m: Manager, ev: Event)
    requires Good(m) && IdleAnnounced(m) && Enabled(m, ev) && Runnable(m, ev) && (ev.HandleExit? || ev.Close?)
    ensures IdleAnnounced(Apply(m, ev))
  {
    hide ExitsLive;
    var id := if ev.HandleExit? then m.inbox[0].id else m.job.victims[ev.i];
    var group := if ev.HandleExit? then m.inbox[0].group else m.t.idle[id].group;
    DeskSubset(m.desk, m.t, |m.known|, group, id);
  }

  lemma IdleMark(m: Manager, ev: Event)
    requires Good(m) && IdleAnnounced(m) && Enabled(m, ev) && (ev.MarkBusy? || ev.MarkIdle?)
    ensures IdleAnnounced(Apply(m, ev))
  {
    hide ExitsLive;
    if ev.MarkIdle? && ev.id in m.t.busy {
      var g := m.t.busy[ev.id].group;
      DropShape(m.desk.waiting, g);
    }
  }

  lemma IdleLaunch(m: Manager, i: nat, made: Made)
    requires Good(m) && IdleAnnounced(m) && Enabled(m, Launch(i, made))
    ensures IdleAnnounced(DoLaunch(m, i, made))
  {
    hide ExitsLive;
    DeskSubset(Send(m.desk, |m.known|, m.job.todo[i], 1), m.t, |m.known|, m.job.todo[i], 0);
  }

  lemma IdleRequest(m: Manager, ev: Event)
    requires Good(m) && IdleAnnounced(m) && Enabled(m, ev) && Runnable(m, ev)
    requires ev.BeginRequest? || ev.Create? || ev.BeginReuse? || ev.EndRequest?
    ensures IdleAnnounced(Apply(m, ev))
  {
    hide ExitsLive;
    if ev.BeginRequest? {
      DeskSubset(m.desk, m.t, |m.known|, m.inbox[0].group, 0);
    } else if ev.EndRequest? && m.t.order == [] {
      assert forall n :: n in m.t.idle ==> n in m.t.order;
    }
  }

  lemma CoveredAtStart(order: seq<nat>, waiting: seq<nat>, n: nat)
    requires n == Min(|waiting|, |order|)
    ensures Covered(Zip(order[..n], waiting[..n]), order, waiting)
  {
    var pairs := Zip(order[..n], waiting[..n]);
    if n == |order| {
      forall x | x in order ensures exists i :: 0 <= i < |pairs| && pairs[i].id == x {
        var i :| 0 <= i < |order| && order[i] == x;
        assert pairs[i].id == x;
      }
    } else {
      forall g | g in waiting ensures exists i :: 0 <= i < |pairs| && pairs[i].group == g {
        var i :| 0 <= i < |waiting| && waiting[i] == g;
        assert pairs[i].group == g;
      }
    }
  }

  lemma CoveredRest(pairs: seq<Match>, i: nat, order: seq<nat>, waiting: seq<nat>, order': seq<nat>, waiting': seq<nat>)
    requires i < |pairs| && Covered(pairs, order, waiting)
    requires forall n :: n in order' ==> n in order && n != pairs[i].id
    requires forall g :: g in waiting' ==> g in waiting && g != pairs[i].group
    ensures Covered(DropAt(pairs, i), order', waiting')
  {
    var rest := DropAt(pairs, i);
    if forall n :: n in order ==> exists j :: 0 <= j < |pairs| && pairs[j].id == n {
      forall n | n in order' ensures exists j :: 0 <= j < |rest| && rest[j].id == n {
        var j :| 0 <= j < |pairs| && pairs[j].id == n;
        assert rest[if j < i then j else j - 1].id == n;
      }
    } else {
      forall g | g in waiting' ensures exists j :: 0 <= j < |rest| && rest[j].group == g {
        var j :| 0 <= j < |pairs| && pairs[j].group == g;
        assert rest[if j < i then j else j - 1].group == g;
      }
    }
  }

  lemma IdlePairing(m: Manager, ev: Event)
    requires Good(m) && IdleAnnounced(m) && Enabled(m, ev) && (ev.BeginIdle? || ev.EndIdle?)
    ensures IdleAnnounced(Apply(m, ev))
  {
    hide TablesOk, ExitsLive, JobFits;
    if ev.BeginIdle? {
      var n := Min(|m.desk.waiting|, |m.t.order|);
      CoveredAtStart(m.t.order, m.desk.waiting, n);
      assert forall i :: 0 <= i < n ==> m.desk.waiting[i] in m.desk.waiting;
    } else if m.desk.waiting != [] && m.t.order != [] {
      assert m.desk.waiting[0] in m.desk.waiting && m.t.order[0] in m.t.order;
    }
  }

  lemma HandWaiting(d: Desk, t: Tables, known: nat, group: nat, from: nat, id: nat)
    requires Distinct(d.waiting)
    ensures var w := AfterDelete(Wake(Send(d, known, group, 1), known, group), t, known, from, id).waiting;
            forall g :: g in w ==> g in d.waiting && g != group
  {
    DropShape(d.waiting, group);
  }

  lemma IdleHand(m: Manager, i: nat)
    requires Good(m) && IdleAnnounced(m) && Enabled(m, Hand(i, true)) && Runnable(m, Hand(i, true))
    requires !SameContract(m, m.job.pairs[i].group, m.t.idle[m.job.pairs[i].id].group)
    ensures IdleAnnounced(DoHand(m, i, true))
  {
    hide ExitsLive, Unique, Indexed, Named, Covered, Wake, Send, AfterDelete, Drop;
    var Match(id, group) := m.job.pairs[i];
    var from := m.t.idle[id].group;
    HandWaiting(m.desk, m.t, |m.known|, group, from, id);
    DropShape(m.t.order, id);
    DropOnly(m.t.order, id);
    var r := DoHand(m, i, true);
    if Covered(m.job.pairs, m.t.order, m.desk.waiting) {
      CoveredRest(m.job.pairs, i, m.t.order, m.desk.waiting, r.t.order, r.desk.waiting);
    }
    if r.desk.waiting != [] {
      assert r.desk.waiting[0] in r.desk.waiting;
    }
    if r.t.order != [] {
      assert r.t.order[0] in r.t.order;
    }
  }

  lemma DropOnly(s: seq<nat>, x: nat)
    ensures forall y :: y in Drop(s, x) ==> y in s
  {
  }

  /** Some waiting group is in no other pair of the hand-over. */
  ghost predicate Unserved(pairs: seq<Match>, i: nat, waiting: seq<nat>) {
    exists g :: g in waiting && forall j :: 0 <= j < |pairs| && j != i ==> pairs[j].group != g
  }

  /** A process that was picked stays idle, because it refuses or because it serves a contract of the same name and
      version already, and a group is left for which nothing else is announced. */
  ghost predicate Loses(m: Manager, ev: Event)
    requires Runnable(m, ev)
  {
    match ev
    case Hand(i, ok) =>
      var Match(id, group) := m.job.pairs[i];
      var same := SameContract(m, group, m.t.idle[id].group);
      && (same || !ok) && m.idleTokens == 0
      && Unserved(m.job.pairs, i, if same then Drop(m.desk.waiting, group) else m.desk.waiting)
    case Reuse(i, ok) =>
      && !ok && !SameContract(m, m.job.group, m.t.idle[m.job.picks[i]].group)
      && m.job.need == m.job.total && |m.job.picks| == 1
    case _ => false
  }

  /** With the process of pair `i` still idle, the other pairs cover the rest only if they hold all waiting groups. */
  lemma CoveredStill(pairs: seq<Match>, i: nat, order: seq<nat>, waiting: seq<nat>)
    requires i < |pairs| && pairs[i].id in order
    requires forall a, b :: 0 <= a < b < |pairs| ==> pairs[a].id != pairs[b].id
    ensures Covered(DropAt(pairs, i), order, waiting) <==> !Unserved(pairs, i, waiting)
  {
    var rest := DropAt(pairs, i);
    PairsWithout(pairs, i);
    forall g | g in waiting
      ensures (exists j :: 0 <= j < |rest| && rest[j].group == g) <==>
        (exists j :: 0 <= j < |pairs| && j != i && pairs[j].group == g)
    {
      if j :| 0 <= j < |pairs| && j != i && pairs[j].group == g {
        assert rest[if j < i then j else j - 1].group == g;
      }
    }
  }

  lemma HandStays(m: Manager, i: nat, ok: bool)
    requires Good(m) && IdleAnnounced(m) && Enabled(m, Hand(i, ok)) && Runnable(m, Hand(i, ok))
    requires !ok || SameContract(m, m.job.pairs[i].group, m.t.idle[m.job.pairs[i].id].group)
    ensures !IdleAnnounced(DoHand(m, i, ok)) <==> Loses(m, Hand(i, ok))
  {
    hide ExitsLive, Unique, Indexed, Named, Covered, Unserved, Drop, SameContract;
    var Match(id, group) := m.job.pairs[i];
    var r := DoHand(m, i, ok);
    PairsWithout(m.job.pairs, i);
    assert id in m.t.order;
    CoveredStill(m.job.pairs, i, m.t.order, r.desk.waiting);
    NoneUnserved(m.job.pairs, i);
  }

  lemma NoneUnserved(pairs: seq<Match>, i: nat)
    ensures !Unserved(pairs, i, [])
  {
  }

  lemma ReuseStays(m: Manager, i: nat, ok: bool)
    requires Good(m) && IdleAnnounced(m) && Enabled(m, Reuse(i, ok)) && Runnable(m, Reuse(i, ok))
    ensures !IdleAnnounced(DoReuse(m, i, ok)) <==> Loses(m, Reuse(i, ok))
  {
    hide ExitsLive, Unique, Indexed, Named, Covered;
    if ok || SameContract(m, m.job.group, m.t.idle[m.job.picks[i]].group) {
      IdleReuse(m, i, ok);
    } else {
      assert m.job.picks[i] in m.t.order;
    }
  }

  /** An event leaves idle processes and waiting groups side by side, with nothing that would bring them together,
      exactly when a picked process stays idle and a waiting group is left over. */
  lemma IdleLostExactly(m: Manager, ev: Event)
    requires Good(m) && IdleAnnounced(m) && Enabled(m, ev) && Runnable(m, ev)
    ensures !IdleAnnounced(Apply(m, ev)) <==> Loses(m, ev)
  {
    hide TablesOk, DeskOk, ExitsLive, JobFits, Covered, Wake, Send, AfterDelete, Transfer, SameContract, Loses;
    match ev
    case Reuse(i, ok) => ReuseStays(m, i, ok);
    case Hand(i, ok) => HandLost(m, i, ok);
    case _ =>
      IdleOther(m, ev);
      NoLoss(m, ev);
  }

  lemma NoLoss(m: Manager, ev: Event)
    requires Runnable(m, ev) && !ev.Reuse? && !ev.Hand?
    ensures !Loses(m, ev)
  {
  }

  lemma HandLost(m: Manager, i: nat, ok: bool)
    requires Good(m) && IdleAnnounced(m) && Enabled(m, Hand(i, ok)) && Runnable(m, Hand(i, ok))
    ensures !IdleAnnounced(DoHand(m, i, ok)) <==> Loses(m, Hand(i, ok))
  {
    if !ok || SameContract(m, m.job.pairs[i].group, m.t.idle[m.job.pairs[i].id].group) {
      HandStays(m, i, ok);
    } else {
      hide Good, IdleAnnounced;
      IdleHand(m, i);
    }
  }

  lemma IdleOther(m: Manager, ev: Event)
    requires Good(m) && IdleAnnounced(m) && Enabled(m, ev) && Runnable(m, ev) && !ev.Reuse? && !ev.Hand?
    ensures IdleAnnounced(Apply(m, ev))
  {
    hide TablesOk, DeskOk, ExitsLive, JobFits, Covered, Wake, Send, AfterDelete, Transfer, SameContract;
    match ev
    case Launch(i, made) => IdleLaunch(m, i, made);
    case HandleExit(_) => IdleRemove(m, ev);
    case Close(_, _, _) => IdleRemove(m, ev);
    case MarkBusy(_) => IdleMark(m, ev);
    case MarkIdle(_) => IdleMark(m, ev);
    case BeginRequest => IdleRequest(m, ev);
    case Create(_) => IdleRequest(m, ev);
    case BeginReuse => IdleRequest(m, ev);
    case EndRequest => IdleRequest(m, ev);
    case BeginIdle => IdlePairing(m, ev);
    case EndIdle => IdlePairing(m, ev);
    case _ =>
  }

  /** On one chain, with sandboxes that agree to change, nothing is lost. */
  lemma NeverLoses(m: Manager, ev: Event)
    requires Good(m) && IdleAnnounced(m) && Runnable(m, ev) && Willing(ev) && OneChain(m)
    ensures !Loses(m, ev)
  {
    hide Good, Covered;
    if ev.Hand? {
      assert Apart(m.t.idle, m.job.pairs[ev.i].group);
    }
  }

  // ----- runs -----

  ghost predicate AllReliable(evs: seq<Event>) {
    forall i :: 0 <= i < |evs| ==> Reliable(evs[i])
  }

  ghost predicate AllWilling(evs: seq<Event>) {
    forall i :: 0 <= i < |evs| ==> Willing(evs[i])
  }

  /** Groups stay registered, so one chain at the end means one chain all along. */
  lemma {:induction false} KnownGrows(m: Manager, evs: seq<Event>)
    requires Possible(m, evs)
    ensures m.known <= After(m, evs).known
    decreases |evs|
  {
    if evs != [] {
      KnownGrows(Apply(m, evs[0]), evs[1..]);
      assert m.known <= Apply(m, evs[0]).known;
    }
  }

  lemma {:induction false} SlotsRun(m: Manager, evs: seq<Event>)
    requires Good(m) && SlotsAnnounced(m) && Possible(m, evs) && AllReliable(evs)
    ensures SlotsAnnounced(After(m, evs))
    decreases |evs|
  {
    hide Good, SlotsAnnounced;
    if evs != [] {
      StepGood(m, evs[0]);
      SlotsStep(m, evs[0]);
      SlotsRun(Apply(m, evs[0]), evs[1..]);
    }
  }

  /** The k-th event of the run loses it. */
  ghost predicate LosesAt(m: Manager, evs: seq<Event>, k: nat) {
    k < |evs| && Possible(m, evs[..k]) && Runnable(After(m, evs[..k]), evs[k]) && Loses(After(m, evs[..k]), evs[k])
  }

  lemma {:induction false} IdleRun(m: Manager, evs: seq<Event>)
    requires Good(m) && IdleAnnounced(m) && Possible(m, evs)
    ensures IdleAnnounced(After(m, evs)) || exists k: nat :: LosesAt(m, evs, k)
    ensures AllWilling(evs) && OneChain(After(m, evs)) ==> IdleAnnounced(After(m, evs))
    decreases |evs|
  {
    hide Good, IdleAnnounced, Enabled, Runnable, Apply, Loses;
    if evs != [] {
      if AllWilling(evs) && OneChain(After(m, evs)) {
        OneChainEarlier(m, evs);
        NeverLoses(m, evs[0]);
      }
      IdleLostExactly(m, evs[0]);
      if Loses(m, evs[0]) {
        assert evs[..0] == [] && LosesAt(m, evs, 0);
      } else {
        StepGood(m, evs[0]);
        IdleRun(Apply(m, evs[0]), evs[1..]);
        if k: nat :| LosesAt(Apply(m, evs[0]), evs[1..], k) {
          assert evs[..k + 1][1..] == evs[1..][..k];
          assert LosesAt(m, evs, k + 1);
        }
      }
    }
  }

  lemma OneChainEarlier(m: Manager, evs: seq<Event>)
    requires Possible(m, evs) && OneChain(After(m, evs))
    ensures OneChain(m)
  {
    KnownGrows(m, evs);
    forall g: nat, h: nat | SameContract(m, g, h) ensures g == h {
      assert SameContract(After(m, evs), g, h);
    }
  }

  /** No lost capacity: whenever the lock is free and a group waits, either no slot is free or a token is pending on
      allocateNewCh; and a waiting group and an idle process coexist only while a token is pending on allocateIdleCh,
      unless some picked process stayed idle, which on one chain only a refusal brings about. */
  lemma NoLostCapacity(cfg: Config, evs: seq<Event>)
    requires Possible(Initial(cfg), evs)
    ensures var m := After(Initial(cfg), evs);
            AllReliable(evs) && m.job.NoJob? && m.desk.waiting != [] ==> Available(m) == 0 || m.newTokens > 0
    ensures var m := After(Initial(cfg), evs);
            m.job.NoJob? && m.desk.waiting != [] && m.t.order != [] ==>
              m.idleTokens > 0 || exists k: nat :: LosesAt(Initial(cfg), evs, k)
    ensures var m := After(Initial(cfg), evs);
            m.job.NoJob? && m.desk.waiting != [] && m.t.order != [] && AllWilling(evs) && OneChain(m) ==>
              m.idleTokens > 0
  {
    InitialGood(cfg);
    if AllReliable(evs) {
      SlotsRun(Initial(cfg), evs);
    }
    IdleRun(Initial(cfg), evs);
  }
}
