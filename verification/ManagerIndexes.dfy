/**
 The manager's redundant tables agree over every run: the idle list, the busy
 map and the per-contract groups describe one set of live processes, within
 capacity, under names that are never reused.
 */
module ManagerIndexes {
  import opened Basics
  import opened Keys
  import opened ManagerModel

  ghost predicate Distinct(s: seq<nat>) {
    forall i, j :: 0 <= i < j < |s| ==> s[i] != s[j]
  }

  /** The ordering lists the idle table once each, and nothing is both idle and busy. */
  ghost predicate Disjoint(t: Tables) {
    && Distinct(t.order)
    && (forall n :: n in t.order <==> n in t.idle)
    && (forall n :: n in t.idle ==> n !in t.busy)
  }

  /** No two live processes share a process object or a user. */
  ghost predicate Unique(t: Tables) {
    forall a: nat, b: nat :: Listed(t, a) && Listed(t, b) && a != b ==>
      EntryOf(t, a).pid != EntryOf(t, b).pid && EntryOf(t, a).user != EntryOf(t, b).user
  }

  predicate Member(groups: map<nat, set<nat>>, group: nat, id: nat) {
    group in groups && id in groups[group]
  }

  /** The groups hold exactly the live names, each under its own contract, and no group is empty. */
  ghost predicate Indexed(t: Tables) {
    && (forall n: nat :: Listed(t, n) ==> Member(t.groups, EntryOf(t, n).group, n))
    && (forall g: nat, n: nat :: Member(t.groups, g, n) ==> Listed(t, n) && EntryOf(t, n).group == g)
    && (forall g :: g in t.groups ==> t.groups[g] != {})
  }

  /** Every live name has been generated, by a registered group. */
  ghost predicate Named(t: Tables, serial: nat, known: nat) {
    forall n: nat :: Listed(t, n) ==> n <= serial && EntryOf(t, n).group < known
  }

  ghost predicate TablesOk(t: Tables, serial: nat, known: nat) {
    Disjoint(t) && Unique(t) && Indexed(t) && Named(t, serial, known)
  }

  // ----- effects on the tables -----

  lemma DropAtShape(s: seq<nat>, i: nat)
    requires Distinct(s) && i < |s|
    ensures Distinct(DropAt(s, i)) && s[i] !in DropAt(s, i)
  {
  }

  lemma DropShape(s: seq<nat>, x: nat)
    requires Distinct(s)
    ensures Distinct(Drop(s, x)) && x !in Drop(s, x)
  {
    var i := IndexFrom(s, x, 0);
    if i < |s| {
      DropAtShape(s, i);
    }
  }

  lemma DeleteIndexed(t: Tables, id: nat)
    requires Listed(t, id) && (id in t.idle ==> id !in t.busy) && Indexed(t)
    ensures Indexed(Delete(t, EntryOf(t, id).group, id))
  {
    var r := Delete(t, EntryOf(t, id).group, id);
    assert Member(t.groups, EntryOf(t, id).group, id);
    forall g: nat, n: nat | Member(r.groups, g, n) ensures Listed(r, n) && EntryOf(r, n).group == g {
      assert Member(t.groups, g, n);
    }
    forall n: nat | Listed(r, n) ensures Member(r.groups, EntryOf(r, n).group, n) {
      assert Listed(t, n);
    }
  }

  lemma InsertIndexed(t: Tables, id: nat, e: Entry)
    requires !Listed(t, id) && Indexed(t)
    ensures Indexed(Insert(t, id, e))
  {
    var r := Insert(t, id, e);
    forall g: nat, n: nat | Member(r.groups, g, n) ensures Listed(r, n) && EntryOf(r, n).group == g {
      assert Member(t.groups, g, n) || (g == e.group && n == id);
    }
    forall n: nat | Listed(r, n) ensures Member(r.groups, EntryOf(r, n).group, n) {
      assert n == id || Listed(t, n);
    }
  }

  /** Removing a live process keeps the tables in agreement. */
  lemma DeleteOk(t: Tables, id: nat, serial: nat, known: nat)
    requires TablesOk(t, serial, known) && Listed(t, id)
    ensures TablesOk(Delete(t, EntryOf(t, id).group, id), serial, known)
  {
    DropShape(t.order, id);
    DeleteIndexed(t, id);
    var r := Delete(t, EntryOf(t, id).group, id);
    assert forall n: nat :: Listed(r, n) ==> Listed(t, n) && EntryOf(r, n) == EntryOf(t, n);
  }

  /** Adding a process under a fresh name keeps the tables in agreement. */
  lemma InsertOk(t: Tables, id: nat, e: Entry, serial: nat, known: nat)
    requires TablesOk(t, serial, known) && serial < id && e.group < known && FreshMade(t, Made(e.pid, e.user))
    ensures TablesOk(Insert(t, id, e), id, known)
  {
    InsertIndexed(t, id, e);
    var r := Insert(t, id, e);
    assert forall n: nat :: Listed(r, n) && n != id ==> Listed(t, n) && EntryOf(r, n) == EntryOf(t, n);
  }

  /** What is listed after a removal was listed before, under another name. */
  lemma DeleteEntry(t: Tables, group: nat, id: nat, n: nat)
    ensures Listed(Delete(t, group, id), n) ==>
              n != id && Listed(t, n) && EntryOf(Delete(t, group, id), n) == EntryOf(t, n)
  {
  }

  /** With the old name gone, no other live process has the object or the user. */
  lemma RenameFresh(t: Tables, id: nat)
    requires Unique(t) && id in t.idle
    ensures FreshMade(Delete(t, t.idle[id].group, id), Made(t.idle[id].pid, t.idle[id].user))
  {
    var r := Delete(t, t.idle[id].group, id);
    assert Listed(t, id) && EntryOf(t, id) == t.idle[id];
    hide Delete, Listed, EntryOf;
    forall n: nat | Listed(r, n) ensures EntryOf(r, n).pid != t.idle[id].pid && EntryOf(r, n).user != t.idle[id].user {
      DeleteEntry(t, t.idle[id].group, id, n);
    }
  }

  lemma RenameOk(t: Tables, id: nat, group: nat, serial: nat, known: nat)
    requires TablesOk(t, serial, known) && id in t.idle && group < known
    ensures TablesOk(Transfer(t, id, group, serial + 1), serial + 1, known)
  {
    var e := t.idle[id];
    RenameFresh(t, id);
    hide TablesOk, Delete, Insert;
    DeleteOk(t, id, serial, known);
    InsertOk(Delete(t, e.group, id), serial + 1, Entry(e.pid, group, e.user), serial, known);
  }

  /** Moving a process between idle and busy keeps the tables in agreement. */
  lemma MoveOk(t: Tables, id: nat, serial: nat, known: nat)
    requires TablesOk(t, serial, known) && Listed(t, id)
    ensures TablesOk(if id in t.idle then IdleToBusy(t, id) else BusyToIdle(t, id), serial, known)
  {
    var r := if id in t.idle then IdleToBusy(t, id) else BusyToIdle(t, id);
    DropShape(t.order, id);
    assert forall n: nat :: Listed(r, n) <==> Listed(t, n);
    assert forall n: nat :: Listed(t, n) ==> EntryOf(r, n) == EntryOf(t, n);
  }

  // ----- the invariant of the manager -----

  ghost predicate JobKnown(job: Job, known: nat) {
    match job
    case Creating(g, _, _, _) => g < known
    case Reusing(g, _, _, _) => g < known
    case Pairing(pairs) => forall i :: 0 <= i < |pairs| ==> pairs[i].group < known
    case Launching(todo) => forall g :: g in todo ==> g < known
    case _ => true
  }

  ghost predicate DeskOk(d: Desk, known: nat) {
    && Distinct(d.waiting)
    && (forall g :: g in d.waiting ==> g < known)
    && (forall i :: 0 <= i < |d.outbox| ==> d.outbox[i].group < known)
  }

  /** What a running handler still has to do fits the tables and the capacity. */
  ghost predicate JobFits(job: Job, t: Tables, available: int) {
    && 0 <= available
    && match job
       case NoJob => true
       case Creating(_, total, need, left) => left <= available && left <= need <= total
       case Reusing(_, total, need, picks) =>
         |picks| <= need <= total && Distinct(picks) && forall n :: n in picks ==> n in t.idle
       case Cleaning(victims, _) => Distinct(victims) && forall n :: n in victims ==> n in t.idle
       case Pairing(pairs) =>
         && (forall i :: 0 <= i < |pairs| ==> pairs[i].id in t.idle)
         && (forall i, j :: 0 <= i < j < |pairs| ==> pairs[i].id != pairs[j].id)
       case Launching(todo) => |todo| <= available
  }

  /** A reported exit belongs to a live process, once. */
  ghost predicate ExitsLive(t: Tables, inbox: seq<Request>) {
    && (forall i :: 0 <= i < |inbox| && inbox[i].SandboxExit? ==>
          Listed(t, inbox[i].id) && EntryOf(t, inbox[i].id).group == inbox[i].group)
    && (forall i, j :: 0 <= i < j < |inbox| && inbox[i].SandboxExit? && inbox[j].SandboxExit? ==>
          inbox[i].id != inbox[j].id)
  }

  ghost predicate InboxKnown(inbox: seq<Request>, known: nat) {
    forall i :: 0 <= i < |inbox| ==> inbox[i].group < known
  }

  ghost predicate Good(m: Manager) {
    && m.serial < TWO_64
    && TablesOk(m.t, m.serial, |m.known|)
    && DeskOk(m.desk, |m.known|)
    && InboxKnown(m.inbox, |m.known|)
    && JobKnown(m.job, |m.known|)
    && JobFits(m.job, m.t, Available(m))
    && ExitsLive(m.t, m.inbox)
  }

  lemma InitialGood(cfg: Config)
    ensures Good(Initial(cfg))
  {
  }

  lemma WakeOk(d: Desk, known: nat, group: nat)
    requires DeskOk(d, known)
    ensures DeskOk(Wake(d, known, group), known)
  {
    DropShape(d.waiting, group);
  }

  /** Removing a process whose exit is not reported leaves the reported ones live. */
  lemma DeleteKeepsExits(t: Tables, inbox: seq<Request>, id: nat)
    requires ExitsLive(t, inbox) && Listed(t, id) && !Reported(inbox, id)
    ensures ExitsLive(Delete(t, EntryOf(t, id).group, id), inbox)
  {
    var r := Delete(t, EntryOf(t, id).group, id);
    assert forall n: nat :: n != id && Listed(t, n) ==> Listed(r, n) && EntryOf(r, n) == EntryOf(t, n);
  }

  lemma InsertKeepsExits(t: Tables, inbox: seq<Request>, id: nat, e: Entry)
    requires ExitsLive(t, inbox) && !Listed(t, id)
    ensures ExitsLive(Insert(t, id, e), inbox)
  {
    var r := Insert(t, id, e);
    assert forall n: nat :: Listed(t, n) ==> Listed(r, n) && EntryOf(r, n) == EntryOf(t, n);
  }

  lemma RemoveGood(m: Manager, id: nat)
    requires TablesOk(m.t, m.serial, |m.known|) && DeskOk(m.desk, |m.known|) && Listed(m.t, id)
    ensures var r := RemoveFromCache(m, EntryOf(m.t, id).group, id);
            TablesOk(r.t, r.serial, |r.known|) && DeskOk(r.desk, |r.known|) && Available(r) == Available(m) + 1
  {
    DeleteOk(m.t, id, m.serial, |m.known|);
    WakeOk(m.desk, |m.known|, EntryOf(m.t, id).group);
  }

  lemma RenameExits(t: Tables, inbox: seq<Request>, id: nat, group: nat, to: nat)
    requires ExitsLive(t, inbox) && id in t.idle && !Reported(inbox, id) && !Listed(t, to)
    ensures ExitsLive(Transfer(t, id, group, to), inbox)
  {
    DeleteKeepsExits(t, inbox, id);
    InsertKeepsExits(Delete(t, t.idle[id].group, id), inbox, to, Entry(t.idle[id].pid, group, t.idle[id].user));
  }

  lemma RenameSize(t: Tables, id: nat, group: nat, to: nat)
    requires Disjoint(t) && id in t.idle && !Listed(t, to)
    ensures var r := Transfer(t, id, group, to);
            |r.order| + r.busyLen == |t.order| + t.busyLen && r.idle == t.idle - {id}
  {
  }

  /** Everything a renaming does to the tables. */
  lemma RenameGood(t: Tables, inbox: seq<Request>, id: nat, group: nat, serial: nat, known: nat)
    requires TablesOk(t, serial, known) && ExitsLive(t, inbox)
    requires id in t.idle && group < known && !Reported(inbox, id)
    ensures var r := Transfer(t, id, group, serial + 1);
            && TablesOk(r, serial + 1, known) && ExitsLive(r, inbox)
            && |r.order| + r.busyLen == |t.order| + t.busyLen && r.idle == t.idle - {id}
  {
    assert !Listed(t, serial + 1);
    RenameOk(t, id, group, serial, known);
    RenameExits(t, inbox, id, group, serial + 1);
    RenameSize(t, id, group, serial + 1);
  }

  lemma AfterDeleteOk(d: Desk, t: Tables, known: nat, group: nat, id: nat)
    requires DeskOk(d, known)
    ensures DeskOk(AfterDelete(d, t, known, group, id), known)
  {
    WakeOk(d, known, group);
  }

  lemma PairsWithout(pairs: seq<Match>, i: nat)
    requires i < |pairs| && forall a, b :: 0 <= a < b < |pairs| ==> pairs[a].id != pairs[b].id
    ensures var r := DropAt(pairs, i);
            && (forall a, b :: 0 <= a < b < |r| ==> r[a].id != r[b].id)
            && (forall a :: 0 <= a < |r| ==> r[a].id != pairs[i].id && r[a] == pairs[if a < i then a else a + 1])
  {
  }

  // ----- every event keeps the invariant -----

  lemma BeginRequestGood(m: Manager)
    requires Good(m) && Enabled(m, BeginRequest)
    ensures Good(DoBeginRequest(m))
  {
    WakeOk(m.desk, |m.known|, m.inbox[0].group);
  }

  lemma AddGood(m: Manager, group: nat, made: Made)
    requires TablesOk(m.t, m.serial, |m.known|) && ExitsLive(m.t, m.inbox)
    requires group < |m.known| && made.Made? && FreshMade(m.t, made)
    ensures var r := AddToCache(m, m.serial + 1, Entry(made.pid, group, made.user));
            && TablesOk(r.t, m.serial + 1, |m.known|) && ExitsLive(r.t, m.inbox)
            && Available(r) == Available(m) - 1 && r.t.idle == m.t.idle
  {
    var e := Entry(made.pid, group, made.user);
    assert made == Made(e.pid, e.user);
    InsertOk(m.t, m.serial + 1, e, m.serial, |m.known|);
    InsertKeepsExits(m.t, m.inbox, m.serial + 1, e);
  }

  lemma CreateGood(m: Manager, made: Made)
    requires Good(m) && Enabled(m, Create(made))
    ensures Runnable(m, Create(made)) && Good(DoCreate(m, made))
  {
    if made.Made? {
      AddGood(m, m.job.group, made);
    }
  }

  lemma BeginReuseGood(m: Manager)
    requires Good(m) && Enabled(m, BeginReuse)
    ensures Good(DoBeginReuse(m))
  {
  }

  lemma EndRequestGood(m: Manager)
    requires Good(m) && Enabled(m, EndRequest)
    ensures Runnable(m, EndRequest) && Good(DoEndRequest(m))
  {
  }

  lemma PicksWithout(picks: seq<nat>, i: nat, idle: map<nat, Entry>)
    requires i < |picks| && Distinct(picks) && forall n :: n in picks ==> n in idle
    ensures Distinct(DropAt(picks, i)) && forall n :: n in DropAt(picks, i) ==> n in idle - {picks[i]}
  {
    DropAtShape(picks, i);
  }

  lemma ReuseFits(job: Job, i: nat, t: Tables, serial: nat, known: nat, available: int)
    requires job.Reusing? && i < |job.picks| && JobFits(job, t, available) && TablesOk(t, serial, known)
    ensures JobFits(job.(picks := DropAt(job.picks, i), need := job.need - 1),
                    Transfer(t, job.picks[i], job.group, serial + 1), available)
  {
    PicksWithout(job.picks, i, t.idle);
    assert !Listed(t, serial + 1);
    RenameSize(t, job.picks[i], job.group, serial + 1);
  }

  lemma ReuseAccepted(m: Manager, i: nat)
    requires Good(m) && Enabled(m, Reuse(i, true)) && Runnable(m, Reuse(i, true))
    requires !SameContract(m, m.job.group, m.t.idle[m.job.picks[i]].group)
    ensures Good(DoReuse(m, i, true))
  {
    hide TablesOk, ExitsLive, DeskOk, JobFits;
    var id := m.job.picks[i];
    RenameGood(m.t, m.inbox, id, m.job.group, m.serial, |m.known|);
    ReuseFits(m.job, i, m.t, m.serial, |m.known|, Available(m));
    AfterDeleteOk(m.desk, m.t, |m.known|, m.t.idle[id].group, id);
  }

  lemma ReuseGood(m: Manager, i: nat, ok: bool)
    requires Good(m) && Enabled(m, Reuse(i, ok))
    ensures Runnable(m, Reuse(i, ok)) && Good(DoReuse(m, i, ok))
  {
    if ok && !SameContract(m, m.job.group, m.t.idle[m.job.picks[i]].group) {
      ReuseAccepted(m, i);
    } else {
      DropAtShape(m.job.picks, i);
    }
  }

  lemma CloseGood(m: Manager, i: nat, ok: bool, freed: bool)
    requires Good(m) && Enabled(m, Close(i, ok, freed))
    ensures Runnable(m, Close(i, ok, freed)) && Good(Apply(m, Close(i, ok, freed)))
  {
    DropAtShape(m.job.victims, i);
    if ok {
      RemoveGood(m, m.job.victims[i]);
      DeleteKeepsExits(m.t, m.inbox, m.job.victims[i]);
    }
  }

  lemma HandDesk(d: Desk, t: Tables, known: nat, group: nat, from: nat, id: nat)
    requires DeskOk(d, known)
    ensures DeskOk(AfterDelete(Wake(Send(d, known, group, 1), known, group), t, known, from, id), known)
  {
    WakeOk(Send(d, known, group, 1), known, group);
    AfterDeleteOk(Wake(Send(d, known, group, 1), known, group), t, known, from, id);
  }

  lemma HandFits(pairs: seq<Match>, i: nat, t: Tables, serial: nat, known: nat, available: int)
    requires i < |pairs| && JobFits(Pairing(pairs), t, available) && TablesOk(t, serial, known)
    ensures JobFits(Pairing(DropAt(pairs, i)), Transfer(t, pairs[i].id, pairs[i].group, serial + 1), available)
  {
    PairsWithout(pairs, i);
    assert Disjoint(t) && !Listed(t, serial + 1);
    hide TablesOk, Disjoint, Listed, Transfer, DropAt;
    RenameSize(t, pairs[i].id, pairs[i].group, serial + 1);
  }

  lemma HandAccepted(m: Manager, i: nat)
    requires Good(m) && Enabled(m, Hand(i, true)) && Runnable(m, Hand(i, true))
    requires !SameContract(m, m.job.pairs[i].group, m.t.idle[m.job.pairs[i].id].group)
    ensures Good(DoHand(m, i, true))
  {
    hide TablesOk, ExitsLive, DeskOk, JobFits;
    var Match(id, group) := m.job.pairs[i];
    RenameGood(m.t, m.inbox, id, group, m.serial, |m.known|);
    HandFits(m.job.pairs, i, m.t, m.serial, |m.known|, Available(m));
    HandDesk(m.desk, m.t, |m.known|, group, m.t.idle[id].group, id);
  }

  lemma HandGood(m: Manager, i: nat, ok: bool)
    requires Good(m) && Enabled(m, Hand(i, ok))
    ensures Runnable(m, Hand(i, ok)) && Good(DoHand(m, i, ok))
  {
    if ok && !SameContract(m, m.job.pairs[i].group, m.t.idle[m.job.pairs[i].id].group) {
      HandAccepted(m, i);
    } else {
      PairsWithout(m.job.pairs, i);
      WakeOk(m.desk, |m.known|, m.job.pairs[i].group);
    }
  }

  lemma LaunchGood(m: Manager, i: nat, made: Made)
    requires Good(m) && Enabled(m, Launch(i, made))
    ensures Good(DoLaunch(m, i, made))
  {
    var group := m.job.todo[i];
    assert group in m.job.todo;
    WakeOk(Send(m.desk, |m.known|, group, 1), |m.known|, group);
    if made.Made? {
      AddGood(m, group, made);
    }
  }

  lemma HandleExitGood(m: Manager, freed: bool)
    requires Good(m) && Enabled(m, HandleExit(freed))
    ensures Runnable(m, HandleExit(freed)) && Good(Apply(m, HandleExit(freed)))
  {
    var id := m.inbox[0].id;
    var rest := m.inbox[1..];
    assert ExitsLive(m.t, rest);
    assert !Reported(rest, id);
    if freed {
      RemoveGood(m, id);
      DeleteKeepsExits(m.t, rest, id);
    }
  }

  lemma MarkGood(m: Manager, ev: Event)
    requires Good(m) && Enabled(m, ev) && (ev.MarkBusy? || ev.MarkIdle?)
    ensures Good(Apply(m, ev))
  {
    if Listed(m.t, ev.id) {
      MoveOk(m.t, ev.id, m.serial, |m.known|);
      WakeOk(m.desk, |m.known|, EntryOf(m.t, ev.id).group);
    }
  }

  lemma LearnGood(m: Manager, key: GroupKey)
    requires Good(m)
    ensures Good(Apply(m, Learn(key)))
  {
  }

  lemma InboxGood(m: Manager, ev: Event)
    requires Good(m) && Enabled(m, ev) && (ev.Ask? || ev.ReportExit?)
    ensures Good(Apply(m, ev))
  {
  }

  lemma DeliverGood(m: Manager, i: nat)
    requires Good(m) && i < |m.desk.outbox|
    ensures Good(Apply(m, Deliver(i)))
  {
  }

  lemma CleanGood(m: Manager, ev: Event)
    requires Good(m) && Enabled(m, ev) && (ev.CleanTick? || ev.EndClean?)
    ensures Runnable(m, ev) && Good(Apply(m, ev))
  {
  }

  lemma BeginIdleGood(m: Manager)
    requires Good(m) && Enabled(m, BeginIdle)
    ensures Good(DoBeginIdle(m))
  {
    forall g | g in m.desk.waiting ensures g < |m.known| {}
    assert forall i :: 0 <= i < |m.desk.waiting| ==> m.desk.waiting[i] in m.desk.waiting;
    assert forall i :: 0 <= i < |m.t.order| ==> m.t.order[i] in m.t.order;
  }

  lemma BeginNewGood(m: Manager)
    requires Good(m) && Enabled(m, BeginNew)
    ensures Runnable(m, BeginNew) && Good(DoBeginNew(m))
  {
    assert forall i :: 0 <= i < |m.desk.waiting| ==> m.desk.waiting[i] in m.desk.waiting;
  }

  lemma EndGood(m: Manager)
    requires Good(m)
    ensures Good(m.(job := NoJob))
  {
  }

  predicate OfRequest(ev: Event) {
    ev.BeginRequest? || ev.Create? || ev.BeginReuse? || ev.Reuse? || ev.EndRequest?
  }

  lemma RequestGood(m: Manager, ev: Event)
    requires Good(m) && Enabled(m, ev) && OfRequest(ev)
    ensures Runnable(m, ev) && Good(Apply(m, ev))
  {
    hide Good;
    match ev
    case BeginRequest => BeginRequestGood(m);
    case Create(made) => CreateGood(m, made);
    case BeginReuse => BeginReuseGood(m);
    case Reuse(i, ok) => ReuseGood(m, i, ok);
    case EndRequest => EndRequestGood(m);
  }

  predicate OfMessage(ev: Event) {
    ev.Learn? || ev.Ask? || ev.ReportExit? || ev.Deliver? || ev.MarkBusy? || ev.MarkIdle? || ev.HandleExit?
  }

  lemma MessageGood(m: Manager, ev: Event)
    requires Good(m) && Enabled(m, ev) && OfMessage(ev)
    ensures Runnable(m, ev) && Good(Apply(m, ev))
  {
    hide Good;
    match ev
    case Learn(key) => LearnGood(m, key);
    case Ask(_, _) => InboxGood(m, ev);
    case ReportExit(_, _) => InboxGood(m, ev);
    case Deliver(i) => DeliverGood(m, i);
    case MarkBusy(_) => MarkGood(m, ev);
    case MarkIdle(_) => MarkGood(m, ev);
    case HandleExit(freed) => HandleExitGood(m, freed);
  }

  lemma AllocationGood(m: Manager, ev: Event)
    requires Good(m) && Enabled(m, ev) && !OfRequest(ev) && !OfMessage(ev)
    ensures Runnable(m, ev) && Good(Apply(m, ev))
  {
    hide Good;
    match ev
    case CleanTick => CleanGood(m, ev);
    case Close(i, ok, freed) => CloseGood(m, i, ok, freed);
    case EndClean => CleanGood(m, ev);
    case BeginIdle => BeginIdleGood(m);
    case Hand(i, ok) => HandGood(m, i, ok);
    case EndIdle => EndGood(m);
    case BeginNew => BeginNewGood(m);
    case Launch(i, made) => LaunchGood(m, i, made);
    case EndNew => EndGood(m);
  }

  /** Every event that may happen can be carried out and keeps the tables in agreement. */
  lemma StepGood(m: Manager, ev: Event)
    requires Good(m) && Enabled(m, ev)
    ensures Runnable(m, ev) && Good(Apply(m, ev))
  {
    hide *;
    if OfRequest(ev) {
      RequestGood(m, ev);
    } else if OfMessage(ev) {
      MessageGood(m, ev);
    } else {
      AllocationGood(m, ev);
    }
  }

  // ----- runs -----

  /** A sequence of events, each allowed where it happens. */
  ghost predicate Possible(m: Manager, evs: seq<Event>)
    decreases |evs|
  {
    evs == [] || (Enabled(m, evs[0]) && Runnable(m, evs[0]) && Possible(Apply(m, evs[0]), evs[1..]))
  }

  ghost function After(m: Manager, evs: seq<Event>): Manager
    requires Possible(m, evs)
    decreases |evs|
  {
    if evs == [] then m else After(Apply(m, evs[0]), evs[1..])
  }

  lemma {:induction false} RunExtends(m: Manager, evs: seq<Event>, ev: Event)
    requires Possible(m, evs) && Enabled(After(m, evs), ev) && Runnable(After(m, evs), ev)
    ensures Possible(m, evs + [ev]) && After(m, evs + [ev]) == Apply(After(m, evs), ev)
    decreases |evs|
  {
    hide Enabled, Runnable, Apply;
    if evs == [] {
      assert evs + [ev] == [ev] && [ev][1..] == [];
      assert Possible(Apply(m, ev), []) && After(Apply(m, ev), []) == Apply(m, ev);
    } else {
      assert (evs + [ev])[1..] == evs[1..] + [ev];
      RunExtends(Apply(m, evs[0]), evs[1..], ev);
    }
  }

  /** Some run leads from `m` to `r`. */
  ghost predicate Reaches(m: Manager, r: Manager) {
    exists evs :: Possible(m, evs) && After(m, evs) == r
  }

  lemma ReachNext(m: Manager, r: Manager, ev: Event, t: Manager)
    requires Reaches(m, r) && Enabled(r, ev) && Runnable(r, ev) && Apply(r, ev) == t
    ensures Reaches(m, t)
  {
    hide Enabled, Runnable, Apply;
    var evs :| Possible(m, evs) && After(m, evs) == r;
    RunExtends(m, evs, ev);
  }

  lemma {:induction false} RunGood(m: Manager, evs: seq<Event>)
    requires Good(m) && Possible(m, evs)
    ensures Good(After(m, evs))
    decreases |evs|
  {
    hide Good;
    if evs != [] {
      StepGood(m, evs[0]);
      RunGood(Apply(m, evs[0]), evs[1..]);
    }
  }

  // ----- len(busyProcesses) -----

  predicate Counted(t: Tables) {
    t.busyLen == |t.busy|
  }

  lemma MapDropSize(busy: map<nat, Entry>, id: nat)
    ensures |busy - {id}| == if id in busy then |busy| - 1 else |busy|
  {
    assert (busy - {id}).Keys == busy.Keys - {id};
  }

  lemma CountedTables(t: Tables, group: nat, id: nat, e: Entry)
    requires Counted(t)
    ensures Counted(Insert(t, id, e)) && Counted(Delete(t, group, id))
    ensures id in t.idle ==> Counted(IdleToBusy(t, id))
    ensures id in t.busy ==> Counted(BusyToIdle(t, id))
  {
    MapDropSize(t.busy, id);
  }

  lemma CountedStep(m: Manager, ev: Event)
    requires Runnable(m, ev) && Counted(m.t)
    ensures Counted(Apply(m, ev).t)
  {
    hide Counted, Insert, Delete, Transfer, Wake, AfterDelete, SameContract;
    var any := Entry(0, 0, 0);
    match ev
    case MarkBusy(id) => CountedTables(m.t, 0, id, any);
    case MarkIdle(id) => CountedTables(m.t, 0, id, any);
    case Create(Made(pid, user)) => CountedTables(m.t, 0, m.serial + 1, Entry(pid, m.job.group, user));
    case Launch(i, Made(pid, user)) => CountedTables(m.t, 0, m.serial + 1, Entry(pid, m.job.todo[i], user));
    case HandleExit(_) => CountedTables(m.t, m.inbox[0].group, m.inbox[0].id, any);
    case Close(i, _, _) => CountedTables(m.t, m.t.idle[m.job.victims[i]].group, m.job.victims[i], any);
    case Reuse(i, _) => CountedTransfer(m.t, m.job.picks[i], m.job.group, m.serial + 1);
    case Hand(i, _) => CountedTransfer(m.t, m.job.pairs[i].id, m.job.pairs[i].group, m.serial + 1);
    case _ =>
  }

  lemma CountedTransfer(t: Tables, id: nat, group: nat, to: nat)
    requires Counted(t) && id in t.idle
    ensures Counted(Transfer(t, id, group, to))
  {
    hide Counted;
    CountedTables(t, t.idle[id].group, id, t.idle[id]);
    CountedTables(Delete(t, t.idle[id].group, id), 0, to, Entry(t.idle[id].pid, group, t.idle[id].user));
  }

  lemma {:induction false} RunCounted(m: Manager, evs: seq<Event>)
    requires Counted(m.t) && Possible(m, evs)
    ensures Counted(After(m, evs).t)
    decreases |evs|
  {
    if evs != [] {
      CountedStep(m, evs[0]);
      RunCounted(Apply(m, evs[0]), evs[1..]);
    }
  }

  function Elements(s: seq<nat>): set<nat> {
    set x | x in s
  }

  lemma {:induction false} DistinctSize(s: seq<nat>)
    requires Distinct(s)
    ensures |Elements(s)| == |s|
  {
    if s != [] {
      var front := s[..|s| - 1];
      DistinctSize(front);
      assert Elements(s) == Elements(front) + {s[|s| - 1]};
    }
  }

  lemma OrderSize(t: Tables)
    requires Disjoint(t)
    ensures |t.order| == |t.idle|
  {
    DistinctSize(t.order);
    assert Elements(t.order) == t.idle.Keys;
  }

  /** Over every run of a manager: idle and busy are disjoint and together within capacity, the groups are exactly
      the live names by contract with no empty group, and two live processes have different names as strings. */
  lemma IndexesAgree(cfg: Config, evs: seq<Event>)
    requires Possible(Initial(cfg), evs)
    ensures var m := After(Initial(cfg), evs);
            && m.t.idle.Keys !! m.t.busy.Keys
            && |m.t.idle| + |m.t.busy| <= cfg.max
            && (forall g: nat, n: nat :: Member(m.t.groups, g, n) <==> Listed(m.t, n) && EntryOf(m.t, n).group == g)
            && (forall g :: g in m.t.groups ==> m.t.groups[g] != {})
    ensures var m := After(Initial(cfg), evs);
            forall a: nat, b: nat, x: nat, y: nat :: Listed(m.t, a) && Listed(m.t, b) && a != b ==>
              && EntryOf(m.t, a).group < |m.known| && EntryOf(m.t, b).group < |m.known|
              && ProcessName(m.known[EntryOf(m.t, a).group], x, a, cfg.isOrig)
                 != ProcessName(m.known[EntryOf(m.t, b).group], y, b, cfg.isOrig)
  {
    var m := After(Initial(cfg), evs);
    InitialGood(cfg);
    RunGood(Initial(cfg), evs);
    RunCounted(Initial(cfg), evs);
    ConfigFixed(Initial(cfg), evs);
    OrderSize(m.t);
    forall a: nat, b: nat, x: nat, y: nat | Listed(m.t, a) && Listed(m.t, b) && a != b
      ensures EntryOf(m.t, a).group < |m.known| && EntryOf(m.t, b).group < |m.known|
              && ProcessName(m.known[EntryOf(m.t, a).group], x, a, cfg.isOrig)
                 != ProcessName(m.known[EntryOf(m.t, b).group], y, b, cfg.isOrig)
    {
      var j, k := m.known[EntryOf(m.t, a).group], m.known[EntryOf(m.t, b).group];
      if a < b {
        ProcessNameFresh(j, k, x, y, a, b, cfg.isOrig);
      } else {
        ProcessNameFresh(k, j, y, x, b, a, cfg.isOrig);
      }
    }
  }

  lemma {:induction false} ConfigFixed(m: Manager, evs: seq<Event>)
    requires Possible(m, evs)
    ensures After(m, evs).cfg == m.cfg
    decreases |evs|
  {
    if evs != [] {
      ConfigFixed(Apply(m, evs[0]), evs[1..]);
    }
  }
}
