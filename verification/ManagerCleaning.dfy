/**
 The periodic cleaning of idle processes.  A tick of the clean timer that finds
 nothing to release returns without starting the timer again, and no other code
 starts it, so cleaning ends with the first such tick.
 */
module ManagerCleaning {
  import opened ManagerModel
  import opened ManagerIndexes

  /** The timer is off and no cleaning is at work that would start it again. */
  predicate Stopped(m: Manager) {
    !m.cleanArmed && !m.job.Cleaning?
  }

  /** A tick ends cleaning exactly when it finds nothing to release. */
  lemma TickStops(m: Manager)
    requires Enabled(m, CleanTick)
    ensures Stopped(Apply(m, CleanTick)) <==> ReleaseNum(m) <= 0
  {
  }

  lemma StepStops(m: Manager, ev: Event)
    requires Enabled(m, ev) && Runnable(m, ev)
    ensures Stopped(Apply(m, ev)) <==> Stopped(m) || (ev == CleanTick && ReleaseNum(m) <= 0)
  {
    hide Wake, Send, AfterDelete, Transfer, SameContract, Delete, Insert;
  }

  /** The k-th event is a tick that finds nothing to release. */
  ghost predicate EmptyTick(m: Manager, evs: seq<Event>, k: nat) {
    k < |evs| && evs[k] == CleanTick && Possible(m, evs[..k]) && ReleaseNum(After(m, evs[..k])) <= 0
  }

  lemma EmptyTickLater(m: Manager, evs: seq<Event>, k: nat)
    requires Possible(m, evs) && evs != []
    ensures EmptyTick(m, evs, k + 1) <==> EmptyTick(Apply(m, evs[0]), evs[1..], k)
  {
    hide Enabled, Runnable, Apply, ReleaseNum;
    if k + 1 <= |evs| {
      assert evs[..k + 1][1..] == evs[1..][..k];
    }
  }

  lemma {:induction false} RunStops(m: Manager, evs: seq<Event>)
    requires Possible(m, evs)
    ensures Stopped(After(m, evs)) <==> Stopped(m) || exists k: nat :: EmptyTick(m, evs, k)
    decreases |evs|
  {
    hide Enabled, Runnable, Apply, ReleaseNum, Stopped;
    if evs != [] {
      var r := Apply(m, evs[0]);
      StepStops(m, evs[0]);
      RunStops(r, evs[1..]);
      assert evs[..0] == [];
      assert EmptyTick(m, evs, 0) <==> evs[0] == CleanTick && ReleaseNum(m) <= 0;
      if k: nat :| EmptyTick(m, evs, k) {
        if k > 0 {
          EmptyTickLater(m, evs, k - 1);
        }
      }
      if k: nat :| EmptyTick(r, evs[1..], k) {
        EmptyTickLater(m, evs, k);
      }
    }
  }

  /** In every run cleaning is over exactly when some tick found nothing to release, and from then on for good. */
  lemma CleaningStops(cfg: Config, evs: seq<Event>, later: seq<Event>)
    requires Possible(Initial(cfg), evs)
    ensures Stopped(After(Initial(cfg), evs)) <==> exists k: nat :: EmptyTick(Initial(cfg), evs, k)
    ensures Stopped(After(Initial(cfg), evs)) && Possible(After(Initial(cfg), evs), later) ==>
              Stopped(After(After(Initial(cfg), evs), later))
  {
    RunStops(Initial(cfg), evs);
    if Stopped(After(Initial(cfg), evs)) && Possible(After(Initial(cfg), evs), later) {
      RunStops(After(Initial(cfg), evs), later);
    }
  }

  /** Whatever the configuration, the first tick ends it when it comes before any process is idle. */
  lemma FirstTickStops(cfg: Config)
    ensures Possible(Initial(cfg), [CleanTick]) && Stopped(After(Initial(cfg), [CleanTick]))
  {
    var m := Apply(Initial(cfg), CleanTick);
    assert [CleanTick][1..] == [];
    assert Possible(m, []) && After(m, []) == m;
  }
}
