/** The run-wide "no new restarts" signal as the object the program shares, and the launcher that uses it. */
module RunStops {
  import opened Common
  import opened Launcher

  class RunStop {
    var stopped: bool
    var cause: Option<nat>

    function Value(): Stop
      reads this
    {
      Stop(stopped, cause)
    }

    constructor ()
      ensures Value() == Stop(false, None)
    {
      stopped := false;
      cause := None;
    }

    /** The first cause wins and a tripped signal stays tripped. */
    method Trip(c: nat)
      modifies this
      ensures stopped
      ensures cause == if old(cause).Some? then old(cause) else Some(c)
    {
      if cause == None {
        cause := Some(c);
      }
      stopped := true;
    }
  }

  /** A missing signal is replaced by one local to the launcher. */
  method OrNew(s: RunStop?) returns (r: RunStop)
    ensures s != null ==> r == s
    ensures s == null ==> fresh(r) && r.Value() == Stop(false, None)
  {
    if s == null {
      r := new RunStop();
    } else {
      r := s;
    }
  }

  /** Selection errors trip the signal before the launch queue starts. */
  method TripOnSelectionErrors(s: RunStop?, errs: seq<nat>) returns (r: RunStop)
    requires s != null ==> s.Value().Sound()
    modifies s
    ensures s != null ==> r == s
    ensures s == null ==> fresh(r)
    ensures r.Value().Sound()
    ensures r.stopped <==> (s != null && old(s.stopped)) || errs != []
    ensures errs == [] && s != null ==> r.Value() == old(s.Value())
    ensures errs == [] && s == null ==> r.Value() == Stop(false, None)
    ensures errs != [] && (s == null || old(s.cause).None?) ==> r.cause == Some(errs[0])
  {
    r := OrNew(s);
    if errs != [] {
      r.Trip(errs[0]);
    }
  }

  /** The turn `pick(t)` if that actor can move, otherwise some other enabled part of the launcher. */
  method NextActor(cfg: Config, s: State, preferred: Actor) returns (a: Actor)
    requires Inv(cfg, s) && !s.pc.Return?
    ensures Internal(a) && Step(cfg, s, a).Some?
    ensures Internal(preferred) && Step(cfg, s, preferred).Some? ==> a == preferred
  {
    if Internal(preferred) && Step(cfg, s, preferred).Some? {
      return preferred;
    }
    if Step(cfg, s, Dispatcher).Some? {
      return Dispatcher;
    }
    NoDeadlock(cfg, s);
    var i := 0;
    while Step(cfg, s, Worker(i)).None?
      invariant forall k: nat | k < i :: Step(cfg, s, Worker(k)).None?
      invariant i <= s.next
      decreases s.next - i
    {
      i := i + 1;
    }
    a := Worker(i);
  }

  /** One turn of the scheduler: possibly an action of somebody else on the shared signal, then one of the launcher. */
  method TakeTurn(cfg: Config, ghost start: State, s: State, ghost schedule: seq<Actor>, preferred: Actor)
    returns (t: State, ghost extended: seq<Actor>)
    requires Inv(cfg, start) && Inv(cfg, s) && !s.pc.Return? && s == Run(cfg, start, schedule)
    ensures Inv(cfg, t) && t == Run(cfg, start, extended)
    ensures || Work(t.workers) < Work(s.workers)
            || (Work(t.workers) == Work(s.workers) && 0 <= DispatcherWork(cfg, t.pc) < DispatcherWork(cfg, s.pc))
    ensures Internal(preferred) && Closed(schedule) ==> Closed(extended)
  {
    t, extended := s, schedule;
    if !Internal(preferred) && Step(cfg, s, preferred).Some? {
      StepKeepsInv(cfg, s, preferred);
      RunAppend(cfg, start, extended, preferred);
      t, extended := Step(cfg, s, preferred).value, extended + [preferred];
    }
    var a := NextActor(cfg, t, preferred);
    StepKeepsInv(cfg, t, a);
    RunAppend(cfg, start, extended, a);
    StepMakesProgress(cfg, t, a);
    t, extended := Step(cfg, t, a).value, extended + [a];
  }

  /** Runs the jobs under an arbitrary scheduler. `launched` lists the jobs in launch order. */
  method RunRolloutJobs(limit: int, jobs: seq<Job>, stop: RunStop?, pick: nat -> Actor)
    returns (errs: seq<Slot>, notStarted: nat, launched: seq<nat>, ghost schedule: seq<Actor>, rs: RunStop)
    requires stop != null ==> stop.Value().Sound()
    modifies stop
    ensures stop != null ==> rs == stop
    ensures stop == null ==> fresh(rs)
    ensures var cfg := Config(limit, jobs, true);
            var before := if stop == null then Stop(false, None) else old(stop.Value());
            && before.Sound() && rs.Value().Sound() && Inv(cfg, Init(cfg, before))
            && var end := Run(cfg, Init(cfg, before), schedule);
               end.pc.Return? && end.errs == errs && end.notStarted == notStarted && end.launched == launched && end.stop == rs.Value()
    ensures Complete(Config(limit, jobs, true), errs, notStarted, launched, rs.stopped)
    ensures stop != null && old(stop.stopped) ==> launched == [] && rs.Value() == old(stop.Value())
    ensures (forall t :: Internal(pick(t))) ==> Closed(schedule)
  {
    rs := OrNew(stop);
    var cfg := Config(limit, jobs, true);
    ghost var before := rs.Value();
    var s := Init(cfg, Stop(rs.stopped, rs.cause));
    ghost var start := s;
    InitInv(cfg, before);
    schedule := [];
    var turn := 0;
    while !s.pc.Return?
      invariant Inv(cfg, s) && Inv(cfg, start)
      invariant s == Run(cfg, start, schedule)
      invariant rs.Value() == s.stop
      invariant stop != null ==> rs == stop
      invariant stop == null ==> fresh(rs)
      invariant (forall t :: Internal(pick(t))) ==> Closed(schedule)
      decreases Work(s.workers), DispatcherWork(cfg, s.pc)
    {
      s, schedule := TakeTurn(cfg, start, s, schedule, pick(turn));
      rs.stopped, rs.cause := s.stop.stopped, s.stop.cause;
      turn := turn + 1;
    }
    errs, notStarted, launched := s.errs, s.notStarted, s.launched;
    EveryInterleaving(cfg, before, schedule);
    if before.stopped {
      TrippedLaunchesNothing(cfg, before, schedule);
    }
  }
}
