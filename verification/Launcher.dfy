/** The stoppable bounded launcher: one dispatcher, one worker per job, a token channel and the run-wide stop signal.
    Every atomic action of the program is one step; a schedule is an arbitrary sequence of actors. */
module Launcher {
  import opened Common

  /** The run-wide stop signal. Tripping it is two actions: record the cause (first one wins), then raise the flag. */
  datatype Stop = Stop(stopped: bool, cause: Option<nat>)
  {
    predicate Sound() { stopped ==> cause.Some? }

    function Record(c: nat): Stop {
      if cause.None? then this.(cause := Some(c)) else this
    }

    function Raise(): Stop { this.(stopped := true) }
  }

  /** What calling `fn(i)` does: it returns the value `tag`, an error iff `fails`, and with `early` it trips the stop
      signal itself before it returns. */
  datatype Job = Job(tag: nat, fails: bool, early: bool)

  /** `stoppable` distinguishes the restart launcher from the plain bounded loop, which never looks at a stop signal. */
  datatype Config = Config(limit: int, jobs: seq<Job>, stoppable: bool)
  {
    function N(): nat { |jobs| }
    function Slots(): nat { if limit < 1 then 1 else limit }
  }

  /** Where the goroutine of one job is. */
  datatype Phase =
    | Queued      // not spawned
    | Running     // inside fn, which has not tripped anything
    | EarlyTrip   // inside fn: cause recorded, flag not yet raised
    | LateRunning // inside fn, after its own trip
    | Returned    // fn returned, slot not written yet
    | Wrote       // slot written, stop(err) not evaluated yet
    | Tripping    // cause recorded, flag not yet raised
    | Releasing   // about to give the token back
    | Released    // token given back, not yet counted by the wait group
    | Done

  datatype Slot = Unwritten | NotStarted | Result(tag: nat)

  datatype Pc =
    | Acquire      // waiting for a token
    | Check        // token held, about to read the stop flag
    | Spawn        // token held, the flag read false
    | Refund       // token held, the flag read true
    | Fill(j: nat) // writing "not started" into slot j and above
    | Wait         // waiting for all workers
    | Return

  datatype State = State(pc: Pc, next: nat, workers: seq<Phase>, errs: seq<Slot>, notStarted: nat,
                         tokens: nat, stop: Stop, launched: seq<nat>)

  datatype Actor = Dispatcher | Worker(i: nat) | OutsideCause(c: nat) | OutsideStop

  function Init(cfg: Config, stop: Stop): State {
    State(if cfg.N() == 0 then Wait else Acquire, 0, seq(cfg.N(), _ => Queued), seq(cfg.N(), _ => Unwritten), 0, 0, stop, [])
  }

  predicate HoldsToken(p: Phase) {
    p.Running? || p.EarlyTrip? || p.LateRunning? || p.Returned? || p.Wrote? || p.Tripping? || p.Releasing?
  }

  predicate InFn(p: Phase) { p.Running? || p.EarlyTrip? || p.LateRunning? }

  predicate PastFn(p: Phase) { !p.Queued? && !InFn(p) }

  predicate DispatcherHolds(pc: Pc) { pc.Check? || pc.Spawn? || pc.Refund? }

  predicate Shape(cfg: Config, s: State) {
    && |s.workers| == |s.errs| == cfg.N()
    && s.next <= cfg.N()
    && (forall i | 0 <= i < cfg.N() :: s.workers[i].Queued? <==> s.next <= i)
    && |s.launched| == s.next
    && (forall i | 0 <= i < s.next :: s.launched[i] == i)
    && s.stop.Sound()
  }

  predicate PcSound(cfg: Config, s: State)
    requires Shape(cfg, s)
  {
    && (s.pc.Acquire? || DispatcherHolds(s.pc) ==> s.next < cfg.N())
    && (s.pc.Refund? || s.pc.Fill? ==> cfg.stoppable && s.stop.stopped && s.next < cfg.N())
    && (s.pc.Fill? ==> s.next <= s.pc.j <= cfg.N())
    && (s.pc.Wait? || s.pc.Return? ==>
          s.notStarted == cfg.N() - s.next && (s.next < cfg.N() ==> cfg.stoppable && s.stop.stopped))
    && (!s.pc.Wait? && !s.pc.Return? ==> s.notStarted == 0)
    && (s.pc.Return? ==> forall i | 0 <= i < s.next :: s.workers[i].Done?)
  }

  function DispatcherStep(cfg: Config, s: State): Option<State>
    requires Shape(cfg, s) && PcSound(cfg, s)
  {
    match s.pc
    case Acquire => if s.tokens < cfg.Slots() then Some(s.(pc := Check, tokens := s.tokens + 1)) else None
    case Check => Some(s.(pc := if cfg.stoppable && s.stop.stopped then Refund else Spawn))
    case Spawn =>
      Some(s.(pc := if s.next + 1 < cfg.N() then Acquire else Wait, next := s.next + 1,
              workers := s.workers[s.next := Running], launched := s.launched + [s.next]))
    case Refund => if s.tokens == 0 then None else Some(s.(pc := Fill(s.next), tokens := s.tokens - 1))
    case Fill(j) =>
      if j < cfg.N() then Some(s.(pc := Fill(j + 1), errs := s.errs[j := NotStarted]))
      else Some(s.(pc := Wait, notStarted := cfg.N() - s.next))
    case Wait => if forall i | 0 <= i < s.next :: s.workers[i].Done? then Some(s.(pc := Return)) else None
    case Return => None
  }

  function WorkerStep(cfg: Config, s: State, i: nat): Option<State>
    requires Shape(cfg, s) && PcSound(cfg, s)
  {
    if i >= s.next then None else
      var job := cfg.jobs[i];
      match s.workers[i]
      case Queued => None
      case Running =>
        if job.early then Some(s.(workers := s.workers[i := EarlyTrip], stop := s.stop.Record(job.tag)))
        else Some(s.(workers := s.workers[i := Returned]))
      case EarlyTrip => Some(s.(workers := s.workers[i := LateRunning], stop := s.stop.Raise()))
      case LateRunning => Some(s.(workers := s.workers[i := Returned]))
      case Returned => Some(s.(workers := s.workers[i := Wrote], errs := s.errs[i := Result(job.tag)]))
      case Wrote =>
        if cfg.stoppable && job.fails then Some(s.(workers := s.workers[i := Tripping], stop := s.stop.Record(job.tag)))
        else Some(s.(workers := s.workers[i := Releasing]))
      case Tripping => Some(s.(workers := s.workers[i := Releasing], stop := s.stop.Raise()))
      case Releasing =>
        if s.tokens == 0 then None else Some(s.(workers := s.workers[i := Released], tokens := s.tokens - 1))
      case Released => Some(s.(workers := s.workers[i := Done]))
      case Done => None
  }

  /** Other users of the shared signal may trip it at any moment, in the same two actions. */
  function OutsideStep(s: State, a: Actor): Option<State>
    requires a.OutsideCause? || a.OutsideStop?
  {
    match a
    case OutsideCause(c) => Some(s.(stop := s.stop.Record(c)))
    case _ => if s.stop.cause.Some? then Some(s.(stop := s.stop.Raise())) else None
  }

  function Step(cfg: Config, s: State, a: Actor): Option<State>
    requires Shape(cfg, s) && PcSound(cfg, s)
  {
    match a
    case Dispatcher => DispatcherStep(cfg, s)
    case Worker(i) => WorkerStep(cfg, s, i)
    case _ => OutsideStep(s, a)
  }

  // ----- the invariant -----

  function Holders(workers: seq<Phase>): set<nat> {
    set i: nat | i < |workers| && HoldsToken(workers[i])
  }

  predicate TokensAccounted(cfg: Config, s: State) {
    && s.tokens == |Holders(s.workers)| + (if DispatcherHolds(s.pc) then 1 else 0)
    && s.tokens <= cfg.Slots()
  }

  /** How many of the slots at and above `next` have been filled. */
  function Filled(cfg: Config, s: State): nat
    requires Shape(cfg, s) && PcSound(cfg, s)
  {
    match s.pc
    case Fill(j) => j
    case Wait => cfg.N()
    case Return => cfg.N()
    case _ => s.next
  }

  function SlotOf(cfg: Config, s: State, i: nat): Slot
    requires Shape(cfg, s) && PcSound(cfg, s) && i < cfg.N()
  {
    if i < s.next then
      (if InFn(s.workers[i]) || s.workers[i].Returned? then Unwritten else Result(cfg.jobs[i].tag))
    else if i < Filled(cfg, s) then NotStarted
    else Unwritten
  }

  predicate SlotsSound(cfg: Config, s: State)
    requires Shape(cfg, s) && PcSound(cfg, s)
  {
    forall i | 0 <= i < cfg.N() :: s.errs[i] == SlotOf(cfg, s, i)
  }

  predicate WorkerSound(cfg: Config, s: State, i: nat)
    requires i < |s.workers| && i < cfg.N()
  {
    var p, job := s.workers[i], cfg.jobs[i];
    && (p.EarlyTrip? ==> job.early && s.stop.cause.Some?)
    && (p.LateRunning? ==> job.early && s.stop.stopped)
    && (p.Tripping? ==> cfg.stoppable && job.fails && s.stop.cause.Some?)
    && (p.Releasing? || p.Released? || p.Done? ==> cfg.stoppable && job.fails ==> s.stop.stopped)
    && (PastFn(p) && job.early ==> s.stop.stopped)
  }

  predicate Inv(cfg: Config, s: State) {
    && Shape(cfg, s)
    && PcSound(cfg, s)
    && TokensAccounted(cfg, s)
    && SlotsSound(cfg, s)
    && forall i | 0 <= i < cfg.N() :: WorkerSound(cfg, s, i)
  }

  lemma HoldersUpdate(workers: seq<Phase>, i: nat, p: Phase)
    requires i < |workers|
    ensures HoldsToken(workers[i]) && HoldsToken(p) ==> Holders(workers[i := p]) == Holders(workers)
    ensures !HoldsToken(workers[i]) && !HoldsToken(p) ==> Holders(workers[i := p]) == Holders(workers)
    ensures !HoldsToken(workers[i]) && HoldsToken(p) ==> |Holders(workers[i := p])| == |Holders(workers)| + 1
    ensures HoldsToken(workers[i]) && !HoldsToken(p) ==> |Holders(workers[i := p])| == |Holders(workers)| - 1
  {
    var before, after := Holders(workers), Holders(workers[i := p]);
    assert forall j :: j in after <==> if j == i then HoldsToken(p) else j in before;
    if HoldsToken(p) {
      assert after == before + {i};
    } else {
      assert after == before - {i};
    }
  }

  lemma InitInv(cfg: Config, stop: Stop)
    requires stop.Sound()
    ensures Inv(cfg, Init(cfg, stop))
  {
    assert Holders(Init(cfg, stop).workers) == {};
  }

  /** A worker's own obligations survive any growth of the stop signal. */
  lemma OthersStaySound(cfg: Config, s: State, t: State, changed: int)
    requires |s.workers| == |t.workers| == cfg.N()
    requires forall i | 0 <= i < cfg.N() :: WorkerSound(cfg, s, i)
    requires s.stop.stopped ==> t.stop.stopped
    requires s.stop.cause.Some? ==> t.stop.cause.Some?
    requires forall i | 0 <= i < cfg.N() && i != changed :: t.workers[i] == s.workers[i]
    ensures forall i | 0 <= i < cfg.N() && i != changed :: WorkerSound(cfg, t, i)
  {
    forall i | 0 <= i < cfg.N() && i != changed
      ensures WorkerSound(cfg, t, i)
    {
      assert WorkerSound(cfg, s, i);
    }
  }

  lemma DispatcherKeepsInv(cfg: Config, s: State)
    requires Inv(cfg, s) && DispatcherStep(cfg, s).Some?
    ensures Inv(cfg, DispatcherStep(cfg, s).value)
  {
    var t := DispatcherStep(cfg, s).value;
    if s.pc.Spawn? {
      HoldersUpdate(s.workers, s.next, Running);
    }
    OthersStaySound(cfg, s, t, s.next);
    if s.next < cfg.N() {
      assert WorkerSound(cfg, s, s.next);
    }
  }

  lemma WorkerKeepsShape(cfg: Config, s: State, i: nat)
    requires Inv(cfg, s) && WorkerStep(cfg, s, i).Some?
    ensures var t := WorkerStep(cfg, s, i).value; Shape(cfg, t) && PcSound(cfg, t)
  {
    assert WorkerSound(cfg, s, i);
  }

  lemma WorkerKeepsTokens(cfg: Config, s: State, i: nat)
    requires Inv(cfg, s) && WorkerStep(cfg, s, i).Some?
    ensures TokensAccounted(cfg, WorkerStep(cfg, s, i).value)
  {
    var t := WorkerStep(cfg, s, i).value;
    HoldersUpdate(s.workers, i, t.workers[i]);
  }

  lemma WorkerKeepsOwn(cfg: Config, s: State, i: nat)
    requires Inv(cfg, s) && WorkerStep(cfg, s, i).Some?
    ensures WorkerSound(cfg, WorkerStep(cfg, s, i).value, i)
  {
    assert WorkerSound(cfg, s, i);
  }

  lemma WorkerKeepsSlot(cfg: Config, s: State, i: nat, k: nat)
    requires Inv(cfg, s) && WorkerStep(cfg, s, i).Some? && k < cfg.N()
    requires var t := WorkerStep(cfg, s, i).value; Shape(cfg, t) && PcSound(cfg, t)
    ensures var t := WorkerStep(cfg, s, i).value; t.errs[k] == SlotOf(cfg, t, k)
  {
    assert s.errs[k] == SlotOf(cfg, s, k);
  }

  lemma WorkerKeepsSlots(cfg: Config, s: State, i: nat)
    requires Inv(cfg, s) && WorkerStep(cfg, s, i).Some?
    ensures var t := WorkerStep(cfg, s, i).value; Shape(cfg, t) && PcSound(cfg, t) && SlotsSound(cfg, t)
  {
    var t := WorkerStep(cfg, s, i).value;
    WorkerKeepsShape(cfg, s, i);
    forall k | 0 <= k < cfg.N()
      ensures t.errs[k] == SlotOf(cfg, t, k)
    {
      WorkerKeepsSlot(cfg, s, i, k);
    }
  }

  lemma WorkerKeepsInv(cfg: Config, s: State, i: nat)
    requires Inv(cfg, s) && WorkerStep(cfg, s, i).Some?
    ensures Inv(cfg, WorkerStep(cfg, s, i).value)
  {
    var t := WorkerStep(cfg, s, i).value;
    WorkerKeepsSlots(cfg, s, i);
    WorkerKeepsTokens(cfg, s, i);
    assert forall k | 0 <= k < cfg.N() :: WorkerSound(cfg, t, k) by {
      WorkerKeepsOwn(cfg, s, i);
      assert t.workers == s.workers[i := t.workers[i]];
      OthersStaySound(cfg, s, t, i);
    }
  }

  lemma StepKeepsInv(cfg: Config, s: State, a: Actor)
    requires Inv(cfg, s) && Step(cfg, s, a).Some?
    ensures Inv(cfg, Step(cfg, s, a).value)
  {
    match a
    case Dispatcher => DispatcherKeepsInv(cfg, s);
    case Worker(i) => WorkerKeepsInv(cfg, s, i);
    case _ => OthersStaySound(cfg, s, Step(cfg, s, a).value, -1);
  }

  // ----- all interleavings -----

  /** The state reached by an arbitrary schedule; an actor that is blocked when its turn comes does nothing. */
  function Run(cfg: Config, s: State, schedule: seq<Actor>): (t: State)
    requires Inv(cfg, s)
    ensures Inv(cfg, t)
    decreases |schedule|
  {
    if schedule == [] then s
    else
      match Step(cfg, s, schedule[0])
      case None => Run(cfg, s, schedule[1..])
      case Some(t) =>
        StepKeepsInv(cfg, s, schedule[0]);
        Run(cfg, t, schedule[1..])
  }

  lemma {:induction false} RunAppend(cfg: Config, s: State, schedule: seq<Actor>, a: Actor)
    requires Inv(cfg, s)
    ensures var t := Run(cfg, s, schedule);
            Run(cfg, s, schedule + [a]) == match Step(cfg, t, a) case None => t case Some(u) => u
    decreases |schedule|
  {
    if schedule == [] {
      assert [a][1..] == [];
      match Step(cfg, s, a)
      case None =>
      case Some(u) => StepKeepsInv(cfg, s, a);
    } else {
      assert (schedule + [a])[1..] == schedule[1..] + [a];
      match Step(cfg, s, schedule[0])
      case None => RunAppend(cfg, s, schedule[1..], a);
      case Some(t) =>
        StepKeepsInv(cfg, s, schedule[0]);
        RunAppend(cfg, t, schedule[1..], a);
    }
  }

  function InFlight(s: State): set<nat> {
    set i: nat | i < |s.workers| && InFn(s.workers[i])
  }

  /** What the launcher hands back: the jobs of a prefix [0, k) ran once each and have their own result in their own
      slot, every later job is reported as not started, and stopping short only happens after the stop was tripped. */
  predicate Complete(cfg: Config, errs: seq<Slot>, notStarted: nat, launched: seq<nat>, stopped: bool) {
    && |errs| == cfg.N()
    && notStarted <= cfg.N()
    && launched == seq(cfg.N() - notStarted, i => i)
    && (forall i | 0 <= i < cfg.N() - notStarted :: errs[i] == Result(cfg.jobs[i].tag))
    && (forall i | cfg.N() - notStarted <= i < cfg.N() :: errs[i] == NotStarted)
    && (notStarted > 0 ==> cfg.stoppable && stopped)
    && (cfg.stoppable ==> forall i | 0 <= i < cfg.N() - notStarted :: cfg.jobs[i].fails ==> stopped)
  }

  lemma SubsetSize(a: set<nat>, b: set<nat>)
    requires a <= b
    ensures |a| <= |b|
  {
    assert |b - a| == |b| - |a| by { assert b == a + (b - a); }
  }

  /** At every moment of every interleaving at most max(limit, 1) calls are in flight and the launched jobs are a prefix,
      each launched once; whatever is returned is complete. */
  lemma EveryInterleaving(cfg: Config, stop: Stop, schedule: seq<Actor>)
    requires stop.Sound()
    ensures Inv(cfg, Init(cfg, stop))
    ensures var s := Run(cfg, Init(cfg, stop), schedule);
            && |InFlight(s)| <= (if cfg.limit < 1 then 1 else cfg.limit)
            && s.launched == seq(s.next, i => i)
            && (forall i | i in InFlight(s) :: i < s.next && s.errs[i] == Unwritten)
            && (s.pc.Return? ==> InFlight(s) == {} && Complete(cfg, s.errs, s.notStarted, s.launched, s.stop.stopped))
  {
    InitInv(cfg, stop);
    var s := Run(cfg, Init(cfg, stop), schedule);
    assert InFlight(s) <= Holders(s.workers);
    SubsetSize(InFlight(s), Holders(s.workers));
    if s.pc.Return? {
      forall i | 0 <= i < cfg.N() - s.notStarted
        ensures s.errs[i] == Result(cfg.jobs[i].tag)
        ensures cfg.stoppable && cfg.jobs[i].fails ==> s.stop.stopped
      {
        assert s.workers[i].Done?;
        assert WorkerSound(cfg, s, i);
      }
    }
  }

  // ----- the limit is used -----

  /** The dispatcher waits only while as many jobs as the limit allows hold a token. */
  lemma FreeTokenIsTaken(cfg: Config, s: State)
    requires Inv(cfg, s) && s.pc.Acquire?
    ensures Step(cfg, s, Dispatcher).Some? <==> |Holders(s.workers)| < (if cfg.limit < 1 then 1 else cfg.limit)
  {
    assert !DispatcherHolds(s.pc);
  }

  /** The first `k` jobs are running, and nothing else has happened. */
  ghost predicate AllRunning(cfg: Config, stop: Stop, s: State, k: nat) {
    && Inv(cfg, s) && s.next == k <= cfg.N() && s.stop == stop && s.pc == (if k < cfg.N() then Acquire else Wait)
    && forall i | 0 <= i < k :: s.workers[i].Running?
  }

  function Below(k: nat): (r: set<nat>)
    ensures |r| == k && forall i: nat :: i in r <==> i < k
  {
    if k == 0 then {} else Below(k - 1) + {k - 1}
  }

  lemma RunningHoldTokens(cfg: Config, stop: Stop, s: State, k: nat)
    requires AllRunning(cfg, stop, s, k)
    ensures |Holders(s.workers)| == |InFlight(s)| == k
  {
    assert Holders(s.workers) == Below(k) && InFlight(s) == Below(k);
  }

  lemma LaunchOne(cfg: Config, stop: Stop, s: State, k: nat)
    requires AllRunning(cfg, stop, s, k) && k < cfg.N() && k < (if cfg.limit < 1 then 1 else cfg.limit)
    requires !(cfg.stoppable && stop.stopped)
    ensures AllRunning(cfg, stop, Run(cfg, s, [Dispatcher, Dispatcher, Dispatcher]), k + 1)
  {
    RunningHoldTokens(cfg, stop, s, k);
    FreeTokenIsTaken(cfg, s);
    var check := Step(cfg, s, Dispatcher).value;
    StepKeepsInv(cfg, s, Dispatcher);
    var spawn := Step(cfg, check, Dispatcher).value;
    StepKeepsInv(cfg, check, Dispatcher);
    StepKeepsInv(cfg, spawn, Dispatcher);
    assert Run(cfg, spawn, [Dispatcher]) == Step(cfg, spawn, Dispatcher).value by {
      assert [Dispatcher][1..] == [];
    }
    assert [Dispatcher, Dispatcher][1..] == [Dispatcher] && [Dispatcher, Dispatcher, Dispatcher][1..] == [Dispatcher, Dispatcher];
  }

  lemma {:induction false} RunBoth(cfg: Config, s: State, a: seq<Actor>, b: seq<Actor>)
    requires Inv(cfg, s)
    ensures Run(cfg, s, a + b) == Run(cfg, Run(cfg, s, a), b)
    decreases |b|
  {
    if b == [] {
      assert a + b == a;
    } else {
      var front, last := b[..|b| - 1], b[|b| - 1];
      RunBoth(cfg, s, a, front);
      RunAppend(cfg, s, a + front, last);
      RunAppend(cfg, Run(cfg, s, a), front, last);
      assert a + b == a + front + [last] && b == front + [last];
    }
  }

  /** With the stop not tripped, there are interleavings in which as many jobs run at once as there are, up to the limit. */
  lemma {:induction false} LimitIsReached(cfg: Config, stop: Stop, k: nat) returns (schedule: seq<Actor>)
    requires stop.Sound() && !(cfg.stoppable && stop.stopped)
    requires k <= cfg.N() && k <= (if cfg.limit < 1 then 1 else cfg.limit)
    ensures Inv(cfg, Init(cfg, stop)) && AllRunning(cfg, stop, Run(cfg, Init(cfg, stop), schedule), k)
    ensures |InFlight(Run(cfg, Init(cfg, stop), schedule))| == k
  {
    InitInv(cfg, stop);
    schedule := [];
    if k > 0 {
      schedule := LimitIsReached(cfg, stop, k - 1);
      LaunchOne(cfg, stop, Run(cfg, Init(cfg, stop), schedule), k - 1);
      RunBoth(cfg, Init(cfg, stop), schedule, [Dispatcher, Dispatcher, Dispatcher]);
      schedule := schedule + [Dispatcher, Dispatcher, Dispatcher];
    }
    RunningHoldTokens(cfg, stop, Run(cfg, Init(cfg, stop), schedule), k);
  }

  // ----- stop before release -----

  /** Jobs already launched plus the one whose check has already read "not stopped". */
  function Launchable(s: State): nat { s.next + if s.pc.Spawn? then 1 else 0 }

  lemma StoppedStep(cfg: Config, s: State, a: Actor)
    requires Inv(cfg, s) && cfg.stoppable && s.stop.stopped
    ensures Step(cfg, s, a).Some? ==>
              var t := Step(cfg, s, a).value; s.next <= t.next && Launchable(t) <= Launchable(s) && t.stop == s.stop
  {
  }

  /** Once the flag is up at most the one job already past its check still starts, whatever happens afterwards;
      no launched job is ever taken back and the flag never goes down. */
  lemma {:induction false} StopBeforeRelease(cfg: Config, s: State, schedule: seq<Actor>)
    requires Inv(cfg, s) && cfg.stoppable && s.stop.stopped
    ensures var t := Run(cfg, s, schedule); s.next <= t.next <= Launchable(t) <= Launchable(s) && t.stop == s.stop
    decreases |schedule|
  {
    if schedule != [] {
      match Step(cfg, s, schedule[0])
      case None => StopBeforeRelease(cfg, s, schedule[1..]);
      case Some(t) =>
        StepKeepsInv(cfg, s, schedule[0]);
        StoppedStep(cfg, s, schedule[0]);
        StopBeforeRelease(cfg, t, schedule[1..]);
    }
  }

  /** If every slot was held by a job when the flag went up, nothing starts any more: no slot is reused after a failure. */
  lemma NoSlotReuse(cfg: Config, s: State, schedule: seq<Actor>)
    requires Inv(cfg, s) && cfg.stoppable && s.stop.stopped
    requires |Holders(s.workers)| == cfg.Slots()
    ensures Run(cfg, s, schedule).launched == s.launched
  {
    StopBeforeRelease(cfg, s, schedule);
    var t := Run(cfg, s, schedule);
    assert t.launched == seq(t.next, i => i) == s.launched;
  }

  /** A failing job still holds its token until the flag is up. */
  lemma FailureHoldsSlot(cfg: Config, stop: Stop, schedule: seq<Actor>, i: nat)
    requires stop.Sound() && cfg.stoppable && i < cfg.N() && cfg.jobs[i].fails
    ensures Inv(cfg, Init(cfg, stop))
    ensures var s := Run(cfg, Init(cfg, stop), schedule);
            PastFn(s.workers[i]) ==> s.stop.stopped || i in Holders(s.workers)
  {
    InitInv(cfg, stop);
    var s := Run(cfg, Init(cfg, stop), schedule);
    assert WorkerSound(cfg, s, i);
  }

  /** With one slot: only the latest job can hold the token, and a failed job is the last one launched. */
  predicate OneSlotInv(cfg: Config, s: State)
    requires Inv(cfg, s)
  {
    && (forall i | 0 <= i < s.next - 1 :: !HoldsToken(s.workers[i]))
    && (forall i | 0 <= i < s.next && cfg.jobs[i].fails && PastFn(s.workers[i]) :: s.next == i + 1 && !s.pc.Spawn?)
  }

  /** With one slot, nobody else holds the token while the dispatcher does. */
  lemma DispatcherAlone(cfg: Config, s: State)
    requires Inv(cfg, s) && cfg.Slots() == 1 && DispatcherHolds(s.pc)
    ensures forall i | 0 <= i < s.next :: !HoldsToken(s.workers[i])
  {
    assert Holders(s.workers) == {};
    forall i | 0 <= i < s.next
      ensures !HoldsToken(s.workers[i])
    {
      assert i !in Holders(s.workers);
    }
  }

  lemma OneSlotDispatcher(cfg: Config, s: State)
    requires Inv(cfg, s) && cfg.stoppable && cfg.Slots() == 1 && OneSlotInv(cfg, s) && DispatcherStep(cfg, s).Some?
    requires Inv(cfg, DispatcherStep(cfg, s).value)
    ensures OneSlotInv(cfg, DispatcherStep(cfg, s).value)
  {
    if DispatcherHolds(s.pc) {
      DispatcherAlone(cfg, s);
    }
    if s.next > 0 {
      assert WorkerSound(cfg, s, s.next - 1);
    }
  }

  lemma OneSlotWorker(cfg: Config, s: State, i: nat)
    requires Inv(cfg, s) && cfg.stoppable && cfg.Slots() == 1 && OneSlotInv(cfg, s) && WorkerStep(cfg, s, i).Some?
    requires Inv(cfg, WorkerStep(cfg, s, i).value)
    ensures OneSlotInv(cfg, WorkerStep(cfg, s, i).value)
  {
    if DispatcherHolds(s.pc) {
      DispatcherAlone(cfg, s);
    }
  }

  lemma OneSlotStep(cfg: Config, s: State, a: Actor)
    requires Inv(cfg, s) && cfg.stoppable && cfg.Slots() == 1 && OneSlotInv(cfg, s) && Step(cfg, s, a).Some?
    ensures Inv(cfg, Step(cfg, s, a).value) && OneSlotInv(cfg, Step(cfg, s, a).value)
  {
    StepKeepsInv(cfg, s, a);
    match a
    case Dispatcher => OneSlotDispatcher(cfg, s);
    case Worker(i) => OneSlotWorker(cfg, s, i);
    case _ =>
  }

  lemma {:induction false} OneSlotRun(cfg: Config, s: State, schedule: seq<Actor>)
    requires Inv(cfg, s) && cfg.stoppable && cfg.Slots() == 1 && OneSlotInv(cfg, s)
    ensures OneSlotInv(cfg, Run(cfg, s, schedule))
    decreases |schedule|
  {
    if schedule != [] {
      match Step(cfg, s, schedule[0])
      case None => OneSlotRun(cfg, s, schedule[1..]);
      case Some(t) =>
        OneSlotStep(cfg, s, schedule[0]);
        OneSlotRun(cfg, t, schedule[1..]);
    }
  }

  /** With limit 1 (or less) nothing is ever launched after a job that failed, in any interleaving. */
  lemma LimitOneStopsAtFailure(cfg: Config, stop: Stop, schedule: seq<Actor>, i: nat)
    requires stop.Sound() && cfg.stoppable && cfg.limit <= 1 && i < cfg.N() && cfg.jobs[i].fails
    ensures Inv(cfg, Init(cfg, stop))
    ensures var s := Run(cfg, Init(cfg, stop), schedule); PastFn(s.workers[i]) ==> s.launched == seq(i + 1, k => k)
  {
    InitInv(cfg, stop);
    OneSlotRun(cfg, Init(cfg, stop), schedule);
    var s := Run(cfg, Init(cfg, stop), schedule);
    if PastFn(s.workers[i]) {
      assert s.next == i + 1;
    }
  }

  // ----- error and stop agree -----

  predicate Internal(a: Actor) { a.Dispatcher? || a.Worker? }

  predicate Closed(schedule: seq<Actor>) { forall a | a in schedule :: Internal(a) }

  /** A job that trips the signal itself also returns an error. */
  predicate Disciplined(cfg: Config) { forall i | 0 <= i < cfg.N() :: cfg.jobs[i].early ==> cfg.jobs[i].fails }

  /** The recorded cause is the error of a launched job that fails. */
  predicate Blamed(cfg: Config, s: State)
    requires Inv(cfg, s)
  {
    s.stop.cause.Some? ==> exists i: nat :: i < s.next && cfg.jobs[i].fails && cfg.jobs[i].tag == s.stop.cause.value
  }

  predicate Keeps(s: Stop, t: Stop) { (s.cause.Some? ==> t.cause == s.cause) && (s.stopped ==> t.stopped) }

  lemma StepKeepsCause(cfg: Config, s: State, a: Actor)
    requires Inv(cfg, s) && Step(cfg, s, a).Some?
    ensures Keeps(s.stop, Step(cfg, s, a).value.stop)
  {
  }

  /** Whoever trips the signal later, the first recorded cause stays, and a raised flag is never lowered. */
  lemma {:induction false} FirstCauseWins(cfg: Config, s: State, schedule: seq<Actor>)
    requires Inv(cfg, s)
    ensures var t := Run(cfg, s, schedule);
            (s.stop.cause.Some? ==> t.stop.cause == s.stop.cause) && (s.stop.stopped ==> t.stop.stopped)
    decreases |schedule|
  {
    if schedule != [] {
      match Step(cfg, s, schedule[0])
      case None => FirstCauseWins(cfg, s, schedule[1..]);
      case Some(t) =>
        StepKeepsInv(cfg, s, schedule[0]);
        StepKeepsCause(cfg, s, schedule[0]);
        FirstCauseWins(cfg, t, schedule[1..]);
    }
  }

  lemma BlameStep(cfg: Config, s: State, a: Actor)
    requires Inv(cfg, s) && Disciplined(cfg) && Internal(a) && Blamed(cfg, s) && Step(cfg, s, a).Some?
    ensures Inv(cfg, Step(cfg, s, a).value) && Blamed(cfg, Step(cfg, s, a).value)
  {
    StepKeepsInv(cfg, s, a);
    if a.Worker? {
      assert WorkerSound(cfg, s, a.i);
    }
  }

  lemma {:induction false} BlameRun(cfg: Config, s: State, schedule: seq<Actor>)
    requires Inv(cfg, s) && Disciplined(cfg) && Closed(schedule) && Blamed(cfg, s)
    ensures Blamed(cfg, Run(cfg, s, schedule))
    decreases |schedule|
  {
    if schedule != [] {
      assert Internal(schedule[0]);
      assert forall a | a in schedule[1..] :: a in schedule;
      match Step(cfg, s, schedule[0])
      case None => BlameRun(cfg, s, schedule[1..]);
      case Some(t) =>
        StepKeepsInv(cfg, s, schedule[0]);
        BlameStep(cfg, s, schedule[0]);
        BlameRun(cfg, t, schedule[1..]);
    }
  }

  predicate AnyError(cfg: Config, errs: seq<Slot>)
    requires |errs| == cfg.N()
  {
    exists i | 0 <= i < cfg.N() :: errs[i] == NotStarted || cfg.jobs[i].fails
  }

  /** Nobody else tripping the signal, a phase that started untripped returns an error exactly when the signal is
      tripped on its return. */
  lemma ErrorIffStopped(cfg: Config, schedule: seq<Actor>)
    requires cfg.stoppable && Disciplined(cfg) && Closed(schedule)
    ensures Inv(cfg, Init(cfg, Stop(false, None)))
    ensures var s := Run(cfg, Init(cfg, Stop(false, None)), schedule);
            s.pc.Return? ==>
              && (s.stop.stopped <==> AnyError(cfg, s.errs))
              && (s.stop.stopped <==> s.stop.cause.Some?)
              && (s.stop.stopped <==> exists i: nat :: i < s.next && cfg.jobs[i].fails)
              && (s.stop.stopped ==> exists i: nat :: i < s.next && cfg.jobs[i].fails && s.stop.cause == Some(cfg.jobs[i].tag))
  {
    var stop := Stop(false, None);
    EveryInterleaving(cfg, stop, schedule);
    BlameRun(cfg, Init(cfg, stop), schedule);
  }

  /** A signal tripped before the launcher starts: nothing is launched and every job is reported as not started. */
  lemma TrippedLaunchesNothing(cfg: Config, stop: Stop, schedule: seq<Actor>)
    requires cfg.stoppable && stop.Sound() && stop.stopped
    ensures Inv(cfg, Init(cfg, stop))
    ensures var s := Run(cfg, Init(cfg, stop), schedule);
            s.launched == [] && s.stop == stop && (s.pc.Return? ==> s.errs == seq(cfg.N(), _ => NotStarted))
  {
    EveryInterleaving(cfg, stop, schedule);
    StopBeforeRelease(cfg, Init(cfg, stop), schedule);
  }

  /** The plain bounded loop visits every index exactly once and its results do not depend on the interleaving. */
  lemma PlainLoopIsScheduleIndependent(cfg: Config, stop: Stop, schedule: seq<Actor>)
    requires !cfg.stoppable && stop.Sound()
    ensures Inv(cfg, Init(cfg, stop))
    ensures var s := Run(cfg, Init(cfg, stop), schedule);
            s.pc.Return? ==>
              && s.launched == seq(cfg.N(), i => i)
              && s.errs == seq(cfg.N(), i requires 0 <= i < cfg.N() => Result(cfg.jobs[i].tag))
  {
    EveryInterleaving(cfg, stop, schedule);
  }

  // ----- progress -----

  function Weight(p: Phase): nat {
    match p
    case Queued => 9
    case Running => 8
    case EarlyTrip => 7
    case LateRunning => 6
    case Returned => 5
    case Wrote => 4
    case Tripping => 3
    case Releasing => 2
    case Released => 1
    case Done => 0
  }

  function Work(workers: seq<Phase>): nat {
    if workers == [] then 0 else Weight(workers[0]) + Work(workers[1..])
  }

  lemma {:induction false} WorkUpdate(workers: seq<Phase>, i: nat, p: Phase)
    requires i < |workers|
    ensures Work(workers[i := p]) == Work(workers) - Weight(workers[i]) + Weight(p)
  {
    if i == 0 {
      assert workers[0 := p][1..] == workers[1..];
    } else {
      assert workers[i := p][1..] == workers[1..][i - 1 := p];
      WorkUpdate(workers[1..], i - 1, p);
    }
  }

  function DispatcherWork(cfg: Config, pc: Pc): int {
    match pc
    case Acquire => cfg.N() + 6
    case Check => cfg.N() + 5
    case Spawn => cfg.N() + 4
    case Refund => cfg.N() + 3
    case Fill(j) => 2 + cfg.N() - j
    case Wait => 1
    case Return => 0
  }

  lemma WorkerAdvances(cfg: Config, s: State, i: nat)
    requires Inv(cfg, s) && WorkerStep(cfg, s, i).Some?
    ensures var t := WorkerStep(cfg, s, i).value;
            t.workers == s.workers[i := t.workers[i]] && Weight(t.workers[i]) < Weight(s.workers[i])
  {
  }

  /** Every internal step makes progress: workers first, then the dispatcher. So every interleaving that keeps giving
      turns to enabled actors ends. */
  lemma StepMakesProgress(cfg: Config, s: State, a: Actor)
    requires Inv(cfg, s) && Internal(a) && Step(cfg, s, a).Some?
    ensures var t := Step(cfg, s, a).value;
            || Work(t.workers) < Work(s.workers)
            || (Work(t.workers) == Work(s.workers) && 0 <= DispatcherWork(cfg, t.pc) < DispatcherWork(cfg, s.pc))
  {
    match a
    case Worker(i) =>
      WorkerAdvances(cfg, s, i);
      WorkUpdate(s.workers, i, Step(cfg, s, a).value.workers[i]);
    case _ =>
      if s.pc.Spawn? {
        WorkUpdate(s.workers, s.next, Running);
      }
  }

  lemma BusyWorkerIsEnabled(cfg: Config, s: State, i: nat)
    requires Inv(cfg, s) && i < s.next && !s.workers[i].Done?
    ensures Step(cfg, s, Worker(i)).Some?
  {
    if s.workers[i].Releasing? {
      assert i in Holders(s.workers);
    }
  }

  /** No reachable state is stuck before the launcher has returned. */
  lemma NoDeadlock(cfg: Config, s: State)
    requires Inv(cfg, s) && !s.pc.Return?
    ensures Step(cfg, s, Dispatcher).Some? || exists i: nat :: i < s.next && Step(cfg, s, Worker(i)).Some?
  {
    if s.pc.Acquire? && s.tokens == cfg.Slots() {
      var i :| i in Holders(s.workers);
      assert Step(cfg, s, Worker(i)).Some?;
    } else if s.pc.Wait? && Step(cfg, s, Dispatcher).None? {
      var i: nat :| i < s.next && !s.workers[i].Done?;
      BusyWorkerIsEnabled(cfg, s, i);
    }
  }
}
