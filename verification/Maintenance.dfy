/** The sequence of a whole run: plan everything, cordon, then restart one resource type after the other. */
module Maintenance {
  import opened Common
  import opened Launcher
  import opened RunStops

  /** The plan of one resource type: its planning errors and what each planned restart will do. */
  datatype PhasePlan = PhasePlan(errs: seq<nat>, jobs: seq<Job>)

  /** One line of the joined error of a run; targets are named by phase and position. */
  datatype Report =
    | PlanningFailed
    | SelectionError(phase: nat, index: nat)
    | CordonFailed
    | Failed(phase: nat, pos: nat)
    | NotStartedTarget(phase: nat, pos: nat)
    | Interrupted(phase: nat)
    | ReportFailed

  /** A mutation of the cluster. */
  datatype Event = CordonNodes | Launch(phase: nat, pos: nat)

  predicate AboutPhase(r: Report, phase: nat) {
    match r
    case SelectionError(p, _) => p == phase
    case Failed(p, _) => p == phase
    case NotStartedTarget(p, _) => p == phase
    case Interrupted(p) => p == phase
    case _ => false
  }

  /** How often a report belongs in the result of one phase of which the first `started` jobs were launched, looking at
      the first `upTo` jobs. */
  function Expected(phase: nat, plan: PhasePlan, started: nat, upTo: nat, r: Report): nat
    requires upTo <= |plan.jobs|
  {
    match r
    case SelectionError(p, i) => if p == phase && i < |plan.errs| then 1 else 0
    case Failed(p, i) => if p == phase && i < upTo && i < started && plan.jobs[i].fails then 1 else 0
    case NotStartedTarget(p, i) => if p == phase && started <= i < upTo then 1 else 0
    case _ => 0
  }

  ghost predicate PhaseReports(phase: nat, plan: PhasePlan, started: nat, upTo: nat, errs: seq<Report>)
    requires upTo <= |plan.jobs|
  {
    && (forall r | r in errs :: AboutPhase(r, phase))
    && (forall r :: multiset(errs)[r] == Expected(phase, plan, started, upTo, r))
  }

  method SelectionErrors(phase: nat, plan: PhasePlan) returns (errs: seq<Report>)
    ensures PhaseReports(phase, plan, 0, 0, errs)
    ensures |errs| == |plan.errs|
  {
    errs := [];
    for i := 0 to |plan.errs|
      invariant |errs| == i
      invariant forall r | r in errs :: r.SelectionError? && r.phase == phase
      invariant forall r :: multiset(errs)[r] == if r.SelectionError? && r.phase == phase && r.index < i then 1 else 0
    {
      errs := errs + [SelectionError(phase, i)];
    }
  }

  predicate Trouble(plan: PhasePlan, started: nat, pos: nat) {
    pos < |plan.jobs| && (started <= pos || plan.jobs[pos].fails)
  }

  /** Nobody else uses the signal while the jobs run, and a job that trips it also returns an error. */
  ghost predicate Alone(limit: int, jobs: seq<Job>, pick: nat -> Actor) {
    && (forall t :: Internal(pick(t)))
    && Disciplined(Config(limit, jobs, true))
  }

  /** Appends one report per job that failed or was not started; the slots are those of a launcher that started the
      first `started` jobs. */
  method CollectJobErrors(phase: nat, plan: PhasePlan, slots: seq<Slot>, selection: seq<Report>, started: nat)
    returns (errs: seq<Report>)
    requires |slots| == |plan.jobs| && started <= |plan.jobs|
    requires forall i | 0 <= i < |slots| :: slots[i] == NotStarted <==> started <= i
    requires PhaseReports(phase, plan, 0, 0, selection)
    ensures PhaseReports(phase, plan, started, |plan.jobs|, errs)
    ensures errs == selection ==> started == |plan.jobs| && forall k | 0 <= k < |plan.jobs| :: !plan.jobs[k].fails
    ensures errs != selection ==> errs != [] && exists pos: nat :: Trouble(plan, started, pos)
  {
    errs := selection;
    ghost var culprit := 0;
    for i := 0 to |plan.jobs|
      invariant PhaseReports(phase, plan, started, i, errs)
      invariant |selection| <= |errs|
      invariant |errs| == |selection| ==> errs == selection && forall k | 0 <= k < i :: k < started && !plan.jobs[k].fails
      invariant |errs| > |selection| ==> Trouble(plan, started, culprit)
    {
      if slots[i] == NotStarted || plan.jobs[i].fails {
        culprit := i;
      }
      if slots[i] == NotStarted {
        errs := errs + [NotStartedTarget(phase, i)];
      } else if plan.jobs[i].fails {
        errs := errs + [Failed(phase, i)];
      }
    }
    assert errs == selection && plan.jobs != [] ==> !plan.jobs[|plan.jobs| - 1].fails;
  }

  /** The jobs that were launched, in launch order, are the first `started` ones. */
  predicate InOrder(launched: seq<nat>, started: nat) {
    |launched| == started && forall i | 0 <= i < started :: launched[i] == i
  }

  /** Restarts the targets of one plan: a plan with errors trips the signal before anything is launched. */
  method RestartPlanned(phase: nat, limit: int, plan: PhasePlan, stop: RunStop?, pick: nat -> Actor)
    returns (errs: seq<Report>, launched: seq<nat>, rs: RunStop, ghost started: nat)
    requires stop != null ==> stop.Value().Sound()
    modifies stop
    ensures InOrder(launched, started)
    ensures stop != null ==> rs == stop
    ensures stop == null ==> fresh(rs)
    ensures rs.Value().Sound()
    ensures started <= |plan.jobs|
    ensures PhaseReports(phase, plan, started, |plan.jobs|, errs)
    ensures plan.errs != [] || (stop != null && old(stop.stopped)) ==> started == 0
    ensures stop != null && old(stop.stopped) ==> rs.stopped
    ensures errs != [] ==> rs.stopped
    ensures errs == [] <==> plan.errs == [] && started == |plan.jobs| && forall i | 0 <= i < |plan.jobs| :: !plan.jobs[i].fails
    ensures Alone(limit, plan.jobs, pick) && (stop == null || old(stop.Value()) == Stop(false, None)) ==>
              && (rs.stopped <==> errs != [])
              && (rs.stopped <==> rs.cause.Some?)
              && (rs.stopped && plan.errs == [] ==> exists i: nat :: i < started && plan.jobs[i].fails)
  {
    var selection := SelectionErrors(phase, plan);
    rs := TripOnSelectionErrors(stop, plan.errs);
    launched, started := [], 0;
    if plan.jobs == [] {
      return selection, [], rs, 0;
    }
    ghost var before := rs.Value();
    var slots, notStarted;
    ghost var schedule;
    slots, notStarted, launched, schedule, rs := RunRolloutJobs(limit, plan.jobs, rs, pick);
    if Alone(limit, plan.jobs, pick) && before == Stop(false, None) {
      ErrorIffStopped(Config(limit, plan.jobs, true), schedule);
    }
    started := |plan.jobs| - notStarted;
    errs := CollectJobErrors(phase, plan, slots, selection, |launched|);
  }

  // ----- the whole run -----

  /** The run's context expires at an arbitrary moment: `expiry` is the number of the first read of ctx.Err() that sees
      it. */
  method NotStartedPhase(phase: nat, targets: nat, cancelled: bool) returns (errs: seq<Report>)
    ensures cancelled ==> errs == [Interrupted(phase)]
    ensures !cancelled ==> |errs| == targets
    ensures !cancelled ==> forall r :: multiset(errs)[r] == if r.NotStartedTarget? && r.phase == phase && r.pos < targets then 1 else 0
    ensures forall r | r in errs :: AboutPhase(r, phase) && (r.Interrupted? <==> cancelled)
  {
    if cancelled {
      return [Interrupted(phase)];
    }
    errs := [];
    for i := 0 to targets
      invariant |errs| == i
      invariant forall r | r in errs :: r.NotStartedTarget? && r.phase == phase
      invariant forall r :: multiset(errs)[r] == if r.NotStartedTarget? && r.phase == phase && r.pos < i then 1 else 0
    {
      errs := errs + [NotStartedTarget(phase, i)];
    }
  }

  /** Every target of the phase has exactly one fate: launched and successful (no report), failed (one report) or not
      started (one report) — unless the whole phase is reported as interrupted, and then nothing of it was launched. */
  ghost predicate Accounted(phase: nat, plan: PhasePlan, started: nat, errs: seq<Report>) {
    && started <= |plan.jobs|
    && (Interrupted(phase) in errs ==> started == 0)
    && (forall i: nat | i < |plan.jobs| ::
          && multiset(errs)[Failed(phase, i)] == (if i < started && plan.jobs[i].fails then 1 else 0)
          && (Interrupted(phase) !in errs ==> multiset(errs)[NotStartedTarget(phase, i)] == (if i < started then 0 else 1)))
  }

  /** Fates are mutually exclusive and exhaustive: conservation of the planned targets. */
  lemma ExactlyOneFate(phase: nat, plan: PhasePlan, started: nat, errs: seq<Report>, i: nat)
    requires Accounted(phase, plan, started, errs) && Interrupted(phase) !in errs && i < |plan.jobs|
    ensures multiset(errs)[Failed(phase, i)] + multiset(errs)[NotStartedTarget(phase, i)]
            + (if i < started && !plan.jobs[i].fails then 1 else 0) == 1
  {
  }

  predicate Before(r: Report, phase: nat) {
    match r
    case SelectionError(p, _) => p < phase
    case Failed(p, _) => p < phase
    case NotStartedTarget(p, _) => p < phase
    case Interrupted(p) => p < phase
    case _ => true
  }

  /** The report is about something that was planned. */
  predicate InPlan(phases: seq<PhasePlan>, r: Report) {
    match r
    case SelectionError(p, i) => p < |phases| && i < |phases[p].errs|
    case Failed(p, i) => p < |phases| && i < |phases[p].jobs|
    case NotStartedTarget(p, i) => p < |phases| && i < |phases[p].jobs|
    case Interrupted(p) => p < |phases|
    case _ => true
  }

  predicate AllInPlan(phases: seq<PhasePlan>, errs: seq<Report>) { forall r | r in errs :: InPlan(phases, r) }

  lemma ReportsInPlan(phases: seq<PhasePlan>, phase: nat, started: nat, errs: seq<Report>)
    requires phase < |phases| && PhaseReports(phase, phases[phase], started, |phases[phase].jobs|, errs)
    ensures AllInPlan(phases, errs)
  {
    forall r | r in errs
      ensures InPlan(phases, r)
    {
      assert multiset(errs)[r] == Expected(phase, phases[phase], started, |phases[phase].jobs|, r);
    }
  }

  lemma NotStartedInPlan(phases: seq<PhasePlan>, phase: nat, cancelled: bool, errs: seq<Report>)
    requires phase < |phases|
    requires cancelled ==> errs == [Interrupted(phase)]
    requires !cancelled ==> forall r :: multiset(errs)[r] == if r.NotStartedTarget? && r.phase == phase && r.pos < |phases[phase].jobs| then 1 else 0
    ensures AllInPlan(phases, errs)
  {
    forall r | r in errs
      ensures InPlan(phases, r)
    {
      assert r in multiset(errs);
    }
  }

  lemma AppendAccounted(phases: seq<PhasePlan>, q: nat, starts: seq<nat>, errs: seq<Report>, more: seq<Report>,
                        started: nat)
    requires |starts| == q < |phases|
    requires forall p: nat | p < q :: Accounted(p, phases[p], starts[p], errs)
    requires forall r | r in errs :: Before(r, q)
    requires forall r | r in more :: AboutPhase(r, q)
    requires Accounted(q, phases[q], started, more)
    ensures forall p: nat | p <= q :: Accounted(p, phases[p], (starts + [started])[p], errs + more)
    ensures forall r | r in errs + more :: Before(r, q + 1)
  {
    assert multiset(errs + more) == multiset(errs) + multiset(more);
    forall p: nat | p <= q
      ensures Accounted(p, phases[p], (starts + [started])[p], errs + more)
    {
      if p < q {
        assert Accounted(p, phases[p], starts[p], errs);
        assert Interrupted(p) !in more;
        forall i: nat ensures Failed(p, i) !in more && NotStartedTarget(p, i) !in more {
        }
      } else {
        assert Interrupted(q) !in errs;
        forall i: nat ensures Failed(q, i) !in errs && NotStartedTarget(q, i) !in errs {
          assert !Before(Failed(q, i), q) && !Before(NotStartedTarget(q, i), q);
        }
      }
    }
  }

  function LaunchesOf(phase: nat, started: nat): seq<Event> {
    seq(started, (i: nat) => Launch(phase, i))
  }

  /** Phase after phase, each launching its jobs in order. */
  function Launches(starts: seq<nat>): seq<Event> {
    if starts == [] then [] else Launches(starts[..|starts| - 1]) + LaunchesOf(|starts| - 1, starts[|starts| - 1])
  }

  predicate AllDone(plan: PhasePlan, started: nat) {
    started == |plan.jobs| && forall i | 0 <= i < |plan.jobs| :: !plan.jobs[i].fails
  }

  /** Exactly the phases whose turn comes after the run's context has expired are reported as interrupted. */
  ghost predicate InterruptedFrom(phases: nat, expiry: nat, errs: seq<Report>) {
    forall p: nat :: Interrupted(p) in errs <==> expiry <= p < phases
  }

  lemma InterruptedAppend(phases: nat, expiry: nat, errs: seq<Report>, more: seq<Report>)
    requires InterruptedFrom(phases, expiry, errs)
    requires (forall r | r in more :: AboutPhase(r, phases)) && (Interrupted(phases) in more <==> expiry <= phases)
    ensures InterruptedFrom(phases + 1, expiry, errs + more)
  {
    forall p: nat
      ensures Interrupted(p) in errs + more <==> expiry <= p < phases + 1
    {
      assert Interrupted(p) in more ==> p == phases;
    }
  }

  method PlanningFailedRun(phases: seq<PhasePlan>, expiry: nat) returns (errs: seq<Report>)
    ensures InterruptedFrom(|phases|, expiry, errs)
    ensures PlanningFailed in errs
    ensures forall p: nat | p < |phases| :: Accounted(p, phases[p], 0, errs)
    ensures AllInPlan(phases, errs)
    ensures forall r | r in errs :: !r.Failed? && !r.CordonFailed? && !r.ReportFailed?
  {
    errs := [PlanningFailed];
    ghost var starts: seq<nat> := [];
    for q := 0 to |phases|
      invariant |starts| == q && forall p | 0 <= p < q :: starts[p] == 0
      invariant PlanningFailed in errs && InterruptedFrom(q, expiry, errs)
      invariant forall p: nat | p < q :: Accounted(p, phases[p], starts[p], errs)
      invariant AllInPlan(phases, errs) && forall r | r in errs :: Before(r, q)
      invariant forall r | r in errs :: !r.Failed? && !r.CordonFailed? && !r.ReportFailed?
    {
      var more := NotStartedPhase(q, |phases[q].jobs|, q >= expiry);
      assert Accounted(q, phases[q], 0, more);
      NotStartedInPlan(phases, q, q >= expiry, more);
      AppendAccounted(phases, q, starts, errs, more, 0);
      InterruptedAppend(q, expiry, errs, more);
      errs, starts := errs + more, starts + [0];
    }
  }

  ghost predicate AllAlone(limit: int, phases: seq<PhasePlan>, picks: nat -> nat -> Actor) {
    forall p: nat | p < |phases| :: Alone(limit, phases[p].jobs, picks(p))
  }

  predicate AnyPlanError(phases: seq<PhasePlan>) { exists p | 0 <= p < |phases| :: phases[p].errs != [] }

  /** A phase is only entered while nothing has gone wrong: whatever was reported before it keeps it from launching. */
  ghost predicate NothingAfterFailure(starts: seq<nat>, errs: seq<Report>) {
    forall r, q: nat | r in errs && q < |starts| && Before(r, q) && !r.ReportFailed? :: starts[q] == 0
  }

  predicate SomeFailed(errs: seq<Report>) { exists r | r in errs :: r.Failed? }

  lemma AppendNothingAfterFailure(starts: seq<nat>, errs: seq<Report>, more: seq<Report>, started: nat)
    requires NothingAfterFailure(starts, errs)
    requires forall r | r in more :: AboutPhase(r, |starts|)
    requires errs != [] ==> started == 0
    ensures NothingAfterFailure(starts + [started], errs + more)
  {
    forall r, q: nat | r in errs + more && q < |starts| + 1 && Before(r, q) && !r.ReportFailed?
      ensures (starts + [started])[q] == 0
    {
      if r in errs && q < |starts| {
        assert starts[q] == 0;
      }
    }
  }

  lemma AppendLaunches(starts: seq<nat>, started: nat)
    ensures Launches(starts + [started]) == Launches(starts) + LaunchesOf(|starts|, started)
  {
    assert (starts + [started])[..|starts|] == starts;
  }

  lemma AppendSomeFailed(errs: seq<Report>, more: seq<Report>)
    ensures SomeFailed(errs + more) <==> SomeFailed(errs) || SomeFailed(more)
  {
    if r :| r in errs && r.Failed? {
      assert r in errs + more;
    }
    if r :| r in more && r.Failed? {
      assert r in errs + more;
    }
  }

  /** Notes each launch of a phase in the log of mutations. */
  method NoteLaunches(phase: nat, launched: seq<nat>, before: seq<Event>, ghost started: nat) returns (log: seq<Event>)
    requires InOrder(launched, started)
    ensures log == before + LaunchesOf(phase, started)
  {
    log := before;
    for i := 0 to |launched|
      invariant log == before + LaunchesOf(phase, i)
    {
      assert LaunchesOf(phase, i + 1) == LaunchesOf(phase, i) + [Launch(phase, i)];
      log := log + [Launch(phase, launched[i])];
    }
  }

  /** A launched target of the phase fails. */
  predicate SomeFails(plan: PhasePlan, started: nat) { exists i: nat | i < |plan.jobs| :: i < started && plan.jobs[i].fails }

  /** One pass of the phase loop; `before` reads of the context have been made, and the one numbered `expiry` is the first that
      sees it expired. */
  method RunPhase(q: nat, limit: int, ghost phases: seq<PhasePlan>, plan: PhasePlan, healthy: bool, expiry: nat, before: nat, pick: nat -> Actor,
                  stop: RunStop, log0: seq<Event>)
    returns (more: seq<Report>, started: nat, after: nat, log: seq<Event>)
    requires stop.Value().Sound() && q < |phases| && plan == phases[q] && plan.errs == []
    modifies stop
    ensures stop.Value().Sound()
    ensures log == log0 + LaunchesOf(q, started)
    ensures Accounted(q, plan, started, more)
    ensures AllInPlan(phases, more) && forall r | r in more :: AboutPhase(r, q)
    ensures !healthy ==> started == 0 && stop.Value() == old(stop.Value())
    ensures healthy && more == [] ==> AllDone(plan, started)
    ensures healthy && AllDone(plan, started) && Interrupted(q) !in more ==> more == []
    ensures !healthy && plan.jobs != [] ==> more != []
    ensures healthy && Alone(limit, plan.jobs, pick) && old(stop.Value()) == Stop(false, None) ==>
              && (more == [] ==> stop.Value() == Stop(false, None))
              && (stop.stopped <==> SomeFailed(more))
    ensures !healthy ==> !SomeFailed(more)
    // the context is read once, and once more to tell an interruption from an earlier failure
    ensures Interrupted(q) in more <==> before >= expiry
    ensures after == before + if healthy && before >= expiry then 2 else 1
    // a phase whose turn comes in time is launched completely, unless one of its targets fails or somebody else trips the stop
    ensures healthy && before < expiry && more != [] ==> stop.stopped
    ensures healthy && before < expiry && more != [] && Alone(limit, plan.jobs, pick) && old(stop.Value()) == Stop(false, None) ==>
              SomeFails(plan, started)
  {
    after := before;
    var expired := false;
    if healthy {
      expired, after := after >= expiry, after + 1;
    }
    if !healthy || expired {
      more := NotStartedPhase(q, |plan.jobs|, after >= expiry);
      assert LaunchesOf(q, 0) == [];
      NotStartedInPlan(phases, q, after >= expiry, more);
      return more, 0, after + 1, log0;
    }
    var rs, launched;
    ghost var first;
    more, launched, rs, first := RestartPlanned(q, limit, plan, stop, pick);
    started := |launched|;
    log := NoteLaunches(q, launched, log0, first);
    ReportsInPlan(phases, q, first, more);
    forall i: nat | i < |plan.jobs|
      ensures multiset(more)[Failed(q, i)] == (if i < started && plan.jobs[i].fails then 1 else 0)
      ensures multiset(more)[NotStartedTarget(q, i)] == (if i < started then 0 else 1)
    {
      assert multiset(more)[Failed(q, i)] == Expected(q, plan, started, |plan.jobs|, Failed(q, i));
      assert multiset(more)[NotStartedTarget(q, i)] == Expected(q, plan, started, |plan.jobs|, NotStartedTarget(q, i));
    }
    assert Interrupted(q) !in more by {
      assert multiset(more)[Interrupted(q)] == Expected(q, plan, started, |plan.jobs|, Interrupted(q));
    }
    if i: nat :| i < started && plan.jobs[i].fails {
      assert Failed(q, i) in multiset(more);
    }
  }

  /** What holds between two phases. */
  ghost predicate SoFar(phases: seq<PhasePlan>, starts: seq<nat>, errs: seq<Report>)
    requires |starts| <= |phases|
  {
    && (forall p: nat | p < |starts| :: Accounted(p, phases[p], starts[p], errs))
    && AllInPlan(phases, errs) && (forall r | r in errs :: Before(r, |starts|) && !r.ReportFailed?)
    && (errs == [] ==> forall p: nat | p < |starts| :: AllDone(phases[p], starts[p]))
    && NothingAfterFailure(starts, errs)
  }

  lemma SoFarStep(phases: seq<PhasePlan>, starts: seq<nat>, errs: seq<Report>, more: seq<Report>, started: nat)
    requires |starts| < |phases| && SoFar(phases, starts, errs)
    requires Accounted(|starts|, phases[|starts|], started, more)
    requires AllInPlan(phases, more) && forall r | r in more :: AboutPhase(r, |starts|)
    requires errs != [] ==> started == 0
    requires errs == more == [] ==> AllDone(phases[|starts|], started)
    ensures SoFar(phases, starts + [started], errs + more)
  {
    AppendAccounted(phases, |starts|, starts, errs, more, started);
    AppendNothingAfterFailure(starts, errs, more, started);
  }

  /** Every target of every phase succeeded and no phase was interrupted. */
  ghost predicate NoTrouble(phases: seq<PhasePlan>, starts: seq<nat>, errs: seq<Report>)
    requires |starts| == |phases|
  {
    forall p: nat | p < |phases| :: AllDone(phases[p], starts[p]) && Interrupted(p) !in errs
  }

  lemma NoTroubleBefore(phases: seq<PhasePlan>, starts: seq<nat>, errs: seq<Report>, q: nat, more: seq<Report>,
                        started: nat)
    requires |starts| == q < |phases| && NoTrouble(phases[..q + 1], starts + [started], errs + more)
    ensures NoTrouble(phases[..q], starts, errs) && AllDone(phases[q], started) && Interrupted(q) !in more
  {
    forall p: nat | p < q
      ensures AllDone(phases[p], starts[p]) && Interrupted(p) !in errs
    {
      assert phases[..q + 1][p] == phases[p] && (starts + [started])[p] == starts[p];
      assert Interrupted(p) !in errs + more;
    }
    assert phases[..q + 1][q] == phases[q] && Interrupted(q) !in errs + more;
  }

  /** Some launched target of the phases up to this one fails. */
  predicate FailsBy(phases: seq<PhasePlan>, starts: seq<nat>, upTo: nat) {
    exists p: nat | p < |phases| && p < |starts| && p <= upTo :: SomeFails(phases[p], starts[p])
  }

  lemma FailsByGrows(phases: seq<PhasePlan>, starts: seq<nat>, started: nat, p: nat, q: nat)
    requires FailsBy(phases, starts, p) && p <= q
    ensures FailsBy(phases, starts + [started], q)
  {
    var f: nat :| f < |phases| && f < |starts| && f <= p && SomeFails(phases[f], starts[f]);
    assert (starts + [started])[f] == starts[f];
  }

  /** A target is left out only after the cordon failed, after the context expired, or after a launched target of this phase or
      an earlier one failed. */
  ghost predicate NotLeftOut(phases: seq<PhasePlan>, starts: seq<nat>, cordonFailed: bool, expiry: nat) {
    forall p: nat | p < |phases| && p < |starts| && starts[p] < |phases[p].jobs| ::
      cordonFailed || expiry <= p || FailsBy(phases, starts, p)
  }

  /** Something was reported for one of these reasons, before this phase. */
  ghost predicate Excused(phases: seq<PhasePlan>, starts: seq<nat>, cordonFailed: bool, expiry: nat) {
    cordonFailed || expiry < |starts| || FailsBy(phases, starts, |starts|)
  }

  lemma NotLeftOutStep(phases: seq<PhasePlan>, starts: seq<nat>, cordonFailed: bool, expiry: nat, errs: seq<Report>, more: seq<Report>,
                       started: nat)
    requires |starts| < |phases| && NotLeftOut(phases, starts, cordonFailed, expiry)
    requires errs != [] ==> Excused(phases, starts, cordonFailed, expiry)
    requires errs == [] && more != [] ==> expiry <= |starts| || SomeFails(phases[|starts|], started)
    requires errs == more == [] ==> started == |phases[|starts|].jobs|
    ensures NotLeftOut(phases, starts + [started], cordonFailed, expiry)
    ensures errs + more != [] ==> Excused(phases, starts + [started], cordonFailed, expiry)
  {
    var q, longer := |starts|, starts + [started];
    if FailsBy(phases, starts, q) {
      FailsByGrows(phases, starts, started, q, q);
    }
    if SomeFails(phases[q], started) {
      assert longer[q] == started && SomeFails(phases[q], longer[q]);
    }
    forall p: nat | p < |phases| && p < |longer| && longer[p] < |phases[p].jobs|
      ensures cordonFailed || expiry <= p || FailsBy(phases, longer, p)
    {
      if p < q && FailsBy(phases, starts, p) {
        FailsByGrows(phases, starts, started, p, p);
      }
    }
    if FailsBy(phases, longer, q) {
      var f: nat :| f < |phases| && f < |longer| && f <= q && SomeFails(phases[f], longer[f]);
      assert FailsBy(phases, longer, |longer|);
    }
  }

  lemma StaysQuiet(phases: seq<PhasePlan>, starts: seq<nat>, errs: seq<Report>, more: seq<Report>, started: nat)
    requires |starts| < |phases| && (NoTrouble(phases[..|starts|], starts, errs) ==> errs == [])
    requires errs == [] && AllDone(phases[|starts|], started) && Interrupted(|starts|) !in more ==> more == []
    ensures NoTrouble(phases[..|starts| + 1], starts + [started], errs + more) ==> errs + more == []
  {
    if NoTrouble(phases[..|starts| + 1], starts + [started], errs + more) {
      NoTroubleBefore(phases, starts, errs, |starts|, more, started);
    }
  }

  method RunPhases(limit: int, phases: seq<PhasePlan>, earlier: seq<Report>, expiry: nat, picks: nat -> nat -> Actor,
                   stop: RunStop, log0: seq<Event>)
    returns (errs: seq<Report>, starts: seq<nat>, log: seq<Event>)
    requires stop.Value() == Stop(false, None)
    requires !AnyPlanError(phases) && forall r | r in earlier :: r == CordonFailed
    modifies stop
    ensures |starts| == |phases| && SoFar(phases, starts, errs) && forall r | r in earlier :: r in errs
    ensures PlanningFailed !in errs && (CordonFailed in errs ==> earlier != [])
    ensures log == log0 + Launches(starts)
    ensures earlier == [] && NoTrouble(phases, starts, errs) ==> errs == []
    ensures AllAlone(limit, phases, picks) ==>
              (stop.stopped <==> SomeFailed(errs)) && NotLeftOut(phases, starts, earlier != [], expiry)
    ensures InterruptedFrom(|phases|, expiry, errs)
  {
    errs, starts, log := earlier, [], log0;
    var ctxReads := 0;
    for q := 0 to |phases|
      invariant |starts| == q && SoFar(phases, starts, errs) && log == log0 + Launches(starts)
      invariant forall r | r in earlier :: r in errs
      invariant PlanningFailed !in errs && (CordonFailed in errs ==> earlier != [])
      invariant earlier == [] && NoTrouble(phases[..q], starts, errs) ==> errs == []
      invariant stop.Value().Sound()
      invariant AllAlone(limit, phases, picks) ==>
                  (errs == [] ==> stop.Value() == Stop(false, None)) && (stop.stopped <==> SomeFailed(errs))
      invariant AllAlone(limit, phases, picks) ==>
                  && NotLeftOut(phases, starts, earlier != [], expiry)
                  && (errs != [] ==> Excused(phases, starts, earlier != [], expiry))
      invariant InterruptedFrom(q, expiry, errs) && (ctxReads == q || (ctxReads >= expiry && q >= expiry))
    {
      var more, started;
      more, started, ctxReads, log := RunPhase(q, limit, phases, phases[q], errs == [], expiry, ctxReads, picks(q), stop, log);
      AppendLaunches(starts, started);
      Assoc(log0, Launches(starts), LaunchesOf(q, started));
      SoFarStep(phases, starts, errs, more, started);
      InterruptedAppend(q, expiry, errs, more);
      if AllAlone(limit, phases, picks) {
        NotLeftOutStep(phases, starts, earlier != [], expiry, errs, more, started);
      }
      AppendSomeFailed(errs, more);
      if earlier == [] {
        StaysQuiet(phases, starts, errs, more, started);
      }
      errs, starts := errs + more, starts + [started];
    }
  }

  lemma QuietMeansDone(phases: seq<PhasePlan>, starts: seq<nat>)
    requires |starts| == |phases| && SoFar(phases, starts, [])
    ensures NoTrouble(phases, starts, [])
  {
  }

  lemma {:induction false} LaunchesOfNone(starts: seq<nat>)
    requires forall p | 0 <= p < |starts| :: starts[p] == 0
    ensures Launches(starts) == []
  {
    if starts != [] {
      LaunchesOfNone(starts[..|starts| - 1]);
    }
  }

  /** Plans (given), cordons, restarts. The shared signal is fresh, as the program creates it. */
  method RunMaintenance(limit: int, phases: seq<PhasePlan>, cordon: Option<bool>, expiry: nat, reportFails: bool,
                        picks: nat -> nat -> Actor, stop: RunStop)
    returns (errs: seq<Report>, starts: seq<nat>, log: seq<Event>)
    requires stop.Value() == Stop(false, None)
    modifies stop
    ensures |starts| == |phases|
    ensures AllInPlan(phases, errs) && forall p: nat | p < |phases| :: Accounted(p, phases[p], starts[p], errs)
    ensures AnyPlanError(phases) ==> log == [] && errs != [] && forall p: nat | p < |phases| :: starts[p] == 0
    ensures log == (if cordon.Some? && !AnyPlanError(phases) then [CordonNodes] else []) + Launches(starts)
    ensures errs == [] <==>
              !AnyPlanError(phases) && cordon != Some(true) && NoTrouble(phases, starts, errs) && !reportFails
    ensures NothingAfterFailure(starts, errs)
    ensures PlanningFailed in errs <==> AnyPlanError(phases)
    ensures CordonFailed in errs <==> cordon == Some(true) && !AnyPlanError(phases)
    // the final report is only generated if nothing has failed
    ensures ReportFailed in errs ==> errs == [ReportFailed] && reportFails
    ensures AllAlone(limit, phases, picks) ==> (stop.stopped <==> SomeFailed(errs))
    // only a failed cordon, the expiry of the context or the failure of a launched target keeps a planned target from being launched
    ensures AllAlone(limit, phases, picks) && !AnyPlanError(phases) ==> NotLeftOut(phases, starts, cordon == Some(true), expiry)
    ensures InterruptedFrom(|phases|, expiry, errs)
  {
    log := [];
    if AnyPlanError(phases) {
      errs := PlanningFailedRun(phases, expiry);
      starts := seq(|phases|, _ => 0);
      LaunchesOfNone(starts);
      return;
    }
    errs := [];
    if cordon.Some? {
      log := log + [CordonNodes];
      if cordon.value {
        errs := [CordonFailed];
      }
    }
    errs, starts, log := RunPhases(limit, phases, errs, expiry, picks, stop, log);
    if errs == [] {
      QuietMeansDone(phases, starts);
      if reportFails {
        errs := [ReportFailed];
      }
    }
  }

  /** Some launched target failed. */
  ghost predicate SomeStartedFails(phases: seq<PhasePlan>, starts: seq<nat>) {
    exists p: nat, i: nat | p < |phases| && p < |starts| && i < |phases[p].jobs| :: i < starts[p] && phases[p].jobs[i].fails
  }

  /** A failure is reported exactly if some launched target failed. */
  lemma FailuresAreReported(phases: seq<PhasePlan>, starts: seq<nat>, errs: seq<Report>)
    requires |starts| == |phases| && AllInPlan(phases, errs)
    requires forall p: nat | p < |phases| :: Accounted(p, phases[p], starts[p], errs)
    ensures SomeFailed(errs) <==> SomeStartedFails(phases, starts)
  {
    if r :| r in errs && r.Failed? {
      assert r in multiset(errs) && InPlan(phases, r);
      assert Accounted(r.phase, phases[r.phase], starts[r.phase], errs);
      assert r.pos < starts[r.phase] && phases[r.phase].jobs[r.pos].fails;
    }
    if p: nat, i: nat :| p < |phases| && i < |phases[p].jobs| && i < starts[p] && phases[p].jobs[i].fails {
      assert Accounted(p, phases[p], starts[p], errs);
      assert Failed(p, i) in multiset(errs) && Failed(p, i) in errs;
    }
  }

  /** Without a planning error, a failed cordon, an expired context and a failing target, every planned target is launched. */
  lemma HealthyRunLaunchesAll(phases: seq<PhasePlan>, starts: seq<nat>, cordon: Option<bool>, expiry: nat, errs: seq<Report>)
    requires |starts| == |phases| && NotLeftOut(phases, starts, cordon == Some(true), expiry)
    requires forall p: nat | p < |phases| :: Accounted(p, phases[p], starts[p], errs)
    requires cordon != Some(true) && expiry >= |phases| && forall plan, job | plan in phases && job in plan.jobs :: !job.fails
    ensures forall p: nat | p < |phases| :: starts[p] == |phases[p].jobs|
  {
    forall p: nat | p < |phases|
      ensures starts[p] == |phases[p].jobs|
    {
      assert Accounted(p, phases[p], starts[p], errs);
      assert forall q: nat, i: nat | q < |phases| && i < |phases[q].jobs| :: phases[q].jobs[i] in phases[q].jobs && phases[q] in phases;
      assert !FailsBy(phases, starts, p);
    }
  }
}
