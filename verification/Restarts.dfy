/** The restarts as jobs of the launcher: whoever trips the run-wide stop also returns an error, so errors and stop agree. */
module Restarts {
  import opened Common
  import opened Launcher
  import opened RunStops

  import Kafka
  import Maintenance
  import PodStore
  import Postgresql
  import Rollouts

  /** A restart that has ended, with everything its promise speaks about; `CalledOff` if the run's context had expired before
      the restart of a cluster began. */
  datatype Ended =
    | CalledOff
    | OfPostgresql(run: string, settings: Postgresql.Settings, result: Postgresql.Restart, store: PodStore.Store, log: seq<PodStore.Event>)
    | OfKafka(kafka: string, skipWait: bool, podSets: seq<string>, oldUids: set<nat>, history: Kafka.History,
              kafkaError: Option<Kafka.RestartError>)
    | OfWorkload(env: Rollouts.Env, cancelled: bool, patch: Rollouts.PatchAnswer, namespace: string, name: string, skipWait: bool,
                 turn: nat, error: Option<Rollouts.RestartError>, wait: Rollouts.Wait, passes: seq<Rollouts.Pass>)

  /** What the restart of its kind promises. */
  ghost predicate Promised(e: Ended) {
    match e
    case CalledOff => true
    case OfPostgresql(run, settings, result, store, log) => Postgresql.Outcome(run, settings, result, store, log)
    case OfKafka(kafka, skipWait, podSets, oldUids, history, error) =>
      if error.Some? && !error.value.Incomplete? then Kafka.GaveUpEarly(skipWait, history, error.value)
      else Kafka.Prepared(kafka, skipWait, history.head, podSets, oldUids) &&
           Kafka.RestartOutcome(skipWait, podSets, oldUids, history, error)
    case OfWorkload(env, cancelled, patch, namespace, name, skipWait, turn, error, wait, passes) =>
      Rollouts.RestartOutcome(env, cancelled, patch, namespace, name, skipWait, turn, error, wait, passes)
  }

  predicate Failed(e: Ended) {
    match e
    case CalledOff => true
    case OfPostgresql(_, _, result, _, _) => result.err.Some?
    case OfKafka(_, _, _, _, _, error) => error.Some?
    case OfWorkload(_, _, _, _, _, _, _, error, _, _) => error.Some?
  }

  predicate TrippedItself(e: Ended) {
    match e
    case CalledOff => false
    case OfPostgresql(_, _, _, _, log) => PodStore.Tripped in log
    case OfKafka(_, _, _, _, history, _) => Kafka.AnyTrip(history.Events())
    case OfWorkload(_, _, _, _, _, _, _, _, wait, _) => Rollouts.AnyTrip(wait.log)
  }

  /** The launcher's view of a restart: whether its call returns an error, and whether it trips the stop before that. */
  function AsJob(e: Ended, tag: nat): Job { Job(tag, Failed(e), TrippedItself(e)) }

  function Jobs(all: seq<Ended>): seq<Job> { seq(|all|, i requires 0 <= i < |all| => AsJob(all[i], i)) }

  /** One job of the PostgreSQL launcher. */
  method RestartPostgresql(api: PodStore.Api, w: PodStore.World, cancelled: bool, settings: Postgresql.Settings)
    returns (v: PodStore.World, failed: bool, ghost e: Ended)
    requires PodStore.Sound(w.store) && PodStore.ClaimsWithin(api.run, w.store, {})
    ensures Promised(e) && failed == Failed(e)
    ensures cancelled ==> failed && v == w
    ensures if cancelled then e == CalledOff else e.OfPostgresql? && e.run == api.run && e.settings == settings && e.store == v.store && PodStore.Happened(api, w, v, e.log)
  {
    if cancelled {
      return w, true, CalledOff;
    }
    var r;
    ghost var checks, events, t;
    v, r, checks, events, t := Postgresql.RestartCluster(api, w, settings);
    failed, e := r.err.Some?, OfPostgresql(api.run, settings, r, v.store, events);
  }

  /** One job of the Kafka launcher. */
  method RestartKafka(env: Kafka.Env, w: Kafka.World, cancelled: bool, kafka: string, skipWait: bool)
    returns (v: Kafka.World, failed: bool, ghost e: Ended)
    ensures Promised(e) && failed == Failed(e)
    ensures cancelled ==> failed && v == w
    ensures if cancelled then e == CalledOff else e.OfKafka? && e.kafka == kafka && e.skipWait == skipWait && v.log == w.log + e.history.Events()
  {
    if cancelled {
      return w, true, CalledOff;
    }
    var err;
    ghost var podSets, oldUids, h;
    v, err, podSets, oldUids, h := Kafka.RestartKafkaCluster(env, w, kafka, skipWait);
    failed, e := err.Some?, OfKafka(kafka, skipWait, podSets, oldUids, h, err);
  }

  method RestartWorkload(env: Rollouts.Env, cancelled: bool, patch: Rollouts.PatchAnswer, namespace: string,
                         name: string, skipWait: bool, turn: nat)
    returns (err: Option<Rollouts.RestartError>, ghost e: Ended)
    ensures cancelled <==> err == Some(Rollouts.NotRestarted)
    ensures e.OfWorkload? && Promised(e) && e.error == err
    ensures e == OfWorkload(env, cancelled, patch, namespace, name, skipWait, turn, err, e.wait, e.passes)
  {
    var t;
    ghost var passes;
    err, t, passes := Rollouts.RestartOne(env, cancelled, patch, namespace, name, skipWait, turn);
    e := OfWorkload(env, cancelled, patch, namespace, name, skipWait, turn, err, t, passes);
  }

  /** A restart that trips the stop itself fails. A PostgreSQL restart that fails has tripped it; a workload restart has
      done so exactly if its wait had an API error; a Kafka restart exactly if a patch failed or its wait had one. */
  lemma TrippingMeansFailing(e: Ended)
    requires Promised(e)
    ensures TrippedItself(e) ==> Failed(e)
    ensures e.OfPostgresql? ==> (TrippedItself(e) <==> Failed(e))
    ensures e.OfWorkload? ==>
              (TrippedItself(e) <==> e.error.Some? && e.error.value.NotReady? && e.error.value.wait.apiError.Some?)
    ensures e.OfKafka? ==>
              (TrippedItself(e) <==>
                 e.kafkaError.Some? && e.kafkaError.value.Incomplete? &&
                 (Kafka.Rejections(e.history.patches) != [] || e.kafkaError.value.wait.apiError.Some?))
  {
    match e
    case CalledOff =>
    case OfPostgresql(_, _, _, _, _) =>
    case OfKafka(kafka, skipWait, podSets, oldUids, history, error) =>
      if error.Some? && !error.value.Incomplete? {
        Kafka.GivingUpTripsNothing(skipWait, history, error.value);
      } else {
        Kafka.TripsExactly(kafka, skipWait, podSets, oldUids, history, error);
      }
    case OfWorkload(env, cancelled, patch, namespace, name, skipWait, turn, error, wait, passes) =>
      Rollouts.TripsExactly(env, cancelled, patch, namespace, name, skipWait, turn, error, wait, passes);
  }

  /** So any restarts, of whatever kinds, are jobs with the launcher's discipline. */
  lemma RestartsAreDisciplined(limit: int, all: seq<Ended>)
    requires forall e | e in all :: Promised(e)
    ensures Disciplined(Config(limit, Jobs(all), true))
  {
    forall i | 0 <= i < |all|
      ensures Jobs(all)[i].early ==> Jobs(all)[i].fails
    {
      TrippingMeansFailing(all[i]);
    }
  }

  /** In every interleaving of the launcher over such restarts, with a fresh stop that nobody else trips: on return the
      stop is tripped exactly if some launched restart failed, exactly if there is an error to report. */
  lemma PhaseAgrees(limit: int, all: seq<Ended>, schedule: seq<Actor>)
    requires (forall e | e in all :: Promised(e)) && Closed(schedule)
    ensures var cfg := Config(limit, Jobs(all), true);
            Inv(cfg, Init(cfg, Stop(false, None))) &&
            var s := Run(cfg, Init(cfg, Stop(false, None)), schedule);
            s.pc.Return? ==>
              && (s.stop.stopped <==> AnyError(cfg, s.errs))
              && (s.stop.stopped <==> exists i: nat :: i < s.next && i < |all| && Failed(all[i]))
  {
    var cfg := Config(limit, Jobs(all), true);
    RestartsAreDisciplined(limit, all);
    ErrorIffStopped(cfg, schedule);
    assert forall i: nat | i < |all| :: cfg.jobs[i].fails <==> Failed(all[i]);
  }

  /** The plan of one resource type: its planning errors, and how each planned restart ends if it is launched. */
  datatype Planned = Planned(errs: seq<nat>, restarts: seq<Ended>)

  function PlanOf(p: Planned): Maintenance.PhasePlan { Maintenance.PhasePlan(p.errs, Jobs(p.restarts)) }

  function PlansOf(all: seq<Planned>): seq<Maintenance.PhasePlan> {
    seq(|all|, i requires 0 <= i < |all| => PlanOf(all[i]))
  }

  ghost predicate AllPromised(all: seq<Planned>) { forall p, e | p in all && e in p.restarts :: Promised(e) }

  /** Some restart was launched and failed. */
  ghost predicate SomeRestartFailed(all: seq<Planned>, starts: seq<nat>) {
    exists p: nat, i: nat | p < |all| && p < |starts| && i < |all[p].restarts| :: i < starts[p] && Failed(all[p].restarts[i])
  }

  /** Some restart launched in the phases up to this one failed. */
  ghost predicate SomeFailedBy(all: seq<Planned>, starts: seq<nat>, upTo: nat) {
    exists p: nat, i: nat | p < |all| && p < |starts| && i < |all[p].restarts| ::
      p <= upTo && i < starts[p] && Failed(all[p].restarts[i])
  }

  lemma SameFailuresBy(all: seq<Planned>, starts: seq<nat>, upTo: nat)
    requires Maintenance.FailsBy(PlansOf(all), starts, upTo)
    ensures SomeFailedBy(all, starts, upTo)
  {
    var p: nat :| p < |all| && p < |starts| && p <= upTo && Maintenance.SomeFails(PlansOf(all)[p], starts[p]);
    var i: nat :| i < |all[p].restarts| && i < starts[p] && PlansOf(all)[p].jobs[i].fails;
    assert Failed(all[p].restarts[i]);
  }

  lemma NoPlanError(all: seq<Planned>)
    requires forall p | p in all :: p.errs == []
    ensures !Maintenance.AnyPlanError(PlansOf(all))
  {
    assert forall p: nat | p < |all| :: PlansOf(all)[p].errs == all[p].errs && all[p] in all;
  }

  lemma NoneLeftOut(all: seq<Planned>, starts: seq<nat>, cordonFailed: bool, expiry: nat)
    requires |starts| == |all| && Maintenance.NotLeftOut(PlansOf(all), starts, cordonFailed, expiry)
    ensures forall p: nat | p < |all| && starts[p] < |all[p].restarts| ::
              cordonFailed || expiry <= p || SomeFailedBy(all, starts, p)
  {
    forall p: nat | p < |all| && starts[p] < |all[p].restarts|
      ensures cordonFailed || expiry <= p || SomeFailedBy(all, starts, p)
    {
      assert |PlansOf(all)[p].jobs| == |all[p].restarts|;
      if Maintenance.FailsBy(PlansOf(all), starts, p) {
        SameFailuresBy(all, starts, p);
      }
    }
  }

  lemma PlansAreAlone(limit: int, all: seq<Planned>, picks: nat -> nat -> Actor)
    requires AllPromised(all) && forall p: nat, t: nat :: Internal(picks(p)(t))
    ensures Maintenance.AllAlone(limit, PlansOf(all), picks)
  {
    forall p: nat | p < |all|
      ensures Maintenance.Alone(limit, PlansOf(all)[p].jobs, picks(p))
    {
      RestartsAreDisciplined(limit, all[p].restarts);
    }
  }

  lemma SameFailures(all: seq<Planned>, starts: seq<nat>)
    ensures SomeRestartFailed(all, starts) <==> Maintenance.SomeStartedFails(PlansOf(all), starts)
  {
    assert forall p: nat, i: nat | p < |all| && i < |all[p].restarts| ::
        PlansOf(all)[p].jobs[i].fails <==> Failed(all[p].restarts[i]);
  }

  /** The whole run over such restarts, its signal fresh and tripped by nobody else: at the end the stop is tripped exactly if
      some launched restart failed. */
  method RunRestarts(limit: int, all: seq<Planned>, cordon: Option<bool>, expiry: nat, reportFails: bool,
                     picks: nat -> nat -> Actor, stop: RunStop)
    returns (errs: seq<Maintenance.Report>, starts: seq<nat>, log: seq<Maintenance.Event>)
    requires stop.Value() == Stop(false, None)
    requires AllPromised(all) && forall p: nat, t: nat :: Internal(picks(p)(t))
    modifies stop
    ensures |starts| == |all| && forall p: nat | p < |all| :: starts[p] <= |all[p].restarts|
    ensures stop.stopped <==> SomeRestartFailed(all, starts)
    ensures stop.stopped ==> errs != []
    // with a plan free of errors, only a failed cordon, the expiry of the context or a failed restart keeps a planned restart
    // from being launched
    ensures (forall p | p in all :: p.errs == []) ==>
              forall p: nat | p < |all| && starts[p] < |all[p].restarts| ::
                cordon == Some(true) || expiry <= p || SomeFailedBy(all, starts, p)
  {
    var plans := PlansOf(all);
    PlansAreAlone(limit, all, picks);
    errs, starts, log := Maintenance.RunMaintenance(limit, plans, cordon, expiry, reportFails, picks, stop);
    Maintenance.FailuresAreReported(plans, starts, errs);
    SameFailures(all, starts);
    if forall p | p in all :: p.errs == [] {
      NoPlanError(all);
      NoneLeftOut(all, starts, cordon == Some(true), expiry);
    }
    forall p: nat | p < |all|
      ensures starts[p] <= |all[p].restarts|
    {
      assert Maintenance.Accounted(p, plans[p], starts[p], errs);
    }
  }
}
