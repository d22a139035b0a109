/** Waiting for the rollouts of Deployments and StatefulSets after their restart patch. */
module Rollouts {
  import opened Common

  datatype ConditionType = Progressing | ReplicaFailure | OtherType

  datatype Truth = True | False | Unknown

  datatype Condition = Condition(what: ConditionType, status: Truth, reason: string)

  /** The rollout-relevant part of a Deployment or a StatefulSet.  The revisions belong to StatefulSets and the
      conditions to Deployments. */
  datatype Workload = Workload(
    generation: int, observed: int, wanted: Option<int>,
    updated: int, total: int, ready: int, available: int,
    conditions: seq<Condition>, currentRevision: string, updateRevision: string)
  {
    /** A missing replica count means one. */
    function Desired(): int { if wanted.Some? then wanted.value else 1 }

    /** The controller has seen both the object's generation and the one the patch returned. */
    predicate Observed(minGeneration: int) { generation <= observed && minGeneration <= observed }
  }

  datatype Kind = Deployment | StatefulSet

  datatype Reason = NotObserved | Updating | OldTerminating | Converging | Starting | BecomingAvailable | RevisionDiffers
                  | StatusFailed(error: ApiError)

  datatype Failure = DeadlineExceeded | Gone

  datatype RolloutStatus = Done | NotDone(reason: Reason) | Terminal(failure: Failure)

  predicate DeadlinePassed(c: Condition) {
    c.what == Progressing && c.status == False && c.reason == "ProgressDeadlineExceeded"
  }

  function FailsFast(conditions: seq<Condition>): (r: bool)
    ensures r <==> exists c | c in conditions :: DeadlinePassed(c)
  {
    if conditions == [] then false
    else
      assert forall c :: c in conditions <==> c == conditions[0] || c in conditions[1..];
      DeadlinePassed(conditions[0]) || FailsFast(conditions[1..])
  }

  /** What a reason says about the object. */
  predicate Unmet(w: Workload, minGeneration: int, reason: Reason) {
    match reason
    case NotObserved => !w.Observed(minGeneration)
    case Updating => w.updated != w.Desired()
    case OldTerminating => w.total != w.Desired()
    case Converging => w.total != w.Desired()
    case Starting => w.ready != w.Desired()
    case BecomingAvailable => w.available != w.Desired()
    case RevisionDiffers => w.currentRevision != w.updateRevision
    case StatusFailed(_) => false
  }

  /** The conditions of a finished rollout, in the order in which they are reported. */
  function Conditions(kind: Kind): seq<Reason> {
    match kind
    case Deployment => [NotObserved, Updating, OldTerminating, BecomingAvailable, Starting]
    case StatefulSet => [NotObserved, Updating, Converging, Starting, BecomingAvailable, RevisionDiffers]
  }

  /** The reason is the first condition that is not met. */
  predicate FirstUnmet(kind: Kind, w: Workload, minGeneration: int, reason: Reason) {
    exists i | 0 <= i < |Conditions(kind)| ::
      && Conditions(kind)[i] == reason && Unmet(w, minGeneration, reason)
      && forall j | 0 <= j < i :: !Unmet(w, minGeneration, Conditions(kind)[j])
  }

  /** The object of either kind is completely rolled out at the awaited generation. */
  predicate RolledOut(kind: Kind, w: Workload, minGeneration: int) {
    && w.observed >= w.generation && w.observed >= minGeneration
    && w.updated == w.total == w.ready == w.available == (if w.wanted.Some? then w.wanted.value else 1)
    && match kind
       case Deployment =>
         forall c | c in w.conditions :: c.what == Progressing && c.status == False ==> c.reason != "ProgressDeadlineExceeded"
       case StatefulSet => w.currentRevision == w.updateRevision
  }

  /** The rollout that is awaited, or a later one, has got stuck. */
  predicate Stuck(w: Workload, minGeneration: int) {
    && w.observed >= w.generation && w.observed >= minGeneration
    && exists c | c in w.conditions :: c.what == Progressing && c.status == False && c.reason == "ProgressDeadlineExceeded"
  }

  function DeploymentRolloutStatus(d: Workload, minGeneration: int): (r: RolloutStatus)
    ensures r.Done? <==> RolledOut(Deployment, d, minGeneration)
    ensures r.Terminal? <==> Stuck(d, minGeneration)
    ensures r.NotDone? ==> FirstUnmet(Deployment, d, minGeneration, r.reason)
  {
    var generation := if minGeneration > d.generation then minGeneration else d.generation;
    var all := Conditions(Deployment);
    if d.observed < generation then
      assert all[0] == NotObserved;
      NotDone(NotObserved)
    else if FailsFast(d.conditions) then Terminal(DeadlineExceeded)
    else if d.updated != d.Desired() then
      assert all[1] == Updating;
      NotDone(Updating)
    else if d.total != d.updated then
      assert all[2] == OldTerminating;
      NotDone(OldTerminating)
    else if d.available != d.Desired() then
      assert all[3] == BecomingAvailable;
      NotDone(BecomingAvailable)
    else if d.ready != d.Desired() then
      assert all[4] == Starting;
      NotDone(Starting)
    else Done
  }

  function StatefulSetRolloutStatus(s: Workload, minGeneration: int): (r: RolloutStatus)
    ensures r.Done? <==> RolledOut(StatefulSet, s, minGeneration)
    ensures !r.Terminal?
    ensures r.NotDone? ==> FirstUnmet(StatefulSet, s, minGeneration, r.reason)
  {
    var generation := if minGeneration > s.generation then minGeneration else s.generation;
    var all := Conditions(StatefulSet);
    if s.observed < generation then
      assert all[0] == NotObserved;
      NotDone(NotObserved)
    else if s.updated != s.Desired() then
      assert all[1] == Updating;
      NotDone(Updating)
    else if s.total != s.Desired() then
      assert all[2] == Converging;
      NotDone(Converging)
    else if s.ready != s.Desired() then
      assert all[3] == Starting;
      NotDone(Starting)
    else if s.available != s.Desired() then
      assert all[4] == BecomingAvailable;
      NotDone(BecomingAvailable)
    else if s.currentRevision != s.updateRevision then
      assert all[5] == RevisionDiffers;
      NotDone(RevisionDiffers)
    else Done
  }

  datatype Target = Target(namespace: string, name: string, minGeneration: int)

  function KeyOf(t: Target): string { t.namespace + "/" + t.name }

  /** The answer to one GET of a target. */
  datatype Answer = Object(workload: Workload) | Failed(error: ApiError)

  /** What the waiter makes of an answer.  An API error counts only while the wait has not expired. */
  datatype Seen = Ready | Waiting(reason: Reason) | Broken(failure: Failure) | ApiFailure(error: ApiError) | TooLate

  function Classify(kind: Kind, minGeneration: int, answer: Answer, expired: bool): (seen: Seen)
    ensures seen.Ready? <==> answer.Object? && RolledOut(kind, answer.workload, minGeneration)
    ensures seen.Waiting? ==> answer.Object? && FirstUnmet(kind, answer.workload, minGeneration, seen.reason)
    ensures seen.Broken? <==>
              || (answer.Failed? && !expired && answer.error.Status? && answer.error.code == 404)
              || (answer.Object? && kind.Deployment? && Stuck(answer.workload, minGeneration))
    ensures seen.ApiFailure? <==> answer.Failed? && !expired && !(answer.error.Status? && answer.error.code == 404)
    ensures seen.TooLate? <==> answer.Failed? && expired
  {
    match answer
    case Failed(e) => if expired then TooLate else if IsNotFound(e) then Broken(Gone) else ApiFailure(e)
    case Object(w) =>
      match if kind.Deployment? then DeploymentRolloutStatus(w, minGeneration) else StatefulSetRolloutStatus(w, minGeneration)
      case Done => Ready
      case NotDone(reason) => Waiting(reason)
      case Terminal(failure) => Broken(failure)
  }

  /** A target is read at some turn. */
  datatype Event =
    | Checked(at: nat, key: string, target: Target, answer: Answer, seen: Seen)
    | Tripped(key: string, error: ApiError)

  /** The variables of the wait.  `turn` counts the steps of time: the context is expired from turn `deadline` on. */
  datatype Wait = Wait(
    turn: nat, pending: map<string, Target>, reasons: map<string, Reason>,
    failures: seq<(string, Failure)>, apiError: Option<(string, ApiError)>, log: seq<Event>)

  /** `answers` and `deadline` are arbitrary: what each GET returns, and when the bounded context expires. */
  datatype Env = Env(kind: Kind, answers: nat -> Answer, deadline: nat)

  // ----- what a log of checks says -----

  function Last(log: seq<Event>): Event
    requires log != []
  {
    log[|log| - 1]
  }

  function Front(log: seq<Event>): seq<Event>
    requires log != []
  {
    log[..|log| - 1]
  }

  predicate Breaks(e: Event, key: string) { e.Checked? && e.key == key && e.seen.Broken? }

  predicate Fails(e: Event) { e.Checked? && e.seen.ApiFailure? }

  predicate EverBroken(log: seq<Event>, key: string) { exists i | 0 <= i < |log| :: Breaks(log[i], key) }

  /** The terminal failures, in the order they were seen. */
  function Terminals(log: seq<Event>): seq<(string, Failure)> {
    if log == [] then []
    else Terminals(Front(log)) +
         if Last(log).Checked? && Last(log).seen.Broken? then [(Last(log).key, Last(log).seen.failure)] else []
  }

  /** The first API error seen before expiry. */
  function FirstError(log: seq<Event>): Option<(string, ApiError)> {
    if log == [] then None
    else if FirstError(Front(log)).Some? then FirstError(Front(log))
    else if Fails(Last(log)) then Some((Last(log).key, Last(log).seen.error))
    else None
  }

  /** Why a target is not ready, as far as known: its latest check that says something, nothing if that said ready. */
  function LatestReason(log: seq<Event>, key: string): Option<Reason> {
    if log == [] then None
    else if Last(log).Tripped? || Last(log).key != key || Last(log).seen.TooLate? then LatestReason(Front(log), key)
    else match Last(log).seen
      case Waiting(reason) => Some(reason)
      case ApiFailure(error) => Some(StatusFailed(error))
      case _ => None
  }

  predicate FirstFailsAt(log: seq<Event>, i: nat)
    requires i < |log|
  {
    Fails(log[i]) && forall j | 0 <= j < i :: !Fails(log[j])
  }

  /** The stop is tripped with the first API error, at once, and never again. */
  predicate TripsAtFirstError(log: seq<Event>) {
    forall i | 0 <= i < |log| && FirstFailsAt(log, i) ::
      i + 1 < |log| && log[i + 1] == Tripped(log[i].key, log[i].seen.error)
  }

  predicate TripsOnlyThen(log: seq<Event>) {
    forall i | 0 <= i < |log| && log[i].Tripped? :: 0 < i && FirstFailsAt(log, i - 1)
  }

  /** A target with a terminal failure is never polled again. */
  predicate NoneAfterBroken(log: seq<Event>) {
    forall i, j | 0 <= i < j < |log| && log[i].Checked? && log[i].seen.Broken? && log[j].Checked? :: log[j].key != log[i].key
  }

  function Keyed(targets: seq<Target>): (m: map<string, Target>)
    ensures forall k | k in m :: KeyOf(m[k]) == k && m[k] in targets
    ensures forall t | t in targets :: KeyOf(t) in m
  {
    if targets == [] then map[] else Keyed(targets[..|targets| - 1])[KeyOf(targets[|targets| - 1]) := targets[|targets| - 1]]
  }

  ghost predicate Genuine(env: Env, all: map<string, Target>, e: Event) {
    e.Checked? ==>
      && e.key in all && e.target == all[e.key]
      && e.answer == env.answers(e.at)
      && e.seen == Classify(env.kind, e.target.minGeneration, e.answer, e.at + 1 >= env.deadline)
  }

  /** Every variable of the wait is what the log says. */
  ghost predicate Recorded(all: map<string, Target>, s: Wait, log: seq<Event>) {
    && (forall k :: k in s.pending <==> k in all && !EverBroken(log, k))
    && (forall k | k in s.pending :: s.pending[k] == all[k])
    && (forall k | k in s.pending :: LatestReason(log, k) == if k in s.reasons then Some(s.reasons[k]) else None)
    && s.failures == Terminals(log)
    && s.apiError == FirstError(log)
  }

  ghost predicate Disciplined(env: Env, all: map<string, Target>, log: seq<Event>) {
    && TripsAtFirstError(log) && TripsOnlyThen(log) && NoneAfterBroken(log)
    && (forall e | e in log :: Genuine(env, all, e))
  }

  ghost predicate Consistent(env: Env, all: map<string, Target>, s: Wait) {
    Recorded(all, s, s.log) && Disciplined(env, all, s.log)
  }

  lemma SnocFacts(log: seq<Event>, e: Event, key: string)
    ensures Front(log + [e]) == log && Last(log + [e]) == e
    ensures EverBroken(log + [e], key) <==> EverBroken(log, key) || Breaks(e, key)
  {
    assert Front(log + [e]) == log;
    if EverBroken(log, key) {
      var i :| 0 <= i < |log| && Breaks(log[i], key);
      assert Breaks((log + [e])[i], key);
    }
    if Breaks(e, key) {
      assert Breaks((log + [e])[|log|], key);
    }
  }

  /** The events of one check: an API error that is the first one is followed by its trip. */
  function EventsOf(log: seq<Event>, e: Event): seq<Event>
    requires e.Checked?
  {
    if Fails(e) && FirstError(log).None? then [e, Tripped(e.key, e.seen.error)] else [e]
  }

  predicate NoApiError(log: seq<Event>) { forall i | 0 <= i < |log| :: !Fails(log[i]) }

  lemma {:induction false} FirstErrorFinds(log: seq<Event>)
    ensures FirstError(log).None? <==> NoApiError(log)
  {
    if log != [] {
      FirstErrorFinds(Front(log));
      assert forall i | 0 <= i < |log| - 1 :: log[i] == Front(log)[i];
    }
  }

  lemma CheckKeepsDiscipline(env: Env, all: map<string, Target>, log: seq<Event>, e: Event)
    requires Disciplined(env, all, log) && Genuine(env, all, e) && e.Checked? && !EverBroken(log, e.key)
    ensures Disciplined(env, all, log + EventsOf(log, e))
  {
    var longer := log + EventsOf(log, e);
    assert forall i | 0 <= i < |log| :: longer[i] == log[i];
    assert longer[|log|] == e;
    assert forall i | |log| < i < |longer| :: longer[i].Tripped? && i == |log| + 1;
    FirstErrorFinds(log);
    assert forall i | 0 <= i < |log| :: FirstFailsAt(longer, i) <==> FirstFailsAt(log, i);
    assert FirstFailsAt(longer, |log|) <==> Fails(e) && FirstError(log).None?;
    assert forall i | 0 <= i < |log| && log[i].Checked? && log[i].seen.Broken? :: Breaks(log[i], log[i].key);
  }

  /** What one check changes in what the log says. */
  lemma CheckChanges(log: seq<Event>, e: Event, key: string)
    requires e.Checked?
    ensures var longer := log + EventsOf(log, e);
            && (EverBroken(longer, key) <==> EverBroken(log, key) || Breaks(e, key))
            && Terminals(longer) == Terminals(log) + (if e.seen.Broken? then [(e.key, e.seen.failure)] else [])
            && FirstError(longer) == (if FirstError(log).None? && Fails(e) then Some((e.key, e.seen.error)) else FirstError(log))
            && LatestReason(longer, key) == (if e.key != key || e.seen.TooLate? then LatestReason(log, key)
                                             else match e.seen
                                               case Waiting(reason) => Some(reason)
                                               case ApiFailure(error) => Some(StatusFailed(error))
                                               case _ => None)
  {
    SnocFacts(log, e, key);
    if Fails(e) && FirstError(log).None? {
      var trip := Tripped(e.key, e.seen.error);
      SnocFacts(log + [e], trip, key);
      assert log + EventsOf(log, e) == log + [e] + [trip];
    }
  }

  method ExpiredNow(env: Env, ghost all: map<string, Target>, s: Wait) returns (t: Wait, expired: bool)
    ensures t == s.(turn := s.turn + 1)
    ensures Consistent(env, all, s) ==> Consistent(env, all, t)
    ensures expired <==> s.turn >= env.deadline
  {
    t, expired := s.(turn := s.turn + 1), s.turn >= env.deadline;
  }

  /** The bookkeeping for one answer. */
  ghost predicate Digested(s: Wait, e: Event, t: Wait)
    requires e.Checked?
  {
    && t.turn == s.turn && t.log == s.log + EventsOf(s.log, e)
    && t.pending == (if e.seen.Broken? then s.pending - {e.key} else s.pending)
    && t.failures == s.failures + (if e.seen.Broken? then [(e.key, e.seen.failure)] else [])
    && t.apiError == (if s.apiError.None? && Fails(e) then Some((e.key, e.seen.error)) else s.apiError)
    && t.reasons == match e.seen
       case Waiting(reason) => s.reasons[e.key := reason]
       case ApiFailure(error) => s.reasons[e.key := StatusFailed(error)]
       case TooLate => s.reasons
       case _ => s.reasons - {e.key}
  }

  lemma DigestKeepsRecord(all: map<string, Target>, s: Wait, e: Event, t: Wait)
    requires Recorded(all, s, s.log) && e.Checked? && e.key in s.pending && Digested(s, e, t)
    ensures Recorded(all, t, t.log)
  {
    CheckChanges(s.log, e, e.key);
    forall k
      ensures k in t.pending <==> k in all && !EverBroken(t.log, k)
      ensures k in t.pending ==> LatestReason(t.log, k) == if k in t.reasons then Some(t.reasons[k]) else None
    {
      CheckChanges(s.log, e, k);
    }
  }

  method Digest(s: Wait, e: Event) returns (t: Wait, ready: bool)
    requires e.Checked? && e.key in s.pending && s.apiError == FirstError(s.log)
    ensures Digested(s, e, t)
    ensures ready <==> e.seen.Ready? || e.seen.Broken?
  {
    var key := e.key;
    t := s.(log := s.log + [e]);
    ready := false;
    match e.seen {
      case ApiFailure(error) =>
        if t.apiError.None? {
          t := t.(apiError := Some((key, error)), log := t.log + [Tripped(key, error)]);
        }
        t := t.(reasons := t.reasons[key := StatusFailed(error)]);
      case TooLate =>
      case Broken(failure) =>
        t := t.(failures := t.failures + [(key, failure)], pending := t.pending - {key}, reasons := t.reasons - {key});
        ready := true;
      case Ready =>
        t := t.(reasons := t.reasons - {key});
        ready := true;
      case Waiting(reason) =>
        t := t.(reasons := t.reasons[key := reason]);
    }
  }

  /** When a check is over: a failed read is followed by a look at the context. */
  function Answered(e: Event): nat
    requires e.Checked?
  {
    e.at + if e.answer.Failed? then 2 else 1
  }

  /** Re-check one remaining target. */
  method CheckOne(env: Env, ghost all: map<string, Target>, s: Wait, key: string)
    returns (t: Wait, e: Event, ready: bool)
    requires Consistent(env, all, s) && key in s.pending
    ensures Consistent(env, all, t)
    ensures e.Checked? && e.at == s.turn && e.key == key && t.log == s.log + EventsOf(s.log, e) && t.turn == Answered(e)
    ensures ready <==> e.seen.Ready? || e.seen.Broken?
    ensures t.pending == if e.seen.Broken? then s.pending - {key} else s.pending
  {
    var target := s.pending[key];
    var answer := env.answers(s.turn);
    t := s.(turn := s.turn + 1);
    var expired := false;
    if answer.Failed? {
      t, expired := ExpiredNow(env, all, t);
    }
    e := Checked(s.turn, key, target, answer, Classify(env.kind, target.minGeneration, answer, expired));
    ghost var asked := t;
    t, ready := Digest(t, e);
    DigestKeepsRecord(all, asked, e, t);
    CheckKeepsDiscipline(env, all, s.log, e);
  }

  // ----- one full pass -----

  predicate Good(e: Event) { e.Checked? ==> e.seen.Ready? || e.seen.Broken? }

  predicate CheckedSince(log: seq<Event>, from: nat, key: string) {
    exists i | from <= i < |log| :: log[i].Checked? && log[i].key == key
  }

  predicate OncePerPass(log: seq<Event>, from: nat) {
    forall i, j | from <= i < j < |log| && log[i].Checked? && log[j].Checked? :: log[i].key != log[j].key
  }

  predicate AllGood(log: seq<Event>, from: nat) {
    forall i | from <= i < |log| :: Good(log[i])
  }

  ghost predicate PassSoFar(log: seq<Event>, from: nat, keys: seq<string>, ready: bool) {
    && from <= |log| && (forall k :: k in keys <==> CheckedSince(log, from, k))
    && OncePerPass(log, from) && (ready <==> AllGood(log, from))
  }

  /** Since `from`, exactly these targets were checked, each once, and each was ready or terminally broken. */
  ghost predicate PassDone(keys: set<string>, log: seq<Event>, from: nat) {
    && from <= |log| && (forall k :: k in keys <==> CheckedSince(log, from, k))
    && OncePerPass(log, from) && AllGood(log, from)
  }

  lemma PassSnoc(log: seq<Event>, from: nat, keys: seq<string>, ready: bool, e: Event)
    requires PassSoFar(log, from, keys, ready) && e.Checked? && e.key !in keys
    ensures PassSoFar(log + EventsOf(log, e), from, keys + [e.key], ready && Good(e))
  {
    var longer := log + EventsOf(log, e);
    assert longer[|log|] == e;
    assert forall i | 0 <= i < |log| :: longer[i] == log[i];
    assert forall i | |log| < i < |longer| :: longer[i].Tripped?;
    forall k
      ensures k in keys + [e.key] <==> CheckedSince(longer, from, k)
    {
      if CheckedSince(log, from, k) {
        var i :| from <= i < |log| && log[i].Checked? && log[i].key == k;
        assert longer[i].Checked? && longer[i].key == k;
      }
      assert k == e.key ==> CheckedSince(longer, from, k);
    }
    forall i, j | from <= i < j < |longer| && longer[i].Checked? && longer[j].Checked?
      ensures longer[i].key != longer[j].key
    {
      assert i < |log|;
      assert CheckedSince(log, from, log[i].key);
    }
  }

  method KeysOf(m: map<string, Target>) returns (keys: seq<string>)
    ensures forall k :: k in keys <==> k in m
    ensures forall i, j | 0 <= i < j < |keys| :: keys[i] != keys[j]
  {
    keys := [];
    var rest := m.Keys;
    while rest != {}
      invariant forall k :: k in keys <==> k in m && k !in rest
      invariant forall k | k in rest :: k in m
      invariant forall i, j | 0 <= i < j < |keys| :: keys[i] != keys[j]
    {
      var k :| k in rest;
      keys, rest := keys + [k], rest - {k};
    }
  }

  /** The time after these checks of a pass that begins at `begin`. */
  function ClockAfter(begin: nat, events: seq<Event>): nat {
    if events == [] then begin
    else if Last(events).Checked? then Answered(Last(events))
    else ClockAfter(begin, Front(events))
  }

  /** Each check of the pass follows right after a look at the context, which had not expired, and the first of these looks
      begins the pass. */
  predicate OnTime(env: Env, begin: nat, events: seq<Event>) {
    events == [] ||
    var now := ClockAfter(begin, Front(events));
    OnTime(env, begin, Front(events)) && (Last(events).Checked? ==> Last(events).at == now + 1 && now < env.deadline)
  }

  lemma OnTimeSnoc(env: Env, begin: nat, events: seq<Event>, e: Event)
    requires OnTime(env, begin, events) && (e.Checked? ==> e.at == ClockAfter(begin, events) + 1 <= env.deadline)
    ensures OnTime(env, begin, events + [e])
    ensures ClockAfter(begin, events + [e]) == if e.Checked? then Answered(e) else ClockAfter(begin, events)
  {
    assert Front(events + [e]) == events && Last(events + [e]) == e;
  }

  lemma OnTimeNext(env: Env, begin: nat, events: seq<Event>, log: seq<Event>, e: Event)
    requires OnTime(env, begin, events) && e.Checked? && e.at == ClockAfter(begin, events) + 1 <= env.deadline
    ensures OnTime(env, begin, events + EventsOf(log, e)) && ClockAfter(begin, events + EventsOf(log, e)) == Answered(e)
  {
    OnTimeSnoc(env, begin, events, e);
    if Fails(e) && FirstError(log).None? {
      var trip := Tripped(e.key, e.seen.error);
      OnTimeSnoc(env, begin, events + [e], trip);
      assert EventsOf(log, e) == [e] + [trip];
      Assoc(events, [e], [trip]);
    }
  }

  lemma DropBoth<T>(a: seq<T>, from: nat, b: seq<T>)
    requires from <= |a|
    ensures (a + b)[from..] == a[from..] + b
  {
  }

  /** The pass that began at `begin`, and in the log at `from`, has got this far. */
  ghost predicate Underway(env: Env, begin: nat, from: nat, log: seq<Event>, now: int, keys: seq<string>, ready: bool) {
    PassSoFar(log, from, keys, ready) && OnTime(env, begin, log[from..]) && now == ClockAfter(begin, log[from..])
  }

  lemma PassGoesOn(env: Env, begin: nat, from: nat, log: seq<Event>, keys: seq<string>, ready: bool, e: Event)
    requires e.Checked? && Underway(env, begin, from, log, e.at - 1, keys, ready) && e.key !in keys && e.at <= env.deadline
    ensures Underway(env, begin, from, log + EventsOf(log, e), Answered(e), keys + [e.key], ready && Good(e))
  {
    PassSnoc(log, from, keys, ready, e);
    OnTimeNext(env, begin, log[from..], log, e);
    DropBoth(log, from, EventsOf(log, e));
  }

  method PassStep(env: Env, ghost all: map<string, Target>, s: Wait, key: string,
                  ghost begin: nat, ghost from: nat, ghost keys: seq<string>, ghost allGood: bool)
    returns (t: Wait, ready: bool)
    requires Consistent(env, all, s) && key in s.pending && key !in keys && s.turn <= env.deadline
    requires Underway(env, begin, from, s.log, s.turn - 1, keys, allGood)
    ensures Consistent(env, all, t) && s.log <= t.log && s.turn < t.turn
    ensures Underway(env, begin, from, t.log, t.turn, keys + [key], allGood && ready)
    ensures forall k | k in s.pending && k != key :: k in t.pending
  {
    var e;
    t, e, ready := CheckOne(env, all, s, key);
    PassGoesOn(env, begin, from, s.log, keys, allGood, e);
  }

  /** A pass over the remaining targets: when it began, where in the log, and when the context was read after it. */
  datatype Pass = Pass(begin: nat, from: nat, read: nat)

  /** The targets that had not failed terminally at this point of the log. */
  function RemainingAt(all: map<string, Target>, log: seq<Event>, from: nat): set<string>
    requires from <= |log|
  {
    set k | k in all && !EverBroken(log[..from], k)
  }

  /** The last part of the log is this pass: without delay, remaining targets are checked, each once; all of them, unless the
      context expires before. */
  ghost predicate Passes(env: Env, all: map<string, Target>, log: seq<Event>, p: Pass) {
    && p.from <= |log|
    && var remaining, over := RemainingAt(all, log, p.from), ClockAfter(p.begin, log[p.from..]);
       && OnTime(env, p.begin, log[p.from..]) && OncePerPass(log, p.from)
       && (forall k | CheckedSince(log, p.from, k) :: k in remaining)
       && if forall k | k in remaining :: CheckedSince(log, p.from, k) then p.read == over
          else over >= env.deadline && p.read == over + 1
  }

  /** The pass found every remaining target ready or broken, and the context had not expired after it. */
  ghost predicate Concludes(env: Env, all: map<string, Target>, log: seq<Event>, p: Pass)
    requires p.from <= |log|
  {
    p.read < env.deadline && PassDone(RemainingAt(all, log, p.from), log, p.from)
  }

  lemma TakeSnoc<T>(s: seq<T>, i: nat)
    requires i < |s|
    ensures s[..i + 1] == s[..i] + [s[i]]
    ensures s[..|s|] == s
  {
  }

  lemma PassIs(env: Env, all: map<string, Target>, log: seq<Event>, p: Pass, order: seq<string>, i: nat, ready: bool)
    requires p.from <= |log| && i <= |order|
    requires Underway(env, p.begin, p.from, log, ClockAfter(p.begin, log[p.from..]), order[..i], ready)
    requires forall k :: k in order <==> k in RemainingAt(all, log, p.from)
    requires forall j, k | 0 <= j < k < |order| :: order[j] != order[k]
    requires var over := ClockAfter(p.begin, log[p.from..]);
             if i == |order| then p.read == over else over >= env.deadline && p.read == over + 1
    ensures Passes(env, all, log, p)
    ensures Concludes(env, all, log, p) <==> p.read < env.deadline && ready
  {
    assert order[..|order|] == order;
    if i < |order| {
      assert order[i] in order && order[i] !in order[..i];
      assert !CheckedSince(log, p.from, order[i]);
    }
  }

  /** One full pass. */
  method RunPass(env: Env, ghost all: map<string, Target>, s: Wait) returns (t: Wait, notReady: seq<string>)
    requires Consistent(env, all, s)
    ensures Consistent(env, all, t) && s.turn <= t.turn && s.log <= t.log
    ensures Passes(env, all, t.log, Pass(s.turn, |s.log|, t.turn))
    ensures t.turn < env.deadline ==> (notReady == [] <==> Concludes(env, all, t.log, Pass(s.turn, |s.log|, t.turn)))
  {
    t, notReady := s, [];
    var keys := KeysOf(s.pending);
    var i := 0;
    assert t.log[|s.log|..] == [];
    while i < |keys|
      invariant 0 <= i <= |keys|
      invariant Consistent(env, all, t) && s.turn <= t.turn && s.log <= t.log
      invariant forall j | i <= j < |keys| :: keys[j] in t.pending
      invariant Underway(env, s.turn, |s.log|, t.log, t.turn, keys[..i], notReady == [])
    {
      var expired;
      t, expired := ExpiredNow(env, all, t);
      if expired {
        break;
      }
      var ready;
      t, ready := PassStep(env, all, t, keys[i], s.turn, |s.log|, keys[..i], notReady == []);
      TakeSnoc(keys, i);
      if !ready {
        notReady := notReady + [keys[i]];
      }
      i := i + 1;
    }
    assert t.log[..|s.log|] == s.log;
    PassIs(env, all, t.log, Pass(s.turn, |s.log|, t.turn), keys, i, notReady == []);
  }

  // ----- the wait -----

  datatype Unready = Unready(pending: map<string, Target>, reasons: map<string, Reason>)

  datatype WaitError = WaitError(failures: seq<(string, Failure)>, interrupted: Option<Unready>, apiError: Option<(string, ApiError)>)
  {
    predicate Nil() { failures == [] && interrupted.None? && apiError.None? }
  }

  /** A wait that began at `turn` is these passes, each begun right after a tick at which the context had not expired, and all
      but the last inconclusive. */
  ghost predicate AllPasses(env: Env, all: map<string, Target>, turn: nat, passes: seq<Pass>, log: seq<Event>) {
    if passes == [] then log == []
    else
      var earlier, p := passes[..|passes| - 1], passes[|passes| - 1];
      && Passes(env, all, log, p)
      && AllPasses(env, all, turn, earlier, log[..p.from])
      && if earlier == [] then p.begin == turn
         else
           var before := earlier[|earlier| - 1];
           && p.begin == before.read + 2 && before.read + 1 < env.deadline
           && before.from <= p.from && !Concludes(env, all, log[..p.from], before)
  }

  /** The next pass may begin now. */
  ghost predicate Ticked(env: Env, all: map<string, Target>, turn: nat, passes: seq<Pass>, log: seq<Event>, now: nat) {
    && AllPasses(env, all, turn, passes, log)
    && if passes == [] then now == turn
       else
         var before := passes[|passes| - 1];
         && now == before.read + 2 && before.read + 1 < env.deadline
         && before.from <= |log| && !Concludes(env, all, log, before)
  }

  lemma PassesSnoc(env: Env, all: map<string, Target>, turn: nat, passes: seq<Pass>, so: seq<Event>, log: seq<Event>, p: Pass)
    requires Ticked(env, all, turn, passes, so, p.begin)
    requires so <= log && p.from == |so| && Passes(env, all, log, p)
    ensures AllPasses(env, all, turn, passes + [p], log)
    ensures !Concludes(env, all, log, p) && p.read + 1 < env.deadline ==> Ticked(env, all, turn, passes + [p], log, p.read + 2)
  {
    assert (passes + [p])[..|passes|] == passes && log[..p.from] == so;
  }

  /** What a wait for these targets that begins at `turn` promises. */
  ghost predicate WaitOutcome(env: Env, targets: seq<Target>, turn: nat, t: Wait, r: WaitError, passes: seq<Pass>) {
    && Consistent(env, Keyed(targets), t)
    && r.failures == t.failures && r.apiError == t.apiError
    && AllPasses(env, Keyed(targets), turn, passes, t.log)
    && if targets == [] then r.Nil() && passes == []
       else
         && passes != []
         && var last := passes[|passes| - 1];
            && (r.interrupted.None? <==> Concludes(env, Keyed(targets), t.log, last))
            // the wait is given up only if the context has expired at the tick after the last pass
            && (r.interrupted.Some? ==> env.deadline <= last.read + 1 && r.interrupted.value == Unready(t.pending, t.reasons))
  }

  method CollectPending(targets: seq<Target>) returns (pending: map<string, Target>)
    ensures pending == Keyed(targets)
  {
    pending := map[];
    for i := 0 to |targets|
      invariant pending == Keyed(targets[..i])
    {
      TakeSnoc(targets, i);
      assert targets[..i + 1][..i] == targets[..i];
      pending := pending[KeyOf(targets[i]) := targets[i]];
    }
    assert targets[..|targets|] == targets;
  }

  lemma WaitEnds(env: Env, targets: seq<Target>, turn: nat, t: Wait, r: WaitError, passes: seq<Pass>)
    requires targets != [] && Consistent(env, Keyed(targets), t) && r.failures == t.failures && r.apiError == t.apiError
    requires passes != [] && AllPasses(env, Keyed(targets), turn, passes, t.log)
    requires var last := passes[|passes| - 1];
             if Concludes(env, Keyed(targets), t.log, last) then r.interrupted.None?
             else r.interrupted == Some(Unready(t.pending, t.reasons)) && env.deadline <= last.read + 1
    ensures WaitOutcome(env, targets, turn, t, r, passes)
  {
  }

  lemma WaitBegins(env: Env, targets: seq<Target>, turn: nat)
    ensures var all := Keyed(targets);
            Consistent(env, all, Wait(turn, all, map[], [], None, [])) && Ticked(env, all, turn, [], [], turn)
  {
  }

  lemma NothingToWaitFor(env: Env, turn: nat)
    ensures WaitOutcome(env, [], turn, Wait(turn, map[], map[], [], None, []), WaitError([], None, None), [])
  {
    WaitBegins(env, [], turn);
  }

  /** One pass and the look at the context after it. */
  method Poll(env: Env, ghost all: map<string, Target>, s: Wait) returns (t: Wait, ready: bool, ghost p: Pass)
    requires Consistent(env, all, s)
    ensures Consistent(env, all, t) && s.log <= t.log && t.turn == p.read + 1 > s.turn
    ensures p.begin == s.turn && p.from == |s.log| && Passes(env, all, t.log, p)
    ensures ready <==> Concludes(env, all, t.log, p)
  {
    var notReady, expired;
    t, notReady := RunPass(env, all, s);
    p := Pass(s.turn, |s.log|, t.turn);
    t, expired := ExpiredNow(env, all, t);
    ready := !expired && notReady == [];
  }

  method WaitForRollouts(env: Env, targets: seq<Target>, turn: nat) returns (t: Wait, r: WaitError, ghost passes: seq<Pass>)
    ensures WaitOutcome(env, targets, turn, t, r, passes)
  {
    t, r, passes := Wait(turn, map[], map[], [], None, []), WaitError([], None, None), [];
    if targets == [] {
      NothingToWaitFor(env, turn);
      return;
    }
    WaitBegins(env, targets, turn);
    var pending := CollectPending(targets);
    t := t.(pending := pending);
    ghost var all := Keyed(targets);
    while true
      invariant Consistent(env, all, t) && Ticked(env, all, turn, passes, t.log, t.turn)
      decreases env.deadline - t.turn
    {
      var ready, expired;
      ghost var so, p := t.log, Pass(0, 0, 0);
      t, ready, p := Poll(env, all, t);
      PassesSnoc(env, all, turn, passes, so, t.log, p);
      passes := passes + [p];
      if ready {
        r := WaitError(t.failures, None, t.apiError);
        WaitEnds(env, targets, turn, t, r, passes);
        return;
      }
      // waiting for the next tick or the end of the context
      t, expired := ExpiredNow(env, all, t);
      if expired {
        r := WaitError(t.failures, Some(Unready(t.pending, t.reasons)), t.apiError);
        WaitEnds(env, targets, turn, t, r, passes);
        return;
      }
    }
  }

  // ----- what the result means -----

  /** The last pass saw this target's current object, fully rolled out at the awaited generation. */
  ghost predicate SeenRolledOut(kind: Kind, log: seq<Event>, from: nat, key: string, target: Target) {
    exists i | from <= i < |log| ::
      && log[i].Checked? && log[i].key == key && log[i].target == target && log[i].answer.Object?
      && RolledOut(kind, log[i].answer.workload, target.minGeneration)
  }

  predicate NothingBroke(log: seq<Event>) { forall i | 0 <= i < |log| && log[i].Checked? :: !log[i].seen.Broken? }

  /** This target was seen broken in this way. */
  predicate BrokeWith(log: seq<Event>, key: string, failure: Failure) {
    exists i | 0 <= i < |log| :: Breaks(log[i], key) && log[i].seen.failure == failure
  }

  lemma BrokeWithSplit(log: seq<Event>, key: string, failure: Failure)
    requires log != []
    ensures BrokeWith(log, key, failure) <==>
            BrokeWith(Front(log), key, failure) || (Breaks(Last(log), key) && Last(log).seen.failure == failure)
  {
    assert forall i | 0 <= i < |Front(log)| :: log[i] == Front(log)[i];
  }

  lemma {:induction false} TerminalsList(log: seq<Event>)
    ensures Terminals(log) == [] <==> NothingBroke(log)
    ensures forall k, f :: (k, f) in Terminals(log) <==> BrokeWith(log, k, f)
  {
    if log != [] {
      TerminalsList(Front(log));
      assert forall i | 0 <= i < |Front(log)| :: log[i] == Front(log)[i];
      forall k, f {
        BrokeWithSplit(log, k, f);
      }
    }
  }

  /** Waiting succeeds exactly if no target ever broke, no poll ever had an API error, and one single pass, finished
      before the context expired, covered every target and found each ready. */
  lemma SuccessMeans(env: Env, targets: seq<Target>, turn: nat, t: Wait, r: WaitError, passes: seq<Pass>)
    requires WaitOutcome(env, targets, turn, t, r, passes) && targets != []
    ensures var last := passes[|passes| - 1];
            r.Nil() <==>
              && NothingBroke(t.log) && NoApiError(t.log) && last.read < env.deadline
              && PassDone(Keyed(targets).Keys, t.log, last.from)
  {
    var from := passes[|passes| - 1].from;
    FirstErrorFinds(t.log);
    TerminalsList(t.log);
    if NothingBroke(t.log) {
      assert forall i | 0 <= i < from :: t.log[..from][i] == t.log[i];
      assert RemainingAt(Keyed(targets), t.log, from) == Keyed(targets).Keys;
    }
  }

  /** In the pass that made the wait succeed, every target was completely rolled out at the generation of its patch. */
  lemma SuccessSawRollouts(env: Env, targets: seq<Target>, turn: nat, t: Wait, r: WaitError, passes: seq<Pass>, k: string)
    requires WaitOutcome(env, targets, turn, t, r, passes) && r.Nil() && k in Keyed(targets)
    ensures passes != [] && SeenRolledOut(env.kind, t.log, passes[|passes| - 1].from, k, Keyed(targets)[k])
  {
    var all, from := Keyed(targets), passes[|passes| - 1].from;
    SuccessMeans(env, targets, turn, t, r, passes);
    assert CheckedSince(t.log, from, k);
    var i :| from <= i < |t.log| && t.log[i].Checked? && t.log[i].key == k;
    assert Good(t.log[i]) && Genuine(env, all, t.log[i]);
  }

  lemma {:induction false} FailedOnce(log: seq<Event>)
    requires NoneAfterBroken(log)
    ensures forall i, j | 0 <= i < j < |Terminals(log)| :: Terminals(log)[i].0 != Terminals(log)[j].0
  {
    if log != [] {
      var front := Front(log);
      assert forall i | 0 <= i < |front| :: log[i] == front[i];
      FailedOnce(front);
      TerminalsList(front);
      forall i | 0 <= i < |Terminals(front)| && Last(log).Checked?
        ensures Terminals(front)[i].0 != Last(log).key
      {
        var (k, f) := Terminals(front)[i];
        assert (k, f) in Terminals(front);
        assert BrokeWith(front, k, f);
        var j :| 0 <= j < |front| && Breaks(front[j], k) && front[j].seen.failure == f;
        assert log[j].Checked? && log[j].seen.Broken?;
      }
    }
  }

  /** Every target is at all times either pending or reported as failed, never both, and reported once. */
  lemma PendingXorFailed(env: Env, all: map<string, Target>, s: Wait, k: string)
    requires Consistent(env, all, s) && k in all
    ensures k in s.pending <==> !exists f :: (k, f) in s.failures
    ensures forall i, j | 0 <= i < j < |s.failures| :: s.failures[i].0 != s.failures[j].0
  {
    TerminalsList(s.log);
    FailedOnce(s.log);
    if EverBroken(s.log, k) {
      var i :| 0 <= i < |s.log| && Breaks(s.log[i], k);
      assert BrokeWith(s.log, k, s.log[i].seen.failure);
      assert (k, s.log[i].seen.failure) in s.failures;
    }
  }

  // ----- restarting one workload -----

  datatype PatchAnswer = Accepted(generation: int) | Refused(error: ApiError)

  datatype RestartError = NotRestarted | PatchFailed(error: ApiError, ambiguous: bool) | NotReady(wait: WaitError)

  predicate AnyTrip(log: seq<Event>) { exists i | 0 <= i < |log| :: log[i].Tripped? }

  function TargetOf(namespace: string, name: string, patch: PatchAnswer): Target
    requires patch.Accepted?
  {
    Target(namespace, name, patch.generation)
  }

  /** What one restart promises: the answer to the patch decides, and if it was accepted and is waited for, the wait.
      Nothing is polled before the patch was accepted. */
  ghost predicate RestartOutcome(env: Env, cancelled: bool, patch: PatchAnswer, namespace: string, name: string,
                                 skipWait: bool, turn: nat, err: Option<RestartError>, t: Wait, passes: seq<Pass>)
  {
    if cancelled then err == Some(NotRestarted) && t.log == []
    else if patch.Refused? then err == Some(PatchFailed(patch.error, !MutationDefinitelyFailed(patch.error))) && t.log == []
    else if skipWait then err.None? && t.log == []
    else
      && (err.Some? ==> err.value.NotReady?)
      && var r := if err.Some? then err.value.wait else WaitError([], None, None);
         WaitOutcome(env, [TargetOf(namespace, name, patch)], turn, t, r, passes) && (err.None? <==> r.Nil())
  }

  lemma {:induction false} FirstFailure(log: seq<Event>, k: nat)
    requires k < |log| && Fails(log[k])
    ensures exists i | 0 <= i < |log| :: FirstFailsAt(log, i)
  {
    if j: nat :| j < k && Fails(log[j]) {
      FirstFailure(log, j);
    } else {
      assert FirstFailsAt(log, k);
    }
  }

  lemma WaitTrips(env: Env, all: map<string, Target>, log: seq<Event>)
    requires Disciplined(env, all, log)
    ensures AnyTrip(log) <==> FirstError(log).Some?
  {
    FirstErrorFinds(log);
    assert AnyTrip(log) ==> !NoApiError(log) by {
      if i :| 0 <= i < |log| && log[i].Tripped? {
        assert FirstFailsAt(log, i - 1);
      }
    }
    if i :| 0 <= i < |log| && Fails(log[i]) {
      FirstFailure(log, i);
      var j :| 0 <= j < |log| && FirstFailsAt(log, j);
      assert log[j + 1].Tripped?;
    }
  }

  /** The stop is tripped by a restart exactly if its wait has an API error to report. */
  lemma TripsExactly(env: Env, cancelled: bool, patch: PatchAnswer, namespace: string, name: string, skipWait: bool, turn: nat,
                     err: Option<RestartError>, t: Wait, passes: seq<Pass>)
    requires RestartOutcome(env, cancelled, patch, namespace, name, skipWait, turn, err, t, passes)
    ensures AnyTrip(t.log) <==> err.Some? && err.value.NotReady? && err.value.wait.apiError.Some?
  {
    if t.log != [] {
      WaitTrips(env, Keyed([TargetOf(namespace, name, patch)]), t.log);
    }
  }

  /** Patch one workload and, unless told not to, wait for its rollout at the generation the patch returned. */
  method RestartOne(env: Env, cancelled: bool, patch: PatchAnswer, namespace: string, name: string, skipWait: bool,
                    turn: nat)
    returns (err: Option<RestartError>, t: Wait, ghost passes: seq<Pass>)
    ensures RestartOutcome(env, cancelled, patch, namespace, name, skipWait, turn, err, t, passes)
    // success after waiting means the very rollout this patch started was seen complete
    ensures err.None? && !skipWait ==>
              patch.Accepted? && NothingBroke(t.log) && NoApiError(t.log) &&
              passes != [] && SeenRolledOut(env.kind, t.log, passes[|passes| - 1].from, namespace + "/" + name,
                                              Target(namespace, name, patch.generation))
    // whoever trips the stop while waiting also reports a failure
    ensures AnyTrip(t.log) ==> err.Some?
  {
    t, err, passes := Wait(turn, map[], map[], [], None, []), None, [];
    if cancelled {
      err := Some(NotRestarted);
    } else if patch.Refused? {
      err := Some(PatchFailed(patch.error, !MutationDefinitelyFailed(patch.error)));
    } else if !skipWait {
      var target := TargetOf(namespace, name, patch);
      var r;
      t, r, passes := WaitForRollouts(env, [target], turn);
      SuccessMeans(env, [target], turn, t, r, passes);
      assert [target][..0] == [] && KeyOf(target) in Keyed([target]);
      if r.Nil() {
        SuccessSawRollouts(env, [target], turn, t, r, passes, KeyOf(target));
      } else {
        err := Some(NotReady(r));
      }
    }
    TripsExactly(env, cancelled, patch, namespace, name, skipWait, turn, err, t, passes);
  }
}
