/** The rolling restart of one PostgreSQL cluster: preflight, mark, trigger, wait, clean up. */
module Postgresql {
  import opened Common
  import opened PodStore
  import opened Marking
  import opened Cleanup
  import opened Rotation

  /** The run's settings and the turns at which its contexts expire. */
  datatype Settings = Settings(skipWait: bool, stallInterval: int, timeoutSeconds: nat, maxRetriggers: nat,
                               timeout: nat, parent: nat, cleanup: nat)
  {
    function Stall(): nat { EffectiveStall(stallInterval, timeoutSeconds) }
  }

  datatype RestartError =
    | PreflightFailed
    | MarkingFailed(why: MarkFailure)
    | TriggerRejected
    | TriggerAmbiguous
    | WaitFailed(how: WaitError)
    | FailedWhileRotating // the rotation completed, but a trigger or a read failed on the way

  // ----- ordering of the log -----

  predicate UnmarksAfterTrip(events: seq<Event>) {
    forall k | 0 <= k < |events| && events[k].Unmarked? :: Tripped in events[..k]
  }

  predicate NoMarkAfterTrip(events: seq<Event>) {
    forall j, k | 0 <= j < k < |events| && events[j].Tripped? :: !events[k].Marked?
  }

  /** The stop is tripped before any marker is removed, and no pod is marked after it. */
  predicate TripDiscipline(events: seq<Event>) {
    UnmarksAfterTrip(events) && NoMarkAfterTrip(events)
  }

  predicate NoPatches(events: seq<Event>) { forall e | e in events :: !e.Marked? && !e.Unmarked? }

  predicate NoUnmarks(events: seq<Event>) { forall e | e in events :: !e.Unmarked? }

  predicate NoTouches(events: seq<Event>) { forall e | e in events :: !e.Triggered? }

  lemma ExtendDiscipline(a: seq<Event>, b: seq<Event>)
    requires TripDiscipline(a)
    requires forall e | e in b :: !e.Marked?
    requires Tripped in a || forall e | e in b :: !e.Unmarked?
    ensures TripDiscipline(a + b)
  {
    forall k | 0 <= k < |a + b| && (a + b)[k].Unmarked?
      ensures Tripped in (a + b)[..k]
    {
      if k < |a| {
        assert (a + b)[..k] == a[..k];
      } else {
        assert (a + b)[k] in b;
        assert (a + b)[..k] == a + b[..k - |a|];
      }
    }
    forall j, k | 0 <= j < k < |a + b| && (a + b)[j].Tripped?
      ensures !(a + b)[k].Marked?
    {
      if k >= |a| {
        assert (a + b)[k] in b;
      }
    }
  }

  /** Every marking patch that took effect hit exactly the pod that was read free of markers, and every unmarking patch
      that took effect hit an instance carrying this run's ID at that moment. */
  predicate AllSafe(run: string, events: seq<Event>) {
    forall e | e in events :: SafeMark(e) && SafeUnmark(run, e)
  }

  /** The log of a marking: marking events, and a trip at the very end if it failed. */
  predicate MarkingLog(marks: seq<Event>) {
    forall i | 0 <= i < |marks| :: MarkingEvent(marks[i]) || (marks[i].Tripped? && i == |marks| - 1)
  }

  lemma MarkPodsLog(events: seq<Event>, plan: seq<Pod>, failure: Option<MarkFailure>, marked: map<Uid, string>)
    requires failure.None? ==> CoveredLog(events, plan, marked)
    requires failure.Some? ==> FailedLog(events, plan, failure.value, marked)
    ensures MarkingLog(events)
    ensures Tripped in events <==> failure.Some?
  {
    forall i | 0 <= i < |events| - if failure.Some? then 1 else 0
      ensures MarkingEvent(events[i])
    {
      if failure.Some? {
        assert events[..|events| - 1][i] == events[i];
        assert events[i] in events[..|events| - 1];
      } else {
        assert events[i] in events;
      }
    }
  }

  lemma MarkingDiscipline(checks: seq<Event>, marks: seq<Event>)
    requires Reads(checks) && MarkingLog(marks)
    ensures TripDiscipline(checks + marks)
    ensures forall run: string :: AllSafe(run, checks + marks)
  {
    var all := checks + marks;
    forall k | 0 <= k < |all|
      ensures !all[k].Unmarked? && SafeMark(all[k])
      ensures k < |all| - 1 ==> !all[k].Tripped?
    {
      if k < |checks| {
        assert all[k] in checks;
      } else {
        assert all[k] == marks[k - |checks|];
      }
    }
  }

  lemma LogsMatchFront(polls: seq<Poll>, marked: map<Uid, string>)
    requires LogsMatch(polls, marked) && polls != []
    ensures LogsMatch(polls[..|polls| - 1], marked)
    ensures PollLog(polls[|polls| - 1], !AnyReported(polls[..|polls| - 1]), marked)
  {
    var init := polls[..|polls| - 1];
    forall i | 0 <= i < |init|
      ensures PollLog(init[i], !AnyReported(init[..i]), marked)
    {
      assert init[..i] == polls[..i];
    }
  }

  lemma PollEvents(p: Poll, firstError: bool, marked: map<Uid, string>)
    requires PollLog(p, firstError, marked)
    ensures NoPatches(EventsOf(p))
    ensures Tripped in EventsOf(p) <==> (p.Missed? && p.reported && firstError) || RetriggerFailed(p)
  {
    if p.Seen? && p.sent.Some? {
      assert p.log == [p.log[0], p.log[1], p.log[2]] + p.log[3..];
    } else if p.Seen? {
      assert p.log == [p.log[0], p.log[1]];
    }
    assert Tripped in EventsOf(p) <==> Tripped in p.log;
  }

  lemma FlagsOfLast(polls: seq<Poll>)
    requires polls != []
    ensures var init, p := polls[..|polls| - 1], polls[|polls| - 1];
            AnyReported(polls) || AnyRetriggerFailed(polls) <==>
              AnyReported(init) || AnyRetriggerFailed(init) || (p.Missed? && p.reported) || RetriggerFailed(p)
  {
    FlagsSnoc(polls[..|polls| - 1], polls[|polls| - 1]);
    assert polls == polls[..|polls| - 1] + [polls[|polls| - 1]];
  }

  lemma Joined(a: seq<Event>, b: seq<Event>)
    ensures NoPatches(a) && NoPatches(b) ==> NoPatches(a + b)
    ensures Tripped in a + b <==> Tripped in a || Tripped in b
  {
  }

  /** What the polls of a wait did: no pod patches, and a trip exactly when something failed on the way. */
  lemma {:induction false} WaitEvents(polls: seq<Poll>, marked: map<Uid, string>)
    requires LogsMatch(polls, marked)
    ensures NoPatches(Flatten(polls))
    ensures Tripped in Flatten(polls) <==> AnyReported(polls) || AnyRetriggerFailed(polls)
  {
    if polls != [] {
      var init, p := polls[..|polls| - 1], polls[|polls| - 1];
      LogsMatchFront(polls, marked);
      WaitEvents(init, marked);
      FlagsOfLast(polls);
      PollEvents(p, !AnyReported(init), marked);
      Joined(Flatten(init), EventsOf(p));
    }
  }

  // ----- why a restart fails -----

  /** A request that failed while waiting, or a trigger that was not acknowledged. */
  predicate Failing(e: Event) { e == CrRead(None) || e.ListFailed? || (e.Triggered? && e.answer.Some?) }

  predicate AnyFailing(events: seq<Event>) { exists e | e in events :: Failing(e) }

  lemma PollFailureShows(p: Poll, firstError: bool, marked: map<Uid, string>)
    requires PollLog(p, firstError, marked) && ((p.Missed? && p.reported) || RetriggerFailed(p))
    ensures AnyFailing(EventsOf(p))
  {
    var e := if p.Seen? then p.log[2] else if p.log[0] == CrRead(None) then p.log[0] else p.log[1];
    assert e in p.log && e in EventsOf(p) && Failing(e);
  }

  lemma AnyFailingEither(a: seq<Event>, b: seq<Event>)
    requires AnyFailing(a) || AnyFailing(b)
    ensures AnyFailing(a + b)
  {
    var e :| (e in a || e in b) && Failing(e);
    assert e in a + b;
  }

  /** Whatever failed during the waiting is in its log. */
  lemma {:induction false} FailureShows(polls: seq<Poll>, marked: map<Uid, string>)
    requires LogsMatch(polls, marked) && (AnyReported(polls) || AnyRetriggerFailed(polls))
    ensures AnyFailing(Flatten(polls))
  {
    var init, p := polls[..|polls| - 1], polls[|polls| - 1];
    LogsMatchFront(polls, marked);
    FlagsOfLast(polls);
    if (p.Missed? && p.reported) || RetriggerFailed(p) {
      PollFailureShows(p, !AnyReported(init), marked);
    } else {
      FailureShows(init, marked);
    }
    AnyFailingEither(Flatten(init), EventsOf(p));
  }

  /** The result before the trigger: the health checks, and the marking with the reason it stopped. */
  ghost predicate HeadExplained(err: RestartError, checks: seq<Event>, head: seq<Event>, marked: map<Uid, string>)
    requires checks <= head
  {
    match err
    case PreflightFailed =>
      && head == checks + [Tripped] && marked == map[]
      && (HealthVerdict(checks, None) || AlreadyAsked(checks))
    case MarkingFailed(why) =>
      |checks| == 2 && checks[1].Listed? && FailedLog(head[|checks|..], checks[1].pods, why, marked)
    case _ => true
  }

  // ----- one cluster -----

  /** Every live instance of the cluster still carrying this run's ID is among `still`. */
  ghost predicate NoSilentLeftovers(run: string, s: Store, still: seq<Uid>) {
    forall n | n in s.pods && s.pods[n].Held(run) :: s.pods[n].uid in still
  }

  /** Which errors are followed by a cleanup. */
  predicate CleansUp(settings: Settings, err: RestartError) {
    match err
    case MarkingFailed(_) => true
    case TriggerRejected => true
    case TriggerAmbiguous => settings.skipWait
    case WaitFailed(_) => true
    case _ => false
  }

  /** What a restart hands back. `sum` is the cleanup's summary (nothing marked if there was none). */
  datatype Restart = Restart(err: Option<RestartError>, marked: map<Uid, string>, sum: Summary)

  /** The contract of every exit, over the log of the restart and the store it leaves. */
  ghost predicate Outcome(run: string, settings: Settings, r: Restart, s: Store, events: seq<Event>) {
    // an error is returned exactly when this restart tripped the run-wide stop
    && (r.err.Some? <==> Tripped in events)
    && TripDiscipline(events) && AllSafe(run, events)
    // the one exit that leaves markers behind on purpose is the successful skip-wait one
    && (r.err.Some? || !settings.skipWait ==> NoSilentLeftovers(run, s, r.sum.still))
    && (r.err.None? ==> r.sum == NOTHING_MARKED && Ours(run, s, r.marked) && Triggered(None) in events)
    && (r.err.None? && !settings.skipWait ==> forall u | u in r.marked :: Dead(s, u))
  }

  /** Markers are only removed on the paths that clean up, and those give nothing up early. */
  ghost predicate CleanupOutcome(run: string, settings: Settings, r: Restart, s: Store, events: seq<Event>,
                                 cleanup: seq<Event>, expired: bool) {
    && |cleanup| <= |events| && events[|events| - |cleanup|..] == cleanup
    && (r.err.Some? && CleansUp(settings, r.err.value) ==> Cleaned(run, s, r.marked, r.sum, cleanup, expired))
    && (r.err.None? || !CleansUp(settings, r.err.value) ==> cleanup == [])
    && forall e | e in events[..|events| - |cleanup|] :: !e.Unmarked?
  }

  lemma NothingCleaned(run: string, settings: Settings, r: Restart, s: Store, events: seq<Event>, expired: bool)
    requires NoUnmarks(events) && (r.err.None? || !CleansUp(settings, r.err.value))
    ensures CleanupOutcome(run, settings, r, s, events, [], expired)
  {
    assert events[..|events|] == events && events[|events|..] == [];
  }

  /** The log so far: in order, safe, and nothing removed yet. */
  ghost predicate SafeSoFar(run: string, so: seq<Event>) {
    TripDiscipline(so) && AllSafe(run, so) && NoUnmarks(so)
  }

  lemma StaysSafe(run: string, so: seq<Event>, more: seq<Event>)
    requires SafeSoFar(run, so) && NoPatches(more)
    ensures SafeSoFar(run, so + more)
  {
    ExtendDiscipline(so, more);
  }

  /** What every exit leaves behind, and what its cleanup did and when. */
  ghost predicate LeftBehind(api: Api, settings: Settings, v: World, r: Restart, events: seq<Event>, cleanup: seq<Event>) {
    && Outcome(api.run, settings, r, v.store, events)
    && CleanupOutcome(api.run, settings, r, v.store, events, cleanup, Expired(v, settings.cleanup))
    && BegunInTime(v.turn - |cleanup|, settings.cleanup, cleanup)
  }

  lemma CleanupConcludes(api: Api, settings: Settings, v: World, r: Restart, so: seq<Event>, cleanup: seq<Event>)
    requires r.err.Some? && CleansUp(settings, r.err.value) && Tripped in so && SafeSoFar(api.run, so)
    requires Cleaned(api.run, v.store, r.marked, r.sum, cleanup, Expired(v, settings.cleanup))
    requires BegunInTime(v.turn - |cleanup|, settings.cleanup, cleanup)
    ensures LeftBehind(api, settings, v, r, so + cleanup, cleanup)
  {
    forall e | e in cleanup
      ensures !e.Marked? && SafeMark(e) && SafeUnmark(api.run, e)
    {
      assert CleanupEvent(api.run, r.marked, e);
    }
    ExtendDiscipline(so, cleanup);
    assert (so + cleanup)[..|so|] == so && (so + cleanup)[|so|..] == cleanup;
  }

  /** The failure paths that remove the markers again; `so` is what happened since `start`. */
  method FailAndClean(api: Api, w: World, settings: Settings, error: RestartError, marked: map<Uid, string>,
                      ghost start: World, ghost so: seq<Event>)
    returns (v: World, r: Restart, ghost events: seq<Event>, ghost cleanup: seq<Event>)
    requires Sound(w.store) && Ours(api.run, w.store, marked) && CleansUp(settings, error)
    requires Happened(api, start, w, so) && Tripped in so && SafeSoFar(api.run, so)
    ensures Sound(v.store) && Happened(api, start, v, events) && events == so + cleanup
    ensures r.err == Some(error) && r.marked == marked && LeftBehind(api, settings, v, r, events, cleanup)
  {
    var sum;
    v, sum, cleanup := RemoveMarkers(api, w, marked, settings.cleanup);
    HappenedThen(api, start, w, v, so, cleanup);
    events := so + cleanup;
    r := Restart(Some(error), marked, sum);
    CleanupConcludes(api, settings, v, r, so, cleanup);
  }

  // ----- up to the trigger -----

  /** Everything before the trigger: the plan, its refreshes and the marks. Every pod of the last healthy observation is
      marked, and every marked instance was in some healthy observation (it may have been replaced since). */
  predicate MarkedHead(head: seq<Event>, marked: map<Uid, string>) {
    && Backed(head)
    && marked == MarkedIn(head)
    && marked.Keys <= SeenUids(head)
    && LastListing(head, []) != []
    && forall p | p in LastListing(head, []) :: p.uid in marked
  }

  lemma {:induction false} LastListingIsHealthy(events: seq<Event>)
    requires Backed(events) && Listings(events) > 0
    ensures LastListing(events, []) != []
  {
    var init, e := events[..|events| - 1], events[|events| - 1];
    if !e.Listed? {
      assert Backed(init) by {
        forall k | 0 <= k < |init| && init[k].Listed?
          ensures k > 0 && init[k - 1].CrRead? && init[k - 1].cr.Some? && HealthyCluster(init[k - 1].cr.value, init[k].pods)
        {
          assert events[k].Listed?;
        }
      }
      LastListingIsHealthy(init);
    }
  }

  lemma HeadIsCovered(checks: seq<Event>, plan: seq<Pod>, marks: seq<Event>, marked: map<Uid, string>)
    requires HealthVerdict(checks, Some(plan)) && Reads(checks) && CoveredLog(marks, plan, marked)
    ensures MarkedHead(checks + marks, marked)
  {
    assert Backed(checks);
    BackedAppend(checks, marks);
    ReadsMarkNothing(checks);
    MarkedInAppend(checks, marks);
    LastListingAppend(checks, marks, []);
    assert Listings(checks) == 1 by {
      assert checks[..1] == [checks[0]] && Listings([checks[0]]) == 0;
    }
    ListingsAppend(checks, marks);
    LastListingIsHealthy(checks + marks);
    SeenInCheck(checks);
    SeenUidsAppend(checks, marks);
  }

  lemma PreflightOutcome(run: string, settings: Settings, s: Store, checks: seq<Event>, expired: bool)
    requires Reads(checks) && ClaimsWithin(run, s, {})
    ensures var r, events := Restart(Some(PreflightFailed), map[], NOTHING_MARKED), checks + [Tripped];
            Outcome(run, settings, r, s, events) && CleanupOutcome(run, settings, r, s, events, [], expired) && NoPatches(events)
  {
    ExtendDiscipline([], checks);
    assert [] + checks == checks;
    StaysSafe(run, checks, [Tripped]);
    NothingCleaned(run, settings, Restart(Some(PreflightFailed), map[], NOTHING_MARKED), s, checks + [Tripped], expired);
  }

  /** The health checks and the marking together. */
  lemma MarksMakeHead(run: string, checks: seq<Event>, plan: seq<Pod>, marks: seq<Event>,
                      failure: Option<MarkFailure>, marked: map<Uid, string>)
    requires Reads(checks) && HealthVerdict(checks, Some(plan))
    requires if failure.Some? then FailedLog(marks, plan, failure.value, marked) else CoveredLog(marks, plan, marked)
    ensures SafeSoFar(run, checks + marks) && NoTouches(checks + marks)
    ensures Tripped in checks + marks <==> failure.Some?
    ensures failure.Some? ==> HeadExplained(MarkingFailed(failure.value), checks, checks + marks, marked)
    ensures failure.None? ==> MarkedHead(checks + marks, marked)
  {
    MarkPodsLog(marks, plan, failure, marked);
    MarkingDiscipline(checks, marks);
    Assoc(checks, marks, []);
    if failure.None? {
      HeadIsCovered(checks, plan, marks, marked);
    }
  }

  /** Marking after the health checks. */
  method MarkAfterChecks(api: Api, w: World, plan: seq<Pod>, ghost start: World, ghost checks: seq<Event>)
    returns (v: World, marked: map<Uid, string>, failure: Option<MarkFailure>, ghost head: seq<Event>)
    requires Sound(w.store) && Plannable(w.store, plan) && ClaimsWithin(api.run, w.store, {})
    requires Happened(api, start, w, checks) && Reads(checks) && HealthVerdict(checks, Some(plan))
    ensures Sound(v.store) && Ours(api.run, v.store, marked) && Happened(api, start, v, head) && checks <= head
    ensures SafeSoFar(api.run, head) && NoTouches(head)
    ensures Tripped in head <==> failure.Some?
    ensures failure.Some? ==> HeadExplained(MarkingFailed(failure.value), checks, head, marked)
    ensures failure.None? ==> MarkedHead(head, marked)
  {
    ghost var marks: seq<Event>;
    v, marked, failure, marks := MarkPods(api, w, plan);
    MarksMakeHead(api.run, checks, plan, marks, failure, marked);
    head := checks + marks;
    HappenedThen(api, start, w, v, checks, marks);
  }

  // ----- from the trigger on -----

  predicate Rejected(answer: Option<ApiError>) { answer.Some? && MutationDefinitelyFailed(answer.value) }

  /** The trigger, and the trip if it was not acknowledged. */
  function TriggerEvents(answer: Option<ApiError>): seq<Event> { [Triggered(answer)] + TripIf(answer.Some?) }

  /** What a restart did, in order: everything before the trigger, the trigger with its answer, the polls of
      the wait that started at `start`, and the cleanup. */
  datatype Trace = Trace(head: seq<Event>, answer: Option<ApiError>, start: nat, polls: seq<Poll>, cleanup: seq<Event>)

  /** Everything from the trigger on. */
  function Tail(t: Trace, err: Option<RestartError>): seq<Event> {
    TriggerEvents(t.answer) + Flatten(t.polls) + TripIf(err.Some? && err.value.WaitFailed?) + t.cleanup
  }

  /** When the waiting begins: right after the trigger. */
  function WaitStart(api: Api, begin: Moment, t: Trace): Moment { MomentAfter(api, begin, t.head + TriggerEvents(t.answer)) }

  /** When the waiting is over. */
  function WaitEnd(api: Api, begin: Moment, t: Trace): Moment { MomentAfter(api, WaitStart(api, begin, t), Flatten(t.polls)) }

  predicate Completed(polls: seq<Poll>) { polls != [] && Finishes(polls[|polls| - 1]) && NoneDone(polls[..|polls| - 1]) }

  /** The result from the trigger on, read off the log and the clock. */
  ghost predicate TriggerExplained(api: Api, settings: Settings, begin: Moment, err: Option<RestartError>, t: Trace) {
    match err
    case None => t.answer.None? && (settings.skipWait || Completed(t.polls))
    case Some(TriggerRejected) => Rejected(t.answer)
    case Some(TriggerAmbiguous) => settings.skipWait && t.answer.Some? && !Rejected(t.answer)
    case Some(WaitFailed(how)) =>
      && !settings.skipWait && !Rejected(t.answer) && t.polls != [] && NoneDone(t.polls)
      && var end := WaitEnd(api, begin, t).turn;
         Over(end, settings.timeout, settings.parent) && (how.Interrupted? <==> end >= settings.parent)
    case Some(FailedWhileRotating) =>
      !settings.skipWait && !Rejected(t.answer) && Completed(t.polls) && AnyFailing(TriggerEvents(t.answer) + Flatten(t.polls))
    case _ => false
  }

  /** The waiting: no polls where nobody waits, otherwise a history of polls under the run's own stall interval and its
      bound on re-triggers; the first poll comes right after the trigger and each later one right after its tick. */
  ghost predicate WaitedFor(api: Api, settings: Settings, begin: Moment, marked: map<Uid, string>, t: Trace) {
    && (settings.skipWait || Rejected(t.answer) ==> t.polls == [])
    && (!settings.skipWait && !Rejected(t.answer) ==> t.start == WaitStart(api, begin, t).clock)
    && Timed(api, WaitStart(api, begin, t), settings.timeout, settings.parent, t.polls)
    && History(t.start, settings.Stall(), settings.maxRetriggers, t.polls)
    && LogsMatch(t.polls, marked)
  }

  /** The contract from the trigger on, for a restart that began at `begin`. */
  ghost predicate TriggerPhase(api: Api, settings: Settings, begin: Moment, r: Restart, t: Trace, events: seq<Event>) {
    && events == t.head + Tail(t, r.err)
    && TriggerExplained(api, settings, begin, r.err, t)
    && WaitedFor(api, settings, begin, r.marked, t)
  }

  /** All that a restart promises that got as far as the trigger, the head being `t.head`. */
  ghost predicate Concluded(api: Api, settings: Settings, start: World, v: World, r: Restart, events: seq<Event>, t: Trace) {
    TriggerPhase(api, settings, Now(start), r, t, events) && LeftBehind(api, settings, v, r, events, t.cleanup)
  }

  lemma WaitExtends(run: string, so: seq<Event>, polls: seq<Poll>, marked: map<Uid, string>)
    requires LogsMatch(polls, marked) && SafeSoFar(run, so)
    ensures SafeSoFar(run, so + Flatten(polls))
    ensures Tripped in so + Flatten(polls) <==> Tripped in so || AnyReported(polls) || AnyRetriggerFailed(polls)
  {
    WaitEvents(polls, marked);
    StaysSafe(run, so, Flatten(polls));
  }

  lemma FailureIsLate(answer: Option<ApiError>, polls: seq<Poll>, marked: map<Uid, string>)
    requires LogsMatch(polls, marked)
    requires answer.Some? || AnyReported(polls) || AnyRetriggerFailed(polls)
    ensures AnyFailing(TriggerEvents(answer) + Flatten(polls))
  {
    if answer.Some? {
      assert TriggerEvents(answer)[0] in TriggerEvents(answer) && Failing(TriggerEvents(answer)[0]);
    } else {
      FailureShows(polls, marked);
    }
    AnyFailingEither(TriggerEvents(answer), Flatten(polls));
  }

  lemma TriggerExtends(run: string, head: seq<Event>, answer: Option<ApiError>)
    requires SafeSoFar(run, head) && Tripped !in head
    ensures SafeSoFar(run, head + TriggerEvents(answer))
    ensures Tripped in head + TriggerEvents(answer) <==> answer.Some?
    ensures Triggered(answer) in head + TriggerEvents(answer)
  {
    StaysSafe(run, head, TriggerEvents(answer));
    assert TriggerEvents(answer)[0] in head + TriggerEvents(answer);
  }

  /** The parts of a log, regrouped. */
  lemma Regroup(a: seq<Event>, b: seq<Event>, c: seq<Event>, d: seq<Event>, e: seq<Event>)
    ensures a + b + c + d + e == a + (b + c + d + e)
  {
  }

  /** Nobody waits, and the trigger was acknowledged: the only exit that leaves markers on purpose. */
  lemma SkippedWait(api: Api, start: World, v: World, settings: Settings, t: Trace, marked: map<Uid, string>)
    requires settings.skipWait && t.answer.None? && t.polls == [] && t.cleanup == [] && Ours(api.run, v.store, marked)
    requires SafeSoFar(api.run, t.head + TriggerEvents(None)) && Tripped !in t.head + TriggerEvents(None)
    requires Triggered(None) in t.head + TriggerEvents(None)
    ensures Concluded(api, settings, start, v, Restart(None, marked, NOTHING_MARKED), t.head + TriggerEvents(None), t)
  {
    NothingCleaned(api.run, settings, Restart(None, marked, NOTHING_MARKED), v.store, t.head + TriggerEvents(None),
                   Expired(v, settings.cleanup));
    Regroup(t.head, TriggerEvents(None), [], [], []);
  }

  /** The rotation completed: no instance with this run's ID is left, and the result is what was noted on the way. */
  lemma CompletedWait(api: Api, start: World, v: World, settings: Settings, t: Trace, marked: map<Uid, string>, failed: bool)
    requires !settings.skipWait && !Rejected(t.answer) && t.cleanup == [] && WaitedFor(api, settings, Now(start), marked, t)
    requires Ours(api.run, v.store, marked) && Rotation.Rotated(api.run, v.store, t.polls, marked)
    requires SafeSoFar(api.run, t.head + TriggerEvents(t.answer)) && Tripped !in t.head
    requires failed <==> t.answer.Some? || AnyReported(t.polls) || AnyRetriggerFailed(t.polls)
    ensures Concluded(api, settings, start, v, Restart(if failed then Some(FailedWhileRotating) else None, marked, NOTHING_MARKED),
                      t.head + TriggerEvents(t.answer) + Flatten(t.polls), t)
  {
    var so := t.head + TriggerEvents(t.answer);
    WaitExtends(api.run, so, t.polls, marked);
    assert TriggerEvents(t.answer)[0] in so;
    if failed {
      FailureIsLate(t.answer, t.polls, marked);
    }
    NothingCleaned(api.run, settings, Restart(if failed then Some(FailedWhileRotating) else None, marked, NOTHING_MARKED), v.store,
                   so + Flatten(t.polls), Expired(v, settings.cleanup));
    Regroup(t.head, TriggerEvents(t.answer), Flatten(t.polls), [], []);
  }

  lemma ConcludeCleaned(api: Api, settings: Settings, start: World, v: World, r: Restart, events: seq<Event>, t: Trace)
    requires LeftBehind(api, settings, v, r, events, t.cleanup) && events == t.head + Tail(t, r.err)
    requires TriggerExplained(api, settings, Now(start), r.err, t) && WaitedFor(api, settings, Now(start), r.marked, t)
    ensures Concluded(api, settings, start, v, r, events, t)
  {
  }

  /** The rotation did not complete in time: the stop is tripped, and the markers are removed. */
  method GiveUp(api: Api, w: World, settings: Settings, marked: map<Uid, string>, answer: Option<ApiError>, polls: seq<Poll>,
                how: WaitError, ghost start: World, ghost head: seq<Event>, ghost clock: nat)
    returns (v: World, r: Restart, ghost events: seq<Event>, ghost t: Trace)
    requires Sound(w.store) && Ours(api.run, w.store, marked) && !settings.skipWait && !Rejected(answer)
    requires SafeSoFar(api.run, head + TriggerEvents(answer))
    requires Happened(api, start, w, head + TriggerEvents(answer) + Flatten(polls))
    requires WaitedFor(api, settings, Now(start), marked, Trace(head, answer, clock, polls, []))
    requires polls != [] && NoneDone(polls) && WaitEnd(api, Now(start), Trace(head, answer, clock, polls, [])) == Now(w)
    requires (Expired(w, settings.timeout) || Expired(w, settings.parent)) && (how.Interrupted? <==> Expired(w, settings.parent))
    ensures Sound(v.store) && Happened(api, start, v, events) && r.marked == marked
    ensures t.head == head && t.answer == answer && Concluded(api, settings, start, v, r, events, t)
  {
    ghost var so := head + TriggerEvents(answer) + Flatten(polls);
    WaitExtends(api.run, head + TriggerEvents(answer), polls, marked);
    StaysSafe(api.run, so, [Tripped]);
    TripHappens(api, w);
    HappenedThen(api, start, w, Trip(w), so, [Tripped]);
    ghost var cleanup: seq<Event>;
    v, r, events, cleanup := FailAndClean(api, Trip(w), settings, WaitFailed(how), marked, start, so + [Tripped]);
    t := Trace(head, answer, clock, polls, cleanup);
    Regroup(head, TriggerEvents(answer), Flatten(polls), [Tripped], cleanup);
    ConcludeCleaned(api, settings, start, v, r, events, t);
  }

  /** Waiting for the rotation; an answer that is an error is the ambiguous trigger that has already tripped the stop. */
  method WaitAndFinish(api: Api, w: World, settings: Settings, marked: map<Uid, string>, answer: Option<ApiError>,
                       ghost start: World, ghost head: seq<Event>)
    returns (v: World, r: Restart, ghost events: seq<Event>, ghost t: Trace)
    requires Sound(w.store) && Ours(api.run, w.store, marked) && !settings.skipWait && !Rejected(answer)
    requires Happened(api, start, w, head + TriggerEvents(answer)) && SafeSoFar(api.run, head + TriggerEvents(answer)) && Tripped !in head
    ensures Sound(v.store) && Happened(api, start, v, events) && r.marked == marked
    ensures t.head == head && t.answer == answer && Concluded(api, settings, start, v, r, events, t)
  {
    var polls, retriggerFailed, apiFailed, waitErr;
    v, polls, retriggerFailed, apiFailed, waitErr :=
      WaitForRotation(api, w, marked, settings.Stall(), settings.maxRetriggers, settings.timeout, settings.parent);
    HappenedThen(api, start, w, v, head + TriggerEvents(answer), Flatten(polls));
    t := Trace(head, answer, w.clock, polls, []);
    assert WaitedFor(api, settings, Now(start), marked, t);
    if waitErr.Some? {
      v, r, events, t := GiveUp(api, v, settings, marked, answer, polls, waitErr.value, start, head, w.clock);
      return;
    }
    var failed := answer.Some? || retriggerFailed || apiFailed;
    r := Restart(if failed then Some(FailedWhileRotating) else None, marked, NOTHING_MARKED);
    events := head + TriggerEvents(answer) + Flatten(polls);
    CompletedWait(api, start, v, settings, t, marked, failed);
  }

  /** The trigger; an answer other than success trips the stop at once. */
  method TriggerOrTrip(api: Api, w: World, ghost marked: map<Uid, string>, ghost start: World, ghost head: seq<Event>)
    returns (v: World, answer: Option<ApiError>)
    requires Sound(w.store) && Ours(api.run, w.store, marked) && Happened(api, start, w, head)
    ensures Sound(v.store) && Ours(api.run, v.store, marked) && Happened(api, start, v, head + TriggerEvents(answer))
  {
    v, answer := TriggerSync(api, w);
    OursStays(api.run, w.store, v.store, marked);
    if answer.Some? {
      TripHappens(api, v);
      HappenedThen(api, w, v, Trip(v), [Triggered(answer)], [Tripped]);
      v := Trip(v);
    } else {
      assert TriggerEvents(answer) == [Triggered(answer)];
    }
    HappenedThen(api, start, w, v, head, TriggerEvents(answer));
  }

  lemma NotWaitedFor(api: Api, settings: Settings, begin: Moment, marked: map<Uid, string>, t: Trace)
    requires t.polls == [] && (Rejected(t.answer) || settings.skipWait)
    ensures WaitedFor(api, settings, begin, marked, t)
  {
  }

  lemma TailWithoutWait(t: Trace, err: Option<RestartError>, events: seq<Event>)
    requires t.polls == [] && (err.Some? ==> !err.value.WaitFailed?) && events == t.head + TriggerEvents(t.answer) + t.cleanup
    ensures events == t.head + Tail(t, err)
  {
    Regroup(t.head, TriggerEvents(t.answer), [], [], t.cleanup);
  }

  /** A trigger that was rejected, or may have been applied while nobody waits for the outcome. */
  method TriggerFails(api: Api, w: World, settings: Settings, marked: map<Uid, string>, answer: Option<ApiError>,
                      ghost start: World, ghost head: seq<Event>)
    returns (v: World, r: Restart, ghost events: seq<Event>, ghost t: Trace)
    requires Sound(w.store) && Ours(api.run, w.store, marked) && answer.Some? && (Rejected(answer) || settings.skipWait)
    requires Happened(api, start, w, head + TriggerEvents(answer)) && SafeSoFar(api.run, head + TriggerEvents(answer))
    requires Tripped in head + TriggerEvents(answer)
    ensures Sound(v.store) && Happened(api, start, v, events) && r.marked == marked
    ensures t.head == head && t.answer == answer && Concluded(api, settings, start, v, r, events, t)
  {
    ghost var cleanup: seq<Event>;
    v, r, events, cleanup := FailAndClean(api, w, settings, if Rejected(answer) then TriggerRejected else TriggerAmbiguous,
                                          marked, start, head + TriggerEvents(answer));
    t := Trace(head, answer, 0, [], cleanup);
    NotWaitedFor(api, settings, Now(start), marked, t);
    TailWithoutWait(t, r.err, events);
    ConcludeCleaned(api, settings, start, v, r, events, t);
  }

  /** From the trigger on. */
  method TriggerAndWait(api: Api, w: World, settings: Settings, marked: map<Uid, string>, ghost start: World,
                        ghost head: seq<Event>)
    returns (v: World, r: Restart, ghost events: seq<Event>, ghost t: Trace)
    requires Sound(w.store) && Ours(api.run, w.store, marked)
    requires Happened(api, start, w, head) && SafeSoFar(api.run, head) && Tripped !in head
    ensures Sound(v.store) && Happened(api, start, v, events) && r.marked == marked
    ensures t.head == head && Concluded(api, settings, start, v, r, events, t)
  {
    var answer;
    v, answer := TriggerOrTrip(api, w, marked, start, head);
    TriggerExtends(api.run, head, answer);
    if answer.Some? && (MutationDefinitelyFailed(answer.value) || settings.skipWait) {
      v, r, events, t := TriggerFails(api, v, settings, marked, answer, start, head);
    } else if settings.skipWait {
      r := Restart(None, marked, NOTHING_MARKED);
      events, t := head + TriggerEvents(None), Trace(head, None, 0, [], []);
      SkippedWait(api, start, v, settings, t, marked);
    } else {
      v, r, events, t := WaitAndFinish(api, v, settings, marked, answer, start, head);
    }
  }

  predicate BeforeTrigger(err: Option<RestartError>) { err.Some? && (err.value.PreflightFailed? || err.value.MarkingFailed?) }

  /** A restart that ended before the trigger. */
  ghost predicate EndedEarly(api: Api, settings: Settings, v: World, r: Restart, checks: seq<Event>, events: seq<Event>,
                             t: Trace) {
    && BeforeTrigger(r.err) && checks <= t.head && events == t.head + t.cleanup
    && HeadExplained(r.err.value, checks, t.head, r.marked)
    && LeftBehind(api, settings, v, r, events, t.cleanup)
    && (r.err.value.PreflightFailed? ==> NoPatches(events))
  }

  lemma EndEarly(api: Api, settings: Settings, v: World, r: Restart, checks: seq<Event>, events: seq<Event>, t: Trace)
    requires BeforeTrigger(r.err) && checks <= t.head && events == t.head + t.cleanup
    requires HeadExplained(r.err.value, checks, t.head, r.marked) && LeftBehind(api, settings, v, r, events, t.cleanup)
    requires r.err.value.PreflightFailed? ==> NoPatches(events)
    ensures EndedEarly(api, settings, v, r, checks, events, t)
  {
  }

  lemma HeadComesFirst(api: Api, settings: Settings, start: World, v: World, r: Restart, events: seq<Event>, t: Trace)
    requires Concluded(api, settings, start, v, r, events, t)
    ensures t.head <= events && !BeforeTrigger(r.err)
  {
  }

  /** The cluster is not healthy, or somebody has asked for a rotation: nothing is touched. */
  method Refuse(api: Api, w: World, settings: Settings, ghost start: World, ghost checks: seq<Event>)
    returns (v: World, r: Restart, ghost events: seq<Event>, ghost t: Trace)
    requires Sound(w.store) && ClaimsWithin(api.run, w.store, {}) && Happened(api, start, w, checks) && Reads(checks)
    requires HealthVerdict(checks, None) || AlreadyAsked(checks)
    ensures Sound(v.store) && Happened(api, start, v, events) && checks <= t.head <= events && NoTouches(t.head)
    ensures EndedEarly(api, settings, v, r, checks, events, t)
  {
    PreflightOutcome(api.run, settings, w.store, checks, Expired(w, settings.cleanup));
    TripHappens(api, w);
    HappenedThen(api, start, w, Trip(w), checks, [Tripped]);
    v, events := Trip(w), checks + [Tripped];
    r, t := Restart(Some(PreflightFailed), map[], NOTHING_MARKED), Trace(events, None, 0, [], []);
    assert events + [] == events;
    EndEarly(api, settings, v, r, checks, events, t);
  }

  method RestartCluster(api: Api, w: World, settings: Settings)
    returns (v: World, r: Restart, ghost checks: seq<Event>, ghost events: seq<Event>, ghost t: Trace)
    requires Sound(w.store) && ClaimsWithin(api.run, w.store, {})
    ensures Sound(v.store) && Happened(api, w, v, events)
    ensures checks <= t.head <= events && NoTouches(t.head)
    ensures if BeforeTrigger(r.err) then EndedEarly(api, settings, v, r, checks, events, t)
            else MarkedHead(t.head, r.marked) && Concluded(api, settings, w, v, r, events, t)
  {
    var plan, marked, failure;
    ghost var head: seq<Event>;
    v, plan, checks := Preflight(api, w);
    if plan.None? {
      v, r, events, t := Refuse(api, v, settings, w, checks);
      return;
    }
    v, marked, failure, head := MarkAfterChecks(api, v, plan.value, w, checks);
    if failure.Some? {
      ghost var cleanup: seq<Event>;
      v, r, events, cleanup := FailAndClean(api, v, settings, MarkingFailed(failure.value), marked, w, head);
      t := Trace(head, None, 0, [], cleanup);
      EndEarly(api, settings, v, r, checks, events, t);
      return;
    }
    v, r, events, t := TriggerAndWait(api, v, settings, marked, w, head);
    HeadComesFirst(api, settings, w, v, r, events, t);
  }

  // ----- how often the custom resource is touched -----

  function Touches(events: seq<Event>): nat {
    if events == [] then 0 else Touches(events[..|events| - 1]) + if events[|events| - 1].Triggered? then 1 else 0
  }

  lemma {:induction false} TouchesAppend(a: seq<Event>, b: seq<Event>)
    ensures Touches(a + b) == Touches(a) + Touches(b)
  {
    if b == [] {
      assert a + b == a;
    } else {
      assert (a + b)[..|a + b| - 1] == a + b[..|b| - 1];
      TouchesAppend(a, b[..|b| - 1]);
    }
  }

  lemma {:induction false} NoTouchesCount(events: seq<Event>)
    requires NoTouches(events)
    ensures Touches(events) == 0
  {
    if events != [] {
      assert events[|events| - 1] in events;
      NoTouchesCount(events[..|events| - 1]);
    }
  }

  lemma TouchesOfPoll(p: Poll, firstError: bool, marked: map<Uid, string>)
    requires PollLog(p, firstError, marked)
    ensures Touches(p.log) == if p.Seen? && p.sent.Some? then 1 else 0
  {
    var front := if p.Seen? then p.log[..2] else p.log;
    assert p.Seen? ==> p.log == front + p.log[2..];
    NoTouchesCount(front);
    TouchesAppend(front, p.log[|front|..]);
    if p.Seen? && p.sent.Some? {
      assert p.log[2..] == [p.log[2]] + p.log[3..];
      TouchesAppend([p.log[2]], p.log[3..]);
      NoTouchesCount(p.log[3..]);
    }
  }

  lemma {:induction false} TouchesOfPolls(polls: seq<Poll>, marked: map<Uid, string>)
    requires LogsMatch(polls, marked)
    ensures Touches(Flatten(polls)) == Sends(polls)
  {
    if polls != [] {
      var init, p := polls[..|polls| - 1], polls[|polls| - 1];
      LogsMatchFront(polls, marked);
      TouchesOfPolls(init, marked);
      TouchesOfPoll(p, !AnyReported(init), marked);
      TouchesAppend(Flatten(init), EventsOf(p));
      TouchesAppend(p.log, if Finishes(p) then [] else [Idle]);
      NoTouchesCount(if Finishes(p) then [] else [Idle]);
    }
  }

  lemma TouchesOfTail(t: Trace, err: Option<RestartError>, marked: map<Uid, string>)
    requires LogsMatch(t.polls, marked) && NoTouches(t.cleanup)
    ensures Touches(Tail(t, err)) == 1 + Sends(t.polls)
  {
    var a, b, c := TriggerEvents(t.answer), Flatten(t.polls), TripIf(err.Some? && err.value.WaitFailed?);
    TouchesAppend(a + b + c, t.cleanup);
    TouchesAppend(a + b, c);
    TouchesAppend(a, b);
    TouchesAppend([Triggered(t.answer)], TripIf(t.answer.Some?));
    NoTouchesCount(t.cleanup);
    NoTouchesCount(TripIf(t.answer.Some?));
    NoTouchesCount(c);
    TouchesOfPolls(t.polls, marked);
  }

  lemma CleanupTouchesNothing(run: string, settings: Settings, r: Restart, s: Store, events: seq<Event>,
                              cleanup: seq<Event>, expired: bool)
    requires CleanupOutcome(run, settings, r, s, events, cleanup, expired)
    ensures NoTouches(cleanup)
  {
    forall e | e in cleanup
      ensures !e.Triggered?
    {
      assert CleanupEvent(run, r.marked, e);
    }
  }

  /** The restart touches the custom resource once, and then once for every re-trigger of the wait: never more than
      1 + maxRetriggers times. */
  lemma TouchesBounded(api: Api, settings: Settings, begin: Moment, r: Restart, t: Trace, s: Store, events: seq<Event>,
                       expired: bool)
    requires NoTouches(t.head) && TriggerPhase(api, settings, begin, r, t, events)
    requires CleanupOutcome(api.run, settings, r, s, events, t.cleanup, expired)
    ensures Touches(events) == 1 + Sends(t.polls) <= 1 + settings.maxRetriggers
  {
    CleanupTouchesNothing(api.run, settings, r, s, events, t.cleanup, expired);
    TouchesOfTail(t, r.err, r.marked);
    TouchesAppend(t.head, Tail(t, r.err));
    NoTouchesCount(t.head);
    RetriggersBounded(t.start, settings.Stall(), settings.maxRetriggers, t.polls);
  }

  /** With the default interval, two re-triggers of a restart are at least a quarter of it apart and one for lack of
      progress a whole one, which is the smaller of a minute and a third of the timeout. */
  lemma DefaultSpacing(api: Api, settings: Settings, begin: Moment, marked: map<Uid, string>, t: Trace, i: nat, j: nat)
    requires WaitedFor(api, settings, begin, marked, t) && settings.stallInterval <= 0
    requires i < j < |t.polls| && t.polls[i].Seen? && t.polls[i].sent.Some? && t.polls[j].Seen? && t.polls[j].sent.Some?
    ensures var third, gap := settings.timeoutSeconds * 1_000_000_000 / 3, t.polls[j].at - t.polls[i].at;
            var stall := if third > 60_000_000_000 then 60_000_000_000 else third;
            gap >= stall / 4 && (t.polls[j].sent == Some(NoProgress) ==> gap >= stall)
  {
    RetriggerSpacing(t.start, settings.Stall(), settings.maxRetriggers, t.polls, i, j);
  }

  // ----- what a restart has seen -----

  /** A restart that refuses a cluster has seen a reason to, and nothing else makes it refuse. */
  lemma RefusedForAReason(checks: seq<Event>, head: seq<Event>, marked: map<Uid, string>)
    requires checks <= head && HeadExplained(PreflightFailed, checks, head, marked)
    ensures 1 <= |checks| <= 2 && checks[0].CrRead?
    ensures |checks| == 1 ==> checks[0].cr.None? || checks[0].cr.value.status != Running || checks[0].cr.value.instances < 1
    ensures |checks| == 2 ==>
              checks[0].cr.Some? && (checks[1].ListFailed? || (checks[1].Listed? &&
                (|checks[1].pods| != checks[0].cr.value.instances || checks[0].cr.value.status != Running ||
                 checks[0].cr.value.instances < 1 ||
                 exists p | p in checks[1].pods ::
                   p.deleting || !p.running || !p.ready ||
                   (p.notes.Some? && (RollingUpdate in p.notes.value || MarkedBy in p.notes.value)))))
  {
    if |checks| == 2 && checks[1].Listed? {
      var cr, pods := checks[0].cr.value, checks[1].pods;
      if cr.status.Running? && cr.instances >= 1 && |pods| == cr.instances && HealthVerdict(checks, None) {
        var i :| 0 <= i < |pods| && !pods[i].Healthy();
        assert pods[i] in pods;
      }
    }
  }

  /** Every listing of pods that a restart marked from showed a healthy cluster. */
  lemma HeadWasHealthy(head: seq<Event>, marked: map<Uid, string>, k: nat)
    requires MarkedHead(head, marked) && k < |head| && head[k].Listed?
    ensures k > 0 && head[k - 1].CrRead? && head[k - 1].cr.Some? && head[k - 1].cr.value.status == Running
    ensures 1 <= head[k - 1].cr.value.instances == |head[k].pods|
    ensures forall p | p in head[k].pods :: !p.deleting && p.running && p.ready
  {
    forall p | p in head[k].pods
      ensures p.Healthy()
    {
      var i :| 0 <= i < |head[k].pods| && head[k].pods[i] == p;
    }
  }

  /** The answers after which a patch was certainly not applied. */
  predicate Refused(answer: Option<ApiError>) {
    answer.Some? && answer.value.Status? && 400 <= answer.value.code <= 499 && answer.value.code != 408
  }

  /** A restart whose trigger was refused ends there; one whose trigger may have been applied waits for the rotation unless
      nobody is to wait. */
  lemma TriggerDecides(api: Api, settings: Settings, start: World, v: World, r: Restart, events: seq<Event>, t: Trace)
    requires Concluded(api, settings, start, v, r, events, t)
    ensures r.err == Some(TriggerRejected) <==> Refused(t.answer)
    ensures r.err == Some(TriggerAmbiguous) <==> t.answer.Some? && !Refused(t.answer) && settings.skipWait
    ensures t.polls != [] <==> !Refused(t.answer) && !settings.skipWait
  {
  }

  lemma EndsWithLastPoll(t: Trace, events: seq<Event>, last: seq<Event>)
    requires events == t.head + (TriggerEvents(t.answer) + Flatten(t.polls) + [] + [])
    requires t.polls != [] && EventsOf(t.polls[|t.polls| - 1]) == last
    ensures |events| >= |last| && events[|events| - |last|..] == last
  {
    var before := t.head + (TriggerEvents(t.answer) + Flatten(t.polls[..|t.polls| - 1]));
    assert events == before + last;
  }

  /** A restart that succeeds after waiting ends with the two reads that show the rotation complete. */
  lemma SuccessShows(api: Api, settings: Settings, start: World, v: World, r: Restart, events: seq<Event>, t: Trace)
    requires Concluded(api, settings, start, v, r, events, t) && r.err.None? && !settings.skipWait
    ensures |events| >= 2 && events[|events| - 2].CrRead? && events[|events| - 2].cr.Some? && events[|events| - 1].Listed?
    ensures RotationComplete(events[|events| - 2].cr.value, events[|events| - 1].pods, r.marked)
  {
    var cr, pods := CompletedShows(t.start, settings.Stall(), settings.maxRetriggers, t.polls, r.marked);
    EndsWithLastPoll(t, events, [CrRead(Some(cr)), Listed(pods)]);
    assert events[|events| - 2..][0] == events[|events| - 2] && events[|events| - 2..][1] == events[|events| - 1];
  }
}
