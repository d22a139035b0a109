/** Waiting for the operator to rotate the marked pods, with bounded re-triggers. */
module Rotation {
  import opened Common
  import opened PodStore
  import opened Marking
  import opened Cleanup

  // ----- one observation -----

  datatype Observation = Observation(cr: Cr, replaced: nat, total: nat, stillMarked: nat, active: nat, ready: nat)
  {
    predicate Done() {
      replaced == total && stillMarked == 0 && active == cr.instances && ready == active && cr.status.Running?
    }
  }

  /** The marker counts only with a non-empty value. */
  predicate ShowsMarker(p: Pod) { p.Has(RollingUpdate) && p.Get(RollingUpdate) != Some("") }

  function CountMarkers(pods: seq<Pod>): nat {
    if pods == [] then 0 else CountMarkers(pods[..|pods| - 1]) + if ShowsMarker(pods[|pods| - 1]) then 1 else 0
  }

  function CountActive(pods: seq<Pod>): nat {
    if pods == [] then 0 else CountActive(pods[..|pods| - 1]) + if pods[|pods| - 1].deleting then 0 else 1
  }

  function CountReady(pods: seq<Pod>): nat {
    if pods == [] then 0 else CountReady(pods[..|pods| - 1]) + if pods[|pods| - 1].Healthy() then 1 else 0
  }

  lemma {:induction false} CountsMean(pods: seq<Pod>)
    ensures CountMarkers(pods) == 0 <==> forall p | p in pods :: !ShowsMarker(p)
    ensures CountReady(pods) <= CountActive(pods)
    ensures CountReady(pods) == CountActive(pods) <==> forall p | p in pods :: p.deleting || p.Healthy()
  {
    if pods != [] {
      var init, last := pods[..|pods| - 1], pods[|pods| - 1];
      CountsMean(init);
      assert pods == init + [last];
      assert forall p :: p in pods <==> p in init || p == last;
    }
  }

  function Replaced(marked: set<Uid>, pods: seq<Pod>): set<Uid> {
    set u | u in marked && Unlisted(pods, u)
  }

  predicate ObservationOf(obs: Observation, cr: Cr, pods: seq<Pod>, marked: map<Uid, string>) {
    obs == Observation(cr, |Replaced(marked.Keys, pods)|, |marked|, CountMarkers(pods), CountActive(pods), CountReady(pods))
  }

  /** The positions of the pods that are not being deleted. */
  function Staying(pods: seq<Pod>): set<nat> { set i: nat | i < |pods| && !pods[i].deleting }

  lemma {:induction false} ActiveAreStaying(pods: seq<Pod>)
    ensures CountActive(pods) == |Staying(pods)|
  {
    if pods != [] {
      var init, last := pods[..|pods| - 1], pods[|pods| - 1];
      ActiveAreStaying(init);
      assert Staying(pods) == Staying(init) + if last.deleting then {} else {|init|};
    }
  }

  /** Independently of any counter: what a finished rotation looks like. */
  predicate RotationComplete(cr: Cr, pods: seq<Pod>, marked: map<Uid, string>) {
    && cr.status == Running
    && (forall p | p in pods :: p.uid !in marked)
    && (forall p | p in pods && p.notes.Some? && RollingUpdate in p.notes.value :: p.notes.value[RollingUpdate] == "")
    && (forall p | p in pods && !p.deleting :: p.running && p.ready)
    && |Staying(pods)| == cr.instances
  }

  lemma SubsetOfEqualSize(a: set<Uid>, b: set<Uid>)
    requires a <= b && |a| == |b|
    ensures a == b
  {
    assert b == a + (b - a);
    assert |b| == |a| + |b - a|;
  }

  lemma DoneMeansComplete(obs: Observation, cr: Cr, pods: seq<Pod>, marked: map<Uid, string>)
    requires ObservationOf(obs, cr, pods, marked)
    ensures obs.Done() <==> RotationComplete(cr, pods, marked)
  {
    CountsMean(pods);
    ActiveAreStaying(pods);
    var replaced := Replaced(marked.Keys, pods);
    assert replaced <= marked.Keys;
    if |replaced| == |marked| {
      assert |marked.Keys| == |marked|;
      SubsetOfEqualSize(replaced, marked.Keys);
    } else {
      assert (forall u | u in marked :: Unlisted(pods, u)) ==> replaced == marked.Keys;
    }
  }

  method CountReplaced(marked: map<Uid, string>, pods: seq<Pod>) returns (replaced: nat)
    ensures replaced == |Replaced(marked.Keys, pods)|
  {
    replaced := 0;
    var left := marked.Keys;
    ghost var seen: set<Uid> := {};
    while left != {}
      invariant left <= marked.Keys && seen == marked.Keys - left
      invariant replaced == |Replaced(seen, pods)|
      decreases |left|
    {
      var u :| u in left;
      left := left - {u};
      assert Replaced(seen + {u}, pods) == Replaced(seen, pods) + if Unlisted(pods, u) then {u} else {};
      seen := seen + {u};
      if Unlisted(pods, u) {
        replaced := replaced + 1;
      }
    }
    assert seen == marked.Keys;
  }

  /** The two reads of an observation. */
  predicate BothRead(events: seq<Event>, cr: Cr, pods: seq<Pod>) { events == [CrRead(Some(cr)), Listed(pods)] }

  predicate ReadFailed(events: seq<Event>) {
    events == [CrRead(None)] || (|events| == 2 && events[0].CrRead? && events[0].cr.Some? && events[1] == ListFailed)
  }

  method ReadRotation(api: Api, w: World) returns (v: World, cr: Option<Cr>, pods: seq<Pod>, ghost events: seq<Event>)
    requires Sound(w.store)
    ensures Sound(v.store) && Quiet(api.run, w.store, v.store) && w.turn < v.turn && w.clock <= v.clock
    ensures Happened(api, w, v, events)
    ensures cr.None? ==> ReadFailed(events)
    ensures cr.Some? ==> BothRead(events, cr.value, pods) && IsListing(v.store, pods)
  {
    var state, list;
    v, state := GetCr(api, w);
    if state.Err? {
      return v, None, [], [CrRead(None)];
    }
    ghost var middle := v;
    v, list := ListPods(api, v);
    QuietTransitive(api.run, w.store, middle.store, v.store);
    HappenedThen(api, w, middle, v, [CrRead(Some(state.value))], [if list.Ok? then Listed(list.value) else ListFailed]);
    events := [CrRead(Some(state.value)), if list.Ok? then Listed(list.value) else ListFailed];
    if list.Err? {
      return v, None, [], events;
    }
    cr, pods := Some(state.value), list.value;
  }

  method CountPods(pods: seq<Pod>) returns (stillMarked: nat, active: nat, ready: nat)
    ensures stillMarked == CountMarkers(pods) && active == CountActive(pods) && ready == CountReady(pods)
  {
    stillMarked, active, ready := 0, 0, 0;
    for i := 0 to |pods|
      invariant stillMarked == CountMarkers(pods[..i]) && active == CountActive(pods[..i]) && ready == CountReady(pods[..i])
    {
      assert pods[..i + 1][..i] == pods[..i];
      if ShowsMarker(pods[i]) {
        stillMarked := stillMarked + 1;
      }
      if !pods[i].deleting {
        active := active + 1;
        if pods[i].running && pods[i].ready {
          ready := ready + 1;
        }
      }
    }
    assert pods[..|pods|] == pods;
  }

  method ObserveRotation(api: Api, w: World, marked: map<Uid, string>)
    returns (v: World, obs: Option<Observation>, pods: seq<Pod>, ghost events: seq<Event>)
    requires Sound(w.store)
    ensures Sound(v.store) && Quiet(api.run, w.store, v.store) && w.turn < v.turn && w.clock <= v.clock
    ensures Happened(api, w, v, events)
    ensures obs.None? ==> ReadFailed(events)
    ensures obs.Some? ==>
              && BothRead(events, obs.value.cr, pods) && IsListing(v.store, pods)
              && ObservationOf(obs.value, obs.value.cr, pods, marked)
  {
    var cr;
    v, cr, pods, events := ReadRotation(api, w);
    if cr.None? {
      return v, None, [], events;
    }
    var stillMarked, active, ready := CountPods(pods);
    var replaced := CountReplaced(marked, pods);
    obs := Some(Observation(cr.value, replaced, |marked|, stillMarked, active, ready));
  }

  // ----- when a sync is triggered again -----

  const SECOND := 1_000_000_000

  const MAX_STALL := 60 * SECOND

  /** min(60s, timeout/3) in nanoseconds, unless set explicitly. */
  function EffectiveStall(explicit: int, timeoutSeconds: nat): (stall: nat)
    ensures explicit <= 0 ==> 3 * stall <= timeoutSeconds * 1_000_000_000 && stall <= 60_000_000_000
    ensures explicit <= 0 && timeoutSeconds >= 1 ==> stall > 0
    ensures explicit <= 0 && stall < 60_000_000_000 ==> timeoutSeconds * 1_000_000_000 < 3 * (stall + 1)
    ensures explicit > 0 ==> stall == explicit
  {
    if explicit > 0 then explicit
    else
      var third := timeoutSeconds * SECOND / 3;
      if third > MAX_STALL then MAX_STALL else third
  }

  datatype Cause = FailedStatus | NoProgress

  /** One poll of the waiter: when, what it saw, whether it triggered a sync again, and what it did. `reported` says
      that the context had not expired when a read failed. */
  datatype Poll =
    | Missed(at: nat, reported: bool, log: seq<Event>)
    | Seen(at: nat, obs: Observation, sent: Option<Cause>, log: seq<Event>)

  /** A re-trigger was sent at this poll. */
  predicate Sent(p: Poll) { p.Seen? && p.sent.Some? }

  /** When the last re-trigger was sent, or the waiting began. */
  function LastTrigger(start: nat, polls: seq<Poll>): nat {
    if polls == [] then start
    else
      var p := polls[|polls| - 1];
      if p.Seen? && p.sent.Some? then p.at else LastTrigger(start, polls[..|polls| - 1])
  }

  /** The largest number of replaced pods seen so far. */
  function Best(polls: seq<Poll>): nat {
    if polls == [] then 0
    else
      var p, best := polls[|polls| - 1], Best(polls[..|polls| - 1]);
      if p.Seen? && p.obs.replaced > best then p.obs.replaced else best
  }

  /** When that number last grew, or the waiting began. */
  function LastProgress(start: nat, polls: seq<Poll>): nat {
    if polls == [] then start
    else
      var p, init := polls[|polls| - 1], polls[..|polls| - 1];
      if p.Seen? && p.obs.replaced > Best(init) then p.at else LastProgress(start, init)
  }

  function Sends(polls: seq<Poll>): nat {
    if polls == [] then 0
    else Sends(polls[..|polls| - 1]) + if polls[|polls| - 1].Seen? && polls[|polls| - 1].sent.Some? then 1 else 0
  }

  function Max(a: nat, b: nat): nat { if a > b then a else b }

  /** Whether this observation calls for another sync, given everything polled before. */
  function Reason(start: nat, stall: nat, earlier: seq<Poll>, at: nat, obs: Observation): Option<Cause> {
    if obs.Done() then None
    else if obs.cr.status.SyncFailed? || obs.cr.status.UpdateFailed? then
      (if at - LastTrigger(start, earlier) >= stall / 4 then Some(FailedStatus) else None)
    else if obs.replaced < obs.total &&
            at - Max(if obs.replaced > Best(earlier) then at else LastProgress(start, earlier), LastTrigger(start, earlier)) >= stall
      then Some(NoProgress)
    else None
  }

  function Decision(start: nat, stall: nat, max: nat, earlier: seq<Poll>, at: nat, obs: Observation): Option<Cause> {
    if Sends(earlier) < max then Reason(start, stall, earlier, at, obs) else None
  }

  predicate Ordered(start: nat, polls: seq<Poll>) {
    && (forall i | 0 <= i < |polls| :: start <= polls[i].at)
    && (forall i, j | 0 <= i < j < |polls| :: polls[i].at <= polls[j].at)
  }

  /** A possible history of polls. */
  predicate History(start: nat, stall: nat, max: nat, polls: seq<Poll>) {
    && Ordered(start, polls)
    && forall i | 0 <= i < |polls| && polls[i].Seen? ::
         polls[i].sent == Decision(start, stall, max, polls[..i], polls[i].at, polls[i].obs)
  }

  lemma HistoryPrefix(start: nat, stall: nat, max: nat, polls: seq<Poll>, k: nat)
    requires History(start, stall, max, polls) && k <= |polls|
    ensures History(start, stall, max, polls[..k])
  {
    forall i | 0 <= i < k && polls[..k][i].Seen?
      ensures polls[..k][i].sent == Decision(start, stall, max, polls[..k][..i], polls[i].at, polls[i].obs)
    {
      assert polls[..k][..i] == polls[..i];
    }
  }

  lemma {:induction false} SendsWithin(start: nat, stall: nat, max: nat, polls: seq<Poll>, k: nat)
    requires History(start, stall, max, polls) && k <= |polls|
    ensures Sends(polls[..k]) <= max
  {
    if k > 0 {
      SendsWithin(start, stall, max, polls, k - 1);
      assert polls[..k][..k - 1] == polls[..k - 1];
    }
  }

  /** One wait sends at most `max` re-triggers. */
  lemma RetriggersBounded(start: nat, stall: nat, max: nat, polls: seq<Poll>)
    requires History(start, stall, max, polls)
    ensures Sends(polls) <= max
  {
    SendsWithin(start, stall, max, polls, |polls|);
    assert polls[..|polls|] == polls;
  }

  lemma {:induction false} LastTriggerIsLatest(start: nat, polls: seq<Poll>, i: nat)
    requires Ordered(start, polls) && i < |polls| && polls[i].Seen? && polls[i].sent.Some?
    ensures polls[i].at <= LastTrigger(start, polls)
  {
    var init := polls[..|polls| - 1];
    if i < |init| && !(polls[|polls| - 1].Seen? && polls[|polls| - 1].sent.Some?) {
      assert init[i] == polls[i];
      LastTriggerIsLatest(start, init, i);
    }
  }

  lemma {:induction false} TimesFromStart(start: nat, polls: seq<Poll>)
    requires Ordered(start, polls)
    ensures start <= LastTrigger(start, polls) && start <= LastProgress(start, polls)
  {
    if polls != [] {
      TimesFromStart(start, polls[..|polls| - 1]);
    }
  }

  /** Two re-triggers are at least a quarter of the stall interval apart; one for lack of progress even a whole one. */
  lemma RetriggerSpacing(start: nat, stall: nat, max: nat, polls: seq<Poll>, i: nat, j: nat)
    requires History(start, stall, max, polls)
    requires i < j < |polls| && polls[i].Seen? && polls[i].sent.Some? && polls[j].Seen? && polls[j].sent.Some?
    ensures polls[j].at - polls[i].at >= stall / 4
    ensures polls[j].sent == Some(NoProgress) ==> polls[j].at - polls[i].at >= stall
  {
    var earlier := polls[..j];
    HistoryPrefix(start, stall, max, polls, j);
    assert earlier[i] == polls[i];
    LastTriggerIsLatest(start, earlier, i);
    assert polls[j].sent == Decision(start, stall, max, earlier, polls[j].at, polls[j].obs);
  }

  /** No re-trigger comes sooner than a quarter of the stall interval after the waiting began. */
  lemma RetriggerAfterStart(start: nat, stall: nat, max: nat, polls: seq<Poll>, j: nat)
    requires History(start, stall, max, polls) && j < |polls| && polls[j].Seen? && polls[j].sent.Some?
    ensures polls[j].at - start >= stall / 4
  {
    HistoryPrefix(start, stall, max, polls, j);
    TimesFromStart(start, polls[..j]);
    assert polls[j].sent == Decision(start, stall, max, polls[..j], polls[j].at, polls[j].obs);
  }

  /** `polls[i]` saw more replaced pods than every poll before it. */
  predicate Progressed(polls: seq<Poll>, i: nat)
    requires i < |polls|
  {
    polls[i].Seen? && polls[i].obs.replaced > 0 &&
    forall k | 0 <= k < i && polls[k].Seen? :: polls[k].obs.replaced < polls[i].obs.replaced
  }

  lemma {:induction false} BestIsMaximum(polls: seq<Poll>)
    ensures forall k | 0 <= k < |polls| && polls[k].Seen? :: polls[k].obs.replaced <= Best(polls)
    ensures Best(polls) == 0 || exists k | 0 <= k < |polls| :: polls[k].Seen? && polls[k].obs.replaced == Best(polls)
  {
    if polls != [] {
      var init := polls[..|polls| - 1];
      BestIsMaximum(init);
      assert forall k | 0 <= k < |init| :: init[k] == polls[k];
      if Best(polls) == Best(init) && Best(polls) != 0 {
        var k :| 0 <= k < |init| && init[k].Seen? && init[k].obs.replaced == Best(init);
        assert polls[k].obs.replaced == Best(polls);
      }
    }
  }

  lemma {:induction false} LastProgressIsLatest(start: nat, polls: seq<Poll>, i: nat)
    requires Ordered(start, polls) && i < |polls| && Progressed(polls, i)
    ensures polls[i].at <= LastProgress(start, polls)
  {
    var init, p := polls[..|polls| - 1], polls[|polls| - 1];
    BestIsMaximum(init);
    if i == |init| {
      assert forall k | 0 <= k < |init| && init[k].Seen? :: polls[k].obs.replaced < p.obs.replaced;
    } else if !(p.Seen? && p.obs.replaced > Best(init)) {
      assert init[i] == polls[i];
      assert Progressed(init, i);
      LastProgressIsLatest(start, init, i);
    }
  }

  lemma ProgressedBeatsBest(polls: seq<Poll>, i: nat)
    requires i < |polls| && Progressed(polls, i)
    ensures polls[i].obs.replaced > Best(polls[..i])
  {
    BestIsMaximum(polls[..i]);
  }

  /** A re-trigger for lack of progress comes at least the stall interval after the start and after the last poll at
      which more pods had been replaced than ever before. */
  lemma NoProgressMeansQuiet(start: nat, stall: nat, max: nat, polls: seq<Poll>, i: nat, j: nat)
    requires History(start, stall, max, polls)
    requires i <= j < |polls| && polls[j].Seen? && polls[j].sent == Some(NoProgress)
    ensures polls[j].at - start >= stall
    ensures Progressed(polls, i) && stall > 0 ==> i < j && polls[j].at - polls[i].at >= stall
  {
    var earlier := polls[..j];
    HistoryPrefix(start, stall, max, polls, j);
    TimesFromStart(start, earlier);
    assert polls[j].sent == Decision(start, stall, max, earlier, polls[j].at, polls[j].obs);
    if Progressed(polls, j) {
      ProgressedBeatsBest(polls, j);
    }
    if i < j && Progressed(polls, i) {
      assert earlier[i] == polls[i];
      assert Progressed(earlier, i);
      LastProgressIsLatest(start, earlier, i);
    }
  }

  lemma {:induction false} LastTriggerIsSome(start: nat, polls: seq<Poll>)
    ensures LastTrigger(start, polls) == start ||
            exists i | 0 <= i < |polls| :: Sent(polls[i]) && polls[i].at == LastTrigger(start, polls)
  {
    if polls != [] && !Sent(polls[|polls| - 1]) {
      var init := polls[..|polls| - 1];
      LastTriggerIsSome(start, init);
      assert forall i | 0 <= i < |init| :: init[i] == polls[i];
    }
  }

  lemma BeatingBestIsProgress(polls: seq<Poll>)
    requires polls != [] && polls[|polls| - 1].Seen? && polls[|polls| - 1].obs.replaced > Best(polls[..|polls| - 1])
    ensures Progressed(polls, |polls| - 1)
  {
    var init := polls[..|polls| - 1];
    BestIsMaximum(init);
    assert forall i | 0 <= i < |init| :: init[i] == polls[i];
  }

  lemma {:induction false} LastProgressIsSome(start: nat, polls: seq<Poll>)
    ensures LastProgress(start, polls) == start ||
            exists i: nat | i < |polls| :: Progressed(polls, i) && polls[i].at == LastProgress(start, polls)
  {
    if polls != [] {
      var init, p := polls[..|polls| - 1], polls[|polls| - 1];
      if p.Seen? && p.obs.replaced > Best(init) {
        BeatingBestIsProgress(polls);
      } else {
        LastProgressIsSome(start, init);
        if LastProgress(start, init) != start {
          var i: nat :| i < |init| && Progressed(init, i) && init[i].at == LastProgress(start, init);
          assert polls[i] == init[i] && Progressed(polls, i);
        }
      }
    }
  }

  /** Nothing was sent, and the waiting had not begun, in the last `span` before the poll at `j`. */
  predicate NoneSentWithin(start: nat, polls: seq<Poll>, j: nat, span: nat)
    requires j < |polls|
  {
    polls[j].at - start >= span && forall i | 0 <= i < j && Sent(polls[i]) :: polls[j].at - polls[i].at >= span
  }

  lemma SentWithin(start: nat, polls: seq<Poll>, j: nat, span: nat)
    requires Ordered(start, polls) && j < |polls|
    ensures polls[j].at - LastTrigger(start, polls[..j]) >= span <==> NoneSentWithin(start, polls, j, span)
  {
    var earlier := polls[..j];
    TimesFromStart(start, earlier);
    LastTriggerIsSome(start, earlier);
    forall i | 0 <= i < j && Sent(polls[i])
      ensures polls[i].at <= LastTrigger(start, earlier)
    {
      assert earlier[i] == polls[i];
      LastTriggerIsLatest(start, earlier, i);
    }
    if LastTrigger(start, earlier) != start {
      var i :| 0 <= i < j && Sent(earlier[i]) && earlier[i].at == LastTrigger(start, earlier);
      assert polls[i] == earlier[i];
    }
  }

  /** While the operator reports a failed sync, a re-trigger is sent exactly if one is left and none was sent, nor had the
      waiting begun, within the last quarter of the stall interval. */
  lemma FailedStatusSends(start: nat, stall: nat, max: nat, polls: seq<Poll>, j: nat)
    requires History(start, stall, max, polls) && j < |polls| && polls[j].Seen?
    requires polls[j].obs.cr.status == SyncFailed || polls[j].obs.cr.status == UpdateFailed
    ensures polls[j].sent == Some(FailedStatus) <==> Sends(polls[..j]) < max && NoneSentWithin(start, polls, j, stall / 4)
    ensures polls[j].sent.None? <==> polls[j].sent != Some(FailedStatus)
  {
    SentWithin(start, polls, j, stall / 4);
    assert polls[j].sent == Decision(start, stall, max, polls[..j], polls[j].at, polls[j].obs);
  }

  /** No pod was replaced, and the waiting had not begun, in the last `span` before the poll at `j`. */
  predicate NoProgressWithin(start: nat, polls: seq<Poll>, j: nat, span: nat)
    requires j < |polls|
  {
    polls[j].at - start >= span && forall i: nat | i <= j && Progressed(polls, i) :: polls[j].at - polls[i].at >= span
  }

  lemma ProgressWithin(start: nat, polls: seq<Poll>, j: nat, span: nat)
    requires Ordered(start, polls) && j < |polls|
    ensures polls[j].at - LastProgress(start, polls[..j + 1]) >= span <==> NoProgressWithin(start, polls, j, span)
  {
    var now := polls[..j + 1];
    TimesFromStart(start, now);
    LastProgressIsSome(start, now);
    forall i: nat | i <= j && Progressed(polls, i)
      ensures polls[i].at <= LastProgress(start, now)
    {
      assert now[i] == polls[i] && Progressed(now, i);
      LastProgressIsLatest(start, now, i);
    }
    if LastProgress(start, now) != start {
      var i: nat :| i < |now| && Progressed(now, i) && now[i].at == LastProgress(start, now);
      assert polls[i] == now[i] && Progressed(polls, i);
    }
  }

  /** Otherwise, while some marked pod is left, a re-trigger is sent exactly if one is left and for a whole stall interval
      none was sent and no further pod was replaced. */
  lemma NoProgressSends(start: nat, stall: nat, max: nat, polls: seq<Poll>, j: nat)
    requires History(start, stall, max, polls) && j < |polls| && polls[j].Seen?
    requires polls[j].obs.cr.status != SyncFailed && polls[j].obs.cr.status != UpdateFailed
    requires polls[j].obs.replaced < polls[j].obs.total
    ensures polls[j].sent == Some(NoProgress) <==>
              Sends(polls[..j]) < max && NoneSentWithin(start, polls, j, stall) && NoProgressWithin(start, polls, j, stall)
    ensures polls[j].sent.None? <==> polls[j].sent != Some(NoProgress)
  {
    SentWithin(start, polls, j, stall);
    ProgressWithin(start, polls, j, stall);
    assert polls[..j + 1][..j] == polls[..j];
    assert polls[j].sent == Decision(start, stall, max, polls[..j], polls[j].at, polls[j].obs);
  }

  // ----- the waiting loop -----

  predicate AnyReported(polls: seq<Poll>) { exists i | 0 <= i < |polls| :: polls[i].Missed? && polls[i].reported }

  predicate RetriggerFailed(p: Poll) {
    p.Seen? && p.sent.Some? && |p.log| > 2 && p.log[2].Triggered? && p.log[2].answer.Some?
  }

  predicate AnyRetriggerFailed(polls: seq<Poll>) { exists i | 0 <= i < |polls| :: RetriggerFailed(polls[i]) }

  function TripIf(b: bool): seq<Event> { if b then [Tripped] else [] }

  /** Everything one poll does, in order: its reads, then possibly the re-trigger, and the trip directly after the first
      reported API error or after a failed re-trigger. */
  predicate PollLog(p: Poll, firstError: bool, marked: map<Uid, string>) {
    match p
    case Missed(_, reported, log) =>
      || log == [CrRead(None)] + TripIf(reported && firstError)
      || (|log| >= 2 && log[0].CrRead? && log[0].cr.Some? && log == [log[0], ListFailed] + TripIf(reported && firstError))
    case Seen(_, obs, sent, log) =>
      && |log| >= 2 && log[0].CrRead? && log[0].cr.Some? && log[1].Listed?
      && ObservationOf(obs, log[0].cr.value, log[1].pods, marked)
      && (sent.None? ==> |log| == 2)
      && (sent.Some? ==> |log| >= 3 && log[2].Triggered? && log[3..] == TripIf(log[2].answer.Some?))
  }

  predicate LogsMatch(polls: seq<Poll>, marked: map<Uid, string>) {
    forall i | 0 <= i < |polls| :: PollLog(polls[i], !AnyReported(polls[..i]), marked)
  }

  /** The rotation was seen complete, which ends the wait. */
  predicate Finishes(p: Poll) { p.Seen? && p.obs.Done() }

  /** A poll, and the wait for the next tick unless it ends the waiting. */
  function EventsOf(p: Poll): seq<Event> { p.log + if Finishes(p) then [] else [Idle] }

  function Flatten(polls: seq<Poll>): seq<Event> {
    if polls == [] then [] else Flatten(polls[..|polls| - 1]) + EventsOf(polls[|polls| - 1])
  }

  /** The reads a poll begins with. */
  function ReadsOf(p: Poll): seq<Event> {
    if |p.log| >= 2 && p.log[0] != CrRead(None) then p.log[..2] else if p.log != [] then p.log[..1] else []
  }

  predicate Over(turn: nat, timeout: nat, parent: nat) { turn >= timeout || turn >= parent }

  /** Each poll begins as soon as the one before it and its tick are over, and only if the context had not expired then; it
      bears the time at which its reads were answered, and an API error counts only if the context had not expired by then. */
  ghost predicate Timed(api: Api, start: Moment, timeout: nat, parent: nat, polls: seq<Poll>) {
    polls == [] ||
    var front, p := polls[..|polls| - 1], polls[|polls| - 1];
    var begin := MomentAfter(api, start, Flatten(front));
    var answered := MomentAfter(api, begin, ReadsOf(p));
    && Timed(api, start, timeout, parent, front)
    && (front != [] ==> !Over(begin.turn, timeout, parent))
    && p.at == answered.clock
    && (p.Missed? ==> (p.reported <==> !Over(answered.turn, timeout, parent)))
  }

  lemma TimedSnoc(api: Api, start: Moment, timeout: nat, parent: nat, polls: seq<Poll>, p: Poll, begin: Moment, answered: Moment)
    requires Timed(api, start, timeout, parent, polls) && begin == MomentAfter(api, start, Flatten(polls))
    requires answered == MomentAfter(api, begin, ReadsOf(p)) && p.at == answered.clock
    requires polls != [] ==> !Over(begin.turn, timeout, parent)
    requires p.Missed? ==> (p.reported <==> !Over(answered.turn, timeout, parent))
    ensures Timed(api, start, timeout, parent, polls + [p])
  {
    assert (polls + [p])[..|polls|] == polls;
  }

  /** What the loop remembers between polls is what the history says. */
  predicate Remembered(start: nat, polls: seq<Poll>, lastProgress: nat, lastTrigger: nat, replaced: nat,
                       retriggers: nat) {
    && lastProgress == LastProgress(start, polls)
    && lastTrigger == LastTrigger(start, polls)
    && replaced == Best(polls)
    && retriggers == Sends(polls)
  }

  lemma Prefixes(polls: seq<Poll>, p: Poll)
    ensures forall i | 0 <= i < |polls| :: (polls + [p])[i] == polls[i] && (polls + [p])[..i] == polls[..i]
    ensures (polls + [p])[..|polls|] == polls
  {
  }

  lemma HistorySnoc(start: nat, stall: nat, max: nat, polls: seq<Poll>, p: Poll)
    requires History(start, stall, max, polls)
    requires start <= p.at && (polls != [] ==> polls[|polls| - 1].at <= p.at)
    requires p.Seen? ==> p.sent == Decision(start, stall, max, polls, p.at, p.obs)
    ensures History(start, stall, max, polls + [p])
  {
    Prefixes(polls, p);
    forall i, j | 0 <= i < j < |polls + [p]|
      ensures (polls + [p])[i].at <= (polls + [p])[j].at
    {
      if j == |polls| && i < |polls| - 1 {
        assert polls[i].at <= polls[|polls| - 1].at;
      }
    }
  }

  lemma LogsSnoc(polls: seq<Poll>, p: Poll, marked: map<Uid, string>)
    requires LogsMatch(polls, marked) && PollLog(p, !AnyReported(polls), marked)
    ensures LogsMatch(polls + [p], marked)
    ensures Flatten(polls + [p]) == Flatten(polls) + EventsOf(p)
  {
    Prefixes(polls, p);
    forall i | 0 <= i < |polls + [p]|
      ensures PollLog((polls + [p])[i], !AnyReported((polls + [p])[..i]), marked)
    {
      if i < |polls| {
        assert PollLog(polls[i], !AnyReported(polls[..i]), marked);
      }
    }
  }

  lemma FlagsSnoc(polls: seq<Poll>, p: Poll)
    ensures AnyReported(polls + [p]) <==> AnyReported(polls) || (p.Missed? && p.reported)
    ensures AnyRetriggerFailed(polls + [p]) <==> AnyRetriggerFailed(polls) || RetriggerFailed(p)
  {
    Prefixes(polls, p);
    assert (polls + [p])[|polls|] == p;
    if AnyReported(polls) {
      var i :| 0 <= i < |polls| && polls[i].Missed? && polls[i].reported;
      assert (polls + [p])[i].reported;
    }
    if AnyRetriggerFailed(polls) {
      var i :| 0 <= i < |polls| && RetriggerFailed(polls[i]);
      assert RetriggerFailed((polls + [p])[i]);
    }
  }

  datatype WaitError = Interrupted | TimedOut

  function Later(a: nat, b: nat): nat { if a > b then a else b }

  /** The waiter's switch over a not-done observation. */
  method NeedsTrigger(stall: nat, obs: Observation, now: nat, lastProgress: nat,
                      lastTrigger: nat) returns (reason: Option<Cause>)
    ensures reason ==
      if obs.cr.status.SyncFailed? || obs.cr.status.UpdateFailed? then
        (if now - lastTrigger >= stall / 4 then Some(FailedStatus) else None)
      else if obs.replaced < obs.total && now - Max(lastProgress, lastTrigger) >= stall then Some(NoProgress)
      else None
  {
    reason := None;
    if obs.cr.status.SyncFailed? || obs.cr.status.UpdateFailed? {
      if now - lastTrigger >= stall / 4 {
        reason := Some(FailedStatus);
      }
    } else if obs.replaced < obs.total && now - Later(lastProgress, lastTrigger) >= stall {
      reason := Some(NoProgress);
    }
  }

  /** The loop's own variables. */
  datatype Memory = Memory(lastProgress: nat, lastTrigger: nat, replaced: nat, retriggers: nat, retriggerFailed: bool, apiFailed: bool)

  ghost predicate Recorded(start: nat, stall: nat, max: nat, polls: seq<Poll>, marked: map<Uid, string>,
                           retriggerFailed: bool, apiFailed: bool) {
    && History(start, stall, max, polls)
    && LogsMatch(polls, marked)
    && (retriggerFailed <==> AnyRetriggerFailed(polls))
    && (apiFailed <==> AnyReported(polls))
  }

  predicate NoneDone(polls: seq<Poll>) {
    forall i | 0 <= i < |polls| :: polls[i].Missed? || !polls[i].obs.Done()
  }

  /** The state of the waiting that began at `start`, between two polls. */
  ghost predicate Waiting(api: Api, start: World, w: World, stall: nat, max: nat, timeout: nat, parent: nat, polls: seq<Poll>,
                          marked: map<Uid, string>, m: Memory) {
    && Sound(w.store) && Ours(api.run, w.store, marked)
    && start.turn <= w.turn && start.clock <= w.clock && (polls != [] ==> polls[|polls| - 1].at <= w.clock)
    && Happened(api, start, w, Flatten(polls)) && Timed(api, Now(start), timeout, parent, polls)
    && Recorded(start.clock, stall, max, polls, marked, m.retriggerFailed, m.apiFailed)
    && Remembered(start.clock, polls, m.lastProgress, m.lastTrigger, m.replaced, m.retriggers)
    && NoneDone(polls)
  }

  /** The wait succeeded: the last poll saw a finished rotation, and no instance with this run's ID is left. */
  ghost predicate Rotated(run: string, s: Store, polls: seq<Poll>, marked: map<Uid, string>) {
    && polls != [] && polls[|polls| - 1].Seen? && polls[|polls| - 1].obs.Done()
    && NoneDone(polls[..|polls| - 1])
    && ClaimsWithin(run, s, {})
    && forall u | u in marked :: Dead(s, u)
  }

  lemma NoneDoneSnoc(polls: seq<Poll>, p: Poll)
    ensures NoneDone(polls) && !(p.Seen? && p.obs.Done()) ==> NoneDone(polls + [p])
    ensures (polls + [p])[..|polls|] == polls
  {
  }

  lemma RecordedSnoc(start: nat, stall: nat, max: nat, polls: seq<Poll>, marked: map<Uid, string>,
                     retriggerFailed: bool, apiFailed: bool, p: Poll)
    requires Recorded(start, stall, max, polls, marked, retriggerFailed, apiFailed)
    requires start <= p.at && (polls != [] ==> polls[|polls| - 1].at <= p.at)
    requires p.Seen? ==> p.sent == Decision(start, stall, max, polls, p.at, p.obs)
    requires PollLog(p, !apiFailed, marked)
    ensures Recorded(start, stall, max, polls + [p], marked, retriggerFailed || RetriggerFailed(p), apiFailed || (p.Missed? && p.reported))
    ensures Flatten(polls + [p]) == Flatten(polls) + EventsOf(p)
  {
    HistorySnoc(start, stall, max, polls, p);
    LogsSnoc(polls, p, marked);
    FlagsSnoc(polls, p);
  }

  lemma DoneMeansGone(run: string, s: Store, pods: seq<Pod>, marked: map<Uid, string>, cr: Cr)
    requires Sound(s) && IsListing(s, pods) && Ours(run, s, marked) && RotationComplete(cr, pods, marked)
    ensures ClaimsWithin(run, s, {}) && forall u | u in marked :: Dead(s, u)
  {
    FreshListingHolds(run, marked, s, pods);
    forall n | n in s.pods
      ensures !s.pods[n].Held(run)
    {
      var u := s.pods[n].uid;
      assert u in marked ==> Unlisted(pods, u) && Dead(s, u);
    }
  }

  lemma RememberedMissed(start: nat, polls: seq<Poll>, p: Poll, lastProgress: nat, lastTrigger: nat, replaced: nat,
                         retriggers: nat)
    requires Remembered(start, polls, lastProgress, lastTrigger, replaced, retriggers) && p.Missed?
    ensures Remembered(start, polls + [p], lastProgress, lastTrigger, replaced, retriggers)
  {
    assert (polls + [p])[..|polls|] == polls;
  }

  /** The next poll after `polls`, begun at `begin`. */
  ghost predicate NextPoll(api: Api, begin: Moment, start: nat, stall: nat, max: nat, timeout: nat, parent: nat, polls: seq<Poll>,
                           marked: map<Uid, string>, p: Poll) {
    var answered := MomentAfter(api, begin, ReadsOf(p));
    && PollLog(p, !AnyReported(polls), marked)
    && p.at == answered.clock
    && (p.Missed? ==> (p.reported <==> !Over(answered.turn, timeout, parent)))
    && (p.Seen? ==> p.sent == Decision(start, stall, max, polls, p.at, p.obs))
  }

  lemma MissedNext(api: Api, begin: Moment, start: nat, stall: nat, max: nat, timeout: nat, parent: nat, polls: seq<Poll>,
                   marked: map<Uid, string>, seen: seq<Event>, p: Poll)
    requires ReadFailed(seen) && p.Missed?
    requires var answered := MomentAfter(api, begin, seen);
             p.at == answered.clock && (p.reported <==> !Over(answered.turn, timeout, parent))
    requires p.log == seen + TripIf(p.reported && !AnyReported(polls))
    ensures NextPoll(api, begin, start, stall, max, timeout, parent, polls, marked, p)
  {
    if |seen| == 2 {
      assert seen == [seen[0], ListFailed];
      assert p.log[..2] == seen;
    } else {
      assert p.log[..1] == seen && p.log[0] == CrRead(None);
    }
  }

  lemma SeenNext(api: Api, begin: Moment, start: nat, stall: nat, max: nat, timeout: nat, parent: nat, polls: seq<Poll>,
                 marked: map<Uid, string>, seen: seq<Event>, pods: seq<Pod>, more: seq<Event>, p: Poll)
    requires p.Seen? && BothRead(seen, p.obs.cr, pods) && ObservationOf(p.obs, p.obs.cr, pods, marked)
    requires p.at == MomentAfter(api, begin, seen).clock && p.log == seen + more
    requires p.sent == Decision(start, stall, max, polls, p.at, p.obs)
    requires if p.sent.None? then more == [] else |more| >= 1 && more[0].Triggered? && more[1..] == TripIf(more[0].answer.Some?)
    ensures NextPoll(api, begin, start, stall, max, timeout, parent, polls, marked, p)
  {
    assert p.log[..2] == seen && p.log[2..] == more;
    assert p.sent.Some? ==> p.log[2] == more[0] && p.log[3..] == more[1..];
  }

  /** A failed observation; the first one in time trips at once. */
  method Miss(api: Api, w: World, expired: bool, apiFailed: bool, seen: seq<Event>) returns (v: World, poll: Poll, more: seq<Event>)
    ensures v == w || v == Trip(w)
    ensures more == TripIf(!expired && !apiFailed) && Happened(api, w, v, more)
    ensures poll == Missed(w.clock, !expired, seen + more)
  {
    v, more := w, [];
    HappenedNothing(api, w);
    if !expired && !apiFailed {
      TripHappens(api, w);
      v, more := Trip(w), [Tripped];
    }
    poll := Missed(w.clock, !expired, seen + more);
  }

  lemma RememberedSeen(start: nat, polls: seq<Poll>, p: Poll, lastProgress: nat, lastTrigger: nat, replaced: nat,
                       retriggers: nat)
    requires Remembered(start, polls, lastProgress, lastTrigger, replaced, retriggers) && p.Seen?
    ensures Remembered(start, polls + [p],
                       if p.obs.replaced > replaced then p.at else lastProgress,
                       if p.sent.Some? then p.at else lastTrigger,
                       Max(p.obs.replaced, replaced),
                       retriggers + if p.sent.Some? then 1 else 0)
  {
    assert (polls + [p])[..|polls|] == polls;
  }

  /** Touch the resource again; a failure trips at once. */
  method Retrigger(api: Api, w: World, marked: map<Uid, string>) returns (v: World, more: seq<Event>)
    requires Sound(w.store) && Ours(api.run, w.store, marked)
    ensures Sound(v.store) && Ours(api.run, v.store, marked) && w.turn < v.turn && w.clock <= v.clock
    ensures Happened(api, w, v, more)
    ensures |more| >= 1 && more[0].Triggered? && more[1..] == TripIf(more[0].answer.Some?)
  {
    var answer;
    v, answer := TriggerSync(api, w);
    OursStays(api.run, w.store, v.store, marked);
    more := [Triggered(answer)];
    if answer.Some? {
      TripHappens(api, v);
      HappenedThen(api, w, v, Trip(v), more, [Tripped]);
      v, more := Trip(v), more + [Tripped];
    }
  }

  /** A successful observation of an unfinished rotation. */
  method Decide(api: Api, w: World, marked: map<Uid, string>, ghost start: nat, stall: nat, max: nat, ghost polls: seq<Poll>,
                m0: Memory, o: Observation, seen: seq<Event>)
    returns (v: World, poll: Poll, m: Memory, more: seq<Event>)
    requires Sound(w.store) && Ours(api.run, w.store, marked) && !o.Done()
    requires Remembered(start, polls, m0.lastProgress, m0.lastTrigger, m0.replaced, m0.retriggers)
    ensures Sound(v.store) && Ours(api.run, v.store, marked) && w.turn <= v.turn && w.clock <= v.clock
    ensures Happened(api, w, v, more)
    ensures poll.Seen? && poll.at == w.clock && poll.obs == o && poll.log == seen + more
    ensures if poll.sent.None? then more == [] else |more| >= 1 && more[0].Triggered? && more[1..] == TripIf(more[0].answer.Some?)
    ensures poll.sent == Decision(start, stall, max, polls, poll.at, o)
    ensures Remembered(start, polls + [poll], m.lastProgress, m.lastTrigger, m.replaced, m.retriggers)
  {
    m, v, more := m0, w, [];
    HappenedNothing(api, w);
    var now := w.clock;
    if o.replaced > m.replaced {
      m := m.(replaced := o.replaced, lastProgress := now);
    }
    var reason := NeedsTrigger(stall, o, now, m.lastProgress, m.lastTrigger);
    if reason.Some? && m.retriggers < max {
      v, more := Retrigger(api, v, marked);
      m := m.(retriggers := m.retriggers + 1, lastTrigger := now);
    } else {
      reason := None;
    }
    poll := Seen(now, o, reason, seen + more);
    RememberedSeen(start, polls, poll, m0.lastProgress, m0.lastTrigger, m0.replaced, m0.retriggers);
  }

  /** What follows from an observation, or from the failure of one. */
  method React(api: Api, ghost begin: Moment, w: World, marked: map<Uid, string>, ghost start: nat, stall: nat, max: nat,
               timeout: nat, parent: nat, ghost polls: seq<Poll>, m0: Memory, obs: Option<Observation>, ghost pods: seq<Pod>,
               seen: seq<Event>)
    returns (v: World, poll: Poll, m: Memory, ghost more: seq<Event>)
    requires Sound(w.store) && Ours(api.run, w.store, marked) && Now(w) == MomentAfter(api, begin, seen)
    requires Remembered(start, polls, m0.lastProgress, m0.lastTrigger, m0.replaced, m0.retriggers) && (m0.apiFailed <==> AnyReported(polls))
    requires obs.None? ==> ReadFailed(seen)
    requires obs.Some? ==>
               && BothRead(seen, obs.value.cr, pods) && IsListing(w.store, pods)
               && ObservationOf(obs.value, obs.value.cr, pods, marked)
    ensures Sound(v.store) && Ours(api.run, v.store, marked) && w.turn <= v.turn && poll.at == w.clock <= v.clock
    ensures Happened(api, w, v, more) && poll.log == seen + more
    ensures NextPoll(api, begin, start, stall, max, timeout, parent, polls, marked, poll)
    ensures Finishes(poll) ==> ClaimsWithin(api.run, v.store, {}) && forall u | u in marked :: Dead(v.store, u)
    ensures !Finishes(poll) ==> Remembered(start, polls + [poll], m.lastProgress, m.lastTrigger, m.replaced, m.retriggers)
  {
    m := m0;
    if obs.None? {
      v, poll, more := Miss(api, w, Expired(w, timeout) || Expired(w, parent), m.apiFailed, seen);
      MissedNext(api, begin, start, stall, max, timeout, parent, polls, marked, seen, poll);
      RememberedMissed(start, polls, poll, m.lastProgress, m.lastTrigger, m.replaced, m.retriggers);
    } else if obs.value.Done() {
      DoneMeansComplete(obs.value, obs.value.cr, pods, marked);
      DoneMeansGone(api.run, w.store, pods, marked, obs.value.cr);
      v, poll, more := w, Seen(w.clock, obs.value, None, seen), [];
      HappenedNothing(api, w);
      Assoc(seen, [], []);
      SeenNext(api, begin, start, stall, max, timeout, parent, polls, marked, seen, pods, more, poll);
    } else {
      v, poll, m, more := Decide(api, w, marked, start, stall, max, polls, m0, obs.value, seen);
      SeenNext(api, begin, start, stall, max, timeout, parent, polls, marked, seen, pods, more, poll);
    }
  }

  method PollOnce(api: Api, w: World, marked: map<Uid, string>, ghost start: nat, stall: nat, max: nat, timeout: nat,
                  parent: nat, ghost polls: seq<Poll>, m0: Memory)
    returns (v: World, poll: Poll, m: Memory)
    requires Sound(w.store) && Ours(api.run, w.store, marked)
    requires Remembered(start, polls, m0.lastProgress, m0.lastTrigger, m0.replaced, m0.retriggers) && (m0.apiFailed <==> AnyReported(polls))
    ensures Sound(v.store) && Ours(api.run, v.store, marked) && w.turn < v.turn && w.clock <= poll.at <= v.clock
    ensures Happened(api, w, v, poll.log)
    ensures NextPoll(api, Now(w), start, stall, max, timeout, parent, polls, marked, poll)
    ensures Finishes(poll) ==> ClaimsWithin(api.run, v.store, {}) && forall u | u in marked :: Dead(v.store, u)
    ensures !Finishes(poll) ==> Remembered(start, polls + [poll], m.lastProgress, m.lastTrigger, m.replaced, m.retriggers)
  {
    var obs, pods;
    ghost var log: seq<Event>, more: seq<Event>;
    v, obs, pods, log := ObserveRotation(api, w, marked);
    OursStays(api.run, w.store, v.store, marked);
    Assoc(w.log, log, []);
    ghost var answered := v;
    v, poll, m, more := React(api, Now(w), v, marked, start, stall, max, timeout, parent, polls, m0, obs, pods, v.log[|w.log|..]);
    HappenedThen(api, w, answered, v, log, more);
  }

  /** The log and the times after one more poll, and the tick after it unless it was the last one. */
  lemma PollHappened(api: Api, start: World, w: World, u: World, v: World, stall: nat, max: nat, timeout: nat, parent: nat,
                     polls: seq<Poll>, marked: map<Uid, string>, p: Poll)
    requires Happened(api, start, w, Flatten(polls)) && Timed(api, Now(start), timeout, parent, polls)
    requires polls != [] ==> !Over(w.turn, timeout, parent)
    requires Happened(api, w, u, p.log) && (if Finishes(p) then v == u else Happened(api, u, v, [Idle]))
    requires NextPoll(api, Now(w), start.clock, stall, max, timeout, parent, polls, marked, p)
    requires Flatten(polls + [p]) == Flatten(polls) + EventsOf(p)
    ensures Happened(api, start, v, Flatten(polls + [p])) && Timed(api, Now(start), timeout, parent, polls + [p])
  {
    if Finishes(p) {
      assert p.log + [] == p.log;
    } else {
      HappenedThen(api, w, u, v, p.log, [Idle]);
    }
    HappenedThen(api, start, w, v, Flatten(polls), EventsOf(p));
    TimedSnoc(api, Now(start), timeout, parent, polls, p, Now(w), MomentAfter(api, Now(w), ReadsOf(p)));
  }

  /** What one more poll adds to the record of the waiting. */
  lemma PollAdds(api: Api, start: World, w: World, u: World, v: World, stall: nat, max: nat, timeout: nat, parent: nat,
                 polls: seq<Poll>, marked: map<Uid, string>, m: Memory, p: Poll)
    requires Waiting(api, start, w, stall, max, timeout, parent, polls, marked, m)
    requires polls != [] ==> !Over(w.turn, timeout, parent)
    requires w.clock <= p.at && Happened(api, w, u, p.log) && (if Finishes(p) then v == u else Happened(api, u, v, [Idle]))
    requires NextPoll(api, Now(w), start.clock, stall, max, timeout, parent, polls, marked, p)
    ensures Happened(api, start, v, Flatten(polls + [p])) && Timed(api, Now(start), timeout, parent, polls + [p])
    ensures Recorded(start.clock, stall, max, polls + [p], marked,
                     m.retriggerFailed || RetriggerFailed(p), m.apiFailed || (p.Missed? && p.reported))
    ensures (polls + [p])[..|polls|] == polls && (!Finishes(p) ==> NoneDone(polls + [p]))
  {
    RecordedSnoc(start.clock, stall, max, polls, marked, m.retriggerFailed, m.apiFailed, p);
    NoneDoneSnoc(polls, p);
    PollHappened(api, start, w, u, v, stall, max, timeout, parent, polls, marked, p);
  }

  /** One poll and, unless it ends the waiting, the tick after it. */
  method PollAndWait(api: Api, w: World, ghost start: World, marked: map<Uid, string>, stall: nat, max: nat, timeout: nat,
                     parent: nat, before: seq<Poll>, m0: Memory)
    returns (v: World, polls: seq<Poll>, m: Memory, done: bool)
    requires Waiting(api, start, w, stall, max, timeout, parent, before, marked, m0)
    requires before != [] ==> !Expired(w, timeout) && !Expired(w, parent)
    ensures w.turn < v.turn && polls != []
    ensures !done ==> Waiting(api, start, v, stall, max, timeout, parent, polls, marked, m)
    ensures done ==>
              && Sound(v.store) && Ours(api.run, v.store, marked)
              && Happened(api, start, v, Flatten(polls)) && Timed(api, Now(start), timeout, parent, polls)
              && Recorded(start.clock, stall, max, polls, marked, m.retriggerFailed, m.apiFailed)
              && Rotated(api.run, v.store, polls, marked)
  {
    var poll;
    v, poll, m := PollOnce(api, w, marked, start.clock, stall, max, timeout, parent, before, m0);
    polls := before + [poll];
    m := m.(retriggerFailed := m0.retriggerFailed || RetriggerFailed(poll),
            apiFailed := m0.apiFailed || (poll.Missed? && poll.reported));
    done := poll.Seen? && poll.obs.Done();
    ghost var polled := v;
    if !done {
      v := Wait(api, v);
      OursStays(api.run, polled.store, v.store, marked);
    }
    PollAdds(api, start, w, polled, v, stall, max, timeout, parent, before, marked, m0, poll);
  }

  method WaitForRotation(api: Api, w: World, marked: map<Uid, string>, stall: nat, max: nat, timeout: nat, parent: nat)
    returns (v: World, polls: seq<Poll>, retriggerFailed: bool, apiFailed: bool, waitErr: Option<WaitError>)
    requires Sound(w.store) && Ours(api.run, w.store, marked)
    ensures Sound(v.store) && Ours(api.run, v.store, marked)
    // every poll follows right after the tick that found the context unexpired, and nothing else takes time
    ensures polls != [] && Happened(api, w, v, Flatten(polls)) && Timed(api, Now(w), timeout, parent, polls)
    ensures Recorded(w.clock, stall, max, polls, marked, retriggerFailed, apiFailed)
    ensures waitErr.None? ==> Rotated(api.run, v.store, polls, marked)
    ensures waitErr.Some? ==>
              && NoneDone(polls)
              && (Expired(v, timeout) || Expired(v, parent))
              && (waitErr.value.Interrupted? <==> Expired(v, parent))
  {
    v, polls, waitErr := w, [], None;
    var m := Memory(w.clock, w.clock, 0, 0, false, false);
    HappenedNothing(api, w);
    while true
      invariant Waiting(api, w, v, stall, max, timeout, parent, polls, marked, m)
      invariant polls != [] ==> !Expired(v, timeout) && !Expired(v, parent)
      decreases timeout - v.turn
    {
      var done;
      v, polls, m, done := PollAndWait(api, v, w, marked, stall, max, timeout, parent, polls, m);
      retriggerFailed, apiFailed := m.retriggerFailed, m.apiFailed;
      if done {
        return;
      }
      if Expired(v, timeout) || Expired(v, parent) {
        waitErr := Some(if Expired(v, parent) then Interrupted else TimedOut);
        return;
      }
    }
  }

  // ----- what the log of a finished wait shows -----

  /** A wait that succeeded ends with the two reads that show the rotation complete. */
  lemma CompletedShows(start: nat, stall: nat, max: nat, polls: seq<Poll>, marked: map<Uid, string>) returns (cr: Cr, pods: seq<Pod>)
    requires History(start, stall, max, polls) && LogsMatch(polls, marked) && polls != [] && Finishes(polls[|polls| - 1])
    ensures EventsOf(polls[|polls| - 1]) == [CrRead(Some(cr)), Listed(pods)]
    ensures RotationComplete(cr, pods, marked)
  {
    var p, earlier := polls[|polls| - 1], polls[..|polls| - 1];
    assert PollLog(p, !AnyReported(earlier), marked);
    assert p.sent == Decision(start, stall, max, earlier, p.at, p.obs);
    cr, pods := p.log[0].cr.value, p.log[1].pods;
    DoneMeansComplete(p.obs, cr, pods, marked);
  }
}
