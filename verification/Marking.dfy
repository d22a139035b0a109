/** Preflight and marking of one PostgreSQL cluster. */
module Marking {
  import opened Common
  import opened PodStore

  const MARK_ATTEMPTS := 3

  predicate HealthyCluster(cr: Cr, pods: seq<Pod>) {
    && cr.status.Running? && cr.instances >= 1
    && |pods| == cr.instances
    && forall i | 0 <= i < |pods| :: pods[i].Healthy()
  }

  /** What the two reads of a health check show: the plan they yield, if any. */
  predicate HealthVerdict(events: seq<Event>, plan: Option<seq<Pod>>) {
    || (|events| == 1 && events[0].CrRead? && plan.None? &&
        (events[0].cr.Some? ==> !events[0].cr.value.status.Running? || events[0].cr.value.instances < 1))
    || (|events| == 2 && events[0].CrRead? && events[0].cr.Some? && events[1].ListFailed? && plan.None?)
    || (|events| == 2 && events[0].CrRead? && events[0].cr.Some? && events[1].Listed? &&
        plan == if HealthyCluster(events[0].cr.value, events[1].pods) then Some(events[1].pods) else None)
  }

  method HealthyPods(api: Api, w: World) returns (v: World, plan: Option<seq<Pod>>, ghost events: seq<Event>)
    requires Sound(w.store)
    ensures Sound(v.store) && Quiet(api.run, w.store, v.store) && w.turn <= v.turn && w.clock <= v.clock
    ensures Happened(api, w, v, events) && HealthVerdict(events, plan)
    ensures plan.Some? ==> IsListing(v.store, plan.value)
  {
    var cr, list;
    v, cr := GetCr(api, w);
    events := [CrRead(if cr.Ok? then Some(cr.value) else None)];
    if cr.Err? || !cr.value.status.Running? || cr.value.instances < 1 {
      return v, None, events;
    }
    ghost var middle := v;
    v, list := ListPods(api, v);
    QuietTransitive(api.run, w.store, middle.store, v.store);
    HappenedThen(api, w, middle, v, events, [if list.Ok? then Listed(list.value) else ListFailed]);
    if list.Err? {
      return v, None, events + [ListFailed];
    }
    events := events + [Listed(list.value)];
    if HealthyCluster(cr.value, list.value) {
      plan := Some(list.value);
    } else {
      plan := None;
    }
  }

  /** A health check that shows a healthy cluster, one of whose pods somebody has asked to rotate. */
  predicate AlreadyAsked(events: seq<Event>) {
    && |events| == 2 && events[1].Listed? && HealthVerdict(events, Some(events[1].pods))
    && exists p | p in events[1].pods :: !p.Free()
  }

  /** The cluster is healthy and nobody has asked for a rotation yet. */
  method Preflight(api: Api, w: World) returns (v: World, plan: Option<seq<Pod>>, ghost events: seq<Event>)
    requires Sound(w.store)
    ensures Sound(v.store) && Quiet(api.run, w.store, v.store) && w.turn <= v.turn && w.clock <= v.clock
    ensures Happened(api, w, v, events)
    ensures plan.Some? ==> HealthVerdict(events, plan) && IsListing(v.store, plan.value)
    ensures plan.Some? ==> forall p | p in plan.value :: p.Free()
    ensures plan.None? ==> HealthVerdict(events, None) || AlreadyAsked(events)
    ensures forall e | e in events :: e.CrRead? || e.Listed? || e.ListFailed?
  {
    v, plan, events := HealthyPods(api, w);
    if plan.Some? {
      for i := 0 to |plan.value|
        invariant forall k | 0 <= k < i :: plan.value[k].Free()
      {
        if !plan.value[i].Free() {
          assert plan.value[i] in events[1].pods;
          return v, None, events;
        }
      }
    }
  }

  // ----- what a log says -----

  /** The pods that were, or may have been, marked. */
  function MarkedIn(events: seq<Event>): map<Uid, string> {
    if events == [] then map[]
    else
      var m, e := MarkedIn(events[..|events| - 1]), events[|events| - 1];
      if e.Marked? && MaybeApplied(e.answer) then m[e.target.uid := e.target.name] else m
  }

  lemma MarkedInSnoc(events: seq<Event>, e: Event)
    ensures MarkedIn(events + [e]) ==
            if e.Marked? && MaybeApplied(e.answer) then MarkedIn(events)[e.target.uid := e.target.name] else MarkedIn(events)
  {
    assert (events + [e])[..|events|] == events;
  }

  lemma MarksJoin(before: map<Uid, string>, events: seq<Event>, e: Event)
    ensures before + MarkedIn(events + [e]) ==
            if e.Marked? && MaybeApplied(e.answer) then (before + MarkedIn(events))[e.target.uid := e.target.name]
            else before + MarkedIn(events)
  {
    MarkedInSnoc(events, e);
  }

  lemma {:induction false} MarkedInAppend(a: seq<Event>, b: seq<Event>)
    ensures MarkedIn(a + b) == MarkedIn(a) + MarkedIn(b)
  {
    if b == [] {
      assert a + b == a;
    } else {
      var c, e := b[..|b| - 1], b[|b| - 1];
      assert a + b == (a + c) + [e] && b == c + [e];
      MarkedInAppend(a, c);
      MarkedInSnoc(a + c, e);
      MarkedInSnoc(c, e);
    }
  }

  /** The pods of the last listing, or of the plan if there was none. */
  function LastListing(events: seq<Event>, plan: seq<Pod>): seq<Pod> {
    if events == [] then plan
    else if events[|events| - 1].Listed? then events[|events| - 1].pods
    else LastListing(events[..|events| - 1], plan)
  }

  lemma {:induction false} LastListingAppend(a: seq<Event>, b: seq<Event>, plan: seq<Pod>)
    ensures LastListing(a + b, plan) == LastListing(b, LastListing(a, plan))
  {
    if b == [] {
      assert a + b == a;
    } else {
      assert (a + b)[..|a + b| - 1] == a + b[..|b| - 1];
      LastListingAppend(a, b[..|b| - 1], plan);
    }
  }

  function Listings(events: seq<Event>): nat {
    if events == [] then 0 else Listings(events[..|events| - 1]) + if events[|events| - 1].Listed? then 1 else 0
  }

  lemma {:induction false} ListingsAppend(a: seq<Event>, b: seq<Event>)
    ensures Listings(a + b) == Listings(a) + Listings(b)
  {
    if b == [] {
      assert a + b == a;
    } else {
      assert (a + b)[..|a + b| - 1] == a + b[..|b| - 1];
      ListingsAppend(a, b[..|b| - 1]);
    }
  }

  function UidsOf(pods: seq<Pod>): set<Uid> { set p | p in pods :: p.uid }

  /** The instances that were seen in some listing. */
  function SeenUids(events: seq<Event>): set<Uid> {
    if events == [] then {}
    else SeenUids(events[..|events| - 1]) + if events[|events| - 1].Listed? then UidsOf(events[|events| - 1].pods) else {}
  }

  lemma {:induction false} SeenUidsAppend(a: seq<Event>, b: seq<Event>)
    ensures SeenUids(a + b) == SeenUids(a) + SeenUids(b)
  {
    if b == [] {
      assert a + b == a;
    } else {
      assert (a + b)[..|a + b| - 1] == a + b[..|b| - 1];
      SeenUidsAppend(a, b[..|b| - 1]);
    }
  }

  lemma SeenInCheck(events: seq<Event>)
    requires |events| == 2 && events[0].CrRead? && events[1].Listed?
    ensures SeenUids(events) == UidsOf(events[1].pods)
  {
    assert events[..1] == [events[0]] && [events[0]][..0] == [];
    assert SeenUids(events[..1]) == {};
  }

  /** What happened since the last listing. */
  function SinceListing(events: seq<Event>): seq<Event> {
    if events == [] || events[|events| - 1].Listed? then []
    else SinceListing(events[..|events| - 1]) + [events[|events| - 1]]
  }

  lemma {:induction false} SinceListingGrows(a: seq<Event>, b: seq<Event>)
    requires Listings(b) == 0
    ensures SinceListing(a + b) == SinceListing(a) + b
  {
    if b == [] {
      assert a + b == a;
    } else {
      var c, e := b[..|b| - 1], b[|b| - 1];
      assert (a + b)[..|a + b| - 1] == a + c && b == c + [e];
      SinceListingGrows(a, c);
      Assoc(SinceListing(a), c, [e]);
    }
  }

  lemma {:induction false} OnlyMarks(events: seq<Event>, plan: seq<Pod>)
    requires forall e | e in events :: e.Marked? || e.Tripped?
    ensures Listings(events) == 0 && LastListing(events, plan) == plan
  {
    if events != [] {
      assert events[|events| - 1] in events;
      OnlyMarks(events[..|events| - 1], plan);
    }
  }

  // ----- marking -----

  /** The pod changed since it was read: the answer is a definite non-application and the plan is refreshed. */
  predicate Stale(answer: Option<ApiError>) {
    answer.Some? && (IsNotFound(answer.value) || IsRetryablePatchError(answer.value))
  }

  /** A marking patch that takes effect acts on exactly the pod that was read free of any marker. */
  predicate SafeMark(e: Event) {
    e.Marked? ==> e.target.Free() && (e.hit.Some? ==> e.hit.value == e.target)
  }

  ghost predicate Plannable(s: Store, pods: seq<Pod>) {
    forall p | p in pods :: Known(s, p) && p.Free() && p.member
  }

  lemma PlannableStays(s: Store, t: Store, pods: seq<Pod>)
    requires Sound(s) && Sound(t) && Later(s, t) && Plannable(s, pods)
    ensures Plannable(t, pods)
  {
    forall p | p in pods
      ensures Known(t, p)
    {
      KnownStays(s, t, p);
    }
  }

  /** What one round over the pending pods did: in order, until the first answer that is neither success nor stale. */
  predicate RoundEvents(pending: seq<Pod>, events: seq<Event>, fatal: bool) {
    && |events| <= |pending|
    && (forall i | 0 <= i < |events| :: events[i].Marked? && events[i].target == pending[i] && SafeMark(events[i]))
    && (forall i | 0 <= i < |events| - (if fatal then 1 else 0) :: events[i].answer.None? || Stale(events[i].answer))
    && (fatal ==> events != [] && events[|events| - 1].answer.Some? && !Stale(events[|events| - 1].answer))
    && (!fatal ==> |events| == |pending|)
  }

  /** `marked` covers every live instance carrying this run's ID, and names only instances that have existed. */
  ghost predicate Ours(run: string, s: Store, marked: map<Uid, string>) {
    && ClaimsWithin(run, s, marked.Keys)
    && (forall u | u in marked :: u < s.nextUid)
    && (forall n | n in s.pods && s.pods[n].uid in marked :: s.pods[n].member)
  }

  lemma OursStays(run: string, s: Store, t: Store, marked: map<Uid, string>)
    requires Sound(s) && Sound(t) && Quiet(run, s, t) && Ours(run, s, marked)
    ensures Ours(run, t, marked)
  {
    forall n | n in t.pods && t.pods[n].uid in marked
      ensures t.pods[n].member
    {
      assert Descends(s, t.pods[n]);
    }
  }

  method MarkOne(api: Api, w: World, pod: Pod, before: map<Uid, string>)
    returns (v: World, marked: map<Uid, string>, answer: Option<ApiError>, ghost e: Event)
    requires Sound(w.store) && Known(w.store, pod) && pod.Free() && pod.member && Ours(api.run, w.store, before)
    ensures Sound(v.store) && Later(w.store, v.store) && w.turn <= v.turn && w.clock <= v.clock
    ensures Happened(api, w, v, [e]) && e.Marked? && e.target == pod && e.answer == answer && SafeMark(e)
    ensures marked == if MaybeApplied(answer) then before[pod.uid := pod.name] else before
    ensures Ours(api.run, v.store, marked)
  {
    v, answer, e := PatchMark(api, w, pod);
    marked := before;
    if answer.None? {
      marked := before[pod.uid := pod.name];
    } else if !Stale(answer) && !MutationDefinitelyFailed(answer.value) {
      marked := before[pod.uid := pod.name];
    }
    assert before[pod.uid := pod.name].Keys == before.Keys + {pod.uid};
    KnownStays(w.store, v.store, pod);
    forall n | n in v.store.pods && v.store.pods[n].uid in before
      ensures v.store.pods[n].member
    {
      assert Descends(w.store, v.store.pods[n]);
    }
  }

  lemma RoundEventsSnoc(pending: seq<Pod>, events: seq<Event>, e: Event, fatal: bool)
    requires |events| < |pending| && RoundEvents(pending[..|events|], events, false)
    requires e.Marked? && e.target == pending[|events|] && SafeMark(e)
    requires fatal <==> e.answer.Some? && !Stale(e.answer)
    ensures RoundEvents(if fatal then pending else pending[..|events| + 1], events + [e], fatal)
  {
  }

  lemma {:induction false} MarkedInMeans(events: seq<Event>, uid: Uid)
    requires uid in MarkedIn(events)
    ensures exists i | 0 <= i < |events| :: events[i].Marked? && events[i].target.uid == uid
  {
    var init, e := events[..|events| - 1], events[|events| - 1];
    if e.Marked? && e.target.uid == uid {
    } else {
      MarkedInMeans(init, uid);
      var i :| 0 <= i < |init| && init[i].Marked? && init[i].target.uid == uid;
      assert events[i] == init[i];
    }
  }

  /** A round marks pods of its own list only. */
  lemma RoundMarksOwn(pending: seq<Pod>, round: seq<Event>, fatal: bool)
    requires RoundEvents(pending, round, fatal)
    ensures MarkedIn(round).Keys <= UidsOf(pending)
  {
    forall u | u in MarkedIn(round)
      ensures u in UidsOf(pending)
    {
      MarkedInMeans(round, u);
      var i :| 0 <= i < |round| && round[i].Marked? && round[i].target.uid == u;
      assert pending[i] in pending;
    }
  }

  lemma {:induction false} MarkedInCovers(events: seq<Event>, i: nat)
    requires i < |events| && events[i].Marked? && MaybeApplied(events[i].answer)
    ensures events[i].target.uid in MarkedIn(events)
  {
    if i < |events| - 1 {
      MarkedInCovers(events[..|events| - 1], i);
    }
  }

  predicate NoneStale(events: seq<Event>) {
    forall i | 0 <= i < |events| && events[i].Marked? :: !Stale(events[i].answer)
  }

  lemma NoneStaleSnoc(events: seq<Event>, e: Event)
    requires e.Marked?
    ensures NoneStale(events + [e]) <==> NoneStale(events) && !Stale(e.answer)
  {
    assert (events + [e])[|events|] == e;
    if NoneStale(events + [e]) {
      assert forall i | 0 <= i < |events| :: (events + [e])[i] == events[i];
    }
  }

  /** Every failed mark so far was one that asks for a refreshed plan. */
  predicate Tolerated(events: seq<Event>) {
    forall e | e in events && e.Marked? :: e.answer.None? || Stale(e.answer)
  }

  predicate Tried(events: seq<Event>, p: Pod) { exists e | e in events :: e.Marked? && e.target == p }

  /** Every pod of the last listing is marked or was tried since, and some of them had changed. */
  predicate RoundOver(events: seq<Event>, plan: seq<Pod>) {
    && (forall p | p in LastListing(events, plan) :: p.uid in MarkedIn(events) || Tried(SinceListing(events), p))
    && !NoneStale(SinceListing(events))
  }

  /** The plan is only refreshed once the round over the last one is over. */
  predicate RefreshesDue(events: seq<Event>, plan: seq<Pod>) {
    events == [] ||
    (RefreshesDue(events[..|events| - 1], plan) &&
     (events[|events| - 1].CrRead? ==> RoundOver(events[..|events| - 1], plan)))
  }

  lemma DueSnoc(events: seq<Event>, plan: seq<Pod>, e: Event)
    requires RefreshesDue(events, plan) && (e.CrRead? ==> RoundOver(events, plan))
    ensures RefreshesDue(events + [e], plan)
  {
    assert (events + [e])[..|events|] == events;
  }

  lemma {:induction false} MarksAreDue(so: seq<Event>, plan: seq<Pod>, round: seq<Event>)
    requires RefreshesDue(so, plan) && forall e | e in round :: e.Marked?
    ensures RefreshesDue(so + round, plan)
  {
    if round == [] {
      assert so + round == so;
    } else {
      var front, e := round[..|round| - 1], round[|round| - 1];
      assert round == front + [e] && e in round;
      MarksAreDue(so, plan, front);
      DueSnoc(so + front, plan, e);
      Assoc(so, front, [e]);
    }
  }

  /** A health check after a round: one read of the resource, perhaps one try to list. */
  lemma CheckIsDue(so: seq<Event>, plan: seq<Pod>, check: seq<Event>)
    requires RefreshesDue(so, plan) && RoundOver(so, plan)
    requires 1 <= |check| <= 2 && (|check| == 2 ==> !check[1].CrRead?)
    ensures RefreshesDue(so + check, plan)
  {
    DueSnoc(so, plan, check[0]);
    if |check| == 1 {
      assert check == [check[0]];
    } else {
      DueSnoc(so + [check[0]], plan, check[1]);
      assert check == [check[0]] + [check[1]];
      Assoc(so, [check[0]], [check[1]]);
    }
  }

  method MarkRound(api: Api, w: World, pending: seq<Pod>, before: map<Uid, string>)
    returns (v: World, marked: map<Uid, string>, stale: seq<string>, fatal: bool, ghost events: seq<Event>)
    requires Sound(w.store) && Plannable(w.store, pending) && Ours(api.run, w.store, before)
    ensures Sound(v.store) && w.turn <= v.turn && w.clock <= v.clock
    ensures Happened(api, w, v, events) && RoundEvents(pending, events, fatal)
    ensures marked == before + MarkedIn(events)
    ensures Ours(api.run, v.store, marked)
    ensures !fatal ==> (stale == [] <==> NoneStale(events))
  {
    v, marked, stale, fatal, events := w, before, [], false, [];
    HappenedNothing(api, w);
    for i := 0 to |pending|
      invariant Sound(v.store) && Plannable(v.store, pending) && w.turn <= v.turn && w.clock <= v.clock
      invariant |events| == i && Happened(api, w, v, events)
      invariant RoundEvents(pending[..i], events, false)
      invariant marked == before + MarkedIn(events)
      invariant Ours(api.run, v.store, marked)
      invariant stale == [] <==> NoneStale(events)
    {
      ghost var was := v;
      var answer;
      ghost var e;
      v, marked, answer, e := MarkOne(api, v, pending[i], marked);
      PlannableStays(was.store, v.store, pending);
      MarksJoin(before, events, e);
      HappenedThen(api, w, was, v, events, [e]);
      fatal := answer.Some? && !Stale(answer);
      RoundEventsSnoc(pending, events, e, fatal);
      NoneStaleSnoc(events, e);
      events := events + [e];
      if fatal {
        return;
      }
      if Stale(answer) {
        stale := stale + [pending[i].name];
      }
    }
    assert pending[..|pending|] == pending;
  }

  datatype MarkFailure = PatchFailed | KeepsChanging | ClusterChanged | ForeignMarker

  /** The pods that are not marked yet, in listing order. */
  function Left(pods: seq<Pod>, marked: map<Uid, string>): (r: seq<Pod>)
    ensures forall p :: p in r <==> p in pods && p.uid !in marked
  {
    if pods == [] then []
    else Left(pods[..|pods| - 1], marked) + if pods[|pods| - 1].uid in marked then [] else [pods[|pods| - 1]]
  }

  /** The pods of a refreshed plan that are left; a marker of somebody else on one of them ends the marking. */
  method Remaining(pods: seq<Pod>, marked: map<Uid, string>) returns (pending: seq<Pod>, foreign: bool)
    ensures foreign <==> exists p | p in pods :: p.uid !in marked && !p.Free()
    ensures !foreign ==> pending == Left(pods, marked) && forall p | p in pending :: p.Free()
  {
    pending, foreign := [], false;
    for i := 0 to |pods|
      invariant pending == Left(pods[..i], marked)
      invariant forall p | p in pods[..i] && p.uid !in marked :: p.Free()
    {
      assert pods[..i + 1][..i] == pods[..i];
      if pods[i].uid !in marked {
        if !pods[i].Free() {
          assert pods[i] in pods;
          return pending, true;
        }
        pending := pending + [pods[i]];
      }
    }
    assert pods[..|pods|] == pods;
  }

  /** Every listing the marking relied on was of a cluster that was healthy when read. */
  predicate Backed(events: seq<Event>) {
    forall k | 0 <= k < |events| && events[k].Listed? ::
      k > 0 && events[k - 1].CrRead? && events[k - 1].cr.Some? && HealthyCluster(events[k - 1].cr.value, events[k].pods)
  }

  /** Why marking stopped, read off the log. */
  predicate Justified(failure: MarkFailure, events: seq<Event>, marked: map<Uid, string>) {
    match failure
    case PatchFailed =>
      && events != [] && var e := events[|events| - 1]; e.Marked? && e.answer.Some? && !Stale(e.answer)
    case KeepsChanging =>
      && Listings(events) == MARK_ATTEMPTS - 1 && !NoneStale(SinceListing(events))
    case ClusterChanged =>
      || (|events| >= 1 && HealthVerdict(events[|events| - 1..], None))
      || (|events| >= 2 && HealthVerdict(events[|events| - 2..], None))
    case ForeignMarker =>
      && events != [] && var e := events[|events| - 1]; e.Listed? && exists p | p in e.pods :: p.uid !in marked && !p.Free()
  }

  /** Refreshing the plan: a new health check, then the pods that are left. */
  method Refresh(api: Api, w: World, marked: map<Uid, string>)
    returns (v: World, pods: seq<Pod>, pending: seq<Pod>, failure: Option<MarkFailure>, ghost events: seq<Event>)
    requires Sound(w.store) && Ours(api.run, w.store, marked)
    ensures Sound(v.store) && Ours(api.run, v.store, marked) && w.turn <= v.turn && w.clock <= v.clock
    ensures Happened(api, w, v, events) && (forall e | e in events :: e.CrRead? || e.Listed? || e.ListFailed?)
    ensures Listings(events) <= 1 && 1 <= |events| <= 2 && (|events| == 2 ==> !events[1].CrRead?)
    ensures failure.Some? ==> failure.value != PatchFailed && failure.value != KeepsChanging
    ensures failure.Some? ==> Justified(failure.value, events, marked)
    ensures failure.None? ==>
              && |events| == 2 && events[1] == Listed(pods) && Backed(events)
              && Plannable(v.store, pending) && pending == Left(pods, marked)
  {
    var plan;
    v, plan, events := HealthyPods(api, w);
    OursStays(api.run, w.store, v.store, marked);
    pods, pending, failure := [], [], None;
    assert Listings(events) <= 1 by {
      assert |events| == 2 ==> events[..1] == [events[0]];
      assert Listings([events[0]]) == 0;
    }
    if plan.None? {
      failure := Some(ClusterChanged);
      assert events[|events| - |events|..] == events;
      return;
    }
    pods := plan.value;
    var foreign;
    pending, foreign := Remaining(pods, marked);
    if foreign {
      failure := Some(ForeignMarker);
    }
  }

  predicate Reads(events: seq<Event>) { forall e | e in events :: e.CrRead? || e.Listed? || e.ListFailed? }

  lemma {:induction false} ReadsMarkNothing(events: seq<Event>)
    requires Reads(events)
    ensures MarkedIn(events) == map[]
  {
    if events != [] {
      assert events[|events| - 1] in events;
      assert forall e | e in events[..|events| - 1] :: e in events;
      ReadsMarkNothing(events[..|events| - 1]);
    }
  }

  lemma BackedAppend(a: seq<Event>, b: seq<Event>)
    requires Backed(a) && Backed(b)
    ensures Backed(a + b)
  {
    forall k | 0 <= k < |a + b| && (a + b)[k].Listed?
      ensures k > 0 && (a + b)[k - 1].CrRead? && (a + b)[k - 1].cr.Some? &&
              HealthyCluster((a + b)[k - 1].cr.value, (a + b)[k].pods)
    {
      if k >= |a| {
        assert b[k - |a|].Listed?;
      }
    }
  }

  predicate MarkingEvent(e: Event) {
    (e.Marked? && SafeMark(e)) || e.CrRead? || e.Listed? || e.ListFailed?
  }

  /** The state of the marking between two rounds. */
  ghost predicate Progress(events: seq<Event>, plan: seq<Pod>, marked: map<Uid, string>, pending: seq<Pod>,
                           refreshes: nat) {
    && marked == MarkedIn(events)
    && Listings(events) == refreshes
    && Backed(events) && Tolerated(events) && RefreshesDue(events, plan)
    && (forall e | e in events :: MarkingEvent(e))
    && (forall p | p in LastListing(events, plan) :: p.uid in marked || p in pending)
    && marked.Keys + UidsOf(pending) <= UidsOf(plan) + SeenUids(events)
  }

  lemma RoundCovers(pending: seq<Pod>, round: seq<Event>, p: Pod)
    requires RoundEvents(pending, round, false) && NoneStale(round) && p in pending
    ensures p.uid in MarkedIn(round)
  {
    var i :| 0 <= i < |pending| && pending[i] == p;
    assert round[i].Marked? && round[i].target == p && !Stale(round[i].answer);
    MarkedInCovers(round, i);
  }

  lemma RoundIsTolerated(pending: seq<Pod>, round: seq<Event>, fatal: bool)
    requires RoundEvents(pending, round, fatal)
    ensures Tolerated(if fatal then round[..|round| - 1] else round)
    ensures forall e | e in round :: e.Marked?
  {
    var calm := if fatal then round[..|round| - 1] else round;
    forall e | e in calm && e.Marked?
      ensures e.answer.None? || Stale(e.answer)
    {
      var i :| 0 <= i < |calm| && calm[i] == e;
      assert round[i] == e;
    }
  }

  lemma {:induction false} NothingSeen(events: seq<Event>)
    requires Listings(events) == 0
    ensures SeenUids(events) == {}
  {
    if events != [] {
      NothingSeen(events[..|events| - 1]);
    }
  }

  /** What a round adds to the log, whether or not it ended with a fatal answer. */
  lemma AfterRound(events: seq<Event>, plan: seq<Pod>, marked: map<Uid, string>, pending: seq<Pod>, refreshes: nat,
                   round: seq<Event>, fatal: bool)
    requires Progress(events, plan, marked, pending, refreshes) && RoundEvents(pending, round, fatal)
    ensures var all := events + round;
            && marked + MarkedIn(round) == MarkedIn(all) && Listings(all) == refreshes && Listings(round) == 0
            && Backed(all) && RefreshesDue(all, plan) && (forall e | e in all :: MarkingEvent(e))
            && LastListing(all, plan) == LastListing(events, plan) && SeenUids(all) == SeenUids(events)
            && (marked + MarkedIn(round)).Keys + UidsOf(pending) <= UidsOf(plan) + SeenUids(all)
  {
    OnlyMarks(round, LastListing(events, plan));
    LastListingAppend(events, round, plan);
    ListingsAppend(events, round);
    MarkedInAppend(events, round);
    assert Backed(round);
    BackedAppend(events, round);
    SeenUidsAppend(events, round);
    NothingSeen(round);
    RoundMarksOwn(pending, round, fatal);
    RoundIsTolerated(pending, round, fatal);
    MarksAreDue(events, plan, round);
  }

  lemma TolerateBoth(a: seq<Event>, b: seq<Event>)
    requires Tolerated(a) && Tolerated(b)
    ensures Tolerated(a + b)
  {
  }

  /** A round without a fatal answer: the marking goes on. */
  lemma RoundKeepsProgress(events: seq<Event>, plan: seq<Pod>, marked: map<Uid, string>, pending: seq<Pod>, refreshes: nat,
                           round: seq<Event>)
    requires Progress(events, plan, marked, pending, refreshes) && RoundEvents(pending, round, false)
    ensures Progress(events + round, plan, marked + MarkedIn(round), pending, refreshes)
  {
    AfterRound(events, plan, marked, pending, refreshes, round, false);
    RoundIsTolerated(pending, round, false);
    TolerateBoth(events, round);
  }

  /** Then every pod left was tried. */
  lemma RoundIsOver(events: seq<Event>, plan: seq<Pod>, marked: map<Uid, string>, pending: seq<Pod>, refreshes: nat,
                    round: seq<Event>)
    requires Progress(events, plan, marked, pending, refreshes) && RoundEvents(pending, round, false)
    requires SinceListing(events) == [] && !NoneStale(round)
    ensures RoundOver(events + round, plan)
  {
    AfterRound(events, plan, marked, pending, refreshes, round, false);
    SinceListingGrows(events, round);
    assert SinceListing(events + round) == round;
    forall p | p in LastListing(events, plan) && p.uid !in marked
      ensures Tried(round, p)
    {
      var i :| 0 <= i < |pending| && pending[i] == p;
      assert round[i] in round && round[i].target == p;
    }
  }

  /** What a health check adds to the log, whether it yields a plan or not. */
  lemma CheckAdds(so: seq<Event>, plan: seq<Pod>, check: seq<Event>)
    requires (forall e | e in so :: MarkingEvent(e)) && Tolerated(so) && RefreshesDue(so, plan) && RoundOver(so, plan)
    requires Reads(check) && 1 <= |check| <= 2 && (|check| == 2 ==> !check[1].CrRead?)
    ensures (forall e | e in so + check :: MarkingEvent(e)) && Tolerated(so + check) && RefreshesDue(so + check, plan)
    ensures MarkedIn(so + check) == MarkedIn(so)
  {
    ReadsMarkNothing(check);
    MarkedInAppend(so, check);
    CheckIsDue(so, plan, check);
    TolerateBoth(so, check);
  }

  lemma AfterRefresh(events: seq<Event>, plan: seq<Pod>, marked: map<Uid, string>, pending: seq<Pod>, refreshes: nat,
                     more: seq<Event>, pods: seq<Pod>)
    requires Progress(events, plan, marked, pending, refreshes) && RoundOver(events, plan)
    requires |more| == 2 && more[0].CrRead? && more[1] == Listed(pods) && Backed(more) && Reads(more)
    ensures Progress(events + more, plan, marked, Left(pods, marked), refreshes + 1)
    ensures SinceListing(events + more) == []
  {
    CheckAdds(events, plan, more);
    LastListingAppend(events, more, plan);
    ListingsAppend(events, more);
    assert more[..1] == [more[0]] && Listings([more[0]]) == 0;
    BackedAppend(events, more);
    SeenUidsAppend(events, more);
    SeenInCheck(more);
    assert UidsOf(Left(pods, marked)) <= UidsOf(pods);
    assert (events + more)[|events + more| - 1] == Listed(pods);
  }

  /** Every failed mark asked for a refreshed plan, except the one that ended the marking. */
  predicate FailuresTolerated(work: seq<Event>, failure: MarkFailure) {
    Tolerated(if failure.PatchFailed? && work != [] then work[..|work| - 1] else work)
  }

  /** The log of a marking that failed: whatever was done, then the trip, then nothing. */
  predicate FailedLog(events: seq<Event>, plan: seq<Pod>, failure: MarkFailure, marked: map<Uid, string>) {
    && events != [] && events[|events| - 1] == Tripped
    && var work := events[..|events| - 1];
       && (forall e | e in work :: MarkingEvent(e))
       && Listings(work) <= MARK_ATTEMPTS - 1
       && marked == MarkedIn(work)
       && RefreshesDue(work, plan) && FailuresTolerated(work, failure)
       && Justified(failure, work, marked) && (failure.KeepsChanging? ==> RoundOver(work, plan))
  }

  /** Only pods of the plan or of a refreshed plan are marked. */
  predicate MarkedFromPlans(events: seq<Event>, plan: seq<Pod>, marked: map<Uid, string>) {
    marked.Keys <= UidsOf(plan) + SeenUids(events)
  }

  /** The log of a marking that succeeded: every pod of the last healthy observation is marked. */
  predicate CoveredLog(events: seq<Event>, plan: seq<Pod>, marked: map<Uid, string>) {
    && (forall e | e in events :: MarkingEvent(e))
    && Listings(events) <= MARK_ATTEMPTS - 1
    && Backed(events) && RefreshesDue(events, plan) && Tolerated(events)
    && marked == MarkedIn(events)
    && MarkedFromPlans(events, plan, marked)
    && forall p | p in LastListing(events, plan) :: p.uid in marked
  }

  lemma FailHere(work: seq<Event>, plan: seq<Pod>, failure: MarkFailure, marked: map<Uid, string>)
    requires (forall e | e in work :: MarkingEvent(e)) && Listings(work) <= MARK_ATTEMPTS - 1
    requires marked == MarkedIn(work) && Justified(failure, work, marked)
    requires RefreshesDue(work, plan) && FailuresTolerated(work, failure) && (failure.KeepsChanging? ==> RoundOver(work, plan))
    ensures FailedLog(work + [Tripped], plan, failure, marked)
  {
    assert (work + [Tripped])[..|work|] == work;
  }

  /** The last `k` events of a log that goes on with `b` are the last `k` of `b`. */
  lemma LastOfBoth(a: seq<Event>, b: seq<Event>, k: nat)
    requires k <= |b|
    ensures (a + b)[|a + b| - k..] == b[|b| - k..]
  {
    Assoc(a, b[..|b| - k], b[|b| - k..]);
    assert b == b[..|b| - k] + b[|b| - k..];
  }

  lemma RefreshJustified(events: seq<Event>, more: seq<Event>, failure: MarkFailure, marked: map<Uid, string>)
    requires failure.ClusterChanged? || failure.ForeignMarker?
    requires Justified(failure, more, marked)
    ensures Justified(failure, events + more, marked)
  {
    if failure.ClusterChanged? {
      LastOfBoth(events, more, 1);
      if |more| >= 2 {
        LastOfBoth(events, more, 2);
      }
    }
  }

  lemma FrontOfBoth(a: seq<Event>, b: seq<Event>)
    requires b != []
    ensures (a + b)[..|a + b| - 1] == a + b[..|b| - 1] && (a + b)[|a + b| - 1] == b[|b| - 1]
  {
  }

  /** A round that ended with a fatal answer. */
  lemma FatalRound(so: seq<Event>, plan: seq<Pod>, before: map<Uid, string>, pending: seq<Pod>, attempt: nat, round: seq<Event>)
    requires 1 <= attempt <= MARK_ATTEMPTS && Progress(so, plan, before, pending, attempt - 1) && RoundEvents(pending, round, true)
    ensures FailedLog(so + (round + [Tripped]), plan, PatchFailed, before + MarkedIn(round))
  {
    AfterRound(so, plan, before, pending, attempt - 1, round, true);
    RoundIsTolerated(pending, round, true);
    FrontOfBoth(so, round);
    TolerateBoth(so, round[..|round| - 1]);
    FailHere(so + round, plan, PatchFailed, before + MarkedIn(round));
    Assoc(so, round, [Tripped]);
  }

  /** The last round that is allowed, and some pod had changed again. */
  lemma LastRound(so: seq<Event>, plan: seq<Pod>, before: map<Uid, string>, pending: seq<Pod>, round: seq<Event>)
    requires Progress(so, plan, before, pending, MARK_ATTEMPTS - 1) && RoundEvents(pending, round, false)
    requires SinceListing(so) == [] && !NoneStale(round)
    ensures FailedLog(so + (round + [Tripped]), plan, KeepsChanging, before + MarkedIn(round))
  {
    RoundKeepsProgress(so, plan, before, pending, MARK_ATTEMPTS - 1, round);
    RoundIsOver(so, plan, before, pending, MARK_ATTEMPTS - 1, round);
    FailHere(so + round, plan, KeepsChanging, before + MarkedIn(round));
    Assoc(so, round, [Tripped]);
  }

  lemma RoundCoversAll(so: seq<Event>, plan: seq<Pod>, before: map<Uid, string>, pending: seq<Pod>, attempt: nat,
                       round: seq<Event>)
    requires 1 <= attempt <= MARK_ATTEMPTS && Progress(so, plan, before, pending, attempt - 1) && RoundEvents(pending, round, false)
    requires NoneStale(round)
    ensures CoveredLog(so + round, plan, before + MarkedIn(round))
  {
    RoundKeepsProgress(so, plan, before, pending, attempt - 1, round);
    AfterRound(so, plan, before, pending, attempt - 1, round, false);
    forall p | p in pending
      ensures p.uid in MarkedIn(round)
    {
      RoundCovers(pending, round, p);
    }
  }

  /** One attempt over the pending pods, added to the log so far; `failure` ends the marking. */
  method MarkAttempt(api: Api, w: World, ghost so: seq<Event>, ghost plan: seq<Pod>, before: map<Uid, string>,
                     pending: seq<Pod>, attempt: nat)
    returns (v: World, marked: map<Uid, string>, failure: Option<MarkFailure>, done: bool, ghost events: seq<Event>)
    requires Sound(w.store) && Plannable(w.store, pending) && Ours(api.run, w.store, before)
    requires 1 <= attempt <= MARK_ATTEMPTS && Progress(so, plan, before, pending, attempt - 1) && SinceListing(so) == []
    ensures Sound(v.store) && Ours(api.run, v.store, marked) && w.turn <= v.turn && w.clock <= v.clock
    ensures Happened(api, w, v, events)
    ensures failure.Some? ==> FailedLog(so + events, plan, failure.value, marked)
    ensures failure.None? && !done ==>
              attempt < MARK_ATTEMPTS && Progress(so + events, plan, marked, pending, attempt - 1) && RoundOver(so + events, plan)
    ensures failure.None? && done ==> CoveredLog(so + events, plan, marked)
  {
    var stale, fatal;
    v, marked, stale, fatal, events := MarkRound(api, w, pending, before);
    failure, done := None, stale == [];
    if fatal || (stale != [] && attempt >= MARK_ATTEMPTS) {
      failure := Some(if fatal then PatchFailed else KeepsChanging);
      if fatal {
        FatalRound(so, plan, before, pending, attempt, events);
      } else {
        LastRound(so, plan, before, pending, events);
      }
      TripHappens(api, v);
      HappenedThen(api, w, v, Trip(v), events, [Tripped]);
      v, events := Trip(v), events + [Tripped];
    } else if done {
      RoundCoversAll(so, plan, before, pending, attempt, events);
    } else {
      RoundKeepsProgress(so, plan, before, pending, attempt - 1, events);
      RoundIsOver(so, plan, before, pending, attempt - 1, events);
    }
  }

  lemma RefreshFails(so: seq<Event>, plan: seq<Pod>, marked: map<Uid, string>, pending: seq<Pod>, refreshes: nat,
                     events: seq<Event>, failure: MarkFailure)
    requires refreshes < MARK_ATTEMPTS - 1 && Progress(so, plan, marked, pending, refreshes) && RoundOver(so, plan)
    requires Reads(events) && Listings(events) <= 1 && 1 <= |events| <= 2 && (|events| == 2 ==> !events[1].CrRead?)
    requires (failure.ClusterChanged? || failure.ForeignMarker?) && Justified(failure, events, marked)
    ensures FailedLog(so + (events + [Tripped]), plan, failure, marked)
  {
    CheckAdds(so, plan, events);
    ListingsAppend(so, events);
    RefreshJustified(so, events, failure, marked);
    FailHere(so + events, plan, failure, marked);
    Assoc(so, events, [Tripped]);
  }

  method RefreshAttempt(api: Api, w: World, ghost so: seq<Event>, ghost plan: seq<Pod>, marked: map<Uid, string>,
                        ghost pending: seq<Pod>, ghost refreshes: nat)
    returns (v: World, left: seq<Pod>, failure: Option<MarkFailure>, ghost events: seq<Event>)
    requires Sound(w.store) && Ours(api.run, w.store, marked)
    requires refreshes < MARK_ATTEMPTS - 1 && Progress(so, plan, marked, pending, refreshes) && RoundOver(so, plan)
    ensures Sound(v.store) && Ours(api.run, v.store, marked) && w.turn <= v.turn && w.clock <= v.clock
    ensures Happened(api, w, v, events)
    ensures failure.Some? ==> FailedLog(so + events, plan, failure.value, marked)
    ensures failure.None? ==>
              Plannable(v.store, left) && Progress(so + events, plan, marked, left, refreshes + 1) && SinceListing(so + events) == []
  {
    var pods;
    v, pods, left, failure, events := Refresh(api, w, marked);
    if failure.Some? {
      RefreshFails(so, plan, marked, pending, refreshes, events, failure.value);
      TripHappens(api, v);
      HappenedThen(api, w, v, Trip(v), events, [Tripped]);
      v, events := Trip(v), events + [Tripped];
    } else {
      AfterRefresh(so, plan, marked, pending, refreshes, events, pods);
    }
  }

  method MarkPods(api: Api, w: World, plan: seq<Pod>)
    returns (v: World, marked: map<Uid, string>, failure: Option<MarkFailure>, ghost events: seq<Event>)
    requires Sound(w.store) && Plannable(w.store, plan) && ClaimsWithin(api.run, w.store, {})
    ensures Sound(v.store) && Ours(api.run, v.store, marked) && w.turn <= v.turn && w.clock <= v.clock
    ensures Happened(api, w, v, events)
    ensures failure.None? ==> CoveredLog(events, plan, marked)
    ensures failure.Some? ==> FailedLog(events, plan, failure.value, marked)
  {
    v, marked, failure, events := w, map[], None, [];
    HappenedNothing(api, w);
    var pending, attempt := plan, 1;
    while true
      invariant 1 <= attempt <= MARK_ATTEMPTS
      invariant Sound(v.store) && Plannable(v.store, pending) && Ours(api.run, v.store, marked)
      invariant w.turn <= v.turn && w.clock <= v.clock && Happened(api, w, v, events)
      invariant Progress(events, plan, marked, pending, attempt - 1) && SinceListing(events) == []
      decreases MARK_ATTEMPTS - attempt
    {
      var done;
      ghost var more: seq<Event>;
      ghost var start := v;
      v, marked, failure, done, more := MarkAttempt(api, v, events, plan, marked, pending, attempt);
      HappenedThen(api, w, start, v, events, more);
      events := events + more;
      if failure.Some? || done {
        return;
      }
      ghost var was := pending;
      start := v;
      v, pending, failure, more := RefreshAttempt(api, v, events, plan, marked, was, attempt - 1);
      HappenedThen(api, w, start, v, events, more);
      events := events + more;
      if failure.Some? {
        return;
      }
      attempt := attempt + 1;
    }
  }

  // ----- which answers do what -----

  /** The answers after which a pod is read again: gone, or changed concurrently. */
  predicate AsksForRefresh(error: ApiError) { error.Status? && error.code in {404, 409, 422} }

  /** Marking stops at a patch exactly if that was answered with any other error; the stop is tripped right after it. */
  lemma StopsAtOtherErrors(events: seq<Event>, plan: seq<Pod>, failure: MarkFailure, marked: map<Uid, string>, k: nat)
    requires FailedLog(events, plan, failure, marked) && k < |events| && events[k].Marked? && events[k].answer.Some?
    ensures !AsksForRefresh(events[k].answer.value) <==> failure.PatchFailed? && k == |events| - 2
  {
    var work := events[..|events| - 1];
    assert work[k] == events[k];
    if !(failure.PatchFailed? && k == |events| - 2) {
      var calm := if failure.PatchFailed? then work[..|work| - 1] else work;
      assert calm[k] == events[k] && events[k] in calm;
    }
  }

  lemma SuccessMetNoOtherErrors(events: seq<Event>, plan: seq<Pod>, marked: map<Uid, string>, k: nat)
    requires CoveredLog(events, plan, marked) && k < |events| && events[k].Marked? && events[k].answer.Some?
    ensures AsksForRefresh(events[k].answer.value)
  {
    assert events[k] in events;
  }

  /** Marking gives up on a cluster whose pods keep changing after exactly two refreshes, and on its own it makes no more. */
  lemma TwoRefreshes(events: seq<Event>, plan: seq<Pod>, failure: MarkFailure, marked: map<Uid, string>)
    requires FailedLog(events, plan, failure, marked)
    ensures Listings(events) <= 2 && (failure.KeepsChanging? ==> Listings(events) == 2)
  {
    assert Listings(events) == Listings(events[..|events| - 1]);
  }
}
