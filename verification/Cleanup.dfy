/** Removing this run's markers from the pods that still exist. */
module Cleanup {
  import opened Common
  import opened PodStore
  import opened Marking

  const UNMARK_ATTEMPTS := 3

  /** Where each marked instance ended up; `still` is reported as STILL MARKED. */
  datatype Summary = Summary(rotated: seq<Uid>, removed: seq<Uid>, notMarked: seq<Uid>, foreign: seq<Uid>, still: seq<Uid>)

  const NOTHING_MARKED := Summary([], [], [], [], [])

  /** No live instance of the cluster with this UID carries this run's ID. */
  ghost predicate NotClaimed(run: string, s: Store, uid: Uid) {
    forall n | n in s.pods && s.pods[n].uid == uid :: !s.pods[n].Held(run)
  }

  lemma NotClaimedStays(run: string, s: Store, t: Store, uid: Uid)
    requires Quiet(run, s, t) && NotClaimed(run, s, uid)
    ensures NotClaimed(run, t, uid)
  {
  }

  /** An unmarking patch names an instance read with this run's ID, and if it takes effect the instance carries the ID
      at that very moment. */
  predicate SafeUnmark(run: string, e: Event) {
    e.Unmarked? ==>
      && e.target.Claimed(run)
      && (e.hit.Some? ==> e.hit.value.uid == e.target.uid && e.hit.value.Claimed(run) && MaybeApplied(e.answer))
      && (e.answer.None? ==> e.hit.Some?)
  }

  // ----- counting -----

  predicate UnmarkOf(e: Event, uid: Uid) { e.Unmarked? && e.target.uid == uid }

  function Unmarks(events: seq<Event>, uid: Uid): nat {
    if events == [] then 0
    else Unmarks(events[..|events| - 1], uid) + if UnmarkOf(events[|events| - 1], uid) then 1 else 0
  }

  function ListFailures(events: seq<Event>): nat {
    if events == [] then 0 else ListFailures(events[..|events| - 1]) + if events[|events| - 1].ListFailed? then 1 else 0
  }

  /** Every attempt starts with one try to list the pods. */
  function Attempts(events: seq<Event>): nat { Listings(events) + ListFailures(events) }

  lemma CountSnoc(events: seq<Event>, e: Event)
    ensures forall uid :: Unmarks(events + [e], uid) == Unmarks(events, uid) + if UnmarkOf(e, uid) then 1 else 0
    ensures ListFailures(events + [e]) == ListFailures(events) + if e.ListFailed? then 1 else 0
    ensures Listings(events + [e]) == Listings(events) + if e.Listed? then 1 else 0
  {
    assert (events + [e])[..|events|] == events;
  }

  // ----- what justifies each class -----

  predicate Unlisted(pods: seq<Pod>, uid: Uid) { forall p | p in pods :: p.uid != uid }

  predicate SawGone(e: Event, uid: Uid) { e.Listed? && Unlisted(e.pods, uid) }

  predicate SawFree(e: Event, uid: Uid) { e.Listed? && exists p | p in e.pods :: p.uid == uid && p.Free() }

  predicate SawForeign(run: string, e: Event, uid: Uid) {
    e.Listed? && exists p | p in e.pods :: p.uid == uid && !p.Free() && !p.Claimed(run)
  }

  predicate ConfirmedRemoval(e: Event, uid: Uid) { UnmarkOf(e, uid) && e.answer.None? && e.hit.Some? }

  predicate Explained(run: string, sum: Summary, events: seq<Event>) {
    && (forall u | u in sum.rotated :: exists e | e in events :: SawGone(e, u))
    && (forall u | u in sum.removed :: exists e | e in events :: ConfirmedRemoval(e, u))
    && (forall u | u in sum.notMarked :: exists e | e in events :: SawFree(e, u))
    && (forall u | u in sum.foreign :: exists e | e in events :: SawForeign(run, e, u))
  }

  lemma ExplainedGrows(run: string, sum: Summary, events: seq<Event>, more: seq<Event>)
    requires Explained(run, sum, events)
    ensures Explained(run, sum, events + more)
  {
    forall u | u in sum.rotated ensures exists e | e in events + more :: SawGone(e, u) {
      var e :| e in events && SawGone(e, u);
      assert e in events + more;
    }
    forall u | u in sum.removed ensures exists e | e in events + more :: ConfirmedRemoval(e, u) {
      var e :| e in events && ConfirmedRemoval(e, u);
      assert e in events + more;
    }
    forall u | u in sum.notMarked ensures exists e | e in events + more :: SawFree(e, u) {
      var e :| e in events && SawFree(e, u);
      assert e in events + more;
    }
    forall u | u in sum.foreign ensures exists e | e in events + more :: SawForeign(run, e, u) {
      var e :| e in events && SawForeign(run, e, u);
      assert e in events + more;
    }
  }

  // ----- the class of one instance -----

  datatype Class = Rotated | Removed | NeverMarked | Foreign | Retry

  function File(sum: Summary, uid: Uid, kind: Class): Summary {
    match kind
    case Rotated => sum.(rotated := sum.rotated + [uid])
    case Removed => sum.(removed := sum.removed + [uid])
    case NeverMarked => sum.(notMarked := sum.notMarked + [uid])
    case Foreign => sum.(foreign := sum.foreign + [uid])
    case Retry => sum
  }

  function Filed(sum: Summary): multiset<Uid> {
    multiset(sum.rotated) + multiset(sum.removed) + multiset(sum.notMarked) + multiset(sum.foreign) + multiset(sum.still)
  }

  predicate ClassJustified(run: string, kind: Class, uid: Uid, listing: Event, events: seq<Event>) {
    match kind
    case Rotated => events == [] && SawGone(listing, uid)
    case Removed => |events| == 1 && ConfirmedRemoval(events[0], uid)
    case NeverMarked => events == [] && SawFree(listing, uid)
    case Foreign => events == [] && SawForeign(run, listing, uid)
    case Retry => |events| == 1 && UnmarkOf(events[0], uid) && events[0].answer.Some?
  }

  lemma FileExplained(run: string, sum: Summary, uid: Uid, kind: Class, listing: Event, events: seq<Event>,
                      more: seq<Event>)
    requires Explained(run, sum, events) && listing in events && ClassJustified(run, kind, uid, listing, more)
    ensures Explained(run, File(sum, uid, kind), events + more)
  {
    ExplainedGrows(run, sum, events, more);
    assert listing in events + more;
    if kind.Removed? {
      assert more[0] in events + more;
    }
  }

  // ----- what the log says about one instance -----

  /** What this event settles about the instance, if anything. */
  function Settles(run: string, e: Event, uid: Uid): Option<Class> {
    if SawGone(e, uid) then Some(Rotated)
    else if SawFree(e, uid) then Some(NeverMarked)
    else if SawForeign(run, e, uid) then Some(Foreign)
    else if ConfirmedRemoval(e, uid) then Some(Removed)
    else None
  }

  /** The first event that settles anything about the instance decides. */
  function Fate(run: string, events: seq<Event>, uid: Uid): Option<Class> {
    if events == [] then None
    else
      var earlier := Fate(run, events[..|events| - 1], uid);
      if earlier.Some? then earlier else Settles(run, events[|events| - 1], uid)
  }

  lemma FateSnoc(run: string, events: seq<Event>, e: Event, uid: Uid)
    ensures Fate(run, events + [e], uid) == if Fate(run, events, uid).Some? then Fate(run, events, uid) else Settles(run, e, uid)
  {
    assert (events + [e])[..|events|] == events;
  }

  lemma {:induction false} FateStays(run: string, events: seq<Event>, k: nat, uid: Uid)
    requires k <= |events| && Fate(run, events[..k], uid).Some?
    ensures Fate(run, events, uid) == Fate(run, events[..k], uid)
  {
    if k == |events| {
      assert events[..k] == events;
    } else {
      var init := events[..|events| - 1];
      assert init[..k] == events[..k];
      FateStays(run, init, k, uid);
    }
  }

  /** Where the fate was settled. */
  lemma {:induction false} FateSettledAt(run: string, events: seq<Event>, uid: Uid) returns (j: nat)
    requires Fate(run, events, uid).Some?
    ensures j < |events| && Fate(run, events[..j], uid).None? && Settles(run, events[j], uid) == Fate(run, events, uid)
  {
    var init := events[..|events| - 1];
    if Fate(run, init, uid).Some? {
      j := FateSettledAt(run, init, uid);
      assert init[..j] == events[..j] && init[j] == events[j];
    } else {
      j := |events| - 1;
    }
  }

  /** The first event that settles anything settles it for good. */
  lemma SettledBy(run: string, events: seq<Event>, k: nat, uid: Uid)
    requires k < |events| && Fate(run, events[..k], uid).None? && Settles(run, events[k], uid).Some?
    ensures Fate(run, events, uid) == Settles(run, events[k], uid)
  {
    assert events[..k + 1] == events[..k] + [events[k]];
    FateSnoc(run, events[..k], events[k], uid);
    FateStays(run, events, k + 1, uid);
  }

  /** Removals are only sent for instances about which nothing is settled yet. */
  predicate Orderly(run: string, events: seq<Event>) {
    forall k | 0 <= k < |events| && events[k].Unmarked? :: Fate(run, events[..k], events[k].target.uid).None?
  }

  lemma OrderlySnoc(run: string, events: seq<Event>, e: Event)
    requires Orderly(run, events) && (e.Unmarked? ==> Fate(run, events, e.target.uid).None?)
    ensures Orderly(run, events + [e])
  {
    forall k | 0 <= k <= |events| && (events + [e])[k].Unmarked?
      ensures Fate(run, (events + [e])[..k], (events + [e])[k].target.uid).None?
    {
      assert (events + [e])[..k] == events[..k];
      assert k == |events| ==> events[..k] == events;
    }
  }

  /** The summary files the instance as its fate says; `open` while nothing is settled. */
  predicate Agrees(sum: Summary, uid: Uid, open: bool, fate: Option<Class>) {
    && (uid in sum.rotated <==> fate == Some(Rotated))
    && (uid in sum.removed <==> fate == Some(Removed))
    && (uid in sum.notMarked <==> fate == Some(NeverMarked))
    && (uid in sum.foreign <==> fate == Some(Foreign))
    && (open <==> fate.None?)
  }

  /** The summary so far is what the log says; for the instances in `todo` the current listing has yet to be looked at. */
  ghost predicate Decided(run: string, marked: map<Uid, string>, pending: set<Uid>, sum: Summary, events: seq<Event>,
                          todo: set<Uid>, listing: Event)
  {
    && Orderly(run, events)
    && forall u | u in marked ::
         if u in todo then Agrees(sum, u, u in pending, None) && Fate(run, events, u) == Settles(run, listing, u)
         else Agrees(sum, u, u in pending, Fate(run, events, u))
  }

  /** What a listing settles, by the class the instance is put into. */
  predicate ListingSettles(run: string, pods: seq<Pod>, uid: Uid, kind: Class) {
    Settles(run, Listed(pods), uid) == if kind.Removed? || kind.Retry? then None else Some(kind)
  }

  lemma FileAgrees(sum: Summary, uid: Uid, kind: Class, u: Uid, open: bool, fate: Option<Class>)
    requires Agrees(sum, u, open, fate)
    ensures u != uid || kind.Retry? ==> Agrees(File(sum, uid, kind), u, open, fate)
    ensures u == uid && fate.None? && !kind.Retry? ==> Agrees(File(sum, uid, kind), u, false, Some(kind))
  {
  }

  /** The fates after what was done for one instance: only its own is settled, if at all. */
  lemma FatesStep(run: string, events: seq<Event>, pods: seq<Pod>, uid: Uid, kind: Class, more: seq<Event>, u: Uid)
    requires ClassJustified(run, kind, uid, Listed(pods), more) && ListingSettles(run, pods, uid, kind)
    ensures u != uid ==> Fate(run, events + more, u) == Fate(run, events, u)
    ensures u == uid && Fate(run, events, u) == Settles(run, Listed(pods), u) ==>
              Fate(run, events + more, u) == if kind.Retry? then None else Some(kind)
  {
    if more == [] {
      assert events + more == events;
    } else {
      assert more == [more[0]];
      FateSnoc(run, events, more[0], u);
    }
  }

  lemma OrderlyStep(run: string, events: seq<Event>, pods: seq<Pod>, uid: Uid, kind: Class, more: seq<Event>)
    requires ClassJustified(run, kind, uid, Listed(pods), more) && ListingSettles(run, pods, uid, kind)
    requires Orderly(run, events) && Fate(run, events, uid) == Settles(run, Listed(pods), uid)
    ensures Orderly(run, events + more)
  {
    if more == [] {
      assert events + more == events;
    } else {
      assert more == [more[0]];
      OrderlySnoc(run, events, more[0]);
    }
  }

  lemma DecidedStep(run: string, marked: map<Uid, string>, pending: set<Uid>, sum: Summary, events: seq<Event>,
                    todo: set<Uid>, pods: seq<Pod>, uid: Uid, kind: Class, more: seq<Event>)
    requires Decided(run, marked, pending, sum, events, todo, Listed(pods)) && uid in todo && uid in marked
    requires ClassJustified(run, kind, uid, Listed(pods), more) && ListingSettles(run, pods, uid, kind)
    ensures Decided(run, marked, if kind.Retry? then pending else pending - {uid}, File(sum, uid, kind), events + more,
                    todo - {uid}, Listed(pods))
  {
    OrderlyStep(run, events, pods, uid, kind, more);
    forall u | u in marked
      ensures var left := if kind.Retry? then pending else pending - {uid};
              if u in todo - {uid} then Agrees(File(sum, uid, kind), u, u in left, None) && Fate(run, events + more, u) == Settles(run, Listed(pods), u)
              else Agrees(File(sum, uid, kind), u, u in left, Fate(run, events + more, u))
    {
      FatesStep(run, events, pods, uid, kind, more, u);
      FileAgrees(sum, uid, kind, u, u in pending, if u in todo then None else Fate(run, events, u));
    }
  }

  lemma DecidedRead(run: string, marked: map<Uid, string>, pending: set<Uid>, sum: Summary, events: seq<Event>,
                    e: Event, before: Event)
    requires Decided(run, marked, pending, sum, events, {}, before) && (e.Listed? || e.ListFailed? || e.Idle?)
    ensures e.Listed? && pending <= marked.Keys ==> Decided(run, marked, pending, sum, events + [e], pending, e)
    ensures !e.Listed? ==> Decided(run, marked, pending, sum, events + [e], {}, ListFailed)
  {
    OrderlySnoc(run, events, e);
    forall u {
      FateSnoc(run, events, e, u);
    }
  }

  // ----- the pace of a cleanup -----

  /** An attempt begins with a try to list the pods. */
  predicate BeginsAttempt(e: Event) { e.Listed? || e.ListFailed? }

  /** Something is still open, and every open instance was tried in each attempt so far. */
  ghost predicate AttemptOver(run: string, marked: map<Uid, string>, front: seq<Event>) {
    && (exists u | u in marked :: Fate(run, front, u).None?)
    && forall u | u in marked && Fate(run, front, u).None? :: Unmarks(front, u) + ListFailures(front) == Attempts(front)
  }

  /** What may come next: a new attempt while something is open, once the last one is over and after one pause; one removal
      per attempt and instance, for the pod as it was last listed. */
  ghost predicate Due(run: string, marked: map<Uid, string>, front: seq<Event>, e: Event) {
    match e
    case Idle => front != [] && !front[|front| - 1].Idle? && AttemptOver(run, marked, front)
    case Unmarked(target, _, _) =>
      && target.uid in marked && Fate(run, front, target.uid).None?
      && Unmarks(front, target.uid) + ListFailures(front) < Attempts(front) && target in LastListing(front, [])
    case _ => BeginsAttempt(e) && AttemptOver(run, marked, front) && (front == [] || front[|front| - 1].Idle?)
  }

  ghost predicate Paced(run: string, marked: map<Uid, string>, events: seq<Event>) {
    events == [] ||
    (Paced(run, marked, events[..|events| - 1]) && Due(run, marked, events[..|events| - 1], events[|events| - 1]))
  }

  lemma PacedSnoc(run: string, marked: map<Uid, string>, events: seq<Event>, e: Event)
    requires Paced(run, marked, events) && Due(run, marked, events, e)
    ensures Paced(run, marked, events + [e])
  {
    assert (events + [e])[..|events|] == events;
  }

  /** Every attempt and every pause of a cleanup that begins at turn `begin` starts before the deadline. */
  ghost predicate BegunInTime(begin: int, deadline: nat, events: seq<Event>) {
    events == [] ||
    var front := events[..|events| - 1];
    BegunInTime(begin, deadline, front) && (events[|front|].Unmarked? || begin + |front| < deadline)
  }

  /** The next attempt may begin. */
  predicate Paused(events: seq<Event>) { events == [] || events[|events| - 1].Idle? }

  predicate Busy(events: seq<Event>) { events != [] && !events[|events| - 1].Idle? }

  /** The cleanup from `start` on has got to `v`, in the right pace. */
  ghost predicate Reached(api: Api, start: World, deadline: nat, marked: map<Uid, string>, events: seq<Event>, v: World) {
    && Happened(api, start, v, events) && v.turn == start.turn + |events|
    && Paced(api.run, marked, events) && BegunInTime(start.turn, deadline, events)
  }

  lemma ReachedNext(api: Api, start: World, deadline: nat, marked: map<Uid, string>, events: seq<Event>, w: World, e: Event,
                    v: World)
    requires Reached(api, start, deadline, marked, events, w) && Due(api.run, marked, events, e)
    requires Happened(api, w, v, [e]) && v.turn == w.turn + 1 && (e.Unmarked? || !Expired(w, deadline))
    ensures Reached(api, start, deadline, marked, events + [e], v)
  {
    HappenedThen(api, start, w, v, events, [e]);
    PacedSnoc(api.run, marked, events, e);
    assert (events + [e])[..|events|] == events;
  }

  // ----- cleaning one instance -----

  /** What a listing taken by this attempt still says about the store. */
  ghost predicate ListingHolds(run: string, marked: map<Uid, string>, now: Store, pods: seq<Pod>) {
    && (forall p | p in pods :: Known(now, p))
    && (forall p | p in pods && !p.Claimed(run) :: NotClaimed(run, now, p.uid))
    && (forall u | u in marked && Unlisted(pods, u) :: Dead(now, u))
    && (forall i, j | 0 <= i < j < |pods| :: pods[i].uid != pods[j].uid)
  }

  lemma FreshListingHolds(run: string, marked: map<Uid, string>, now: Store, pods: seq<Pod>)
    requires Sound(now) && IsListing(now, pods) && Ours(run, now, marked)
    ensures ListingHolds(run, marked, now, pods)
  {
    forall u | u in marked && Unlisted(pods, u)
      ensures Dead(now, u)
    {
      forall n | n in now.pods
        ensures now.pods[n].uid != u
      {
        var p := now.pods[n];
        assert p.member ==> p in pods;
      }
    }
  }

  lemma ListingStays(run: string, marked: map<Uid, string>, s: Store, t: Store, pods: seq<Pod>)
    requires Sound(s) && Sound(t) && Quiet(run, s, t) && ListingHolds(run, marked, s, pods)
    ensures ListingHolds(run, marked, t, pods)
  {
    forall p | p in pods
      ensures Known(t, p)
      ensures !p.Claimed(run) ==> NotClaimed(run, t, p.uid)
    {
      KnownStays(s, t, p);
      if !p.Claimed(run) {
        NotClaimedStays(run, s, t, p.uid);
      }
    }
    forall u | u in marked && Unlisted(pods, u)
      ensures Dead(t, u)
    {
      DeadStays(s, t, u);
    }
  }

  method CleanOne(api: Api, w: World, uid: Uid, pods: seq<Pod>, ghost marked: map<Uid, string>)
    returns (v: World, kind: Class, ghost events: seq<Event>)
    requires Sound(w.store) && ListingHolds(api.run, marked, w.store, pods) && uid in marked
    ensures Sound(v.store) && Quiet(api.run, w.store, v.store) && w.turn <= v.turn && w.clock <= v.clock
    ensures Happened(api, w, v, events) && ClassJustified(api.run, kind, uid, Listed(pods), events)
    ensures forall e | e in events :: e.Unmarked? && SafeUnmark(api.run, e) && e.target in pods
    ensures ListingSettles(api.run, pods, uid, kind)
    ensures !kind.Retry? ==> NotClaimed(api.run, v.store, uid)
    ensures kind.Rotated? ==> Dead(v.store, uid)
  {
    v, events := w, [];
    HappenedNothing(api, w);
    var i := 0;
    while i < |pods| && pods[i].uid != uid
      invariant 0 <= i <= |pods|
      invariant forall k | 0 <= k < i :: pods[k].uid != uid
    {
      i := i + 1;
    }
    if i == |pods| {
      return v, Rotated, [];
    }
    var pod := pods[i];
    assert pod in pods && forall p | p in pods && p.uid == uid :: p == pod;
    if pod.Claimed(api.run) {
      var answer;
      ghost var e;
      v, answer, e := PatchUnmark(api, w, pod);
      events := [e];
      kind := if answer.None? then Removed else Retry;
    } else if pod.Free() {
      kind := NeverMarked;
    } else {
      kind := Foreign;
    }
  }

  // ----- all instances -----

  predicate CleanupEvent(run: string, marked: map<Uid, string>, e: Event) {
    || e.Listed? || e.ListFailed? || e.Idle?
    || (e.Unmarked? && SafeUnmark(run, e) && e.target.uid in marked)
  }

  /** Every marked instance is in exactly one class or pending, and every class is explained by the log. */
  ghost predicate Books(run: string, marked: map<Uid, string>, pending: map<Uid, string>, sum: Summary,
                        events: seq<Event>) {
    && pending.Keys <= marked.Keys
    && Filed(sum) + multiset(pending.Keys) == multiset(marked.Keys)
    && sum.still == []
    && Explained(run, sum, events)
    && forall e | e in events :: CleanupEvent(run, marked, e)
  }

  lemma BooksStep(run: string, marked: map<Uid, string>, pending: map<Uid, string>, sum: Summary, events: seq<Event>,
                  uid: Uid, kind: Class, listing: Event, more: seq<Event>)
    requires Books(run, marked, pending, sum, events) && uid in pending
    requires listing in events && ClassJustified(run, kind, uid, listing, more)
    requires forall e | e in more :: e.Unmarked? && SafeUnmark(run, e)
    ensures Books(run, marked, if kind.Retry? then pending else pending - {uid}, File(sum, uid, kind), events + more)
  {
    FileExplained(run, sum, uid, kind, listing, events, more);
    var left := pending - {uid};
    assert left.Keys == pending.Keys - {uid};
    assert multiset(pending.Keys) == multiset(left.Keys) + multiset{uid};
    assert !kind.Retry? ==> Filed(File(sum, uid, kind)) == Filed(sum) + multiset{uid};
    forall e | e in events + more
      ensures CleanupEvent(run, marked, e)
    {
      if e in more {
        assert UnmarkOf(more[0], uid);
      }
    }
  }

  /** How often each instance has been tried: `todo` are those the current attempt has not reached yet. */
  ghost predicate Tallies(events: seq<Event>, pending: set<Uid>, todo: set<Uid>, attempts: nat) {
    && Attempts(events) == attempts
    && todo <= pending
    && (forall u :: Unmarks(events, u) <= attempts)
    && (forall u | u in pending :: Unmarks(events, u) + ListFailures(events) == attempts - if u in todo then 1 else 0)
  }

  lemma TalliesStep(events: seq<Event>, pending: set<Uid>, todo: set<Uid>, attempts: nat, uid: Uid, kind: Class,
                    run: string, listing: Event, more: seq<Event>)
    requires Tallies(events, pending, todo, attempts) && uid in todo
    requires ClassJustified(run, kind, uid, listing, more)
    ensures Tallies(events + more, if kind.Retry? then pending else pending - {uid}, todo - {uid}, attempts)
  {
    if more == [] {
      assert events + more == events;
    } else {
      CountSnoc(events, more[0]);
      assert events + more == events + [more[0]];
    }
  }

  /** What the store looks like while `pending` is left. */
  ghost predicate Contained(run: string, s: Store, marked: map<Uid, string>, pending: set<Uid>, sum: Summary) {
    && Ours(run, s, marked)
    && ClaimsWithin(run, s, pending)
    && forall u | u in sum.rotated :: Dead(s, u)
  }

  lemma ContainedStays(run: string, s: Store, t: Store, marked: map<Uid, string>, pending: set<Uid>, sum: Summary)
    requires Sound(s) && Sound(t) && Quiet(run, s, t) && Contained(run, s, marked, pending, sum)
    ensures Contained(run, t, marked, pending, sum)
  {
    OursStays(run, s, t, marked);
    forall u | u in sum.rotated
      ensures Dead(t, u)
    {
      DeadStays(s, t, u);
    }
  }

  lemma ContainedStep(run: string, s: Store, marked: map<Uid, string>, pending: set<Uid>, sum: Summary, uid: Uid,
                      kind: Class)
    requires Contained(run, s, marked, pending, sum)
    requires !kind.Retry? ==> NotClaimed(run, s, uid)
    requires kind.Rotated? ==> Dead(s, uid)
    ensures Contained(run, s, marked, if kind.Retry? then pending else pending - {uid}, File(sum, uid, kind))
  {
  }

  /** The pending instances in some order (the program sorts them for its messages). */
  method InOrder(pending: map<Uid, string>) returns (order: seq<Uid>)
    ensures forall u :: u in order <==> u in pending
    ensures forall i, j | 0 <= i < j < |order| :: order[i] != order[j]
  {
    order := [];
    var left := pending.Keys;
    while left != {}
      invariant left <= pending.Keys
      invariant forall u :: u in order <==> u in pending && u !in left
      invariant forall i, j | 0 <= i < j < |order| :: order[i] != order[j]
      decreases |left|
    {
      var u :| u in left;
      left, order := left - {u}, order + [u];
    }
  }

  /** The state of the cleanup within an attempt. */
  ghost predicate Cleaning(run: string, s: Store, marked: map<Uid, string>, pending: map<Uid, string>, sum: Summary,
                           events: seq<Event>, todo: set<Uid>, listing: Event, attempts: nat) {
    && Decided(run, marked, pending.Keys, sum, events, todo, listing)
    && Sound(s)
    && Contained(run, s, marked, pending.Keys, sum)
    && Books(run, marked, pending, sum, events)
    && Tallies(events, pending.Keys, todo, attempts)
  }

  lemma ReachedStep(api: Api, start: World, deadline: nat, marked: map<Uid, string>, pending: set<Uid>, sum: Summary, events: seq<Event>,
                    todo: set<Uid>, pods: seq<Pod>, attempts: nat, uid: Uid, kind: Class, more: seq<Event>, w: World, v: World)
    requires Reached(api, start, deadline, marked, events, w) && LastListing(events, []) == pods && Busy(events)
    requires Tallies(events, pending, todo, attempts) && uid in todo && uid in marked
    requires Decided(api.run, marked, pending, sum, events, todo, Listed(pods)) && ListingSettles(api.run, pods, uid, kind)
    requires Happened(api, w, v, more) && ClassJustified(api.run, kind, uid, Listed(pods), more)
    requires forall e | e in more :: e.Unmarked? && e.target in pods
    ensures Reached(api, start, deadline, marked, events + more, v) && LastListing(events + more, []) == pods && Busy(events + more)
  {
    if more == [] {
      assert events + more == events;
      HappenedThen(api, start, w, v, events, more);
    } else {
      var e := more[0];
      assert more == [e] && e in more;
      ReachedNext(api, start, deadline, marked, events, w, e, v);
      assert (events + [e])[..|events|] == events;
    }
  }

  /** One instance, with the books kept; the cleanup began at `start`, and `so` is what it has done so far. */
  method CleanStep(api: Api, w: World, uid: Uid, pods: seq<Pod>, ghost marked: map<Uid, string>,
                   before: map<Uid, string>, sum0: Summary, ghost start: World, ghost deadline: nat, ghost so: seq<Event>,
                   ghost todo: set<Uid>, ghost attempts: nat)
    returns (v: World, pending: map<Uid, string>, sum: Summary, ghost events: seq<Event>)
    requires Cleaning(api.run, w.store, marked, before, sum0, so, todo, Listed(pods), attempts)
    requires ListingHolds(api.run, marked, w.store, pods)
    requires Listed(pods) in so && uid in todo
    requires Reached(api, start, deadline, marked, so, w) && LastListing(so, []) == pods && Busy(so)
    ensures Cleaning(api.run, v.store, marked, pending, sum, events, todo - {uid}, Listed(pods), attempts)
    ensures ListingHolds(api.run, marked, v.store, pods)
    ensures Listed(pods) in events
    ensures Reached(api, start, deadline, marked, events, v) && LastListing(events, []) == pods && Busy(events)
    ensures w.turn <= v.turn && w.clock <= v.clock
  {
    var kind;
    ghost var more: seq<Event>;
    v, kind, more := CleanOne(api, w, uid, pods, marked);
    ReachedStep(api, start, deadline, marked, before.Keys, sum0, so, todo, pods, attempts, uid, kind, more, w, v);
    ListingStays(api.run, marked, w.store, v.store, pods);
    ContainedStays(api.run, w.store, v.store, marked, before.Keys, sum0);
    ContainedStep(api.run, v.store, marked, before.Keys, sum0, uid, kind);
    BooksStep(api.run, marked, before, sum0, so, uid, kind, Listed(pods), more);
    TalliesStep(so, before.Keys, todo, attempts, uid, kind, api.run, Listed(pods), more);
    DecidedStep(api.run, marked, before.Keys, sum0, so, todo, pods, uid, kind, more);
    pending, sum := if kind.Retry? then before else before - {uid}, File(sum0, uid, kind);
    assert pending.Keys == if kind.Retry? then before.Keys else before.Keys - {uid};
    events := so + more;
  }

  /** What is left of the order from position `k` on. */
  function Rest(order: seq<Uid>, k: nat): set<Uid>
    requires k <= |order|
  {
    set u | u in order[k..]
  }

  lemma RestStep(order: seq<Uid>, k: nat)
    requires k < |order| && forall i, j | 0 <= i < j < |order| :: order[i] != order[j]
    ensures order[k] in Rest(order, k) && Rest(order, k) - {order[k]} == Rest(order, k + 1)
  {
    assert order[k..] == [order[k]] + order[k + 1..];
  }

  lemma RestAtEnds(order: seq<Uid>, uids: set<Uid>)
    requires forall u :: u in order <==> u in uids
    ensures Rest(order, 0) == uids && Rest(order, |order|) == {}
  {
    assert order[0..] == order;
  }

  /** Once every instance of an attempt has been tried, its listing no longer matters. */
  lemma RoundEnds(run: string, s: Store, marked: map<Uid, string>, pending: map<Uid, string>, sum: Summary, events: seq<Event>,
                  pods: seq<Pod>, attempts: nat)
    requires Cleaning(run, s, marked, pending, sum, events, {}, Listed(pods), attempts)
    ensures Cleaning(run, s, marked, pending, sum, events, {}, ListFailed, attempts)
  {
  }

  /** One attempt after a successful listing: every pending instance once. */
  method CleanRound(api: Api, w: World, pods: seq<Pod>, ghost marked: map<Uid, string>, before: map<Uid, string>,
                    sum0: Summary, ghost start: World, ghost deadline: nat, ghost so: seq<Event>, ghost attempts: nat)
    returns (v: World, pending: map<Uid, string>, sum: Summary, ghost events: seq<Event>)
    requires Cleaning(api.run, w.store, marked, before, sum0, so, before.Keys, Listed(pods), attempts)
    requires Reached(api, start, deadline, marked, so, w) && LastListing(so, []) == pods && Busy(so)
    requires ListingHolds(api.run, marked, w.store, pods)
    requires Listed(pods) in so
    ensures Cleaning(api.run, v.store, marked, pending, sum, events, {}, ListFailed, attempts)
    ensures Reached(api, start, deadline, marked, events, v) && Busy(events)
    ensures w.turn <= v.turn && w.clock <= v.clock
  {
    v, pending, sum, events := w, before, sum0, so;
    var order := InOrder(before);
    RestAtEnds(order, before.Keys);
    for k := 0 to |order|
      invariant Cleaning(api.run, v.store, marked, pending, sum, events, Rest(order, k), Listed(pods), attempts)
      invariant ListingHolds(api.run, marked, v.store, pods)
      invariant Listed(pods) in events
      invariant Reached(api, start, deadline, marked, events, v) && LastListing(events, []) == pods && Busy(events)
      invariant w.turn <= v.turn && w.clock <= v.clock
    {
      RestStep(order, k);
      v, pending, sum, events :=
        CleanStep(api, v, order[k], pods, marked, pending, sum, start, deadline, events, Rest(order, k), attempts);
    }
    RoundEnds(api.run, v.store, marked, pending, sum, events, pods, attempts);
  }

  lemma TalliesListed(events: seq<Event>, pending: set<Uid>, attempts: nat, pods: seq<Pod>)
    requires Tallies(events, pending, {}, attempts)
    ensures Tallies(events + [Listed(pods)], pending, pending, attempts + 1)
  {
    CountSnoc(events, Listed(pods));
  }

  lemma TalliesListFailed(events: seq<Event>, pending: set<Uid>, attempts: nat)
    requires Tallies(events, pending, {}, attempts)
    ensures Tallies(events + [ListFailed], pending, {}, attempts + 1)
  {
    CountSnoc(events, ListFailed);
  }

  lemma TalliesIdle(events: seq<Event>, pending: set<Uid>, attempts: nat)
    requires Tallies(events, pending, {}, attempts)
    ensures Tallies(events + [Idle], pending, {}, attempts)
  {
    CountSnoc(events, Idle);
  }

  lemma BooksRead(run: string, marked: map<Uid, string>, pending: map<Uid, string>, sum: Summary, events: seq<Event>,
                  e: Event)
    requires Books(run, marked, pending, sum, events) && (e.Listed? || e.ListFailed? || e.Idle?)
    ensures Books(run, marked, pending, sum, events + [e])
  {
    ExplainedGrows(run, sum, events, [e]);
  }

  /** Between two attempts every open instance has been tried in each. */
  lemma OpenWereTried(run: string, marked: map<Uid, string>, pending: map<Uid, string>, sum: Summary, events: seq<Event>,
                      attempts: nat)
    requires Decided(run, marked, pending.Keys, sum, events, {}, ListFailed) && Tallies(events, pending.Keys, {}, attempts)
    requires pending.Keys <= marked.Keys && |pending| > 0
    ensures AttemptOver(run, marked, events)
  {
    var u :| u in pending;
    assert u in marked && Fate(run, events, u).None?;
    forall u | u in marked && Fate(run, events, u).None?
      ensures Unmarks(events, u) + ListFailures(events) == Attempts(events)
    {
      assert u in pending.Keys;
    }
  }

  /** The beginning of an attempt. */
  method ListForAttempt(api: Api, w: World, ghost marked: map<Uid, string>, ghost pending: map<Uid, string>, ghost sum: Summary,
                        ghost start: World, ghost deadline: nat, ghost so: seq<Event>, ghost attempts: nat)
    returns (v: World, list: Answer<seq<Pod>>, ghost events: seq<Event>)
    requires Cleaning(api.run, w.store, marked, pending, sum, so, {}, ListFailed, attempts) && |pending| > 0
    requires Reached(api, start, deadline, marked, so, w) && !Expired(w, deadline) && Paused(so)
    ensures Busy(events) && (list.Ok? ==> Listed(list.value) in events)
    ensures Reached(api, start, deadline, marked, events, v) && w.turn <= v.turn && w.clock <= v.clock
    ensures list.Err? ==> Cleaning(api.run, v.store, marked, pending, sum, events, {}, ListFailed, attempts + 1)
    ensures list.Ok? ==>
              && Cleaning(api.run, v.store, marked, pending, sum, events, pending.Keys, Listed(list.value), attempts + 1)
              && ListingHolds(api.run, marked, v.store, list.value) && LastListing(events, []) == list.value
  {
    v, list := ListPods(api, w);
    ContainedStays(api.run, w.store, v.store, marked, pending.Keys, sum);
    ghost var e := if list.Ok? then Listed(list.value) else ListFailed;
    events := so + [e];
    OpenWereTried(api.run, marked, pending, sum, so, attempts);
    ReachedNext(api, start, deadline, marked, so, w, e, v);
    BooksRead(api.run, marked, pending, sum, so, e);
    DecidedRead(api.run, marked, pending.Keys, sum, so, e, ListFailed);
    if list.Err? {
      TalliesListFailed(so, pending.Keys, attempts);
    } else {
      TalliesListed(so, pending.Keys, attempts, list.value);
      FreshListingHolds(api.run, marked, v.store, list.value);
    }
  }

  method CleanAttempt(api: Api, w: World, ghost marked: map<Uid, string>, before: map<Uid, string>, sum0: Summary,
                      ghost start: World, ghost deadline: nat, ghost so: seq<Event>, ghost attempts: nat)
    returns (v: World, pending: map<Uid, string>, sum: Summary, ghost events: seq<Event>)
    requires Cleaning(api.run, w.store, marked, before, sum0, so, {}, ListFailed, attempts) && |before| > 0
    requires Reached(api, start, deadline, marked, so, w) && !Expired(w, deadline) && Paused(so)
    ensures Cleaning(api.run, v.store, marked, pending, sum, events, {}, ListFailed, attempts + 1)
    ensures Reached(api, start, deadline, marked, events, v) && Busy(events)
    ensures w.turn <= v.turn && w.clock <= v.clock
  {
    var list;
    v, list, events := ListForAttempt(api, w, marked, before, sum0, start, deadline, so, attempts);
    if list.Err? {
      pending, sum := before, sum0;
      return;
    }
    v, pending, sum, events := CleanRound(api, v, list.value, marked, before, sum0, start, deadline, events, attempts + 1);
  }

  /** The outcome of the cleanup. No live instance of the cluster carries this run's ID except those reported as still marked; every
      marked instance is in exactly one class; each class is explained by a listing or an acknowledged removal. */
  ghost predicate Cleaned(run: string, s: Store, marked: map<Uid, string>, sum: Summary, events: seq<Event>,
                          expired: bool) {
    && (forall n | n in s.pods && s.pods[n].Held(run) :: s.pods[n].uid in sum.still)
    && Filed(sum) == multiset(marked.Keys)
    && Explained(run, sum, events)
    // and it is exactly the class that the first event settling anything about the instance says
    && Orderly(run, events)
    && (forall u | u in marked :: Agrees(sum, u, u in sum.still, Fate(run, events, u)))
    && (forall u | u in sum.rotated :: Dead(s, u))
    && (forall e | e in events :: CleanupEvent(run, marked, e))
    && Paced(run, marked, events)
    && Attempts(events) <= UNMARK_ATTEMPTS
    && (forall u :: Unmarks(events, u) <= UNMARK_ATTEMPTS)
    // nothing is given up early: every attempt at it failed, and there were three of them unless the time ran out
    && (forall u | u in sum.still ::
          && Unmarks(events, u) + ListFailures(events) == Attempts(events)
          && (Attempts(events) == UNMARK_ATTEMPTS || expired))
  }

  /** The pause between two attempts. */
  method Pause(api: Api, w: World, ghost marked: map<Uid, string>, ghost pending: map<Uid, string>, ghost sum: Summary,
               ghost start: World, ghost deadline: nat, ghost so: seq<Event>, ghost attempts: nat)
    returns (v: World)
    requires Cleaning(api.run, w.store, marked, pending, sum, so, {}, ListFailed, attempts) && |pending| > 0
    requires Reached(api, start, deadline, marked, so, w) && !Expired(w, deadline) && Busy(so)
    ensures Cleaning(api.run, v.store, marked, pending, sum, so + [Idle], {}, ListFailed, attempts)
    ensures Reached(api, start, deadline, marked, so + [Idle], v) && Paused(so + [Idle])
    ensures w.turn <= v.turn && w.clock <= v.clock
  {
    v := Wait(api, w);
    ContainedStays(api.run, w.store, v.store, marked, pending.Keys, sum);
    OpenWereTried(api.run, marked, pending, sum, so, attempts);
    ReachedNext(api, start, deadline, marked, so, w, Idle, v);
    BooksRead(api.run, marked, pending, sum, so, Idle);
    DecidedRead(api.run, marked, pending.Keys, sum, so, Idle, ListFailed);
    TalliesIdle(so, pending.Keys, attempts);
  }

  lemma ConcludeFates(run: string, marked: map<Uid, string>, pending: map<Uid, string>, sum: Summary,
                      events: seq<Event>, left: seq<Uid>)
    requires Decided(run, marked, pending.Keys, sum, events, {}, ListFailed) && forall u :: u in left <==> u in pending
    ensures var end := sum.(still := left);
            Orderly(run, events) && forall u | u in marked :: Agrees(end, u, u in end.still, Fate(run, events, u))
  {
  }

  lemma ConcludeBooks(run: string, marked: map<Uid, string>, pending: map<Uid, string>, sum: Summary,
                      events: seq<Event>, left: seq<Uid>)
    requires Books(run, marked, pending, sum, events) && multiset(left) == multiset(pending.Keys)
    ensures var end := sum.(still := left);
            Filed(end) == multiset(marked.Keys) && Explained(run, end, events) && forall e | e in events :: CleanupEvent(run, marked, e)
  {
  }

  lemma Conclude(run: string, s: Store, marked: map<Uid, string>, pending: map<Uid, string>, sum: Summary,
                 events: seq<Event>, attempts: nat, left: seq<Uid>, expired: bool)
    requires Cleaning(run, s, marked, pending, sum, events, {}, ListFailed, attempts) && attempts <= UNMARK_ATTEMPTS
    requires Paced(run, marked, events)
    requires pending.Keys == {} || attempts == UNMARK_ATTEMPTS || expired
    requires (forall u :: u in left <==> u in pending) && multiset(left) == multiset(pending.Keys)
    ensures Cleaned(run, s, marked, sum.(still := left), events, expired)
  {
    ConcludeFates(run, marked, pending, sum, events, left);
    ConcludeBooks(run, marked, pending, sum, events, left);
  }

  lemma {:induction false} DistinctAsSet(order: seq<Uid>, s: set<Uid>)
    requires forall u :: u in order <==> u in s
    requires forall i, j | 0 <= i < j < |order| :: order[i] != order[j]
    ensures multiset(order) == multiset(s)
  {
    if order != [] {
      var init, last := order[..|order| - 1], order[|order| - 1];
      forall u
        ensures u in init <==> u in s - {last}
      {
        if u in init {
          var i :| 0 <= i < |init| && init[i] == u;
          assert order[i] == u;
        }
        if u in s - {last} {
          var i :| 0 <= i < |order| && order[i] == u;
          assert init[i] == u;
        }
      }
      DistinctAsSet(init, s - {last});
      assert order == init + [last];
      assert multiset(s) == multiset(s - {last}) + multiset{last};
    }
  }

  /** Whatever is still pending is reported as still marked. */
  method ReportLeft(ghost s: Store, ghost run: string, ghost marked: map<Uid, string>, pending: map<Uid, string>, sum0: Summary,
                    ghost events: seq<Event>, ghost attempts: nat, ghost expired: bool)
    returns (sum: Summary)
    requires Cleaning(run, s, marked, pending, sum0, events, {}, ListFailed, attempts) && attempts <= UNMARK_ATTEMPTS
    requires Paced(run, marked, events) && (|pending| == 0 || attempts == UNMARK_ATTEMPTS || expired)
    ensures Cleaned(run, s, marked, sum, events, expired)
  {
    var left := InOrder(pending);
    DistinctAsSet(left, pending.Keys);
    Conclude(run, s, marked, pending, sum0, events, attempts, left, expired);
    sum := sum0.(still := left);
  }

  method RemoveMarkers(api: Api, w: World, marked: map<Uid, string>, deadline: nat)
    returns (v: World, sum: Summary, ghost events: seq<Event>)
    requires Sound(w.store) && Ours(api.run, w.store, marked)
    ensures Sound(v.store) && w.turn <= v.turn && w.clock <= v.clock
    ensures Happened(api, w, v, events)
    ensures Cleaned(api.run, v.store, marked, sum, events, Expired(v, deadline))
    ensures v.turn == w.turn + |events| && BegunInTime(w.turn, deadline, events)
  {
    v, sum, events := w, NOTHING_MARKED, [];
    HappenedNothing(api, w);
    var pending, attempt := marked, 1;
    while |pending| > 0 && attempt <= UNMARK_ATTEMPTS && !Expired(v, deadline)
      invariant 1 <= attempt <= UNMARK_ATTEMPTS + 1
      invariant Cleaning(api.run, v.store, marked, pending, sum, events, {}, ListFailed, attempt - 1)
      invariant Reached(api, w, deadline, marked, events, v) && w.turn <= v.turn && w.clock <= v.clock
      invariant attempt == 1 ==> Paused(events)
      invariant attempt > 1 ==> Busy(events)
      decreases UNMARK_ATTEMPTS - attempt
    {
      if attempt > 1 {
        v := Pause(api, v, marked, pending, sum, w, deadline, events, attempt - 1);
        events := events + [Idle];
        if Expired(v, deadline) {
          break;
        }
      }
      v, pending, sum, events := CleanAttempt(api, v, marked, pending, sum, w, deadline, events, attempt - 1);
      attempt := attempt + 1;
    }
    sum := ReportLeft(v.store, api.run, marked, pending, sum, events, attempt - 1, Expired(v, deadline));
  }

  // ----- what "never marked" is worth -----

  /** Some removal from this instance took effect during these events. */
  predicate TookEffect(events: seq<Event>, uid: Uid) {
    exists i | 0 <= i < |events| :: UnmarkOf(events[i], uid) && events[i].hit.Some?
  }

  /** Some removal from this instance was answered so that it may or may not have taken effect. */
  predicate AnyAmbiguous(events: seq<Event>, uid: Uid) {
    exists i | 0 <= i < |events| ::
      UnmarkOf(events[i], uid) && events[i].answer.Some? && !MutationDefinitelyFailed(events[i].answer.value)
  }

  /** A removal took effect, its answer was lost, and the first listing that settles anything about the instance then
      shows it free of both annotations. */
  predicate LostThenFree(run: string, events: seq<Event>, uid: Uid, i: nat, j: nat)
    requires i < j < |events|
  {
    && UnmarkOf(events[i], uid) && events[i].hit.Some? && events[i].answer.Some?
    && Fate(run, events[..j], uid).None? && SawFree(events[j], uid)
  }

  /** An acknowledged removal settles the instance as removed. */
  lemma AcknowledgedIsRemoved(run: string, marked: map<Uid, string>, events: seq<Event>, uid: Uid, i: nat)
    requires Orderly(run, events) && i < |events| && UnmarkOf(events[i], uid) && events[i].answer.None?
    requires CleanupEvent(run, marked, events[i])
    ensures Fate(run, events, uid) == Some(Removed)
  {
    SettledBy(run, events, i, uid);
  }

  /** A removal is sent only before the fate of its instance is settled. */
  lemma RemovedBeforeSettled(run: string, events: seq<Event>, uid: Uid, i: nat, j: nat)
    requires Orderly(run, events) && i < |events| && UnmarkOf(events[i], uid)
    requires j < |events| && Fate(run, events[..j], uid).None? && Settles(run, events[j], uid).Some?
    ensures i <= j
  {
    if j < i {
      assert events[..i][..j + 1] == events[..j] + [events[j]];
      FateSnoc(run, events[..j], events[j], uid);
      FateStays(run, events[..i], j + 1, uid);
    }
  }

  lemma FalseMeansLost(run: string, marked: map<Uid, string>, events: seq<Event>, uid: Uid)
    requires Orderly(run, events) && forall e | e in events :: CleanupEvent(run, marked, e)
    requires Fate(run, events, uid) == Some(NeverMarked) && TookEffect(events, uid)
    ensures exists i, j | 0 <= i < j < |events| :: LostThenFree(run, events, uid, i, j)
  {
    var i :| 0 <= i < |events| && UnmarkOf(events[i], uid) && events[i].hit.Some?;
    var j := FateSettledAt(run, events, uid);
    RemovedBeforeSettled(run, events, uid, i, j);
    if events[i].answer.None? {
      AcknowledgedIsRemoved(run, marked, events, uid, i);
    }
    assert LostThenFree(run, events, uid, i, j);
  }

  lemma FreeSettles(run: string, e: Event, uid: Uid)
    requires SawFree(e, uid)
    ensures Settles(run, e, uid) == Some(NeverMarked)
  {
  }

  lemma LostMeansFalse(run: string, events: seq<Event>, uid: Uid, i: nat, j: nat)
    requires i < j < |events| && LostThenFree(run, events, uid, i, j)
    ensures Fate(run, events, uid) == Settles(run, events[j], uid) && TookEffect(events, uid)
  {
    FreeSettles(run, events[j], uid);
    SettledBy(run, events, j, uid);
  }

  /** "Never marked" is true of an instance from which this cleanup removed nothing.  It is false exactly if a removal
      took effect, its answer was lost, and the next word about the instance is a listing that shows it free. */
  lemma NeverMarkedIsFalse(run: string, s: Store, marked: map<Uid, string>, sum: Summary, events: seq<Event>,
                           expired: bool, uid: Uid)
    requires Cleaned(run, s, marked, sum, events, expired) && uid in marked
    ensures uid in sum.notMarked && TookEffect(events, uid) <==>
              exists i, j | 0 <= i < j < |events| :: LostThenFree(run, events, uid, i, j)
  {
    if uid in sum.notMarked && TookEffect(events, uid) {
      FalseMeansLost(run, marked, events, uid);
    }
    if i, j :| 0 <= i < j < |events| && LostThenFree(run, events, uid, i, j) {
      LostMeansFalse(run, events, uid, i, j);
      FreeSettles(run, events[j], uid);
    }
  }

  /** So without an ambiguous answer to a removal the word is true. */
  lemma NeverMarkedIsTrue(run: string, s: Store, marked: map<Uid, string>, sum: Summary, events: seq<Event>,
                          expired: bool, uid: Uid)
    requires Cleaned(run, s, marked, sum, events, expired) && uid in sum.notMarked && uid in marked
    ensures !AnyAmbiguous(events, uid) ==> !TookEffect(events, uid)
  {
    NeverMarkedIsFalse(run, s, marked, sum, events, expired, uid);
    if i, j :| 0 <= i < j < |events| && LostThenFree(run, events, uid, i, j) {
      assert CleanupEvent(run, marked, events[i]);
      assert AnyAmbiguous(events, uid);
    }
  }

  /** What a listing can show after a removal took effect: the pod is free of both annotations exactly when the marker was
      part of the removal or had gone before. */
  lemma AfterRemoval(run: string, p: Pod, target: Pod)
    requires UnmarkTests(run, p, target)
    ensures UnmarkEffect(p, target).Free() <==> target.Has(RollingUpdate) || !p.Has(RollingUpdate)
    ensures !UnmarkEffect(p, target).Claimed(run)
  {
  }

  // ----- a removal whose answer is lost -----

  lemma {:induction false} DueAt(run: string, marked: map<Uid, string>, events: seq<Event>, k: nat)
    requires Paced(run, marked, events) && k < |events|
    ensures Due(run, marked, events[..k], events[k])
  {
    var front := events[..|events| - 1];
    if k < |front| {
      DueAt(run, marked, front, k);
      assert front[..k] == events[..k];
    }
  }

  /** The marked pod `p` is listed, then nobody interferes, its removal is executed but answered with this error, and the
      listing of the next attempt is answered again. */
  predicate AnswerGetsLost(api: Api, turn: nat, p: Pod, error: ApiError) {
    && api.script(turn).verdict.Deliver?
    && api.script(turn + 1).acts == [] && api.script(turn + 1).verdict == Lose(error, true) && !MutationDefinitelyFailed(error)
    && api.script(turn + 2).acts == []
    && api.script(turn + 3).acts == [] && api.script(turn + 3).verdict.Deliver?
    && p.Held(api.run)
  }

  /** What a cleanup of `p` alone did: everything the contract says about its log. */
  ghost predicate OnePodLog(api: Api, w: World, p: Pod, events: seq<Event>) {
    var marked := map[p.uid := p.name];
    && Sound(w.store) && p.name in Meets(api, w.turn, w.store).pods && Meets(api, w.turn, w.store).pods[p.name] == p
    && AllFit(api, Now(w), events) && Paced(api.run, marked, events)
  }

  /** A listing of a store with `p` settles nothing while `p` is claimed, and that it was never marked once it is free. */
  lemma ListingOf(run: string, s: Store, p: Pod, pods: seq<Pod>)
    requires Sound(s) && p.name in s.pods && s.pods[p.name] == p && p.member && IsListing(s, pods)
    ensures p in pods && forall q | q in pods && q.uid == p.uid :: q == p
    ensures p.Claimed(run) ==> Settles(run, Listed(pods), p.uid) == None
    ensures p.Free() ==> Settles(run, Listed(pods), p.uid) == Some(NeverMarked)
  {
  }

  lemma FirstIsListing(api: Api, w: World, p: Pod, error: ApiError, events: seq<Event>)
    requires AnswerGetsLost(api, w.turn, p, error) && OnePodLog(api, w, p, events) && events != []
    ensures events[0].Listed? && p in events[0].pods && forall q | q in events[0].pods && q.uid == p.uid :: q == p
    ensures MomentAfter(api, Now(w), [events[0]]).store == Meets(api, w.turn, w.store)
    ensures MomentAfter(api, Now(w), [events[0]]).turn == w.turn + 1
    ensures Fate(api.run, [events[0]], p.uid).None?
  {
    var e := events[0];
    FitAt(api, Now(w), events, 0);
    DueAt(api.run, map[p.uid := p.name], events, 0);
    AfterIsSound(api.run, w.store, api.script(w.turn).acts);
    assert events[..0] == [] && [e][..0] == [];
    if e.Listed? {
      ListingOf(api.run, Meets(api, w.turn, w.store), p, e.pods);
    }
  }

  lemma CountsOfOne(e: Event, uid: Uid)
    requires e.Listed?
    ensures Unmarks([e], uid) == 0 && ListFailures([e]) == 0 && Attempts([e]) == 1 && LastListing([e], []) == e.pods
  {
    CountSnoc([], e);
    assert [] + [e] == [e];
  }

  lemma SecondIsRemoval(api: Api, w: World, p: Pod, error: ApiError, events: seq<Event>)
    requires AnswerGetsLost(api, w.turn, p, error) && OnePodLog(api, w, p, events) && |events| >= 2
    ensures events[1] == Unmarked(p, Some(p), Some(error))
    ensures var m := MomentAfter(api, Now(w), [events[0], events[1]]);
            m.store == Put(Meets(api, w.turn, w.store), UnmarkEffect(p, p)) && m.turn == w.turn + 2
  {
    var now := Meets(api, w.turn, w.store);
    FirstIsListing(api, w, p, error, events);
    CountsOfOne(events[0], p.uid);
    assert events[..1] == [events[0]];
    DueAt(api.run, map[p.uid := p.name], events, 1);
    FitAt(api, Now(w), events, 1);
    assert Meets(api, w.turn + 1, now) == now;
    assert [events[0], events[1]][..1] == [events[0]];
  }

  lemma CountsOfTwo(listing: Event, e: Event, uid: Uid)
    requires listing.Listed? && UnmarkOf(e, uid)
    ensures Unmarks([listing, e], uid) == 1 && ListFailures([listing, e]) == 0 && Attempts([listing, e]) == 1
  {
    CountsOfOne(listing, uid);
    CountSnoc([listing], e);
    assert [listing, e] == [listing] + [e];
  }

  lemma RemovalSettlesNothing(run: string, listing: Event, e: Event, uid: Uid)
    requires Fate(run, [listing], uid).None? && UnmarkOf(e, uid) && e.answer.Some?
    ensures Fate(run, [listing, e], uid).None?
  {
    FateSnoc(run, [listing], e, uid);
    assert [listing, e] == [listing] + [e];
  }

  /** After the removal comes the pause. */
  lemma ThirdIsPause(api: Api, w: World, p: Pod, error: ApiError, events: seq<Event>)
    requires AnswerGetsLost(api, w.turn, p, error) && OnePodLog(api, w, p, events) && |events| >= 3
    ensures events[2].Idle? && events[..3] == [events[0], events[1]] + [Idle]
  {
    SecondIsRemoval(api, w, p, error, events);
    FirstIsListing(api, w, p, error, events);
    CountsOfTwo(events[0], events[1], p.uid);
    assert events[..2] == [events[0], events[1]];
    DueAt(api.run, map[p.uid := p.name], events, 2);
  }

  lemma CountsOfThree(run: string, listing: Event, e: Event, uid: Uid)
    requires listing.Listed? && UnmarkOf(e, uid) && e.answer.Some? && Fate(run, [listing], uid).None?
    ensures var three := [listing, e] + [Idle];
            Fate(run, three, uid).None? && Unmarks(three, uid) == 1 && ListFailures(three) == 0 && Attempts(three) == 1
  {
    CountsOfTwo(listing, e, uid);
    RemovalSettlesNothing(run, listing, e, uid);
    CountSnoc([listing, e], Idle);
    FateSnoc(run, [listing, e], Idle, uid);
  }

  lemma PauseKeepsStore(api: Api, m: Moment, two: seq<Event>, s: Store, turn: nat)
    requires MomentAfter(api, m, two).store == s && MomentAfter(api, m, two).turn == turn && api.script(turn).acts == []
    ensures MomentAfter(api, m, two + [Idle]).store == s && MomentAfter(api, m, two + [Idle]).turn == turn + 1
  {
    FitSnoc(api, m, two, Idle, MomentAfter(api, m, two));
    assert Meets(api, turn, s) == s;
  }

  /** What the listing of the second attempt shows. */
  lemma FreeAfterRemoval(api: Api, s: Store, p: Pod, m: Moment, e: Event)
    requires Sound(s) && p.name in s.pods && s.pods[p.name] == p && p.Held(api.run)
    requires m.store == Put(s, UnmarkEffect(p, p))
    requires api.script(m.turn).acts == [] && api.script(m.turn).verdict.Deliver? && BeginsAttempt(e)
    requires Fits(api, m, e)
    ensures Settles(api.run, e, p.uid) == Some(NeverMarked)
  {
    PutKeeps(s, UnmarkEffect(p, p));
    AfterRemoval(api.run, p, p);
    assert Meets(api, m.turn, m.store) == m.store;
    ListingOf(api.run, m.store, m.store.pods[p.name], e.pods);
  }

  lemma FourthBeginsAttempt(api: Api, w: World, p: Pod, error: ApiError, events: seq<Event>)
    requires AnswerGetsLost(api, w.turn, p, error) && OnePodLog(api, w, p, events) && |events| >= 4
    ensures BeginsAttempt(events[3]) && Fits(api, MomentAfter(api, Now(w), events[..3]), events[3])
    ensures Fate(api.run, events[..3], p.uid).None?
  {
    FirstIsListing(api, w, p, error, events);
    SecondIsRemoval(api, w, p, error, events);
    ThirdIsPause(api, w, p, error, events);
    CountsOfThree(api.run, events[0], events[1], p.uid);
    DueAt(api.run, map[p.uid := p.name], events, 3);
    FitAt(api, Now(w), events, 3);
  }

  lemma FourthSettles(api: Api, w: World, p: Pod, error: ApiError, events: seq<Event>)
    requires AnswerGetsLost(api, w.turn, p, error) && OnePodLog(api, w, p, events) && |events| >= 4
    ensures Settles(api.run, events[3], p.uid) == Some(NeverMarked)
  {
    var now := Meets(api, w.turn, w.store);
    AfterIsSound(api.run, w.store, api.script(w.turn).acts);
    SecondIsRemoval(api, w, p, error, events);
    ThirdIsPause(api, w, p, error, events);
    PauseKeepsStore(api, Now(w), [events[0], events[1]], Put(now, UnmarkEffect(p, p)), w.turn + 2);
    FourthBeginsAttempt(api, w, p, error, events);
    FreeAfterRemoval(api, now, p, MomentAfter(api, Now(w), events[..3]), events[3]);
  }

  lemma FourthSeesItFree(api: Api, w: World, p: Pod, error: ApiError, events: seq<Event>)
    requires AnswerGetsLost(api, w.turn, p, error) && OnePodLog(api, w, p, events) && |events| >= 4
    ensures Fate(api.run, events, p.uid) == Some(NeverMarked)
  {
    FourthBeginsAttempt(api, w, p, error, events);
    FourthSettles(api, w, p, error, events);
    SettledBy(api.run, events, 3, p.uid);
  }

  lemma ThreeEventsSettleNothing(api: Api, w: World, p: Pod, error: ApiError, events: seq<Event>)
    requires AnswerGetsLost(api, w.turn, p, error) && OnePodLog(api, w, p, events) && |events| <= 3
    ensures Fate(api.run, events, p.uid).None? && Attempts(events) <= 1
  {
    if events != [] {
      FirstIsListing(api, w, p, error, events);
      CountsOfOne(events[0], p.uid);
      if |events| == 1 {
        assert events == [events[0]];
      } else {
        SecondIsRemoval(api, w, p, error, events);
        CountsOfThree(api.run, events[0], events[1], p.uid);
        CountsOfTwo(events[0], events[1], p.uid);
        RemovalSettlesNothing(api.run, events[0], events[1], p.uid);
        if |events| == 2 {
          assert events == [events[0], events[1]];
        } else {
          ThirdIsPause(api, w, p, error, events);
          assert events == events[..3];
        }
      }
    }
  }

  /** The cleanup does not stop before its fourth event. */
  lemma GoesOnToFourth(api: Api, w: World, v: World, p: Pod, error: ApiError, sum: Summary, events: seq<Event>, deadline: nat)
    requires AnswerGetsLost(api, w.turn, p, error) && OnePodLog(api, w, p, events)
    requires Cleaned(api.run, v.store, map[p.uid := p.name], sum, events, Expired(v, deadline))
    requires v.turn <= w.turn + |events| && w.turn + 3 < deadline
    ensures |events| >= 4
  {
    if |events| <= 3 {
      ThreeEventsSettleNothing(api, w, p, error, events);
    }
  }

  /** The cleanup of one marked pod, under every script in which the answer to its first removal gets lost like that: the
      marker is removed, and the instance is reported as never marked. */
  method LostRemoval(api: Api, w: World, p: Pod, error: ApiError, deadline: nat)
    returns (v: World, sum: Summary, ghost events: seq<Event>)
    requires Sound(w.store) && Ours(api.run, w.store, map[p.uid := p.name])
    requires p.name in Meets(api, w.turn, w.store).pods && Meets(api, w.turn, w.store).pods[p.name] == p
    requires AnswerGetsLost(api, w.turn, p, error) && w.turn + 3 < deadline
    ensures v.log == w.log + events && p.uid in sum.notMarked && TookEffect(events, p.uid)
    ensures NotClaimed(api.run, v.store, p.uid)
  {
    v, sum, events := RemoveMarkers(api, w, map[p.uid := p.name], deadline);
    assert forall e | e in events :: CleanupEvent(api.run, map[p.uid := p.name], e);
    TurnsPass(api, Now(w), events);
    GoesOnToFourth(api, w, v, p, error, sum, events, deadline);
    SecondIsRemoval(api, w, p, error, events);
    FourthSeesItFree(api, w, p, error, events);
    assert UnmarkOf(events[1], p.uid);
  }

  // ----- in numbers -----

  /** An instance is left behind only after three attempts, each of which failed to list the pods or to remove its marker,
      or when the time is over. */
  lemma LeftAfterThree(run: string, s: Store, marked: map<Uid, string>, sum: Summary, events: seq<Event>, expired: bool, uid: Uid)
    requires Cleaned(run, s, marked, sum, events, expired) && uid in sum.still
    ensures Unmarks(events, uid) + ListFailures(events) == Attempts(events) <= 3
    ensures !expired ==> Attempts(events) == 3
  {
  }
}
