/** The API server as the restart of one PostgreSQL cluster sees it: pods changing under the feet of the program.

    Between any two requests the operator, other runs, administrators and this run's restarts of other clusters may
    create, delete and update pods.  What they cannot do is write this run's ID (it is fresh) to a pod of this cluster,
    reuse a UID, or change whether a pod matches the cluster's label selector.  A request is executed atomically, and it
    may be executed although its answer is lost. */
module PodStore {
  import opened Common

  /** UIDs are handed out in increasing order, so "never reused" is "below the next one". */
  type Uid = nat

  datatype Key = RollingUpdate | MarkedBy | Other(name: string)

  type Notes = map<Key, string>

  datatype Pod = Pod(name: string, uid: Uid, rv: nat, notes: Option<Notes>, member: bool, deleting: bool, running: bool, ready: bool)
  {
    function Get(key: Key): Option<string> {
      if notes.Some? && key in notes.value then Some(notes.value[key]) else None
    }

    predicate Has(key: Key) { Get(key).Some? }

    /** Neither annotation of the marker protocol is present. */
    predicate Free() { !Has(RollingUpdate) && !Has(MarkedBy) }

    predicate Claimed(run: string) { Get(MarkedBy) == Some(run) }

    /** A pod of the cluster that carries this run's ID. */
    predicate Held(run: string) { member && Claimed(run) }

    predicate Healthy() { !deleting && running && ready }
  }

  datatype Status = Running | SyncFailed | UpdateFailed | OtherStatus

  datatype Cr = Cr(status: Status, instances: int)

  datatype Store = Store(pods: map<string, Pod>, version: nat, nextUid: Uid, cr: Cr)

  ghost predicate Sound(s: Store) {
    && (forall n | n in s.pods :: s.pods[n].name == n && s.pods[n].uid < s.nextUid && s.pods[n].rv <= s.version)
    && (forall n, m | n in s.pods && m in s.pods && s.pods[n].uid == s.pods[m].uid :: n == m)
  }

  /** How a pod found in a later store relates to the earlier store. */
  ghost predicate Descends(s: Store, p: Pod) {
    && (p.uid < s.nextUid ==> p.name in s.pods && s.pods[p.name].uid == p.uid && s.pods[p.name].member == p.member)
    && (p.uid < s.nextUid && p.name in s.pods ==> p == s.pods[p.name] || p.rv > s.version)
    && (p.uid >= s.nextUid ==> p.rv > s.version)
  }

  /** `t` is a possible later content of `s`: versions and UIDs only grow, a gone instance never comes back, and an
      instance with an unchanged version is unchanged. */
  ghost predicate Later(s: Store, t: Store) {
    && s.version <= t.version && s.nextUid <= t.nextUid
    && forall n | n in t.pods :: Descends(s, t.pods[n])
  }

  /** Nobody wrote this run's ID to a pod of the cluster between `s` and `t`. */
  ghost predicate Quiet(run: string, s: Store, t: Store) {
    && Later(s, t)
    && forall n | n in t.pods && t.pods[n].Held(run) ::
         n in s.pods && s.pods[n].uid == t.pods[n].uid && s.pods[n].Held(run)
  }

  lemma LaterTransitive(s: Store, t: Store, u: Store)
    requires Sound(s) && Sound(t) && Sound(u) && Later(s, t) && Later(t, u)
    ensures Later(s, u)
  {
    forall n | n in u.pods
      ensures Descends(s, u.pods[n])
    {
      assert Descends(t, u.pods[n]);
      if u.pods[n].uid < t.nextUid {
        assert Descends(s, t.pods[n]);
      }
    }
  }

  lemma QuietTransitive(run: string, s: Store, t: Store, u: Store)
    requires Sound(s) && Sound(t) && Sound(u) && Quiet(run, s, t) && Quiet(run, t, u)
    ensures Quiet(run, s, u)
  {
    LaterTransitive(s, t, u);
  }

  /** `p` was read from the store at this moment or earlier. */
  ghost predicate Known(s: Store, p: Pod) {
    && p.uid < s.nextUid && p.rv <= s.version
    && forall n | n in s.pods && s.pods[n].uid == p.uid ::
         n == p.name && s.pods[n].member == p.member && (s.pods[n] == p || s.pods[n].rv > p.rv)
  }

  lemma KnownStays(s: Store, t: Store, p: Pod)
    requires Sound(s) && Sound(t) && Later(s, t) && Known(s, p)
    ensures Known(t, p)
  {
    forall n | n in t.pods && t.pods[n].uid == p.uid
      ensures n == p.name && t.pods[n].member == p.member && (t.pods[n] == p || t.pods[n].rv > p.rv)
    {
      assert Descends(s, t.pods[n]);
    }
  }

  /** The instance with this UID existed and is gone. */
  ghost predicate Dead(s: Store, uid: Uid) {
    uid < s.nextUid && forall n | n in s.pods :: s.pods[n].uid != uid
  }

  lemma DeadStays(s: Store, t: Store, uid: Uid)
    requires Sound(s) && Sound(t) && Later(s, t) && Dead(s, uid)
    ensures Dead(t, uid)
  {
    forall n | n in t.pods
      ensures t.pods[n].uid != uid
    {
      assert Descends(s, t.pods[n]);
    }
  }

  /** Every live instance of the cluster that carries this run's ID is one of `uids`. */
  ghost predicate ClaimsWithin(run: string, s: Store, uids: set<Uid>) {
    forall n | n in s.pods && s.pods[n].Held(run) :: s.pods[n].uid in uids
  }

  // ----- the environment -----

  datatype Act =
    | Create(pod: Pod)
    | Delete(name: string)
    | Update(pod: Pod)
    | SetCr(cr: Cr)

  /** Overwrites the pod of that name; its identity stays and its version is new. */
  function Put(s: Store, p: Pod): Store {
    if p.name !in s.pods then s
    else
      var q := p.(uid := s.pods[p.name].uid, member := s.pods[p.name].member, rv := s.version + 1);
      s.(pods := s.pods[p.name := q], version := s.version + 1)
  }

  function Add(s: Store, p: Pod): Store {
    var q := p.(uid := s.nextUid, rv := s.version + 1);
    s.(pods := s.pods[p.name := q], version := s.version + 1, nextUid := s.nextUid + 1)
  }

  lemma PutKeeps(s: Store, p: Pod)
    requires Sound(s)
    ensures Sound(Put(s, p)) && Later(s, Put(s, p))
  {
  }

  lemma AddKeeps(s: Store, p: Pod)
    requires Sound(s) && p.name !in s.pods
    ensures Sound(Add(s, p)) && Later(s, Add(s, p))
  {
  }

  /** One action of somebody else. Actions outside the stated assumptions have no effect. */
  function Apply(run: string, s: Store, a: Act): Store {
    match a
    case Create(p) => if p.name in s.pods || p.Held(run) then s else Add(s, p)
    case Delete(name) => s.(pods := s.pods - {name}, version := s.version + 1)
    case Update(p) =>
      if p.name !in s.pods || (s.pods[p.name].member && p.Claimed(run) && !s.pods[p.name].Claimed(run)) then s else Put(s, p)
    case SetCr(cr) => s.(cr := cr, version := s.version + 1)
  }

  lemma CreateKeeps(run: string, s: Store, p: Pod)
    requires Sound(s) && p.name !in s.pods && !p.Held(run)
    ensures Sound(Add(s, p)) && Quiet(run, s, Add(s, p))
  {
    AddKeeps(s, p);
  }

  lemma DeleteKeeps(run: string, s: Store, name: string)
    requires Sound(s)
    ensures var t := s.(pods := s.pods - {name}, version := s.version + 1); Sound(t) && Quiet(run, s, t)
  {
  }

  lemma UpdateKeeps(run: string, s: Store, p: Pod)
    requires Sound(s) && p.name in s.pods && (s.pods[p.name].member && p.Claimed(run) ==> s.pods[p.name].Claimed(run))
    ensures Sound(Put(s, p)) && Quiet(run, s, Put(s, p))
  {
    PutKeeps(s, p);
  }

  lemma ApplyKeeps(run: string, s: Store, a: Act)
    requires Sound(s)
    ensures Sound(Apply(run, s, a)) && Quiet(run, s, Apply(run, s, a))
  {
    match a
    case Create(p) =>
      if p.name !in s.pods && !p.Held(run) {
        CreateKeeps(run, s, p);
      }
    case Delete(name) => DeleteKeeps(run, s, name);
    case Update(p) =>
      if p.name in s.pods && (s.pods[p.name].member && p.Claimed(run) ==> s.pods[p.name].Claimed(run)) {
        UpdateKeeps(run, s, p);
      }
    case SetCr(_) =>
  }

  /** The store after these actions of others. */
  function After(run: string, s: Store, acts: seq<Act>): Store {
    if acts == [] then s else Apply(run, After(run, s, acts[..|acts| - 1]), acts[|acts| - 1])
  }

  lemma {:induction false} AfterIsSound(run: string, s: Store, acts: seq<Act>)
    requires Sound(s)
    ensures Sound(After(run, s, acts))
  {
    if acts != [] {
      AfterIsSound(run, s, acts[..|acts| - 1]);
      ApplyKeeps(run, After(run, s, acts[..|acts| - 1]), acts[|acts| - 1]);
    }
  }

  /** How the server treats a request: it is executed and answered, or the caller gets `error`, and then a mutation may
      still have been executed unless the answer is a definite rejection. */
  datatype Verdict = Deliver | Lose(error: ApiError, executed: bool)

  datatype Turn = Turn(acts: seq<Act>, elapsed: nat, verdict: Verdict)

  /** This run's ID and everything the rest of the world will do. */
  datatype Api = Api(run: string, script: nat -> Turn)

  datatype Event =
    | Listed(pods: seq<Pod>)
    | ListFailed
    | CrRead(cr: Option<Cr>)
    | Marked(target: Pod, hit: Option<Pod>, answer: Option<ApiError>)
    | Unmarked(target: Pod, hit: Option<Pod>, answer: Option<ApiError>)
    | Triggered(answer: Option<ApiError>)
    | Idle // waiting for the next tick of a timer or the end of the context
    | Tripped

  /** A context expires at some turn: `Expired(w, deadline)` is what ctx.Err() != nil says. */
  datatype World = World(store: Store, turn: nat, clock: nat, log: seq<Event>)

  predicate Expired(w: World, deadline: nat) { w.turn >= deadline }

  datatype Answer<+T> = Ok(value: T) | Err(error: ApiError)

  method Settle(run: string, s: Store, acts: seq<Act>) returns (t: Store)
    requires Sound(s)
    ensures Sound(t) && Quiet(run, s, t) && t == After(run, s, acts)
  {
    t := s;
    for i := 0 to |acts|
      invariant Sound(t) && Quiet(run, s, t) && t == After(run, s, acts[..i])
    {
      ghost var before := t;
      assert acts[..i + 1][..i] == acts[..i];
      ApplyKeeps(run, t, acts[i]);
      t := Apply(run, t, acts[i]);
      QuietTransitive(run, s, before, t);
    }
    assert acts[..|acts|] == acts;
  }

  ghost predicate IsListing(s: Store, list: seq<Pod>) {
    && (forall i | 0 <= i < |list| :: list[i].name in s.pods && s.pods[list[i].name] == list[i] && list[i].member)
    && (forall n | n in s.pods && s.pods[n].member :: s.pods[n] in list)
    && (forall i, j | 0 <= i < j < |list| :: list[i].uid != list[j].uid)
  }

  // ----- what the two pod patches do -----

  /** The marking patch takes effect on `p`: same UID, same version, and the annotations object it adds into exists. */
  predicate MarkTests(p: Pod, target: Pod) {
    p.uid == target.uid && p.rv == target.rv && (target.notes.Some? ==> p.notes.Some?)
  }

  function MarkEffect(run: string, p: Pod, target: Pod): Pod {
    if target.notes.None? then p.(notes := Some(map[RollingUpdate := "true", MarkedBy := run]))
    else if p.notes.Some? then p.(notes := Some(p.notes.value[RollingUpdate := "true"][MarkedBy := run]))
    else p
  }

  /** The unmarking patch takes effect on `p`: same UID, still owned by this run, and what it removes is there. */
  predicate UnmarkTests(run: string, p: Pod, target: Pod) {
    p.uid == target.uid && p.Claimed(run) && (target.Has(RollingUpdate) ==> p.Has(RollingUpdate))
  }

  function UnmarkEffect(p: Pod, target: Pod): Pod {
    if p.notes.None? then p
    else p.(notes := Some(p.notes.value - (if target.Has(RollingUpdate) then {RollingUpdate, MarkedBy} else {MarkedBy})))
  }

  /** Whether a mutation that got this verdict is executed by the server. */
  predicate Executes(v: Verdict) {
    v.Deliver? || (v.executed && !MutationDefinitelyFailed(v.error))
  }

  predicate MaybeApplied(answer: Option<ApiError>) {
    answer.None? || !MutationDefinitelyFailed(answer.value)
  }

  const NOT_FOUND := Status(404, false)
  const UNPROCESSABLE := Status(422, false)

  /** The instance a marking patch takes effect on, if any. */
  function MarkHit(s: Store, verdict: Verdict, target: Pod): Option<Pod> {
    if Executes(verdict) && target.name in s.pods && MarkTests(s.pods[target.name], target) then Some(s.pods[target.name])
    else None
  }

  /** The instance an unmarking patch takes effect on, if any. */
  function UnmarkHit(run: string, s: Store, verdict: Verdict, target: Pod): Option<Pod> {
    if Executes(verdict) && target.name in s.pods && UnmarkTests(run, s.pods[target.name], target) then Some(s.pods[target.name])
    else None
  }

  function Unmarking(run: string, s: Store, verdict: Verdict, target: Pod): Store {
    if UnmarkHit(run, s, verdict, target).None? then s else Put(s, UnmarkEffect(s.pods[target.name], target))
  }

  /** The answer to a patch that takes effect on `hit`. */
  function AnswerTo(s: Store, verdict: Verdict, target: Pod, hit: Option<Pod>): Option<ApiError> {
    match verdict
    case Lose(error, _) => Some(error)
    case Deliver => if target.name !in s.pods then Some(NOT_FOUND) else if hit.None? then Some(UNPROCESSABLE) else None
  }

  function Marking(run: string, s: Store, verdict: Verdict, target: Pod): Store {
    if MarkHit(s, verdict, target).None? then s else Put(s, MarkEffect(run, s.pods[target.name], target))
  }

  /** What a patch does does not depend on how its answer gets lost. */
  lemma ExecutedOrNot(run: string, s: Store, verdict: Verdict, target: Pod)
    ensures Executes(verdict) ==>
              && MarkHit(s, verdict, target) == MarkHit(s, Deliver, target)
              && Marking(run, s, verdict, target) == Marking(run, s, Deliver, target)
              && UnmarkHit(run, s, verdict, target) == UnmarkHit(run, s, Deliver, target)
              && Unmarking(run, s, verdict, target) == Unmarking(run, s, Deliver, target)
    ensures !Executes(verdict) ==>
              && MarkHit(s, verdict, target).None? && Marking(run, s, verdict, target) == s
              && UnmarkHit(run, s, verdict, target).None? && Unmarking(run, s, verdict, target) == s
  {
  }

  // ----- what the script lets happen -----

  /** The store, the turn of the next request, and the clock. */
  datatype Moment = Moment(store: Store, turn: nat, clock: nat)

  function Now(w: World): Moment { Moment(w.store, w.turn, w.clock) }

  /** The store that the request made at this turn meets. */
  function Meets(api: Api, turn: nat, s: Store): Store { After(api.run, s, api.script(turn).acts) }

  /** This event is what the request made at this moment comes to. */
  ghost predicate Fits(api: Api, m: Moment, e: Event) {
    var now, verdict := Meets(api, m.turn, m.store), api.script(m.turn).verdict;
    match e
    case Listed(pods) => verdict.Deliver? && IsListing(now, pods)
    case ListFailed => verdict.Lose?
    case CrRead(cr) => cr == if verdict.Deliver? then Some(now.cr) else None
    case Marked(target, hit, answer) => hit == MarkHit(now, verdict, target) && answer == AnswerTo(now, verdict, target, hit)
    case Unmarked(target, hit, answer) =>
      hit == UnmarkHit(api.run, now, verdict, target) && answer == AnswerTo(now, verdict, target, hit)
    case Triggered(answer) => answer == if verdict.Lose? then Some(verdict.error) else None
    case Idle => true
    case Tripped => true
  }

  function StoreAfter(api: Api, m: Moment, e: Event): Store {
    var now, verdict := Meets(api, m.turn, m.store), api.script(m.turn).verdict;
    match e
    case Marked(target, _, _) => Marking(api.run, now, verdict, target)
    case Unmarked(target, _, _) => Unmarking(api.run, now, verdict, target)
    case _ => now
  }

  /** Every request and every wait takes one turn; tripping the stop takes none. */
  function Passing(api: Api, m: Moment, e: Event): Moment {
    if e.Tripped? then m else Moment(StoreAfter(api, m, e), m.turn + 1, m.clock + api.script(m.turn).elapsed)
  }

  function MomentAfter(api: Api, m: Moment, events: seq<Event>): Moment {
    if events == [] then m else Passing(api, MomentAfter(api, m, events[..|events| - 1]), events[|events| - 1])
  }

  ghost predicate AllFit(api: Api, m: Moment, events: seq<Event>) {
    events == [] ||
    var front := events[..|events| - 1];
    AllFit(api, m, front) && Fits(api, MomentAfter(api, m, front), events[|events| - 1])
  }

  /** Exactly these events lie between `w` and `v`, and each is what the script of the other writers and the network makes of
      it: nothing is made up, left out of the log or delayed. */
  ghost predicate Happened(api: Api, w: World, v: World, events: seq<Event>) {
    v.log == w.log + events && Now(v) == MomentAfter(api, Now(w), events) && AllFit(api, Now(w), events)
  }

  lemma FitSnoc(api: Api, m: Moment, events: seq<Event>, e: Event, t: Moment)
    requires t == MomentAfter(api, m, events)
    ensures MomentAfter(api, m, events + [e]) == Passing(api, t, e)
    ensures AllFit(api, m, events + [e]) <==> AllFit(api, m, events) && Fits(api, t, e)
  {
    assert (events + [e])[..|events|] == events;
  }

  lemma {:induction false} FitBoth(api: Api, m: Moment, a: seq<Event>, t: Moment, b: seq<Event>)
    requires t == MomentAfter(api, m, a)
    ensures MomentAfter(api, m, a + b) == MomentAfter(api, t, b)
    ensures AllFit(api, m, a + b) <==> AllFit(api, m, a) && AllFit(api, t, b)
  {
    if b == [] {
      assert a + b == a;
    } else {
      var front, last := b[..|b| - 1], b[|b| - 1];
      var u := MomentAfter(api, t, front);
      assert b == front + [last];
      FitSnoc(api, t, front, last, u);
      FitBoth(api, m, a, t, front);
      FitSnoc(api, m, a + front, last, u);
      Assoc(a, front, [last]);
    }
  }

  lemma {:induction false} FitAt(api: Api, m: Moment, events: seq<Event>, k: nat)
    requires AllFit(api, m, events) && k < |events|
    ensures Fits(api, MomentAfter(api, m, events[..k]), events[k])
  {
    var front := events[..|events| - 1];
    if k < |front| {
      FitAt(api, m, front, k);
      assert front[..k] == events[..k];
    }
  }

  /** Without trips every event is one turn. */
  lemma {:induction false} TurnsPass(api: Api, m: Moment, events: seq<Event>)
    requires forall e | e in events :: !e.Tripped?
    ensures MomentAfter(api, m, events).turn == m.turn + |events|
  {
    if events != [] {
      assert events[|events| - 1] in events;
      TurnsPass(api, m, events[..|events| - 1]);
    }
  }

  lemma HappenedThen(api: Api, w: World, u: World, v: World, a: seq<Event>, b: seq<Event>)
    requires Happened(api, w, u, a) && Happened(api, u, v, b)
    ensures Happened(api, w, v, a + b) && v.log == w.log + a + b
  {
    FitBoth(api, Now(w), a, Now(u), b);
    Assoc(w.log, a, b);
  }

  lemma HappenedOne(api: Api, w: World, v: World, e: Event)
    requires v.log == w.log + [e] && Now(v) == Passing(api, Now(w), e) && Fits(api, Now(w), e)
    ensures Happened(api, w, v, [e])
  {
    assert [e][..0] == [];
  }

  lemma HappenedNothing(api: Api, w: World)
    ensures Happened(api, w, w, [])
  {
    assert w.log + [] == w.log;
  }

  // ----- the requests -----

  /** The world moves on to the next request. */
  method Advance(api: Api, w: World) returns (v: World)
    requires Sound(w.store)
    ensures Sound(v.store) && Quiet(api.run, w.store, v.store)
    ensures v.turn == w.turn + 1 && w.clock <= v.clock && v.log == w.log
    ensures v.store == Meets(api, w.turn, w.store) && v.clock == w.clock + api.script(w.turn).elapsed
  {
    var turn := api.script(w.turn);
    var store := Settle(api.run, w.store, turn.acts);
    v := World(store, w.turn + 1, w.clock + turn.elapsed, w.log);
  }

  method Snapshot(s: Store) returns (list: seq<Pod>)
    requires Sound(s)
    ensures IsListing(s, list)
  {
    list := [];
    var names := s.pods.Keys;
    while names != {}
      invariant names <= s.pods.Keys
      invariant forall i | 0 <= i < |list| ::
        list[i].name in s.pods && s.pods[list[i].name] == list[i] && list[i].member && list[i].name !in names
      invariant forall n | n in s.pods && n !in names && s.pods[n].member :: s.pods[n] in list
      invariant forall i, j | 0 <= i < j < |list| :: list[i].uid != list[j].uid
      decreases |names|
    {
      var n :| n in names;
      names := names - {n};
      if s.pods[n].member {
        list := list + [s.pods[n]];
      }
    }
  }

  method ListPods(api: Api, w: World) returns (v: World, answer: Answer<seq<Pod>>)
    requires Sound(w.store)
    ensures Sound(v.store) && Quiet(api.run, w.store, v.store) && v.turn == w.turn + 1 && w.clock <= v.clock
    ensures answer.Ok? ==> IsListing(v.store, answer.value) && v.log == w.log + [Listed(answer.value)]
    ensures answer.Err? ==> v.log == w.log + [ListFailed]
    ensures Happened(api, w, v, [if answer.Ok? then Listed(answer.value) else ListFailed])
  {
    v := Advance(api, w);
    var verdict := api.script(w.turn).verdict;
    if verdict.Lose? {
      v, answer := v.(log := v.log + [ListFailed]), Err(verdict.error);
      HappenedOne(api, w, v, ListFailed);
      return;
    }
    var pods := Snapshot(v.store);
    v, answer := v.(log := v.log + [Listed(pods)]), Ok(pods);
    HappenedOne(api, w, v, Listed(pods));
  }

  method GetCr(api: Api, w: World) returns (v: World, answer: Answer<Cr>)
    requires Sound(w.store)
    ensures Sound(v.store) && Quiet(api.run, w.store, v.store) && v.turn == w.turn + 1 && w.clock <= v.clock
    ensures answer.Ok? ==> answer.value == v.store.cr && v.log == w.log + [CrRead(Some(answer.value))]
    ensures answer.Err? ==> v.log == w.log + [CrRead(None)]
    ensures Happened(api, w, v, [CrRead(if answer.Ok? then Some(answer.value) else None)])
  {
    v := Advance(api, w);
    var verdict := api.script(w.turn).verdict;
    if verdict.Lose? {
      v, answer := v.(log := v.log + [CrRead(None)]), Err(verdict.error);
      HappenedOne(api, w, v, CrRead(None));
      return;
    }
    v, answer := v.(log := v.log + [CrRead(Some(v.store.cr))]), Ok(v.store.cr);
    HappenedOne(api, w, v, CrRead(Some(answer.value)));
  }

  /** Waiting for the next tick of a timer or the end of the context. */
  method Wait(api: Api, w: World) returns (v: World)
    requires Sound(w.store)
    ensures Sound(v.store) && Quiet(api.run, w.store, v.store) && v.turn == w.turn + 1 && w.clock <= v.clock
    ensures Happened(api, w, v, [Idle])
  {
    v := Advance(api, w);
    v := v.(log := v.log + [Idle]);
    HappenedOne(api, w, v, Idle);
  }

  /** The trip callback: from here on nothing new starts anywhere. */
  function Trip(w: World): World { w.(log := w.log + [Tripped]) }

  lemma TripHappens(api: Api, w: World)
    ensures Happened(api, w, Trip(w), [Tripped])
  {
    HappenedOne(api, w, Trip(w), Tripped);
  }

  // ----- the versions the two patches leave -----

  /** `q` is `p` with both annotations of this run added and everything else kept. */
  predicate MarkedVersion(run: string, p: Pod, q: Pod) {
    && q == p.(rv := q.rv, notes := q.notes)
    && q.Claimed(run) && q.Get(RollingUpdate) == Some("true")
    && q.notes.value - {RollingUpdate, MarkedBy} == (if p.notes.Some? then p.notes.value else map[])
  }

  /** `q` is `p` without the ownership annotation, and without the marker if the marker was seen on `target`; everything
      else is kept. */
  predicate UnmarkedVersion(target: Pod, p: Pod, q: Pod) {
    && q == p.(rv := q.rv, notes := q.notes)
    && !q.Has(MarkedBy)
    && q.Get(RollingUpdate) == (if target.Has(RollingUpdate) then None else p.Get(RollingUpdate))
    && p.notes.Some? && q.notes.Some? && q.notes.value - {RollingUpdate} == p.notes.value - {RollingUpdate, MarkedBy}
  }

  lemma MarkEffectMarks(run: string, p: Pod, rv: nat)
    requires p.Free()
    ensures MarkedVersion(run, p, MarkEffect(run, p, p).(rv := rv))
  {
    var q := MarkEffect(run, p, p);
    var kept: Notes := if p.notes.Some? then p.notes.value else map[];
    assert q.notes.value - {RollingUpdate, MarkedBy} == kept;
  }

  lemma UnmarkEffectUnmarks(run: string, p: Pod, target: Pod, rv: nat)
    requires UnmarkTests(run, p, target)
    ensures UnmarkedVersion(target, p, UnmarkEffect(p, target).(rv := rv))
  {
    var q := UnmarkEffect(p, target);
    assert q.notes.value - {RollingUpdate} == p.notes.value - {RollingUpdate, MarkedBy};
  }

  lemma SameVersionSamePod(s: Store, target: Pod)
    requires Known(s, target) && target.name in s.pods
    ensures MarkTests(s.pods[target.name], target) <==> s.pods[target.name] == target
  {
  }

  /** `t` is `s` with exactly this pod marked. */
  ghost predicate OnlyMarked(run: string, s: Store, t: Store, target: Pod) {
    && target.name in s.pods && s.pods[target.name] == target
    && t.pods.Keys == s.pods.Keys
    && (forall n | n in s.pods && n != target.name :: t.pods[n] == s.pods[n])
    && MarkedVersion(run, target, t.pods[target.name])
  }

  lemma ClaimsAfterMark(run: string, s: Store, t: Store, target: Pod, uids: set<Uid>)
    requires OnlyMarked(run, s, t, target) && ClaimsWithin(run, s, uids)
    ensures ClaimsWithin(run, t, uids + {target.uid})
  {
  }

  lemma ClaimsStay(run: string, s: Store, t: Store, uids: set<Uid>)
    requires Quiet(run, s, t) && ClaimsWithin(run, s, uids)
    ensures ClaimsWithin(run, t, uids)
  {
  }

  /** The marking patch is executed: it acts on exactly the instance and version that was read, if at all. */
  method ExecuteMark(run: string, s: Store, target: Pod) returns (t: Store, hit: Option<Pod>, refusal: ApiError)
    requires Sound(s) && Known(s, target) && target.Free()
    ensures Sound(t) && Later(s, t)
    ensures hit.None? ==> t == s
    ensures hit.Some? ==> hit.value == target && OnlyMarked(run, s, t, target)
    ensures hit.None? <==> target.name !in s.pods || s.pods[target.name] != target
    ensures refusal == if target.name !in s.pods then NOT_FOUND else UNPROCESSABLE
    ensures hit == MarkHit(s, Deliver, target) && t == Marking(run, s, Deliver, target)
  {
    t, hit, refusal := s, None, UNPROCESSABLE;
    if target.name !in s.pods {
      refusal := NOT_FOUND;
    } else {
      SameVersionSamePod(s, target);
      if MarkTests(s.pods[target.name], target) {
        hit := Some(s.pods[target.name]);
        PutKeeps(s, MarkEffect(run, s.pods[target.name], target));
        t := Put(s, MarkEffect(run, s.pods[target.name], target));
        MarkEffectMarks(run, target, s.version + 1);
      }
    }
  }

  /** How the server treats the request: executed or not, answered or lost. */
  method ServeMark(run: string, s: Store, verdict: Verdict, target: Pod) returns (t: Store, hit: Option<Pod>, answer: Option<ApiError>)
    requires Sound(s) && Known(s, target) && target.Free()
    ensures Sound(t) && Later(s, t)
    ensures hit == MarkHit(s, verdict, target) && t == Marking(run, s, verdict, target)
    ensures answer == AnswerTo(s, verdict, target, hit)
    ensures (hit.Some? ==> hit.value == target && OnlyMarked(run, s, t, target) && MaybeApplied(answer)) && (hit.None? ==> t == s)
    ensures answer.None? ==> hit.Some?
  {
    answer := if verdict.Lose? then Some(verdict.error) else None;
    t, hit := s, None;
    ExecutedOrNot(run, s, verdict, target);
    if Executes(verdict) {
      var refusal;
      t, hit, refusal := ExecuteMark(run, s, target);
      if verdict.Deliver? && hit.None? {
        answer := Some(refusal);
      }
    }
  }

  lemma MarkHappens(api: Api, w: World, v: World, target: Pod, hit: Option<Pod>, answer: Option<ApiError>)
    requires var now, verdict := Meets(api, w.turn, w.store), api.script(w.turn).verdict;
             && hit == MarkHit(now, verdict, target) && answer == AnswerTo(now, verdict, target, hit)
             && v == World(Marking(api.run, now, verdict, target), w.turn + 1, w.clock + api.script(w.turn).elapsed,
                           w.log + [Marked(target, hit, answer)])
    ensures Happened(api, w, v, [Marked(target, hit, answer)])
  {
    HappenedOne(api, w, v, Marked(target, hit, answer));
  }

  method PatchMark(api: Api, w: World, target: Pod) returns (v: World, answer: Option<ApiError>, ghost e: Event)
    requires Sound(w.store) && Known(w.store, target) && target.Free()
    ensures Sound(v.store) && Later(w.store, v.store) && v.turn == w.turn + 1 && w.clock <= v.clock
    ensures v.log == w.log + [e]
    ensures && e.Marked? && e.target == target && e.answer == answer
            && (e.hit.Some? ==> e.hit.value == target && MaybeApplied(answer) &&
                                target.name in v.store.pods && MarkedVersion(api.run, target, v.store.pods[target.name]))
            && (e.hit.None? ==> Quiet(api.run, w.store, v.store))
            && (answer.None? ==> e.hit.Some?)
    ensures forall uids: set<Uid> | ClaimsWithin(api.run, w.store, uids) :: ClaimsWithin(api.run, v.store, uids + {target.uid})
    ensures forall uids: set<Uid> | ClaimsWithin(api.run, w.store, uids) && !MaybeApplied(answer) :: ClaimsWithin(api.run, v.store, uids)
    ensures Happened(api, w, v, [e])
  {
    v := Advance(api, w);
    KnownStays(w.store, v.store, target);
    ghost var now := v.store;
    var store, hit;
    store, hit, answer := ServeMark(api.run, v.store, api.script(w.turn).verdict, target);
    LaterTransitive(w.store, now, store);
    forall uids: set<Uid> | ClaimsWithin(api.run, w.store, uids)
      ensures ClaimsWithin(api.run, now, uids)
      ensures hit.Some? ==> ClaimsWithin(api.run, store, uids + {target.uid})
    {
      ClaimsStay(api.run, w.store, now, uids);
      if hit.Some? {
        ClaimsAfterMark(api.run, now, store, target, uids);
      }
    }
    e := Marked(target, hit, answer);
    v := v.(store := store, log := v.log + [Marked(target, hit, answer)]);
    MarkHappens(api, w, v, target, hit, answer);
  }

  lemma UnmarkingKeeps(run: string, s: Store, target: Pod)
    requires Sound(s) && target.name in s.pods && UnmarkTests(run, s.pods[target.name], target)
    ensures var t, p := Put(s, UnmarkEffect(s.pods[target.name], target)), s.pods[target.name];
            && Sound(t) && Quiet(run, s, t) && t.pods.Keys == s.pods.Keys
            && (forall n | n in s.pods && n != target.name :: t.pods[n] == s.pods[n])
            && UnmarkedVersion(target, p, t.pods[target.name])
  {
    PutKeeps(s, UnmarkEffect(s.pods[target.name], target));
    UnmarkEffectUnmarks(run, s.pods[target.name], target, s.version + 1);
  }

  /** The unmarking patch is executed: it acts on an instance that carries this run's ID at that moment, if at all. */
  method ExecuteUnmark(run: string, s: Store, target: Pod) returns (t: Store, hit: Option<Pod>, refusal: ApiError)
    requires Sound(s) && Known(s, target)
    ensures Sound(t) && Quiet(run, s, t)
    ensures hit.None? ==> t == s
    ensures hit.Some? ==>
              && target.name in s.pods && hit.value == s.pods[target.name]
              && hit.value.uid == target.uid && hit.value.Claimed(run)
              && t.pods.Keys == s.pods.Keys
              && (forall n | n in s.pods && n != target.name :: t.pods[n] == s.pods[n])
              && UnmarkedVersion(target, hit.value, t.pods[target.name])
    ensures refusal == if target.name !in s.pods then NOT_FOUND else UNPROCESSABLE
    ensures hit == UnmarkHit(run, s, Deliver, target) && t == Unmarking(run, s, Deliver, target)
  {
    t, hit, refusal := s, None, UNPROCESSABLE;
    if target.name !in s.pods {
      refusal := NOT_FOUND;
    } else if UnmarkTests(run, s.pods[target.name], target) {
      hit := Some(s.pods[target.name]);
      t := Put(s, UnmarkEffect(s.pods[target.name], target));
      UnmarkingKeeps(run, s, target);
    }
  }

  /** How the server treats the request: executed or not, answered or lost. */
  method ServeUnmark(run: string, s: Store, verdict: Verdict, target: Pod) returns (t: Store, hit: Option<Pod>, answer: Option<ApiError>)
    requires Sound(s) && Known(s, target)
    ensures Sound(t) && Quiet(run, s, t)
    ensures hit == UnmarkHit(run, s, verdict, target) && t == Unmarking(run, s, verdict, target)
    ensures answer == AnswerTo(s, verdict, target, hit)
    ensures (hit.Some? ==> MaybeApplied(answer)) && (answer.None? ==> hit.Some?)
    ensures hit.Some? ==> target.name in t.pods && UnmarkedVersion(target, hit.value, t.pods[target.name])
  {
    answer := if verdict.Lose? then Some(verdict.error) else None;
    t, hit := s, None;
    ExecutedOrNot(run, s, verdict, target);
    if Executes(verdict) {
      var refusal;
      t, hit, refusal := ExecuteUnmark(run, s, target);
      if verdict.Deliver? && hit.None? {
        answer := Some(refusal);
      }
    }
  }

  lemma UnclaimedAfter(run: string, s: Store, verdict: Verdict, target: Pod)
    requires Sound(s) && Known(s, target) && UnmarkHit(run, s, verdict, target).Some?
    ensures var t := Unmarking(run, s, verdict, target);
            forall n | n in t.pods && t.pods[n].uid == target.uid :: !t.pods[n].Claimed(run)
  {
    UnmarkingKeeps(run, s, target);
  }

  lemma UnmarkHappens(api: Api, w: World, v: World, target: Pod, hit: Option<Pod>, answer: Option<ApiError>)
    requires var now, verdict := Meets(api, w.turn, w.store), api.script(w.turn).verdict;
             && hit == UnmarkHit(api.run, now, verdict, target) && answer == AnswerTo(now, verdict, target, hit)
             && v == World(Unmarking(api.run, now, verdict, target), w.turn + 1, w.clock + api.script(w.turn).elapsed,
                           w.log + [Unmarked(target, hit, answer)])
    ensures Happened(api, w, v, [Unmarked(target, hit, answer)])
  {
    HappenedOne(api, w, v, Unmarked(target, hit, answer));
  }

  method PatchUnmark(api: Api, w: World, target: Pod) returns (v: World, answer: Option<ApiError>, ghost e: Event)
    requires Sound(w.store) && Known(w.store, target)
    ensures Sound(v.store) && Quiet(api.run, w.store, v.store) && v.turn == w.turn + 1 && w.clock <= v.clock
    ensures v.log == w.log + [e]
    ensures && e.Unmarked? && e.target == target && e.answer == answer
            && (e.hit.Some? ==> e.hit.value.uid == target.uid && e.hit.value.Claimed(api.run) && MaybeApplied(answer) &&
                                target.name in v.store.pods && UnmarkedVersion(target, e.hit.value, v.store.pods[target.name]))
            && (answer.None? ==> e.hit.Some?)
            && (e.hit.Some? ==> forall n | n in v.store.pods && v.store.pods[n].uid == target.uid :: !v.store.pods[n].Claimed(api.run))
    ensures Happened(api, w, v, [e])
  {
    v := Advance(api, w);
    KnownStays(w.store, v.store, target);
    ghost var now := v.store;
    var store, hit;
    store, hit, answer := ServeUnmark(api.run, v.store, api.script(w.turn).verdict, target);
    QuietTransitive(api.run, w.store, now, store);
    if hit.Some? {
      UnclaimedAfter(api.run, now, api.script(w.turn).verdict, target);
    }
    e := Unmarked(target, hit, answer);
    v := v.(store := store, log := v.log + [Unmarked(target, hit, answer)]);
    UnmarkHappens(api, w, v, target, hit, answer);
  }

  /** Touching the custom resource: no pod changes by the request itself. */
  method TriggerSync(api: Api, w: World) returns (v: World, answer: Option<ApiError>)
    requires Sound(w.store)
    ensures Sound(v.store) && Quiet(api.run, w.store, v.store) && v.turn == w.turn + 1 && w.clock <= v.clock
    ensures v.log == w.log + [Triggered(answer)] && Happened(api, w, v, [Triggered(answer)])
  {
    v := Advance(api, w);
    var verdict := api.script(w.turn).verdict;
    answer := if verdict.Lose? then Some(verdict.error) else None;
    v := v.(log := v.log + [Triggered(answer)]);
    HappenedOne(api, w, v, Triggered(answer));
  }
}
