/** The node cordon protocol: read, conditional merge patch, retry, and resolving an uncertain answer by re-reading. */
module Cordon {
  import opened Common

  const MAX_NODE_PATCH_ATTEMPTS := 5

  type Uid = nat

  /** `owner` is the cordoned-by annotation; `other` is everything else of the node. */
  datatype Node = Node(name: string, uid: Uid, rv: nat, unschedulable: bool, owner: Option<string>, other: map<string, string>)

  datatype Store = Store(nodes: map<string, Node>, version: nat, nextUid: Uid)

  ghost predicate Sound(s: Store) {
    forall n | n in s.nodes :: s.nodes[n].name == n && s.nodes[n].uid < s.nextUid && s.nodes[n].rv <= s.version
  }

  /** `x` was read from the store at this moment or earlier: an instance with its name and version is that very node. */
  ghost predicate Known(s: Store, x: Node) {
    && x.rv <= s.version
    && (x.name in s.nodes ==> s.nodes[x.name] == x || s.nodes[x.name].rv > x.rv)
  }

  datatype Act = Create(node: Node) | Delete(name: string) | Update(node: Node)

  predicate Claims(run: string, focus: string, s: Store) { focus in s.nodes && s.nodes[focus].owner == Some(run) }

  /** If the node carries this run's ID now, the same instance carried it before. */
  predicate ClaimKept(run: string, focus: string, s: Store, t: Store) {
    Claims(run, focus, t) ==> Claims(run, focus, s) && s.nodes[focus].uid == t.nodes[focus].uid
  }

  /** Anybody else may create, delete, cordon, uncordon and edit nodes, and other calls of this very run may cordon other
      nodes meanwhile; but nobody else writes this run's ID to the node `focus`, and UIDs are not reused. */
  function Apply(run: string, focus: string, s: Store, a: Act): Store {
    match a
    case Create(x) =>
      if x.name in s.nodes || (x.name == focus && x.owner == Some(run)) then s
      else Store(s.nodes[x.name := x.(uid := s.nextUid, rv := s.version + 1)], s.version + 1, s.nextUid + 1)
    case Delete(name) => Store(s.nodes - {name}, s.version + 1, s.nextUid)
    case Update(x) =>
      if x.name !in s.nodes || (x.name == focus && x.owner == Some(run) && s.nodes[x.name].owner != Some(run)) then s
      else Store(s.nodes[x.name := x.(uid := s.nodes[x.name].uid, rv := s.version + 1)], s.version + 1, s.nextUid)
  }

  lemma ApplyKeeps(run: string, focus: string, s: Store, a: Act)
    requires Sound(s)
    ensures var t := Apply(run, focus, s, a);
            Sound(t) && s.version <= t.version && ClaimKept(run, focus, s, t) && forall x | Known(s, x) :: Known(t, x)
  {
  }

  datatype Verdict = Deliver | Lose(error: ApiError, executed: bool)

  datatype Turn = Turn(acts: seq<Act>, verdict: Verdict)

  /** This run's ID, the node this call is about, and everything the rest of the world will do. */
  datatype Api = Api(run: string, focus: string, script: nat -> Turn)

  datatype Event =
    | Read(node: Option<Node>)
    | ReadFailed
    | Patched(target: Node, hit: Option<Node>, answer: Option<ApiError>)

  datatype World = World(store: Store, turn: nat, log: seq<Event>)

  predicate Expired(w: World, deadline: nat) { w.turn >= deadline }

  /** This run's own conditional patch turned the instance `uid` from schedulable to unschedulable. */
  predicate Turns(e: Event, uid: Uid) {
    e.Patched? && e.hit.Some? && e.hit.value.uid == uid && !e.hit.value.unschedulable
  }

  predicate Turned(log: seq<Event>, uid: Uid) { exists e | e in log :: Turns(e, uid) }

  lemma TurnedGrows(log: seq<Event>, more: seq<Event>, uid: Uid)
    requires Turned(log, uid)
    ensures Turned(log + more, uid)
  {
    var e :| e in log && Turns(e, uid);
    assert e in log + more;
  }

  lemma RecordsGrow(log: seq<Event>, longer: seq<Event>, nodes: map<string, Uid>)
    requires log <= longer && forall n | n in nodes :: Turned(log, nodes[n])
    ensures forall n | n in nodes :: Turned(longer, nodes[n])
  {
    forall n | n in nodes
      ensures Turned(longer, nodes[n])
    {
      TurnedGrows(log, longer[|log|..], nodes[n]);
      assert longer == log + longer[|log|..];
    }
  }

  /** The marker tells the truth: if the node carries it, this run's own patch cordoned that instance. */
  ghost predicate Honest(run: string, focus: string, w: World) {
    Sound(w.store) && (Claims(run, focus, w.store) ==> Turned(w.log, w.store.nodes[focus].uid))
  }

  /** The store after these actions of others. */
  function After(run: string, focus: string, s: Store, acts: seq<Act>): Store {
    if acts == [] then s else Apply(run, focus, After(run, focus, s, acts[..|acts| - 1]), acts[|acts| - 1])
  }

  method Settle(run: string, focus: string, s: Store, acts: seq<Act>) returns (t: Store)
    requires Sound(s)
    ensures Sound(t) && s.version <= t.version && t == After(run, focus, s, acts)
    ensures forall x | Known(s, x) :: Known(t, x)
    ensures ClaimKept(run, focus, s, t)
  {
    t := s;
    for i := 0 to |acts|
      invariant Sound(t) && s.version <= t.version && t == After(run, focus, s, acts[..i])
      invariant forall x | Known(s, x) :: Known(t, x)
      invariant ClaimKept(run, focus, s, t)
    {
      assert acts[..i + 1][..i] == acts[..i];
      ApplyKeeps(run, focus, t, acts[i]);
      t := Apply(run, focus, t, acts[i]);
    }
    assert acts[..|acts|] == acts;
  }

  // ----- what the server does with the requests -----

  /** The store that the request made at this turn meets. */
  function Meets(api: Api, turn: nat, s: Store): Store {
    After(api.run, api.focus, s, api.script(turn).acts)
  }

  predicate Executes(v: Verdict) {
    v.Deliver? || (v.executed && !MutationDefinitelyFailed(v.error))
  }

  /** The merge patch: cordon and ownership marker in one write, everything else kept. */
  function CordonEffect(run: string, x: Node): Node { x.(unschedulable := true, owner := Some(run)) }

  const NOT_FOUND := Status(404, false)

  const CONFLICT := Status(409, false)

  /** The node a conditional patch takes effect on, if any. */
  function HitOf(s: Store, verdict: Verdict, target: Node): Option<Node> {
    if Executes(verdict) && target.name in s.nodes && s.nodes[target.name].rv == target.rv then Some(s.nodes[target.name]) else None
  }

  function AnswerTo(s: Store, verdict: Verdict, target: Node): Option<ApiError> {
    match verdict
    case Lose(error, _) => Some(error)
    case Deliver => if target.name !in s.nodes then Some(NOT_FOUND) else if HitOf(s, verdict, target).None? then Some(CONFLICT) else None
  }

  function Written(run: string, s: Store, verdict: Verdict, target: Node): Store {
    if HitOf(s, verdict, target).None? then s
    else Store(s.nodes[target.name := CordonEffect(run, s.nodes[target.name]).(rv := s.version + 1)], s.version + 1, s.nextUid)
  }

  /** This event is what the request at this turn comes to. */
  predicate Fits(api: Api, turn: nat, s: Store, e: Event) {
    var now, verdict := Meets(api, turn, s), api.script(turn).verdict;
    match e
    case Read(node) => verdict.Deliver? && node == if api.focus in now.nodes then Some(now.nodes[api.focus]) else None
    case ReadFailed => verdict.Lose?
    case Patched(target, hit, answer) => hit == HitOf(now, verdict, target) && answer == AnswerTo(now, verdict, target)
  }

  function Step(api: Api, turn: nat, s: Store, e: Event): Store {
    var now := Meets(api, turn, s);
    if e.Patched? then Written(api.run, now, api.script(turn).verdict, e.target) else now
  }

  /** The store after these requests, one per turn. */
  function StoreAfter(api: Api, turn: nat, s: Store, events: seq<Event>): Store {
    if events == [] then s
    else Step(api, turn + |events| - 1, StoreAfter(api, turn, s, events[..|events| - 1]), events[|events| - 1])
  }

  predicate AllFit(api: Api, turn: nat, s: Store, events: seq<Event>) {
    events == [] ||
    var front := events[..|events| - 1];
    AllFit(api, turn, s, front) && Fits(api, turn + |front|, StoreAfter(api, turn, s, front), events[|events| - 1])
  }

  /** Exactly these requests were made between `w` and `v`, and the server and the rest of the world did what the script says. */
  predicate Happened(api: Api, w: World, v: World, events: seq<Event>) {
    && v.turn == w.turn + |events|
    && v.store == StoreAfter(api, w.turn, w.store, events) && AllFit(api, w.turn, w.store, events)
  }

  lemma FitSnoc(api: Api, turn: nat, s: Store, events: seq<Event>, e: Event, at: nat, mid: Store)
    requires at == turn + |events| && mid == StoreAfter(api, turn, s, events)
    ensures StoreAfter(api, turn, s, events + [e]) == Step(api, at, mid, e)
    ensures AllFit(api, turn, s, events + [e]) <==> AllFit(api, turn, s, events) && Fits(api, at, mid, e)
  {
    assert (events + [e])[..|events|] == events;
  }

  lemma {:induction false} FitBoth(api: Api, turn: nat, s: Store, a: seq<Event>, later: nat, t: Store, b: seq<Event>)
    requires later == turn + |a| && t == StoreAfter(api, turn, s, a)
    requires AllFit(api, turn, s, a) && AllFit(api, later, t, b)
    ensures StoreAfter(api, turn, s, a + b) == StoreAfter(api, later, t, b)
    ensures AllFit(api, turn, s, a + b)
  {
    if b == [] {
      assert a + b == a;
    } else {
      var front, last := b[..|b| - 1], b[|b| - 1];
      var at, mid := later + |front|, StoreAfter(api, later, t, front);
      assert b == front + [last];
      FitSnoc(api, later, t, front, last, at, mid);
      FitBoth(api, turn, s, a, later, t, front);
      FitSnoc(api, turn, s, a + front, last, at, mid);
      Assoc(a, front, [last]);
    }
  }

  lemma HappenedThen(api: Api, w: World, u: World, v: World, a: seq<Event>, b: seq<Event>)
    requires Happened(api, w, u, a) && Happened(api, u, v, b)
    ensures Happened(api, w, v, a + b)
  {
    FitBoth(api, w.turn, w.store, a, u.turn, u.store, b);
  }

  lemma HappenedOne(api: Api, w: World, v: World, e: Event)
    requires v.turn == w.turn + 1 && Fits(api, w.turn, w.store, e) && v.store == Step(api, w.turn, w.store, e)
    ensures Happened(api, w, v, [e])
  {
    assert [e][..0] == [];
  }

  method GetNode(api: Api, w: World, name: string) returns (v: World, failed: bool, node: Option<Node>)
    requires Honest(api.run, api.focus, w) && name == api.focus
    ensures Honest(api.run, api.focus, v) && v.turn == w.turn + 1
    ensures forall x | Known(w.store, x) :: Known(v.store, x)
    ensures failed ==> v.log == w.log + [ReadFailed]
    ensures !failed ==> v.log == w.log + [Read(node)]
    ensures !failed ==> node == if name in v.store.nodes then Some(v.store.nodes[name]) else None
    ensures !failed && node.Some? ==> node.value.name == name && Known(v.store, node.value)
    ensures !failed && node.Some? && node.value.owner == Some(api.run) ==> Turned(v.log, node.value.uid)
    ensures Happened(api, w, v, [if failed then ReadFailed else Read(node)])
  {
    var turn := api.script(w.turn);
    var store := Settle(api.run, api.focus, w.store, turn.acts);
    failed := turn.verdict.Lose?;
    node := if name in store.nodes then Some(store.nodes[name]) else None;
    var e := if failed then ReadFailed else Read(node);
    v := World(store, w.turn + 1, w.log + [e]);
    HappenedOne(api, w, v, e);
    if Claims(api.run, api.focus, store) {
      TurnedGrows(w.log, [e], store.nodes[api.focus].uid);
    }
  }

  /** The server applies the patch only to a node whose version is the one in the patch. */
  method PatchNode(api: Api, w: World, target: Node) returns (v: World, answer: Option<ApiError>, ghost e: Event)
    requires Honest(api.run, api.focus, w) && Known(w.store, target) && target.name == api.focus && !target.unschedulable
    ensures Honest(api.run, api.focus, v) && v.turn == w.turn + 1
    ensures v.log == w.log + [e] && e.Patched? && e.target == target && e.answer == answer
    ensures e.hit.Some? ==> e.hit.value == target && Turns(e, target.uid)
    ensures e.hit.Some? ==> target.name in v.store.nodes && v.store.nodes[target.name] == CordonEffect(api.run, target).(rv := v.store.version)
    ensures answer.None? ==> e.hit.Some?
    ensures e.hit.Some? && answer.Some? ==> !MutationDefinitelyFailed(answer.value)
    ensures api.script(w.turn).verdict.Deliver? ==> answer in {None, Some(NOT_FOUND), Some(CONFLICT)}
    ensures Happened(api, w, v, [e])
  {
    var turn := api.script(w.turn);
    var store := Settle(api.run, api.focus, w.store, turn.acts);
    var hit := None;
    answer := if turn.verdict.Lose? then Some(turn.verdict.error) else None;
    if Executes(turn.verdict) {
      if target.name !in store.nodes {
        answer := if turn.verdict.Lose? then answer else Some(NOT_FOUND);
      } else if store.nodes[target.name].rv != target.rv {
        answer := if turn.verdict.Lose? then answer else Some(CONFLICT);
      } else {
        hit := Some(store.nodes[target.name]);
        var patched := CordonEffect(api.run, store.nodes[target.name]).(rv := store.version + 1);
        store := Store(store.nodes[target.name := patched], store.version + 1, store.nextUid);
      }
    }
    e := Patched(target, hit, answer);
    v := World(store, w.turn + 1, w.log + [Patched(target, hit, answer)]);
    HappenedOne(api, w, v, e);
    assert e in v.log;
    if hit.Some? {
      assert Turns(e, store.nodes[target.name].uid);
    } else if Claims(api.run, api.focus, store) {
      TurnedGrows(w.log, [e], store.nodes[api.focus].uid);
    }
  }

  // ----- what one call does -----

  datatype CordonError = GetFailed | KeepsChanging | PatchFailed(error: ApiError)

  function Patches(events: seq<Event>): nat {
    if events == [] then 0 else Patches(events[..|events| - 1]) + if events[|events| - 1].Patched? then 1 else 0
  }

  /** This run's patch took effect during these events. */
  predicate Hit(events: seq<Event>, uid: Uid) { exists e | e in events :: Turns(e, uid) }

  /** Why cordoning a node returned without an error. */
  predicate Settled(run: string, events: seq<Event>) {
    events != [] && match events[|events| - 1]
    case Read(node) =>
      // seen missing, seen unschedulable, or an uncertain patch confirmed by a re-read
      node.None? || node.value.unschedulable
    case Patched(_, _, answer) => answer.None? || IsNotFound(answer.value)
    case ReadFailed => false
  }

  /** An answer after which the patch may or may not have been applied: it is followed up by a re-read. */
  predicate Unresolved(e: Event) {
    e.Patched? && e.answer.Some? && !IsConflict(e.answer.value) && !IsNotFound(e.answer.value) && IsUncertain(e.answer.value)
  }

  predicate Resolving(events: seq<Event>) { |events| >= 2 && Unresolved(events[|events| - 2]) }

  /** What may be recorded about the node after these events: the cordon this run made, on the instance it was made on. */
  predicate RecordedAs(run: string, events: seq<Event>, uid: Uid) {
    events != [] && match events[|events| - 1]
    case Read(node) =>
      && node.Some? && node.value.unschedulable && node.value.owner == Some(run) && node.value.uid == uid
      // a read that resolves an uncertain patch must show the instance that was patched
      && (Resolving(events) ==> events[|events| - 2].target.uid == uid)
    case Patched(target, hit, answer) => answer.None? && hit == Some(target) && target.uid == uid
    case ReadFailed => false
  }

  /** An acknowledged patch took effect, a definite rejection did not, and an effect is on the very node that was read. */
  predicate PatchHonest(e: Event) {
    e.Patched? ==>
      && (e.answer.None? ==> e.hit.Some?)
      && (e.hit.Some? ==> e.hit.value == e.target && (e.answer.Some? ==> !MutationDefinitelyFailed(e.answer.value)))
  }

  predicate Refused(e: Event) { e.Patched? ==> e.answer.Some? && IsConflict(e.answer.value) }

  /** Every patch but the deciding one was a conflict, and an uncertain answer is followed by exactly one re-read, which
      ends the call. */
  predicate OneDecides(events: seq<Event>) {
    && (forall i | 0 <= i < |events| - 2 :: Refused(events[i]))
    && (|events| >= 2 ==> Refused(events[|events| - 2]) || (Unresolved(events[|events| - 2]) && !events[|events| - 1].Patched?))
    && (events != [] ==> !Unresolved(events[|events| - 1]))
  }

  /** Reads and patches take turns, and every patch is conditioned on the schedulable node read right before it. */
  predicate Alternating(events: seq<Event>) {
    events == [] ||
    var front, last := events[..|events| - 1], events[|events| - 1];
    && Alternating(front)
    && (last.Patched? <==> |front| % 2 == 1)
    && (last.Patched? ==> front[|front| - 1] == Read(Some(last.target)) && !last.target.unschedulable)
  }

  lemma AlternatingSnoc(events: seq<Event>, e: Event)
    requires Alternating(events) && (e.Patched? <==> |events| % 2 == 1)
    requires e.Patched? ==> events[|events| - 1] == Read(Some(e.target)) && !e.target.unschedulable
    ensures Alternating(events + [e])
  {
    assert (events + [e])[..|events|] == events;
  }

  /** When the events of a call end it, and with which result. `expired` says whether the context had expired at the end. */
  predicate Finished(run: string, events: seq<Event>, expired: bool, err: Option<CordonError>) {
    events != [] && match events[|events| - 1]
    case ReadFailed => err == Some(if Resolving(events) then PatchFailed(events[|events| - 2].answer.value) else GetFailed)
    case Read(node) =>
      if Resolving(events) then
        var patch := events[|events| - 2];
        err == if RecordedAs(run, events, patch.target.uid) && !expired then None else Some(PatchFailed(patch.answer.value))
      else err.None? && (node.None? || node.value.unschedulable)
    case Patched(_, _, answer) =>
      if answer.None? || IsNotFound(answer.value) then err.None?
      else if IsConflict(answer.value) then err == Some(KeepsChanging)
      else !IsUncertain(answer.value) && err == Some(PatchFailed(answer.value))
  }

  /** The conflicts met so far: reads of schedulable nodes and refused patches, nothing that took effect. */
  predicate OnlyConflicts(events: seq<Event>, attempts: nat) {
    && Patches(events) == attempts && |events| == 2 * attempts && Alternating(events)
    && (forall e | e in events :: !e.Patched? || e.hit.None?)
    && (forall i | 0 <= i < |events| :: Refused(events[i]))
    && (events != [] ==> var e := events[|events| - 1]; e.Patched? && e.answer.Some? && IsConflict(e.answer.value))
  }

  /** What cordoning one node promises about its record and its result. */
  ghost predicate Concluded(run: string, name: string, before: map<string, Uid>, after: map<string, Uid>,
                            events: seq<Event>, err: Option<CordonError>, expired: bool)
  {
    && Finished(run, events, expired, err) && OneDecides(events) && Alternating(events)
    && (forall uid | RecordedAs(run, events, uid) :: after == before[name := uid])
    && ((forall uid :: !RecordedAs(run, events, uid)) ==> after == before)
    && (forall e | e in events :: PatchHonest(e))
    && (err.None? ==> Settled(run, events) && forall uid | Hit(events, uid) :: name in after && after[name] == uid)
  }

  /** Nothing took effect and the last event is a read. */
  predicate UpToRead(events: seq<Event>, attempts: nat) {
    && Patches(events) == attempts && |events| == 2 * attempts + 1 && Alternating(events)
    && (forall e | e in events :: !e.Patched? || e.hit.None?)
    && (forall i | 0 <= i < |events| :: Refused(events[i]))
    && events != [] && !events[|events| - 1].Patched?
    && !Resolving(events)
  }

  ghost function ConflictsThen(events: seq<Event>, attempts: nat, e: Event): (r: seq<Event>)
    requires OnlyConflicts(events, attempts) && !e.Patched?
    ensures r == events + [e] && UpToRead(r, attempts)
  {
    assert (events + [e])[..|events|] == events;
    AlternatingSnoc(events, e);
    assert events != [] ==> (events + [e])[|events| - 1] == events[|events| - 1];
    events + [e]
  }

  /** What one conditional patch of a schedulable node did, and what its answer was taken to mean. */
  ghost predicate Tried(run: string, name: string, node: Node, before: map<string, Uid>, after: map<string, Uid>,
                        more: seq<Event>, conflict: bool, err: Option<CordonError>, expired: bool)
  {
    && 1 <= |more| <= 2 && more[0].Patched? && more[0].target == node
    && PatchHonest(more[0])
    && (|more| == 2 ==> !more[1].Patched? && Unresolved(more[0]))
    && (|more| == 1 ==> !Unresolved(more[0]))
    && (conflict <==> more[0].answer.Some? && IsConflict(more[0].answer.value))
    && (conflict ==> |more| == 1 && more[0].hit.None? && after == before && err.None?)
    && (!conflict && err.None? ==> Settled(run, more) && (more[0].hit.Some? ==> name in after && after[name] == node.uid))
    && after == (if RecordedAs(run, more, node.uid) then before[name := node.uid] else before)
    && (!conflict ==> Finished(run, more, expired, err) && err != Some(KeepsChanging))
  }

  /** The last read confirms this run's cordon of that instance. */
  predicate Confirms(run: string, e: Event, uid: Uid) {
    e.Read? && e.node.Some? && e.node.value.uid == uid && e.node.value.owner == Some(run) && e.node.value.unschedulable
  }

  /** Answered with an error that is neither followed up by a re-read nor a rejection; `Common.ClassifiersDisagree` says
      which answers these are. */
  predicate Overlooked(e: Event) {
    e.Patched? && e.answer.Some? && !IsUncertain(e.answer.value) && !MutationDefinitelyFailed(e.answer.value)
  }

  /** A cordon that took effect is missing from the record exactly if the patch was answered so that it is neither
      followed up nor a rejection, or if the re-read after an uncertain answer did not confirm it.  The call then fails,
      and the record is unchanged. */
  lemma UnrecordedCordon(run: string, name: string, before: map<string, Uid>, after: map<string, Uid>,
                         events: seq<Event>, err: Option<CordonError>, expired: bool, uid: Uid)
    requires Concluded(run, name, before, after, events, err, expired) && Hit(events, uid)
    ensures !RecordedAs(run, events, uid) <==>
              || Overlooked(events[|events| - 1])
              || (Resolving(events) && !Confirms(run, events[|events| - 1], uid))
    ensures RecordedAs(run, events, uid) ==> name in after && after[name] == uid
    ensures !RecordedAs(run, events, uid) ==> err.Some? && after == before
  {
    var e :| e in events && Turns(e, uid);
    var i :| 0 <= i < |events| && events[i] == e;
    assert PatchHonest(e) && !Refused(e);
    assert i >= |events| - 2;
    var last := events[|events| - 1];
    assert PatchHonest(last);
    assert forall other | RecordedAs(run, events, other) :: other == uid;
  }

  lemma PatchesBoth(events: seq<Event>, more: seq<Event>)
    requires 1 <= |more| <= 2 && more[0].Patched? && (|more| == 2 ==> !more[1].Patched?)
    ensures Patches(events + more) == Patches(events) + 1
  {
    var all := events + more;
    assert all[..|events| + 1][..|events|] == events && all[|events|] == more[0];
    assert |more| == 2 ==> all[..|all| - 1] == all[..|events| + 1];
    assert |more| == 1 ==> all == all[..|events| + 1];
  }

  /** Reads and refused patches before a patch do not change what its own events show. */
  lemma LateEventsDecide(run: string, events: seq<Event>, node: Node, more: seq<Event>)
    requires events != [] && events[|events| - 1] == Read(Some(node)) && !node.unschedulable
    requires forall e | e in events :: !e.Patched? || e.hit.None?
    requires 1 <= |more| <= 2 && more[0].Patched? && more[0].target == node && (more[0].hit.Some? ==> more[0].hit.value == node)
    requires |more| == 2 ==> !more[1].Patched? && Unresolved(more[0])
    ensures forall uid :: Hit(events + more, uid) ==> uid == node.uid && more[0].hit.Some?
    ensures forall uid :: RecordedAs(run, events + more, uid) <==> uid == node.uid && RecordedAs(run, more, uid)
    ensures Settled(run, more) ==> Settled(run, events + more)
    ensures forall expired: bool, err :: Finished(run, more, expired, err) ==> Finished(run, events + more, expired, err)
  {
    var all := events + more;
    assert all[|all| - 1] == more[|more| - 1] && all[|all| - 2] == if |more| == 2 then more[0] else events[|events| - 1];
    assert forall e | e in all :: e in events || e == more[0] || e == more[|more| - 1];
  }

  /** A patch after the read of its target, and perhaps one more read, keep the alternation. */
  lemma AlternationGoesOn(events: seq<Event>, attempts: nat, node: Node, more: seq<Event>)
    requires UpToRead(events, attempts) && events[|events| - 1] == Read(Some(node)) && !node.unschedulable
    requires 1 <= |more| <= 2 && more[0].Patched? && more[0].target == node && (|more| == 2 ==> !more[1].Patched?)
    ensures Alternating(events + more)
  {
    AlternatingSnoc(events, more[0]);
    if |more| == 1 {
      assert more == [more[0]];
    } else {
      assert more == [more[0]] + [more[1]];
      AlternatingSnoc(events + [more[0]], more[1]);
      Assoc(events, [more[0]], [more[1]]);
    }
  }

  lemma PatchDecides(events: seq<Event>, attempts: nat, more: seq<Event>)
    requires UpToRead(events, attempts)
    requires 1 <= |more| <= 2 && more[0].Patched?
    requires if |more| == 2 then !more[1].Patched? && Unresolved(more[0]) else !Unresolved(more[0])
    ensures OneDecides(events + more)
  {
    var all := events + more;
    assert all[|events|] == more[0] && all[|events| - 1] == events[|events| - 1];
  }

  lemma ThenPatch(run: string, name: string, before: map<string, Uid>, after: map<string, Uid>, events: seq<Event>,
                  attempts: nat, node: Node, more: seq<Event>, conflict: bool, err: Option<CordonError>, expired: bool)
    requires UpToRead(events, attempts) && events[|events| - 1] == Read(Some(node)) && !node.unschedulable
    requires Tried(run, name, node, before, after, more, conflict, err, expired)
    ensures Patches(events + more) == attempts + 1
    ensures conflict ==> OnlyConflicts(events + more, attempts + 1)
    ensures !conflict ==> Concluded(run, name, before, after, events + more, err, expired) && err != Some(KeepsChanging)
  {
    PatchesBoth(events, more);
    AlternationGoesOn(events, attempts, node, more);
    PatchDecides(events, attempts, more);
    LateEventsDecide(run, events, node, more);
  }

  /** The first read of an attempt already decides: the node is missing or unschedulable, or it could not be read. */
  lemma DecidedByRead(run: string, name: string, before: map<string, Uid>, events: seq<Event>, attempts: nat,
                      expired: bool)
    requires UpToRead(events, attempts)
    ensures match events[|events| - 1]
            case Read(Some(node)) =>
              node.unschedulable ==>
                Concluded(run, name, before, if node.owner == Some(run) then before[name := node.uid] else before, events, None, expired)
            case Read(None) => Concluded(run, name, before, before, events, None, expired)
            case _ => Concluded(run, name, before, before, events, Some(GetFailed), expired)
  {
    assert forall uid :: !Hit(events, uid);
    match events[|events| - 1] {
      case Read(Some(node)) => assert node.unschedulable && node.owner == Some(run) ==> RecordedAs(run, events, node.uid);
      case _ =>
    }
  }

  /** The last allowed attempt met a conflict, too. */
  lemma GivesUp(run: string, name: string, before: map<string, Uid>, events: seq<Event>, attempts: nat, expired: bool)
    requires attempts > 0 && OnlyConflicts(events, attempts)
    ensures Concluded(run, name, before, before, events, Some(KeepsChanging), expired)
  {
    var last := events[|events| - 1];
    assert last in events && last.hit.None?;
    assert forall uid :: !RecordedAs(run, events, uid);
  }

  class ClusterOperations {
    const run: string
    /** The nodes this run cordoned, with the UID of the cordoned instance. */
    var nodes: map<string, Uid>

    constructor (run: string)
      ensures this.run == run && nodes == map[]
    {
      this.run := run;
      nodes := map[];
    }

    /** Every recorded cordon is one this run's own patch made. */
    ghost predicate Valid(focus: string, w: World)
      reads this
    {
      Honest(run, focus, w) && forall n | n in nodes :: Turned(w.log, nodes[n])
    }

    /** Resolves an uncertain answer with a fresh context. */
    method VerifyOwnCordon(api: Api, w: World, name: string, uid: Uid) returns (v: World, own: bool, ghost e: Event)
      requires api.run == run && api.focus == name && Valid(name, w)
      modifies this
      ensures Valid(name, v) && v.turn == w.turn + 1 && v.log == w.log + [e] && !e.Patched?
      ensures own <==> e.Read? && e.node.Some? && e.node.value.uid == uid && e.node.value.owner == Some(run) && e.node.value.unschedulable
      ensures nodes == if own then old(nodes)[name := uid] else old(nodes)
      ensures Happened(api, w, v, [e])
    {
      var failed, node;
      v, failed, node := GetNode(api, w, name);
      e := if failed then ReadFailed else Read(node);
      own := !failed && node.Some? && node.value.uid == uid && node.value.owner == Some(run) && node.value.unschedulable;
      RecordsGrow(w.log, v.log, nodes);
      if own {
        nodes := nodes[name := uid];
      }
    }

    /** One conditional patch of a node read as schedulable, and what its answer means. `conflict` asks for a retry. */
    method TryCordon(api: Api, w: World, name: string, node: Node, deadline: nat)
      returns (v: World, conflict: bool, err: Option<CordonError>, ghost more: seq<Event>)
      requires api.run == run && api.focus == name && Valid(name, w) && Known(w.store, node) && !node.unschedulable && node.name == name
      modifies this
      ensures Valid(name, v) && v.log == w.log + more && Happened(api, w, v, more)
      ensures Tried(run, name, node, old(nodes), nodes, more, conflict, err, Expired(v, deadline))
    {
      var answer;
      ghost var e: Event;
      v, answer, e := PatchNode(api, w, node);
      conflict, err, more := false, None, [e];
      RecordsGrow(w.log, v.log, nodes);
      if answer.None? {
        assert e in v.log;
        nodes := nodes[name := node.uid];
      } else if IsConflict(answer.value) {
        conflict := true;
      } else if IsNotFound(answer.value) {
      } else if IsUncertain(answer.value) {
        var own;
        ghost var patched := v;
        v, own, e := VerifyOwnCordon(api, v, name, node.uid);
        HappenedThen(api, w, patched, v, more, [e]);
        more := more + [e];
        if !own || Expired(v, deadline) {
          err := Some(PatchFailed(answer.value));
        }
      } else {
        err := Some(PatchFailed(answer.value));
      }
    }

    /** The patch of an attempt, after the read of the node. */
    method PatchAttempt(api: Api, w: World, name: string, node: Node, deadline: nat, ghost done: nat, ghost so: seq<Event>)
      returns (v: World, again: bool, err: Option<CordonError>, ghost more: seq<Event>)
      requires api.run == run && api.focus == name && Valid(name, w) && Known(w.store, node) && !node.unschedulable && node.name == name
      requires UpToRead(so, done) && so[|so| - 1] == Read(Some(node))
      modifies this
      ensures Valid(name, v) && v.log == w.log + more && Happened(api, w, v, more)
      ensures Patches(so + more) <= done + 1
      ensures again ==> nodes == old(nodes) && OnlyConflicts(so + more, done + 1)
      ensures !again ==> Concluded(run, name, old(nodes), nodes, so + more, err, Expired(v, deadline)) && err != Some(KeepsChanging)
    {
      v, again, err, more := TryCordon(api, w, name, node, deadline);
      ThenPatch(run, name, old(nodes), nodes, so, done, node, more, again, err, Expired(v, deadline));
    }

    /** Read the node once and, if it is schedulable, try one patch; `again` asks for another attempt. */
    method CordonAttempt(api: Api, w: World, name: string, deadline: nat, ghost done: nat, ghost so: seq<Event>)
      returns (v: World, again: bool, err: Option<CordonError>, ghost more: seq<Event>)
      requires api.run == run && api.focus == name && Valid(name, w) && OnlyConflicts(so, done)
      modifies this
      ensures Valid(name, v) && v.log == w.log + more && Happened(api, w, v, more)
      ensures Patches(so + more) <= done + 1
      ensures again ==> nodes == old(nodes) && OnlyConflicts(so + more, done + 1)
      ensures !again ==> Concluded(run, name, old(nodes), nodes, so + more, err, Expired(v, deadline)) && err != Some(KeepsChanging)
    {
      again, err := false, None;
      var failed, node;
      v, failed, node := GetNode(api, w, name);
      ghost var e := if failed then ReadFailed else Read(node);
      ghost var events := ConflictsThen(so, done, e);
      DecidedByRead(run, name, nodes, events, done, Expired(v, deadline));
      RecordsGrow(w.log, v.log, nodes);
      more := [e];
      if failed {
        err := Some(GetFailed);
      } else if node.None? {
      } else if node.value.unschedulable {
        if node.value.owner == Some(run) {
          nodes := nodes[name := node.value.uid];
        }
      } else {
        ghost var read := v;
        v, again, err, more := PatchAttempt(api, v, name, node.value, deadline, done, events);
        HappenedThen(api, w, read, v, [e], more);
        Assoc(w.log, [e], more);
        Assoc(so, [e], more);
        more := [e] + more;
      }
    }

    method CordonNode(api: Api, w: World, name: string, deadline: nat)
      returns (v: World, err: Option<CordonError>, ghost events: seq<Event>)
      requires api.run == run && api.focus == name && Valid(name, w)
      modifies this
      ensures Valid(name, v) && v.log == w.log + events && Happened(api, w, v, events)
      ensures Patches(events) <= 5
      // recorded exactly if the last event shows this run's cordon of that very instance; a nil error means that the
      // node was seen missing, or seen or made unschedulable, and that no cordon of this call was lost
      ensures Concluded(run, name, old(nodes), nodes, events, err, Expired(v, deadline))
      ensures err == Some(KeepsChanging) ==> Patches(events) == 5
    {
      v, err, events := w, None, [];
      var attempt := 1;
      while true
        invariant 1 <= attempt <= MAX_NODE_PATCH_ATTEMPTS
        invariant Valid(name, v) && v.log == w.log + events && Happened(api, w, v, events)
        invariant nodes == old(nodes) && OnlyConflicts(events, attempt - 1)
        decreases MAX_NODE_PATCH_ATTEMPTS - attempt
      {
        var again;
        ghost var before, more := v, [];
        v, again, err, more := CordonAttempt(api, v, name, deadline, attempt - 1, events);
        HappenedThen(api, w, before, v, events, more);
        Assoc(w.log, events, more);
        events := events + more;
        if !again {
          return;
        }
        if attempt >= MAX_NODE_PATCH_ATTEMPTS {
          GivesUp(run, name, nodes, events, attempt, Expired(v, deadline));
          err := Some(KeepsChanging);
          return;
        }
        attempt := attempt + 1;
      }
    }
  }

  // ----- what each answer leads to -----

  /** A patch that is acknowledged or finds the node gone ends the call without an error. After a conflict the node is read and
      patched again, unless this was the last patch allowed. After a broken connection, a server failure or a timeout the node is
      read once more, to see what became of the patch. Any other answer ends the call and is its error. */
  lemma AnswerDecides(run: string, name: string, before: map<string, Uid>, after: map<string, Uid>, events: seq<Event>,
                      err: Option<CordonError>, expired: bool, k: nat)
    requires Concluded(run, name, before, after, events, err, expired) && k < |events| && events[k].Patched?
    ensures var last := |events| - 1;
            match events[k].answer
            case None => k == last && err.None?
            case Some(Transport) => k == last - 1 && !events[last].Patched?
            case Some(Status(code, timeout)) =>
              if code == 409 then (k == last ==> err == Some(KeepsChanging))
              else if code == 404 then k == last && err.None?
              else if code == 0 || code >= 500 || timeout then k == last - 1 && !events[last].Patched?
              else k == last && err == Some(PatchFailed(Status(code, timeout)))
  {
    if k < |events| - 1 {
      assert Refused(events[k]) || Unresolved(events[k]);
    }
  }

  // ----- an effective cordon that is not recorded -----

  lemma {:induction false} FitAt(api: Api, turn: nat, s: Store, events: seq<Event>, k: nat)
    requires AllFit(api, turn, s, events) && k < |events|
    ensures Fits(api, turn + k, StoreAfter(api, turn, s, events[..k]), events[k])
  {
    var front := events[..|events| - 1];
    if k < |front| {
      FitAt(api, turn, s, front, k);
      assert front[..k] == events[..k];
    }
  }

  lemma {:induction false} AlternatingAt(events: seq<Event>, k: nat)
    requires Alternating(events) && k < |events|
    ensures events[k].Patched? <==> k % 2 == 1
    ensures events[k].Patched? ==> events[k - 1] == Read(Some(events[k].target))
  {
    var front := events[..|events| - 1];
    if k < |front| {
      AlternatingAt(front, k);
    }
  }

  lemma {:induction false} AfterIsSound(run: string, focus: string, s: Store, acts: seq<Act>)
    requires Sound(s)
    ensures Sound(After(run, focus, s, acts))
  {
    if acts != [] {
      AfterIsSound(run, focus, s, acts[..|acts| - 1]);
      ApplyKeeps(run, focus, After(run, focus, s, acts[..|acts| - 1]), acts[|acts| - 1]);
    }
  }

  /** The node is read as schedulable, nobody interferes, and its patch is executed but answered with this error. */
  ghost predicate CordonedButUnclear(api: Api, w: World, x: Node, error: ApiError) {
    && api.focus in Meets(api, w.turn, w.store).nodes && Meets(api, w.turn, w.store).nodes[api.focus] == x && !x.unschedulable
    && api.script(w.turn).verdict.Deliver?
    && api.script(w.turn + 1) == Turn([], Lose(error, true))
  }

  lemma FirstIsRead(api: Api, w: World, v: World, x: Node, error: ApiError, events: seq<Event>)
    requires CordonedButUnclear(api, w, x, error) && Happened(api, w, v, events) && Alternating(events) && events != []
    ensures events[0] == Read(Some(x)) && StoreAfter(api, w.turn, w.store, events[..1]) == Meets(api, w.turn, w.store)
  {
    FitAt(api, w.turn, w.store, events, 0);
    AlternatingAt(events, 0);
    assert events[..0] == [] && events[..1][..0] == [];
  }

  lemma PatchIsExecuted(api: Api, turn: nat, s: Store, x: Node, error: ApiError, e: Event)
    requires api.script(turn) == Turn([], Lose(error, true)) && !MutationDefinitelyFailed(error)
    requires x.name in s.nodes && s.nodes[x.name] == x
    requires e.Patched? && e.target == x && Fits(api, turn, s, e)
    ensures e == Patched(x, Some(x), Some(error))
    ensures var t := Step(api, turn, s, e); x.name in t.nodes && t.nodes[x.name] == CordonEffect(api.run, x).(rv := t.version)
  {
    assert Meets(api, turn, s) == s;
  }

  lemma SecondIsPatch(api: Api, w: World, v: World, x: Node, error: ApiError, events: seq<Event>)
    requires CordonedButUnclear(api, w, x, error) && Happened(api, w, v, events) && Alternating(events) && |events| >= 2
    ensures events[1].Patched? && events[1].target == x && Fits(api, w.turn + 1, Meets(api, w.turn, w.store), events[1])
  {
    FirstIsRead(api, w, v, x, error, events);
    FitAt(api, w.turn, w.store, events, 1);
    AlternatingAt(events, 1);
  }

  lemma StoreAfterTwo(api: Api, w: World, v: World, x: Node, error: ApiError, events: seq<Event>, now: Store)
    requires CordonedButUnclear(api, w, x, error) && Happened(api, w, v, events) && Alternating(events) && |events| >= 2
    requires now == Meets(api, w.turn, w.store)
    ensures events[..2] == [Read(Some(x)), events[1]]
    ensures StoreAfter(api, w.turn, w.store, events[..2]) == Step(api, w.turn + 1, now, events[1])
  {
    FirstIsRead(api, w, v, x, error, events);
    assert events[..2] == events[..1] + [events[1]];
    FitSnoc(api, w.turn, w.store, events[..1], events[1], w.turn + 1, now);
  }

  lemma TwoRequests(api: Api, w: World, v: World, x: Node, error: ApiError, events: seq<Event>)
    requires Sound(w.store) && CordonedButUnclear(api, w, x, error) && !MutationDefinitelyFailed(error)
    requires Happened(api, w, v, events) && Alternating(events) && |events| >= 2
    ensures events[..2] == [Read(Some(x)), Patched(x, Some(x), Some(error))]
    ensures var t := StoreAfter(api, w.turn, w.store, events[..2]);
            x.name == api.focus && api.focus in t.nodes && t.nodes[api.focus] == CordonEffect(api.run, x).(rv := t.version)
  {
    var now := Meets(api, w.turn, w.store);
    AfterIsSound(api.run, api.focus, w.store, api.script(w.turn).acts);
    SecondIsPatch(api, w, v, x, error, events);
    PatchIsExecuted(api, w.turn + 1, now, x, error, events[1]);
    StoreAfterTwo(api, w, v, x, error, events, now);
  }

  lemma FirstReadGoesOn(api: Api, w: World, v: World, x: Node, error: ApiError, events: seq<Event>, expired: bool,
                        err: Option<CordonError>)
    requires CordonedButUnclear(api, w, x, error) && Happened(api, w, v, events) && Alternating(events)
    requires Finished(api.run, events, expired, err)
    ensures |events| >= 2
  {
    FirstIsRead(api, w, v, x, error, events);
  }

  /** Such a cordon, whenever the error is neither taken as uncertain nor a definite rejection, 408 for example: the node is
      cordoned with this run's marker, and the call ends without a second look at it and without a record. */
  method OverlookedCordon(ops: ClusterOperations, api: Api, w: World, x: Node, error: ApiError, deadline: nat)
    returns (v: World, err: Option<CordonError>, ghost events: seq<Event>)
    requires api.run == ops.run && ops.Valid(api.focus, w)
    requires CordonedButUnclear(api, w, x, error) && !MutationDefinitelyFailed(error) && !IsUncertain(error)
    modifies ops
    ensures events == [Read(Some(x)), Patched(x, Some(x), Some(error))] && v.log == w.log + events
    ensures err == Some(PatchFailed(error)) && ops.nodes == old(ops.nodes)
    ensures api.focus in v.store.nodes && v.store.nodes[api.focus] == CordonEffect(api.run, x).(rv := v.store.version)
  {
    v, err, events := ops.CordonNode(api, w, api.focus, deadline);
    FirstReadGoesOn(api, w, v, x, error, events, Expired(v, deadline), err);
    TwoRequests(api, w, v, x, error, events);
    assert events[1] == events[..2][1];
    assert |events| == 2 && events[..2] == events;
  }
}
