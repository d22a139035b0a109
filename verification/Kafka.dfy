/** Restarting one Strimzi Kafka cluster: annotate its PodSets, then wait until the operator has rolled every pod. */
module Kafka {
  import opened Common

  datatype Reply<+T> = Got(value: T) | Failed(error: ApiError)

  datatype OwnerRef = OwnerRef(kind: string, name: string)

  datatype Condition = Condition(what: string, status: string)

  datatype Pod = Pod(uid: nat, owners: seq<OwnerRef>, deleting: bool, running: bool, conditions: seq<Condition>)

  /** `pods` is the length of spec.pods, `annotated` whether the rolling-update annotation is still there. */
  datatype PodSet = PodSet(pods: nat, annotated: bool)

  /** What one poll concluded. */
  datatype Outcome = Completed | Unfinished | Errored(error: ApiError)

  datatype Event =
    | PodSetsListed(reply: Reply<seq<string>>)
    | PodsRead(pods: Reply<seq<Pod>>)
    | PodSetRead(name: string, podSet: Reply<PodSet>)
    | KafkaRead(conditions: Reply<seq<Condition>>)
    | Patched(name: string, answer: Option<ApiError>)
    | PollEnded(outcome: Outcome, expired: bool)
    | Tripped(error: ApiError)

  datatype World = World(turn: nat, log: seq<Event>)

  /** A StrimziPodSet as listed: the two labels the selection looks at and the owner references. */
  datatype Labelled = Labelled(name: string, cluster: Option<string>, kind: Option<string>, owners: seq<OwnerRef>)

  /** Arbitrary API answers by time, and when the run's context and the bounded waiting context expire. */
  datatype Env = Env(
    podSetLists: nat -> Reply<seq<Labelled>>, podLists: nat -> Reply<seq<Pod>>, podSets: (nat, string) -> Reply<PodSet>,
    kafkas: nat -> Reply<seq<Condition>>, patches: nat -> Option<ApiError>, parent: nat, timeout: nat)
  {
    predicate Expired(turn: nat) { turn >= timeout || turn >= parent }
  }

  // ----- which objects belong to the cluster -----

  predicate OwnsFor(kafka: string, ref: OwnerRef) {
    (ref.kind == "Kafka" && ref.name == kafka) || ref.kind == "KafkaNodePool"
  }

  ghost predicate BelongsTo(kafka: string, ps: Labelled) {
    // a missing label reads as the empty string
    && (ps.cluster == Some(kafka) || (ps.cluster.None? && kafka == ""))
    && ps.kind in {None, Some(""), Some("Kafka")}
    && (ps.owners == [] || exists r | r in ps.owners :: r.kind == "KafkaNodePool" || (r.kind == "Kafka" && r.name == kafka))
  }

  ghost function Belonging(kafka: string, items: seq<Labelled>): seq<string> {
    if items == [] then []
    else Belonging(kafka, items[..|items| - 1]) +
         if BelongsTo(kafka, items[|items| - 1]) then [items[|items| - 1].name] else []
  }

  function LabelValue(value: Option<string>): string { if value.Some? then value.value else "" }

  method IsOwned(kafka: string, owners: seq<OwnerRef>) returns (owned: bool)
    ensures owned <==> exists r | r in owners :: OwnsFor(kafka, r)
  {
    owned := false;
    for i := 0 to |owners|
      invariant !owned && forall r | r in owners[..i] :: !OwnsFor(kafka, r)
    {
      if OwnsFor(kafka, owners[i]) {
        assert owners[i] in owners;
        return true;
      }
    }
  }

  /** The order of names, character by character; a proper prefix comes first. */
  predicate Precedes(a: string, b: string) {
    a == [] || (b != [] && (a[0] < b[0] || (a[0] == b[0] && Precedes(a[1..], b[1..]))))
  }

  /** A proper prefix comes first; otherwise the first characters that differ decide. */
  lemma {:induction false} PrecedesMeans(a: string, b: string)
    ensures Precedes(a, b) <==>
            a <= b || exists i | 0 <= i < |a| && i < |b| :: a[..i] == b[..i] && a[i] < b[i]
  {
    if a != [] && b != [] && a[0] == b[0] {
      PrecedesMeans(a[1..], b[1..]);
      if i :| 0 <= i < |a[1..]| && i < |b[1..]| && a[1..][..i] == b[1..][..i] && a[1..][i] < b[1..][i] {
        assert a[..i + 1] == [a[0]] + a[1..][..i] && b[..i + 1] == [b[0]] + b[1..][..i];
        assert a[i + 1] < b[i + 1];
      }
      if i :| 0 <= i < |a| && i < |b| && a[..i] == b[..i] && a[i] < b[i] {
        assert i > 0 && a[1..][..i - 1] == a[..i][1..] && b[1..][..i - 1] == b[..i][1..];
        assert a[1..][i - 1] < b[1..][i - 1];
      }
      assert a == [a[0]] + a[1..] && b == [b[0]] + b[1..];
      assert a <= b <==> a[1..] <= b[1..];
    } else if a != [] && b != [] {
      assert a[..0] == b[..0];
    }
  }

  lemma {:induction false} PrecedesTotal(a: string, b: string)
    ensures Precedes(a, b) || Precedes(b, a)
  {
    if a != [] && b != [] && a[0] == b[0] {
      PrecedesTotal(a[1..], b[1..]);
    }
  }

  lemma {:induction false} PrecedesThrough(a: string, b: string, c: string)
    requires Precedes(a, b) && Precedes(b, c)
    ensures Precedes(a, c)
  {
    if a != [] && b != [] && c != [] && a[0] == b[0] == c[0] {
      PrecedesThrough(a[1..], b[1..], c[1..]);
    }
  }

  predicate Ascending(names: seq<string>) {
    forall i, j | 0 <= i < j < |names| :: Precedes(names[i], names[j])
  }

  /** Puts a name where it belongs. */
  function Insert(name: string, names: seq<string>): seq<string> {
    if names == [] || Precedes(name, names[0]) then [name] + names else [names[0]] + Insert(name, names[1..])
  }

  function Sorted(names: seq<string>): seq<string> {
    if names == [] then [] else Insert(names[|names| - 1], Sorted(names[..|names| - 1]))
  }

  lemma {:induction false} InsertKeeps(name: string, names: seq<string>)
    ensures multiset(Insert(name, names)) == multiset(names) + multiset{name}
  {
    if names != [] && !Precedes(name, names[0]) {
      InsertKeeps(name, names[1..]);
      assert names == [names[0]] + names[1..];
    }
  }

  lemma {:induction false} InsertAscends(name: string, names: seq<string>)
    requires Ascending(names)
    ensures Ascending(Insert(name, names))
  {
    if names == [] {
    } else if Precedes(name, names[0]) {
      forall k | 0 < k < |names|
        ensures Precedes(name, names[k])
      {
        PrecedesThrough(name, names[0], names[k]);
      }
    } else {
      var rest := Insert(name, names[1..]);
      PrecedesTotal(name, names[0]);
      InsertAscends(name, names[1..]);
      InsertKeeps(name, names[1..]);
      forall k | 0 <= k < |rest|
        ensures Precedes(names[0], rest[k])
      {
        assert rest[k] in multiset(rest);
        assert rest[k] == name || rest[k] in names[1..];
      }
    }
  }

  /** Sorting arranges exactly the same names in ascending order. */
  lemma {:induction false} SortedArranges(names: seq<string>)
    ensures Ascending(Sorted(names)) && multiset(Sorted(names)) == multiset(names)
  {
    if names != [] {
      var front, last := names[..|names| - 1], names[|names| - 1];
      SortedArranges(front);
      InsertAscends(last, Sorted(front));
      InsertKeeps(last, Sorted(front));
      assert names == front + [last];
    }
  }

  method SelectPodSets(kafka: string, items: seq<Labelled>) returns (names: seq<string>)
    ensures names == Sorted(Belonging(kafka, items))
    ensures Ascending(names) && multiset(names) == multiset(Belonging(kafka, items))
  {
    names := [];
    for i := 0 to |items|
      invariant names == Belonging(kafka, items[..i])
    {
      assert items[..i + 1][..i] == items[..i];
      var ps := items[i];
      if LabelValue(ps.cluster) != kafka {
        continue;
      }
      if LabelValue(ps.kind) != "" && LabelValue(ps.kind) != "Kafka" {
        continue;
      }
      if |ps.owners| > 0 {
        var owned := IsOwned(kafka, ps.owners);
        if !owned {
          continue;
        }
      }
      names := names + [ps.name];
    }
    assert items[..|items|] == items;
    SortedArranges(names);
    names := Sorted(names);
  }

  // ----- the pods of some PodSets, and when they are all replaced -----

  predicate OwnedBy(pod: Pod, podSets: seq<string>) {
    exists r | r in pod.owners :: r.kind == "StrimziPodSet" && r.name in podSets
  }

  function PodsOf(pods: seq<Pod>, podSets: seq<string>): (r: seq<Pod>)
    ensures forall p :: p in r <==> p in pods && OwnedBy(p, podSets)
  {
    if pods == [] then []
    else PodsOf(pods[..|pods| - 1], podSets) + if OwnedBy(pods[|pods| - 1], podSets) then [pods[|pods| - 1]] else []
  }

  /** Ready is decided by the first Ready condition; without one the pod is not ready. */
  predicate ReadyTrue(conditions: seq<Condition>) {
    exists i | 0 <= i < |conditions| ::
      conditions[i] == Condition("Ready", "True") && forall j | 0 <= j < i :: conditions[j].what != "Ready"
  }

  method ConditionTrue(conditions: seq<Condition>) returns (r: bool)
    ensures r <==> ReadyTrue(conditions)
  {
    for i := 0 to |conditions|
      invariant forall j | 0 <= j < i :: conditions[j].what != "Ready"
    {
      if conditions[i].what == "Ready" {
        return conditions[i].status == "True";
      }
    }
    return false;
  }

  /** The pods that are not going away. */
  function Staying(pods: seq<Pod>): (r: seq<Pod>)
    ensures forall p :: p in r <==> p in pods && !p.deleting
  {
    if pods == [] then []
    else Staying(pods[..|pods| - 1]) + if pods[|pods| - 1].deleting then [] else [pods[|pods| - 1]]
  }

  /** No pod from before the restart is left, and exactly the wanted number of pods stay, all Running and Ready. */
  ghost predicate Replaced(pods: seq<Pod>, oldUids: set<nat>, expected: nat) {
    && (forall p | p in pods :: p.uid !in oldUids)
    && |Staying(pods)| == expected
    && (forall p | p in Staying(pods) :: p.running && ReadyTrue(p.conditions))
  }

  datatype Progress = Progress(oldRemaining: nat, newPods: nat, ready: nat)

  ghost predicate CountsUpTo(pods: seq<Pod>, oldUids: set<nat>, g: Progress) {
    && (g.oldRemaining == 0 <==> forall p | p in pods :: p.uid !in oldUids)
    && (g.oldRemaining == 0 ==>
          && g.newPods == |Staying(pods)| && g.ready <= g.newPods
          && (g.ready == g.newPods <==> forall p | p in Staying(pods) :: p.running && ReadyTrue(p.conditions)))
  }

  method CountPod(pod: Pod, oldUids: set<nat>, g: Progress, ghost before: seq<Pod>) returns (h: Progress)
    requires CountsUpTo(before, oldUids, g)
    ensures CountsUpTo(before + [pod], oldUids, h)
  {
    h := g;
    ghost var now := before + [pod];
    assert now[..|before|] == before;
    assert Staying(now) == Staying(before) + if pod.deleting then [] else [pod];
    if pod.uid in oldUids {
      assert pod in now;
      return g.(oldRemaining := g.oldRemaining + 1);
    }
    if pod.deleting {
      return;
    }
    h := h.(newPods := h.newPods + 1);
    var ready := ConditionTrue(pod.conditions);
    if pod.running && ready {
      h := h.(ready := h.ready + 1);
    } else {
      assert pod in Staying(now);
    }
  }

  lemma TakeOneMore<T>(s: seq<T>, i: nat)
    requires i < |s|
    ensures s[..i + 1] == s[..i] + [s[i]]
  {
  }

  method EvaluatePodReplacement(pods: seq<Pod>, oldUids: set<nat>, expected: nat) returns (done: bool)
    ensures done <==> Replaced(pods, oldUids, expected)
  {
    var g := Progress(0, 0, 0);
    for i := 0 to |pods|
      invariant CountsUpTo(pods[..i], oldUids, g)
    {
      g := CountPod(pods[i], oldUids, g, pods[..i]);
      TakeOneMore(pods, i);
    }
    assert pods[..|pods|] == pods;
    done := g.oldRemaining == 0 && g.newPods == expected && g.ready == g.newPods;
  }

  // ----- an evaluation does not depend on pods of other PodSets -----

  function Uids(pods: seq<Pod>): set<nat> { set p | p in pods :: p.uid }

  /** Of the pods recorded before the restart only those of the awaited PodSets count: an instance keeps its owners. */
  lemma OnlyOwnRecordsMatter(before: seq<Pod>, now: seq<Pod>, podSets: seq<string>, expected: nat)
    requires forall p, q | p in before && q in now && p.uid == q.uid :: p.owners == q.owners
    ensures Replaced(PodsOf(now, podSets), Uids(before), expected) <==>
            Replaced(PodsOf(now, podSets), Uids(PodsOf(before, podSets)), expected)
  {
    forall q | q in PodsOf(now, podSets)
      ensures q.uid in Uids(before) <==> q.uid in Uids(PodsOf(before, podSets))
    {
      if q.uid in Uids(before) {
        var p :| p in before && p.uid == q.uid;
        assert OwnedBy(p, podSets) <==> OwnedBy(q, podSets);
        assert p in PodsOf(before, podSets);
      }
    }
  }

  // ----- one poll -----

  predicate OnlyReads(events: seq<Event>) { forall e | e in events :: e.PodsRead? || e.PodSetRead? || e.KafkaRead? }

  /** The answer the API gives to this read at this moment. */
  predicate AnswerAt(env: Env, turn: nat, e: Event) {
    match e
    case PodsRead(reply) => reply == env.podLists(turn)
    case PodSetRead(name, reply) => reply == env.podSets(turn, name)
    case KafkaRead(reply) => reply == env.kafkas(turn)
    case _ => false
  }

  /** One read after the other, each answered at its own moment from `turn` on. */
  predicate Answered(env: Env, turn: nat, polled: seq<Event>) {
    forall k | 0 <= k < |polled| :: AnswerAt(env, turn + k, polled[k])
  }

  /** Exactly these reads happened between `w` and `v`. */
  predicate Did(env: Env, w: World, v: World, polled: seq<Event>) {
    v.log == w.log + polled && v.turn == w.turn + |polled| && Answered(env, w.turn, polled)
  }

  lemma DidThen(env: Env, w: World, v: World, u: World, a: seq<Event>, b: seq<Event>)
    requires Did(env, w, v, a) && Did(env, v, u, b)
    ensures Did(env, w, u, a + b) && OnlyReads(a + b)
  {
    Assoc(w.log, a, b);
    forall k | 0 <= k < |a + b|
      ensures AnswerAt(env, w.turn + k, (a + b)[k])
    {
      if k >= |a| {
        assert AnswerAt(env, v.turn + (k - |a|), b[k - |a|]);
      }
    }
  }

  method ListPods(env: Env, w: World) returns (v: World, reply: Reply<seq<Pod>>)
    ensures Did(env, w, v, [PodsRead(reply)])
  {
    reply := env.podLists(w.turn);
    v := World(w.turn + 1, w.log + [PodsRead(reply)]);
  }

  method GetPodSet(env: Env, w: World, name: string) returns (v: World, reply: Reply<PodSet>)
    ensures Did(env, w, v, [PodSetRead(name, reply)])
  {
    reply := env.podSets(w.turn, name);
    v := World(w.turn + 1, w.log + [PodSetRead(name, reply)]);
  }

  predicate ReadOf(e: Event, name: string) { e.PodSetRead? && e.name == name && e.podSet.Got? }

  /** One successful read of each PodSet, in order. */
  predicate AllRead(podSets: seq<string>, polled: seq<Event>) {
    |polled| == |podSets| && forall i | 0 <= i < |podSets| :: ReadOf(polled[i], podSets[i])
  }

  /** The reads stopped at a PodSet that could not be read. */
  predicate StoppedAtError(polled: seq<Event>, e: ApiError) {
    polled != [] &&
    match polled[|polled| - 1]
    case PodSetRead(_, Failed(error)) => error == e
    case KafkaRead(Failed(error)) => error == e
    case PodsRead(Failed(error)) => error == e
    case _ => false
  }

  function Wanted(polled: seq<Event>): nat {
    if polled == [] then 0
    else Wanted(polled[..|polled| - 1]) +
         match polled[|polled| - 1]
         case PodSetRead(_, Got(ps)) => ps.pods
         case _ => 0
  }

  lemma OneMoreRead(podSets: seq<string>, polled: seq<Event>, i: nat, ps: PodSet)
    requires i < |podSets| && AllRead(podSets[..i], polled)
    ensures AllRead(podSets[..i + 1], polled + [PodSetRead(podSets[i], Got(ps))])
    ensures Wanted(polled + [PodSetRead(podSets[i], Got(ps))]) == Wanted(polled) + ps.pods
  {
    assert (polled + [PodSetRead(podSets[i], Got(ps))])[..|polled|] == polled;
  }

  method DesiredPods(env: Env, w: World, podSets: seq<string>)
    returns (v: World, r: Reply<nat>, ghost polled: seq<Event>)
    ensures Did(env, w, v, polled)
    ensures w.turn <= v.turn && w.log <= v.log
    ensures r.Got? ==> AllRead(podSets, polled) && r.value == Wanted(polled)
    ensures r.Failed? ==> StoppedAtError(polled, r.error)
  {
    v, polled := w, [];
    var total := 0;
    for i := 0 to |podSets|
      invariant Did(env, w, v, polled)
      invariant AllRead(podSets[..i], polled) && total == Wanted(polled)
    {
      var reply;
      ghost var before := v;
      v, reply := GetPodSet(env, v, podSets[i]);
      DidThen(env, w, before, v, polled, [PodSetRead(podSets[i], reply)]);
      if reply.Got? {
        OneMoreRead(podSets, polled, i, reply.value);
      }
      polled := polled + [PodSetRead(podSets[i], reply)];
      if reply.Failed? {
        return v, Failed(reply.error), polled;
      }
      total := total + reply.value.pods;
    }
    r := Got(total);
  }

  /** Every PodSet was read without the annotation and the Kafka resource as Ready. */
  ghost predicate RollSeen(podSets: seq<string>, polled: seq<Event>) {
    && |polled| == |podSets| + 1
    && AllRead(podSets, polled[..|podSets|])
    && (forall i | 0 <= i < |podSets| :: !polled[i].podSet.value.annotated)
    && polled[|podSets|].KafkaRead? && polled[|podSets|].conditions.Got? && ReadyTrue(polled[|podSets|].conditions.value)
  }

  /** The last read shows that the operator has not finished. */
  ghost predicate RollUnfinished(polled: seq<Event>) {
    polled != [] &&
    match polled[|polled| - 1]
    case PodSetRead(_, Got(ps)) => ps.annotated
    case KafkaRead(Got(conditions)) => !ReadyTrue(conditions)
    case _ => false
  }

  method GetKafka(env: Env, w: World) returns (v: World, reply: Reply<seq<Condition>>)
    ensures Did(env, w, v, [KafkaRead(reply)])
  {
    reply := env.kafkas(w.turn);
    v := World(w.turn + 1, w.log + [KafkaRead(reply)]);
  }

  method RollCompleted(env: Env, w: World, podSets: seq<string>)
    returns (v: World, r: Reply<bool>, ghost polled: seq<Event>)
    ensures Did(env, w, v, polled)
    ensures w.turn <= v.turn && w.log <= v.log
    ensures r == Got(true) <==> RollSeen(podSets, polled)
    ensures r == Got(false) ==> RollUnfinished(polled)
    ensures r.Failed? ==> StoppedAtError(polled, r.error)
  {
    v, polled := w, [];
    for i := 0 to |podSets|
      invariant Did(env, w, v, polled)
      invariant AllRead(podSets[..i], polled) && forall j | 0 <= j < i :: !polled[j].podSet.value.annotated
    {
      var reply;
      ghost var before := v;
      v, reply := GetPodSet(env, v, podSets[i]);
      DidThen(env, w, before, v, polled, [PodSetRead(podSets[i], reply)]);
      polled := polled + [PodSetRead(podSets[i], reply)];
      if reply.Failed? {
        return v, Failed(reply.error), polled;
      }
      if reply.value.annotated {
        return v, Got(false), polled;
      }
    }
    assert podSets[..|podSets|] == podSets && polled == polled[..|podSets|];
    var reply;
    ghost var before := v;
    v, reply := GetKafka(env, v);
    DidThen(env, w, before, v, polled, [KafkaRead(reply)]);
    assert (polled + [KafkaRead(reply)])[..|podSets|] == polled;
    polled := polled + [KafkaRead(reply)];
    if reply.Failed? {
      return v, Failed(reply.error), polled;
    }
    var ready := ConditionTrue(reply.value);
    r := Got(ready);
  }

  /** One poll saw everything that makes the restart complete: no recorded pod, exactly the pods that the PodSets want
      at that very poll, all Running and Ready, no annotation left and the Kafka resource Ready. */
  ghost predicate PollComplete(podSets: seq<string>, oldUids: set<nat>, polled: seq<Event>) {
    var n := |podSets|;
    && |polled| == 2 * n + 2
    && polled[0].PodsRead? && polled[0].pods.Got?
    && AllRead(podSets, polled[1..n + 1])
    && Replaced(PodsOf(polled[0].pods.value, podSets), oldUids, Wanted(polled[1..n + 1]))
    && RollSeen(podSets, polled[n + 1..])
  }

  /** One poll saw that something is missing: the pods are not replaced, or the operator has not finished. */
  ghost predicate PollUnfinished(podSets: seq<string>, oldUids: set<nat>, polled: seq<Event>) {
    var n := |podSets|;
    && |polled| >= n + 1
    && polled[0].PodsRead? && polled[0].pods.Got?
    && AllRead(podSets, polled[1..n + 1])
    && var replaced := Replaced(PodsOf(polled[0].pods.value, podSets), oldUids, Wanted(polled[1..n + 1]));
       if replaced then RollUnfinished(polled[n + 1..]) else |polled| == n + 1
  }

  /** The conclusion of a poll is what its reads show. */
  ghost predicate Judged(podSets: seq<string>, oldUids: set<nat>, polled: seq<Event>, outcome: Outcome) {
    && (outcome.Completed? <==> PollComplete(podSets, oldUids, polled))
    && (outcome.Unfinished? ==> PollUnfinished(podSets, oldUids, polled))
    && (outcome.Errored? ==> StoppedAtError(polled, outcome.error))
  }

  /** The statuses of the Ready conditions, in order. */
  function ReadyStatuses(conditions: seq<Condition>): seq<string> {
    if conditions == [] then []
    else (if conditions[0].what == "Ready" then [conditions[0].status] else []) + ReadyStatuses(conditions[1..])
  }

  predicate FirstReadyIsTrue(conditions: seq<Condition>) {
    ReadyStatuses(conditions) != [] && ReadyStatuses(conditions)[0] == "True"
  }

  lemma {:induction false} FirstReadyDecides(conditions: seq<Condition>)
    ensures FirstReadyIsTrue(conditions) <==> ReadyTrue(conditions)
  {
    if conditions != [] {
      var rest := conditions[1..];
      FirstReadyDecides(rest);
      if conditions[0].what != "Ready" {
        if i :| 0 <= i < |rest| && rest[i] == Condition("Ready", "True") && forall j | 0 <= j < i :: rest[j].what != "Ready" {
          assert conditions[i + 1] == rest[i];
          assert forall j | 0 <= j < i + 1 :: conditions[j].what != "Ready";
        }
        if i :| 0 <= i < |conditions| && conditions[i] == Condition("Ready", "True") && forall j | 0 <= j < i :: conditions[j].what != "Ready" {
          assert i > 0 && rest[i - 1] == conditions[i];
          assert forall j | 0 <= j < i - 1 :: rest[j] == conditions[j + 1];
        }
      }
    }
  }

  /** The positions of the pods of these PodSets that are not going away. */
  ghost function StayingOwned(pods: seq<Pod>, podSets: seq<string>): set<nat> {
    set i: nat | i < |pods| && !pods[i].deleting && exists r | r in pods[i].owners :: r.kind == "StrimziPodSet" && r.name in podSets
  }

  lemma StayingSnoc(pods: seq<Pod>, p: Pod)
    ensures Staying(pods + [p]) == Staying(pods) + if p.deleting then [] else [p]
  {
    assert (pods + [p])[..|pods|] == pods;
  }

  lemma CountSnoc(pods: seq<Pod>, podSets: seq<string>, p: Pod)
    ensures |Staying(PodsOf(pods + [p], podSets))| == |Staying(PodsOf(pods, podSets))| + if OwnedBy(p, podSets) && !p.deleting then 1 else 0
  {
    assert (pods + [p])[..|pods|] == pods;
    StayingSnoc(PodsOf(pods, podSets), p);
    assert PodsOf(pods, podSets) + [] == PodsOf(pods, podSets);
  }

  lemma PositionsSnoc(pods: seq<Pod>, podSets: seq<string>, p: Pod)
    ensures |StayingOwned(pods + [p], podSets)| == |StayingOwned(pods, podSets)| + if OwnedBy(p, podSets) && !p.deleting then 1 else 0
  {
    assert StayingOwned(pods + [p], podSets) == StayingOwned(pods, podSets) + if OwnedBy(p, podSets) && !p.deleting then {|pods|} else {};
  }

  lemma CountsStep(pods: seq<Pod>, podSets: seq<string>, p: Pod)
    requires |Staying(PodsOf(pods, podSets))| == |StayingOwned(pods, podSets)|
    ensures |Staying(PodsOf(pods + [p], podSets))| == |StayingOwned(pods + [p], podSets)|
  {
    CountSnoc(pods, podSets, p);
    PositionsSnoc(pods, podSets, p);
  }

  lemma {:induction false} CountStaying(pods: seq<Pod>, podSets: seq<string>)
    ensures |Staying(PodsOf(pods, podSets))| == |StayingOwned(pods, podSets)|
  {
    if pods != [] {
      var front, p := pods[..|pods| - 1], pods[|pods| - 1];
      assert pods == front + [p];
      CountStaying(front, podSets);
      CountsStep(front, podSets, p);
    }
  }

  /** A pod that keeps the restart unfinished: one of these PodSets, and recorded before the restart, or staying without being
      Running with a first Ready condition that is "True". */
  ghost predicate Hinders(p: Pod, podSets: seq<string>, oldUids: set<nat>) {
    && (exists r | r in p.owners :: r.kind == "StrimziPodSet" && r.name in podSets)
    && (p.uid in oldUids || (!p.deleting && (!p.running || !FirstReadyIsTrue(p.conditions))))
  }

  lemma ReplacedExactly(pods: seq<Pod>, podSets: seq<string>, oldUids: set<nat>, expected: nat)
    ensures Replaced(PodsOf(pods, podSets), oldUids, expected) <==>
            |StayingOwned(pods, podSets)| == expected && forall p | p in pods :: !Hinders(p, podSets, oldUids)
  {
    CountStaying(pods, podSets);
    forall p | p in pods
      ensures Hinders(p, podSets, oldUids) <==>
              OwnedBy(p, podSets) && (p.uid in oldUids || (!p.deleting && (!p.running || !ReadyTrue(p.conditions))))
    {
      FirstReadyDecides(p.conditions);
    }
  }

  lemma ReadAt(podSets: seq<string>, polled: seq<Event>, from: nat)
    requires |polled| >= from + |podSets|
    ensures AllRead(podSets, polled[from..from + |podSets|]) <==> forall i | 0 <= i < |podSets| :: ReadOf(polled[from + i], podSets[i])
  {
    var part := polled[from..from + |podSets|];
    assert forall i | 0 <= i < |podSets| :: part[i] == polled[from + i];
  }

  lemma RollAt(podSets: seq<string>, polled: seq<Event>, from: nat)
    requires |polled| == from + |podSets| + 1
    ensures RollSeen(podSets, polled[from..]) <==>
              && (forall i | 0 <= i < |podSets| :: ReadOf(polled[from + i], podSets[i]) && !polled[from + i].podSet.value.annotated)
              && var e := polled[from + |podSets|]; e.KafkaRead? && e.conditions.Got? && ReadyTrue(e.conditions.value)
  {
    var n, last := |podSets|, polled[from..];
    ReadAt(podSets, polled, from);
    assert last[..n] == polled[from..from + n] && last[n] == polled[from + n];
    assert forall i | 0 <= i < n :: last[i] == polled[from + i];
  }

  /** The reads of a complete poll, one by one: the pods, each PodSet with the number of pods it wants, each PodSet again without
      the annotation, and the Kafka resource with a first Ready condition that is "True". */
  ghost predicate ShowsComplete(podSets: seq<string>, oldUids: set<nat>, polled: seq<Event>) {
    var n := |podSets|;
    && |polled| == 2 * n + 2
    && polled[0].PodsRead? && polled[0].pods.Got?
    && (forall p | p in polled[0].pods.value :: !Hinders(p, podSets, oldUids))
    && |StayingOwned(polled[0].pods.value, podSets)| == Wanted(polled[1..1 + n])
    && (forall i | 0 <= i < n :: ReadOf(polled[1 + i], podSets[i]))
    && (forall i | 0 <= i < n :: ReadOf(polled[n + 1 + i], podSets[i]) && !polled[n + 1 + i].podSet.value.annotated)
    && var last := polled[n + 1 + n]; last.KafkaRead? && last.conditions.Got? && FirstReadyIsTrue(last.conditions.value)
  }

  lemma CompleteExactly(podSets: seq<string>, oldUids: set<nat>, polled: seq<Event>)
    ensures PollComplete(podSets, oldUids, polled) <==> ShowsComplete(podSets, oldUids, polled)
  {
    var n := |podSets|;
    if |polled| == 2 * n + 2 && polled[0].PodsRead? && polled[0].pods.Got? {
      ReadAt(podSets, polled, 1);
      RollAt(podSets, polled, n + 1);
      ReplacedExactly(polled[0].pods.value, podSets, oldUids, Wanted(polled[1..1 + n]));
      var last := polled[n + 1 + n];
      if last.KafkaRead? && last.conditions.Got? {
        FirstReadyDecides(last.conditions.value);
      }
    }
  }

  method KeepOwned(pods: seq<Pod>, podSets: seq<string>) returns (kept: seq<Pod>)
    ensures kept == PodsOf(pods, podSets)
  {
    kept := [];
    for i := 0 to |pods|
      invariant kept == PodsOf(pods[..i], podSets)
    {
      assert pods[..i + 1][..i] == pods[..i];
      if OwnedBy(pods[i], podSets) {
        kept := kept + [pods[i]];
      }
    }
    assert pods[..|pods|] == pods;
  }

  lemma PollInParts(podSets: seq<string>, oldUids: set<nat>, pods: seq<Pod>, wanted: seq<Event>, last: seq<Event>)
    requires AllRead(podSets, wanted)
    ensures PollComplete(podSets, oldUids, [PodsRead(Got(pods))] + wanted + last) <==>
            Replaced(PodsOf(pods, podSets), oldUids, Wanted(wanted)) && RollSeen(podSets, last)
    ensures Replaced(PodsOf(pods, podSets), oldUids, Wanted(wanted)) && RollUnfinished(last) ==>
            PollUnfinished(podSets, oldUids, [PodsRead(Got(pods))] + wanted + last)
    ensures last == [] && !Replaced(PodsOf(pods, podSets), oldUids, Wanted(wanted)) ==>
            PollUnfinished(podSets, oldUids, [PodsRead(Got(pods))] + wanted)
  {
    var all := [PodsRead(Got(pods))] + wanted + last;
    assert last == [] ==> [PodsRead(Got(pods))] + wanted == all;
    assert all[1..|podSets| + 1] == wanted && all[|podSets| + 1..] == last;
  }

  lemma JudgedAtError(podSets: seq<string>, oldUids: set<nat>, polled: seq<Event>, error: ApiError)
    requires StoppedAtError(polled, error)
    ensures Judged(podSets, oldUids, polled, Errored(error))
  {
  }

  lemma JudgedAtPods(podSets: seq<string>, oldUids: set<nat>, pods: seq<Pod>, wanted: seq<Event>)
    requires AllRead(podSets, wanted) && !Replaced(PodsOf(pods, podSets), oldUids, Wanted(wanted))
    ensures Judged(podSets, oldUids, [PodsRead(Got(pods))] + wanted, Unfinished)
  {
    PollInParts(podSets, oldUids, pods, wanted, []);
    assert [PodsRead(Got(pods))] + wanted + [] == [PodsRead(Got(pods))] + wanted;
  }

  function Conclusion(rolled: Reply<bool>): Outcome {
    match rolled
    case Failed(error) => Errored(error)
    case Got(ok) => if ok then Completed else Unfinished
  }

  lemma JudgedAtRoll(podSets: seq<string>, oldUids: set<nat>, pods: seq<Pod>, wanted: seq<Event>, last: seq<Event>,
                     rolled: Reply<bool>)
    requires AllRead(podSets, wanted) && Replaced(PodsOf(pods, podSets), oldUids, Wanted(wanted))
    requires (rolled == Got(true) <==> RollSeen(podSets, last)) && (rolled == Got(false) ==> RollUnfinished(last))
    requires rolled.Failed? ==> StoppedAtError(last, rolled.error)
    ensures Judged(podSets, oldUids, [PodsRead(Got(pods))] + wanted + last, Conclusion(rolled))
  {
    PollInParts(podSets, oldUids, pods, wanted, last);
    if rolled.Failed? {
      var all := [PodsRead(Got(pods))] + wanted + last;
      assert all[|all| - 1] == last[|last| - 1];
      JudgedAtError(podSets, oldUids, all, rolled.error);
    }
  }

  method CheckClusterRestart(env: Env, w: World, podSets: seq<string>, oldUids: set<nat>)
    returns (v: World, outcome: Outcome, ghost polled: seq<Event>)
    ensures Did(env, w, v, polled) && OnlyReads(polled) && polled != []
    ensures w.turn <= v.turn && w.log <= v.log
    ensures Judged(podSets, oldUids, polled, outcome)
  {
    var pods, expected, rolled;
    ghost var wanted, last, read;
    v, pods := ListPods(env, w);
    polled := [PodsRead(pods)];
    if pods.Failed? {
      JudgedAtError(podSets, oldUids, polled, pods.error);
      return v, Errored(pods.error), polled;
    }
    read := v;
    v, expected, wanted := DesiredPods(env, v, podSets);
    DidThen(env, w, read, v, polled, wanted);
    polled := polled + wanted;
    if expected.Failed? {
      assert polled[|polled| - 1] == wanted[|wanted| - 1];
      JudgedAtError(podSets, oldUids, polled, expected.error);
      return v, Errored(expected.error), polled;
    }
    var own := KeepOwned(pods.value, podSets);
    var done := EvaluatePodReplacement(own, oldUids, expected.value);
    if !done {
      JudgedAtPods(podSets, oldUids, pods.value, wanted);
      return v, Unfinished, polled;
    }
    read := v;
    v, rolled, last := RollCompleted(env, v, podSets);
    JudgedAtRoll(podSets, oldUids, pods.value, wanted, last, rolled);
    DidThen(env, w, read, v, polled, last);
    polled := polled + last;
    outcome := Conclusion(rolled);
  }

  // ----- the wait -----

  /** One poll of a wait, with the turn of its first read.  `expired` is only looked at after an API error. */
  datatype Poll = Poll(at: nat, polled: seq<Event>, outcome: Outcome, expired: bool, tripped: bool) {
    /** The turn right after the last read. */
    function End(): nat { at + |polled| }

    /** The turn at which the waiter looks at its context between two polls. */
    function Tick(): nat { End() + if outcome.Errored? then 1 else 0 }
  }

  function EventsOf(p: Poll): seq<Event> {
    p.polled + [PollEnded(p.outcome, p.expired)] +
    if p.tripped && p.outcome.Errored? then [Tripped(p.outcome.error)] else []
  }

  function Flatten(polls: seq<Poll>): seq<Event> {
    if polls == [] then [] else Flatten(polls[..|polls| - 1]) + EventsOf(polls[|polls| - 1])
  }

  predicate LiveError(p: Poll) { p.outcome.Errored? && !p.expired }

  predicate FirstLiveAt(polls: seq<Poll>, i: nat)
    requires i < |polls|
  {
    LiveError(polls[i]) && forall j | 0 <= j < i :: !LiveError(polls[j])
  }

  datatype Stop = Interrupted | TimedOut

  datatype WaitError = WaitError(stopped: Option<Stop>, apiError: Option<ApiError>) {
    predicate Nil() { stopped.None? && apiError.None? }
  }

  /** The first API error before expiry is the one kept and the one the stop is tripped with. */
  ghost predicate KeepsFirstError(polls: seq<Poll>, apiError: Option<ApiError>) {
    && (apiError.None? <==> forall i | 0 <= i < |polls| :: !LiveError(polls[i]))
    && (forall i | 0 <= i < |polls| :: polls[i].tripped <==> FirstLiveAt(polls, i))
    && (forall i | 0 <= i < |polls| && FirstLiveAt(polls, i) :: apiError == Some(polls[i].outcome.error))
  }

  ghost predicate HonestPolls(podSets: seq<string>, oldUids: set<nat>, polls: seq<Poll>) {
    forall i | 0 <= i < |polls| ::
      Judged(podSets, oldUids, polls[i].polled, polls[i].outcome) && OnlyReads(polls[i].polled) && polls[i].polled != []
  }

  /** One poll comes right after another, between which the context had not expired. */
  predicate Follows(env: Env, p: Poll, next: Poll) { !env.Expired(p.Tick()) && next.at == p.Tick() + 1 }

  /** The reads of the polls were answered by the API, the context was read right after an API error, and each further poll
      begins right after the context was found not to have expired. */
  ghost predicate Timed(env: Env, polls: seq<Poll>) {
    && (forall i | 0 <= i < |polls| ::
          && Answered(env, polls[i].at, polls[i].polled)
          && (polls[i].expired <==> polls[i].outcome.Errored? && env.Expired(polls[i].End())))
    && (forall i, j | 0 <= i < j < |polls| && j == i + 1 :: Follows(env, polls[i], polls[j]))
  }

  /** Without a completed poll the wait ends when the context has expired after the last one. */
  predicate StopsAt(env: Env, polls: seq<Poll>, r: WaitError)
    requires polls != []
  {
    var p := polls[|polls| - 1];
    if p.outcome.Completed? then r.stopped.None?
    else env.Expired(p.Tick()) && r.stopped == Some(if p.Tick() >= env.parent then Interrupted else TimedOut)
  }

  ghost predicate Waited(podSets: seq<string>, oldUids: set<nat>, polls: seq<Poll>, r: WaitError) {
    && polls != [] && HonestPolls(podSets, oldUids, polls) && KeepsFirstError(polls, r.apiError)
    && (forall i | 0 <= i < |polls| - 1 :: !polls[i].outcome.Completed?)
    && (r.stopped.None? <==> polls[|polls| - 1].outcome.Completed?)
  }

  /** The polls of a wait so far. */
  ghost predicate PollsSoFar(env: Env, podSets: seq<string>, oldUids: set<nat>, polls: seq<Poll>, apiError: Option<ApiError>) {
    HonestPolls(podSets, oldUids, polls) && KeepsFirstError(polls, apiError) && Timed(env, polls)
  }

  /** When the next poll of a wait that began at `start` is made. */
  predicate NextAt(env: Env, start: nat, polls: seq<Poll>, now: nat) {
    if polls == [] then now == start
    else polls[0].at == start && !env.Expired(polls[|polls| - 1].Tick()) && now == polls[|polls| - 1].Tick() + 1
  }

  /** The bookkeeping after a poll: the first API error in time trips the stop. */
  method NoteOutcome(env: Env, w: World, outcome: Outcome, apiError: Option<ApiError>, ghost at: nat,
                     ghost polled: seq<Event>)
    returns (v: World, first: Option<ApiError>, ghost p: Poll)
    requires w.turn == at + |polled|
    ensures p.at == at && p.polled == polled && p.outcome == outcome && v.turn == p.Tick()
    ensures w.turn <= v.turn && w.log <= v.log
    ensures p.expired <==> outcome.Errored? && env.Expired(w.turn)
    ensures p.tripped <==> LiveError(p) && apiError.None?
    ensures first == if p.tripped then Some(outcome.error) else apiError
    ensures v.log == w.log + [PollEnded(outcome, p.expired)] + if p.tripped then [Tripped(outcome.error)] else []
  {
    v, first := w, apiError;
    var expired := false;
    if outcome.Errored? {
      expired := env.Expired(v.turn);
      v := v.(turn := v.turn + 1);
    }
    v := v.(log := v.log + [PollEnded(outcome, expired)]);
    p := Poll(at, polled, outcome, expired, false);
    if outcome.Errored? && !expired && first.None? {
      first := Some(outcome.error);
      v := v.(log := v.log + [Tripped(outcome.error)]);
      p := p.(tripped := true);
    }
  }

  lemma LogOfPoll(log: seq<Event>, p: Poll)
    requires p.tripped ==> p.outcome.Errored?
    ensures log + EventsOf(p) ==
            log + p.polled + [PollEnded(p.outcome, p.expired)] + if p.tripped then [Tripped(p.outcome.error)] else []
  {
    Assoc(log, p.polled, [PollEnded(p.outcome, p.expired)]);
    Assoc(log, p.polled + [PollEnded(p.outcome, p.expired)], if p.tripped then [Tripped(p.outcome.error)] else []);
  }

  lemma FirstErrorSnoc(polls: seq<Poll>, apiError: Option<ApiError>, p: Poll)
    requires KeepsFirstError(polls, apiError)
    requires p.tripped <==> LiveError(p) && apiError.None?
    ensures KeepsFirstError(polls + [p], if p.tripped then Some(p.outcome.error) else apiError)
  {
    var all := polls + [p];
    assert forall i | 0 <= i < |polls| :: all[i] == polls[i] && (FirstLiveAt(all, i) <==> FirstLiveAt(polls, i));
    assert FirstLiveAt(all, |polls|) <==> LiveError(p) && apiError.None?;
    assert LiveError(p) ==> LiveError(all[|polls|]);
  }

  lemma TimedSnoc(env: Env, start: nat, polls: seq<Poll>, p: Poll)
    requires Timed(env, polls) && NextAt(env, start, polls, p.at)
    requires Answered(env, p.at, p.polled) && (p.expired <==> p.outcome.Errored? && env.Expired(p.End()))
    ensures Timed(env, polls + [p]) && (polls + [p])[0].at == start
  {
  }

  lemma HonestSnoc(podSets: seq<string>, oldUids: set<nat>, polls: seq<Poll>, p: Poll)
    requires HonestPolls(podSets, oldUids, polls)
    requires Judged(podSets, oldUids, p.polled, p.outcome) && OnlyReads(p.polled) && p.polled != []
    ensures HonestPolls(podSets, oldUids, polls + [p])
  {
  }

  method PollOnce(env: Env, w: World, podSets: seq<string>, oldUids: set<nat>, apiError: Option<ApiError>,
                  ghost start: nat, ghost polls: seq<Poll>)
    returns (v: World, completed: bool, first: Option<ApiError>, ghost p: Poll)
    requires PollsSoFar(env, podSets, oldUids, polls, apiError) && NextAt(env, start, polls, w.turn)
    ensures w.turn < v.turn && w.log <= v.log
    ensures v.log == w.log + EventsOf(p) && v.turn == p.Tick()
    ensures PollsSoFar(env, podSets, oldUids, polls + [p], first) && (polls + [p])[0].at == start
    ensures completed <==> p.outcome.Completed?
  {
    var outcome;
    ghost var polled;
    v, outcome, polled := CheckClusterRestart(env, w, podSets, oldUids);
    completed := outcome.Completed?;
    v, first, p := NoteOutcome(env, v, outcome, apiError, w.turn, polled);
    LogOfPoll(w.log, p);
    HonestSnoc(podSets, oldUids, polls, p);
    FirstErrorSnoc(polls, apiError, p);
    TimedSnoc(env, start, polls, p);
  }

  lemma WaitEnds(env: Env, podSets: seq<string>, oldUids: set<nat>, polls: seq<Poll>, apiError: Option<ApiError>,
                 stopped: Option<Stop>)
    requires polls != [] && PollsSoFar(env, podSets, oldUids, polls, apiError)
    requires forall i | 0 <= i < |polls| - 1 :: !polls[i].outcome.Completed?
    requires stopped.None? <==> polls[|polls| - 1].outcome.Completed?
    ensures Waited(podSets, oldUids, polls, WaitError(stopped, apiError)) && Timed(env, polls)
  {
  }

  lemma NotYet(polls: seq<Poll>, p: Poll)
    requires forall i | 0 <= i < |polls| :: !polls[i].outcome.Completed?
    ensures forall i | 0 <= i < |polls + [p]| - 1 :: !(polls + [p])[i].outcome.Completed?
    ensures !p.outcome.Completed? ==> forall i | 0 <= i < |polls + [p]| :: !(polls + [p])[i].outcome.Completed?
  {
  }

  lemma FlattenSnoc(log: seq<Event>, polls: seq<Poll>, p: Poll)
    ensures log + Flatten(polls + [p]) == log + Flatten(polls) + EventsOf(p)
  {
    assert (polls + [p])[..|polls|] == polls;
    Assoc(log, Flatten(polls), EventsOf(p));
  }

  method WaitForClusterRestart(env: Env, w: World, podSets: seq<string>, oldUids: set<nat>)
    returns (v: World, r: WaitError, ghost polls: seq<Poll>)
    ensures v.log == w.log + Flatten(polls) && w.turn <= v.turn
    ensures Waited(podSets, oldUids, polls, r) && Timed(env, polls) && polls[0].at == w.turn && polls[|polls| - 1].End() <= v.turn
    ensures StopsAt(env, polls, r)
  {
    v, polls := w, [];
    var apiError := None;
    while true
      invariant v.log == w.log + Flatten(polls) && w.turn <= v.turn
      invariant PollsSoFar(env, podSets, oldUids, polls, apiError) && NextAt(env, w.turn, polls, v.turn)
      invariant forall i | 0 <= i < |polls| :: !polls[i].outcome.Completed?
      decreases env.timeout + env.parent - v.turn
    {
      var completed;
      ghost var p;
      v, completed, apiError, p := PollOnce(env, v, podSets, oldUids, apiError, w.turn, polls);
      FlattenSnoc(w.log, polls, p);
      NotYet(polls, p);
      polls := polls + [p];
      if completed {
        r := WaitError(None, apiError);
        WaitEnds(env, podSets, oldUids, polls, apiError, None);
        return;
      }
      // waiting for the next tick or the end of the context
      var turn := v.turn;
      v := v.(turn := turn + 1);
      if env.Expired(turn) {
        r := WaitError(Some(if turn >= env.parent then Interrupted else TimedOut), apiError);
        WaitEnds(env, podSets, oldUids, polls, apiError, r.stopped);
        return;
      }
    }
  }

  /** Waiting succeeds exactly if the last poll saw the restart complete and no poll had an API error in time. */
  lemma WaitSucceeds(podSets: seq<string>, oldUids: set<nat>, polls: seq<Poll>, r: WaitError)
    requires Waited(podSets, oldUids, polls, r)
    ensures r.Nil() <==>
              && PollComplete(podSets, oldUids, polls[|polls| - 1].polled)
              && forall i | 0 <= i < |polls| :: !LiveError(polls[i])
    ensures forall i | 0 <= i < |polls| && polls[i].tripped :: !r.Nil()
  {
    assert forall i | 0 <= i < |polls| && polls[i].tripped :: FirstLiveAt(polls, i);
  }

  /** The same by the clock: what counts is that every failed poll came too late to count.  Whether the context had
      expired when the completing poll was over does not matter. */
  lemma SuccessByTheClock(env: Env, podSets: seq<string>, oldUids: set<nat>, polls: seq<Poll>, r: WaitError)
    requires Waited(podSets, oldUids, polls, r) && Timed(env, polls)
    ensures r.Nil() <==>
              && polls[|polls| - 1].outcome.Completed?
              && forall i | 0 <= i < |polls| && polls[i].outcome.Errored? :: env.Expired(polls[i].End())
  {
    WaitSucceeds(podSets, oldUids, polls, r);
    assert forall i | 0 <= i < |polls| :: LiveError(polls[i]) <==> polls[i].outcome.Errored? && !env.Expired(polls[i].End());
  }

  const NEW_POD := Pod(1, [OwnerRef("StrimziPodSet", "a")], false, true, [Condition("Ready", "True")])

  /** A cluster of one PodSet with one new, ready pod. */
  ghost predicate ReadyEnv(env: Env) {
    && (forall t: nat :: env.podLists(t) == Got([NEW_POD]))
    && (forall t: nat, name :: env.podSets(t, name) == Got(PodSet(1, false)))
    && (forall t: nat :: env.kafkas(t) == Got(NEW_POD.conditions))
  }

  lemma OnePod(p: Pod, podSets: seq<string>)
    requires OwnedBy(p, podSets) && !p.deleting
    ensures PodsOf([p], podSets) == [p] && Staying([p]) == [p]
  {
    assert [p][..0] == [];
  }

  lemma NewPodIsReady()
    ensures ReadyTrue(NEW_POD.conditions)
  {
    assert NEW_POD.conditions[0] == Condition("Ready", "True");
  }

  lemma NewPodReplaces(podSets: seq<string>)
    requires podSets == ["a"]
    ensures PodsOf([NEW_POD], podSets) == [NEW_POD] && Replaced([NEW_POD], {0}, 1) && ReadyTrue(NEW_POD.conditions)
  {
    assert OwnedBy(NEW_POD, podSets) by {
      assert NEW_POD.owners[0] == OwnerRef("StrimziPodSet", "a") && podSets[0] == "a";
    }
    OnePod(NEW_POD, podSets);
    NewPodIsReady();
  }

  predicate ReadyRead(e: Event) {
    match e
    case PodsRead(reply) => reply == Got([NEW_POD])
    case PodSetRead(_, reply) => reply == Got(PodSet(1, false))
    case KafkaRead(reply) => reply == Got(NEW_POD.conditions)
    case _ => false
  }

  lemma ReadsAreReady(env: Env, turn: nat, polled: seq<Event>)
    requires ReadyEnv(env) && Answered(env, turn, polled)
    ensures forall k | 0 <= k < |polled| :: ReadyRead(polled[k])
  {
    forall k | 0 <= k < |polled|
      ensures ReadyRead(polled[k])
    {
      assert AnswerAt(env, turn + k, polled[k]);
    }
  }

  lemma ReadyIsNotUnfinished(polled: seq<Event>)
    requires forall k | 0 <= k < |polled| :: ReadyRead(polled[k])
    ensures !PollUnfinished(["a"], {0}, polled)
  {
    NewPodReplaces(["a"]);
    if |polled| >= 2 {
      assert polled[1..2] == [polled[1]] && [polled[1]][..0] == [];
      assert polled[1].PodSetRead? ==> Wanted(polled[1..2]) == 1;
      assert polled[2..] != [] ==> polled[2..][|polled| - 3] == polled[|polled| - 1];
    }
  }

  lemma ReadyPollCompletes(env: Env, turn: nat, polled: seq<Event>, outcome: Outcome)
    requires ReadyEnv(env) && polled != [] && Answered(env, turn, polled) && Judged(["a"], {0}, polled, outcome)
    ensures outcome.Completed? && |polled| == 4
  {
    ReadsAreReady(env, turn, polled);
    ReadyIsNotUnfinished(polled);
    assert ReadyRead(polled[|polled| - 1]);
  }

  /** Four reads complete a poll of that cluster. When the bounded context expires right after the last of them, all were
      answered in time, and the wait succeeds although its context has expired. */
  lemma SuccessAfterExpiry(env: Env, polls: seq<Poll>, r: WaitError)
    requires ReadyEnv(env) && Waited(["a"], {0}, polls, r) && Timed(env, polls)
    requires polls[0].at + 4 == env.timeout < env.parent
    ensures r.Nil() && |polls| == 1 && env.Expired(polls[0].End()) && !env.Expired(polls[0].End() - 1)
  {
    forall i | 0 <= i < |polls|
      ensures polls[i].outcome.Completed? && |polls[i].polled| == 4
    {
      assert Judged(["a"], {0}, polls[i].polled, polls[i].outcome) && Answered(env, polls[i].at, polls[i].polled);
      ReadyPollCompletes(env, polls[i].at, polls[i].polled, polls[i].outcome);
    }
    assert polls[0].outcome.Completed?;
    SuccessByTheClock(env, ["a"], {0}, polls, r);
  }

  /** The wait itself, begun four turns before its context expires. */
  method LateSuccess(env: Env, w: World) returns (v: World, r: WaitError, ghost polls: seq<Poll>)
    requires ReadyEnv(env) && w.turn + 4 == env.timeout < env.parent
    ensures r.Nil() && v.log == w.log + Flatten(polls) && |polls| == 1
    ensures env.Expired(polls[0].End()) && !env.Expired(polls[0].End() - 1)
  {
    v, r, polls := WaitForClusterRestart(env, w, ["a"], {0});
    SuccessAfterExpiry(env, polls, r);
  }

  // ----- the wait does not depend on pods of other PodSets -----

  predicate SameOwnPods(podSets: seq<string>, x: Event, y: Event) {
    && x.PodsRead? && y.PodsRead? && x.pods.Got? && y.pods.Got?
    && PodsOf(x.pods.value, podSets) == PodsOf(y.pods.value, podSets)
  }

  /** The same reads, except that the listing may differ in pods of other PodSets. */
  predicate AgreeOnPods(podSets: seq<string>, a: seq<Event>, b: seq<Event>) {
    && |a| == |b|
    && (forall i | 1 <= i < |a| :: a[i] == b[i])
    && (a == [] || a[0] == b[0] || SameOwnPods(podSets, a[0], b[0]))
  }

  /** A pod recorded before the restart keeps its owners as long as it is seen. */
  ghost predicate KeepOwners(before: seq<Pod>, polled: seq<Event>) {
    polled != [] && polled[0].PodsRead? && polled[0].pods.Got? ==>
      forall p, q | p in before && q in polled[0].pods.value && p.uid == q.uid :: p.owners == q.owners
  }

  lemma LaterReadsAgree(podSets: seq<string>, a: seq<Event>, b: seq<Event>)
    requires AgreeOnPods(podSets, a, b) && |a| >= |podSets| + 1
    ensures a[1..|podSets| + 1] == b[1..|podSets| + 1] && a[|podSets| + 1..] == b[|podSets| + 1..]
  {
  }

  lemma ErrorsAgree(podSets: seq<string>, a: seq<Event>, b: seq<Event>, error: ApiError)
    requires AgreeOnPods(podSets, a, b)
    ensures StoppedAtError(a, error) <==> StoppedAtError(b, error)
  {
  }

  lemma RecordsAgree(podSets: seq<string>, before: seq<Pod>, a: seq<Event>, b: seq<Event>, expected: nat)
    requires AgreeOnPods(podSets, a, b) && KeepOwners(before, a) && a != [] && a[0].PodsRead? && a[0].pods.Got?
    ensures b[0].PodsRead? && b[0].pods.Got?
    ensures Replaced(PodsOf(a[0].pods.value, podSets), Uids(before), expected) <==>
            Replaced(PodsOf(b[0].pods.value, podSets), Uids(PodsOf(before, podSets)), expected)
  {
    OnlyOwnRecordsMatter(before, a[0].pods.value, podSets, expected);
  }

  /** What a poll concludes depends only on the pods of the awaited PodSets, among those listed now and among those
      recorded before the restart. */
  lemma PollIgnoresOthers(podSets: seq<string>, before: seq<Pod>, a: seq<Event>, b: seq<Event>, outcome: Outcome)
    requires AgreeOnPods(podSets, a, b) && KeepOwners(before, a)
    ensures PollComplete(podSets, Uids(before), a) <==> PollComplete(podSets, Uids(PodsOf(before, podSets)), b)
    ensures Judged(podSets, Uids(before), a, outcome) <==> Judged(podSets, Uids(PodsOf(before, podSets)), b, outcome)
  {
    if |a| >= |podSets| + 1 {
      LaterReadsAgree(podSets, a, b);
      if a[0].PodsRead? && a[0].pods.Got? {
        RecordsAgree(podSets, before, a, b, Wanted(a[1..|podSets| + 1]));
      }
    }
    if outcome.Errored? {
      ErrorsAgree(podSets, a, b, outcome.error);
    }
  }

  lemma AtErrorNotUnfinished(podSets: seq<string>, oldUids: set<nat>, polled: seq<Event>, error: ApiError)
    requires StoppedAtError(polled, error)
    ensures !PollUnfinished(podSets, oldUids, polled) && !PollComplete(podSets, oldUids, polled)
  {
    var n := |podSets|;
    if |polled| >= n + 1 {
      var last := polled[|polled| - 1];
      assert polled[1..n + 1] != [] ==> polled[1..n + 1][n - 1] == polled[n];
      assert polled[n + 1..] != [] ==> polled[n + 1..][|polled| - n - 2] == last;
    }
  }

  /** The reads of a poll leave only one conclusion. */
  lemma OneConclusion(podSets: seq<string>, oldUids: set<nat>, polled: seq<Event>, x: Outcome, y: Outcome)
    requires Judged(podSets, oldUids, polled, x) && Judged(podSets, oldUids, polled, y)
    ensures x == y
  {
    if x.Errored? {
      AtErrorNotUnfinished(podSets, oldUids, polled, x.error);
    }
    if y.Errored? {
      AtErrorNotUnfinished(podSets, oldUids, polled, y.error);
    }
  }

  /** Polls made at the same time read the same, except that the listings may differ in pods of other PodSets. */
  predicate AgreeingReads(podSets: seq<string>, polls: seq<Poll>, others: seq<Poll>) {
    forall i | 0 <= i < |polls| && i < |others| && polls[i].at == others[i].at ::
      AgreeOnPods(podSets, polls[i].polled, others[i].polled)
  }

  /** Two waits over the same PodSets, the second with only the records of those. */
  ghost predicate TwoWaits(env: Env, other: Env, podSets: seq<string>, before: seq<Pod>, polls: seq<Poll>, others: seq<Poll>,
                           r: WaitError, q: WaitError) {
    && Waited(podSets, Uids(before), polls, r) && Timed(env, polls) && StopsAt(env, polls, r)
    && Waited(podSets, Uids(PodsOf(before, podSets)), others, q) && Timed(other, others) && StopsAt(other, others, q)
    && env.timeout == other.timeout && env.parent == other.parent && polls[0].at == others[0].at
    && AgreeingReads(podSets, polls, others)
    && forall i | 0 <= i < |polls| :: KeepOwners(before, polls[i].polled)
  }

  lemma {:induction false} SamePolls(env: Env, other: Env, podSets: seq<string>, before: seq<Pod>, polls: seq<Poll>,
                                     others: seq<Poll>, r: WaitError, q: WaitError, i: nat)
    requires TwoWaits(env, other, podSets, before, polls, others, r, q) && i < |polls| && i < |others|
    ensures polls[i].at == others[i].at && polls[i].outcome == others[i].outcome && polls[i].expired == others[i].expired
    ensures |polls[i].polled| == |others[i].polled|
  {
    if i > 0 {
      SamePolls(env, other, podSets, before, polls, others, r, q, i - 1);
      assert Follows(env, polls[i - 1], polls[i]) && Follows(other, others[i - 1], others[i]);
    }
    var own := Uids(PodsOf(before, podSets));
    PollIgnoresOthers(podSets, before, polls[i].polled, others[i].polled, polls[i].outcome);
    OneConclusion(podSets, own, others[i].polled, polls[i].outcome, others[i].outcome);
    assert polls[i].expired <==> polls[i].outcome.Errored? && env.Expired(polls[i].End());
    assert others[i].expired <==> others[i].outcome.Errored? && other.Expired(others[i].End());
  }

  lemma {:induction false} SomeFirst(polls: seq<Poll>, k: nat)
    requires k < |polls| && LiveError(polls[k])
    ensures exists i | 0 <= i < |polls| :: FirstLiveAt(polls, i)
  {
    if j: nat :| j < k && LiveError(polls[j]) {
      SomeFirst(polls, j);
    } else {
      assert FirstLiveAt(polls, k);
    }
  }

  /** A wait ends with a poll exactly if that completes or the context has expired after it. */
  lemma EndsAt(env: Env, podSets: seq<string>, oldUids: set<nat>, polls: seq<Poll>, r: WaitError, i: nat)
    requires Waited(podSets, oldUids, polls, r) && Timed(env, polls) && StopsAt(env, polls, r) && i < |polls|
    ensures i == |polls| - 1 <==> polls[i].outcome.Completed? || env.Expired(polls[i].Tick())
  {
    if i < |polls| - 1 {
      assert Follows(env, polls[i], polls[i + 1]);
    }
  }

  lemma SameLength(env: Env, other: Env, podSets: seq<string>, before: seq<Pod>, polls: seq<Poll>, others: seq<Poll>,
                   r: WaitError, q: WaitError)
    requires TwoWaits(env, other, podSets, before, polls, others, r, q)
    ensures |polls| == |others|
  {
    var i: nat := (if |polls| < |others| then |polls| else |others|) - 1;
    SamePolls(env, other, podSets, before, polls, others, r, q, i);
    EndsAt(env, podSets, Uids(before), polls, r, i);
    EndsAt(other, podSets, Uids(PodsOf(before, podSets)), others, q, i);
  }

  lemma SameFirstError(polls: seq<Poll>, others: seq<Poll>, a: Option<ApiError>, b: Option<ApiError>)
    requires KeepsFirstError(polls, a) && KeepsFirstError(others, b) && |polls| == |others|
    requires forall i | 0 <= i < |polls| :: polls[i].outcome == others[i].outcome && polls[i].expired == others[i].expired
    ensures a == b && forall i | 0 <= i < |polls| :: polls[i].tripped == others[i].tripped
  {
    assert forall i | 0 <= i < |polls| :: LiveError(polls[i]) <==> LiveError(others[i]);
    assert forall i | 0 <= i < |polls| :: FirstLiveAt(polls, i) <==> FirstLiveAt(others, i);
    if k :| 0 <= k < |polls| && LiveError(polls[k]) {
      SomeFirst(polls, k);
    }
  }

  /** The result of the whole wait does not depend on pods of PodSets that are not awaited: neither on which of them are
      listed, nor on which of them were recorded before the restart. The two waits poll equally often, at the same times,
      with the same conclusions and trips. */
  lemma WaitIgnoresOthers(env: Env, other: Env, podSets: seq<string>, before: seq<Pod>, polls: seq<Poll>, others: seq<Poll>,
                          r: WaitError, q: WaitError)
    requires TwoWaits(env, other, podSets, before, polls, others, r, q)
    ensures r == q && |polls| == |others|
    ensures forall i | 0 <= i < |polls| :: others[i] == polls[i].(polled := others[i].polled)
  {
    SameLength(env, other, podSets, before, polls, others, r, q);
    forall i: nat | i < |polls|
      ensures polls[i].at == others[i].at && polls[i].outcome == others[i].outcome && polls[i].expired == others[i].expired
    {
      SamePolls(env, other, podSets, before, polls, others, r, q, i);
    }
    SamePolls(env, other, podSets, before, polls, others, r, q, |polls| - 1);
    SameFirstError(polls, others, r.apiError, q.apiError);
  }

  // ----- the restart of one cluster -----

  datatype Attempt = Attempt(name: string, answer: Option<ApiError>)

  /** A failed patch trips the run-wide stop at once. */
  function PatchEvents(patches: seq<Attempt>): seq<Event> {
    if patches == [] then []
    else
      var a := patches[|patches| - 1];
      PatchEvents(patches[..|patches| - 1]) + [Patched(a.name, a.answer)] +
      if a.answer.Some? then [Tripped(a.answer.value)] else []
  }

  predicate MayBeApplied(a: Attempt) { a.answer.None? || !MutationDefinitelyFailed(a.answer.value) }

  /** The PodSets that were, or may have been, annotated. */
  function Mutated(patches: seq<Attempt>): seq<string> {
    if patches == [] then []
    else Mutated(patches[..|patches| - 1]) + if MayBeApplied(patches[|patches| - 1]) then [patches[|patches| - 1].name] else []
  }

  function Rejections(patches: seq<Attempt>): seq<Attempt> {
    if patches == [] then []
    else Rejections(patches[..|patches| - 1]) + if patches[|patches| - 1].answer.Some? then [patches[|patches| - 1]] else []
  }

  lemma {:induction false} AllAcknowledged(patches: seq<Attempt>)
    ensures Rejections(patches) == [] <==> forall i | 0 <= i < |patches| :: patches[i].answer.None?
    ensures Rejections(patches) == [] ==> |Mutated(patches)| == |patches|
    ensures Rejections(patches) == [] ==> forall i | 0 <= i < |patches| :: Mutated(patches)[i] == patches[i].name
  {
    if patches != [] {
      var front := patches[..|patches| - 1];
      AllAcknowledged(front);
      assert forall i | 0 <= i < |front| :: front[i] == patches[i];
    }
  }

  method AnnotatePodSet(env: Env, w: World, name: string) returns (v: World, answer: Option<ApiError>)
    ensures v.turn == w.turn + 1 && v.log == w.log + [Patched(name, answer)] && answer == env.patches(w.turn)
  {
    answer := env.patches(w.turn);
    v := World(w.turn + 1, w.log + [Patched(name, answer)]);
  }

  /** Some failed patch may have been applied. */
  predicate AnyAmbiguous(patches: seq<Attempt>) {
    exists i | 0 <= i < |patches| :: patches[i].answer.Some? && MayBeApplied(patches[i])
  }

  lemma AmbiguousSnoc(patches: seq<Attempt>, a: Attempt)
    ensures AnyAmbiguous(patches + [a]) <==> AnyAmbiguous(patches) || (a.answer.Some? && MayBeApplied(a))
  {
    var longer := patches + [a];
    assert longer[|patches|] == a;
    assert forall i | 0 <= i < |patches| :: longer[i] == patches[i];
  }

  function NamesOf(patches: seq<Attempt>): seq<string> {
    seq(|patches|, i requires 0 <= i < |patches| => patches[i].name)
  }

  lemma NamesSnoc(patches: seq<Attempt>, a: Attempt)
    ensures NamesOf(patches + [a]) == NamesOf(patches) + [a.name]
  {
  }

  lemma OneMorePatch(log: seq<Event>, patches: seq<Attempt>, a: Attempt)
    ensures Rejections(patches + [a]) == Rejections(patches) + if a.answer.Some? then [a] else []
    ensures Mutated(patches + [a]) == Mutated(patches) + if MayBeApplied(a) then [a.name] else []
    ensures log + PatchEvents(patches + [a]) ==
            log + PatchEvents(patches) + [Patched(a.name, a.answer)] + if a.answer.Some? then [Tripped(a.answer.value)] else []
    ensures AnyAmbiguous(patches + [a]) <==> AnyAmbiguous(patches) || (a.answer.Some? && MayBeApplied(a))
    ensures NamesOf(patches + [a]) == NamesOf(patches) + [a.name]
  {
    AmbiguousSnoc(patches, a);
    NamesSnoc(patches, a);
    assert (patches + [a])[..|patches|] == patches;
    Assoc(log, PatchEvents(patches), [Patched(a.name, a.answer)]);
    Assoc(log, PatchEvents(patches) + [Patched(a.name, a.answer)], if a.answer.Some? then [Tripped(a.answer.value)] else []);
  }

  /** One patch after the other, each answered at its own moment from `turn` on. */
  predicate PatchesAnswered(env: Env, turn: nat, patches: seq<Attempt>) {
    forall i | 0 <= i < |patches| :: patches[i].answer == env.patches(turn + i)
  }

  lemma OneMoreAnswer(env: Env, turn: nat, patches: seq<Attempt>, a: Attempt)
    requires PatchesAnswered(env, turn, patches) && a.answer == env.patches(turn + |patches|)
    ensures PatchesAnswered(env, turn, patches + [a])
  {
  }

  method AnnotatePodSets(env: Env, w: World, podSets: seq<string>)
    returns (v: World, errs: seq<Attempt>, mutated: seq<string>, ambiguous: bool, ghost patches: seq<Attempt>)
    ensures v.log == w.log + PatchEvents(patches) && PatchesAnswered(env, w.turn, patches) && v.turn == w.turn + |patches|
    ensures NamesOf(patches) == podSets
    ensures errs == Rejections(patches) && mutated == Mutated(patches)
    ensures ambiguous <==> AnyAmbiguous(patches)
  {
    v, errs, mutated, ambiguous, patches := w, [], [], false, [];
    for i := 0 to |podSets|
      invariant v.log == w.log + PatchEvents(patches) && PatchesAnswered(env, w.turn, patches) && v.turn == w.turn + |patches|
      invariant NamesOf(patches) == podSets[..i]
      invariant errs == Rejections(patches) && mutated == Mutated(patches)
      invariant ambiguous <==> AnyAmbiguous(patches)
    {
      var answer;
      v, answer := AnnotatePodSet(env, v, podSets[i]);
      OneMorePatch(w.log, patches, Attempt(podSets[i], answer));
      OneMoreAnswer(env, w.turn, patches, Attempt(podSets[i], answer));
      patches := patches + [Attempt(podSets[i], answer)];
      TakeOneMore(podSets, i);
      if answer.Some? {
        errs := errs + [Attempt(podSets[i], answer)];
        v := v.(log := v.log + [Tripped(answer.value)]);
        if !MutationDefinitelyFailed(answer.value) {
          ambiguous := true;
          mutated := mutated + [podSets[i]];
        }
        continue;
      }
      mutated := mutated + [podSets[i]];
    }
    assert podSets[..|podSets|] == podSets;
  }

  datatype RestartError =
    | ListFailed(error: ApiError)
    | NoPodSets
    | RecordFailed(error: ApiError)
    | NoPods
    | Incomplete(rejected: seq<Attempt>, wait: WaitError, ambiguous: bool)

  /** The events of one cluster restart, in the order they happened. */
  datatype History = History(head: seq<Event>, patches: seq<Attempt>, polls: seq<Poll>) {
    function Events(): seq<Event> { head + PatchEvents(patches) + Flatten(polls) }
  }

  /** The reads before the first patch: the cluster's PodSets and, unless the wait is skipped, their pods. */
  ghost predicate Prepared(kafka: string, skipWait: bool, head: seq<Event>, podSets: seq<string>, oldUids: set<nat>) {
    && podSets != []
    && |head| == (if skipWait then 1 else 2)
    && head[0] == PodSetsListed(Got(podSets))
    && (!skipWait ==>
          && head[1].PodsRead? && head[1].pods.Got?
          && PodsOf(head[1].pods.value, podSets) != [] && oldUids == Uids(PodsOf(head[1].pods.value, podSets)))
  }

  /** Nothing was mutated, this restart did not trip the stop, and the reads show why it gave up. */
  ghost predicate GaveUpEarly(skipWait: bool, h: History, err: RestartError) {
    && h.patches == [] && h.polls == []
    && match err
       case ListFailed(error) => h.head == [PodSetsListed(Failed(error))]
       case NoPodSets => h.head == [PodSetsListed(Got([]))]
       case RecordFailed(error) =>
         !skipWait && |h.head| == 2 && h.head[0].PodSetsListed? && h.head[0].reply.Got? && h.head[1] == PodsRead(Failed(error))
       case NoPods =>
         && !skipWait && |h.head| == 2 && h.head[0].PodSetsListed? && h.head[0].reply.Got? && h.head[1].PodsRead? && h.head[1].pods.Got?
         && PodsOf(h.head[1].pods.value, h.head[0].reply.value) == []
       case Incomplete(_, _, _) => false
  }

  /** The first read is the listing at that moment, narrowed to the cluster's PodSets, the second the pods right after. */
  ghost predicate PreparedFrom(env: Env, turn: nat, kafka: string, head: seq<Event>) {
    && 1 <= |head| <= 2
    && head[0] == PodSetsListed(match env.podSetLists(turn)
                                case Failed(error) => Failed(error)
                                case Got(items) => Got(Sorted(Belonging(kafka, items))))
    && (|head| == 2 ==> head[1] == PodsRead(env.podLists(turn + 1)))
  }

  method Prepare(env: Env, w: World, kafka: string, skipWait: bool)
    returns (v: World, err: Option<RestartError>, podSets: seq<string>, oldUids: set<nat>, ghost head: seq<Event>)
    ensures v.log == w.log + head && v.turn == w.turn + |head|
    ensures err.None? ==> Prepared(kafka, skipWait, head, podSets, oldUids)
    ensures PreparedFrom(env, w.turn, kafka, head)
    ensures err.Some? ==> GaveUpEarly(skipWait, History(head, [], []), err.value)
  {
    err, podSets, oldUids := None, [], {};
    var listing := env.podSetLists(w.turn);
    if listing.Failed? {
      head := [PodSetsListed(Failed(listing.error))];
      return World(w.turn + 1, w.log + [PodSetsListed(Failed(listing.error))]), Some(ListFailed(listing.error)), [], {}, head;
    }
    podSets := SelectPodSets(kafka, listing.value);
    v, head := World(w.turn + 1, w.log + [PodSetsListed(Got(podSets))]), [PodSetsListed(Got(podSets))];
    if |podSets| == 0 {
      err := Some(NoPodSets);
      return;
    }
    if !skipWait {
      var reply;
      v, reply := ListPods(env, v);
      head := head + [PodsRead(reply)];
      if reply.Failed? {
        err := Some(RecordFailed(reply.error));
        return;
      }
      var own := KeepOwned(reply.value, podSets);
      oldUids := set p | p in own :: p.uid;
      if |own| == 0 {
        err := Some(NoPods);
      }
    }
  }

  /** How the wait of a restart ended; nothing to report if there was none. */
  function WaitOf(err: Option<RestartError>): WaitError {
    if err.Some? && err.value.Incomplete? then err.value.wait else WaitError(None, None)
  }

  /** What one cluster restart promises. */
  ghost predicate RestartOutcome(skipWait: bool, podSets: seq<string>, oldUids: set<nat>, h: History,
                                 err: Option<RestartError>) {
    var mutated := Mutated(h.patches);
    var wait := WaitOf(err);
    && (err.Some? ==> err.value.Incomplete?)
    // every PodSet is patched once, in order
    && NamesOf(h.patches) == podSets
    && (if mutated == [] || skipWait then h.polls == [] && wait.Nil() else Waited(mutated, oldUids, h.polls, wait))
    && (err.None? <==> Rejections(h.patches) == [] && wait.Nil())
    && (err.Some? ==>
          && err.value.rejected == Rejections(h.patches)
          && (err.value.ambiguous <==> AnyAmbiguous(h.patches)))
  }

  /** The requests of a restart that began at `turn`, in time: the reads, then the patches, then the polls, without delay. */
  ghost predicate InTime(env: Env, turn: nat, h: History, err: Option<RestartError>) {
    && PatchesAnswered(env, turn + |h.head|, h.patches)
    && Timed(env, h.polls)
    && (h.polls != [] ==> h.polls[0].at == turn + |h.head| + |h.patches| && StopsAt(env, h.polls, WaitOf(err)))
  }

  /** The wait for the PodSets that may have been annotated, if any. */
  method WaitUnlessSkipped(env: Env, w: World, mutated: seq<string>, oldUids: set<nat>, skipWait: bool)
    returns (v: World, wait: WaitError, ghost polls: seq<Poll>)
    ensures v.log == w.log + Flatten(polls) && w.turn <= v.turn
    ensures if mutated == [] || skipWait then polls == [] && wait.Nil() else Waited(mutated, oldUids, polls, wait)
    ensures polls != [] ==> Timed(env, polls) && polls[0].at == w.turn && StopsAt(env, polls, wait)
  {
    v, wait, polls := w, WaitError(None, None), [];
    if |mutated| > 0 && !skipWait {
      v, wait, polls := WaitForClusterRestart(env, w, mutated, oldUids);
    }
  }

  lemma OutcomeIs(skipWait: bool, podSets: seq<string>, oldUids: set<nat>, h: History, wait: WaitError)
    requires NamesOf(h.patches) == podSets
    requires if Mutated(h.patches) == [] || skipWait then h.polls == [] && wait.Nil() else Waited(Mutated(h.patches), oldUids, h.polls, wait)
    ensures RestartOutcome(skipWait, podSets, oldUids, h,
                           if Rejections(h.patches) == [] && wait.Nil() then None
                           else Some(Incomplete(Rejections(h.patches), wait, AnyAmbiguous(h.patches))))
  {
  }

  lemma NothingDelayed(env: Env, turn: nat, h: History, err: Option<RestartError>, wait: WaitError)
    requires PatchesAnswered(env, turn + |h.head|, h.patches) && WaitOf(err) == wait
    requires h.polls != [] ==>
               Timed(env, h.polls) && h.polls[0].at == turn + |h.head| + |h.patches| && StopsAt(env, h.polls, wait)
    ensures InTime(env, turn, h, err)
  {
  }

  method AnnotateAndWait(env: Env, w: World, podSets: seq<string>, oldUids: set<nat>, skipWait: bool,
                         ghost turn: nat, ghost head: seq<Event>)
    returns (v: World, err: Option<RestartError>, ghost h: History)
    requires w.turn == turn + |head|
    ensures h.head == head && v.log == w.log + PatchEvents(h.patches) + Flatten(h.polls) && w.turn <= v.turn
    ensures RestartOutcome(skipWait, podSets, oldUids, h, err)
    ensures InTime(env, turn, h, err)
  {
    var errs, mutated, ambiguous;
    ghost var patches, polls := [], [];
    v, errs, mutated, ambiguous, patches := AnnotatePodSets(env, w, podSets);
    var wait;
    v, wait, polls := WaitUnlessSkipped(env, v, mutated, oldUids, skipWait);
    err := None;
    if |errs| > 0 || !wait.Nil() {
      err := Some(Incomplete(errs, wait, ambiguous));
    }
    h := History(head, patches, polls);
    OutcomeIs(skipWait, podSets, oldUids, h, wait);
    NothingDelayed(env, turn, h, err, wait);
  }

  method RestartKafkaCluster(env: Env, w: World, kafka: string, skipWait: bool)
    returns (v: World, err: Option<RestartError>, ghost podSets: seq<string>, ghost oldUids: set<nat>, ghost h: History)
    ensures v.log == w.log + h.Events() && w.turn <= v.turn
    ensures PreparedFrom(env, w.turn, kafka, h.head)
    ensures InTime(env, w.turn, h, err)
    ensures if err.Some? && !err.value.Incomplete? then GaveUpEarly(skipWait, h, err.value)
            else Prepared(kafka, skipWait, h.head, podSets, oldUids) && RestartOutcome(skipWait, podSets, oldUids, h, err)
  {
    var names, uids;
    ghost var head;
    v, err, names, uids, head := Prepare(env, w, kafka, skipWait);
    podSets, oldUids, h := names, uids, History(head, [], []);
    assert h.Events() == head;
    if err.Some? {
      return;
    }
    v, err, h := AnnotateAndWait(env, v, names, uids, skipWait, w.turn, head);
    Assoc(w.log, head, PatchEvents(h.patches));
    Assoc(w.log, head + PatchEvents(h.patches), Flatten(h.polls));
  }

  /** The PodSets whose pods are awaited: those whose patch was not refused. */
  lemma {:induction false} AwaitedExactly(patches: seq<Attempt>, name: string)
    ensures name in Mutated(patches) <==>
            exists i | 0 <= i < |patches| ::
              patches[i].name == name &&
              (patches[i].answer.None? || patches[i].answer.value.Transport? || patches[i].answer.value.code < 400 ||
               patches[i].answer.value.code == 408 || patches[i].answer.value.code >= 500)
  {
    if patches != [] {
      AwaitedExactly(patches[..|patches| - 1], name);
      assert forall i | 0 <= i < |patches| - 1 :: patches[..|patches| - 1][i] == patches[i];
    }
  }

  /** All patches of a restart were acknowledged exactly if every PodSet has an acknowledged one. */
  lemma AllPodSetsPatched(patches: seq<Attempt>, podSets: seq<string>)
    requires NamesOf(patches) == podSets
    ensures Rejections(patches) == [] <==> forall i | 0 <= i < |podSets| :: patches[i] == Attempt(podSets[i], None)
    ensures Rejections(patches) == [] ==> Mutated(patches) == podSets
  {
    AllAcknowledged(patches);
    assert forall i | 0 <= i < |patches| :: patches[i].name == podSets[i];
  }

  /** A nil result: every PodSet of the cluster had its patch acknowledged and, unless the wait is skipped, one single
      poll saw all of them completely rolled; and this restart did not trip the stop. */
  lemma SuccessMeans(kafka: string, skipWait: bool, podSets: seq<string>, oldUids: set<nat>, h: History,
                     err: Option<RestartError>)
    requires Prepared(kafka, skipWait, h.head, podSets, oldUids) && RestartOutcome(skipWait, podSets, oldUids, h, err)
    ensures err.None? <==>
              && (forall i | 0 <= i < |podSets| :: h.patches[i] == Attempt(podSets[i], None))
              && (!skipWait ==>
                    && h.polls != [] && ShowsComplete(podSets, oldUids, h.polls[|h.polls| - 1].polled)
                    && forall i | 0 <= i < |h.polls| :: !LiveError(h.polls[i]))
  {
    AllPodSetsPatched(h.patches, podSets);
    if Rejections(h.patches) == [] && !skipWait {
      WaitSucceeds(podSets, oldUids, h.polls, WaitOf(err));
      CompleteExactly(podSets, oldUids, h.polls[|h.polls| - 1].polled);
    }
  }

  predicate AnyTrip(events: seq<Event>) { exists e | e in events :: e.Tripped? }

  lemma AnyTripConcat(a: seq<Event>, b: seq<Event>)
    ensures AnyTrip(a + b) <==> AnyTrip(a) || AnyTrip(b)
  {
    if e :| e in a && e.Tripped? {
      assert e in a + b;
    }
    if e :| e in b && e.Tripped? {
      assert e in a + b;
    }
  }

  lemma {:induction false} TripsOfPatches(patches: seq<Attempt>)
    ensures AnyTrip(PatchEvents(patches)) <==> Rejections(patches) != []
  {
    if patches != [] {
      var front := patches[..|patches| - 1];
      var a := patches[|patches| - 1];
      TripsOfPatches(front);
      AnyTripConcat(PatchEvents(front), [Patched(a.name, a.answer)]);
      AnyTripConcat(PatchEvents(front) + [Patched(a.name, a.answer)], if a.answer.Some? then [Tripped(a.answer.value)] else []);
      assert a.answer.Some? ==> Tripped(a.answer.value) in [Tripped(a.answer.value)];
    }
  }

  /** Some poll tripped the stop. */
  predicate AnyTripped(polls: seq<Poll>) { exists i | 0 <= i < |polls| :: polls[i].tripped && polls[i].outcome.Errored? }

  lemma AnyTrippedSplit(polls: seq<Poll>)
    requires polls != []
    ensures var p := polls[|polls| - 1];
            AnyTripped(polls) <==> AnyTripped(polls[..|polls| - 1]) || (p.tripped && p.outcome.Errored?)
  {
    var front := polls[..|polls| - 1];
    assert forall i | 0 <= i < |front| :: front[i] == polls[i];
  }

  lemma TripsOfPoll(p: Poll)
    requires OnlyReads(p.polled)
    ensures AnyTrip(EventsOf(p)) <==> p.tripped && p.outcome.Errored?
  {
    if p.tripped && p.outcome.Errored? {
      assert Tripped(p.outcome.error) in EventsOf(p);
    }
  }

  lemma {:induction false} TripsOfPolls(podSets: seq<string>, oldUids: set<nat>, polls: seq<Poll>)
    requires HonestPolls(podSets, oldUids, polls)
    ensures AnyTrip(Flatten(polls)) <==> AnyTripped(polls)
  {
    if polls != [] {
      var front, p := polls[..|polls| - 1], polls[|polls| - 1];
      assert forall i | 0 <= i < |front| :: front[i] == polls[i];
      TripsOfPolls(podSets, oldUids, front);
      AnyTripConcat(Flatten(front), EventsOf(p));
      TripsOfPoll(p);
      AnyTrippedSplit(polls);
    }
  }

  /** A wait trips the stop exactly if it has an API error in time to report. */
  lemma WaitTrips(podSets: seq<string>, oldUids: set<nat>, polls: seq<Poll>, r: WaitError)
    requires Waited(podSets, oldUids, polls, r)
    ensures AnyTrip(Flatten(polls)) <==> r.apiError.Some?
  {
    TripsOfPolls(podSets, oldUids, polls);
    if r.apiError.Some? {
      var k :| 0 <= k < |polls| && LiveError(polls[k]);
      SomeFirst(polls, k);
      var i :| 0 <= i < |polls| && FirstLiveAt(polls, i);
      assert polls[i].tripped && polls[i].outcome.Errored?;
    } else {
      assert forall i | 0 <= i < |polls| :: polls[i].tripped <==> FirstLiveAt(polls, i);
    }
  }

  lemma PreparingTripsNothing(kafka: string, skipWait: bool, head: seq<Event>, podSets: seq<string>, oldUids: set<nat>)
    requires Prepared(kafka, skipWait, head, podSets, oldUids)
    ensures !AnyTrip(head)
  {
  }

  /** The restart trips the stop itself exactly if a patch failed or the wait had an API error in time. */
  lemma TripsExactly(kafka: string, skipWait: bool, podSets: seq<string>, oldUids: set<nat>, h: History,
                     err: Option<RestartError>)
    requires Prepared(kafka, skipWait, h.head, podSets, oldUids) && RestartOutcome(skipWait, podSets, oldUids, h, err)
    ensures AnyTrip(h.Events()) <==> Rejections(h.patches) != [] || (err.Some? && err.value.wait.apiError.Some?)
  {
    AnyTripConcat(h.head + PatchEvents(h.patches), Flatten(h.polls));
    AnyTripConcat(h.head, PatchEvents(h.patches));
    PreparingTripsNothing(kafka, skipWait, h.head, podSets, oldUids);
    TripsOfPatches(h.patches);
    if h.polls != [] {
      WaitTrips(Mutated(h.patches), oldUids, h.polls, WaitOf(err));
    }
  }

  /** A restart that trips the stop itself also reports an error: the launcher's jobs keep the discipline that the
      agreement of errors and stop rests on. */
  lemma TripMeansError(kafka: string, skipWait: bool, podSets: seq<string>, oldUids: set<nat>, h: History,
                       err: Option<RestartError>)
    requires Prepared(kafka, skipWait, h.head, podSets, oldUids) && RestartOutcome(skipWait, podSets, oldUids, h, err)
    requires AnyTrip(h.Events())
    ensures err.Some?
  {
    TripsExactly(kafka, skipWait, podSets, oldUids, h, err);
  }

  /** The converse fails, and exactly here: every patch was acknowledged, no poll had an API error in time, and the wait
      ended without a complete poll. */
  lemma ErrorWithoutTrip(kafka: string, skipWait: bool, podSets: seq<string>, oldUids: set<nat>, h: History,
                         err: Option<RestartError>)
    requires Prepared(kafka, skipWait, h.head, podSets, oldUids) && RestartOutcome(skipWait, podSets, oldUids, h, err)
    ensures err.Some? && !AnyTrip(h.Events()) <==>
              && (forall i | 0 <= i < |h.patches| :: h.patches[i].answer.None?)
              && h.polls != [] && !h.polls[|h.polls| - 1].outcome.Completed?
              && forall i | 0 <= i < |h.polls| :: !LiveError(h.polls[i])
    ensures err.Some? && !AnyTrip(h.Events()) <==>
              && (forall i | 0 <= i < |h.patches| :: h.patches[i].answer.None?)
              && err.Some? && err.value.wait.apiError.None? && err.value.wait.stopped.Some?
  {
    AllAcknowledged(h.patches);
    TripsExactly(kafka, skipWait, podSets, oldUids, h, err);
  }

  /** Giving up before the first patch never trips the stop. */
  lemma GivingUpTripsNothing(skipWait: bool, h: History, err: RestartError)
    requires GaveUpEarly(skipWait, h, err)
    ensures !AnyTrip(h.Events())
  {
    assert h.Events() == h.head;
  }

  /** For example when the PodSets cannot be listed: the restart fails, and only the launcher trips the stop. */
  method FailedListing(env: Env, w: World, kafka: string, skipWait: bool)
    returns (v: World, err: Option<RestartError>, ghost h: History)
    requires env.podSetLists(w.turn).Failed?
    ensures err == Some(ListFailed(env.podSetLists(w.turn).error))
    ensures v.log == w.log + h.Events() && !AnyTrip(h.Events())
  {
    ghost var podSets, oldUids;
    v, err, podSets, oldUids, h := RestartKafkaCluster(env, w, kafka, skipWait);
    GivingUpTripsNothing(skipWait, h, err.value);
  }

  /** After a partial patch failure the stop is already tripped when the wait begins, and the restart reports an error. */
  lemma TrippedBeforeWaiting(kafka: string, skipWait: bool, podSets: seq<string>, oldUids: set<nat>, h: History,
                             err: Option<RestartError>)
    requires Prepared(kafka, skipWait, h.head, podSets, oldUids) && RestartOutcome(skipWait, podSets, oldUids, h, err)
    requires exists i | 0 <= i < |h.patches| :: h.patches[i].answer.Some?
    ensures AnyTrip(PatchEvents(h.patches))
    ensures err.Some?
  {
    AllAcknowledged(h.patches);
    TripsOfPatches(h.patches);
  }
}
