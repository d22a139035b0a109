/** Which Deployments of a namespace are restarted: Flagger relationship, age, ownership of matching pods, paused. */
module Selection {
  import opened Common

  datatype OwnerRef = OwnerRef(apiVersion: string, kind: string, uid: nat, controller: Option<bool>)

  datatype Deployment = Deployment(name: string, uid: nat, age: int, paused: bool, owners: seq<OwnerRef>)

  datatype ReplicaSet = ReplicaSet(uid: nat, owners: seq<OwnerRef>)

  datatype Pod = Pod(labels: map<string, string>, annotations: map<string, string>, owners: seq<OwnerRef>,
                     containers: seq<string>, initContainers: seq<string>, ephemeralContainers: seq<string>)

  datatype Options = Options(noFlagger: bool, minAge: Option<int>, labels: map<string, string>,
                             annotations: map<string, string>, images: seq<string>)

  datatype Reply<+T> = Got(value: T) | Failed(error: ApiError)

  /** What the three List calls of one namespace answer. */
  datatype Lists = Lists(deployments: Reply<seq<Deployment>>, pods: Reply<seq<Pod>>, replicaSets: Reply<seq<ReplicaSet>>)

  // ----- pod filters -----

  predicate Meets(actual: map<string, string>, required: map<string, string>) {
    forall k | k in required :: k in actual && actual[k] == required[k]
  }

  method MatchesRequirements(actual: map<string, string>, required: map<string, string>) returns (r: bool)
    ensures r <==> Meets(actual, required)
  {
    var rest := required.Keys;
    while rest != {}
      invariant forall k | k in rest :: k in required
      invariant forall k | k in required && k !in rest :: k in actual && actual[k] == required[k]
    {
      var key :| key in rest;
      if key !in actual || actual[key] != required[key] {
        return false;
      }
      rest := rest - {key};
    }
    return true;
  }

  predicate Contains(text: string, sub: string) {
    exists i | 0 <= i <= |text| :: sub <= text[i..]
  }

  /** A text contains another if it is that with something before and something after it. */
  lemma ContainsMeans(text: string, sub: string)
    ensures Contains(text, sub) <==> exists before: string, after: string :: text == before + sub + after
  {
    if i :| 0 <= i <= |text| && sub <= text[i..] {
      assert text == text[..i] + sub + text[i + |sub|..];
    }
    if before: string, after: string :| text == before + sub + after {
      assert text[|before|..] == sub + after;
    }
  }

  /** Some container image contains some non-empty requested substring; without one the filter is inactive. */
  ghost predicate MatchesAnyImage(pod: Pod, images: seq<string>) {
    || (forall s | s in images :: s == "")
    || exists img, s | s in images && (img in pod.containers || img in pod.initContainers || img in pod.ephemeralContainers) ::
         s != "" && Contains(img, s)
  }

  method NonEmptyStrings(items: seq<string>) returns (out: seq<string>)
    ensures forall s :: s in out <==> s in items && s != ""
  {
    out := [];
    for i := 0 to |items|
      invariant forall s :: s in out <==> s in items[..i] && s != ""
    {
      if items[i] != "" {
        out := out + [items[i]];
      }
    }
  }

  method PodMatchesAnyImage(pod: Pod, substrings: seq<string>) returns (r: bool)
    ensures r <==> MatchesAnyImage(pod, substrings)
  {
    var wanted := NonEmptyStrings(substrings);
    if |wanted| == 0 {
      assert forall s | s in substrings :: s != "" ==> s in wanted;
      return true;
    }
    assert wanted[0] in wanted;
    var images := pod.containers + pod.initContainers + pod.ephemeralContainers;
    for i := 0 to |images|
      invariant forall j, s | 0 <= j < i && s in wanted :: !Contains(images[j], s)
    {
      for k := 0 to |wanted|
        invariant forall l | 0 <= l < k :: !Contains(images[i], wanted[l])
      {
        if Contains(images[i], wanted[k]) {
          assert wanted[k] in substrings && images[i] in images;
          return true;
        }
      }
    }
    forall img, s | img in images && s in wanted
      ensures !Contains(img, s)
    {
      var j :| 0 <= j < |images| && images[j] == img;
    }
    assert forall img :: img in images <==> img in pod.containers || img in pod.initContainers || img in pod.ephemeralContainers;
    assert forall s | s in substrings && s != "" :: s in wanted;
    return false;
  }

  ghost predicate PodMatches(o: Options, pod: Pod) {
    Meets(pod.labels, o.labels) && Meets(pod.annotations, o.annotations) && MatchesAnyImage(pod, o.images)
  }

  method PodMatchesFilters(o: Options, pod: Pod) returns (r: bool)
    ensures r <==> PodMatches(o, pod)
  {
    r := MatchesRequirements(pod.labels, o.labels);
    if r {
      r := MatchesRequirements(pod.annotations, o.annotations);
    }
    if r {
      r := PodMatchesAnyImage(pod, o.images);
    }
  }

  ghost predicate Filtering(o: Options) {
    o.labels != map[] || o.annotations != map[] || exists s | s in o.images :: s != ""
  }

  method HasPodFilters(o: Options) returns (r: bool)
    ensures r <==> Filtering(o)
  {
    var images := NonEmptyStrings(o.images);
    r := |o.labels| > 0 || |o.annotations| > 0 || |images| > 0;
    if |images| > 0 {
      assert images[0] in images;
    }
  }

  // ----- ownership -----

  /** The first owner that is marked as the controller. */
  predicate FirstController(owners: seq<OwnerRef>, i: nat)
    requires i < |owners|
  {
    owners[i].controller == Some(true) && forall j | 0 <= j < i :: owners[j].controller != Some(true)
  }

  /** The managing controller is the first owner marked as such. */
  function ControllerOf(owners: seq<OwnerRef>): (r: Option<OwnerRef>)
    ensures r.Some? ==> exists i | 0 <= i < |owners| :: FirstController(owners, i) && owners[i] == r.value
    ensures r.None? ==> forall o | o in owners :: o.controller != Some(true)
  {
    if owners == [] then None
    else if owners[0].controller == Some(true) then
      assert FirstController(owners, 0);
      Some(owners[0])
    else
      var r := ControllerOf(owners[1..]);
      assert forall i | 0 <= i < |owners[1..]| && FirstController(owners[1..], i) :: FirstController(owners, i + 1);
      r
  }

  predicate ControlledBy(owners: seq<OwnerRef>, kind: string, uid: nat) {
    var c := ControllerOf(owners);
    c.Some? && c.value.kind == kind && c.value.uid == uid
  }

  ghost predicate OwnsMatchingPod(o: Options, pods: seq<Pod>, replicaSets: seq<ReplicaSet>, uid: nat) {
    exists p, r | p in pods && r in replicaSets ::
      PodMatches(o, p) && ControlledBy(p.owners, "ReplicaSet", r.uid) && ControlledBy(r.owners, "Deployment", uid)
  }

  ghost predicate SomeMatchingReplicaSet(o: Options, pods: seq<Pod>) {
    exists p, u | p in pods :: PodMatches(o, p) && ControlledBy(p.owners, "ReplicaSet", u)
  }

  method MatchingReplicaSets(o: Options, pods: seq<Pod>) returns (uids: set<nat>)
    ensures forall u :: u in uids <==> exists p | p in pods :: PodMatches(o, p) && ControlledBy(p.owners, "ReplicaSet", u)
  {
    uids := {};
    for i := 0 to |pods|
      invariant forall u :: u in uids <==> exists p | p in pods[..i] :: PodMatches(o, p) && ControlledBy(p.owners, "ReplicaSet", u)
    {
      var m := PodMatchesFilters(o, pods[i]);
      var c := ControllerOf(pods[i].owners);
      ghost var before := uids;
      if m && c.Some? && c.value.kind == "ReplicaSet" {
        uids := uids + {c.value.uid};
      }
      assert pods[..i + 1] == pods[..i] + [pods[i]];
      forall u
        ensures u in uids <==> exists p | p in pods[..i + 1] :: PodMatches(o, p) && ControlledBy(p.owners, "ReplicaSet", u)
      {
        if u in uids && u !in before {
          assert pods[i] in pods[..i + 1];
        }
      }
    }
    assert pods[..|pods|] == pods;
  }

  lemma SomeMatch(o: Options, pods: seq<Pod>, uids: set<nat>)
    requires forall u :: u in uids <==> exists p | p in pods :: PodMatches(o, p) && ControlledBy(p.owners, "ReplicaSet", u)
    ensures uids != {} <==> SomeMatchingReplicaSet(o, pods)
  {
    if SomeMatchingReplicaSet(o, pods) {
      var p, u :| p in pods && PodMatches(o, p) && ControlledBy(p.owners, "ReplicaSet", u);
      assert u in uids;
    }
    if uids != {} {
      var u :| u in uids;
    }
  }

  /** The UIDs of the Deployments that control, through a ReplicaSet, at least one matching pod. */
  method DeploymentsWithMatchingPods(o: Options, lists: Lists) returns (r: Reply<set<nat>>)
    ensures r.Failed? <==> lists.pods.Failed? || (SomeMatchingReplicaSet(o, lists.pods.value) && lists.replicaSets.Failed?)
    ensures r.Got? ==> forall u :: u in r.value <==>
              lists.replicaSets.Got? && OwnsMatchingPod(o, lists.pods.value, lists.replicaSets.value, u)
  {
    if lists.pods.Failed? {
      return Failed(lists.pods.error);
    }
    var pods := lists.pods.value;
    var matching := MatchingReplicaSets(o, pods);
    SomeMatch(o, pods, matching);
    if matching == {} {
      if lists.replicaSets.Got? {
        forall u
          ensures !OwnsMatchingPod(o, pods, lists.replicaSets.value, u)
        {
        }
      }
      return Got({});
    }
    if lists.replicaSets.Failed? {
      return Failed(lists.replicaSets.error);
    }
    var replicaSets := lists.replicaSets.value;
    var uids := {};
    for i := 0 to |replicaSets|
      invariant forall u :: u in uids <==> OwnsMatchingPod(o, pods, replicaSets[..i], u)
    {
      var c := ControllerOf(replicaSets[i].owners);
      ghost var before := uids;
      if replicaSets[i].uid in matching && c.Some? && c.value.kind == "Deployment" {
        uids := uids + {c.value.uid};
      }
      assert replicaSets[..i + 1] == replicaSets[..i] + [replicaSets[i]];
      forall u
        ensures u in uids <==> OwnsMatchingPod(o, pods, replicaSets[..i + 1], u)
      {
        if u in before {
          assert OwnsMatchingPod(o, pods, replicaSets[..i], u);
        } else if u in uids {
          assert replicaSets[i] in replicaSets[..i + 1];
        }
      }
    }
    assert replicaSets[..|replicaSets|] == replicaSets;
    return Got(uids);
  }

  // ----- the Flagger relationship -----

  const PRIMARY_SUFFIX := "-primary"

  predicate HasSuffix(s: string, suffix: string) { |suffix| <= |s| && s[|s| - |suffix|..] == suffix }

  predicate HasCanaryOwner(d: Deployment) {
    exists r | r in d.owners :: r.apiVersion == "flagger.app/v1beta1" && r.kind == "Canary" && r.controller == Some(true)
  }

  predicate IsFlaggerPrimary(d: Deployment) { HasSuffix(d.name, PRIMARY_SUFFIX) && HasCanaryOwner(d) }

  ghost predicate PrimaryNamed(all: seq<Deployment>, name: string) {
    exists d | d in all :: d.name == name && IsFlaggerPrimary(d)
  }

  method FlaggerPrimaries(all: seq<Deployment>) returns (names: set<string>)
    ensures forall n :: n in names <==> PrimaryNamed(all, n)
  {
    names := {};
    for i := 0 to |all|
      invariant forall n :: n in names <==> PrimaryNamed(all[..i], n)
    {
      ghost var before := names;
      if IsFlaggerPrimary(all[i]) {
        names := names + {all[i].name};
      }
      assert all[..i + 1] == all[..i] + [all[i]];
      forall n
        ensures n in names <==> PrimaryNamed(all[..i + 1], n)
      {
        if n in before {
          assert PrimaryNamed(all[..i], n);
        } else if n in names {
          assert all[i] in all[..i + 1];
        }
      }
    }
    assert all[..|all|] == all;
  }

  // ----- the classification of one Deployment -----

  /** Its Flagger primary exists in the namespace, so Flagger manages what is to be restarted. */
  ghost predicate Shadowed(o: Options, all: seq<Deployment>, d: Deployment) {
    !o.noFlagger && !PrimaryNamed(all, d.name) && PrimaryNamed(all, d.name + PRIMARY_SUFFIX)
  }

  predicate Young(o: Options, d: Deployment) { o.minAge.Some? && d.age < o.minAge.value }

  /** The pod filters, if any, accept it. */
  ghost predicate Accepted(o: Options, lists: Lists, d: Deployment) {
    Filtering(o) ==> lists.pods.Got? && lists.replicaSets.Got? && OwnsMatchingPod(o, lists.pods.value, lists.replicaSets.value, d.uid)
  }

  datatype Class = HasPrimary | TooYoung | NoMatchingPods | Paused | Selected

  ghost function ClassOf(o: Options, lists: Lists, all: seq<Deployment>, d: Deployment): Class {
    if Shadowed(o, all, d) then HasPrimary
    else if Young(o, d) then TooYoung
    else if !Accepted(o, lists, d) then NoMatchingPods
    else if d.paused then Paused
    else Selected
  }

  type Sorting = Deployment -> Class

  ghost function Sort(o: Options, lists: Lists, all: seq<Deployment>): (f: Sorting) {
    d => ClassOf(o, lists, all, d)
  }

  /** The Deployments of some classes, in the order they were listed. */
  ghost function Pick(f: Sorting, classes: set<Class>, s: seq<Deployment>): seq<Deployment> {
    if s == [] then []
    else Pick(f, classes, s[..|s| - 1]) + if f(s[|s| - 1]) in classes then [s[|s| - 1]] else []
  }

  lemma PickSnoc(f: Sorting, classes: set<Class>, s: seq<Deployment>, d: Deployment)
    ensures Pick(f, classes, s + [d]) == Pick(f, classes, s) + if f(d) in classes then [d] else []
  {
    assert (s + [d])[..|s|] == s;
  }

  lemma {:induction false} PickMembers(f: Sorting, classes: set<Class>, s: seq<Deployment>)
    ensures forall d :: d in Pick(f, classes, s) <==> d in s && f(d) in classes
  {
    if s != [] {
      PickMembers(f, classes, s[..|s| - 1]);
      assert s == s[..|s| - 1] + [s[|s| - 1]];
    }
  }

  lemma {:induction false} PickPick(f: Sorting, a: set<Class>, b: set<Class>, s: seq<Deployment>)
    ensures Pick(f, a, Pick(f, b, s)) == Pick(f, a * b, s)
  {
    if s != [] {
      var front, d := s[..|s| - 1], s[|s| - 1];
      PickPick(f, a, b, front);
      if f(d) in b {
        PickSnoc(f, a, Pick(f, b, front), d);
      } else {
        assert Pick(f, b, s) == Pick(f, b, front);
      }
      assert Pick(f, a * b, s) == Pick(f, a * b, front) + if f(d) in a * b then [d] else [];
    }
  }

  lemma {:induction false} PickUnion(f: Sorting, a: set<Class>, b: set<Class>, s: seq<Deployment>)
    requires a !! b
    ensures multiset(Pick(f, a, s)) + multiset(Pick(f, b, s)) == multiset(Pick(f, a + b, s))
  {
    if s != [] {
      PickUnion(f, a, b, s[..|s| - 1]);
    }
  }

  lemma {:induction false} PickAll(f: Sorting, s: seq<Deployment>)
    ensures Pick(f, {HasPrimary, TooYoung, NoMatchingPods, Paused, Selected}, s) == s
  {
    if s != [] {
      PickAll(f, s[..|s| - 1]);
      var c := f(s[|s| - 1]);
      assert c.HasPrimary? || c.TooYoung? || c.NoMatchingPods? || c.Paused? || c.Selected?;
    }
  }

  /** Nothing is lost or counted twice: the five classes split the listed Deployments. */
  lemma ClassesPartition(f: Sorting, s: seq<Deployment>)
    ensures multiset(Pick(f, {HasPrimary}, s)) + multiset(Pick(f, {TooYoung}, s)) + multiset(Pick(f, {NoMatchingPods}, s)) +
            multiset(Pick(f, {Paused}, s)) + multiset(Pick(f, {Selected}, s)) == multiset(s)
  {
    PickUnion(f, {HasPrimary}, {TooYoung}, s);
    PickUnion(f, {HasPrimary} + {TooYoung}, {NoMatchingPods}, s);
    PickUnion(f, {HasPrimary} + {TooYoung} + {NoMatchingPods}, {Paused}, s);
    PickUnion(f, {HasPrimary} + {TooYoung} + {NoMatchingPods} + {Paused}, {Selected}, s);
    assert {HasPrimary} + {TooYoung} + {NoMatchingPods} + {Paused} + {Selected} == {HasPrimary, TooYoung, NoMatchingPods, Paused, Selected};
    PickAll(f, s);
  }

  // ----- the selection -----

  datatype Cause = FilterDisabled | FlaggerPrimary | NoPrimary

  datatype Candidate = Candidate(deployment: Deployment, cause: Cause)

  function Plain(candidates: seq<Candidate>): seq<Deployment> {
    seq(|candidates|, i requires 0 <= i < |candidates| => candidates[i].deployment)
  }

  ghost predicate CauseRight(o: Options, all: seq<Deployment>, c: Candidate) {
    c.cause == if o.noFlagger then FilterDisabled else if PrimaryNamed(all, c.deployment.name) then FlaggerPrimary else NoPrimary
  }

  function Names(s: seq<Deployment>): seq<string> { seq(|s|, i requires 0 <= i < |s| => s[i].name) }

  datatype Chosen = Chosen(total: nat, toRestart: seq<Candidate>, hasPrimary: seq<string>, tooYoung: seq<Deployment>,
                           noMatchingPods: seq<string>, paused: seq<string>)

  const LATE: set<Class> := {NoMatchingPods, Paused, Selected}

  /** The Flagger relationship and the age of one Deployment: its class, or none while it is still a candidate. */
  method FirstFilter(o: Options, ghost lists: Lists, ghost all: seq<Deployment>, primaries: set<string>,
                     d: Deployment, ghost f: Sorting)
    returns (early: Option<Class>, cause: Cause)
    requires f == Sort(o, lists, all)
    requires !o.noFlagger ==> forall n :: n in primaries <==> PrimaryNamed(all, n)
    ensures early == if f(d) in LATE then None else Some(f(d))
    ensures early.None? ==> CauseRight(o, all, Candidate(d, cause))
  {
    cause := NoPrimary;
    if o.noFlagger {
      cause := FilterDisabled;
    } else if d.name in primaries {
      cause := FlaggerPrimary;
    } else if d.name + PRIMARY_SUFFIX in primaries {
      return Some(HasPrimary), cause;
    }
    early := if Young(o, d) then Some(TooYoung) else None;
  }

  lemma PlainSnoc(candidates: seq<Candidate>, c: Candidate)
    ensures Plain(candidates + [c]) == Plain(candidates) + [c.deployment]
  {
  }

  lemma NamesSnoc(s: seq<Deployment>, d: Deployment)
    ensures Names(s + [d]) == Names(s) + [d.name]
  {
  }

  /** The outcome of the first filters for the Deployments `s`. */
  ghost predicate FilteredSoFar(o: Options, all: seq<Deployment>, f: Sorting, s: seq<Deployment>,
                                candidates: seq<Candidate>, hasPrimary: seq<string>, tooYoung: seq<Deployment>)
  {
    && Plain(candidates) == Pick(f, LATE, s)
    && (forall c | c in candidates :: CauseRight(o, all, c))
    && hasPrimary == Names(Pick(f, {HasPrimary}, s))
    && tooYoung == Pick(f, {TooYoung}, s)
  }

  lemma FilterStep(o: Options, all: seq<Deployment>, f: Sorting, s: seq<Deployment>, candidates: seq<Candidate>,
                   hasPrimary: seq<string>, tooYoung: seq<Deployment>, d: Deployment, cause: Cause)
    requires FilteredSoFar(o, all, f, s, candidates, hasPrimary, tooYoung)
    requires f(d) in LATE ==> CauseRight(o, all, Candidate(d, cause))
    ensures match f(d)
            case HasPrimary => FilteredSoFar(o, all, f, s + [d], candidates, hasPrimary + [d.name], tooYoung)
            case TooYoung => FilteredSoFar(o, all, f, s + [d], candidates, hasPrimary, tooYoung + [d])
            case _ => FilteredSoFar(o, all, f, s + [d], candidates + [Candidate(d, cause)], hasPrimary, tooYoung)
  {
    PickSnoc(f, LATE, s, d);
    PickSnoc(f, {HasPrimary}, s, d);
    PickSnoc(f, {TooYoung}, s, d);
    PlainSnoc(candidates, Candidate(d, cause));
    NamesSnoc(Pick(f, {HasPrimary}, s), d);
  }

  /** Flagger classification and the cheap filters; the remaining candidates go into the array. */
  method FirstFilters(o: Options, ghost lists: Lists, all: seq<Deployment>, candidates: array<Candidate>,
                      ghost f: Sorting)
    returns (n: nat, hasPrimary: seq<string>, tooYoung: seq<Deployment>)
    requires candidates.Length == |all| && f == Sort(o, lists, all)
    modifies candidates
    ensures n <= candidates.Length && FilteredSoFar(o, all, f, all, candidates[..n], hasPrimary, tooYoung)
  {
    var primaries := {};
    if !o.noFlagger {
      primaries := FlaggerPrimaries(all);
    }
    n, hasPrimary, tooYoung := 0, [], [];
    for i := 0 to |all|
      invariant n <= i && FilteredSoFar(o, all, f, all[..i], candidates[..n], hasPrimary, tooYoung)
    {
      var early, cause := FirstFilter(o, lists, all, primaries, all[i], f);
      assert all[..i + 1] == all[..i] + [all[i]];
      FilterStep(o, all, f, all[..i], candidates[..n], hasPrimary, tooYoung, all[i], cause);
      if early == Some(HasPrimary) {
        hasPrimary := hasPrimary + [all[i].name];
        continue;
      }
      if early == Some(TooYoung) {
        tooYoung := tooYoung + [all[i]];
        continue;
      }
      ghost var before := candidates[..n];
      candidates[n] := Candidate(all[i], cause);
      assert candidates[..n + 1] == before + [candidates[n]];
      n := n + 1;
    }
    assert all[..|all|] == all;
  }

  /** The outcome of the pod filters for the candidates `s`. */
  ghost predicate CompactedSoFar(f: Sorting, s: seq<Candidate>, kept: seq<Candidate>, dropped: seq<string>) {
    && Plain(kept) == Pick(f, {Paused, Selected}, Plain(s))
    && (forall c | c in kept :: c in s)
    && dropped == Names(Pick(f, {NoMatchingPods}, Plain(s)))
  }

  lemma CompactStep(f: Sorting, s: seq<Candidate>, kept: seq<Candidate>, dropped: seq<string>, c: Candidate)
    requires CompactedSoFar(f, s, kept, dropped) && f(c.deployment) in LATE
    ensures if f(c.deployment) == NoMatchingPods then CompactedSoFar(f, s + [c], kept, dropped + [c.deployment.name])
            else CompactedSoFar(f, s + [c], kept + [c], dropped)
  {
    PlainSnoc(s, c);
    PlainSnoc(kept, c);
    PickSnoc(f, {Paused, Selected}, Plain(s), c.deployment);
    PickSnoc(f, {NoMatchingPods}, Plain(s), c.deployment);
    NamesSnoc(Pick(f, {NoMatchingPods}, Plain(s)), c.deployment);
  }

  /** The candidates whose Deployments control a matching pod are moved to the front of the same array, in order. */
  method CompactCandidates(candidates: array<Candidate>, n: nat, matching: set<nat>, ghost f: Sorting)
    returns (kept: nat, dropped: seq<string>)
    requires n <= candidates.Length
    requires forall c | c in candidates[..n] :: f(c.deployment) in LATE && (c.deployment.uid in matching <==> f(c.deployment) != NoMatchingPods)
    modifies candidates
    ensures kept <= n && CompactedSoFar(f, old(candidates[..n]), candidates[..kept], dropped)
  {
    ghost var was := candidates[..n];
    kept, dropped := 0, [];
    for i := 0 to n
      invariant kept <= i
      invariant forall k | i <= k < n :: candidates[k] == was[k]
      invariant CompactedSoFar(f, was[..i], candidates[..kept], dropped)
    {
      var c := candidates[i];
      assert c in was && was[..i + 1] == was[..i] + [c];
      CompactStep(f, was[..i], candidates[..kept], dropped, c);
      if c.deployment.uid !in matching {
        dropped := dropped + [c.deployment.name];
        continue;
      }
      ghost var before := candidates[..kept];
      candidates[kept] := c;
      assert candidates[..kept + 1] == before + [c];
      kept := kept + 1;
    }
    assert was[..n] == was;
  }

  /** The outcome of the last filter for the candidates `s`. */
  ghost predicate SplitSoFar(f: Sorting, s: seq<Candidate>, toRestart: seq<Candidate>, paused: seq<string>) {
    && Plain(toRestart) == Pick(f, {Selected}, Plain(s))
    && (forall c | c in toRestart :: c in s)
    && paused == Names(Pick(f, {Paused}, Plain(s)))
  }

  lemma SplitStep(f: Sorting, s: seq<Candidate>, toRestart: seq<Candidate>, paused: seq<string>, c: Candidate)
    requires SplitSoFar(f, s, toRestart, paused) && f(c.deployment) in {Paused, Selected}
    ensures if f(c.deployment) == Paused then SplitSoFar(f, s + [c], toRestart, paused + [c.deployment.name])
            else SplitSoFar(f, s + [c], toRestart + [c], paused)
  {
    PlainSnoc(s, c);
    PlainSnoc(toRestart, c);
    PickSnoc(f, {Selected}, Plain(s), c.deployment);
    PickSnoc(f, {Paused}, Plain(s), c.deployment);
    NamesSnoc(Pick(f, {Paused}, Plain(s)), c.deployment);
  }

  /** The candidates that are not paused, and the names of those that are. */
  method SkipPaused(candidates: array<Candidate>, n: nat, ghost f: Sorting)
    returns (toRestart: seq<Candidate>, paused: seq<string>)
    requires n <= candidates.Length
    requires forall c | c in candidates[..n] :: f(c.deployment) == if c.deployment.paused then Paused else Selected
    ensures SplitSoFar(f, candidates[..n], toRestart, paused)
  {
    toRestart, paused := [], [];
    for i := 0 to n
      invariant SplitSoFar(f, candidates[..i], toRestart, paused)
    {
      var c := candidates[i];
      assert c == candidates[..n][i] && candidates[..i + 1] == candidates[..i] + [c];
      SplitStep(f, candidates[..i], toRestart, paused, c);
      if c.deployment.paused {
        paused := paused + [c.deployment.name];
        continue;
      }
      toRestart := toRestart + [c];
    }
  }

  /** The selection of one namespace: the five results are the five classes, each in listing order. */
  ghost predicate Classified(o: Options, lists: Lists, all: seq<Deployment>, r: Chosen) {
    var f := Sort(o, lists, all);
    && r.total == |all|
    && Plain(r.toRestart) == Pick(f, {Selected}, all)
    && (forall c | c in r.toRestart :: CauseRight(o, all, c))
    && r.hasPrimary == Names(Pick(f, {HasPrimary}, all))
    && r.tooYoung == Pick(f, {TooYoung}, all)
    && r.noMatchingPods == Names(Pick(f, {NoMatchingPods}, all))
    && r.paused == Names(Pick(f, {Paused}, all))
  }

  /** The pods are only listed for the sake of some remaining candidate, the ReplicaSets only for some matching pod. */
  ghost predicate ListingFails(o: Options, lists: Lists) {
    || lists.deployments.Failed?
    || (Filtering(o) && (exists d | d in lists.deployments.value :: !Shadowed(o, lists.deployments.value, d) && !Young(o, d)) &&
        (lists.pods.Failed? || (SomeMatchingReplicaSet(o, lists.pods.value) && lists.replicaSets.Failed?)))
  }

  lemma PlainMembers(s: seq<Candidate>)
    ensures forall d :: d in Plain(s) <==> exists c | c in s :: c.deployment == d
    ensures Plain(s) == [] <==> s == []
  {
    forall d | d in Plain(s)
      ensures exists c | c in s :: c.deployment == d
    {
      var i :| 0 <= i < |s| && Plain(s)[i] == d;
      assert s[i] in s;
    }
    forall c | c in s
      ensures c.deployment in Plain(s)
    {
      var i :| 0 <= i < |s| && s[i] == c;
      assert Plain(s)[i] == c.deployment;
    }
  }

  /** A Deployment of a late class is neither shadowed nor too young, and the class is decided by the pods and the pause. */
  lemma LateClass(o: Options, lists: Lists, all: seq<Deployment>, d: Deployment)
    ensures ClassOf(o, lists, all, d) in LATE <==> !Shadowed(o, all, d) && !Young(o, d)
    ensures var c := ClassOf(o, lists, all, d);
            c in LATE ==> (c != NoMatchingPods <==> Accepted(o, lists, d)) &&
                          (c != NoMatchingPods ==> c == if d.paused then Paused else Selected)
  {
  }

  /** What remains after the first filters: the Deployments that are neither shadowed nor too young. */
  lemma Remaining(o: Options, lists: Lists, all: seq<Deployment>, f: Sorting, candidates: seq<Candidate>,
                  hasPrimary: seq<string>, tooYoung: seq<Deployment>)
    requires f == Sort(o, lists, all) && FilteredSoFar(o, all, f, all, candidates, hasPrimary, tooYoung)
    ensures forall c | c in candidates :: f(c.deployment) in LATE
    ensures forall c | c in candidates && f(c.deployment) != NoMatchingPods :: f(c.deployment) == if c.deployment.paused then Paused else Selected
    ensures forall c | c in candidates :: f(c.deployment) != NoMatchingPods <==> Accepted(o, lists, c.deployment)
    ensures candidates != [] <==> exists d | d in all :: !Shadowed(o, all, d) && !Young(o, d)
  {
    PickMembers(f, LATE, all);
    PlainMembers(candidates);
    forall d {
      LateClass(o, lists, all, d);
    }
    if candidates != [] {
      var c := candidates[0];
      assert c in candidates && c.deployment in Plain(candidates) && f(c.deployment) in LATE;
    }
    if d :| d in all && !Shadowed(o, all, d) && !Young(o, d) {
      assert f(d) in LATE && d in Plain(candidates);
    }
  }

  /** The two late stages put together with the first one. */
  lemma Conclude(o: Options, lists: Lists, all: seq<Deployment>, f: Sorting, candidates: seq<Candidate>,
                 kept: seq<Candidate>, r: Chosen)
    requires f == Sort(o, lists, all) && r.total == |all|
    requires FilteredSoFar(o, all, f, all, candidates, r.hasPrimary, r.tooYoung)
    requires CompactedSoFar(f, candidates, kept, r.noMatchingPods)
    requires SplitSoFar(f, kept, r.toRestart, r.paused)
    ensures Classified(o, lists, all, r)
  {
    PickPick(f, {NoMatchingPods}, LATE, all);
    PickPick(f, {Paused, Selected}, LATE, all);
    PickPick(f, {Paused}, {Paused, Selected}, all);
    PickPick(f, {Selected}, {Paused, Selected}, all);
    assert {NoMatchingPods} * LATE == {NoMatchingPods} && {Paused, Selected} * LATE == {Paused, Selected};
    assert {Paused} * {Paused, Selected} == {Paused} && {Selected} * {Paused, Selected} == {Selected};
  }

  lemma {:induction false} PickNone(f: Sorting, classes: set<Class>, s: seq<Deployment>)
    requires forall d | d in s :: f(d) !in classes
    ensures Pick(f, classes, s) == []
  {
    if s != [] {
      PickNone(f, classes, s[..|s| - 1]);
    }
  }

  lemma {:induction false} PickOnly(f: Sorting, classes: set<Class>, s: seq<Deployment>)
    requires forall d | d in s :: f(d) in classes
    ensures Pick(f, classes, s) == s
  {
    if s != [] {
      PickOnly(f, classes, s[..|s| - 1]);
    }
  }

  /** Without pod filters nothing is dropped. */
  lemma NothingDropped(f: Sorting, candidates: seq<Candidate>)
    requires forall c | c in candidates :: f(c.deployment) in {Paused, Selected}
    ensures CompactedSoFar(f, candidates, candidates, [])
  {
    PlainMembers(candidates);
    PickOnly(f, {Paused, Selected}, Plain(candidates));
    PickNone(f, {NoMatchingPods}, Plain(candidates));
  }

  /** The pod filters applied to the array of candidates, if there is anything to filter. */
  method PodFilters(o: Options, lists: Lists, ghost all: seq<Deployment>, candidates: array<Candidate>, n: nat,
                    ghost f: Sorting)
    returns (r: Reply<nat>, dropped: seq<string>)
    requires n <= candidates.Length
    requires forall c | c in candidates[..n] :: f(c.deployment) in LATE && (f(c.deployment) != NoMatchingPods <==> Accepted(o, lists, c.deployment))
    modifies candidates
    ensures r.Failed? <==>
              && Filtering(o) && n > 0
              && (lists.pods.Failed? || (SomeMatchingReplicaSet(o, lists.pods.value) && lists.replicaSets.Failed?))
    ensures r.Got? ==> r.value <= n && CompactedSoFar(f, old(candidates[..n]), candidates[..r.value], dropped)
  {
    dropped := [];
    var filtering := HasPodFilters(o);
    if !filtering || n == 0 {
      NothingDropped(f, candidates[..n]);
      return Got(n), dropped;
    }
    var matching := DeploymentsWithMatchingPods(o, lists);
    if matching.Failed? {
      return Failed(matching.error), dropped;
    }
    var kept;
    kept, dropped := CompactCandidates(candidates, n, matching.value, f);
    r := Got(kept);
  }

  lemma KeptAreLate(f: Sorting, candidates: seq<Candidate>, kept: seq<Candidate>, dropped: seq<string>)
    requires CompactedSoFar(f, candidates, kept, dropped)
    ensures forall c | c in kept :: c in candidates && f(c.deployment) in {Paused, Selected}
  {
    PickMembers(f, {Paused, Selected}, Plain(candidates));
    PlainMembers(kept);
  }

  method SelectDeployments(o: Options, lists: Lists) returns (r: Reply<Chosen>)
    ensures r.Failed? <==> ListingFails(o, lists)
    ensures r.Got? ==> Classified(o, lists, lists.deployments.value, r.value)
  {
    if lists.deployments.Failed? {
      return Failed(lists.deployments.error);
    }
    var all := lists.deployments.value;
    ghost var f := Sort(o, lists, all);
    var candidates := new Candidate[|all|];
    var n, hasPrimary, tooYoung := FirstFilters(o, lists, all, candidates, f);
    ghost var was := candidates[..n];
    Remaining(o, lists, all, f, was, hasPrimary, tooYoung);
    var kept, noMatchingPods := PodFilters(o, lists, all, candidates, n, f);
    if kept.Failed? {
      return Failed(kept.error);
    }
    KeptAreLate(f, was, candidates[..kept.value], noMatchingPods);
    var toRestart, paused := SkipPaused(candidates, kept.value, f);
    r := Got(Chosen(|all|, toRestart, hasPrimary, tooYoung, noMatchingPods, paused));
    Conclude(o, lists, all, f, was, candidates[..kept.value], r.value);
  }

  // ----- what the selection means -----

  /** A primary as Flagger leaves it: so named, and controlled by a Canary. */
  ghost predicate PrimaryOfCanary(d: Deployment) {
    && (exists base: string :: d.name == base + "-primary")
    && exists i | 0 <= i < |d.owners| ::
         d.owners[i].apiVersion == "flagger.app/v1beta1" && d.owners[i].kind == "Canary" && d.owners[i].controller == Some(true)
  }

  lemma PrimaryMeans(d: Deployment)
    ensures IsFlaggerPrimary(d) <==> PrimaryOfCanary(d)
  {
    if HasSuffix(d.name, PRIMARY_SUFFIX) {
      var base := d.name[..|d.name| - |PRIMARY_SUFFIX|];
      assert d.name == base + "-primary";
    }
    if base: string :| d.name == base + "-primary" {
      assert d.name[|d.name| - |PRIMARY_SUFFIX|..] == PRIMARY_SUFFIX;
    }
    if i :| 0 <= i < |d.owners| &&
            d.owners[i].apiVersion == "flagger.app/v1beta1" && d.owners[i].kind == "Canary" && d.owners[i].controller == Some(true) {
      assert d.owners[i] in d.owners;
    }
  }

  lemma PrimaryMeansAll()
    ensures forall d: Deployment :: IsFlaggerPrimary(d) <==> PrimaryOfCanary(d)
  {
    forall d: Deployment
      ensures IsFlaggerPrimary(d) <==> PrimaryOfCanary(d)
    {
      PrimaryMeans(d);
    }
  }

  lemma SelectedMembers(o: Options, lists: Lists, all: seq<Deployment>, r: Chosen, d: Deployment)
    requires Classified(o, lists, all, r)
    ensures d in Plain(r.toRestart) <==>
              d in all && !Shadowed(o, all, d) && !Young(o, d) && Accepted(o, lists, d) && !d.paused
  {
    PickMembers(Sort(o, lists, all), {Selected}, all);
  }

  /** A Deployment is selected exactly if Flagger does not manage it through an existing primary, it is old enough, it
      owns a matching pod (when pods are filtered at all) and it is not paused. */
  lemma SelectedExactly(o: Options, lists: Lists, all: seq<Deployment>, r: Chosen, d: Deployment)
    requires Classified(o, lists, all, r)
    ensures d in Plain(r.toRestart) <==>
              && d in all && !d.paused
              && (o.noFlagger || (exists p | p in all :: p.name == d.name && PrimaryOfCanary(p)) ||
                  forall p | p in all && p.name == d.name + "-primary" :: !PrimaryOfCanary(p))
              && (o.minAge.Some? ==> d.age >= o.minAge.value)
              && (o.labels != map[] || o.annotations != map[] || (exists s | s in o.images :: s != "") ==>
                    lists.pods.Got? && lists.replicaSets.Got? && OwnsMatchingPod(o, lists.pods.value, lists.replicaSets.value, d.uid))
  {
    SelectedMembers(o, lists, all, r, d);
    PrimaryMeansAll();
    assert PRIMARY_SUFFIX == "-primary";
  }

  /** What owning a matching pod means, link by link. */
  lemma OwnershipChain(o: Options, pods: seq<Pod>, replicaSets: seq<ReplicaSet>, uid: nat) returns (p: Pod, r: ReplicaSet, i: nat, j: nat)
    requires OwnsMatchingPod(o, pods, replicaSets, uid)
    ensures p in pods && r in replicaSets
    ensures i < |p.owners| && p.owners[i].controller == Some(true) && (forall k | 0 <= k < i :: p.owners[k].controller != Some(true))
    ensures p.owners[i].kind == "ReplicaSet" && p.owners[i].uid == r.uid
    ensures j < |r.owners| && r.owners[j].controller == Some(true) && (forall k | 0 <= k < j :: r.owners[k].controller != Some(true))
    ensures r.owners[j].kind == "Deployment" && r.owners[j].uid == uid
    ensures forall k | k in o.labels :: k in p.labels && p.labels[k] == o.labels[k]
    ensures forall k | k in o.annotations :: k in p.annotations && p.annotations[k] == o.annotations[k]
    ensures (exists s | s in o.images :: s != "") ==>
              exists img, s | s in o.images && img in p.containers + p.initContainers + p.ephemeralContainers :: s != "" && Contains(img, s)
  {
    p, r :| p in pods && r in replicaSets &&
            PodMatches(o, p) && ControlledBy(p.owners, "ReplicaSet", r.uid) && ControlledBy(r.owners, "Deployment", uid);
    i :| 0 <= i < |p.owners| && FirstController(p.owners, i) && p.owners[i] == ControllerOf(p.owners).value;
    j :| 0 <= j < |r.owners| && FirstController(r.owners, j) && r.owners[j] == ControllerOf(r.owners).value;
    if exists s | s in o.images :: s != "" {
      var img, s :| s in o.images && (img in p.containers || img in p.initContainers || img in p.ephemeralContainers) &&
                    s != "" && Contains(img, s);
      assert img in p.containers + p.initContainers + p.ephemeralContainers;
    }
  }

  /** Whatever the filters do to the primary: a target whose Flagger primary is in the namespace is not restarted, unless
      the target is a primary itself. */
  lemma TargetOfPrimaryNeverSelected(o: Options, lists: Lists, all: seq<Deployment>, r: Chosen, d: Deployment,
                                     primary: Deployment)
    requires Classified(o, lists, all, r) && !o.noFlagger
    requires primary in all && IsFlaggerPrimary(primary) && primary.name == d.name + PRIMARY_SUFFIX
    ensures !PrimaryNamed(all, d.name) ==> d !in Plain(r.toRestart)
    ensures PrimaryNamed(all, d.name) && d in all ==>
              (d in Plain(r.toRestart) <==> !Young(o, d) && Accepted(o, lists, d) && !d.paused)
  {
    SelectedMembers(o, lists, all, r, d);
  }

  /** Such a target: without filters, a primary is restarted although it has a primary of its own. */
  lemma PrimaryWithPrimaryIsSelected(lists: Lists, all: seq<Deployment>, r: Chosen, d: Deployment, primary: Deployment)
    requires all == [d, primary] && d.name == "web" + PRIMARY_SUFFIX && primary.name == d.name + PRIMARY_SUFFIX && !d.paused
    requires d.owners == primary.owners == [OwnerRef("flagger.app/v1beta1", "Canary", 0, Some(true))]
    requires Classified(Options(false, None, map[], map[], []), lists, all, r)
    ensures IsFlaggerPrimary(primary) && d in Plain(r.toRestart)
  {
    assert d.owners[0] in d.owners && primary.owners[0] in primary.owners;
    assert IsFlaggerPrimary(d) && d in all;
    SelectedMembers(Options(false, None, map[], map[], []), lists, all, r, d);
  }

  /** Every listed Deployment is accounted for exactly once. */
  lemma SelectionAccounts(o: Options, lists: Lists, all: seq<Deployment>, r: Chosen)
    requires Classified(o, lists, all, r)
    ensures r.total == |r.toRestart| + |r.hasPrimary| + |r.tooYoung| + |r.noMatchingPods| + |r.paused|
  {
    var f := Sort(o, lists, all);
    ClassesPartition(f, all);
    var sum := multiset(Pick(f, {HasPrimary}, all)) + multiset(Pick(f, {TooYoung}, all)) + multiset(Pick(f, {NoMatchingPods}, all)) +
               multiset(Pick(f, {Paused}, all)) + multiset(Pick(f, {Selected}, all));
    assert |sum| == |multiset(all)|;
  }
}
