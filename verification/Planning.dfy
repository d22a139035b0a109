/** Planning over all namespaces: the selectors run concurrently, the plan does not depend on how they interleave. */
module Planning {
  import opened Common
  import opened Launcher

  /** What selecting in one namespace yields: a failed selection, or the targets of that namespace. */
  datatype Selection<T, E> = Failed(error: E) | Listed(targets: seq<T>)

  datatype Plan<T, E> = Plan(targets: seq<T>, errs: seq<E>)

  function Extend<T, E>(p: Plan<T, E>, s: Selection<T, E>): Plan<T, E> {
    match s
    case Failed(error) => p.(errs := p.errs + [error])
    case Listed(targets) => p.(targets := p.targets + targets)
  }

  /** The namespaces taken one after the other, left to right. */
  function Sequential<T, E>(selections: seq<Selection<T, E>>): Plan<T, E> {
    if selections == [] then Plan([], [])
    else Extend(Sequential(selections[..|selections| - 1]), selections[|selections| - 1])
  }

  /** Which selection a result slot of the launcher holds; a slot that was never written holds none. */
  function Content<T, E>(selections: seq<Selection<T, E>>, slot: Slot): Option<Selection<T, E>> {
    if slot.Result? && slot.tag < |selections| then Some(selections[slot.tag]) else None
  }

  /** Collect the result slots in namespace order. */
  method Collect<T, E>(selections: seq<Selection<T, E>>, slots: seq<Slot>) returns (p: Plan<T, E>)
    requires forall i | 0 <= i < |slots| :: Content(selections, slots[i]).Some?
    ensures p == Sequential(seq(|slots|, i requires 0 <= i < |slots| => Content(selections, slots[i]).value))
  {
    p := Plan([], []);
    ghost var contents := seq(|slots|, i requires 0 <= i < |slots| => Content(selections, slots[i]).value);
    for i := 0 to |slots|
      invariant p == Sequential(contents[..i])
    {
      assert contents[..i + 1][..i] == contents[..i];
      match Content(selections, slots[i]).value {
        case Failed(error) => p := p.(errs := p.errs + [error]);
        case Listed(targets) => p := p.(targets := p.targets + targets);
      }
    }
    assert contents[..|slots|] == contents;
  }

  /** One selector call per namespace, with at most `limit` of them in flight. */
  function Selectors(limit: int, n: nat): Config {
    Config(limit, seq(n, i requires 0 <= i < n => Job(i, false, false)), false)
  }

  /** Whatever the interleaving, the slots end up with exactly the namespaces' own selections, so the collected plan is
      the sequential one. */
  lemma PlanIsScheduleIndependent<T, E>(selections: seq<Selection<T, E>>, limit: int, stop: Stop, schedule: seq<Actor>)
    requires stop.Sound()
    ensures Inv(Selectors(limit, |selections|), Init(Selectors(limit, |selections|), stop))
    ensures var s := Run(Selectors(limit, |selections|), Init(Selectors(limit, |selections|), stop), schedule);
            && |InFlight(s)| <= (if limit < 1 then 1 else limit)
            && (s.pc.Return? ==>
                  && s.launched == seq(|selections|, i => i)
                  && |s.errs| == |selections|
                  && (forall i | 0 <= i < |selections| :: Content(selections, s.errs[i]) == Some(selections[i])))
  {
    var cfg := Selectors(limit, |selections|);
    EveryInterleaving(cfg, stop, schedule);
    PlainLoopIsScheduleIndependent(cfg, stop, schedule);
  }

  /** Where the errors of the first selections stop and those of the next ones begin. */
  function ErrorsBefore<T, E>(selections: seq<Selection<T, E>>, k: nat): nat
    requires k <= |selections|
  {
    if k == 0 then 0 else ErrorsBefore(selections, k - 1) + if selections[k - 1].Failed? then 1 else 0
  }

  function TargetsBefore<T, E>(selections: seq<Selection<T, E>>, k: nat): nat
    requires k <= |selections|
  {
    if k == 0 then 0 else TargetsBefore(selections, k - 1) + if selections[k - 1].Listed? then |selections[k - 1].targets| else 0
  }

  ghost predicate HasErrors<T, E>(errs: seq<E>, selections: seq<Selection<T, E>>) {
    && |errs| == ErrorsBefore(selections, |selections|)
    && forall i: nat | i < |selections| && selections[i].Failed? ::
         ErrorsBefore(selections, i) < |errs| && errs[ErrorsBefore(selections, i)] == selections[i].error
  }

  ghost predicate HasTargets<T, E>(targets: seq<T>, selections: seq<Selection<T, E>>) {
    && |targets| == TargetsBefore(selections, |selections|)
    && forall i: nat, k: nat | i < |selections| && selections[i].Listed? && k < |selections[i].targets| ::
         TargetsBefore(selections, i) + k < |targets| && targets[TargetsBefore(selections, i) + k] == selections[i].targets[k]
  }

  /** Every failed selection has its own error in the plan, every other one its own targets, in the order of the namespaces, and
      there is nothing else in the plan. */
  ghost predicate Gathers<T, E>(p: Plan<T, E>, selections: seq<Selection<T, E>>) {
    HasErrors(p.errs, selections) && HasTargets(p.targets, selections)
  }

  lemma {:induction false} CountsOfMore<T, E>(selections: seq<Selection<T, E>>, s: Selection<T, E>, k: nat)
    requires k <= |selections|
    ensures ErrorsBefore(selections + [s], k) == ErrorsBefore(selections, k)
    ensures TargetsBefore(selections + [s], k) == TargetsBefore(selections, k)
  {
    if k > 0 {
      CountsOfMore(selections, s, k - 1);
    }
  }

  lemma ErrorsSnoc<T, E>(errs: seq<E>, selections: seq<Selection<T, E>>, s: Selection<T, E>)
    requires HasErrors(errs, selections)
    ensures HasErrors(errs + if s.Failed? then [s.error] else [], selections + [s])
  {
    var more := errs + if s.Failed? then [s.error] else [];
    forall i: nat | i <= |selections| && (selections + [s])[i].Failed?
      ensures ErrorsBefore(selections + [s], i) < |more| && more[ErrorsBefore(selections + [s], i)] == (selections + [s])[i].error
    {
      CountsOfMore(selections, s, i);
    }
    CountsOfMore(selections, s, |selections|);
  }

  lemma TargetAt<T, E>(targets: seq<T>, selections: seq<Selection<T, E>>, s: Selection<T, E>, i: nat, k: nat)
    requires HasTargets(targets, selections)
    requires i < |selections + [s]| && (selections + [s])[i].Listed? && k < |(selections + [s])[i].targets|
    ensures var more, at := targets + (if s.Listed? then s.targets else []), TargetsBefore(selections + [s], i) + k;
            at < |more| && more[at] == (selections + [s])[i].targets[k]
  {
    CountsOfMore(selections, s, i);
    if i < |selections| {
      assert selections[i].targets[k] == (selections + [s])[i].targets[k];
    }
  }

  lemma TargetsSnoc<T, E>(targets: seq<T>, selections: seq<Selection<T, E>>, s: Selection<T, E>)
    requires HasTargets(targets, selections)
    ensures HasTargets(targets + if s.Listed? then s.targets else [], selections + [s])
  {
    var longer := selections + [s];
    forall i: nat, k: nat | i < |longer| && longer[i].Listed? && k < |longer[i].targets| {
      TargetAt(targets, selections, s, i, k);
    }
    CountsOfMore(selections, s, |selections|);
  }

  lemma {:induction false} SequentialGathers<T, E>(selections: seq<Selection<T, E>>)
    ensures Gathers(Sequential(selections), selections)
  {
    if selections != [] {
      var front, last := selections[..|selections| - 1], selections[|selections| - 1];
      SequentialGathers(front);
      ErrorsSnoc(Sequential(front).errs, front, last);
      TargetsSnoc(Sequential(front).targets, front, last);
      assert selections == front + [last];
      var p := Sequential(front);
      assert p.errs + [] == p.errs && p.targets + [] == p.targets;
    }
  }

  method PlanAll<T, E>(selections: seq<Selection<T, E>>, limit: int, ghost stop: Stop, ghost schedule: seq<Actor>,
                       slots: seq<Slot>)
    returns (p: Plan<T, E>)
    requires stop.Sound() && Inv(Selectors(limit, |selections|), Init(Selectors(limit, |selections|), stop))
    requires Run(Selectors(limit, |selections|), Init(Selectors(limit, |selections|), stop), schedule).pc.Return?
    requires slots == Run(Selectors(limit, |selections|), Init(Selectors(limit, |selections|), stop), schedule).errs
    ensures p == Sequential(selections) && Gathers(p, selections)
  {
    PlanIsScheduleIndependent(selections, limit, stop, schedule);
    SequentialGathers(selections);
    p := Collect(selections, slots);
    assert seq(|slots|, i requires 0 <= i < |slots| => Content(selections, slots[i]).value) == selections;
  }
}
