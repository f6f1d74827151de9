/**
 * Transitions of the hierarchical state machine: a guard is an ordered list
 * of conditions on the context, and an action transition runs an action and
 * keeps its target state only when it is of the expected kind.
 */
module Hsm {
  import opened Wrappers

  /** An ordered list of guard functions and a free-text description. */
  datatype TransitionGuard<!C> = TransitionGuard(guards: seq<C -> bool>, description: string)
  {
    /** The guard holds iff every one of its functions holds, in particular for an empty list. */
    function Condition(ctx: C): (r: bool)
      ensures r <==> forall i :: 0 <= i < |guards| ==> guards[i](ctx)
    {
      AllHold(guards, ctx)
    }
  }

  /** Walk the guards in order, answering false at the first one that fails. */
  function AllHold<C>(guards: seq<C -> bool>, ctx: C): (r: bool)
    ensures r <==> forall i :: 0 <= i < |guards| ==> guards[i](ctx)
  {
    if |guards| == 0 then true
    else if !guards[0](ctx) then false
    else AllHold(guards[1..], ctx)
  }

  /**
   * How many guards the walk calls: every one up to and including the first
   * that fails, and none after it.
   */
  function Evaluated<C>(guards: seq<C -> bool>, ctx: C): (n: nat)
    ensures n <= |guards|
    ensures forall i :: 0 <= i < n - 1 ==> guards[i](ctx)
    ensures n < |guards| ==> n > 0 && !guards[n - 1](ctx)
    ensures n == |guards| && n > 0 && guards[n - 1](ctx) ==> forall i :: 0 <= i < n ==> guards[i](ctx)
  {
    if |guards| == 0 then 0
    else if !guards[0](ctx) then 1
    else 1 + Evaluated(guards[1..], ctx)
  }

  /** The walk stops exactly at the first failing guard, and that guard decides the answer. */
  lemma {:induction false} EvaluationStopsAtFirstFailure<C>(guards: seq<C -> bool>, ctx: C, k: nat)
    requires k < |guards| && !guards[k](ctx)
    requires forall i :: 0 <= i < k ==> guards[i](ctx)
    ensures Evaluated(guards, ctx) == k + 1
    ensures !AllHold(guards, ctx)
  {
    if k > 0 {
      forall i | 0 <= i < k - 1
        ensures guards[1..][i](ctx)
      {
        assert guards[1..][i] == guards[i + 1];
      }
      assert guards[1..][k - 1] == guards[k];
      EvaluationStopsAtFirstFailure(guards[1..], ctx, k - 1);
    }
  }

  /** When every guard holds, all of them are called. */
  lemma {:induction false} AllEvaluatedWhenAllHold<C>(guards: seq<C -> bool>, ctx: C)
    requires forall i :: 0 <= i < |guards| ==> guards[i](ctx)
    ensures Evaluated(guards, ctx) == |guards|
  {
    if |guards| > 0 {
      assert forall i :: 0 <= i < |guards| - 1 ==> guards[1..][i] == guards[i + 1];
      AllEvaluatedWhenAllHold(guards[1..], ctx);
    }
  }

  /** The guards the walk does not call cannot change its answer. */
  lemma {:induction false} EvaluatedPrefixDecides<C>(guards: seq<C -> bool>, ctx: C)
    ensures AllHold(guards, ctx) == AllHold(guards[..Evaluated(guards, ctx)], ctx)
  {
    if |guards| > 0 && guards[0](ctx) {
      var n := Evaluated(guards[1..], ctx);
      EvaluatedPrefixDecides(guards[1..], ctx);
      assert guards[..1 + n][1..] == guards[1..][..n];
    }
  }

  /** newTransitionGuard: the guards in the given order, with no description. */
  function NewTransitionGuard<C>(guards: seq<C -> bool>): (g: TransitionGuard<C>)
    ensures |g.guards| == |guards| && forall i :: 0 <= i < |guards| ==> g.guards[i] == guards[i]
    ensures g.description == ""
  {
    TransitionGuard(guards, "")
  }

  /**
   * A transition that runs `action`; `isTarget` tells whether a state is of
   * the transition's target kind (the type assertion of the source).
   */
  datatype ActionTransition<!C, !State, Err> = ActionTransition(
    action: C -> (Option<State>, Option<Err>),
    isTarget: State -> bool)
  {
    /** An error is passed on alone; otherwise the state is kept only when it is of the target kind. */
    function Execute(ctx: C): (r: (Option<State>, Option<Err>))
      ensures action(ctx).1.Some? ==> r.0.None? && r.1 == action(ctx).1
      ensures action(ctx).1.None? ==> r.1.None?
      ensures action(ctx).1.None? ==>
        (r.0.Some? <==> action(ctx).0.Some? && isTarget(action(ctx).0.value))
      ensures r.0.Some? ==> r.0 == action(ctx).0 && isTarget(r.0.value)
    {
      var (dState, err) := action(ctx);
      if err.Some? then (None, err)
      else if dState.None? || !isTarget(dState.value) then (None, None)
      else (dState, None)
    }
  }
}
