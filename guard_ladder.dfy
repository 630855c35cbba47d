/**
 * The reference shape of the provider's decisions: an ordered list of
 * guards, each a condition the event must meet and the reason reported
 * when it does not. The first guard that does not hold decides the skip;
 * when every guard holds, the event builds.
 */
module GuardLadder {
  import opened Wrappers
  import opened GithubModels

  datatype Guard = Guard(holds: bool, reason: string)

  predicate AllHold(gs: seq<Guard>) {
    forall i :: 0 <= i < |gs| ==> gs[i].holds
  }

  /** gs[k] is the first guard that does not hold. */
  predicate IsFirstFailure(gs: seq<Guard>, k: int) {
    0 <= k < |gs| && !gs[k].holds && forall i :: 0 <= i < k ==> gs[i].holds
  }

  /** The index of the first guard that does not hold, if any. */
  function FirstFailure(gs: seq<Guard>): (r: Option<nat>)
    ensures r.None? <==> AllHold(gs)
    ensures r.Some? ==> IsFirstFailure(gs, r.value)
  {
    if gs == [] then None
    else if !gs[0].holds then Some(0)
    else match FirstFailure(gs[1..])
      case None => None
      case Some(k) => Some(k + 1)
  }

  /** The outcome the ladder gs decides, building with params when it passes. */
  function Decide(gs: seq<Guard>, params: TriggerAPIParamsModel): (r: TransformResult)
    ensures !r.Fail?
    ensures r.Success? <==> AllHold(gs)
    ensures r.Success? ==> r.params == params
    ensures forall k :: IsFirstFailure(gs, k) ==> r == Skip(gs[k].reason)
  {
    match FirstFailure(gs)
    case None => Success(params)
    case Some(k) => Skip(gs[k].reason)
  }
}
