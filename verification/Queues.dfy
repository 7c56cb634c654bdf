/** Printer queues: enabled destinations and the load balancer. */
module Queues {
  import opened Jobs

  datatype Destination = Destination(id: int, queue: int, address: string, name: string, enabled: bool)

  datatype Policy = UnknownPolicy | UniformPolicy

  datatype Balancer = UniformBalancer

  function EnabledOnly(dests: seq<Destination>): seq<Destination> {
    if dests == [] then []
    else
      var front := EnabledOnly(dests[..|dests| - 1]);
      if dests[|dests| - 1].enabled then front + [dests[|dests| - 1]] else front
  }

  predicate AnyEnabled(dests: seq<Destination>) {
    exists d | d in dests :: d.enabled
  }

  /** Exactly the enabled destinations survive. */
  lemma {:induction false} EnabledExactly(dests: seq<Destination>, d: Destination)
    ensures d in EnabledOnly(dests) <==> d in dests && d.enabled
  {
    if dests != [] {
      var front := dests[..|dests| - 1];
      EnabledExactly(front, d);
      assert dests == front + [dests[|dests| - 1]];
    }
  }

  method EnabledDestinations(dests: seq<Destination>) returns (out: seq<Destination>)
    ensures out == EnabledOnly(dests)
  {
    out := [];
    for i := 0 to |dests|
      invariant out == EnabledOnly(dests[..i])
    {
      assert dests[..i + 1][..i] == dests[..i];
      if dests[i].enabled {
        out := out + [dests[i]];
      }
    }
    assert dests[..|dests|] == dests;
  }

  function BalancerFor(p: Policy): Option<Balancer> {
    match p
    case UniformPolicy => Some(UniformBalancer)
    case UnknownPolicy => None
  }

  // Any of the destinations may be chosen.
  method Choose(dests: seq<Destination>) returns (chosen: Option<Destination>)
    ensures dests == [] <==> chosen == None
    ensures chosen.Some? ==> chosen.value in dests
  {
    if |dests| == 0 { return None; }
    var i :| 0 <= i < |dests|;
    return Some(dests[i]);
  }

  /** A destination is found exactly when both queries answer, one destination is enabled,
      and the policy is known; it is one of those listed, and enabled. */
  method PickDestination(listed: Option<seq<Destination>>, policy: Option<Policy>)
    returns (dest: Option<Destination>)
    ensures dest.Some? <==>
      listed.Some? && AnyEnabled(listed.value) && policy == Some(UniformPolicy)
    ensures dest.Some? ==> dest.value in listed.value && dest.value.enabled
  {
    if listed == None { return None; }
    forall d ensures d in EnabledOnly(listed.value) <==> d in listed.value && d.enabled {
      EnabledExactly(listed.value, d);
    }
    var dests := EnabledDestinations(listed.value);
    if |dests| == 0 { return None; }
    assert dests[0] in dests;
    if policy == None { return None; }
    var lb := BalancerFor(policy.value);
    if lb == None { return None; }
    dest := Choose(dests);
  }
}
