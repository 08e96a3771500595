/** Random host-port allocation with at most five draws. */
module PortAllocator {
  import opened Option
  import opened Status

  const MAX_TRIES := 5

  /** The first of the drawn ports that is free. */
  function FirstFree(draws: seq<nat>, portMin: nat, taken: set<Port>): Option<Port> {
    if draws == [] then None
    else if draws[0] + portMin !in taken then Some(draws[0] + portMin)
    else FirstFree(draws[1..], portMin, taken)
  }

  class PortAllocator {
    const portMin: nat
    const portMax: nat
    var taken: set<Port>

    ghost predicate Valid()
      reads this
    {
      portMin <= portMax < 0x1_0000 && forall p | p in taken :: portMin <= p <= portMax
    }

    constructor (portMin: nat, portMax: nat)
      requires portMin <= portMax < 0x1_0000
      ensures Valid() && taken == {} && this.portMin == portMin && this.portMax == portMax
    {
      this.portMin := portMin;
      this.portMax := portMax;
      taken := {};
    }

    /** `draws` are the random numbers the call would obtain, each below the size of the range.
        Returns the first drawn port that is free; fails only when all five draws were taken, and
        then changes nothing. */
    method Allocate(draws: seq<nat>) returns (r: Option<Port>)
      requires Valid()
      requires |draws| == 5 && forall d | d in draws :: d < portMax + 1 - portMin
      modifies this
      ensures Valid() && r == FirstFree(draws, portMin, old(taken))
      ensures r.Some? ==>
                && portMin <= r.value <= portMax
                && r.value !in old(taken)
                && taken == old(taken) + {r.value}
                && exists k | 0 <= k < 5 ::
                     && draws[k] + portMin == r.value
                     && forall i | 0 <= i < k :: draws[i] + portMin in old(taken)
      ensures r.None? ==>
                && taken == old(taken)
                && forall d | d in draws :: d + portMin in taken
    {
      var try := 0;
      while true
        invariant 0 <= try <= MAX_TRIES
        invariant taken == old(taken) && Valid()
        invariant forall i | 0 <= i < try :: draws[i] + portMin in taken
        invariant FirstFree(draws, portMin, taken) == FirstFree(draws[try..], portMin, taken)
        decreases MAX_TRIES - try
      {
        if try >= MAX_TRIES {
          return None;
        }
        var port := draws[try] + portMin;
        if port in taken {
          try := try + 1;
          continue;
        }
        assert draws[try] in draws;
        taken := taken + {port};
        return Some(port);
      }
    }

    /** Freeing a port that is not allocated does nothing. */
    method Free(port: Port)
      requires Valid()
      modifies this
      ensures Valid() && taken == old(taken) - {port}
    {
      taken := taken - {port};
    }
  }
}
