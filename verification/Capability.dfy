/** What a device probe reports, and the mark, table and priority that a plan may claim. */
module Capability {
  import opened Wrappers
  import opened Ordering
  import opened Netfilter

  const MAX_NETWORK_INTERFACES := 64
  const MAX_INTERFACE_NAME_BYTES := 64

  datatype CapabilityStatus = Supported | NotPresent | Unsupported | Denied | Conflict

  datatype ResourceCandidate = ResourceCandidate(mark: bv32, mask: bv32, routeTable: nat, rulePriority: nat) {
    /** The mark is non-zero and lies inside its mask. */
    predicate Valid() {
      mark != 0 && mask != 0 && Within(mark, mask) && routeTable != 0 && rulePriority != 0
    }
  }

  function NewCandidate(mark: bv32, mask: bv32, routeTable: nat, rulePriority: nat): (r: Option<ResourceCandidate>)
    ensures r.Some? <==> ResourceCandidate(mark, mask, routeTable, rulePriority).Valid()
    ensures r.Some? ==> r.value.Valid()
  {
    if mark == 0 || mask == 0 || !Within(mark, mask) || routeTable == 0 || rulePriority == 0 then None
    else Some(ResourceCandidate(mark, mask, routeTable, rulePriority))
  }

  datatype AllocationCapability = AllocationCapability(candidate: ResourceCandidate, status: CapabilityStatus)

  datatype FamilyCapability = FamilyCapability(
    address: CapabilityStatus, netfilter: CapabilityStatus, restore: CapabilityStatus, tproxy: CapabilityStatus,
    mark: CapabilityStatus, conntrack: CapabilityStatus, owner: CapabilityStatus, socket: CapabilityStatus,
    policyRouting: CapabilityStatus, chainNamespace: CapabilityStatus)
  {
    predicate SupportsTproxy() {
      && address.Supported? && netfilter.Supported? && restore.Supported? && tproxy.Supported? && mark.Supported?
      && conntrack.Supported? && owner.Supported? && socket.Supported? && policyRouting.Supported?
      && chainNamespace.Supported?
    }

    predicate SupportsGuard() {
      address.Supported? && netfilter.Supported? && restore.Supported? && owner.Supported? && chainNamespace.Supported?
    }
  }

  datatype CapabilityReport = CapabilityReport(
    android: CapabilityStatus, root: CapabilityStatus, ipv4: FamilyCapability, ipv6: FamilyCapability,
    tun: CapabilityStatus, activeTunnel: CapabilityStatus, inboundPort: nat, inboundPortStatus: CapabilityStatus,
    allocations: seq<AllocationCapability>, interfaces: seq<string>)
  {
    ghost predicate Valid() {
      && inboundPort != 0
      && (forall a :: a in allocations ==> a.candidate.Valid())
      && |interfaces| <= MAX_NETWORK_INTERFACES
      && (forall name :: name in interfaces ==> ValidInterfaceName(name))
      && AdjacentSorted(interfaces)
    }
  }

  predicate InterfaceCharacter(c: char) {
    'a' <= c <= 'z' || 'A' <= c <= 'Z' || '0' <= c <= '9' || c == '_' || c == '-' || c == '.' || c == '+'
  }

  /** Interface names hold no `*`, so the pattern matcher is exact on them. */
  predicate ValidInterfaceName(name: string)
    ensures ValidInterfaceName(name) ==> '*' !in name
  {
    0 < |name| <= MAX_INTERFACE_NAME_BYTES && forall c :: c in name ==> InterfaceCharacter(c)
  }

  /** The allocation a plan takes: the first one without a conflict. */
  function FirstSupported(allocations: seq<AllocationCapability>): (r: Option<ResourceCandidate>)
    ensures r.Some? <==> exists a :: a in allocations && a.status.Supported?
    ensures r.Some? ==> exists i :: 0 <= i < |allocations| && allocations[i] == AllocationCapability(r.value, Supported)
                                    && forall j :: 0 <= j < i ==> !allocations[j].status.Supported?
  {
    if allocations == [] then None
    else if allocations[0].status.Supported? then Some(allocations[0].candidate)
    else
      assert forall j :: 1 <= j < |allocations| ==> allocations[j] == allocations[1..][j - 1];
      FirstSupported(allocations[1..])
  }
}
