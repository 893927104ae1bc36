/** The choice of interfaces and the two plan builders, `build_tproxy` and `build_tun`. */
module PlanBuilder {
  import opened Wrappers
  import opened Ordering
  import opened Netfilter
  import opened Capture
  import opened Capability
  import opened Plan
  import opened Planner
  import Glob
  import Decimal

  datatype PlanError =
    | InvalidGeneration | UnsupportedCaptureMode | PlatformUnavailable | InboundPortMismatch | InboundPortConflict
    | ExistingTunnelConflict | Ipv4TproxyUnavailable | Ipv6LeakRisk | ResourceConflict | TunUnavailable
    | BypassMarkConflict | InterfaceSelectionEmpty | ForwardingInterfaceSelectionEmpty

  const MAX_FORWARD_INTERFACES := 8

  // ----- interface names -----

  predicate IsWifiInterface(name: string) {
    "wlan" <= name || "wifi" <= name || "swlan" <= name
  }

  predicate IsMobileInterface(name: string) {
    || "rmnet" <= name || "ccmni" <= name || "pdp" <= name || "wwan" <= name || "v4-rmnet" <= name
    || "r_rmnet" <= name || "clat" <= name
  }

  predicate IsHotspotInterface(name: string) {
    || "ap" <= name || "softap" <= name || "swlan" <= name
    || ("wlan" <= name && Decimal.Parse(name[4..], Decimal.MAX_U8).Some? && Decimal.Parse(name[4..], Decimal.MAX_U8).value > 0)
  }

  predicate IsUsbTetherInterface(name: string) {
    "rndis" <= name || "usb" <= name
  }

  /** The interface policy selects `name`; patterns have the recursive meaning of `Glob.Matches`. */
  ghost predicate Selects(policy: InterfacePolicy, name: string) {
    && name != "lo"
    && (if policy.included == [] then
          (policy.mobile && IsMobileInterface(name)) || (policy.wifi && IsWifiInterface(name))
        else exists pattern :: pattern in policy.included && Glob.Matches(pattern, name))
    && !exists pattern :: pattern in policy.excluded && Glob.Matches(pattern, name)
  }

  predicate Forwards(policy: ForwardingPolicy, name: string) {
    (policy.hotspot && IsHotspotInterface(name)) || (policy.usb && IsUsbTetherInterface(name))
  }

  method AnyPatternMatches(patterns: seq<string>, name: string) returns (found: bool)
    requires '*' !in name
    ensures found <==> exists pattern :: pattern in patterns && Glob.Matches(pattern, name)
  {
    found := false;
    for i := 0 to |patterns|
      invariant found <==> exists k :: 0 <= k < i && Glob.Matches(patterns[k], name)
    {
      var matched := Glob.GlobMatches(patterns[i], name);
      found := found || matched;
    }
    if exists pattern :: pattern in patterns && Glob.Matches(pattern, name) {
      ghost var pattern :| pattern in patterns && Glob.Matches(pattern, name);
      ghost var k :| 0 <= k < |patterns| && patterns[k] == pattern;
    }
  }

  method InterfaceSelected(policy: InterfacePolicy, name: string) returns (selected: bool)
    requires '*' !in name
    ensures selected <==> Selects(policy, name)
  {
    if name == "lo" { return false; }
    var wanted: bool;
    if policy.included == [] {
      wanted := (policy.mobile && IsMobileInterface(name)) || (policy.wifi && IsWifiInterface(name));
    } else {
      wanted := AnyPatternMatches(policy.included, name);
    }
    var excluded := AnyPatternMatches(policy.excluded, name);
    selected := wanted && !excluded;
  }

  /** Appending the next name of a sorted list keeps the kept names sorted. */
  lemma KeepSorted(available: seq<string>, kept: seq<string>, i: nat)
    requires AdjacentSorted(available) && i < |available|
    requires AdjacentSorted(kept)
    requires forall name :: name in kept ==> name in available[..i]
    ensures AdjacentSorted(kept + [available[i]])
  {
    if kept != [] {
      var last := kept[|kept| - 1];
      assert last in available[..i];
      var k :| 0 <= k < i && available[..i][k] == last;
      AdjacentSortedIsSorted(available, k, i);
    }
  }

  /** The interfaces a plan is limited to: every available one the policy selects, in order, or no limit. */
  method ResolveInterfaces(policy: InterfacePolicy, available: seq<string>)
    returns (r: Result<Option<seq<string>>, PlanError>)
    requires AdjacentSorted(available)
    requires forall name :: name in available ==> ValidInterfaceName(name)
    ensures r == Ok(None) <==> policy.Unrestricted()
    ensures r.Err? ==> r.error == InterfaceSelectionEmpty && !exists name :: name in available && Selects(policy, name)
    ensures r.Ok? && r.value.Some? ==>
              && r.value.value != [] && AdjacentSorted(r.value.value)
              && forall name :: name in r.value.value <==> name in available && Selects(policy, name)
  {
    if policy.Unrestricted() { return Ok(None); }
    var selected: seq<string> := [];
    for i := 0 to |available|
      invariant AdjacentSorted(selected)
      invariant forall name :: name in selected <==> name in available[..i] && Selects(policy, name)
    {
      assert available[i] in available;
      var keep := InterfaceSelected(policy, available[i]);
      if keep {
        KeepSorted(available, selected, i);
        selected := selected + [available[i]];
      }
      assert available[..i + 1] == available[..i] + [available[i]];
    }
    assert available[..|available|] == available;
    SortDedupStringsFixed(selected);
    selected := SortDedupStrings(selected);
    if selected == [] {
      assert forall name :: name in available && Selects(policy, name) ==> name in selected;
      return Err(InterfaceSelectionEmpty);
    }
    r := Ok(Some(selected));
  }

  /** The available interfaces that a policy forwards for. */
  function Forwarded(policy: ForwardingPolicy, available: seq<string>): (r: seq<string>)
    ensures forall name :: name in r <==> name in available && Forwards(policy, name)
  {
    if available == [] then []
    else
      var n := |available| - 1;
      assert available == available[..n] + [available[n]];
      Forwarded(policy, available[..n]) + if Forwards(policy, available[n]) then [available[n]] else []
  }

  method ResolveForwardingInterfaces(policy: ForwardingPolicy, available: seq<string>)
    returns (r: Result<seq<string>, PlanError>)
    requires AdjacentSorted(available)
    ensures r == Ok([]) <==> !policy.Enabled()
    ensures r.Err? <==> policy.Enabled() && !(0 < |Forwarded(policy, available)| <= MAX_FORWARD_INTERFACES)
    ensures r.Err? ==> r.error == ForwardingInterfaceSelectionEmpty
    ensures r.Ok? && policy.Enabled() ==>
              && r.value == Forwarded(policy, available) && AdjacentSorted(r.value)
              && forall name :: name in r.value <==> name in available && Forwards(policy, name)
  {
    if !policy.Enabled() { return Ok([]); }
    var selected: seq<string> := [];
    assert available[..0] == [];
    for i := 0 to |available|
      invariant AdjacentSorted(selected) && selected == Forwarded(policy, available[..i])
    {
      assert available[..i + 1][..i] == available[..i] && available[..i + 1][i] == available[i];
      if Forwards(policy, available[i]) {
        KeepSorted(available, selected, i);
        selected := selected + [available[i]];
      }
    }
    assert available[..|available|] == available;
    SortDedupStringsFixed(selected);
    selected := SortDedupStrings(selected);
    if selected == [] || |selected| > MAX_FORWARD_INTERFACES {
      return Err(ForwardingInterfaceSelectionEmpty);
    }
    r := Ok(selected);
  }

  // ----- plans -----

  /** The interface scope of a plan, as the policy and the device determine it. */
  ghost predicate ScopeMatches(scope: Option<seq<string>>, policy: CapturePolicy, capabilities: CapabilityReport) {
    && (scope.None? <==> policy.interfaces.Unrestricted())
    && (scope.Some? ==>
          && scope.value != [] && AdjacentSorted(scope.value)
          && forall name :: name in scope.value <==> name in capabilities.interfaces && Selects(policy.interfaces, name))
  }

  ghost predicate ForwardingMatches(interfaces: seq<string>, policy: CapturePolicy, capabilities: CapabilityReport) {
    && (interfaces == [] <==> !policy.forwarding.Enabled())
    && |interfaces| <= MAX_FORWARD_INTERFACES && AdjacentSorted(interfaces)
    && (policy.forwarding.Enabled() ==>
          forall name :: name in interfaces <==> name in capabilities.interfaces && Forwards(policy.forwarding, name))
  }

  /** A TPROXY plan: its steps, and the IPv6 handling they implement. */
  ghost predicate IsTproxyPlan(
    plan: NetworkPlan, policy: CapturePolicy, capabilities: CapabilityReport, scope: Option<seq<string>>, ipv6: Ipv6Handling)
  {
    && plan.generation != 0 && plan.mode == TproxyMode && plan.captureInterface == None && plan.dnsGuarded
    && policy.mode == TproxyMode && policy.inboundPort.Some?
    && FirstSupported(capabilities.allocations) == Some(plan.allocation)
    && plan.bypassMark == BypassMark(policy)
    && !MarkMatches(plan.bypassMark, plan.allocation.mark, plan.allocation.mask)
    && ScopeMatches(scope, policy, capabilities)
    && ForwardingMatches(plan.forwardingInterfaces, policy, capabilities)
    && plan.ipv6Captured == ipv6.Ipv6Captured? && plan.ipv6Guarded == ipv6.Ipv6Guarded?
    && plan.steps == StepsOf(TproxyPieces(plan.generation, plan.slot, policy, plan.allocation, policy.inboundPort.value,
                                          scope, plan.forwardingInterfaces, ipv6))
  }

  ghost predicate IsTunPlan(
    plan: NetworkPlan, policy: CapturePolicy, capabilities: CapabilityReport, scope: Option<seq<string>>, ipv6: Ipv6Handling)
  {
    && plan.generation != 0 && plan.mode == TunMode && plan.captureInterface == Some("nethop0") && plan.dnsGuarded
    && policy.mode == TunMode
    && FirstSupported(capabilities.allocations) == Some(plan.allocation)
    && plan.bypassMark == BypassMark(policy)
    && !MarkMatches(plan.bypassMark, plan.allocation.mark, plan.allocation.mask)
    && ScopeMatches(scope, policy, capabilities)
    && ForwardingMatches(plan.forwardingInterfaces, policy, capabilities)
    && plan.ipv6Captured == ipv6.Ipv6Captured? && plan.ipv6Guarded == ipv6.Ipv6Guarded?
    && plan.steps == StepsOf(TunPieces(plan.generation, plan.slot, policy, plan.allocation, scope, ipv6))
  }

  /** What a builder asks for, in order, each with the error that answers when it is missing. */
  type Demands = seq<(bool, PlanError)>

  /** The error is that of the first demand that is not met. */
  ghost predicate Refuses(demands: Demands, error: PlanError) {
    exists i :: 0 <= i < |demands| && demands[i] == (false, error) && forall j :: 0 <= j < i ==> demands[j].0
  }

  ghost predicate AllMet(demands: Demands) {
    forall i :: 0 <= i < |demands| ==> demands[i].0
  }

  ghost predicate ScopeExists(policy: CapturePolicy, capabilities: CapabilityReport) {
    policy.interfaces.Unrestricted() || exists name :: name in capabilities.interfaces && Selects(policy.interfaces, name)
  }

  predicate ForwardingExists(policy: CapturePolicy, capabilities: CapabilityReport) {
    policy.forwarding.Enabled() ==>
      0 < |Forwarded(policy.forwarding, capabilities.interfaces)| <= MAX_FORWARD_INTERFACES
  }

  /** Some allocation is free, and the bypass mark does not look like the mark of the first one. */
  predicate MarksApart(policy: CapturePolicy, capabilities: CapabilityReport) {
    var chosen := FirstSupported(capabilities.allocations);
    chosen.Some? ==> !MarkMatches(BypassMark(policy), chosen.value.mark, chosen.value.mask)
  }

  /** IPv6 is known to be absent, or it is captured, or a guard is wanted and possible. */
  predicate Ipv6Attended(policy: CapturePolicy, capabilities: CapabilityReport) {
    match capabilities.ipv6.address
    case Supported => capabilities.ipv6.SupportsTproxy() || (policy.ipv6Guard && capabilities.ipv6.SupportsGuard())
    case NotPresent => true
    case _ => false
  }

  ghost function PlatformDemands(generation: nat, policy: CapturePolicy, capabilities: CapabilityReport): Demands {
    [(generation != 0, InvalidGeneration),
     (policy.mode == TproxyMode, UnsupportedCaptureMode),
     (capabilities.android.Supported? && capabilities.root.Supported?, PlatformUnavailable),
     (capabilities.activeTunnel.Supported?, ExistingTunnelConflict),
     (policy.inboundPort == Some(capabilities.inboundPort), InboundPortMismatch),
     (capabilities.inboundPortStatus.Supported?, InboundPortConflict),
     (capabilities.ipv4.SupportsTproxy(), Ipv4TproxyUnavailable)]
  }

  ghost function TunnelDemands(generation: nat, policy: CapturePolicy, capabilities: CapabilityReport): Demands {
    [(generation != 0, InvalidGeneration),
     (policy.mode == TunMode, UnsupportedCaptureMode),
     (capabilities.android.Supported? && capabilities.root.Supported?, PlatformUnavailable),
     (capabilities.tun.Supported?, TunUnavailable),
     (capabilities.activeTunnel.Supported?, ExistingTunnelConflict)]
  }

  ghost function SharedDemands(policy: CapturePolicy, capabilities: CapabilityReport): Demands {
    [(exists a :: a in capabilities.allocations && a.status.Supported?, ResourceConflict),
     (MarksApart(policy, capabilities), BypassMarkConflict),
     (ScopeExists(policy, capabilities), InterfaceSelectionEmpty),
     (ForwardingExists(policy, capabilities), ForwardingInterfaceSelectionEmpty)]
  }

  ghost function TproxyDemands(generation: nat, policy: CapturePolicy, capabilities: CapabilityReport): Demands {
    PlatformDemands(generation, policy, capabilities) + SharedDemands(policy, capabilities)
    + [(Ipv6Attended(policy, capabilities), Ipv6LeakRisk)]
  }

  /** A tunnel plan needs an IPv6 address outright. */
  ghost function TunDemands(generation: nat, policy: CapturePolicy, capabilities: CapabilityReport): Demands {
    TunnelDemands(generation, policy, capabilities) + SharedDemands(policy, capabilities)
    + [(capabilities.ipv6.address.Supported?, Ipv6LeakRisk)]
  }

  lemma RefusedAt(demands: Demands, i: nat)
    requires i < |demands| && !demands[i].0 && forall j :: 0 <= j < i ==> demands[j].0
    ensures Refuses(demands, demands[i].1) && !AllMet(demands)
  {
    assert demands[i] == (false, demands[i].1);
  }

  function RestoreStep(kind: Kind, family: IpFamily, table: Table, apply: seq<Command>, rollback: seq<Command>): Step {
    Step(kind, Restore(family, table, apply), Restore(family, table, rollback))
  }

  /** What the conditions of a builder settle: the allocation, the interface scope and the tethering interfaces. */
  datatype Settled = Settled(allocation: ResourceCandidate, scope: Option<seq<string>>, forwarding: seq<string>)

  ghost predicate IsSettled(s: Settled, policy: CapturePolicy, capabilities: CapabilityReport) {
    && FirstSupported(capabilities.allocations) == Some(s.allocation) && s.allocation.Valid()
    && !MarkMatches(BypassMark(policy), s.allocation.mark, s.allocation.mask)
    && ScopeMatches(s.scope, policy, capabilities) && ForwardingMatches(s.forwarding, policy, capabilities)
  }

  /** The conditions both builders share, from the allocation to the tethering interfaces. */
  method Settle(policy: CapturePolicy, capabilities: CapabilityReport) returns (r: Result<Settled, PlanError>)
    requires capabilities.Valid()
    ensures r.Ok? <==> AllMet(SharedDemands(policy, capabilities))
    ensures r.Err? ==> Refuses(SharedDemands(policy, capabilities), r.error)
    ensures r.Ok? ==> IsSettled(r.value, policy, capabilities)
  {
    hide MarkMatches, Selects, Forwards, FirstSupported, Forwarded;
    ghost var demands := SharedDemands(policy, capabilities);
    var supported := FirstSupported(capabilities.allocations);
    if supported.None? { RefusedAt(demands, 0); return Err(ResourceConflict); }
    var allocation := supported.value;
    if MarkMatches(BypassMark(policy), allocation.mark, allocation.mask) {
      RefusedAt(demands, 1);
      return Err(BypassMarkConflict);
    }
    var interfaces := ResolveInterfaces(policy.interfaces, capabilities.interfaces);
    if interfaces.Err? { RefusedAt(demands, 2); return Err(interfaces.error); }
    assert interfaces.value.Some? ==> interfaces.value.value[0] in interfaces.value.value;
    assert ScopeExists(policy, capabilities);
    var forwarding := ResolveForwardingInterfaces(policy.forwarding, capabilities.interfaces);
    if forwarding.Err? { RefusedAt(demands, 3); return Err(forwarding.error); }
    r := Ok(Settled(allocation, interfaces.value, forwarding.value));
  }

  /** Demands in three groups: the first group that is not met decides. */
  lemma RefusedLater(first: Demands, second: Demands, third: Demands, error: PlanError)
    ensures AllMet(first) && AllMet(second) && AllMet(third) <==> AllMet(first + second + third)
    ensures Refuses(first, error) ==> Refuses(first + second + third, error)
    ensures AllMet(first) && Refuses(second, error) ==> Refuses(first + second + third, error)
    ensures AllMet(first) && AllMet(second) && Refuses(third, error) ==> Refuses(first + second + third, error)
  {
    MetConcat(first, second);
    MetConcat(first + second, third);
    RefusesConcat(first, second, error);
    RefusesConcat(first + second, third, error);
  }

  lemma MetConcat(a: Demands, b: Demands)
    ensures AllMet(a) && AllMet(b) <==> AllMet(a + b)
  {
    if AllMet(a + b) {
      assert forall i :: 0 <= i < |a| ==> (a + b)[i] == a[i];
      forall i | 0 <= i < |b|
        ensures b[i].0
      {
        assert (a + b)[|a| + i] == b[i];
      }
    }
  }

  lemma RefusesConcat(a: Demands, b: Demands, error: PlanError)
    ensures Refuses(a, error) ==> Refuses(a + b, error)
    ensures AllMet(a) && Refuses(b, error) ==> Refuses(a + b, error)
  {
    if Refuses(a, error) {
      var i :| 0 <= i < |a| && a[i] == (false, error) && forall j :: 0 <= j < i ==> a[j].0;
      assert (a + b)[i] == (false, error) && forall j :: 0 <= j < i ==> (a + b)[j] == a[j];
    }
    if AllMet(a) && Refuses(b, error) {
      var i :| 0 <= i < |b| && b[i] == (false, error) && forall j :: 0 <= j < i ==> b[j].0;
      var k := |a| + i;
      assert (a + b)[k] == (false, error);
      assert forall j :: 0 <= j < k ==> (a + b)[j] == if j < |a| then a[j] else b[j - |a|];
    }
  }

  method CheckPlatform(generation: nat, policy: CapturePolicy, capabilities: CapabilityReport)
    returns (r: Result<(), PlanError>)
    ensures r.Ok? <==> AllMet(PlatformDemands(generation, policy, capabilities))
    ensures r.Err? ==> Refuses(PlatformDemands(generation, policy, capabilities), r.error)
  {
    ghost var demands := PlatformDemands(generation, policy, capabilities);
    if generation == 0 { RefusedAt(demands, 0); return Err(InvalidGeneration); }
    if policy.mode != TproxyMode { RefusedAt(demands, 1); return Err(UnsupportedCaptureMode); }
    if !capabilities.android.Supported? || !capabilities.root.Supported? {
      RefusedAt(demands, 2);
      return Err(PlatformUnavailable);
    }
    if !capabilities.activeTunnel.Supported? { RefusedAt(demands, 3); return Err(ExistingTunnelConflict); }
    if policy.inboundPort != Some(capabilities.inboundPort) { RefusedAt(demands, 4); return Err(InboundPortMismatch); }
    if !capabilities.inboundPortStatus.Supported? { RefusedAt(demands, 5); return Err(InboundPortConflict); }
    if !capabilities.ipv4.SupportsTproxy() { RefusedAt(demands, 6); return Err(Ipv4TproxyUnavailable); }
    r := Ok(());
  }

  /** `NetworkPlanner::build_tproxy`.  A plan is built iff every demand is met, and the first that is not decides the
      error.  No plan leaves IPv6 unattended: an address that is present is captured or guarded. */
  method BuildTproxy(generation: nat, slot: Slot, policy: CapturePolicy, capabilities: CapabilityReport)
    returns (r: Result<NetworkPlan, PlanError>, ghost scope: Option<seq<string>>, ghost ipv6: Ipv6Handling)
    requires policy.Valid() && capabilities.Valid()
    ensures r.Ok? <==> AllMet(TproxyDemands(generation, policy, capabilities))
    ensures r.Err? ==> Refuses(TproxyDemands(generation, policy, capabilities), r.error)
    ensures r.Ok? ==> IsTproxyPlan(r.value, policy, capabilities, scope, ipv6)
    ensures r.Ok? ==> r.value.generation == generation && r.value.slot == slot && r.value.allocation.Valid()
    ensures r.Ok? ==> (ipv6.Ipv6Absent? <==> capabilities.ipv6.address.NotPresent?)
    ensures r.Ok? ==> (ipv6.Ipv6Captured? <==> capabilities.ipv6.SupportsTproxy())
    ensures r.Ok? && capabilities.ipv6.address.Supported? ==> r.value.ipv6Captured || r.value.ipv6Guarded
    ensures r.Ok? && ipv6.Ipv6Guarded? ==> policy.ipv6Guard && capabilities.ipv6.SupportsGuard()
  {
    hide TproxyPieces, StepsOf, MarkMatches, Refuses, AllMet, PlatformDemands, SharedDemands, ScopeMatches, ForwardingMatches,
         FirstSupported;
    scope, ipv6 := None, Ipv6Absent;
    ghost var first, second := PlatformDemands(generation, policy, capabilities), SharedDemands(policy, capabilities);
    ghost var third := [(Ipv6Attended(policy, capabilities), Ipv6LeakRisk)];
    OneDemand(Ipv6Attended(policy, capabilities), Ipv6LeakRisk);
    var platform := CheckPlatform(generation, policy, capabilities);
    if platform.Err? { RefusedLater(first, second, third, platform.error); r := Err(platform.error); return; }
    PlatformMet(generation, policy, capabilities);
    var shared := Settle(policy, capabilities);
    if shared.Err? { RefusedLater(first, second, third, shared.error); r := Err(shared.error); return; }
    RefusedLater(first, second, third, Ipv6LeakRisk);
    var settled := shared.value;
    var ipv6Tproxy := capabilities.ipv6.SupportsTproxy();
    if !capabilities.ipv6.address.Supported? && !capabilities.ipv6.address.NotPresent? { r := Err(Ipv6LeakRisk); return; }
    var ipv6Guarded := capabilities.ipv6.address.Supported? && !ipv6Tproxy;
    if ipv6Guarded && (!policy.ipv6Guard || !capabilities.ipv6.SupportsGuard()) { r := Err(Ipv6LeakRisk); return; }
    scope := settled.scope;
    ipv6 := if ipv6Guarded then Ipv6Guarded else if ipv6Tproxy then Ipv6Captured else Ipv6Absent;
    var steps := TproxyStepList(generation, slot, policy, settled.allocation, capabilities.inboundPort, settled.scope,
                                settled.forwarding, ipv6Tproxy, ipv6Guarded);
    r := Ok(NetworkPlan(generation, slot, TproxyMode, None, settled.allocation, BypassMark(policy), ipv6Tproxy,
                        ipv6Guarded, true, settled.forwarding, steps));
  }

  lemma OneDemand(met: bool, error: PlanError)
    ensures AllMet([(met, error)]) == met && (!met ==> Refuses([(met, error)], error))
  {
    if !met {
      RefusedAt([(met, error)], 0);
    }
  }

  lemma PlatformMet(generation: nat, policy: CapturePolicy, capabilities: CapabilityReport)
    requires AllMet(PlatformDemands(generation, policy, capabilities))
    ensures generation != 0 && policy.mode == TproxyMode && policy.inboundPort == Some(capabilities.inboundPort)
  {
    var demands := PlatformDemands(generation, policy, capabilities);
    assert demands[0].0 && demands[1].0 && demands[4].0;
  }

  lemma StepsOfConcat(a: seq<Piece>, b: seq<Piece>)
    ensures StepsOf(a + b) == StepsOf(a) + StepsOf(b)
  {
  }

  lemma StepsOfOne(a: Piece)
    ensures StepsOf([a]) == [StepOf(a)]
  {
  }

  lemma StepsOfTwo(a: Piece, b: Piece)
    ensures StepsOf([a, b]) == [StepOf(a), StepOf(b)]
  {
  }

  /** `push_policy_steps`: the route and the rule that sends marked packets to it. */
  method PushPolicySteps(
    steps: seq<Step>, family: IpFamily, allocation: ResourceCandidate, device: string, local: bool) returns (r: seq<Step>)
    ensures r == steps + StepsOf(PolicyPieces(family, allocation, device, local))
  {
    var mark, mask, table, priority := allocation.mark, allocation.mask, allocation.routeTable, allocation.rulePriority;
    r := steps + [Step(PolicyRouteAdd, PolicyRoute(Add, family, table, device, local),
                       PolicyRoute(Remove, family, table, device, local))];
    r := r + [Step(PolicyRuleAdd, PolicyRule(Add, family, mark, mask, table, priority),
                   PolicyRule(Remove, family, mark, mask, table, priority))];
    StepsOfTwo(RoutePiece(family, table, device, local), RulePiece(family, mark, mask, table, priority));
  }

  /** The step list of a TPROXY plan, pushed in order. */
  method TproxyStepList(
    generation: nat, slot: Slot, policy: CapturePolicy, allocation: ResourceCandidate, port: nat,
    interfaces: Option<seq<string>>, forwarding: seq<string>, ipv6Tproxy: bool, ipv6Guarded: bool)
    returns (steps: seq<Step>)
    requires !(ipv6Tproxy && ipv6Guarded)
    ensures steps == StepsOf(TproxyPieces(generation, slot, policy, allocation, port, interfaces, forwarding,
                               if ipv6Guarded then Ipv6Guarded else if ipv6Tproxy then Ipv6Captured else Ipv6Absent))
  {
    hide StepOf, StepsOf, PolicyPieces, TproxySection, DnsSection, FwdSection, Fwd6Section, GuardSection;
    var owner := LocalOwner(generation);
    ghost var guard := if ipv6Guarded then [SectionPiece(GuardSection(slot, policy, owner))] else [];
    steps := GuardSteps(ipv6Guarded, slot, policy, owner);
    ghost var policy4 := PolicyPieces(Ipv4, allocation, "lo", true);
    steps := PushPolicySteps(steps, Ipv4, allocation, "lo", true);
    StepsOfConcat(guard, policy4);
    ghost var policy6 := if ipv6Tproxy then PolicyPieces(Ipv6, allocation, "lo", true) else [];
    if ipv6Tproxy { steps := PushPolicySteps(steps, Ipv6, allocation, "lo", true); }
    StepsOfConcat(guard + policy4, policy6);
    StepsOfNone();
    ghost var done := guard + policy4 + policy6;
    assert steps == StepsOf(done);
    var capture4 := CaptureSteps(Ipv4, slot, policy, allocation, port, owner, interfaces);
    steps := steps + capture4;
    ghost var more := [SectionPiece(TproxySection(Ipv4, slot, policy, allocation, port, owner, interfaces)),
                       SectionPiece(DnsSection(Ipv4, slot, policy, allocation, owner, interfaces))];
    StepsOfConcat(done, more);
    done := done + more;
    more := [];
    if forwarding != [] {
      var forward := ForwardSteps(slot, policy, allocation, port, forwarding, ForwardOwner(generation));
      steps := steps + forward;
      more := [SectionPiece(FwdSection(slot, policy, allocation, port, forwarding, ForwardOwner(generation))),
               SectionPiece(Fwd6Section(slot, forwarding, ForwardOwner(generation)))];
    }
    StepsOfConcat(done, more);
    done := done + more;
    more := [];
    if ipv6Tproxy {
      var capture6 := CaptureSteps(Ipv6, slot, policy, allocation, port, owner, interfaces);
      steps := steps + capture6;
      more := [SectionPiece(TproxySection(Ipv6, slot, policy, allocation, port, owner, interfaces)),
               SectionPiece(DnsSection(Ipv6, slot, policy, allocation, owner, interfaces))];
    }
    StepsOfConcat(done, more);
  }

  lemma StepsOfNone()
    ensures StepsOf([]) == []
  {
  }

  method GuardSteps(guarded: bool, slot: Slot, policy: CapturePolicy, owner: Owner) returns (steps: seq<Step>)
    ensures steps == StepsOf(if guarded then [SectionPiece(GuardSection(slot, policy, owner))] else [])
  {
    steps := [];
    if guarded {
      var apply, rollback := Ipv6GuardPayloads(slot, policy, owner);
      steps := steps + [RestoreStep(Ipv6GuardRestore, Ipv6, Filter, apply, rollback)];
      StepsOfOne(SectionPiece(GuardSection(slot, policy, owner)));
    }
  }

  method CaptureSteps(
    family: IpFamily, slot: Slot, policy: CapturePolicy, allocation: ResourceCandidate, port: nat, owner: Owner,
    interfaces: Option<seq<string>>) returns (steps: seq<Step>)
    ensures steps == StepsOf([SectionPiece(TproxySection(family, slot, policy, allocation, port, owner, interfaces)),
                              SectionPiece(DnsSection(family, slot, policy, allocation, owner, interfaces))])
  {
    hide ApplyCommands, RollbackCommands;
    var apply, rollback := TproxyPayloads(family, slot, policy, allocation, port, owner, interfaces);
    steps := [RestoreStep(NetfilterRestore, family, Mangle, apply, rollback)];
    apply, rollback := DnsGuardPayloads(family, slot, policy, allocation, owner, interfaces);
    steps := steps + [RestoreStep(DnsGuardRestore, family, Filter, apply, rollback)];
    StepsOfTwo(SectionPiece(TproxySection(family, slot, policy, allocation, port, owner, interfaces)),
               SectionPiece(DnsSection(family, slot, policy, allocation, owner, interfaces)));
  }

  method TunnelSteps(
    family: IpFamily, slot: Slot, policy: CapturePolicy, allocation: ResourceCandidate, owner: Owner,
    interfaces: Option<seq<string>>) returns (steps: seq<Step>)
    ensures steps == StepsOf([SectionPiece(TunSection(family, slot, policy, allocation, owner, interfaces)),
                              SectionPiece(DnsSection(family, slot, policy, allocation, owner, interfaces))])
  {
    hide ApplyCommands, RollbackCommands;
    var apply, rollback := TunPayloads(family, slot, policy, allocation, owner, interfaces);
    steps := [RestoreStep(NetfilterRestore, family, Mangle, apply, rollback)];
    apply, rollback := DnsGuardPayloads(family, slot, policy, allocation, owner, interfaces);
    steps := steps + [RestoreStep(DnsGuardRestore, family, Filter, apply, rollback)];
    StepsOfTwo(SectionPiece(TunSection(family, slot, policy, allocation, owner, interfaces)),
               SectionPiece(DnsSection(family, slot, policy, allocation, owner, interfaces)));
  }

  method ForwardSteps(
    slot: Slot, policy: CapturePolicy, allocation: ResourceCandidate, port: nat, interfaces: seq<string>, owner: Owner)
    returns (steps: seq<Step>)
    ensures steps == StepsOf([SectionPiece(FwdSection(slot, policy, allocation, port, interfaces, owner)),
                              SectionPiece(Fwd6Section(slot, interfaces, owner))])
  {
    hide ApplyCommands, RollbackCommands;
    var apply, rollback := ForwardingPayloads(slot, policy, allocation, port, interfaces, owner);
    steps := [RestoreStep(ForwardingRestore, Ipv4, Mangle, apply, rollback)];
    apply, rollback := ForwardingIpv6GuardPayloads(slot, interfaces, owner);
    steps := steps + [RestoreStep(ForwardingRestore, Ipv6, Filter, apply, rollback)];
    StepsOfTwo(SectionPiece(FwdSection(slot, policy, allocation, port, interfaces, owner)),
               SectionPiece(Fwd6Section(slot, interfaces, owner)));
  }

  method CheckTunnel(generation: nat, policy: CapturePolicy, capabilities: CapabilityReport)
    returns (r: Result<(), PlanError>)
    ensures r.Ok? <==> AllMet(TunnelDemands(generation, policy, capabilities))
    ensures r.Err? ==> Refuses(TunnelDemands(generation, policy, capabilities), r.error)
    ensures r.Ok? ==> generation != 0 && policy.mode == TunMode
  {
    ghost var demands := TunnelDemands(generation, policy, capabilities);
    if generation == 0 { RefusedAt(demands, 0); return Err(InvalidGeneration); }
    if policy.mode != TunMode { RefusedAt(demands, 1); return Err(UnsupportedCaptureMode); }
    if !capabilities.android.Supported? || !capabilities.root.Supported? {
      RefusedAt(demands, 2);
      return Err(PlatformUnavailable);
    }
    if !capabilities.tun.Supported? { RefusedAt(demands, 3); return Err(TunUnavailable); }
    if !capabilities.activeTunnel.Supported? { RefusedAt(demands, 4); return Err(ExistingTunnelConflict); }
    r := Ok(());
  }

  /** `NetworkPlanner::build_tun`.  Its guard branch asks for an IPv6 address that is at once absent and supported, so
      every plan it returns captures IPv6. */
  method BuildTun(generation: nat, slot: Slot, policy: CapturePolicy, capabilities: CapabilityReport)
    returns (r: Result<NetworkPlan, PlanError>, ghost scope: Option<seq<string>>)
    requires policy.Valid() && capabilities.Valid()
    ensures r.Ok? <==> AllMet(TunDemands(generation, policy, capabilities))
    ensures r.Err? ==> Refuses(TunDemands(generation, policy, capabilities), r.error)
    ensures r.Ok? ==> IsTunPlan(r.value, policy, capabilities, scope, Ipv6Captured)
    ensures r.Ok? ==> r.value.generation == generation && r.value.slot == slot && r.value.allocation.Valid()
    ensures r.Ok? ==> r.value.ipv6Captured && !r.value.ipv6Guarded && capabilities.ipv6.address.Supported?
  {
    hide TunPieces, StepsOf, MarkMatches, Refuses, AllMet, TunnelDemands, SharedDemands, ScopeMatches, ForwardingMatches,
         FirstSupported;
    scope := None;
    ghost var first, second := TunnelDemands(generation, policy, capabilities), SharedDemands(policy, capabilities);
    ghost var third := [(capabilities.ipv6.address.Supported?, Ipv6LeakRisk)];
    OneDemand(capabilities.ipv6.address.Supported?, Ipv6LeakRisk);
    var tunnel := CheckTunnel(generation, policy, capabilities);
    if tunnel.Err? { RefusedLater(first, second, third, tunnel.error); r := Err(tunnel.error); return; }
    var shared := Settle(policy, capabilities);
    if shared.Err? { RefusedLater(first, second, third, shared.error); r := Err(shared.error); return; }
    RefusedLater(first, second, third, Ipv6LeakRisk);
    var settled := shared.value;
    if !capabilities.ipv6.address.Supported? && !capabilities.ipv6.address.NotPresent? { r := Err(Ipv6LeakRisk); return; }
    var ipv6Present := capabilities.ipv6.address.Supported?;
    if !ipv6Present && (!policy.ipv6Guard || !capabilities.ipv6.SupportsGuard()) { r := Err(Ipv6LeakRisk); return; }
    scope := settled.scope;
    var steps := TunStepList(generation, slot, policy, settled.allocation, settled.scope, ipv6Present);
    r := Ok(NetworkPlan(generation, slot, TunMode, Some("nethop0"), settled.allocation, BypassMark(policy), ipv6Present,
                        !ipv6Present, true, settled.forwarding, steps));
  }

  method TunStepList(
    generation: nat, slot: Slot, policy: CapturePolicy, allocation: ResourceCandidate, interfaces: Option<seq<string>>,
    ipv6Present: bool) returns (steps: seq<Step>)
    ensures steps == StepsOf(TunPieces(generation, slot, policy, allocation, interfaces,
                                       if ipv6Present then Ipv6Captured else Ipv6Guarded))
  {
    hide StepOf, StepsOf, PolicyPieces, TunSection, DnsSection, GuardSection;
    var owner := TunOwner(generation);
    ghost var done := if !ipv6Present then [SectionPiece(GuardSection(slot, policy, owner))] else [];
    steps := GuardSteps(!ipv6Present, slot, policy, owner);
    ghost var more := PolicyPieces(Ipv4, allocation, "nethop0", false);
    steps := PushPolicySteps(steps, Ipv4, allocation, "nethop0", false);
    StepsOfConcat(done, more);
    done := done + more;
    StepsOfNone();
    more := if ipv6Present then PolicyPieces(Ipv6, allocation, "nethop0", false) else [];
    if ipv6Present { steps := PushPolicySteps(steps, Ipv6, allocation, "nethop0", false); }
    StepsOfConcat(done, more);
    done := done + more;
    var tunnel4 := TunnelSteps(Ipv4, slot, policy, allocation, owner, interfaces);
    steps := steps + tunnel4;
    more := [SectionPiece(TunSection(Ipv4, slot, policy, allocation, owner, interfaces)),
             SectionPiece(DnsSection(Ipv4, slot, policy, allocation, owner, interfaces))];
    StepsOfConcat(done, more);
    done := done + more;
    more := [];
    if ipv6Present {
      var tunnel6 := TunnelSteps(Ipv6, slot, policy, allocation, owner, interfaces);
      steps := steps + tunnel6;
      more := [SectionPiece(TunSection(Ipv6, slot, policy, allocation, owner, interfaces)),
               SectionPiece(DnsSection(Ipv6, slot, policy, allocation, owner, interfaces))];
    }
    StepsOfConcat(done, more);
  }
}
