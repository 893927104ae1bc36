/** Capture policies: which applications, transports and interfaces are taken over. */
module Capture {
  import opened Wrappers
  import opened Ordering

  const MAX_UIDS := 2048

  datatype CaptureMode = TproxyMode | TunMode | DirectMode

  datatype CapturePolicyError =
    | MissingTproxyMark | MissingTproxyPort | TooManyUids | OverlappingUidPolicy | MissingTransport
    | InvalidInterfacePolicy

  datatype InterfacePolicy = InterfacePolicy(mobile: bool, wifi: bool, included: seq<string>, excluded: seq<string>) {
    predicate Unrestricted() {
      mobile && wifi && included == [] && excluded == []
    }
  }

  const DEFAULT_INTERFACES := InterfacePolicy(true, true, [], [])

  datatype ForwardingPolicy = ForwardingPolicy(hotspot: bool, usb: bool) {
    predicate Enabled() {
      hotspot || usb
    }
  }

  datatype CapturePolicy = CapturePolicy(
    mode: CaptureMode, proxyTcp: bool, proxyUdp: bool, ipv6Guard: bool,
    inboundPort: Option<nat>, bypassMark: Option<bv32>,
    includeUids: seq<nat>, excludeUids: seq<nat>,
    interfaces: InterfacePolicy, forwarding: ForwardingPolicy)
  {
    /** What the constructors establish. */
    ghost predicate Valid() {
      && StrictlyIncreasing(includeUids) && StrictlyIncreasing(excludeUids)
      && |includeUids| <= MAX_UIDS && |excludeUids| <= MAX_UIDS
      && (forall uid :: uid in includeUids ==> uid !in excludeUids)
      && (mode != DirectMode ==> proxyTcp || proxyUdp)
      && (mode == TproxyMode ==> bypassMark.Some? && bypassMark.value != 0)
      && (mode == TproxyMode ==> inboundPort.Some? && inboundPort.value != 0)
    }

    predicate CapturesUid(uid: nat) {
      && (includeUids == [] || BinarySearch(includeUids, uid, 0, |includeUids|))
      && !BinarySearch(excludeUids, uid, 0, |excludeUids|)
    }

    /** The two binary searches decide membership: an empty included list stands for every UID. */
    lemma CapturesUidMeaning(uid: nat)
      requires Valid()
      ensures CapturesUid(uid) <==> (includeUids == [] || uid in includeUids) && uid !in excludeUids
    {
      BinarySearchFinds(includeUids, uid, 0, |includeUids|);
      BinarySearchFinds(excludeUids, uid, 0, |excludeUids|);
      assert includeUids[0..|includeUids|] == includeUids && excludeUids[0..|excludeUids|] == excludeUids;
    }
  }

  /** Something is to be taken over, but no transport. */
  predicate NoTransport(mode: CaptureMode, tcp: bool, udp: bool) {
    mode != DirectMode && !tcp && !udp
  }

  /** TPROXY needs a mark and a port, neither of them zero. */
  predicate NoMark(mode: CaptureMode, mark: Option<bv32>) {
    mode == TproxyMode && (mark.Some? ==> mark.value == 0)
  }

  predicate NoPort(mode: CaptureMode, port: Option<nat>) {
    mode == TproxyMode && (port.Some? ==> port.value == 0)
  }

  /** `CapturePolicy::new_with_protocols`: validates, then sorts and deduplicates both UID lists. */
  function NewWithProtocols(
    mode: CaptureMode, proxyTcp: bool, proxyUdp: bool, ipv6Guard: bool,
    inboundPort: Option<nat>, bypassMark: Option<bv32>, included: seq<nat>, excluded: seq<nat>)
    : (r: Result<CapturePolicy, CapturePolicyError>)
    ensures r.Ok? ==>
              && r.value.Valid() && r.value.mode == mode
              && (forall uid :: uid in r.value.includeUids <==> uid in included)
              && (forall uid :: uid in r.value.excludeUids <==> uid in excluded)
    ensures r == Err(OverlappingUidPolicy) ==> exists uid :: uid in included && uid in excluded
    ensures (exists uid :: uid in included && uid in excluded) ==> r.Err?
  {
    if NoTransport(mode, proxyTcp, proxyUdp) then Err(MissingTransport)
    else if NoMark(mode, bypassMark) then Err(MissingTproxyMark)
    else if NoPort(mode, inboundPort) then Err(MissingTproxyPort)
    else if |included| > MAX_UIDS || |excluded| > MAX_UIDS then Err(TooManyUids)
    else
      var included' := SortDedup(included);
      var excluded' := SortDedup(excluded);
      assert forall uid :: BinarySearch(excluded', uid, 0, |excluded'|) <==> uid in excluded' by {
        forall uid ensures BinarySearch(excluded', uid, 0, |excluded'|) <==> uid in excluded' {
          BinarySearchFinds(excluded', uid, 0, |excluded'|);
          assert excluded'[0..|excluded'|] == excluded';
        }
      }
      if exists i :: 0 <= i < |included'| && BinarySearch(excluded', included'[i], 0, |excluded'|)
      then
        ghost var i :| 0 <= i < |included'| && BinarySearch(excluded', included'[i], 0, |excluded'|);
        assert included'[i] in included && included'[i] in excluded;
        Err(OverlappingUidPolicy)
      else
        Ok(CapturePolicy(mode, proxyTcp, proxyUdp, ipv6Guard, inboundPort, bypassMark, included', excluded',
                         DEFAULT_INTERFACES, ForwardingPolicy(false, false)))
  }

  /** When a policy is made, when it is refused and why, and that what was asked for is what it holds. */
  lemma NewExactly(
    mode: CaptureMode, proxyTcp: bool, proxyUdp: bool, ipv6Guard: bool,
    inboundPort: Option<nat>, bypassMark: Option<bv32>, included: seq<nat>, excluded: seq<nat>)
    ensures var r := NewWithProtocols(mode, proxyTcp, proxyUdp, ipv6Guard, inboundPort, bypassMark, included, excluded);
      && (r == Err(MissingTransport) <==> mode != DirectMode && !proxyTcp && !proxyUdp)
      && (r == Err(MissingTproxyMark) <==> !NoTransport(mode, proxyTcp, proxyUdp) && NoMark(mode, bypassMark))
      && (r == Err(MissingTproxyPort) <==>
            !NoTransport(mode, proxyTcp, proxyUdp) && !NoMark(mode, bypassMark) && NoPort(mode, inboundPort))
      && (r == Err(TooManyUids) <==>
            && !NoTransport(mode, proxyTcp, proxyUdp) && !NoMark(mode, bypassMark) && !NoPort(mode, inboundPort)
            && (|included| > MAX_UIDS || |excluded| > MAX_UIDS))
      && (r.Ok? <==>
            && !NoTransport(mode, proxyTcp, proxyUdp) && !NoMark(mode, bypassMark) && !NoPort(mode, inboundPort)
            && |included| <= MAX_UIDS && |excluded| <= MAX_UIDS && !exists uid :: uid in included && uid in excluded)
      && (r.Ok? ==>
            && r.value.proxyTcp == proxyTcp && r.value.proxyUdp == proxyUdp && r.value.ipv6Guard == ipv6Guard
            && r.value.inboundPort == inboundPort && r.value.bypassMark == bypassMark
            && r.value.interfaces.Unrestricted() && !r.value.forwarding.Enabled())
  {
    hide SortDedup, BinarySearch, NoMark, NoPort;
  }

  /** `with_interface_policy`: without capture there are no interfaces to restrict. */
  function WithInterfacePolicy(policy: CapturePolicy, interfaces: InterfacePolicy): (r: Result<CapturePolicy, CapturePolicyError>)
    ensures r.Err? <==> policy.mode == DirectMode && !interfaces.Unrestricted()
    ensures r.Ok? ==> r.value.interfaces == interfaces && (policy.Valid() ==> r.value.Valid())
    ensures r.Ok? ==> forall uid :: r.value.CapturesUid(uid) == policy.CapturesUid(uid)
  {
    if policy.mode == DirectMode && !interfaces.Unrestricted() then Err(InvalidInterfacePolicy)
    else Ok(policy.(interfaces := interfaces))
  }

  /** `with_forwarding_policy`: nor anything to forward. */
  function WithForwardingPolicy(policy: CapturePolicy, forwarding: ForwardingPolicy): (r: Result<CapturePolicy, CapturePolicyError>)
    ensures r.Err? <==> policy.mode == DirectMode && forwarding.Enabled()
    ensures r.Ok? ==> r.value.forwarding == forwarding && (policy.Valid() ==> r.value.Valid())
    ensures r.Ok? ==> forall uid :: r.value.CapturesUid(uid) == policy.CapturesUid(uid)
  {
    if policy.mode == DirectMode && forwarding.Enabled() then Err(InvalidInterfacePolicy)
    else Ok(policy.(forwarding := forwarding))
  }
}
