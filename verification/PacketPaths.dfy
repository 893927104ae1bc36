/** What the emitted chains do to packets: the compiled rules against the policy they were compiled from. */
module PacketPaths {
  import opened Wrappers
  import opened Ordering
  import opened Netfilter
  import opened Capture
  import opened Capability
  import opened Plan

  // ----- what the policy says -----

  /** The sender is captured.  Packets without a local sender are captured only when no UID list restricts it. */
  predicate Selected(policy: CapturePolicy, owner: Option<nat>) {
    match owner
    case Some(uid) => policy.CapturesUid(uid)
    case None => policy.includeUids == []
  }

  predicate InScope(scope: Option<seq<string>>, name: string) {
    scope.Some? ==> exists i :: 0 <= i < |scope.value| && InterfaceMatches(scope.value[i], name)
  }

  predicate PlainDns(p: Packet) {
    (p.protocol == Tcp || p.protocol == Udp) && p.dport == 53
  }

  predicate DnsOverTls(p: Packet) {
    p.protocol == Tcp && p.dport == 853
  }

  predicate Marked(allocation: ResourceCandidate, mark: bv32) {
    MarkMatches(mark, allocation.mark, allocation.mask)
  }

  /** The bypass rule of the mangle chains compares the masked mark with the whole bypass mark. */
  predicate Bypasses(policy: CapturePolicy, allocation: ResourceCandidate, mark: bv32) {
    MarkMatches(mark, BypassMark(policy), allocation.mask)
  }

  predicate TproxyCaptures(family: IpFamily, policy: CapturePolicy, scope: Option<seq<string>>, p: Packet) {
    || PlainDns(p)
    || (Selected(policy, p.owner) && !InAny(p.dst, ReservedDestinations(family)) && InScope(scope, p.oif))
  }

  predicate TunCaptures(policy: CapturePolicy, scope: Option<seq<string>>, p: Packet) {
    p.oif != "lo" && Selected(policy, p.owner) && InScope(scope, p.oif)
  }

  predicate TransportProxied(policy: CapturePolicy, p: Packet) {
    (p.protocol == Tcp && policy.proxyTcp) || (p.protocol == Udp && policy.proxyUdp)
  }

  function Remark(allocation: ResourceCandidate, mark: bv32, captured: bool): bv32 {
    if captured then XMark(mark, allocation.mark, allocation.mask) else mark
  }

  /** The packet goes on with the caller's next rule, carrying `mark`. */
  predicate Passes(s: Scanned, mark: bv32) {
    !s.Decided? && s.mark == mark
  }

  // ----- blocks of rules -----

  lemma Applies0(target: Target, p: Packet, mark: bv32)
    ensures Applies(Rule([], target), p, mark)
  {
  }

  lemma Applies1(a: Match, target: Target, p: Packet, mark: bv32)
    ensures Applies(Rule([a], target), p, mark) <==> Holds(a, p, mark)
  {
    assert a in [a];
  }

  lemma Applies2(a: Match, b: Match, target: Target, p: Packet, mark: bv32)
    ensures Applies(Rule([a, b], target), p, mark) <==> Holds(a, p, mark) && Holds(b, p, mark)
  {
    assert a in [a, b] && b in [a, b];
  }

  lemma Applies3(a: Match, b: Match, c: Match, target: Target, p: Packet, mark: bv32)
    ensures Applies(Rule([a, b, c], target), p, mark) <==> Holds(a, p, mark) && Holds(b, p, mark) && Holds(c, p, mark)
  {
    assert a in [a, b, c] && b in [a, b, c] && c in [a, b, c];
  }

  lemma AppliesSnoc(prefix: seq<Match>, m: Match, target: Target, p: Packet, mark: bv32)
    ensures Applies(Rule(prefix + [m], target), p, mark) <==>
            Applies(Rule(prefix, target), p, mark) && Holds(m, p, mark)
  {
    assert m in prefix + [m];
    assert forall x :: x in prefix ==> x in prefix + [m];
  }

  /** What a rule of target `target` followed by `rest` does, given whether its conditions hold. */
  function Fire(on: bool, target: Target, chains: Chains, rest: seq<Rule>, p: Packet, mark: bv32): Scanned
    requires !target.Jump?
  {
    if !on then Scan(chains, rest, p, mark)
    else
      match target
      case Return => Returned(mark)
      case Accept => Decided(Accepted, mark)
      case Drop => Decided(Dropped, mark)
      case SetXMark(value, mask) => Scan(chains, rest, p, XMark(mark, value, mask))
      case Tproxy(port, value, mask) => Decided(Proxied(port), XMark(mark, value, mask))
  }

  lemma Fire0(target: Target, chains: Chains, rest: seq<Rule>, p: Packet, mark: bv32)
    requires !target.Jump?
    ensures Scan(chains, [Rule([], target)] + rest, p, mark) == Fire(true, target, chains, rest, p, mark)
  {
    assert ([Rule([], target)] + rest)[1..] == rest;
    Applies0(target, p, mark);
  }

  lemma Fire1(a: Match, target: Target, chains: Chains, rest: seq<Rule>, p: Packet, mark: bv32)
    requires !target.Jump?
    ensures Scan(chains, [Rule([a], target)] + rest, p, mark) ==
            Fire(Holds(a, p, mark), target, chains, rest, p, mark)
  {
    assert ([Rule([a], target)] + rest)[1..] == rest;
    Applies1(a, target, p, mark);
  }

  lemma Fire2(a: Match, b: Match, target: Target, chains: Chains, rest: seq<Rule>, p: Packet, mark: bv32)
    requires !target.Jump?
    ensures Scan(chains, [Rule([a, b], target)] + rest, p, mark) ==
            Fire(Holds(a, p, mark) && Holds(b, p, mark), target, chains, rest, p, mark)
  {
    assert ([Rule([a, b], target)] + rest)[1..] == rest;
    Applies2(a, b, target, p, mark);
  }

  lemma Fire3(a: Match, b: Match, c: Match, target: Target, chains: Chains, rest: seq<Rule>, p: Packet, mark: bv32)
    requires !target.Jump?
    ensures Scan(chains, [Rule([a, b, c], target)] + rest, p, mark) ==
            Fire(Holds(a, p, mark) && Holds(b, p, mark) && Holds(c, p, mark), target, chains, rest, p, mark)
  {
    assert ([Rule([a, b, c], target)] + rest)[1..] == rest;
    Applies3(a, b, c, target, p, mark);
  }

  lemma ScanNil(chains: Chains, p: Packet, mark: bv32)
    ensures Scan(chains, [], p, mark) == Continue(mark)
  {
  }

  /** What a last rule does. */
  function Alone(on: bool, target: Target, mark: bv32): Scanned
    requires !target.Jump?
  {
    if !on then Continue(mark)
    else
      match target
      case Return => Returned(mark)
      case Accept => Decided(Accepted, mark)
      case Drop => Decided(Dropped, mark)
      case SetXMark(value, mask) => Continue(XMark(mark, value, mask))
      case Tproxy(port, value, mask) => Decided(Proxied(port), XMark(mark, value, mask))
  }

  /** Runs a list whose last element is a single rule. */
  lemma ScanSnoc(chains: Chains, a: seq<Rule>, rule: Rule, p: Packet, mark: bv32)
    requires !rule.target.Jump?
    ensures Scan(chains, a + [rule], p, mark) ==
            var first := Scan(chains, a, p, mark);
            if first.Continue? then Alone(Applies(rule, p, first.mark), rule.target, first.mark) else first
  {
    ScanAppend(chains, a, [rule], p, mark);
    assert [rule][1..] == [];
  }

  lemma {:induction false} ScanUidReturns(chains: Chains, uids: seq<nat>, p: Packet, mark: bv32)
    ensures Scan(chains, UidReturns(uids), p, mark) ==
            if p.owner.Some? && p.owner.value in uids then Returned(mark) else Continue(mark)
  {
    hide Scan;
    ScanNil(chains, p, mark);
    if uids != [] {
      var init, last := uids[..|uids| - 1], uids[|uids| - 1];
      assert uids == init + [last];
      ScanUidReturns(chains, init, p, mark);
      ScanSnoc(chains, UidReturns(init), Rule([OwnedBy(last)], Return), p, mark);
      Applies1(OwnedBy(last), Return, p, mark);
    }
  }

  lemma {:induction false} ScanNetworkReturns(chains: Chains, networks: seq<Cidr>, p: Packet, mark: bv32)
    ensures Scan(chains, NetworkReturns(networks), p, mark) ==
            if InAny(p.dst, networks) then Returned(mark) else Continue(mark)
  {
    hide Scan;
    ScanNil(chains, p, mark);
    if networks != [] {
      var n := |networks| - 1;
      var init, last := networks[..n], networks[n];
      ScanNetworkReturns(chains, init, p, mark);
      ScanSnoc(chains, NetworkReturns(init), Rule([ToNetwork(last)], Return), p, mark);
      Applies1(ToNetwork(last), Return, p, mark);
      if InAny(p.dst, init) {
        var i :| 0 <= i < |init| && InNetwork(p.dst, init[i]);
        assert networks[i] == init[i];
      }
      if InAny(p.dst, networks) && !InNetwork(p.dst, last) {
        var i :| 0 <= i < |networks| && InNetwork(p.dst, networks[i]);
        assert init[i] == networks[i];
      }
    }
  }

  /** Marking twice is marking once. */
  lemma RemarkTwice(allocation: ResourceCandidate, mark: bv32, a: bool, b: bool)
    requires allocation.Valid()
    ensures Remark(allocation, Remark(allocation, mark, a), b) == Remark(allocation, mark, a || b)
  {
    XMarkIdempotent(mark, allocation.mark, allocation.mask);
  }

  lemma {:induction false} ScanUidMarks(
    chains: Chains, prefix: seq<Match>, uids: seq<nat>, allocation: ResourceCandidate, p: Packet, mark: bv32, on: bool)
    requires allocation.Valid()
    requires forall target, m :: Applies(Rule(prefix, target), p, m) == on
    ensures Scan(chains, UidMarks(prefix, uids, allocation), p, mark) ==
            Continue(Remark(allocation, mark, on && p.owner.Some? && p.owner.value in uids))
  {
    hide Scan, XMark, MarkMatches;
    ScanNil(chains, p, mark);
    if uids != [] {
      var init, last := uids[..|uids| - 1], uids[|uids| - 1];
      assert uids == init + [last];
      ScanUidMarks(chains, prefix, init, allocation, p, mark, on);
      var rule := MarkRule(prefix + [OwnedBy(last)], allocation);
      ScanSnoc(chains, UidMarks(prefix, init, allocation), rule, p, mark);
      var before := on && p.owner.Some? && p.owner.value in init;
      AppliesSnoc(prefix, OwnedBy(last), rule.target, p, Remark(allocation, mark, before));
      assert Applies(Rule(prefix, rule.target), p, Remark(allocation, mark, before)) == on;
      RemarkTwice(allocation, mark, before, on && p.owner == Some(last));
    }
  }

  lemma ScanIncludedMarks(
    chains: Chains, prefix: seq<Match>, uids: seq<nat>, allocation: ResourceCandidate, p: Packet, mark: bv32, on: bool)
    requires allocation.Valid()
    requires forall target, m :: Applies(Rule(prefix, target), p, m) == on
    ensures Scan(chains, IncludedMarks(prefix, uids, allocation), p, mark) ==
            Continue(Remark(allocation, mark, on && (uids == [] || (p.owner.Some? && p.owner.value in uids))))
  {
    hide Scan, XMark, MarkMatches;
    ScanNil(chains, p, mark);
    if uids == [] {
      var rule := MarkRule(prefix, allocation);
      ScanSnoc(chains, [], rule, p, mark);
      assert [] + [rule] == [rule];
      assert Applies(Rule(prefix, rule.target), p, mark) == on;
    } else {
      ScanUidMarks(chains, prefix, uids, allocation, p, mark, on);
    }
  }

  lemma {:induction false} ScanInterfaceMarks(
    chains: Chains, interfaces: seq<string>, uids: seq<nat>, allocation: ResourceCandidate, p: Packet, mark: bv32)
    requires allocation.Valid()
    ensures Scan(chains, InterfaceMarks(interfaces, uids, allocation), p, mark) ==
            Continue(Remark(allocation, mark,
                            InScope(Some(interfaces), p.oif)
                            && (uids == [] || (p.owner.Some? && p.owner.value in uids))))
  {
    hide Scan, XMark, MarkMatches;
    ScanNil(chains, p, mark);
    if interfaces != [] {
      var n := |interfaces| - 1;
      var init, last := interfaces[..n], interfaces[n];
      var sender := uids == [] || (p.owner.Some? && p.owner.value in uids);
      ScanInterfaceMarks(chains, init, uids, allocation, p, mark);
      var between := Remark(allocation, mark, InScope(Some(init), p.oif) && sender);
      ScanAppend(chains, InterfaceMarks(init, uids, allocation), IncludedMarks([OnOutput(last)], uids, allocation), p, mark);
      var on := InterfaceMatches(last, p.oif);
      forall target, m ensures Applies(Rule([OnOutput(last)], target), p, m) == on {
        Applies1(OnOutput(last), target, p, m);
      }
      ScanIncludedMarks(chains, [OnOutput(last)], uids, allocation, p, between, on);
      RemarkTwice(allocation, mark, InScope(Some(init), p.oif) && sender, on && sender);
      ScopeSnoc(interfaces, p.oif);
    }
  }

  lemma ScopeSnoc(interfaces: seq<string>, name: string)
    requires interfaces != []
    ensures InScope(Some(interfaces), name) <==>
            InScope(Some(interfaces[..|interfaces| - 1]), name)
            || InterfaceMatches(interfaces[|interfaces| - 1], name)
  {
    var init := interfaces[..|interfaces| - 1];
    if InScope(Some(init), name) {
      var i :| 0 <= i < |init| && InterfaceMatches(init[i], name);
      assert interfaces[i] == init[i];
    }
    if InScope(Some(interfaces), name) {
      var i :| 0 <= i < |interfaces| && InterfaceMatches(interfaces[i], name);
      if i < |init| { assert init[i] == interfaces[i]; }
    }
  }

  lemma ScanCaptureRules(
    chains: Chains, scope: Option<seq<string>>, uids: seq<nat>, allocation: ResourceCandidate, p: Packet, mark: bv32)
    requires allocation.Valid()
    ensures Scan(chains, CaptureRules(scope, uids, allocation), p, mark) ==
            Continue(Remark(allocation, mark,
                            InScope(scope, p.oif) && (uids == [] || (p.owner.Some? && p.owner.value in uids))))
  {
    hide Scan, XMark, MarkMatches;
    match scope
    case Some(interfaces) => ScanInterfaceMarks(chains, interfaces, uids, allocation, p, mark);
    case None =>
      forall target, m ensures Applies(Rule([], target), p, m) == true { Applies0(target, p, m); }
      ScanIncludedMarks(chains, [], uids, allocation, p, mark, true);
  }

  /** The exclude returns followed by the capture rules mark exactly the selected senders. */
  lemma SelectedMeaning(policy: CapturePolicy, owner: Option<nat>)
    requires policy.Valid()
    ensures Selected(policy, owner) <==>
            && !(owner.Some? && owner.value in policy.excludeUids)
            && (policy.includeUids == [] || (owner.Some? && owner.value in policy.includeUids))
  {
    if owner.Some? { policy.CapturesUidMeaning(owner.value); }
  }

  // ----- NH_OUT -----

  lemma ScanOutBody(
    chains: Chains, family: IpFamily, policy: CapturePolicy, allocation: ResourceCandidate, scope: Option<seq<string>>,
    p: Packet, mark: bv32)
    requires policy.Valid() && allocation.Valid()
    ensures Passes(Scan(chains, OutBody(family, policy, allocation, scope), p, mark),
                   Remark(allocation, mark, TproxyCaptures(family, policy, scope, p)))
  {
    hide Scan, XMark, MarkMatches, CaptureRules, UidReturns, NetworkReturns, ReservedDestinations, CapturePolicy.Valid, ResourceCandidate.Valid;
    var capture := CaptureRules(scope, policy.includeUids, allocation);
    var networks := NetworkReturns(ReservedDestinations(family)) + capture;
    var excluded := UidReturns(policy.excludeUids) + networks;
    var remark := SetXMark(allocation.mark, allocation.mask);
    Fire2(OfProtocol(Tcp), ToPort(53), remark, chains, [MarkRule([OfProtocol(Udp), ToPort(53)], allocation)] + excluded, p, mark);
    var tcp := Remark(allocation, mark, p.protocol == Tcp && p.dport == 53);
    Fire2(OfProtocol(Udp), ToPort(53), remark, chains, excluded, p, tcp);
    var next := Remark(allocation, mark, PlainDns(p));
    RemarkTwice(allocation, mark, p.protocol == Tcp && p.dport == 53, p.protocol == Udp && p.dport == 53);
    ScanAfterDns(chains, family, policy, allocation, scope, p, next);
    RemarkTwice(allocation, mark, PlainDns(p), TproxyCaptures(family, policy, scope, p));
    RemarkTwice(allocation, mark, PlainDns(p), !PlainDns(p) && TproxyCaptures(family, policy, scope, p));
  }

  /** Below the DNS rules: excluded senders, reserved destinations, then the capture rules. */
  lemma ScanAfterDns(
    chains: Chains, family: IpFamily, policy: CapturePolicy, allocation: ResourceCandidate, scope: Option<seq<string>>,
    p: Packet, mark: bv32)
    requires policy.Valid() && allocation.Valid()
    ensures var rules := UidReturns(policy.excludeUids)
                         + (NetworkReturns(ReservedDestinations(family))
                            + CaptureRules(scope, policy.includeUids, allocation));
            var captured := Selected(policy, p.owner) && !InAny(p.dst, ReservedDestinations(family)) && InScope(scope, p.oif);
            Passes(Scan(chains, rules, p, mark), Remark(allocation, mark, captured))
  {
    hide Scan, XMark, MarkMatches;
    var capture := CaptureRules(scope, policy.includeUids, allocation);
    var networks := NetworkReturns(ReservedDestinations(family));
    ScanAppend(chains, UidReturns(policy.excludeUids), networks + capture, p, mark);
    ScanUidReturns(chains, policy.excludeUids, p, mark);
    ScanAppend(chains, networks, capture, p, mark);
    ScanNetworkReturns(chains, ReservedDestinations(family), p, mark);
    ScanCaptureRules(chains, scope, policy.includeUids, allocation, p, mark);
    SelectedMeaning(policy, p.owner);
  }

  /** The output chain meets the policy: bypassed packets return, replies are accepted, and any other packet gets
      the capture mark exactly when the policy captures it. */
  lemma OutChainMeetsPolicy(
    chains: Chains, family: IpFamily, policy: CapturePolicy, allocation: ResourceCandidate, scope: Option<seq<string>>,
    p: Packet, mark: bv32)
    requires policy.Valid() && allocation.Valid()
    ensures var result := Scan(chains, OutChain(family, policy, allocation, scope), p, mark);
            if Bypasses(policy, allocation, mark) then result == Returned(mark)
            else if p.reply then result == Decided(Accepted, mark)
            else Passes(result, Remark(allocation, mark, TproxyCaptures(family, policy, scope, p)))
  {
    hide Scan, XMark, MarkMatches;
    var rest := OutBody(family, policy, allocation, scope);
    Fire1(MarkIs(BypassMark(policy), allocation.mask), Return, chains, [ReplyAccept()] + rest, p, mark);
    Fire1(InReplyDirection, Accept, chains, rest, p, mark);
    ScanOutBody(chains, family, policy, allocation, scope, p, mark);
  }

  // ----- the core's own traffic -----

  lemma MaskedMatch(value: bv32, mask: bv32)
    ensures MarkMatches(value, value, mask) <==> Within(value, mask)
  {
  }

  lemma MatchedWithin(mark: bv32, value: bv32, mask: bv32)
    requires MarkMatches(mark, value, mask)
    ensures Within(value, mask)
  {
  }

  /** Some mark is let through by the bypass rule exactly when the bypass mark has no bit outside the mask. */
  lemma BypassReachable(policy: CapturePolicy, allocation: ResourceCandidate)
    ensures (exists mark :: Bypasses(policy, allocation, mark)) <==> Within(BypassMark(policy), allocation.mask)
  {
    MaskedMatch(BypassMark(policy), allocation.mask);
    if Within(BypassMark(policy), allocation.mask) {
      assert Bypasses(policy, allocation, BypassMark(policy));
    }
    if exists mark :: Bypasses(policy, allocation, mark) {
      var mark :| Bypasses(policy, allocation, mark);
      MatchedWithin(mark, BypassMark(policy), allocation.mask);
    }
  }

  /** The proxy core marks its own packets with the bypass mark so that they are not captured again.  The output chain
      leaves every such packet alone exactly when the bypass mark lies inside the allocation's mask. */
  lemma CoreTrafficLeftAlone(
    chains: Chains, family: IpFamily, policy: CapturePolicy, allocation: ResourceCandidate, scope: Option<seq<string>>)
    requires policy.Valid() && allocation.Valid()
    requires !MarkMatches(BypassMark(policy), allocation.mark, allocation.mask)
    ensures (forall p :: Scan(chains, OutChain(family, policy, allocation, scope), p, BypassMark(policy)).mark == BypassMark(policy))
            <==> Within(BypassMark(policy), allocation.mask)
  {
    var bypass := BypassMark(policy);
    MaskedMatch(bypass, allocation.mask);
    hide Scan, OutChain, XMark, MarkMatches, Within, TproxyCaptures;
    if Within(bypass, allocation.mask) {
      forall p ensures Scan(chains, OutChain(family, policy, allocation, scope), p, bypass).mark == bypass {
        OutChainMeetsPolicy(chains, family, policy, allocation, scope, p, bypass);
      }
    } else {
      var lookup := Packet(Udp, 53, 0, None, "", "", false, false);
      OutChainMeetsPolicy(chains, family, policy, allocation, scope, lookup, bypass);
      assert TproxyCaptures(family, policy, scope, lookup) by { DnsCaptured(family, policy, scope, lookup); }
      XMarkSets(bypass, allocation.mark, allocation.mask);
      assert Scan(chains, OutChain(family, policy, allocation, scope), lookup, bypass).mark != bypass;
    }
  }

  lemma DnsCaptured(family: IpFamily, policy: CapturePolicy, scope: Option<seq<string>>, p: Packet)
    requires PlainDns(p)
    ensures TproxyCaptures(family, policy, scope, p)
  {
  }

  /** Marks the planner accepts although the bypass rule built from them can match no packet. */
  lemma BypassOutsideMask(policy: CapturePolicy)
    requires policy.bypassMark == Some(0x4000_0000)
    ensures var allocation := ResourceCandidate(0x100, 0xff00, 100, 10000);
            && allocation.Valid()
            && !MarkMatches(BypassMark(policy), allocation.mark, allocation.mask)
            && forall mark :: !Bypasses(policy, allocation, mark)
  {
    var allocation := ResourceCandidate(0x100, 0xff00, 100, 10000);
    BypassReachable(policy, allocation);
    assert !Within(0x4000_0000, 0xff00);
  }

  // ----- NH_TUN -----

  /** The tunnel chain meets the policy, with loopback traffic left alone. */
  lemma TunChainMeetsPolicy(
    chains: Chains, policy: CapturePolicy, allocation: ResourceCandidate, scope: Option<seq<string>>,
    p: Packet, mark: bv32)
    requires policy.Valid() && allocation.Valid()
    ensures var result := Scan(chains, TunChain(policy, allocation, scope), p, mark);
            if Bypasses(policy, allocation, mark) || p.oif == "lo" then result == Returned(mark)
            else if p.reply then result == Decided(Accepted, mark)
            else Passes(result, Remark(allocation, mark, TunCaptures(policy, scope, p)))
  {
    hide Scan, XMark, MarkMatches;
    var capture := CaptureRules(scope, policy.includeUids, allocation);
    var rest := UidReturns(policy.excludeUids) + (capture + [Rule([], Return)]);
    Fire1(MarkIs(BypassMark(policy), allocation.mask), Return, chains, [LoopbackReturn()] + ([ReplyAccept()] + rest), p, mark);
    Fire1(OnOutput("lo"), Return, chains, [ReplyAccept()] + rest, p, mark);
    Fire1(InReplyDirection, Accept, chains, rest, p, mark);
    ScanAppend(chains, UidReturns(policy.excludeUids), capture + [Rule([], Return)], p, mark);
    ScanUidReturns(chains, policy.excludeUids, p, mark);
    ScanSnoc(chains, capture, Rule([], Return), p, mark);
    ScanCaptureRules(chains, scope, policy.includeUids, allocation, p, mark);
    SelectedMeaning(policy, p.owner);
  }

  // ----- NH_DNS -----

  lemma {:induction false} ScanInterfaceDrops(
    chains: Chains, interfaces: seq<string>, protocol: Protocol, port: nat, p: Packet, mark: bv32)
    ensures Scan(chains, InterfaceDrops(interfaces, protocol, port), p, mark) ==
            if InScope(Some(interfaces), p.oif) && p.protocol == protocol && p.dport == port
            then Decided(Dropped, mark) else Continue(mark)
  {
    hide Scan;
    ScanNil(chains, p, mark);
    if interfaces != [] {
      var init, last := interfaces[..|interfaces| - 1], interfaces[|interfaces| - 1];
      ScanInterfaceDrops(chains, init, protocol, port, p, mark);
      var rule := Rule([OnOutput(last), OfProtocol(protocol), ToPort(port)], Drop);
      ScanSnoc(chains, InterfaceDrops(init, protocol, port), rule, p, mark);
      Applies3(OnOutput(last), OfProtocol(protocol), ToPort(port), Drop, p, mark);
      ScopeSnoc(interfaces, p.oif);
    }
  }

  lemma ScanDrops(
    chains: Chains, scope: Option<seq<string>>, protocol: Protocol, port: nat, rest: seq<Rule>, p: Packet, mark: bv32)
    ensures Scan(chains, DropRules(scope, protocol, port) + rest, p, mark) ==
            if InScope(scope, p.oif) && p.protocol == protocol && p.dport == port
            then Decided(Dropped, mark) else Scan(chains, rest, p, mark)
  {
    hide Scan;
    match scope
    case Some(interfaces) =>
      ScanInterfaceDrops(chains, interfaces, protocol, port, p, mark);
      ScanAppend(chains, DropRules(scope, protocol, port), rest, p, mark);
    case None => Fire2(OfProtocol(protocol), ToPort(port), Drop, chains, rest, p, mark);
  }

  predicate DnsLeak(policy: CapturePolicy, allocation: ResourceCandidate, scope: Option<seq<string>>, p: Packet, mark: bv32)
  {
    && (PlainDns(p) || DnsOverTls(p)) && p.oif != "lo" && InScope(scope, p.oif)
    && !Marked(allocation, mark) && mark != BypassMark(policy)
  }

  lemma FullMask(mark: bv32, value: bv32)
    ensures MarkMatches(mark, value, 0xffff_ffff) <==> mark == value
  {
  }

  /** The DNS guard drops exactly the lookups that carry neither the capture mark nor the exact bypass mark. */
  lemma DnsChainDropsExactlyLeaks(
    chains: Chains, policy: CapturePolicy, allocation: ResourceCandidate, scope: Option<seq<string>>,
    p: Packet, mark: bv32)
    ensures var result := Scan(chains, DnsChain(policy, allocation, scope), p, mark);
            if DnsLeak(policy, allocation, scope, p, mark) then result == Decided(Dropped, mark)
            else Passes(result, mark)
  {
    hide Scan, XMark, MarkMatches;
    ScanNil(chains, p, mark);
    var last := [Rule([], Return)];
    var tls := DropRules(scope, Tcp, 853) + last;
    var tcp := DropRules(scope, Tcp, 53) + tls;
    var udp := DropRules(scope, Udp, 53) + tcp;
    var bypass := Rule([MarkIs(BypassMark(policy), 0xffff_ffff)], Return);
    Fire1(OnOutput("lo"), Return, chains, [MarkedReturn(allocation)] + ([bypass] + udp), p, mark);
    Fire1(MarkIs(allocation.mark, allocation.mask), Return, chains, [bypass] + udp, p, mark);
    Fire1(MarkIs(BypassMark(policy), 0xffff_ffff), Return, chains, udp, p, mark);
    FullMask(mark, BypassMark(policy));
    ScanDrops(chains, scope, Udp, 53, tcp, p, mark);
    ScanDrops(chains, scope, Tcp, 53, tls, p, mark);
    ScanDrops(chains, scope, Tcp, 853, last, p, mark);
    ScanSnoc(chains, [], last[0], p, mark);
    assert [] + last == last;
  }

  // ----- NH_PRE -----

  function PreOutcome(policy: CapturePolicy, allocation: ResourceCandidate, port: nat, p: Packet, mark: bv32): Scanned {
    if p.reply then Decided(Accepted, mark)
    else if p.protocol == Tcp && policy.proxyTcp && p.transparentSocket then
      Decided(Accepted, Remark(allocation, mark, true))
    else if Marked(allocation, mark) && (PlainDns(p) || TransportProxied(policy, p)) then
      Decided(Proxied(port), Remark(allocation, mark, true))
    else Continue(mark)
  }

  lemma ScanDivert(chains: Chains, allocation: ResourceCandidate, p: Packet, mark: bv32)
    ensures Scan(chains, DivChain(allocation), p, mark) == Decided(Accepted, Remark(allocation, mark, true))
  {
    hide Scan;
    Fire0(SetXMark(allocation.mark, allocation.mask), chains, [Rule([], Accept)], p, mark);
    var next := Remark(allocation, mark, true);
    Fire0(Accept, chains, [], p, next);
    assert [Rule([], Accept)] + [] == [Rule([], Accept)];
  }

  lemma ScanTproxyRule(
    chains: Chains, on: bool, protocol: Protocol, allocation: ResourceCandidate, port: nat, rest: seq<Rule>,
    p: Packet, mark: bv32)
    ensures var rule := TproxyRule([OfProtocol(protocol), MarkIs(allocation.mark, allocation.mask)], port, allocation);
            Scan(chains, When(on, rule) + rest, p, mark) ==
            if on && p.protocol == protocol && Marked(allocation, mark)
            then Decided(Proxied(port), Remark(allocation, mark, true))
            else Scan(chains, rest, p, mark)
  {
    hide Scan, XMark, MarkMatches;
    var marked := MarkIs(allocation.mark, allocation.mask);
    if on {
      Fire2(OfProtocol(protocol), marked, Tproxy(port, allocation.mark, allocation.mask), chains, rest, p, mark);
    } else {
      assert [] + rest == rest;
    }
  }

  lemma ScanTproxyDns(
    chains: Chains, protocol: Protocol, allocation: ResourceCandidate, port: nat, rest: seq<Rule>, p: Packet, mark: bv32)
    ensures var rule := TproxyRule([OfProtocol(protocol), ToPort(53), MarkIs(allocation.mark, allocation.mask)], port, allocation);
            Scan(chains, [rule] + rest, p, mark) ==
            if p.protocol == protocol && p.dport == 53 && Marked(allocation, mark)
            then Decided(Proxied(port), Remark(allocation, mark, true))
            else Scan(chains, rest, p, mark)
  {
    hide Scan, XMark, MarkMatches;
    var marked := MarkIs(allocation.mark, allocation.mask);
    Fire3(OfProtocol(protocol), ToPort(53), marked, Tproxy(port, allocation.mark, allocation.mask), chains, rest, p, mark);
  }

  lemma ScanPreTail(
    chains: Chains, policy: CapturePolicy, allocation: ResourceCandidate, port: nat, p: Packet, mark: bv32)
    requires !p.reply && !(p.protocol == Tcp && policy.proxyTcp && p.transparentSocket)
    ensures var result := Scan(chains, PreTail(policy, allocation, port), p, mark);
            var expected := PreOutcome(policy, allocation, port, p, mark);
            if expected.Decided? then result == expected else Passes(result, mark)
  {
    hide Scan, XMark, MarkMatches;
    ScanNil(chains, p, mark);
    var marked := MarkIs(allocation.mark, allocation.mask);
    var udp := When(policy.proxyUdp, TproxyRule([OfProtocol(Udp), marked], port, allocation));
    var tcp := When(policy.proxyTcp, TproxyRule([OfProtocol(Tcp), marked], port, allocation)) + udp;
    var udpDns := [TproxyRule([OfProtocol(Udp), ToPort(53), marked], port, allocation)] + tcp;
    var tcpDns := [TproxyRule([OfProtocol(Tcp), ToPort(53), marked], port, allocation)] + udpDns;
    Fire2(OnInput("lo"), MarkIsNot(allocation.mark, allocation.mask), Return, chains, tcpDns, p, mark);
    ScanTproxyDns(chains, Tcp, allocation, port, udpDns, p, mark);
    ScanTproxyDns(chains, Udp, allocation, port, tcp, p, mark);
    ScanTproxyRule(chains, policy.proxyTcp, Tcp, allocation, port, udp, p, mark);
    ScanTproxyRule(chains, policy.proxyUdp, Udp, allocation, port, [], p, mark);
    assert udp + [] == udp;
  }

  lemma ScanDivertJump(
    chains: Chains, on: bool, allocation: ResourceCandidate, divert: ChainName, rest: seq<Rule>, p: Packet, mark: bv32)
    requires divert in chains && chains[divert] == DivChain(allocation)
    ensures var jump := Rule([OfProtocol(Tcp), OnTransparentSocket], Jump(divert));
            Scan(chains, When(on, jump) + rest, p, mark) ==
            if on && p.protocol == Tcp && p.transparentSocket then Decided(Accepted, Remark(allocation, mark, true))
            else Scan(chains, rest, p, mark)
  {
    hide XMark, MarkMatches;
    var jump := Rule([OfProtocol(Tcp), OnTransparentSocket], Jump(divert));
    if on {
      assert ([jump] + rest)[1..] == rest;
      Applies2(OfProtocol(Tcp), OnTransparentSocket, Jump(divert), p, mark);
      ScanDivert(chains - {divert}, allocation, p, mark);
    } else {
      assert [] + rest == rest;
    }
  }

  /** The prerouting chain: replies pass, established transparent sockets are kept, and exactly the marked packets
      of a proxied transport or of port 53 go to the listener. */
  lemma PreChainMeetsPolicy(
    chains: Chains, policy: CapturePolicy, allocation: ResourceCandidate, port: nat, divert: ChainName,
    p: Packet, mark: bv32)
    requires divert in chains && chains[divert] == DivChain(allocation)
    ensures var result := Scan(chains, PreChain(policy, allocation, port, divert), p, mark);
            var expected := PreOutcome(policy, allocation, port, p, mark);
            if expected.Decided? then result == expected else Passes(result, mark)
  {
    hide Scan, XMark, MarkMatches;
    var rest := PreBody(policy, allocation, port, divert);
    var tail := PreTail(policy, allocation, port);
    Fire1(InReplyDirection, Accept, chains, rest, p, mark);
    if !p.reply {
      ScanDivertJump(chains, policy.proxyTcp, allocation, divert, tail, p, mark);
      if !(p.protocol == Tcp && policy.proxyTcp && p.transparentSocket) {
        ScanPreTail(chains, policy, allocation, port, p, mark);
      }
    }
  }

  // ----- NH_FWD and NH_FWD6 -----

  function FwdOutcome(policy: CapturePolicy, allocation: ResourceCandidate, port: nat, p: Packet, mark: bv32): Scanned {
    if p.reply then Decided(Accepted, mark)
    else if !Marked(allocation, mark) && !InAny(p.dst, ReservedV4()) && TransportProxied(policy, p) then
      Decided(Proxied(port), Remark(allocation, mark, true))
    else Continue(mark)
  }

  lemma ScanForwardRule(
    chains: Chains, on: bool, protocol: Protocol, allocation: ResourceCandidate, port: nat, rest: seq<Rule>,
    p: Packet, mark: bv32)
    ensures var rule := TproxyRule([OfProtocol(protocol)], port, allocation);
            Scan(chains, When(on, rule) + rest, p, mark) ==
            if on && p.protocol == protocol then Decided(Proxied(port), Remark(allocation, mark, true))
            else Scan(chains, rest, p, mark)
  {
    hide Scan, XMark, MarkMatches;
    if on {
      Fire1(OfProtocol(protocol), Tproxy(port, allocation.mark, allocation.mask), chains, rest, p, mark);
    } else {
      assert [] + rest == rest;
    }
  }

  /** Tethered traffic to a public address goes to the listener when its transport is proxied. */
  lemma FwdChainMeetsPolicy(
    chains: Chains, policy: CapturePolicy, allocation: ResourceCandidate, port: nat, p: Packet, mark: bv32)
    ensures var result := Scan(chains, FwdChain(policy, allocation, port), p, mark);
            var expected := FwdOutcome(policy, allocation, port, p, mark);
            if expected.Decided? then result == expected else Passes(result, mark)
  {
    hide Scan, XMark, MarkMatches;
    ScanNil(chains, p, mark);
    var udp := When(policy.proxyUdp, TproxyRule([OfProtocol(Udp)], port, allocation));
    var tcp := When(policy.proxyTcp, TproxyRule([OfProtocol(Tcp)], port, allocation)) + udp;
    var networks := NetworkReturns(ReservedV4());
    Fire1(InReplyDirection, Accept, chains, [MarkedReturn(allocation)] + (networks + tcp), p, mark);
    Fire1(MarkIs(allocation.mark, allocation.mask), Return, chains, networks + tcp, p, mark);
    ScanAppend(chains, networks, tcp, p, mark);
    ScanNetworkReturns(chains, ReservedV4(), p, mark);
    ScanForwardRule(chains, policy.proxyTcp, Tcp, allocation, port, udp, p, mark);
    ScanForwardRule(chains, policy.proxyUdp, Udp, allocation, port, [], p, mark);
    assert udp + [] == udp;
  }

  // ----- NH_V6G and NH_V6B -----

  lemma ScanBlock(chains: Chains, p: Packet, mark: bv32)
    ensures Scan(chains, BlockChain(), p, mark) ==
            if InAny(p.dst, LocalV6()) then Returned(mark) else Decided(Dropped, mark)
  {
    hide Scan;
    ScanNetworkReturns(chains, LocalV6(), p, mark);
    ScanSnoc(chains, NetworkReturns(LocalV6()), Rule([], Drop), p, mark);
    Applies0(Drop, p, mark);
  }

  /** One jump to the block chain at the end of a list. */
  lemma ScanBlockJump(chains: Chains, a: seq<Rule>, matches: seq<Match>, block: ChainName, p: Packet, mark: bv32)
    requires block in chains && chains[block] == BlockChain()
    ensures Scan(chains, a + [Rule(matches, Jump(block))], p, mark) ==
            var first := Scan(chains, a, p, mark);
            if !first.Continue? then first
            else if Applies(Rule(matches, Jump(block)), p, first.mark) && !InAny(p.dst, LocalV6())
            then Decided(Dropped, first.mark)
            else first
  {
    hide XMark, MarkMatches;
    var jump := Rule(matches, Jump(block));
    ScanAppend(chains, a, [jump], p, mark);
    var first := Scan(chains, a, p, mark);
    if first.Continue? {
      ScanBlock(chains - {block}, p, first.mark);
      assert [jump][1..] == [];
    }
  }

  lemma {:induction false} ScanUidJumps(chains: Chains, uids: seq<nat>, block: ChainName, p: Packet, mark: bv32)
    requires block in chains && chains[block] == BlockChain()
    ensures Scan(chains, UidJumps(uids, block), p, mark) ==
            if p.owner.Some? && p.owner.value in uids && !InAny(p.dst, LocalV6())
            then Decided(Dropped, mark) else Continue(mark)
  {
    hide Scan;
    ScanNil(chains, p, mark);
    if uids != [] {
      var init, last := uids[..|uids| - 1], uids[|uids| - 1];
      assert uids == init + [last];
      ScanUidJumps(chains, init, block, p, mark);
      ScanBlockJump(chains, UidJumps(init, block), [OwnedBy(last)], block, p, mark);
      Applies1(OwnedBy(last), Jump(block), p, mark);
    }
  }

  /** The IPv6 guard drops exactly the packets of captured senders that leave for a non-local destination. */
  lemma GuardDropsExactlyCaptured(chains: Chains, policy: CapturePolicy, block: ChainName, p: Packet, mark: bv32)
    requires policy.Valid()
    requires block in chains && chains[block] == BlockChain()
    ensures var result := Scan(chains, GuardChain(policy, block), p, mark);
            if Selected(policy, p.owner) && !InAny(p.dst, LocalV6()) then result == Decided(Dropped, mark)
            else Passes(result, mark)
  {
    hide Scan;
    var excluded := UidReturns(policy.excludeUids);
    ScanUidReturns(chains, policy.excludeUids, p, mark);
    SelectedMeaning(policy, p.owner);
    if policy.includeUids == [] {
      ScanBlockJump(chains, excluded, [], block, p, mark);
      Applies0(Jump(block), p, mark);
    } else {
      var jumps, last := UidJumps(policy.includeUids, block), Rule([], Return);
      ScanAppend(chains, excluded, jumps + [last], p, mark);
      ScanSnoc(chains, jumps, last, p, mark);
      ScanUidJumps(chains, policy.includeUids, block, p, mark);
      Applies0(Return, p, mark);
    }
  }
}
