/** Network plans as the planner emits them: ordered steps, each paired with the step that undoes it. */
module Plan {
  import opened Wrappers
  import opened Netfilter
  import opened Capture
  import opened Capability

  const DEFAULT_TUN_BYPASS_MARK: bv32 := 0x4000_0000

  datatype Command =
    | NewChain(chain: ChainName)                // -N
    | Append(chain: ChainName, rule: Rule)      // -A
    | Delete(chain: ChainName, rule: Rule)      // -D
    | Flush(chain: ChainName)                   // -F
    | RemoveChain(chain: ChainName)             // -X

  datatype Action = Add | Remove

  datatype Operation =
    | Restore(family: IpFamily, table: Table, commands: seq<Command>)
    | PolicyRoute(action: Action, family: IpFamily, routeTable: nat, device: string, local: bool)
    | PolicyRule(action: Action, family: IpFamily, mark: bv32, mask: bv32, routeTable: nat, priority: nat)

  datatype Kind =
    Ipv6GuardRestore | DnsGuardRestore | ForwardingRestore | PolicyRouteAdd | PolicyRuleAdd | NetfilterRestore

  datatype Step = Step(kind: Kind, apply: Operation, rollback: Operation)

  datatype NetworkPlan = NetworkPlan(
    generation: nat, slot: Slot, mode: CaptureMode, captureInterface: Option<string>, allocation: ResourceCandidate,
    bypassMark: bv32, ipv6Captured: bool, ipv6Guarded: bool, dnsGuarded: bool, forwardingInterfaces: seq<string>,
    steps: seq<Step>)

  // ----- netfilter payloads -----

  datatype Appended = Appended(chain: ChainName, rule: Rule)

  /** One `iptables-restore` payload: chains to create and rules to append, in order. */
  datatype Section = Section(kind: Kind, family: IpFamily, table: Table, creates: seq<ChainName>, appends: seq<Appended>)

  function OnChain(chain: ChainName, rules: seq<Rule>): (r: seq<Appended>)
    ensures |r| == |rules|
  {
    seq(|rules|, i requires 0 <= i < |rules| => Appended(chain, rules[i]))
  }

  /** The rules that a payload puts on `chain`. */
  function RulesOn(appends: seq<Appended>, chain: ChainName): seq<Rule> {
    if appends == [] then []
    else (if appends[0].chain == chain then [appends[0].rule] else []) + RulesOn(appends[1..], chain)
  }

  /** The rules put on chains that the payload does not create: the jumps from built-in chains. */
  function Hooks(appends: seq<Appended>, creates: seq<ChainName>): seq<Appended> {
    if appends == [] then []
    else (if appends[0].chain in creates then [] else [appends[0]]) + Hooks(appends[1..], creates)
  }

  function NewChains(chains: seq<ChainName>): seq<Command> {
    seq(|chains|, i requires 0 <= i < |chains| => NewChain(chains[i]))
  }

  function Appends(appends: seq<Appended>): seq<Command> {
    seq(|appends|, i requires 0 <= i < |appends| => Append(appends[i].chain, appends[i].rule))
  }

  function Deletes(hooks: seq<Appended>): seq<Command> {
    seq(|hooks|, i requires 0 <= i < |hooks| => Delete(hooks[i].chain, hooks[i].rule))
  }

  function Flushes(chains: seq<ChainName>): seq<Command> {
    seq(|chains|, i requires 0 <= i < |chains| => Flush(chains[i]))
  }

  function Removals(chains: seq<ChainName>): seq<Command> {
    seq(|chains|, i requires 0 <= i < |chains| => RemoveChain(chains[i]))
  }

  /** The payload that installs a section. */
  function ApplyCommands(s: Section): seq<Command> {
    NewChains(s.creates) + Appends(s.appends)
  }

  /** The payload that removes it: unhook, empty the chains, drop the chains. */
  function RollbackCommands(s: Section): seq<Command> {
    Deletes(Hooks(s.appends, s.creates)) + Flushes(s.creates) + Removals(s.creates)
  }

  // ----- addresses that are never captured -----

  /** 0/8, 10/8, 100.64/10, 127/8, 169.254/16, 172.16/12, 192.168/16, 224/4 and 240/4. */
  function ReservedV4(): seq<Cidr> {
    [Cidr(0x0000_0000, 24), Cidr(0x0a00_0000, 24), Cidr(0x6440_0000, 22), Cidr(0x7f00_0000, 24),
     Cidr(0xa9fe_0000, 16), Cidr(0xac10_0000, 20), Cidr(0xc0a8_0000, 16), Cidr(0xe000_0000, 28),
     Cidr(0xf000_0000, 28)]
  }

  /** ::1/128, fe80::/10, fc00::/7 and ff00::/8. */
  function LocalV6(): seq<Cidr> {
    [Cidr(1, 0),
     Cidr(0xfe80_0000_0000_0000_0000_0000_0000_0000, 118),
     Cidr(0xfc00_0000_0000_0000_0000_0000_0000_0000, 121),
     Cidr(0xff00_0000_0000_0000_0000_0000_0000_0000, 120)]
  }

  function ReservedDestinations(family: IpFamily): seq<Cidr> {
    if family == Ipv4 then ReservedV4() else [Cidr(0, 0)] + LocalV6()
  }

  predicate InAny(address: nat, networks: seq<Cidr>) {
    exists i :: 0 <= i < |networks| && InNetwork(address, networks[i])
  }

  // ----- rule lists -----

  function UidReturns(uids: seq<nat>): seq<Rule> {
    if uids == [] then []
    else UidReturns(uids[..|uids| - 1]) + [Rule([OwnedBy(uids[|uids| - 1])], Return)]
  }

  function NetworkReturns(networks: seq<Cidr>): seq<Rule> {
    if networks == [] then []
    else NetworkReturns(networks[..|networks| - 1]) + [Rule([ToNetwork(networks[|networks| - 1])], Return)]
  }

  function MarkRule(matches: seq<Match>, allocation: ResourceCandidate): Rule {
    Rule(matches, SetXMark(allocation.mark, allocation.mask))
  }

  function UidMarks(prefix: seq<Match>, uids: seq<nat>, allocation: ResourceCandidate): seq<Rule> {
    if uids == [] then []
    else UidMarks(prefix, uids[..|uids| - 1], allocation) + [MarkRule(prefix + [OwnedBy(uids[|uids| - 1])], allocation)]
  }

  /** An empty include list captures every sender. */
  function IncludedMarks(prefix: seq<Match>, uids: seq<nat>, allocation: ResourceCandidate): seq<Rule> {
    if uids == [] then [MarkRule(prefix, allocation)] else UidMarks(prefix, uids, allocation)
  }

  function InterfaceMarks(interfaces: seq<string>, uids: seq<nat>, allocation: ResourceCandidate): seq<Rule> {
    if interfaces == [] then []
    else
      InterfaceMarks(interfaces[..|interfaces| - 1], uids, allocation)
      + IncludedMarks([OnOutput(interfaces[|interfaces| - 1])], uids, allocation)
  }

  /** `scope` is the list of selected interfaces, or nothing when every interface is in scope. */
  function CaptureRules(scope: Option<seq<string>>, uids: seq<nat>, allocation: ResourceCandidate): seq<Rule> {
    if scope.Some? then InterfaceMarks(scope.value, uids, allocation) else IncludedMarks([], uids, allocation)
  }

  function InterfaceDrops(interfaces: seq<string>, protocol: Protocol, port: nat): seq<Rule> {
    if interfaces == [] then []
    else
      InterfaceDrops(interfaces[..|interfaces| - 1], protocol, port)
      + [Rule([OnOutput(interfaces[|interfaces| - 1]), OfProtocol(protocol), ToPort(port)], Drop)]
  }

  function DropRules(scope: Option<seq<string>>, protocol: Protocol, port: nat): seq<Rule> {
    if scope.Some? then InterfaceDrops(scope.value, protocol, port)
    else [Rule([OfProtocol(protocol), ToPort(port)], Drop)]
  }

  function ForwardJumps(interfaces: seq<string>, owner: Owner, chain: ChainName): seq<Rule> {
    if interfaces == [] then []
    else
      ForwardJumps(interfaces[..|interfaces| - 1], owner, chain)
      + [Rule([OnInput(interfaces[|interfaces| - 1]), Commented(owner)], Jump(chain))]
  }

  function UidJumps(uids: seq<nat>, chain: ChainName): seq<Rule> {
    if uids == [] then []
    else UidJumps(uids[..|uids| - 1], chain) + [Rule([OwnedBy(uids[|uids| - 1])], Jump(chain))]
  }

  function BypassMark(policy: CapturePolicy): bv32 {
    if policy.bypassMark.Some? then policy.bypassMark.value else DEFAULT_TUN_BYPASS_MARK
  }

  function HookRule(owner: Owner, chain: ChainName): Rule {
    Rule([Commented(owner)], Jump(chain))
  }

  function TproxyRule(matches: seq<Match>, port: nat, allocation: ResourceCandidate): Rule {
    Rule(matches, Tproxy(port, allocation.mark, allocation.mask))
  }

  // ----- the chains -----

  function ReplyAccept(): Rule {
    Rule([InReplyDirection], Accept)
  }

  /** The mangle chains compare the masked packet mark with the whole bypass mark. */
  function BypassReturn(policy: CapturePolicy, allocation: ResourceCandidate): Rule {
    Rule([MarkIs(BypassMark(policy), allocation.mask)], Return)
  }

  function MarkedReturn(allocation: ResourceCandidate): Rule {
    Rule([MarkIs(allocation.mark, allocation.mask)], Return)
  }

  function LoopbackReturn(): Rule {
    Rule([OnOutput("lo")], Return)
  }

  /** A rule that is emitted only when `on` holds. */
  function When(on: bool, rule: Rule): seq<Rule> {
    if on then [rule] else []
  }

  /** `NH_OUT`: mark the local traffic that is to be proxied. */
  function OutHead(policy: CapturePolicy, allocation: ResourceCandidate): seq<Rule> {
    [BypassReturn(policy, allocation)] + [ReplyAccept()]
  }

  function OutBody(family: IpFamily, policy: CapturePolicy, allocation: ResourceCandidate, scope: Option<seq<string>>)
    : seq<Rule>
  {
    [MarkRule([OfProtocol(Tcp), ToPort(53)], allocation)]
    + ([MarkRule([OfProtocol(Udp), ToPort(53)], allocation)]
       + (UidReturns(policy.excludeUids)
          + (NetworkReturns(ReservedDestinations(family))
             + CaptureRules(scope, policy.includeUids, allocation))))
  }

  function OutChain(family: IpFamily, policy: CapturePolicy, allocation: ResourceCandidate, scope: Option<seq<string>>)
    : seq<Rule>
  {
    [BypassReturn(policy, allocation)] + ([ReplyAccept()] + OutBody(family, policy, allocation, scope))
  }

  /** `NH_DIV`: keep packets of established transparent sockets. */
  function DivChain(allocation: ResourceCandidate): seq<Rule> {
    [MarkRule([], allocation)] + [Rule([], Accept)]
  }

  function PreTail(policy: CapturePolicy, allocation: ResourceCandidate, port: nat): seq<Rule> {
    var marked := MarkIs(allocation.mark, allocation.mask);
    [Rule([OnInput("lo"), MarkIsNot(allocation.mark, allocation.mask)], Return)]
    + ([TproxyRule([OfProtocol(Tcp), ToPort(53), marked], port, allocation)]
       + ([TproxyRule([OfProtocol(Udp), ToPort(53), marked], port, allocation)]
          + (When(policy.proxyTcp, TproxyRule([OfProtocol(Tcp), marked], port, allocation))
             + When(policy.proxyUdp, TproxyRule([OfProtocol(Udp), marked], port, allocation)))))
  }

  function PreBody(policy: CapturePolicy, allocation: ResourceCandidate, port: nat, divert: ChainName): seq<Rule> {
    When(policy.proxyTcp, Rule([OfProtocol(Tcp), OnTransparentSocket], Jump(divert)))
    + PreTail(policy, allocation, port)
  }

  /** `NH_PRE`: hand marked packets to the transparent listener. */
  function PreChain(policy: CapturePolicy, allocation: ResourceCandidate, port: nat, divert: ChainName): seq<Rule> {
    [ReplyAccept()] + PreBody(policy, allocation, port, divert)
  }

  function TproxySection(
    family: IpFamily, slot: Slot, policy: CapturePolicy, allocation: ResourceCandidate, port: nat, owner: Owner,
    scope: Option<seq<string>>): Section
  {
    var outChain, preChain, divChain := Owned(Out, slot), Owned(Pre, slot), Owned(Div, slot);
    Section(NetfilterRestore, family, Mangle, [outChain, preChain, divChain],
            OnChain(Output, [HookRule(owner, outChain)])
            + (OnChain(Prerouting, [HookRule(owner, preChain)])
               + (OnChain(outChain, OutHead(policy, allocation))
                  + (OnChain(preChain, [ReplyAccept()])
                     + (OnChain(outChain, OutBody(family, policy, allocation, scope))
                        + (OnChain(divChain, DivChain(allocation))
                           + OnChain(preChain, PreBody(policy, allocation, port, divChain))))))))
  }

  /** `NH_TUN`: mark the local traffic that is to enter the tunnel. */
  function TunChain(policy: CapturePolicy, allocation: ResourceCandidate, scope: Option<seq<string>>): seq<Rule> {
    [BypassReturn(policy, allocation)]
    + ([LoopbackReturn()]
       + ([ReplyAccept()]
          + (UidReturns(policy.excludeUids)
             + (CaptureRules(scope, policy.includeUids, allocation) + [Rule([], Return)]))))
  }

  function TunSection(
    family: IpFamily, slot: Slot, policy: CapturePolicy, allocation: ResourceCandidate, owner: Owner,
    scope: Option<seq<string>>): Section
  {
    var chain := Owned(Tun, slot);
    Section(NetfilterRestore, family, Mangle, [chain],
            OnChain(Output, [HookRule(owner, chain)]) + OnChain(chain, TunChain(policy, allocation, scope)))
  }

  /** `NH_DNS`: drop name lookups that would leave around the proxy. */
  function DnsChain(policy: CapturePolicy, allocation: ResourceCandidate, scope: Option<seq<string>>): seq<Rule> {
    [LoopbackReturn()]
    + ([MarkedReturn(allocation)]
       + ([Rule([MarkIs(BypassMark(policy), 0xffff_ffff)], Return)]
          + (DropRules(scope, Udp, 53)
             + (DropRules(scope, Tcp, 53)
                + (DropRules(scope, Tcp, 853)
                   + [Rule([], Return)])))))
  }

  function DnsSection(
    family: IpFamily, slot: Slot, policy: CapturePolicy, allocation: ResourceCandidate, owner: Owner,
    scope: Option<seq<string>>): Section
  {
    var chain := Owned(Dns, slot);
    Section(DnsGuardRestore, family, Filter, [chain],
            OnChain(Output, [HookRule(owner, chain)]) + OnChain(chain, DnsChain(policy, allocation, scope)))
  }

  /** `NH_FWD`: proxy traffic of tethered devices. */
  function FwdChain(policy: CapturePolicy, allocation: ResourceCandidate, port: nat): seq<Rule> {
    [ReplyAccept()]
    + ([MarkedReturn(allocation)]
       + (NetworkReturns(ReservedV4())
          + (When(policy.proxyTcp, TproxyRule([OfProtocol(Tcp)], port, allocation))
             + When(policy.proxyUdp, TproxyRule([OfProtocol(Udp)], port, allocation)))))
  }

  function FwdSection(
    slot: Slot, policy: CapturePolicy, allocation: ResourceCandidate, port: nat, interfaces: seq<string>, owner: Owner)
    : Section
  {
    var chain := Owned(Fwd, slot);
    Section(ForwardingRestore, Ipv4, Mangle, [chain],
            OnChain(Prerouting, ForwardJumps(interfaces, owner, chain))
            + OnChain(chain, FwdChain(policy, allocation, port)))
  }

  /** `NH_FWD6`: tethered IPv6 is blocked. */
  function Fwd6Section(slot: Slot, interfaces: seq<string>, owner: Owner): Section {
    var chain := Owned(Fwd6, slot);
    Section(ForwardingRestore, Ipv6, Filter, [chain],
            OnChain(Forward, ForwardJumps(interfaces, owner, chain)) + OnChain(chain, [Rule([], Drop)]))
  }

  /** `NH_V6G`: send captured senders to the block chain. */
  function GuardChain(policy: CapturePolicy, block: ChainName): seq<Rule> {
    UidReturns(policy.excludeUids)
    + (if policy.includeUids == [] then [Rule([], Jump(block))]
       else UidJumps(policy.includeUids, block) + [Rule([], Return)])
  }

  /** `NH_V6B`: drop everything but local destinations. */
  function BlockChain(): seq<Rule> {
    NetworkReturns(LocalV6()) + [Rule([], Drop)]
  }

  function GuardSection(slot: Slot, policy: CapturePolicy, owner: Owner): Section {
    var guard, block := Owned(V6Guard, slot), Owned(V6Block, slot);
    Section(Ipv6GuardRestore, Ipv6, Filter, [guard, block],
            OnChain(Output, [HookRule(owner, guard)])
            + (OnChain(guard, GuardChain(policy, block))
               + OnChain(block, BlockChain())))
  }

  // ----- pieces and steps -----

  /** What one step adds to the network. */
  datatype Piece =
    | SectionPiece(section: Section)
    | RoutePiece(family: IpFamily, routeTable: nat, device: string, local: bool)
    | RulePiece(family: IpFamily, mark: bv32, mask: bv32, routeTable: nat, priority: nat)

  /** The step that adds a piece, paired with the step that takes it away. */
  function StepOf(piece: Piece): Step {
    match piece
    case SectionPiece(s) =>
      Step(s.kind, Restore(s.family, s.table, ApplyCommands(s)), Restore(s.family, s.table, RollbackCommands(s)))
    case RoutePiece(family, table, device, local) =>
      Step(PolicyRouteAdd, PolicyRoute(Add, family, table, device, local), PolicyRoute(Remove, family, table, device, local))
    case RulePiece(family, mark, mask, table, priority) =>
      Step(PolicyRuleAdd, PolicyRule(Add, family, mark, mask, table, priority),
           PolicyRule(Remove, family, mark, mask, table, priority))
  }

  function StepsOf(pieces: seq<Piece>): (r: seq<Step>)
    ensures |r| == |pieces|
  {
    seq(|pieces|, i requires 0 <= i < |pieces| => StepOf(pieces[i]))
  }

  function PolicyPieces(family: IpFamily, allocation: ResourceCandidate, device: string, local: bool): seq<Piece> {
    [RoutePiece(family, allocation.routeTable, device, local),
     RulePiece(family, allocation.mark, allocation.mask, allocation.routeTable, allocation.rulePriority)]
  }

  // ----- whole plans -----

  datatype Ipv6Handling = Ipv6Absent | Ipv6Captured | Ipv6Guarded

  /** The IPv6 guard, if there is one, and the policy-routing pieces: the common beginning of every plan. */
  function Beginning(
    slot: Slot, policy: CapturePolicy, allocation: ResourceCandidate, owner: Owner, ipv6: Ipv6Handling, device: string,
    local: bool): seq<Piece>
  {
    (if ipv6.Ipv6Guarded? then [SectionPiece(GuardSection(slot, policy, owner))] else [])
    + PolicyPieces(Ipv4, allocation, device, local)
    + (if ipv6.Ipv6Captured? then PolicyPieces(Ipv6, allocation, device, local) else [])
  }

  /** What a TPROXY plan installs, in order. */
  function TproxyPieces(
    generation: nat, slot: Slot, policy: CapturePolicy, allocation: ResourceCandidate, port: nat,
    scope: Option<seq<string>>, forwarding: seq<string>, ipv6: Ipv6Handling): seq<Piece>
  {
    var owner, forwardOwner := LocalOwner(generation), ForwardOwner(generation);
    Beginning(slot, policy, allocation, owner, ipv6, "lo", true)
    + [SectionPiece(TproxySection(Ipv4, slot, policy, allocation, port, owner, scope)),
       SectionPiece(DnsSection(Ipv4, slot, policy, allocation, owner, scope))]
    + (if forwarding != [] then
         [SectionPiece(FwdSection(slot, policy, allocation, port, forwarding, forwardOwner)),
          SectionPiece(Fwd6Section(slot, forwarding, forwardOwner))]
       else [])
    + (if ipv6.Ipv6Captured? then
         [SectionPiece(TproxySection(Ipv6, slot, policy, allocation, port, owner, scope)),
          SectionPiece(DnsSection(Ipv6, slot, policy, allocation, owner, scope))]
       else [])
  }

  /** What a TUN plan installs, in order. */
  function TunPieces(
    generation: nat, slot: Slot, policy: CapturePolicy, allocation: ResourceCandidate, scope: Option<seq<string>>,
    ipv6: Ipv6Handling): seq<Piece>
  {
    var owner := TunOwner(generation);
    Beginning(slot, policy, allocation, owner, ipv6, "nethop0", false)
    + [SectionPiece(TunSection(Ipv4, slot, policy, allocation, owner, scope)),
       SectionPiece(DnsSection(Ipv4, slot, policy, allocation, owner, scope))]
    + (if ipv6.Ipv6Captured? then
         [SectionPiece(TunSection(Ipv6, slot, policy, allocation, owner, scope)),
          SectionPiece(DnsSection(Ipv6, slot, policy, allocation, owner, scope))]
       else [])
  }
}
