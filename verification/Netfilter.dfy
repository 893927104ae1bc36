/** Netfilter rules as values, and what a chain of them does to a packet.

    A rule is a list of match conditions and a target.  `Scan` runs the rules of one chain: MARK changes the packet
    mark and goes on, RETURN hands the packet back to the calling chain, ACCEPT, DROP and TPROXY end the traversal,
    and a jump runs another chain of the same table first. */
module Netfilter {
  import opened Wrappers

  datatype IpFamily = Ipv4 | Ipv6
  datatype Table = Filter | Mangle
  datatype Protocol = Tcp | Udp | OtherProtocol
  datatype Slot = SlotA | SlotB

  /** The chains that NetHop creates; each exists once per slot (`NH_OUT_A`, `NH_OUT_B`, ...). */
  datatype Role = Out | Pre | Div | Dns | Tun | Fwd | Fwd6 | V6Guard | V6Block

  datatype ChainName = Output | Prerouting | Forward | Owned(role: Role, slot: Slot) | Foreign(name: string)

  predicate BuiltIn(c: ChainName) {
    c == Output || c == Prerouting || c == Forward
  }

  /** Rule comments: `nethop:g=N`, `nethop:tun:g=N` and `nethop:fwd:g=N`. */
  datatype Owner = LocalOwner(generation: nat) | TunOwner(generation: nat) | ForwardOwner(generation: nat)

  datatype Cidr = Cidr(network: nat, hostBits: nat)

  datatype Match =
    | MarkIs(value: bv32, mask: bv32)
    | MarkIsNot(value: bv32, mask: bv32)
    | OnOutput(pattern: string)
    | OnInput(pattern: string)
    | OfProtocol(protocol: Protocol)
    | ToPort(port: nat)
    | OwnedBy(uid: nat)
    | ToNetwork(network: Cidr)
    | InReplyDirection
    | OnTransparentSocket
    | Commented(owner: Owner)
    | OtherMatch(text: string)

  datatype Target =
    | Return
    | Accept
    | Drop
    | SetXMark(value: bv32, mask: bv32)
    | Tproxy(onPort: nat, value: bv32, mask: bv32)
    | Jump(chain: ChainName)

  datatype Rule = Rule(matches: seq<Match>, target: Target)

  /** What the rules can see of a packet besides its mark.  `owner` is absent when no local socket sent it. */
  datatype Packet = Packet(
    protocol: Protocol, dport: nat, dst: nat, owner: Option<nat>,
    iif: string, oif: string, reply: bool, transparentSocket: bool)

  datatype Verdict = Accepted | Dropped | Proxied(port: nat)

  datatype Scanned =
    | Continue(mark: bv32)                    // ran off the end of the list
    | Returned(mark: bv32)                    // met RETURN
    | Decided(verdict: Verdict, mark: bv32)   // met ACCEPT, DROP or TPROXY

  type Chains = map<ChainName, seq<Rule>>

  function Pow2(n: nat): (r: nat)
    ensures r > 0
  {
    if n == 0 then 1 else 2 * Pow2(n - 1)
  }

  /** All address bits above the host bits agree with the network. */
  predicate InNetwork(address: nat, cidr: Cidr) {
    address / Pow2(cidr.hostBits) == cidr.network / Pow2(cidr.hostBits)
  }

  /** The interface argument of `-i` and `-o`: a trailing `+` makes it a prefix. */
  predicate InterfaceMatches(pattern: string, name: string) {
    if |pattern| > 0 && pattern[|pattern| - 1] == '+'
    then pattern[..|pattern| - 1] <= name
    else pattern == name
  }

  /** `--set-xmark value/mask`: clear the masked bits, then xor the value in. */
  function XMark(mark: bv32, value: bv32, mask: bv32): bv32 {
    (mark & !mask) ^ value
  }

  /** Every bit of the value lies under the mask. */
  predicate Within(value: bv32, mask: bv32) {
    value & !mask == 0
  }

  /** `--mark value/mask`. */
  predicate MarkMatches(mark: bv32, value: bv32, mask: bv32) {
    mark & mask == value
  }

  predicate Holds(m: Match, p: Packet, mark: bv32) {
    match m
    case MarkIs(value, mask) => MarkMatches(mark, value, mask)
    case MarkIsNot(value, mask) => !MarkMatches(mark, value, mask)
    case OnOutput(pattern) => InterfaceMatches(pattern, p.oif)
    case OnInput(pattern) => InterfaceMatches(pattern, p.iif)
    case OfProtocol(protocol) => p.protocol == protocol
    case ToPort(port) => p.dport == port
    case OwnedBy(uid) => p.owner == Some(uid)
    case ToNetwork(network) => InNetwork(p.dst, network)
    case InReplyDirection => p.reply
    case OnTransparentSocket => p.transparentSocket
    case Commented(_) => true
    case OtherMatch(_) => true
  }

  predicate Applies(rule: Rule, p: Packet, mark: bv32) {
    forall m :: m in rule.matches ==> Holds(m, p, mark)
  }

  /** Runs `rules`.  The kernel refuses rule sets in which a chain can reach itself, so a chain that is being
      scanned is taken out of `chains` while it runs. */
  function Scan(chains: Chains, rules: seq<Rule>, p: Packet, mark: bv32): Scanned
    decreases |chains|, |rules|
  {
    if rules == [] then Continue(mark)
    else if !Applies(rules[0], p, mark) then Scan(chains, rules[1..], p, mark)
    else
      match rules[0].target
      case Return => Returned(mark)
      case Accept => Decided(Accepted, mark)
      case Drop => Decided(Dropped, mark)
      case SetXMark(value, mask) => Scan(chains, rules[1..], p, XMark(mark, value, mask))
      case Tproxy(port, value, mask) => Decided(Proxied(port), XMark(mark, value, mask))
      case Jump(chain) =>
        if chain !in chains then Scan(chains, rules[1..], p, mark)
        else
          assert (chains - {chain}).Keys == chains.Keys - {chain};
          var inner := Scan(chains - {chain}, chains[chain], p, mark);
          if inner.Decided? then inner else Scan(chains, rules[1..], p, inner.mark)
  }

  /** A list of rules runs as its first part and then, unless that part stopped, its second part. */
  lemma {:induction false} ScanAppend(chains: Chains, a: seq<Rule>, b: seq<Rule>, p: Packet, mark: bv32)
    ensures Scan(chains, a + b, p, mark) ==
            var first := Scan(chains, a, p, mark);
            if first.Continue? then Scan(chains, b, p, first.mark) else first
    decreases |chains|, |a|
  {
    if a == [] {
      assert a + b == b;
    } else {
      assert (a + b)[1..] == a[1..] + b;
      if !Applies(a[0], p, mark) {
        ScanAppend(chains, a[1..], b, p, mark);
      } else {
        match a[0].target
        case SetXMark(value, mask) => ScanAppend(chains, a[1..], b, p, XMark(mark, value, mask));
        case Jump(chain) =>
          if chain !in chains {
            ScanAppend(chains, a[1..], b, p, mark);
          } else {
            ScanAppend(chains, a[1..], b, p, Scan(chains - {chain}, chains[chain], p, mark).mark);
          }
        case _ =>
      }
    }
  }

  /** Setting the mark a second time changes nothing, because the mark lies inside its mask. */
  lemma XMarkIdempotent(was: bv32, value: bv32, mask: bv32)
    requires Within(value, mask)
    ensures XMark(XMark(was, value, mask), value, mask) == XMark(was, value, mask)
  {
  }

  lemma XMarkSets(was: bv32, value: bv32, mask: bv32)
    requires Within(value, mask)
    ensures MarkMatches(XMark(was, value, mask), value, mask)
  {
  }

  /** Setting a mark that is set already changes nothing. */
  lemma XMarkFixed(was: bv32, value: bv32, mask: bv32)
    requires MarkMatches(was, value, mask)
    ensures XMark(was, value, mask) == was
  {
  }
}
