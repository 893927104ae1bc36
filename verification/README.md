# NetHop: a verified model of its transactional core

NetHop routes the traffic of an Android device through a proxy. This project models, in Dafny 4.11, the parts of
it that change something and must be able to take it back or must mean exactly what a policy says, and proves
what they promise. `dafny verify dfyconfig.toml` checks everything.

1. **The capture compiler and its executor.** A policy about UIDs, transports and interfaces is compiled into
   netfilter chains, routes and policy rules, each with its undo. Rules are data with a packet semantics: marks are
   32-bit vectors, `set-xmark v/m` gives `(mark & ~m) ^ v`, RETURN goes back to the caller, jumps nest. On top of
   it stand a compiler-correctness theorem (`PacketPaths`, `Traffic`, `Tethering`), a routing law on the installed
   policy rules and routes (`Routing`), what holds at every moment of an apply (`PlanSafety`), and an exact-undo
   theorem (`Tables`, `KernelState`, `PlanReady`, `Executor`, `PlanUndo`) for every plan, every network that is free
   for it, and every pattern of failing commands. Modules: `Netfilter`, `Capture`, `Capability`, `Glob`, `Plan`,
   `PlanFacts`, `Planner`, `PlanBuilder`, `InterfaceNames`, `Addresses`.
2. **The generation store** (`Generation`, `Disk`, `StoreSpec`, `GenerationStore`, `StoreLaws`, `StoreRuns`,
   `StoreFaults`). Configurations are prepared, sealed and committed over a filesystem on which every step,
   existence tests included, may succeed, fail part-way or be the last one before a crash. The class follows the
   source step by step and is proved equal to functions of the disk; the theorems are about these.
3. **Node identity** (`ProxyNode`, `Canonical`, `Encoder`, `Dedup`, `DedupLaws`, `Conversion`,
   `ReportLaws`). The canonical
   encoding identifies connections, deduplication by an index equals a plain scan, and the conversion report
   conserves what it counts.
4. **Netlink, Wi-Fi scenes and package selection** (`Netlink`, `Debouncer`, `WifiScene`, `Apps`, `AppSelection`).

`Wrappers`, `Ordering`, `Sequences` and `Decimal` are shared.

What the theorems take for granted:

- A command that reports success took effect, one that reports absence found nothing to act on, and a
  netfilter-restore payload takes effect as a whole or not at all; any other failing command may or may not have
  taken effect. Commands run one at a time and nobody else edits the tables meanwhile.
- The network a plan is applied to has none of the chains of the plan's own slot, no route in the allocated table
  and no rule of the allocated priority. Chains of the other slot may be there. The probe offers an allocation only
  after looking for such routes and rules.
- The routing law also takes what the probe calls an allocation without conflict: no rule has its priority or table,
  and none asks for an overlapping mark. The kernel asks policy rules in order and takes the first whose table knows a
  way.
- NetHop appends its hooks, so rules of other programs on the same hook come first. The traffic theorems speak of
  packets those rules let continue, and say that all others fare as before.
- SHA-256 and JSON are parameters of the store. Reading back what was written gives it back, and a manifest that
  was cut short cannot be read; nothing is assumed of the digest.
- A store starts with `current` absent or naming a generation that verifies, and with no registry file beside a
  readable manifest that does not bind it.
- A text stands for its UTF-8 bytes. A field of the canonical encoding is shorter than 4 GiB, which the limit of
  5 MiB on a subscription implies.
- Validators, filters, fingerprint functions, package-manager answers and clocks are parameters.

Where a promise fails, the model keeps the code and says exactly when it holds:

- `Glob.CorrectExactlyWithoutStar`: values with `*` are misjudged by some pattern. Interface names have none.
- `PacketPaths.CoreTrafficLeftAlone`: the bypass rule compares under the allocation's mask, so it works iff the
  bypass mark has no bit outside that mask. `BypassOutsideMask` shows marks the planner accepts for which it does
  not; the default mask has all bits.
- `StoreLaws.DiscardSealedExactly`, `StoreLaws.PublishExactly`, `StoreRuns.RunExactly`: a failing test whether
  `current` exists is taken for "no current generation". The store stays consistent iff no call meets that failure
  while it drops the active generation and the removal then takes effect. `StoreFaults.BlindDiscardLosesCurrent`
  and `StoreFaults.BlindPublishLosesCurrent` show the loss, for a discard and for a publish.
- `StoreFaults.UnboundSlips`: likewise a registry file that is not bound passes verification if the test whether it
  exists fails; no run produces such a file.
- `DedupLaws.ConservedExactly` and `Conversion.SummaryAgreesExactly`: outcomes are kept by source id, so a second
  batch of the same source replaces the first. `Conversion.RepeatedSourceMiscounted` shows two rejected items and a
  summary of one. The counts are right iff a batch that is replaced had nothing to count.
- `AppSelection.ExpansionsAgree`: the two ways of selecting agree on shared UIDs except that only one of them lists
  a UID all of whose packages were chosen.

Canonical bytes identify the nodes that validation accepts (`Canonical.AcceptedIdentified`). Headers are written under
their own names next to options, so this would end with a capability matrix that allowed Shadowsocks or HTTP over a
transport with headers: `Canonical.IdentifiesExactly` says for which protocols and transports it would.

## Model

| member | source | states |
|---|---|---|
| `Capture.CapturePolicy.CapturesUidMeaning` | crates/nethop-core/src/capture.rs:226-230 | for every valid policy, the two binary searches decide membership: a UID is captured iff the included list is empty or holds it, and the excluded list does not |
| `Capture.NewWithProtocols` | crates/nethop-core/src/capture.rs:156-202 | a policy that is accepted is valid, with sorted duplicate-free UID lists of exactly the given UIDs; overlapping lists are refused |
| `Capture.NewExactly` | crates/nethop-core/src/capture.rs:156-202 | a policy is made iff none of the five refusals applies, each refusal exactly under its condition, and it holds the transports, guard, port and mark asked for |
| `Capture.WithInterfacePolicy` | crates/nethop-core/src/capture.rs:204-213 | refused iff nothing is captured and interfaces are restricted; keeps validity and which UIDs are captured |
| `Capture.WithForwardingPolicy` | crates/nethop-core/src/capture.rs:215-224 | refused iff nothing is captured and something is to be forwarded; keeps validity and which UIDs are captured |
| `Capability.NewCandidate` | crates/nethop-android/src/capability.rs:63-73 | a mark allocation exists exactly for a non-zero mark inside a non-zero mask with non-zero table and priority |
| `Capability.ValidInterfaceName` | crates/nethop-android/src/capability.rs:1018-1024 | an accepted interface name holds no `*`, which is what the glob matcher relies on |
| `Capability.FirstSupported` | crates/nethop-android/src/plan.rs:214-219 | the allocation chosen is the first without a conflict, and there is one iff some candidate is free |
| `Glob.GlobMatches` | crates/nethop-android/src/plan.rs:1090-1117 | the backtracking loop ends on every pattern and value, and on values without `*` it returns exactly the recursive meaning of `*` and `?` |
| `Glob.AnswerIsMatch` | crates/nethop-android/src/plan.rs:1090-1117 | the greedy choice of the last star loses no match |
| `Glob.StarInValueMisjudged` | crates/nethop-android/src/plan.rs:1094-1105 | for every value with a `*` there is a pattern that matches it and is reported as not matching |
| `Glob.CorrectExactlyWithoutStar` | crates/nethop-android/src/plan.rs:1090-1117 | all patterns judge a value correctly iff it holds no `*` |
| `Planner.AppendOutputUidBypasses` | crates/nethop-android/src/plan.rs:853-857 | the loop appends one return rule for each excluded UID, in order, and nothing else |
| `Planner.AppendNetworkReturns` | crates/nethop-android/src/plan.rs:779-781 | the loop appends one return rule for each reserved network, in order |
| `Planner.AppendIncludedMarks` | crates/nethop-android/src/plan.rs:859-899 | one unconditional mark rule if no UID is included, else one for each included UID |
| `Planner.AppendOutputCaptureRules` | crates/nethop-android/src/plan.rs:859-899 | the nested loops over interfaces and UIDs give the capture rules of the scope |
| `Planner.AppendDrops` | crates/nethop-android/src/plan.rs:494-544 | one drop rule for each interface in scope, or one without interface |
| `Planner.AppendForwardJumps` | crates/nethop-android/src/plan.rs:963-976 | one jump for each forwarded interface |
| `Planner.DeleteForwardJumps` | crates/nethop-android/src/plan.rs:1014-1020 | the deletions name exactly those jumps |
| `Planner.AppendUidJumps` | crates/nethop-android/src/plan.rs:1119-1161 | one jump to the block chain for each included UID |
| `Planner.AppendOutputRules` | crates/nethop-android/src/plan.rs:766-782 | the commands after the head of the output chain are its rules in order |
| `Planner.AppendPreroutingRules` | crates/nethop-android/src/plan.rs:791-833 | the commands for the prerouting chain are its rules in order, with those of a transport only if it is proxied |
| `Planner.TproxyPayloads` | crates/nethop-android/src/plan.rs:737-851 | apply payload and rollback payload are those of one section of three chains and two hooks |
| `Planner.TunPayloads` | crates/nethop-android/src/plan.rs:546-580 | the same for the tunnel chain |
| `Planner.DnsGuardPayloads` | crates/nethop-android/src/plan.rs:494-544 | the same for the DNS guard |
| `Planner.ForwardingPayloads` | crates/nethop-android/src/plan.rs:963-1027 | the same for tethered traffic, with one hook for each interface |
| `Planner.ForwardingIpv6GuardPayloads` | crates/nethop-android/src/plan.rs:1029-1056 | the same for the IPv6 guard of tethered traffic, whose effect is `Tethering.TproxyForward` |
| `Planner.Ipv6GuardPayloads` | crates/nethop-android/src/plan.rs:1119-1161 | the same for the two chains of the IPv6 guard |
| `PlanBuilder.AnyPatternMatches` | crates/nethop-android/src/plan.rs:915-918 | true iff some pattern matches the name |
| `PlanBuilder.InterfaceSelected` | crates/nethop-android/src/plan.rs:908-929 | the filter selects a name iff the policy wants it and does not exclude it; `lo` is never selected |
| `PlanBuilder.ResolveInterfaces` | crates/nethop-android/src/plan.rs:901-937 | an unrestricted policy has no list; otherwise the list is sorted and holds exactly the available names the policy selects, and an empty one is an error |
| `PlanBuilder.ResolveForwardingInterfaces` | crates/nethop-android/src/plan.rs:939-961 | the sorted list of the tethering interfaces; an error iff forwarding is on and there are none or more than eight |
| `InterfaceNames.KindsApart` | crates/nethop-android/src/plan.rs:1058-1088 | mobile, Wi-Fi and USB names exclude each other, and hotspot names exclude mobile and USB names |
| `InterfaceNames.WifiHotspots` | crates/nethop-android/src/plan.rs:1073-1082 | the Wi-Fi names that are hotspots are `swlan` and `wlan` with a positive number up to 255 |
| `InterfaceNames.NumberedWifi` | crates/nethop-android/src/plan.rs:1073-1082 | `wlan` with a number is a hotspot iff the number is between 1 and 255 |
| `InterfaceNames.KnownNames` | crates/nethop-android/src/plan.rs:1058-1088 | the prefixes that make a name mobile, Wi-Fi, hotspot or USB |
| `InterfaceNames.OwnDevices` | crates/nethop-android/src/plan.rs:1058-1088 | loopback and the tunnel device are of no kind |
| `PlanBuilder.PushPolicySteps` | crates/nethop-android/src/plan.rs:673-716 | a route step and a rule step for the allocation's table, mark and mask, each paired with the removal of what it adds; what they do to packets is `Routing.TproxySteers` and `Routing.TunSteers` |
| `PlanBuilder.TproxyStepList` | crates/nethop-android/src/plan.rs:241-340 | the steps pushed one after the other are those of the plan's pieces, in order |
| `PlanBuilder.BuildTproxy` | crates/nethop-android/src/plan.rs:185-359 | a plan is built iff every check of the source passes, and otherwise the error is that of the first check that fails; a plan has the stated pieces, a valid allocation and a bypass mark apart from the capture mark, and an IPv6 address that is present is captured or guarded |
| `PlanBuilder.TunStepList` | crates/nethop-android/src/plan.rs:417-470 | the steps of a tunnel plan are those of its pieces, in order |
| `PlanBuilder.BuildTun` | crates/nethop-android/src/plan.rs:361-492 | built iff every check passes, with the error of the first that fails; a tunnel plan always captures IPv6 and never guards it, since both are decided by the same address |
| `PlanSafety.TproxyPossible` | crates/nethop-android/src/plan.rs:185-239 | a TPROXY plan is possible iff platform, port, the ten IPv4 capabilities, a free allocation, marks, interfaces and IPv6 are as listed |
| `PlanSafety.TunPossible` | crates/nethop-android/src/plan.rs:361-416 | a tunnel plan is possible iff platform, tunnel device, an IPv6 address, a free allocation, marks and interfaces are as listed |
| `PlanSafety.HooksAreSigned` | crates/nethop-android/src/plan.rs:752-753 | every rule a plan puts on a chain it does not create carries the plan's generation |
| `PacketPaths.OutChainMeetsPolicy` | crates/nethop-android/src/plan.rs:737-783 | for every policy, allocation, scope, packet and mark: bypassed packets return, replies are accepted, and any other packet gets the capture mark iff it is DNS or its UID is captured, its destination public and its interface in scope |
| `PacketPaths.BypassReachable` | crates/nethop-android/src/plan.rs:757-761 | some mark passes the bypass rule iff the bypass mark has no bit outside the mask |
| `PacketPaths.CoreTrafficLeftAlone` | crates/nethop-android/src/plan.rs:757-783 | packets with the bypass mark are all left unmarked iff the bypass mark lies inside the mask |
| `PacketPaths.BypassOutsideMask` | crates/nethop-android/src/plan.rs:220-225 | a bypass mark and a valid allocation that pass the planner's comparison of marks, for which the bypass rule matches no mark at all |
| `PacketPaths.TunChainMeetsPolicy` | crates/nethop-android/src/plan.rs:546-580 | the same as the output chain, with loopback left alone and no clause for DNS or reserved networks |
| `PacketPaths.DnsChainDropsExactlyLeaks` | crates/nethop-android/src/plan.rs:494-544 | a packet is dropped iff it is a lookup (port 53, or TCP 853) leaving on a scoped interface other than `lo` with neither the capture mark nor the exact bypass mark |
| `PacketPaths.PreChainMeetsPolicy` | crates/nethop-android/src/plan.rs:784-833 | replies pass, sockets of the proxy are kept, and a packet goes to the listener iff it is marked and is DNS or of a proxied transport |
| `PacketPaths.FwdChainMeetsPolicy` | crates/nethop-android/src/plan.rs:963-1012 | tethered packets go to the listener iff unmarked, for a public network and of a proxied transport |
| `PacketPaths.GuardDropsExactlyCaptured` | crates/nethop-android/src/plan.rs:1119-1161 | the two guard chains drop a packet iff its UID is captured and its destination is not local |
| `Addresses.ReservedV4Ranges` | crates/nethop-android/src/plan.rs:1163-1178 | the IPv4 destinations that are never captured, as ranges of addresses |
| `Addresses.LocalV6Ranges` | crates/nethop-android/src/plan.rs:1163-1178 | the local IPv6 destinations, as ranges of addresses |
| `Addresses.NeverCaptured` | crates/nethop-android/src/plan.rs:1163-1178 | of IPv6 also the unspecified address is never captured |
| `Tables.ApplySection` | crates/nethop-android/src/plan.rs:718-735 | applying a payload to a table with other sections gives the table with this section last |
| `Tables.RollbackSection` | crates/nethop-android/src/plan.rs:837-851 | rolling a payload back from between other sections leaves exactly the table without it, rules of other programs included |
| `Tables.RollbackAbsentSection` | crates/nethop-android/src/plan.rs:837-851 | rolling back a payload that is not there is refused as a whole |
| `KernelState.UndoPiece` | crates/nethop-android/src/plan.rs:673-735 | for payloads, routes and policy rules alike: apply installs the piece, its rollback removes it wherever it stands, and finds nothing to do if it is absent |
| `PlanReady.TproxyReady` | crates/nethop-android/src/plan.rs:241-340 | every TPROXY plan fits every network that is free for its slot, route table and priority, whatever else is installed |
| `PlanReady.TunReady` | crates/nethop-android/src/plan.rs:417-470 | the same for every tunnel plan |
| `Executor.NetworkExecutor.ExecuteRollback` | crates/nethop-android/src/executor.rs:343-350 | an undo counts as done iff it succeeded or found nothing |
| `Executor.NetworkExecutor.RollbackRange` | crates/nethop-android/src/executor.rs:333-341 | every one of the undos is tried whatever failed before; what stays installed are exactly the steps whose own undo failed without taking effect, and the failure reported is the first one met |
| `Executor.SurvivorsMean` | crates/nethop-android/src/executor.rs:333-341 | a step stays iff its own undo was answered neither by success nor by absence and did not take effect |
| `Executor.OnlyFailureStays` | crates/nethop-android/src/executor.rs:333-341 | when the undo of one step alone fails, at most that step stays |
| `Executor.FirstUndoneMeans` | crates/nethop-android/src/executor.rs:333-341 | the reported failure is an undo that is not done while those of all later steps are |
| `Executor.ProgressMeans` | crates/nethop-android/src/executor.rs:268-295 | an apply stops at the first step whose command fails |
| `Executor.NetworkExecutor.ApplySteps` | crates/nethop-android/src/executor.rs:268-295 | all steps are installed iff no command fails, and otherwise the failing step and all before it are undone: exactly what is left, which error is returned and how many commands were given, for every sequence of failures; if no rollback failed the network is exactly the one before |
| `Executor.NetworkExecutor.RollbackSteps` | crates/nethop-android/src/executor.rs:313-331 | a receipt of another plan changes nothing; otherwise the receipt counts what is left and success means nothing is |
| `Executor.RollbackRunResumable` | crates/nethop-android/src/executor.rs:313-331 | after any call the network holds the first `completed_steps` steps, up to one undo that failed after taking effect |
| `Executor.RetriesResumable` | crates/nethop-android/src/executor.rs:313-331 | the same over any number of calls with any failures; the count never grows and zero means the start is restored |
| `Executor.FavourableCallRestores` | crates/nethop-android/src/executor.rs:313-331 | a call without failures restores the start |
| `PlanUndo.BuiltIsReady` | crates/nethop-android/src/plan.rs:185-492 | every plan the planner builds is one the executor can apply and take back on every free network |
| `PlanUndo.RollBackRepeatedly` | crates/nethop-android/src/executor.rs:297-331 | repeated rollbacks keep the network at a beginning of the plan, success means the start, and one attempt without failures succeeds |
| `PlanUndo.ApplyAndRollBack` | crates/nethop-android/src/executor.rs:257-331 | for every built plan, every network free for it and every sequence of failures: when apply and rollback end in success, routes, rules and all chains are exactly as before; without failures they do end in success |
| `Traffic.ForeignRulesFirst` | crates/nethop-android/src/plan.rs:752-753 | a packet meets the rules of other programs on a hook exactly as before, and the installed sections only if those let it continue |
| `Traffic.TproxyOutgoing` | crates/nethop-android/src/plan.rs:737-783 | with a whole TPROXY plan installed, a packet entering OUTPUT is marked as the policy says, and otherwise fares as before |
| `Traffic.TproxyIncoming` | crates/nethop-android/src/plan.rs:784-833 | with a whole plan installed, what happens to a packet entering PREROUTING, forwarding included |
| `Traffic.TproxyDelivery` | crates/nethop-android/src/plan.rs:737-833 | a captured packet of a proxied transport or of port 53 that comes back through loopback, with whatever mark the rules of other programs left it, is delivered to the listener or kept by its socket |
| `Traffic.TproxyDns` | crates/nethop-android/src/plan.rs:494-544 | a lookup that survives mangle OUTPUT and the guard carries the capture mark or the exact bypass mark, and a port-53 lookup that was marked is never dropped, whatever marks rules of other programs set before |
| `Traffic.TunOutgoing` | crates/nethop-android/src/plan.rs:546-580 | the same for a whole tunnel plan and both families |
| `Traffic.TunDns` | crates/nethop-android/src/plan.rs:494-544 | no unmarked lookup leaves under a tunnel plan |
| `Traffic.Ipv6Guard` | crates/nethop-android/src/plan.rs:1119-1161 | with a guard installed, an IPv6 packet that was let through so far is dropped iff its UID is captured and its destination is not local |
| `Tethering.TproxyForward` | crates/nethop-android/src/plan.rs:1029-1056 | with a plan installed, an IPv6 packet entering FORWARD that was let through so far is dropped iff it comes from a tethered interface; all other packets pass FORWARD as before, in every table |
| `Tethering.TunForward` | crates/nethop-android/src/plan.rs:546-580 | a tunnel plan leaves FORWARD alone |
| `Routing.OverlapMeans` | crates/nethop-android/src/capability.rs:1094-1101 | two masked marks overlap, as the probe computes it, iff some packet could carry both |
| `Routing.OnlyMarklessTake` | crates/nethop-android/src/capability.rs:1083-1103 | with an allocation without conflict, only rules that ask for no mark can take a captured packet away |
| `Routing.TproxySteers` | crates/nethop-android/src/plan.rs:673-716 | under a TPROXY plan a packet with the capture mark leaves by the local default route on `lo`, unless an earlier rule without mark knows a way; every other packet leaves as before, in either family |
| `Routing.TunSteers` | crates/nethop-android/src/plan.rs:673-716 | the same for a tunnel plan and the device `nethop0` |
| `Routing.TproxyCarries` | crates/nethop-android/src/plan.rs:673-783 | marking and routing together: a captured packet comes back through loopback, unless an earlier rule without mark knows a way |
| `Routing.TunCarries` | crates/nethop-android/src/plan.rs:546-716 | marking and routing together: a captured packet enters the tunnel, unless an earlier rule without mark knows a way |
| `PlanSafety.TproxyMoments` | crates/nethop-android/src/plan.rs:241-340 | after every number of steps, marks are not set yet or the way for marked packets is there |
| `PlanSafety.TunMoments` | crates/nethop-android/src/plan.rs:417-470 | the same for a tunnel plan |
| `PlanSafety.NoWayAroundOverIpv6` | crates/nethop-android/src/plan.rs:226-340 | on a device with an IPv6 address, a packet of a captured sender to a public IPv6 destination is marked or dropped, for every plan the builder returns |
| `Generation.BuildIsCoherent` | crates/nethop-core/src/generation.rs:261-322 | however a candidate is put together, digests, counts and schema agree with its parts |
| `Generation.CoherentVerifies` | crates/nethop-core/src/generation.rs:602-614 | the files of such a candidate pass verification, which reads its manifest back |
| `Generation.BuiltCandidateVerifies` | crates/nethop-core/src/generation.rs:261-322 | the writer meets the verifier, for every sequence of constructor calls |
| `Generation.VerifyBinds` | crates/nethop-core/src/generation.rs:637-704 | files that verify no longer do with a configuration or registry of another digest, an unreadable manifest, an added registry or another number; schema and counts agree |
| `Generation.VerifiedAlike` | crates/nethop-core/src/generation.rs:637-704 | directories that verify with the same manifest have the same files up to their digests |
| `Generation.BuildBindsValidly` | crates/nethop-core/src/generation.rs:293-322 | however a candidate is put together, its sources are unbound or bound to a digest of 64 hexadecimal digits and one to sixteen valid ids |
| `StoreSpec.PointedText` | crates/nethop-core/src/generation.rs:421-432 | the text written to `current` is read back as the same generation |
| `GenerationStore.Store.CurrentGeneration` | crates/nethop-core/src/generation.rs:421-432 | the generation named by `current`, none if there is none or the test for it fails, or an error if it names none |
| `GenerationStore.Store.EnsureRegistry` | crates/nethop-core/src/generation.rs:667-704 | the registry checks, step by step, are the specified ones |
| `GenerationStore.Store.EnsureSealed` | crates/nethop-core/src/generation.rs:637-704 | the order of reads and checks, with every step fallible, is the specified one |
| `GenerationStore.Store.WriteCandidate` | crates/nethop-core/src/generation.rs:602-614 | the writes and the flush, up to the first that fails, are the specified ones |
| `GenerationStore.Store.PrepareCandidate` | crates/nethop-core/src/generation.rs:471-500 | the steps of staging, with the clean-up after a failed write, are the specified ones |
| `GenerationStore.Store.SealCandidate` | crates/nethop-core/src/generation.rs:502-525 | the steps of sealing are the specified ones |
| `GenerationStore.Store.WriteCurrent` | crates/nethop-core/src/generation.rs:616-624 | writing, flushing, renaming and flushing again, up to the first that fails |
| `GenerationStore.Store.CommitGeneration` | crates/nethop-core/src/generation.rs:527-531 | a commit is a rollback to the sealed generation |
| `GenerationStore.Store.RollbackTo` | crates/nethop-core/src/generation.rs:551-554 | verification, then the switch |
| `GenerationStore.Store.RemoveIfPresent` | crates/nethop-core/src/generation.rs:739-744 | removes what it sees, and succeeds if it sees nothing |
| `GenerationStore.Store.DiscardPrepared` | crates/nethop-core/src/generation.rs:533-536 | the staging directory is removed if it is seen |
| `GenerationStore.Store.DiscardSealed` | crates/nethop-core/src/generation.rs:538-549 | the generation is removed unless it is seen to be active |
| `GenerationStore.Store.PublishWithPath` | crates/nethop-core/src/generation.rs:579-600 | prepare, validate, seal and commit, with the clean-up that belongs to each failure |
| `StoreLaws.EnsureSealedFacts` | crates/nethop-core/src/generation.rs:637-704 | verification changes nothing, and accepts only what verifies or has a registry file it failed to see |
| `StoreLaws.EnsureSealedTidy` | crates/nethop-core/src/generation.rs:637-704 | in a store without unbound registry files it accepts only what verifies, whatever fails |
| `StoreLaws.WriteCurrentFacts` | crates/nethop-core/src/generation.rs:616-624 | whatever fails, `current` is as before or names the generation, and directories are untouched |
| `StoreLaws.RollBackKeeps` | crates/nethop-core/src/generation.rs:551-554 | commit and rollback keep `current` verified under all faults |
| `StoreLaws.RemoveFacts` | crates/nethop-core/src/generation.rs:739-744 | a removal takes files from its own directory only |
| `StoreLaws.VerifyNeedsAll` | crates/nethop-core/src/generation.rs:637-704 | a verified generation that loses any file no longer verifies |
| `StoreLaws.DiscardActive` | crates/nethop-core/src/generation.rs:538-549 | discarding the active generation changes directories iff the test for `current` fails and the removal takes effect |
| `StoreLaws.DiscardSealedExactly` | crates/nethop-core/src/generation.rs:538-549 | a discard keeps `current` verified iff it is not such a blind drop |
| `StoreLaws.WrittenInOrder` | crates/nethop-core/src/generation.rs:602-614 | the writes in their order give exactly the candidate's files |
| `StoreLaws.WriteCandidateFacts` | crates/nethop-core/src/generation.rs:602-614 | success means the directory holds exactly the candidate's files; no other directory changes |
| `StoreLaws.UnfinishedIsTidy` | crates/nethop-core/src/generation.rs:602-614 | at no point of writing or removing a candidate does a readable manifest stand beside a registry it does not bind |
| `StoreLaws.PrepareFacts` | crates/nethop-core/src/generation.rs:471-500 | only the staging directory changes, success means it is complete, and without faults it succeeds iff the generation is new |
| `StoreLaws.SealFacts` | crates/nethop-core/src/generation.rs:502-525 | sealing moves the staged files as a whole to a place where there was nothing, or changes nothing; without faults it succeeds iff it can |
| `StoreLaws.SealKeeps` | crates/nethop-core/src/generation.rs:502-525 | so it keeps `current` verified |
| `StoreLaws.DiscardPreparedKeeps` | crates/nethop-core/src/generation.rs:533-536 | touches nothing but the staging directory |
| `StoreLaws.TryPublishFacts` | crates/nethop-core/src/generation.rs:579-600 | up to the commit: `current` changes only to the new generation once all its files are sealed, and generations that exist are untouched |
| `StoreLaws.PublishExactly` | crates/nethop-core/src/generation.rs:579-600 | success means `current` names the candidate's generation; failure or a crash at any point leaves `current` alone or naming it; `current` stays verified, and a switched-to generation complete, iff the clean-up is not a blind drop; everything else on disk is untouched |
| `StoreRuns.CallExactly` | crates/nethop-core/src/generation.rs:471-600 | every single call keeps `current` verified iff it is not a blind drop of the active generation |
| `StoreRuns.CallKeeps` | crates/nethop-core/src/generation.rs:471-600 | no call alters a sealed generation that holds files unless it names it to be discarded |
| `StoreRuns.RunExactly` | crates/nethop-core/src/generation.rs:471-704 | over all runs of calls by any processes, with restarts, partial failures and crashes: at every point `current` is absent or names a generation that verifies, iff no call of the run is a blind drop |
| `StoreRuns.RunKeeps` | crates/nethop-core/src/generation.rs:471-600 | over all such runs, blind drops or not, a sealed generation stays byte for byte until a call names it |
| `StoreFaults.EnsureSealedQuiet` | crates/nethop-core/src/generation.rs:637-704 | without faults exactly what verifies is accepted |
| `StoreFaults.DiscardSealedQuiet` | crates/nethop-core/src/generation.rs:538-549 | without faults the active generation is refused and any other is taken away |
| `StoreFaults.PublishQuiet` | crates/nethop-core/src/generation.rs:579-600 | without faults a coherent candidate is published iff it was accepted and its number is new; the disk and `current` afterwards, exactly, in each of the three cases |
| `StoreFaults.PrepareQuiet` | crates/nethop-core/src/generation.rs:471-500 | without faults a candidate is staged iff its number is new, and nothing else changes |
| `StoreFaults.DiscardPreparedQuiet` | crates/nethop-core/src/generation.rs:533-536 | without faults the prepared directory is gone and nothing else changed; a token of another store is refused and changes nothing |
| `StoreFaults.CurrentQuiet` | crates/nethop-core/src/generation.rs:421-432 | without faults `current` reads as the generation last switched to |
| `StoreFaults.StageCleansUp` | crates/nethop-core/src/generation.rs:471-500 | a write that failed leaves no staging directory, if nothing fails after it |
| `StoreFaults.PublishCleansUp` | crates/nethop-core/src/generation.rs:579-600 | a publish that fails leaves no staging directory, and no generation that could not be committed, if nothing fails after the call that made it fail |
| `StoreFaults.SuccessIsFlushed` | crates/nethop-core/src/generation.rs:502-525 | sealing and switching succeed only if their last flush, and every call before it, went through |
| `StoreFaults.ChangesAreFlushed` | crates/nethop-core/src/generation.rs:538-614 | so do writing a candidate and discarding a generation |
| `StoreFaults.BlindDiscardLosesCurrent` | crates/nethop-core/src/generation.rs:538-549 | for every verified active generation: one failing test, and a discard succeeds and leaves `current` naming nothing |
| `StoreFaults.UnboundSlips` | crates/nethop-core/src/generation.rs:695-700 | an unbound registry file passes if the test for it fails |
| `StoreFaults.BlindPublishLosesCurrent` | crates/nethop-core/src/generation.rs:595-598 | for every coherent candidate without registry: the flush after the switch fails, then the test for `current` fails, and the published generation is removed while `current` names it |
| `Canonical.BytesInjective` | crates/nethop-subscription/src/pipeline.rs:1257-1262 | different lists of fields have different encodings, whatever names and values contain |
| `Canonical.FieldsInjective` | crates/nethop-subscription/src/pipeline.rs:76-92 | the fields of two nodes whose headers cannot pass for options are equal only for the same connection |
| `Canonical.SameConnectionSameFields` | crates/nethop-subscription/src/pipeline.rs:76-92 | the converse: nodes that are the same connection have the same fields |
| `ProxyNode.SameConnectionIsPlain` | crates/nethop-subscription/src/pipeline.rs:76-92 | two nodes are the same connection iff they are equal once absent numbers, absent secrets and plugin options are written out, so nothing else is disregarded |
| `Canonical.SameBytesExactly` | crates/nethop-subscription/src/pipeline.rs:76-92 | two validated nodes have equal canonical bytes iff they agree on every field that affects the connection, up to absent numbers as zero, absent secrets as empty and joined plugin options |
| `Canonical.AcceptedIdentified` | crates/nethop-subscription/src/protocol.rs:576-581 | for any two nodes that the built-in matrix of protocols and transports lets through: equal canonical bytes iff the same connection |
| `Canonical.SameBytesSameKind` | crates/nethop-subscription/src/pipeline.rs:76-92 | nodes of different protocol or transport never share bytes |
| `Canonical.ShadowsocksAmbiguous` | crates/nethop-subscription/src/pipeline.rs:1074-1076 | with a matrix that allowed headers for Shadowsocks: two otherwise valid nodes, different connections, same bytes |
| `Canonical.HttpAmbiguous` | crates/nethop-subscription/src/pipeline.rs:1176-1182 | with a matrix that allowed headers for HTTP: two otherwise valid nodes, different connections, same bytes |
| `Canonical.IdentifiesExactly` | crates/nethop-subscription/src/pipeline.rs:973-1197 | for each protocol and transport, were it allowed: canonical bytes identify connections iff it is not Shadowsocks or HTTP over a transport with headers |
| `Encoder.PutField` | crates/nethop-subscription/src/pipeline.rs:1257-1262 | the four pieces of a field, appended to the buffer |
| `Encoder.PutRepeated` | crates/nethop-subscription/src/pipeline.rs:1038-1040 | the loop writes one field for each value |
| `Encoder.PutEntries` | crates/nethop-subscription/src/pipeline.rs:1074-1076 | the loop writes one field for each header, under its own name |
| `Encoder.EncodeCredentials` | crates/nethop-subscription/src/pipeline.rs:973-1028 | the buffer grows by exactly the credential fields |
| `Encoder.EncodeTls` | crates/nethop-subscription/src/pipeline.rs:1030-1064 | the buffer grows by exactly the TLS fields |
| `Encoder.EncodeTransport` | crates/nethop-subscription/src/pipeline.rs:1066-1085 | the buffer grows by exactly the transport fields |
| `Encoder.EncodeOptions` | crates/nethop-subscription/src/pipeline.rs:1087-1197 | the buffer grows by exactly the option fields |
| `Encoder.EncodeNode` | crates/nethop-subscription/src/pipeline.rs:76-92 | the encoder computes the canonical bytes of the theorem |
| `Dedup.MergeRefs` | crates/nethop-subscription/src/pipeline.rs:1273-1282 | refs kept are the first `cap` distinct ones in order of arrival |
| `Dedup.Admit` | crates/nethop-subscription/src/pipeline.rs:148-187 | one node through the index is one node through the scan, for known and new fingerprints |
| `Dedup.AdmitBatch` | crates/nethop-subscription/src/pipeline.rs:147-188 | accepted plus duplicate is the size of the batch, and accepted is the number of new fingerprints |
| `Dedup.DedupeSources` | crates/nethop-subscription/src/pipeline.rs:135-203 | for any fingerprint function the indexed loop returns the scan without an index, with territories, sorted, and the ledger of outcomes |
| `Dedup.SortedInOrder` | crates/nethop-subscription/src/pipeline.rs:195-201 | the final sort puts entries in order of source, item and id |
| `Dedup.SortedKeeps` | crates/nethop-subscription/src/pipeline.rs:195-201 | and keeps exactly the same entries |
| `DedupLaws.FirstsClimb` | crates/nethop-subscription/src/pipeline.rs:160-185 | entries stand in the order of their first nodes |
| `DedupLaws.ScanRepresents` | crates/nethop-subscription/src/pipeline.rs:135-203 | every node has exactly one entry, that of its fingerprint; an entry is the first node with it and the distinct refs and names of all nodes with it, all of them unless capped |
| `DedupLaws.RefsOfMean` | crates/nethop-subscription/src/pipeline.rs:156-160 | the refs of a fingerprint are those of the nodes that have it |
| `DedupLaws.NamesOfMean` | crates/nethop-subscription/src/pipeline.rs:161-165 | the names of a fingerprint are those of the nodes that have it |
| `DedupLaws.DeduplicatedRepresents` | crates/nethop-subscription/src/pipeline.rs:190-203 | so are the entries returned, each with the territory its names suggest |
| `DedupLaws.FirstOccurrenceOrder` | crates/nethop-subscription/src/pipeline.rs:195-201 | with items numbered upwards within each source, the final sort changes nothing |
| `DedupLaws.LedgerTotal` | crates/nethop-subscription/src/pipeline.rs:189-189 | what the outcomes add up to and what was replaced make up everything, for any number read off an outcome |
| `DedupLaws.ConservedExactly` | crates/nethop-subscription/src/pipeline.rs:135-203 | of the batches that a later batch of the same source replaces: nodes are conserved iff none brought any, duplicates iff all their fingerprints were new, rejections iff none had any |
| `Conversion.Report.PushDiagnostic` | crates/nethop-subscription/src/pipeline.rs:1284-1298 | all diagnostics are counted by code, the first are kept, and truncation is flagged iff some were not |
| `Conversion.TellsNext` | crates/nethop-subscription/src/pipeline.rs:1284-1298 | the step behind it, on values |
| `Conversion.ConvertItem` | crates/nethop-subscription/src/pipeline.rs:763-808 | each item is reported once with its protocol, accepted iff it parsed and passed the filter, and its warnings are counted up to the limit |
| `Conversion.ConvertSource` | crates/nethop-subscription/src/pipeline.rs:756-828 | the batch holds what passed, the rest is rejected, diagnostics count as warnings, and a source filtered empty is reported |
| `Conversion.ConvertSources` | crates/nethop-subscription/src/pipeline.rs:741-842 | reports, diagnostics, nodes, outcomes and summary for all sources, with the warning count and the format of the last source |
| `ReportLaws.ReportsDescribe` | crates/nethop-subscription/src/pipeline.rs:763-808 | one line for each item in order, with its index and protocol: accepted with fingerprint and shown codes, or rejected with the reason |
| `ReportLaws.RefusalsCounted` | crates/nethop-subscription/src/pipeline.rs:799-808 | every refused item is counted under its code, however many details were dropped |
| `ReportLaws.EmptySourceReported` | crates/nethop-subscription/src/pipeline.rs:813-819 | a source whose parsed items were all filtered out is reported |
| `ReportLaws.WarningsShown` | crates/nethop-subscription/src/pipeline.rs:777-812 | the warning count is what lines of accepted items show plus what was said about whole sources |
| `Conversion.AllTallies` | crates/nethop-subscription/src/pipeline.rs:763-828 | accepted items are the nodes sent on; rejected items are the sum of rejections |
| `Conversion.SummaryAgreesExactly` | crates/nethop-subscription/src/pipeline.rs:829-836 | accepted items equal nodes plus duplicates iff sources whose id comes again brought only new fingerprints, and rejected items equal rejections iff all items of such sources passed |
| `Conversion.RepeatedSourceMiscounted` | crates/nethop-subscription/src/pipeline.rs:829-836 | one source id twice with one refused item each: two items rejected, a summary of one |
| `Conversion.SummaryAgrees` | crates/nethop-subscription/src/pipeline.rs:829-836 | so the summary always agrees for distinct source ids |
| `Netlink.NextMessage` | crates/nethop-android/src/netlink.rs:236-269 | one turn of the loop: header, bounds, type and padding, in that order of errors |
| `Netlink.ParseDatagram` | crates/nethop-android/src/netlink.rs:228-272 | the loop over offsets computes the recursive specification |
| `Netlink.RoundTrip` | crates/nethop-android/src/netlink.rs:228-272 | a list of messages that fits, encoded in either byte order, is parsed as what it means, errors included (message header as in section 2.3.2 of RFC 3549) |
| `Netlink.AcceptedExactly` | crates/nethop-android/src/netlink.rs:228-272 | a datagram yields certain events iff it is the encoding of at most 1024 messages within 64 KiB that mean them |
| `Netlink.Classified` | crates/nethop-android/src/netlink.rs:274-307 | a message is read as an event iff its type number and family byte announce that event; which types are errors, malformed or ignored |
| `Netlink.EventsRoundTrip` | crates/nethop-android/src/netlink.rs:228-307 | a datagram that announces events is read as exactly those events, in either byte order |
| `Debouncer.NewDebouncer` | crates/nethop-android/src/netlink.rs:150-160 | made exactly for a non-zero quiet period no longer than the delay |
| `Debouncer.NetlinkDebouncer.Observe` | crates/nethop-android/src/netlink.rs:180-207 | an earlier time changes nothing; otherwise the event joins the pending batch or starts one and hands over the batch that was due |
| `Debouncer.NetlinkDebouncer.TakeReady` | crates/nethop-android/src/netlink.rs:209-216 | hands over the pending batch iff it is due |
| `Debouncer.RunsGroup` | crates/nethop-android/src/netlink.rs:172-225 | over all runs, batches handed over with the pending one are the grouping of the events alone |
| `Debouncer.PollIndependent` | crates/nethop-android/src/netlink.rs:209-216 | runs with the same events have the same batches, whenever and however often they were polled |
| `Debouncer.SegmentsCover` | crates/nethop-android/src/netlink.rs:190-205 | every event is in exactly one batch, in order |
| `Debouncer.GroupsAreMaximal` | crates/nethop-android/src/netlink.rs:172-179 | gaps inside a batch are under the quiet period, its span under the delay, and the next begins only once it is due |
| `Debouncer.ApartMeans` | crates/nethop-android/src/netlink.rs:172-179 | a batch ends iff it has been quiet for the quiet period, or open for the delay, or time has run out |
| `Debouncer.GroupsAreOrdered` | crates/nethop-android/src/netlink.rs:172-225 | batches are strictly ordered in time, short of the largest duration |
| `WifiScene.NewMatcher` | crates/nethop-android/src/wifi_scene.rs:204-217 | accepts a list iff it is short enough and no two rules share an id or a condition |
| `WifiScene.Select` | crates/nethop-android/src/wifi_scene.rs:219-229 | returns a most specific matching rule, or none iff none matches |
| `WifiScene.Evaluate` | crates/nethop-android/src/wifi_scene.rs:219-234 | computes the decision that is defined without any order of rules |
| `WifiScene.MostSpecificIsUnique` | crates/nethop-android/src/wifi_scene.rs:154-163 | rules that do not clash never tie |
| `WifiScene.AccessPointFirst` | crates/nethop-android/src/wifi_scene.rs:154-163 | the most specific rule names an access point if any matching rule does, and among those a network name if any does |
| `WifiScene.OrderIndependent` | crates/nethop-android/src/wifi_scene.rs:203-235 | every order of the rules is accepted and decides the same |
| `Apps.SnapshotApps` | crates/nethop-android/src/apps.rs:127-155 | a user's packages are taken iff each belongs to the user and to exactly one class, and no class has others |
| `Apps.ClassMeans` | crates/nethop-android/src/apps.rs:129-138 | an application is of the system iff the system listing has it, and a user's own iff the user listing has it |
| `Apps.GroupClassMeans` | crates/nethop-android/src/apps.rs:505-532 | a group is of the system iff one of its packages is, and holds exactly the packages with its UID |
| `Apps.BuildGroups` | crates/nethop-android/src/apps.rs:505-532 | one group for each UID in order with all its packages, refused iff a UID has too many |
| `Apps.GroupFound` | crates/nethop-android/src/apps.rs:182-186 | looking a UID up gives the group of all its packages, or none iff no package has it |
| `Apps.FromSnapshots` | crates/nethop-android/src/apps.rs:117-166 | made iff users differ, snapshots are sound and limits are kept; the catalogue is the sorted list of all packages with the group of each UID |
| `Apps.CatalogueSorted` | crates/nethop-android/src/apps.rs:156-162 | the catalogue is strictly sorted by user, UID and name and holds exactly the listed packages |
| `Apps.CatalogueAgrees` | crates/nethop-android/src/apps.rs:176-180 | the catalogue and the listings it was made from give every package the same UID |
| `Apps.SamePackages` | crates/nethop-android/src/apps.rs:505-532 | the packages the catalogue has for a UID are those of the user's listing, in the same order |
| `AppSelection.UidsIncrease` | crates/nethop-android/src/apps.rs:499-503 | because the UID fixes the user, dropping the user keeps the order and keeps UIDs apart |
| `AppSelection.CataloguedIsWellMade` | crates/nethop-android/src/apps.rs:117-166 | what is made from snapshots meets what a selection relies on: every UID in the range of its user, and the groups of its packages |
| `AppSelection.CompileSelection` | crates/nethop-android/src/apps.rs:188-235 | refuses iff a package is unknown, else the strictly increasing UIDs of the chosen packages, and every shared UID of which a package was not chosen |
| `AppSelection.LoadUser` | crates/nethop-android/src/apps.rs:316-329 | a user's answer is loaded iff it came and all its UIDs are the user's |
| `AppSelection.EntriesIncrease` | crates/nethop-android/src/apps.rs:315-330 | loading user by user and name by name fills the table in the order of its keys |
| `AppSelection.AffectedIs` | crates/nethop-android/src/apps.rs:344-350 | filtering the whole table by user and UID gives the packages of the user's own listing |
| `AppSelection.ResolveSelection` | crates/nethop-android/src/apps.rs:300-371 | the strictly increasing UIDs of the known packages, the unknown ones in order, and every shared UID with its packages |
| `AppSelection.UnknownMeans` | crates/nethop-android/src/apps.rs:331-341 | what is left unresolved is what the package manager does not know, as often as it was chosen |
| `AppSelection.SelectionsAgree` | crates/nethop-android/src/apps.rs:188-371 | when all packages exist both ways choose the same UIDs in the same order and nothing is left unresolved |
| `AppSelection.ExpansionsAgree` | crates/nethop-android/src/apps.rs:200-359 | a shared UID is listed by the catalogue iff the package manager lists it too and some package of it was not chosen |
| `AppSelection.SelectionCaptures` | crates/nethop-core/src/capture.rs:226-230 | the policy of a selection captures exactly the chosen UIDs (non-empty whitelist) or exactly the others (blacklist); an empty whitelist captures all |

## Left out

- The text of iptables and ip commands, and matching on their output: rules are modelled as data.
- Process spawning, time limits, pipes, tool lookup and the netlink socket.
- The separate entry points `apply_forwarding` and `rollback_forwarding`: they call the modelled step functions with another list of steps.
- Parsers for subscriptions, URIs, YAML, JSON and INI, and the composition of sing-box configurations.
- The capability matrix beyond the transports of each protocol: TLS, REALITY, plugin and flow entries only narrow further which nodes are accepted.
- The certificate pin of TLS options: the encoder does not write it and no outbound uses it.
- Reserved texts, UUID parsing and length bounds of node fields: validity keeps that texts which are present are not empty.
- Making a node registry (sorting, unique tags, automatic pool) and looking records up: the store sees a registry as a value with a schema and records.
- File permissions, symbolic links and loss of writes that were not flushed: a crash ends the process, and what it had written stays.
- `current_manifest`, `current_sealed_generation` and `read_node_registry`: reads that follow verification.
- StoreLaws.PublishExactly: does not say that a failed publish leaves no sealed directory behind, because a flush that fails after the rename does leave one.
- Generation.BuildIsCoherent: a registry is taken to carry the current schema, which its constructors set.
- The guessing of a territory from names, which is a parameter of deduplication, and the JSON of a report and its versions.
- Conversion.ConvertSources: does not return the composed outbounds and the elapsed time, because the first is a rendering of the nodes and the second a clock.
- Parsing of package lists and user lists, BSSIDs and Wi-Fi status output.
- Lifecycle and state machines of the daemon, its control protocol, the web interface and the module scripts.
