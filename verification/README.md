# A verified model of sysbox-runc

This project models the parts of sysbox-runc (a fork of runc for system containers) whose correctness rests on
reasoning across many steps, and proves what they keep, reach and never do. `dafny verify dfyconfig.toml` checks
all of it.

- **Device cgroup** (`Permissions`, `DeviceEmulator`, `DeviceTransition`, `Decimal`, `DevicesList`, `DevicesGroup`,
  `DevicesSet`).
  The emulator of a devices cgroup is a class with a default policy and a map of exceptions. The transition planner
  is proved against replay of its plan through the emulator: where it ends, when a step is refused, what every
  intermediate state allows, and that no shorter plan exists.
- **Start-up** (`Pipes`, `Bootstrap`, `Namespaces`, `SyncProtocol`, `SyncOutcomes`, `Registration`, `Handover`). Two transition systems over
  program counters and first-in first-out pipes. `Bootstrap` has the Go parent and the three nsexec stages, any of
  which may die at any moment. `SyncProtocol` has the parent and init, with handlers that fail, an init that fails
  or is killed at any moment, and JSON decoders that pull more bytes than they need. Both come with an inductive
  invariant, a decreasing measure and freedom from deadlock. `SyncOutcomes` decides how a run ends when init is
  killed, and `Handover` joins the two systems and the codec.
- **Bootstrap codec** (`Words`, `Netlink`, `BootstrapMessage`, `NamespacePaths`, `IdMapText`). Printers in Go and parsers in C
  or Go, and the exact conditions under which one undoes the other. The C parser checks no bounds, so the model
  keeps what it does on any bytes.
- **Rewriting of the specification** (`IdMappings`, `Seccomp`, `BindMounts`). ID mappings merged with 32-bit sums
  against ID translation, the seccomp rewrite against what it does to each system call, and batching of bind mounts
  over two passes that rewrite the destinations they look at.
- **Life cycle** (`ContainerState`). The state objects of a container, over every sequence of calls and observations.

Code that updates things in place is a class or a method with a loop, tied by its contract to a function on values;
the lemmas are about those functions. What the outside world answers (the kernel, other servers, the file system,
which process moves next, what a call observes) is a parameter or a choice of the run.

## Where a promise does not hold as stated

Each of these has a lemma with the exact condition, and a concrete case.

- The emulator can refuse a rule midway through a white-list to white-list transition (`WhiteListReplayCondition`,
  `NarrowDropIsRefused`). By the comment at libcontainer/cgroups/devices/devices_emulator.go:158-170 the kernel
  ignores such a rule in silence; the final comparison then finds it out (`IgnoredRuleShows`, `SetSucceedsExactly`).
- The final comparison of a devices cgroup fails for a target with an exception without permissions, which a plan
  never carries, and for an empty target whose table has been allocated (`SetReadsBackTarget`,
  `SetSucceedsExactly`, `EmptyPermissionsFail`, `AllowedAndDeniedFails`).
- Denying a pattern leaves narrower and crossing exceptions in force (`RemovalClosesDevicesWhen`,
  `DenialLeavesNarrower`).
- The parent and stage 2 decide about the cgroup-namespace byte by different tests. They disagree exactly on lists
  whose first cgroup entry is joined and a later one created (`ByteTestsAgree`, `JoinedThenCreatedDisagrees`), and then all wait for each other
  (`HangsOnJoinThenCreate`). The
  conversion of a specification rejects repeated types, so no list it yields is of that shape and every container
  made from a specification can start (`FromSpec`, `SpecListsStart`); only a caller that fills the list by other
  means can meet the disagreement.
- The comment at libcontainer/process_linux.go:626-628 places registration with sysbox-fs before the prestart hooks;
  the code asks for the hooks first. Without a mount namespace the hooks run a second time
  (`HooksRunTwiceWithoutMountNs`).
- The parent panics exactly when init is killed between announcing an error and sending its text while the parent is
  in its loop or already reads the text (`PanicCondition`, `PanicCanHappen`).
- A start during which init is killed reports success exactly when the kill came after the go-ahead, with the parent
  in its loop and nothing unread on either side, and the parent's shutdown did not fail after it
  (`SuccessAfterKillCondition`); the seccomp descriptor may then never have arrived (`SuccessAfterKillCanHappen`).
- Text attributes longer than 65530 bytes are sent with a length cut to 16 bits (`BootstrapRoundTrip`,
  `LongTextIsCut`).
- Merging ID mappings changes the translation exactly when a sum needs a 33rd bit, which includes ranges that end
  exactly at the limit (`MergeKeepsTranslation`, `RangesAtTheLimitDoNot`). The ownership test of bind sources has
  the same limit (`ShiftTestIsExact`, `ShiftTestMatchesGivenLists`, `LastRangeIsShifted`).
- With a default that allows, the seccomp rewrite keeps blocking exactly the blocked names that are on the runtime's
  own list of allowed calls (`BlockedAfterBlackListing`, `ListedStaysBlocked`).
- Destroying a container in the running state removes its resources although init is alive if the exec fifo exists
  (`CleanUpNeedsDeadInit`); pausing and resuming a created container leads there (`LiveInitCleanedUp`). It takes one
  process to do all of that: a container that is loaded anew is refreshed to created (`LoadedIsRefreshed`).

## Model

| member | source | states |
|---|---|---|
| Permissions.ToSet | libcontainer/devices/device.go:40-53 | the loop computes the mask of exactly the letters r, w and m in the string |
| Permissions.FromSetIsCanonical | libcontainer/devices/device.go:55-68 | the string of a mask has that mask and is valid |
| Permissions.OperationsAreSetOperations | libcontainer/devices/device.go:70-97 | union, difference and intersection of strings are those of the sets they denote, and emptiness is inclusion or disjointness |
| Permissions.ValidIsDeterminedByMask | libcontainer/devices/device.go:93-101 | two valid strings are equal exactly when their sets are |
| DeviceEmulator.Emulator.AddRule | libcontainer/cgroups/devices/devices_emulator.go:145-155 | the exception's permissions become the union of old and given ones, the table is allocated, and nothing else changes |
| DeviceEmulator.Emulator.RmRule | libcontainer/cgroups/devices/devices_emulator.go:157-200 | the map after a removal, or the error and an unchanged map |
| DeviceEmulator.Emulator.Allow | libcontainer/cgroups/devices/devices_emulator.go:202-220 | reset to allow-all, removal or addition, by mode; on error nothing changes |
| DeviceEmulator.Emulator.Deny | libcontainer/cgroups/devices/devices_emulator.go:222-240 | the dual of allow |
| DeviceEmulator.Emulator.Apply | libcontainer/cgroups/devices/devices_emulator.go:242-264 | the new state for every rule, every device type and every error |
| DeviceEmulator.WildcardRuleDecides | libcontainer/cgroups/devices/devices_emulator.go:202-231 | from every state, a rule for all devices leaves every access allowed, or every access denied, as it says |
| DeviceEmulator.ExceptionDecides | libcontainer/cgroups/devices/devices_emulator.go:202-240 | a rule against the default is never refused and changes exactly the accesses it names, for every device and access |
| DeviceEmulator.WildcardRuleForgets | libcontainer/cgroups/devices/devices_emulator.go:242-264 | over a list of rules, nothing before an applied rule for all devices matters, to the state or to the allocation of the table |
| DeviceEmulator.PartialMetasAreTheWiderPatterns | libcontainer/cgroups/devices/devices_emulator.go:157-200 | the patterns a removal looks at are exactly the strictly wider ones |
| DeviceEmulator.RemoveRuleCondition | libcontainer/cgroups/devices/devices_emulator.go:157-200 | a removal succeeds if and only if no strictly wider exception shares a permission with it |
| DeviceEmulator.ReplayKeepsWellFormed | libcontainer/cgroups/devices/devices_emulator.go:145-264 | typed patterns and valid permissions are kept over every sequence of applied rules |
| DeviceEmulator.RemovalLeavesNoCover | libcontainer/cgroups/devices/devices_emulator.go:157-240 | after a successful removal no remaining exception that covers the pattern carries any of its permissions |
| DeviceEmulator.RemovalClosesDevicesWhen | libcontainer/cgroups/devices/devices_emulator.go:157-240 | some device of the pattern stays excepted if and only if another exception meets the pattern with a shared permission |
| DeviceEmulator.DenialLeavesNarrower | libcontainer/cgroups/devices/devices_emulator.go:222-240 | denying all character devices leaves an exception for one of them |
| DeviceTransition.OrderingIsUnique | libcontainer/cgroups/devices/devices_emulator.go:54-67 | a map has one sorted listing, so the iteration order of the map does not matter |
| DeviceTransition.OrderedEntries | libcontainer/cgroups/devices/devices_emulator.go:54-67 | the method returns that listing |
| DeviceTransition.Transition | libcontainer/cgroups/devices/devices_emulator.go:310-373 | the two loops compute the planned rules |
| DeviceTransition.ReplayReachesTarget | libcontainer/cgroups/devices/devices_emulator.go:310-373 | replaying the plan, if no step errs, ends with the target's default and, for every pattern, exactly its permissions; it never errs when the source is a black-list or the defaults differ |
| DeviceTransition.HiddenExceptionsAreReset | libcontainer/cgroups/devices/devices_emulator.go:310-332 | a plan made for a black-list source, or for another default, takes every state, with whatever unlisted exceptions, to the target; it is never refused |
| DeviceTransition.PlanAfterReset | libcontainer/cgroups/devices/devices_emulator.go:318-338 | such a plan is the rule for all devices with all permissions, then the target's exceptions |
| DeviceTransition.WhiteListReplay | libcontainer/cgroups/devices/devices_emulator.go:310-373 | for any numbers, exactly when a white-list to white-list replay errs |
| DeviceTransition.WiderIsVisitedFirst | libcontainer/cgroups/devices/devices_emulator.go:54-67 | the sort puts every strictly wider pattern before the narrower one |
| DeviceTransition.WhiteListReplayCondition | libcontainer/cgroups/devices/devices_emulator.go:310-373 | for numbers from -1 up: it errs if and only if permissions a pattern drops overlap those a strictly wider pattern keeps |
| DeviceTransition.NarrowDropIsRefused | libcontainer/cgroups/devices/devices_emulator.go:340-353 | dropping one device from under a wildcard that stays is refused |
| DeviceTransition.EveryPrefixNotTorn | libcontainer/cgroups/devices/devices_emulator.go:310-373 | after every prefix of the replay each pattern has at least what both ends share and at most what either has |
| DeviceTransition.NoSpuriousAccess | libcontainer/cgroups/devices/devices_emulator.go:310-373 | at no point does a device get an access that neither end gives, and none is withdrawn that one exception gives at both ends |
| DeviceTransition.PlanIsShortest | libcontainer/cgroups/devices/devices_emulator.go:301-373 | no rule sequence without resets that leads from source to target is shorter than the plan |
| DevicesList.EmulatorFromList | libcontainer/cgroups/devices/devices_emulator.go:266-299 | the loop over the lines builds the state that the text stands for, or reports the first bad or overlong line; the table is allocated exactly if it has entries |
| DevicesList.LineRoundTrip | libcontainer/cgroups/devices/devices_emulator.go:82-143 | a printed exception parses back as itself exactly when it has permissions and its numbers are wildcards or 32-bit; otherwise the line is rejected |
| DevicesList.ListRoundTrip | libcontainer/cgroups/devices/devices_emulator.go:266-299 | a white-list printed one line per exception, in any order, loads as itself if and only if every exception is printable |
| DevicesGroup.PlanHasAccess | libcontainer/cgroups/devices/devices_emulator.go:329-373 | a plan never contains a device rule without permissions |
| DevicesGroup.LoadIsClean | libcontainer/cgroups/devices/devices_emulator.go:271-299 | a loaded list has no exception without permissions |
| DevicesGroup.SetReadsBackTarget | libcontainer/cgroups/fs/devices.go:59-109 | for every rule list that makes a white-list, when no rule is refused: the list read back is the target without permission-less exceptions, and the final check passes if and only if there are none and an empty target table was never allocated |
| DevicesGroup.BuildEmulator | libcontainer/cgroups/fs/devices.go:48-57 | the loop computes the target and whether its table is allocated, or the first error |
| DevicesGroup.BlackListReadsBack | libcontainer/cgroups/fs/devices.go:64-107 | a black-list loads without its exceptions, and the plan made from that reaches the target whatever they are; for a black-list target the mode is reached and the final check passes, as it does for no white-list |
| DevicesGroup.EmptyPermissionsFail | libcontainer/cgroups/fs/devices.go:92-107 | from an empty list, an exception allowed without permissions leads to an empty list on which the final check fails |
| DevicesGroup.AllowedAndDeniedFails | libcontainer/cgroups/fs/devices.go:92-107 | from an empty list, an exception allowed and denied again leads to an empty list on which the final check fails |
| DevicesSet.IgnoredRuleShows | libcontainer/cgroups/devices/devices_emulator.go:157-170 | if the kernel ignores the rules the emulator would refuse, some pattern ends with a permission the target does not have |
| DevicesSet.SetSucceedsExactly | libcontainer/cgroups/fs/devices.go:59-109 | setting a white-list succeeds if and only if no kept wildcard needs a hole (or the cgroup is a black-list, whatever its unlisted exceptions), every exception asked for grants something, and an empty table was never allocated |
| Bootstrap.NextKeeps | libcontainer/nsenter/nsexec.c:827-1264 | every step of parent or stage, every death and every giving up keeps the invariant and leaves strictly less to do |
| Bootstrap.RunIsBounded | libcontainer/process_linux.go:340-453 | every run of the four parties ends within 68 steps |
| Bootstrap.StagesAreOrdered | libcontainer/nsenter/nsexec.c:827-1264 | stage 1 passes the map wait only after both maps were written once for its own pid, and they are never written without a new user namespace; stage 2 passes its greeting only after both pids were reported once, the right way round; stage 0 exits 0 only after both children were ready; a parent that has given up leaves no stage 0 behind, nor an init that it knows |
| Bootstrap.NoDeadlock | libcontainer/nsenter/nsexec.c:827-1264 | unless stage 2 waits for a byte that is not sent, in every reachable state somebody can move or everybody has finished, whoever died |
| Bootstrap.StuckInCircle | libcontainer/nsenter/nsexec.c:1240-1250 | otherwise a fault-free run that cannot go on has the parent waiting for stage 0, stage 0 for stage 2 and stage 2 for the byte |
| Bootstrap.HangsExactly | libcontainer/nsenter/nsexec.c:1240-1250 | some fault-free run hangs if and only if stage 2 waits for the byte and the parent does not send it |
| Bootstrap.CompleteRunsSettle | libcontainer/process_linux.go:340-453 | a run that cannot go on is settled, and without faults the container has started |
| Bootstrap.CanFinish | libcontainer/process_linux.go:340-453 | from every state reached without a fault the start can be completed |
| Bootstrap.StartsIffByteAgrees | libcontainer/nsenter/nsexec.c:1240-1250 | init can get its configuration if and only if the parent sends the byte exactly when stage 2 waits for it |
| Bootstrap.CleanInitPipe | libcontainer/process_linux.go:431-453 | no stray byte precedes the configuration, and when the parent enters its message loop the pipe holds the configuration alone or init has it |
| Namespaces.CloneFlags | libcontainer/configs/namespaces_syscall.go:25-34 | the flags are exactly the types with an entry without a path |
| Namespaces.ByteTestsAgree | libcontainer/process_linux.go:431-436 | the parent's test and the stages' flags agree if and only if no joined cgroup entry comes first with a created one after it; always for duplicate-free lists |
| Namespaces.StartsUnlessJoinThenCreate | libcontainer/process_linux.go:431-436 | a container with this list can be started if and only if the list is not of that shape |
| Namespaces.HangsOnJoinThenCreate | libcontainer/process_linux.go:431-436 | some fault-free run hangs if and only if the list is of that shape |
| Namespaces.MapsGoWithNewUser | libcontainer/nsenter/nsexec.c:855-880 | in every run, a running container has had both ID maps written, once, if its list creates a user namespace; otherwise none is ever written |
| Namespaces.JoinedThenCreatedDisagrees | libcontainer/process_linux.go:431-436 | joining one cgroup namespace and creating another makes the tests disagree |
| Namespaces.FromSpec | libcontainer/specconv/spec_linux.go:415-424 | conversion fails exactly on an unknown or repeated type; otherwise the list has the same entries in order |
| Namespaces.SpecListsStart | libcontainer/specconv/spec_linux.go:415-424 | every list so made is duplicate-free, the two tests agree on it, and the container can start |
| SyncProtocol.NextKeeps | libcontainer/process_linux.go:455-624 | every read, write, handler, failure and kill on either side keeps the invariant |
| SyncProtocol.NextLeavesLess | libcontainer/process_linux.go:455-624 | from any state every action leaves strictly less to do |
| SyncProtocol.RunIsBounded | libcontainer/standard_init_linux.go:83-299 | a run has at most 30 steps per operation requested plus 152 |
| SyncProtocol.OneMessageInFlight | libcontainer/sync.go:71-127 | at most one message is in flight over both directions together, except an error and its text |
| SyncProtocol.NothingIsLost | libcontainer/sync.go:71-127 | although the two sides have tables of their own and decoders may throw messages away, init never meets an unexpected reply and no reply is lost; only the text of init's own error can be |
| SyncProtocol.SidesAgree | libcontainer/init_linux.go:273-352 | for every request, the replies and payload in init's own table are those in the parent's |
| SyncProtocol.RepliesKeepTheirWord | libcontainer/process_linux.go:510-605 | in every reachable state, a resume under way means the hooks have run, an acknowledgement that the container is registered, a go-ahead that the state was saved just before, a last reply that the descriptor was taken |
| SyncProtocol.PayloadsKeepTheirPlace | libcontainer/process_linux.go:571-599 | go-aheads and payloads under way belong to the request being served |
| SyncProtocol.InitWaitsForItsParent | libcontainer/init_linux.go:273-352 | init works beyond a request only after what it asked for has been done |
| SyncProtocol.RunImpliesResume | libcontainer/process_linux.go:607-612 | the second test on leaving the loop can never fail once the first has passed |
| SyncProtocol.LogFollowsScript | libcontainer/process_linux.go:460-605 | in every run, also failing ones, the parent has done an initial part of hooks, registration, state saving, go-ahead and descriptor, in that order |
| SyncProtocol.SuccessMeansDone | libcontainer/process_linux.go:460-624 | success is returned only after hooks, one registration if enabled, saved state and one go-ahead in that order; only the descriptor can be missing, and only if init was killed; otherwise the whole script is done and init has closed its pipe |
| SyncProtocol.HooksRunTwiceWithoutMountNs | libcontainer/process_linux.go:468-493 | on success the hooks ran once with a mount namespace and twice without, the first time before registration |
| SyncProtocol.FailureLeavesNoInit | libcontainer/process_linux.go:607-624 | failure is returned only when init has exited or been killed, and only after a fault or a refused registration |
| SyncOutcomes.PanicCondition | libcontainer/sync.go:98-127 | a run that cannot go on ends in the panic if and only if some kill of init was taken between an error and its text with the parent in its loop or reading the text |
| SyncProtocol.PanicCanHappen | libcontainer/sync.go:109-120 | in every configuration some run reaches it |
| SyncOutcomes.SuccessAfterKillCondition | libcontainer/process_linux.go:607-624 | a run with a kill of init that cannot go on returns success if and only if the kill came after the go-ahead with the parent in its loop and nothing unread either way, and no handler or shutdown failed after it |
| SyncOutcomes.SuccessAfterKillCanHappen | libcontainer/process_linux.go:607-624 | with a descriptor to pass and registration possible, some run returns success although init was killed and the descriptor never arrived |
| SyncProtocol.NoDeadlock | libcontainer/process_linux.go:455-624 | in every reachable state a side can move without a fault, or the parent has returned and init is gone or done |
| SyncProtocol.FaultFreeOutcome | libcontainer/process_linux.go:455-624 | a fault-free run that cannot go on returns success if and only if registration is possible, and then the whole script is done |
| Registration.Fs.PreRegister | libsysbox/sysbox/fs.go:72-98 | refused if pre-registered already; otherwise the flag is set exactly if the message is taken |
| Registration.Fs.Register | libsysbox/sysbox/fs.go:101-130 | refused unless pre-registered and not registered; otherwise the flag is set exactly if the message is taken |
| Registration.Fs.SendCreationTime | libsysbox/sysbox/fs.go:133-145 | refused unless registered |
| Registration.Fs.Unregister | libsysbox/sysbox/fs.go:171-183 | clears both flags exactly if the message is taken, and does nothing if both are clear |
| Registration.LogIsOrderly | libsysbox/sysbox/fs.go:72-183 | over every sequence of calls and failures, sysbox-fs sees pre-registration, at most one registration, updates, unregistration, in that order; registered implies pre-registered |
| Registration.OrderlyLogsHappen | libsysbox/sysbox/fs.go:72-183 | and every such log comes from some calls |
| Registration.CreationTimeIsTaken | libcontainer/container_linux.go:438-450 | after a start that reported success the creation time is never refused |
| Handover.LoopStartsWhereBootstrapEnds | libcontainer/process_linux.go:451-460 | whenever the parent is done with the bootstrap, the message protocol can be in the same moment: the configuration in flight or read, nothing else under way, init alive or not |
| Netlink.SerializeBytes | libcontainer/message_linux.go:65-73 | filling the zeroed buffer yields the encoding: cut length, type, text, zeros |
| Netlink.AdvanceIsForward | libcontainer/nsenter/nsexec.c:517-588 | the cursor comes back to the same attribute exactly for length 0, and otherwise moves to the next aligned place |
| Netlink.NlParse | libcontainer/nsenter/nsexec.c:513-589 | the loop computes, for any bytes, the fields stored, the unknown type, the overrun or the endless loop |
| Netlink.MessageRoundTrip | libcontainer/nsenter/nsexec.c:513-589 | parsing serialized attributes that fit ends exactly at the end and stores every one |
| Netlink.EveryAttributeIsRead | libcontainer/nsenter/nsexec.c:513-589 | each number, flag and text (with its closing zero) is read back |
| Netlink.MessageRoundTripCondition | libcontainer/message_linux.go:35-99 | with distinct types all attributes are stored if and only if every length is at most 65535 |
| BootstrapMessage.BootstrapRoundTrip | libcontainer/container_linux.go:2207-2389 | for every container the whole message is stored as written if and only if each text is at most 65530 bytes |
| BootstrapMessage.GeneralFieldsArrive | libcontainer/container_linux.go:2207-2322 | the clone flags, namespace paths, score, rootless flag and time offsets are found each under its own kind, and an absent one is not |
| BootstrapMessage.UserFieldsArrive | libcontainer/container_linux.go:2229-2272 | each mapping and tool path is found under its own kind exactly when it is sent, and none when a user namespace is joined |
| BootstrapMessage.RootfsFieldsArrive | libcontainer/container_linux.go:2324-2375 | likewise for what concerns the root file system, with the default propagation |
| BootstrapMessage.LongTextIsCut | libcontainer/message_linux.go:65-77 | ID mappings of 65531 bytes are not stored as written |
| NamespacePaths.OrderNamespacePaths | libcontainer/container_linux.go:2159-2188 | fails exactly if an entry to join is unsupported, missing or has a comma; otherwise lists them all in the fixed order |
| NamespacePaths.UserNamespaceFirst | libcontainer/configs/namespaces_linux.go:72-83 | exactly the types with a path are listed, each once, and the user namespace first |
| NamespacePaths.OpenAll | libcontainer/nsenter/nsexec.c:597-642 | the C loop, cutting the buffer in place, yields the flags and paths of all pieces of the list as it was, or gives up; only separators are cut |
| NamespacePaths.ListRoundTrip | libcontainer/nsenter/nsexec.c:597-661 | the C side joins exactly the accepted entries, with whole paths and in order, if it can open them and there are any |
| Handover.NamespacesArriveIntact | libcontainer/container_linux.go:2217-2227 | from a namespace list and any map of paths through ordering, message and parser: stage 1 joins exactly the wanted namespaces, with own type and whole path, in the fixed order, if it can open them and there are any |
| NamespacePaths.NsMaps | libcontainer/container_linux.go:650-655 | the loop builds the paths by type, later entries replacing earlier ones |
| Handover.EntriesWithPathAreJoined | libcontainer/container_linux.go:648-660 | for a duplicate-free list, as a specification yields it, stage 1 joins exactly the entries with a path, each once and the user namespace first |
| Handover.MappingsArriveIntact | libcontainer/container_linux.go:2229-2260 | from lists of mappings through text, message and parser: under each kind the stages find text that reads as exactly the configured mappings, or nothing if there are none |
| IdMapText.EncodeIdMapping | libcontainer/container_linux.go:2190-2199 | the loop writes one line per mapping |
| IdMapText.ParseIdMap | libcontainer/user/user.go:575-604 | the loop reads one wanted mapping per line that is not blank, missing and bad words counting as zero; none at all if a line is too long |
| IdMapText.RoundTrip | libcontainer/user/user.go:96-130 | every list of 64-bit triples is read back from its text |
| IdMapText.BlanksSeparate | libcontainer/user/user.go:96-130 | white space of any length only separates what stands on its two sides |
| IdMapText.PaddingIsIgnored | libcontainer/user/lookup_unix.go:138-144 | a line whose columns are padded in any way, as the kernel prints it, reads like the one with single blanks |
| IdMappings.MergeIdMappings | libsysbox/syscont/utils.go:130-161 | short lists are returned as they are; others merge exactly if each range follows the one before on both sides, into one range with the wrapped total size |
| IdMappings.Positions | libsysbox/syscont/utils.go:146-158 | sortedness rules out a wrap of container IDs before the end; host IDs are the wrapped sums |
| IdMappings.MergeKeepsTranslation | libcontainer/configs/config_linux.go:53-61 | the merged range translates every ID as the list did, in any order, if and only if neither the total nor a host ID reached needs a 33rd bit |
| IdMappings.FittingRangesMerge | libsysbox/syscont/utils.go:130-161 | ranges that end below the limit on both sides are enough for that |
| IdMappings.RangesAtTheLimitDoNot | libsysbox/syscont/utils.go:130-161 | ranges that end exactly at the limit are not |
| IdMappings.LinuxSpec.AllocIdMappings | libsysbox/syscont/spec.go:350-380 | appends one range from ID 0, unless the manager has none to give |
| IdMappings.LinuxSpec.ValidateIdMappings | libsysbox/syscont/spec.go:384-437 | succeeds exactly for lists that merge to one large enough range from 0 with equal host IDs other than 0; on success and on failure, what becomes of both lists |
| IdMappings.LinuxSpec.CfgIdMappings | libsysbox/syscont/spec.go:441-461 | which lists are accepted, and that success leaves one range per list, from container ID 0 and large enough, validated ones with equal host IDs other than 0 |
| IdMappings.NeedUidShiftOnBindSrc | libcontainer/container_linux.go:2899-2936 | no shift exactly for exempt paths or owners in both windows, with 32-bit sums |
| IdMappings.ShiftTestIsExact | libcontainer/container_linux.go:2911-2935 | for validated mappings the test accepts exactly the owners the mappings can produce if and only if neither range reaches the limit |
| IdMappings.ShiftTestMatchesGivenLists | libcontainer/container_linux.go:2911-2935 | for the lists as written: the test accepts exactly the owners both can produce if and only if neither stretch of host IDs reaches the limit |
| IdMappings.LastRangeIsShifted | libcontainer/container_linux.go:2930-2935 | for the last 65536 host IDs the owner of container root is said to need a shift |
| Seccomp.Filter.Categorize | libsysbox/syscont/spec.go:1129-1144 | the sets of allowed and of blocked names |
| Seccomp.Filter.RemoveBlocked | libsysbox/syscont/spec.go:1167-1187 | the names are gone from blocking rules, and rules left empty are gone |
| Seccomp.Filter.AddAllowed | libsysbox/syscont/spec.go:1189-1199 | one unconditional rule per name, in some order |
| Seccomp.Filter.DropArgs | libsysbox/syscont/spec.go:1201-1211 | arguments stay exactly on rules whose names are all personality or socket |
| Seccomp.Filter.CfgSeccomp | libsysbox/syscont/spec.go:1106-1214 | which of the two rewrites happens, when nothing does, and when it errs |
| Seccomp.ActionsAfterWhiteListing | libsysbox/syscont/spec.go:1159-1199 | a listed name loses its blocking actions and gains an allowing one if it had none; every other name keeps its actions in order |
| Seccomp.ListedNamesAreAllowed | libsysbox/syscont/spec.go:1159-1211 | every listed name but personality and socket has an unconditional allowing rule, those two an allowing one, and none is blocked |
| Seccomp.RestrictionsOfTwoNamesStay | libsysbox/syscont/spec.go:1201-1211 | a rule that does not block survives, with its arguments exactly if it has no names but personality and socket |
| Seccomp.RewriteIsIdempotent | libsysbox/syscont/spec.go:1106-1214 | a second application changes nothing, in either mode |
| Seccomp.BlockedAfterBlackListing | libsysbox/syscont/spec.go:1162-1187 | with a default that allows, exactly the listed ones among the blocked names stay blocked |
| Seccomp.ListedStaysBlocked | libsysbox/syscont/spec.go:1162-1187 | a filter that blocks a listed and an unlisted name ends up blocking the listed one |
| BindMounts.FindDependency | libcontainer/rootfs_linux.go:562-572 | whether an earlier request's resolved destination prefixes this mount's configured one |
| BindMounts.Rootfs.DoBindMounts | libcontainer/rootfs_linux.go:530-617 | the batches concatenate to exactly the eligible bind mounts in order, none holds a mount and one it depends on, and each is closed for that reason only; fails only if a mount cannot be prepared or the parent does not serve the next batch |
| BindMounts.BatchesAreDetermined | libcontainer/rootfs_linux.go:562-588 | those conditions leave one possible batching |
| BindMounts.NestedNeverShareABatch | libcontainer/rootfs_linux.go:562-588 | a mount whose destination starts with the resolved place of an earlier one never shares its batch |
| BindMounts.BatchEndsBeforeNested | libcontainer/rootfs_linux.go:562-588 | and a batch is closed only for such a mount |
| BindMounts.Rootfs.DoMounts | libcontainer/rootfs_linux.go:1280-1324 | one pass makes its other mounts, then its bind mounts, in order, and rewrites exactly their destinations; when it fails, a mount failed or a request was not served |
| BindMounts.SecondSelects | libcontainer/rootfs_linux.go:621-628 | the second pass selects exactly what the first skipped, although destinations were rewritten |
| BindMounts.Rootfs.SetUpMounts | libcontainer/standard_init_linux.go:200-205 | over both passes every configured mount is made exactly once, those under the three managed places after all others |
| ContainerState.Container.Transition | libcontainer/state_linux.go:95-241 | which transitions are permitted, and the state after each |
| ContainerState.Container.RefreshState | libcontainer/container_linux.go:2040-2056 | the state after a refresh, for every observation |
| ContainerState.Container.Destroy | libcontainer/state_linux.go:106-248 | whether clean-up is reached and the state after it; a loaded container delegates once |
| ContainerState.StatusIsObserved | libcontainer/container_linux.go:2029-2056 | a successful refresh reports the observed status, except exactly for a restored container observed stopped |
| ContainerState.RefreshFailsWhen | libcontainer/container_linux.go:2040-2056 | the exact list of states and observations that make a refresh fail |
| ContainerState.CleanUpNeedsDeadInit | libcontainer/state_linux.go:136-197 | clean-up is reached from paused only without a live init, and from running exactly then or if the fifo exists |
| ContainerState.LiveInitCleanedUp | libcontainer/state_linux.go:136-141 | a created container that is paused, resumed and destroyed loses its resources while init is alive |
| ContainerState.Container.Pause | libcontainer/container_linux.go:814-844 | refresh and status test first, then the transition; the state in every case |
| ContainerState.Container.Resume | libcontainer/container_linux.go:846-875 | likewise for a paused container |
| ContainerState.EveryRun | libcontainer/state_linux.go:42-248 | over every run outside the restored state: a created container has an init to signal, refresh reports what is observed, clean-up happens only as the guards for paused and running allow and ends stopped without init |
| ContainerState.EveryDestroy | libcontainer/state_linux.go:106-248 | for every destroy call of every run, exactly when the resources go: always for a stopped or created container, for a running one if init is gone or the fifo exists, for a paused one if init is gone and thawing works |
| ContainerState.PauseSucceedsWhen | libcontainer/container_linux.go:814-844 | pausing succeeds exactly for a live, unfrozen container that could be refreshed, and leaves it paused |
| ContainerState.ResumeSucceedsWhen | libcontainer/container_linux.go:846-875 | resuming succeeds exactly for a frozen container that could be refreshed, and leaves it running |

## Left out

- Command line, logging, statistics, checkpoint and restore, CRIU, consoles, labels and security profiles.
- System calls, mounts, cgroup files and calls to other servers: each is a step that succeeds or fails.
- `handleOp` and its helper process: one request that succeeds or fails.
- The exec path (`setnsProcess`) of the message protocol, and processes added to a running container.
- Messages are indivisible: a message cut in the middle, or bytes that are no JSON, are not modelled.
- The number of operations init requests before and after registration is a parameter; the files and mounts behind them are not modelled, nor is the choice of where the seccomp descriptor is sent.
- Netlink.NlParse: models the attribute loop on the payload; the netlink header, which a library not in the repository writes, is not part of this model.
- Netlink.NlParse: stored texts are an offset and a length; what later code does with them is not modelled, except for namespace paths.
- IdMappings.MergeIdMappings: takes what sorting left in the slice as an argument, any sorted permutation, because the library's sort is not stable.
- DeviceEmulator.WildcardRuleDecides: which accesses a table of exceptions admits is taken from the kernel's devices cgroup, whose code is not part of this model.
- BootstrapMessage.GeneralFieldsArrive: how the score, the time offsets and the mount lists are put into text is not modelled; their texts are values.
- DevicesSet.SetSucceedsExactly: takes the kernel to apply rules as the emulator does, to ignore those the emulator refuses, and to list its exceptions one per line.
- Seccomp.Filter.CfgSeccomp: the runtime's list of allowed system calls is a parameter; kill actions other than the plain one count as other actions, as in the source.
- BindMounts.Rootfs.SetUpMounts: destinations are values in a list, so two entries sharing one object are not captured; path resolution is a parameter, assumed to give relative paths.
- The second sort of `sortMounts`: its comparator is no strict weak order, so its result depends on the library.
- ContainerState.Container.Destroy: the signal that goes to the init of a created container is not modelled, only that there is one to signal.
- ContainerState.EveryRun: the restored state takes part in single calls but not in runs; whether the freezer write and the ownership changes of pause and resume get as far as the transition is a parameter.
