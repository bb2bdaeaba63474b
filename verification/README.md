# ScanLedger: a verified model of the scan core

This project models, in Dafny, the four state machines at the heart of the ScanLedger backend and proves what
they promise: the guard that decides which sockets may be opened, the intensity governor that limits them, the
durable runner that executes scans, and the event log with its live stream. The sliding-window limiter of the
provider gateway, the port scan and the catalog of known exploited vulnerabilities complete the picture.

`dafny verify dfyconfig.toml` checks everything.

## How it is built

- Code that changes objects in place is a class here too (`ScanGuard`, `InMemoryLedger`, `TokenBucket`,
  `IntensityGovernor`, `SlidingWindowLimiter`, `EventPublisher`, `Database` with `ScanRunner`, `ScanDatabase`). Each
  method is proved equal to a function on the abstract state; loops are loops.
- Concurrency is a step relation. The code between two awaits is one step, each database commit is one step,
  time is a real that only grows, and every interleaving is a run (`ConnectProtocol`, `WorkerLock`, `EventStream`,
  `ScanExecution`). Reading a row and committing its change are two steps, since the database driver opens its
  transaction at the first write. `ScanExecution` has one executor of a scan at a time, which is what
  `WorkerLock.NoTwoExecutors` gives. The step relations use the same functions that the methods are proved against. A
  worker can crash between any two steps. A connect can be cancelled at each of its awaits; while it writes an audit
  entry, the denied entry of a refusal included, the cancel comes before or after the commit.
- What a constant, a table or an outcome means is stated in numbers and in terms of what happened, apart from the
  function that computes it: addresses in `Ranges`, seconds in `WorkerLock` and `ConnectBackoff`, counts in
  `ConnectNumbers`, ends of probes in `PortScan`.
- Theorems are about every run from every initial state, with any number of tasks, workers, publishers, streams,
  modules and waves.

The address ranges are those of section 3 of RFC 1918, section 3.1 of RFC 4193, section 7 of RFC 6598 and
section 3 of RFC 5737; prefixes are those of section 3.1 of RFC 4632.

## Where code and documentation differ

The model follows the code. Each difference below is proved, with a concrete input or run that shows it and with
the exact condition under which the promise holds:

- The network check promises to refuse a network with an always-denied member. Of the multicast and unspecified
  addresses it only looks at the two ends, so 0.0.0.0/24 passes although 0.0.0.0 is denied
  (`Ranges.NetworkDenialAloneMissesMembers`); of global addresses it only asks what the library says of the whole
  network, so 192.0.0.0/24 passes although 192.0.0.9 is denied (`Ranges.NetworkDenialMissesGlobalMembers`). For every
  network and whatever the library's tables say, the check is right iff it sees one of the listed classes itself, or
  the library calls the network global just in case it holds an unspecified address, a whole multicast range or a
  global address (`Ranges.NetworkDenialIsRightExactly`). For networks narrow enough to be a target this comes down to
  the base 0.0.0.0 or a global address in IPv4, and to ::, a global address and the mapped forms of the two in IPv6
  (`Ranges.NarrowDenialIsRightExactlyV4`, `Ranges.NarrowDenialIsRightExactlyV6`). With the allow-list check beside it
  the combination is exact (`ScanGuard.NetworkCheckIsExact`).
- The address iterator promises every address of the target. It gives them all exactly for a single address
  (`Targets.EnumerationIsCompleteOnlyForOneAddress`).
- The configured connections per second do not bound every second: with a rate of at least n, 2n grants can fall into
  one (`TokenBucket.OneSecondCanSeeTwiceTheRate`). They bound every second with both its ends exactly if they are less
  than one (`TokenBucket.RateBoundsEverySecondExactly`), and every second without its end exactly if they are at most
  one (`TokenBucket.RateBoundsEveryOpenSecondExactly`). A rate below one passes validation (`Governor.AcceptedRates`)
  and never grants anything (`TokenBucket.SlowBucketNeverServes`, `ConnectRate.SlowRateNeverConnects`); from a rate of
  1 on every acquire is served (`TokenBucket.ServedWithinTwoTurns`).
- The budgets are checked before the awaits and charged after them. Over all the fan-outs of a scan they are passed by
  no more than the largest wave size less one (`ConnectBudget.WavesBoundOvershoot`). For limits that pass the ceiling
  and every wave size, some scan passes its budget by that much iff the rate is at least 1, and a host budget iff
  besides it is no higher than the scan budget (`ConnectOvershoot.ScanBudgetIsPassedExactly`,
  `ConnectOvershoot.HostBudgetIsPassedExactly`), as in all shipped profiles. In those scans no connect is refused or
  fails: a small fan-out comes before one in full waves, whose last wave starts with one connect left.
- Two workers that read the same stale lock row both take it, because the update does not check what it overwrites;
  and a live worker whose heartbeat is 30 seconds late is taken over while it works. Either way one scan gets two
  executors and its terminal status can change (`WorkerRaces`). Without both, neither happens (`WorkerLock`). Whatever
  the timing, live workers own the lock row throughout a run iff no takeover in it overwrites the row of a live worker
  (`WorkerLock.ExclusiveThroughoutExactly`).
- Marking a module done does not clear the message of an earlier attempt, so after a crash the rows of a completed
  scan can read as if it had warnings (`ScanLeftovers.CrashLeavesItsMarks`). At the claim it is known: the rows will
  tell the status, whatever the modules return, iff no module that applies has a message
  (`ScanAttempt.RowsWillTellExactly`).
- Two events can be broadcast in the other order than they were committed, and a client that comes back with the last
  id it saw never gets the older one (`EventLoss.ReconnectCanLoseAnEvent`). A new stream misses such an event for good
  iff its publisher has broadcast or dropped it before the stream opens (`EventLoss.MissedForGoodExactly`).
- A request limit below 1 makes the provider limiter fail with an index error (`SlidingWindow.LimitBelowOneFails`);
  with a limit of at least 1 every acquire is served (`SlidingWindow.ServedWithinTwoTurns`), as with both limits the
  gateway uses (`SlidingWindow.GatewayIsAlwaysServed`).
- A connect can be made and counted without its audit entry (`ConnectOutcomes.AnEntryCanBeLost`). The entries missing
  are exactly those of the tasks cancelled before the commit (`ConnectOutcomes.OutcomesAlwaysKept`). In the same way a
  refusal can lose its denied entry (`GuardedConnects.DeniedEntriesAreTheVerdicts`).

## Model

| member | source | states |
|---|---|---|
| `Cidr.MaskingIsRange` | backend/app/guard/ranges.py:118-128 | membership by masking host bits is membership in the interval of the block |
| `Cidr.SubnetOfIsInclusion` | backend/app/guard/ranges.py:118-128 | `subnet_of` holds iff every address of the one is in the other |
| `Cidr.NestedOrDisjoint` | backend/app/guard/ranges.py:118-128 | two aligned blocks that share an address are nested, by prefix length |
| `Cidr.OverlapIsSharedAddress` | backend/app/guard/ranges.py:95-115 | `overlaps` holds iff there is a shared address |
| `Cidr.SubnetHasLongerPrefix` | backend/app/guard/ranges.py:118-128 | a subnet has a prefix at least as long |
| `Ranges.CodeTableIsSound` | backend/app/guard/ranges.py:26-92 | the constants of the code are sound: within the allowed ranges no address is multicast, broadcast, unspecified, documentation or global |
| `Ranges.AllowedInNumbers` | backend/app/guard/ranges.py:26-71 | for all options an address is in the allowed ranges iff it is in one of six intervals given in numbers, or the first option is taken and it is 100.64.0.0 to 100.127.255.255, or the second is and it is in 169.254.0.0/16 or fe80::/10 |
| `Ranges.WithinAllowedExactly` | backend/app/guard/ranges.py:118-128 | one allowed range contains a network iff each of its addresses is allowed: the algebraic check loses nothing |
| `Ranges.DeniedInNumbers` | backend/app/guard/ranges.py:74-92 | each always-denied class is given by its addresses in numbers; the classes are disjoint, so that the reason is the class |
| `Ranges.OnlyMetadataIsDenied` | backend/app/guard/ranges.py:39-82 | of the addresses a profile may ever draw from exactly 169.254.169.254 and fd00:ec2::254 are always denied |
| `Ranges.NetworkReasonInNumbers` | backend/app/guard/ranges.py:95-115 | the reason given for a network is a class that both its ends or some member are in, in numbers |
| `Ranges.NarrowInNumbers` | backend/app/guard/ranges.py:131-144 | a network is too broad iff it has more than 65536 addresses, or more than 2^64 in IPv6 |
| `Ranges.NetworkDenialIsMemberDenial` | backend/app/guard/ranges.py:95-128 | inside an allowed range a network is always denied iff one of its members is |
| `Ranges.NetworkDenialIsRightExactly` | backend/app/guard/ranges.py:95-115 | for every network and every library table: refusing it iff a member is always denied holds iff a listed class is seen, or the library calls it global just in case it holds an unspecified address, a whole multicast range or a global address |
| `Ranges.NarrowDenialIsRightExactlyV4` | backend/app/guard/ranges.py:95-144 | with the constants of the code and an IPv4 prefix narrow enough: the check is right iff a listed class is seen, or the library calls the network global just in case it starts at 0.0.0.0 or holds a global address |
| `Ranges.NarrowDenialIsRightExactlyV6` | backend/app/guard/ranges.py:95-144 | the same for IPv6, where :: and, if the library looks through mapped addresses, the mapped 0.0.0.0 and multicast range count |
| `Ranges.NetworkDenialAloneMissesMembers` | backend/app/guard/ranges.py:95-115 | 0.0.0.0/24 is not refused although its member 0.0.0.0 is always denied |
| `Ranges.NetworkDenialMissesGlobalMembers` | backend/app/guard/ranges.py:95-115 | 192.0.0.0/24 is not refused although its member 192.0.0.9 is always denied, with what the library says of the two |
| `Ranges.MemberOfAllowed` | backend/app/guard/ranges.py:118-128 | a member of a network within the allowed ranges is in one of them |
| `Ranges.OverlapMeansMember` | backend/app/guard/ranges.py:95-115 | a network overlaps a listed one iff some address is in both |
| `Ledger.InMemoryLedger.Record` | backend/app/guard/ledger.py:49-69 | recording appends exactly the entry and changes nothing else |
| `Ledger.InMemoryLedger.AllowedAndDeniedAreAll` | backend/app/guard/ledger.py:74-78 | the allowed and the denied entries together are exactly the ledger |
| `Scope.Create` | backend/app/guard/scanguard.py:73-105 | a profile is created iff there are entries and none has a problem; it then has the entries in order, each within one allowed range; otherwise the error of the first bad entry, or that there are none |
| `Scope.AcceptanceInNumbers` | backend/app/guard/scanguard.py:73-105 | so it is created iff there are entries, each of at most 65536 (2^64) addresses that are all private or in a range opted into, in numbers |
| `Scope.ContainsNetworkExactly` | backend/app/guard/scanguard.py:110-111 | given that all addresses of a network are in scope, the network is iff an entry that overlaps it has no longer a prefix |
| `Scope.TwoHalvesDoNotContain` | backend/app/guard/scanguard.py:110-111 | two adjacent halves cover every address of a network that is still not contained |
| `ScanGuard.ScanGuard.ValidateTarget` | backend/app/guard/scanguard.py:192-201 | the result and the ledger after validating any kind of target, refusals without an entry included |
| `ScanGuard.ScanGuard.ValidateNetwork` | backend/app/guard/scanguard.py:338-356 | the checks of a network in order, one entry either way |
| `ScanGuard.ScanGuard.ValidateAddresses` | backend/app/guard/scanguard.py:358-379 | all addresses are checked before any is recorded; one denied entry at the first bad one |
| `ScanGuard.ScanGuard.Connect` | backend/app/guard/scanguard.py:203-267 | one connect that runs to its end: the checks in order, its entry, its socket and its result |
| `ScanGuard.EverySocketIsSafe` | backend/app/guard/scanguard.py:203-267 | over all calls every socket opened is in its target, in one scope entry that is in one allowed range, and in no always-denied class |
| `ScanGuard.EverySocketInNumbers` | backend/app/guard/scanguard.py:203-267 | over all calls every socket goes to a private address or one of a range opted into, never to a CGNAT or link-local one without the option, and to no metadata, multicast, broadcast, unspecified, documentation or global address, in numbers |
| `ScanGuard.LedgerListsEverySocket` | backend/app/guard/scanguard.py:225-267 | for calls one after the other, the allowed entries with a port are exactly the opened sockets, in order, with their outcome |
| `ScanGuard.LedgerOnlyGrows` | backend/app/guard/ledger.py:43-69 | no call removes or changes an entry |
| `ScanGuard.HostnameIsAllOrNothing` | backend/app/guard/scanguard.py:358-379 | a name with a bad address leaves exactly one denied entry and no allowed one; else one allowed entry for each address |
| `ScanGuard.RefusalLeavesOneEntry` | backend/app/guard/scanguard.py:381-390 | a refusal leaves exactly one denied entry with its destination, port and reason, except the kinds that leave none |
| `ScanGuard.NetworkCheckIsExact` | backend/app/guard/scanguard.py:338-356 | a network that is narrow enough is accepted iff no member is always denied and one scope entry contains it |
| `ScanGuard.AcceptedNetworkNeverRefusedLater` | backend/app/guard/scanguard.py:203-223 | no member of an accepted network is refused by any address check of `connect` |
| `Targets.IterTargetAddresses` | backend/app/modules/ports.py:182-202 | the exact list, in order: all addresses but the first and, for IPv4, the last; only the first of one or two; the error iff the network is too large |
| `Targets.EnumeratedAreNeverRefused` | backend/app/modules/ports.py:182-202 | no address given for a validated network, address or name is refused by `connect` |
| `Targets.EnumerationIsCompleteOnlyForOneAddress` | backend/app/modules/ports.py:182-202 | the enumeration gives every address of a network iff it has one |
| `Targets.AcceptedNetworksThatCanBeEnumerated` | backend/app/modules/ports.py:133-135 | networks that are narrow enough for the guard can be enumerated iff IPv4 or with a prefix of at least 112 |
| `TokenBucket.TokenBucket.TryTake` | backend/app/scan/governor.py:103-112 | one turn of the acquire loop |
| `TokenBucket.TokenBucket.Acquire` | backend/app/scan/governor.py:103-112 | the acquire loop over any clock readings is the iteration of turns up to the first grant |
| `TokenBucket.ServedWithinTwoTurns` | backend/app/scan/governor.py:103-112 | with a rate of at least 1 and sleeps at least as long as asked, an acquire is served within two turns |
| `TokenBucket.SleepIsExact` | backend/app/scan/governor.py:103-112 | with a rate of at least 1 the next turn is granted iff it comes no earlier than the sleep that was asked for |
| `TokenBucket.SlowBucketNeverServes` | backend/app/scan/governor.py:103-112 | with a rate between 0 and 1 an acquire is never served |
| `TokenBucket.GrantRate` | backend/app/scan/governor.py:94-112 | any interval sees at most rate times (1 + length) grants, and the level stays between 0 and the rate |
| `TokenBucket.OneSecondCanSeeTwiceTheRate` | backend/app/scan/governor.py:94-112 | for every rate of at least a whole number n there is a second with 2n grants |
| `TokenBucket.RateBoundsEverySecondExactly` | backend/app/scan/governor.py:94-112 | over all call patterns every second, both ends included, sees at most the rate iff the rate is less than 1 |
| `TokenBucket.RateBoundsEveryOpenSecondExactly` | backend/app/scan/governor.py:94-112 | over all call patterns every second without its end sees at most the rate iff the rate is at most 1 |
| `TokenBucket.TurnKeepsPaidFor` | backend/app/scan/governor.py:103-112 | every turn keeps the account that pays for all grants so far |
| `Governor.IntensityGovernor.CheckBudgets` | backend/app/scan/governor.py:175-183 | the budget checks, scan before host, and the backoff to sleep |
| `Governor.IntensityGovernor.TakeGlobal` | backend/app/scan/governor.py:186 | takes one global permit and nothing else |
| `Governor.IntensityGovernor.ReturnGlobal` | backend/app/scan/governor.py:189-191 | gives the global permit back when the host permit is not obtained |
| `Governor.IntensityGovernor.TakeHost` | backend/app/scan/governor.py:187-194 | takes the host permit and counts the connect |
| `Governor.IntensityGovernor.Release` | backend/app/scan/governor.py:196-198 | gives both permits back |
| `Governor.IntensityGovernor.ReportError` | backend/app/scan/governor.py:156-160 | the next backoff of that host only |
| `Governor.IntensityGovernor.ReportSuccess` | backend/app/scan/governor.py:162-163 | forgets the backoff of that host only |
| `Governor.ShippedProfilesAreValid` | backend/app/scan/governor.py:51-87 | the shipped profiles pass validation against the hard ceiling |
| `Governor.AcceptedLimits` | backend/app/scan/governor.py:39-58 | limits pass the ceiling iff each is positive and at most 200, 20, 50, 5, 500 and 5000 |
| `Governor.AcceptedRates` | backend/app/scan/governor.py:39-48 | a rate passes the ceiling iff it is positive and at most 50 |
| `Governor.BackoffDoublesUpToTheCap` | backend/app/scan/governor.py:156-166 | after n errors the backoff is the initial one doubled n - 1 times, at most the cap |
| `ConnectProtocol.StepConservesPermits` | backend/app/scan/governor.py:168-216 | every step, a failure or cancellation at any await included, keeps free plus held permits constant, globally and per host |
| `ConnectProtocol.PermitsAlwaysConserved` | backend/app/scan/governor.py:168-216 | free plus held permits equal the configured concurrency in every reachable state |
| `ConnectProtocol.StepKeepsAudit` | backend/app/guard/scanguard.py:225-267 | every step keeps counters and ledger in agreement |
| `ConnectProtocol.AuditAlwaysAgrees` | backend/app/scan/governor.py:140-150 | probes made are the allowed entries with a port plus connects not yet or never recorded, in total and per host; the hosts add up; hosts touched are the distinct hosts counted |
| `ConnectBackoff.BackoffFollowsFailures` | backend/app/scan/governor.py:156-166 | in every run the backoff of a host is 0 after no failure since the last success there, else 0.05 seconds doubled for each further failure in a row, at most 2 |
| `ConnectBackoff.BackoffIsWaitedOut` | backend/app/scan/governor.py:175-185 | however a run goes on, a task that begins on a host that has failed n times in a row takes no turn at the bucket before that long after it began |
| `ConnectBackoff.BackoffEndsExactly` | backend/app/scan/governor.py:175-185 | and it may go on at once with no failure, else exactly from then on |
| `ConnectRate.StepKeepsRate` | backend/app/scan/governor.py:185-194 | every step keeps grants equal to starts plus tokens held plus tokens wasted, and keeps all grants paid for |
| `ConnectRate.StartRate` | backend/app/scan/governor.py:94-112 | connects started in any stretch of a run are at most rate times (1 + length) plus the tokens held at its start |
| `ConnectRate.SlowRateNeverConnects` | backend/app/scan/governor.py:39-48 | a scan with a rate below 1 never starts a connect |
| `Waves.InBoundedWaves` | backend/app/scan/concurrency.py:19-39 | one outcome for each item, in their order, exceptions included, from waves all full but the last |
| `Waves.WavesAreBlocks` | backend/app/scan/concurrency.py:19-39 | the k-th wave is the k-th block of the items |
| `FanOuts.WavesAreCut` | backend/app/scan/concurrency.py:19-39 | the wave sizes of one fan-out add up to its items, all full but the last: it is one cut of a plan |
| `ConnectBudget.OvershootBound` | backend/app/scan/governor.py:175-194 | with at most W tasks between check and charge the counts exceed no budget by more than W - 1 |
| `ConnectBudget.BudgetTurnsAwayExactly` | backend/app/scan/governor.py:175-179 | a task the guard does not refuse ends over budget iff the scan count or the count of its host has reached its budget when it begins |
| `ConnectBudget.WaveRunStaysInWaves` | backend/app/scan/concurrency.py:19-39 | over fan-outs one after another on one governor, with any number of connects in a row by each job, the tasks underway are in one wave and in different jobs, so at most a wave is between check and charge |
| `ConnectBudget.WavesBoundOvershoot` | backend/app/scan/governor.py:175-194 | over all fan-outs of a scan with waves of at most W no run exceeds a scan or host budget by more than W - 1 |
| `ConnectWaves.WavesGoThrough` | backend/app/scan/concurrency.py:19-39 | if both budgets have room whenever a wave of any fan-out starts, some run of the fan-outs connects and counts every task |
| `ConnectOvershoot.ScanBudgetIsPassedExactly` | backend/app/scan/governor.py:175-194 | for all limits under the ceiling and every W: some scan of fan-outs with waves of at most W, none of its connects refused by the guard, reaches the scan budget plus W - 1 iff the rate is at least 1 |
| `ConnectOvershoot.HostBudgetIsPassedExactly` | backend/app/scan/governor.py:175-194 | and a host budget plus W - 1 iff besides the host budget is no higher than the scan budget |
| `ConnectOvershoot.ShippedProfilesPassTheirBudgets` | backend/app/scan/governor.py:60-87 | every shipped profile can pass both budgets by W - 1 |
| `ConnectNumbers.ShippedPermits` | backend/app/scan/governor.py:51-87 | in every run of a shipped profile free and held permits are 20, 60 or 150 in all and 4, 10 or 16 on each host, and the rate is 5, 15 or 30 |
| `ConnectNumbers.ShippedCounts` | backend/app/scan/governor.py:60-87 | with waves of 256 the most a scan can count is exactly 2255, 3255 or 5255, and on one host 455, 555 or 755 |
| `ConnectOutcomes.StepKeepsOutcomes` | backend/app/guard/scanguard.py:225-267 | every step keeps the counts and the ledger in agreement with how the tasks ended |
| `ConnectOutcomes.OutcomesAlwaysKept` | backend/app/guard/scanguard.py:225-267 | under every interleaving the counts are the tasks that got to their connect, in total and per host; the ledger has each entry with a port, allowed or denied, exactly as often as tasks ended with it; of the tasks that connected exactly those cancelled before the commit have none |
| `ConnectOutcomes.TasksEndAsTheyWent` | backend/app/guard/scanguard.py:225-267 | in every run a task ends opened iff its connect succeeded and with an error iff it failed with that error, but for a cancel while its entry is written; an entry kept by a cancelled task tells the same |
| `ConnectOutcomes.AnEntryCanBeLost` | backend/app/guard/scanguard.py:255-267 | a run in which a connect is made and counted and has no entry |
| `GuardedConnects.EveryConnectIsSafe` | backend/app/guard/scanguard.py:203-225 | under every interleaving each started connect is in its target, in one scope entry within one allowed range, and in no always-denied class |
| `GuardedConnects.EveryConnectInNumbers` | backend/app/guard/scanguard.py:203-225 | the same in numbers for every connect started under any interleaving |
| `GuardedConnects.RefusalLeavesItsEntry` | backend/app/guard/scanguard.py:214-223 | a refused task that is not cancelled ends without touching the governor and leaves the entry one guarded connect leaves |
| `GuardedConnects.DeniedEntriesAreTheVerdicts` | backend/app/guard/scanguard.py:381-390 | in every reachable state a denied entry with a port is in the ledger iff it is the verdict of the guard, for another reason than the port, on a task that is over and was not cancelled before the commit |
| `ConnectProgress.AlwaysOneSleeper` | backend/app/scan/governor.py:103-112 | at most one task is inside the bucket |
| `ConnectProgress.NoDeadlock` | backend/app/scan/governor.py:175-198 | while a task is unfinished, some task can go on, at once or after a stated wait |
| `ConnectProgress.EveryRunIsFinite` | backend/app/scan/governor.py:103-112 | with a rate of at least 1 a run has at most a bounded number of steps by tasks |
| `PortScan.GroupByHost` | backend/app/modules/port_scan.py:118-130 | observations by host, hosts in order of first appearance |
| `PortScan.ToFindings` | backend/app/modules/port_scan.py:118-168 | the findings of every host: one for each open port in ascending order, then the summary |
| `PortScan.Collect` | backend/app/modules/port_scan.py:76-101 | the observations are the counted probes in order; budget and exceptions are noticed exactly |
| `PortScan.Run` | backend/app/modules/port_scan.py:61-115 | the scan fails iff a probe raises; else each port of a host is reported open once for each of its probes that was accepted, and the summary of the host counts as closed its refused probes, as filtered those that timed out or met a host error, and as probed all of these; hosts with none have no summary |
| `PortScan.ProbesAreAllPairs` | backend/app/modules/port_scan.py:77-81 | the probes are all pairs of an address and a port, address by address, the ports in order |
| `PortScan.SummaryAddsUp` | backend/app/modules/port_scan.py:118-168 | open, closed and filtered add up to probed |
| `PortScan.HostsAreDistinct` | backend/app/modules/port_scan.py:118-130 | each host is summarised once, and only if it was observed |
| `PortScanCount.ProbedTotalIsTheRiseInProbesMade` | backend/app/modules/port_scan.py:61-116 | from every reachable state of the governor, under every interleaving: the probed ports of a scan that returns add up to the rise in probes made |
| `PortScanCount.EndsTellHowItWent` | backend/app/modules/port_scan.py:103-116 | in every run a probe that does not raise ends accepted, refused, timed out or unreachable iff its connect went so |
| `PortScan.OpenPortsByHost` | backend/app/modules/base.py:68-73 | the sorted open ports of exactly the hosts that have one |
| `PortScan.OpenPortsRoundTrip` | backend/app/modules/base.py:68-73 | reading a scan's findings back gives exactly the sorted ports observed open on each host |
| `Sorting.SortSorts` | backend/app/modules/base.py:68-73 | sorting gives a sorted permutation |
| `SlidingWindow.SlidingWindowLimiter.TryAcquire` | backend/app/services/outbound.py:76-84 | one turn of the acquire loop, the index error included |
| `SlidingWindow.SlidingWindowLimiter.Acquire` | backend/app/services/outbound.py:76-84 | the loop over any clock readings is the iteration of turns |
| `SlidingWindow.TimestampsAreTheRecentHistory` | backend/app/services/outbound.py:67-84 | after every turn the list is the whole grant history filtered to the window |
| `SlidingWindow.NeverMoreThanTheLimit` | backend/app/services/outbound.py:67-84 | no half-open window of the given length ever sees more grants than the limit |
| `SlidingWindow.ServedWithinTwoTurns` | backend/app/services/outbound.py:76-84 | with a limit of at least 1 an acquire loops at most twice |
| `SlidingWindow.SleepsJustLongEnough` | backend/app/services/outbound.py:76-84 | a turn without room sleeps until 0.05 seconds after the oldest grant it counts leaves the window |
| `SlidingWindow.GatewayIsAlwaysServed` | backend/app/services/outbound.py:103-106 | with either limit of the gateway: after any turns an acquire is served by its second turn, and no 30 seconds see more than 5 or 50 requests |
| `SlidingWindow.GatewayLimitIsReached` | backend/app/services/outbound.py:103-106 | and some 30 seconds do see 5 or 50 requests |
| `SlidingWindow.LimitBelowOneFails` | backend/app/services/outbound.py:76-84 | with a limit below 1 the first acquire fails |
| `SlidingWindow.GetJson` | backend/app/services/outbound.py:132-200 | at most four requests; each but the last met no response or status 403, 429 or 500 to 599, the last did not or was the fourth; the result is that of the last, a success iff status 200 with readable JSON; the longest total sleep, attempt by attempt |
| `Events.EventPublisher.Publish` | backend/app/scan/events.py:38-67 | commits and broadcasts the event under the next number, or changes nothing if the number is taken |
| `Events.EventPublisher.Insert` | backend/app/scan/events.py:45-65 | the unique constraint decides the insert |
| `Events.EventPublisher.Broadcast` | backend/app/scan/events.py:110-112 | exactly the queues subscribed to that scan get the event |
| `Events.EventPublisher.Subscribe` | backend/app/scan/events.py:97-100 | adds an empty queue to the listeners of the scan |
| `Events.EventPublisher.Unsubscribe` | backend/app/scan/events.py:102-108 | removes the listener, and the scan if it was the last |
| `Events.EventPublisher.EventsSince` | backend/app/scan/events.py:79-95 | exactly the events of the scan above the number, each number once and in ascending order when the stored numbers are consecutive |
| `Events.AfterIsSuffix` | backend/app/scan/events.py:79-95 | on consecutive numbers a replay is exactly the suffix from there |
| `Events.PublishAlwaysSucceedsAlone` | backend/app/scan/events.py:69-77 | without interleaving the next number is never taken |
| `Events.HighestIsTheMaximum` | backend/app/scan/events.py:69-77 | the number the next one follows is the largest stored, for rows in any order |
| `Events.UnsubscribeUndoesSubscribe` | backend/app/scan/events.py:97-108 | unsubscribing restores the subscribers of every scan |
| `EventStream.NumbersAreConsecutive` | backend/app/scan/events.py:38-77 | under any interleaving of publishers the committed numbers of each scan are 1 to n |
| `EventStream.PublishRaceHasOneWinner` | backend/app/scan/events.py:45-65 | of two publishes with the same free number the first to commit is stored and the other fails |
| `EventStream.CancelEndsPublish` | backend/app/scan/events.py:38-67 | a cancelled publish stores and broadcasts nothing more |
| `EventStream.OverIsOver` | backend/app/scan/events.py:38-67 | a publish that has failed, was cancelled or has been broadcast takes no further step |
| `EventDelivery.StepKeepsDelivery` | backend/app/api/scans.py:132-148 | every step keeps what every open stream has been given |
| `EventDelivery.DeliveryAlwaysKept` | backend/app/api/scans.py:132-148 | so it holds in every reachable state |
| `EventDelivery.NoEventLost` | backend/app/api/scans.py:132-148 | of the events above the id the stream opened with, the replay has exactly those committed before it was read, and the queue exactly those of the rest that were broadcast, none twice |
| `EventResume.ResumeLosesNothing` | backend/app/api/scans.py:121-148 | if the queue is gap-free, the frames up to the last id received contain every event up to it |
| `EventResume.BroadcastKeepsOrderExactly` | backend/app/scan/events.py:38-67 | a broadcast keeps a queue gap-free iff every older event has been broadcast |
| `EventResume.OrderlyRunsAreGapFree` | backend/app/scan/events.py:38-67 | runs that broadcast in commit order keep every queue gap-free |
| `EventLoss.QueueIsTheBroadcastsSinceOpening` | backend/app/api/scans.py:132-148 | however a run goes on, while a stream is open an event of its scan is on its queue iff it was broadcast after the stream had opened |
| `EventLoss.GivenTwiceExactly` | backend/app/api/scans.py:132-148 | an event is in the replay and on the queue iff it was committed before the replay was read and broadcast after the stream had opened |
| `EventLoss.MissedForGoodExactly` | backend/app/api/scans.py:121-148 | an event no newer than the id a stream opens with is missed in every continuation iff its publisher had broadcast or dropped it before |
| `EventLoss.ReconnectCanLoseAnEvent` | backend/app/api/scans.py:121-148 | a run in which a client gets event 2, goes away, comes back with id 2, and never gets event 1 |
| `WorkerLock.ScanRunner.AcquireWorkerLock` | backend/app/scan/runner.py:105-141 | takes the lock unless the row is of another owner with a heartbeat less than 30 seconds old; else changes nothing |
| `WorkerLock.LockIsTakenAfterThirtySeconds` | backend/app/scan/runner.py:105-141 | a stopped worker that starts without interruption gets the lock of another iff that one has not beaten for 30 seconds |
| `WorkerLock.TimelyExactly` | backend/app/scan/runner.py:44-45 | every live heartbeat is less than 30 seconds old iff none is overdue by 25 seconds or more on its interval of 5 |
| `WorkerLock.BeatingWorkerKeepsTheLock` | backend/app/scan/runner.py:105-157 | a live worker whose heartbeat is less than 25 seconds overdue keeps its lock row against every takeover that finds the row it read, whatever the other workers do |
| `WorkerLock.ScanRunner.ReleaseWorkerLock` | backend/app/scan/runner.py:143-148 | deletes the row iff it is its own |
| `WorkerLock.ScanRunner.Beat` | backend/app/scan/runner.py:150-157 | renews the heartbeat iff the row is its own |
| `WorkerLock.ScanRunner.RecoverScans` | backend/app/scan/runner.py:177-182 | no scan stays running: those that were are queued and unclaimed, all others are as before |
| `WorkerLock.ScanRunner.ClaimNextScan` | backend/app/scan/runner.py:219-247 | claims the oldest queued scan and changes nothing else, or there is none |
| `WorkerLock.OneWinnerPerQueueing` | backend/app/scan/runner.py:232-247 | with any workers and any timing a scan moves from queued to running at most once for each time it was queued |
| `WorkerLock.StepKeepsSound` | backend/app/scan/runner.py:105-157 | every step of an orderly run keeps live workers in possession of the lock row with their own heartbeat |
| `WorkerLock.AtMostOneLiveWorker` | backend/app/scan/runner.py:105-157 | if live workers have beaten less than 30 seconds ago and takeovers find the row they read, at most one worker is live |
| `WorkerLock.TakeoverIsSafeExactly` | backend/app/scan/runner.py:125-141 | a takeover keeps the lock exclusive iff the row it overwrites belongs to no live worker |
| `WorkerLock.ExclusiveThroughoutExactly` | backend/app/scan/runner.py:105-157 | whatever the timing: at every point of a run every live worker owns the lock row with its own heartbeat iff every takeover in it overwrites a row of no live worker |
| `WorkerLock.NoTwoExecutors` | backend/app/scan/runner.py:211-247 | in such a run no scan is executed by two workers, and an executed scan is running under its worker's name |
| `WorkerLock.TerminalScansNeverChange` | backend/app/scan/runner.py:515-522 | in such a run a terminal scan never changes again |
| `WorkerLife.SubmittedScanIsQueued` | backend/app/scan/runner.py:219-230 | a new scan is queued behind all others, unclaimed |
| `WorkerLife.OldestScanIsExecuted` | backend/app/scan/runner.py:211-247 | an idle worker takes the oldest queued scan, gives it its status under its name and is idle again, all other scans unchanged; with none queued it stays idle |
| `WorkerLife.ClaimRaceHasOneWinner` | backend/app/scan/runner.py:232-247 | of two workers that selected one scan the first to claim executes it and the other looks again |
| `WorkerLife.DeadLoopStillBeats` | backend/app/scan/runner.py:206-217 | a worker whose loop dies leaves its scan running and still renews its heartbeat |
| `WorkerLife.InsertRaceHasOneWinner` | backend/app/scan/runner.py:109-123 | of two workers that found no lock row the first to insert one has it and the other is refused |
| `WorkerLife.StoppingFreesTheLock` | backend/app/scan/runner.py:143-204 | a worker that stops deletes the row iff it is its own, and does not beat on the way |
| `WorkerLife.CrashLeavesEverything` | backend/app/scan/runner.py:161-204 | a worker that dies leaves its row and its scan as they are; one that starts recovers before it beats or looks for scans |
| `WorkerRaces.LateBeatGivesTwoExecutors` | backend/app/scan/runner.py:125-141 | a run with a heartbeat 30 seconds late in which two workers execute one scan |
| `WorkerRaces.StaleRowRaceGivesTwoExecutors` | backend/app/scan/runner.py:109-141 | a run with every heartbeat in time in which two workers take the same stale row and execute one scan |
| `WorkerRaces.TwoExecutorsOverwriteTerminal` | backend/app/scan/runner.py:515-522 | two executors can change a terminal status from any to any other |
| `ScanExecution.AttemptsEnd` | backend/app/scan/runner.py:251-392 | an executor that is neither dead nor finished always has a step, and each brings it closer to the end |
| `ScanDurability.DoneMeansStored` | backend/app/scan/runner.py:360-373 | at every point of every run a row marked done has all findings of its attempt committed, in order, and counts them |
| `ScanDurability.AttemptsCountEntries` | backend/app/scan/runner.py:477-483 | the attempt count of a row is the number of entries of its module into running |
| `ScanDurability.FindingsAreNeverLost` | backend/app/scan/runner.py:421-444 | committed findings stay committed through crashes and further attempts |
| `ScanDurability.OnlyMarkingMakesDone` | backend/app/scan/runner.py:161-183 | a row becomes done only by marking after a return, never by recovery or a cancel |
| `ScanDurability.RunsKeepAllPlaces` | backend/app/scan/runner.py:312-373 | a row is running exactly inside its module or after a crash before recovery, and the scan status fits the executor |
| `ScanDurability.RecoverySettles` | backend/app/scan/runner.py:161-183 | recovery leaves no row and no scan running, interrupts what was, and changes nothing else; a terminal scan is not touched |
| `ScanReasons.RowsSayWhy` | backend/app/scan/runner.py:332-358 | after every run a failed row has message and code of the latest exception of its module; an interrupted, skipped or not applicable row has its own message |
| `ScanReasons.WarningsAreJoined` | backend/app/scan/runner.py:366-373 | the warnings on a done row are joined in order, with a semicolon and a space between them |
| `ScanVerdict.RunsKeepOrder` | backend/app/scan/runner.py:291-392 | the loop variables always equal what the rows of the modules passed add up to |
| `ScanOutcome.PriorFindingsAreTheCommittedOnes` | backend/app/scan/runner.py:322-330 | a module is given the committed findings of the modules done before it in this attempt, in order |
| `ScanOutcome.StatusFollowsFromTheModules` | backend/app/scan/runner.py:382-392 | a scan that ran to its end has terminal rows only; failed iff none is done, with warnings iff some is done and some failed or warned, else completed |
| `ScanOutcome.RowsTellTheStatusExactly` | backend/app/scan/runner.py:453-490 | the rows alone give the status iff a module failed or warned, or no done row carried a message at the claim |
| `ScanOutcome.FirstAttemptRowsTellTheStatus` | backend/app/scan/runner.py:382-392 | on a first attempt the rows alone give the status |
| `ScanOutcome.TerminalScansHaveTerminalRows` | backend/app/scan/runner.py:256-289 | a terminal scan has rows that are not terminal only if its dispatch was refused, and then all rows are as claimed; it is canceled only with the flag set |
| `ScanLeftovers.CrashLeavesItsMarks` | backend/app/scan/runner.py:161-183 | a run with one crash that stores findings twice and leaves the message of the crash on a done row |
| `ScanCancel.AtMostOneMoreModule` | backend/app/scan/runner.py:297-312 | once the flag is committed it stays, and at most one further module enters running |
| `ScanCancel.CancelWinsExactly` | backend/app/scan/runner.py:382-384 | a scan with the flag committed ends canceled with terminal rows iff no final check had passed before and no dispatch was refused, unless a crash undid it |
| `ScanCancel.PassedCheckWins` | backend/app/scan/runner.py:382-392 | after the final check the decided status is committed even if a cancel comes between |
| `ScanLoop.ScanDatabase.CancelScan` | backend/app/api/scans.py:91-107 | sets the flag iff the scan is not terminal |
| `ScanLoop.ScanDatabase.SetModuleStatus` | backend/app/scan/runner.py:453-490 | exactly the columns written for each status, the old message and code kept if none is given |
| `ScanLoop.ScanDatabase.StoreFindings` | backend/app/scan/runner.py:421-444 | appends the findings in order |
| `ScanLoop.ScanDatabase.MarkRemainingSkipped` | backend/app/scan/runner.py:499-513 | skips the queued and running rows, no other |
| `ScanLoop.ScanDatabase.RunModule` | backend/app/scan/runner.py:312-373 | one module: its row, its findings and the loop variables after it |
| `ScanLoop.ScanDatabase.ExecuteScan` | backend/app/scan/runner.py:251-392 | the loop ends in the database state that the steps of `ScanExecution` lead to |
| `ScanLoop.DriveIsARun` | backend/app/scan/runner.py:251-392 | that end is reached by a run of the step relation without crash |
| `ScanAttempt.LoopEndsCanceledExactly` | backend/app/scan/runner.py:297-300 | the loop ends canceled iff a request is committed before its last check |
| `ScanAttempt.AttemptEnds` | backend/app/scan/runner.py:251-392 | after any earlier attempts, an attempt that survives ends failed with rows untouched if refused, canceled with terminal rows if requested in time, and else with the status its rows give |
| `ScanAttempt.RowsWillTellExactly` | backend/app/scan/runner.py:453-490 | at the claim: whatever the modules return, the rows will tell the status of the attempt iff no module that applies has a message on its row |
| `Kev.ParseCatalog` | backend/app/services/providers/kev.py:51-74 | the loop fills the dictionary as listed, skipping empty ids, a repeated id keeping its place |
| `Kev.GetReturnsTheLastListed` | backend/app/services/providers/kev.py:43-44 | the lookup finds the last listed entry with that id in any case, and nothing iff there is none |
| `Kev.GetIgnoresCase` | backend/app/services/providers/kev.py:43-44 | two spellings of an id that differ only in the case of letters find the same |
| `Kev.LettersOfLower` | backend/app/services/providers/kev.py:51-74 | each large letter becomes its small one and every other character stays |
| `Kev.CatalogRoundTrip` | backend/app/services/providers/kev.py:77-95 | parsing the serialized form of a parsed catalog gives it back, order included |

## Left out

- Sockets, TLS, certificates, DNS and HTTP: a connect ends in any of its outcomes, a resolver gives any list of
  addresses, a provider gives any response.
- The text forms of addresses, networks and host names, and the library's table of global addresses: an address is a
  version and a number; the table is a parameter, with what it says of networks and whether it looks through
  IPv4-mapped addresses. Results about the allowed ranges assume that it calls none of their addresses or networks
  global; the two that name a network the check misses assume what it says of that network.
- A ledger that cannot be written: an exception of a write is a cancel at that write.
- Floating point: rates, times and backoffs are reals.
- The order in which waiting tasks get a lock or a semaphore: any order is allowed, which covers the order of arrival.
- SQL, migrations, search and retention; deleting a scan; the cascade of rows.
- Events published by the runner itself, and its footprint ticker: they change no module row and no status.
- The order of the modules: they are numbered in the order they run in; the sort by their order key is not modelled.
- The attempt a stored finding belongs to is history of the model; the table does not have it.
- Exceptions of a module that `execute_scan` does not list: they are the crash step.
- ScanLoop.ScanDatabase.ExecuteScan: describes one attempt that the worker survives; crashes and recovery are in the
  step relation it is proved to follow.
- SlidingWindow.GetJson: the random jitter is only bounded, and the URL check, the response parsing and the acquire of
  the limiter before each attempt are not part of it.
- ScanGuard.ScanGuard.Connect: one call without interruption; overlap, cancellation and the reports to the governor are
  in `ConnectProtocol`.
- Kev.CatalogRoundTrip: upper and lower case are those of ASCII, and all field values are strings.
- Port list options, banner and HTTP parsing, reports, settings, routes and the frontend: plumbing and text handling.
