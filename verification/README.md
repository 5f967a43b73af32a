# Verified model of the game server manager

A Dafny 4.11 model of the server panel and its node agent. It covers the parts that hold state over
time or transform data, each with the properties its code and documentation promise. Check it with

    dafny verify dfyconfig.toml

## What is modelled

| module | part of the system |
|---|---|
| `InstanceRecord`, `Lifecycle`, `LifecycleInv`, `LifecycleRuns`, `LifecycleDatabase`, `LifecycleRemoval`, `LifecycleBudget`, `LifecycleOutcomes`, `LifecycleProgress`, `CrashBudget` | one instance on a node: Start, Stop, Restart, Install, Remove, exit watchers, console lines, delayed crash restarts, its database, dumps and imports, and the three locks `opMu`, `dbMu`, `mu` |
| `PortTemplate`, `PortAllocator`, `PortRefusals`, `PortCursor`, `PortUpdate` | the schema's port rules, the block allocator, what its refusals mean, when its forward-only cursor misses a gap, and allocation again on an update |
| `Text`, `SourceCfg`, `CfgExec`, `Ini`, `IniInv`, `IniMerge` | the merges into Source engine `.cfg` files, what executing such a file does, and into INI files |
| `Globs` | the ignore patterns of a backup and the walk they prune |
| `Digests`, `Transfers`, `Upload`, `Download` | the transfer relay, an upload up to the file on the node, and a download up to the browser |
| `Firewall` | the agent's record of firewall rules against the firewall itself |
| `Gateway`, `Streams`, `StreamsInv`, `StreamsRuns`, `StreamsDelivery` | requests and sockets on the server, the agent's side of a connection, and both together |
| `Audit` | archiving and exporting the audit log |
| `Console` | the console log: written, rotated and read back |
| `RateLimit` | the fixed-window limiter |

Code that changes state is a class, or a method with the loops of the source, and each such method is
tied by its postconditions to a function on values. What holds over whole runs is proved about those
functions: a step function with its enabling condition, an invariant every step keeps, and a theorem
about every reachable state. A critical section under `mu` is one step; so is one callback on the
server's event loop. What Docker, the network, a firewall command, a disk or a database call does comes
in as a parameter of the step, so the theorems hold for every outcome. No proof uses Dafny's automatic
induction: lemmas it would apply to turn it off.

## What the proofs found

- **A value set among several commands can win over the merge.** The comment over `MergeSourceCfg` says
  that a value set on a line of several commands is added again at the end, where it wins. It is added
  only if no line of its own sets the name; with such a line earlier in the file, the later line of
  several commands wins. So does a later line with the name in quotes, which the merge does not
  recognise. `CfgExec.MergeWinsIff` gives the exact condition, `CfgExec.LaterCommandWins` and
  `CfgExec.QuotedNameWins` the files.
- **The port cursor can miss a gap.** It never goes back, so a template with a smaller block after a
  larger one can be refused although the range has room. `PortCursor.CompleteIffNonDecreasing` says for
  exactly which templates and choices that cannot happen.
- **A failing firewalld query reads as "not open".** The agent then opens the port again, records the
  rule as its own and later removes a rule that was there first (`Firewall.InitialRuleLost`).
  `Firewall.ApplyKeepsIff` is the exact condition. With queries that answer, and with ufw always, the
  account is kept even when two keys want the same port.
- **A dump can stop the database under a game.** When the database died by itself, or a dump's inspect of
  it failed, the dump takes itself for the one that started the server; under a game that is starting it
  sees no container id yet and stops the server at its end (`LifecycleDatabase.DumpStopsStartingGame`).
  A Remove that could not stop the game goes on to remove the database. Exactly these three lapses end
  the safety of a game's database (`ExactlyLapsesEndSafety`, `EachLapseCounts`), the lock holders'
  positions and the container id say whether it can be stopped now (`CanStopIffNotSafe`,
  `DumpStopsIff`), and without a lapse nothing stops it (`DatabaseShielded`).
- **A start that waits behind a Remove still starts.** It holds the record that Remove takes out of the
  registry, and when the files stay it brings the game up on it. `LifecycleRemoval.RemoveIsFinalIff` says
  exactly when a Remove is final: when no Start or Restart waits for opMu as it returns.
- **An empty last chunk gives the browser everything.** The chunk held back is then empty, so the browser
  has the whole body before the node confirmed it (`Download.EmptyChunkGivesAll`);
  `Download.WholeUnconfirmedIff` is the exact condition.
- **A file that cannot be opened fails the whole backup.** Its header is in the archive by then, so unless
  it is empty the archive cannot go on. `Globs.Create` has the exact condition on the tree and the
  patterns, `Globs.OneUnopenableFile` the smallest tree.
- **The rate limiter admits fewer than twice its max in a window's length**, one fewer than the usual
  bound, and no smaller bound holds (`RateLimit.FewerThanTwicePerWindow`, `BoundReached`).
- **Branches no interleaving reaches:** the superseded watcher, the install found by a stop, the install
  met by a start or another install (`LifecycleRuns.DeadBranches`).

## Assumptions

- SHA-256 has no collisions: a digest is a constructor over the bytes. The server's answer with a digest
  reaches the agent as it was sent.
- Texts and names are sequences of code points, and of bytes in the console log; lower case is that of ASCII.
- Tokens, request ids, container ids and socket objects do not repeat; a new audit entry's id is greater
  than all ids before it.
- An agent gets the requests that were sent on its socket, and that socket is its node's.
- The crash budget and the limiter are used with time that does not go back.
- For the merges: names of a `.cfg` file are single plain words that differ in more than case; INI
  values are one line, keys have no separator, white space, or comment or bracket at their start, and
  section names have no white space around them. A name, key or section outside that does not read
  back in its own format.
- One path segment's match is `path.Match`, a parameter; for volumes it matches a plain name only by itself.
- Firewall commands take effect entirely or not at all, on one backend.
- A body read from the network usually comes in chunks that are not empty; only
  `Download.NeverWholeUnconfirmed` needs it, and says so.
- A tar writer refuses the next entry while the one before it lacks content.

## Model

| member | source | states |
|---|---|---|
| `InstanceRecord.Instance.BeginInstall` | agent/internal/instances/manager.go:385-398 | Install's first section: which of its three outcomes, and the whole new record |
| `InstanceRecord.Instance.EndInstall` | agent/internal/instances/manager.go:401-410 | an install ends with the flag cleared and the instance stopped |
| `InstanceRecord.Instance.BeginStart` | agent/internal/instances/manager.go:641-665 | a start's first section: nothing changes when something is up or an install runs; else the spec, the stop flag and the ready pattern are set |
| `InstanceRecord.Instance.FailStart` | agent/internal/instances/manager.go:668-676 | a failed start settles on stopped |
| `InstanceRecord.Instance.Track` | agent/internal/instances/manager.go:776-794 | tracking sets the container id, and starting or running as its caller says: by the ready pattern in a start, running in Reconcile |
| `InstanceRecord.Instance.HandleLine` | agent/internal/instances/manager.go:300-307 | a console line makes a starting instance running only when the pattern is there and matches |
| `InstanceRecord.Instance.RecordExit` | agent/internal/instances/manager.go:862-893 | an exit: superseded, stopped, crashed, or crashed with a restart within the budget; the whole new record |
| `InstanceRecord.Instance.BeginStop` | agent/internal/instances/manager.go:947-978 | a stop's section, with its four outcomes |
| `LifecycleInv.QueueKeepsLocks` | agent/internal/instances/manager.go:380-383 | taking and giving back opMu and dbMu keeps each lock with the one thread whose position holds it |
| `LifecycleInv.StartKeepsContainers` | agent/internal/instances/manager.go:640-797 | every step of a start keeps: a container id exactly while up, one waiting watcher exactly for it |
| `LifecycleInv.ExitKeepsContainers` | agent/internal/instances/manager.go:862-893 | recording an exit keeps the same, and adds the exit to the history once |
| `LifecycleInv.StopKeepsOwner` | agent/internal/instances/manager.go:937-1029 | every step of a stop keeps what the thread holding opMu relies on |
| `LifecycleInv.InvKept` | agent/internal/instances/manager.go:380-1070 | any step of any thread, watcher, timer or console line keeps the whole invariant |
| `LifecycleRuns.ReachableInv` | agent/internal/instances/manager.go:380-1070 | the invariant holds in every state of every interleaving |
| `LifecycleRuns.ContainerExactlyWhileUp` | agent/internal/instances/manager.go:776-893 | in every interleaving a container id is held exactly while starting, running or stopping, and installing is set exactly while an Install that holds opMu runs |
| `LifecycleRuns.DeadBranches` | agent/internal/instances/manager.go:863-866 | no container is tracked over a live one, no watcher is ever superseded, a stop never finds an install, a start never meets one, an install never meets another |
| `LifecycleRuns.EachExitOnce` | agent/internal/instances/manager.go:856-893 | each tracked container is the current one or has its exit recorded exactly once |
| `LifecycleRuns.QuietKept` | agent/internal/instances/manager.go:905-922 | after a stop, no step but a Start, Restart or Install taking opMu ends the quiet |
| `LifecycleRuns.StopIsFinal` | agent/internal/instances/manager.go:929-1029 | once Stop has succeeded the instance stays stopped, whatever crash restarts are pending, until a Start, Restart or Install |
| `LifecycleRemoval.GoneKept` | agent/internal/instances/manager.go:905-1080 | with no Start or Restart waiting, no step but a new request lets anything start on the record of a Remove that returned: not crash restarts, installs, dumps, watchers or console lines |
| `LifecycleRemoval.RemoveIsFinalIff` | agent/internal/instances/manager.go:1032-1080 | when a Remove returns, some run without a new request tracks a container on its record exactly when a Start or a Restart waits for opMu |
| `LifecycleRemoval.RemovalMeetsStart` | agent/internal/instances/manager.go:1032-1080 | an interleaving in which one does wait |
| `LifecycleDatabase.EveryStepSafe` | agent/internal/instances/database.go:200-257 | every step of any thread keeps a game's database safe unless it is one of three lapses, and a game comes under the shield safe |
| `LifecycleDatabase.ExactlyLapsesEndSafety` | agent/internal/instances/database.go:200-257 | in every reachable state: the shield begins only with the game's own ensureDatabase, and exactly a death, a failed inspect by a dump, or a Remove that gave up on the stop ends the safety of its database |
| `LifecycleDatabase.DatabaseShielded` | agent/internal/instances/database.go:200-257 | from a safe state on, in every interleaving without a lapse, the database is up and nothing stops it until the game's exit is recorded |
| `LifecycleDatabase.CanStopIffNotSafe` | agent/internal/instances/database.go:200-257 | some run without a further lapse stops the database under a game exactly when it is down, or a dump or Remove is at a position that threatens it |
| `LifecycleDatabase.DumpStopsIff` | agent/internal/instances/database.go:235-255 | with a dump in hold of the database lock, exactly its position and the container id decide that |
| `LifecycleDatabase.DumpStopsStartingGame` | agent/internal/instances/database.go:247-255 | a dump that started the server stops it at its end exactly when no container id is recorded, so under a game that is starting |
| `LifecycleDatabase.EachLapseCounts` | agent/internal/instances/database.go:235-255 | each of the three lapses happens under a safe game, after which the manager alone can stop its database |
| `LifecycleBudget.RestartsWithinBudget` | agent/internal/instances/manager.go:886-892 | in every run of an instance, between two stops that clear the history, no window holds more granted restarts than the budget |
| `LifecycleBudget.HistoryStep` | agent/internal/instances/manager.go:886-962 | only a crash that counts and a stop of a crashed instance touch the history |
| `LifecycleBudget.RestartGrantedIff` | agent/internal/instances/crash.go:15-24 | in every run a crash that counts is granted a restart exactly when fewer than three of those counted since the history was cleared were less than ten minutes earlier |
| `LifecycleOutcomes.ExitSettles` | agent/internal/instances/manager.go:871-891 | the exit of the tracked container settles on stopped when it was asked for or clean, else on crashed, with the settings kept |
| `LifecycleOutcomes.RestartsComeFromGrants` | agent/internal/instances/manager.go:905-908 | a thread that is to restart the instance comes with a grant, and every grant makes one |
| `LifecycleOutcomes.GrantedRestartRuns` | agent/internal/instances/manager.go:905-922 | in every reachable state with opMu free, a granted restart is still wanted after the exit, and its own thread can bring the game up without a new request |
| `LifecycleOutcomes.StartingRunsOnMatch` | agent/internal/instances/manager.go:300-307 | in every reachable state the first matching line makes a starting instance running, and no other line changes anything |
| `LifecycleOutcomes.TrackedAsAsked` | agent/internal/instances/manager.go:640-797 | in every interleaving a container is tracked with the settings its start was given, and waits for a ready line exactly if they have a pattern |
| `LifecycleOutcomes.StartEnds` | agent/internal/instances/manager.go:640-797 | a start ends well exactly when it leaves a game up, and badly only with the instance stopped |
| `LifecycleOutcomes.InstallEnds` | agent/internal/instances/manager.go:385-410 | an install ran with the settings it was given and ends with the instance stopped |
| `LifecycleOutcomes.StopStopsDatabase` | agent/internal/instances/database.go:201-210 | in every reachable state, when a stop tells the database to stop, no game is up and the server is down afterwards |
| `LifecycleOutcomes.StopEnds` | agent/internal/instances/manager.go:929-1029 | a Stop that returns without an error leaves neither game nor database running |
| `LifecycleOutcomes.RemoveEnds` | agent/internal/instances/manager.go:1032-1080 | a Remove that goes on leaves no database running, whether or not it could stop the game |
| `LifecycleProgress.StopCanEnd` | agent/internal/instances/manager.go:929-1029 | wherever a Stop that holds opMu has got to, whatever dump holds dbMu, some run without new requests has it return well with game and database down |
| `LifecycleProgress.RestartCanEnd` | agent/internal/instances/manager.go:929-1029 | a Restart that holds opMu can go through its stop and bring the game up again |
| `LifecycleProgress.DumpsRunOnDatabase` | agent/internal/instances/database.go:236-247 | a dump goes to work exactly when it found the server up and answering or made sure of it, and then the server is up |
| `LifecycleRuns.NoDeadlock` | agent/internal/instances/database.go:201-210 | a blocked thread waits, in the end, for a thread that holds a lock and can take a step |
| `CrashBudget.CrashRestartAllowed` | agent/internal/instances/crash.go:15-24 | the pruned history, the attempt and the verdict, as functions of the history |
| `CrashBudget.KeptIsRecent` | agent/internal/instances/crash.go:16-21 | with monotone time the kept history is exactly the crashes of the last window |
| `CrashBudget.AtMostBudgetPerWindow` | agent/internal/instances/crash.go:5-24 | no span of one window holds more than the budget of granted restarts |
| `CrashBudget.KeptAreLast` | agent/internal/instances/crash.go:16-21 | with monotone time the kept history is a suffix of all crashes: all of the last window and none before |
| `CrashBudget.GrantedIff` | agent/internal/instances/crash.go:15-24 | a crash is granted a restart exactly when fewer than the budget of the crashes before it were less than a window earlier |
| `RateLimit.RateLimiter.Sweep` | server/src/lib/rate-limit.ts:15-20 | drops exactly the expired entries, at most once a window |
| `RateLimit.RateLimiter.Check` | server/src/lib/rate-limit.ts:23-36 | the new counts and the answer, equal to the specification |
| `RateLimit.RateLimiter.Reset` | server/src/lib/rate-limit.ts:37-39 | forgets the key and nothing else |
| `RateLimit.RateLimiter.RetryAfter` | server/src/lib/rate-limit.ts:40-45 | the seconds left, rounded up, or 0 while under the limit |
| `RateLimit.SweepingNeverShows` | server/src/lib/rate-limit.ts:15-20 | every answer of every run is what it would be without sweeping |
| `RateLimit.FewerThanTwicePerWindow` | server/src/lib/rate-limit.ts:23-36 | without a reset, at most 2 * max - 1 hits get through in any interval of one window length |
| `RateLimit.BoundReached` | server/src/lib/rate-limit.ts:23-36 | for every max and every window of more than a millisecond, some run reaches that bound |
| `RateLimit.NoneKeptLong` | server/src/lib/rate-limit.ts:15-20 | in every run, after a hit of any key, every entry still kept expired less than a window before it, if at all |
| `RateLimit.RetryAfterIsExact` | server/src/lib/rate-limit.ts:40-45 | a key is told to wait exactly when its next hit would be refused, and for the least number of whole seconds after which one gets through |
| `RateLimit.RefusedWaitIsExact` | server/src/lib/rate-limit.ts:31-35 | the same of the wait that a refused hit is given |
| `RateLimit.ResetGivesAll` | server/src/lib/rate-limit.ts:37-39 | after a reset a key has all its hits again |
| `RateLimit.KeysAreIndependent` | server/src/lib/rate-limit.ts:15-45 | in every run, with the sweeps other keys set off, a key gets the answers it would get alone |
| `PortTemplate.FaultyPorts` | shared/src/api/templates.ts:494-521 | the schema's four port rules: no fault is reported exactly for a valid list |
| `PortTemplate.HeadOf` | server/src/modules/instances/ports.ts:29-38 | the head and offset the climb along follows reaches |
| `PortTemplate.PortRun` | shared/src/api/templates.ts:630-642 | the same for the shared helper, by names |
| `PortTemplate.ClimbIsChain` | server/src/modules/instances/ports.ts:30-38 | on a valid list the climb is the chain of followed ports, never cut short by its length bound |
| `PortTemplate.HeadOfIsPortRun` | shared/src/api/templates.ts:629-642 | on a valid list the allocator and the shared helper agree |
| `PortTemplate.PlaceInjective` | shared/src/api/templates.ts:499-512 | no two ports of a valid list share a head and an offset |
| `PortTemplate.PlaceFull` | server/src/modules/instances/ports.ts:39-44 | a block has a port at every offset up to its last |
| `PortTemplate.SizesMeasure` | server/src/modules/instances/ports.ts:39-44 | the sizes are exactly the blocks' lengths |
| `PortAllocator.AllocatePorts` | server/src/modules/instances/ports.ts:23-99 | the loops compute the specification, errors included |
| `PortAllocator.TakeChosen` | server/src/modules/instances/ports.ts:57-69 | the pass over the chosen heads |
| `PortAllocator.TakeAutomatic` | server/src/modules/instances/ports.ts:70-88 | the pass with the forward-only cursor |
| `PortAllocator.AssignPorts` | server/src/modules/instances/ports.ts:90-98 | the rows, or the follower whose choice contradicts its place |
| `PortAllocator.AdvanceStops` | server/src/modules/instances/ports.ts:76-77 | the cursor stops at the first free place, and every place it passed was not free |
| `PortAllocator.AutoLand` | server/src/modules/instances/ports.ts:71-88 | automatic blocks lie in the range, at the preferred place unless something is in the way |
| `PortAllocator.AllocationSound` | server/src/modules/instances/ports.ts:16-98 | a successful allocation is pairwise distinct, unused, within 1..65535, keeps followers right after their port, honours choices and keeps automatic blocks in the range |
| `PortAllocator.PreferredHonoured` | server/src/modules/instances/ports.ts:73-75 | an automatic block is at its preferred place unless that leaves the range or meets a used or another block's port |
| `PortRefusals.UnknownIff` | server/src/modules/instances/ports.ts:45-47 | an allocation is refused for an unknown port exactly when some choice is for a port the template has not |
| `PortRefusals.RefusalIsTrue` | server/src/modules/instances/ports.ts:57-98 | every other refusal is true: the port named is in use or another choice's, the block leaves the port numbers, the follower contradicts its place, or the pool has no room |
| `PortRefusals.BlocksInOrder` | server/src/modules/instances/ports.ts:39-44 | the blocks of a valid template are served in the order of their first ports |
| `PortCursor.NoRoomIsTrue` | server/src/modules/instances/ports.ts:76-83 | when no n ports in a row are reported, none start at or after the cursor, and none are in the range if the cursor placed nothing wider before |
| `PortCursor.NonDecreasingNeverMisses` | server/src/modules/instances/ports.ts:70-88 | automatic blocks that never get smaller never miss a gap, whatever is chosen |
| `PortCursor.DescentMisses` | server/src/modules/instances/ports.ts:70-88 | a smaller automatic block after a larger one misses a gap in some pool, for any valid template and choices that can be placed |
| `PortCursor.CompleteIffNonDecreasing` | server/src/modules/instances/ports.ts:70-88 | with choices that can be placed, a valid template is served completely in every pool exactly when the sizes of the blocks not chosen never decrease |
| `PortUpdate.UpdateChoices` | server/src/modules/instances/service.ts:425-429 | the choices an update allocates with |
| `PortUpdate.KeptChoices` | server/src/modules/instances/service.ts:425-429 | for any rows, from any version of the template: the caller's choices, and the current port of every other port that follows none |
| `PortUpdate.UpdateKeepsHeads` | server/src/modules/instances/service.ts:420-433 | every block not chosen anew starts where its head's row has it, though the template changed |
| `PortUpdate.UpdateKeepsBlocks` | server/src/modules/instances/service.ts:420-433 | rows of an earlier template: every port that has the place in its block it had, and no new choice, keeps its number |
| `PortUpdate.UpdateWithoutChoices` | server/src/modules/instances/service.ts:420-433 | an update that chooses nothing succeeds when every port has a place it had and none that stays is used, and moves nothing |
| `PortUpdate.UpdateChangesNothing` | server/src/modules/instances/service.ts:420-433 | with the template unchanged it gives the very same allocation |
| `PortUpdate.UpdateFitsIff` | server/src/modules/instances/service.ts:420-433 | under any later template and for any rows, an update that chooses nothing gets past its kept blocks exactly when, at their size now, they are unused and apart |
| `PortUpdate.UpdateSucceedsIff` | server/src/modules/instances/service.ts:420-433 | when every block has a row, it succeeds exactly then |
| `SourceCfg.HasSeparator` | agent/internal/instances/configfiles.go:300-313 | a `;` outside quotes and comments |
| `SourceCfg.Comment` | agent/internal/instances/configfiles.go:286-297 | the trailing comment, with a space before it |
| `SourceCfg.WriteLine` | agent/internal/instances/configfiles.go:258-275 | one line of the merge, and the name it sets |
| `SourceCfg.AddMissing` | agent/internal/instances/configfiles.go:277-281 | the lines added for names no line sets |
| `SourceCfg.MergeSourceCfg` | agent/internal/instances/configfiles.go:247-283 | the loops compute the specification of the merged text |
| `SourceCfg.LineKept` | agent/internal/instances/configfiles.go:258-275 | a line stays as it is unless it is one command for a wanted name; then its spelling of the name and its comment stay |
| `SourceCfg.WrittenTwice` | agent/internal/instances/configfiles.go:258-275 | writing a written line again changes nothing and sets the same name |
| `SourceCfg.MergedSets` | agent/internal/instances/configfiles.go:277-281 | every wanted name is set by some line of the merged file |
| `SourceCfg.CleanKeeps` | agent/internal/instances/configfiles.go:252-254 | a value the format can hold is written as it is |
| `SourceCfg.CleanParts` | agent/internal/instances/configfiles.go:252-254 | of any other value exactly the quotes and line breaks are left out, the rest in order |
| `SourceCfg.LowerIffSameButCase` | agent/internal/instances/configfiles.go:249-251 | names are the same for the merge exactly when they differ at most in the case of ASCII letters |
| `SourceCfg.AddedInOrder` | agent/internal/instances/configfiles.go:277-281 | the lines added at the end are those of the names no line sets, each once, in the order of the names |
| `Text.LinesAreText` | agent/internal/instances/configfiles.go:255-258 | the lines of a file are its text up to the line breaks that end it |
| `SourceCfg.MergeIsIdempotent` | agent/internal/instances/configfiles.go:247-283 | merging the same values twice gives the same text as once |
| `CfgExec.SingleCommand` | agent/internal/instances/configfiles.go:300-313 | a line the merge rewrites runs exactly one command, the one its first word names |
| `CfgExec.SettingExecutes` | agent/internal/instances/configfiles.go:252-254 | a written line sets its name to the cleaned value and does nothing else |
| `CfgExec.WrittenExecutes` | agent/internal/instances/configfiles.go:258-275 | a rewritten line sets the wanted value; every other line does to a wanted name what it did |
| `CfgExec.MergedExecutes` | agent/internal/instances/configfiles.go:247-283 | the value a wanted name ends with when the merged file runs |
| `CfgExec.MergeWinsIff` | agent/internal/instances/configfiles.go:241-283 | it is the wanted one exactly when no line left as it is after the last rewritten one gives it another |
| `CfgExec.HoldableWinsIff` | agent/internal/instances/configfiles.go:247-283 | for a value the format can hold: the merged file ends with exactly that value under the same condition |
| `CfgExec.FirstMergeSets` | agent/internal/instances/configfiles.go:277-281 | merged into a file without a line for it, a name ends with exactly its value |
| `CfgExec.SetsIff` | agent/internal/instances/configfiles.go:258-270 | exactly which lines the merge rewrites, by the commands the line runs |
| `CfgExec.LaterCommandWins` | agent/internal/instances/configfiles.go:243-246 | the comment's claim for such lines fails: with a line of its own before it, a later line of several commands wins |
| `CfgExec.QuotedNameWins` | agent/internal/instances/configfiles.go:258-270 | nor is a later line seen whose name is in quotes: it wins too |
| `Ini.WantsAreDistinct` | agent/internal/instances/configfiles.go:105-113 | different names want different keys |
| `Ini.IdNamesKey` | agent/internal/instances/configfiles.go:114-124 | the done set's strings tell the wanted keys apart |
| `Ini.FlushSection` | agent/internal/instances/configfiles.go:117-124 | the closure that writes what the current section still misses |
| `Ini.FindWant` | agent/internal/instances/configfiles.go:141-148 | the search for the value a line sets |
| `Ini.MergeLine` | agent/internal/instances/configfiles.go:127-152 | one line of the merge |
| `Ini.SeenIn` | agent/internal/instances/configfiles.go:156-162 | the sections the output visits |
| `Ini.AppendSections` | agent/internal/instances/configfiles.go:163-178 | the sections added at the end |
| `Ini.MergeIni` | agent/internal/instances/configfiles.go:104-180 | the loops compute the specification of the merged text |
| `Ini.LineReads` | agent/internal/instances/configfiles.go:120-120 | a written line reads back as its key |
| `Ini.NamedWant` | agent/internal/instances/configfiles.go:107-112 | a name with a dot, but not as its first character, is a key of the section before its first dot; any other a key of the top of the file |
| `Ini.PaddedHeader` | agent/internal/instances/configfiles.go:128-131 | a header names its section whatever blanks are around it or the name |
| `Ini.PaddedSetting` | agent/internal/instances/configfiles.go:139-139 | any other line that is no comment sets the key before its first separator, of any kind |
| `Ini.PaddedComment` | agent/internal/instances/configfiles.go:135-138 | blank lines and comments set nothing |
| `IniInv.StepKeeps` | agent/internal/instances/configfiles.go:127-152 | each line keeps the merge's invariant, with repeated sections too |
| `IniMerge.MergeSets` | agent/internal/instances/configfiles.go:104-180 | every wanted key is set in its section, at most once more than before; all other lines keep their order and text, with headers of missing sections at the end |
| `IniMerge.EverySettingCarries` | agent/internal/instances/configfiles.go:139-148 | every line that sets a wanted key carries the wanted value |
| `IniMerge.SomeSettingCarries` | agent/internal/instances/configfiles.go:154-178 | some line of its section sets each wanted key |
| `IniMerge.NamedValueIsSet` | agent/internal/instances/configfiles.go:104-180 | a value given by name ends up in its section: some line of the merged text sets it there, and every line that sets the key there sets that value |
| `IniMerge.FlushInOrder` | agent/internal/instances/configfiles.go:117-124 | a section is left with the settings it still misses at its end, in the order of the names |
| `IniMerge.MergeIsIdempotent` | agent/internal/instances/configfiles.go:104-180 | merging the same values twice gives the same text as once |
| `Globs.MatchSegs` | agent/internal/backups/backups.go:90-112 | the loop with its recursion computes the matching relation |
| `Globs.MatchesIffSplits` | agent/internal/backups/backups.go:90-112 | a pattern matches exactly when the segments split into runs its segments stand for, `**` for any run |
| `Globs.PatternMeans` | agent/internal/backups/backups.go:40-88 | without a slash a pattern stands for any name at any depth, with one for paths that split; one that ends in a slash only for directories |
| `Globs.LineMeans` | agent/internal/backups/backups.go:42-52 | blanks around a line and a slash before it do not matter, and blank lines and comments hit nothing |
| `Globs.MatchGlob` | agent/internal/backups/backups.go:82-88 | one pattern against one path |
| `Globs.Matcher.constructor` | agent/internal/backups/backups.go:42-52 | the compiled patterns of an ignore list |
| `Globs.Matcher.Match` | agent/internal/backups/backups.go:56-78 | true exactly when the path or a directory it is in matches a pattern |
| `Globs.Inherited` | agent/internal/backups/backups.go:65-75 | what matches a directory matches everything below it |
| `Globs.Create` | agent/internal/backups/backups.go:142-204 | the walk that skips matched directories and unreadable entries archives exactly what the patterns leave in, or fails exactly when a file left in is not empty and cannot be opened, or shrinks |
| `Globs.OneUnopenableFile` | agent/internal/backups/backups.go:181-196 | a single such file fails the backup, unless it is empty or left out |
| `Globs.PruningIsFiltering` | agent/internal/backups/backups.go:157-162 | skipping matched directories archives exactly the entries that do not match, in order |
| `Globs.AllAreMet` | agent/internal/backups/backups.go:142-180 | the walk meets exactly the files and directories of the tree it can learn anything of, under their paths |
| `Globs.VolumeHits` | server/src/modules/instances/spec.ts:199-201 | the pattern of a volume matches exactly that volume's subtree |
| `Globs.ListIgnores` | agent/internal/backups/backups.go:42-78 | what an ignore list leaves out depends only on the set of its lines |
| `Globs.VolumesLeftOut` | server/src/modules/instances/spec.ts:199-201 | with the lines of template, volumes and request, an entry is archived exactly when it is in no volume that stays out and the other lines do not leave it out |
| `Transfers.Transfers.Offer` | server/src/modules/files/transfers.ts:104-126 | a new outgoing transfer |
| `Transfers.Transfers.Expect` | server/src/modules/files/transfers.ts:129-148 | a new incoming transfer |
| `Transfers.Transfers.Expire` | server/src/modules/files/transfers.ts:93-101 | an unclaimed transfer is dropped and fails |
| `Transfers.Transfers.Cancel` | server/src/modules/files/transfers.ts:119-146 | a withdrawn transfer fails and is forgotten, unless it is incoming and claimed |
| `Transfers.Transfers.Serve` | server/src/modules/files/transfers.ts:151-176 | a transfer is handed out once, to its node |
| `Transfers.Transfers.Pull` | server/src/modules/files/transfers.ts:178-200 | one pull: what is counted, what the node is given, and how the transfer ends |
| `Transfers.Transfers.NodeStopped` | server/src/modules/files/transfers.ts:201-205 | a node that stops reading fails the transfer |
| `Transfers.Transfers.Digest` | server/src/modules/files/transfers.ts:211-215 | only the node that claimed the transfer can ask for its digest, and waits |
| `Transfers.Transfers.TellDigest` | server/src/modules/files/transfers.ts:216-220 | a waiting node is told the settled digest, and the token is forgotten |
| `Transfers.Transfers.Receive` | server/src/modules/files/transfers.ts:224-236 | an incoming transfer is handed over once |
| `Transfers.Transfers.Complete` | server/src/modules/files/transfers.ts:237-239 | the post is answered with the first completion of its reader |
| `Transfers.StepKeeps` | server/src/modules/files/transfers.ts:84-245 | every operation keeps: claims are final, relayed bytes bounded, digests those of what was relayed |
| `Transfers.DigestStays` | server/src/modules/files/transfers.ts:166-173 | a known digest and the bytes it is of never change |
| `Transfers.ToldIsDigest` | server/src/modules/files/transfers.ts:211-220 | a digest a node is told is that of exactly size bytes, all of them given to it |
| `Transfers.RelaySafe` | server/src/modules/files/transfers.ts:93-221 | in every run a token is served or received at most once, at most size bytes are relayed, and a digest is known only after exactly size bytes |
| `Transfers.OnlyItsOwn` | server/src/modules/files/transfers.ts:84-245 | an operation changes no transfer but its own, and of that neither its kind nor its node nor its size; a forgotten token is never known again |
| `Transfers.OnlyItsNode` | server/src/modules/files/transfers.ts:151-231 | only the node a transfer was made for can take it or ask for its digest, and only until it is forgotten |
| `Transfers.AnswerStays` | server/src/modules/files/transfers.ts:237-239 | a post's answer, once given, stays |
| `Transfers.ForgottenWhenSettled` | server/src/modules/files/transfers.ts:93-245 | in every run a transfer is forgotten only once it is settled, and a failed one at once |
| `Transfers.WithdrawnIsGone` | server/src/modules/files/transfers.ts:93-146 | one that is withdrawn or expires fails for whoever waits, and is gone |
| `Transfers.EndedForGood` | server/src/modules/files/transfers.ts:201-220 | once its digest was told or its node stopped reading, no node ever gets anything for a token |
| `Transfers.UndisturbedIsTold` | server/src/modules/files/transfers.ts:104-220 | a file offered and read in any chunks is given to the node exactly, and its digest told |
| `Transfers.PostIsAnswered` | server/src/modules/files/transfers.ts:129-239 | a post is handed over with its length and gets its reader's answer |
| `Upload.FS.Receive` | agent/internal/instfs/archive.go:365-413 | succeeds exactly when the target may be written, every file call works, all size bytes came and the digest is confirmed; then the target is those bytes, else no file changes |
| `Upload.StepKeeps` | agent/cmd/gsm-agent/files.go:179-204 | every step of server, network and agent keeps the upload's invariant |
| `Upload.TargetIsWhatWasSent` | agent/cmd/gsm-agent/files.go:179-204 | with a network that may give any bytes, the target is replaced only by exactly the size bytes the server read, and is otherwise unchanged |
| `Upload.KeptUnlessAllowed` | agent/internal/instfs/archive.go:365-375 | a folder is never replaced, and a file only by an upload that may overwrite it |
| `Upload.UndisturbedSucceeds` | agent/cmd/gsm-agent/files.go:179-204 | an upload nothing disturbs replaces the target, for every file, empty or not, and however it is cut into chunks |
| `Download.Relay.PullChunk` | server/src/modules/files/service.ts:300-308 | a chunk is counted, the held one given to the browser, and this one held |
| `Download.Relay.PullEnd` | server/src/modules/files/service.ts:310-311 | the end tells the node the digest |
| `Download.Relay.AfterRpc` | server/src/modules/files/service.ts:312-320 | the held chunk is given and the stream closed only on a confirmation |
| `Download.Relay.FailWith` | server/src/modules/files/service.ts:289-296 | a failure is handled once |
| `Download.Relay.Cancel` | server/src/modules/files/service.ts:322-324 | a cancelled download fails |
| `Download.StepKeeps` | server/src/modules/files/service.ts:285-325 | every step keeps the download's invariant |
| `Download.DownloadSafe` | server/src/modules/files/service.ts:285-325 | delivered and held bytes are the bytes read; a stream that closed delivered exactly what the node produced; one outcome at most is reported |
| `Download.UndisturbedSucceeds` | server/src/modules/files/service.ts:297-325 | a body within the limit, in any chunks, from a node that confirms it: the browser is given exactly that body, its stream closes, and one success is recorded |
| `Download.FailsExactlyOverLimit` | server/src/modules/files/service.ts:297-325 | when no read and no request fails and the browser stays, a download fails exactly when more came than the limit allows |
| `Download.NeverOverLimit` | server/src/modules/files/service.ts:302-306 | the browser is never given more than the limit |
| `Download.EveryEndIsReported` | server/src/modules/files/service.ts:287-325 | every way a stream ends is reported exactly once, and the node is answered |
| `Download.PullEnds` | server/src/modules/files/service.ts:297-320 | a failed read, a chunk over the limit and a settled request end the stream |
| `Download.EndStays` | server/src/modules/files/service.ts:287-325 | after the end no byte, no other outcome and no other answer comes |
| `Download.WholeUnconfirmedIff` | server/src/modules/files/service.ts:285-325 | before the confirmed close the browser holds the whole of a body exactly when the last chunk was empty and nothing is held |
| `Download.EmptyChunkGivesAll` | server/src/modules/files/service.ts:300-308 | that happens: all bytes, then an empty chunk |
| `Download.NeverWholeUnconfirmed` | server/src/modules/files/service.ts:244-248 | from a node that sends no empty chunks, the browser lacks the last bytes until the confirmed close |
| `Firewall.Manager.Exists` | agent/internal/firewall/firewall.go:138-168 | whether a port is open already, with what each backend makes of a failing query |
| `Firewall.Manager.Apply` | agent/internal/firewall/firewall.go:243-314 | the loops compute the specification of the record, the firewall and the reports |
| `Firewall.Manager.Remove` | agent/internal/firewall/firewall.go:326-332 | drops a key's rules, managed or not |
| `Firewall.Manager.Configure` | agent/internal/firewall/firewall.go:336-351 | turning management on or off |
| `Firewall.ApplyKeepsIff` | agent/internal/firewall/firewall.go:243-314 | apply keeps the account right exactly when no query of its ports is misread |
| `Firewall.AlwaysConserved` | agent/internal/firewall/firewall.go:235-351 | in every run the firewall is its initial rules plus those recorded as the agent's, and no initial rule is ever removed |
| `Firewall.NothingOpenedWhileOff` | agent/internal/firewall/firewall.go:280-283 | nothing is opened while management is off |
| `Firewall.TurningOffRestores` | agent/internal/firewall/firewall.go:341-344 | turning management off with closes that succeed restores the initial firewall |
| `Firewall.ReportedOpenIsOpen` | agent/internal/firewall/firewall.go:275-306 | a port reported as open is open |
| `Firewall.ReportedExistingIsThere` | agent/internal/firewall/firewall.go:275-306 | whatever fails, a port reported as existing was open before the call or recorded so earlier |
| `Firewall.OnlyCommandsOpen` | agent/internal/firewall/firewall.go:275-306 | whatever fails, apply opens only ports it is given, each by a command that succeeds, with management on |
| `Firewall.CannotOpen` | agent/internal/firewall/firewall.go:275-290 | with management off or without a firewall nothing is opened and every port without a rule is an error |
| `Firewall.ReportsTell` | agent/internal/firewall/firewall.go:243-306 | with commands that succeed, each port is reported as existing or open by what the key and the firewall had, never as an error |
| `Firewall.ApplyMakesExactly` | agent/internal/firewall/firewall.go:233-314 | with commands that succeed, apply makes the key's rules exactly the ports: the unwanted are closed, what nothing opens yet is opened, nothing else changes |
| `Firewall.EachPortIsOpen` | agent/internal/firewall/firewall.go:243-314 | each port of such a call is open afterwards, unless the key has recorded it as existing before |
| `Firewall.RemoveCloses` | agent/internal/firewall/firewall.go:326-332 | removing a key closes exactly the ports the agent opened for it |
| `Firewall.TurningOnOpens` | agent/internal/firewall/firewall.go:336-351 | turning management on opens the file server's port where nothing opens it yet |
| `Firewall.InitialRuleLost` | agent/internal/firewall/firewall.go:156-165 | on firewalld, for every port and key: a run in which a query fails once ends with that initial rule gone |
| `Gateway.AgentGateway.FailEvery` | server/src/ws/agent-gateway.ts:73-79 | every waiting request of a connection ends as unavailable |
| `Gateway.AgentGateway.OnOpen` | server/src/ws/agent-gateway.ts:163-174 | a new socket replaces the node's old one and fails what waited there |
| `Gateway.AgentGateway.Request` | server/src/ws/agent-gateway.ts:116-159 | a request waits with a timer, or ends at once when the node is away or the send fails |
| `Gateway.AgentGateway.OnTimeout` | server/src/ws/agent-gateway.ts:134-142 | a timer ends its request |
| `Gateway.AgentGateway.OnResponse` | server/src/ws/agent-gateway.ts:176-223 | an answer settles a request only on the current socket |
| `Gateway.AgentGateway.OnChunk` | server/src/ws/agent-gateway.ts:224-238 | a chunk reaches the handler of a waiting request only |
| `Gateway.AgentGateway.Disconnect` | server/src/ws/agent-gateway.ts:105-113 | a node is dropped with all that waits |
| `Gateway.AgentGateway.OnClose` | server/src/ws/agent-gateway.ts:278-283 | the close of the current socket drops it; that of a replaced one does nothing |
| `Gateway.StepKeeps` | server/src/ws/agent-gateway.ts:105-285 | every operation and timer keeps the gateway's invariant |
| `Gateway.EachRequestOnce` | server/src/ws/agent-gateway.ts:105-285 | in every run a request waits on the current socket of the node it was made to, or has exactly one outcome, never settled twice |
| `Gateway.TargetStays` | server/src/ws/agent-gateway.ts:116-134 | the node a request was made to is the one its caller named, for good |
| `Gateway.ReplacedSocketsSettleNothing` | server/src/ws/agent-gateway.ts:177-178 | frames and closes of a replaced socket change nothing |
| `Gateway.LostSocketSettlesAll` | server/src/ws/agent-gateway.ts:73-79 | whatever takes a socket away ends all that waited on it |
| `Gateway.OutcomeStepStays` | server/src/ws/agent-gateway.ts:195-223 | an outcome never changes |
| `Gateway.NoChunkAfterSettling` | server/src/ws/agent-gateway.ts:224-226 | no chunk reaches a settled request |
| `Gateway.OutcomeTellsCause` | server/src/ws/agent-gateway.ts:105-285 | in every reachable state a step gives a request an outcome exactly when it is what the outcome says: an answer on the current socket, its timer, the loss of the socket, or a request that cannot be made |
| `Gateway.ConnectedWhen` | server/src/ws/agent-gateway.ts:85-87 | which nodes can be asked: a socket counts from its hello until it is replaced, dropped or closed |
| `Gateway.UndisturbedIsAnswered` | server/src/ws/agent-gateway.ts:116-239 | after any run a request to a connected node waits, is given its chunks in order, and ends with its answer |
| `Streams.Connection.OnRequest` | agent/internal/transport/client.go:189-201 | a request starts, queues, or is refused when the queue is full |
| `Streams.Connection.WorkerTakes` | agent/internal/transport/client.go:163-169 | the one worker takes the head of the queue |
| `Streams.Connection.SendOn` | agent/internal/transport/client.go:233-244 | a frame is written on the request's own connection or lost |
| `Streams.Connection.Send` | agent/internal/transport/client.go:326-332 | a chunk gets the next number |
| `Streams.Connection.Finish` | agent/internal/transport/client.go:356-378 | after the handler: the end of the stream it opened, then the answer |
| `StreamsInv.StepKeeps` | agent/internal/transport/client.go:163-378 | every step of every request keeps the connection's invariant |
| `StreamsRuns.WireIsOrdered` | agent/internal/transport/client.go:317-378 | however requests interleave, each one's chunks are numbered 0, 1, 2, …, then its stream ends, then it is answered |
| `StreamsRuns.ServedInOrder` | agent/internal/transport/client.go:163-201 | ordered requests are served in wire order, one after the other |
| `StreamsRuns.ServerSeesOrder` | server/src/ws/agent-gateway.ts:195-239 | the server's handler gets strictly increasing chunk numbers, and none once the request has an outcome |
| `StreamsDelivery.WireHasExactly` | agent/internal/transport/client.go:317-378 | in every run the wire has of a request that lost no frame exactly its chunks, the end of its stream and its answer, as far as it got |
| `StreamsDelivery.UndisturbedIsServed` | agent/internal/transport/client.go:163-378 | after any run a new request that nothing disturbs is served to its end |
| `StreamsDelivery.ArrivalsAreMet` | agent/internal/transport/client.go:189-201 | an ordered request is queued while fewer than 1024 wait and else answered at once; any other starts |
| `StreamsDelivery.ServerSeesAll` | server/src/ws/agent-gateway.ts:224-239 | however agent and gateway proceed, as long as a request waits its handler was given every chunk that was read, numbered 0, 1, 2, … if none was lost |
| `StreamsDelivery.AnsweredWithAll` | server/src/ws/agent-gateway.ts:195-239 | when a request's answer is read, its handler on the server has been given all the chunks that the agent sent, each once and in order |
| `Audit.Log.Record` | server/src/modules/audit/service.ts:210-216 | a new entry goes to the end of the table |
| `Audit.Log.ArchiveAndPrune` | server/src/modules/audit/service.ts:187-218 | a run interrupted after any of its effects, with entries recorded between any two of them and its closing entry, computes the specification |
| `Audit.WriteKeeps` | server/src/modules/audit/service.ts:198-204 | writing a file, over one of the same name too, loses nothing |
| `Audit.DestroyKeeps` | server/src/modules/audit/service.ts:205-205 | deleting the rows of a written file loses nothing |
| `Audit.ArchiveKeeps` | server/src/modules/audit/service.ts:187-218 | such a run of the method, with any cutoff, keeps the log's invariant |
| `Audit.StepKeeps` | server/src/modules/audit/service.ts:187-218 | every new entry, every effect of a run and every interruption keeps the invariant |
| `Audit.NothingLost` | server/src/modules/audit/service.ts:182-218 | across all runs, interruptions and entries recorded meanwhile, every entry is in the table or in a completed file |
| `Audit.FinishedLeavesNoneOlder` | server/src/modules/audit/service.ts:190-209 | a run through with its batches leaves nothing older than its cutoff but what was recorded since its last read |
| `Audit.OnlyOldTaken` | server/src/modules/audit/service.ts:190-205 | only a run takes entries out of the table, and only entries older than its cutoff |
| `Audit.UndisturbedArchives` | server/src/modules/audit/service.ts:187-218 | a run that nothing disturbs ends; the table keeps exactly what is not older than the cutoff, the count is that of the older ones, and the closing entry is there exactly when there were any |
| `Audit.ExportStream.OnPull` | server/src/modules/audit/service.ts:165-176 | one page of an export |
| `Audit.ExportHasAllThatStay` | server/src/modules/audit/service.ts:143-178 | while the table changes, a closed export has every matching entry that stayed, each once, in id order, and no other |
| `Audit.PagesAreTheFilteredLog` | server/src/modules/audit/service.ts:143-178 | on a table that stays, the pages are exactly the filtered log in id order |
| `Audit.ExportedIff` | server/src/modules/audit/service.ts:143-178 | a closed export has exactly the entries of the action, actor and period asked for |
| `Audit.ExportCloses` | server/src/modules/audit/service.ts:163-178 | an export of a table that stays closes after its full pages and one more |
| `Audit.AdjacentPeriods` | server/src/modules/audit/service.ts:143-154 | exports of adjacent periods have, together, each entry of the whole once |
| `Console.LineRoundTrip` | agent/internal/instances/console.go:175-189 | a formatted line reads back with its time and text |
| `Console.ParseKeepsText` | agent/internal/instances/console.go:180-189 | of any line, the number before its first space is its time; a line without one is all text |
| `Console.ReadBack` | agent/internal/instances/console.go:261-284 | the backward read has the pieces after its position, for any chunk size |
| `Console.TailOne` | agent/internal/instances/console.go:251-293 | equals the last n lines of the whole file |
| `Console.ConsoleLog.constructor` | agent/internal/instances/console.go:160-173 | opens the log with its current size |
| `Console.ConsoleLog.Write` | agent/internal/instances/console.go:191-206 | appends the batch, after a rotation when it would get too long |
| `Console.ConsoleLog.Rotate` | agent/internal/instances/console.go:208-221 | shifts the files by one and drops the oldest |
| `Console.TailFile` | agent/internal/instances/console.go:234-249 | the parsed last lines of the current file and, when those are too few, of the first rotation |
| `Console.LinesAreLastWritten` | agent/internal/instances/console.go:191-249 | after any writes, rotations and reopenings, of a new log or one with lines on disk, the lines read are the last ones written, as many as asked for or held |
| `Console.TailIsLastWritten` | agent/internal/instances/console.go:175-249 | the same with times and texts restored |
| `Console.WriteDropsOldest` | agent/internal/instances/console.go:191-221 | a write rotates only when the current file cannot take the batch within 10 MiB, and then drops only the oldest file |
| `Console.FilesAreTheEnd` | agent/internal/instances/console.go:191-221 | in every run the files, put together, are the end of all text ever in the log, and no file outgrows the limit |

## Left out

- Docker, SQL, WebSocket, HTTP, gzip, tar, zip and SSH: their outcomes are parameters of the steps.
- The web app, routes, migrations, DTO builders, templates beyond their port and volume rules, users, sessions, tickets, SFTP sign-in and mail: no state of the kind modelled here.
- The merges into `.properties`, JSON, YAML and XML files: the first has no section or command structure, the others are library data structures.
- LifecycleInv.InvKept: one instance, without its console transport, its error text, exit code and start time; Reconcile is the choice of the initial state, and requests made after Remove took the record out of the registry, which get a second record for the same instance, are not modelled.
- InstanceRecord.Instance.HandleLine: a line is not tagged with its container in the source either; no property says that running came from the current container's output, nor that status events arrive in order.
- LifecycleDatabase.DatabaseShielded: the database's own start-up is one step with three outcomes, and its retry loop is not modelled.
- PortUpdate.UpdateWithoutChoices: for templates in which every port has a place it had; `UpdateFitsIff` covers all others.
- PortAllocator.AllocatePorts: choices are a map, so a choice for a name that is a property of every JavaScript object is not modelled.
- PortCursor.CompleteIffNonDecreasing: choices that cannot be placed even in an empty pool fail before the cursor moves, so they are excluded.
- SourceCfg.MergeSourceCfg: lower case is that of ASCII letters, and the entries come as the list the sorted map gives.
- CfgExec.MergeWinsIff: executing a file is the commands in order, each a name and a first argument, quoted or not; aliases, `exec` and conditions of the engine are not modelled.
- Globs.Create: a backup that is cancelled, a top directory that cannot be read, and the archive's own format are not modelled.
- Upload.FS.Receive: which folders are made for the target, its mode and its owner are not modelled, and nothing else changes the target meanwhile.
- Upload.TargetIsWhatWasSent: the browser's request and the audit entry around the relay are not modelled.
- Download.DownloadSafe: the headers, the ticket and the wait for the node's first byte are not modelled.
- Firewall.AlwaysConserved: firewalld's two commands for one port count as one, which either takes effect or does not; the state file that survives a restart of the agent and a change of backend are not modelled.
- Gateway.EachRequestOnce: events and the agent's own requests to the server are not modelled; nor is the agent's side of those.
- StreamsRuns.WireIsOrdered: a handler that goes on sending after it returned is outside the model, and reconnecting with its backoff is not modelled; each connection has its own queue and wire.
- Audit.NothingLost: one archive run at a time; two at once could overwrite each other's file between its writing and the deletion of its rows.
- Audit.PagesAreTheFilteredLog: the CSV and JSON text of an entry is not modelled.
- Console.TailIsLastWritten: writes and renames that fail, a last line cut off by a crash in the middle of a write, and a log that could not be reopened, are not modelled; texts hold no line break, which splitting the output into lines ensures.
- The console batcher and ring, statistics, reachability probes, metrics and the agent's update: they would add only easy members.
