# A verified model of Process Level Redundancy

PLR runs one deterministic program as several redundant processes. It intercepts libc calls, brings the replicas
together at a barrier, votes on the arguments of each call, lets only the master (slot 0) perform the call, and hands
the result to the slaves through shared memory. A replica that is outvoted, or that does not come to the barrier in
time, is killed and replaced with a fork of a good one, in the middle of the barrier.

This Dafny project models that protocol and proves what it is for: three interleaved replicas, however many faults hit
them, have exactly the real effects of one process as long as each vote has a majority for the right arguments and no
fingerprint hides a wrong call of the master, and only as long; and each vote has, if faults strike one replica at a
time. `dafny verify dfyconfig.toml` checks everything.

## How the model is organised

- `Crc32` - the table-driven fingerprint, its bit-serial reference (section 8 of RFC 1952) and the error bursts it
  detects.
- `Compare` - argument records, their comparison, and the verdict over three of them.
- `Barrier` - `plr_waitBarrier`, the vote, the watchdog and the replacement of processes as a state machine for any
  number of processes. One step is one section of code that runs while `plrShm->lock` is held: from taking the lock, or
  waking up in the timed wait, to the next timed wait or to giving up the lock. Wake-ups may be spurious and come in any
  order.
- `BarrierInv` (the inductive invariant), `BarrierRounds` (safety, votes, the watchdog), `BarrierCalls` (what lasts from
  a call to its return, and from a fork to the child's first lock), `BarrierProgress` and `BarrierLiveness` (no lost
  wake-up; release under fair scheduling), `BarrierStartup`, and `BarrierInputs` (runs that reach the situations in
  which the barrier does less than it promises). `EndlessRuns` - endless runs that meet the assumptions of the liveness
  theorems, with a crash and without. `OneRound` - one round of three processes in a fixed order.
- `Startup` - `plr_processInit` process by process: children go on inside the loop that they were forked in.
- `InsidePlr` - the flag that wrappers set and clear, on top of the barrier.
- `PlrShared` - the same sections as imperative code on shared fields and arrays, each proved equal to its step in
  `Barrier`.
- `Wrappers` - `read`, `write` and `unlink` over a kernel with shared open file descriptions, and the broadcast area.
- `Replication` - the replicas on top of the barrier, next to the unreplicated program, with the predicates that relate
  them. `Placement`: where the replicas are and what a move can do to them, in every run whatsoever. `ReplicationSteps`:
  as long as votes and masters are right the replicas are in step; after a vote that is not the next real effect is
  wrong. `FaultModel`: faults that strike one replica at a time. `Refinement`: the theorems about whole runs.
- `LatentFaults` - a replicated run in which two faults are too many. `HiddenFault` - one in which the fingerprints hide
  a fault. `CalmRounds` - one call of three replicas, state by state, of which both are made.
- `ExtraShm` - the growing shared area. `FdTable` - `open` and `close`; `FdNumbers` - the same, compared with a process
  without PLR. `Escapes` - `str_expandEscapes`.

## Assumptions, written as guards of the steps

- Faults strike a replica only outside PLR code, as the fault injector does (pinFaultInject/pinFaultInject.cpp:94-99).
  Any number of replicas may be hit at any time, in any way (`Possible`), and a fault may stay without consequences for
  many calls. The theorems about effects (`EffectsRight`, `EffectsRightIff`) hold for all these runs.
- `LooksLikeOneProcess` and `NobodyExits` besides take one fault at a time (`CanMove`): one strikes only while all other
  replicas are right, that is, have the program state that the unreplicated process has at their place (`OthersRight`),
  and what a watchdog copies is right. A fault that has been masked, or whose replica has been replaced, permits the
  next. They also take it that no wrong call that slot 0 makes has the fingerprint of the right one (`RightMaster`).
  This is proved for reads, for calls that differ in kind, descriptor or length (`DetectableUnlessSameShape`), and for
  writes whose buffer is hit by a burst of up to 32 bits (`BurstIsDetectable`); without it the property fails
  (`HiddenWrite`).
- A watchdog fires only when nobody is still on the way out of the last round, and no child of its vote is waiting for
  its first lock (`Timely`). `WatchdogOnDrainerLeaks` shows exactly when a watchdog that fires earlier breaks the
  counters, and `DrainerInput` is a run in which it would. Otherwise timers expire whenever they like, also in the
  replicated runs, where they may make replicas exit; `NobodyExits` takes time-outs at check barriers only, with one
  replica missing (`Gentle`).
- Mutual exclusion, fork as copy, kill, and condition variables with spurious wake-ups are taken for granted.

## Where the code does less than its comments or its design suggest

- A watchdog in a master barrier: `watchdogExpired` (plrCommon/plr.c:368) is a local that is copied by fork and never
  cleared, so the replacement of a slave wakes up the master, falls through to plrCommon/plr.c:538-541 and exits. It
  recovers if and only if the replaced process is the master (`WatchdogMasterBarrier`; run: `MasterBarrierInput`). The
  timer of the process that has forked it stays expired (`TimerIff`), so that this process forks another one whenever it
  wakes up (`WatchdogForksAgain`). At the vote barrier the replacement always recovers, whatever the others present: the
  arguments of the process whose timer expired, which are also its child's, win, and a third process with other
  arguments is replaced (`WatchdogRecovers`).
- The comment at plrCommon/plr.c:475 says that looping again covers a timer that expires while the last process arrives.
  A waiting process in that situation exits unless it may release the round itself (`LateTimer`; run: `LateTimerInput`).
- To have at most one fault between two votes is not enough to look like one process: a fault can be latent. In the run
  of `TwoLatentFaults` two replicas are hit, one in each of two calls, and the good replica is replaced; however the run
  goes on, its next real effect is wrong (`NeverRightAgain`).
- Votes compare fingerprints, not buffers. In the run of `HiddenWrite` one fault, of 33 bits, hits the buffer that the
  master is about to write; the vote replaces nobody, and the wrong bytes are written.
- The exact condition, for every run with any number of faults: the effects are right if and only if in every vote that
  has been acted upon the right arguments had the majority, and no call that slot 0 has made was a wrong one with the
  fingerprint of the right one (`EffectsRightIff`).
- `plr_copyToShm` passes a `size_t` sum to an `int` parameter. A copy whose end does not fit in an `int` leaves the
  mapping, unless what is left of the end asks for more than the file can hold, where the process exits
  (`CopyInsideIff`). fread with elements of one byte can copy 2 GiB (plrPreload/fread.c:53-54; input: `HugeFread`); read
  cannot on Linux, where it transfers less.
- Descriptor numbers are not those of the program without PLR: the shared area occupies one. The first open of a program
  returns another number (`FirstOpenInput`); a returned number is the unreplicated one if and only if the shared area is
  open already and does not occupy it (`NumberIff`).
- That descriptor is not protected: a program that closes a number twice can close it (plrPreload/close.c:27-28), and
  its next file may get the number. What a growth of the area truncates or lengthens (plrCommon/plrSharedData.c:202-212)
  is then the program's file (input: `DoubleCloseInput`). A replica's number for the area names the area if and only if
  no call has closed that number (`AreaNamedIff`).
- A second close of the same number need not do the same as without PLR even if it misses the area: PLR may have given
  the number to another file than the process without PLR has. A request leads to the same if and only if it is
  `Harmless` (`NextAlike`); the result of a stale close by itself is the same if and only if its number is open in both
  tables or in neither (`StaleResult`). Once all numbers and all handles from the area's number on are one higher than
  without PLR (`HandlesUp`), every request is harmless (`NextUp`, `UpCareful`).

## Model

| member | source | states |
|---|---|---|
| `Crc32.TableTabulates` | plrPreload/crc32_util.c:46-90 | each of the 256 constants is eight steps of the bit-serial register |
| `Crc32.Crc32` | plrPreload/crc32_util.c:92-102 | the table loop computes the bit-serial CRC of section 8 of RFC 1952 for every buffer and initial value |
| `Crc32.CrcCompose` | plrPreload/crc32_util.c:92-102 | continuing from the fingerprint of a prefix gives the fingerprint of the whole |
| `Crc32.Residue` | plrPreload/crc32_util.c:96-101 | the register is inverted before and after: any buffer followed by its own fingerprint has the fingerprint 0x2144DF1C |
| `Crc32.CheckValue` | plrPreload/crc32_util.c:92-102 | the fingerprint of the digits 1 to 9 is 0xCBF43926 |
| `Crc32.StepXor` | plrPreload/crc32_util.c:98-99 | the register step is linear over GF(2) |
| `Crc32.StepKernel` | plrPreload/crc32_util.c:98-99 | the register step loses no information: only zero steps to zero |
| `Crc32.TableStep` | plrPreload/crc32_util.c:99 | one table look-up is eight register steps |
| `Crc32.SerialPacked` | plrPreload/crc32_util.c:92-102 | feeding up to 32 bits one at a time is adding them to the register at once |
| `Crc32.SerialBurst` | plrPreload/crc32_util.c:92-102 | bit strings that differ only within 32 consecutive bits never leave the same register |
| `Crc32.BurstDetected` | plrPreload/crc32_util.c:92-102 | buffers that differ only within 32 consecutive bits have different fingerprints, whatever surrounds the burst |
| `Crc32.FourBytesDetected` | plrPreload/crc32_util.c:92-102 | any corruption of up to four consecutive bytes changes the fingerprint |
| `Crc32.Burst33Undetected` | plrPreload/crc32_util.c:92-102 | the bound is exact: between any prefix and suffix two buffers that differ within 33 bits have the same fingerprint |
| `Compare.CompareArgs` | plrCommon/plrCompare.c:5-24 | bit k of the result is set exactly if field k differs; zero exactly if the records are equal |
| `Compare.Judge` | plrCommon/plr.c:202-231 | the verdict described by which replicas agree with which |
| `Compare.VerdictUnique` | plrCommon/plr.c:202-231 | exactly one verdict fits any three records |
| `Compare.SelectFaulty` | plrCommon/plr.c:202-231 | the chain of comparisons finds that verdict: -1, the faulty index, or nProc |
| `Barrier.FirstIdle` | plrCommon/plr.c:511-512 | the first slot whose wait flag is not set |
| `BarrierInv.InitInv` | plrCommon/plr.c:121-178 | the state after startup satisfies the invariant |
| `BarrierInv.StepInv` | plrCommon/plr.c:341-594 | every lock-held section, fork, kill and crash keeps the invariant |
| `BarrierInv.RunInv` | plrCommon/plr.c:341-594 | every state of every run satisfies the invariant |
| `BarrierInv.CompleteAllWait` | plrCommon/plr.c:375-378 | when the counter reaches nProc every process is waiting at the current index and none is being restored |
| `BarrierInv.WatchdogTarget` | plrCommon/plr.c:503-512 | the process that the watchdog kills is another one, installed, and not in the barrier; all others wait |
| `BarrierRounds.CountersConserved` | plrCommon/plr.c:351-375 | in every run `condWaitCnt[w]` is the number of processes waiting, draining or pending at w; the two sum to at most nProc; whoever waits waits at the current index |
| `BarrierRounds.EntryAssertion` | plrCommon/plr.c:353-355 | the assertion at the head of the barrier never fails, and the counter stays within nProc |
| `BarrierRounds.RoundsSeparated` | plrCommon/plr.c:351-375 | nobody has left a round that another has not entered; completed rounds differ by at most one |
| `BarrierRounds.OneReleasePerRound` | plrCommon/plr.c:429-445 | a step releases at most one round, only with everybody in it and nobody left at the other index; a child of the vote returns from the same call without a release and gives back one unit |
| `BarrierRounds.SectionReleases` | plrCommon/plr.c:369-480 | a section releases the round exactly when it is complete, its process may run the action, and the action succeeds |
| `BarrierRounds.VoteByGood` | plrCommon/plr.c:198-256 | a vote run by a process of the majority: every slot ends with the majority arguments, no good process is touched, the odd one is replaced by a copy of the runner |
| `BarrierRounds.VoteByBad` | plrCommon/plr.c:237-241 | a vote run by the odd one changes nothing but wakes up a process of the majority, whose vote repairs everything |
| `BarrierRounds.VoteVerdict` | plrCommon/plr.c:202-231 | the verdict names the one slot outside the majority |
| `BarrierRounds.VoteRightIff` | plrCommon/plr.c:198-256 | a vote that ends the round leaves given arguments in all slots if and only if they had the majority |
| `BarrierRounds.VoteFailsIff` | plrCommon/plr.c:251-254 | the runner exits if and only if no two replicas agree |
| `BarrierRounds.ReplacementInstalled` | plrCommon/plrSharedData.c:124-138 | the child of the vote starts with its parent's arguments, descriptor of the shared area and insidePLR flag, nothing mapped, and its parent's place in the program |
| `BarrierRounds.WatchdogForks` | plrCommon/plr.c:449-460 | a process whose timer expires, or has expired before in the same call, starts exactly one replacement, of the missing process and with its own slot, and touches nobody else |
| `BarrierRounds.WatchdogChild` | plrCommon/plr.c:526-531 | the child ends the restoration; it releases the round if and only if it may run the action and the action succeeds, and exits otherwise |
| `BarrierRounds.WatchdogRecovers` | plrCommon/plr.c:495-545 | at the vote barrier the child, whose slot is a copy of its parent's, always ends the round and the restoration in its first section, with the arguments of the process that forked it in all slots; a third process with others is replaced |
| `BarrierRounds.WatchdogMasterBarrier` | plrCommon/plr.c:495-545 | in a master barrier the replacement releases the round if and only if it is the master, and exits otherwise |
| `BarrierRounds.WatchdogForksAgain` | plrCommon/plr.c:449-460 | ... and then a process whose timer has expired in this call forks the next replacement at its next wake-up, for whatever reason it wakes up |
| `BarrierRounds.LateTimer` | plrCommon/plr.c:474-476 | a timer that expires in a complete round makes the process exit if and only if it cannot release the round |
| `BarrierRounds.ExitsIff` | plrCommon/plr.c:369-545 | exactly when a section makes its process exit: a failed action; an expired timer in a complete round that it cannot release; or one in an incomplete round with no child of a watchdog pending and more than one process missing, or none idle |
| `BarrierRounds.WatchdogOnDrainerLeaks` | plrCommon/plr.c:511-528 | an expired watchdog keeps the counters right if and only if the process that its scan picks is not draining |
| `BarrierCalls.WaitsOn` | plrCommon/plr.c:368-476 | whoever waits after a step has made its call in it, or waited before in the same call with the same slot; then its timer is expired if and only if it was, or this step is its wake-up at the timeout |
| `BarrierCalls.TimerIff` | plrCommon/plr.c:368-476 | in every run a process that waits is in the one call that it has made since it last was outside, and its timer is expired if and only if it has woken up at the timeout in this call |
| `BarrierCalls.OutsideIsOwn` | plrCommon/plr.c:341-594 | no step of another changes a process outside the barrier, or its slot, unless it replaces it with a child of its own |
| `BarrierCalls.ChildInherits` | plrCommon/plr.c:571-594 | in every run a child of the vote or of a watchdog starts with the arguments, the descriptor of the shared area and the insidePLR flag that the slot of its parent had at the fork, and nothing mapped, whatever has happened since |
| `InsidePlr.FlagInv` | plrCommon/plrSharedData.c:124-138 | every section, and every set and clear, keeps the flag of each slot in step with where its process is |
| `InsidePlr.AssertionsHold` | plrCommon/plr.c:318-330 | in every run, with any number of votes, watchdogs, replacements and deaths, the assertions in plr_setInsidePLR and plr_clearInsidePLR hold |
| `BarrierInputs.LateTimerInput` | plrCommon/plr.c:474-476 | a run in which a live slave in a complete round exits |
| `BarrierInputs.MasterBarrierInput` | plrCommon/plr.c:495-545 | a run in which the replacement of a slave completes a master round and exits, and its signal makes the master fork again although no second timer has expired |
| `BarrierInputs.DrainerInput` | plrCommon/plr.c:511-528 | a run in which the scan of a watchdog that fires early picks a draining process and a unit of the counter is lost |
| `BarrierProgress.NoLostWakeUp` | plrCommon/plr.c:383-421 | in every run, if the round is complete and not released, a process that may run the action is awake |
| `BarrierProgress.SomeoneHelpful` | plrCommon/plr.c:369-480 | no deadlock: some process can always bring the release closer |
| `BarrierProgress.StepProgress` | plrCommon/plr.c:369-480 | no ordinary step moves the release away; a step of a helpful process moves it closer |
| `BarrierProgress.HelpfulStable` | plrCommon/plr.c:369-480 | a helpful process stays helpful until it moves or the release is closer |
| `BarrierLiveness.EventuallyReleased` | plrCommon/plr.c:369-480 | in every endless run of live replicas with weakly fair scheduling the next n rounds are released |
| `BarrierLiveness.EventuallyLeft` | plrCommon/plr.c:369-487 | ... and every process leaves all of them: none stays behind in the barrier |
| `BarrierLiveness.CrashReleased` | plrCommon/plr.c:495-545 | a replica dies or hangs outside a vote barrier and the timer of a waiting one expires: whatever the scheduling, when the child gets the lock the round is released, and all are alive |
| `BarrierLiveness.CrashRecovered` | plrCommon/plr.c:369-545 | ... and under weakly fair scheduling every process then leaves the round, also the one whose timer has expired |
| `EndlessRuns.CrashInput` | plrCommon/plr.c:369-545 | an endless run from a state reached from startup that meets these assumptions: replica 2 dies, the timer of replica 0 expires, its child ends the round, and all vote for ever after |
| `EndlessRuns.EndlessInput` | plrCommon/plr.c:369-487 | an endless run that meets the assumptions of `EventuallyReleased` and `EventuallyLeft` for every number of rounds |
| `BarrierStartup.PidsInstalled` | plrCommon/plr.c:571-594 | in every run a slot has no pid exactly while its child waits for its first lock, and pids are distinct |
| `BarrierStartup.Startup` | plrCommon/plr.c:571-594 | for every nProc and every order in which the children take the lock, each slot is initialised by exactly one step, as a copy of the parent's, and the barrier is untouched |
| `Startup.RunInv` | plrCommon/plr.c:121-178 | every state of every run of the processes through plr_processInit, with locals copied by fork, satisfies the invariant |
| `Startup.StartupDone` | plrCommon/plr.c:121-178 | in every run no slot is initialised twice and nobody gives up; when all have returned there were nProc - 1 forks, each process has its own slot and myProcShm points to it, pids are distinct and not zero, no slot has a descriptor or a mapping of the shared area, and its flag insidePLR is that of the mode |
| `Startup.StepsToGo` | plrCommon/plr.c:152-175 | every step brings the end of startup closer |
| `Startup.SomeoneGoes` | plrCommon/plr.c:142-175 | as long as a process has not returned, some process can go on |
| `Startup.FindsOwn` | plrCommon/plr.c:65-87 | a new program in a process that calls plr_processInit again finds its own slot |
| `PlrShared.PlrShm.constructor` | plrCommon/plrSharedData.c:32-59 | a zero-filled area with two counters and nProc empty slots |
| `PlrShared.PlrShm.ForkMissing` | plrCommon/plr.c:151-167 | the loop: from the start it forks one child for each slot but the first; resumed behind the fork, by a child, it forks nothing and ends |
| `PlrShared.PlrShm.ProcessInit` | plrCommon/plr.c:141-178 | the first process takes slot 0 and forks one child for each other slot: the initial state of the runs |
| `PlrShared.PlrShm.InitProcData` | plrCommon/plrSharedData.c:111-120 | sets pid, wait flag and descriptor of one slot and nothing else |
| `PlrShared.PlrShm.InitProcDataAsCopy` | plrCommon/plrSharedData.c:124-137 | as above, with flag, descriptor and arguments of the parent |
| `PlrShared.PlrShm.FreeProcData` | plrCommon/plrSharedData.c:141-167 | zeroes a slot unless it is free |
| `PlrShared.PlrShm.ReplaceProcessIdx` | plrCommon/plr.c:549-567 | frees the slot of another process and puts the child there |
| `PlrShared.PlrShm.CheckSyscallArgsAct` | plrCommon/plr.c:198-256 | return value and replacement for each verdict; never a replacement of the caller |
| `PlrShared.PlrShm.RunActionPtr` | plrCommon/plr.c:405 | the outcome of the action as return value |
| `PlrShared.PlrShm.SignalAllAt` | plrCommon/plr.c:359-365 | the loop wakes up everybody who waits at the index |
| `PlrShared.PlrShm.ReleaseRound` | plrCommon/plr.c:430-441 | flips the index, clears all wait flags, wakes up everybody at the old index |
| `PlrShared.PlrShm.WatchdogExpired` | plrCommon/plr.c:495-545 | the four outcomes: being restored already, more than one missing, nobody missing, or a fork in the first idle slot |
| `PlrShared.PlrShm.RunBarrierAction` | plrCommon/plr.c:375-446 | decides between exit, release and waiting on as the state machine does |
| `PlrShared.PlrShm.WaitLoop` | plrCommon/plr.c:369-487 | the loop ends in the state that the state machine's section gives |
| `PlrShared.PlrShm.ExitBarrier` | plrCommon/plr.c:482-486 | gives back one unit of its counter |
| `PlrShared.PlrShm.GiveUp` | plrCommon/plr.c:406-410 | gives back one unit and the wait flag, and exits |
| `PlrShared.PlrShm.WaitBarrier` | plrCommon/plr.c:341-487 | the call, up to its first timed wait or its return, is one step of the state machine |
| `PlrShared.PlrShm.WakeUp` | plrCommon/plr.c:473-479 | waking up, with or without a time-out, is one step of the state machine |
| `PlrShared.PlrShm.ChildStarts` | plrCommon/plr.c:582-593 | the first lock-held section of a child, after each of the three forks, is one step of the state machine |
| `Wrappers.OverlayBytes` | plrPreload/write.c:38-41 | the bytes of a file after the real write: the buffer at the offset, zeros in a gap, all else as before |
| `Wrappers.ReadEffect` | plrPreload/read.c:41-47 | the real read returns as many bytes as asked for and left in the file, those behind the offset, which moves by their number; all else is as before |
| `Wrappers.ReadsInARow` | plrPreload/read.c:41-47 | two reads in a row return consecutive bytes, those of one read |
| `Wrappers.WriteEffect` | plrPreload/write.c:38-47 | the real write returns the number of bytes and changes that file and that offset only, and a read from there returns the buffer |
| `Wrappers.WritesInARow` | plrPreload/write.c:38-47 | two writes in a row are one write of both buffers |
| `Wrappers.WrittenIsRead` | plrPreload/write.c:38-41 | a read of that place through any other description of the file returns the buffer |
| `Wrappers.UnlinkEffect` | plrPreload/unlink.c:32-40 | the real unlink removes that name only, and a second one fails |
| `Wrappers.FailsIff` | plrPreload/read.c:41-47 | a call fails exactly if the descriptor or the name is not there, and then changes nothing (also write.c and unlink.c) |
| `Wrappers.ArgsShow` | plrPreload/read.c:29-34 | which calls present the same arguments: equal reads, and writes and unlinks that agree in all but the bytes and have the same fingerprint |
| `Wrappers.ArgsDiffer` | plrPreload/write.c:28-34 | in which of the seven fields two calls of one kind differ |
| `Wrappers.ArgsInput` | plrPreload/read.c:29-34 | what three calls present, with a negative descriptor converted to unsigned long |
| `Wrappers.SameArgsCatchUp` | plrPreload/read.c:57-78 | calls that present the same arguments use header and payload in the same way: same result and same seek (also write.c and unlink.c) |
| `Wrappers.WriteBurstShows` | plrPreload/write.c:28-34 | a write buffer hit by a burst of up to 32 bits gives different arguments |
| `Wrappers.BurstOutvoted` | plrPreload/write.c:28-34 | ... and the vote selects exactly that replica |
| `Wrappers.Machine.MasterAct` | plrPreload/read.c:39-55 | the single real call, and header and payload left in the shared area (also write.c and unlink.c) |
| `Wrappers.Machine.SlaveCatchesUp` | plrPreload/read.c:59-78 | a slave returns the broadcast result and seeks to the broadcast offset (also write.c and unlink.c) |
| `ReplicationSteps.ExecMatch` | plrPreload/read.c:39-47 | the master's real call does what the unreplicated process's call does, however descriptions are shared |
| `ReplicationSteps.OthersAfterExec` | plrPreload/read.c:39-47 | after it the other replicas are behind at most on the description that moved |
| `ReplicationSteps.SeekMatch` | plrPreload/write.c:60-66 | a slave's seek repairs its own offset and disturbs nobody, in any order of the slaves and for any sharing of descriptions |
| `ReplicationSteps.SlaveResultOk` | plrPreload/read.c:59-78 | what a slave makes of the shared area is the result of the call in question |
| `Placement.SectionPlaced` | plrCommon/plr.c:369-480 | in every run, whatever the votes decide: a section ends no round, or a vote whose runner's arguments had the majority, or a master barrier with the one real effect of slot 0 |
| `Placement.VotePlaced` | plrCommon/plr.c:198-256 | after a vote each replica that agreed with the runner is as it was, and each other one is a copy of the runner |
| `Placement.MasterPlaced` | plrCommon/plr.c:272-281 | a master barrier ends only in slot 0, with its real call, and everybody else is still to catch up |
| `Placement.UnlockedMove` | plrPreload/read.c:57-80 | returns, copies, faults and deaths leave the other replicas and the trace alone |
| `ReplicationSteps.VotedRefines` | plrCommon/plr.c:198-256 | a vote in which two replicas have the right arguments leaves all with the right arguments, however many are wrong |
| `ReplicationSteps.ActedRefines` | plrCommon/plr.c:272-281 | the release of a master barrier has exactly the real effect of the unreplicated process's next call, unless slot 0 makes another call with the same arguments |
| `ReplicationSteps.SeekAndReturnOk` | plrPreload/read.c:67-78 | the return of a slave keeps all replicas in step |
| `ReplicationSteps.MoveRefines` | plrPreload/write.c:28-73 | every move of any replica keeps the replicas in step with the unreplicated process, unless it ends a vote without a majority for the right arguments, or a master barrier in which slot 0 makes a wrong call that looks right |
| `ReplicationSteps.VoteMisleads` | plrCommon/plr.c:198-256 | after such a vote every replica is about to make a call with other arguments |
| `ReplicationSteps.MisledMove` | plrCommon/plr.c:272-281 | ... until the master makes another call than the unreplicated process |
| `ReplicationSteps.DisguisedActs` | plrCommon/plr.c:272-281 | a master barrier in which slot 0 makes a wrong call that looks right has another real effect than the next call of the unreplicated process |
| `ReplicationSteps.WrongEnd` | plrCommon/plr.c:182-281 | whichever of the two a move ends, the replicas are misled or the wrong call has been made |
| `FaultModel.VotedRight` | plrCommon/plr.c:198-256 | with two right replicas the right arguments have the majority, and the right replicas survive the vote, right |
| `FaultModel.ModelMove` | plrPreload/write.c:28-73 | one fault at a time: every move ends votes and master barriers rightly only, and leaves all replicas but one right |
| `FaultModel.GentleMove` | plrCommon/plr.c:495-545 | ... and none exits, if timers expire at check barriers only, with one replica missing |
| `Refinement.StartExists` | plrCommon/plr.c:571-594 | every program, kernel and descriptor table has a start, with all descriptions shared as fork shares them |
| `Refinement.RunInPlace` | plrPreload/read.c:35-80 | in every state of every run the replicas are where the protocol wants them, and there was one real effect for each master round |
| `Refinement.RunRefines` | plrPreload/read.c:35-80 | every state of every run whose votes and masters were right is in step with one unreplicated process, however many replicas have been hit |
| `Refinement.EffectsRight` | plrPreload/write.c:28-73 | right votes and masters, right effects: real effects, files and names are those of one process after as many calls as there were master rounds |
| `Refinement.EffectsRightIff` | plrCommon/plr.c:182-281 | for every run with any number of faults: the effects are those of one process if and only if in every vote that has been acted upon the right arguments had the majority, and no call made by slot 0 was a wrong one that looked right |
| `Refinement.LooksLikeOneProcess` | plrPreload/write.c:28-73 | in every run with one fault at a time, however late it is noticed, and no wrong call of slot 0 that looks right: real effects, files and names are those of one process, and all replicas but one have its program state |
| `Refinement.NobodyExits` | plrCommon/plr.c:495-545 | ... and nobody exits, if timers expire at check barriers only, with one replica missing |
| `LatentFaults.TwoLatentFaults` | plrCommon/plr.c:182-281 | a run with one fault before each of two votes: the effect of the first call is right, and the second vote replaces the good replica |
| `LatentFaults.NeverRightAgain` | plrCommon/plr.c:272-281 | however this run goes on, its second real effect is not the one of the unreplicated process |
| `HiddenFault.HiddenWrite` | plrPreload/write.c:28-47 | a run with one fault, of 33 bits in the buffer of the master's write: the vote passes, nobody is replaced, and the wrong bytes are in the file |
| `Refinement.OffsetsAgree` | plrPreload/read.c:67-73 | replicas that have finished a call have every file offset of the unreplicated process, for any sharing of open file descriptions and after replacements |
| `Refinement.BroadcastExact` | plrPreload/read.c:57-78 | what a slave copies out is header, offset and payload of the call whose arguments it presented, never of an older or a newer one |
| `Refinement.FaultyVoterReplaced` | plrCommon/plr.c:203-249 | the replica that is outvoted is replaced by a copy of one of the majority, whoever runs the vote: if it does so itself, the replica that it wakes up votes again; if its timer has expired besides, it exits |
| `Refinement.DetectableUnlessSameShape` | plrPreload/write.c:28-34 | a wrong call that is a read, or differs in kind, descriptor or length, does not look right |
| `Refinement.BurstIsDetectable` | plrPreload/write.c:28-34 | nor does a write whose buffer is hit by a burst of up to 32 bits |
| `Refinement.BurstRepaired` | plrPreload/write.c:28-53 | end to end: such a replica is outvoted and replaced before anything is written, whoever runs the vote |
| `Refinement.StuckReplicaReplaced` | plrCommon/plr.c:495-545 | end to end: a replica that died or hangs is replaced by a copy of a waiting one, whose first section ends the round - with all in step if the copied one presented the right arguments |
| `ExtraShm.OffsetIsFirstPage` | plrCommon/plrSharedData.c:175-184 | the area starts at the first page boundary past the fixed structs |
| `ExtraShm.ToIntIs` | plrCommon/plrSharedData.c:201-206 | the size asked for is the one 32-bit value equal to it modulo 2^32 |
| `ExtraShm.GrowthPreserves` | plrCommon/plrSharedData.c:207-216 | growth keeps all bytes and adds zeros |
| `ExtraShm.CopyInsideIff` | plrCommon/plr.c:285-301 | whether a copy succeeds, overruns the mapping or makes the process exit, in terms of the area's size and the end of the copy |
| `ExtraShm.HugeFread` | plrPreload/fread.c:53-54 | the input: fread of 2 GiB copies its header and then overruns the mapping |
| `ExtraShm.CopyToEffect` | plrCommon/plr.c:285-301 | a successful copy writes its bytes, inside the mapping, and changes no other; the process keeps its descriptor if it has one, and the others theirs |
| `ExtraShm.RefreshedEffect` | plrCommon/plrSharedData.c:223-252 | a refresh maps all of the area, changes nothing in it, and keeps an open descriptor |
| `ExtraShm.ReplacedIsCopy` | plrCommon/plrSharedData.c:124-138 | a replacement starts in the area with what its new slot says: its parent's descriptor and no mapping |
| `ExtraShm.HeaderAndPayload` | plrPreload/read.c:50-53 | header and payload written by one process are read back by any other, after any run of reads and replacements |
| `ExtraShm.AreaSafe` | plrCommon/plrSharedData.c:201-252 | on every run, with replacements, the area never shrinks and no mapping is larger than it |
| `ExtraShm.Area.GetOffset` | plrCommon/plrSharedData.c:174-184 | the cached offset is the page-aligned one |
| `ExtraShm.Area.ResizeExtraShm` | plrCommon/plrSharedData.c:201-219 | opens the descriptor, grows size and file if needed; fails exactly if the new length does not fit in an int |
| `ExtraShm.Area.RefreshExtraShm` | plrCommon/plrSharedData.c:223-252 | brings the process's mapping up to the global size |
| `ExtraShm.Area.CopyToShm` | plrCommon/plr.c:285-301 | the code computes the specified copy |
| `ExtraShm.Area.CopyBytes` | plrCommon/plr.c:299 | the bytes of the copy, and no others |
| `ExtraShm.Area.CopyFromShm` | plrCommon/plr.c:305-315 | reads the bytes of the area, and says whether the range is inside the mapping |
| `FdTable.Lowest` | plrPreload/open.c:61-66 | the lowest descriptor not in use |
| `FdTable.OpenEffect` | plrPreload/open.c:61-66 | exactly when open fails, changing nothing; otherwise the lowest free number refers to the file of that name, new if there was none, and all else is as before |
| `FdTable.CloseEffect` | plrPreload/close.c:27-28 | close frees that number only; a second close fails |
| `FdTable.OpenTwice` | plrPreload/open.c:61-66 | two opens of a name give two numbers for one file, or an error if exclusive; with an unlink in between the second creates another file or fails |
| `FdTable.UnlinkNames` | plrPreload/unlink.c:32-40 | unlink removes that name only |
| `FdTable.AreaOpened` | plrCommon/plrSharedData.c:223-226 | every call but close leaves master and slave with a descriptor for the shared area, the one that they had or the lowest free one; none gives it up |
| `FdTable.SlaveFollows` | plrPreload/open.c:76-93 | whatever the master's call did, a slave's part leads to the same table and return value and creates nothing more |
| `FdTable.ShmMustComeFirst` | plrPreload/open.c:56-59 | without the empty copy at the head of the master's action the first open would return different numbers, exactly if the shared area is not open yet |
| `FdTable.StepInv` | plrPreload/open.c:50-93 | every step of open, close, read, write and unlink keeps the tables in step, and so does the replacement of a replica at the vote or, by the watchdog, inside a call |
| `FdTable.TablesAgree` | plrPreload/open.c:50-93 | in every run all replicas have the same descriptor table whenever they are back at a vote barrier |
| `FdTable.OneCreation` | plrPreload/open.c:81-93 | a replica that follows, or replaces one that is still in the call, returns what the first one returned and changes the directory no further |
| `FdTable.LooksLikeMaster` | plrPreload/open.c:55-93 | in every run directory, tables and results are those of the master on its own |
| `FdNumbers.NextAlike` | plrPreload/open.c:55-93 | a request has the same result with PLR and without, and leads to the same files under the program's handles, if and only if it is harmless: no close, or one of a number that is not the shared area's and belongs to the same live handle in both, or to none in both |
| `FdNumbers.StaleResult` | plrPreload/close.c:27-28 | a close by itself has the same result if and only if its number is open in both tables or in neither |
| `FdNumbers.LooksLikeOneProcess` | plrPreload/close.c:9-34 | in every run whose closes are harmless the directory is that of one process without PLR that makes the same requests, the tables are its table up to the numbers of descriptors, and results are the same up to the number of a new descriptor |
| `FdNumbers.NumberIff` | plrPreload/open.c:56-66 | a successful open returns the unreplicated number if and only if the shared area is open already and does not occupy it |
| `FdNumbers.FirstOpenInput` | plrPreload/open.c:56-66 | the input: the first open of a program returns 4, not 3 |
| `FdNumbers.ForeignClose` | plrPreload/close.c:27-28 | closing a number that is not the program's makes a difference if and only if it is the shared area's |
| `FdNumbers.AreaNamedIff` | plrCommon/plrSharedData.c:202-226 | in every run each replica's number for the shared area names the area if and only if no call has closed that number |
| `FdNumbers.DoubleCloseInput` | plrPreload/close.c:27-28 | the input: a number closed twice takes away the area's descriptor, and the next file gets its number |
| `FdNumbers.NextUp` | plrPreload/close.c:27-28 | where all numbers and handles from the area's number on are one higher than without PLR, every request, also a second close, has the same result as without PLR, and this lasts |
| `FdNumbers.UpCareful` | plrPreload/close.c:27-28 | from such a state on the closes of every program are harmless, whatever it closes and however often |
| `FdNumbers.HandlesUpBegins` | plrPreload/open.c:56-59 | this begins when the area is opened if and only if neither open numbers nor handles are higher |
| `FdNumbers.ShiftLasts` | plrPreload/open.c:56-93 | once all numbers from the shared area's on are one higher than without PLR this lasts, and a returned number is the unreplicated one if and only if it is lower |
| `FdNumbers.ShiftBegins` | plrPreload/open.c:56-59 | the shift begins when the shared area is opened if and only if no higher number is open |
| `FdTable.Process.EnsureShmFd` | plrCommon/plrSharedData.c:223-226 | opens the shared area's descriptor if there is none |
| `FdTable.Process.MasterOpen` | plrPreload/open.c:55-72 | the master's part of open |
| `FdTable.Process.SlaveOpen` | plrPreload/open.c:76-93 | a slave's part of open, without O_EXCL |
| `FdTable.Process.CloseFd` | plrPreload/close.c:27-28 | every replica closes its own descriptor |
| `Escapes.EmitChar` | plrCommon/stringUtil.c:10-49 | the switch writes one or two characters |
| `Escapes.ExpandEscapes` | plrCommon/stringUtil.c:5-54 | the loop writes the printable form, inside 2 * strlen + 1 characters, and terminates it |
| `Escapes.OthersStay` | plrCommon/stringUtil.c:47-48 | a string with none of the nine listed characters is its own printable form |
| `Escapes.ListedPairs` | plrCommon/stringUtil.c:10-46 | the two characters that each of the nine becomes |
| `Escapes.ExpandParts` | plrCommon/stringUtil.c:9-50 | the printable form of a string is made from those of its parts |
| `Escapes.ExpandLength` | plrCommon/stringUtil.c:6-50 | it is longer by the number of listed characters |
| `Escapes.DecodeExpand` | plrCommon/stringUtil.c:5-54 | an explicit decoder undoes the printable form of every string |
| `Escapes.ExpandInjective` | plrCommon/stringUtil.c:5-54 | different strings have different printable forms |
| `Escapes.ExpandPrintable` | plrCommon/stringUtil.c:10-49 | none of the seven control characters is left, and every quote is behind a backslash |

## Left out

- plrMain.c and both Pin tools: option parsing, program start, random fault injection.
- The stdio wrappers (fread, fgets, gets, fgetc, fwrite, fputc, fputs, puts, fseek, printf, fopen): they depend on hidden buffering.
- shm_open, mmap, pthread and dlsym themselves; timeUtil.c, plrLog.c, pthreadUtil.c, libc_func.c, getpid.c, fork.c; the figurehead process.
- The flag insidePLR is set and cleared in `InsidePlr`, without Pin, but not in the runs of `Replication`; the direct calls made while it is set are not modelled.
- The early return for a wrong pid (plrCommon/plr.c:344-349), seen only under Pin.
- Death of the process that holds the lock, faults and kills inside PLR code, failing fork, kill, mmap and lseek calls, signals, program termination, fork by the application.
- Arguments are copied to the process's own slot before the lock is taken (plrCommon/plr.c:184); the model makes this part of the section that follows, which nobody else can observe.
- errno after a successful call: slaves also copy the master's stale value; results are compared by return value, data and, on failure, errno.
- Files are regular and seekable: no pipes, no O_APPEND, no un-intercepted lseek; of the error results of calls only those of bad descriptors, missing names and exclusive creation occur.
- open and close are proved in step for whole calls, in `FdTable`, and are not part of the interleaved runs of `Refinement`.
- Whole-run fail-stop after a three-way disagreement: the runner exits, but the watchdog of the survivors may start its slot again.
- BarrierRounds.WatchdogRecovers: is about the vote barrier only, because in a master barrier the replacement of a slave exits.
- BarrierLiveness.EventuallyReleased: is, like EventuallyLeft, about live replicas whose timers do not expire, because an expired timer may end in an exit; `CrashRecovered` is about one that expires.
- FdNumbers.LooksLikeOneProcess: is about programs whose closes are all `Harmless`, because a harmful one makes the tables differ by more than numbers (`NextAlike`).
- The sum of offset and size at plrCommon/plrSharedData.c:211 is modelled as wrapping around; C leaves the overflow undefined.
- In `Escapes` a string is its characters up to the first zero, in an array of Dafny characters instead of C chars.
