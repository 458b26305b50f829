# Verification model of the 5G UE simulator

This project models the parts of the simulator that keep state under concurrency, over a network or
across files, and proves what they promise. It is written in Dafny 4.11; to verify it, use
`dafny verify dfyconfig.toml --resource-limit 2000000 --verification-time-limit 0` in this directory.

## What is modelled

Code that updates state in place is modelled by classes, arrays and loops; each method is proved equal to
a function on values, and the properties are proved about that function over every run.

| files | subject |
|---|---|
| `ThreadPool.dfy`, `PoolRuns.dfy`, `PoolTheorems.dfy` | the thread pool: the linked queue on the heap, and every interleaving of workers, submitters, waiters and destroy |
| `ConfigText.dfy`, `ConfigFile.dfy`, `ConfigRoundTrip.dfy`, `ConfigSchema.dfy`, `ConfigStore.dfy` | the INI writer and reader, generically over schemas and for the 128 keys of the program |
| `GnbConnect.dfy`, `GnbSet.dfy`, `GnbDescriptors.dfy`, `GnbObjects.dfy`, `LockOrder.dfy` | the gNBs of a UE: connection retries, candidate set, switching, handover, mirrored fields, the sockets they hold or lose, and the locks around them |
| `F1Messages.dfy`, `F1Du.dfy`, `F1Cu.dfy`, `F1Runs.dfy` | the F1 procedures of sections 8.2.1, 8.2.3, 8.3.1 and 8.3.3 of 3GPP TS 38.473 between one CU-CP and any number of DUs |
| `CuUp.dfy`, `Smf.dfy`, `CliSlots.dfy`, `Tracker.dfy`, `History.dfy` | bounded tables: E1 bearer contexts (section 8.3.1 of 3GPP TS 38.463), sessions and addresses, UE slots, tracked resources, command history |
| `Wire.dfy`, `GnbResponses.dfy`, `Gtpu.dfy` | byte encoders of the mock gNB and GTP-U framing (section 5.1 of 3GPP TS 29.281) |
| `Slots.dfy`, `Wrappers.dfy` | counting and scanning a table of slots; values that may be missing |

The operating system is an argument wherever its answer matters: what `socket` and `connect` return is an
oracle, one answer per attempt; so are failing allocations, UEs that cannot be created, and what `atoi` makes of
a number above INT_MAX, which the C standard leaves open. Condition variables may wake a sleeper for no reason.

Some fields exist only in the model, and their declarations say so: the history of the pool, the owners of DU
identifiers, the addresses handed out, the entries a clean-up freed, the log of locks and descriptors. No
modelled operation reads them to decide anything.

## Where the code falls short of what one might expect

Each of these is a theorem, with the exact condition under which the expectation holds.

- A string of digits only (an mcc of 310), an empty string or a negative number in a saved configuration comes
  back as its default (`ConfigStore.DigitStringsRevert`, `ConfigStore.NegativesRevert`, `ConfigStore.UesimMccIsLost`);
  `ConfigRoundTrip.RoundTripIff` says exactly which configurations survive.
- `uesim_switch_serving_gnb` loses the old serving gNB when all eight candidate slots are taken
  (`GnbSet.SwitchConserves`, `GnbSet.FullTableLosesServing`).
- A UE leaks sockets exactly when it removes a candidate that holds some, connects one again, or drops its serving
  gNB in such a switch (`GnbDescriptors.LeaksExactly`, `GnbDescriptors.RemovalLeaks`). The disconnect in
  `uesim_remove_gnb` is for connected candidates, and no candidate is ever in that state.
- A client blocked in `thread_pool_wait` when shutdown is set is left blocked exactly when a task was still queued
  (`PoolTheorems.StrandedIff`, `PoolTheorems.StrandedClient`).
- The SMF hands out addresses outside its pool exactly when the first configured address is outside it, or the pool
  ends at 0xFFFFFFFF and does not start at 0 (`Smf.PoolLawIff`). Its tunnel ids are distinct for all UE ids below n
  exactly when n is at most 12,884,902 (`Smf.TeidsInjectiveIff`).
- Two F1 tunnel ids coincide for DU ids equal modulo 2^24 (`F1Messages.TeidsCoincide`).
- The resource statistics go on counting every entry that `resource_update_state` or `resource_check_leaks` took out
  of the active state, through a shutdown and until the next init, and are right exactly when there is none
  (`Tracker.StatisticsAreExactIff`, `Tracker.ShutDownLeavesTheGap`). Such a resource is never freed by the tracker
  (`Tracker.LeftForGood`). `resource_untrack` leaves the bytes in when the counter has wrapped (`Tracker.BytesLeftIn`).
- `config_set_string`, `config_set_int` and `config_set_bool` report success for a key they do not know
  (`ConfigStore.Store.SetMember`).
- A block of more than 255 bytes behind a one-byte length is written in full with a truncated length
  (`GnbResponses.TooLongIsLost`, `GnbResponses.LongBearerIsLost`).

## Model

| member | source | states |
|---|---|---|
| `ThreadPool.Pool.Submit` | src/core/thread_pool.c:245-286 | a task goes to the end of the head/tail list, which stays well linked and agrees with its counter; a NULL function or a failed allocation changes nothing |
| `ThreadPool.Pool.TakeOrLeave` | src/core/thread_pool.c:26-62 | one worker section: sleep on an empty queue, leave on shutdown, else unlink the front node and count it as active |
| `ThreadPool.Pool.Finish` | src/core/thread_pool.c:78-83 | the counter goes down, and the waiters are told exactly when nothing is active and nothing queued |
| `ThreadPool.Pool.WaitCheck` | src/core/thread_pool.c:303 | the wait condition read off the linked list |
| `ThreadPool.Pool.FreeRemaining` | src/core/thread_pool.c:219-225 | the last loop of destroy visits every node still linked, once, in order |
| `PoolRuns.StepKeeps` | src/core/thread_pool.c:13-310 | every critical section, signal, broadcast and spurious wake-up keeps counters, order, conservation and wake-ups intact |
| `PoolTheorems.WorkConserving` | src/core/thread_pool.c:26-56 | no lost wake-up: in every reachable live state no worker sleeps, or awake idle workers number at least the queued tasks |
| `PoolTheorems.ExactlyOnceInOrder` | src/core/thread_pool.c:47-85 | in every reachable state each submission is exactly once queued, in one worker's hands, finished or discarded, and tasks start in submission order |
| `PoolTheorems.CountersAreExact` | src/core/thread_pool.c:54-55 | task_count is the length of the list; active_tasks is the number of tasks taken whose finish step has not run |
| `PoolTheorems.FreedOnce` | src/core/thread_pool.c:67 | no node is freed twice, and after destroy every submitted node has been freed |
| `PoolTheorems.WaitIsSound` | src/core/thread_pool.c:302-306 | thread_pool_wait returns only when every task submitted so far has finished |
| `PoolTheorems.BlockedClientHasReason` | src/core/thread_pool.c:303-305 | a client asleep in thread_pool_wait implies an active or a queued task |
| `PoolTheorems.IdleMeansAllDone` | src/core/thread_pool.c:80 | with nothing active and nothing queued every submission has been executed |
| `PoolTheorems.WorkIsBounded` | src/core/thread_pool.c:13-310 | under every interleaving of all parties the workers take at most as many steps as there was work, plus four per task submitted since and one per worker woken without a task |
| `PoolTheorems.WorkersComeToRest` | src/core/thread_pool.c:16-86 | left to themselves the workers can take only as many steps as there is work |
| `PoolTheorems.RestMeansDone` | src/core/thread_pool.c:77-84 | when the workers of a live pool are at rest all tasks are done and no waiting client is left behind |
| `PoolTheorems.ShutdownTerminates` | src/core/thread_pool.c:192-217 | after the locked broadcast of destroy no worker sleeps again, whatever others do, and a decreasing measure bounds the steps of all workers |
| `PoolTheorems.ShutdownNeverStuck` | src/core/thread_pool.c:209-217 | while destroy joins, some worker can step or all have exited; after the joins nothing is active |
| `PoolTheorems.StaysBlocked` | src/core/thread_pool.c:38-45 | once shutdown is set with a task still queued, no run wakes a client blocked in thread_pool_wait, short of a spurious wake-up |
| `PoolTheorems.StrandedIff` | src/core/thread_pool.c:192-217 | a client blocked when shutdown is set, in any reachable pool: if nobody submits any more and it has no spurious wake-up, it is still blocked when destroy has joined the workers if and only if a task was queued when shutdown was set |
| `PoolTheorems.StrandedClient` | src/core/thread_pool.c:192-217 | it happens: one worker, one task, a waiter, and destroy before the worker runs lead to such a state |
| `ConfigText.DecimalRoundTrip` | src/config/config.c:1849 | a number printed with %d or %u is recovered from its digits |
| `ConfigText.TrimEnd` | src/config/config.c:1737-1741 | the trimming loop that never passes the first character |
| `ConfigText.GetLine` | src/config/config.c:1724 | fgets on a 1024-byte buffer: up to the newline or 1023 characters |
| `ConfigRoundTrip.ReloadIsIdentityIff` | src/config/config.c:1816-1825 | one member written and read back is unchanged exactly when it satisfies the stated check on its value |
| `ConfigRoundTrip.NumberReloadsIff` | src/config/config.c:1820-1822 | a number survives exactly when it is non-negative and atoi returns it |
| `ConfigRoundTrip.TextReloadsIff` | src/config/config.c:1816-1825 | a string survives exactly when it is non-empty, has no comment sign, newline or outer blanks, and is neither a boolean word nor all digits |
| `ConfigRoundTrip.MemberParses` | src/config/config.c:1798-1826 | a printed key = value line updates that member of the current section and no other, through comment, trimming, splitting and type guessing |
| `ConfigRoundTrip.HeaderParses` | src/config/config.c:1747-1795 | a printed section header selects that section |
| `ConfigRoundTrip.ReadsLineByLine` | src/config/config.c:1724 | reading the joined lines is reading each line in turn |
| `ConfigRoundTrip.LoadReplays` | src/config/config.c:1710-1831 | parsing a written file replays its members section by section |
| `ConfigRoundTrip.LoadedMember` | src/config/config.c:35-73 | after loading a saved file each member holds the value its line stores, else its default, and is unchanged exactly when it survives or is its default |
| `ConfigRoundTrip.ParsedStringsAreOneLine` | src/config/config.c:1737-1741 | no parsed string contains a newline, for any text whatever |
| `ConfigRoundTrip.RoundTripIff` | src/config/config.c:35-73 | for every well-formed schema a saved configuration is loaded back unchanged if and only if every member survives its line or holds its default |
| `ConfigSchema.UesimIsWellFormed` | src/config/config.c:1833-2010 | the eleven sections and 128 keys the program prints form a duplicate-free schema whose defaults its own lines keep |
| `ConfigStore.Store.LoadDefault` | src/config/config.c:75-231 | every member gets its default, whatever was there before |
| `ConfigStore.Store.SetMember` | src/config/config.c:726-1194 | a setter updates the first member of the section whose type it serves and whose name matches case-blind; an unknown key changes nothing and is still a success; InvalidParam comes exactly for a section that has no member of the setter's type |
| `ConfigStore.Store.ParseFile` | src/config/config.c:1721-1830 | the parsing loop computes the parse function, for every text |
| `ConfigStore.Store.WriteFile` | src/config/config.c:1833-2010 | the printing loops produce the header comment and all sections in order |
| `ConfigStore.Store.Validate` | src/config/config.c:252-294 | success exactly when every member is within its bounds |
| `ConfigStore.Store.Load` | src/config/config.c:35-73 | defaults, then the file, then validation: the status, the flag and the members in every case |
| `ConfigStore.SaveThenLoad` | src/config/config.c:35-73 | the round trip through Load and WriteFile, as an if-and-only-if |
| `ConfigStore.UesimRoundTrip` | src/config/config.c:1833-2010 | the same for the program's own schema |
| `ConfigStore.DigitStringsRevert` | src/config/config.c:1820-1822 | a string of digits only, or an empty one, comes back as its default |
| `ConfigStore.NegativesRevert` | src/config/config.c:1820-1825 | a negative number comes back as its default |
| `ConfigStore.UesimMccIsLost` | src/config/config.c:1878 | in the program's own schema a saved mcc of 310 is loaded as 001 |
| `ConfigStore.UesimMcc` | src/config/config.c:108 | the mcc of the program is a text of seven characters whose default is 001 |
| `ConfigStore.DefaultsAreUnique` | src/config/config.c:75-231 | the defaults leave no freedom: two configurations holding them are equal, so a load has one outcome |
| `GnbConnect.ConnectWithRetry` | src/core/uesim_core.c:753-837 | the retry loop computes the outcome function for every behaviour of the system |
| `GnbConnect.RetryContract` | src/core/uesim_core.c:753-837 | at most three attempts; negative socket on failure; success exactly if some attempt connects; Timeout exactly if none does and one was refused |
| `GnbConnect.RetryLedger` | src/core/uesim_core.c:753-837 | every descriptor opened on the way is closed again while it is open, except the one returned, which was not open before |
| `GnbSet.Best` | src/core/uesim_core.c:1138-1153 | the candidate chosen is the first of maximal RSRP above -140, if any is above |
| `GnbSet.StepKeeps` | src/core/uesim_core.c:306-960 | every operation, successful or not, keeps ids distinct, candidates in shape, is_serving only on the serving gNB and the legacy fields equal to the serving gNB's |
| `GnbSet.EveryReachableSetIsSound` | src/core/uesim_core.c:452-960 | that invariant in every state of every run from creation |
| `GnbSet.SwitchConserves` | src/core/uesim_core.c:646-696 | a switch loses no gNB while a slot is free, and exactly the old serving gNB when all eight are taken |
| `GnbSet.FullTableLosesServing` | src/core/uesim_core.c:646-696 | such a UE is reachable: nine additions fill the table, and a switch then loses the gNB that was serving |
| `GnbSet.RemoveLosesOne` | src/core/uesim_core.c:592-616 | a removal takes away that candidate and nothing else |
| `GnbSet.AddGainsOne` | src/core/uesim_core.c:467-557 | an addition succeeds exactly on room, memory and a new candidate address; it then adds one unused id and never loses one |
| `GnbSet.SwitchedList` | src/core/uesim_core.c:666-696 | the candidate array after a switch, slot by slot: shifted, with the old serving gNB last if it is kept |
| `GnbSet.AddTwice` | src/core/uesim_core.c:509-545 | the duplicate check looks at candidates only: a candidate address cannot be added again, the serving gNB's can |
| `GnbSet.HandoverOutcome` | src/core/uesim_core.c:1130-1166 | when a handover succeeds, who serves afterwards, and that a failed one leaves serving gNB, mirror and ids alone |
| `GnbSet.AttachOutcome` | src/core/uesim_core.c:1041-1091 | registration and establishment end with a connected serving gNB or an error, and move no gNB |
| `GnbSet.StopClosesAll` | src/core/uesim_core.c:306-347 | a stop of an active UE leaves no descriptor in a gNB or in the UE and keeps the set; an inactive UE it leaves as it is |
| `GnbDescriptors.StepSettles` | src/core/uesim_core.c:306-960 | every operation closes only descriptors that are open and leaves open exactly those that some gNB holds, those lost before and those the operation loses |
| `GnbDescriptors.LeaksExactly` | src/core/uesim_core.c:569-960 | over every run of a UE no descriptor is closed that is not open, none is held twice, and what is open is what its gNBs hold if and only if no step loses any: removing an unconnected candidate that holds sockets, reconnecting one, or a switch that drops the serving gNB |
| `GnbDescriptors.StopLeavesTheLost` | src/core/uesim_core.c:306-347 | a stop of the active UE closes everything but what was lost before |
| `GnbDescriptors.RemovalLeaks` | src/core/uesim_core.c:592-606 | it happens: a candidate is connected and removed, and its two sockets stay open with no owner |
| `GnbObjects.UeContext.AddGnb` | src/core/uesim_core.c:452-567 | on the pointers: new gNB, serving or appended, with duplicate check and counter; each return path gives the list lock back |
| `GnbObjects.UeContext.RemoveGnb` | src/core/uesim_core.c:569-631 | on the pointers: found candidate disconnected if connected and shifted out; locks and closes as logged where they occur |
| `GnbObjects.UeContext.CloseGap` | src/core/uesim_core.c:608-613 | the shift loop removes one slot and keeps the array packed |
| `GnbObjects.UeContext.SwitchServing` | src/core/uesim_core.c:633-713 | on the pointers: old serving demoted and appended if there is room, new one promoted, mirrored and shifted out; list lock given back on both paths |
| `GnbObjects.UeContext.ConnectTo` | src/core/uesim_core.c:839-918 | on the pointers: retry, GTP-U socket, state and mirror, with every failure path, its unlock and its descriptors |
| `GnbObjects.UeContext.DisconnectGnb` | src/core/uesim_core.c:920-963 | on the pointers: both sockets closed, state and mirror reset, under the gNB lock |
| `GnbObjects.UeContext.Stop` | src/core/uesim_core.c:306-347 | on the pointers: serving and candidates disconnected in turn, one gNB lock at a time, then the UE's own sockets |
| `GnbObjects.UeContext.HandOver` | src/core/uesim_core.c:1130-1166 | on the pointers: selection loop, connection, switch |
| `GnbObjects.UeContext.AttachServing` | src/core/uesim_core.c:1041-1059 | on the pointers: connect the serving gNB unless it is connected |
| `LockOrder.TraceIsOrdered` | src/core/uesim_core.c:306-380 | the lock operations that the methods of GnbObjects are proved to log come in the order state, list, gNB, with at most one gNB lock held and none at the return, whatever state a call finds |
| `LockOrder.NeverDeadlocked` | src/core/uesim_core.c:306-960 | any number of threads in any reachable state: if one is inside a call, one can advance |
| `LockOrder.NeverRetakes` | src/core/uesim_core.c:306-960 | no thread waits for a lock it holds, or for a gNB lock while holding another |
| `LockOrder.SchedulesEnd` | src/core/uesim_core.c:306-960 | under every scheduling the calls in progress take at most as many steps as their lock operations |
| `LockOrder.RestMeansReturned` | src/core/uesim_core.c:306-960 | when no thread can advance, every call has returned and every lock is free |
| `F1Messages.TeidsCoincide` | src/mock_core/mock_du.c:488 | two tunnel ids are equal exactly when the bearers are and the DU ids agree modulo 2^24 |
| `F1Du.HandleKeeps` | src/mock_core/mock_du.c:505-623 | any message keeps count = active contexts and created = released + active + dropped, and active contexts tied to distinct creations |
| `F1Du.GivenOnce` | src/mock_core/mock_du.c:386 | until 2^32 contexts have been created a DU id is given to one CU id only and is not 0 |
| `F1Du.ActiveIdsDistinct` | src/mock_core/mock_du.c:379-397 | under the same bound active contexts have distinct ids |
| `F1Du.RefusedWhenFull` | src/mock_core/mock_du.c:439-448 | a setup is refused exactly when all 1024 contexts are active |
| `F1Du.DuServer.SetupContext` | src/mock_core/mock_du.c:425-503 | on the table: first free slot, next id, counters, response with tunnels |
| `F1Du.DuServer.ReleaseContext` | src/mock_core/mock_du.c:505-538 | on the table: the first active context of that CU id is released; the answer repeats the ids |
| `F1Du.DuServer.ResetAll` | src/mock_core/mock_du.c:613-623 | on the table: the loop deactivates every context |
| `F1Cu.F1SetupKeeps` | src/mock_core/mock_cu_cp.c:338-375 | active DU connections keep distinct ids and the counter counts them |
| `F1Cu.SetupFailsIff` | src/mock_core/mock_cu_cp.c:338-375 | F1 Setup fails exactly for a DU not connected while all 16 slots are |
| `F1Cu.RequestKeeps` | src/mock_core/mock_cu_cp.c:465-484 | a new context gets an id no other has |
| `F1Cu.RequestSentIff` | src/mock_core/mock_cu_cp.c:486-497 | a request is sent exactly while a context is free |
| `F1Cu.CuServer.HandleF1Setup` | src/mock_core/mock_cu_cp.c:324-411 | on the table: known DU updated, else first free slot, else failure |
| `F1Cu.CuServer.SendContextRequest` | src/mock_core/mock_cu_cp.c:486-550 | on the table: context created before the request, with DU id 0 |
| `F1Cu.CuServer.Process` | src/mock_core/mock_cu_cp.c:413-443 | on the table: the first active context with the CU id takes DU id and bearers |
| `F1Runs.RunKeeps` | src/mock_core/mock_cu_cp.c:413-517 | the identity invariant over every run of a lossy, duplicating, reordering network, with outside releases and resets |
| `F1Runs.IdentityAgreement` | src/mock_core/mock_cu_cp.c:425-435 | a CU-CP context naming a DU id holds one its DU gave out for that very CU id |
| `F1Runs.DuContextsAreAskedFor` | src/mock_core/mock_du.c:450-454 | every active DU context serves a CU-CP context of that DU with the same CU id, RAN UE id and cell |
| `F1Runs.DuIdsNotShared` | src/mock_core/mock_cu_cp.c:425-435 | two contexts of one DU never share a DU id before that DU's counter wraps |
| `F1Runs.TunnelsNotShared` | src/mock_core/mock_du.c:479-489 | nor a stored tunnel id while the DU ids are below 2^24 |
| `F1Runs.DuLedgerBalances` | src/mock_core/mock_du.c:505-538 | created = released + active + dropped in every reachable state |
| `F1Runs.CuLedgerBalances` | src/mock_core/mock_cu_cp.c:338-376 | the CU-CP's counts equal its active slots and no DU is connected twice |
| `CuUp.LedgerBalances` | src/mock_core/mock_cu_up.c:344-413 | after any messages count = active, created = released + active, and active ids are distinct below 2^32 creations |
| `CuUp.IdsReusedIff` | src/mock_core/mock_cu_up.c:351 | a new context gets an identifier used before exactly when at least 2^32 have been given out |
| `CuUp.RefusedWhenFull` | src/mock_core/mock_cu_up.c:378-385 | refused exactly when all 64 slots are active |
| `CuUp.CuUpServer.SetUp` | src/mock_core/mock_cu_up.c:364-413 | on the table: slot, id, counters, copied sessions, response |
| `CuUp.CuUpServer.Process` | src/mock_core/mock_cu_up.c:447-467 | on the table: release of the first active context of the CU-CP id |
| `Smf.LedgerBalances` | src/mock_core/mock_smf.c:323-414 | for any configuration and any run the counter counts the active sessions and created = released + active |
| `Smf.AddressLaw` | src/mock_core/mock_smf.c:352-357 | the k-th session created has the k-th address in turn from the first configured one, round the pool, whatever was released |
| `Smf.ConsecutiveAddressesDistinct` | src/mock_core/mock_smf.c:352-357 | any pool-size consecutive sessions have different addresses |
| `Smf.CreatedSession` | src/mock_core/mock_smf.c:340-372 | a new session is found under its key, with the next address in turn and the tunnel id of its key |
| `Smf.ActiveAddresses` | src/mock_core/mock_smf.c:352-357 | active sessions have addresses of the pool, and until the pool has gone round no two share one |
| `Smf.PoolLawIff` | src/mock_core/mock_smf.c:352-357 | over all runs every address handed out is in the configured pool if and only if the first one is and the pool does not end at the last 32-bit address without starting at 0 |
| `Smf.TeidsInjectiveIff` | src/mock_core/mock_smf.c:364 | the initial tunnel ids of all UE ids below n, with 8-bit session ids, are distinct if and only if n is at most 12,884,902 |
| `Smf.TeidsCollide` | src/mock_core/mock_smf.c:364 | the first collision: UE 12,884,902 with session 0 and UE 0 with session 112 |
| `Smf.ActiveTunnelsDistinct` | src/mock_core/mock_smf.c:340-372 | in any run, active sessions of UE ids below that bound share a tunnel id exactly when they share their key |
| `Smf.KeyCounts` | src/mock_core/mock_smf.c:323-414 | create adds one session for its key, release takes one away if there is one, find succeeds exactly if there is one |
| `Smf.SmfServer.CreateSession` | src/mock_core/mock_smf.c:323-375 | on the table: first free slot, address, tunnel id, counters |
| `Smf.SmfServer.ReleaseSession` | src/mock_core/mock_smf.c:377-396 | on the table: first active session with the key |
| `CliSlots.EveryReachableTableIsSound` | src/cli/cli.c:195-268 | after any commands the counter equals the occupied slots, each id is its slot and the selected UE is live |
| `CliSlots.StartOutcome` | src/cli/cli.c:195-234 | start never reaches its No available slots branch, adds exactly the UEs that work up to the first that does not, and moves no other UE |
| `CliSlots.LoadFillsUp` | src/cli/cli.c:1059-1076 | a load test adds as many UEs as asked for or as fit |
| `CliSlots.StopKeeps` | src/cli/cli.c:254-268 | a stop keeps the invariant and clears the selection of that UE |
| `CliSlots.Table.StartUes` | src/cli/cli.c:195-234 | the start loop with its slot search computes the start function |
| `CliSlots.Table.RunLoadTest` | src/cli/cli.c:1020-1081 | the load-test loop computes its function |
| `CliSlots.Table.StopEach` | src/cli/cli.c:242-252 | stop all empties the table and clears the selection |
| `Tracker.LedgerBalances` | src/core/resource_tracker.c:191-439 | over any calls allocated = released + active, no active handle is tracked twice and nothing is destroyed twice |
| `Tracker.StatisticsAreExactIff` | src/core/resource_tracker.c:65-439 | after any calls the statistics exceed the counts over active entries by exactly what updates and leak checks took out of Active since the last init, so active is right if and only if that is nothing; bytes modulo 2^32, with what a guarded untrack left in |
| `Tracker.StatisticsAreExact` | src/core/resource_tracker.c:191-383 | in particular they are exact after any calls without updates and leak checks |
| `Tracker.BytesAreExact` | src/core/resource_tracker.c:191-289 | however much is tracked in all: while the active bytes fit in 32 bits after every call, the byte counter is their sum |
| `Tracker.BytesLeftIn` | src/core/resource_tracker.c:253-289 | without that bound it may be wrong: two tracks that wrap the counter and an untrack leave 0 for one active byte |
| `Tracker.LeakCheckCost` | src/core/resource_tracker.c:418-439 | a leak check returns the number of active entries, takes them all out of Active and leaves the statistics counting them |
| `Tracker.TrackThenUntrack` | src/core/resource_tracker.c:191-289 | a resource tracked and at once untracked leaves the active counts as they were and its handle free; the byte counter exactly if it did not wrap |
| `Tracker.CleanReleases` | src/core/resource_tracker.c:317-359 | the clean-up loops release exactly the selected active entries, free exactly what those hold and return their number |
| `Tracker.CleanOwnerExactly` | src/core/resource_tracker.c:317-337 | clean-up by owner releases that owner's active entries and touches no other |
| `Tracker.LeftForGood` | src/core/resource_tracker.c:65-183 | an entry no longer active keeps its state in every run up to a shutdown, and what it holds is not freed by any later call, shutdown included |
| `Tracker.ShutDownLeavesTheGap` | src/core/resource_tracker.c:159-183 | after a shutdown the counters stand at exactly what was taken out of Active, and at zero if nothing was |
| `Tracker.Resources.TrackHandle` | src/core/resource_tracker.c:191-251 | on the table: NULL and duplicate checks, capacity, append, statistics |
| `Tracker.Resources.UntrackHandle` | src/core/resource_tracker.c:253-289 | on the table: mark released, guarded counters |
| `Tracker.Resources.ReleaseEntry` | src/core/resource_tracker.c:65-138 | on the table: destroy, mark released, counters |
| `Tracker.Resources.CleanWhere` | src/core/resource_tracker.c:317-359 | the clean-up loop computes its function |
| `Tracker.Resources.MarkLeaks` | src/core/resource_tracker.c:418-439 | the leak check marks and counts the active entries |
| `History.RecordedIsCollapsed` | src/cli/cli_script.c:24-47 | without a clear the list is the non-empty commands with consecutive repeats collapsed |
| `History.SinceLastClear` | src/cli/cli_script.c:24-70 | whatever came before, the list depends only on the commands since the last clear |
| `History.CollapsedIff` | src/cli/cli_script.c:27-34 | the collapsed list is the one list without equal neighbours whose elements, each repeated one or more times in order, are the non-empty commands |
| `History.Ring.AddCommand` | src/cli/cli_script.c:24-47 | the ring goes on holding the last 100 of the list |
| `History.Ring.Get` | src/cli/cli_script.c:50-57 | offset k is the k-th most recent of the last 100, else nothing |
| `History.Ring.ClearAll` | src/cli/cli_script.c:60-69 | the ring and the list become empty |
| `History.Ring.Lines` | src/cli/cli_script.c:72-84 | the last 100 commands, numbered, oldest first |
| `History.Ring.Replay` | src/cli/cli_script.c:24-69 | any sequence of adds and clears refines the list |
| `Wire.RoundTrip` | src/mock_gnb/mock_gnb_response.c:154-171 | fields that fit are read back as written, whatever follows |
| `Wire.ReadBackIff` | src/mock_gnb/mock_gnb_response.c:139-177 | a list of fields is read back exactly when every value and every length fits its bytes |
| `Wire.Writer.PutAll` | src/mock_gnb/mock_gnb_response.c:154-171 | writing at a moving offset stays inside the buffer and appends the encoding |
| `GnbResponses.AllocationIsExact` | src/mock_gnb/mock_gnb_response.c:72-485 | every generator fills exactly what it allocates, the handover command all but two bytes |
| `GnbResponses.CodeAndLengthTell` | src/mock_gnb/mock_gnb_response.c:31-57 | where two generators share category and type the payload length tells them apart |
| `GnbResponses.UniquelyDecodable` | src/mock_gnb/mock_gnb_response.c:31-485 | header and payload determine transaction, generator and all fields whenever lengths and packed widths fit |
| `GnbResponses.RarTells` | src/mock_gnb/mock_gnb_response.c:72-92 | the ten bytes of a MAC RAR determine RAPID mod 64, timing advance and TC-RNTI mod 4096, grant and backoff mod 16 |
| `GnbResponses.TooLongIsLost` | src/mock_gnb/mock_gnb_response.c:154-171 | a block longer than its length field can say is not read back |
| `GnbResponses.LongBearerIsLost` | src/mock_gnb/mock_gnb_response.c:139-177 | such a response exists: an RRC setup with a bearer configuration of 256 bytes |
| `GnbResponses.Generate` | src/mock_gnb/mock_gnb_response.c:31-485 | the generator and build_response produce that frame or fail exactly if the frame cannot be allocated, or the payload for the seven generators that allocate one |
| `Gtpu.Send` | src/mock_core/mock_upf.c:560-587 | which payloads are accepted and the packet built for them |
| `Gtpu.ParsersAgree` | src/mock_gnb/mock_gnb_server.c:1445-1455 | the UPF and gNB parsers read the same type, length and tunnel id from every buffer of at least 8 bytes, on hosts of either byte order |
| `Gtpu.FramingRoundTrip` | src/mock_core/mock_upf.c:567-584 | for every accepted payload both parsers recover type, length, tunnel id and payload |

## Left out

- Sockets, select loops, sleeping, time, printing, PCAP, signal handling and the Windows branches: the model has the results of system calls, not their timing.
- The ASN.1, NGAP, F1AP, E1AP and XnAP codecs and the NAS, RRC, PDCP and RLC headers are not part of this model; F1 and E1 messages are datatypes.
- The AMF's NAS dialogue, the simple-format dispatch of the mock gNB server, UPF tunnel deletion, QFI numbering, `gnb_manager.c`, `memory.c`, the benchmarks and the server lifecycles.
- `resource_print_leaks`, which takes a lock it already holds.
- The failure path of `thread_pool_create`, which broadcasts without the mutex: the shutdown theorems are about destroy.
- 32-bit wrap-around of the gNB identifier counter and of task_count: both are unbounded here. Where wrap-around is reachable by a property (DU and CU-UP identifiers, addresses, tunnel ids, byte statistics) it is modelled.
- The line buffer of `config_parse_file`: the terminators it writes into the buffer are modelled as taking prefixes and suffixes of the line.
- `config_merge`, `config_copy`, the getters, and the recorded file name and load time.
- Calls that hand `uesim_connect_gnb` or `uesim_disconnect_gnb` a gNB context the UE no longer manages; removing and switching to such a context are modelled.
- The gNB operations are sequential within one UE; interleavings of their lock operations are modelled in `LockOrder.dfy`, data races between them are not.
- The load test's scenario, duration and running flag: its loop over UEs is modelled.
- Measurement reports: RSRP values are set by an operation of the model.
- `uesim_reconnect_gnb` and `uesim_find_gnb_by_id`, and the re-establishment procedure, whose connection part is that of registration.
- F1Du.Setup: requests with more than 8 bearers are excluded, because num_drbs is not clamped to the array; SRBs, cells and RRC containers are not represented.
- F1Runs.IdentityAgreement: DUs are assumed to have distinct gNB-DU IDs, and setup requests to come from the CU-CP; releases and resets may come from anywhere.
- The served-cell list of a DU connection is represented by its first cell.
- The radio-bearer counters and QoS fields of E1 contexts, and the session fields of the SMF other than key, address and tunnel id.
- GnbResponses: the generators that use the PER encoder, and the procedure chains that call several generators.
- Gtpu: the version bits of the first octet, echo handling and tunnel counters.
