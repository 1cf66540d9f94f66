# What the collaboration controller keeps

A Dafny model of the parts of the repository whose correctness rests on state that outlives a process:
the supervised job engine, the account lease pool, the charter loader, the scope listing behind a permission
request, the reaping of orphaned workers, and the older parallel scheduler.  `dafny verify dfyconfig.toml`
checks everything.

| files | subject |
|---|---|
| `Basics` | options, and sequences without repetition |
| `EngineData`, `Engine`, `EngineTheorems` | jobs, request rows, journals and remote effects; the engine with its transactions and crashes; what follows for every run |
| `LeaseRows`, `LeasePool`, `LeaseProtocol`, `LeaseProgress` | accounts as rows; the pool operations on account objects; many processes and threads at once; a pool operation as a run of protocol steps |
| `YamlText`, `YamlLoader`, `YamlPrinter`, `YamlRoundTrip` | the dependency-free YAML loader, a printer for its subset, and the round trip |
| `ScopeListing`, `ScopeSummary` | the capped directory walk and its verdict; the one-line summary |
| `ProcessTree`, `RunRegistry` | what to signal with a worker; the runs of a dead service |
| `Scheduler` | dispatch and restore of the older scheduler |

## How it is modelled

**Engine.** The class holds the committed tables, the open transaction, the two fsynced journals and, as ghost
state, the log of remote effects and the history of commits.  A call to the remote may succeed, raise, or be
the last thing the process does; it is logged when it is issued, whether or not its answer arrives.  A crash
drops the open transaction and keeps the journals and the log.  Answers of the remote, clock readings, file
checks and hard rules are arbitrary.  The invariant `SystemInv` relates the committed tables and the journals to
the log, job by job, and holds after every operation however it ended; the lemmas of `EngineTheorems` say
what it means for positions in the log, for the request table and for the history.  A digest is the value it
was made of; ids that the source draws as uuids are drawn from a counter.

**Lease pool.** `LeasePool` is the code: objects changed in place, loops over them, a table of retained HOME
locks, a re-entrant switch lock.  `LeaseProtocol` is the concurrency: load, reclaim, select, try the HOME lock,
mark, save, keep, finish, the unlocked start-up probe, death, pid reuse and the clock are separate steps
of any thread of any process, and both use the same row operations of `LeaseRows`.  `LeaseProgress` connects
the two: a thread that is left alone gets through `prepare` and `finish` as their contracts in `LeasePool` say.  Taken for granted: HOMEs
are distinct, the lock backend works, a finished run passes its lease id, start tokens tell the instances of
a pid apart, and the clock does not run backwards.

**Charter loader.** The Python loader links an empty container into its parent and fills it later.  Here containers
are cells and a reference is an index, so that filling a cell is seen through every reference.

**Scope.** A directory is a tree whose entries come sorted by name; the identity of a path is its sequence
of names below the listed directory, and pins are such paths.

**Orphans.** Looks at start tokens and kills are logged in order; what a look returns is arbitrary.  Between a
look and the kill that follows it a pid could still be reused; the property is about what was seen.

**Older scheduler.** Slots, the store's dictionary and its file are separate; a crash loses the first two.  A new
session, a flushed claim and a prompt are logged in order.

## Two properties the code does not have

Two statements one might expect are false; the model says exactly when.

- `handled` may hold a permission twice.  A scan rejects a permission outright while a request for it, filed
  earlier, is still open; the lead then decides that request.  A decision causes it exactly if its request asks about a
  permission handled before, which a caller can see (`Engine.Decide`), and nothing else causes it: a run ends with a
  repetition exactly if one of its commits was such a decision (`HandledRepeatsIffDecidedTwice`).  `DecideTwice` is the
  input: the store `SampleWorld`, which meets the invariant, and one call of `Decide`.
- The older scheduler may dispatch one job id twice, when the id is given explicitly and enqueued again
  (`StartTwice`).  There are never more sessions than enqueues (`SessionsAtMostEnqueues`).

## Model

| member | source | states |
|---|---|---|
| EngineTheorems.AtMostOnce | win_collab/core.py:1598-1634 | after any run, with crashes between any two effects, a job has at most one POST /session, one initial prompt and one execute prompt in the log of effects: two positions of one kind are the same position |
| EngineTheorems.InFlightWasStartedOnce | win_collab/core.py:1603-1630 | a committed job in flight, or passed, has exactly one POST /session and exactly one initial prompt behind it, the prompt went to the session on record, and its start journal is at the last stage |
| EngineTheorems.SystemActionOnce | win_collab/core.py:1396-1407 | an execute prompt is sent only for a system install and only for the action of its charter, such a job never gets a rework prompt, and none passes unexecuted |
| EngineTheorems.ConfirmedStop | win_collab/core.py:1450-1479 | a failed, cancelled or timed-out job that still names its session had its abort accepted, and after that the session was seen idle or gone |
| EngineTheorems.AcceptedOnEvidence | win_collab/core.py:1961-2002 | a passed job has an acceptance in the log made before its deadline, on the digest of the packet that was filed, with artifacts equal to the reviewed ones, no violations, no contamination unless opted out, and an idle worker; the approval counter never exceeds the `once` replies the remote acknowledged |
| EngineTheorems.OncesAreReplies | win_collab/core.py:1936-1940 | the counter of approvals in the folded log is the number of acknowledged `once` replies at positions of the log |
| EngineTheorems.InboxDiscipline | win_collab/core.py:1474-1478 | terminal and queued jobs have no open request; a job awaiting review or action has exactly one, of the matching kind, and an action request proposes the action of the charter |
| EngineTheorems.BudgetsAreExact | win_collab/core.py:1426-1448 | lead_requests is the number of the job's request rows and within max_lead_requests; redos is within max_redos |
| EngineTheorems.Absorption | win_collab/core.py:1590-1602 | between any two commits of a run a terminal job is never touched again, a stopping one only stops, the deadline is written once, and nothing returns to the queue |
| EngineTheorems.ParallelBound | win_collab/core.py:1592-1634 | in no commit of any run are more different jobs in flight than max_parallel |
| EngineTheorems.QuietedMeans | win_collab/core.py:1458-1472 | a session counted as confirmed stopped has an accepted abort and, at a later position of the log, a quiet status |
| EngineTheorems.HandledRepeatsIffDecidedTwice | win_collab/core.py:1909-1945 | after any run `handled` of a job holds a permission twice exactly if, between two consecutive commits of that run, a decision closed an open request for a permission handled before and noted it again; no scan and no other operation ever causes it |
| EngineTheorems.DecideTwice | win_collab/core.py:1927-1939 | from a store that meets the invariant, in which permission 7 was rejected by a scan and its request is still open: if the decision on that request goes through, 7 stands twice in `handled` |
| Engine.Engine.Submit | win_collab/core.py:1312-1336 | a valid charter becomes one queued job with a new id, appended to the table, nothing else changes; an invalid one changes nothing; the system invariant is kept |
| Engine.Engine.Tick | win_collab/core.py:1590-1682 | keeps the invariant in every outcome; a raised tick changes nothing; a job stays queued only if the active jobs and the ones launched reached the limit; a job of another backend is failed without its session and without a word to the remote; no `handled` gets a repetition |
| Engine.Engine.TickJobs | win_collab/core.py:1592-1634 | the parallel bound through the loop: what is in flight never exceeds the limit although states change on the way; the returned count is exactly the jobs active before plus those launched |
| Engine.Engine.TickJob | win_collab/core.py:1595-1681 | one turn of the loop touches one job and logs effects of that job only, starts it only if it was queued and may start, adds at most one job in flight, and repeats no entry of `handled` |
| Engine.Engine.Decide | win_collab/core.py:1909-2054 | a decision takes effect only on an open request whose digest matches, of a job in flight; approvals, handled permissions, redos and the new state follow the choice; a `handled` without repetition gets one exactly if the request asked about a permission handled before; anything else changes nothing that is committed |
| Engine.Engine.Cancel | win_collab/core.py:2056-2064 | a terminal job is left as it is; any other is cancelled or stopping towards cancelled; no `handled` changes |
| Engine.Engine.Commit | win_collab/core.py:1275-1283 | a failed transaction is rolled back as a whole; a crash may fall on either side of the commit |
| Engine.Engine.Run | win_collab/core.py:1306-1310 | any sequence of submit, tick, decide, cancel and restart, each of which may raise or crash, keeps the invariant, the log and the history, and every commit of it is within max_parallel |
| Engine.Engine.Restart | win_collab/core.py:1275-1283 | a restarted process finds the committed database and the journals, nothing of the open transaction |
| Engine.Engine.Stop | win_collab/core.py:1450-1479 | the job ends in the target state with an empty inbox, or is stopping towards it with its session; without a session it ends at once; nothing else of the job changes |
| Engine.Engine.SendAbort | win_collab/core.py:1456-1464 | an abort accepted before is not posted again; otherwise it is posted, and recorded only when accepted |
| Engine.Engine.Request | win_collab/core.py:1426-1448 | the row is filed once per request id and counted, or found on file, or the job is stopped because its budget or the packet size is exceeded |
| Engine.Engine.FailNeedHuman | win_collab/core.py:1497-1502 | fails locally with the session given up and nothing sent |
| Engine.Engine.StartQueued | win_collab/core.py:1598-1634 | a queued job leaves the queue dispatched and live, or failed, or stopping; with a start journal found on it, it is never in flight, and nothing but the abort of a stop is sent |
| Engine.Engine.TryStart | win_collab/core.py:1599-1630 | a start journal found on a queued job refuses the dispatch: an error, and nothing sent; otherwise backend and deadline are set before anything is sent |
| Engine.Engine.Dispatch | win_collab/core.py:1610-1630 | journal, create, journal, journal, prompt: at every point a crash leaves the committed record consistent with what was sent |
| Engine.Engine.CreateRemoteSession | win_collab/core.py:1612-1617 | one POST /session, and the session of the answer on record |
| Engine.Engine.SendInitialPrompt | win_collab/core.py:1622-1628 | one initial prompt to the session the journal names, after which the job is running and dated |
| Engine.Engine.DesktopBlocked | win_collab/core.py:1516-1527 | the job is failed, and nothing sent, exactly if the desktop is refused, its sessions cannot be read, or one that no job has on record is busy |
| Engine.Engine.Scan | win_collab/core.py:1827-1907 | the whole scan keeps the job consistent, on any answers of the remote, and leaves it running only when nothing of it is open |
| Engine.Engine.ScanPermission | win_collab/core.py:1841-1855 | afterwards the permission is handled, or its request is on file, or the job stops; scanning alone never duplicates an entry of `handled` |
| Engine.Engine.ScanQuestion | win_collab/core.py:1867-1871 | afterwards the question's request is on file, or the job stops |
| Engine.Engine.ResolveStale | win_collab/core.py:1837-1840 | exactly the open requests that are no longer pending are closed |
| Engine.Engine.SettleIdle | win_collab/core.py:1724-1825 | nothing is settled exactly while the worker is still in its turn and within the step budget; review or action is awaited only after a finished turn without error |
| Engine.Engine.ProposeAction | win_collab/core.py:1747-1795 | an action is put to the lead only when it equals the charter's and no shell tool was used before |
| Engine.Engine.AskReview | win_collab/core.py:1796-1825 | the review packet reports a violation whenever a forbidden tool was used, and carries the approved action |
| Engine.Engine.AskVerdict | win_collab/core.py:1784-1825 | the job awaits the verdict on the request just filed, or stops |
| Engine.Engine.NoteStatusMiss | win_collab/core.py:1705-1722 | three misses in a row fail the job, fewer keep it running |
| Engine.Engine.Supervise | win_collab/core.py:1636-1681 | a job of another backend is failed locally with nothing sent; past the deadline a job times out or is stopping towards that; past the wall budget it fails or is stopping; a stopping job never returns to flight |
| Engine.Engine.ScanGuarded | win_collab/core.py:1656-1675 | a scan error is counted; the third in a row, or a rejected credential, fails the job, any other leaves it running or awaiting permission; a scan without error clears the count unless the job ended |
| Engine.Engine.DecidePermission | win_collab/core.py:1927-1945 | exactly the reply of the choice is posted and acknowledged; counters and state move as the choice says |
| Engine.Engine.DecideQuestion | win_collab/core.py:1946-1959 | an accepted answer was posted for that question; anything but an answer ends the job |
| Engine.Engine.DecideReview | win_collab/core.py:1961-2008 | pass accepts, fail reworks within the budget, and fails the job beyond it |
| Engine.Engine.Accept | win_collab/core.py:1963-2002 | passes only after all the checks, with the reviewed artifacts as the accepted ones |
| Engine.Engine.SendRework | win_collab/core.py:2003-2006 | one more redo, never for a system install |
| Engine.Engine.DecideAction | win_collab/core.py:2009-2047 | an approved action is executed unless it was dispatched before or its journal exists |
| Engine.Engine.ExecuteAction | win_collab/core.py:2029-2047 | journal, stage, journal, prompt, journal; afterwards the job carries the approved action |
| EngineData.OtherJobUndisturbed | win_collab/core.py:1285-1300 | what is done to one job's rows leaves every other job's invariant alone |
| EngineData.StoppedInv | win_collab/core.py:1474-1478 | a confirmed stop leaves a terminal job with an empty inbox |
| EngineData.AwaitingInv | win_collab/core.py:1784-1825 | a verdict is awaited with exactly one open request because the queue was empty before |
| EngineData.PassedInv | win_collab/core.py:1997-2002 | an acceptance on the one open request makes a sound passed job |
| EngineData.QueuedMeans | win_collab/core.py:1598-1602 | a queued job without a start journal has been told to nobody |
| EngineData.RowCountFrame | win_collab/core.py:1426-1448 | the request count of a job does not move with other jobs' requests |
| LeaseProtocol.LeaseExclusion | src/execution_backend/agy_account_pool.py:1166-1218 | in every interleaving of prepare, finish, sweeps, deaths, reused pids and clock steps: between two grants of one HOME the first one's HOME lock was let go, and its run had finished, its process had died, or its lease had run out |
| LeaseProtocol.LeaseStaysInFile | src/execution_backend/agy_account_pool.py:627-714 | a grant to a live process, unfinished and not run out, is in the pool file as long as that is so: no sweep, reclaim, late result or stale copy removes it |
| LeaseProtocol.SaveIsAtomic | src/execution_backend/agy_account_pool.py:1166-1209 | what is saved is the file as it is at that moment, changed only by the saving thread's own housekeeping and at most one reservation or one finished run |
| LeaseProtocol.LockIsOutermost | src/execution_backend/agy_account_pool.py:861-931 | the switch lock is owned exactly by the thread that is inside it at any depth, and by one thread only |
| LeaseProtocol.StepKeepsInv | src/execution_backend/agy_account_pool.py:1142-1260 | every single step of every thread keeps the protocol's invariant |
| LeaseProtocol.EarlierYielded | src/execution_backend/agy_account_pool.py:1174-1209 | at the moment of a grant, every earlier grant of the HOME is over and its lock was let go |
| LeaseProtocol.ReclaimProtects | src/execution_backend/agy_account_pool.py:690-714 | a truthful look at the machine never makes reclaim take the lease of a live holder |
| LeaseProtocol.FinishProtects | src/execution_backend/agy_account_pool.py:781-785 | a result written under another lease id leaves every other lease alone |
| LeaseProtocol.SweepProtects | src/execution_backend/agy_account_pool.py:627-644 | a sweep takes only leases that have run out |
| LeaseProtocol.KeepsPeekSweep | src/execution_backend/agy_account_pool.py:1263-1302 | the unlocked start-up probe may drop its own process's HOME locks without breaking the invariant |
| LeaseProtocol.KeepsDie | src/execution_backend/agy_account_pool.py:690-697 | a death frees the HOME locks and the switch lock and breaks nothing |
| LeaseRows.FreshLease | src/execution_backend/agy_account_pool.py:765-778 | a fresh lease ends strictly in the future and not stale, although its end is cut to whole seconds |
| LeaseRows.ReclaimSpares | src/execution_backend/agy_account_pool.py:654-714 | a lease whose holder looks alive with the recorded start token is not reclaimed |
| LeaseRows.LateFinish | src/execution_backend/agy_account_pool.py:1305-1341 | a late result of a run whose account was leased again changes nothing |
| LeaseRows.OwnFinish | src/execution_backend/agy_account_pool.py:1342-1361 | a run that finishes under its own lease leaves no lease behind, and an available account exactly if its result was harmless |
| LeaseRows.ReplayKeepsNames | src/execution_backend/agy_account_pool.py:861-931 | no operation renames an account or moves its HOME |
| LeasePool.Prepare | src/execution_backend/agy_account_pool.py:1142-1234 | terminates; grants the first account in pool order that is available after housekeeping and whose HOME was not found held; fails only when every available account's HOME was found held; the lock depth is restored; the file is the old one after exactly the operations done |
| LeasePool.Search | src/execution_backend/agy_account_pool.py:1173-1209 | the selection loop: each attempt that fails excludes one account, so it ends, with the first free account or none |
| LeasePool.Finish | src/execution_backend/agy_account_pool.py:1237-1260 | writes the result only if the caller owns the lease, drops the HOME lock then and only then, saves exactly what changed; without the switch lock nothing happens |
| LeasePool.FinishAt | src/execution_backend/agy_account_pool.py:1305-1361 | apply_job_result_to_pool and release_account_lease on the loaded accounts |
| LeasePool.SelectAccount | src/execution_backend/agy_account_pool.py:934-985 | after expiring cooldowns and leases, exactly the account that the protocol selects: the first available one that is not excluded |
| LeasePool.ExpireBusyLeases | src/execution_backend/agy_account_pool.py:627-644 | exactly the stale leases are cleared, and exactly their HOME locks dropped |
| LeasePool.ExpireCooldowns | src/execution_backend/agy_account_pool.py:212-224 | exactly the cooldowns that have passed are over |
| LeasePool.ReclaimDead | src/execution_backend/agy_account_pool.py:700-714 | exactly the leases of gone holders with a free HOME lock are cleared |
| LeasePool.Account.Reserve | src/execution_backend/agy_account_pool.py:765-778 | the account is busy under the new lease |
| LeasePool.Account.ApplyClass | src/execution_backend/agy_account_pool.py:420-471 | blocked accounts become unavailable, limited ones cool down, others stay; the flag says whether anything was touched |
| LeasePool.SwitchLock.Enter | src/execution_backend/agy_account_pool.py:861-921 | re-entrant for its owner, refused only while another thread owns it |
| LeasePool.SwitchLock.Exit | src/execution_backend/agy_account_pool.py:922-931 | only the outermost exit frees the lock |
| LeasePool.SettleOne | src/execution_backend/agy_account_pool.py:1339-1361 | the account after a finished run, and whether it must be saved |
| LeasePool.Load | src/execution_backend/agy_account_pool.py:275-297 | new account objects with the rows of the file, cooldowns expired |
| LeaseProgress.PrepareAlone | src/execution_backend/agy_account_pool.py:1142-1234 | in every reachable state in which a thread may enter the pool lock, a run of its steps alone leads out of it again and meets the contract of Prepare: the first account found free is reserved and saved, or none is and every available HOME is locked; it ends with a lease whenever some account is available and its HOME not locked |
| LeaseProgress.FinishAlone | src/execution_backend/agy_account_pool.py:1237-1361 | in every such state a run of the thread's steps alone loads, settles, saves and leaves, and meets the contract of Finish for the file and for the HOME locks kept |
| YamlRoundTrip.RoundTrip | src/charter.py:59-147 | for every tree of nested mappings, block lists of scalars, literal texts, quoted strings, integers, booleans and nulls, at any depth: loading its printed form returns exactly that tree |
| YamlRoundTrip.PrintAndLoad | src/charter.py:59-147 | printing a tree and running the loader's loop over the text returns the tree |
| YamlRoundTrip.EveryEntryIsLoaded | src/charter.py:59-147 | with no key twice, the loaded mapping has exactly the printed keys, each with the value it was printed from |
| YamlRoundTrip.RunEntries | src/charter.py:59-147 | printed entries fill the container on top of the stack, in order, whatever is deeper on the stack and whatever follows |
| YamlRoundTrip.RunNested | src/charter.py:129-139 | a nested mapping is linked into its parent empty, filled afterwards, and seen filled through the parent |
| YamlRoundTrip.RunItems | src/charter.py:81-111 | printed items are appended to the list on top of the stack |
| YamlRoundTrip.BlockReads | src/charter.py:150-167 | a printed literal text is read back line by line, blank lines included |
| YamlRoundTrip.KeyLineReads | src/charter.py:113-147 | how a printed key line is read: value, literal text or new container |
| YamlRoundTrip.ItemLineReads | src/charter.py:81-111 | how a printed list item is read |
| YamlRoundTrip.PopsToBase | src/charter.py:78-80 | dedenting closes exactly the containers the line is not inside of |
| YamlRoundTrip.ResolveSame | src/charter.py:129-139 | what a reference stands for depends only on containers made since |
| YamlLoader.LoadSimpleYaml | src/charter.py:59-147 | the loop over lines with its stack and its containers filled in place computes the loader function |
| YamlLoader.ReadBlock | src/charter.py:150-167 | the literal block: its lines, cut at the minimal indentation, without trailing blank lines |
| YamlLoader.PeekList | src/charter.py:119-128 | whether the next line that says something is an item of a deeper list |
| YamlLoader.Turn | src/charter.py:76-147 | what one line does to position, containers and stack, and which errors it raises |
| YamlLoader.RunKeepsCells | src/charter.py:59-147 | the containers always form a forest that can be read back |
| YamlText.StripCommentLoop | src/charter.py:23-34 | the character loop finds the first # outside quotes and strips what is left of it |
| YamlText.InsideQuotes | src/charter.py:23-34 | whatever stands in quotes starts no comment |
| YamlText.SplitUnlines | src/charter.py:61-61 | splitlines undoes the joining of lines by newlines |
| YamlText.BareQuoted | src/charter.py:45-46 | a quoted scalar is the text between its quotes, whatever it looks like |
| YamlText.BareInt | src/charter.py:47-48 | an integer is read as its value |
| YamlPrinter.AtomReads | src/charter.py:37-56 | every printable scalar is read back as itself |
| ScopeListing.OnlyPinnedIsComplete | win_collab/core.py:567-610 | with at most eight pins the verdict holds exactly if every file and link of the tree, at any depth, is pinned, and then the listing was not cut off, although the verdict never looks at that |
| ScopeListing.ListingIsExact | win_collab/core.py:514-564 | nothing is listed that is not there, no path twice, and everything when the listing was not cut off |
| ScopeListing.Listing.Walk | win_collab/core.py:537-561 | the recursive walk lists the first paths in order up to the cap, and is truncated exactly if it met one more entry with the list full |
| ScopeListing.ScopeOf | win_collab/core.py:594-608 | listing, truncation and verdict of one directory |
| ScopeListing.OverflowsIffFull | win_collab/core.py:546-549 | a cut-short walk has filled the list, and a tree with more leaves than fit is always cut short |
| ScopeListing.LeavesAreLeaves | win_collab/core.py:537-561 | a path is in the walk exactly if following its names from the top ends at a file or a link |
| ScopeListing.LeavesDistinct | win_collab/core.py:537-561 | the walk meets no path twice |
| ScopeListing.Pigeonhole | win_collab/core.py:605-607 | more distinct paths than pins cannot all be pinned |
| ScopeSummary.FitPatternLengths | win_collab/core.py:627-654 | no length grows, together they use exactly the budget or the total if that is less, none is cut below the highest level all can be cut to, and the rest goes to the longest first |
| ScopeSummary.FindLevel | win_collab/core.py:634-642 | the binary search finds the highest level that fits |
| ScopeSummary.GiveExtra | win_collab/core.py:643-654 | the greedy pass uses the budget to the last character, longest first, ties in order |
| ScopeSummary.OrderIsOrdered | win_collab/core.py:645-645 | the order of the greedy pass is the stable descending one |
| ScopeSummary.ShortenKeepsEnds | win_collab/core.py:613-624 | a shortened text is its two ends around an ellipsis, the tail at least as long as the head |
| ScopeSummary.Summary | win_collab/core.py:688-752 | the line is within a limit that is not negative, and is the full line, or all facts with shortened patterns, or a cut line when the facts alone do not fit |
| ScopeSummary.SummaryKeepsFacts | win_collab/core.py:728-752 | when the protected parts fit, each stands verbatim in the line right after its shortened pattern |
| ScopeSummary.FitExtras | win_collab/core.py:731-751 | the expendable parts share the room that is left; each stays whole, goes, or is cut at a comma with its truncation mark |
| ScopeSummary.LineLength | win_collab/core.py:721-724 | the length of a line is the sum of its parts and separators |
| ProcessTree.DescendantPids | src/execution_backend/agy_run_registry.py:120-135 | terminates unless the root is below itself, and returns sorted and without repetition exactly the live descendants, also those below zombies |
| ProcessTree.PosixTargets | src/execution_backend/agy_run_registry.py:138-165 | the pids to signal are exactly the worker, its group and session, its live descendants and its recorded children with theirs, without the caller; the groups are theirs, without 0 and the caller's |
| ProcessTree.TargetsAreSafe | src/execution_backend/agy_run_registry.py:158-165 | every live descendant but the caller is signalled, directly and through its group; the caller and its group never are |
| ProcessTree.ReusedChildrenAreIgnored | src/execution_backend/agy_run_registry.py:154-159 | a recorded child whose start token no longer matches adds no target |
| ProcessTree.Children | src/execution_backend/agy_run_registry.py:123-125 | every process is listed once, under its parent |
| ProcessTree.SearchOne | src/execution_backend/agy_run_registry.py:128-134 | expanding one process keeps the search exact: no process is pushed twice although no set of visited ones is kept |
| ProcessTree.SeenIsDescendants | src/execution_backend/agy_run_registry.py:126-134 | with an empty stack exactly the descendants have been seen |
| RunRegistry.Registry.ReapOrphans | src/execution_backend/agy_run_registry.py:355-408 | every entry is judged once on what was seen; both tables and the report follow the judgements; old entries expire after a day |
| RunRegistry.ReapingConserves | src/execution_backend/agy_run_registry.py:368-406 | a well-formed run stays as it was, and then its owner was seen alive and nothing was done to it, or it is reported exactly once, recorded no longer, and filed with its outcome |
| RunRegistry.KillsAreSafe | src/execution_backend/agy_run_registry.py:376-399 | a tree is stopped only if its pid was seen free or with the recorded token and its owner was not seen alive, and at most once |
| RunRegistry.Judge | src/execution_backend/agy_run_registry.py:370-399 | the verdict on one run with everything that was seen and done for it |
| RunRegistry.JudgeWorker | src/execution_backend/agy_run_registry.py:376-399 | the outcome exactly by what was seen: left alone under another token, stopped while the worker, a recorded child or its group lives, else already exited |
| RunRegistry.Reported | src/execution_backend/agy_run_registry.py:400-403 | a run is reported at most once, and exactly if it was reaped |
| RunRegistry.OldReapedStay | src/execution_backend/agy_run_registry.py:404-407 | what was reaped before stays until it expires |
| RunRegistry.Registry.MarkStopped | src/execution_backend/agy_run_registry.py:338-348 | a run this service stopped itself moves over with that outcome |
| Scheduler.AtMostOnce | src/scheduler.py:780-860 | in an orderly log a job id enqueued once gets at most one session and one prompt |
| Scheduler.SessionsAtMostEnqueues | src/scheduler.py:780-860 | a job gets no more sessions than it was enqueued |
| Scheduler.PromptsAtMostSessions | src/scheduler.py:817-838 | a job gets no more prompts than sessions; every prompt directly follows its claim, which was flushed before it and follows its session |
| Scheduler.EnqueuedBetween | src/scheduler.py:279-324 | between two sessions of one job id there was an enqueue of that id |
| Scheduler.StartTwice | src/scheduler.py:279-324 | enqueuing an id twice and starting it makes exactly two more sessions whatever the remote answers, because the store forgets the claim: the bound is exact |
| Scheduler.Scheduler.Run | src/scheduler.py:660-922 | in any run of enqueuing, starting, progress, restores and deaths of the process, a job id enqueued once gets at most one session and one prompt |
| Scheduler.Scheduler.TryStartQueued | src/scheduler.py:891-922 | terminates, keeps within max_parallel, stops only at the limit or with an empty queue, and sends nothing about a restored job |
| Scheduler.Scheduler.StartJobLive | src/scheduler.py:780-860 | one session at most, claimed on disk before it is prompted; a restored or already dispatched job sends nothing |
| Scheduler.Scheduler.StartOne | src/scheduler.py:893-921 | a restored job is monitored or failed, never dispatched |
| Scheduler.Scheduler.Restore | src/scheduler.py:660-776 | recorded jobs come back as restored ones with their session, incomplete contracts as failed ones; jobs in memory stay |
| Scheduler.Scheduler.Claim | src/state_store.py:393-413 | a claim succeeds unless another job that is not over holds the session or this one was dispatched under another token, and is on disk when it returns |
| Scheduler.Scheduler.Enqueue | src/scheduler.py:279-324 | the id becomes a queued job that may be dispatched, whatever was recorded for it |
| Scheduler.Scheduler.Persist | src/scheduler.py:377-410 | the slot is recorded and flushed, claimed exactly if it has a session and a token |
| Scheduler.Scheduler.NextQueued | src/scheduler.py:340-342 | the first queued job, or none exactly when nothing is queued |

## Left out

- Engine.Engine.SendRework: the rework prompt has no journal, so its number across crashes has no bound in the source either; only the committed counter is bounded.
- Engine.Engine.DesktopBlocked: the desktop occupancy lock itself (`win_collab/desktop_lock.py`) is not part of this model; its verdict is an arbitrary input.
- Engine.Engine.TickJobs: bounds the jobs in flight; a failed start left in stopping is not counted by the source and not bounded here.
- Engine.Engine.AskReview: the evidence of a system install beyond its completed tools is an arbitrary verdict, as are the artifact hashes.
- The events table, pacing by next_scan, charter validation beyond its bounds, external-input copies, prompt texts and the summary of the engine.
- Injectivity of digests and uniqueness of uuids are taken for granted; a falsy id or a deadline of zero is not modelled.
- LeasePool.Prepare: without a precheck and with persistence on; environment building and keyring clearing are left out, and pids are looked at once per pass instead of once per account.
- LeaseProgress.PrepareAlone: one thread runs by itself with one clock reading; interleaved calls are covered by LeaseProtocol.
- LeaseProtocol.LeaseExclusion: for runs whose finish passes its lease id; unlocked edits (`mark_account`, a direct `release_account_lease`) are not steps of the protocol.
- The error classes of a finished run and the end of a cooldown are inputs of the pool model.
- YamlRoundTrip.RoundTrip: mappings inside lists and inline lists are loaded by the model but not printed; `>` is read like `|`, as the code does and unlike YAML 1.2.2 section 8.1.3; floats are kept as text; keys are plain and strings hold one kind of quotes at most; digits outside ASCII are not modelled.
- ScopeListing.ScopeOf: how a pattern is turned into a directory, resolution of links above that directory, unreadable directories and changes during the walk.
- ScopeSummary.Summary: items are typed; a scope that is not a list, or an item without a pattern, is the caller's.
- ProcessTree.DescendantPids: for a table in which the root is not below itself, which is what a kernel gives.
- RunRegistry.Registry.ReapOrphans: the signals themselves, waiting, Windows, and `record`, `record_children` and `forget`.
- Scheduler.Scheduler.Progress: stands for everything else the scheduler does to a job; completion, cancellation, permissions, dry runs and reports are left out.
- HTTP, signing, credential discovery, marker tables and the command line.
