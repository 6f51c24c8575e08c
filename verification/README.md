# Adjacent, modelled and proved in Dafny

Adjacent supervises local dev servers behind a reverse proxy that boots them on the first request. This
project models the parts where several tasks share state, and the naming rules they depend on, and proves
what holds in every interleaving.

| file | what it holds |
|---|---|
| `lifecycle.dfy`, `lifecycle_proofs.dfy` | the supervisor's state, the atomic steps on it, and the invariants of every run |
| `boots.dfy` | what a boot, an idle snapshot and a stop request come to, in terms of what they are given |
| `stops.dfy` | what the polls of a stop meet, when it succeeds, and what its failure means |
| `supervisor.dfy` | the supervisor object: each method is proved to be one of those steps; stops poll against an arbitrary schedule of other tasks |
| `ports.dfy` | which ports are reserved, and the one way a port is lost |
| `bootgate.dfy`, `readiness.dfy` | the per-name boot locks held by weak references; the readiness poll loop against a clock |
| `daemon.dfy` | all tasks (requests, commands, registry changes, certificate reloads, the scanner) stepping over shared state under four kinds of lock |
| `daemon_proofs.dfy`, `daemon_theorems.dfy` | what every reachable state satisfies; deadlock, single flight and certificate theorems |
| `removal.dfy`, `registry_runs.dfy` | how a removed app goes down; what concurrent changes do to the registry |
| `crossings.dfy` | runs that reach what the daemon does not promise |
| `control.dfy`, `agreement.dfy` | `add`, `remove`, `prune` and one scanner sweep as the code runs them, and that the single steps agree with them |
| `text.dfy`, `ordering.dfy`, `labels.dfy`, `sanitisers.dfy`, `hosts.dfy`, `sans.dfy`, `leaf.dfy` | strings, sorting, DNS labels and keys, hosts and routes, certificate names, the served leaf |
| `dotenv.dfy`, `dotenv_lines.dfy` | the dotenv parser, line by line, and the layers of a child's environment |

How to read the model:

- Every region the daemon runs under the supervisor mutex is one `Action`; `Run` applies any sequence of them,
  so a statement about `Run(Init, acts)` covers every interleaving. The daemon machine takes each such region in
  two parts, acquiring the lock and then doing the work, so that waiting and deadlock can be stated. A client may
  hang up at any point of its request.
- `history` records boots, requests, stop requests and exits. The index of a `Booted` event is the id of the
  incarnation it started: the code keeps no such number, which is what makes its name-keyed write-back worth
  proving. `history`, `past` and `leaked` are bookkeeping the code does not have.
- A child is an incarnation that may exit at any moment with any status. Clocks, probes, drawn ports, spawns and
  file operations are inputs.
- A registry save is taken to be atomic, and only the daemon is taken to write the registry.
- Issuing a certificate for a list of names is taken to yield a certificate with that list.

Where the code is weaker than its comments the model follows the code:

- `crates/adj/src/supervisor.rs:217-218` says every error path past the reservation releases the port; the failed log open at
  245-247 does not, and leaves the child unwatched (`LeakHappens`). `FailedBootExactly` says which failed boots give the port
  back; `ReservedExactly` and `LeakedForGood` account for every port over a run.
- `crates/adj/src/supervisor.rs:331-340` says an idle stop and a routed request can never cross. A request is
  routed before it is recorded (`crates/adj/src/proxy.rs:253-278`), so they can: `StopCrossesRequest` gives the run, and
  `UnrecordedRequestUnseen` says exactly when. What holds is `TouchHoldsOff`, from the moment the request is recorded.
- `finish_stop` polls by name, so a quick re-boot makes a stop fail although its process is gone: `RebootHidesExit`
  gives the schedule, `FalseFailureExactly` says exactly when, and `FailureIsReal` that it takes a boot by somebody else.
  The other direction, that a stop that succeeds saw its own incarnation end, always holds.
- Each listener has its own boot locks, so single flight is per listener: `GatesCollide` gives a run that brings a request
  of each past its check, `OtherGateTurnedAway` what happens next, and `TurnedAwayExactly` when a waiting request is turned
  away at all. One watched child per name holds across both.
- A sweep keeps to the names it loaded while earlier stops block it, so an app added again meanwhile can be reaped:
  `RegisteredReaped` gives the run, `ReapedExactly` says exactly when.
- `crates/adj/src/tls.rs:222-224` says a corrupt cached leaf heals by re-issue. One whose certificate covers the names but whose
  key file is bad passes the check and then fails, every time: `HealsExactly`.
- `sanitize_name` is not the identity on every valid label: it rewrites two dashes in a row (`NameFromFixed`).

## Model

| member | source | states |
|---|---|---|
| LifecycleProofs.EveryRun | crates/adj/src/supervisor.rs:144-484 | The lifecycle invariants (entries agree with history, watchers with running apps, ports with watchers, exits with boots) hold after any sequence of steps |
| LifecycleProofs.RunningIffWatched | crates/adj/src/supervisor.rs:153-320 | An app is Running with a pid and port exactly when a pending watcher carries its name, pid and port; no two pending watchers share a name |
| LifecycleProofs.WriteBackFindsOwn | crates/adj/src/supervisor.rs:258-320 | A watcher's name-keyed write-back always finds an entry, and it is its own incarnation, still Running |
| LifecycleProofs.StateIsReplay | crates/adj/src/supervisor.rs:144-151 | The state shown is the one a replay of the name's history gives, and a set stop flag means the app runs |
| LifecycleProofs.CrashExactly | crates/adj/src/supervisor.rs:268-315 | With a stop asked of the incarnation an exit is recorded as stopped; without one code 0 is stopped, any other code c a crash with c, signal k a crash with 128 + k, and a status with neither, or a failed wait, a crash with -1 |
| Ports.PortsDistinct | crates/adj/src/supervisor.rs:171-175 | Two running apps never share a port, over every run |
| Ports.ReservedExactly | crates/adj/src/supervisor.rs:221-247 | Over every run a port is reserved exactly when a running app has it or a boot that failed at opening its log once got it, and never both |
| Ports.FailedBootExactly | crates/adj/src/supervisor.rs:221-247 | A failed boot gives its port back, and leaves everything as it was, exactly when it did not get as far as a log that fails to open |
| Ports.LeakedExactly | crates/adj/src/supervisor.rs:245-247 | The leaked ports are exactly those of boots on the way that failed at opening their log |
| Ports.LeakedForGood | crates/adj/src/supervisor.rs:245-247 | A leaked port stays reserved in every continuation, no running app has it and no later boot is granted it |
| Ports.LeakHappens | crates/adj/src/supervisor.rs:245-247 | A first boot that fails at its log leaves the port taken with nothing running or watched |
| LifecycleProofs.BootsBalance | crates/adj/src/supervisor.rs:153-320 | Boots of a name are its exits plus one if it runs: at most one boot more than exits observed |
| BootOutcomes.ExplicitStopTaken | crates/adj/src/supervisor.rs:366-382 | A stop without a window is taken exactly when the app runs |
| Stops.StopObserved | crates/adj/src/supervisor.rs:390-424 | Seeing a name not running means the incarnation captured earlier has finished and its exit is on record, whatever was booted in between |
| Stops.FalseFailureExactly | crates/adj/src/supervisor.rs:398-424 | A stop fails although its incarnation is over exactly when no poll sees the name down and some boot of the name succeeds before the last poll |
| Stops.FailureIsReal | crates/adj/src/supervisor.rs:398-424 | If nobody boots the name meanwhile, a stop succeeds exactly when the captured incarnation is no longer watched at its end |
| Stops.ReplacedExactly | crates/adj/src/supervisor.rs:153-160 | Between two moments at which a name runs, its incarnation ended exactly when a boot of it succeeded in between |
| LifecycleProofs.IdleStopIsDue | crates/adj/src/supervisor.rs:341-386 | An idle stop is flagged exactly when the app runs and its boot and every recorded request of that incarnation are a window old |
| LifecycleProofs.TouchHoldsOff | crates/adj/src/supervisor.rs:456-463 | After a recorded request no idle stop with that window is taken before the window has passed, over any run and any re-boots |
| BootOutcomes.CandidatesExactly | crates/adj/src/supervisor.rs:467-484 | The snapshot holds exactly the running apps, each with the time since the latest boot or request of its incarnation and its own window |
| BootOutcomes.AllocationIsFirstFree | crates/adj/src/supervisor.rs:700-717 | A port is granted exactly when it is the first of at most 32 draws outside the reserved set, with only reserved ports drawn before it; otherwise a bind failed on the way or all 32 were taken |
| BootOutcomes.UpExactly | crates/adj/src/supervisor.rs:153-247 | A boot succeeds with a pid exactly when the name is not running, the env file reads, a first free port is found, the log directory and log are fine and the spawn gives that pid; each error has its cause, and nothing checked before it was wrong |
| BootOutcomes.BootEndsSo | crates/adj/src/supervisor.rs:218-323 | A boot that succeeds leaves an entry with that pid, the first free port, the clock and the given window, a watcher and the reservation; one that fails leaves everything, or, at the log, just the port taken |
| Supervision.AllocateFreePort | crates/adj/src/supervisor.rs:700-717 | The allocation loop computes that choice |
| Supervision.Supervisor.Up | crates/adj/src/supervisor.rs:153-323 | Returns and leaves behind what `BootOutcomes.BootEnds` says: success exactly when every condition holds, with the entry, port and watcher; each error for its cause, with its effect |
| Supervision.Supervisor.BeginIntentionalStop | crates/adj/src/supervisor.rs:355-386 | The flag is set exactly when the app runs and, with a window, is idle for it; otherwise a skip or an error, and no change |
| Supervision.Supervisor.WatcherDone | crates/adj/src/supervisor.rs:261-320 | The watcher's end uses only the name and port it captured, clears the flag, and records the status: stopped if flagged or code 0, else a crash with the code, 128 plus the signal, or -1 |
| Supervision.Supervisor.ForgetApp | crates/adj/src/supervisor.rs:442-452 | Drops the entry unless it runs, and reports whether it is gone |
| Supervision.Supervisor.TouchIdle | crates/adj/src/supervisor.rs:456-463 | Stamps a running app, and only that |
| Supervision.Supervisor.FinishStop | crates/adj/src/supervisor.rs:390-424 | Against any schedule of other tasks: succeeds exactly when some poll in range sees the name down, ends at the first that does or at the last, 1 to 100 polls; SIGKILL exactly when the grace polls are used up, no earlier than 5 s in; failure only after 50 polls beyond it |
| Supervision.Supervisor.Down | crates/adj/src/supervisor.rs:325-329 | Succeeds exactly when the name runs and some poll sees it down; success means the captured incarnation has ended since, even if others re-boot the name; not running is an error that changes nothing |
| Supervision.Supervisor.DownIfIdle | crates/adj/src/supervisor.rs:341-347 | Left alone exactly when not running or not idle for the window; success as for `Down` |
| Stops.RebootHidesExit | crates/adj/src/supervisor.rs:398-424 | From every state with a running app, given a free port, there is a schedule, an exit and a quick re-boot, with which its stop fails although the captured incarnation is over; the stop flag is not inherited |
| BootLocks.BootGate.LockFor | crates/adj/src/proxy.rs:69-78 | Every holder of a lock for one name has the same lock, even if holders drop between sweep and upgrade; at most one entry more than the locks live at the sweep |
| BootLocks.SweepBound | crates/adj/src/proxy.rs:71 | After the sweep the table has no more entries than there are live locks |
| BootLocks.SweepCoherent | crates/adj/src/proxy.rs:69-72 | Dropping dead entries while holders keep leaving preserves that every held lock is its name's entry |
| BootLocks.IssueCoherent | crates/adj/src/proxy.rs:72-77 | Handing out a lock preserves it, and other holders for that name have the same lock |
| Readiness.WaitReady | crates/adj/src/readiness.rs:34-62 | Ends with the port of the first round that finds the app running and answering, or the code of the first that finds it crashed, whichever is earlier; a timeout only at or after the deadline with no such round; returns by the deadline plus 200 ms plus one probe |
| Readiness.BootTurn | crates/adj/src/proxy.rs:344-366 | One request's turn on the boot lock ends within the boot timeout plus 200 ms plus one probe, unless the boot itself took longer; it gives the port of the first ready round, the code of the first crash, a boot failure, or a timeout that is not early |
| Readiness.ServeQueue | crates/adj/src/proxy.rs:344-366 | Requests queued on one boot lock, served first come first served: each is answered for its own cause, and the k-th within k times the boot timeout plus 200 ms plus one probe |
| Ordering.SortDecides | crates/adj/src/tls.rs:258-261 | Sorted lists are equal exactly when the lists have the same elements with the same counts |
| Ordering.SortedUnique | crates/adj/src/tls.rs:51 | There is only one sorted arrangement, so any correct sort gives this one |
| Ordering.DedupSorted | crates/adj/src/tls.rs:52 | Dropping equal neighbours of a sorted list leaves no repeats |
| Ordering.LeqExactly | crates/adj/src/tls.rs:51 | The order is that of prefixes and of the first character that differs |
| Labels.SanitizeName | crates/adj/src/scaffold.rs:37-54 | The loop with its dash flag computes the directory-name sanitiser |
| Labels.NameFromSound | crates/adj/src/scaffold.rs:37-54 | Its result is empty exactly when there is no ASCII letter or digit, else a valid label without two dashes in a row |
| Labels.NameFromFixed | crates/adj/src/scaffold.rs:37-54 | It is idempotent, and its fixed points are exactly the empty string and the valid labels without two dashes in a row |
| Labels.SanitizeLabelSound | crates/adj/src/worktree.rs:67-84 | The branch sanitiser gives the empty string exactly when there is no ASCII letter or digit, else a valid label |
| Labels.SanitizeLabelFixed | crates/adj/src/worktree.rs:67-84 | It is idempotent, and its fixed points are exactly the empty string and the valid labels |
| Labels.SanitizersKeepOrder | crates/adj/src/worktree.rs:67-84 | Both sanitisers keep a prefix of the letters and digits in order, upper case as the lower-case letter 32 above, and all of them when the input fits in 63 characters |
| Text.FoldsExactly | crates/adj/src/proxy.rs:534 | Lower-casing turns each of A to Z into the character 32 above it and leaves everything else alone |
| Sanitisers.LabelCharsOne | crates/adj/src/worktree.rs:71-76 | A slash or underscore gives a dash, lower-case letters, digits and dashes stay, everything else goes |
| Sanitisers.LabelCharsConcat | crates/adj/src/worktree.rs:67-76 | The branch sanitiser works character by character |
| Sanitisers.CollapseWord | crates/adj/src/scaffold.rs:40-44 | The directory-name sanitiser keeps letters and digits as they are |
| Sanitisers.CollapseGap | crates/adj/src/scaffold.rs:40-48 | and turns any run of other characters into one dash |
| Sanitisers.TidyExactly | crates/adj/src/scaffold.rs:49-53 | What is kept starts at the first character that is no dash, is at most 63 long, and ends where no dash precedes: only dashes are dropped otherwise |
| Sanitisers.ValidLabelExactly | crates/adj/src/registry.rs:111-126 | Accepted are exactly 1 to 63 lower-case letters, digits and dashes with no dash at either end |
| Labels.SplitKey | crates/adj/src/registry.rs:89-94 | The key is the label, a dot and the base, split at the first dot; no label exactly when there is no dot |
| Labels.SplitJoined | crates/adj/src/registry.rs:89-100 | Joining a dot-free label to any base and splitting gives both back |
| Labels.AddKey | crates/adj/src/daemon.rs:337-356 | A key is accepted exactly when name and label are valid and not reserved, and the accepted key splits back into them |
| Sanitisers.AddKeyExactly | crates/adj/src/daemon.rs:337-356 | Each refusal has its cause, with nothing the code checks before it wrong; an accepted key is the name, or label, dot and name |
| Hosts.NameFromHostExactly | crates/adj/src/proxy.rs:533-545 | A host carries a name exactly when, letter by letter in lower case, it is that name and `.adj.ac`, and the name is one or two non-empty labels |
| Hosts.RouteExactly | crates/adj/src/proxy.rs:222-252 | The status page is reached exactly by `status.adj.ac` in any letter case, the verify marker exactly by its host as written, each with or without a port; no name is found exactly for headers that spell no host |
| Hosts.HostRoutes | crates/adj/src/proxy.rs:222-252 | No registrable key is taken by the status page or the verify marker, in any letter case of its host |
| Hosts.AddressRoutes | crates/adj/src/proxy.rs:222-252 | Every letter case of an app's host, with or without a port, is routed to exactly that app |
| Hosts.RoutesOnlyAddresses | crates/adj/src/proxy.rs:524-545 | A header routed to a key is such a way of writing that key's host: nothing else is |
| Hosts.AddressesDiffer | crates/adj/src/proxy.rs:524-545 | Distinct valid keys share no address |
| Hosts.NoLeadingZero | crates/adj/src/supervisor.rs:97-103 | A port is written without a leading zero |
| Hosts.AdjEnvRoutes | crates/adj/src/supervisor.rs:87-105 | Each ADJ_ variable leads back through the router to the app it was given to, with `https://` or `http://` as its name says and its listener's port |
| Hosts.AdjLayerExactly | crates/adj/src/supervisor.rs:87-105 | The variables are exactly these six by name and value; a direct URL is there exactly when its listener port is known |
| Sans.ComputeSans | crates/adj/src/tls.rs:48-57 | The collecting, sorting, de-duplicating and pushing code computes the specified list |
| Sans.SansExactly | crates/adj/src/tls.rs:40-57 | The list is `adj.ac`, `*.adj.ac` and then `*.<base>.adj.ac` for the distinct base names in byte order |
| Sans.SansDecideBases | crates/adj/src/tls.rs:43-57 | Two registries give equal lists exactly when their sets of base names are equal |
| Sans.SansNoRepeats | crates/adj/src/tls.rs:48-57 | No name is listed twice |
| Sans.SansInSubtree | crates/adj/src/tls.rs:59-65 | Every name stays in the subtree the CA is constrained to (section 4.2.1.10 of RFC 5280) |
| Sans.CoveredExactly | crates/adj/src/tls.rs:43-57 | Under one-label wildcard matching (section 6.4.3 of RFC 6125) every bare host is covered, and an instance's host exactly when some registered key has its base |
| Sans.RegisteredCovered | crates/adj/src/tls.rs:43-57 | Every registered key's host is covered |
| LeafCert.LeafCoversExactly | crates/adj/src/tls.rs:237-262 | A cached leaf is reused exactly when its names are the wanted ones in some order |
| LeafCert.EnsureLeaf | crates/adj/src/tls.rs:218-235 | The result carries exactly the wanted names; a leaf is signed exactly when the cached one does not carry them and signing works, and otherwise the files stay |
| LeafCert.CertifiedKey | crates/adj/src/tls.rs:194-203 | There is a key exactly when the cached leaf covers the names and its key file is good, or it does not cover them and signing works |
| LeafCert.HealsExactly | crates/adj/src/tls.rs:194-235 | With a CA that signs, a cached leaf heals by itself exactly when it is not one that covers the names with a bad key file; that one fails every time and stays |
| LeafCert.LeafResolver.Resolve | crates/adj/src/tls.rs:188-192 | A handshake is served the current key, whose names are the stored list |
| LeafCert.LeafResolver.Reload | crates/adj/src/tls.rs:169-177 | Succeeds exactly when the registry loads and its names are served already or a key for them is to be had; success serves them, failure leaves list and key, unchanged names sign nothing |
| LeafCert.LeafResolver.Install | crates/adj/src/tls.rs:169-177 | Succeeds exactly when nothing changed or a key is to be had, signs at most the one certificate needed, and leaves the served leaf on disk |
| LeafCert.NewResolver | crates/adj/src/tls.rs:153-164 | There is a resolver exactly when the CA is present, the registry loads and a key is to be had; it serves the registry's names, with that leaf on disk |
| DaemonProofs.EveryReachable | crates/adj/src/daemon.rs:258-590 | The system invariant holds in every reachable state of every interleaving |
| DaemonProofs.OneHolderKept | crates/adj/src/daemon.rs:357-358 | No step lets two tasks hold one lock |
| DaemonProofs.RefsKept | crates/adj/src/proxy.rs:69-78 | Every step keeps each boot lock a task refers to in its gate's table, under one name |
| DaemonProofs.MemoriesKept | crates/adj/src/daemon.rs:358-382 | What add, remove and prune remember of the registry stays true while they hold the registry lock |
| DaemonProofs.ActionsUnderMutex | crates/adj/src/supervisor.rs:112-122 | Whoever changes the supervisor's state in one step holds its mutex |
| DaemonProofs.ReadsUnderMutex | crates/adj/src/supervisor.rs:112-122 | A step that does not wait for the mutex does not depend on that state |
| DaemonTheorems.LockOrder | crates/adj/src/proxy.rs:69-78 | A kept lock is never the supervisor mutex; while one is kept only that mutex may be awaited, and nothing at all while a gate's table lock is kept |
| DaemonTheorems.BlockedBehindMover | crates/adj/src/proxy.rs:344-357 | A blocked task waits for one that can move, or for one that waits for the mutex of one that can |
| DaemonTheorems.NoDeadlock | crates/adj/src/daemon.rs:358-541 | As long as a task is unfinished some task has an enabled step |
| DaemonTheorems.OneLockPerName | crates/adj/src/proxy.rs:60-78 | Of all boot locks referred to at any moment, two are the same exactly when gate and name are |
| DaemonTheorems.SingleFlight | crates/adj/src/proxy.rs:335-357 | Over any run where only requests of one gate are about to boot a name, no boot attempt is turned away as already running |
| Crossings.TurnedAwayExactly | crates/adj/src/proxy.rs:335-357 | A request that saw the app down and waits to boot it is turned away as already running if and only if a boot from outside its boot lock, by the other listener or by a command, has succeeded meanwhile and that incarnation has not exited |
| Crossings.OtherGateTurnedAway | crates/adj/src/proxy.rs:112-153 | Where single flight ends: with a request of each listener past its check, the boot of one turns the other's away |
| Crossings.GatesCollide | crates/adj/src/proxy.rs:335-357 | For every name that can be registered, a run from the start brings a request of each listener there |
| Removal.RankFalls | crates/adj/src/daemon.rs:258-291 | While a name is unregistered its rank (twice the stale callers, plus one if it runs) never grows and each boot or exit lowers it |
| Removal.StaleBootsBounded | crates/adj/src/daemon.rs:499-542 | After a removal that is not undone, further boots number at most the callers that had read the old registry |
| Removal.RemovedAppGoesDown | crates/adj/src/daemon.rs:499-542 | Once more exits were seen than there were stale callers, the removed app does not run in any continuation |
| Removal.SweepTakesDown | crates/adj/src/daemon.rs:258-291 | A sweep that finds an unregistered app running at its snapshot, whose load works and whose reap does not give up, does not end before the app was seen down |
| Removal.OneSweepSuffices | crates/adj/src/daemon.rs:258-291 | With no stale caller left, one such sweep leaves the app not running in every continuation |
| Removal.ReapsBounded | crates/adj/src/daemon.rs:258-291 | Of the complete sweeps of a run, with any tasks between and beside them, at most one more than there were stale callers find the removed app running |
| Removal.SweepsLeaveDown | crates/adj/src/daemon.rs:258-291 | After one more such sweep than there were stale callers the app does not run in any continuation |
| Removal.ReapHasCause | crates/adj/src/daemon.rs:276-291 | In every reachable state, whoever reaps an app loaded a registry without it; a failed load reaps nothing |
| Removal.RegisteredNeverReaped | crates/adj/src/daemon.rs:276-291 | Over any run in which a name stays registered, a sweep that has not loaded the registry yet never reaps it |
| Removal.ReapedExactly | crates/adj/src/daemon.rs:261-309 | From its load on, whatever becomes of the registry, a sweep that gets to a candidate reaps it exactly when the load worked and the name was missing then |
| Crossings.RegisteredReaped | crates/adj/src/daemon.rs:261-309 | For every name that can be registered, a run reaps it while it is registered, because it was added again after the sweep's load |
| Crossings.UnrecordedRequestUnseen | crates/adj/src/proxy.rs:253-278 | While a routed request waits to record itself, an idle stop of its app goes ahead exactly when all recorded activity is a window old |
| Crossings.StopCrossesRequest | crates/adj/src/proxy.rs:253-278 | For every name that can be registered and every window, a run from the start gets a request routed and then flags the idle stop of its app |
| RegistryRuns.RegistryIsReplay | crates/adj/src/daemon.rs:318-590 | The registry is the successful saves replayed in lock order, with no lost update, and every key is one or two valid, unreserved labels |
| RegistryRuns.DeregistrationExact | crates/adj/src/daemon.rs:505-590 | Over any run from a removal's or prune's load to its save: it saves over the registry it loaded and drops exactly its one name, or exactly the registered entries then confirmed absent; a failed save drops nothing |
| RegistryRuns.CommitExact | crates/adj/src/daemon.rs:318-590 | Each step of a reachable state leaves the registry alone, adds one free key, or drops exactly the chosen names |
| DaemonTheorems.ServedMatchesStored | crates/adj/src/tls.rs:150-177 | In every reachable state the served key carries the stored names |
| DaemonTheorems.ServedIsCurrent | crates/adj/src/daemon.rs:374-382 | Once a reload has succeeded since the last save, the registry's names are served and every registered host is matched by one |
| DaemonTheorems.ReloadOutcome | crates/adj/src/daemon.rs:374-382 | A mutation's reload sees the very registry just saved, and either serves its names or leaves the served pair |
| Dotenv.ParseDotenv | crates/adj/src/env.rs:12-35 | The parsing loop computes the fold of the lines, stopping at the first bad one |
| DotenvLines.LineEnds | crates/adj/src/env.rs:14 | A line feed ends a line and takes one carriage return before it along |
| DotenvLines.LastLine | crates/adj/src/env.rs:14 | The last line needs no line feed, and nothing is no line |
| DotenvLines.ReadBlank | crates/adj/src/env.rs:15-18 | White space alone, or `#` as the first other character, says nothing |
| DotenvLines.ReadNoEquals | crates/adj/src/env.rs:19-25 | Any other line without `=` is an error |
| DotenvLines.ReadPair | crates/adj/src/env.rs:19-32 | The first `=` parts key and value, with the white space around either gone and the value's quotes stripped |
| DotenvLines.ReadNoKey | crates/adj/src/env.rs:26-30 | Without a key it is an error |
| Sanitisers.WhitespaceExactly | crates/adj/src/env.rs:15 | White space is what has the Unicode property White_Space |
| DotenvLines.QuotesExactly | crates/adj/src/env.rs:37-48 | One pair of equal quotes around the whole value goes, and nothing else does |
| Dotenv.FoldSucceeds | crates/adj/src/env.rs:14-28 | A parse succeeds exactly when no line lacks `=` or a key |
| Dotenv.FoldMeaning | crates/adj/src/env.rs:12-35 | Each key has the value of the last line that sets it, and there are no other keys |
| Dotenv.ErrorIsFirst | crates/adj/src/env.rs:14-28 | The error names the first bad line by its number |
| Dotenv.RoundTrip | crates/adj/src/env.rs:12-48 | Rendering any map with canonical keys as quoted lines, in any order, and parsing it gives the map back, quotes stripped once |
| Dotenv.ChildEnv | crates/adj/src/supervisor.rs:193-215 | Each name has the daemon's own value if there is one, else the port if it is `port_env` or by default `PORT`, else the table's, else the env file's, else the inherited one, else none |
| Dotenv.AdjWins | crates/adj/src/supervisor.rs:208-215 | The daemon's own variables reach the child unchanged whatever the other layers hold |
| Control.ControlPlane.Add | crates/adj/src/daemon.rs:325-387 | Succeeds exactly when the checks pass, the key is free and load and save work; then one key is added, and the certificate is brought up to date exactly when there is a resolver and its reload gets through |
| Control.ControlPlane.Remove | crates/adj/src/daemon.rs:499-542 | Succeeds exactly when the name is registered and load and save work; only its row goes; its steps are a look, a stop if the app runs then, and a forget, and nothing else |
| Control.ControlPlane.Prune | crates/adj/src/daemon.rs:544-590 | Removes exactly the registered entries confirmed absent, in key order, taking each down in turn and doing nothing else; saves only when there are any |
| Control.EachTakenDown | crates/adj/src/daemon.rs:564-581 | Each name is looked at in its turn; if it runs its stop is begun then and there, it is forgotten after that, and right then it has no entry or it runs |
| Control.ControlPlane.StopAndForget | crates/adj/src/daemon.rs:513-532 | A running app's stop is begun first, then it is forgotten; afterwards it has no entry or it runs |
| Control.ControlPlane.SweepOnce | crates/adj/src/daemon.rs:261-308 | Every orphan among the candidates has an unconditional stop begun and is forgotten, every other candidate that is due a stop with its own window; the sweep takes no other step, on these apps or any other |
| Control.ControlPlane.Reap | crates/adj/src/daemon.rs:283-291 | A reap begins an unconditional stop and then forgets; the app has no entry afterwards or it runs |
| Agreement.AddAgrees | crates/adj/src/daemon.rs:318-387 | Run with nobody in between, the single steps of an add leave the registry the whole command leaves |
| Agreement.ReloadAgrees | crates/adj/src/tls.rs:169-177 | So do the steps of a reload, for the names served |
| Agreement.VisitAgrees | crates/adj/src/daemon.rs:276-308 | A sweep's single step on a candidate begins the stop the whole sweep begins, or none if that begins none |
| Agreement.TakeDownAgrees | crates/adj/src/daemon.rs:513-532 | A removal's look at a name begins a stop exactly when the whole command does |
| Agreement.RestartBoots | crates/adj/src/daemon.rs:446-477 | A restart of an app that is down boots it, with the checks of an `up` |
| Agreement.RestartStops | crates/adj/src/daemon.rs:446-477 | A restart of a running app stops it first and boots it once the stop sees it down; not if the stop gives up |
| Agreement.PollAgrees | crates/adj/src/proxy.rs:359-365 | A request's poll ends as a round of the readiness loop does: routed if ready, over if crashed or out of time, else on to the next |
| Agreement.BootAgrees | crates/adj/src/proxy.rs:350-357 | A request whose boot fails ends there; otherwise it goes on to poll |

## Left out

- HTTP forwarding, WebSocket tunnels, sockets and the real readiness probe: a probe is a truth value with a bounded duration.
- Process groups and signals: a child is an incarnation id; nothing is claimed about descendants or about the operating system's view of a process.
- Log writing and `started_at` stamps: the lifecycle does not depend on them, apart from a log file that fails to open.
- Keychain, X.509 and PEM, and the pairing of certificate and key files across a crash: a leaf is the list of names it carries.
- TOML and JSON, torn writes and hand-edited registries: loads and saves are whole, and only the daemon changes the file.
- Reading `adjacent.toml` beyond the checks on its name, and `parse_idle_timeout`: the idle window and the boot timeout are inputs.
- The number of polls in the daemon machine: a stop or a readiness wait goes on there for as long as the outside world says; the counts and times are in `FinishStop` and `WaitReady`.
- The certificate while HTTPS starts up: an add that lands before the resolver is published is covered only from the next change whose reload succeeds.
- Command and label detection, the CLI, status page, doctor, port forwarding and agent documents: user interface, or settled by reading one branch.
- Readiness.ServeQueue: takes the boot lock to be handed over first come first served with no gap, sleeps to be exact, and no boot to take longer than the boot timeout; tokio's scheduler is not modelled.
- Removal.ReapsBounded: counts sweeps that run to their end, load the registry and do not give up on the app; that a kill works is not something the daemon can promise.
- The files of the leaf certificate changing on disk other than by the daemon: the machine starts with none.
