# YAWF Stream: verified models of its protocols and algorithms

YAWF Stream is a media client and server: a Tauri desktop shell (Rust), a Node server (TypeScript), a
web front end and a native Swift app. This project models the parts of it that are hard to get right
and proves what they are for. Every module is one component:

- `ServerHost.dfy`: the desktop supervisor of the bundled server. A command thread and a monitor
  thread share a locked process slot and an atomic desired generation; a state machine takes one lock
  section, atomic load or atomic store at a time, and a class performs the same steps in place.
- `ResumableTransfer.dfy`: resumable downloads over a fixed remote body. Workers that were aborted
  can still land late writes; the buffered writer and the streaming loop are methods.
- `DownloadRegistry.dfy`: the registry of download and transcode jobs, with generations.
- `TranscodeSession.dfy`: the HLS transcode registry, interleaved at every await.
- `PlaybackProxy.dfy`: the accept loop, handlers, idle expiry and in-place reaping of the loopback
  proxy.
- `RateLimiter.dfy`: the swept, bounded fixed-window limiter beside an unbounded, never-swept one.
- `Base32.dfy`: base32 with an accumulator that overflows a 32-bit word.
- `Accounts.dfy`: accounts, roles, household profiles and invites, with every handler split at the
  await where it hashes a password.
- `MetadataBroker.dfy`: cache keys, and the cache with in-flight coalescing.
- `CalendarPool.dfy`: the six-worker pool over a shared index.
- `JsonScanner.dfy`: the string-aware scanner for the first JSON object in a text.
- `AddressGuard.dfy`: the IPv6 expander and the reserved-range tests.
- `CookieHeader.dfy`: the deterministic cookie selection.
- `Migrations.dfy`: crash-safe schema migrations.
- `FolderTree.dfy`: the folder tree and the breadcrumbs.

`Wrappers`, `Lexicographic`, `StableSort`, `Strings` and `FiniteSets` hold what several of them share.
Concurrent components are values with a `Step` and a `Run` over arbitrary traces; the main results
hold of every state a trace reaches from the start state. Where the source has an object whose fields
it updates, a class with those fields performs the steps, and each method's contract equates the new
contents with the step function applied to the old ones.

The code is followed where its comments say more than it does:

- A progress event that passed its check before a pause can still be emitted after it, and no
  other event of the paused worker can (`DownloadRegistry.ProgressAfterPauseExactly`,
  web/src-tauri/src/downloads.rs:146-164).
- Positioned writes keep a file uncorrupted only while no truncating start runs under a late write
  (`ResumableTransfer.TruncatingRestartCorrupts`, web/src-tauri/src/downloads.rs:539-554).
- Changing a transcode's fingerprint while a request waits for a kill can orphan an ffmpeg
  (`TranscodeSession.FingerprintChangeOrphans`, server/src/transcodeSession.ts:354-380).
- Enabling a disabled account through one of its other profiles leaves it unable to sign in
  (`Accounts.EnabledButLockedOut`, server/src/app.ts:2887-2899), and the last-owner check only ever
  stops the demotion of an owner who is disabled already (`Accounts.LastOwnerGuard`).
- Addresses such as fc::1, outside fc00::/7, are reported reserved
  (`AddressGuard.ShortGroupIsReported`, server/src/ssrf.ts:131-132).
- A quote before the object hides it from the scanner (`JsonScanner.LoneQuoteLoses`).

Assumptions: locks are not poisoned and threads do not panic, generations do not wrap at 64 bits,
hashes and random ids do not collide, transactions are atomic, and text is a sequence of
scalars. Clocks, random ids, probes, exits, timeouts, hash results and upstream answers are parameters
of the steps.

## Model

| member | source | states |
|---|---|---|
| ServerHost.AtMostOneServer | web/src-tauri/src/server_host.rs:462-600 | in every interleaving of commands, monitors and child exits at most one server process is alive and at most one monitor runs |
| ServerHost.StoppedMeansStartable | web/src-tauri/src/server_host.rs:670-677 | with no command under way and no monitor, nothing is alive and start gets past its guard |
| ServerHost.StopIsFinal | web/src-tauri/src/server_host.rs:750-767 | once stop has joined the monitor, the slot is empty, nothing is alive, and only later generations are ever launched, registered or supervised |
| ServerHost.CrashBurst | web/src-tauri/src/server_host.rs:515-597 | in every interleaving of commands, monitors and exits a monitor that confirms no port launches at most five replacements, fewer by those already launched in vain; once it has returned and no command runs, start is possible or a later start has succeeded |
| ServerHost.GivingUpStops | web/src-tauri/src/server_host.rs:519-531 | with no command given, a monitor that returns leaves nothing running and nothing desired, and start is possible |
| ServerHost.BurstAdvances | web/src-tauri/src/server_host.rs:470-597 | while its server keeps failing every monitor step but polling brings giving up nearer, and polling does not undo that |
| ServerHost.BurstEnds | web/src-tauri/src/server_host.rs:470-597 | so over any run a monitor that takes more such steps than its rank has returned, whatever commands and exits come between |
| ServerHost.JoinTerminates | web/src-tauri/src/server_host.rs:436-460 | once its generation is not desired, every step of a monitor is enabled and brings its return nearer |
| ServerHost.HealthyServerStays | web/src-tauri/src/server_host.rs:471-506 | over any run without its exit, a stop or a failed poll, a running registered server keeps running, registered and watched, whatever starts, status calls and other exits come |
| ServerHost.BrokenServerIsReplaced | web/src-tauri/src/server_host.rs:489-573 | after its exit or a failed poll, the monitor's own steps can register a newly launched server of the same generation, running and watched, with the budget full again |
| ServerHost.StartServes | web/src-tauri/src/server_host.rs:670-745 | from every stopped state the fourteen steps of a start that goes well register a new running server under a new generation, watched |
| ServerHost.StartFindsServer | web/src-tauri/src/server_host.rs:670-674 | a start that finds a running server reports it within five steps and changes nothing |
| ServerHost.FailedStartStops | web/src-tauri/src/server_host.rs:680-733 | a port in use, a failed launch and a port that never opens end start within three steps, with nothing running and start possible |
| ServerHost.StopAdvances | web/src-tauri/src/server_host.rs:754-766 | every step of stop gets it on, unless it waits for a monitor that is no longer desired |
| ServerHost.StopFinishes | web/src-tauri/src/server_host.rs:754-766 | so a stop under way can always finish, with nothing running and start possible |
| ServerHost.LockExcludes | web/src-tauri/src/server_host.rs:552-573 | while a monitor holds the slot lock nothing else changes the slot, and a command that needs the lock waits |
| ServerHost.StatusForgetsTheDead | web/src-tauri/src/server_host.rs:602-662 | asking for the status forgets exactly a registered server that has exited |
| ServerHost.RelaunchFails | web/src-tauri/src/server_host.rs:534-595 | a relaunch that fails launches nothing and keeps its attempt counted, and the back-off is waited out |
| ServerHost.ServerState.Prune | web/src-tauri/src/server_host.rs:70-80 | forgets a registered process exactly when it has exited |
| ServerHost.ServerState.Replace | web/src-tauri/src/server_host.rs:120-125 | storing into the slot kills the process it held |
| ServerHost.ServerState.PrepareTurn | web/src-tauri/src/server_host.rs:670-711 | start up to the new generation, one atomic step at a time |
| ServerHost.ServerState.LaunchTurn | web/src-tauri/src/server_host.rs:711-745 | start from the store of the generation on, with its two failure paths |
| ServerHost.ServerState.StopTurn | web/src-tauri/src/server_host.rs:754-766 | stop, one atomic step at a time |
| ServerHost.ServerState.WatchTurn | web/src-tauri/src/server_host.rs:470-547 | the supervising half of the monitor |
| ServerHost.ServerState.RespawnTurn | web/src-tauri/src/server_host.rs:549-597 | launching, checking under the lock, installing, waiting for the port |
| ResumableTransfer.StepExact | web/src-tauri/src/downloads.rs:539-554 | a step keeps every file a prefix of the body with no writer past its end if and only if it is not a truncating or overtaken open |
| ResumableTransfer.AlwaysAPrefix | web/src-tauri/src/downloads.rs:446-589 | over every run whose opens are safe the destination is a prefix of the body at every moment |
| ResumableTransfer.FinishMeansWhole | web/src-tauri/src/downloads.rs:561-588 | a transfer that reaches the end completes only over the whole body |
| ResumableTransfer.UnsatisfiedMeansWhole | web/src-tauri/src/downloads.rs:480-489 | the 416 shortcut means the whole body exactly when the file is there and has not shrunk since its length was read |
| ResumableTransfer.PauseResumeIsSafe | web/src-tauri/src/downloads.rs:301-353 | once bytes are on disk, any interleaving of pauses, resumes and late writes is safe |
| ResumableTransfer.PauseResumeCompletes | web/src-tauri/src/downloads.rs:323-353 | and both ways of completing leave the destination equal to the body, for every worker that was not already streaming into an unlinked file; that one leaves its own file equal to it |
| ResumableTransfer.StrayFinishesElsewhere | web/src-tauri/src/downloads.rs:561-588 | from the start there is a run after which such a worker can finish while the destination is not whole |
| ResumableTransfer.TruncatingRestartCorrupts | web/src-tauri/src/downloads.rs:539-545 | from the start there is a run in which a truncating start under a late write leaves a hole |
| ResumableTransfer.OpensExactly | web/src-tauri/src/downloads.rs:490-510 | a part opens the file exactly at the offset asked for, everything opens it at the start, and nothing else opens it |
| ResumableTransfer.EndsAtOnceExactly | web/src-tauri/src/downloads.rs:480-489 | only a 416 with the offset at the end of the body completes at once |
| ResumableTransfer.ResumeCompletes | web/src-tauri/src/downloads.rs:498-588 | from every good state a worker that asked for the rest and is given it completes over the whole body, whatever else is going on |
| ResumableTransfer.StartCompletes | web/src-tauri/src/downloads.rs:510-588 | and one that is given everything does, truncating what was there |
| ResumableTransfer.CompletesOnlyWhole | web/src-tauri/src/downloads.rs:555-588 | a stream completes only with the whole body in its file and nothing left to write |
| ResumableTransfer.BeginsAt | web/src-tauri/src/downloads.rs:324-352 | a resumption asks for what is not on disk yet, a fresh start for everything |
| ResumableTransfer.StoppedKeepsItsWrite | web/src-tauri/src/downloads.rs:547-550 | a stopped stream keeps only its write in flight, and a completed one stays completed |
| ResumableTransfer.DestinationWriter.WriteAll | web/src-tauri/src/downloads.rs:555-567 | buffering a chunk lands some prefix of what is pending and keeps the rest in order |
| ResumableTransfer.DestinationWriter.Flush | web/src-tauri/src/downloads.rs:573-587 | a flush lands all that is buffered at the cursor |
| ResumableTransfer.TransferDownload | web/src-tauri/src/downloads.rs:539-588 | whatever the chunks and flush points, the file is one positioned write of a prefix of what arrived, all of it on success |
| ResumableTransfer.TransferExtendsPrefix | web/src-tauri/src/downloads.rs:498-554 | resuming a prefix gives a longer prefix, and the body when the rest arrives |
| DownloadRegistry.OneTerminalEvent | web/src-tauri/src/downloads.rs:166-184 | each registration gets at most one terminal event, and one is emitted or owed once it is gone |
| DownloadRegistry.OwedByRemoval | web/src-tauri/src/downloads.rs:356-394 | a terminal event is owed only by the step that removed the entry |
| DownloadRegistry.WorkerRemovesItsOwn | web/src-tauri/src/downloads.rs:166-180 | a worker's completion removes only the running registration that spawned it |
| DownloadRegistry.StaleForever | web/src-tauri/src/downloads.rs:101-105 | a generation that is stale stays stale on every run |
| DownloadRegistry.PauseSilencesWorker | web/src-tauri/src/downloads.rs:302-321 | after a pause the paused worker's completion and progress checks do nothing |
| DownloadRegistry.ProgressAfterPause | web/src-tauri/src/downloads.rs:146-164 | from the start there is a run in which a progress event checked before the pause comes out after it |
| DownloadRegistry.ProgressAfterPauseExactly | web/src-tauri/src/downloads.rs:146-164 | after a pause some continuation brings out k more of the paused worker's progress events if and only if k of them had passed their check before it |
| DownloadRegistry.StaleProgressConserved | web/src-tauri/src/downloads.rs:151-163 | over any run the checked and the emitted events of a stale generation together stay as many |
| DownloadRegistry.EndedForGood | web/src-tauri/src/downloads.rs:356-394 | a cancel of the right kind, a forced stop and the worker's completion end the job for good: on every later run its registration is gone, exactly one terminal event of it is owed or out, and its worker can neither complete nor pass a check |
| DownloadRegistry.OwedIsPaid | web/src-tauri/src/downloads.rs:182-184 | an owed terminal event can come out, once |
| DownloadRegistry.RunningAfter | web/src-tauri/src/downloads.rs:324-352 | an insertion and a resumption leave the job running under a fresh generation with a worker of its own |
| DownloadRegistry.PausedStays | web/src-tauri/src/downloads.rs:302-321 | a paused job stays under its registration and can be resumed |
| DownloadRegistry.RunningGetsThrough | web/src-tauri/src/downloads.rs:146-184 | a running job's worker gets its progress and its completion through |
| DownloadRegistry.RefusedChangesNothing | web/src-tauri/src/downloads.rs:303-335 | a request for the wrong kind or for no job changes nothing |
| DownloadRegistry.DownloadsState.Generation | web/src-tauri/src/downloads.rs:101-105 | hands out the next number |
| DownloadRegistry.DownloadsState.DrawGeneration | web/src-tauri/src/downloads.rs:259 | an insertion fetches its generation before it takes the lock |
| DownloadRegistry.DownloadsState.InsertJob | web/src-tauri/src/downloads.rs:261-275 | under the lock, registers a job under the generation fetched before, or refuses a taken id |
| DownloadRegistry.DownloadsState.DownloadPause | web/src-tauri/src/downloads.rs:302-321 | pausing renumbers the job and takes its abort handle; the refusals and no-ops |
| DownloadRegistry.DownloadsState.DownloadResume | web/src-tauri/src/downloads.rs:324-347 | resuming renumbers a paused job; the refusals |
| DownloadRegistry.DownloadsState.TakeCanceled | web/src-tauri/src/downloads.rs:361-371 | canceling takes the entry out only when it is of the right kind |
| DownloadRegistry.DownloadsState.TakeForced | web/src-tauri/src/downloads.rs:1062-1068 | a forced stop takes out whatever is there |
| DownloadRegistry.DownloadsState.FinishCurrent | web/src-tauri/src/downloads.rs:166-181 | the entry goes exactly when the generation is current |
| DownloadRegistry.DownloadsState.ProgressIsCurrent | web/src-tauri/src/downloads.rs:151-160 | the check made under the lock |
| TranscodeSession.CapRespected | server/src/transcodeSession.ts:388-393 | sessions registered or being created never exceed the cap |
| TranscodeSession.OneCreationPerSession | server/src/transcodeSession.ts:360-380 | each session has at most one creation in flight |
| TranscodeSession.RightDirectory | server/src/transcodeSession.ts:341-380 | every directory returned was made for exactly the fingerprint asked for |
| TranscodeSession.OrphanExact | server/src/transcodeSession.ts:425-434 | a step orphans an ffmpeg exactly when it registers over a job still registered |
| TranscodeSession.UniformSessionHasNoOrphans | server/src/transcodeSession.ts:289-328 | with one fingerprint per session, every unsignalled ffmpeg is its registered job's child |
| TranscodeSession.ProcessCap | server/src/transcodeSession.ts:388-393 | and then no more ffmpegs than the cap are unsignalled |
| TranscodeSession.FingerprintChangeOrphans | server/src/transcodeSession.ts:359-361 | from the start there is a run in which a changed fingerprint orphans an ffmpeg |
| TranscodeSession.ThrowsOnlyOnFailure | server/src/transcodeSession.ts:341-380 | a request rejects only if some creation for its session and fingerprint was refused or failed |
| TranscodeSession.JoinedIsAnswered | server/src/transcodeSession.ts:361-379 | over any run a request that joined a creation waits for it or has what it ended with, and gets that once it is done |
| TranscodeSession.ServedExactly | server/src/transcodeSession.ts:382-453 | a session without a job or creation is served, with a directory made for its fingerprint and its child registered, exactly when there is room |
| TranscodeSession.FirstRequestServed | server/src/transcodeSession.ts:341-380 | so the first request is, whenever any transcode is allowed |
| TranscodeSession.RequestsGetOn | server/src/transcodeSession.ts:354-369 | a request reuses the session's job, kills one of another fingerprint, or attends the session's creation, when it comes and whenever what it waited for is over |
| TranscodeSession.CreationAdvances | server/src/transcodeSession.ts:395-465 | whatever a creation waits for brings it nearer to its end, and a failed or late start takes the job out and signals its child |
| TranscodeSession.FailureIsNoticed | server/src/transcodeSession.ts:441-462 | a child that fails before its job is ready ends the creation at the next poll |
| TranscodeSession.ReapLeavesNothing | server/src/transcodeSession.ts:289-314 | reaping a session with one fingerprint leaves it no job and no unsignalled ffmpeg |
| TranscodeSession.TranscodeRegistry.EnsureJob | server/src/transcodeSession.ts:341-359 | a request up to its first await |
| TranscodeSession.TranscodeRegistry.Continue | server/src/transcodeSession.ts:360-379 | coalescing, waiting out another fingerprint, or creating |
| TranscodeSession.TranscodeRegistry.CreateJob | server/src/transcodeSession.ts:382-396 | the cap check, and the pending entry |
| TranscodeSession.TranscodeRegistry.SpawnHls | server/src/transcodeSession.ts:414-434 | spawning and registering, or cleaning up |
| TranscodeSession.TranscodeRegistry.PollReady | server/src/transcodeSession.ts:451-464 | readiness, early exit and the start timeout |
| TranscodeSession.TranscodeRegistry.Signal | server/src/transcodeSession.ts:305-314 | kill forgets the job and signals its child |
| TranscodeSession.TranscodeRegistry.Forget | server/src/transcodeSession.ts:375-377 | the pending entry goes when its creation settles |
| PlaybackProxy.AtMostEightHandlers | web/src-tauri/src/playback_proxy.rs:152-178 | never more than eight live handlers |
| PlaybackProxy.NeverIdleTooSoon | web/src-tauri/src/playback_proxy.rs:220-233 | an idle stop comes with no handler live and no sooner than the timeout after any handler's end |
| PlaybackProxy.JoinsEveryHandlerOnce | web/src-tauri/src/playback_proxy.rs:133-197 | on exit every accepted handler was joined exactly once |
| PlaybackProxy.CancelledAdmitsNoMore | web/src-tauri/src/playback_proxy.rs:140-143 | once the lease is cancelled at most one more handler is ever spawned, and only one already being admitted |
| PlaybackProxy.DueAdvances | web/src-tauri/src/playback_proxy.rs:133-193 | once the loop is due to be left, every step of the accept thread brings it nearer |
| PlaybackProxy.DueIsLeft | web/src-tauri/src/playback_proxy.rs:220-233 | so it is left within ten of its steps of the cancellation, of the end of the lifetime, or of the idle timeout with no handler live |
| PlaybackProxy.BecomesDue | web/src-tauri/src/playback_proxy.rs:220-233 | cancelling the lease, the lifetime passing, and the idle timeout passing with no handler live make it due |
| PlaybackProxy.LeftForCause | web/src-tauri/src/playback_proxy.rs:136-192 | it is left as cancelled, for its lifetime or for its listener only after that happened |
| PlaybackProxy.DrainingIsCancelled | web/src-tauri/src/playback_proxy.rs:194-197 | whatever it was left for, the flag the handlers watch is set before any of them is joined |
| PlaybackProxy.LeftLoopExits | web/src-tauri/src/playback_proxy.rs:194-197 | a loop that was left can always finish its joins and exit |
| PlaybackProxy.ServedExactly | web/src-tauri/src/playback_proxy.rs:139-178 | a connection gets a handler exactly when the lease holds, its socket can be set up and fewer than eight are active |
| PlaybackProxy.Transfers.SwapRemove | web/src-tauri/src/playback_proxy.rs:212 | takes out one element and keeps all the others |
| PlaybackProxy.Transfers.ReapFinished | web/src-tauri/src/playback_proxy.rs:208-218 | each handle is kept or joined once, only finished ones are joined, and none finished at the start is missed |
| RateLimiter.TableBounded | server/src/app.ts:527-538 | the table never exceeds 20,000 entries on any trace |
| RateLimiter.SameDecisions | server/src/app.ts:505-547 | with non-decreasing time and no eviction it decides as the unbounded, never-swept limiter |
| RateLimiter.AtMostTwiceTheLimit | server/src/app.ts:526-545 | a key with constant limit and window is let through at most twice its limit in a window-long interval |
| RateLimiter.TwiceIsReached | server/src/app.ts:526-545 | and for every limit and window the limiter reaches that factor, from its start |
| RateLimiter.BudgetStep | server/src/app.ts:526-545 | each admitted request uses up one unit of what an interval has left |
| RateLimiter.SweepsWhenDue | server/src/app.ts:513-523 | a call more than a minute after the last sweep leaves only live buckets, and a sooner one drops none |
| RateLimiter.EvictsOldest | server/src/app.ts:527-538 | a new key that finds the table full drops the two thousand oldest keys and no other |
| RateLimiter.Limiter.DropExpired | server/src/app.ts:519-521 | the sweep loop leaves exactly the live buckets, in order |
| RateLimiter.Limiter.DropOldest | server/src/app.ts:531-536 | the eviction loop removes the oldest tenth |
| RateLimiter.Limiter.Check | server/src/app.ts:508-546 | one call, with the new table and the decision |
| Base32.Encode | server/src/app.ts:2095-2109 | the encoder loop computes the unpadded encoding of section 6 of RFC 4648 |
| Base32.Decode | server/src/app.ts:2111-2126 | the decoder loop computes the whole octets of the symbols' bits, or fails on a foreign character, after upper-casing with every letter outside ASCII that lands in the alphabet |
| Base32.RoundTrip | server/src/app.ts:2093-2126 | decoding any spelling of an encoding returns the bytes; the encoding has ceil(8n/5) symbols |
| Base32.EncodingRoundTrip | server/src/app.ts:2093-2126 | in particular decoding the encoding itself does |
| Base32.AnyCaseRoundTrip | server/src/app.ts:2112 | and so does decoding it with its letters in any mixture of cases, padded or not |
| Base32.ForeignUpperCases | server/src/app.ts:2112 | the characters outside ASCII that upper-case into the alphabet |
| Base32.AlphabetIsRfc | server/src/app.ts:2093 | the alphabet is table 3 of section 6 of RFC 4648 |
| Base32.PushBits | server/src/app.ts:2100 | truncating the accumulator to 32 bits loses nothing pending |
| Base32.PopBits | server/src/app.ts:2103 | shifting and masking takes the first pending bits |
| Accounts.AlwaysALiveOwner | server/src/app.ts:2908-2951 | once there is an account, some enabled owner has a live default profile and can sign in |
| Accounts.OneDefaultProfile | server/src/app.ts:828-887 | every account has exactly one default profile, and usernames are distinct up to case |
| Accounts.InviteAccounting | server/src/app.ts:2488-2524 | used_count is the number of accounts made through the invite and never passes max_uses, despite the check before hashing |
| Accounts.OneSetup | server/src/app.ts:2291-2315 | however first-run calls race, one account came from owner setup |
| Accounts.AccountsStay | server/src/app.ts:828-887 | an account never disappears, and keeps its name and origin |
| Accounts.RoleChangesGuarded | server/src/app.ts:2908-2951 | a role changes only by an administrator on another account, and by an owner when the owner or administrator tier is involved |
| Accounts.DisablingGuarded | server/src/app.ts:2888-2899 | an account is disabled or enabled only by an administrator, and never an owner's |
| Accounts.AdminGrantsGuarded | server/src/app.ts:3391-3398 | administrator invites and creations are an owner's |
| Accounts.NewAccountRole | server/src/app.ts:2821-2846 | a new account has the role of what it was made through, an owner's only by setup |
| Accounts.LastOwnerGuard | server/src/app.ts:2935-2942 | the last-owner refusal happens exactly when the target is disabled and the actor is the only enabled owner |
| Accounts.RemoveExact | server/src/app.ts:3136-3154 | removing a profile succeeds exactly for a live, owned, non-default one, so the remaining-profile check never fires |
| Accounts.EnablingSuffices | server/src/app.ts:2887-2899 | enabling through a profile lets the account sign in exactly when that profile is the default or the default is live |
| Accounts.EnabledButLockedOut | server/src/app.ts:2953-2972 | disabling and enabling through another profile locks the account out |
| Accounts.RoleChangeExact | server/src/app.ts:2908-2951 | a role change succeeds exactly when it may be made, sets the role asked for and nothing else, and every session of the account acts under it from then on |
| Accounts.ChosenProfile | server/src/app.ts:1085-1120 | a session acts as the profile it chose while that is its account's and not disabled, and otherwise as the default |
| Accounts.DisablingLocksOut | server/src/app.ts:2953-2972 | disabling succeeds exactly for an administrator on a non-owner, and locks out every session of the account and no other |
| Accounts.BegunExactly | server/src/app.ts:2456-2486 | which requests to set up, accept, create or add are taken on, and what is remembered of them |
| Accounts.CommittedExactly | server/src/app.ts:828-887 | a waiting request commits exactly when what it needs still holds, and the account it makes can sign in at once |
| Accounts.RefusalStatuses | server/src/app.ts:2859-2874 | the statuses that tell a taken name from a lost race, and a foreign profile from a missing one |
| Accounts.InviteServes | server/src/app.ts:2456-2526 | a usable invite makes an account of its role under a free name, which can sign in, and is counted |
| Accounts.RevokedForGood | server/src/app.ts:2500-2510 | a revoked invite makes no further account on any run, even for a request already waiting |
| Accounts.MintedExactly | server/src/app.ts:3391-3453 | exactly when an invite is minted or revoked, and what it then is |
| Accounts.ProfileEdits | server/src/app.ts:3110-3175 | a removed profile is gone and no other, and a profile made a kid's can manage nothing |
| Accounts.AccountStore.Authenticate | server/src/app.ts:1069-1120 | the session query and its fallback to the default profile |
| Accounts.AccountStore.Create | server/src/app.ts:828-887 | the two inserts, or the refusal of a taken name |
| Accounts.AccountStore.Accept | server/src/app.ts:2488-2524 | the transaction that looks at the invite again |
| Accounts.AccountStore.SetDisabled | server/src/app.ts:2857-2899 | the disabling part of the profile edit, with its refusals in order |
| Accounts.AccountStore.ChangeRole | server/src/app.ts:2908-2951 | the role change with its refusals in order |
| Accounts.AccountStore.Remove | server/src/app.ts:3136-3175 | removing a household profile |
| MetadataBroker.SameKeyExactly | server/src/metadata-runtime.js:48-55 | two URLs share a cache key exactly when they differ only in the API key and the order of differently named parameters |
| MetadataBroker.TtlIsDocumented | server/src/metadata-runtime.js:21-46 | for every URL the time to live is that of its path's kind, told from the segments of the path |
| MetadataBroker.AtMostOneOutstanding | server/src/metadata-runtime.js:121-147 | at most one upstream request per key is outstanding |
| MetadataBroker.EveryAnswerJustified | server/src/metadata-runtime.js:121-147 | every answer is an upstream outcome for its key, settled during the call or within its time to live |
| MetadataBroker.OnlySmallSuccessesStored | server/src/metadata-runtime.js:91-119 | stored rows are 2xx within 2,000,000 UTF-8 bytes and expire after the key's time to live |
| MetadataBroker.ByteLengthAppend | server/src/metadata-runtime.js:93 | a text's length is the sum of the bytes of its characters |
| MetadataBroker.CharBytesIsUtf8 | server/src/metadata-runtime.js:93 | which are those of section 3 of RFC 3629 |
| MetadataBroker.TimePasses | server/src/metadata-runtime.js:76-82 | the clock moves on unless something settled is still to be handed on |
| MetadataBroker.StoringSweeps | server/src/metadata-runtime.js:96-118 | storing drops exactly the expired rows and leaves other keys alone |
| MetadataBroker.JoinsOutstanding | server/src/metadata-runtime.js:130-132 | a caller that finds its key outstanding waits for that request |
| MetadataBroker.SharedOutcome | server/src/metadata-runtime.js:130-146 | callers of one key whose requests are outstanding together get one outcome |
| MetadataBroker.StoredIsServed | server/src/metadata-runtime.js:75-132 | over any run, a stored success answers every new call for its key at once until its time to live is over or another is stored |
| MetadataBroker.MissWaits | server/src/metadata-runtime.js:126-147 | a call nothing live answers waits for an upstream request for its key, its own if none is out |
| MetadataBroker.WaitingIsAnswered | server/src/metadata-runtime.js:130-147 | a waiting caller gets what its request settled with |
| MetadataBroker.UncachedPassesThrough | server/src/metadata-runtime.js:122-124 | a call that may not be cached gets its own upstream answer |
| MetadataBroker.Broker.ReadMetadataCache | server/src/metadata-runtime.js:75-89 | a row only while it is live |
| MetadataBroker.Broker.StoreMetadataCache | server/src/metadata-runtime.js:91-119 | the guards, the sweep and the upsert |
| MetadataBroker.Broker.Fetch | server/src/metadata-runtime.js:122-140 | a call up to its first await; an uncached URL goes straight upstream |
| MetadataBroker.Broker.Return | server/src/metadata-runtime.js:124 | upstream's answer to such a call goes to its caller alone and is not stored |
| MetadataBroker.Broker.Finish | server/src/metadata-runtime.js:141-145 | the leader takes the entry out and answers |
| CalendarPool.DistinctExact | server/src/metadata-runtime.js:386-394 | the filter keeps each series id once and nothing else |
| CalendarPool.DistinctSeries | server/src/metadata-runtime.js:386-394 | the loop over the set of seen ids computes that filter |
| CalendarPool.RunWorkers | server/src/metadata-runtime.js:395-407 | under every schedule each index is processed once, six at most are in flight, and every result lands in its slot |
| CalendarPool.GetUpcomingEpisodesForSeries | server/src/metadata-runtime.js:385-409 | the result equals the sequential filter, map, concatenation and stable sort |
| StableSort.SortIsStable | server/src/metadata-runtime.js:408 | elements with equal keys keep their order |
| StableSort.SortedUnique | server/src/metadata-runtime.js:408 | and only one order is sorted and stable |
| JsonScanner.FirstBalancedJSONObject | Sources/DebridStreamer/Models/AIAffinityVerdict.swift:147-180 | the loop returns the span the scanner function finds |
| JsonScanner.FoundExactly | Sources/DebridStreamer/Models/AIAffinityVerdict.swift:147-180 | a printed object is what is found if and only if the text before it leaves the scanner idle |
| JsonScanner.PrintedObjectIsFound | Sources/DebridStreamer/Models/AIAffinityVerdict.swift:147-180 | so it is after any text without quotes or opening braces and before any text, for every object with the escaping of section 7 of RFC 8259 |
| JsonScanner.LoneQuoteLoses | Sources/DebridStreamer/Models/AIAffinityVerdict.swift:160-162 | a lone quote before the object loses it |
| JsonScanner.FoundIsStable | Sources/DebridStreamer/Models/AIAffinityVerdict.swift:165-172 | what is found in any text runs from brace to brace and is found again whole by itself |
| AddressGuard.Ipv4ToInt | server/src/ssrf.ts:31-42 | the 32-bit loop computes the dotted value, or fails |
| AddressGuard.ReservedV4Exact | server/src/ssrf.ts:44-67 | the mask tests are the interval rules, and unparsable text is reserved |
| AddressGuard.DottedReads | server/src/ssrf.ts:124-126 | the dotted text of a 32-bit value reads back as it |
| AddressGuard.ParseGroups | server/src/ssrf.ts:87-95 | the loop over colon-separated groups |
| AddressGuard.ExpandsEverySpelling | server/src/ssrf.ts:72-105 | every legal spelling of eight hextets under section 2.2 of RFC 4291, with its compressed run, dotted tail, letter case and zone, expands to them |
| AddressGuard.GroupsInAnyCase | server/src/ssrf.ts:87-95 | groups are one to four hex digits in either case, each with its own value |
| AddressGuard.ExpandedIsWhole | server/src/ssrf.ts:80-105 | whatever text is expanded gives eight hextets and holds at most one compressed run |
| AddressGuard.EmbeddedV4Exact | server/src/ssrf.ts:115-127 | every spelling in ::/96 or ::ffff:0:0/96 is judged by the IPv4 intervals on its low 32 bits |
| AddressGuard.ReservedV6Exact | server/src/ssrf.ts:107-134 | any other spelling is reported exactly when its first hextet is local or its short first group merely looks so |
| AddressGuard.LocalIsReported | server/src/ssrf.ts:129-132 | every spelling in fe80::/10 or fc00::/7 is reported |
| AddressGuard.ShortGroupIsReported | server/src/ssrf.ts:131-132 | fc::1 is reported though it lies outside |
| CookieHeader.PathMatchesIsRfc | web/src-tauri/src/playback_auth.rs:168-179 | the code matches exactly the absolute paths of section 5.1.4 of RFC 6265 |
| CookieHeader.SelectedIsBest | web/src-tauri/src/playback_auth.rs:211-235 | each allowed name carries the safe, matching value with the longest path, ties by path then value |
| CookieHeader.LongestPathWins | web/src-tauri/src/playback_auth.rs:211-235 | no usable cookie of a name has a longer path than the one sent, nor as long a path with a smaller path or value |
| CookieHeader.SafeByteIsRfc | web/src-tauri/src/playback_auth.rs:155-166 | values are made of the cookie-octets of section 4.1.1 of RFC 6265 |
| CookieHeader.SessionExactly | web/src-tauri/src/playback_auth.rs:188-203 | a session value is an id of 32 lower-case hex digits and a token of 43 URL-safe characters |
| CookieHeader.OrderIrrelevant | web/src-tauri/src/playback_auth.rs:205-262 | the header depends only on the set of cookies offered |
| CookieHeader.HeaderReadsBack | web/src-tauri/src/playback_auth.rs:246-261 | the line keeps within 8,192 bytes and splits back into the selected pairs in order |
| CookieHeader.NoHeader | web/src-tauri/src/playback_auth.rs:237-262 | exactly when there is no header |
| CookieHeader.CookieHeaderForNames | web/src-tauri/src/playback_auth.rs:205-236 | the selection loop over the vector |
| CookieHeader.Render | web/src-tauri/src/playback_auth.rs:237-262 | the header loop with its early refusals |
| Migrations.AlwaysAPrefix | server/src/db.ts:219-259 | over any launches of any releases, failing or dying anywhere, the versions are a prefix of the list and the schema is its fold |
| Migrations.CommittedOnce | server/src/db.ts:239-253 | no migration commits twice |
| Migrations.FinishingGivesTheFold | server/src/db.ts:219-259 | a launch that finishes leaves the file one uninterrupted upgrade leaves |
| Migrations.LaunchHolds | server/src/db.ts:227-237 | a release refuses exactly the files newer than it, unchanged, and otherwise only moves forward |
| Migrations.RecoversExactly | server/src/db.ts:239-253 | after any history an undisturbed launch finishes exactly when the whole list applies |
| Migrations.Database.Migrate | server/src/db.ts:219-259 | the loop with its transactions, rollbacks and local set of applied versions |
| FolderTree.Index | Sources/DebridStreamer/ViewModels/LibraryViewModel.swift:209-214 | the loop builds the last folder of each id and the children of each parent in table order |
| FolderTree.PlacedExactlyOnce | Sources/DebridStreamer/ViewModels/LibraryViewModel.swift:224-232 | the recursion ends, each folder whose parents reach the root is placed once, and no other, whatever the cycles elsewhere and the sibling order |
| FolderTree.ForestLeavesOutRoot | Sources/DebridStreamer/ViewModels/LibraryViewModel.swift:228-229 | the forest shown with folder support leaves out the root alone |
| FolderTree.ReturningNeverEnds | Sources/DebridStreamer/ViewModels/LibraryViewModel.swift:224-227 | a root below itself has chains of every length, so the recursion would not end |
| FolderTree.BreadcrumbsFor | Sources/DebridStreamer/ViewModels/LibraryViewModel.swift:249-262 | the loop ends on every table and repeats no folder |
| FolderTree.BreadcrumbsAreTheTreePath | Sources/DebridStreamer/ViewModels/LibraryViewModel.swift:249-262 | for a placed folder the breadcrumbs are the tree path from the root |

## Left out

- ServerHost.ServerState.WatchTurn: the monitor's nested loops appear as positions of a thread, because a step is one atomic action between arbitrary others; log lines, the back-off lengths and a poisoned lock are not modelled.
- ServerHost.StopFinishes: says that stop can finish; that the scheduler lets every thread run is not modelled, and neither it nor PlaybackProxy.LeftLoopExits assumes it.
- ResumableTransfer.AlwaysAPrefix: the remote body is fixed and ranges are honoured; a body that changes between requests is not modelled.
- MetadataBroker.EveryAnswerJustified: the clock moves only between turns of the event loop, so an outcome joined after it settled and before its entry is removed counts as settled during the call.
- AddressGuard.ExpandsEverySpelling: speaks of legal spellings; the platform's own check of what is an address is not part of this model.
- CookieHeader.HeaderReadsBack: needs allowed names without separators, which the fixed lists of names are.
- FolderTree.PlacedExactlyOnce: sibling order is arbitrary, since comparing names is the platform's; ids are unique and the root is in the table, as the database makes them.
- Accounts: session rows with their expiry and tokens, passwords, TOTP, PINs, display names, audit text and summaries; a request carries any user id and active-profile pointer.
- TranscodeSession: the database column naming a session's directory, which a late kill may clear for a newer job.
- PlaybackProxy: request parsing, relaying and retries.
- The per-series season and episode filtering of the calendar, which works on one series at a time.
- Networking, TLS, processes, players, cryptography, screens, the database lock file and audit pruning.
