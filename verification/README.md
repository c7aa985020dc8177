# Verified models of the fairpeer desktop core

Dafny models of the stateful parts of the desktop shell, each proved against a specification.
Objects that the program updates in place are classes whose methods are proved equal to a
specification function of the old state; code that runs on several goroutines is, in addition,
a transition system whose theorems hold along every interleaving.

| module | models |
|---|---|
| `BotBridge`, `BotBridgeProtocol` | the IM bridge hub: watchers, pending prompts, bounded queue, two mutexes |
| `MigrateProfile`, `SidecarMerge`, `WholeMigration` | the one-time move of session files into profile partitions, the sidecar merge, all directories in turn with the marker that ends it, the repair of tab paths |
| `MediaTokens` | the media-token cache: time to live, capacity, a map and a queue that drift apart |
| `SharedHost` | controllers sharing one reference-counted plugin host per root |
| `ServerOrder`, `StableSort` | the server display order and the order remembered for it |
| `Utf8Cut` | cutting UTF-8 text at a byte position (section 4 of RFC 3629) |
| `TrialGate`, `TrialGateProtocol`, `TrialRun` | the single-slot gate of trial runs, its signal channels, and one trial run |
| `LoopEngine` | the supervised agent loop with its stop signal and report |
| `Metrics`, `MetricsProtocol` | usage counters in memory, pending file, sending file and delivery |
| `ExpertStream` | the live-stream cache of an expert run |
| `Dotenv` | removing a key from an env file against listing its keys |
| `HooksSettings` | saving and loading hook settings |
| `GoStrings` | the string operations used above |

`dafny verify dfyconfig.toml` checks everything.

## Findings

Places where a stated intention does not hold as such. The code is modelled as it is, a failing case is
given, and the exact condition under which the intention holds is proved.

- A partial migration is documented to be completed correctly by the next launch. A launch does nothing once the
  marker is written, and writes it at its end whatever failed. So the next launch ends with the disk that an
  undisturbed one would have made if and only if (`WholeMigration.NextLaunchIff`) either the marker was written
  and nothing is left to do, or it was not and no session of a partition other than dev is separated from its
  `.meta` or from a companion. A failed rename followed by the marker is never made up for
  (`WholeMigration.MarkerBuriesFailure`); a stop right after the first rename separates session and `.meta` even
  when all destinations are free (`MigrateProfile.StopSplitsSession`). After a complete launch the next one changes
  nothing if and only if the marker was written or no session of a project had found its own place taken while
  dev was free and its `.meta` could move (`WholeMigration.SecondLaunchIff`, `WholeMigration.StrandedUnlessMarked`).
- The documentation of the migration names `sessions/dev` as the global dev partition; `SessionDirFor` returns
  the flat `sessions` directory, so global dev sessions stay where they are. The model follows the code.
- A legacy sidecar that could not be removed is documented to be re-merged harmlessly. An edit of the dev variant
  survives the next launch if and only if the marker was written or the edit agrees with every legacy entry
  (`WholeMigration.LingeringLegacyNextLaunch`, `SidecarMerge.LingeringLegacyHarmlessIff`).
- The sidecar merge is documented to fail on a read failure and to leave both files untouched. A file that is there
  and cannot be read counts as empty: an unreadable legacy file is removed, an unreadable dev variant overwritten.
  Every entry survives with its value if and only if the pair is not merged, or the other file also has what the
  unreadable one holds (`SidecarMerge.EntriesKeptIff`, `SidecarMerge.UnreadableLost`); nothing is lost where both
  can be read (`SidecarMerge.ReadableKept`).
- The migration is documented to log failures without aborting. The sidecar merge panics if and only if some dev
  variant holds the JSON value null beside a legacy file with entries, which are then assigned to a nil map
  (`SidecarMerge.SidecarDisk.MigrateTopicSidecarsByMerge`, `SidecarMerge.NullDevPanics`). The marker is then not
  written, and the next launch panics again (`WholeMigration.Installation.MigrateToProfilePartition`).
- Removing a key from an env file removes it from the listing if and only if it is not a listed key starting
  with `#`; such keys are listed for `export`, two blanks and a commented assignment
  (`Dotenv.RemovalExactIff`, `Dotenv.CommentedOut`, `Dotenv.CommentExample`).
- Metric counters are conserved if and only if every write of the pending file finds the counts it read
  (`MetricsProtocol.ConservedIff`), so always when reading and writing it is one step
  (`MetricsProtocol.AtomicFilesConserve`). Otherwise counts get lost when two goroutines both read before either
  writes, and are counted twice when a flush comes between a read and its write
  (`MetricsProtocol.CountsGetLost`, `MetricsProtocol.CountsGetDoubled`, both runs from the start).
- The note on a finished loop speaks of consecutive clean scans. The queue counts as empty if and only if the last
  two scans that ran at all were clean; they are consecutive rounds if and only if the sensor of the round before
  the last did not fail (`LoopEngine.EmptyQueueIff`, `LoopEngine.ConsecutiveIff`, `LoopEngine.FailedScanBetween`).
- `LoopStop` is documented to let the current round be verified. With verification the round of the signal is
  recorded as skipped if and only if its scan found the queue empty or the signal came before the engine's last look
  before the end of the turn (`LoopEngine.StopInRound`); a signal during the first turn always has that effect
  (`LoopEngine.StopCutsFirstRound`, and `LoopEngine.StoppedRoundIsSkipped`, which is such a run).
- The crash-report cut is documented never to emit invalid UTF-8. Reports that arrive through the desktop binding
  are decoded from JSON and therefore valid, and what is sent of a valid report is valid
  (`Utf8Cut.TextIsCutToText`). The function itself does not ensure it for every argument: what it emits of an
  over-long report is valid if and only if the report is valid up to some position from which only tail bytes
  follow until the limit (`Utf8Cut.CutIsTextIff`), which excludes one that begins with a byte of no character
  (`Utf8Cut.CutKeepsForeignBytes`).
- At the very instant of expiry a media token is served until a cleanup runs: `get` compares with "after",
  the cleanup with "not before" (`MediaTokens.ServedExactly`).

## Model

| member | source | states |
|---|---|---|
| BotBridge.Hub.constructor | desktop/bot_bridge.go:65-79 | the watchers are the initial routes by key, of several with one key the last; nothing pending or queued |
| BotBridge.Hub.Observe | desktop/bot_bridge.go:87-132 | a prompt is registered under its id for its tab; the end of a turn leaves exactly the prompts of other tabs, as they were; at most one notification is queued, with the texts of the event, only while someone watches and fewer than 64 wait, and never for a canceled turn |
| BotBridge.CanceledIff | desktop/bot_bridge.go:114-116 | a turn is canceled iff the text of its error contains "context canceled" |
| BotBridge.Hub.ClearTabPending | desktop/bot_bridge.go:134-142 | an id is pending afterwards iff it was pending for another tab, with the same prompt, in whatever order the map is visited |
| BotBridge.Hub.SetWatch | desktop/bot_bridge.go:260-279 | afterwards the key is watched iff that was asked, all other routes are as before and a route watched already stays; reports a change exactly when the set changed |
| BotBridge.KeysApart | internal/bot/desktop.go:38-41 | routes have equal keys iff they are equal, where platform and chat type are free of the separator |
| BotBridge.Hub.Snapshot | desktop/bot_bridge.go:286-291 | lists every watcher exactly once, whatever order the map yields |
| BotBridge.Hub.Take | desktop/bot_bridge.go:295-337 | an approval or answer consumes the prompt with its id, an absent id consumes nothing |
| BotBridgeProtocol.DiskInvHolds | desktop/bot_bridge.go:260-293 | the persistence invariant holds in every state of every interleaving |
| BotBridgeProtocol.DiskNeverGoesBack | desktop/bot_bridge.go:281-293 | along every execution, failing writes included, the version on disk only grows and the disk holds a watcher set that once was current |
| BotBridgeProtocol.QuiescentDiskIsCurrent | desktop/bot_bridge.go:281-293 | when no call is between its change and the end of its write and the last write succeeded, disk and memory agree |
| BotBridgeProtocol.ToggleIsAtomic | desktop/bot_bridge.go:260-275 | test and change are separate steps yet amount to the sequential toggle |
| BotBridgeProtocol.OnePlaceStep | desktop/bot_bridge.go:87-142 | every step keeps each registration in exactly one place: pending, with one goroutine, or gone |
| BotBridgeProtocol.PromptInvHolds | desktop/bot_bridge.go:87-142 | the prompt invariant holds in every state of every interleaving |
| BotBridgeProtocol.ForwardedAtMostOnce | desktop/bot_bridge.go:295-337 | a registration is forwarded at most once, under its own id, to the tab that registered it, and never after being cleared or overwritten |
| BotBridgeProtocol.PromptsConserved | desktop/bot_bridge.go:87-142 | registrations = forwarded + cleared + overwritten + on their way + pending, for every id in every state |
| BotBridgeProtocol.QueueIsFifo | desktop/bot_bridge.go:144-163 | the worker takes the accepted notifications in order and the queue never exceeds 64 |
| BotBridgeProtocol.ExitHasCause | desktop/bot_bridge.go:134-142 | along every execution a prompt is cleared only by the end of a turn of its own tab, overwritten only by an event with its id, and a forwarded decision is the one of the call made on its id |
| BotBridgeProtocol.NoneLeftAfterTurn | desktop/bot_bridge.go:134-142 | when the goroutine of an ended turn goes on, no prompt of that tab is pending |
| BotBridgeProtocol.PendingUntilCause | desktop/bot_bridge.go:87-142 | a pending prompt stays as it is until a turn of its tab ends, its id is registered again or a decision on it arrives |
| BotBridgeProtocol.RegisteredByEvent | desktop/bot_bridge.go:90-113 | registrations are exactly those of events with an id, for the event's tab and with its texts |
| BotBridgeProtocol.WatchersChangeBy | desktop/bot_bridge.go:260-275 | the watchers change only for a SetWatch, by its route alone |
| BotBridgeProtocol.AnnouncedIff | desktop/bot_bridge.go:97-131 | an event is announced iff someone watches and it has something to tell |
| BotBridgeProtocol.AnnouncementQueued | desktop/bot_bridge.go:144-150 | such an event is seen through to the queue, where it is dropped only if 64 are waiting |
| BotBridgeProtocol.QueuedByEvent | desktop/bot_bridge.go:144-150 | what enters the queue is what the event of the acting call announces |
| BotBridgeProtocol.DeliversFront | desktop/bot_bridge.go:153-163 | a round of the worker takes the notification at the front |
| BotBridgeProtocol.CallEndsDone | desktop/bot_bridge.go:87-337 | a call ends only when it has written, queued or forwarded, or there was nothing to write, announce or decide |
| MediaTokens.MediaTokenStore.CleanupLocked | desktop/app.go:209-230 | the in-place loops compute the cleanup of the specification |
| MediaTokens.MediaTokenStore.Create | desktop/app.go:232-265 | the whole new store after cleanup, insertion and trimming |
| MediaTokens.MediaTokenStore.Get | desktop/app.go:267-279 | answers iff the token is held and the clock is not past its expiry; the queue is untouched, and a token that is not served is gone from the map |
| MediaTokens.HistoryIs | desktop/app.go:232-265 | the k-th token is the one of the k-th creation, with its payload and instants; the latest cleanup is that of the latest creation |
| MediaTokens.InsertTied | desktop/app.go:232-265 | what an insertion keeps: of the newest tokens those still held and not expired, and the new one |
| MediaTokens.InvHolds | desktop/app.go:209-279 | the invariant holds after every legal sequence of calls |
| MediaTokens.ServedExactly | desktop/app.go:209-279 | after any calls a token is served exactly when it is among the newest, not expired, and no cleanup has run at or after its expiry; with the entry it was created with |
| MediaTokens.ServedUntilExpiry | desktop/app.go:187-190 | before expiry served iff among the newest, after expiry never |
| MediaTokens.NothingElseServed | desktop/app.go:187-190 | tokens never created are never served and at most the capacity is held |
| SharedHost.HostTable.Acquire | desktop/shared_host.go:30-49 | one more reference to the live host, or a fresh host with one |
| SharedHost.HostTable.Release | desktop/shared_host.go:68-89 | one reference less; the last one removes and closes the host; an unknown root is left alone |
| SharedHost.TabSwitch.SetModelForTab | desktop/app.go:5137-5230 | with any attempts of others, refused, failing or successful, running in the middle: not tried, failed, superseded or switched exactly as guard, build and comparison say; the root keeps one reference for the tab's controller and none for the attempt, the loser's controller is closed, a host in use stays open |
| SharedHost.TabSwitch.Conclude | desktop/app.go:5195-5230 | build, compare and install: the result, the tab's controller, the closed controllers and the count in each of the three outcomes |
| SharedHost.CountedStep | desktop/app.go:5182-5230 | every step keeps the count equal to the number of holders |
| SharedHost.InvHolds | desktop/tabs.go:1265-1372 | in every state of every interleaving of model switches, first builds and headless runs: counts are holders, holders are on live hosts, every open controller has one owner, no host is forgotten |
| SharedHost.RefsAreHolders | desktop/app.go:5182-5230 | reference count = installed controllers + in-flight holders, on success, failure and lost race |
| SharedHost.HostOpenWhileUsed | desktop/app.go:5184-5188 | no tab's controller and no goroutine that acquired ever sees its host closed |
| SharedHost.NothingLeaksAtRest | desktop/app.go:799-818 | with all goroutines done, the open controllers are those in tabs and the live hosts those of roots with a tab |
| SharedHost.InstalledIff | desktop/app.go:5137-5230 | a goroutine installs the controller it built iff its tab still has the one seen at the snapshot of that same call, or none for a first build |
| SharedHost.OnlyInstallsChange | desktop/app.go:5195-5230 | nothing else changes the controller of a tab |
| SharedHost.TabUsesItsRoot | desktop/app.go:5182-5194 | a tab's controller works on the live host of the tab's own root |
| StableSort.SliceStable | desktop/app.go:5010-5023 | sorting in place gives the stable sort of the old contents |
| StableSort.SortSpec | desktop/app.go:5010-5023 | the stable sort permutes, orders by rank, and keeps the order within each rank |
| StableSort.SortedUnique | desktop/app.go:5010-5023 | order and buckets determine a sequence |
| StableSort.StableSortUnique | desktop/app.go:5010-5023 | whatever orders by rank and keeps every bucket is the stable sort |
| ServerOrder.LessIsRank | desktop/app.go:5010-5023 | the comparison of the source is that of ranks, unknown names last |
| ServerOrder.OrderServerViewsInPlace | desktop/app.go:5005-5025 | position map and in-place sort give the specified order |
| ServerOrder.KnownFirst | desktop/app.go:5005-5025 | in the displayed list known names come before new ones, and by position |
| ServerOrder.MergeServerOrderLoop | desktop/app.go:5027-5045 | the two loops give the distinct non-empty names, old order first |
| ServerOrder.MergeLists | desktop/app.go:5027-5045 | for any old order: each non-empty name of the old order and of what is shown, once, by where it stands first |
| ServerOrder.RemoveServerOrderInPlace | desktop/app.go:5047-5058 | filtering into the front of the same slice gives the order without the name |
| ServerOrder.RemovesOnlyName | desktop/app.go:5047-5058 | removing filters every stretch of the order by itself, drops the name and keeps all others in place |
| ServerOrder.RememberedIsClean | desktop/app.go:5027-5058 | after any merges and removals the remembered order is duplicate-free without an empty name |
| ServerOrder.MergeExtends | desktop/app.go:5027-5045 | merging keeps the old order as a prefix and adds exactly the new names |
| ServerOrder.ShownAscends | desktop/app.go:3838-3857 | after a refresh the displayed list is strictly ascending in the new order |
| ServerOrder.DisplayStabilises | desktop/app.go:3838-3857 | after one refresh, sorting any permutation of the servers by the new order gives the displayed list |
| Utf8Cut.TrimUTF8PartialSuffix | desktop/app.go:5781-5795 | the backward loop computes the specified trim |
| Utf8Cut.TextIsEncoded | desktop/app.go:5781-5784 | every text is the encoding of some sequence of Unicode scalar values by section 3 of RFC 3629 |
| Utf8Cut.EncodedIsText | desktop/app.go:5781-5784 | and every such encoding is a text |
| Utf8Cut.BoundaryBefore | desktop/app.go:5785-5788 | every position of a text lies within a character begun at most three bytes before, with only tail bytes between |
| Utf8Cut.BoundaryIffRuneStart | desktop/crash_app.go:49-51 | the boundaries of a text are exactly the positions of non-tail bytes |
| Utf8Cut.UnfinishedTail | desktop/app.go:5785-5793 | what is left of a text cut inside a character: a longest text and an unfinished rest of at most three bytes |
| Utf8Cut.TrimmedIsLongestText | desktop/app.go:5781-5795 | for every input: bytes that begin some text are trimmed to their longest text, losing at most three bytes; all others are left alone; the result is a text iff the input begins one |
| Utf8Cut.CutDetail | desktop/crash_app.go:44-53 | short reports unchanged, long ones cut where the loop stops |
| Utf8Cut.CutIsLongestText | desktop/crash_app.go:48-52 | when the bytes through the limit begin a text, the cut is the last character boundary within the limit, at most three bytes before it |
| Utf8Cut.CutIsTextIff | desktop/crash_app.go:44-53 | for every over-long report: the cut is a text iff the report is one up to a position from which only tail bytes follow until the limit |
| Utf8Cut.TextPrefixExtends | desktop/crash_app.go:44-53 | which they do for every valid report |
| Utf8Cut.TextIsCutToText | desktop/crash_app.go:44-53 | a valid report is cut to a valid one |
| Utf8Cut.CutKeepsForeignBytes | desktop/crash_app.go:45-47 | a report beginning with a byte of no character is still no text after the cut |
| MigrateProfile.CompanionsOwned | desktop/migrate_profile.go:133-140 | a name is a companion of at most one session, read off its suffix |
| MigrateProfile.Disk.MovePathIfExistsExistingOK | desktop/migrate_profile.go:160-177 | moves only an existing source to a free destination; a rename may fail |
| MigrateProfile.Disk.MoveSessionWithCompanions | desktop/migrate_profile.go:147-154 | a session and its three companions, each moved or left in place |
| MigrateProfile.Disk.FirstPass | desktop/migrate_profile.go:204-222 | the first pass sends every session and companion where its .meta said at the start; where that is, `GlobalSessionEnds` and `ProjectSessionEnds` say |
| MigrateProfile.Disk.SecondPass | desktop/migrate_profile.go:223-237 | the second pass sends what remains to the dev partition |
| MigrateProfile.Disk.MigrateFlat | desktop/migrate_profile.go:187-238 | both passes give the closed form of the migrated disk; whatever renames fail, and so wherever it stops, each name is in the flat directory or where a pass takes it |
| MigrateProfile.PlacedConserves | desktop/migrate_profile.go:156-177 | after any prefix of renames every file exists under its name with its content, nothing is overwritten or added |
| MigrateProfile.SessionsStayTogether | desktop/migrate_profile.go:199-222 | with free destinations a session and its companions end together |
| MigrateProfile.GlobalSessionEnds | desktop/migrate_profile.go:119-126 | on every disk: a global session whose .meta decodes to "cowork" or "netdev" up to capitals and outer white space ends, with what belongs to it, in the partition of that name unless the place is taken; any other stays |
| MigrateProfile.ProjectSessionEnds | desktop/migrate_profile.go:246-293 | the same for a project, other sessions ending in its dev partition; what belongs to a session and finds its place taken ends there too |
| MigrateProfile.OtherNameEnds | desktop/migrate_profile.go:223-237 | what belongs to no session stays in the global directory and goes to dev in a project, if the place is free |
| MigrateProfile.OthersUntouched | desktop/migrate_profile.go:156-166 | no file outside the flat directory is changed |
| MigrateProfile.ResumeIff | desktop/migrate_profile.go:36-42 | for every place map an interrupted run over one directory can leave: running the passes again gives what an undisturbed run gives iff the first tore no session from its .meta or a companion |
| MigrateProfile.StopSplitsSession | desktop/migrate_profile.go:147-154 | with all destinations free, a stop after the first rename lets the passes, run again, file the .meta under dev and leave the session in its own partition |
| MigrateProfile.RerunIsNoopIff | desktop/migrate_profile.go:36-42 | running complete passes again, which needs the marker unwritten, changes nothing iff no session of a project has its own place taken, its dev place free and a .meta that can move |
| MigrateProfile.FreeIsIdempotent | desktop/migrate_profile.go:187-293 | with free destinations complete passes change nothing the second time |
| MigrateProfile.TakenPlaceStrands | desktop/migrate_profile.go:246-293 | a half-migrated project on which the passes, run a second time, file a cowork session under dev |
| WholeMigration.MigrateAll | desktop/migrate_profile.go:246-293 | the migration of all flat directories, conservation across them, and for distinct ones what it leaves in each wherever it is interrupted |
| WholeMigration.AllAt | desktop/migrate_profile.go:187-293 | in the directories of one flat directory the whole migration does what that directory's does, and nothing elsewhere |
| WholeMigration.ResumeAllIff | desktop/migrate_profile.go:36-42 | an interrupted migration of all directories is completed by another run iff it tore no session of any of them |
| WholeMigration.CompleteIff | desktop/migrate_profile.go:36-42 | a run leaves what an undisturbed one leaves iff every name is where that one takes it |
| WholeMigration.Installation.MigrateToProfilePartition | desktop/migrate_profile.go:48-107 | with the marker a launch does nothing; without it it migrates and merges, and writes the marker at its end whatever failed, unless that write fails, a merge panics or the process stops; a panic comes back at the next launch |
| WholeMigration.NextLaunchIff | desktop/migrate_profile.go:34-42 | the next launch ends with the undisturbed disk iff the marker was written and all names are in place, or it was not and no session was torn |
| WholeMigration.SecondLaunchIff | desktop/migrate_profile.go:34-42 | after a complete launch the next one changes nothing iff the marker was written or no session was stranded |
| WholeMigration.MarkerBuriesFailure | desktop/migrate_profile.go:101-105 | a failed rename followed by the marker: nothing is torn, and no launch moves the session any more |
| WholeMigration.StrandedUnlessMarked | desktop/migrate_profile.go:59-61 | the stranded session is filed under dev by the next launch iff the marker was not written |
| WholeMigration.LingeringLegacyNextLaunch | desktop/migrate_profile.go:425-432 | after a failed removal and an edit, the next launch leaves the edit alone iff the marker was written or the edit agrees with every legacy entry |
| WholeMigration.RewriteTabSessionPaths | desktop/migrate_profile.go:665-692 | valid paths are kept, others follow their name to the first candidate directory that has it; the flag tells whether any path changed |
| WholeMigration.PathsRepaired | desktop/migrate_profile.go:665-692 | a blank or still valid path stays; another gets the first candidate directory that has its name, and stays if none has |
| WholeMigration.CandidatesAre | desktop/migrate_profile.go:646-663 | the candidates are dev, cowork and netdev of each flat directory in turn |
| WholeMigration.SessionArrives | desktop/migrate_profile.go:634-663 | a session with a unique name ends in a candidate directory |
| WholeMigration.TabStillResolves | desktop/migrate_profile.go:627-711 | after migration and rewrite a tab that named a flat session names an existing file with the same name and content |
| SidecarMerge.SidecarDisk.MergeSidecar | desktop/migrate_profile.go:349-393 | the union of what is read of both files with the legacy entries winning, an unreadable file counting as empty; failure when one does not decode, a panic when entries meet a null dev variant |
| SidecarMerge.SidecarDisk.MergeTopicSidecarsInDir | desktop/migrate_profile.go:324-344 | each mergeable pair is merged and its legacy file removed unless that fails, all else unchanged; panics iff some pair does, with what came before it merged |
| SidecarMerge.SidecarDisk.MigrateTopicSidecarsByMerge | desktop/migrate_profile.go:302-316 | the same over all directories, in any order and with repetitions: panics iff some listed legacy file has entries beside a null dev variant; otherwise a listed legacy file is still there only if it or its dev variant does not decode or its removal fails, the dev variant holds every entry read from either, and no other file changes |
| SidecarMerge.MergeIsThorough | desktop/migrate_profile.go:324-393 | how each merged pair ends, read off its two files alone |
| SidecarMerge.MergeOneSettles | desktop/migrate_profile.go:324-344 | one merge settles its pair and disturbs no other |
| SidecarMerge.NoEntryLost | desktop/migrate_profile.go:295-301 | every entry that is read survives, panic or not, with the legacy value where there was one |
| SidecarMerge.EntriesKeptIff | desktop/migrate_profile.go:346-372 | every entry that the files hold survives with its value iff the pair is not merged or the other file has what an unreadable one holds |
| SidecarMerge.ReadableKept | desktop/migrate_profile.go:295-301 | nothing is lost where both files can be read |
| SidecarMerge.UnreadableLost | desktop/migrate_profile.go:350-356 | a concrete unreadable legacy file whose title is lost |
| SidecarMerge.RerunOnlyRemoves | desktop/migrate_profile.go:318-323 | a second run changes no dev variant and removes at most legacy files whose removal failed before |
| SidecarMerge.NullDevPanics | desktop/migrate_profile.go:355-369 | a concrete pair of files on which the merge panics |
| SidecarMerge.LingeringLegacyHarmlessIff | desktop/migrate_profile.go:425-432 | a failed removal, an edit of the dev variant and another merge: the legacy entries are back, which changes nothing iff the edit agrees with them |
| TrialGate.ConsoleTrialGate.Enter | desktop/browser_console_app.go:715-725 | one run gets the slot with two fresh empty channels, others nothing |
| TrialGate.ConsoleTrialGate.SignalResume | desktop/browser_console_app.go:736-747 | the reply enters an empty channel, a full one keeps its token |
| TrialGate.ConsoleTrialGate.SignalAbort | desktop/browser_console_app.go:750-761 | the same for the abort signal |
| TrialGate.Chan.Drain | desktop/browser_console_app.go:765-783 | draining leaves the channel empty |
| TrialGateProtocol.InvHolds | desktop/browser_console_app.go:714-827 | in every state of every interleaving the gate is with the one run inside, channels hold tokens of their own run, and a parked step finds only tokens newer than its drain |
| TrialGateProtocol.OneRunAtATime | desktop/browser_console_app.go:702-704 | at most one run is inside, and the gate is its own |
| TrialGateProtocol.GateFreeWhenNobodyInside | desktop/browser_console_app.go:727-733 | the gate is free whenever no run is inside |
| TrialGateProtocol.NoStaleSignal | desktop/browser_console_app.go:763-764 | every reply or abort acted on was sent to the same run after that step had seen the channel empty |
| TrialGateProtocol.TakenWasSent | desktop/browser_console_app.go:736-761 | a reply acted on is one that somebody sent while the same run had the gate, in the same words; an abort is one |
| TrialGateProtocol.EachSignalOnce | desktop/browser_console_app.go:785-827 | no signal is acted on twice, by whatever steps and runs |
| TrialRun.Substitute | desktop/browser_console_app.go:862-873 | the left-to-right replacement is the specified rendering |
| TrialRun.RefLengthIff | desktop/browser_console_app.go:855-856 | a reference is a non-empty name without closing brace between double braces |
| TrialRun.OrdinaryCharacter | desktop/browser_console_app.go:862-873 | where no reference begins a character is itself |
| TrialRun.UnboundReference | desktop/browser_console_app.go:862-873 | an unbound reference is itself, and what follows it is substituted |
| TrialRun.ParseIsLossless | desktop/browser_console_app.go:856-861 | without bindings substitution gives the text back |
| TrialRun.SubstUsesMentioned | desktop/browser_console_app.go:862-881 | only the names mentioned matter |
| TrialRun.UnboundStaysLiteral | desktop/browser_console_app.go:858-861 | unbound references stay literal |
| TrialRun.ValueIsNotRescanned | desktop/browser_console_app.go:862-873 | a value is inserted as it is, even if it looks like a reference |
| TrialRun.RunStep | desktop/browser_console_app.go:989-1017 | the events of one step |
| TrialRun.RunSteps | desktop/browser_console_app.go:986-1020 | the loop produces the trace and the steps that `TraceShape`, `SeenFrom` and `ExecutedFields` describe |
| TrialRun.BrowserConsoleTrialRun | desktop/browser_console_app.go:891-908 | no steps, a busy gate or no browser: refused with no event, a busy gate untouched; otherwise the run holds the gate to its end and frees it |
| TrialRun.TraceShape | desktop/browser_console_app.go:986-1020 | pairs of start and done for consecutive steps with their prompts, outputs and replies, the failing step with its error if any, then exactly one terminal event |
| TrialRun.SeenFrom | desktop/browser_console_app.go:986-988 | the executed steps are those up to the first failure, in order, and none runs after it |
| TrialRun.ExecutedFields | desktop/browser_console_app.go:874-881 | of each executed step every field and file is that of the written step with the parameters of the moment put in, and the kind is the same |
| TrialRun.ExecutedAsWritten | desktop/browser_console_app.go:858-861 | a step none of whose fields mentions a bound name is executed exactly as written |
| TrialRun.NothingBound | desktop/browser_console_app.go:858-861 | so is every step of a run without defaults and ask steps |
| TrialRun.LatestReplyWins | desktop/browser_console_app.go:963-973 | a parameter has the reply of the latest ask step bound to it, else its default |
| LoopEngine.LoopRun.WaitTurn | desktop/loop_engine.go:398-414 | the turn is seen to its end iff the channel was not closed before the last look |
| LoopEngine.LoopRun.Sense | desktop/loop_engine.go:288-314 | the clean-scan counter is that of the scans so far; the queue counts as empty at two |
| LoopEngine.LoopRun.Judge | desktop/loop_engine.go:329-361 | the record carries the verdict of the round; the breaker trips at the third failure in a row |
| LoopEngine.LoopRun.RunRound | desktop/loop_engine.go:282-388 | one round: one record, and the reason if the run ends |
| LoopEngine.LoopRun.LoopExecute | desktop/loop_engine.go:248-394 | for every schedule of stop calls: records numbered within the limit, each faithful to its round and begun with time, budget and work left; the reason given for the end holds; which rounds the stop signal cuts short is fixed by its moment; the state only moves forward and ends terminal, aborted iff the breaker tripped; the channel is closed at most once and at most one record follows |
| LoopEngine.EmptyQueueEnds | desktop/loop_engine.go:288-307 | a run ends for an empty queue iff it is exploratory, its sensor command is not blank and the last two scans that ran were clean; this is also a postcondition of `LoopExecute` |
| LoopEngine.VerdictsAre | desktop/loop_engine.go:329-361 | at autonomy "L1" or with a blank verify command no round is judged; otherwise each but the last, and that too unless the queue was empty or the stop signal came before the end of its turn; verdict and files are those of the round; this too |
| LoopEngine.LimitsKept | desktop/loop_engine.go:253-280 | no more rounds than the limit, none begun after the window or the budget; the reason given holds; this too |
| LoopEngine.LoopRun.Interfere | desktop/loop_engine.go:204-221 | a LoopStop that comes while the run is running makes it stopping with the reason of the first such call, and does nothing otherwise |
| LoopEngine.FinishedMeans | desktop/loop_engine.go:352-379 | three failures in a row only as the last three records and iff the breaker ended the run; a goal-driven pass or an unverified round only last |
| LoopEngine.StopInRound | desktop/loop_engine.go:204-221 | the round of the stop signal is the last; with verification it is skipped iff the scans so far made the queue empty or the signal came before the last look before its turn ended |
| LoopEngine.StopCutsFirstRound | desktop/loop_engine.go:315-326 | a signal during the first turn ends every run with that round unverified |
| LoopEngine.StoppedRoundIsSkipped | desktop/loop_engine.go:323-326 | a concrete such run |
| LoopEngine.EmptyQueueIff | desktop/loop_engine.go:294-307 | the queue counts as empty iff the last two scans that ran were clean |
| LoopEngine.ConsecutiveIff | desktop/loop_engine.go:299-301 | they are consecutive rounds, as the note says, iff the sensor did not fail in the round before the last |
| LoopEngine.FailedScanBetween | desktop/loop_engine.go:290-300 | a failed scan in between does not matter |
| LoopEngine.BuildLoopReport | desktop/loop_engine.go:510-540 | the counts add up to the rounds, the files are counted once each, and the last verdict is that of the last judged round |
| LoopEngine.ReportRevealsEnding | desktop/loop_engine.go:510-540 | what the counts of a finished run say about how it ended |
| Metrics.Table.Merge | desktop/metrics_app.go:38-44 | in whatever order entries are visited, the table becomes the merge of both |
| Metrics.MergedIs | desktop/metrics_app.go:38-44 | the merge has the buckets of both tables, with the sum where one is in both |
| Metrics.Flatten | desktop/metrics_app.go:201-211 | lists each positive counter exactly once and nothing else |
| Metrics.CreditAt | desktop/metrics_app.go:201-211 | a payload listed from counters is worth exactly their positive counts |
| Metrics.Aggregator.Persist | desktop/metrics_app.go:156-169 | memory moves into the pending file; with nothing counted nothing happens |
| Metrics.Aggregator.Flush | desktop/metrics_app.go:216-238 | pending counts are delivered once or folded back beside what was persisted meanwhile, none is lost |
| MetricsProtocol.DriftStep | desktop/metrics_app.go:156-238 | every step conserves the counts, except that a write misses by exactly what changed in the file since its read |
| MetricsProtocol.DriftIsErrors | desktop/metrics_app.go:156-238 | along every interleaving the excess of held over observed counts is the sum of these errors |
| MetricsProtocol.ConservedIff | desktop/metrics_app.go:153-238 | counts are conserved throughout iff every write finds the counts it read |
| MetricsProtocol.AtomicFilesConserve | desktop/metrics_app.go:156-238 | with each persist and each folding back as one step, observed = memory + goroutines + pending + sending + delivered in every state of every interleaving |
| MetricsProtocol.LostUpdate | desktop/metrics_app.go:166-168 | from any state, two goroutines that both read before either writes lose the counts of the first |
| MetricsProtocol.CountsGetLost | desktop/metrics_app.go:166-168 | a run from the start with two counts observed and one left |
| MetricsProtocol.CountedTwice | desktop/metrics_app.go:224-227 | from any state, a flush between a read and its write counts the pending file twice |
| MetricsProtocol.CountsGetDoubled | desktop/metrics_app.go:224-227 | a run from the start with two counts observed and three held |
| ExpertStream.Run.FindLast | desktop/expert_runs.go:216-222 | the backward loop finds it |
| ExpertStream.Run.CacheCollabEvent | desktop/expert_runs.go:196-246 | one event folds into the cache; other teams and finished runs change nothing |
| ExpertStream.FoldShown | desktop/expert_runs.go:206-245 | any event adds to what a voice shows exactly what it lets that voice say |
| ExpertStream.ShownIsSaid | desktop/expert_runs.go:190-195 | for every event sequence, expert, round and the synthesis: the texts shown are the texts streamed |
| ExpertStream.FoldKeepsPlaces | desktop/expert_runs.go:206-245 | messages keep place and owner, and their texts only grow |
| ExpertStream.OpensIff | desktop/expert_runs.go:206-245 | a message is added exactly for the start of a named expert, a chunk of one who has no message in the round, and synthesis text after something else; with what it holds |
| ExpertStream.TouchesOne | desktop/expert_runs.go:206-245 | any other event changes at most the latest message it is about, by its text or by ending the streaming |
| ExpertStream.DoneStopsStreaming | desktop/expert_runs.go:226-233 | after Done the expert's latest message no longer streams |
| Dotenv.EnvFile.RemoveEnvFile | desktop/dotenv.go:101-129 | the line loop computes the specified file; a blank key or a missing file changes nothing |
| Dotenv.EnvFile.EnvFileKeys | desktop/dotenv.go:160-176 | the line loop computes the set of listed keys |
| Dotenv.OtherLinesKept | desktop/dotenv.go:113-129 | the new file has exactly the lines kept, unchanged and in order |
| Dotenv.KeepByLine | desktop/dotenv.go:113-125 | each line is kept or removed by itself |
| Dotenv.CommentsIgnored | desktop/dotenv.go:115-119 | a line of white space or one that begins with a hash sign after it lists nothing and is never removed |
| Dotenv.AssignmentListed | desktop/dotenv.go:160-176 | an assignment, with or without "export", lists its name and is removed for that name alone |
| Dotenv.JoinSplit | desktop/dotenv.go:113-129 | splitting into lines loses nothing |
| Dotenv.TrimNewlinesSpec | desktop/dotenv.go:113 | exactly the line feeds at the end go |
| Dotenv.RemovesIffListed | desktop/dotenv.go:115-123 | a line is removed for a key iff the key is listed for it and does not start like a comment |
| Dotenv.RemovalExactIff | desktop/dotenv.go:101-176 | removal leaves exactly the other keys listed iff the key is not a listed one starting with a hash sign |
| Dotenv.CommentListedAsKey | desktop/dotenv.go:167-174 | the lines on which listing and removal differ |
| Dotenv.CommentedOut | desktop/dotenv.go:167-174 | an assignment commented out after export and two blanks is listed |
| Dotenv.CommentExample | desktop/dotenv.go:167-174 | a concrete such line |
| HooksSettings.SettingsFile.SaveHooksSettings | desktop/hooks_settings_app.go:71-90 | the first unknown event stops the save with nothing written; otherwise the cleaned list is grouped |
| HooksSettings.WrittenConfig | desktop/hooks_settings_app.go:71-90 | every configuration written has the fields of a hook with a command, without outer white space, under its event |
| HooksSettings.HookWritten | desktop/hooks_settings_app.go:71-90 | and every hook with a command is written so |
| HooksSettings.SettingsFile.HooksSettings | desktop/hooks_settings_app.go:42-65 | the loops flatten the groups in table order |
| HooksSettings.ShownView | desktop/hooks_settings_app.go:42-65 | every view has the event and the fields of a stored configuration with a command |
| HooksSettings.ConfigShown | desktop/hooks_settings_app.go:42-65 | and every such configuration of an event in the table is shown |
| HooksSettings.FlattenGroup | desktop/hooks_settings_app.go:57-90 | grouping and flattening a tidy list sorts it stably by event |
| HooksSettings.LoadAfterSave | desktop/hooks_settings_app.go:42-90 | loading what was saved gives the cleaned list stably sorted by event |
| HooksSettings.SaveIsFixedPoint | desktop/hooks_settings_app.go:42-90 | saving what was loaded writes the same groups |
| HooksSettings.LoadedOnceSettles | desktop/hooks_settings_app.go:42-90 | a hand-edited file is settled by one load and save |
| HooksSettings.TableLoadAfterSave | internal/hook/hook.go:63-68 | both round trips for the event table of the program |
| HooksSettings.TableSettles | internal/hook/hook.go:63-68 | a hand-edited file is settled by one load and save under that table |

## Left out

- Wails calls, dialogs, HTTP, chat adapters, model calls, subprocesses and JSON encoding: a file is modelled by
  what it decodes to, the outside world by parameters.
- BotBridgeProtocol.QuiescentDiskIsCurrent: after a failed last write disk and memory may differ, so the agreement is stated for a last write that succeeded.
- Rendering and fan-out of notifications, `Sessions`, `AskQuestions`, and a stop of the worker.
- MediaTokens.ServedExactly: tokens are assumed fresh, the clock never to go back, and the time to live to be positive; a map entry is a value, so a caller cannot change a stored entry.
- SharedHost.HostTable.Acquire: a root is taken as normalised; cleaning a path and making it absolute, which turns the empty root into the working directory although the comment there says it stays empty, are not part of this model.
- SharedHost.TabSwitch.SetModelForTab: the attempts of others run one after the other here; `SharedHost.InvHolds` interleaves them.
- The conflict branches of `SetEffortForTab` and the profile switch, which install without the roll-back of
  `SetModelForTab`, and closing tabs: not among the calls that `SharedHost` interleaves. Closing a host is one
  step with the removal of its entry, a tab's root is constant, and what happens to a controller after its
  installation does not matter to the counts.
- ServerOrder.DisplayStabilises: the refresh sorts and merges with the same remembered order; another change of the order between the two is not modelled.
- StableSort.SliceStable: models the library sort as one insertion sort; longer slices are merged block-wise there, with the same result by `StableSort.StableSortUnique`.
- WholeMigration.Installation.MigrateToProfilePartition: a folder moves as one opaque node; the projects index, the
  .meta back-fill, pruning and the order of these steps are left out, as is a disk that changes while the
  migration runs. A stop while sidecars are merged falls between two directories.
- WholeMigration.RewriteTabSessionPaths: a stored path is its directory and base name; white space around it and the atomic write-back of the tabs file are not modelled.
- SidecarMerge.SidecarDisk.MergeSidecar: a failing write of the dev variant is not modelled.
- TrialRun.RunStep: what the browser or a human step puts out is a parameter; the cut of outputs at 2000 bytes is not modelled, nor that substituting file names writes into the caller's slice. Direction, amount and time limit of a step, which nothing substitutes, are left out.
- TrialGateProtocol: the poll for the condition and the deadline are one step that may happen at any time while parked.
- LoopEngine: stop notes, durations, the prompt, git and the lock around the final report are not modelled.
- Metrics.Aggregator.Flush: crashes, failing file operations and two flushes at once are not modelled, and other goroutines persist as one step here (`MetricsProtocol` interleaves them); the mapping of events to counters only adds easy members.
- ExpertStream: starting, finishing and replacing runs; a run is keyed by its team alone.
- Dotenv: the process environment, file permissions and the write through a temporary file.
- HooksSettings.SettingsFile.SaveHooksSettings: other keys of the settings file, the choice of scope and the reload after saving are not modelled.
- GoStrings.ToLower: ASCII only, which is what the profile names compared with it need; strings are sequences of characters, and no encoding is modelled outside `Utf8Cut`.
