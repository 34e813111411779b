# Skillet convergence model

Skillet (`ublue/skillet`) converges hosts: it writes definitions, restarts consumers, migrates and rolls back installations,
bootstraps, backs up and restores applications, guards configuration writes against activation, opens LAN ports, and compiles
declarations into a reverse-proxy configuration. A process can die between any two of its effects, and the next run has only the files
left behind to go by. This project models those runs and proves what they keep.

How runs are modelled:

- For activation, btrbk, bluetooth, bootstrap and access, the state is a value with a budget of effects and a `halt`. Each effect costs
  one; at zero the process is dead and every later step leaves the state alone. A statement for every budget is a statement for every
  crash point. A run is a function on states; a history is a list of cut runs, boots, exits and outside edits, and theorems about
  histories go by induction over that list. The object that the program works on is a class with the same fields, and each of its
  methods leaves exactly the state its function describes.
- For backups, restores and the firewall, where effects fail and are compensated, a method is given the fate of each effect in turn (it
  works, it fails, or nothing is left and the process is killed), and its postconditions hold for every list of fates.
- The maintenance lock is a transition system over any number of processes.
- Caddy sites are rendered to a list of directives with the meaning of an ordered `route` block: directives run in the order written
  until one answers. That meaning is an assumption about Caddy.

| file | about |
|---|---|
| `Runs.dfy`, `Text.dfy` | options, reports, fates; texts taken apart |
| `FileEffects.dfy` | one path: content, mode, owners, interrupted writes |
| `Machine.dfy` | files, the service manager's view, services, one effect at a time |
| `Activation.dfy` | write, restart, receipt |
| `Btrbk.dfy`, `BtrbkHost.dfy`, `BtrbkRuns.dfy`, `BtrbkSafety.dfy`, `BtrbkOutcome.dfy`, `BtrbkTexts.dfy` | legacy-to-image migration and rollback |
| `Bluetooth.dfy` | two chained activations |
| `Bootstrap.dfy`, `BootstrapStore.dfy`, `BootstrapRuns.dfy`, `BootstrapAlways.dfy` | journalled bootstrap of the file-sharing application |
| `Access.dfy` | one-time access finalization |
| `Maintenance.dfy` | writers against activation |
| `Firewall.dfy` | private subnets, additive convergence |
| `Archive.dfy`, `Decimal.dfy`, `Retention.dfy`, `GokapiBackup.dfy` | paired archives, retention, backup and restore |
| `Airtrail.dfy` | database and uploads restored together |
| `CaddyNames.dfy`, `CaddySites.dfy` | names, declarations, the loops that build sites |
| `CaddyLaw.dfy`, `CaddyClaims.dfy`, `CaddyBuilds.dfy`, `CaddyNamesUnique.dfy` | which sites are lawful, and that exactly those are built |
| `CaddyPayload.dfy` | versioned payload |
| `CaddyRoutes.dfy`, `CaddyRender.dfy`, `CaddyMeaning.dfy`, `CaddyGuarantees.dfy`, `CaddyConfig.dfy` | ordered routes, rendering, policy, whole configurations |

Where an expected property is false of the code, its exact condition is proved: `StaleReachableIff` and `TargetSwitchWindow` (a receipt
after a change of target), `ForeignBytesLostIff` (a rollback run with no archive), `ExpiresAgainIff` (a hash that comes back),
`Swap` (two renames are not one), `SecondRunIsIdleIff` (set-id bits and a change of owner),
`SelectedIsKeptIff` (AirTrail prunes before it restores),
`TornIsSelectableIff` (a removal that stops half-way), `RogueFlagIff` (a flag raised without the lock), `AdoptedIff` (an installation
that the bootstrap did not make), `SelectionChangeIff` (archives keep the old texts).

## Model

| member | source | states |
|---|---|---|
| Machine.Host.Ensure | ublue/skillet/crates/core/src/files.rs:462-527 | writing a file is one effect, skipped when the bytes are already there; the report says whether it was |
| FileEffects.ReplacementIsExact | ublue/skillet/crates/core/src/files.rs:149-172 | a replaced file has exactly the mode and owners asked for and keeps those it was not asked about |
| FileEffects.AdjustmentIsExact | ublue/skillet/crates/core/src/files.rs:235-268 | a file that has its content already gets exactly the mode and owners asked for, a change of owner then takes the set-id bits that it takes, and a change is reported exactly when mode or owner differed |
| FileEffects.SecondRunIsIdleIff | ublue/skillet/crates/core/src/files.rs:235-268 | a second run finds nothing to do if and only if the mode can be held and the change of owner after it takes no bit away |
| FileEffects.NeverSettles | ublue/skillet/crates/core/src/files.rs:517-526 | otherwise every run reports a change, for ever |
| FileEffects.File.EnsureFile | ublue/skillet/crates/core/src/files.rs:462-527 | for every failing or last effect a regular file holds the old content or the new; only something that is no regular file can be found missing; the report tells whether anything changed |
| FileEffects.File.CreateFileIfAbsent | ublue/skillet/crates/core/src/files.rs:427-461 | what exists is never touched, what is created appears complete |
| FileEffects.File.DeleteFile | ublue/skillet/crates/core/src/files.rs:580-594 | removes whatever the path leads to; a dangling link counts as absent |
| Activation.ActivateConsumer | ublue/skillet/crates/core/src/activation.rs:45-89 | what is reported, from what was found: restarted exactly when the receipt was off or a definition changed and the consumer is persistent or was active; started exactly when a one-shot consumer that needed it was inactive, or a persistent one that needed nothing was; recovered exactly when the receipt was off and no definition changed; and, for every cut, the state of the specification `Activate`, in which a start leaves an active unit as it is |
| Activation.ActivateHasShape | ublue/skillet/crates/core/src/activation.rs:45-89 | everything an activation cut at any effect can leave behind: receipt last, and only over a consumer started by this very run on the current files and manager view |
| Activation.WriteAllSound | ublue/skillet/crates/core/src/files.rs:462-527 | writing definitions one by one touches only their paths, costs one effect per difference, and places all of them if it survives |
| Activation.ReceiptsAreFaithful | ublue/skillet/crates/core/src/activation.rs:45-89 | over every history of cut runs and service exits of one target: a receipt at its target means the definitions are placed and the consumer was started on them |
| Activation.AnyHistoryIsRepaired | ublue/skillet/crates/core/src/activation.rs:45-89 | after any such history one run that may finish ends with the receipt at its target, a persistent consumer active, and the run after it has no effect at all |
| Activation.StaleReachableIff | ublue/skillet/crates/core/src/activation.rs:54-82 | when the target changes the receipt can lie: some cut leaves files and receipt settled over a consumer that holds something else if and only if the run starts from a receipt naming its target while the consumer does not hold it |
| Activation.TargetSwitchWindow | ublue/skillet/crates/core/src/activation.rs:54-82 | the cuts, and only those, of a run for a second definition and a run for the first again that leave such a lying receipt |
| Activation.FinishedSwitchIsSafe | ublue/skillet/crates/core/src/activation.rs:54-82 | the rule that avoids it: once a run for the new target has finished, after any cut retries, the receipt is faithful for the new target and for the old one |
| BtrbkHost.PrepareStorage | ublue/skillet/crates/btrbk/src/lib.rs:182-202 | snapshot directories behind the mount checks, or a refusal without effect |
| BtrbkHost.Apply | ublue/skillet/crates/btrbk/src/lib.rs:38-109 | the rollback-mode run, effect by effect, for every cut; what that leaves is stated by `LegacyHasShape` |
| BtrbkHost.RetireFile | ublue/skillet/crates/core/src/files/retirement.rs:37-96 | one definition moves to its archive, or to quarantine when the archive already holds it; foreign bytes refuse |
| BtrbkHost.Inspect | ublue/skillet/crates/btrbk/src/migration.rs:47-64 | the definitions present, or a refusal when a definition or archive is foreign |
| BtrbkHost.RetireEach | ublue/skillet/crates/btrbk/src/migration.rs:87-90 | retirement of each definition found, and whether any was |
| BtrbkHost.RetireFoundIsAll | ublue/skillet/crates/btrbk/src/migration.rs:47-90 | retiring only what was found is retiring all three kinds |
| BtrbkHost.QuiesceTimer | ublue/skillet/crates/btrbk/src/migration.rs:74-85 | look, stop the timer, look again; either look refuses |
| BtrbkHost.RunMigration | ublue/skillet/crates/btrbk/src/migration.rs:16-113 | the image-mode run, effect by effect, for every cut |
| BtrbkHost.ApplyHost | ublue/skillet/crates/btrbk/src/lib.rs:204-257 | the choice between image mode, rollback reconciliation and refusal, effect by effect, for every cut; how it comes out is stated by `HostOutcome` |
| BtrbkOutcome.HostOutcome | ublue/skillet/crates/btrbk/src/lib.rs:204-257 | for every host and every observation: nothing selected is nothing done; each refusal has its exact ground, in order, over the files themselves, and changes nothing; an admitted run ends as the snapshot service has it, or is killed, for which the budget must lie below a bound given by the selection |
| BtrbkOutcome.DirectoriesExist | ublue/skillet/crates/btrbk/src/lib.rs:182-202 | a run that finishes has a snapshot directory for every subvolume, the directory of its receipt and, on the previous image, that of its configuration |
| BtrbkTexts.RenderConfig | ublue/skillet/crates/btrbk/src/lib.rs:128-141 | the loop builds the specified text |
| BtrbkTexts.ConfigLines | ublue/skillet/crates/btrbk/src/lib.rs:128-141 | the rendered text line by line: format, what is kept, volume, and for each subvolume in order its own line and its own snapshot directory |
| BtrbkTexts.ConfigTextInjective | ublue/skillet/crates/btrbk/src/lib.rs:128-141 | two lists of valid subvolumes, as spelled, with the same rendered text are the same list |
| BtrbkTexts.PlansAreValid | ublue/skillet/crates/btrbk/src/lib.rs:111-126 | the texts and revisions of any valid configuration satisfy what the migration theorems assume of them |
| BtrbkRuns.RetireAllHasShape | ublue/skillet/crates/btrbk/src/migration.rs:87-90 | each definition is where it was or has moved to its archive, for every cut |
| BtrbkRuns.MigrateHasShape | ublue/skillet/crates/btrbk/src/migration.rs:16-113 | everything an admitted image-mode run can leave behind wherever it is cut or refused |
| BtrbkRuns.ImagePhaseAlways | ublue/skillet/crates/btrbk/src/migration.rs:45-112 | over every history of cut or refused image-mode runs, image boots and exits: no definition is lost, and an image receipt stands only over a retired, reloaded and restarted timer |
| BtrbkRuns.MigrationConverges | ublue/skillet/crates/btrbk/src/migration.rs:45-112 | after any such history one run that may finish ends with the three paths absent, everything held archived, the image receipt and a running timer; every later run leaves the host alone |
| BtrbkRuns.LegacyInstallStartsThePhase | ublue/skillet/crates/btrbk/src/migration.rs:45-69 | a completed legacy install booted into the image is a start of those histories |
| BtrbkRuns.FreshImageStartsThePhase | ublue/skillet/crates/btrbk/src/migration.rs:45-72 | so is a host that was never anything but an image |
| BtrbkSafety.RefusalsChangeNothing | ublue/skillet/crates/btrbk/src/migration.rs:27-85 | a refusal for foreign bytes, a wrong receipt, a foreign vendor tree or a missing mount changes no file and no service; a running snapshot costs at most the timer |
| BtrbkSafety.LegacyHasShape | ublue/skillet/crates/btrbk/src/lib.rs:38-109 | everything a rollback-mode run can leave behind wherever it is cut; finished, whenever it restored a definition or found its receipt off, the manager has been reloaded, the timer was last started on the restored definitions and its link names the restored timer, and otherwise manager and timer are as they were |
| BtrbkSafety.ForeignBytesSafeOverHistories | ublue/skillet/crates/btrbk/src/lib.rs:226-252 | once an archive exists, over every history of runs and boots for any plans, exits and outside edits, no run for any plan changes any file while a definition is foreign to it |
| BtrbkSafety.ForeignBytesLostIff | ublue/skillet/crates/btrbk/src/lib.rs:204-257 | some run overwrites foreign bytes if and only if there is no marker, no image file, no archive, and the data mount is there |
| BtrbkSafety.ArchiveOutlivesHistory | ublue/skillet/crates/core/src/files/retirement.rs:37-96 | over every history for any plans no run removes an archive |
| BtrbkSafety.ImageRunsConserveDefinitions | ublue/skillet/crates/core/src/files/retirement.rs:62-77 | an image-mode run, however it ends, keeps exactly as many copies of every definition over paths, archives and quarantine |
| BtrbkSafety.ImageRefusalIff | ublue/skillet/crates/btrbk/src/migration.rs:65-69 | in every state reachable without outside edits an idle image-mode run is refused if and only if a legacy path is present without the legacy receipt |
| BtrbkSafety.ReachableAlways | ublue/skillet/crates/btrbk/src/lib.rs:217-256 | what every history of runs, boots of either image and exits keeps |
| BtrbkSafety.HeldAlways | ublue/skillet/crates/btrbk/src/lib.rs:217-256 | over every history of image runs, rollback runs and boots of both, cut anywhere, a definition at its path or in its archive still is |
| BtrbkSafety.RollbackThenImageSucceeds | ublue/skillet/crates/btrbk/src/lib.rs:217-256 | from every reachable state one finished rollback run leaves all three definitions, the legacy receipt, and the manager and the timer running from those definitions; one finished image run after it settles the host |
| BtrbkSafety.ImageAdmissionIff | ublue/skillet/crates/btrbk/src/migration.rs:27-69 | an image-mode run on its own image with an idle snapshot service is accepted if and only if definitions and archives are its own or absent and the legacy receipt stands over any definition left; a refused one has no effect |
| BtrbkSafety.RollbackAdmissionIff | ublue/skillet/crates/btrbk/src/lib.rs:217-253 | a rollback-mode run is accepted if and only if there is no archive or every definition left is its own; a refused one has no effect |
| BtrbkSafety.SelectionChangeIff | ublue/skillet/crates/btrbk/src/lib.rs:217-256 | after a migration another selection is accepted by the image if and only if no legacy text changed; the previous image accepts it at once, and after restoring the old definitions only under the same condition |
| Bluetooth.ApplyHost | ublue/skillet/crates/homeassistant/src/bluetooth.rs:16-72 | the two chained activations, effect by effect, for every cut |
| Bluetooth.FinishedRunDelivers | ublue/skillet/crates/homeassistant/src/bluetooth.rs:16-72 | from any state: a finished run has directories, all four texts, both receipts and an enabled, active broker; a policy that was off in any way was restarted on its texts by this run, and a broker that was off or whose policy was rewritten was restarted after that and found all four texts |
| Bluetooth.PolicyHasShape | ublue/skillet/crates/homeassistant/src/bluetooth.rs:26-49 | everything the policy half can leave behind |
| Bluetooth.ChainHolds | ublue/skillet/crates/homeassistant/src/bluetooth.rs:16-72 | over every history of cut runs and exits, a broker receipt at its target means the broker was last started after a policy start that saw the policy at its target; one finished run brings every receipt there |
| Bluetooth.SettledChainIsIdle | ublue/skillet/crates/homeassistant/src/bluetooth.rs:16-72 | a further run rewrites nothing and starts nothing |
| BootstrapStore.Store.Accounts | ublue/skillet/crates/gokapi/src/initial.rs:26-60 | every listed user but the administrator is created, an existing one is no error |
| BootstrapStore.Store.Publish | ublue/skillet/crates/gokapi/src/initial.rs:468-508 | two leaves moved one rename at a time, then marker, then the binding removed, for every cut |
| BootstrapStore.Store.Bootstrap | ublue/skillet/crates/gokapi/src/initial.rs:396-466 | binding, wipe, build in isolation, publication, for every cut |
| BootstrapStore.Store.Run | ublue/skillet/crates/gokapi/src/initial.rs:131-191 | an attempt, effect by effect, for every cut; what it comes to from any state is stated by `CompletesIff` |
| BootstrapRuns.PublishSound | ublue/skillet/crates/gokapi/src/initial.rs:468-494 | publication cut anywhere leaves halves of one build; finished it leaves marker and no binding |
| BootstrapRuns.InitializeSound | ublue/skillet/crates/gokapi/src/initial.rs:131-191 | no attempt, for any settings and cut anywhere, breaks that |
| BootstrapRuns.GenerationsNeverMix | ublue/skillet/crates/gokapi/src/initial.rs:131-191 | in every state reachable from empty directories a marker stands only over a configuration and a data directory of one build, complete for its settings |
| BootstrapRuns.AttemptCompletes | ublue/skillet/crates/gokapi/src/initial.rs:131-191 | whatever was cut before, an attempt with effects to spare finishes if and only if no other settings are bound, the native owner matches, the application is not serving other settings, and both leaves exist where nothing is bound or marked yet; finished, it leaves the marker over one complete build, no binding, and a next attempt without effect; otherwise it has no effect |
| BootstrapRuns.OtherSettingsRefused | ublue/skillet/crates/gokapi/src/initial.rs:396-401 | an open binding for other settings refuses every attempt before any effect |
| BootstrapRuns.NothingForeignIsTouched | ublue/skillet/crates/gokapi/src/initial.rs:402-437 | over every history, directories with content the bootstrap did not make are neither removed nor replaced nor ever covered by a binding |
| BootstrapRuns.AdoptedIff | ublue/skillet/crates/gokapi/src/initial.rs:176-190 | a native installation of another origin is given every listed account and a marker, without a binding, if and only if its owner matches and it is not being served |
| BootstrapAlways.MarkerNeedsDatabase | ublue/skillet/crates/gokapi/src/initial.rs:145-148 | from any state: a marker whose database is gone ends every attempt, for any settings, before any effect |
| BootstrapAlways.NotOfTheseIsRefused | ublue/skillet/crates/gokapi/src/initial.rs:139-166 | so does a marker or a database without configuration, a configuration of another owner, an open binding for other settings, or an application being served under another marker |
| BootstrapAlways.CompletesIff | ublue/skillet/crates/gokapi/src/initial.rs:131-191 | from any state: an attempt with effects to spare finishes if and only if nothing of that is so and both leaves have room for what it publishes; an attempt that finishes, with however few effects, leaves configuration and marker of these settings, no binding, the database, the data and the accounts |
| BootstrapAlways.FinishedWithoutBinding | ublue/skillet/crates/gokapi/src/initial.rs:131-191 | in particular, where no binding was open it leaves the native configuration of these settings, the database, and their marker |
| BootstrapAlways.FilledStays | ublue/skillet/crates/gokapi/src/initial.rs:396-494 | from any state: nothing that is in either directory is removed or replaced, and without a binding neither is a stage |
| BootstrapAlways.AdoptedAccounts | ublue/skillet/crates/gokapi/src/initial.rs:176-190 | an installation that is taken over gets exactly the listed accounts apart from the administrator |
| Access.PendingRoundTrip | ublue/skillet/crates/cli-common/src/access.rs:96-106 | reading a pending journal inverts writing it, and nothing else reads as one |
| Access.Account.Run | ublue/skillet/crates/cli-common/src/access.rs:88-114 | the finalization, effect by effect, for every cut |
| Access.FinalizeAdmission | ublue/skillet/crates/cli-common/src/access.rs:61-114 | from any account and any journal: a name that is none, a locked account or an unreadable journal refuses without effect, in that order; a later rule refuses before policy, password and completion; otherwise four effects suffice to finish |
| Access.FinalizeEffects | ublue/skillet/crates/cli-common/src/access.rs:88-114 | a finished attempt leaves the policy and a complete journal and has expired the password exactly when it was the recorded one; no attempt expires any other, or before the policy is installed |
| Access.FinalizeHasShape | ublue/skillet/crates/cli-common/src/access.rs:88-114 | everything an attempt cut anywhere can leave behind |
| Access.PromisesAlways | ublue/skillet/crates/cli-common/src/access.rs:88-114 | over every interleaving of cut attempts and password changes under salted hashes: only the first recorded password is ever expired, at most once, and completion means the policy is installed and that password expired or replaced |
| Access.CompleteIsFinal | ublue/skillet/crates/cli-common/src/access.rs:93-95 | after completion nothing is expired any more, whatever happens |
| Access.MalformedJournalIsInert | ublue/skillet/crates/cli-common/src/access.rs:96-102 | a journal that is neither text mutates nothing |
| Access.AttemptCompletes | ublue/skillet/crates/cli-common/src/access.rs:88-114 | an unobstructed attempt completes whatever was cut before it |
| Access.ExpiresAgainIff | ublue/skillet/crates/cli-common/src/access.rs:107-113 | without the assumption on hashes: a second expiry happens if and only if the journal is pending and the recorded hash is the current one again |
| Maintenance.LockFile.Lock | ublue/skillet/crates/core/src/maintenance.rs:16-39 | an activation is busy exactly when anyone holds the lock; a writer is busy exactly when an activation holds it and refused exactly when the flag is up; a refused one changes nothing, a granted one only its own entry |
| Maintenance.WritersExcluded | ublue/skillet/crates/core/src/maintenance.rs:7-38 | over every interleaving of any number of processes no writer guard coexists with the activation guard and no guarded write happens while the flag is up |
| Maintenance.FinalUntilReboot | ublue/skillet/crates/core/src/maintenance.rs:32-36 | once up, the flag stops every write until a reboot |
| Maintenance.RogueFlagIff | ublue/skillet/crates/core/src/maintenance.rs:29-37 | a flag raised without the lock fails to stop exactly a writer that already holds its guard |
| Subnets.CountsOnes | ublue/skillet/crates/core/src/firewall.rs:81-84 | the leading ones of a contiguous mask are its prefix |
| Subnets.EndpointsSuffice | ublue/skillet/crates/core/src/firewall.rs:85-88 | both ends of an aligned block private means all of it is private under section 3 of RFC 1918 |
| Subnets.PrivateSubnetExact | ublue/skillet/crates/core/src/firewall.rs:76-89 | a subnet is returned if and only if the mask is contiguous with prefix 1 to 30 and every address of the block is private, and it is that block |
| Subnets.PrivateInOctets | ublue/skillet/crates/core/src/firewall.rs:76-79 | the private addresses, octet by octet |
| Firewall.Firewalld.Desired | ublue/skillet/crates/core/src/firewall.rs:169-180 | the grants of all LANs by all ports, or the first interface without a usable zone |
| Firewall.Firewalld.Open | ublue/skillet/crates/core/src/firewall.rs:185-190 | one grant: at every cut a runtime addition is already permanent |
| Firewall.Firewalld.OpenAll | ublue/skillet/crates/core/src/firewall.rs:181-192 | additive at every cut; success means every wanted grant is in both stores and the result tells whether one was missing |
| Firewall.Firewalld.Converge | ublue/skillet/crates/core/src/firewall.rs:151-190 | port zero, no ports, no LAN and the first LAN without a zone are answered in that order without adding anything; otherwise only what the LANs ask for is added, permanent store first, and a finished run reports a change exactly when something was missing |
| Firewall.SettledStays | ublue/skillet/crates/core/src/firewall.rs:181-192 | after a completed run the next adds nothing, so it reports no change |
| Firewall.OpenMeansPermanent | ublue/skillet/crates/core/src/firewall.rs:183-190 | over the same histories whatever is open is permanent, with the same exception |
| Firewall.OpeningsLast | ublue/skillet/crates/core/src/firewall.rs:183-190 | over every history of cut runs for any LANs and ports, reloads and reboots, an opening never disappears again unless it was made at run time only before |
| Archive.AcceptedIff | ublue/skillet/crates/gokapi/src/backup.rs:219-253 | extraction accepts an archive if and only if every name is unique, relative, under `state` or the manifest, a plain file or directory, and after its parent; the disk then holds exactly what the entries say |
| Archive.TreeIsGrafted | ublue/skillet/crates/gokapi/src/backup.rs:146-164 | extracting what was written for a tree puts that tree below its prefix and changes nothing else, in any listing order |
| Archive.RoundTrip | ublue/skillet/crates/gokapi/src/backup.rs:110-125 | for every tree of regular files and directories in any listing order the archive is accepted and brings back exactly the two trees and the marker |
| GokapiBackup.BackupReadsBack | ublue/skillet/crates/gokapi/src/backup.rs:85-94 | a backup read back is the state up to what is not archived, and is healthy whenever that state was |
| GokapiBackup.HealthyIff | ublue/skillet/crates/gokapi/src/backup.rs:85-94 | a state is healthy exactly when marker, configuration and database are files, data is a directory and the settings checks accept marker and configuration together |
| GokapiBackup.SelectableIff | ublue/skillet/crates/gokapi/src/backup.rs:165-189 | what may be restored is named like an archive and opens with exactly this image's manifest; what a prune recognises opens with that of any image |
| GokapiBackup.RestoredHolds | ublue/skillet/crates/gokapi/src/backup.rs:219-250 | what is put in place is exactly what the entries at and under `state` say |
| GokapiBackup.Gokapi.AppendTree | ublue/skillet/crates/gokapi/src/backup.rs:146-164 | the recursive walk writes exactly the flattened tree; it fails exactly for a special file or a failing effect |
| GokapiBackup.Gokapi.CreateStopped | ublue/skillet/crates/gokapi/src/backup.rs:95-136 | succeeds exactly for a healthy plain state under free names with every effect working; wherever it stops its archive is complete or absent and no other name but its pending one is touched |
| GokapiBackup.Gokapi.Extract | ublue/skillet/crates/gokapi/src/backup.rs:219-253 | entry by entry into the staging directory; succeeds exactly for an orderly archive of a healthy state |
| GokapiBackup.Gokapi.Swap | ublue/skillet/crates/gokapi/src/backup.rs:272-280 | nothing is lost at any cut or failure; the state is missing if and only if the rename away worked and neither the rename into place nor the one back did |
| GokapiBackup.Gokapi.ReplaceState | ublue/skillet/crates/gokapi/src/backup.rs:254-281 | old state, restored state, or the old one beside its place; succeeds exactly for a selectable, restorable archive |
| GokapiBackup.Gokapi.Prune | ublue/skillet/crates/gokapi/src/backup.rs:198-218 | at every cut only expendable archives are gone, and all of them when it completes |
| GokapiBackup.NewestIsKept | ublue/skillet/crates/gokapi/src/backup.rs:198-218 | the newest archive is never pruned |
| GokapiBackup.WholeIsAdded | ublue/skillet/crates/gokapi/src/backup.rs:127-130 | a finished publication changed the directory by its one archive |
| GokapiBackup.Gokapi.Finish | ublue/skillet/crates/gokapi/src/backup.rs:51-56 | a stopped service is started again whatever the result |
| GokapiBackup.Gokapi.Create | ublue/skillet/crates/gokapi/src/backup.rs:17-32 | exactly the new archive and the pruning that follows it; given effects to spare it succeeds if and only if the state is healthy and plain and the names are free; the service ends as it was found or the error says otherwise |
| GokapiBackup.Gokapi.Restore | ublue/skillet/crates/gokapi/src/backup.rs:33-50 | nothing is lost and the service ends as it was found, or the error says otherwise; success means the selected state is in place, the one before it archived, and the directory pruned; a healthy selection succeeds however many archives are ahead of it |
| Retention.NamesAreTold | ublue/skillet/crates/gokapi/src/backup.rs:190-197 | a published name is recognised by its stamp and a pending name never is |
| Retention.TarStampIs | ublue/skillet/crates/gokapi/src/backup.rs:190-197 | exactly the names that are recognised as archives, and their stamps |
| Retention.SetStampIs | ublue/skillet/crates/airtrail/src/backup.rs:212-223 | so for upload sets |
| Retention.SortSound | ublue/skillet/crates/gokapi/src/backup.rs:212-212 | sorting a listing by a strict order orders it and keeps its members |
| Retention.PositionCounts | ublue/skillet/crates/gokapi/src/backup.rs:212-214 | in a sorted list a position counts the archives ahead of and behind it |
| Retention.TakenIff | ublue/skillet/crates/gokapi/src/backup.rs:212-214 | the ascending loop removes an archive if and only if seven or more come after it |
| Retention.SkippedIff | ublue/skillet/crates/airtrail/src/backup.rs:228-229 | the descending loop removes a set if and only if seven or more come before it, which is the same rule |
| Airtrail.AirTrail.CopyTree | ublue/skillet/crates/airtrail/src/backup.rs:249-272 | copies exactly the trees of plain files and directories |
| Airtrail.ValidSetIff | ublue/skillet/crates/airtrail/src/backup.rs:185-209 | what may be restored is named with digits only and is whole |
| Airtrail.AirTrail.Prune | ublue/skillet/crates/airtrail/src/backup.rs:212-233 | at every cut or failing removal only sets with seven at least as new are gone, and at most one of them is torn, to any part of what it was; complete, none is torn and every set with seven newer is gone |
| Airtrail.TornIsSelectableIff | ublue/skillet/crates/airtrail/src/backup.rs:185-209 | a prune can leave a set that a restore would still accept but that lost uploads if and only if the set has seven at least as new and has uploads to lose |
| Airtrail.OnlyPrunesTear | ublue/skillet/crates/airtrail/src/backup.rs:228-231 | over every history of backups and restores, cut or not, a set that is still there is what it was unless some prune stopped while removing it |
| Airtrail.AirTrail.CreateStopped | ublue/skillet/crates/airtrail/src/backup.rs:71-103 | a complete set or none, then pruning |
| Airtrail.SelectedIsKeptIff | ublue/skillet/crates/airtrail/src/backup.rs:89-98 | a set with a stamp of its own survives the backup that precedes a restore if and only if at most five of the sets present are newer |
| Airtrail.AirTrail.RestoreUploadsFrom | ublue/skillet/crates/airtrail/src/backup.rs:159-183 | success means the uploads are the source tree; otherwise they are that tree, as before, or beside their place |
| Airtrail.AirTrail.RestoreStopped | ublue/skillet/crates/airtrail/src/backup.rs:105-157 | for every failing effect, with a failed load leaving any database: both stores from the selected set, or both as in the recovery set or as before, unless the error is the failed rollback or the failed rename back |
| Airtrail.AirTrail.FinishServiceTransition | ublue/skillet/crates/airtrail/src/backup.rs:60-69 | the service is started again whatever the result; a failure to do so hides the result |
| Airtrail.AirTrail.Create | ublue/skillet/crates/airtrail/src/backup.rs:34-41 | exactly one new kept set of both stores, then the pruning; given effects to spare it succeeds if and only if the uploads are a plain tree and the name is free; the service ends as it was found or the error says otherwise |
| Airtrail.AirTrail.Restore | ublue/skillet/crates/airtrail/src/backup.rs:44-58 | on every return, whatever the clock says, both stores are as before or both from the selected set as it lies there, or the error names the failed rollback, rename back or restart; the service ends as it was found or the error says so; an undisturbed restore succeeds if and only if at most five sets are newer than the selected one |
| CaddyNames.ExpandAliasLabels | ublue/skillet/crates/caddy/src/lib.rs:718-739 | the loop over labels computes the expanded alias or refuses |
| CaddyNames.AliasLabels | ublue/skillet/crates/caddy/src/lib.rs:718-739 | an expanded alias has exactly the labels written, each host placeholder replaced, all valid |
| CaddyNames.AliasExpandsIff | ublue/skillet/crates/caddy/src/lib.rs:718-739 | a relative alias is refused exactly for its length, a dot at an end, or a label that is neither valid nor the placeholder |
| CaddyNames.AliasLands | ublue/skillet/crates/caddy/src/lib.rs:698-716 | an alias that ends in the zone placeholder lands below the zone, or is refused without one; any other lands below the UI domain |
| CaddyNames.ResolvedEndsWith | ublue/skillet/crates/caddy/src/lib.rs:698-716 | a resolved alias lies below the UI domain or the zone |
| CaddySites.AliasConflicts | ublue/skillet/crates/caddy/src/lib.rs:680-696 | the name table after one alias, and whether it was refused |
| CaddySites.CollectNames | ublue/skillet/crates/caddy/src/lib.rs:573-622 | all names of one service claimed in order, or refused |
| CaddySites.ExtendSites | ublue/skillet/crates/caddy/src/sharing.rs:24-79 | the derived sharing sites, or a refusal |
| CaddyClaims.ServiceAdded | ublue/skillet/crates/caddy/src/lib.rs:545-637 | what one declaration adds is the site it asks for, under names that were free, and nothing else is then taken |
| CaddyClaims.ServiceAdds | ublue/skillet/crates/caddy/src/lib.rs:545-637 | and any site it asks for is added whenever the declaration keeps the rules and its names are free |
| CaddyBuilds.SurfaceAdded | ublue/skillet/crates/caddy/src/sharing.rs:30-77 | what sharing adds is the surface the declaration asks for, pointing where its owner points |
| CaddyBuilds.SurfaceAdds | ublue/skillet/crates/caddy/src/sharing.rs:30-77 | and any such surface is added whenever its names are free |
| CaddyBuilds.BuiltIffLawful | ublue/skillet/crates/caddy/src/lib.rs:536-640 | for every list of declarations and every list of sites: these are built if and only if they are lawful, that is, one site per declaration with its name, upstream, transport, port, cache, identity and refresh, called by its public names below the zone or by its own name and its resolved aliases in order; then one surface per sharing declaration; every rule on declarations kept, and no hostname, alias or site name given twice |
| CaddyBuilds.Build | ublue/skillet/crates/caddy/src/lib.rs:536-640 | the loop over declarations builds the lawful sites, or refuses exactly when none are |
| CaddyNamesUnique.HostnamesAreUnique | ublue/skillet/crates/caddy/src/lib.rs:536-640 | over all sites, sharing included, hostnames and aliases are pairwise distinct, site names unique, every name below zone or UI domain, and the machine's name at most an alias of the identity-protected dashboard |
| CaddyNamesUnique.HostnamesAreDns | ublue/skillet/crates/caddy/src/lib.rs:741-770 | every name a service is reached by has at most 253 bytes and two or more labels of 1 to 63 letters, digits and inner hyphens |
| CaddyPayload.ParsePayload | ublue/skillet/crates/caddy/src/lib.rs:244-326 | a payload is accepted exactly when it meets what a guest demands, and then taken as it was sent |
| CaddyPayload.Downgraded | ublue/skillet/crates/caddy/src/lib.rs:250-268 | the three loops give each declaration the form an older payload could carry |
| CaddyPayload.VersionIsLeast | ublue/skillet/crates/caddy/src/lib.rs:213-232 | a host writes the oldest version that can carry what it declares |
| CaddyPayload.HostBuildsIff | ublue/skillet/crates/caddy/src/lib.rs:188-242 | a host builds a payload exactly for a valid host, domain, zone and machine name and lawful sites, and nothing else goes into it |
| CaddyPayload.LawfulShow | ublue/skillet/crates/caddy/src/lib.rs:623-638 | lawful sites are one per declaration, then sharing surfaces; public, cached or shared services need the zone |
| CaddyPayload.ParsedIff | ublue/skillet/crates/caddy/src/lib.rs:244-326 | accepted if and only if version, zone, names, users and token are as demanded, no site exceeds its version, and the sites are the lawful ones of the declarations as that version could carry them |
| CaddyPayload.BuiltFits | ublue/skillet/crates/caddy/src/lib.rs:213-232 | the version a host chooses admits what it builds and needs no downgrade |
| CaddyPayload.DeliveredIsRead | ublue/skillet/crates/caddy/src/lib.rs:188-326 | every payload a host can build, with any users and token, is read back unchanged, or refused for the users or the token alone |
| CaddyPayload.AcceptedIsRebuilt | ublue/skillet/crates/caddy/src/lib.rs:244-326 | whatever is accepted is what was sent and what the downgraded declarations build for that place, lawfully |
| CaddyPayload.OldPayloadsStayPrivate | ublue/skillet/crates/caddy/src/lib.rs:261-287 | an accepted payload below version 6 has only private sites, and each service that is public by now sits behind the identity gate |
| CaddyRoutes.RunAppend | ublue/skillet/crates/caddy/src/lib.rs:362-401 | running a route with more appended is running both in order, until one answers |
| CaddyMeaning.GateMeans | ublue/skillet/crates/caddy/src/lib.rs:370-374 | the tailnet gate answers first, then all client-made identity headers are gone |
| CaddyMeaning.CorsMeans | ublue/skillet/crates/caddy/src/lib.rs:473-486 | the cross-origin headers of exactly the requesting dashboard origin |
| CaddyMeaning.OriginChecksMean | ublue/skillet/crates/caddy/src/lib.rs:411-467 | origin checks, cross-site checks with the one navigation exception, and preflights, as the policy states them |
| CaddyMeaning.IdentityMeans | ublue/skillet/crates/caddy/src/lib.rs:403-471 | the identity gate as the policy states it |
| CaddyMeaning.SharingMeans | ublue/skillet/crates/caddy/src/sharing.rs:83-119 | the closed sharing table as the policy states it |
| CaddyMeaning.HomerMeans | ublue/skillet/crates/caddy/src/lib.rs:488-501 | the dashboard's own file and its two Pi-hole calls |
| CaddyMeaning.CacheMeans | ublue/skillet/crates/caddy/src/cache.rs:26-49 | the cached path and nothing else |
| CaddyMeaning.ServiceMeans | ublue/skillet/crates/caddy/src/lib.rs:383-400 | everything behind the gates as the policy states it |
| CaddyMeaning.RenderingMeans | ublue/skillet/crates/caddy/src/lib.rs:362-401 | on every request the rendered route of every site does what the policy of the site says |
| CaddyGuarantees.GatesComeFirst | ublue/skillet/crates/caddy/src/lib.rs:371-382 | nothing is served or forwarded before the gates, and this is what they answer: 403 outside the tailnet and to what another web origin drives, 204 to the dashboard's preflights, a refusal to whoever is not vouched for, the placeholder token only after that |
| CaddyGuarantees.ServiceComesLast | ublue/skillet/crates/caddy/src/lib.rs:383-400 | behind the gates a site that is not set up answers 503, the dashboard gets its generated configuration, everything else goes upstream |
| CaddyGuarantees.ReadableByDashboard | ublue/skillet/crates/caddy/src/lib.rs:473-486 | an answer carries cross-origin headers exactly for another origin of the dashboard that calls a site it may call, past the origin checks; every answer insists on HTTPS |
| CaddyGuarantees.NoForgedIdentity | ublue/skillet/crates/caddy/src/lib.rs:374-376 | no upstream sees an identity the client made up |
| CaddyGuarantees.ForwardsToItsOwn | ublue/skillet/crates/caddy/src/lib.rs:503-534 | a site forwards to its own upstream and port or its own socket, path unchanged; the dashboard also makes exactly two read-only calls of Pi-hole under its own paths |
| CaddyGuarantees.UpstreamSees | ublue/skillet/crates/caddy/src/lib.rs:503-525 | besides the identity an upstream sees the client's headers, except that Pi-hole and Home Assistant are shown their own names |
| CaddyGuarantees.SharingIsClosed | ublue/skillet/crates/caddy/src/sharing.rs:81-119 | a sharing surface forwards exactly its table, path by path, never an encoded path and never an API key; its front page answers 200, everything else 403 |
| CaddyGuarantees.CachedIff | ublue/skillet/crates/caddy/src/cache.rs:26-49 | an answer goes through the cache exactly for a static asset of the web client asked for without query, range or credential, on a site that caches |
| CaddyGuarantees.CacheIsPublic | ublue/skillet/crates/caddy/src/lib.rs:646-664 | what a host builds is cached only on public sites and only without credentials |
| CaddyConfig.Render | ublue/skillet/crates/caddy/src/lib.rs:332-359 | each block carries out, on every request, the policy of a site that bears its hostname; every name of every site has such a block; the dashboard's origins are exactly those of the names of the sites called homer; hostnames come in the order of the sites |
| CaddyConfig.BlocksCover | ublue/skillet/crates/caddy/src/lib.rs:353-357 | the same of the blocks of any part of the sites |
| CaddyConfig.RenderSite | ublue/skillet/crates/caddy/src/lib.rs:362-401 | the pushes build the specified route |
| CaddyConfig.RenderIdentityPolicy | ublue/skillet/crates/caddy/src/lib.rs:403-471 | so do these, with their loops over origins |
| CaddyConfig.AcceptedHostsAreUnique | ublue/skillet/crates/caddy/src/lib.rs:244-359 | whatever a guest accepts renders to blocks with pairwise different hostnames below its zone |

## Left out

- AirTrail.RestoreStopped: a failed rename back of the old uploads is reported like any other failure by the source; the model gives it an error of its own (`Stranded`), and the pair theorem excludes it.
- Swap: `replace_state` is not safe against being killed between its two renames; the exact condition is part of its contract and nothing is lost, but the state is then beside its place.
- ReceiptsAreFaithful: holds for retries of one target; what a change of target can do is stated by `StaleReachableIff`.
- PromisesAlways: at most one expiry assumes that a chosen password never repeats an earlier salted hash; `ExpiresAgainIff` drops the assumption.
- RollbackThenImageSucceeds: says nothing about the enablement link after a rollback run that had nothing to restore, because `systemctl enable` is modelled as leaving an existing link alone (`LegacyHasShape` has the link in both cases).
- HostnamesAreUnique: does not bound sharing names to 253 bytes, because the source measures only their labels.
- SHA-256 revisions are the concatenated bytes themselves, so two targets are taken to differ when their bytes do; definitions are parameters of the model.
- JSON, Caddyfile and tar encodings: values, directives and entry lists are used instead. The archive manifest is a text that names its image. Long tar names and the byte layout are not modelled.
- Symbolic links and other special nodes outside archives, and reading through a link to the bootstrap marker or native configuration of a backup.
- Owners and modes in the histories of runs: `FileEffects` has them for one path, elsewhere a write reports a change exactly when bytes differ. Account lookups are done before. Directory metadata.
- Durability (`sync_all` is an effect that can fail, nothing more) and the temporary names used for atomic replacement.
- The quarantine branch that finds a file changed by someone else during retirement: outside edits happen between runs.
- `core/src/files.rs` beyond the file effects used here, and validation of the image's binary path.
- The text of settings (URLs, user names) in the bootstrap, and the HTTP conversation with the isolated application: they are effects with stated results.
- `podman`, `systemctl`, D-Bus and PostgreSQL: effects that work, fail or are the last; retry loops with deadlines are one attempt.
- The lock file of the Gokapi operations as a lock: taking it is an effect that can fail.
- Directories beside their place (staged, previous, displaced trees) whose removal fails: they are left as they were, and nothing is claimed of them.
- Pending AirTrail sets: their names are never recognised, and they are not part of the directory model; a listing order of a copied tree is kept.
- Path matching in Caddy (case folding, cleaning), header values given more than once, conditional response headers of the cache, TLS and ACME.
- Error messages: where the source distinguishes refusals by text only, the model has one refusal.
- Names are sequences of bytes; Unicode is not modelled.
- `observe_lans` (which interfaces count), the tailnet authorization broker itself, host proxy units, container options and images.
- Chef cookbooks, host profiles, guest scripts, Datadog, DDNS, kexec, VM and PostgreSQL crates.
