# A verified model of the Atom Loops update protocol

Atom Loops keeps two copies of an operating system, stages a candidate beside the installed
release, lets the boot loader try it on a bounded budget, and promotes it or rolls it back. Its
safety rests on the order of durable writes across two directories, two state files and two
programs (a Go daemon and an EFI loader in Zig), any of which power loss can cut. This project
states that protocol in Dafny and proves what it keeps.

`dafny verify dfyconfig.toml` checks everything.

## How it is built

- **One write is one step.** A routine that changes durable state is a method on a store with
  `power` writes left (`Plans.Store`). Its contract says that it makes exactly the writes of a
  *plan*, in order, as far as the power goes; the plan is a function of what the routine finds.
  `Cut(s, plan, p)` is the state after a loss of power, and the theorems quantify over `p` and
  over sequences of cuts.
- **Why one replacement may be one write** is itself proved: `Durable` takes the file helpers
  apart into system calls over names, inodes and temporary files.
- **Runs.** `Runs` puts reboots, the boot chooser, BootSuccess, staging and rollback in any order,
  each cut anywhere. The `log` in a state is a history for stating theorems, not a file.

| module | what it models |
|---|---|
| `Plans`, `Directory`, `Device` | cut routines; one directory of files; the slots, WAL, boot-state and counter of a device |
| `Durable`, `Counter` | the atomic file helpers, the two-copy WAL, the file counter |
| `Versions`, `DeploymentWal`, `FirmwareTrack` | version numbers, the WAL record and its transitions, the firmware bundles in it |
| `PromoteSlots`, `Loader`, `BootSuccess`, `Stage`, `KernelCoupling` | the routines of the update protocol |
| `LoaderFloor`, `ReportEnds`, `Promotions`, `StagedDrivers`, `StagingExactly`, `RootChoice` | what they come to, written out in terms of files, hashes, versions and fields |
| `PromotionSafety`, `RollForward`, `Trials` | what they keep: every prefix, every crash, every trial boot |
| `Runs`, `TrialRuns`, `Bootable` | whole runs: counters and promotions, trial boots, bootability |
| `Leftover`, `LeftoverRun`, `LeftoverWitness` | a run that loses the installed root, from the installation on, and one device it happens to |
| `StagedSlots`, `BundleFetch` | what fetching a release and its firmware bundles does to the disk |
| `Recovery`, `FirmwareSlot`, `FirmwareConfirm` | the recovery swap, the six-file firmware slot |
| `LoaderTrial`, `LoaderVerdicts` | the loader candidate, its failures and the image that ran |
| `BootStateText`, `RootSelect`, `FirmwareMount`, `Consent` | the boot-state file as text, root selection, firmware mounts, download consent |

## Assumptions

- Renames and removes are atomic and durable in program order.
- Hashes, signatures, certificates and the parsing of manifests are parameters. Where a theorem
  needs it, it says that a signature is valid for one image only (`Loader.SignaturesBind`), that a
  digest stands for one image (`LoaderTrial.Injective`) or that dm-verity opens a release's own
  pair only (`PromotionSafety.OpensOnly`).
- BootSuccess runs at most once per boot and never beside staging.
- The hardware counter, when there is one, is monotone.
- `Bootable` is about orderly runs: no candidate is given up unless the active slot still is the last
  known good release, none is overwritten before it is decided, and what verifies against a trusted
  manifest is the one release of its version.

## Where the code does less than it says

Each of these is a lemma with the exact condition or a concrete run.

- A candidate is not always decided within threshold times attempts trial boots: a missed boot wipes
  out earlier good boots while their refreshed budget stays, and a good boot cut between boot-state
  and WAL changes nothing (`Trials.RankFalls`, `Trials.CutGoodBootIsNoProgress`). A user who picks the
  active slot at every other boot keeps it undecided for ever (`TrialRuns.ChooserNeverDecides`); what
  does hold over all runs is `TrialRuns.TrialBootsBounded`.
- Promotion installs whatever is staged. A later staging that was aborted after replacing the
  rootfs files is promoted with the older kernelcache (`PromotionSafety.PromotedBoots`).
- A promotion that was cut and then abandoned can make the next one unsafe from its first write:
  exactly when the installed rootfs does not survive it (`PromotionSafety.PrefixesKeepRoot`,
  `Leftover.AbandonedPromotionLosesRoot`). Every installed device can get there
  (`LeftoverRun.InstallationToLoss`, `LeftoverWitness.LossHappens`).
- A version without a trailing integer lowers the anti-rollback counter when it is promoted
  (`Runs.UnnumberedLowersCounter`).
- `internal/otad/fwanchor.go:121-124` promises that an interrupted activation never leaves a torn
  anchor; each file is atomic, the set of four is not. `FirmwareSlot.AnchorWholeExactly` says when it
  is whole, whatever files are there; with a new manifest under the same certificate it is torn after
  operations 5, 6, 7, 9 and 11 (`FirmwareSlot.SameCertificate`), with a new certificate after every
  one from 5 to 11 (`FirmwareSlot.AnchorTornBetween`). A rollback undoes every cut, under the condition of `FirmwareSlot.UndoExactly`.
- `internal/otad/otad.go:266-272` keeps WAL and slot together, but the WAL is saved first and no later
  confirmation looks at the slot (`FirmwareConfirm.FailedProbeCut`).
- The recovery repair is not resumable between its own two renames
  (`Recovery.InterruptedRepair`).
- A second download can be claimed while the first one runs, and hides it
  (`Consent.SecondClaimExactly`, `Consent.SecondClaimHidesFirst`).
- A loader version that failed comes back without an explicit retry once another verdict is on record:
  the file holds one version, an install removes it, and a cut between emptying and writing it loses it
  (`LoaderVerdicts.RestagedExactly`, `LoaderVerdicts.FailedVersionReturns`).
- A loader image can be installed that never ran, if another one of its version did
  (`LoaderVerdicts.OtherImageRan`).
- A bundle that has no good version yet keeps a failed candidate's version once it has probed clean
  (`FirmwareConfirm.FailedCandidateLeavesNothing`).
- The comment at `loader/src/main.zig:271-273` allows a one-byte tail; the file relies on the
  loader counting by one (`BootStateText.LongerStepLeavesGarbage`).
- An installed loader may be installed again after a crash, so versions rise strictly only where
  the bytes change (`LoaderTrial.InstallsSound`).

## Model

| member | source | states |
|---|---|---|
| `PromotionSafety.PrefixSafe` | internal/otad/slots.go:279-319 | After every prefix of the promotion's writes the trial cascade boots the candidate with its rootfs pair on disk, and the stable cascade boots the old or the new release exactly when the prefix is outside the window between installing the active kernelcache and refreshing the previous signature (or that signature already was the installed release's) |
| `PromotionSafety.PromotionResumes` | internal/otad/slots.go:276-319 | Interrupted any number of times and replanned each time from what is on disk, a completed promotion ends in the same state as an uninterrupted one |
| `PromotionSafety.PromotedFiles` | internal/otad/slots.go:279-319 | After any interruptions every active file is the staged one and every previous file the old active one, unless active already was the staged file |
| `PromotionSafety.StagingStaysInNext` | internal/otad/slots.go:223-245 | Installing a new staged file changes no other slot, although rootfs names share inodes after a promotion |
| `PromotionSafety.PromotedBoots` | internal/otad/slots.go:276-319 | Promotion installs whatever is staged: afterwards the stable cascade boots the candidate whose kernelcache was staged if and only if its rootfs image and tree survive in some slot |
| `PromotionSafety.PrefixesKeepRoot` | internal/otad/slots.go:279-319 | Every half step up to the kernelcache keeps the installed release bootable from the stable cascade if and only if its rootfs pair survives the promotion, whether or not files are skipped |
| `PromotionSafety.WritesKeepRoot` | internal/otad/slots.go:279-319 | The same over the writes of the plan |
| `PromotionSafety.RootAt` | loader/src/main.zig:508-512 | At each half step before the kernelcache: the stable cascade starts the installed release, and finds its root if and only if some slot still holds its image and some slot its tree |
| `PromotionSafety.LeftoverLosesRoot` | internal/otad/slots.go:311-316 | Where the installed rootfs image does not survive, the first write of the promotion already leaves the stable cascade with a kernel and no root |
| `Leftover.AbandonedPromotionLosesRoot` | internal/otad/otad.go:141-200 | A run that leads there: promotion cut after the rootfs files on the last trial boot, the fallback boot that gives the candidate up, and the staging of the next release |
| `LeftoverRun.LastChanceReached` | internal/deployment/transition.go:67-98 | The beginning of that run, from any installed device and for any threshold and budget: staging, good boots up to one short of the threshold, boots without a report until the budget is spent |
| `LeftoverRun.InstallationToLoss` | internal/otad/slots.go:276-319 | The whole run, from the installed device to the promotion whose first write leaves the stable cascade without its root |
| `LeftoverWitness.LossHappens` | internal/deployment/transition.go:37-58 | One freshly installed device on which it happens |
| `PromotionSafety.TrialSafe` | loader/src/main.zig:496-518 | At every half step the trial cascade hands over to the candidate and its root can be opened |
| `PromotionSafety.StableSafe` | loader/src/main.zig:496-518 | The exact half step at which neither the active nor the previous slot verifies |
| `PromotionSafety.RootsStay` | boot/root.go:292-306 | The rootfs pairs the cascades need stay openable at every half step |
| `RollForward.RollsForward` | internal/otad/otad.go:173-200 | With at least as many trial boots left as there are crashes inside the promotion, rebooting and confirming again always ends in the state of the run that was never cut: slots, boot-state, both WAL copies, counter |
| `RollForward.UncommittedReboot` | loader/src/main.zig:649-651 | Until the WAL commits, an automatic boot of the interrupted device runs the candidate and costs one trial boot |
| `RollForward.CommittedReboot` | internal/otad/otad.go:91-113 | After the WAL commits, an automatic boot runs the candidate from the active slot and charges nothing |
| `RollForward.CommittedEnds` | internal/otad/otad.go:91-113 | The stable branch completes the cleanup and arms a counter that the crash left behind |
| `RollForward.HalfwayOfHalfway` | internal/otad/slots.go:279-319 | Promoting a half-promoted disk further is the further of the two positions |
| `Trials.RankFalls` | internal/otad/otad.go:136-172 | A trial boot that leaves the candidate on trial lowers (threshold - stable boots, attempts) if and only if it is neither a good boot cut between boot-state and WAL nor a missed boot that wipes out earlier good ones |
| `Trials.TrialsBounded` | internal/deployment/transition.go:67-98 | A sequence of consecutive automatic trial boots without those two stalls is at most threshold times attempts long |
| `TrialRuns.TrialBootsBounded` | internal/otad/otad.go:86-210 | Over any run -- boots of any slot, reports cut anywhere, stagings, rollbacks -- the trial boots number at most the start's potential, plus a budget for each torn good report and each missed report that finds no trial boot-state, plus threshold times budget for each missed report that wipes out a good boot without giving the candidate up and for each staging that commits |
| `TrialRuns.DecidedInTime` | internal/deployment/transition.go:67-98 | A run without those makes at most threshold times budget trial boots, missed reports of a candidate without a good boot included |
| `TrialRuns.StagingEntersTrial` | internal/otad/stage.go:210-236 | A staging that completes puts its candidate on trial with the whole budget, within the bounds |
| `TrialRuns.StepWithin` | loader/src/main.zig:649-651 | What each event may cost or give back; a report raises the trial boots still possible if and only if it is a torn good one, finds no trial boot-state, or wipes out a good boot, and does not give the candidate up |
| `TrialRuns.MissedWithin` | internal/otad/otad.go:138-172 | A missed report cut anywhere raises them if and only if it wipes out a good boot, or writes a new boot-state, without giving the candidate up |
| `Trials.CutGoodBootIsNoProgress` | internal/otad/otad.go:201-209 | The bound is false without that condition: a good boot cut after its boot-state write can leave everything as it was |
| `TrialRuns.ChooserNeverDecides` | internal/otad/otad.go:141-172 | A run in which the user picks the active slot at every other boot leaves the candidate undecided with its whole budget, after any number of rounds |
| `Trials.MissedNeverRaisesBudget` | internal/otad/otad.go:136-172 | A BootSuccess that does not confirm the candidate never raises the loader's budget, wherever it is cut |
| `Trials.SpentBudgetReturns` | internal/otad/otad.go:141-172 | Once the budget is spent the loader leaves the trial cascade, and the first healthy fallback boot returns WAL and boot-state to the last known good release and clears the staged slots |
| `Runs.OrderKept` | internal/deployment/transition.go:106-118 | In every run of boots, reports, stagings and rollbacks cut anywhere: hardware counter <= WAL counter <= last known good <= current <= pending, neither counter falls, and the floor check refuses none of these images |
| `Runs.UnnumberedLowersCounter` | internal/deployment/transition.go:67-75 | Why versions must be numbered: a freshly staged version keeps the counter from falling at promotion if and only if it is numbered or the counter has never moved |
| `Runs.OnlyEarned` | internal/otad/otad.go:130-137 | In every run the last known good release is the one promoted last, each promotion matched hash and release label and was the version last staged, BootSuccess promoted after threshold good boots in a row and staging after at least one, all of that candidate |
| `Promotions.OnlyTheCandidate` | internal/otad/otad.go:125-136 | Every good boot and every promotion that a run records was recorded for the system that was up, which had the recorded root hash, not empty, and the candidate's label but for a leading v |
| `Promotions.OthersNeverConfirm` | internal/otad/otad.go:131-172 | A report of a system whose hash or label differs, cut anywhere, records at most a missed boot |
| `Promotions.CandidateCounts` | internal/otad/otad.go:173-209 | A healthy report of a system that agrees in both always counts: as a promotion at the threshold, as a good boot below it |
| `ReportEnds.MissedEnds` | internal/otad/otad.go:136-172 | A report of another system that is not cut: the attempts left are the loader's if they can be compared, none if it was sent to active, and else one less; with none left the candidate is given up for the last good release, with some it keeps them and loses its good boots |
| `ReportEnds.StableEnds` | internal/otad/otad.go:91-121 | With nothing pending a report brings the hardware counter up to the record, sends the loader to active and empties the staged slots |
| `ReportEnds.RunningEnds` | internal/otad/promote.go:10-40 | Staging first promotes the candidate if it is what runs and had a good boot, refuses if the slots of such a candidate are incomplete, and otherwise does nothing |
| `ReportEnds.RollbackEnds` | internal/otad/otad.go:330-343 | The explicit rollback gives the candidate up and sends the loader to active |
| `ReportEnds.BackupStandsIn` | internal/deployment/wal.go:16-26 | A damaged primary copy of the WAL makes no difference: every routine plans what it would with the backup in its place |
| `ReportEnds.AskedFor` | internal/otad/slots.go:21-54 | The boot-state written for a record, and the cascade the loader takes from it: trial with attempts left, recovery with none left and no good release, stable otherwise |
| `Promotions.SameReleaseMeans` | internal/otad/otad.go:398-400 | Labels are the same release if and only if they are equal or one is the other with a v in front |
| `Promotions.CounterFollowsPromotions` | internal/deployment/transition.go:106-118 | In every numbered run the WAL counter is the number of the version promoted last, and the initial counter as long as none was |
| `Promotions.PromotionArmsHardware` | internal/otad/otad.go:190-200 | A promotion that is not cut leaves the hardware counter at the larger of its old value and the number it promotes, where there is a counter |
| `Runs.FreshDevice` | internal/deployment/transition.go:37-58 | A newly installed device starts in both run invariants |
| `Bootable.AlwaysBoots` | internal/otad/otad.go:86-210 | In every state of every orderly run an automatic boot hands over to the last known good or the pending release with its rootfs openable, unless the promotion is between a kernelcache and its signature with no trial boot left |
| `Bootable.SafeBoots` | loader/src/main.zig:639-663 | The invariant behind it gives that boot |
| `Bootable.StepKeeps` | internal/otad/otad.go:86-210 | Every orderly event, cut anywhere, keeps the invariant |
| `Bootable.FreshSafe` | internal/deployment/transition.go:37-58 | A newly installed device starts in it |
| `Runs.StepMoves` | internal/otad/otad.go:86-210 | Every event, cut anywhere, is at most two WAL commits of the kinds the transitions allow |
| `Runs.UpdateMoves` | internal/otad/stage.go:51-230 | Staging commits at most the running candidate's promotion and then its own record |
| `BootSuccess.Confirm` | internal/otad/otad.go:86-210 | BootSuccess makes exactly the writes of its plan, in order, up to where the power ends, and reports a promotion only for a confirmed candidate at the threshold |
| `BootSuccess.ChargeMissedBoot` | internal/otad/otad.go:138-172 | The branch for a boot that was not the candidate's: budget reconciled with the loader's, rollback when it is spent |
| `BootSuccess.CommitPromotion` | internal/otad/otad.go:173-200 | Slots, then boot-state, then WAL, then cleanup; nothing at all when the slots are incomplete |
| `BootSuccess.ConfirmStable` | internal/otad/otad.go:91-121 | The stable branch: arm a counter left behind, rewrite boot-state, clean up |
| `BootSuccess.PromoteRunningCandidate` | internal/otad/promote.go:10-40 | The promotion before staging: only the running, confirmed candidate with a good boot; refuses incomplete slots untouched |
| `BootSuccess.Rollback` | internal/otad/otad.go:330-343 | The explicit rollback writes boot-state and WAL of the rolled back record |
| `PromoteSlots.PreflightSlots` | internal/otad/slots.go:247-274 | Accepts exactly the disks whose next and active slots are complete and non-empty |
| `PromoteSlots.Promote` | internal/otad/slots.go:279-319 | Refuses an incomplete disk untouched and otherwise makes the planned writes up to where the power ends |
| `PromoteSlots.PromoteFile` | internal/otad/slots.go:289-316 | One file: nothing when active already is next, else active to previous and next to active |
| `Device.Save` | internal/deployment/wal.go:46-59 | The backup copy is written before the primary |
| `Device.CleanupNextSlots` | internal/otad/slots.go:323-334 | Removes the four staged files in order |
| `Loader.ChainloadCascade` | loader/src/main.zig:496-518 | Hands over to the first slot of the cascade that verifies, passes the floor and starts |
| `Loader.Start` | loader/src/main.zig:639-663 | An automatic boot charges the trial budget before anything is chained and picks the cascade by boot-state and unlock consent |
| `Loader.StableChoice` | loader/src/main.zig:508-512 | The stable cascade is active, then previous, then recovery |
| `LoaderFloor.CascadeExactly` | loader/src/main.zig:453-518 | A cascade starts a slot if and only if that is the first, in the order candidate, installed, previous, recovery and of those the cascade may start, whose image and signature are there and verify, which starts, and which carries no version below the floor of a machine with a TPM |
| `LoaderFloor.PickedExactly` | loader/src/main.zig:617-630 | A slot picked by hand starts if and only if it passes the same checks, and otherwise the active slot does |
| `LoaderFloor.NothingBelowFloor` | loader/src/main.zig:472-484 | With a TPM no cascade and no pick starts an image whose version is below the floor |
| `LoaderFloor.RunningAboveFloor` | loader/src/main.zig:472-484 | In every run what an automatic boot or a pick leaves running has a valid signature and no version below the hardware counter |
| `LoaderFloor.AutomaticBoot` | loader/src/main.zig:634-665 | An automatic boot: a recovery request or an armed unlock starts no installed system and charges nothing; a trial with attempts left costs one of them whatever then starts; any other boot charges nothing and never starts the candidate; and no allowed slot before the one that started passes |
| `DeploymentWal.Deployment.Deploy` | internal/deployment/transition.go:67-75 | The new record: pending, fresh budget, kernelcache number, no stable boots |
| `DeploymentWal.Deployment.RecordGoodBoot` | internal/deployment/transition.go:82-98 | Switches to the candidate, counts, and promotes at the threshold with a confirmed identity only |
| `DeploymentWal.Deployment.PromoteRunning` | internal/deployment/transition.go:100-104 | Promotes a pending candidate, else nothing |
| `DeploymentWal.Deployment.Promote` | internal/deployment/transition.go:106-118 | Last known good is current, nothing pending, counter at the current number |
| `DeploymentWal.Deployment.DecrementBootAttempt` | internal/deployment/transition.go:232-240 | Spends one attempt of a pending candidate and says whether none is left |
| `DeploymentWal.Deployment.Rollback` | internal/deployment/transition.go:248-263 | Back to last known good, else to the rollback version, with its kernelcache number |
| `Versions.ScanKc` | internal/deployment/transition.go:16-29 | The number of the trailing digits, none without digits or outside int |
| `Versions.ScanVersionNumber` | internal/otad/stage.go:266-279 | The same digits accumulated in a machine int, wrapping around |
| `Versions.ReadingsAgree` | internal/otad/stage.go:266-291 | The two readings of one version agree if and only if its integer fits an int |
| `Versions.DowngradeMeans` | internal/otad/stage.go:265-296 | A version is a downgrade if and only if both end in a number and its number is less, as far as the numbers fit |
| `Versions.AtoiMeans` | internal/otad/hwselect.go:103-137 | Digits are a number that fits 64 bits, with or without a sign |
| `Versions.TailStart` | internal/deployment/transition.go:17-21 | The trailing digit run is maximal |
| `Stage.FetchVerifiedManifest` | internal/otad/stage.go:298-362 | Accepts a manifest if and only if it chains to the root key through an unrevoked certificate and has the recorded digest |
| `Stage.AllOrNothing` | internal/otad/stage.go:51-230 | Wherever staging fails or is cut, the WAL is what promoting the running candidate left, unless every staged file, of the release and of its bundles with their anchors, is in place and verified |
| `Stage.FetchAtomic` | internal/otad/stage.go:69-230 | The same for the fetches and the commit alone |
| `Stage.ArtifactsVerified` | internal/otad/stage.go:80-196 | After the fetches the four files of the release and the image and tree of every staged bundle are there and hash to what the manifest says, and the anchor lies beside each bundle |
| `Stage.AnchorsVouch` | internal/otad/fwanchor.go:75-113 | Whatever is committed, the anchor beside every staged bundle chains to the root key, for the manifest the release was staged by |
| `BundleFetch.BundlesStored` | internal/otad/stage.go:161-196 | When all bundles arrive intact the files of each -- of the last, where a name comes twice -- are stored and hash to their specs, with the anchor beside them |
| `BundleFetch.WriteAnchor` | internal/otad/fwanchor.go:39-60 | The four anchor files, each emptied and then written, in the source's order |
| `BundleFetch.StageBundles` | internal/otad/stage.go:161-196 | One bundle after the other -- image, tree, anchor -- up to the first that does not arrive intact, which is removed again |
| `Stage.Run` | internal/otad/stage.go:51-263 | An untrusted feed changes nothing, a trusted one is staged by its plan, and success means every check passed |
| `Stage.FetchAndCommit` | internal/otad/stage.go:69-236 | Reports done only, and always, when downgrade, coupling, hashes, bundles and floors all passed |
| `Stage.StagePair` | internal/otad/stage.go:80-148 | An artifact and its proof are kept together: what does not verify is removed again |
| `Stage.BuildStagedWal` | internal/otad/stage.go:210-228 | The candidate's record, or none if one bundle's floor refuses |
| `Stage.DeployBundles` | internal/otad/stage.go:219-225 | All bundles on the track or a refusal |
| `KernelCoupling.CheckedMeansKept` | internal/otad/hwselect.go:164-186 | A kernel-changing manifest passes the check if and only if for every detected chip it offers a driver for, staging keeps a driver of that chip for the new kernel |
| `KernelCoupling.CoupledKernelCheck` | internal/otad/hwselect.go:164-186 | The loop decides exactly that coverage |
| `KernelCoupling.Coverage` | internal/otad/hwselect.go:170-182 | For one chip: whether a bound driver is offered and whether one matches the target |
| `KernelCoupling.MatchesHardware` | internal/otad/hwselect.go:64-95 | GPU bundles need one of their chips present; kernel bounds are inclusive and ignored when either side is empty |
| `KernelCoupling.CmpKernel` | internal/otad/hwselect.go:103-136 | The comparison, part by part, numeric when both parts are integers |
| `KernelCoupling.FirstField` | internal/otad/hwselect.go:138-140 | The parts of a release: the first ends at the first separator, a separator in front counts for nothing, and without one there is one part |
| `KernelCoupling.Antisymmetric` | internal/otad/hwselect.go:103-136 | Swapping the arguments flips the sign, for all strings |
| `KernelCoupling.PreorderOnNumeric` | internal/otad/hwselect.go:103-136 | On releases made of integers the comparison is a total preorder |
| `KernelCoupling.CycleOutsideNumeric` | internal/otad/hwselect.go:103-136 | Outside them it is not transitive: 2 < 10 < 1a < 2 |
| `KernelCoupling.Staged` | internal/otad/stage.go:161-184 | Staging keeps exactly the matching bundles |
| `StagedDrivers.KeptExactly` | internal/otad/stage.go:157-179 | Staging keeps exactly the bundles for this machine and for the kernel it will run after the update: the manifest's, or the running one if the manifest names none |
| `StagedDrivers.AdmittedExactly` | internal/otad/hwselect.go:156-200 | An update is admitted if and only if it is no downgrade and its kernel does not change or comes with a driver for every GPU here that it has drivers for |
| `StagedDrivers.DriversComeAlong` | internal/otad/stage.go:157-209 | No update that changes the kernel is committed without the drivers it has for the GPUs here, built for the new kernel and verified on disk, where no two staged bundles share a name |
| `StagingExactly.CompletesExactly` | internal/otad/stage.go:69-228 | Staging an admitted manifest completes if and only if the release and every bundle for this machine arrived intact, there is somewhere to put bundles if there are any, and none of them is at or below its own floor |
| `StagingExactly.FloorsExactly` | internal/otad/stage.go:219-225 | Deploying bundles moves no floor, so it works if and only if each is above its own |
| `StagingExactly.StagedEnds` | internal/otad/stage.go:208-236 | What a staging that is not cut has recorded: the candidate with its root hash and a whole budget, each of its bundles on trial, nothing else, and the loader told |
| `StagingExactly.BundlesComeLast` | internal/otad/stage.go:80-156 | No bundle file is touched before the release has arrived whole, nor without a firmware directory |
| `StagingExactly.PairEnds` | internal/otad/stage.go:80-148 | What a fetch of an artifact and its proof leaves staged: both when both hash, neither when the proof does not, no image without its proof or with a wrong hash |
| `BundleFetch.FailedBundleEnds` | internal/otad/stage.go:184-203 | A bundle that arrived and is not whole is gone again, its image and its tree |
| `FirmwareTrack.BundlesIndependent` | internal/deployment/transition.go:154-214 | Under any interleaving each bundle ends as if only its own operations had run |
| `FirmwareTrack.FloorMonotone` | internal/deployment/transition.go:187-199 | A bundle's floor never falls and its running version never falls below it |
| `FirmwareTrack.FloorRises` | internal/deployment/transition.go:171-199 | The floor rises only on the probe that completes threshold clean probes of one candidate, to that candidate's version |
| `FirmwareTrack.CandidateInFlight` | internal/deployment/transition.go:154-185 | A pending candidate is the one last admitted, and its count is the clean probes since |
| `FirmwareTrack.StepKeepsSound` | internal/deployment/transition.go:154-214 | Every operation keeps a bundle sound and its floor from falling |
| `FirmwareTrack.Track.Bundle` | internal/deployment/deployment.go:27-37 | Creates a fresh entry on first use |
| `FirmwareTrack.Track.Deploy` | internal/deployment/transition.go:154-164 | Refuses a version at or below the floor |
| `FirmwareTrack.Track.RecordProbe` | internal/deployment/transition.go:171-185 | Counts a clean probe and promotes at the threshold |
| `FirmwareTrack.Track.Promote` | internal/deployment/transition.go:187-199 | Last known good and floor move to the running version |
| `FirmwareTrack.Track.Rollback` | internal/deployment/transition.go:205-214 | Back to the last known good version, nothing pending |
| `Recovery.SwapSafe` | internal/otad/recovery.go:81-185 | StageRecovery cut anywhere and one repair leave the pair wholly old or wholly new and verified; uncut it installs the new pair; of the OS kernelcaches only the staged image is ever removed, and nothing changes while an update is pending |
| `Recovery.InstalledExactly` | internal/otad/recovery.go:77-170 | A run to the end installs the offered pair if and only if none is pending, the release carries one, it arrived intact, and the image in place does not have the offered hash already; otherwise the pair stays |
| `Recovery.NothingStaged` | internal/otad/recovery.go:107-150 | An update that gets past the check leaves no staged recovery files behind, whether or not the pair was whole |
| `Recovery.RecoverySurvives` | internal/otad/recovery.go:53-185 | Over any number of cut updates the recovery image keeps its own signature and is the first one or one that was offered and verified |
| `Recovery.SwapRepaired` | internal/otad/recovery.go:156-177 | The rename sequence cut after each operation and then repaired: the new pair once its image is in place, before that the old one |
| `Recovery.InterruptedRepair` | internal/otad/recovery.go:66-78 | A repair that is cut and run again recovers a bootable pair if and only if it was not cut between its two renames with the previous signature still there |
| `Recovery.StageRecovery` | internal/otad/recovery.go:81-185 | Refuses with a candidate pending; success means the offer is already current or verified in full |
| `Recovery.RepairRecoverySlot` | internal/otad/recovery.go:53-79 | Drops the previous files of a whole pair, else restores them, failing when the previous signature is missing |
| `Recovery.Swap` | internal/otad/recovery.go:156-177 | The renames in order, the old pair kept first when there is one |
| `Recovery.FetchAndSwap` | internal/otad/recovery.go:109-177 | Nothing is installed unless image and signature hash and verify |
| `FirmwareSlot.UndoExactly` | internal/otad/fwanchor.go:186-226 | From every crash point of an activation and through any number of crashes in the rollback all six files return, if and only if every file it will replace has a predecessor and no backup differs from what is active |
| `FirmwareSlot.RollbackConverges` | internal/otad/fwanchor.go:147-226 | However often it was cut, a rollback that ends has restored every file that had a backup |
| `FirmwareSlot.NothingToUndo` | internal/otad/fwanchor.go:194-204 | A file without predecessor keeps the candidate's contents after a rollback |
| `FirmwareSlot.SecondActivationLoses` | internal/otad/fwanchor.go:186-206 | A second activation while the first is undecided makes a rollback restore the first candidate |
| `FirmwareSlot.AnchorWholeExactly` | internal/otad/fwanchor.go:121-143 | For any set of files present and any contents: a cut activation leaves the four active anchor files all old or all new if and only if no anchor file is only set aside, and either every one already in place equals its old version, or all are staged and every one not in place yet equals its new version |
| `FirmwareSlot.AnchorWholeAt` | internal/otad/fwanchor.go:121-143 | With every file present, counted in operations: outside 5 to 11, or after an even number such that the files before, or those after, are the same in both anchors |
| `FirmwareSlot.SameCertificate` | internal/otad/fwanchor.go:121-143 | For a new manifest signed by the unchanged certificate: torn exactly after operations 5, 6, 7, 9 and 11 |
| `FirmwareSlot.RotatedExactly` | internal/otad/fwanchor.go:121-143 | When the manifest and the certificate's signature both differ, for any set of files present: whole if and only if the anchor is not begun, has nothing to be done, or is through with all four |
| `FirmwareSlot.CutExactly` | internal/otad/fwanchor.go:186-206 | A plan cut anywhere leaves every file as those of its own two operations that were made leave it |
| `FirmwareSlot.AnchorTornBetween` | internal/otad/fwanchor.go:121-143 | With every file present, and manifest and certificate signature both different: torn exactly after operations 5 to 11 |
| `FirmwareSlot.TornAnchor` | internal/otad/fwanchor.go:121-143 | The instance at operation 6: the new manifest beside the old signature, a torn anchor whenever both differ, against the comment's promise |
| `FirmwareSlot.ActivateFirmwareSlot` | internal/otad/fwanchor.go:125-206 | Activates in the source's order, stopping at a missing file other than the hash tree, complete exactly when none is missing |
| `FirmwareSlot.RollbackFirmwareSlot` | internal/otad/fwanchor.go:147-226 | Restores the backups that exist, the anchor first |
| `FirmwareSlot.FinalizeFirmwareSlot` | internal/otad/fwanchor.go:231-242 | Removes the six backups in order |
| `FirmwareConfirm.FirmwareBootConfirm` | internal/otad/otad.go:273-303 | Decides the candidate in the WAL first and on the partition second |
| `FirmwareConfirm.FailedProbeCut` | internal/otad/otad.go:282-290 | After a cut of a failed probe's confirmation no later one touches the slot again, so the slot follows the WAL back if and only if the cut came before the save or after the last rename |
| `FirmwareConfirm.Decides` | internal/otad/otad.go:273-303 | A deciding probe that is not cut: a clean one makes the candidate the good version and the floor, keeps every active file and leaves no backup; a failed one returns the version and every file that has a predecessor |
| `FirmwareConfirm.Undecided` | internal/otad/otad.go:292-303 | A clean probe below the threshold counts and touches no file |
| `FirmwareConfirm.FailedCandidateLeavesNothing` | internal/otad/otad.go:273-290 | A candidate activated (even partly) on an undoable slot, probed clean any number of times below the threshold and then failed leaves floor and all six files as before, and the running version if and only if it never probed clean or there was a good version to go back to |
| `FirmwareConfirm.CleanProbes` | internal/otad/otad.go:291-303 | The clean probes get there and leave the slot alone |
| `BootStateText.BudgetSurvivesOverwrite` | loader/src/main.zig:274-284 | After any number of in-place decrements the file is what the daemon would print for the attempts left, followed by newlines only, and both readers read exactly that number |
| `BootStateText.StepRefines` | loader/src/main.zig:649-651 | Over a file the daemon printed, for any boot-state: the loader rewrites it if and only if it says a trial of the next slot with attempts left, as the same trial with one attempt less |
| `BootStateText.GoReadsBack` | internal/otad/slots.go:102-125 | The daemon reads back what it printed, whatever newlines follow |
| `BootStateText.ClampedMeans` | internal/otad/slots.go:102-125 | A number out of range in the file reads as the nearest int |
| `BootStateText.ZigReadsBack` | loader/src/main.zig:256-269 | The loader reads the same except for a minus sign |
| `BootStateText.ReadersAgree` | internal/otad/slots.go:56-62 | The two readers agree on a printed file if and only if its attempts are not negative |
| `BootStateText.KvLineByLine` | loader/src/main.zig:242-254 | The loader's substring search is a search line by line |
| `BootStateText.LongerStepLeavesGarbage` | loader/src/main.zig:271-273 | Overwriting with a number two digits shorter leaves a digit behind, so the format rests on counting by one |
| `BootStateText.FindKvLine` | loader/src/main.zig:242-254 | Finds the value of the first entry at a line start |
| `BootStateText.ParseBootState` | loader/src/main.zig:256-269 | Reads the three fields, trapping exactly where the digits overflow an i64 |
| `BootStateText.ReadBootState` | internal/otad/slots.go:102-125 | The line loop: trimmed lines, cut at the first equals sign, the last entry wins |
| `RootSelect.SelectVerified` | boot/root.go:269-308 | A root is found if and only if some same-origin pair maps and reads; it is the first acceptable pair in rank order; a mapping stays open on success only |
| `RootChoice.SelectBest` | boot/root.go:269-362 | Written out in terms of the media: a locked device finds a root if and only if image and tree can come from one origin it may use, verify under the signed hash and hold a root; and no such pair is better by whose root its hash device names, and then by size |
| `RootSelect.FirstIsBest` | boot/root.go:310-347 | No acceptable pair scores higher than the one chosen |
| `RootSelect.OrderIsExhaustive` | boot/root.go:315-347 | The ranking is a stable, score-descending permutation of all pairs of hash and data device |
| `RootSelect.SortUnique` | boot/root.go:341 | There is only one stable sort by descending score |
| `RootSelect.SortSorts` | boot/root.go:341 | The sort descends, keeps the order within each score and loses no pair |
| `RootSelect.RankPairs` | boot/root.go:315-347 | The loops score every pair and list them in that order |
| `RootSelect.ScoreOrder` | boot/root.go:324-338 | What a higher score means: first whether the hash device names the signed root, then whether it names none, then another; and, except for another's, whether the sizes fit |
| `RootSelect.TryInOrder` | boot/root.go:292-307 | The mapping loop: first acceptable pair, and what is left mapped |
| `RootSelect.Collect` | boot/root.go:270-291 | The devices considered on a live, portable or installed boot |
| `RootSelect.SelectUnlocked` | boot/root.go:364-402 | The slot the signed hash proves, else the first raw root, with no probe mapping left behind |
| `RootSelect.UnlockedFollowsHash` | boot/root.go:364-384 | When the locked selection finds a slot, the unlocked one takes the first slot some hash device proves, which is the same one if only one is proven |
| `RootChoice.UnlockedInstalled` | boot/root.go:364-402 | An installed device that is unlocked takes the first slot file the signed hash opens, and if it opens none the first that holds a root |
| `RootChoice.UnlockedLive` | boot/root.go:385-402 | A live medium that is unlocked takes the optical disc if that holds a root, and otherwise the first partition that does, on a portable medium only its own |
| `RootSelect.ProbeSlot` | boot/root.go:368-382 | Whether some hash device proves a slot, with the probe mapping closed again |
| `LoaderTrial.InstallsSound` | internal/otad/loader.go:112-254 | In every run cut anywhere every staged image has its manifest's hash and a valid signature; an image is installed only if it is the one last staged and a loader of its version was chained since; it is newer than what it replaces or the same bytes again after a crash; no staging is chained twice |
| `LoaderVerdicts.RestagedExactly` | internal/otad/loader.go:140-142 | After any run, a good offer of a newer version is staged without the explicit retry if and only if the last verdict on record is not that version's failure |
| `LoaderVerdicts.FailedStagingEnds` | internal/otad/loader.go:112-193 | A loader staging that is not cut and does not succeed arms nothing, and what arrived is gone again |
| `LoaderVerdicts.OnRecordMeans` | internal/otad/loader.go:83-93 | A failure is on record if and only if it was noted and nothing was noted or cleared since |
| `LoaderVerdicts.FailedVersionReturns` | internal/otad/loader.go:235-239 | One version fails, another fails, and the first is staged again without a retry being asked for |
| `LoaderVerdicts.FailureRemembered` | internal/otad/loader.go:223-254 | A failure on record can be lost to an event, cut somewhere, if and only if it is a confirmation that notes a failure or installs |
| `LoaderVerdicts.SilentCandidateFails` | internal/otad/loader.go:232-240 | A candidate that never reported is recorded as failed and its markers are gone, with the installed loader untouched |
| `LoaderVerdicts.InstalledImageRan` | internal/otad/loader.go:223-254 | Where a version stands for one loader image, every installed image is the verified one that itself ran since it was staged |
| `LoaderVerdicts.OtherImageRan` | internal/otad/loader.go:112-254 | For any two verified loader images of one version there is a run that installs the one that never ran |
| `LoaderTrial.StageLoader` | internal/otad/loader.go:112-196 | Refuses with an OS update pending, an old version or a known failure; success means hash, version and signature passed |
| `LoaderTrial.HandleLoaderCandidate` | internal/otad/loader.go:223-254 | The verdict's writes and then the markers' removal |
| `LoaderTrial.Verdict` | internal/otad/loader.go:232-253 | Failure recorded, image changed, or installed with the previous loader kept |
| `LoaderTrial.InstallLoaderImage` | internal/otad/loader.go:206-221 | The previous loader is kept before the new one is put in place |
| `LoaderTrial.BootSafe` | loader/src/main.zig:606-651 | Every write of a trial boot is one the trial's invariant allows when its turn comes: the budget is charged before the slot is chained, and only a chained loader reports, its own version |
| `LoaderTrial.FreshEsp` | internal/otad/loader.go:95-102 | A device that never staged a loader starts in the invariant |
| `Consent.ClaimTakesLatestOffer` | cmd/updated/main.go:402-444 | Every granted claim takes up the last offer made, which nothing has renewed or claimed since, and its token is that offer's manifest's |
| `Consent.OneClaimPerOffer` | cmd/updated/main.go:431-444 | Between two granted claims there was a new offer |
| `Consent.StagesWhatWasOffered` | internal/otad/stage.go:351-356 | Under a granted claim only the manifest of the offer last made chains, and the token given is that manifest's |
| `Consent.PollsSpareDownload` | cmd/updated/main.go:464-474 | From a claim until it ends or another is granted every status shows the download and no poll of this process writes the file |
| `Consent.PollsSpareReady` | cmd/updated/main.go:464-474 | A staged update stays on show through polls of any process and any claims |
| `Consent.NoOfferWhileLive` | cmd/updated/main.go:408-429 | While a download is live only an answer to an explicit check can leave an offer to claim |
| `Consent.LiveExactly` | cmd/updated/main.go:431-462 | A run ends with a download live if and only if the last event that begins or ends one is a granted claim, or there is none and one was live |
| `Consent.OutcomeShown` | cmd/updated/main.go:457-462 | The written outcome of a download is what every status shows from then on, until something else is published, claimed or completed; over a staged update no poll publishes |
| `Consent.RebootAfter` | cmd/updated/main.go:457-462 | After it a reboot that finds the lock free is granted if and only if the outcome is a staged update |
| `Consent.SecondClaimExactly` | cmd/updated/main.go:416-444 | A second download is claimed while one is live if and only if the last offer is an answer to /check given since the first claim and nothing ended or was claimed in between |
| `Consent.SecondClaimHidesFirst` | cmd/updated/main.go:431-462 | What such a claim leads to: once it finds staging busy and ends, the running download is no longer shown and a poll overwrites the status |
| `Consent.StatusStore.GetForClient` | cmd/updated/main.go:408-429 | A status request offers what it shows, or withdraws the offer |
| `Consent.StatusStore.ClaimDownload` | cmd/updated/main.go:431-444 | Grants exactly the token of the standing offer and consumes the offer |
| `Consent.StatusStore.PublishPoll` | cmd/updated/main.go:464-474 | Writes unless a download is live or an update is staged |
| `Consent.StatusStore.SetProgress` | cmd/updated/main.go:446-455 | Progress touches a live download only |
| `Consent.StatusStore.Complete` | cmd/updated/main.go:457-462 | The outcome goes to the file and nothing is live |
| `Consent.StatusStore.ClaimReboot` | cmd/updated/main.go:476-486 | Granted exactly with the lock free and an update staged |
| `FirmwareMount.Mounts.Select` | boot/firmware.go:44-89 | After the loop each target's winner is the highest wanted version, ties to the first directory, and every bundle is where its kind belongs |
| `FirmwareMount.SettledConserves` | boot/firmware.go:44-89 | Of each mounted bundle exactly one holds: winner, kept driver, in the union, released; nothing else is listed |
| `FirmwareMount.Mounts.Finish` | boot/firmware.go:90-93 | The same after the mounts that follow, whichever fail and in whatever order the map is walked |
| `FirmwareMount.Mounts.Place` | boot/firmware.go:44-89 | One turn of the loop keeps all that |
| `FirmwareMount.Mounts.Cover` | boot/firmware.go:65-76 | A newer version releases the holder of its target, any other is released itself |
| `Durable.ReplaceAtomic` | internal/otad/slots.go:193-221 | Copying or fetching over a file, cut after any call: the target holds the old contents or all of the new ones and no other name changes, not even another link to the old target |
| `Durable.LinkAtomic` | internal/otad/slots.go:223-245 | Linking over a file, cut after any call, also when both already are the same inode and the rename does nothing |
| `Durable.FetchSparesLink` | internal/otad/fetch.go:60-98 | After active was linked to next, fetching a new next leaves active's contents |
| `Durable.SaveWalAtomic` | internal/deployment/wal.go:46-87 | A cut Save loads as the old or the new record and never as none; a finished one loads as the new record even with one copy damaged |
| `Durable.SaveWal` | internal/deployment/wal.go:46-59 | Backup first, then primary |
| `Durable.WriteFileSync` | internal/deployment/wal.go:63-87 | Temporary file, contents, rename |
| `Durable.FetchTo` | internal/otad/fetch.go:60-98 | The same with a temporary file of fixed name |
| `Durable.LinkFileSync` | internal/otad/slots.go:223-245 | The five calls of the link replacement |
| `Counter.Monotone` | internal/otad/counter.go:43-59 | Over any number of cut advances the counter never falls, stays readable and never passes what was asked for |
| `Counter.AdvanceCut` | internal/otad/counter.go:43-59 | A cut advance reads as before or, if higher, as asked; a malformed file is left alone |
| `Counter.ReadsBack` | internal/otad/counter.go:28-59 | What an advance writes, a read returns |
| `Counter.Advance` | internal/otad/counter.go:43-59 | No write at or below the current value, an error exactly for a malformed file |

## Left out

- HTTP, sockets, flags, logging, clocks and retries: a download is a value that arrives or does not.
- Ed25519, SHA-256, JSON and PE parsing, TPM commands, device-mapper and mount calls: their outcomes are parameters.
- File-system reordering and partial flushes (`commitDir`, `syncDir`): writes are durable in program order.
- A write that fails without a loss of power is a routine that stops there; failures that the code ignores (a failed removal, a failed in-place boot-state write, a failed write of a marker) are not modelled separately.
- Empty directories in `StageDirs`, which switch parts of a routine off.
- Stage.Run: does not model the activation of the bundles after the commit or the removal of the loader markers, which `FirmwareSlot` and `LoaderTrial` model on their own.
- Stage.FetchAndCommit: leaves out the same activation.
- BootSuccess.ConfirmStable: does not model the loader candidate and the recovery repair that the stable branch also runs; they touch other files and are modelled in `LoaderTrial` and `Recovery`.
- Bootable.AlwaysBoots: asks for an orderly run; `Leftover.AbandonedPromotionLosesRoot` and `PromotionSafety.PromotedBoots` say what happens otherwise.
- LoaderTrial.InstallsSound: takes the version a loader image carries and the one it reports when it runs as the same number, and leaves out the owner's `RepairLoader`, which may install any verified loader.
- Recovery.RecoverySurvives: asks for the repair after each cut to run to its end; `Recovery.InterruptedRepair` says what happens otherwise.
- Runs.OrderKept: asks for every staged version to end in an integer that fits an int; `Runs.UnnumberedLowersCounter` says why.
- RootSelect.SelectVerified: does not model the waiting loop of `SelectRoot` or how the media are found; each attempt is one call on the media at hand.
- FirmwareMount.Mounts.Select: takes what `.overlay`, `.overlay-version` and `.kernel-abi` say as given and does not parse them.
- BootStateText.ReadBootState: does not model the scanner's limit on the length of a line, and trims the ASCII blanks only.
- RootSelect.SortUnique: the library's sorting algorithm is not modelled; the model's sort is the only one that keeps the library's promise.
- The WAL's clock fields, device names and history, and `Deployment.Clone`.
- The `atomd deploy` verb, which stages in the WAL only and skips the downgrade check.
- `PickBootTarget`, which nothing calls, and `CommandCounter`, whose commands are the operator's.
- The size of a slot file beyond being empty or not.
- `internal/diag`, `internal/audit`, the update history, the signing tools and the boot code that only makes system calls: nothing but easy members.
