# Verification model

A Dafny model of the parts of the repository whose promises are exact and hard to keep, with proofs of
those promises. `dafny verify dfyconfig.toml` checks the whole project.

## What is modelled

**The machine lease** (`scripts/machine_lock.py`), in layers:

| files | what they hold |
|---|---|
| `Namespace`, `Fence` | the machine: a tree of names over identified objects, everybody's opens, the steps any process may take under the share rule; looking names up through links; what a set of holds keeps fixed |
| `Mapping` | how a checkout names its common git directory |
| `Strands` | failures, and what a cleanup boundary makes of one |
| `Kernel` | the handle table of one process, as a class: every call first lets the other processes take any number of allowed steps, and may then fail; handle numbers are reused, opens never are |
| `Cleanup`, `Guard`, `Relax`, `PinFacts`, `Pins` | letting go; the walk that pins a name before it inspects it; loosening pins in place |
| `Binding`, `LeaseOpen`, `Lease`, `Holding` | holding the repository and its common directory, opening the lease, the lease object, releasing, the status probe, exit codes |
| `Stability`, `Landing`, `Chain`, `MiddleLink`, `Unsteady` | when a mapping, and the name the lease is opened under, can be relied on; the walk over a namespace that stands still; two runs that show the conditions are needed |
| `Runs` | any number of processes that take, inherit and let go of opens, and die |

**Smaller cores**: typed equality and the merge-gate job schema (`TypedEquality`, `JobSchema`, `MergeGateJob`,
`Texts`), the prompt queue component (`PromptQueue`), the mention locator and renderer (`Mentions`), the bill of
materials (`Sbom`), checksum lists and the bundle inventory (`Checksums`), the plan and the merge gate (`CiPlan`,
`MergeGate`).

How to read the lease contracts. `Settled(a, b, owned)` says that from state `a` to state `b` the process gained
exactly the handles `owned` and those whose close was refused, that nothing it had before changed, and that every
close went to a handle gained since, each at most once. `Reports(a, b, f)` says that a failure names exactly the
closes refused from `a` to `b`. `Carry(a, b)` says that what the process holds with untried handles lasted through
everything the others did; a ghost state carried to from a call's start, and from there to its end, is one the call
went through. `Entered` says at which such states a binding was found from the name asked for, its chain read and
pinned, and git asked again; `Leased` adds when its lease was checked and opened and the binding asserted. `Secured`
says that a set of the process's own untried opens fences every name from the checkout to the directory the lease file
stands in.

## What the proofs found

Where the code and its own documentation differ, the model follows the code.

1. A link is followed to its *final* name (`scripts/machine_lock.py:478-482`), so a link written through another
   link leaves the one in the middle unpinned, although the docstring at 696-699 says no link of the chain can be
   retargeted. `MiddleLinks.MiddleLinkUnmet` gives a plain checkout whose `.git` file points through such a chain,
   with every name the walk meets pinned, and a run that moves the mapping; `Chains.StableIffMet` and
   `Stability.StableIffKept` say exactly when none can.
2. The lease is opened under the common directory's name read *before* the pins are taken (651-657, 703) and the
   directory is not read back from its handle after the open, although the docstring at 691-696 says it is.
   `UnsteadyNames.LeaseLandsElsewhere` follows a run to its end, with the pins and the lease open: every check
   passes and the lease is in another directory. What the code does not ask is whether the pin it takes under that
   name is of the directory it identified, at that name. `LeaseOpens.Sure` asks it of the answers the opens gave,
   and a sure lease is secured. `Landings.StaysIffKept` gives the exact condition at the moment the chain is pinned:
   no run can take the name away from the bound directory if and only if it leads there and every name on its way is
   kept; otherwise a run leads it to another directory that passes for a git directory, with the mapping as it was.
3. Where the private directory has no `commondir` file, no holds keep one from appearing
   (`Stability.CommondirAppears`): such a mapping is never stable, and only the barrier sees the change.
4. When a barrier strands and the release after it strands too, the barrier's refused closes are in no report
   (`hold_lease`, 957-961): `Holdings.HoldLease` promises the exact report unless both strand.
5. A release that could not close a handle exits 4, not 2 as the module docstring says at 47-49
   (`Holdings.Run`).

## Model

| member | source | states |
|---|---|---|
| Namespace.StepKeepsWorld | scripts/machine_lock.py:331-344 | every step the share rule allows, moving whole trees included, leaves a tree in which each object has one name and each name an ordinary directory above it |
| Fences.FenceStands | scripts/machine_lock.py:331-344 | no allowed step of another process changes a name that is held against removal and either kept from writing or kept nonempty by a held child, up to the root |
| Fences.WalkAgrees | scripts/machine_lock.py:463-487 | a lookup through any links is the same in two namespaces that agree on the names it crosses |
| Fences.StandsStill | scripts/machine_lock.py:734-747 | an object whose removal someone denies keeps its name in its directory, wherever the directory is moved |
| Mapping.NormalMeans | scripts/machine_lock.py:463-468 | what a written name comes to: plain parts are appended, a part and the `..` after it drop out wherever they stand, and so do parts that name nothing and a `..` at the drive root |
| Strands.NestedReport | scripts/machine_lock.py:347-408 | through any depth of boundaries the report is every refused close in the order attempted, and its cause is the failure that started it |
| Kernels.SettledThen | scripts/machine_lock.py:364-408 | two boundaries in a row account for their handles as one: gains add up, refused closes stay apart, no close is tried twice |
| Kernels.ClosingSettles | scripts/machine_lock.py:327-328 | one close takes the handle from what the process owns, whether it succeeds or is refused and stays live |
| Kernels.Kernel.CreateFile | scripts/machine_lock.py:532-541 | an open is of the object the name denotes at that moment, granted only if every live open of the object goes with it, under a number that was free; a violation is answered only if some live open does not |
| Kernels.Kernel.CloseHandle | scripts/machine_lock.py:327-328 | a refused close leaves the handle live and is recorded; a number that is nobody's is recorded as a stray |
| Cleanup.CloseAll | scripts/machine_lock.py:389-404 | every item is asked to close once, in order, whatever the kernel answered before; each refusal is named by its own kind and number |
| Cleanup.Abandon | scripts/machine_lock.py:364-408 | raw handles, then pins: all closed or reported, in that order, and nothing else touched |
| Cleanup.DirectoryIdentity | scripts/machine_lock.py:425-451 | the identity of what a name reached at one moment of the call; the temporary handle is closed or reported |
| Cleanup.ProbeTarget | scripts/machine_lock.py:478-481 | a link's identity and the physical name of what it reaches, of one object; the temporary handle is gone before the result is used |
| Guards.GuardCarried | scripts/machine_lock.py:331-344 | whatever the others do, what the pins cover stays covered, what they hold stays held and in place |
| Guards.HeldLinkOffPath | scripts/machine_lock.py:476-487 | a link being walked is never on the physical name of its own target, so the walk through a cycle is sound |
| Guards.ChainAgrees | scripts/machine_lock.py:497-520 | a fenced chain resolves to the same directory by the same names in every later state |
| Relaxing.SwapGuard | scripts/machine_lock.py:575-599 | with both holds open, the looser one of a directory with a held child may stand for the strict one |
| Pins.OpenSharedPin | scripts/machine_lock.py:528-558 | a pin is an inheritable open of the object the name itself denotes, or everything it took is closed or reported |
| Pins.PinWalk.Hold | scripts/machine_lock.py:474-476 | at a yield nothing but the pins is open; afterwards the name is held and what was held stays so |
| Pins.PinWalk.HoldRoot | scripts/machine_lock.py:468-476 | a drive root that is the very name walked is pinned and inspected too |
| Pins.PinWalk.CrossLink | scripts/machine_lock.py:477-487 | a held link's identity and the name of what it reaches are read at moments of the call, that name is walked through the same names seen, and both names reach that object afterwards |
| Pins.PinWalk.PathChain | scripts/machine_lock.py:463-487 | every component is pinned before it is asked anything, under any interference, then inspected and, if a link, followed; at the end all components were met, and the name and all above it are covered by the fence |
| Pins.PinWalk.ResolutionChain | scripts/machine_lock.py:497-520 | the entry is inspected and read, and the `commondir` file asked for and read, at moments in that order; the answer is whether that file was there then, and, if no link was written through another, whether the checkout's reading had one; every component of the entry, the private directory, the file and what it names was met and pinned; with the file in the chain everything its resolution crosses is fenced |
| Pins.PinWalk.RelaxAt | scripts/machine_lock.py:580-599 | one pin adjusted in place: it shares reads and writes afterwards, or its object was asked for and was no ordinary directory; same object, path, role and position; the fence stands before, between and after; list and report account for both handles |
| Pins.PinWalk.RelaxParentPins | scripts/machine_lock.py:561-599 | every pin of a parent is adjusted so and no other changes; the list keeps its length, paths, roles and objects, and a pin of the guard that shares writes holds an ordinary directory with a held child; on any failure list and report are exactly what is live |
| Pins.OpenPins | scripts/machine_lock.py:602-618 | success: exactly the pins, all inheritable, one for every name the chain was read to consist of, each inspected and followed, those of parents loosened; they fence the chain unless a link was written through another; failure: nothing kept but what is reported |
| Bindings.HoldNames | scripts/machine_lock.py:640-655 | the repository opened is what the name asked for reached, and was then called so; the common directory is what git named through that name, opened, identified and called; the repository still had its name, and git named the same directory again: all at moments in that order; success or failure, exactly the two handles are gained |
| Bindings.AssertBinding | scripts/machine_lock.py:771-791 | succeeds only if the repository was the same object, it named a directory, and that was the bound one, at moments in that order; nothing is gained |
| Bindings.HoldChain | scripts/machine_lock.py:656-665 | the chain is read and pinned, the common directory pinned under its own name, and git asked again; from then on the checkout maps to the bound directory if a `commondir` file was there; if every open of the recorded name found that directory there, the name's whole way is fenced too |
| Bindings.OwnNameHomed | scripts/machine_lock.py:656-665 | a fenced chain that names the bound directory fences the directory's own name, so a recorded name that is still its own stays so |
| Bindings.HoldCommonDir | scripts/machine_lock.py:621-682 | success: the directory handle and the pins, nothing else, of the binding entered from the name asked for as `HoldNames` and `HoldChain` say; failure: nothing but what is reported, and never a contention |
| LeaseOpens.TakeLease | scripts/machine_lock.py:708-733 | HEAD and config were files, then the entry itself was opened, sharing reads alone, each live open of it going with that, and it was an ordinary file; a contended answer comes only when a live open of the entry stood against it, and leaves no handle |
| LeaseOpens.SettleLease | scripts/machine_lock.py:734-752 | the common directory's pins loosened, then the binding asserted, the temporary handle gone; the lease file has not left its place |
| LeaseOpens.OpenLeaseHandle | scripts/machine_lock.py:685-768 | success: exactly the lease handle and its pins, of a binding entered from the name asked for, checked, taken, loosened and asserted at moments in that order, the lease file standing so named in a directory; if no link was written through another, the checkout's reading had a `commondir` file and the name's opens found the bound directory at home, the checkout keeps mapping to the directory the lease is in; failure: nothing but what is reported, a contention only if a binding was entered from that name and a live open of its entry stood against it |
| Leases.CloseOwner | scripts/machine_lock.py:389-394 | the descriptor is gone either way, its handle is closed or reported, and its refusal is the cause |
| Leases.AbandonLease | scripts/machine_lock.py:364-408 | descriptor, then pins, in that order, each once |
| Leases.AcquiredLease.Close | scripts/machine_lock.py:816-845 | afterwards the lease owns nothing; every refusal is in one strand; a second close does nothing |
| Leases.AcquiredLease.AssertBound | scripts/machine_lock.py:847-863 | succeeds only with the descriptor open, every pin answering and, at moments in that order, the repository the object it was, naming the directory bound; always refuses after a close, and never as contended |
| Leases.Initialize | scripts/machine_lock.py:892-910 | however far it gets, the handle is still owned, by the descriptor if there is one |
| Leases.Acquire | scripts/machine_lock.py:866-934 | success: exactly the descriptor's handle and the pins, all inheritable, of a lease entered from the name asked for and taken as `OpenLeaseHandle` says, secured if sure; failure: no descriptor and nothing held but what is reported; bad arguments are refused before anything is done |
| Holdings.Release | scripts/machine_lock.py:937-948 | fails only with a strand, and then exactly if a close was refused; after a clean close the lease file is removed if the share rule allows it, which never fails it |
| Holdings.Rounds | scripts/machine_lock.py:991-1011 | a block that ends well passed the barrier as often as it was asked, one after the other, each finding the binding intact |
| Holdings.HoldLease | scripts/machine_lock.py:951-964 | however a hold ends, every handle it acquired is closed or was refused; it succeeds exactly if the lease was had, from the name asked for, every barrier passed and the release closed everything; a contention is told only if a live open stood against the lease's; what is told is exact unless both sides stranded |
| Holdings.Status | scripts/machine_lock.py:967-988 | "free" only if nothing was there under the lease's name, "held" only if a live open of the entry stood against the probe's, "stale" only if the probe's write open was granted; any answer leaves the handle table as it was; a failure names every refused close |
| Holdings.Run | scripts/machine_lock.py:1014-1047 | `hold` exits 0 exactly if the lease was had, kept and cleanly released, and 2 exactly on a refusal or an operating-system error; `status` exits 0 exactly if it gave an answer; exit 4 exactly when a close was refused; on every other exit nothing acquired is still held |
| Stability.StableIffKept | scripts/machine_lock.py:696-699 | no run of other processes' steps can change what a checkout maps to exactly when every name the mapping crosses is kept by the holds |
| Stability.UnkeptMoves | scripts/machine_lock.py:331-344 | for any crossed name that is not kept there is a run, emptying a directory if need be, that moves the mapping |
| Stability.CommondirAppears | scripts/machine_lock.py:512-514 | without a `commondir` file one that names anything can always be made |
| Landings.StaysIffKept | scripts/machine_lock.py:651-703 | once the chain is pinned: no run can take the recorded name from the bound directory exactly when it leads there and its whole way is kept; else some run leads it to another git directory while the mapping stands; the directory's own name always stays |
| Landings.UnkeptLands | scripts/machine_lock.py:685-703 | for any unkept name before the end of a lookup, file system and holds whatever they are, there is a run sparing the holds that ends the lookup in a new directory with HEAD and config |
| Chains.PathChain | scripts/machine_lock.py:463-487 | on every finite namespace the walk ends; it meets the least set of names closed under parent and under what links reach, and is refused only if there is none |
| Chains.ResolutionChain | scripts/machine_lock.py:497-520 | the names met are closed and contain the entry, the private directory, the `commondir` file and what it names |
| Chains.FlatCovers | scripts/machine_lock.py:476-487 | when links are written as what they reach, the names met cover all the mapping crosses |
| Chains.StableIffMet | scripts/machine_lock.py:602-618 | with holds on just what was met, the mapping is stable exactly when that is all it crosses |
| MiddleLinks.MiddleLinkUnmet | scripts/machine_lock.py:476-487 | a plain checkout whose pointer leads through a link written through another: all names met are pinned and a run moves the mapping |
| UnsteadyNames.LeaseLandsElsewhere | scripts/machine_lock.py:644-703 | a run beside the temporary handles, then the acquisition's own opens and closes, each allowed: it ends as a success is promised, every check passing, no link met, a `commondir` file pinned, and the lease in another directory, secured by no guard |
| Runs.RunKeeps | scripts/machine_lock.py:1-30 | every run of any number of processes keeps opens compatible, leases in place and bonds fenced |
| Runs.Starts | scripts/machine_lock.py:1-30 | a machine on which nothing is open is sound, so every run from it is |
| Runs.GraspedIsLease | scripts/machine_lock.py:685-768 | what any acquisition holds, sure or not, is a lease of the machine in the directory its file stands in |
| Runs.OneLease | scripts/machine_lock.py:8-12 | at most one lease is live in a directory |
| Runs.LeaseExcludes | scripts/machine_lock.py:937-948 | while a lease lives no other can be taken in its directory under any name the directory has, and nobody can remove or rename its file |
| Runs.NameStands | scripts/machine_lock.py:703-747 | over any run that leaves a lease live its file is still the one called so in the directory it was taken in |
| Runs.OneBoundLease | scripts/machine_lock.py:685-702 | two bound leases entered by one checkout are one |
| Runs.BoundExcludes | scripts/machine_lock.py:685-702 | while a bound lease lives its checkout leads to the lease's own directory, and nobody can take another there, bound or not |
| Runs.HeirsHold | scripts/machine_lock.py:13-19 | over any run a lease stays live, in its directory, while some process that inherited it neither closes it nor dies, whatever becomes of the others; and so does its bond if that process keeps all its holds |
| Runs.LiveIffHeld | scripts/machine_lock.py:8-19 | after any run an open is live exactly if some process has a handle to it |
| Runs.SecuredBinds | scripts/machine_lock.py:685-702 | what an acquisition secures is what a bond takes |
| TypedEquality.ExactlyEqual | scripts/validate-workflows.py:681-720 | the loop that uses keys up decides typed equality of documents, mappings in any order |
| TypedEquality.SameRefl | scripts/validate-workflows.py:681-690 | reflexive |
| TypedEquality.SameSym | scripts/validate-workflows.py:681-690 | symmetric |
| TypedEquality.SameTrans | scripts/validate-workflows.py:681-690 | transitive |
| TypedEquality.SameIffTyped | scripts/validate-workflows.py:682-690 | it is the language's own equality and equal types of every leaf and key, no more and no less |
| TypedEquality.ZeroIsNotFalse | scripts/validate-workflows.py:684-690 | strictly finer: a zero for a false flag, a one for a true key |
| JobSchemas.CheckFields | scripts/validate-workflows.py:741-744 | the fields reported are exactly the wrong ones |
| JobSchemas.CheckStep | scripts/validate-workflows.py:754-772 | no problem exactly if the step has no key too many and each declared field right: a text is right if what was found is it with blanks around it and nothing else, any other value if it is the same, types included |
| JobSchemas.Validate | scripts/validate-workflows.py:723-773 | no problem exactly if the job has no key too many, each declared field right and each step right, and never by a crash |
| JobSchemas.DeclaredRight | scripts/validate-workflows.py:723-773 | the declared job itself, in whatever order its keys stand, is right |
| JobSchemas.MappingExact | scripts/validate-workflows.py:734-744 | no key too many and every declared one right is the same as equal mappings |
| MergeGateJobs.ValidateMergeGate | scripts/validate-workflows.py:590-678 | the same for the merge-gate job itself |
| MergeGateJobs.TimeoutPinned | scripts/validate-workflows.py:681-690 | a timeout of any other value or type than five minutes is refused, whatever else the job says |
| MergeGateJobs.RunPinned | scripts/validate-workflows.py:765-772 | a decision step whose `run` is anything but the gate's command with blanks around it is refused |
| MergeGateJobs.MergeGateBare | scripts/validate-workflows.py:590-678 | no declared text has outer blanks, so the declared job itself is accepted |
| Texts.Stripped | scripts/validate-workflows.py:766-767 | only blanks are taken, and none is left at either end |
| Texts.StripIff | scripts/validate-workflows.py:766-767 | what is left is the one part of the text without outer blanks |
| PromptQueues.CreatesThenQueues | apps/web/src/ComposerPromptTemplatesAction.tsx:71-130 | in every safe history an attempt's creates come before its first queue |
| PromptQueues.KeyIffAttempt | apps/web/src/ComposerPromptTemplatesAction.tsx:140-156 | two requests carry one key exactly if they are of one kind and one attempt |
| PromptQueues.QueuedWasAccepted | apps/web/src/ComposerPromptTemplatesAction.tsx:101-115 | a queued batch was admitted before, and accepted by the user if it is not whole |
| PromptQueues.QueuedIsOwn | apps/web/src/promptDirectQueue.ts:219-226 | one queued answer is never admitted under two attempts |
| PromptQueues.OrdinalsShared | apps/web/src/promptDirectQueue.ts:197-208 | of the ordinals asked for, an admitted batch has each as an item or unfilled, never both, and the numbers add up; the codec says whether it is whole |
| PromptQueues.ParseBatch | apps/web/src/promptDirectQueue.ts:105-265 | an answer's batch is readable exactly if it is for what was asked, its items fresh, in order, with plans apart, and the unfilled numbers are the missing ones |
| PromptQueues.AdmitQueued | apps/web/src/promptDirectQueue.ts:276-305 | a queued batch is admitted exactly if it is the draft, one plan version on, every prompt the same but for its run |
| PromptQueues.PromptQueue.Run | apps/web/src/ComposerPromptTemplatesAction.tsx:71-115 | what a run sends before it waits: a create only without a batch, a queue only of an accepted or whole one |
| PromptQueues.PromptQueue.Receive | apps/web/src/ComposerPromptTemplatesAction.tsx:88-130 | an answer is admitted exactly if it parses against what was asked, and a queued one if it is the draft one version on with every prompt unchanged; what is then published and sent is exact |
| PromptQueues.PromptQueue.Begin | apps/web/src/ComposerPromptTemplatesAction.tsx:132-158 | a new attempt with fresh keys, or nothing |
| PromptQueues.PromptQueue.Retry | apps/web/src/ComposerPromptTemplatesAction.tsx:160-164 | resends under the same keys; never queues an unaccepted batch |
| PromptQueues.PromptQueue.QueuePartial | apps/web/src/ComposerPromptTemplatesAction.tsx:166-170 | the acceptance, then the queue request |
| PromptQueues.PromptQueue.Drive | apps/web/src/ComposerPromptTemplatesAction.tsx:48-204 | any clicks and answers in any order leave a safe history: one request in flight at most, and all of the above |
| Mentions.Search | apps/web/src/MentionText.tsx:64-77 | ends, at the leftmost bounded place free of earlier marks, or because there is none |
| Mentions.Locate | apps/web/src/MentionText.tsx:59-79 | the marks are those of the chosen places, one a reference at most, in order and disjoint |
| Mentions.SortOrders | apps/web/src/MentionText.tsx:78 | disjoint marks sorted by start follow one another |
| Mentions.Cut | apps/web/src/MentionText.tsx:27-44 | the pieces spell the text, and the marked ones spell their slugs in order |
| Mentions.MentionText | apps/web/src/MentionText.tsx:17-47 | the whole: nothing lost, nothing marked that no reference names |
| Mentions.OneMarkEach | apps/web/src/MentionText.tsx:49-58 | as many marks as references that have a place |
| Sboms.SetAllTwice | scripts/inventory-frozen-payload.py:367-370 | properties of different names set in turn, twice, are as set once, order included |
| Sboms.SettledAgain | scripts/inventory-frozen-payload.py:392-444 | a component settled is of the same kind, required or excluded and not both, and settled for good |
| Sboms.ScopeMeans | scripts/inventory-frozen-payload.py:392-444 | a Python package is required exactly if the payload has it in that version, an npm package exactly if it is bundled, anything else always; the first ecosystem property decides |
| Sboms.TallySums | scripts/inventory-frozen-payload.py:392-444 | the four counts and the other components are all of them; the included and the others are the required |
| Sboms.ReconciledTwice | scripts/inventory-frozen-payload.py:373-493 | a second run changes nothing and counts the same |
| Sboms.ReconciledMeans | scripts/inventory-frozen-payload.py:392-463 | every component required or excluded; the root depends on the required ones, each once, in order |
| Sboms.Document.Scan | scripts/inventory-frozen-payload.py:392-444 | every component settled in place and counted, unless one or a property of one is no object or a required one has no reference; on a failure each component is untouched, settled or has its scope alone set |
| Sboms.Document.Reconcile | scripts/inventory-frozen-payload.py:373-493 | succeeds exactly when every component and property is an object, every required one has a reference, and every included package but the application's own a component; a failure leaves the metadata alone, and the dependencies unless it is the metadata that fails |
| Checksums.ParsePrinted | scripts/verify-release-bundle.py:75-87 | reading a printed list gives back its entries, however ordered |
| Checksums.ReadList | scripts/verify-release-bundle.py:74-87 | accepts exactly the lists whose lines name payload files, each once |
| Checksums.DigestMeans | scripts/verify-release-bundle.py:12-13 | a digest is sixty-four lower-case hexadecimal digits |
| Checksums.VerifyChecksums | scripts/verify-release-bundle.py:70-98 | accepts exactly if the lines are a bijection with the payload and every digest is the file's |
| Checksums.VerifyBundle | scripts/verify-release-bundle.py:159-183 | accepts exactly if the root is a directory of its own holding ordinary files alone, the inventory is exact, each platform's list covers its files and its manifests pass |
| Checksums.NothingShared | scripts/verify-release-bundle.py:15-39 | the two platforms share no file name, whatever the version |
| Checksums.FilesNamed | scripts/verify-release-bundle.py:15-39 | the names of a platform's files: installer, checksum list, manifests and bill of materials |
| Checksums.CoveredOnce | scripts/verify-release-bundle.py:159-183 | with both platforms every file but the two lists is covered by exactly one |
| Checksums.EveryFileChecked | scripts/verify-release-bundle.py:70-98 | so an accepted bundle of both lists every other file's own digest |
| CiPlans.WindowsNeverLost | scripts/ci-plan.py:98-114 | a change with a Windows path is never classified as documentation, so Windows is asked for exactly when it has one |
| CiPlans.DocumentationIff | scripts/ci-plan.py:81-114 | the light plan is chosen exactly for nonempty changes made of inert documents alone |
| CiPlans.InertIsNotWindows | scripts/ci-plan.py:35-72 | no inert document is a Windows path |
| CiPlans.NormalizedMeans | scripts/ci-plan.py:75-78 | a path is compared without outer blanks, with forward slashes, less a leading `./`, folded |
| CiPlans.WindowsMeans | scripts/ci-plan.py:60-105 | the Windows paths are the two files and all below the three directories |
| CiPlans.AuditNeverLost | scripts/ci-plan.py:92-114 | the dependency audit runs exactly for changes with a dependency file, which also force the full plan |
| CiPlans.SelectFailsClosed | scripts/ci-plan.py:214-242 | no plan without valid refs unless asked for by hand; the light plan for develop alone; Windows for a develop change exactly if it has a Windows path |
| MergeGates.Decide | scripts/ci-merge-gate.py:51-178 | over all environments: authorized exactly if the event and head are well formed, a merge group is one of the public repository's queue for develop, and the plan's and each required platform's results are the successes they must be; any other verdict gives its reason |
| MergeGates.WindowsChangeNeedsWindows | scripts/ci-plan.py:218-248 | plan and gate together: a develop change with a Windows path is authorized only if plan, Ubuntu and Windows all succeeded on a well-formed head |
| MergeGates.WindowsIgnoredOtherwise | scripts/ci-merge-gate.py:160-174 | without a Windows path any reported Windows result gives the same verdict |

## Left out

- The Win32 bindings, long-path prefixes and the text of messages: the kernel class stands for them; a close is refused with a nonzero error.
- The letter case of names: the source compares names caselessly, the model takes them as already folded.
- The bytes of the lease record: writing them is a step of `Leases.Initialize` that may fail; the model's names do not depend on them.
- That a call succeeds: any kernel call may fail for no stated reason, so the lease contracts say what an answer means, not that one is given.
- git itself: it names the common directory by the same reading of `.git` and `commondir` as the walk, or refuses.
- The stdin thread and its timer: a hold is some number of barriers and then a release.
- Other platforms than Windows, and independent clones.
- Recursion: `Pins.PinWalk` carries the depth the interpreter still allows and fails when it is used up; `Chains.PathChain` shows that on a standing namespace no bound is needed.
- Pins.PinWalk.ResolutionChain: the fence, and that the checkout's whole reading agrees with the answer, are stated when every link met was written as the name of what it reached, because otherwise an unpinned link in the middle may be turned while the walk goes on (finding 1).
- Pins.PinWalk.RelaxParentPins: the held child of a loosened pin is stated under the same condition, for the same reason.
- Pins.OpenPins: so are the chain's fence and the held child of each loose pin.
- Bindings.HoldChain: the lasting mapping also needs a `commondir` file in the chain (finding 3).
- LeaseOpens.OpenLeaseHandle: security is stated for sure leases only, because it is false otherwise (findings 1 to 3).
- Leases.Acquire: likewise; what an unsure lease still is, `Runs.GraspedIsLease` says.
- Runs.OneBoundLease: it is about bound leases, since an unsure one may be in another directory than its checkout maps to (finding 2).
- PromptQueues.PromptQueue.Receive: a field of a wrong type or size makes an answer unreadable; the chat, template, revision, contract and seed it echoes are one value; SHA-256 is a function given to the component; updating the query cache is taken not to fail.
- Mentions.MentionText: text is a sequence of characters; surrogate halves are not told apart.
- Sboms.Document.Reconcile: the order of keys inside a component is not modelled, that of its properties is; the canonical form of a package name is a function given to the document.
- Checksums.VerifyBundle: what the manifests must say is a given predicate of the files; SHA-256 is a function given to the check.
- CiPlans.Select: the checks of refs and commits are one given answer, and caseless folding is a function given to it.
- JobSchemas.Validate: not-a-number values and keys that are not scalars are not modelled.
- Mode `promotion` carries no claim beyond its place in the plan.
