# maclet's node-agent protocols, in Dafny

maclet lets a macOS host act as a Kubernetes node for native workloads. This project models the parts of it that
are state machines, protocols or arithmetic, and proves what they are for:

- **Workload ownership** (`Journals`, `Machines`, `Managers`, `Books`, `Reconcilers`, `Recovery`). The manager's two maps,
  the ownership journal, Macker's detached containers, the address aliases and the reported statuses. External commands
  are nondeterministic, may fail, and may take effect although they fail; containers may end by themselves; every
  external step is recorded, and a process can die after any of them. `Recovery.Run` proves over whole scripts of
  processes, each with its passes and drains and its last step, that what runs is always named by the manager's map and,
  while the journal is clean, by a record on disk; and that a journal is clean at every step before which no journal
  write failed, if no Pod listed as being deleted is ever listed live again. It also proves that every status is
  put to a listed Pod in that Pod's own turn and is one the Pod's deletion or policy, and what Macker said, allow.
- **Node ownership** (`NodeOwnership`, `NodeClaims`, `NodeRegistration`). The GET, POST, GET, PATCH exchange as an
  interleaving of any number of instances and outside writers, with mutual exclusion per Node object.
- **The PodCIDR plan** (`AddressPlan`, `DarwinNetwork`). Four separate pieces of 32-bit arithmetic that must agree, the
  allocator, the alias list, and the routes and ARP entries of the peers.
- **Search domains** (`SearchDomains`, `SearchDomainOwner`). One network service shared with outside editors.
- **Process trees and counters** (`ResourceMetrics`), **Node names** (`NodeNames`), **Pod status** (`PodStatuses`).
- `Text` holds the string functions of the Go library that the above need.

Conventions. A text that the Go library parses is a datatype of what the parser says (`Cidr`, `IPText`, `MacText`).
`Unicode` stands for Go's Unicode tables, of which `Standard` states what is needed. Times are integers (milliseconds),
a zero time is `None`, a nil pointer `None` or `null`. Where the Go code iterates over a map, any order is allowed. A
stop or rm that succeeds, or fails with an ignorable error, means that no detached container of that name runs, and a
line of ps is true; an inspection need not be. An arp or route command that succeeds has set or removed its entry, and a
GET of a Pod returns one of that name, whose UID may differ. Ghost fields of `Machines.Machine` only record: the steps
of the present process (`trace`) and of every finished one up to the step it died after (`finished`), what was reported
with every PUT it took, the turns begun, each with its Pod, its deletion and its policy (`begun`), what Macker said in
which turn (`observed`), the commands of a launch (`launches`), the keys ever listed as being deleted (`deletions`), and
how the journal stands. A report tells what a status was computed with, each of its PUTs with the answer, and how it
ended; a turn makes one at most. `first` is what the first listing of a turn said and `seen` its last inspection;
`unanswered` counts the questions about containers that Macker did not answer, `denials` the answers that one does not
run, `missedLogs` the logs that could not be read, written or removed. `present` holds the names Macker may still know:
a run enters one, and an rm that succeeds, or finds nothing, takes it out. `logFiles` are the retained log files.
`clean` says that the last journal write succeeded and that no Pod whose deletion had begun was started since. Two
counts say why it may fall, and each is moved by the event it counts alone: `failedWrites` by a failed write, which
every error list of a pass tells of (`Books.WritesTold`), and `resurrected` by starting a Pod that is listed live in
this turn and was listed as being deleted before. `refusals` counts the removal commands that failed, `setbacks`
whatever else went wrong outside of maclet: a failed listing, pull, run, PUT or preparation, an unreadable inspection,
or a container that was started in the turn and is said not to run (`Managers.Manager.Setbacks` adds failed writes,
removals and commands of the network). `ended` says how each Pod's turn of the round ended, and `rounds` what each round
did. Without a failed write or a resurrection the journal is clean and nothing runs unclaimed: that is part of
`Machines.Safe`, which holds at every recorded step.

Where the code differs from what one would expect of it:

- Ownership is journaled only when an entry is new or changes. Once a live Pod has its address, its record is on disk
  exactly if the entry was new, changed its description or its address, or was on disk already
  (`Reconcilers.EnsureManaged`, `Reconcilers.InstallAddress`); after that only a restart or NFS mounts make the journal
  follow before the start. So an entry whose first writes failed and that needs no further change is started without a
  record. The proofs therefore speak of a clean journal, which one later successful write restores.
- Container names are cut at 120 characters, so two Pods can share a container. Under one namespace and name all UIDs of
  one length have names of their own exactly if the full name fits (`Journals.ContainerNamesDistinctExactly`); with one
  character too many, two UIDs that differ only in the last one already collide.
- A removal fails, in every pass, for an entry whose address is no IPv4 address: `removeWorkloadIP` rejects the text. It
  succeeds exactly if no removal command fails and the address is an IPv4 one, unset, or not on the PodCIDR
  (`Managers.Manager.RemoveWorkload`, `Reconcilers.ReconcileDeleted`). A terminating Pod with an IPv6 PodIP that is not
  managed is entered with that address and stays (`Books.ForeignAddressStays`).
- The allocator never gives out an address of a PodCIDR shorter than /16, which both validators accept
  (`Handle.AddressTestsAgree`).
- `addWorkloadIP` adds the block size to the network address in 32 bits. For the last block of the address space that sum
  wraps to zero, and subtracting one undoes it (`AddedBroadcastWraps`, `AddedBroadcastExact`).
- Addresses in use are compared as texts. A reported text keeps its address from being given out again exactly if it is
  not an IPv6-mapped spelling of an acceptable address of a PodCIDR of /16 or longer (`Handle.ReportedKeptExactly`);
  without such reports a pass gives distinct IPv4 addresses (`Books.AddressValuesUnique`).
- `normalizeSearchDomains` is not idempotent, and a name may be lost, unless names are well formed (`CleanStable`,
  `MalformedNameIsLost`).
- `stringMapEqual` is equality only on maps whose left values are nonempty (`StringMapEqualUnlessEmpty`).
- The comment on the search-domain `cleanup` (pkg/maclet/dns_search_domains.go:173-174) promises to restore what was
  there before. Nothing is ever remembered, so a service that already carried cluster.local is left without it
  (`SearchDomainOwner.CarriedNameIsLost`). What was there is restored exactly if it was nothing, or had a name that is
  not maclet's (`SearchDomainOwner.RestoredExactly`).

## Model

| member | source | states |
|---|---|---|
| Recovery.Run | pkg/maclet/workload_reconcile.go:87-403 | over any script of processes, each dying after any of its steps: unless it cannot load or rewrite its journal, each made all its passes, with a turn for every listed Pod in order and an errorless one concluded, and all its drains; at every step of one whose predecessors ended with a clean journal, each running container is named by the in-memory map and, while the journal is clean, by a non-retained record on disk; if no key is listed live after being listed as being deleted, this and a clean journal hold at every step before which no write failed; every status is first put to a listed Pod as it was listed, in its own turn, says in every PUT what was meant, and is terminal only for a Pod listed as being deleted whose container was removed, or as its policy has it, and Running only after Macker said so in that turn |
| Recovery.RecordPass | pkg/maclet/workload_reconcile.go:87-403 | a pass goes on record with one turn per listed Pod, in order, unless its first write failed; with distinct keys a Pod left alone to wait had been put off before the pass |
| Recovery.DrainAll | pkg/maclet/workload_network.go:69-88 | a drain goes on record with what it left, and leaves something only if something went wrong or an address did not parse |
| Recovery.RecoverAndReconcile | pkg/maclet/workload_reconcile.go:87-403 | loading the journal any clean crash left, then one pass: without a removal error, and so if no removal command or journal write fails and all addresses parse, every running container belongs to a listed, native, non-terminating Pod |
| Recovery.NoOrphans | pkg/maclet/workload_reconcile.go:385-403 | after a pass without removal errors, or without a cause for one, what runs and is no stray runs for a live listed Pod |
| Recovery.Start | pkg/maclet/join.go:151-155 | a new process rebuilds the maps from the journal, and its strays are exactly what ran without a record; a failed load changes nothing the journal claims, and is given up only for an unreadable journal or a failed write |
| Reconcilers.Reconcile | pkg/maclet/workload_reconcile.go:87-403 | whatever fails: no UID leaves both maps but by expiry; a workload is dropped only once its container was removed or was retired under Never or OnFailure, and only for a Pod being deleted, ended or unlisted; what stays managed is live or has a removal error, for which a removal command failed or an address did not parse; every listed Pod had one turn, and if that had no error this Pod itself was told Running, told its end, or left alone for a stated reason, which is to wait only if it was put off before the pass; there is no error at all if the Pods can be run, the addresses parse and nothing went wrong outside of maclet; failed writes are exactly told; only an unpruned journal aborts, taking no turn; every entry carries the address the pass gave it, or its old one |
| Books.AllConcluded | pkg/maclet/workload_reconcile.go:101-384 | after a pass without errors every listed Pod, in order, was dealt with in its own turn |
| Books.RunnableUnobstructed | pkg/maclet/workload_reconcile.go:147-212 | nothing stands in the way of a Pod whose network maclet supports, whose container has an image, and which uses the host's address, reports an acceptable one, or leaves the allocator of a PodCIDR from /16 down with fewer addresses in use than there are, once any old address of its entry parses |
| Reconcilers.ReconcileListed | pkg/maclet/workload_reconcile.go:95-384 | the Pod loop keeps all of that: the addresses given are those the entries carry, no other entry moved, drops are for cause, turns begun are those of listed Pods, and errors have a cause |
| Reconcilers.TakeTurn | pkg/maclet/workload_reconcile.go:103-384 | one turn more: its record names the Pod, whether that is managed now and whether it was put off before the turn, and is concluded if there was no error |
| Reconcilers.ReconcilePod | pkg/maclet/workload_reconcile.go:103-384 | one Pod concerns one UID and starts at most its own container, none if deleted, not native or finished, nor while it waits, nor one listed as exited under Never or OnFailure; its entry goes only if deleted or ended by policy, and then it is retained, nothing is left of its container unless a removal command failed, and the journal says so if no write failed; its address is the given one, else unchanged; an error-free turn leaves this Pod told Running with that address, ended by its policy, told Failed if deleted, or left alone for a stated reason, which held as the turn began; every error is answered: its Pod is told Pending with the reason that belongs to it, and is put off by five seconds where the code puts it off; a start that did not come up, or could not be journaled, is taken back; an error has a cause: the Pod cannot be run, its removal cannot succeed, or something went wrong outside of maclet; it reports at most once |
| Reconcilers.ReconcileDeleted | pkg/maclet/workload_reconcile.go:109-142 | the entry stays, with an error, exactly if a removal command failed or its address does not parse; otherwise it is retained, nothing of it is left, and this Pod is told Failed whatever the journal said, in a turn in which it is listed as being deleted; the journal follows unless a write failed |
| Reconcilers.RemoveDeletedPod | pkg/maclet/workload_reconcile.go:111-128 | a failed removal keeps or puts back the entry, a successful one retains it; emptied and with its kept logs, when Macker knows nothing of its container any more; which of them is decided by the removal commands and the address alone |
| Reconcilers.ReconcileLive | pkg/maclet/workload_reconcile.go:146-384 | an address is given only to a Pod off the host network, is the reported or the lowest free acceptable one, and is the one its entry carries; without one the entry keeps its own; without errors the Pod is settled or left alone, and an error means that the Pod cannot be run as specified, that no address is left, that its old address does not parse, or that something failed outside of maclet |
| Reconcilers.Manage | pkg/maclet/workload_reconcile.go:168-384 | the same for a Pod that is not refused, on the host network too: its entry ends up with the address taken or with its old one |
| Reconcilers.Refuse | pkg/maclet/workload_reconcile.go:147-167 | exactly which live Pods are refused before they are managed, and that they themselves are told Pending |
| Reconcilers.EnterOrUpdate | pkg/maclet/workload_reconcile.go:168-184 | the entry describes its Pod afterwards under an unchanged container name, everything else in it is as it was, and a change is reported exactly if it did not describe it before; a new one starts without mounts, volumes, logs or a retry time |
| Reconcilers.EnsureManaged | pkg/maclet/workload_reconcile.go:168-191 | the write-ahead rule holds again afterwards; a new or changed entry is on disk after success, any other as it was before; if the write failed the workload is put off |
| Reconcilers.PersistOrRetry | pkg/maclet/workload_reconcile.go:185-191 | only the retry time changes, and only if the write failed |
| Reconcilers.ChooseAddress | pkg/maclet/workload_reconcile.go:192-212 | the address chosen is reported or not in use, and acceptable to the handle |
| Reconcilers.TakeAddress | pkg/maclet/workload_reconcile.go:219-226 | the entry carries the address even if it could not be journaled; after success it is on disk if the address changed or it was before; a failed write puts it off |
| Reconcilers.MoveIn | pkg/maclet/workload_reconcile.go:219-233 | the entry carries the address, then the journal, then the host; an error has a failed write or command behind it |
| Reconcilers.InstallAddress | pkg/maclet/workload_reconcile.go:213-233 | success means the entry carries the address, its alias is listed and that of its old address is not; an entry not given the address keeps its own |
| Reconcilers.AddressAndDrive | pkg/maclet/workload_reconcile.go:192-384 | the address taken is chosen by the rule, and without one nothing but a Pending status happens, for a stated cause |
| Reconcilers.Proceed | pkg/maclet/workload_reconcile.go:213-384 | the entry carries the given address, else its old one, while it is managed; without errors the Pod is settled, finished, or waits for a retry time its entry already had; an error has a cause |
| Reconcilers.HandleUnavailable | pkg/maclet/workload_reconcile.go:240-246 | a failed listing starts nothing, and puts this Pod off as Pending |
| Reconcilers.ConfirmRunning | pkg/maclet/workload_reconcile.go:247-256 | for a container listed as running, this Pod is told Running, with no retry time left, and nothing is started |
| Reconcilers.HandleExited | pkg/maclet/workload_reconcile.go:257-383 | a container listed as exited is retired under Never or OnFailure, and under any other policy counted and started once more |
| Reconcilers.HandleUnlisted | pkg/maclet/workload_reconcile.go:331-383 | one that is not listed is started, without counting a restart |
| Reconcilers.Drive | pkg/maclet/workload_reconcile.go:240-384 | from the listing on, what happens is decided by what ps says first: nothing is started if it says nothing, or lists the container as running, or as exited under Never or OnFailure; an unlisted one is started without counting a restart, an exited one under any other policy with one more; without errors this Pod was told Running with its entry's address and restart count, or ended under Never or OnFailure; an error means an empty image or something that went wrong outside of maclet, and is answered |
| Reconcilers.DriveUnlessLeft | pkg/maclet/workload_reconcile.go:234-384 | a finished Pod, and one whose retry time has not come, is left alone and asks Macker nothing; any other is driven |
| Reconcilers.RetireOrRestart | pkg/maclet/workload_reconcile.go:257-330 | Never and OnFailure end the Pod; under any other policy the entry stays whatever fails, and a restart is counted once; an inspection that cannot be read only puts the Pod off; an error has a failed command or write behind it |
| Reconcilers.RetainExited | pkg/maclet/workload_reconcile.go:302-309 | a container seen exited is retained under Never or OnFailure whatever the stop says, without losing ownership of anything running; its kept logs are in their file until their time, unless that failed, and unless the stop failed nothing of the name runs |
| Reconcilers.Retire | pkg/maclet/workload_reconcile.go:276-313 | the phase this Pod is told is decided by the exit code if known, else by the policy its turn began with, with the entry's address and restart count, and every PUT says so |
| Reconcilers.Restart | pkg/maclet/workload_reconcile.go:314-330 | before a restart nothing of the name runs, its logs were kept and the int32 count grew by one; a stop error means a stop command failed; on any failure the workload is put off by five seconds |
| Reconcilers.CountRestart | pkg/maclet/workload_reconcile.go:320-329 | one more restart as an int32, journaled, or put off exactly if the write failed |
| Reconcilers.PrepareRun | pkg/maclet/workload_reconcile.go:331-350 | without errors a journal that is kept holds the mounts, otherwise the start is put off |
| Reconcilers.StartAndWait | pkg/maclet/workload_reconcile.go:354-369 | starts one container at most, by the commands of a launch; without errors Macker reported it running, otherwise the workload is put off and this Pod told Pending, for an empty image or a failed command; what was started and did not come up is stopped again unless that command failed |
| Reconcilers.AbandonStart | pkg/maclet/workload_reconcile.go:358-369 | a container that did not come up is stopped unless that command failed; its entry stays in place, put off, and its Pod Pending |
| Reconcilers.ConfirmStarted | pkg/maclet/workload_reconcile.go:370-383 | unless the last write failed, this Pod was told Running and ownership is on disk with a clean journal; if it failed the Pod stays Pending, put off, and the container, its alias, its mounts and its volumes are gone again, unless a removal command failed or the address does not parse; nothing is started, and the entry stays in any case |
| Reconcilers.RemoveUnjournaled | pkg/maclet/workload_reconcile.go:370-378 | nothing of that name runs or is listed by Macker any more, and alias, mounts and volumes are gone, unless a removal command failed or the address does not parse; the entry forgets its mounts and volumes in any case; the Pod is told Pending and put off |
| Reconcilers.TakeBack | pkg/maclet/workload_reconcile.go:371-371 | the removal alone, which reports nothing and leaves the entry where it was |
| Reconcilers.Bring | pkg/maclet/workload_reconcile.go:354-383 | started, seen running, journaled and told Running; otherwise what was started is taken back, unless a command of that failed; an error means an empty image or something that failed outside of maclet |
| Reconcilers.TellRunning | pkg/maclet/workload_reconcile.go:247-256 | the Running status is put to the Pod whose turn it is, with its entry's address and restart count, after Macker said that its container runs |
| Reconcilers.TellPending | pkg/maclet/workload_reconcile.go:147-167 | Pending is put to the live Pod whose turn it is |
| Reconcilers.Announce | pkg/maclet/workload_reconcile.go:247-256 | this Pod is told Running for a container seen running, with its entry's address and restart count, and its retry time ends |
| Reconcilers.RemoveStaleWorkloads | pkg/maclet/workload_reconcile.go:385-401 | what is left and unseen is exactly what has a stale error, which has a cause; what went is retained, and the journal says so unless the write failed; nothing is forgotten |
| Reconcilers.UsedAddresses | pkg/maclet/workload_reconcile.go:95-100 | exactly the reported addresses count as used |
| Books.AddressesUnique | pkg/maclet/workload_reconcile.go:95-226 | if the reported addresses of the addressed Pods are pairwise distinct, a pass gives no address twice and none another such Pod reported |
| Books.AddressValuesUnique | pkg/maclet/workload_reconcile.go:95-226 | as IPv4 values too, if the reports differ as such and none is one the allocator can give out again |
| Books.EntryAddressesUnique | pkg/maclet/workload_reconcile.go:95-226 | an address that an entry took in a pass is acceptable, no other entry took it, and no other addressed Pod reported it; an allocated one was reported by no listed Pod |
| Books.EntryAddressValuesUnique | pkg/maclet/workload_reconcile.go:95-226 | under the same conditions the entries differ as IPv4 values |
| DarwinNetwork.Handle.ReportedKeptExactly | pkg/maclet/workload_reconcile.go:95-205 | a reported text keeps its address from being given out again if and only if it is no mapped spelling of an acceptable address from /16 down |
| Books.AllAccounted | pkg/maclet/workload_reconcile.go:385-403 | after the last loop every managed workload is live or has a removal error, and none has without a cause |
| Books.ForeignAddressStays | pkg/maclet/darwin_network.go:333-337 | an unmanaged terminating Pod with an IPv6 address cannot be removed, in this pass or, once entered, in any |
| Books.Key | pkg/maclet/workload_reconcile.go:105-108 | no Pod is managed under an empty UID |
| Books.KeysDistinct | pkg/maclet/workload_reconcile.go:105-108 | Pods with UIDs have one key exactly if they have one UID, Pods without one exactly if namespace and name are the same, and the two kinds never meet |
| Reconcilers.Arriving | pkg/maclet/workload_reconcile.go:170-177 | a new entry is one the loader accepts, with the reported restart count |
| Managers.Manager.PersistJournal | pkg/maclet/workload_manager.go:190-225 | from any state the manager reaches, a write restores the write-ahead rule; the journal holds both maps afterwards or is unchanged, and holds them if the write succeeded |
| Managers.Manager.JournalRecords | pkg/maclet/workload_manager.go:194-216 | one record per entry of both maps, in whatever order |
| Managers.Manager.Records | pkg/maclet/workload_manager.go:210-215 | exactly one record per entry of a map |
| Managers.Manager.LoadJournal | pkg/maclet/workload_manager.go:131-182 | both maps as journaled less the expired, strays exactly what is unclaimed; refused only for an incomplete record, an unreadable file or a failed write; claims survive every outcome |
| Managers.Manager.FillMaps | pkg/maclet/workload_manager.go:149-177 | refuses exactly the journals with an incomplete record |
| Managers.Manager.AdoptJournal | pkg/maclet/workload_manager.go:149-177 | after loading, the map names all that runs except the strays, and the write-ahead rule holds |
| Managers.Manager.DropExpired | pkg/maclet/workload_logs.go:64-77 | exactly the expired entries go, with their log files unless that failed, and change is reported exactly then |
| Managers.Manager.PruneAndPersist | pkg/maclet/workload_reconcile.go:90-94 | pruning forgets nothing else and loses no ownership; a write is made exactly if something expired |
| Managers.Manager.StopContainer | pkg/maclet/workload_reconcile.go:16-28 | an error exactly if a command failed; without one nothing of the name runs, or is known to Macker |
| Managers.Manager.RemoveWorkload | pkg/maclet/workload_reconcile.go:38-72 | succeeds exactly if no removal command failed and the address, if one is to be released, parses; then nothing of the name runs or is known to Macker, its alias is unlisted and its mounts and volumes are gone; the entry forgets them in any case; its logs are in their file before, unless that failed |
| Managers.Manager.ArchiveLogs | pkg/maclet/workload_logs.go:14-43 | log file and expiry are stamped exactly when the logs were written; unless they are not kept or that failed, they are in the file of that name until the retention time is over |
| Managers.Manager.LogFilesDistinct | pkg/maclet/workload_logs.go:26-33 | two workloads have one log file exactly if namespace, UID and container of the Pod are the same, as these hold no NUL |
| Managers.Manager.RetainWorkload | pkg/maclet/workload_logs.go:45-62 | the entry changes maps without address, mounts or volumes, with an expiry in any case, and all that runs stays named |
| Managers.Manager.RemoveAndRetain | pkg/maclet/workload_network.go:74-81 | the entry moves to the retained map exactly if its removal succeeded, which has the same exact condition |
| Managers.Manager.RemoveUnseen | pkg/maclet/workload_reconcile.go:386-396 | every seen entry remains, what else remains failed for a cause, and what left was removed and is retained |
| Managers.Manager.Cleanup | pkg/maclet/workload_network.go:69-88 | without an error nothing is managed, nothing but strays runs, and the journal says so; an error, or anything left, has a failed command, a failed write or an address that does not parse behind it; a write is made exactly if something went |
| Managers.Manager.Start | pkg/maclet/workload_manager.go:276-296 | success means exactly one run command succeeded; a second run is given only after a first that missed the image and a pull of it that succeeded; a failure means an empty image or a failed command; one name starts at most, and the write-ahead rule survives |
| Managers.Manager.WaitForMackerRunning | pkg/maclet/workload_manager.go:317-359 | terminates; success means Macker reported the container running, by ps, or by every inspection over the whole startup window; for a container started in this turn failure means that a command failed or that it was said not to run |
| Managers.Manager.ReportStatus | pkg/maclet/workload_status.go:186-194 | only for the Pod whose turn it is, and only if its turn allows the phase; what is recorded is what every PUT of the update said, across conflicts, the first on that Pod |
| Journals.RoundTrip | pkg/maclet/workload_manager.go:131-225 | loading what was persisted gives both maps back but for retry times, even with one UID in both |
| Journals.LoadedHas | pkg/maclet/workload_manager.go:149-177 | every record of a loadable journal is loaded as it is, whatever follows it |
| Journals.LoadedFrom | pkg/maclet/workload_manager.go:149-177 | every loaded entry comes from a record |
| Journals.LoadedNames | pkg/maclet/workload_manager.go:149-177 | the loaded map claims exactly what the journal claims |
| Journals.HoldsLoadable | pkg/maclet/workload_manager.go:149-152 | no journal the manager writes is refused |
| Journals.HoldsNames | pkg/maclet/workload_manager.go:190-225 | a written journal claims exactly what the map names |
| Journals.WorkloadContainerName | pkg/maclet/workload_mounts.go:20-40 | the loop computes the specified name |
| Journals.ContainerNameValid | pkg/maclet/workload_mounts.go:20-40 | every Pod gets a nonempty name of at most 120 plain characters with clean edges |
| Journals.ContainerNameReads | pkg/maclet/workload_mounts.go:20-40 | character by character the name is maclet, namespace, name and UID, in this order and with hyphens between them, as far as the limit goes, but for separators at its end |
| Journals.ContainerNamesDistinct | pkg/maclet/workload_mounts.go:20-40 | any two Pods with different UIDs of one length get different names while those fit into 120 characters |
| Journals.ContainerNamesDistinctExactly | pkg/maclet/workload_mounts.go:20-40 | under one namespace and name the UIDs of one length all get different names if and only if the full name fits into 120 characters |
| Journals.CutNamesCollide | pkg/maclet/workload_mounts.go:34-38 | full names that agree on their first 120 characters give one container name |
| Journals.LongNamesCollide | pkg/maclet/workload_mounts.go:35-38 | from 111 characters of namespace and name on, all UIDs get the same name |
| Journals.NamesDrop | pkg/maclet/workload_logs.go:60-61 | dropping an entry un-names at most its own container |
| Machines.Machine.WriteJournal | pkg/maclet/state_files.go:44-69 | all or nothing, and a failing write may be either |
| PodStatuses.SetPodCondition | pkg/maclet/workload_status.go:23-40 | the condition occurs once, where the first of its kind stood or at the end; all others are kept in order |
| PodStatuses.OfOtherKind | pkg/maclet/workload_status.go:23-40 | what a list holds of one kind does not depend on its other kinds |
| PodStatuses.StandardConditions | pkg/maclet/workload_status.go:63-76 | each of the four kinds exactly once, with the status, reason and time that belong to it, ready exactly as given, other kinds untouched |
| PodStatuses.MakeState | pkg/maclet/workload_status.go:82-124 | exactly one state, of the kind phase and running ask for: what terminated has the exit code, reason, note and times of the inspection, and what waits is told ContainerCreating but for four causes of its own |
| PodStatuses.DesiredPodStatus | pkg/maclet/workload_status.go:42-127 | reports exactly the given phase, addresses, message, count and readiness, and keeps what is not maclet's |
| PodStatuses.UpdatePodStatus | pkg/maclet/workload_status.go:129-173 | at most five PUTs, the first on the given Pod and each retry on the Pod of its name just refreshed, all with the same phase, PodIP, HostIP, message and restart count; a retry comes after a conflict only, and success means that the last PUT was stored |
| PodStatuses.UpdateStatus | pkg/maclet/workload_status.go:186-194 | as maclet calls it, the first PUT is on the given Pod and all on Pods of its name; every PUT reports the given phase, addresses, message and restart count with the state they ask for, and the first tells a known exit code |
| PodStatuses.RetryKeeps | pkg/maclet/workload_status.go:170-170 | exactly when readiness and the kind of state survive a conflict |
| NodeClaims.MutualExclusion | pkg/maclet/ownership.go:109-204 | under every interleaving in which outside writers leave existing markers alone, at most one instance ID ever succeeds on one Node object |
| NodeClaims.NoForeignNodeChanged | pkg/maclet/ownership.go:109-204 | for arbitrary outside writers no request changes a Node carrying another instance's marker, and none takes one it may not take or loses other data |
| NodeClaims.RunsEntitled | pkg/maclet/ownership.go:54-204 | in every run, every call that patches or succeeds read the object itself and may take it, or created it: it had its own marker, or none, under the adopt flag, and OS, architecture and managed label empty, absent or as desired; a recorded UID is the UID it returns |
| NodeClaims.DecidedRightfully | pkg/maclet/ownership.go:54-93 | a call refuses exactly the objects it may not take |
| NodeOwnership.VerifiedExactly | pkg/maclet/ownership.go:54-93 | the check refuses exactly a Node of another name, another marker, none without the adopt flag or with labels that do not fit, or another UID than the recorded one |
| NodeClaims.PatchMeetsSnapshot | pkg/maclet/ownership.go:180-202 | a patch that goes through meets exactly the verified object and leaves it converged |
| NodeClaims.NextConsistent | pkg/maclet/ownership.go:109-204 | one resource version, one content: kept by every step |
| NodeClaims.RunsConsistent | pkg/maclet/ownership.go:109-204 | and so in every run |
| NodeClaims.SuccessIsMarked | pkg/maclet/ownership.go:142-203 | every success is about an object that carries the winner's marker on the server |
| NodeClaims.MarkerStays | pkg/maclet/ownership.go:54-79 | no step moves the marker of a living object to another ID |
| NodeClaims.NextExclusive | pkg/maclet/ownership.go:109-204 | exclusivity is kept by every step |
| NodeRegistration.EnsureOwnedNode | pkg/maclet/ownership.go:109-204 | the call as written follows the protocol among all others; success returns a converged Node of its own, which this call created, or read as one it may take: marked with its own ID, or unmarked, under the adopt flag, with fitting labels, and of the recorded UID if there is one |
| NodeRegistration.ReadOrCreate | pkg/maclet/ownership.go:113-146 | the persisted UID is checked unless this call created the object |
| NodeRegistration.BuildPatch | pkg/maclet/ownership.go:151-191 | the patch lays the desired data over the verified object and is tied to its version |
| NodeRegistration.MergeMaps | pkg/maclet/ownership.go:156-162 | the second map over the first |
| NodeRegistration.SecondCallSendsNothing | pkg/maclet/ownership.go:179-203 | a second quiescent call reads once and sends no patch |
| NodeRegistration.TwoWinnersTwoObjects | pkg/maclet/ownership.go:109-204 | two instances that both got a Node hold different objects |
| NodeOwnership.NoPatchExactlyWhenConverged | pkg/maclet/ownership.go:151-180 | no patch is needed exactly when marker, labels and taint are in place |
| NodeOwnership.PatchConverges | pkg/maclet/ownership.go:180-203 | the patched Node (merge patch, section 2 of RFC 7396) is converged, keeps all else, and needs no further patch |
| NodeOwnership.PatchPreserves | pkg/maclet/ownership.go:151-191 | other labels, annotations and taints survive |
| NodeOwnership.StringMapEqualExact | pkg/maclet/ownership.go:206-216 | equality when the left keys are among the right ones |
| NodeOwnership.StringMapEqualUnlessEmpty | pkg/maclet/ownership.go:206-216 | equality on arbitrary maps exactly if no left value is empty |
| NodeOwnership.TaintsEqualExact | pkg/maclet/ownership.go:218-228 | equality of taint lists |
| AddressPlan.PlanExact | pkg/maclet/darwin_network.go:100-128 | bridge and gateways are the plain sums: no 32-bit step loses a bit, and errors come exactly past the block |
| AddressPlan.BridgeExact | pkg/maclet/darwin_network.go:414-431 | the bridge address is the one after the network, and fails only for 255.255.255.255/32 |
| AddressPlan.GatewaysDistinct | pkg/maclet/darwin_network.go:100-128 | gateways are pairwise distinct and never network, bridge or broadcast |
| AddressPlan.ValidateExact | pkg/maclet/workload_network.go:24-55 | accepts exactly the addresses between the first gateway and the broadcast address |
| AddressPlan.HostIPIsBridge | pkg/maclet/workload_mounts.go:236-250 | the host-ip argument never borrows and is the bridge address |
| AddressPlan.AddedBroadcastExact | pkg/maclet/darwin_network.go:237-292 | the alias code's broadcast is the block's last address |
| AddressPlan.AddedBroadcastWraps | pkg/maclet/darwin_network.go:237-292 | though its sum does wrap for 255.255.0.0/16 |
| AddressPlan.FreeByCounting | pkg/maclet/darwin_network.go:311-331 | fewer than 2^h - 4 - (n - 1) used addresses leave one free |
| AddressPlan.BlockFits | pkg/maclet/darwin_network.go:44-72 | a block never leaves the 32-bit space |
| AddressPlan.NetmaskBits | pkg/maclet/darwin_network.go:29-42 | the mask has bit i set exactly if the prefix covers it |
| AddressPlan.RouteReaches | pkg/maclet/darwin_network.go:29-42 | an address agrees with the network on the bits of the mask exactly if it lies in the block |
| AddressPlan.ContainsRange | pkg/maclet/workload_network.go:33-35 | a masked match is membership in the range |
| DarwinNetwork.Handle.FirstAvailableWorkloadIP | pkg/maclet/darwin_network.go:311-331 | the lowest acceptable unused address, an error exactly when there is none, never while counting leaves one |
| DarwinNetwork.Handle.AddressTestsAgree | pkg/maclet/darwin_network.go:237-331 | allocator, validator and alias tests define one set, exactly from /16 down |
| DarwinNetwork.Handle.TestsAgree | pkg/maclet/workload_network.go:57-67 | validator and alias tests accept exactly the acceptable addresses |
| DarwinNetwork.Handle.ReservedExact | pkg/maclet/darwin_network.go:294-309 | the reservation test is exact within the block |
| DarwinNetwork.Handle.AddWorkloadIP | pkg/maclet/darwin_network.go:237-292 | the alias list stays distinct, acceptable and on the bridge, grows by at most this address, and refuses it exactly if it is not acceptable or its command failed |
| DarwinNetwork.Handle.RemoveWorkloadIP | pkg/maclet/darwin_network.go:333-356 | succeeds exactly for an IPv4 text whose removal command, if any, did not fail; one occurrence goes once the interface let it go, or the list stays, also where a failing removal took effect |
| DarwinNetwork.Handle.RemoveAliases | pkg/maclet/darwin_network.go:381-412 | the backward in-place walk leaves exactly the aliases whose removal failed, in order |
| DarwinNetwork.Handle.Cleanup | pkg/maclet/darwin_network.go:381-412 | the same for the whole cleanup; it fails exactly if a command did; without an error no route and no ARP entry of the handle is left on the host, and never is one that is not the handle's touched; everything is forgotten with the interface |
| DarwinNetwork.Handle.DeleteRoutes | pkg/maclet/darwin_network.go:397-403 | the host's table loses at most the handle's destinations, and all of them without an error |
| DarwinNetwork.Handle.DeleteARPs | pkg/maclet/darwin_network.go:404-410 | the same for the ARP entries scoped to the bridge |
| DarwinNetwork.Handle.SetGatewayMAC | pkg/maclet/darwin_network.go:358-379 | fails exactly for a text that is no MAC or a failed command; only the shared gateway's entry follows the new address, in the handle and, with success, on the host |
| DarwinNetwork.SetupDarwinNetwork | pkg/maclet/darwin_network.go:130-235 | succeeds exactly if the configuration can be planned and no command failed; then installs a valid handle whose gateways, ARP entries and routes belong to the ordered peers, each route taking exactly the addresses of its CIDR, and the host's ARP and routing tables are the old ones overlaid with exactly these; a failure on the way is undone, unless a command of that fails too |
| DarwinNetwork.AddGateways | pkg/maclet/darwin_network.go:130-235 | one gateway and one ARP entry per peer, no PodCIDR twice |
| DarwinNetwork.PlanRoutes | pkg/maclet/darwin_network.go:130-235 | each peer's route uses its own gateway, cluster and service routes the shared one |
| DarwinNetwork.OrderPeers | pkg/maclet/darwin_network.go:130-235 | the remote first, the others in discovery order |
| DarwinNetwork.RemoteFirstPermutes | pkg/maclet/darwin_network.go:130-235 | ordering loses and repeats no peer |
| DarwinNetwork.RemoteFirstStable | pkg/maclet/darwin_network.go:139-150 | the peers of the remote come first, and both groups keep their order |
| DarwinNetwork.PeerRoutingConsistent | pkg/maclet/darwin_network.go:130-235 | each peer's route leads through a gateway whose only ARP entry is that peer's MAC; cluster and service routes through the remote's |
| DarwinNetwork.PeerRoutingInForce | pkg/maclet/darwin_network.go:130-235 | after a success the host finds each peer's gateway at that peer's MAC; it has an entry that takes exactly the addresses of each peer's PodCIDR and leads through that peer's gateway, and such entries for cluster and services through the remote's, if and only if no two peers have one block and none but the remote has the cluster's or the services' |
| DarwinNetwork.RoutesInForceExactly | pkg/maclet/darwin_network.go:223-233 | all added routes are in force exactly if no two of them send one destination through different gateways |
| DarwinNetwork.NeighbouredAll | pkg/maclet/darwin_network.go:213-222 | all ARP entries set are in force and no other changes, as no address has two |
| SearchDomainOwner.Run | pkg/maclet/dns_search_domains.go:111-199 | over any run of heartbeats, edits, shutdowns, leaves and restarts: each event has its effect, every heartbeat reconciles, every shutdown and leave is carried out, the foreign list is always the last editor's, in order, and the service counts at most one reconcile write more than there were disturbances; if no command fails, a heartbeat leaves maclet holding exactly its own list or off the service |
| SearchDomainOwner.ClusterDNSSearchDomains.Reconcile | pkg/maclet/dns_search_domains.go:111-171 | succeeds exactly if no command failed, and then owns the service with its own list or, with a foreign entry there, has handed it back with exactly the foreign list; never writes to an unowned service with a foreign entry, and writes nothing when nothing changed |
| SearchDomainOwner.ClusterDNSSearchDomains.Cleanup | pkg/maclet/dns_search_domains.go:175-199 | writes only to an owned service, and only the foreign part; fails exactly if a command did |
| SearchDomainOwner.CleanupLeaveSearchDomains | pkg/maclet/dns_search_domains.go:471-507 | writes nothing unless a managed name is there, and then exactly the foreign names; fails exactly if a command did |
| SearchDomainOwner.LeaveService | pkg/maclet/dns_search_domains.go:471-507 | without an error the service's names are those it had less the recorded ones, or less svc.cluster.local and cluster.local if none are recorded |
| SearchDomainOwner.LeaveTakes | pkg/maclet/dns_search_domains.go:471-507 | the same of the lists, whether or not there is something to write |
| SearchDomainOwner.RestoredExactly | pkg/maclet/dns_search_domains.go:173-199 | taking a service over and cleaning up restores its names if and only if there were none, or a foreign one kept maclet off |
| SearchDomainOwner.CarriedNameIsLost | pkg/maclet/dns_search_domains.go:173-199 | a service that carried cluster.local is left without it |
| SearchDomainOwner.TakeOverAndCleanup | pkg/maclet/dns_search_domains.go:111-199 | a heartbeat and a cleanup without a failing command leave exactly what that lemma is about |
| SearchDomainOwner.WriteKeepsForeign | pkg/maclet/dns_search_domains.go:122-157 | both lists maclet writes keep the foreign list and read back as written |
| SearchDomainOwner.WrittenReadsBack | pkg/maclet/dns_search_domains.go:221-235 | a publishable list is read back unchanged |
| SearchDomainOwner.RewriteKeepsExactlyStable | pkg/maclet/dns_search_domains.go:124-132 | a foreign list survives being written back exactly if its names are well formed |
| SearchDomainOwner.WellFormedSettles | pkg/maclet/dns_search_domains.go:372-382 | well-formed entries meet what the run needs of editors |
| SearchDomainOwner.WellFormedPublishable | pkg/maclet/dns_search_domains.go:57-70 | well-formed requests meet what the run needs of maclet |
| SearchDomainOwner.ForeignPublishable | pkg/maclet/dns_search_domains.go:299-312 | the foreign part of a settled list can be written back |
| SearchDomains.ReadBack | pkg/maclet/dns_search_domains.go:314-320 | a written list is read back normalized; the sentinel collides with no name |
| SearchDomains.NormalizeSearchDomains | pkg/maclet/dns_search_domains.go:279-297 | the loop computes the specified normalization |
| SearchDomains.NormalizeMembers | pkg/maclet/dns_search_domains.go:279-297 | distinct names that are cleaned entries, no placeholder |
| SearchDomains.NormalizeInOrder | pkg/maclet/dns_search_domains.go:279-297 | the names keep the order in which they first appeared |
| SearchDomains.CleanReads | pkg/maclet/dns_search_domains.go:283-283 | cleaning drops the spaces around, one dot at the end, and the case, and nothing else |
| SearchDomains.CleanStable | pkg/maclet/dns_search_domains.go:283-283 | cleaning is idempotent exactly on well-formed names |
| SearchDomains.NormalizeFixed | pkg/maclet/dns_search_domains.go:279-297 | a normal list is a fixed point exactly if all its names are stable |
| SearchDomains.MalformedNameIsLost | pkg/maclet/dns_search_domains.go:283-292 | a concrete name that normalizing twice loses |
| SearchDomains.SplitSearchDomains | pkg/maclet/dns_search_domains.go:299-312 | managed and foreign names, each in order |
| SearchDomains.PickInOrder | pkg/maclet/dns_search_domains.go:299-312 | what is picked keeps its order |
| SearchDomains.ParseSearchDomains | pkg/maclet/dns_search_domains.go:372-382 | the lines that are names, normalized |
| ResourceMetrics.ProcessTreeMetrics | pkg/maclet/resource_metrics.go:211-238 | for every table, cycles included: the sums over exactly the processes reachable from the root, each once |
| ResourceMetrics.Walk.Visit | pkg/maclet/resource_metrics.go:221-235 | terminates, counts nothing twice, and closes the visited set |
| ResourceMetrics.ChildrenByParent | pkg/maclet/resource_metrics.go:215-218 | exactly the parent links, in whatever order |
| ResourceMetrics.ClosedCovers | pkg/maclet/resource_metrics.go:221-236 | a closed set below the root is the whole tree |
| ResourceMetrics.TreesDisjoint | pkg/maclet/resource_metrics.go:70-112 | two trees share a process exactly if one root lies below the other |
| ResourceMetrics.WorkloadsWithinNode | pkg/maclet/resource_metrics.go:58-112 | unrelated workloads together are charged at most the node's total |
| ResourceMetrics.ForestUsage | pkg/maclet/resource_metrics.go:58-112 | their usage is the sum over the union of their trees |
| ResourceMetrics.NodeCpu | pkg/maclet/resource_metrics.go:58-61 | the node total, in any order |
| ResourceMetrics.MetricCounter.Update | pkg/maclet/resource_metrics.go:121-135 | the counter is the sum of its charges; it never falls, covers the reading, and is what every incarnation finally used, added up, as long as each only grows |
| ResourceMetrics.CounterCharges | pkg/maclet/resource_metrics.go:121-135 | for all readings, the first, and any whose known root differs from the last known one, is charged in full, and any other for what it exceeds the one before |
| ResourceMetrics.OneRootCounts | pkg/maclet/resource_metrics.go:58-64 | under one root, or none as for the node, the counter is the last reading while they grow, and a fall leaves it where it was |
| ResourceMetrics.CounterIsTotalUsage | pkg/maclet/resource_metrics.go:121-135 | over any restarts the counter is what each incarnation finally used, added up |
| ResourceMetrics.CounterNeverFalls | pkg/maclet/resource_metrics.go:121-135 | the counter never falls and never lags the last reading |
| NodeNames.NodeNameFromHostname | pkg/maclet/node_name.go:22-61 | the loops compute the specified name, which is empty or valid, and has all letters and digits of the lower-cased hostname, in order, exactly if nothing was too long, which of a hostname of at most 63 characters nothing is |
| NodeNames.NodeNameKeepsLetters | pkg/maclet/node_name.go:22-61 | the name has exactly the letters and digits of the lower-cased hostname, in order, if and only if no label nor the whole was too long |
| NodeNames.CutsAreTight | pkg/maclet/node_name.go:47-60 | what is too long is cut to a prefix of 62 or 63, and 252 or 253 characters |
| NodeNames.NormalizeLabel | pkg/maclet/node_name.go:26-51 | the inner loop joins the alphanumeric runs by single hyphens and truncates |
| NodeNames.WordsAround | pkg/maclet/node_name.go:28-46 | a run of letters and digits between others is one word of its label |
| NodeNames.NodeNameValid | pkg/maclet/node_name.go:22-61 | at most 253 characters of labels valid under section 2.1 of RFC 1123 and section 2.3.4 of RFC 1035, despite both truncations |
| NodeNames.NodeNameFixedPoints | pkg/maclet/node_name.go:22-61 | the fixed points are exactly the empty and the canonical names |
| NodeNames.NodeNameIdempotent | pkg/maclet/node_name.go:22-61 | applying it again changes nothing |
| NodeNames.CutCanonical | pkg/maclet/node_name.go:57-59 | cutting a canonical name anywhere and trimming leaves a canonical one |

## Left out

- Reconcile: the messages of statuses are arbitrary texts, and the reason a status is computed with decides only the waiting reason, as in the code. The refreshed Pod a PUT returns is not kept, as nothing reads it in the same pass.
- Run records of each round which turns it took, how they ended and what a drain left; the rest of what a round did is the contract of `Reconcile` and `Cleanup`.
- WaitForMackerRunning: what inspect says is not assumed to be true of the launcher; only ps is. A container that was started and is said not to run counts as a setback, as it may end by itself at any time; so a pass without setbacks is one in which what was started kept running.
- Workload entries are values in the two maps. The Go maps hold pointers, so a change through one name is written back explicitly here, and aliasing of one entry is not captured.
- PersistJournal: the sort by UID is modelled as any order and the file as a sequence of records; JSON text, file modes and an unsupported journal version are not modelled.
- ArchiveLogs: log bytes are not modelled, and a log file is named by the text whose digest the code takes, as if no two texts had one digest.
- PrepareRun: the run arguments, volume materialization and NFS mounting are an outcome plus the lists they leave in the entry; the host-ip argument is in `AddressPlan`.
- Address uniqueness across passes is not claimed, as addresses in use are known only from reported PodIPs.
- Retained log references after a second pass over one terminating Pod, and aliases and mounts of exited Pods under Never or OnFailure, are not claimed to survive or to be released.
- Ownership while the last journal write has failed is claimed in memory only.
- SearchDomainOwner.Run counts successful writes; a failing command may or may not have stored its list. The resolver check after a write and the parser of the service order are not modelled.
- `Empty` and its restored base configuration: a service without explicit search domains reads as an empty list, and the base configuration that shows again (pkg/maclet/dns_search_domains.go:16-21) is not modelled.
- Leave without a record removes the default names and is modelled, but `Run` leaves with the record of its own join.
- SetupDarwinNetwork: route CIDRs in IPv6-mapped form are not modelled. A route command that adds a destination the host already has is taken to replace its gateway if it succeeds, and, like every command, it may take effect although it fails.
- ProcessTreeMetrics: CPU time is a natural number of hundredths of a second, not a float; memory wraps at 64 bits as in the code.
- EnsureOwnedNode: HTTP status codes other than 404 and 409 are one kind of error; `configureFlannel` and the shutdown cordon, which carry no resource version, are outside the protocol.
- NodeNameFromHostname: strings are sequences of characters, with the Unicode tables as a parameter; invalid UTF-8 is not modelled.
- UpdateStatus: one time stamp serves all PUTs of an update, where the code takes the time anew for each.
- HTTP transport, certificates, tunnels, the CLI, Prometheus text and retry back-off are plumbing and not modelled.
