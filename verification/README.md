# A verified model of the docker-operator

The docker-operator runs coding agents on one Docker host. Each agent is a container with a
Docker-in-Docker sidecar, a private network and three volumes; the operator keeps one record per
agent in an embedded store and drives Docker from it. This project models the parts of it where
correctness depends on several mechanisms working together, and proves what they promise.

`dafny verify dfyconfig.toml` checks everything.

| file | what it holds |
|---|---|
| `Agents.dfy` | records, statuses, one agent's Docker resources, and the daemon's rules |
| `Lifecycle.dfy` | Create, Update, Delete, StopAgent, ResumeAgent, reconcile claims, container events, completion policies and crashes as a step system: one step per store transaction, Docker call or registry call |
| `LifecycleIdentity.dfy` | container IDs stay with the agent and role they were handed out for |
| `LifecycleInvariant.dfy` | the inductive invariant and the proof that every step keeps it |
| `LifecycleSafety.dfy` | what follows for every run: event shield, deletion, no data loss, exclusive ownership, the cap |
| `LifecycleWitness.dfy` | operations that run to their end, and runs that show where the guarantees end |
| `LifecycleClaims.dfy` | what exactly a reconcile claim on an outdated listing can do, and the wake after a reboot |
| `Registry.dfy` | the in-flight registry |
| `Names.dfy`, `Isolation.dfy` | resource names, and isolation between agents for calls by name and by ID |
| `Manager.dfy` | teardown, create with rollback, delete, sidecar recovery, wake-up, as imperative code with arbitrary call failures |
| `Reconcile.dfy` | the reconcile pass built on them |
| `Backend.dfy`, `Accounts.dfy` | harness, backend and account resolution; the account store and its migration |
| `Cron.dfy` | the scheduler and the life of a run |
| `ImageTags.dfy`, `ImageCleanup.dfy` | image tags, the offer, the cleanup |
| `DiskCache.dfy` | the single-flight disk-usage cache and the totals |

How the lifecycle model is built:

- The daemon is modelled as one `Resources` value per agent ID. `Names` and `Isolation` justify that: they
  start from a daemon keyed by strings and show that a call through an agent's names, or through any
  container ID an operation holds in any reachable state, changes that agent's view as modelled and no
  other's.
- A Docker call can succeed, be refused, or take effect and still report an error. Stopping or removing
  something that is gone succeeds; a volume a container references and a network with an endpoint are
  refused; a container create is refused on a name conflict or a missing network. Container IDs are
  never reused by the daemon, for no agent and no role (`issued` is the ledger of those handed out), and
  ID 0 stands for the empty string.
- Containers may die or vanish at any step. Their events may be delivered at any later time and any
  number of times. An event handler reads the record first and writes in a second step.
- `Crash` drops the registry and every running operation and keeps the store and the daemon.
- The history fields `last`, `retired` and `died` of a slice are read by no operation. The listing a
  reconcile claim acts on is an earlier state of that record, so its container IDs are the agent's own.
- In the imperative model (`Manager.dfy`) a `Site` counts its faults: calls that failed with nothing in their way,
  and containers that exited or did not become healthy. What an operation does is stated for every combination
  of faults, and exactly when it succeeds for the runs without any; `Accounts` and `Cron` count failed store
  calls in the same way.
- The identifiers Create and the account store generate are random in the code; the model takes them to
  be unused. Create's `begin` on its own fresh ID is therefore a claim of a free ID.

## What the code does not promise

Several properties one might expect are false. For each there is a run that shows it, and the exact
condition or the corresponding exact statement.

- The README of the operator promises a hard `MAX_AGENTS` cap (docker-operator/README.md:35). Only
  Create checks it, and a record can take a slot in two other ways. Update and ResumeAgent take a stopped or
  failed agent back (`CapIsExceeded`). And the "stop" policy of a scheduled run can free the slot of an
  agent whose Update, wake or resume is under way; the last write of that operation takes it again
  (`CapIsExceededByCompletion`). `CapHoldsExactlyWithoutOverAdmission` says that the cap holds in every
  state of a run if and only if neither happens while every slot is taken. (Stopped and failed records do not
  occupy a slot: docker-operator/internal/store/store.go:104-106.)
- A periodic reconcile pass acts on the status it listed, not on the status it finds once it has claimed
  the agent. `ReconcileCanDestroyAHealthyAgent` builds a run in which a healthy agent loses its workspace.
  The theorems about runs therefore ask that a claim be `Compatible`: if the record is still there, the
  listed and the current status agree on whether the agent is half built or half removed. What an
  incompatible claim does is exact as well: `OutdatedTeardownDestroys` shows which volumes a settled agent
  loses for each listed container ID that still reaches its container, `MissedTeardownSparesVolumes` that none is
  lost when neither does, and `OutdatedClaimRevives` what happens to a record that is going away. A
  compatible claim can still cost a healthy agent its status: `ClaimOnHealthyAgent` says exactly when. At
  startup every claim is made on the current record, because nothing else runs.
- The "stop" completion policy of a scheduled run writes its status unconditionally and outside the
  registry. It is part of the step system on every record that is not being created or deleted, in the middle
  of any operation; `UnguardedCompletionRevives` shows what it does to the others. A run is
  recorded after its agent's Create has returned (docker-operator/cmd/docker-operator/schedule.go:128-141), so
  in practice the others are the agents being deleted.
- failUpdate promises that a failed Update does not leave its record Updating
  (docker-operator/internal/agent/update.go:289-291). When the write of the new configuration fails, the
  caller's copy of the record is empty and the settling write addresses the empty ID
  (docker-operator/internal/agent/update.go:205-231): `FailedUpdateStaysUpdating` is such a run, and
  `UpdateEndsUpdatingExactly` says that an Update leaves its record Updating if and only if that write or
  the settling write itself fails.
- Teardown converges only when the recorded container IDs are empty or current. A crash between the creation
  of a container and the write of its ID leaves an outdated one behind (`CrashLeavesAnOutdatedId`), and
  then teardown, and with it Delete, fails every time (`Site.Teardown`, `Site.Delete`).
- An Update that stays on anthropic writes the account that was pinned when it began. It keeps the pin it finds
  at the end exactly when no other rename was written meanwhile (`UpdateWritesTheOldPin`,
  `RenameDuringUpdateIsLost`).
- Only agents on anthropic are meant to have a pinned account (docker-operator/internal/agent/query.go:134-137). A
  rename checks that and writes the pin in two transactions (docker-operator/internal/agent/query.go:163-190). When an
  Update to ollama falls between them, the ollama agent keeps the pin, and a later Update to anthropic runs with it,
  whatever account that request names (`RenameCanPinAnOllamaAgent`). `TidyExactly` says that this is the only step
  that breaks the rule.
- A cron agent is meant to wait for its schedule's next instant (docker-operator/internal/agent/schedule.go:27-30). The
  cron library answers with the zero time when it finds none (the 30th of February, say), and that is never after now:
  such a cron agent is triggered at every tick (`EmptyScheduleFiresAtEveryTick`). `DueExactly` says that a cron agent
  is triggered exactly when an instant of its schedule has come since the creation, the last edit and the last run, or
  when the library finds none after them; `TriggersAreInstants`, that this is the only way to outnumber the instants.

## Model

| member | source | states |
|---|---|---|
| LifecycleInvariant.NextKeeps | docker-operator/internal/agent/update.go:100-254 | every step of every operation, event, completion policy, container death and crash keeps the invariant: a settled agent has its network and volumes, a Running record names the last agent container created and no operation has stopped it, every operation finds its record in a status it can rely on, and the registry counts the holders |
| LifecycleInvariant.ReachableGood | docker-operator/internal/agent/reconcile.go:135-157 | the invariant holds in every state of every interleaving |
| LifecycleInvariant.HandlerKeeps | docker-operator/internal/agent/query.go:102-132 | a container event changes only a Running record, and so disturbs no operation that holds the agent |
| LifecycleInvariant.CompleteKeeps | docker-operator/internal/agent/schedule.go:115-123 | a completion policy that marks a settled record Stopped, in the middle of any operation, disturbs neither the agent's data nor the operation |
| LifecycleSafety.EventStartsHandler | docker-operator/cmd/docker-operator/main.go:552-578 | a die or oom event of an agent container starts a handler for Errored and a stop event one for Stopped; events of sidecars, and all other events, start none |
| LifecycleSafety.HandlerLooks | docker-operator/internal/agent/query.go:102-113 | the handler goes on exactly when the record is Running and names the container of the event, or no container |
| LifecycleSafety.HandlerRecords | docker-operator/internal/agent/query.go:113-132 | inside the transaction it checks that again; if so the record gets the status of the event and nothing else changes, if not nothing does |
| LifecycleWitness.DeathIsRecorded | docker-operator/internal/agent/query.go:102-132 | from a healthy agent: its container dies, the event is handled, and the record is Errored |
| LifecycleSafety.EventShield | docker-operator/cmd/docker-operator/main.go:552-578 | once an operation has stopped or removed agent container C, an event of C handled at any later time changes nothing at all |
| LifecycleSafety.RetiredNeverRunning | docker-operator/internal/agent/reconcile.go:399-415 | from then on the record is never Running with C; while Running it names the last container created |
| LifecycleSafety.RetiredForever | docker-operator/internal/agent/update.go:264-274 | a container that was stopped or removed stays retired over the whole run |
| LifecycleSafety.DeletingAbsorbs | docker-operator/internal/agent/delete.go:64-77 | a Deleting record stays Deleting until it is removed, although several settling writes are unconditional |
| LifecycleSafety.OnlyCreateCompletes | docker-operator/internal/agent/create.go:1569-1574 | a half-built or half-removed agent becomes usable only through the last step of its own Create |
| LifecycleSafety.SettledAgentsKeepTheirData | docker-operator/internal/agent/reconcile.go:191-217 | in every state every agent that is neither being created nor deleted has its network and all three volumes |
| LifecycleSafety.VolumesGoOnlyInTeardown | docker-operator/internal/agent/delete.go:97-156 | a volume disappears only inside teardown, by the operation that holds the ID, while the record is Creating, Deleting or already gone |
| LifecycleSafety.RecreatePreservesStorage | docker-operator/internal/agent/update.go:172-252 | every step of Update, StopAgent, ResumeAgent and a wake keeps every agent's volumes and networks, on success and failure paths |
| LifecycleSafety.StopKeepsContainers | docker-operator/internal/agent/stopresume.go:33-100 | no step of StopAgent removes a container or changes a recorded ID, whatever fails |
| LifecycleSafety.UpdateEndsUpdatingExactly | docker-operator/internal/agent/update.go:205-231 | an Update that ends with its record Updating: exactly when the configuration write or the settling write failed; otherwise the record is as it was with status Running, or Errored with no container ID |
| LifecycleSafety.EndsExactly | docker-operator/internal/agent/update.go:108-115 | where each operation lets go of its agent: refused at its entry because of the record it finds, complete, settled after a failure, or torn down, and nowhere else; Update accepts Running, Stopped and Errored, StopAgent Running, ResumeAgent Stopped |
| LifecycleSafety.EndingRecord | docker-operator/internal/agent/update.go:291-306 | the record each of them leaves: Running, Stopped, or Errored, which keeps the container ID after StopAgent and forgets it after Update, resume and wake |
| LifecycleSafety.UnhealthySidecarIsReplaced | docker-operator/internal/agent/reconcile.go:556-617 | Update, resume and wake replace a sidecar that is or stays unhealthy: its successor runs, its ID is stored, everything else is as it was, and the operation goes on |
| LifecycleSafety.ExitedSidecarIsStartedAgain | docker-operator/internal/agent/reconcile.go:556-617 | a sidecar that exits n times while it is awaited is started n times again, and the operation goes on |
| LifecycleSafety.RegistryCountsHolders | docker-operator/internal/agent/inflight.go:43-102 | in every state the count of an ID is the number of operations that hold it, never more than one, and no zero entry is kept |
| LifecycleSafety.HolderWorksAlone | docker-operator/internal/agent/reconcile.go:269-290 | while an operation holds an agent no other operation advances or changes it, a reconcile claim on it changes nothing, and what else happens is an event or completion policy marking the status, or one of its containers dying or vanishing |
| LifecycleSafety.ActionReach | docker-operator/internal/agent/stopresume.go:33-75 | an action changes at most the agent its operation holds; otherwise a settled status is marked, and containers change only by dying or vanishing |
| LifecycleSafety.LiveStep | docker-operator/internal/store/store.go:472-516 | a step adds at most one slot holder, and only by an admission under the cap, by taking a stopped or failed agent back, or by completing an operation whose record has lost its slot |
| LifecycleSafety.CapHoldsExactlyWithoutOverAdmission | docker-operator/internal/agent/create.go:492-514 | the cap holds in every state of a run if and only if the run gives no slot, in one of the two unchecked ways, while every slot is taken |
| LifecycleWitness.CapIsExceeded | docker-operator/internal/agent/update.go:151-158 | with a cap of one, create A, stop A, create B, update A: two agents hold slots |
| LifecycleWitness.CapIsExceededByCompletion | docker-operator/internal/agent/schedule.go:115-123 | with a cap of one: create A, begin to update A, a completion policy marks A Stopped, create B, and A's Update completes: two agents hold slots, none was taken back |
| LifecycleWitness.CreateRuns | docker-operator/internal/agent/create.go:670-706 | a Create in which no call fails ends with a Running record and all six resources |
| LifecycleWitness.StopThenResume | docker-operator/internal/agent/stopresume.go:110-160 | StopAgent and then ResumeAgent, with no failing call, lead back to Running in a new container on the same network, volumes and sidecar |
| LifecycleWitness.UpdateRuns | docker-operator/internal/agent/update.go:100-254 | an Update of a stopped agent, with no failing call, ends Running in a new container on the same network, volumes and sidecar |
| LifecycleWitness.UpdateRepairs | docker-operator/internal/agent/update.go:24-31 | an Update of a failed agent whose container is gone, with no failing call, ends Running in a new container on the same network, volumes and sidecar |
| LifecycleWitness.DeleteRuns | docker-operator/internal/agent/delete.go:41-85 | a Delete of an agent, with no failing call, ends with no record and no resource |
| LifecycleClaims.WakeRuns | docker-operator/internal/agent/reconcile.go:334-415 | a wake of a Running record whose containers are both down, with no failing call, ends Running in a new container on the same network, volumes and sidecar |
| LifecycleClaims.AgentWakesAfterReboot | docker-operator/internal/agent/reconcile.go:310-333 | from the empty store: create an agent, let the host go down under it, restart, and reconcile: it runs again on its storage |
| LifecycleWitness.FailedUpdateStaysUpdating | docker-operator/internal/agent/update.go:205-231 | an Update whose configuration write fails lets go of the agent with the record Updating and its container gone |
| LifecycleClaims.OutdatedTeardownDestroys | docker-operator/internal/agent/reconcile.go:113-157 | a claim on a listing that said Creating or Deleting, made when the agent is settled: each listed ID that reaches its container costs a volume, both together the workspace |
| LifecycleClaims.MissedTeardownSparesVolumes | docker-operator/internal/agent/delete.go:97-156 | a teardown that reaches neither container removes no volume, whatever its calls answer |
| LifecycleClaims.OutdatedClaimRevives | docker-operator/internal/agent/reconcile.go:274-279 | a claim on a listing that said Running or Updating, made when the record is being created or deleted, turns it into Errored |
| LifecycleClaims.ClaimOnHealthyAgent | docker-operator/internal/agent/reconcile.go:191-205 | a claim on a healthy agent with no failing call leaves it exactly as it is if the listing said Running with IDs that reach both containers, and marks it Errored in every other case |
| LifecycleClaims.ReconcileCanDestroyAHealthyAgent | docker-operator/internal/agent/reconcile.go:114-155 | such a run exists from the empty store: the record stays Running and its workspace is gone |
| LifecycleClaims.UnguardedCompletionRevives | docker-operator/internal/agent/schedule.go:115-123 | the completion policy turns a record that is being created or deleted into a Stopped one |
| LifecycleWitness.CrashLeavesAnOutdatedId | docker-operator/internal/agent/create.go:1145-1151 | a crash after the creation of a container and before its stamp leaves a record whose ID does not reach the container |
| LifecycleIdentity.ReachableOwned | docker-operator/internal/agent/create.go:1145-1151 | in every state of every run, each container ID in a record, a container, the history or an operation's hands was handed out for that very agent and role |
| Isolation.ContainersHaveDistinctIds | docker-operator/internal/agent/create.go:844-851 | no two containers of any agents share an ID |
| Isolation.ReferenceIsolation | docker-operator/internal/agent/update.go:264-274 | stopping, starting or removing through an agent's own ID or name does to that agent what the model says and nothing to any other |
| Isolation.CallsStayWithTheirAgent | docker-operator/internal/agent/delete.go:105-121 | so in every state of every run a container call of an operation, by ID or by name, changes no other agent's containers |
| Registry.OpRegistry.Begin | docker-operator/internal/agent/inflight.go:52-59 | adds one holder; the map counts holders and has no zero entry |
| Registry.OpRegistry.TryBegin | docker-operator/internal/agent/inflight.go:66-76 | succeeds exactly when nobody holds the ID, and then there is exactly one holder |
| Registry.OpRegistry.Release | docker-operator/internal/agent/inflight.go:82-93 | removes one holder, or nothing when there is none |
| Registry.OpRegistry.Busy | docker-operator/internal/agent/inflight.go:98-102 | reports exactly whether the ID has a holder |
| Registry.HeldUntilItsOwnRelease | docker-operator/internal/agent/inflight.go:38-46 | over any sequence of calls, a held ID keeps its count plus the nested references as long as nobody releases more than it took |
| Names.ContainerNameInjective | docker-operator/internal/agent/create.go:1637-1638 | two container names agree exactly for the same agent and role, for all strings |
| Names.NetworkNameInjective | docker-operator/internal/agent/create.go:1639 | two network names agree exactly for the same agent |
| Names.VolumeNameInjective | docker-operator/internal/agent/create.go:1640-1642 | two volume names agree exactly for the same agent and the same volume |
| Names.ContainerIsolation | docker-operator/internal/agent/create.go:1637-1638 | creating, changing or removing a container through one agent's name changes that agent's view as modelled and no other agent's |
| Names.NetworkIsolation | docker-operator/internal/agent/delete.go:126-133 | the same for the network and its dependaproxy endpoint |
| Names.VolumeIsolation | docker-operator/internal/agent/delete.go:146-153 | the same for the volumes |
| Manager.Site.Teardown | docker-operator/internal/agent/delete.go:97-156 | from any subset of resources and any refusals: no error means nothing is left; an outdated ID always means an error; otherwise only a fault does; the daemon is left as by nine teardown calls of the step system |
| Manager.Site.TeardownAgain | docker-operator/internal/agent/delete.go:89-97 | however far a first teardown got, a second without faults ends where one clean teardown ends |
| Manager.Site.Build | docker-operator/internal/agent/create.go:670-706 | wherever the sequence stops the caller's IDs reach what exists; success means a complete agent, and without faults it always succeeds |
| Manager.Site.Create | docker-operator/internal/agent/create.go:456-515 | all or nothing: a failure restores record and resources unless the rollback itself meets a fault; success means Running, six resources, and the daemon's IDs; without faults it succeeds exactly when a slot and the ID are free |
| Manager.Site.Delete | docker-operator/internal/agent/delete.go:41-85 | success means record and resources are gone; a missing record is a no-op; failure leaves the record as it was or Deleting; without faults it succeeds exactly when the recorded IDs reach the containers |
| Manager.Site.WaitHealthy | docker-operator/internal/agent/create.go:971-992 | looks until a look decides, and no longer than the deadline: healthy exactly when the last look said so, exited exactly when the last look said that |
| Manager.Site.StartDind | docker-operator/internal/agent/create.go:844-856 | touches only the sidecar; success means its ID is stored and it was seen running; without faults it succeeds exactly when the name is free and the record exists |
| Manager.Site.RecreateDind | docker-operator/internal/agent/create.go:870-883 | replaces only the sidecar; success means the new ID is stored; without faults it succeeds exactly when the old ID reaches the old sidecar |
| Manager.Site.EnsureDindRunning | docker-operator/internal/agent/reconcile.go:556-617 | a sidecar that exits is started again while attempts are left, one that is or stays unhealthy is recreated once, and only a failed call ends the recovery before that; success means the sidecar was observed running and not unhealthy, with a recreated one's ID stored; one that needed nothing is untouched; without faults it succeeds exactly when the reference reaches a sidecar |
| Manager.Site.MarkShielded | docker-operator/internal/agent/reconcile.go:435-452 | writes Updating exactly when the status inside the transaction is the expected one |
| Manager.Site.WakeAgent | docker-operator/internal/agent/reconcile.go:334-415 | without faults a Running record is woken exactly when its IDs reach both containers: a running container is left alone, a stopped one replaced; success means Running with both containers seen and named by the record, failure means Errored without container ID unless a store call failed; volumes and network are kept on every path |
| Manager.Site.CleanupStuckRecord | docker-operator/internal/agent/reconcile.go:191-217 | a stuck update loses nothing and becomes Errored; a stuck create or delete is removed with everything it had; without faults it succeeds exactly when the recorded IDs reach the containers, and for a stuck update always |
| Reconcile.FindUnmanaged | docker-operator/internal/agent/reconcile.go:626-666 | exactly the labelled resources no listed record claims, in order |
| Reconcile.ReportUnmanaged | docker-operator/internal/agent/reconcile.go:234-250 | drops exactly those of agents an operation is working on |
| Reconcile.ReportExactly | docker-operator/internal/agent/reconcile.go:124-131 | the report is exactly the labelled resources that no listed record claims and no operation in flight owns |
| Reconcile.SkippedExactly | docker-operator/internal/agent/reconcile.go:142-154 | the skipped IDs are exactly the held ones on which the pass would have acted |
| Reconcile.Pass | docker-operator/internal/agent/reconcile.go:113-168 | a held, stopped or failed agent is untouched; without errors every other agent is Running with both containers seen and named, Stopped, Errored or gone; an error is accounted for by an unreadable listing or by an agent that met a fault or whose IDs do not reach its containers; in any case a settled agent keeps its record, network and volumes; no site of an unclaimed ID is touched |
| Reconcile.CrashLeavesOrder | docker-operator/cmd/docker-operator/main.go:126-138 | after a crash at any step of any run nothing is in flight and every record meets what the startup pass relies on |
| Reconcile.RecoverFromCrash | docker-operator/cmd/docker-operator/main.go:126-138 | crash recovery: after any run and a crash, a startup pass without errors leaves every record Running with both containers seen and named, Stopped or Errored and removes exactly the half-built and half-removed agents; it has no errors when nothing is unreadable, no agent meets a fault and all IDs reach; in any case every other agent keeps its record, network and three volumes |
| Backend.ReResolveReproduces | docker-operator/internal/agent/reconcile.go:462-466 | resolving from the record gives what Create or Update resolved, credential included, whatever the default account has become |
| Backend.AnthropicGrants | docker-operator/internal/agent/create.go:619-660 | the account is the pin, else the one the request names, else the default, with its own credential; a named account that is not stored is unknown; no account, or a pin or default that is gone, is a missing credential |
| Backend.OllamaGrants | docker-operator/internal/agent/create.go:612-618 | model, fast model and URL are the request's, each configured one only where the request gives none; exactly a malformed URL is refused |
| Backend.HarnessGrants | docker-operator/internal/agent/create.go:534-553 | an unknown backend is refused first, then what the backend refuses, then an unknown harness, then opencode with anthropic; no harness means claude-code |
| Backend.CreatePinsTheNamedAccount | docker-operator/internal/agent/create.go:492-514 | a Create on anthropic writes the account its request names, or the default when it names none, exactly when that account is stored with a known kind and the harness fits; otherwise it changes nothing |
| Backend.CreateTakesTheRequest | docker-operator/internal/agent/create.go:492-514 | a Create on ollama writes each field of its request and the configured value of the others, exactly when the URL and the harness are valid |
| Backend.UpdatePicksAsCreate | docker-operator/internal/agent/update.go:119-134 | an Update to anthropic keeps a pin and picks as Create does where there is none; the record keeps its harness, which must support anthropic |
| Backend.UpdateTakesTheRequest | docker-operator/internal/agent/update.go:205-212 | an Update to ollama writes the request's and the configured fields, keeps the harness and drops the pin, or changes nothing |
| Backend.HarnessAlwaysSupportsBackend | docker-operator/internal/agent/create.go:534-553 | no run pairs opencode with anthropic |
| Backend.HarnessNeverChanges | docker-operator/internal/agent/update.go:119-134 | the harness stays the same for as long as the agent exists |
| Backend.UpdateResolvesThePin | docker-operator/internal/agent/create.go:620-640 | an Update that stays on anthropic resolves to the account pinned when it began |
| Backend.PinFollowsRenames | docker-operator/internal/agent/query.go:159-190 | while an Update is under way the record's pin is that of the last rename written, or unchanged |
| Backend.UpdateWritesTheOldPin | docker-operator/internal/agent/update.go:205-231 | whatever happens meanwhile it writes that account, so it keeps the pin it finds exactly when no rename to another account was the last one written |
| Backend.RenameDuringUpdateIsLost | docker-operator/internal/agent/query.go:159-190 | a rename made during an Update does not survive it |
| Backend.RenameMovesThePin | docker-operator/internal/agent/query.go:159-190 | a rename with nothing in between moves the pin and nothing else, exactly when the agent is on anthropic and the account is stored |
| Backend.TidyExactly | docker-operator/internal/agent/query.go:163-190 | only the write of a rename whose agent has left anthropic since the check gives an ollama agent a pin |
| Backend.RenameCanPinAnOllamaAgent | docker-operator/internal/agent/query.go:163-190 | such a run exists, and a later Update to anthropic runs with that account whatever its request names |
| Accounts.Store.CreateAccount | docker-operator/internal/store/anthropicaccount.go:79-141 | succeeds exactly when the name, kind and value are valid, the name is unused and the transaction works; names stay unique, the first account becomes the default, a refusal changes nothing |
| Accounts.Store.DeleteAccount | docker-operator/internal/store/anthropicaccount.go:203-226 | fails only with its transaction; removes the account and clears the default exactly when it was this one |
| Accounts.Store.SetDefault | docker-operator/internal/store/anthropicaccount.go:251-272 | succeeds exactly when the account is stored and the transaction works |
| Accounts.Store.Migrate | docker-operator/internal/store/anthropicaccount.go:282-356 | takes effect at most once in the life of a store; every unpinned anthropic agent then resolves to the legacy credential and every other record is unchanged |
| Accounts.CredentialIsResolved | docker-operator/internal/agent/create.go:634-660 | a pin resolves to exactly the kind and value of the account it names, and to a missing credential when it dangles |
| Cron.Scheduler.FireOne | docker-operator/cmd/docker-operator/schedule.go:88-143 | triggers exactly the enabled cron agent some instant of whose schedule lies after its creation, last edit and last recorded run and has come, by the least such instant, or whose schedule has none left; one attempt to create an agent, and one run: Running with that agent, or Error without |
| Cron.Scheduler.FireDue | docker-operator/cmd/docker-operator/schedule.go:80-145 | one pass over any listing, outdated by edits or not, keeps the history, changes no run that has ended, and unless a store call fails triggers exactly those cron agents, each once, in order |
| Cron.Scheduler.LastRun | docker-operator/internal/store/schedulerun.go:149-169 | the newest start among the runs of a cron agent |
| Cron.DueExactly | docker-operator/internal/agent/schedule.go:35-52 | the code's test on the newest run holds exactly when some instant makes the cron agent due, whose least is the one used, or when its schedule has none left |
| Cron.EmptyScheduleFiresAtEveryTick | docker-operator/internal/agent/schedule.go:50-51 | a schedule without instants triggers its cron agent at every tick |
| Cron.InstantsIncrease | docker-operator/internal/agent/schedule.go:35-52 | while every run is recorded, the triggers of one cron agent use strictly increasing instants |
| Cron.TriggersNeverOutnumberInstants | docker-operator/internal/agent/schedule.go:26-52 | however often its schedule was edited, a cron agent none of whose schedules was exhausted has at most one trigger per instant, since its creation, of the schedules it was triggered by |
| Cron.TriggersAreInstants | docker-operator/internal/agent/schedule.go:50-51 | the triggers of a cron agent that used an instant are all of them exactly when no schedule was exhausted |
| Cron.UnrecordedInstantIsDueAgain | docker-operator/cmd/docker-operator/schedule.go:140-143 | where recording fails the same instant is due at every later tick, and still the least |
| Cron.Scheduler.CheckOne | docker-operator/cmd/docker-operator/schedule.go:171-195 | changes only this run: past two hours Error; otherwise Success on the completion sentinel, Error on the failure sentinel or a missing container, unchanged while running or unknown |
| Cron.Scheduler.CheckRunning | docker-operator/cmd/docker-operator/schedule.go:165-197 | unless a store call fails, every running run is judged by its age or the daemon's answer about it, so none started more than two hours before the tick is still running; ended runs are unchanged |
| Cron.Scheduler.Tick | docker-operator/cmd/docker-operator/schedule.go:75-78 | triggers exactly the cron agents that are due and leaves no over-age run running, unless a store call fails; a run that has ended is never changed again, over any sequence of ticks |
| ImageTags.LexicalIsChronological | docker-operator/internal/agent/agentimage.go:44-56 | lexical order of date-time tags is the order of their date and time as numbers |
| ImageTags.FilterDateTimeTags | docker-operator/internal/agent/agentimage.go:60-74 | exactly the date-time tags, each once |
| ImageTags.SortSorts | docker-operator/internal/agent/agentimage.go:78-83 | the sorted copy is descending and a permutation |
| ImageTags.NewestDateTimeTag | docker-operator/internal/agent/agentimage.go:87-95 | the greatest date-time tag, or "" exactly when there is none |
| ImageTags.UpgradeAvailable | docker-operator/internal/agent/agentimage.go:104-114 | true exactly when the current tag is a date-time tag below the newest one |
| ImageTags.DefaultImageTag | docker-operator/internal/agent/agentimage.go:209-220 | the newest local date-time tag, else the greatest local tag, else the newest published one, else the fallback |
| ImageTags.DefaultIsPresent | docker-operator/internal/agent/agentimage.go:200-220 | a host that holds any tag holds the default |
| ImageTags.NewestPublished | docker-operator/internal/agent/agentimage.go:251-256 | exactly the tags with fewer than five newer distinct date-time tags |
| ImageTags.OfferedImageTags | docker-operator/internal/agent/agentimage.go:235-274 | strictly descending, present flags exact, and its set is the five newest published, every local tag and the default |
| ImageTags.OfferedDefault | docker-operator/internal/agent/agentimage.go:410-430 | the computed default is offered, and is present whenever the host holds any tag |
| ImageCleanup.AgentImageUsage | docker-operator/internal/agent/agentimage.go:450-478 | exactly the tags the records of the harness name and the image IDs they pin |
| ImageCleanup.ImageTagId | docker-operator/internal/agent/agentimage.go:483-492 | the image a tag names, "" when it names none |
| ImageCleanup.Daemon.CleanupAgentImages | docker-operator/internal/agent/agentimage.go:577-630 | removes no named tag, no alias of a pinned image and not the newest local date-time tag; every other tag is removed, or reported because the daemon refused it; it does nothing exactly when the records or images cannot be read; the default for new agents is unchanged |
| DiskCache.Cache.Enter | docker-operator/internal/api/handlers.go:711-733 | the first critical section does what the step system says: serve the newest snapshot, or begin a collect |
| DiskCache.Cache.Leave | docker-operator/internal/api/handlers.go:735-751 | the second critical section does what the step system says; the reply is the request's own result or what it saw when it took the lock |
| DiskCache.EveryInterleaving | docker-operator/internal/api/handlers.go:711-752 | over every sequence of the two sections of any number of requests: at most one collect runs, starts are a TTL apart, snapshot times never decrease, every reply is the newest snapshot completed when the request took the lock or its own result |
| DiskCache.CollectsExactly | docker-operator/internal/api/handlers.go:711-733 | in every reachable state a request begins a collect exactly when the newest snapshot is stale, nobody is collecting and the last start is a TTL ago |
| DiskCache.FailureReplacesNothing | docker-operator/internal/api/handlers.go:742-749 | a failed collect changes no snapshot and lets a later request try again |
| DiskCache.CollectsAreRare | docker-operator/internal/api/handlers.go:546-558 | n collects span at least n - 1 TTLs |
| DiskCache.CollectDiskUsage | docker-operator/internal/api/handlers.go:758-817 | a snapshot exactly when the agents and the daemon's report can be read, with one entry per agent: for workspace, config and cache separately the size the report gives its recorded name last, absent for no name, no report or a negative size; the file store's size exactly when it applies and its walk worked; the total exactly when all that apply are there, as their 64-bit sum |
| DiskCache.TotalIsAllOrNothing | docker-operator/internal/api/handlers.go:824-836 | the total is there exactly when every applicable component is, and is their 64-bit sum |
| DiskCache.WrapIsExact | docker-operator/internal/api/handlers.go:824-836 | the 64-bit sum differs from the true sum by a multiple of 2^64, and is the true sum exactly when that fits |

## Left out

- Cancellation of a single request is one of the ways a call can fail; timeouts are counts of polls.
- stampNames, image pulls and the file store are steps that can fail and change nothing modelled; so is the transcript archive, which cannot fail.
- syncDependaproxyDinernetIP: the address it records is not modelled; the endpoint itself is.
- In the step system the number of sidecar start attempts is not bounded; EnsureDindRunning proves the bound.
- StopAgent, ResumeAgent and Update are modelled in the step system only, not again as imperative code. Of the operations modelled in both forms, teardown is proved to be nine calls of the step system; Create, Delete, wake and cleanup share its daemon rules and are not related call by call.
- Events that carry no container ID, which would disable the check for outdated events; the daemon names the container in every event.
- The cron library: its Next is taken to be the least instant after its argument, or the zero time.
- The names, descriptions, repository and tuning fields of a record, and their validation.
- DeleteAgentImageTag, PullLatestAgentImage and RefreshAgentImageTags: one-branch operations.
- The warn-once bookkeeping of reportUnmanaged: it affects the log only.
- HTTP routing, the web UI, the WebSocket bridge, tmux, the login helper, flag parsing, and the Kubernetes operator.
