# Drain-before-delete: a verified model of the operator

This project models the Kubernetes operator that runs game servers, and proves what its three nested
controllers keep while they share one object store: a GameType owns Fleets, a Fleet owns Servers, a Server
owns a Pod with a sidecar. Every reconcile is a sequence of store calls, each of which may fail (even after it
took effect), and between any two of them the other controllers, users, the autoscaler, the sidecars, the
kubelet and the clock may act.

`dafny verify dfyconfig.toml` checks everything.

## How it is built

* **Objects and store** (`Objects.dfy`, `Store.dfy`). Values of the four object kinds and the write calls with
  finalizer semantics: deleting an object that holds finalizers sets its deletion time once; an object without
  finalizers goes at once; an update that drops the last finalizer of a terminating object removes it. Pods are
  deleted gracefully: a released pod first becomes terminating, and the kubelet removes it later. Updates are
  refused when the object changed since it was read.
* **Steps** (`Protocol.dfy`). `Step(rules, actor, w, v)` says which actor may change what, and when, in one
  atomic store call. It is given object by object, so an actor may do anything that is not forbidden. `Rules`
  names what a theorem assumes about the surroundings: `ordered` (creation times tell siblings apart),
  `keepFleets`, `keepServers` (nobody but the operator deletes the children it made), `keepSpecs` (users edit
  GameTypes, not the fleets below them), `keepPolicy` (a fleet's way of choosing whom to give up stays; its replica
  count may change at any time). Theorems that need one of them say so; most need none.
* **Promises** (`Promises.dfy`). What the objects must look like after a pass, and what a new pod, server or fleet
  must look like, written out on the raw fields: deadlines are added up, names of labels, finalizers and variables are
  spelled, numbers are read back digit by digit. Nothing in it uses the operator's own templates, tests or arithmetic,
  so it is a second definition beside the one the reconcilers are proved against, and the lemmas ending in `IsKept` and
  `AsPromised` show that the two agree.
* **Invariants and runs** (`Invariants.dfy`, `Runs.dfy`). Every step keeps `Inv`; theorems about whole runs
  quantify over every sequence of steps that starts from an empty store.
* **Reconcilers** (`ServerController.dfy`, `FleetController.dfy`, `TypeController.dfy`, `Autoscaler.dfy`,
  `Selection.dfy`, `PodTemplates.dfy`) are classes with the loops, early returns and call order of the original.
  They run against `ApiServer`, whose `Interfere` lets everybody else take any number of steps between two
  calls (`Rely.dfy` says what a controller can still count on afterwards). Every write has to be a legal `Step`
  at the moment it is made, which is what makes the run theorems theorems about these reconcilers. `ApiServer` keeps
  a log of reads, and of updates that change nothing (what was asked, in which store of the trace, and how it was
  answered), so that a contract can say what follows from the answers a pass really got, whoever else acted meanwhile.
  Its `alone` says that nobody else acts, `gentle` that others change nothing but the flags of sidecars as time goes
  by, `reliable` that every call is answered.
* **Passes** (`ServerPasses.dfy`, `FleetPasses.dfy`, `TypePasses.dfy`) say what one pass achieves, as a
  relation on values. The reconcilers are proved to have achieved exactly that whenever nobody else acted
  (`alone`) and they report success, whichever calls failed to be answered; when calls are answered (`reliable`)
  they report an error exactly in the cases listed, and when calls fail they stop at one of the stages listed.
  `ServerOutcomes.dfy`, `FleetOutcomes.dfy`, `TypeOutcomes.dfy` and `Autoscaler.dfy` draw consequences.
* **Convergence** (`Measures.dfy`, `Rollout.dfy`, `Convergence.dfy`, `QuietRuns.dfy`, `FairRuns.dfy`,
  `Teardowns.dfy`, `Settling.dfy`). The work left is a number; every undisturbed pass that changes anything makes it
  smaller, in any order of passes; it is zero exactly when the goal is reached. The same goes for a GameType that is
  being deleted, until nothing of it is left.
* **A run that gets stuck** (`Stranding.dfy`): the reconcilers themselves, undisturbed and with every call answered,
  lead from an empty store to a server nobody can remove.

## Assumptions

* The same key is never reconciled twice at once; different keys are reconciled concurrently.
* Reads see every earlier write.
* Only the operator creates the children of GameTypes, Fleets and Servers, touches its own finalizers, writes
  the status fields modelled here, and posts shutdown requests to sidecars. A pod's shutdown flag does not fall
  by itself.
* Nobody, users included, changes the `gametype` and `fleet` labels of an object once it is there: the lookups of
  children go by them, and a relabelled child would be lost to its owner.
* GameType names are unique across namespaces, because the label lookup ignores the namespace. Names of fleets
  and servers are generated and never used twice.
* Admission webhooks are switched on, so every stored fleet has a timeout.
* No fleet or GameType has 2^31 children. (`CountsFit` and the surge bounds show that they do not, if no replica
  count ever asked for is that large.)
* With `ordered`, the API server's clock moves between two creations for one owner. Kubernetes timestamps have
  a resolution of one second, so this is an assumption and not a fact; `BothLostExactlyOnTies` and
  `TwoMarkedExactlyOnTies` show what hangs on it.

## Where the code does not do what it is meant to do

* **A terminating server whose pod is missing is stuck for good**, and with it its fleet and its GameType
  (`OrphanStays`, `OrphanBlocksTeardown`). It can come about when a pass is cut off between the pod's removal
  and the server's update (`CutOffForGood`), when the pod was terminating and vanishes with the operator's
  finalizer (`RemovedExactlyWhen`), or when a fleet gives up a server that has its finalizer but no pod yet
  (`GivenUpBeforeItsPod`; `Strand` is a whole run that does so). This is why the convergence theorem makes a fleet
  that would delete servers wait until these have their pods. A pass that lost the pod under way may still finish,
  but only by going on itself (`BereftUnlessCarriedOn`).
* **A recorded fleet that is gone stops its GameType**: the replica lookup fails before the branch that would
  create a fleet is reached (`RecordedButMissing`). In an orderly rollout this cannot happen
  (`UpdateReplicaCount`, `RecordedMeansFleets`).
* **Fleets created at the same instant can both be given up** by two passes, exactly then
  (`BothLostExactlyOnTies`), and an oldest-first scale-down can have two servers on their way out exactly when both
  are as old as any (`TwoMarkedExactlyOnTies`).
* **A scale-down that prefers allowed servers, as fleets do by default, can have several servers on their way out at
  once**: a pass looks only at what the sidecars allow now, and not at who is terminating already. Two are given up
  exactly when the flags shown to one pass allow the choice of one and those shown to the next that of the other
  (`TwoMarkedExactlyWhenChosen`, `PermissionMarksTwo`).
* The comment on `handleUpdating` speaks of waiting for the new fleet to be done; the code waits only for the
  new fleet object to exist, and the model follows the code.
* `handleGametypeStatus` sets the recorded name in memory and writes the status of the fleet; the GameType's own
  status is written later. The model follows the code (`ConfirmFleet`).
* A change of the GameType's spec other than its pod template and replica count does not reach an existing fleet
  (`SinglePass`).
* The admission enum lists `smallest_first`, the code knows `newest_first`; the strategy is an arbitrary string in
  the model, and an unknown one is an error.
* The autoscaler narrows the desired count to 32 bits; it is taken as it is exactly when it fits (`Int32Exact`).

## Model

| member | source | states |
|---|---|---|
| Invariants.StepKeepsInv | operator/internal/controller/gametype_controller.go:53-273 | No step of anybody breaks any invariant: children imply held owners, names are not reused, surge bounds, shutdown only for terminating servers, rollout and single-victim safety |
| Invariants.ShelteredKept | operator/internal/controller/server_controller.go:68-93 | A living or held pod implies its held server, a fleet's server its held fleet, a fleet its held GameType, across every step |
| Runs.TeardownComplete | operator/internal/controller/gametype_controller.go:200-229 | In every run, when a GameType is gone none of the fleets it ever had is left, none of their servers, and of their pods only terminating ones without the operator's finalizer |
| Runs.DeletionGate | operator/internal/controller/server_controller.go:173-216 | In every run, a server or pod loses the operator's finalizer only after a gate that opened in the same pass for one of four reasons, each read from the store at a definite earlier moment of that pass: from the read of the server to the read of the pod no other pass starts, and from the read of the pod to the release the pass never loses sight of it |
| Runs.CleanSlateIsGated | operator/internal/controller/server_controller.go:57-93 | From the moment a reconcile begins, every release of the server or its pod goes back to a gate whose reads were all made since then, whatever an earlier pass had asked |
| Runs.OpenedForAReason | operator/internal/utils/server_communication.go:16-37 | An open gate goes back to a pod not running, a force flag, a deletion time plus timeout that lies before the moment of the grant, or a sidecar that allowed it after the shutdown flag was up |
| Runs.ShutdownOnlyWhenTerminating | operator/internal/utils/server_communication.go:30-36 | In every run, a raised shutdown flag means the server is terminating or gone |
| Runs.RolloutShape | operator/internal/controller/gametype_controller.go:133-187 | In every orderly run an undeleted GameType has at most two fleets, a terminating one is the older of two, and if there are fleets one is living |
| Runs.NeverWithoutAFleet | operator/internal/controller/gametype_controller.go:169-184 | Once an undeleted GameType has a fleet it has a living one at every later moment |
| Runs.FirstFleetOnce | operator/internal/controller/gametype_controller.go:138-145 | A fleet is created into an empty undeleted GameType at most once |
| Runs.RecordedMeansFleets | operator/internal/controller/gametype_controller.go:106-119 | A recorded fleet name implies a living fleet |
| Runs.SingleVictim | operator/internal/controller/fleet_controller.go:127-141 | With oldest-first and no other deleter, at most one server of a living fleet is terminating, and it is older than all others, in every run; replica counts may be changed by anybody at any time |
| Runs.FleetSurge | operator/internal/controller/fleet_controller.go:112-125 | In every run a fleet never has more servers than some replica count it once had, failures included |
| Runs.TypeSurge | operator/internal/controller/gametype_controller.go:138-155 | In every run a GameType never has more servers than twice some replica count its spec once had |
| Runs.BornWithTimeout | operator/internal/utils/server.go:14-24 | Every server a fleet makes is born with a timeout, and every stored fleet has one |
| Runs.OrphanStays | operator/internal/controller/server_controller.go:174-178 | A terminating held server without a pod, and no pass far enough to finish, stays that way forever |
| Runs.OrphanBlocksTeardown | operator/internal/controller/fleet_controller.go:172-184 | Such a server keeps its fleet and its GameType forever |
| Reliance.OthersReliable | operator/internal/controller/fleet_controller.go:101-108 | What a controller can count on across any step of any other actor |
| ServerController.ServerReconciler.Reconcile | operator/internal/controller/server_controller.go:57-118 | Every write is a legal step under interference, and whatever is released during the call was let through by a gate asked in this call; with reliable calls, a timed out server with a living pod is gone after the call even if the sidecars' flags change meanwhile; undisturbed, the pass leaves the objects as ServerKept spells out and errs exactly when ServerErrs says; whatever fails, a running, unforced pod that has not agreed and whose deadline has not passed stays with its server, both held as before, a success leaves its shutdown flag up, and a living server keeps its spec, labels and age |
| ServerController.ServerReconciler.HandleDeletion | operator/internal/controller/server_controller.go:173-216 | Succeeds only behind an open gate with the pod terminating and released; undisturbed it stops at stage 0 to 3 of the deletion; under any interference a refusal was heard from the sidecar in this call, after a moment at which the shutdown flag was up |
| ServerController.ServerReconciler.IsDeletionAllowed | operator/internal/utils/server_communication.go:16-37 | Permission means an open gate; under any interference, an answer that no phase, force or expired deadline called for is the last poll of the sidecar, and the pod showed the shutdown flag at a moment of this call no later than that poll; undisturbed the answer is the gate's and only the shutdown flag may have changed |
| ServerController.ServerReconciler.EnsurePodExists | operator/internal/controller/server_controller.go:130-170 | Under any interference a success means that the pod is there, and one that did not find it means that it was missing at some moment of the call; whatever pod appears in the course of the call has every field the server asks for (PodAsAsked); undisturbed, an existing pod is left alone and a failed creation leaves none or the same |
| ServerController.ServerReconciler.EnsurePodFinalizer | operator/internal/controller/server_controller.go:219-235 | Under any interference a success means that the pod holds the finalizer, and a reported update that it did not at some moment of the call and is not terminating; undisturbed, nothing but the finalizer is added, and it fails exactly for a pod that cannot be claimed |
| ServerController.ServerReconciler.FinishBringUp | operator/internal/controller/server_controller.go:106-117 | Under any interference, a success that found the pod claimed throughout means that the last call wrote the status of the server and found it exactly as it was read |
| ServerOutcomes.ServerPassIsKept | operator/internal/controller/server_controller.go:57-118 | Field by field: a pass over any server and pod, in any state, leaves what ServerKept spells out (claimed, pod made, pod claimed, refused, or pod released and deleted and then the server released) |
| ServerOutcomes.ServerFailsAsPromised | operator/internal/controller/server_controller.go:57-118 | A pass whose calls are all answered errs if and only if a terminating server has no pod, or its pod vanishes when released, or a refusal counts as an error, or the living server's pod is terminating and unclaimed |
| ServerOutcomes.RefusedStays | operator/internal/utils/server_communication.go:17-37 | A running pod that is neither forced nor allowed, with no timeout or with `now <= deletedAt + timeout`, stays with its server however the pass ends: nothing but the shutdown flag may differ |
| ServerOutcomes.ShutdownIsRequested | operator/internal/utils/server_communication.go:31-35 | Before the deadline a pass leaves the shutdown flag of a running, unforced pod up whatever the game server had agreed to, unless it agreed and the pod vanished |
| ServerOutcomes.StagesInTurn | operator/internal/controller/server_controller.go:191-206 | A deletion that is let through asks first if only consent can let it through, then releases the pod, then deletes it, and releases the server last; each stage is spelled out |
| ServerOutcomes.LivingServerKept | operator/internal/controller/server_controller.go:67-117 | However a pass ends, a server that is not terminating stays, with its spec and age, and gains at most the finalizer and the label with its own name |
| ServerOutcomes.RelabelledByName | operator/internal/utils/pod.go:101-106 | A failed creation of the pod leaves the server's own name among its labels if it has any, and nothing else |
| ServerOutcomes.RemovedExactlyWhen | operator/internal/controller/server_controller.go:79-93 | An undisturbed pass removes a terminating server if and only if its pod is there, the gate opens, and the pod does not vanish with its finalizer |
| ServerOutcomes.GateStaysOpen | operator/internal/utils/server_communication.go:24-29 | Permission is monotone in time |
| ServerOutcomes.BlockingIsBounded | operator/internal/utils/server_communication.go:24-29 | After deletion time plus timeout any undisturbed pass with a living pod removes the server, whatever the sidecar says (flags that change during the pass: see `Reconcile`) |
| ServerOutcomes.CutOffPassIsMadeGood | operator/internal/controller/server_controller.go:191-205 | A pass cut off at any stage before the pod's deletion is made good by the next complete one |
| ServerOutcomes.CutOffAfterDelete | operator/internal/controller/server_controller.go:203-206 | Cut off after the pod's deletion, the next pass still finishes while the terminating pod can be seen |
| ServerOutcomes.CutOffForGood | operator/internal/controller/server_controller.go:174-178 | Once the pod has vanished, no later pass changes anything |
| ServerOutcomes.BringUpInThree | operator/internal/controller/server_controller.go:67-117 | Three passes bring a new server up, and a fourth changes nothing |
| Runs.BereftUnlessCarriedOn | operator/internal/controller/server_controller.go:191-206 | A terminating server whose pod is lost at any point of a pass stays forever, unless that very pass goes on behind its open gate and lets the server go |
| Runs.FlagsAreServed | operator/internal/utils/server_communication.go:31-35 | Every change of a pod's flags is its sidecar serving one request: a true shutdown from the server controller or a permission from the game server |
| Runs.FlagsOverTime | sidecar/internal/handlers/shutdown.go:28-50 | Over any stretch of a run, the flags of a pod are what its sidecar makes of a sequence of requests without a false shutdown, and a raised shutdown flag stays up |
| Api.RequestsAreSteps | sidecar/internal/handlers/deletion.go:28-50 | Whatever a game server asks of its sidecar is a legal outside step, and a true shutdown request is a legal step of the server controller once the server is terminating |
| Stranding.Strand | operator/internal/controller/fleet_controller.go:127-141 | A run of the three reconcilers from an empty store, undisturbed and with every call answered, that ends with a terminating server without a pod which nobody can remove |
| Selection.DeletionChecker.FindDeleteServer | operator/internal/utils/fleet_deletion.go:21-34 | The choice is the first of the earliest (or latest) eligible servers, for the answers the log records; an unknown strategy is an error and asks nobody, an empty list is an error |
| Selection.DeletionChecker.GetOldestServer | operator/internal/utils/fleet_deletion.go:39-83 | The four-accumulator loop finds the first earliest among the allowed servers if there are any and they come first, else overall; the first probe that fails ends it with an error, whoever acts meanwhile and whichever calls fail |
| Selection.DeletionChecker.GetNewestServer | operator/internal/utils/fleet_deletion.go:88-132 | The same for the latest |
| Selection.DeletionChecker.IsDeleteAllowed | operator/internal/utils/fleet_deletion.go:135-150 | An error if and only if the fetch of the pod did not find it; allowed if and only if the sidecar was polled and said so, which is the flag it showed in that store; nothing is written |
| Selection.NewestIsOldestReversed | operator/internal/utils/fleet_deletion.go:88-132 | Newest-first is oldest-first under negated times |
| Selection.VictimUnique | operator/internal/utils/fleet_deletion.go:21-132 | The choice is unique |
| Selection.VictimExists | operator/internal/utils/fleet_deletion.go:21-132 | With a known strategy and at least one server there is a choice |
| Selection.VictimWrittenOut | operator/internal/utils/fleet_deletion.go:39-132 | The choice, written out: among the allowed servers if these come first and there are any, else among all, the oldest (newest), and of equally old ones the first on the list |
| FleetController.FleetReconciler.Reconcile | operator/internal/controller/fleet_controller.go:52-99 | Every write is a legal step under interference, and an oldest-first scale-down leaves the wanted number of living servers, less one only if the two lists the pass made showed different numbers; undisturbed, the count only moves towards the replica count and not past it and new servers are as the fleet asks, whatever fails; a reported success leaves the objects as FleetKept spells out, and with reliable calls it errs exactly when FleetErrs says |
| FleetController.FleetReconciler.ScaleServerCount | operator/internal/controller/fleet_controller.go:112-143 | Under any interference an oldest-first scale-down leaves at least the wanted number of living servers if its second list shows as many servers as were counted, and one less otherwise |
| FleetController.FleetReconciler.CreateServers | operator/internal/controller/fleet_controller.go:113-125 | Under any interference the fleet never gets more servers than its replica count, and every server of the fleet that appears in the course of the call has the spec of the fleet, the labels of the fleet and the fleet's name, no finalizer and no deletion time; undisturbed, k such servers are added and nothing else changes; k is the full difference unless a call failed |
| Api.BornAfterOthers | operator/internal/controller/fleet_controller.go:113-125 | While other actors take any number of steps no server of this fleet appears, so one more creation keeps every birth as the fleet asks |
| Api.NewbornAsAsked | operator/internal/utils/server.go:9-24 | A server made for a fleet has the fleet's server spec unchanged and the fleet's labels plus the fleet's name |
| FleetController.FleetReconciler.GiveUp | operator/internal/controller/fleet_controller.go:128-140 | A living server is lost only if all listed ones were living; undisturbed, exactly the server chosen on what the sidecars said is deleted |
| FleetController.FleetReconciler.DeleteAll | operator/internal/controller/fleet_controller.go:166-170 | Under any interference a success means that every server listed is terminating or gone; undisturbed, the loop over one delete call after another amounts to sweeping all servers |
| FleetController.FleetReconciler.HandleDeletion | operator/internal/controller/fleet_controller.go:160-186 | A terminating fleet deletes its servers and is released only when a second look finds none |
| FleetController.VictimIsOldest | operator/internal/utils/fleet_deletion.go:39-83 | What was chosen from an older list is still older than every server there is at the delete call |
| FleetController.AllWereLiving | operator/internal/controller/fleet_controller.go:127-141 | If the chosen server is living, no listed server was terminating |
| FleetPasses.ListedVictim | operator/internal/utils/fleet_deletion.go:21-132 | A choice from a list, in any order, is a server of extreme age among the candidates of the fleet |
| FleetController.FleetReconciler.GetServers | operator/internal/controller/fleet_controller.go:147-154 | The list shows every server whose `fleet` label is the fleet's name, and no other, once, as of one store of the run |
| FleetOutcomes.TwoMarkedExactlyWhenChosen | operator/internal/utils/fleet_deletion.go:21-132 | For every strategy, with or without allowed servers first: two passes of a scale-down, with whatever flags the sidecars show in each, can leave two living servers terminating if and only if one may be chosen by what the first shows and the other by what the second shows |
| FleetOutcomes.PermissionMarksTwo | operator/api/v1alpha1/fleet_types.go:46-50 | With allowed servers first, which is the default, that happens to two servers of any ages when their sidecars allow in turn |
| FleetOutcomes.TwoMarkedExactlyOnTies | operator/internal/utils/fleet_deletion.go:39-83 | Two oldest-first passes can leave two living servers terminating if and only if both are as old as any server of the fleet |
| FleetOutcomes.GivenUpBeforeItsPod | operator/internal/controller/fleet_controller.go:127-141 | A server given up with its finalizer on stays terminating, and some later pass over it will change anything if and only if it has its pod |
| FleetOutcomes.LivingFleetKept | operator/internal/controller/fleet_controller.go:68-98 | A pass over a fleet that is not terminating keeps its spec, labels and age |
| FleetOutcomes.FleetPassIsKept | operator/internal/controller/fleet_controller.go:52-143 | Field by field: a pass over any fleet leaves what FleetKept spells out (claimed; servers told to go and the fleet released once none is left; exactly the missing servers added as asked; or one server told to go that no other should go before) |
| FleetOutcomes.FleetFailsAsPromised | operator/internal/controller/fleet_controller.go:57-98 | A pass whose calls are all answered errs if and only if the fleet is missing, or a living fleet has too many servers and cannot choose: unknown strategy, or allowed servers come first and one has no pod |
| Runs.CountsFit | operator/internal/controller/fleet_controller.go:83-115 | The 32-bit count of servers and the 32-bit number still needed are exact in every run in which no replica count of the fleet exceeded 32 bits |
| TypeController.GameTypeReconciler.Reconcile | operator/internal/controller/gametype_controller.go:53-103 | Every write is a legal step under interference; in an orderly rollout no fleet it looks up is missing; after a success, if the last list showed several fleets an oldest of them is terminating or gone, and otherwise (in an orderly rollout) every fleet of the wanted template has the wanted replica count; undisturbed, a pass over a living GameType touches at most one fleet whatever fails, a reported success leaves the objects as TypeKept spells out, and with reliable calls it errs exactly when TypeErrs says |
| TypeController.GameTypeReconciler.Tend | operator/internal/controller/gametype_controller.go:87-102 | In an orderly rollout no fleet looked up is missing; after a success, if the last list showed several fleets an oldest of them is on its way, and otherwise every fleet of the wanted template has the wanted replica count, under any interference that keeps to the rules |
| TypeController.GameTypeReconciler.HandleGametypeStatus | operator/internal/controller/gametype_controller.go:253-273 | Under any interference a success means that the recorded fleet is a youngest of those listed, that its status was written after the list, as the last call, and that it was unchanged at that moment, or that none was listed; in an orderly rollout it is living and stays so |
| TypeController.GameTypeReconciler.UpdateReplicaCount | operator/internal/controller/gametype_controller.go:106-127 | One lookup of the recorded fleet and of nothing else; in an orderly rollout that fleet is there and living in the store looked at, so the lookup does not miss; otherwise a miss is an error; after a success the stored GameType is the one read, with that fleet's name and the replica count found in the store looked at |
| TypeController.GameTypeReconciler.HandleUpdating | operator/internal/controller/gametype_controller.go:133-187 | None, one or several fleets: create, roll or rescale, give up the oldest, exactly as Rolled says when undisturbed; under interference a success after a list of at most one fleet leaves the wanted replica count, and after a longer list an oldest fleet on its way |
| TypeController.GameTypeReconciler.HandleCreation | operator/internal/controller/gametype_controller.go:138-155 | Under any interference every fleet of the GameType that appears in the course of the call has the GameType's spec with the timeout filled in, its labels and its name; a success means that one was made |
| Api.NewFleetAsAsked | operator/internal/utils/gametype.go:26-46 | A fleet made for a GameType has its spec, with forty minutes where no timeout is set, and its labels plus its name |
| TypeController.GameTypeReconciler.HandleDeletion | operator/internal/controller/gametype_controller.go:200-229 | A terminating GameType deletes its fleets and is released only when a second look finds none |
| TypeController.GameTypeReconciler.GetFleetsForType | operator/internal/utils/gametype.go:11-24 | The list shows every fleet whose `gametype` label is the GameType's name, and no other, once, as of one store of the run |
| TypeController.GameTypeReconciler.YoungestFleet | operator/internal/controller/gametype_controller.go:258-263 | The loop finds the first of the youngest fleets |
| TypeController.GameTypeReconciler.OldestFleet | operator/internal/controller/gametype_controller.go:170-177 | The loop finds the first of the oldest fleets |
| TypeController.EldestMayGo | operator/internal/controller/gametype_controller.go:179-184 | Giving up the oldest of several listed fleets leaves a younger living one behind, even if others acted since |
| TypeController.YoungestLives | operator/internal/controller/gametype_controller.go:258-266 | In an orderly rollout the first youngest fleet of any list is living |
| TypePasses.CurrentIsSpared | operator/internal/controller/gametype_controller.go:169-184 | Unless all creation times agree, the fleet recorded as current is not the one given up |
| TypePasses.SamePickExactlyOnTies | operator/internal/controller/gametype_controller.go:169-184 | The youngest and the oldest loop pick the same position if and only if all creation times agree |
| TypePasses.FirstWrittenOut | operator/internal/controller/gametype_controller.go:169-177 | The picks of both loops, written out: of equally young, or equally old, fleets the first on the list |
| TypeOutcomes.BothLostExactlyOnTies | operator/internal/controller/gametype_controller.go:169-184 | Two passes can give up both living fleets of a rollout if and only if these were created at the same time |
| TypeOutcomes.SinglePass | operator/internal/controller/gametype_controller.go:146-168 | With one fleet of the wanted template a pass sets its replica count and the status, and nothing else about it |
| TypeOutcomes.TypePassIsKept | operator/internal/controller/gametype_controller.go:53-273 | Field by field: a pass over any GameType leaves what TypeKept spells out (claimed; fleets told to go and the GameType released once none is left; one fleet added as asked; replica count put right; or the youngest of several recorded and an oldest told to go) |
| TypeOutcomes.TypeFailsAsPromised | operator/internal/controller/gametype_controller.go:57-119 | A pass whose calls are all answered errs if and only if the GameType is missing, or it is living, has no fleets and has one on record |
| TypeOutcomes.SkippedExactlyWhenRight | operator/internal/controller/gametype_controller.go:156-167 | The fleet is left alone if and only if its replica count is right |
| TypeOutcomes.ReplicaChangeKeepsFleet | operator/internal/controller/gametype_controller.go:152-167 | After a change of the replica count, any number of passes of all three controllers, in any order, keeps the same single fleet: with its old spec up to the first GameType pass, and from then on with exactly that count and nothing else new in its spec |
| QuietRuns.OthersStandBeside | operator/internal/controller/fleet_controller.go:68-98 | Where no fleet is terminating, passes over fleets and servers leave the GameType and the specs, labels and ages of its fleets as they are |
| TypeOutcomes.RecordedButMissing | operator/internal/controller/gametype_controller.go:106-119 | With no fleets, a pass changes nothing if and only if a fleet is recorded; otherwise it creates one |
| Autoscaling.AutoscalerReconciler.Reconcile | operator/internal/controller/gametypeautoscaler_controller.go:51-109 | Undisturbed, a missing autoscaler or GameType, another policy or interval, or a silent webhook is an error that changes nothing; an answer not to scale changes nothing and is no error; an accepted answer that fits 32 bits sets the replica count in the GameType's spec to it and leaves every other field of the whole store, or fails and changes nothing; under interference a success ends with exactly that write |
| Objects.Int32Exact | operator/internal/controller/gametypeautoscaler_controller.go:98-98 | The narrowing keeps a count if and only if it lies between -2147483648 and 2147483647 |
| Objects.Int32Wraps | operator/internal/controller/gametypeautoscaler_controller.go:98-98 | What does not fit 32 bits is off by a multiple of 2^32 |
| Autoscaling.AutoscaledFleetStays | operator/internal/controller/gametypeautoscaler_controller.go:97-108 | An accepted in-range answer to a settled GameType, followed by any passes in any order, keeps the same fleet, with exactly that many replicas once the GameType has had a pass |
| PodTemplates.GetPodSpec | operator/internal/utils/pod.go:16-98 | The in-place loop over the containers builds a pod spec that keeps every container, with its environment as a prefix, and adds to each exactly one POD_IP from status.podIP, one NODE_NAME from spec.nodeName, its image, the names of server, fleet and GameType, and SERVER_CAPACITY exactly when a capacity is set, reading back to it; the sidecar comes last, with the configured image and port and debug flag that read back; pull secrets are extended and everything else is kept |
| PodTemplates.ItoaWrites | operator/internal/utils/pod.go:16-98 | Numbers are written in decimal, without leading zeros, and read back to themselves, negative ones included |
| PodTemplates.EntriesInform | operator/internal/utils/pod.go:44-92 | The entries added to a container carry every name that applies exactly once, with its prescribed value or field path, and no other name |
| ServerOutcomes.PodMadeAsAsked | operator/internal/utils/pod.go:101-119 | The pod made for a server has its labels and its name as label, no finalizer, no deletion time, both flags down, and the pod spec spelled out |
| PodTemplates.IdentityPropagates | operator/internal/utils/pod.go:44-119 | A pod built through GameType, Fleet and Server is as its server asks, and every container, the sidecar included, names server, fleet and GameType exactly once after what it was given |
| PodTemplates.LabelsNameAncestors | operator/internal/utils/gametype.go:26-46 | Every label of a GameType reaches its fleets, their servers and pods; each level adds the name of one ancestor and nothing else |
| FleetWebhook.Admission.Default | operator/internal/webhook/v1alpha1/fleet_webhook.go:57-68 | The object's missing timeout becomes forty minutes, in place; no other field of spec, metadata or status changes |
| FleetWebhook.DefaultingIsHarmless | operator/internal/webhook/v1alpha1/fleet_webhook.go:64-66 | A stored fleet has its own timeout or forty minutes and no other field is new; defaulting twice is defaulting once, and it never triggers a rollout |
| Sidecars.Sidecar.SetShutdownRequested | sidecar/internal/handlers/shutdown.go:28-50 | The shutdown flag takes the decoded value; a body that cannot be decoded changes nothing |
| Sidecars.Sidecar.SetDeleteAllowed | sidecar/internal/handlers/deletion.go:28-50 | The permission takes the decoded value; a body that cannot be decoded changes nothing |
| Sidecars.ShutdownOnlyGoesUp | sidecar/internal/handlers/shutdown.go:28-50 | Over any sequence of requests without a false shutdown, the flag is up if and only if it was or a true one was understood |
| Sidecars.PermissionIsLastWord | sidecar/internal/handlers/deletion.go:28-50 | Permission is what the game server last said, whatever shutdown requests come in between |
| Measures.ServerTurn | operator/internal/controller/server_controller.go:67-117 | An undisturbed server pass changes nothing exactly when the server is up and living, and otherwise leaves less work |
| Measures.FleetTurn | operator/internal/controller/fleet_controller.go:79-143 | An undisturbed pass over a fleet that will delete no server, or all of whose servers are up, leaves less work, or changes nothing and found the fleet at rest |
| Rollout.TypeTurn | operator/internal/controller/gametype_controller.go:87-187 | An undisturbed GameType pass leaves less work, or changes nothing and found the rollout at rest |
| QuietRuns.ChangesAreBounded | operator/internal/controller/gametype_controller.go:87-187 | In any order of undisturbed passes, no more of them change anything than there was work to begin with |
| QuietRuns.GoalExactlyWhenNoWork | operator/internal/controller/gametype_controller.go:133-187 | No work is left if and only if there is exactly one fleet with the wanted template and replica count and that many servers, all up |
| QuietRuns.GoalStays | operator/internal/controller/fleet_controller.go:79-98 | Once reached, the goal stays and no pass changes anything |
| QuietRuns.WorkIsAtMost | operator/internal/controller/fleet_controller.go:112-143 | The work is at most linear in the largest number involved |
| FairRuns.FullRoundIsGoal | operator/internal/controller/gametype_controller.go:87-187 | A stretch of a quiet run in which everything had its turn and no turn changed anything is at the goal, whatever went on between the turns |
| FairRuns.FairRunsReachTheGoal | operator/internal/controller/gametype_controller.go:87-187 | A quiet run with more full rounds than there was work to begin with ends at the goal, in any order of turns, with any other turns and any amount of time in between, and with game servers running on |
| Settling.Operator.Settle | operator/internal/controller/gametype_controller.go:53-103 | Rounds of all three reconcilers, left alone, reach the goal in a number of rounds bounded by the work left, hence linear; only a fleet that would delete servers has to wait for these to be up |
| Settling.Operator.Deploy | operator/internal/controller/gametype_controller.go:63-74 | From a user's creation of a GameType the operator, left alone, gets to one fleet with the wanted servers, all up, in at most 40 cap + 11 rounds |
| Settling.Operator.Redeploy | operator/internal/controller/gametype_controller.go:146-184 | After a user's edit of any part of the spec, at any calm moment including mid-rollout, it gets to one fleet with the new pod template and replica count and that many servers, all up |
| Teardowns.EbbTypeTurn | operator/internal/controller/gametype_controller.go:200-229 | An undisturbed pass over a terminating GameType lets it go when it has no fleets left, or leaves less work, or changes nothing and found all its fleets terminating |
| Teardowns.GoneMeansCleared | operator/internal/controller/gametype_controller.go:200-229 | In every run, when a GameType is gone, nothing is left of any fleet it had at an earlier moment nor of their servers, except terminating pods without the operator's finalizer |
| Settling.Operator.TakeDown | operator/internal/controller/gametype_controller.go:200-229 | Rounds of all three reconcilers, left alone, take a terminating GameType down with its fleets and servers, for any rules and any number of fleets, in a number of rounds bounded by the work left, hence linear |
| Settling.Operator.Retire | operator/internal/controller/gametype_controller.go:76-85 | After a user's deletion of a GameType, at any calm moment including mid-rollout, nothing of it is left after at most 92 cap + 17 rounds in an orderly rollout |

## Left out

- Settling.Operator.Settle: a fleet that is terminating or has too many servers gets its pass only when these have their finalizer and pod, and every game server would allow its deletion; without the first a server given up too early stays forever (`Strand`, `OrphanStays`), without the second the gate stays shut.
- Settling.Operator.TakeDown: the same two provisos; and nobody but the operator holds the objects.
- FleetController.FleetReconciler.Reconcile: when sidecars are asked and may not answer, a successful scale-down is bounded, but FleetPass is not claimed, since a silent sidecar counts as not allowing; that the victim is the one the logged answers call for is stated by `FindDeleteServer` and not repeated there.
- Runs.SingleVictim: is about oldest-first without preferring allowed servers, and a policy that is not changed in mid-drain; for every other policy `TwoMarkedExactlyWhenChosen` says exactly when it fails, and `PermissionMarksTwo` that it does by default.
- Runs.TypeSurge: needs that only the operator edits fleets; a user who raises a fleet's own replica count is bounded by `FleetSurge` only.
- ServerOutcomes.CutOffPassIsMadeGood: the shutdown flag of the terminating pod is not compared, since nobody reads it any more.
- HTTP, JSON and URL building: a call to a sidecar or webhook succeeds with an answer or fails.
- The REST service, events, logs, metrics, leader election, flags and wiring.
- Status conditions of servers, deep copies, validating webhooks (they accept everything), the server defaulter (sidecar port and image are taken as present).
- Pod and container fields the operator copies without looking at them: one opaque value each.
- Owner references and garbage collection, work queues and backoff, informer caches, kubelet grace periods.
- Aliasing of label maps and slices inside one pass: the store hands out fresh copies; the one aliased label that reaches the store, the server's own name written during a failed pod creation, is modelled.
- Namespaces: objects are found by name.
- 32-bit wrap-around of counts other than the autoscaler's: replica counts are unbounded integers, and `CountsFit` says when the original's narrowing changes nothing.
