# Boxroom

Boxroom backs up the objects of a Kubernetes cluster into archives in an object store, restores
such archives into a cluster, and runs a controller that keeps the pods and the service of each
storage location. This project models its three hard parts in Dafny and proves what they are for.

**The resource tree.** Root, group, version, resource, namespace and object nodes with parent
pointers and child maps by name, changed in place. A tree is described by the ghost map from paths
to nodes; the invariant `ResourceTree.Ok` relates each node to its parent and its children. Three
algorithms run on it, and each is proved against set algebra on the paths of the objects, for every
order in which maps are iterated: building it from what the cluster lists (`Discovery`, `Build`,
`BuildProperties`, `Agent`), filtering it by nodes that remove themselves (`Filtering`), and
comparing it with the live cluster while writing what is missing (`Restore`, `RestoreProperties`).

**The archive.** The tree is laid out as files, packed, read back as a map of directories and built
anew (`Paths`, `Layout`, `Store`, `Rebuild`); archives lie in an object store under the name, kind
and tree name of their run and are written once (`Archives`). `Restoration` and `Controller` put
tree, archive and cluster together: what a backup and a restore do from end to end. `Aftermath` says what a
restore does where the cluster tells little, and what its report means; `Repeat` restores twice.

**The replica controller.** A log of everything that has happened to the pods of a namespace, a list
that shows how things stood some time ago (`PodCluster`), the bounded cache that hides deleted pods
from that list (`Lru`, `ChildPods`), the sort by age (`PodSort`), and the run that creates and
deletes pods and the service and reports a status (`Endpoints`, `Reconciler`, `Services`,
`StorageLocations`). `NoRoom` says what happens when the cache is too small.

The outside world is small state: `Cluster.ApiServer` (objects by path, and a log of what was asked),
`Store.Disk`, `Archives.ObjectStore`, `PodCluster.PodApi` and `Services.ServiceApi`. Calls fail when
they like unless the object is `reliable` or `calm`; those two constants stand for calls that succeed
(and, for `calm`, a list that is up to date and nobody else acting). What discovery and listing answer
is a parameter (`Agent.Answer`), and `Agent.Honest` says that it is true of the cluster.

The lemmas of `RestoreProperties` and `Restoration` speak about walks through two trees. Their premise is
what the methods ensure: `Agent.ApplyResourceTree` ensures `WalkedAll` for every tree, cluster and order, and
`Controller.Restore` ensures `Walks` and, from it, `Accomplished`. In the same way the lemmas about lagging
lists speak about what `PodCluster.PodApi` and `Reconciler.StorageLocationsReconciler` keep.

Constants, names and orders that many results are stated through are tied to plain text once:
`Agent.SnapshotSays` says in names alone what a backup holds, and `Build.ParsesIff`, `Build.ContainsIff`,
`Filtering.LeafPassesIff`, `Restore.StripIs`, `Paths.CleanInside`, `Layout.FilesSay`, `Archives.KeysSay`,
`ChildPods.ChosenSays` and `Endpoints.BeforeIs` do the same for what they are about.

Where the code falls short of what it is for, the exact condition is proved:

- Filtering fails, on the parent of the root, if and only if no object passes all filters
  (`Filtering.FiltrateResources`).
- A stored archive is found again, and so kept from being written over, if and only if the tree name
  is a single name: no slash, not `.` and not `..` (`Archives.CheckIsExact`, `Archives.UploadTree`,
  with `Archives.SlashedNameIsOverwritten` as the counterexample).
- An object that the cluster has is written by a restore if and only if it is a leaf of the backup that
  the tree to compare with does not show, of a cluster-scoped resource, and the Apply is carried out
  (`Aftermath.PresentIsWrittenIff`); a listing that failed is such a case
  (`Aftermath.FailedListingOverwrites`).
- A report of success means that everything was restored if and only if no namespace of a missing object
  was refused (`Aftermath.SuccessMeansRestoredIff`).
- The loop that keeps the service ends if and only if there is a service or its name is free. Where it
  does not, every attempt asks for the service and is refused (`Services.SyncChildService`,
  `Services.AdjustWithin`).
- Where neither the cluster nor the backup has a namespace called `cluster`, the name of the pseudo
  namespace, every create of a restore meets its namespace if and only if no namespaced object that the
  live tree lacks claims to lie in that namespace (`RestoreProperties.AllMeetTheirNamespaceIff`); where the
  cluster has one, every create does (`RestoreProperties.AllMeetAnyway`).
- The run of the controller indexes an empty list if and only if the number of replicas is negative
  (`Reconciler.StorageLocationsReconciler.Adjust`).
- The cache of deleted pods hides a list of deleted pods if and only if they are no more than it has
  room for (`Lru.SweepMaskedIff`); the safety of the controller is proved for runs in which the
  deleted pods that the list shows, with those about to be deleted, fit (`ChildPods.HasRoomFor`).
  Without that room it does not hold: with one deleted pod too many, a run deletes the only pod of a
  location that wants one (`NoRoom.NoRoomInSecondRun`, `NoRoom.RunsGoBelow`).

`dafny verify dfyconfig.toml` checks the whole project.

## Model

| member | source | states |
|---|---|---|
| ResourceTree.Node.AddChildren | kubernetes/resource/tree/version.go:53-66 | The child of that name is in the tree afterwards at the parent's path plus the name; a child that was there is returned untouched, scope flag included; a new one has the given scope and no children; parent, key and path agree everywhere in the new tree |
| ResourceTree.Node.DeleteChildren | kubernetes/resource/tree/version.go:45-51 | Exactly the subtree at the name of the other node leaves the tree; the result says whether there was one; the rest stays well formed |
| ResourceTree.LeafBelow | kubernetes/kubernetes/k8s-agent/agent.go:349-354 | In a tree without empty inner nodes every node lies above an object |
| ResourceTree.SpineIsDetermined | kubernetes/storage/store-agent/core_agent.go:204-222 | What is left of a tree, when no inner node is empty, is exactly what its objects hang on |
| Filtering.RemoveFromParent | kubernetes/storage/store-agent/core_agent.go:209-211 | Removes the subtree through the parent pointer, and fails exactly at the root, whose parent is nil |
| Filtering.DeepFiltrateResources | kubernetes/storage/store-agent/core_agent.go:204-222 | For every kind of filter and every order of children: what stays is exactly the nodes above, at or below a passing node of the filter's kind; it fails if and only if it is called on the root and nothing survives |
| Filtering.RootSurvivesIff | kubernetes/storage/store-agent/core_agent.go:204-222 | On a tree with no empty inner node the root survives if and only if some object passes |
| Filtering.PrunedStaysFull | kubernetes/storage/store-agent/core_agent.go:204-222 | A filter that leaves an object leaves no inner node empty |
| Filtering.PrunedLeaves | kubernetes/storage/store-agent/core_agent.go:204-222 | The objects that are left are exactly those whose name at the level of the filter passes |
| Filtering.LeafPassesIff | kubernetes/storage/store-agent/core_agent.go:204-222 | A leaf passes an including filter if and only if the filter names its part of the kind (group, version, resource, namespace, object or root), and an excluding one if and only if it does not |
| Filtering.FiltrateResources | kubernetes/storage/store-agent/core_agent.go:198-202 | Whatever the order of the filter map: it fails if and only if no object passes all filters, and otherwise leaves exactly the objects that pass them all with what they hang on; the objects left are those whose names are in the set of each including filter and outside the set of each excluding one |
| Paths.GenerateDirPath | kubernetes/util/util-func/file.go:299-305 | The joined and cleaned path of the parts, left to right |
| Paths.ParseIsCanonical | kubernetes/util/util-func/file.go:299-305 | A cleaned path has only names, with `..` only at the front of a relative path |
| Paths.ParseShow | kubernetes/util/util-func/file.go:299-305 | Writing a cleaned path down and reading it again gives the same path |
| Paths.CleanInside | kubernetes/util/util-func/file.go:299-305 | Double slashes, dots, and names that a double dot undoes can be left out anywhere inside a path |
| Paths.CleanEnds | kubernetes/util/util-func/file.go:299-305 | The same at the ends of a path: a trailing slash, a double dot at the root, a dot or an undone name in front |
| Paths.JoinName | kubernetes/util/util-func/file.go:299-305 | Joining a name to a clean path appends it |
| Paths.ShowInjective | kubernetes/util/util-func/file.go:299-305 | Different cleaned paths are written differently |
| Cluster.ApiServer.ApplyNamespace | kubernetes/kubernetes/k8s-agent/agent.go:215-238 | The namespace exists if the call was accepted; nothing else changes; the event is logged |
| Cluster.ApiServer.Apply | kubernetes/kubernetes/k8s-agent/agent.go:255-264 | A cluster-scoped object is written whether or not it exists, or the call is rejected; the event is logged |
| Cluster.ApiServer.Create | kubernetes/kubernetes/k8s-agent/agent.go:266-277 | A namespaced object is created only when it is new and its namespace exists; otherwise the reason is reported and nothing changes |
| Cluster.MissionStatus.SetStatus | kubernetes/resource/tree/status.go:26-28 | The status is the given one |
| Cluster.MissionStatus.AddFailedObjects | kubernetes/resource/tree/status.go:30-32 | The error is recorded under the key, the other records stay |
| Restore.StripIs | kubernetes/kubernetes/k8s-agent/agent.go:554-569 | Sends all but the status, the metadata fields managedFields, uid, resourceVersion, creationTimestamp, selfLink, generation and ownerReferences, and the claim reference; what is kept keeps its value, and a second time changes nothing |
| RestoreProperties.SentWithoutServerFields | kubernetes/kubernetes/k8s-agent/agent.go:240-281 | Every write of a walk carries the definition of the backup without just those fields |
| Restore.Send | kubernetes/kubernetes/k8s-agent/agent.go:255-277 | One write: Apply for cluster-scoped objects, Create for the others |
| Restore.Account | kubernetes/kubernetes/k8s-agent/agent.go:259-273 | A rejected write sets the status and is recorded under the path of the object; a tolerated AlreadyExists is not |
| Restore.ApplyObject | kubernetes/kubernetes/k8s-agent/agent.go:240-281 | One object with a definition is stripped and sent exactly once, and is reported as failed exactly when it was rejected; without a definition nothing is sent |
| Restore.RestoreChild | kubernetes/kubernetes/k8s-agent/agent.go:200-210 | An object that the live tree has is cut from the backup tree, one that it lacks is sent |
| Restore.RestoreObjectTree | kubernetes/kubernetes/k8s-agent/agent.go:197-213 | For every order: the namespace keeps exactly the objects that the live tree lacks, and each of those with a definition is sent once |
| Restore.AskNamespace | kubernetes/kubernetes/k8s-agent/agent.go:177-183 | Asks for the namespace exactly when the live tree does not show it and it is not the pseudo namespace |
| Restore.WalkNamespace | kubernetes/kubernetes/k8s-agent/agent.go:184-192 | With the namespace there, its objects are restored and it is dropped when emptied |
| Restore.RestoreOneNamespace | kubernetes/kubernetes/k8s-agent/agent.go:176-193 | One namespace is done: refused and left alone, or walked |
| Restore.RestoreNamespaceTree | kubernetes/kubernetes/k8s-agent/agent.go:173-195 | The namespaces of a resource, in any order, with any calls failing |
| Restore.DropEmpty | kubernetes/kubernetes/k8s-agent/agent.go:190-192 | An emptied child is removed from the backup tree, any other stays |
| Restore.CompareOne | kubernetes/kubernetes/k8s-agent/agent.go:159-169 | One child is walked in both trees, the live tree having been given the child if it lacked it |
| Restore.CompareTree | kubernetes/kubernetes/k8s-agent/agent.go:122-171 | The walk below a node carves the backup tree down to what the live tree lacked, adds no object to the live tree, and asks of the cluster exactly what is due |
| RestoreProperties.BackupMinusCurrent | kubernetes/kubernetes/k8s-agent/agent.go:122-213 | After the walk the objects of the backup tree are backup minus current, every emptied ancestor is gone, and the live tree has the objects it had |
| RestoreProperties.SentExactlyOnce | kubernetes/kubernetes/k8s-agent/agent.go:122-281 | An object is sent at most once, and is sent if and only if it has a definition, the cluster lacked it and its namespace was not refused |
| RestoreProperties.NamespaceBeforeObject | kubernetes/kubernetes/k8s-agent/agent.go:173-281 | A namespaced object outside the pseudo namespace is always sent in a state where its namespace exists, whatever fails |
| RestoreProperties.AllMeetTheirNamespaceIff | kubernetes/kubernetes/k8s-agent/agent.go:173-281 | When neither the cluster nor the backup has a namespace called like the pseudo namespace: every create meets its namespace if and only if no object of the backup that the live tree lacks, with a definition that claims to be in that namespace, hangs on a namespaced resource |
| RestoreProperties.AllMeetAnyway | kubernetes/kubernetes/k8s-agent/agent.go:173-281 | When the cluster has a namespace called like the pseudo namespace, every create meets its namespace |
| RestoreProperties.KeyShape | kubernetes/kubernetes/k8s-agent/agent.go:244 | The key of a failed object is its path, without the group when that is empty |
| RestoreProperties.KeysAreDistinct | kubernetes/kubernetes/k8s-agent/agent.go:244 | Two objects never share the key under which failures are recorded, the core group included |
| RestoreProperties.DotGroupSharesKeys | kubernetes/kubernetes/k8s-agent/agent.go:244 | A group called `.` would share its keys with the core group |
| RestoreProperties.FailuresAccounted | kubernetes/kubernetes/k8s-agent/agent.go:259-273 | A run that starts clean ends as PartialFailed if and only if something is recorded, and what is recorded stands one to one for the objects whose write was rejected |
| RestoreProperties.EverythingRestored | kubernetes/kubernetes/k8s-agent/agent.go:122-281 | When calls do not fail, every object of the backup with a definition is in the cluster afterwards |
| RestoreProperties.PresentUnchanged | kubernetes/kubernetes/k8s-agent/agent.go:122-281 | What the cluster had, and the live tree shows, is left as it was, whatever fails |
| RestoreProperties.NothingToRestore | kubernetes/kubernetes/k8s-agent/agent.go:115-117 | A restore of what the cluster has asks nothing of the cluster and ends with the bare root |
| Discovery.PreHandleFilter | kubernetes/kubernetes/k8s-agent/agent.go:443-475 | The names of an including filter become the names less the built-in ones, those of an excluding one the names and the built-in ones, and where there is no filter there is one that excludes the built-in names |
| Discovery.KeptNamesAre | kubernetes/kubernetes/k8s-agent/agent.go:405-418 | The kept names are exactly those that pass |
| Discovery.FiltrateNamespace | kubernetes/kubernetes/k8s-agent/agent.go:405-418 | In place, the list becomes its passing names in their order: those in the set of an including filter, those outside the set of an excluding one |
| Discovery.FiltrateApis | kubernetes/kubernetes/k8s-agent/agent.go:425-434 | In place, the list becomes its passing resources in their order: those named in the set of an including filter, those not named in the set of an excluding one |
| Discovery.CutAt | kubernetes/kubernetes/k8s-agent/agent.go:436 | Cutting an element out of a slice moves the rest up and leaves the last place of the array as it was |
| Discovery.FiltrateResource | kubernetes/kubernetes/k8s-agent/agent.go:420-441 | Every list is thinned out, and the array that the caller still holds is the lists that are left followed by copies of its last one |
| Discovery.StaleSays | kubernetes/kubernetes/k8s-agent/agent.go:436 | Place by place: first the lists that still offer something, then copies of the last one |
| Build.HangObject | kubernetes/kubernetes/k8s-agent/agent.go:387-399 | The object is there and carries the given definition, resource and metadata, even if it was there before |
| Build.PlaceItem | kubernetes/kubernetes/k8s-agent/agent.go:373-401 | An item becomes a leaf exactly when it passes the secret rule and its namespace is one of the resource |
| Build.BuildObjectTree | kubernetes/kubernetes/k8s-agent/agent.go:358-403 | A resource that can be listed gets exactly the leaves of its listing, another none |
| Build.PruneEmpty | kubernetes/kubernetes/k8s-agent/agent.go:349-354 | Exactly the children without children are removed |
| Build.AddNamespaces | kubernetes/kubernetes/k8s-agent/agent.go:341-347 | The resource has exactly the namespaces it may have |
| Build.BuildNamespaceTree | kubernetes/kubernetes/k8s-agent/agent.go:340-356 | The resource has the leaves of its listing and no empty namespace |
| Build.BuildResourceTree | kubernetes/kubernetes/k8s-agent/agent.go:311-338 | The version has the leaves of its admitted resources and no empty resource |
| Build.AddVersion | kubernetes/kubernetes/k8s-agent/agent.go:292 | Group and version are there |
| Build.DropVersion | kubernetes/kubernetes/k8s-agent/agent.go:297-300 | A version that stayed empty is removed |
| Build.ParsesIff | kubernetes/kubernetes/k8s-agent/agent.go:287 | A text is read as a group and a version if and only if it is these with a slash between them, or the version alone for the core group; a text cannot be read if and only if it has two slashes |
| Build.ContainsIff | kubernetes/kubernetes/k8s-agent/agent.go:483 | The part occurs somewhere in the name |
| Build.BuildOneList | kubernetes/kubernetes/k8s-agent/agent.go:286-301 | One discovery list adds exactly its leaves; it fails if and only if its group and version cannot be read, which is when there are two slashes |
| Build.BuildGroupAndVersionTree | kubernetes/kubernetes/k8s-agent/agent.go:283-309 | It succeeds if and only if every list can be read, and then the tree has exactly the leaves of the lists, no empty inner node, and the scopes the server says |
| BuildProperties.LeavesAre | kubernetes/kubernetes/k8s-agent/agent.go:358-403 | A path is a leaf of a resource if and only if it is that of a listed, wanted item, and it carries what was listed |
| BuildProperties.OfferedIff | kubernetes/kubernetes/k8s-agent/agent.go:286-338 | A resource is offered if and only if a list for its group and version names it and it is namespaced, or called namespaces or persistentvolumes, or all cluster-scoped resources are wanted |
| BuildProperties.BuiltExactly | kubernetes/kubernetes/k8s-agent/agent.go:283-403 | A path is a leaf of the built tree if and only if its resource is offered and admitted and the object is a wanted one of the listing |
| BuildProperties.PureFilterOffers | kubernetes/kubernetes/k8s-agent/agent.go:420-441 | Filtering the lists as values offers exactly the offered resources that pass |
| BuildProperties.StaleSliceIsHarmless | kubernetes/kubernetes/k8s-agent/agent.go:63-79 | The tree built from the slice with its trailing copies is the tree of the purely filtered lists |
| BuildProperties.BuiltTagged | kubernetes/kubernetes/k8s-agent/agent.go:389-399 | The metadata of every leaf agree with its path and with the scope of its resource |
| BuildProperties.NoBuiltOutNamespace | kubernetes/kubernetes/k8s-agent/agent.go:491-504 | Whatever the user's filter, no namespaced resource has a built-out namespace |
| BuildProperties.NoBuiltOutResource | kubernetes/kubernetes/k8s-agent/agent.go:506-519 | Whatever the user's filter, the tree has no built-out resource |
| Agent.Discover | kubernetes/kubernetes/k8s-agent/agent.go:47-56 | The discovery lists and the namespace list, each an object of its own |
| Agent.PreHandleFilters | kubernetes/kubernetes/k8s-agent/agent.go:59-60 | Both filters pass what the user's pass minus the built-in names; the cluster filter is not touched |
| Agent.Thin | kubernetes/kubernetes/k8s-agent/agent.go:63-77 | In any order of the filter map: the lists are thinned out and compacted, the namespaces are thinned out, and the cluster flag is as the cluster filter says |
| Agent.SnapshotIsBuilt | kubernetes/kubernetes/k8s-agent/agent.go:35-80 | The leaves of the purely filtered lists are exactly the objects of the cluster that the filters and rules let through |
| Agent.SnapshotSays | kubernetes/kubernetes/k8s-agent/agent.go:35-80 | What a backup holds, in names alone: the objects there are, of resources that are listed, offered and wanted and are not events, pods or endpointslices, without the secrets with a default token, and, where namespaced, of wanted namespaces that are there and are not kube-system, kube-public or kube-node-lease |
| Agent.WishSays | kubernetes/kubernetes/k8s-agent/agent.go:59-77 | The keys under which the filters of a wish are found |
| Agent.GetResourceTree | kubernetes/kubernetes/k8s-agent/agent.go:35-80 | The tree holds exactly the part of the cluster that the wish, the built-in exclusions, the scope rule and the secret rule let through, with definitions as they are in the cluster |
| Agent.Ask | kubernetes/kubernetes/k8s-agent/agent.go:47-56 | The answer of a cluster to discovery and listing, which tells of all its objects and of no other |
| Agent.GetCurrentTree | kubernetes/kubernetes/k8s-agent/agent.go:89-105 | The tree to compare with holds all that the built-in exclusions let through, cluster-scoped objects included |
| Agent.ApplyResourceTree | kubernetes/kubernetes/k8s-agent/agent.go:82-120 | The restored tree is walked against the snapshot of the cluster |
| Layout.ChildDirText | kubernetes/storage/dir/dir.go:325-370 | The directory texts that the writers compute on their way down are the paths of the nodes |
| Layout.FilesSay | kubernetes/storage/dir/dir.go:383-393 | The two files of an object: group_version/resource/namespace/name/name.json and metadata beside it |
| Layout.DirNamesInjective | kubernetes/storage/dir/dir.go:325-370 | Two objects with valid names never share a directory, the core group included |
| Layout.DirectoriesAreApart | kubernetes/storage/dir/dir.go:383-393 | Distinct objects have directories of which neither lies in the other |
| Store.StoreObjectLocal | kubernetes/storage/dir/dir.go:383-451 | The two files of the object are on the disk, and all else that was there |
| Store.WriteTree | kubernetes/storage/dir/dir.go:325-381 | In any order: the disk gets exactly the two files of each object |
| Store.PackHolds | kubernetes/storage/dir/dir.go:293-297 | The archive of what was written holds the two files of each object and nothing else |
| Store.AddFile | kubernetes/storage/dir/dir.go:226-244 | The file is filed under its directory and name |
| Store.GetLocalResourceMap | kubernetes/storage/dir/dir.go:215-261 | In any order, the files are grouped by directory, each under its name |
| Store.ReadRepresents | kubernetes/storage/dir/dir.go:215-261 | What is read back from an unpacked archive has one directory per object, with its two files |
| Rebuild.RebuildOne | kubernetes/storage/dir/dir.go:185-210 | One directory gives one object with what the files say, and a resource that is new gets the scope that they say; it fails if and only if a file is missing or cannot be decoded |
| Rebuild.DecodedIff | kubernetes/storage/dir/dir.go:185-210 | A directory can be read if and only if its metadata can, and it has the definition under the name that they give |
| Rebuild.BuildResourceTree | kubernetes/storage/dir/dir.go:180-213 | In any order: succeeds if and only if every directory can be read, and then the objects are those that the directories describe, each resource has the scope that one of its directories says, and nothing above is empty |
| Rebuild.RepresentedIsRead | kubernetes/storage/dir/dir.go:180-213 | What represents a tree can be read, and only as the objects of that tree |
| Rebuild.RepresentedScopes | kubernetes/storage/dir/dir.go:195 | What represents a tree is read with the scopes of that tree, in any order |
| Rebuild.SameLeavesSameTree | kubernetes/storage/dir/dir.go:180-213 | Two trees without empty inner nodes and with the same objects have the same nodes |
| Rebuild.TransformResourceTreeToLocal | kubernetes/storage/dir/dir.go:42-80 | The archive holds exactly the objects of the tree |
| Rebuild.TransformLocalToResourceTree | kubernetes/storage/dir/dir.go:82-110 | From any archive: succeeds if and only if every directory can be read; the archive of a tree gives the objects, definitions, resources, metadata and scopes of that tree |
| Archives.CheckIsExact | kubernetes/storage/store-agent/core_agent.go:133-162 | When an archive is stored, the check finds it if and only if the tree name is a single name |
| Archives.ExistsIff | kubernetes/storage/store-agent/core_agent.go:133-162 | For names without a slash the check finds a tree if and only if some file lies below name/kind/tree |
| Archives.KeysSay | kubernetes/storage/dir/dir.go:275-293 | The archives are stored under name/kind/tree/json.tar.gz and name/kind/tree/yaml.tar.gz |
| Archives.LogKeysSay | kubernetes/storage/dir/dir.go:124-134 | The logs are stored beside them under tree.log.tar.gz and tree-status.log.tar.gz |
| Archives.NeverFound | kubernetes/storage/store-agent/core_agent.go:133-162 | A tree name with a slash, a dot or a double dot is never found |
| Archives.FoundIfThere | kubernetes/storage/dir/dir.go:156-178 | Any file under the directory of the tree makes the check find it |
| Archives.SlashedNameIsOverwritten | kubernetes/storage/store-agent/core_agent.go:91-128 | The counterexample: a tree called a/b is stored, and a second run of that name writes over its archive |
| Archives.ObjectStore.UploadObject | kubernetes/storage/store-agent/core_agent.go:117-128 | One object is stored under its key, or nothing changes |
| Archives.UploadTree | kubernetes/storage/store-agent/core_agent.go:91-128 | With calls that succeed a tree is refused if and only if it is found; otherwise both archives are stored; earlier archives stay when the tree name is a single name, and an archive of the same name is written over if and only if it is not |
| Archives.UploadLogs | kubernetes/storage/store-agent/assist_agent.go:74-97 | With calls that succeed both logs are stored; logs never touch an archive, and go into the directory of the run |
| Archives.StoreRun | kubernetes/controller/controller.go:60-72 | With calls that succeed a run succeeds if and only if its tree is empty or its name is free; a run that succeeds has stored its tree unless that is empty, its log, and, when calls succeed, its report; it writes within its own directory and changes no archive |
| Archives.StoreRuns | kubernetes/controller/controller.go:21-138 | Over any sequence of runs: which of them succeed, that the archive of one that succeeded is there from then on, that no archive ever changes, and that each run writes only in its own directory |
| Archives.RestoredNameIsName | kubernetes/storage/dir/dir.go:36-40 | The name under which a restore is stored is a single name exactly when the time and the tree name have no slash |
| Restoration.SnapshotIsBacked | kubernetes/kubernetes/k8s-agent/agent.go:35-80 | Whatever the wish, a backup holds no built-out resource or namespace and no default-token secret, and every object carries metadata that agree with its path |
| Restoration.PresentIsShown | kubernetes/kubernetes/k8s-agent/agent.go:82-105 | An object of a backup that the cluster has is in the tree to compare with, when the cluster offers its resource |
| Restoration.PresentStays | kubernetes/controller/controller.go:110-120 | Where the cluster offers and lists the resources of the backup, a restore leaves every object of the cluster as it was, whatever call fails during the walk |
| Aftermath.PresentIsWrittenIff | kubernetes/kubernetes/k8s-agent/agent.go:122-281 | Without that: an object of the cluster is written if and only if it is a leaf of the backup with a definition, the tree to compare with does not show it, its resource is cluster-scoped and the Apply is carried out; it then has the saved definition |
| Aftermath.FailedListingOverwrites | kubernetes/kubernetes/k8s-agent/agent.go:348-372 | When the listing of a cluster-scoped resource fails, the objects of the backup that the cluster has are written over |
| Aftermath.SuccessBrings | kubernetes/kubernetes/k8s-agent/agent.go:176-183 | A run that reports success has brought a missing object if and only if its namespace was not refused |
| Aftermath.SuccessMeansRestoredIff | kubernetes/kubernetes/k8s-agent/agent.go:176-183 | A report of success means that everything was restored if and only if no namespace of a missing object was refused |
| Restoration.AllIsThere | kubernetes/controller/controller.go:110-120 | With calls that succeed, every object of the restored tree is in the cluster |
| Restoration.ComesBackAsSaved | kubernetes/controller/controller.go:110-120 | With calls that succeed, what was missing is there as it was saved, but for the fields that the server fills in |
| Restoration.NothingIsWritten | kubernetes/controller/controller.go:110-120 | When the cluster has every object already, nothing is written and the tree ends bare |
| Restoration.StillInhabited | kubernetes/kubernetes/k8s-agent/agent.go:173-281 | After a restore no namespaced object is without its namespace, if none was before |
| Restoration.RestIsRemainder | kubernetes/kubernetes/k8s-agent/agent.go:122-213 | What is left of the tree is what the tree to compare with did not show: sent objects without what the server fills in, those of a refused namespace as they were saved |
| Restoration.SecondRestoreWritesNothing | kubernetes/controller/controller.go:110-120 | A second restore of the same objects writes nothing and ends with the bare root |
| Controller.Backup | kubernetes/controller/controller.go:54-72 | The archive that is stored holds exactly the snapshot of the cluster for the user's filters, and no earlier archive changes; with calls that succeed and lists that can be read a backup succeeds if and only if there is nothing to store or its name is free; its report is a success without failed objects |
| Controller.Load | kubernetes/storage/store-agent/core_agent.go:26-75 | An archive is found if and only if it is stored and the tree name is a single name; it comes back as its objects that pass all filters, and fails if and only if none does |
| Controller.FilteredSays | kubernetes/storage/store-agent/core_agent.go:198-222 | The objects that an archive gives are those whose names are in the set of each including filter and outside the set of each excluding one |
| Controller.WalkAccomplishes | kubernetes/kubernetes/k8s-agent/agent.go:82-120 | What a restore has done to a cluster that offers the resources: present objects kept, missing ones brought back, nothing done when nothing was missing |
| Controller.Restore | kubernetes/controller/controller.go:110-138 | From the archive to the cluster: when it gets how far, what the filters let through is brought back, what the tree to compare with shows stays as it is, the rest of the tree and the report of the walk are stored under the name of the restore, and no archive changes |
| Controller.BackupThenRestore | kubernetes/controller/controller.go:21-138 | With calls that succeed, lists that can be read, a free name and a cluster that offers and lists the resources: what one cluster held and the filters let through is in the other cluster in the end; and what that held it holds as it was |
| Controller.RestoreReports | kubernetes/kubernetes/k8s-agent/agent.go:259-273 | The report of a restore, for groups that are not dot names: PartialFailed if and only if something is recorded, and the records stand one to one for the rejected writes |
| Repeat.RunOnce | kubernetes/controller/controller.go:110-138 | One restore of a stored archive, with calls that succeed: it loads exactly the wanted objects, walks all of them against the cluster, brings back the missing ones, stores what it restored, and succeeds if and only if nothing was missing or its own name is free; with nothing missing it asks nothing of the cluster |
| Repeat.RestoreTwice | kubernetes/controller/controller.go:110-138 | Two restores of one archive, with calls that succeed. The first brings everything back. The second loads the same objects, walks all of them against what the cluster then answers, asks nothing of the cluster, leaves the bare root, and stores its log and no archive; it succeeds where the object store does not fail |
| PodSort.CompareAndSwap | internal/controller/storagelocations_controller.go:177-179 | Two neighbours are put in order of age without changing the order among pods of one age |
| PodSort.BubblePass | internal/controller/storagelocations_controller.go:176-180 | One pass brings the youngest of the first pods to their end |
| PodSort.SortPodList | internal/controller/storagelocations_controller.go:172-182 | In place: sorted by age, pods of one age in their old order |
| PodSort.SameOrderIsPermutation | internal/controller/storagelocations_controller.go:172-182 | Keeping the order within each age loses and adds no pod |
| PodSort.StableSortIsUnique | internal/controller/storagelocations_controller.go:172-182 | There is one list that is sorted by age and keeps the order within each age |
| Lru.LruCache.Get | internal/controller/storagelocations_controller.go:291 | A hit moves the entry to the front |
| Lru.LruCache.Add | internal/controller/storagelocations_controller.go:146 | The new entry is in front, and the one unused for longest goes when there is no room |
| Lru.PassLeads | internal/controller/storagelocations_controller.go:290-294 | A pass of lookups puts what it finds in front and drops nothing |
| Lru.PutLeads | internal/controller/storagelocations_controller.go:146 | Adding evicts none of the recently used names while they fit |
| Lru.DeletedLead | internal/controller/storagelocations_controller.go:128-151 | Over any run of lists and deletions: while the deleted names that the latest list shows fit, the cache holds them all, before all others |
| Lru.HitIffDeleted | internal/controller/storagelocations_controller.go:291 | Over any such run, a lookup of a listed name hits if and only if that name was deleted |
| Lru.SweepMaskedIff | internal/controller/storagelocations_controller.go:40 | When a list is deleted in full, the cache hides all of it if and only if it has no more names than the cache has room for |
| PodCluster.Later | internal/controller/storagelocations_controller.go:282-298 | A pod that is gone does not come back, keeps its identity while it is there, and stays while nobody deletes it |
| PodCluster.SeenIsAlive | internal/controller/storagelocations_controller.go:282-298 | A child that an old list shows is alive now unless the controller has deleted it |
| PodCluster.PodApi.List | internal/controller/storagelocations_controller.go:284 | The pods as they stood at some moment not before the last list |
| PodCluster.PodApi.Create | internal/controller/storagelocations_controller.go:240-245 | A new child with a name never used before, or a failure without effect |
| PodCluster.PodApi.Delete | internal/controller/storagelocations_controller.go:247-252 | The pod is no longer a live child, or a failure without effect |
| ChildPods.ChosenAreAlive | internal/controller/storagelocations_controller.go:289-294 | However far the list lags, every pod chosen from it is a live child; from an up-to-date list all live children are chosen |
| ChildPods.ChosenSays | internal/controller/storagelocations_controller.go:289-294 | The pods taken for children: shown by the list with the label, the name and the uid of the owner, not being deleted, and not deleted by the controller |
| ChildPods.OutstandingShrinks | internal/controller/storagelocations_controller.go:282-298 | A later list shows no more deleted pods |
| ChildPods.PassMasks | internal/controller/storagelocations_controller.go:290-294 | The pass over a list finds every deleted pod in the cache and no other |
| ChildPods.RoomWhenFewAreVisible | internal/controller/storagelocations_controller.go:40 | It is enough that the list never shows more pods than the cache has room for |
| ChildPods.SameStatus | internal/controller/storagelocations_controller.go:157-167 | The running count and the sorted addresses do not depend on the order of the list |
| Endpoints.SortedIs | internal/controller/storagelocations_controller.go:165 | The addresses are a sorted permutation |
| Endpoints.BeforeIs | internal/controller/storagelocations_controller.go:165 | The order of addresses: a prefix first, otherwise the first differing character decides |
| Endpoints.OneOrder | internal/controller/storagelocations_controller.go:165 | There is one sorted permutation |
| Reconciler.StorageLocationsReconciler.constructor | internal/controller/storagelocations_controller.go:40 | With an empty cache and nothing deleted, list and cache agree |
| Reconciler.StorageLocationsReconciler.GetStorageLocationChildPodList | internal/controller/storagelocations_controller.go:282-298 | Exactly the pods that the list shows with the label, the name and the uid of the owner, that are not being deleted and that the controller has not deleted, each once, oldest first; list and cache agree afterwards |
| Reconciler.StorageLocationsReconciler.CreateOne | internal/controller/storagelocations_controller.go:138-142 | One attempt to create a child; children known to be alive stay so |
| Reconciler.StorageLocationsReconciler.DeleteOne | internal/controller/storagelocations_controller.go:144-150 | One attempt to delete the oldest child; list and cache agree afterwards |
| Reconciler.StorageLocationsReconciler.Adjust | internal/controller/storagelocations_controller.go:135-151 | The loop ends, creates or deletes exactly the difference, deletes from the oldest on, and indexes an empty list if and only if the number wanted is negative |
| Reconciler.StorageLocationsReconciler.Summarise | internal/controller/storagelocations_controller.go:157-164 | The running count and the addresses of the list |
| Reconciler.StorageLocationsReconciler.SyncChildPodList | internal/controller/storagelocations_controller.go:128-170 | One run under any lag, failures and interference: at every moment as many children as the list had or as are wanted, exactly the difference created or deleted, the oldest deleted; with an up-to-date list and no failures exactly the number wanted, and nothing done when that is already so |
| Reconciler.MasksDelete | internal/controller/storagelocations_controller.go:145-147 | After a deletion list and cache still agree, and exactly one more deleted name is visible |
| Reconciler.SparedThroughout | internal/controller/storagelocations_controller.go:128-151 | The pods that a run spares are alive at every moment of it |
| Reconciler.Serve | internal/controller/storagelocations_controller.go:128-170 | One request after anything has happened: nothing is deleted before it is served, and it is served by its own rule; with an up-to-date list and no failures its location has exactly the number wanted |
| Reconciler.Run | internal/controller/storagelocations_controller.go:128-170 | Over any sequence of requests for any storage locations of a namespace: they are served in turn up to the first that the cache has no room for; whatever is deleted while one is served is a live child of its location, which keeps at least the number wanted; nothing is deleted in between; and only failing calls keep a run from acting |
| NoRoom.NoRoomInSecondRun | internal/controller/storagelocations_controller.go:40 | With two pods of one location and as many of another as the cache has room for, the run of the first location has room, and after its deletion the run that wants none of the second has not |
| NoRoom.CacheIs | internal/controller/storagelocations_controller.go:128-151 | The cache then holds what the second run deleted, and no longer what the first one did |
| NoRoom.RunsGoBelow | internal/controller/storagelocations_controller.go:128-170 | The third run takes the pod deleted first for a child, by the rule of the controller deletes the only live one, and leaves none where one is wanted |
| NoRoom.ExampleSets | internal/controller/storagelocations_controller.go:40 | There are such pods |
| Services.ServiceApi.Create | internal/controller/storagelocations_controller.go:226-231 | The service is created under its fixed name, and refused when that name is taken |
| Services.SyncChildService | internal/controller/storagelocations_controller.go:184-224 | Ends with exactly one service of the location, an old one if there was one, otherwise a new one under the name of the location with -service and port 8081, and reports its name, address and port; services of others are not touched; nothing is written when there is exactly one |
| Services.AdjustWithin | internal/controller/storagelocations_controller.go:192-205 | The loop cut off after some attempts has ended if and only if there is exactly one service; where the name is free it ends within a bound on the attempts; where the name is taken by somebody else it has not ended however many attempts there are: every one of them asked for the service, was refused, and changed nothing |
| StorageLocations.ReportsOnce | internal/controller/storagelocations_controller.go:153-167 | There is one status for a set of pods |
| StorageLocations.ReportedAddresses | internal/controller/storagelocations_controller.go:157-167 | The status counts the running children and lists the address of each child, in ascending order of characters |
| StorageLocations.UpdateStorageLocation | internal/controller/storagelocations_controller.go:254-280 | Writes nothing when the stored status is the same or the location has a newer generation, and the new status otherwise |
| StorageLocations.FinishRun | internal/controller/storagelocations_controller.go:119-125 | The service and then the status: done means one service that the status names, and the status stored unless the location has been changed; failed means a failed call, and nothing stored |
| StorageLocations.SyncBehaviour | internal/controller/storagelocations_controller.go:112-126 | For every server: a run that is done has one service, a status that names it and reports the children that the list shows, and has stored it unless the location has been changed; any other run has stored nothing, and one that failed with the pods has not come to the service. With an up-to-date list and calls that succeed one run settles the location, and a run on a settled location creates, deletes and updates nothing |

## Left out

- The six node types of the tree are one class here, since they share one interface and differ in the type of their children; a tree has its fixed depth by the invariant. `IsCluster` belongs to resources and is set when the resource is first added.
- Kubernetes clients, discovery, S3 and the file system are the small state above. Errors of the API server always carry a status; the code dereferences a nil status otherwise. A failing call has no effect.
- Build.BuildGroupAndVersionTree: requires that the lists agree on the scope of a resource; where two disagreed, the code would keep the scope of the first one whose objects it finds. One cluster offers a resource once.
- Build.BuildOneList: requires the same agreement on scopes.
- Build.BuildResourceTree: requires the same agreement on scopes.
- A listing is the same whenever it is asked for within a run, and the objects of one resource have one scope in all lists that offer it (`Agent.Coherent`).
- The discovery lists of one answer are distinct objects, and the filters of one map are distinct objects.
- JSON is an invertible codec; packing and unpacking is the identity on names below a directory. The YAML copy is written by the same code and never read back, so only its key is modelled.
- The name in an object's own definition is taken to be the name of its node, which is what the builder makes it.
- Errors while directories and files are created or written, and the removal of the work directory.
- When an archive cannot be unpacked or read, the code only logs it and goes on with a partial tree. The model of a whole restore starts from archives that a backup has stored, for which this does not happen. The names in an archive are names of files below a directory.
- The generated name of a tree without a name: it is made after the check for an existing archive. Tree names are not empty here.
- Logs and status files are not written once: a later run of the same name with an empty tree replaces them. They never touch an archive.
- The JSON form of a mission status is a function of its status and its failed objects; its kind, which a run never changes, is not modelled.
- Agent.GetResourceTree: the filters that were applied stay in the map here, while the code deletes the resource and namespace filters from it; nobody reads the map afterwards.
- Filtering.DeepFiltrateResources: kinds of filters are those of the constants; a filter of any other kind behaves like the one of kind `ClusterKind`, which matches no level.
- Restores that run at the same time, and objects that others create or change during a restore.
- The deletion of a storage location: the code dereferences the location before it checks for nil. The stored location is always found.
- Pods with the workload label have an owner; the code indexes the first owner without looking.
- Controller.Backup: the tree name is a single name; other names are the subject of `Archives.UploadTree`.
- Controller.Load: the archive is one that a backup has stored; any other archive is the subject of `Rebuild.TransformLocalToResourceTree`, which says exactly when it can be read and what is read.
- Controller.Restore: the archive is one that a backup has stored, as for `Controller.Load`.
- Restoration.PresentStays: the listing of the resource is offered and answered; a listing that failed or was not offered is the subject of `Aftermath.PresentIsWrittenIff`.
- Reconciler.Run: one namespace, one process. The cache is shared by all namespaces and keyed by the bare pod name, and it is lost when the process restarts; neither is modelled.
- Reconciler.StorageLocationsReconciler.Adjust: requires room in the cache, without which a run can go below the number wanted (`NoRoom.RunsGoBelow`).
- Reconciler.StorageLocationsReconciler.SyncChildPodList: requires the same room in the cache.
- ChildPods.RoomWhenFewAreVisible: the bound is on what the list shows at one time in the namespace of the run.
- Services.SyncChildService: the list of services is up to date and nobody else acts on services, so the recursion after the loop is never taken; `NameIsFree` excludes the case in which the loop never ends, which is the subject of `Services.AdjustWithin`.
- StorageLocations.SyncBehaviour: requires `NameIsFree`, as `Services.SyncChildService` does.
- An object that the server offers under several versions is one object per version here; writing one does not make the others appear.
- The retry of the controller after an error, the queue, watches and manager start-up.
- Contexts, loggers, reflection copies, deep copies, the resource definitions, and the scaffold reconcilers for backups and restores.
