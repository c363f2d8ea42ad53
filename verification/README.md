# systemk in Dafny

systemk is a virtual kubelet that runs a pod as a set of systemd units. CreatePod compiles every container
to a unit file, loads and starts the units and files the pod under the ConfigMaps and Secrets it mounts.
GetPod rebuilds the pod from the unit files alone. This project models that state (units, watch index,
volume directories) and the code that steps it, and proves what holds over every run.

Run `dafny verify dfyconfig.toml` in this directory.

## Modules

| module | models |
|---|---|
| Strings, Kube | Go's string functions as far as they are used; the Kubernetes objects as far as they are read |
| UnitFile | `internal/unit/file.go`: the option list with its nested-map index, on a backing array that files share |
| UnitText | printing and parsing of unit files, with the grammar that `internal/unit/file_test.go:42-172` and the files of `internal/testdata/provider` fix, continuation lines included |
| Grammar | what each kind of line is read as |
| Shipped | values as the parser delivers them, which is what package unit files hold |
| ByField | the same text read field by field: each value taken where it stands, with the section and the open value it is read in |
| Strays | values that are more than one setting: which options their lines begin, and what becomes of the file around them |
| WatchIndex | `internal/kubernetes/watch.go` one call at a time; the entry comparison as written and as intended, side by side |
| WatchSlices | the same file as a state machine over goroutines, with slices as windows on backing arrays |
| Told | who is told of a ConfigMap or Secret, by the calls that went before |
| Naming | unit names, their readers, and the selection by prefix and suffix |
| CommandLine | `internal/provider/command.go`, and the splitting of systemd.service(5), section "COMMAND LINES" |
| UntouchedLine | a package's ExecStart line that the pod does not change, and what systemd makes of it afterwards |
| Phase | container states and the pod phase |
| Users | `internal/provider/security_context.go` and the ids that CreatePod carries from container to container |
| Volumes | `internal/provider/volumes.go` on a file tree that remembers every tree it has been |
| Mounted | what that leaves on disk, by the fields of the pod and the objects of the cluster |
| Compile, PodUnits | one round of CreatePod's container loop, and the whole loop |
| Units | the units of a pod by the pod's own fields: user, mounts, environment, what stays of the package |
| Layout | the compiled unit option by option, and conditions on its options as conditions on the raw fields of package, pod, volumes and node |
| Loaded | what is read from the text of the unit that is loaded: values, protections, users |
| Slips | families of pods whose loaded text is not what was compiled |
| Recover | statsToPod and its helpers, with Go's map iteration order as a free choice |
| Observed | what GetPod makes of any units: by their texts, and by the sub-states that systemd reports |
| Lifecycle | runs of CreatePod and DeletePod over the manager of `internal/unit/manager_mock.go`, with a trace; GetPod in between |
| Provider | the provider object whose methods take the steps of Lifecycle |
| Overall | CreatePod and GetPod by the fields of the pod, the cluster's objects and systemd's words |
| Events | ConfigMap and Secret events over whole runs |
| Example | one pod that meets what the results ask for, and three that show what goes wrong |

Classes stand for the objects that the source updates in place (`File`, `Watcher`, `FileSystem`, `Provider`);
their methods keep the source's loops and are proved against functions, about which the lemmas speak.

## Main results

- **Round trip of the provider.** After any run of creations (failing and repeated ones too) and deletions, GetPod
  gives a pod that was created in full back, in whatever order Go walks its maps: namespace, cluster name, UID, the
  containers in the right list with their images and commands, and the phase; for a pod name without dots its name
  and the containers' names, for others the first and the second label (`Provider.GetPodRecovers`, from
  `Recover.StoreAndRecover`). It asks that no other live pod of the namespace has a unit whose name goes on like the
  pod's, which is exactly when GetPod selects the right units (`Provider.GetPodSelects`), that the raw fields of the
  pod's units return from their text, which is exactly when that text says what was compiled (`Loaded.LoadedAsMeant`),
  and that no package has an X-Kubernetes section of its own. Every such pod on a fresh provider meets it
  (`Provider.FreshRecovers`), for example `Example.SampleRecovers`. If only the X-Kubernetes fields return and the
  texts can be read, all but the commands comes back (`Recover.LegibleRecovers`). Looking at pods in between changes
  nothing, whatever the fields hold (`Provider.GetPodLeavesUnits`).
- **What GetPod shows.** Of any units their texts decide whether GetPod finds a pod, removes the unit it looked at
  first, or panics (`Observed.OutcomeExactly`). If it finds one, in whatever order, each status has the state that the
  unit's sub-state stands for, and the phase is Running iff all ordinary units run, Pending iff one waits, and
  Succeeded iff there are some, all ended and their exit codes sum to 0 in 32 bits (`Observed.PodTold`). A pod that
  comes back after any run has the phase and states of its own containers' units (`Overall.GetPodShows`).
- **What CreatePod makes.** It succeeds iff user, volumes, packages and the override's account are as the fields ask
  (`Overall.CreatedExactly`). On disk every volume's files hold the bytes of its ConfigMap or Secret
  (`Mounted.VolumeOnDisk`); every unit runs as the user and group of the security context, or as the account of the
  override UID, or as its package says (`Units.ContextDecides`, `Units.ContextRemapped`, `Units.NoUserAsked`); its
  mount lists name exactly the read-only and the writable mounts (`Units.UnitMounts`, `Overall.MountOfVolume`); its
  environment has the package's, the node's and the pod's lines in that order (`Units.UnitEnvironment`); and all
  options that CreatePod does not write are the package's (`Units.UnitKeeps`).
- **Events.** After any run a pod is told of a ConfigMap or Secret iff it was created with a volume that names it and
  no pod on record for it has been deleted since (`Events.WhoIsTold`). If its refresh does not fail, which is decided
  by the tree as it is when its turn comes (`Mounted.SetUpExactly`), its volumes then hold the cluster's bytes
  (`Events.ConfigMapArrives`, `Events.SecretArrives`), and files elsewhere stay (`Events.OthersLeftAlone`).
- **Text.** Printed options come back, grouped and trimmed, iff every value returns, whatever is in it
  (`UnitText.RoundTrip`); for values on one line iff none that ends in a backslash is followed by another option of
  its section (`UnitText.RoundTripSingleLines`).
- **What is loaded.** For all raw fields: a printed file is read section by section and field by field
  (`ByField.ReadByField`), so it can be read iff each value can, wherever it stands (`ByField.ParsesByField`,
  `Loaded.LoadedReadable`), and no section gets lost (`Strays.SectionsStay`). Of the loaded text it is said exactly
  when a protection holds (`Loaded.LoadedProtections`), when there is no EnvironmentFile
  (`Loaded.LoadedNoEnvironmentFile`) and, with an override UID, when a unit runs as root (`Loaded.RootSlips`). The
  section in which user and protections are read depends on the working directory alone (`Loaded.HeadRead`).
- **Conservation.** The manager's units are at all times the disjoint union of the live pods' units; no unit is
  started unless loaded, and a pod has a unit started only while all of its units are loaded, at every point
  of the trace (`Lifecycle.Conservation`, `Lifecycle.AlwaysSafe`).
- **No interference.** Under every interleaving of Watch, Unwatch and event handling, an event tells exactly
  the pods that were filed when it held the read lock, in order, although it iterates without the lock
  (`WatchSlices.EventNotifiesSnapshot`).
- **Frame of the compilation.** For every package unit file, each option of the final unit has the values that
  its own edits give it, and every other option keeps its values in order (`Compile.CompiledValues`,
  `Compile.Frame` and the lemmas after it).
- **No torn files.** At every moment of a refresh each published file holds its old bytes or complete new ones
  (`Volumes.FileSystem.SetUp`, `Provider.Provider.HandleEvent`). In the end every pod on file has the current ones
  (`Volumes.EventDelivers`), and if refreshes of some pods fail, those have whose own does not
  (`Volumes.TurnDelivers`).
- **Command lines.** systemd splits the ExecStart line back into exactly the arguments of the pod
  (`CommandLine.SplitQuotedArgs`), into the words of its command iff none of them needs quoting
  (`CommandLine.CommandAsGiven`, `CommandLine.WhatRuns`), and into the words of an untouched package line iff its
  items hold no blanks but single spaces (`UntouchedLine.LineRunsAsWritten`).

## Where the code does something else than it says

Each of these is a lemma or method here, with the condition under which the code does what it is for.

- `internal/kubernetes/watch.go:170` and `:191` compare the loop variable with itself. Unwatch therefore empties
  the lists of every resource the pod used: other pods stay on record but get no more events
  (`WatchIndex.AsWrittenLosesEvents`). The result is the intended one iff the pod shares no resource
  (`WatchIndex.FiltersMeet`); Watch then Unwatch restores the index iff nobody else was filed
  (`WatchIndex.WatchUnwatch`). Safety does not depend on it (`WatchIndex.UnwatchForgets`).
- handleEvent iterates after it has released the lock. An Unwatch that is done in between does not stop it: it tells
  the pod that is gone iff that one is among those not told yet (`WatchSlices.LateDelivery`), which happens
  (`WatchSlices.LateRun`). For a pod that was deleted, the refresh then brings the directories back that DeletePod
  had removed (`Volumes.RefreshAfterClean`).
- `Insert` shares the backing array with its receiver: of two inserts into files that share array and length the first
  one's option survives iff there is no spare capacity or both are the same (`UnitFile.BranchingClobbers`). CreatePod's
  linear use is safe (`UnitFile.EditInTurn`).
- `Delete` returns a file with a stale index iff it deleted something (`UnitFile.DeleteStale`); in CreatePod the
  Environment inserts after it repair the index (`Compile.BuildUnit`).
- Values are printed as they are. One that ends in a backslash takes in the next option of its section
  (`Strays.Swallowed`, `Slips.SwallowPrints`); so a pod whose workingDir does is loaded without ProtectSystem
  (`Slips.SwallowsProtection`). What stands after a line break is read as a line of its own. As an option: the
  command `["/bin/sh\nUser=root"]` runs as root whatever uid was carried to it (`Slips.InjectedUser`,
  `Slips.ShellAsRoot`, `Example.SampleRunsAsRoot`). As a section header, which moves all that follows in the section
  (`Strays.HeaderMoves`): with the workingDir `"/x\n[Foo]"` the uid that was carried and the protections land in
  another section, and the unit runs as root without them (`Slips.DirectoryUnprotects`,
  `Slips.ElsewhereUnprotected`, `Example.SampleUnprotected`); a clusterName can bring the Service header and a
  User line (`Slips.ClusterInjectsUser`). Or as garbage: after `["/bin/sh", "-c", "a\nb"]` the unit cannot be read
  and GetPod panics (`Strays.BreakFails`, `Slips.ShellUnreadable`, `Recover.BrokenPanics`, `Example.SamplePanics`).
  The text says what was compiled iff all raw fields return (`Loaded.LoadedAsMeant`).
- Pod names may have dots. Then `Pod` and `Container` misread the unit name, and GetPod's prefix selects units
  of other pods as well (`Naming.ReadersInvert`, `Naming.DottedOverlap`; exactly which, `Naming.SelectedExactly`).
- A package's ExecStart line without command and args is rewritten all the same: runs of blanks become one
  space, also inside quotes (`CommandLine.BlanksInQuotesCollapse`; exactly when it matters,
  `UntouchedLine.LineRunsAsWritten`).
- A command is joined without quoting: `["bash", "-c", "echo hi"]` becomes four words (`CommandLine.CommandAsGiven`).
- `internal/provider/security_context.go:13-14` says uid and gid are both empty or both set. A lone runAsGroup
  is the exception, and the only one (`Users.IdsBothOrNeither`).
- With an override UID a unit that can be read still runs as root iff the last User line says so that a field brings
  after the one that is meant; or, if there is none and a uid was carried, iff the last header that workingDir brings
  is not Service and the User lines before it do not end in another user; or, if none was carried, which needs a first
  User and Group in the package that look harmless, iff the last User of the package's own lines is root or empty
  (`Loaded.RootSlips`, `Loaded.NothingCarried`). The uid that one container is mapped to is carried to all later ones,
  whatever their packages say.
- Exit codes are summed in 32 bits, so failures of very many containers can add up to success, exactly when the sum
  is a multiple of 2^32 (`Phase.FailuresCanCancel`); with codes from 0 to 255 and fewer than 2^31/255 containers they
  cannot (`Phase.SucceededMeansAllZero`).
- A key removed from a ConfigMap or Secret keeps its file (`Volumes.RemovedKeyStays`).
- Cleaning up with an empty UID or "." removes everything below /var/run, with ".." all of /var
  (`Volumes.CleanEverything`); of the UIDs without a slash only the ordinary ones leave other pods alone
  (`Volumes.CleanSpares`).
- A CreatePod that fails in the container loop leaves the units it loaded behind (`Lifecycle.FailedCreate`);
  DeletePod removes them (`Lifecycle.DeleteUndoesCreate`, `Lifecycle.DeleteRemovesCreated`).
- `README.md:88` says that units are named after images; the code uses the container name.

## Model

| member | source | states |
|---|---|---|
| UnitFile.IndexOptions | internal/unit/file.go:44-59 | the index built by the loop has a section as key iff some option is in it, a name as key of its section iff some option has it, and each entry lists the values in file order |
| UnitFile.MapOptionsIndexes | internal/unit/file.go:44-59 | the fold over the options is such an index, for every option list |
| UnitFile.IndexDetermined | internal/unit/file.go:44-59 | there is only one such index for an option list |
| UnitFile.File.FromOptions | internal/unit/file.go:40-42 | a file keeps the given slice and its index is that of the options in it |
| UnitFile.File.Append | internal/unit/file.go:96 | append writes in place iff the capacity suffices, never touches a cell below the length, and otherwise moves to a new array |
| UnitFile.File.Insert | internal/unit/file.go:87-98 | receiver and result share the array that now holds the old options followed by the new ones; the result's index agrees; no older cell changed |
| UnitFile.File.Keep | internal/unit/file.go:101-111 | the filter loop leaves exactly the options that do not match, in order, in a new array |
| UnitFile.File.Overwrite | internal/unit/file.go:101-113 | all settings of the option are replaced by the given values at the end, in a new array; the result's index agrees |
| UnitFile.File.Delete | internal/unit/file.go:116-128 | the receiver itself is returned, without the option's settings |
| UnitFile.ApplyOneValues | internal/unit/file.go:87-128 | an edit changes the values of its own option as its name says and of no other |
| UnitFile.ApplyUntouched | internal/unit/file.go:87-128 | options that no edit of a sequence touches keep their values, in order |
| UnitFile.ApplyLast | internal/unit/file.go:87-128 | the last edit of an option decides: later edits of other options do not matter |
| UnitFile.DeleteStale | internal/unit/file.go:116-128 | after Delete the index is stale iff there was something to delete |
| UnitFile.EditInTurn | internal/provider/pod.go:138-228 | replacing the variable by each result, every edit sees exactly what its predecessors left, whatever arrays are shared; the index agrees as soon as the last edit is not a deletion |
| UnitFile.BranchingClobbers | internal/unit/file.go:96-97 | of two inserts into files that share array and length the second one's option ends up in both iff there was spare capacity; the first one's survives iff there was none or both are the same |
| UnitText.TakeEnds | internal/unit/file_test.go:113-153 | a value that goes on over several lines and ends is taken back whole, and nothing after it but blank lines |
| Grammar.CommentSkipped | internal/unit/file_test.go:42-73 | a blank line or a comment, with # or ;, is skipped wherever an option may begin |
| Grammar.HeadIgnored | internal/unit/file_test.go:42-73 | what stands before the first section header is not read, whatever it is |
| Grammar.SettingRead | internal/unit/file_test.go:42-107 | a setting on one line is read with its name and its value trimmed, whatever the name is |
| Grammar.HeaderRead | internal/unit/file_test.go:42-73 | a section header opens its section |
| Grammar.HeaderOpen | internal/unit/file.go:29-37 | a header that is not closed is an error |
| Grammar.GarbageFails | internal/unit/file.go:29-37 | a line of a section that is no comment, header or setting is an error |
| Grammar.HeaderFollowed | internal/unit/file.go:29-37 | a header with something after it is an error |
| UnitText.RoundTrip | internal/unit/file.go:29-37 | for arbitrary values: parsing the printed options gives the stable grouping by first-seen section, values trimmed, iff every value returns |
| UnitText.RoundTripSingleLines | internal/unit/file.go:29-37 | for values on one line: iff none that ends in a backslash is followed by another option of its section |
| UnitText.ParsedNamed | internal/unit/file.go:29-37 | section and option names that were parsed can be printed and parsed again |
| UnitText.RoundTripValues | internal/unit/file.go:77-84 | then per section and name the values come back trimmed and in order |
| UnitText.ValuesOfGroup | internal/unit/file.go:77-84 | grouping by section leaves the values of every option in order |
| UnitText.RoundTripFixpoint | internal/unit/file.go:29-84 | what came back prints and parses to itself iff the trimmed values return |
| Shipped.ParsedDelivered | internal/unit/file.go:29-37 | parsed values are trimmed, and every line break in them is continued over |
| Shipped.DeliveredComesBack | internal/unit/file.go:29-84 | so parsed options come back from their text iff none that ends in a backslash is followed by another option of its section |
| ByField.ReadByField | internal/unit/file.go:29-84 | for arbitrary values: a printed file is read section by section, each from its own header on, whatever the sections before it hold |
| ByField.FeedParses | internal/unit/file_test.go:113-153 | the parser is the line-by-line reader with a section and possibly an open value as its state |
| ByField.AroundCut | internal/unit/file.go:29-84 | an option has the values of the sections before, of the fields before a cut in the section, of those after it read on from there, and of the sections after |
| ByField.ParsesByField | internal/unit/file.go:29-37 | for arbitrary values: a printed file can be read iff each of its values can, wherever it stands |
| ByField.FieldAlike | internal/unit/file_test.go:113-153 | whether a field can be read, and where it leaves the reader, does not depend on what is open before it |
| ByField.CalmRead | internal/unit/file_test.go:113-153 | a field that returns is exactly one option: its own, or the end of the one that goes on into it |
| Strays.OwnValues | internal/unit/file.go:29-84 | if the fields of an option stand between options of its section and return, it has their values iff no other field begins one of it, and in any case none is lost |
| Strays.SectionsStay | internal/unit/file.go:77-79 | for arbitrary values: a section with an option in it has one in the file that is read |
| Strays.OneOdd | internal/unit/file.go:29-84 | a file that comes back but for one field is read as that one, with the options the field gives and the rest of its section moved to where it leads |
| Strays.Swallowed | internal/unit/file_test.go:113-153 | in any file: two neighbours of a section are read as the one option whose value has the second in it, if the file comes back with that one |
| Strays.BreakFails | internal/unit/file.go:29-37 | a file in which any value has a line break that does not go on, with garbage or a broken header on its second line, cannot be read |
| Strays.HeaderMoves | internal/unit/file.go:77-79 | in any file that comes back but for it, a value with a section header on its second line moves the options after it in its section there |
| Strays.SectionReturns | internal/unit/file.go:29-84 | a section that comes back and that no other field leads into has its values back, whatever else the other fields hold |
| WatchIndex.Watcher.constructor | internal/kubernetes/watch.go:62-71 | the index starts empty |
| WatchIndex.Watcher.Watch | internal/kubernetes/watch.go:130-152 | the pod is appended once per ConfigMap or Secret volume to both maps, in volume order |
| WatchIndex.Watcher.File | internal/kubernetes/watch.go:143-144 | one entry is appended to the resource's list and one to the pod's |
| WatchIndex.Watcher.Others | internal/kubernetes/watch.go:168-174 | what the inner loop keeps with the comparison as written |
| WatchIndex.Watcher.Sweep | internal/kubernetes/watch.go:164-181 | every list of the pod's resources is filtered, and removed when empty |
| WatchIndex.Watcher.Unwatch | internal/kubernetes/watch.go:155-205 | both kinds are swept with the comparison as written and the reverse entries removed |
| WatchIndex.Watcher.HandleEvent | internal/kubernetes/watch.go:95-127 | the pods filed under the event's key are told, once per entry, in order |
| WatchIndex.RunSafe | internal/kubernetes/watch.go:130-205 | in every reachable state, with either comparison, no list is empty and each entry's resource is among its pod's reverse keys |
| WatchIndex.UnwatchForgets | internal/kubernetes/watch.go:155-205 | after Unwatch no event reaches that pod, whatever happened before |
| WatchIndex.IntendedRunAgrees | internal/kubernetes/watch.go:130-205 | with the intended comparison a pod is filed under a resource as often as its reverse list names it, in every reachable state |
| WatchIndex.IntendedUnwatchExact | internal/kubernetes/watch.go:155-205 | with the intended comparison Unwatch removes that pod's entries and keeps all others in order |
| WatchIndex.AsWrittenUnwatchExact | internal/kubernetes/watch.go:167-181 | as written, Unwatch empties exactly the lists of the pod's resources |
| WatchIndex.FiltersMeet | internal/kubernetes/watch.go:164-204 | the two comparisons give the same index iff only that pod is filed under its resources |
| WatchIndex.WatchUnwatch | internal/kubernetes/watch.go:130-205 | Watch then Unwatch of an unwatched pod restores the index iff the comparison is the intended one or nobody was filed under its resources |
| WatchIndex.AsWrittenLosesEvents | internal/kubernetes/watch.go:170 | whenever two pods share a ConfigMap and one is unwatched, the other is still on record for it but no longer told |
| WatchIndex.SharedConfigMap | internal/kubernetes/watch.go:139-144 | such states are reached by two pods that mount the same ConfigMap |
| WatchSlices.RunKeepsInv | internal/kubernetes/watch.go:95-205 | in every interleaving lists do not share arrays, a handler's window never reaches past a list that shares its array, and the lists head for those of the sequential index |
| WatchSlices.QuiescentIndex | internal/kubernetes/watch.go:134-135 | whenever the write lock is free the lists are those of the completed operations run one after another |
| WatchSlices.NoInterference | internal/kubernetes/watch.go:98-109 | no step writes a cell that an event in flight may still read |
| WatchSlices.WindowFixed | internal/kubernetes/watch.go:98-109 | the window of an event in flight has the same contents at all later times |
| WatchSlices.EventNotifiesSnapshot | internal/kubernetes/watch.go:97-109 | an event tells a prefix, and in the end all, of the pods filed when it held the read lock, in order |
| WatchSlices.LateDelivery | internal/kubernetes/watch.go:98-109 | when an Unwatch is done while an event has told the first n pods of its slice, the event goes on with the others: it tells the pod that is gone iff it is among them, although the index has it no more |
| WatchSlices.NoLateDelivery | internal/kubernetes/watch.go:98-109 | an event that takes its slice only then does not tell it |
| WatchSlices.LateRun | internal/kubernetes/watch.go:98-109 | for every pod with one ConfigMap volume there is a run in which it is told after its Unwatch |
| WatchSlices.WriterCanStep | internal/kubernetes/watch.go:130-205 | a writer is never stuck |
| WatchSlices.HandlerCanStep | internal/kubernetes/watch.go:105-109 | a handler that is not done is never stuck |
| Told.Mentioned | internal/kubernetes/watch.go:137-150 | a pod mentions a resource iff one of its volumes names it |
| Told.UsesRecorded | internal/kubernetes/watch.go:130-205 | in every reachable state, with either comparison, a pod is on record for a resource iff it was watched with a volume that names it and not unwatched since |
| Told.NotifiedExactly | internal/kubernetes/watch.go:95-205 | who is told, entry by entry in order: one for each volume that names the resource, all gone with the Unwatch of any pod on record for it |
| Told.ToldExactly | internal/kubernetes/watch.go:95-205 | a pod is told iff it was watched with a volume that names the resource, and no pod on record for it has been unwatched since |
| Naming.UnitNamePieces | internal/provider/pod.go:392-398 | the dotted pieces of a unit name |
| Naming.ReadersRead | internal/provider/pod.go:402-435 | Pod reads the first label of the pod name, Container the one after it, which is the container's name iff there is no other |
| Naming.UnitNameInjective | internal/provider/pod.go:392-398 | different pods or containers have different unit names, dotted pod names included |
| Naming.ReadersInvert | internal/provider/pod.go:402-435 | Namespace always reads back, Pod iff the pod name has no dot, and then Container and Name too |
| Naming.UnitNameSelected | internal/unit/manager.go:221-227 | a pod's own units are always selected |
| Naming.SelectedExactly | internal/unit/manager.go:221-227 | the prefix selects exactly the units of the namespace whose remaining name starts with the pod name and a dot |
| Naming.DotFreeSelected | internal/provider/pod.go:26 | without dots in pod names the selected units are those of that pod |
| Naming.DottedOverlap | internal/provider/pod.go:26-27 | with dots two different pods select each other's units |
| CommandLine.CommandAndArgs | internal/provider/command.go:15-47 | the words of the new ExecStart: command in the first slot, arguments quoted in place of the others |
| CommandLine.SplitCommandAppend | internal/provider/command.go:38-44 | splitting a line that is continued after a space splits the parts |
| CommandLine.SplitQuotedArgs | internal/provider/command.go:38-44 | systemd splits the quoted arguments back into exactly the given ones, and refuses the line iff one contains a NUL |
| CommandLine.CommandAsGiven | internal/provider/command.go:33 | a command that is joined by spaces is split into its words again iff each of them is non-empty and has no blank, quote or backslash |
| CommandLine.WhatRuns | internal/provider/command.go:16-44 | what runs in each of the four cases of command and args for any list of ExecStart lines, of which several become one word each; a given command runs as given, its program looked up, iff no word needs quoting |
| CommandLine.Slots | internal/provider/command.go:16-24 | the slots: the words of the one ExecStart line, or one slot a line, of which the first is replaced or kept |
| CommandLine.GivenRuns | internal/provider/command.go:26-44 | if no word needs quoting, a given command runs with its own words and arguments; its program is looked up iff it is not given by an absolute path |
| CommandLine.FieldsJoin | internal/provider/command.go:20 | joining words by single spaces and splitting them again gives the words |
| CommandLine.UntouchedLineKeepsWords | internal/provider/command.go:18-24 | without command and args the blank-separated words of the line stay |
| UntouchedLine.LineRunsAsWritten | internal/provider/command.go:18-24 | for every line that systemd accepts: it runs the same words after the rewriting iff each item, as written, has no blanks but single spaces |
| CommandLine.BlanksInQuotesCollapse | internal/provider/command.go:19-21 | for example a quoted word with two blanks runs with one |
| Phase.StateHasOneArm | internal/provider/unit.go:169-231 | a container state has at most one of its arms set, and exit codes fit 32 bits |
| Phase.StateMeans | internal/provider/unit.go:169-231 | running iff the sub-state is running, auto-restart or reload; terminated with the status in 32 bits iff it starts with "stop", is failed or exited, or is dead after an exit; waiting for the rest that starts with "start", is condition or dead |
| Phase.ToPhase | internal/provider/unit.go:233-265 | the loop with its early return and 32-bit counter computes the phase from totals over the containers |
| Phase.PhaseOrderFree | internal/provider/unit.go:233-275 | the phase does not depend on the order of the containers, hence not on Go's map order |
| Phase.PhaseMeans | internal/provider/unit.go:233-265 | Pending iff some container waits, Running iff all run, Succeeded or Failed iff there are some and all terminated, Succeeded iff moreover the codes sum to 0 in 32 bits |
| Phase.SucceededMeansAllZero | internal/provider/unit.go:256-262 | for process exit codes Succeeded means that every code is 0 |
| Phase.FailuresCanCancel | internal/provider/unit.go:248 | containers that all exit with one code count as success iff code times number is a multiple of 2^32, as for 2^26 containers and code 64 |
| Users.UidGidFromSecurityContext | internal/provider/security_context.go:18-64 | the ids for every security context, lookup failures included |
| Users.ResolvedFails | internal/provider/security_context.go:24-61 | an error iff the number or the name is no account, or root is to be overridden by an account that is missing |
| Users.ResolvedRemapped | internal/provider/security_context.go:53-61 | exactly uid 0 with an override UID gives the uid and gid of the override account |
| Users.ResolvedIds | internal/provider/security_context.go:18-50 | otherwise the name decides over the number, a group that is given over the primary one, which is that of the user who decides |
| Users.ResolvedNotRoot | internal/provider/security_context.go:53-61 | with an override UID the security context never yields root, and always one line |
| Users.IdsBothOrNeither | internal/provider/security_context.go:12-17 | uid and gid are both empty or both set, except iff runAsGroup stands alone |
| Users.CarryNotRoot | internal/provider/pod.go:149-174 | one container keeps the carried uid empty or non-root, and says exactly when its unit runs as root all the same |
| Volumes.SlotInjective | internal/provider/volumes.go:328 | different indexes have different directory names |
| Volumes.VolumeDirsApart | internal/provider/volumes.go:317-333 | directories of different UIDs, kinds or indexes neither coincide nor nest |
| Volumes.FileSystem.MkdirAll | internal/provider/volumes.go:258-264 | succeeds iff no file is in the way; then all directories on the way exist; no file changes in any case |
| Volumes.FileSystem.TempFile | internal/provider/volumes.go:274 | a name of the temporaries' form in the same directory that is not taken |
| Volumes.FileSystem.Fill | internal/provider/volumes.go:288-290 | while the temporary file is written piece by piece nothing else changes |
| Volumes.FileSystem.WriteFile | internal/provider/volumes.go:269-295 | succeeds iff the directory is there and the target is not a directory; at every moment the target has its old or the complete new bytes; on success the new ones, and no temporary is left |
| Volumes.FileSystem.WriteEach | internal/provider/volumes.go:85-98 | the same for all keys of a map in any order; succeeds iff every entry decodes and no target is a directory |
| Volumes.FileSystem.SetupPaths | internal/provider/volumes.go:317-333 | succeeds iff no file is in the way; then the volume's directory exists with its parents; no file changes in any case |
| Volumes.FileSystem.SetUpOne | internal/provider/volumes.go:113-129 | a volume's directory holds both halves of its entries, the second half winning; exactly when this fails |
| Volumes.FileSystem.SetUpAt | internal/provider/volumes.go:45-252 | one round of the loop: what becomes of each kind of volume, what enters the volume map, and exactly when it is an error |
| Volumes.FileSystem.SetUp | internal/provider/volumes.go:35-255 | succeeds iff the user is found and no volume is refused or obstructed; then tree and volume map are those of all volumes; in every case no file is torn at any moment |
| Volumes.FileSystem.Refresh | internal/provider/pod.go:382-390 | the pods of an event one after the other: in each turn a pod that can be set up is, and no file is torn at any moment, whatever fails; if nothing does the tree is that of all refreshes |
| Volumes.FileSystem.RemoveAll | internal/provider/volumes.go:312-315 | exactly the paths at and below the target go |
| Volumes.TreeAfterFile | internal/provider/volumes.go:35-255 | every file that some volume asks for has that volume's current bytes at the end |
| Volumes.TreeAfterOther | internal/provider/volumes.go:35-255 | every directory asked for is there, and every path nobody asks for is as it was |
| Volumes.NewPodSetsUp | internal/provider/volumes.go:45-252 | for a UID of which nothing is on disk yet, volumes fail only by being refused |
| Volumes.RunTwice | internal/provider/volumes.go:35-255 | a repeated run does not change the tree |
| Volumes.RefreshKeepsOthers | internal/provider/volumes.go:67-104 | refreshing one kind leaves directories of other kinds and other pods as they were |
| Volumes.CurrentData | internal/provider/volumes.go:85-129 | each key of a resource that is there ends up as a file with its current bytes |
| Volumes.EventDelivers | internal/kubernetes/watch.go:105-109 | refreshing the pods on file one after the other leaves the files of each of them current, also when a pod is on file several times |
| Volumes.TurnDelivers | internal/kubernetes/watch.go:105-109 | whatever fails for other pods, a pod whose own refresh succeeds has its current files at the end, if no later one has its UID |
| Volumes.RemovedKeyStays | internal/provider/volumes.go:119-129 | under a name that is no key, or no longer one, there is what there was before |
| Volumes.CleanExact | internal/provider/volumes.go:312-315 | cleaning up an ordinary UID removes that pod's volumes and no other pod's |
| Volumes.CleanEverything | internal/provider/volumes.go:313 | an empty UID or "." removes everything below /var/run, ".." all of /var |
| Volumes.CleanSpares | internal/provider/volumes.go:312-315 | of the UIDs without a slash exactly the ordinary ones leave all below other pods' volume directories alone |
| Volumes.RefreshAfterClean | internal/provider/pod.go:371-390 | a refresh that comes after the cleaning brings a pod's volume directories back |
| Mounted.RefusedMeans | internal/provider/volumes.go:67-252 | refused are exactly absent resources that are declared not optional, Secrets with StringData that is not base64, and unsupported kinds; each kind only where it is asked for |
| Mounted.VolumeOnDisk | internal/provider/volumes.go:51-129 | after a run a volume has its directory /var/run/<uid>/<kind>/#<index> with a file of the right bytes for each key, Data over StringData and BinaryData over Data; other names there are as before |
| Mounted.MountsMean | internal/provider/volumes.go:44-130 | a name is in the volume map iff a volume of that name was set up or is a host path; the last one decides, with its directory or with nothing |
| Mounted.SetUpExactly | internal/provider/volumes.go:35-255 | succeeds iff the user is found and no volume is refused, or obstructed in the tree as it is at the start |
| Mounted.OtherFilesKept | internal/provider/pod.go:382-390 | an event of one kind changes no file outside the directories of that kind, whatever fails |
| Mounted.TurnLeavesUpToDate | internal/provider/pod.go:382-390 | a pod whose turn does not fail has all volumes of that kind up to date in the end |
| Compile.CollectBinds | internal/provider/pod.go:103-124 | the three mount lists: only mounts whose volume was set up, read-only ones apart, host paths without a bind |
| Compile.BindsExactly | internal/provider/pod.go:103-124 | each list has, in order, the entries of exactly the mounts that belong there: read-only ones by directory and path, writable ones by path, and these by directory and path unless the directory is empty |
| Compile.EntryListed | internal/provider/pod.go:103-124 | an entry is in a list iff a mount that belongs there has it |
| Compile.ReadOnlyKept | internal/provider/pod.go:110-113 | a path that is only mounted read-only is not made writable |
| Compile.CompiledValues | internal/provider/pod.go:138-228 | each option's final values depend only on the package's values and that option's own group of edits |
| Compile.Frame | internal/provider/pod.go:138-228 | every option outside the touched ones keeps its values, in order |
| Compile.Protections | internal/provider/pod.go:142-147 | in the option list one value each for ProtectSystem, ProtectHome, PrivateMounts and ReadOnlyPaths; journal is added to the outputs |
| Compile.CompiledWorkingDirectory | internal/provider/pod.go:138-140 | the pod's working directory alone, or else the package's |
| Compile.CompiledUser | internal/provider/pod.go:171-174 | User and Group are the carried ids alone, or else the package's |
| Compile.CompiledInit | internal/provider/pod.go:176-180 | init containers are oneshot and marked; others keep the package's type and get no mark |
| Compile.CompiledAfter | internal/provider/pod.go:183-185 | the last init unit is added to the package's After |
| Compile.CompiledRemain | internal/provider/pod.go:189 | RemainAfterExit is true and nothing else |
| Compile.CompiledExec | internal/provider/pod.go:191-194 | exactly one ExecStart |
| Compile.CompiledMeta | internal/provider/pod.go:196-200 | namespace, cluster name, UID and cleaned image are added to X-Kubernetes |
| Compile.CompiledMounts | internal/provider/pod.go:203-214 | the mount lists are added to the package's, none when empty |
| Compile.CompiledTemporaryFileSystem | internal/provider/pod.go:202 | /var and /run are added to the package's |
| Compile.CompiledNoEnvironmentFile | internal/provider/pod.go:216-218 | no EnvironmentFile is left in the option list |
| Compile.CompiledEnvironment | internal/provider/pod.go:220-228 | all Environment lines, in the order package, defaults, pod |
| Compile.EditGroups | internal/provider/pod.go:138-228 | edits applied to the shared file have the effect of the same edits on option lists |
| Compile.MapUser | internal/provider/pod.go:152-169 | the branches of the user handling |
| Compile.ProtectUnit | internal/provider/pod.go:138-169 | the index read in the middle shows the package's User and Group although edits went before |
| Compile.PersonalizeUnit | internal/provider/pod.go:171-228 | the remaining edits; the ExecStart read from the index is the package's although edits went before |
| Compile.CompleteUnit | internal/provider/pod.go:191-228 | the edits from ExecStart on, with the computed words and mounts; the index agrees at the end |
| Compile.BuildUnit | internal/provider/pod.go:133-228 | a round of the loop gives the compiled unit or fails iff the override user is missing; at Load the index agrees with the options again |
| Layout.CompiledLayout | internal/provider/pod.go:138-228 | the unit is what the package keeps, in order, followed by what is written, group by group |
| Layout.CompiledFits | internal/provider/pod.go:138-228 | a condition that no constant breaks holds of all options of the unit iff it holds of the raw fields: the package's kept options and what pod, volumes and node put in |
| PodUnits.InitOrder | internal/provider/pod.go:88-91 | the closure of the After edges orders unit i after unit j iff j is an earlier init unit: no cycles, no edge between ordinary units, every target loaded before |
| PodUnits.AfterEdges | internal/provider/pod.go:182-185 | the After options that CreatePod adds are exactly these edges |
| PodUnits.CarriedNotRoot | internal/provider/pod.go:81-174 | over any number of containers the carried uid stays empty or non-root |
| Units.PackageParsed | internal/provider/unit.go:277-308 | the package behind a container is its parsed unit file, or the synthesized text parsed |
| Units.LoopCarries | internal/provider/pod.go:81-174 | the loop gets past n containers iff their packages are there and the override account is where it is needed; it carries the ids it started with, or from the first unit that would run as root on the account's |
| Units.ContextDecides | internal/provider/pod.go:81-174 | if the security context asks for a user who is not remapped, all units run as that user and group, in the options and in their text if the fields return |
| Units.ContextRemapped | internal/provider/pod.go:81-174 | if it asks for root and that is overridden, all units run as the override account |
| Units.NoUserAsked | internal/provider/pod.go:149-174 | if no user is asked for: the override account from the first unit on that would run as root, else what the package says |
| Units.UnitKinds | internal/provider/pod.go:88-180 | the first units are those of the init containers, oneshot and marked; then come those of the ordinary ones; each has its container's name |
| Units.UnitAfter | internal/provider/pod.go:182-185 | the unit of an init container comes after the one before it, and that of an ordinary one after the last init container's |
| Units.UnitMounts | internal/provider/pod.go:103-214 | BindReadOnlyPaths, BindPaths and ReadWritePaths get one more value with the entries of exactly the mounts that belong there, or none |
| Units.UnitEnvironment | internal/provider/pod.go:216-228 | Environment has the package's lines, the node's five and the pod's with quoted values, in order; no EnvironmentFile |
| Units.UnitKeeps | internal/provider/pod.go:133-228 | all options but the ones listed have the values of the package's unit file |
| Loaded.LoadedAsMeant | internal/provider/pod.go:138-231 | the loaded text is read as exactly the compiled options, grouped and trimmed, iff all raw fields return |
| Loaded.KeptReturns | internal/provider/pod.go:133-137 | what a package ships hinders that only by a value that ends in a backslash while its section goes on |
| Loaded.LoadedReadable | internal/provider/pod.go:138-231 | the loaded text can be read iff each of the pod's own fields can, by itself |
| Loaded.LoadedMarked | internal/provider/pod.go:196-200 | for all raw fields: if it can be read it has the X-Kubernetes section |
| Loaded.LoadedExactly | internal/provider/pod.go:138-231 | an option whose fields stand where they are meant has the compiled values in it iff no other field begins one of it, read where it stands; never fewer |
| Loaded.LoadedNoEnvironmentFile | internal/provider/pod.go:216-218 | for all raw fields: there is no EnvironmentFile in it iff no field begins one |
| Loaded.HeadRead | internal/provider/pod.go:138-147 | the section in which user and protections stand is the one the working directory leaves, whatever the package ships |
| Loaded.LoadedProtections | internal/provider/pod.go:142-147 | for all raw fields: exactly when a protection or output has the written value last, and when that is the only one |
| Loaded.LoadedRoot | internal/provider/pod.go:149-174 | for all raw fields: the User lines are those before the one that is meant, that one if it arrives, and those after it; the last one decides |
| Loaded.RootSlips | internal/provider/pod.go:149-174 | for all raw fields: exactly when the loaded text makes a unit run as root in spite of an override UID |
| Loaded.NothingCarried | internal/provider/pod.go:149-174 | no uid is carried exactly when none was before and the package's first User and Group look harmless; its users are then read as it names them unless one of its values goes on into the next |
| Loaded.NeverRoot | internal/provider/pod.go:149-174 | if each package has at most one User and that one is not empty: root takes a User line from another field after the one that is meant, or a working directory that leads the carried uid away, or a package value that goes on |
| Slips.InjectedUser | internal/provider/command.go:33 | a command whose second line is a User setting is run by that user, whatever uid was carried |
| Slips.ShellAsRoot | internal/provider/command.go:33 | so the command of one word "/bin/sh", line break, "User=root" runs as root |
| Slips.BreakUnreadable | internal/provider/command.go:33 | a command whose second line is garbage leaves a unit that cannot be read |
| Slips.ShellUnreadable | internal/provider/command.go:33 | for example a shell script of two plain lines |
| Slips.SwallowPrints | internal/unit/file.go:77-79 | two neighbouring options of a section print as the one whose value takes the second in |
| Slips.SwallowsProtection | internal/provider/pod.go:138-142 | a workingDir that ends in a backslash loads the unit without ProtectSystem, if all other fields return |
| Slips.LedAway | internal/provider/pod.go:138-142 | with a workingDir that brings the header of another section, nothing that is written to the Service section after it is read there |
| Slips.DirectoryUnprotects | internal/provider/pod.go:138-174 | so the unit runs as root although a uid was carried to it, and has none of the four protections |
| Slips.ElsewhereUnprotected | internal/provider/pod.go:138-174 | for example with the directory "/x", line break, "[Foo]" |
| Slips.ClusterInjectsUser | internal/provider/pod.go:197 | a clusterName that brings the Service header and a User line is run by that user, whatever uid was carried |
| Recover.SynthStorable | internal/provider/unit.go:277-293 | for packages without a unit file a unit can be stored iff the fields of pod, volumes and node return, with an override UID too |
| Recover.UnitNamesOf | internal/provider/unit.go:267-275 | each key once, in some order |
| Recover.NewFile | internal/unit/file.go:29-37 | the index of the parsed text, or the parse error |
| Recover.ReadUnit | internal/provider/unit.go:109-135 | what a turn of the loops reads from a unit, and when it panics |
| Recover.ToContainers | internal/provider/unit.go:104-141 | the containers in iteration order, split by kind, units without the section skipped; it panics iff a unit does not parse or has no image |
| Recover.ToContainerStatuses | internal/provider/unit.go:143-167 | the same for statuses, but a unit without the section panics as well |
| Recover.ReadMeta | internal/provider/unit.go:30-58 | the metadata of the unit looked at first |
| Recover.StatsToPod | internal/provider/unit.go:19-102 | the outcome for an arbitrary first unit and arbitrary orders: no pod, a removed unit, a panic, or the pod |
| Recover.CollectPermutes | internal/provider/unit.go:105-141 | the collected lists are the same multisets for every map order |
| Recover.MetaRead | internal/provider/unit.go:53-58 | the text of a unit whose raw fields return gives namespace, cluster name, UID and image back, trimmed |
| Recover.UnitRead | internal/provider/unit.go:117-135 | it is read as one container of the right kind with its image and command |
| Recover.UnitNamesDistinct | internal/provider/pod.go:392-394 | containers with distinct names have distinct units |
| Recover.FoundNames | internal/provider/pod.go:402-435 | pods are found under their own name iff it has no dot, and then the containers are too |
| Recover.StoreAndRecover | internal/provider/unit.go:19-167 | for any first unit and any orders the pod's units give back its namespace, cluster name, UID, init and ordinary containers and statuses as multisets, and the phase; the names as far as the readers go |
| Recover.MetaUnitRead | internal/provider/unit.go:30-135 | a unit of which only the X-Kubernetes fields return, and whose text can be read, is read with its metadata, kind and image, and with the commands its ExecStart lines have become |
| Recover.LegibleRecovers | internal/provider/unit.go:19-167 | if that is so of all units of a pod, all of it comes back but for the commands |
| Recover.BrokenPanics | internal/provider/unit.go:19-135 | one unit that cannot be read makes looking at the pod panic, unless the unit looked at first is a foreign one |
| Observed.PhaseTold | internal/provider/unit.go:233-265 | the phase from sub-states and exit statuses: Running, Pending, Succeeded and Failed each iff |
| Observed.KindMembers | internal/provider/unit.go:134-138 | the units of a kind are exactly those whose text marks them so, or does not |
| Observed.OutcomeExactly | internal/provider/unit.go:19-167 | by the texts of the units: a pod is found iff the first has namespace, cluster name and UID and all have an image; the first is removed iff it can be read and has no such section; else it panics |
| Observed.PodTold | internal/provider/unit.go:30-265 | whatever units GetPod finds and in whatever order: metadata from the first values of the first unit; one container and one status per unit of either kind, with its first image, its commands and the state of its sub-state; the phase of the ordinary ones |
| Observed.RestoredPhase | internal/provider/unit.go:70-98 | a pod that comes back has the phase of the sub-states of its ordinary containers' units |
| Lifecycle.Conservation | internal/provider/pod.go:67-252 | after any run the manager holds exactly the live pods' units and the trace accounts for them; what is started belongs to pods created in full |
| Lifecycle.OneOwner | internal/provider/pod.go:392-394 | no unit belongs to two live pods |
| Lifecycle.TextsKept | internal/unit/manager_mock.go:27-30 | each unit of a live pod holds the text it was last loaded with, whatever was created or deleted since |
| Lifecycle.DeleteUndoesCreate | internal/provider/pod.go:349-369 | deleting a pod that was just created, in full or in part, restores the units and what is started |
| Lifecycle.DeleteRemovesCreated | internal/provider/pod.go:349-369 | after a repeated creation it leaves none of the pod's units and all others as they were |
| Lifecycle.AlwaysSafe | internal/provider/pod.go:236-250 | at every point of the trace a started unit is loaded, and a pod has a unit started only while all its units are loaded |
| Lifecycle.FailedCreate | internal/provider/pod.go:98-137 | a failing creation starts nothing and watches nothing; the units it loaded stay |
| Lifecycle.WatchIsRun | internal/provider/pod.go:250 | the watch index after a run is that of its successful creations and its deletions |
| Lifecycle.EventsReachLive | internal/kubernetes/watch.go:95-127 | whoever is told of an event is a live pod, created in full |
| Lifecycle.LooksChangeNothing | internal/provider/unit.go:36-47 | in every run of creations of marked units, deletions and looks, the looks leave all as it was |
| Lifecycle.ForeignRemoved | internal/provider/unit.go:36-47 | a look stops and unloads the unit it happens on iff that is selected by prefix and suffix and its text parses without the section; all else stays |
| Provider.Provider.constructor | internal/provider/provider.go:66-90 | no units, no watches |
| Provider.Provider.Load | internal/unit/manager_mock.go:27-30 | the printed file is stored under the name |
| Provider.Provider.Unload | internal/unit/manager_mock.go:32-35 | the name is removed |
| Provider.Provider.LoadContainer | internal/provider/pod.go:90-242 | a round of the loop loads the compiled unit under its name and carries ids and last init unit on, or leaves the units alone |
| Provider.Provider.LoadContainers | internal/provider/pod.go:86-243 | the units of a prefix of the containers are loaded in order; on error the prefix ends at the first container that fails |
| Provider.Provider.RunUnits | internal/provider/pod.go:88-252 | the container loop and what follows it: started and watched iff no container fails |
| Provider.Provider.CreatePod | internal/provider/pod.go:67-252 | the step of Lifecycle: started and watched iff user and volumes are fine and no container fails; else a prefix is loaded, which ends at the first container that fails; the texts are the compiled units for the volumes as set up |
| Provider.Provider.DeletePod | internal/provider/pod.go:349-380 | the step of Lifecycle: stop all, unload all, unwatch; the volume directories of the UID go |
| Provider.Provider.HandleEvent | internal/provider/pod.go:382-390 | a ConfigMap event refreshes the ConfigMap volumes, and a Secret event the Secret volumes, of every pod on file, in order: each that can be set up is, and no file is torn at any moment, whatever fails |
| Provider.Provider.States | internal/unit/manager.go:213-239 | the units with the prefix and the service suffix, with their texts |
| Provider.Provider.GetPod | internal/provider/pod.go:23-34 | the outcome of reading the selected units; only a unit without the section is stopped and unloaded, if it is the one looked at first |
| Provider.GetPodLeavesUnits | internal/provider/unit.go:36-47 | whatever the raw fields hold, GetPod never removes a unit that CreatePod loaded: runs with looks in between end as those without |
| Provider.GetPodSelects | internal/provider/pod.go:26-27 | after any run GetPod sees exactly the units loaded for that pod, or none for a pod that does not live, iff no other live pod of the namespace has a loaded unit whose name goes on like the pod's |
| Provider.DotFreeAlone | internal/provider/pod.go:26-27 | without dots in pod names none has |
| Provider.GetPodRecovers | internal/provider/pod.go:23-34 | after any run GetPod gives back a pod created in full, from texts alone, for every map order; under its own names if the pod name has no dot |
| Provider.FreshRecovers | internal/provider/pod.go:23-34 | every pod that can be stored meets what this asks for when it is created on a fresh provider |
| Overall.CreatedExactly | internal/provider/pod.go:67-137 | what CreatePod's success comes down to: the user, the volumes, the packages and the override account, each by the fields |
| Overall.MountOfVolume | internal/provider/pod.go:103-124 | a mount is listed iff a volume of its name was set up, with that volume's directory, or none for a host path |
| Overall.GetPodShows | internal/provider/pod.go:23-34 | after any run GetPod shows a pod created in full with one status per container, each with the state of its unit's sub-state, and with the phase of the ordinary ones |
| Events.WhoIsTold | internal/kubernetes/watch.go:95-205 | after any run a pod is told iff it was created in full with a volume that names the resource and no pod on record for it has been deleted since; and it lives |
| Events.ConfigMapArrives | internal/provider/pod.go:382-385 | after any run and a ConfigMap event: a pod whose refresh does not fail has the cluster's bytes in all its volumes that name the ConfigMap |
| Events.SecretArrives | internal/provider/pod.go:387-390 | the same for Secrets |
| Events.OthersLeftAlone | internal/provider/pod.go:382-390 | files outside of the volumes of the event's kind are as they were |
| Events.EventsWriteForLive | internal/provider/pod.go:382-390 | after any run an event that no DeletePod overlaps publishes files only in volume directories of that kind of live pods |
| Example.SampleRecovers | internal/provider/pod.go:23-34 | a concrete pod meets what GetPodRecovers asks for, on a node with an override UID |
| Example.SampleRunsAsRoot | internal/provider/command.go:33 | a concrete pod runs as root in spite of the override UID |
| Example.SampleUnprotected | internal/provider/pod.go:138-174 | a concrete pod runs as root because of its working directory |
| Example.SamplePanics | internal/provider/unit.go:30-58 | looking at a concrete pod panics |

## Left out

- systemd over D-Bus: units that fail to load or start, the rollback of `Load` in `internal/unit/manager.go:84-100`, `Mask`, `Reload`, enabling. CreatePod only logs such failures.
- Package installation, `exec.LookPath`, user lookup and `ospkg.Clean` are tables; package unit files are given as text per image.
- `defaultEnvironment` takes its values from a node record; parsing of the API server's URL is not modelled.
- The bodies of go-systemd's Serialize and Deserialize are not part of the repository; UnitText follows the tests. Its line length limit is not modelled.
- Volumes.FileSystem.SetUp: errors of the operating system that the file tree does not force (a full disk, a failing chown) are not modelled, nor are ownership and modes. A run that breaks off anywhere is covered by the statement about every moment.
- Volumes.FileSystem.WriteFile: nothing is said about keys that end in ".tmp", because they could be taken for temporaries; writing is one growing prefix after another, and a chown that fails is not modelled.
- Volumes.FileSystem.SetUpAt: projected volumes count as unsupported.
- Projected volumes: the source reads the ConfigMap items for a Secret source, and several sources of one volume overwrite each other.
- A Secret or ConfigMap lookup that fails for another reason than absence is taken as absence.
- CommandLine.SplitQuotedArgs: characters beyond ASCII are taken as printable, so fmt's \u escapes do not occur, and systemd's variable and % expansion is left out.
- CommandLine.WhatRuns: says nothing of a head that does not split by itself, where a quote is left open: what follows may close it.
- CommandLine.CommandAndArgs: does not model that the source writes the located command into the pod's spec and the new first word into the file's index, where Overwrite replaces it next.
- Recover.StatsToPod: timestamps, restart counts, process ids and hashes are left out; the conditions of the status are constants.
- Recover.ToContainerStatuses: restart counts and ids are left out.
- Phase.StateHasOneArm: reasons and messages of container states are left out except for the waiting reason.
- Loaded.LoadedReadable: the text is read with the grammar of UnitText, as GetPod does; systemd's own reader is not part of this model.
- Recover.StoreAndRecover: asks that namespaces and container names have no dots and containers distinct names, as the API server sees to, and that no package has an X-Kubernetes section.
- Provider.Provider.CreatePod: a command that is given is not empty, as the source indexes its first word; two calls do not overlap.
- Provider.Provider.HandleEvent: runs by itself; what other goroutines can do to its list meanwhile is in WatchSlices.
- Events.EventsWriteForLive: only for events that no DeletePod overlaps; the others can write for a pod that is gone (WatchSlices.LateDelivery, Volumes.RefreshAfterClean).
- Volumes.TurnDelivers: nothing is said about keys that end in ".tmp"; of a pod that is on file several times it speaks of the last turn.
- Events.ConfigMapArrives: nothing is said about keys that end in ".tmp"; of a pod that is told several times it speaks of the last turn. Events.SecretArrives is the same.
- Lifecycle.Conservation: a pod is created only when none of its name lives or its creation failed, and then as before, and deleted as it was created, which the virtual kubelet sees to.
- GetPods, GetPodStatus, logs, the node object, flags, HTTP and YAML: nothing to decide, or only easy members.
