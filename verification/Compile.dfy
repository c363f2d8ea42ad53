// The container loop body of CreatePod (internal/provider/pod.go:90-243): from a package's unit file
// to the unit that is loaded.

module Compile {
  import opened Strings
  import opened Kube
  import opened UnitFile
  import opened Users
  import opened CommandLine

  const KUBERNETES_SECTION := "X-Kubernetes"

  datatype Node = Node(name: string, kubernetesPort: string, kubernetesHost: string, internalIP: string,
    externalIP: string)

  // What the provider is configured with and finds on its machine: the images that do not install,
  // the package names ospkg.Clean makes of images, and the unit files the packages ship.
  datatype Host = Host(
    node: Node,
    overrideRootUID: int,
    accounts: Accounts,
    lookPath: map<string, string>,
    failing: set<string>,
    cleaned: map<string, string>,
    unitTexts: map<string, string>)

  function Clean(host: Host, image: string): string {
    if image in host.cleaned then host.cleaned[image] else image
  }

  function DefaultEnvironment(node: Node): seq<string> {
    ["HOSTNAME=" + node.name,
     "KUBERNETES_SERVICE_PORT=" + node.kubernetesPort,
     "KUBERNETES_SERVICE_HOST=" + node.kubernetesHost,
     "SYSTEMK_NODE_INTERNAL_IP=" + node.internalIP,
     "SYSTEMK_NODE_EXTERNAL_IP=" + node.externalIP]
  }

  function PodEnvironment(env: seq<EnvVar>): seq<string> {
    seq(|env|, i requires 0 <= i < |env| => env[i].name + "=" + Quote(env[i].value))
  }

  // ---- Volume mounts.

  datatype Binds = Binds(readWrite: seq<string>, binds: seq<string>, readOnly: seq<string>)

  function BindsOf(mounts: seq<VolumeMount>, vol: map<string, string>): Binds {
    if mounts == [] then Binds([], [], [])
    else
      var b, m := BindsOf(mounts[..|mounts| - 1], vol), mounts[|mounts| - 1];
      if m.name !in vol then b
      else
        var dir := vol[m.name];
        if m.readOnly then b.(readOnly := b.readOnly + [dir + ":" + m.mountPath])
        else if dir == "" then b.(readWrite := b.readWrite + [m.mountPath])
        else b.(readWrite := b.readWrite + [m.mountPath], binds := b.binds + [dir + ":" + m.mountPath])
  }

  method CollectBinds(mounts: seq<VolumeMount>, vol: map<string, string>) returns (b: Binds)
    ensures b == BindsOf(mounts, vol)
  {
    var bindmounts, bindmountsro, rwpaths := [], [], [];
    for i := 0 to |mounts|
      invariant Binds(rwpaths, bindmounts, bindmountsro) == BindsOf(mounts[..i], vol)
    {
      var v := mounts[i];
      assert mounts[..i + 1][..i] == mounts[..i];
      if v.name !in vol {
        continue;
      }
      var dir := vol[v.name];
      if v.readOnly {
        bindmountsro := bindmountsro + [dir + ":" + v.mountPath];
        continue;
      }
      rwpaths := rwpaths + [v.mountPath];
      if dir == "" {
        continue;
      }
      bindmounts := bindmounts + [dir + ":" + v.mountPath];
    }
    assert mounts[..|mounts|] == mounts;
    return Binds(rwpaths, bindmounts, bindmountsro);
  }

  // The lists by the mounts: ReadWritePaths, BindPaths and BindReadOnlyPaths.
  datatype Access = ReadWrite | Bound | ReadOnly

  // A mount is listed if its volume was set up: as read-only if it says so, and otherwise as writable, with a bind
  // if there is a directory to bind.
  predicate Listed(a: Access, m: VolumeMount, vol: map<string, string>) {
    m.name in vol && match a
                     case ReadWrite => !m.readOnly
                     case Bound => !m.readOnly && vol[m.name] != ""
                     case ReadOnly => m.readOnly
  }

  function EntryFor(a: Access, m: VolumeMount, vol: map<string, string>): string
    requires m.name in vol
  {
    if a.ReadWrite? then m.mountPath else vol[m.name] + ":" + m.mountPath
  }

  function ListFor(b: Binds, a: Access): seq<string> {
    match a
    case ReadWrite => b.readWrite
    case Bound => b.binds
    case ReadOnly => b.readOnly
  }

  // ks are the places of the mounts to be listed, in order, and list has their entries.
  predicate ListsExactly(list: seq<string>, ks: seq<nat>, a: Access, mounts: seq<VolumeMount>,
                         vol: map<string, string>)
  {
    && |list| == |ks|
    && (forall i, j :: 0 <= i < j < |ks| ==> ks[i] < ks[j])
    && (forall k :: 0 <= k < |mounts| && Listed(a, mounts[k], vol) ==> k in ks)
    && (forall j :: 0 <= j < |ks| ==>
          ks[j] < |mounts| && Listed(a, mounts[ks[j]], vol) && list[j] == EntryFor(a, mounts[ks[j]], vol))
  }

  lemma ListsMore(list: seq<string>, ks: seq<nat>, a: Access, mounts: seq<VolumeMount>, vol: map<string, string>)
    requires mounts != [] && ListsExactly(list, ks, a, mounts[..|mounts| - 1], vol)
    ensures
      var k := |mounts| - 1;
      if Listed(a, mounts[k], vol)
      then ListsExactly(list + [EntryFor(a, mounts[k], vol)], ks + [k], a, mounts, vol)
      else ListsExactly(list, ks, a, mounts, vol)
  {
    var front, k := mounts[..|mounts| - 1], |mounts| - 1;
    forall i | 0 <= i < |mounts| && Listed(a, mounts[i], vol)
      ensures i in ks + [k] && (i != k ==> i in ks)
    {
      if i == k {
        assert (ks + [k])[|ks|] == k;
      } else {
        assert front[i] == mounts[i];
        var j :| 0 <= j < |ks| && ks[j] == i;
        assert (ks + [k])[j] == i;
      }
    }
  }

  lemma ListStep(mounts: seq<VolumeMount>, vol: map<string, string>, a: Access)
    requires mounts != []
    ensures
      var before, m := ListFor(BindsOf(mounts[..|mounts| - 1], vol), a), mounts[|mounts| - 1];
      ListFor(BindsOf(mounts, vol), a) == if Listed(a, m, vol) then before + [EntryFor(a, m, vol)] else before
  {
  }

  lemma {:induction false} BindsExactly(mounts: seq<VolumeMount>, vol: map<string, string>, a: Access)
    returns (ks: seq<nat>)
    ensures ListsExactly(ListFor(BindsOf(mounts, vol), a), ks, a, mounts, vol)
  {
    if mounts == [] {
      ks := [];
    } else {
      var front, k := mounts[..|mounts| - 1], |mounts| - 1;
      ks := BindsExactly(front, vol, a);
      ListStep(mounts, vol, a);
      ListsMore(ListFor(BindsOf(front, vol), a), ks, a, mounts, vol);
      ks := if Listed(a, mounts[k], vol) then ks + [k] else ks;
    }
  }

  // So an entry is in a list iff a mount to be listed there has it.
  lemma EntryListed(mounts: seq<VolumeMount>, vol: map<string, string>, a: Access, entry: string)
    ensures entry in ListFor(BindsOf(mounts, vol), a)
      <==> exists k :: 0 <= k < |mounts| && Listed(a, mounts[k], vol) && entry == EntryFor(a, mounts[k], vol)
  {
    var list := ListFor(BindsOf(mounts, vol), a);
    var ks := BindsExactly(mounts, vol, a);
    if k :| 0 <= k < |mounts| && Listed(a, mounts[k], vol) && entry == EntryFor(a, mounts[k], vol) {
      var j :| 0 <= j < |ks| && ks[j] == k;
      assert list[j] == entry;
    }
    if entry in list {
      var j :| 0 <= j < |list| && list[j] == entry;
      assert Listed(a, mounts[ks[j]], vol) && entry == EntryFor(a, mounts[ks[j]], vol);
    }
  }

  // A path that is only mounted read-only is not made writable.
  lemma ReadOnlyKept(mounts: seq<VolumeMount>, vol: map<string, string>, path: string)
    requires forall k ::
      0 <= k < |mounts| && mounts[k].mountPath == path && mounts[k].name in vol ==> mounts[k].readOnly
    ensures path !in BindsOf(mounts, vol).readWrite
  {
    EntryListed(mounts, vol, ReadWrite, path);
  }

  // ---- The edits, in groups that touch different options.

  function WorkingDirEdits(c: Container): seq<Edit> {
    if c.workingDir != "" then [Ovr("Service", "WorkingDirectory", [c.workingDir])] else []
  }

  const PROTECT_EDITS: seq<Edit> := [
    Ovr("Service", "ProtectSystem", ["true"]),
    Ovr("Service", "ProtectHome", ["tmpfs"]),
    Ovr("Service", "PrivateMounts", ["true"]),
    Ovr("Service", "ReadOnlyPaths", ["/"]),
    Ins("Service", "StandardOutput", ["journal"]),
    Ins("Service", "StandardError", ["journal"])]

  function UserEdits(ids: Ids): seq<Edit> {
    if ids.uid != "" then [Ovr("Service", "User", [ids.uid]), Ovr("Service", "Group", [ids.gid])] else []
  }

  function InitEdits(isInit: bool): seq<Edit> {
    if isInit then [Ovr("Service", "Type", ["oneshot"]), Ins(KUBERNETES_SECTION, "InitContainer", ["true"])] else []
  }

  function AfterEdits(previousUnit: string): seq<Edit> {
    if previousUnit != "" then [Ins("Unit", "After", [previousUnit])] else []
  }

  const REMAIN_EDITS: seq<Edit> := [Ovr("Service", "RemainAfterExit", ["true"])]

  function ExecEdits(words: seq<string>): seq<Edit> {
    [Ovr("Service", "ExecStart", [Join(words, " ")])]
  }

  function MetaEdits(pod: Pod, image: string): seq<Edit> {
    [Ins(KUBERNETES_SECTION, "Namespace", [pod.namespace]),
     Ins(KUBERNETES_SECTION, "ClusterName", [pod.clusterName]),
     Ins(KUBERNETES_SECTION, "Id", [pod.uid]),
     Ins(KUBERNETES_SECTION, "Image", [image])]
  }

  function JoinedIfAny(name: string, paths: seq<string>): seq<Edit> {
    if |paths| > 0 then [Ins("Service", name, [Join(paths, " ")])] else []
  }

  function MountEdits(b: Binds): seq<Edit> {
    [Ins("Service", "TemporaryFileSystem", ["/var /run"])]
    + JoinedIfAny("ReadWritePaths", b.readWrite)
    + JoinedIfAny("BindPaths", b.binds)
    + JoinedIfAny("BindReadOnlyPaths", b.readOnly)
  }

  const DELETE_EDITS: seq<Edit> := [Del("Service", "EnvironmentFile")]

  function EnvironmentEdits(env: seq<string>): seq<Edit> {
    seq(|env|, i requires 0 <= i < |env| => Ins("Service", "Environment", [env[i]]))
  }

  // What the loop body knows about a container besides its spec.
  datatype Context = Context(pod: Pod, vol: map<string, string>, isInit: bool, previousUnit: string, ids: Ids)

  function Environment(host: Host, c: Container): seq<string> {
    DefaultEnvironment(host.node) + PodEnvironment(c.env)
  }

  function FirstGroups(c: Container): seq<seq<Edit>> {
    [WorkingDirEdits(c), PROTECT_EDITS]
  }

  function MiddleGroups(x: Context): seq<seq<Edit>> {
    [UserEdits(x.ids), InitEdits(x.isInit), AfterEdits(x.previousUnit), REMAIN_EDITS]
  }

  function LastGroups(host: Host, c: Container, pod: Pod, binds: Binds, words: seq<string>): seq<seq<Edit>> {
    [ExecEdits(words), MetaEdits(pod, Clean(host, c.image)), MountEdits(binds),
     DELETE_EDITS, EnvironmentEdits(Environment(host, c))]
  }

  // The groups by number; UNTOUCHED is the number of the options CreatePod leaves alone.
  const UNTOUCHED: nat := 11

  function GroupNumber(host: Host, c: Container, x: Context, words: seq<string>, g: nat): seq<Edit> {
    if g == 0 then WorkingDirEdits(c)
    else if g == 1 then PROTECT_EDITS
    else if g == 2 then UserEdits(x.ids)
    else if g == 3 then InitEdits(x.isInit)
    else if g == 4 then AfterEdits(x.previousUnit)
    else if g == 5 then REMAIN_EDITS
    else if g == 6 then ExecEdits(words)
    else if g == 7 then MetaEdits(x.pod, Clean(host, c.image))
    else if g == 8 then MountEdits(BindsOf(c.volumeMounts, x.vol))
    else if g == 9 then DELETE_EDITS
    else if g == 10 then EnvironmentEdits(Environment(host, c))
    else []
  }

  function Groups(host: Host, c: Container, x: Context, words: seq<string>): seq<seq<Edit>> {
    seq(UNTOUCHED, g requires 0 <= g < UNTOUCHED => GroupNumber(host, c, x, words, g))
  }

  // They are applied in three rounds.
  lemma GroupsInRounds(host: Host, c: Container, x: Context, words: seq<string>)
    ensures Groups(host, c, x, words)
         == FirstGroups(c) + MiddleGroups(x) + LastGroups(host, c, x.pod, BindsOf(c.volumeMounts, x.vol), words)
  {
  }

  // The first n groups, applied in turn.
  function ApplyGroups(opts: seq<UnitOption>, groups: seq<seq<Edit>>, n: nat): seq<UnitOption>
    requires n <= |groups|
  {
    if n == 0 then opts else Apply(ApplyGroups(opts, groups, n - 1), groups[n - 1])
  }

  predicate ProperCommand(c: Container) {
    c.command.Some? ==> |c.command.value| > 0
  }

  function Words(host: Host, pkg: seq<UnitOption>, c: Container): seq<string>
    requires ProperCommand(c)
  {
    ExecWords(Values(pkg, "Service", "ExecStart"), c.command, c.args, host.lookPath)
  }

  // The unit that is loaded, x.ids being the ids after this container's own user handling.
  function Compiled(host: Host, pkg: seq<UnitOption>, c: Container, x: Context): seq<UnitOption>
    requires ProperCommand(c)
  {
    var groups := Groups(host, c, x, Words(host, pkg, c));
    ApplyGroups(pkg, groups, |groups|)
  }

  function CarryIds(host: Host, pkg: seq<UnitOption>, ids: Ids): Option<Ids> {
    Carry(ids, Values(pkg, "Service", "User"), Values(pkg, "Service", "Group"), host.accounts, host.overrideRootUID)
  }

  // ---- Values through edits.

  function FoldValues(values: seq<string>, edits: seq<Edit>, section: string, name: string): seq<string> {
    if edits == [] then values
    else EditValues(FoldValues(values, edits[..|edits| - 1], section, name), edits[|edits| - 1], section, name)
  }

  lemma {:induction false} ApplyFold(opts: seq<UnitOption>, edits: seq<Edit>, section: string, name: string)
    ensures Values(Apply(opts, edits), section, name) == FoldValues(Values(opts, section, name), edits, section, name)
  {
    if edits != [] {
      ApplyFold(opts, edits[..|edits| - 1], section, name);
      ApplyOneValues(Apply(opts, edits[..|edits| - 1]), edits[|edits| - 1], section, name);
    }
  }

  lemma {:induction false} FoldAppend(values: seq<string>, a: seq<Edit>, b: seq<Edit>, section: string, name: string)
    ensures FoldValues(values, a + b, section, name)
      == FoldValues(FoldValues(values, a, section, name), b, section, name)
  {
    if b == [] {
      assert a + b == a;
    } else {
      FoldAppend(values, a, b[..|b| - 1], section, name);
      assert (a + b)[..|a + b| - 1] == a + b[..|b| - 1];
    }
  }

  lemma {:induction false} FoldUntouched(values: seq<string>, edits: seq<Edit>, section: string, name: string)
    requires Untouched(edits, section, name)
    ensures FoldValues(values, edits, section, name) == values
  {
    if edits != [] {
      FoldUntouched(values, edits[..|edits| - 1], section, name);
    }
  }

  // If only group g touches section/name, the final values are what that group makes of the package's.
  lemma {:induction false} OnlyGroup(opts: seq<UnitOption>, groups: seq<seq<Edit>>, n: nat, g: nat, section: string,
                                     name: string)
    requires n <= |groups|
    requires forall i :: 0 <= i < n && i != g ==> Untouched(groups[i], section, name)
    ensures Values(ApplyGroups(opts, groups, n), section, name)
         == if g < n then FoldValues(Values(opts, section, name), groups[g], section, name)
            else Values(opts, section, name)
  {
    if n > 0 {
      var before := ApplyGroups(opts, groups, n - 1);
      OnlyGroup(opts, groups, n - 1, g, section, name);
      ApplyFold(before, groups[n - 1], section, name);
      if g != n - 1 {
        FoldUntouched(Values(before, section, name), groups[n - 1], section, name);
      }
    }
  }

  lemma {:induction false} ApplyGroupsAppend(opts: seq<UnitOption>, a: seq<seq<Edit>>, b: seq<seq<Edit>>, n: nat)
    requires n <= |b|
    ensures ApplyGroups(opts, a + b, |a| + n) == ApplyGroups(ApplyGroups(opts, a, |a|), b, n)
  {
    if n == 0 {
      ApplyGroupsPrefix(opts, a, b, |a|);
    } else {
      ApplyGroupsAppend(opts, a, b, n - 1);
      assert (a + b)[|a| + n - 1] == b[n - 1];
    }
  }

  lemma {:induction false} ApplyGroupsPrefix(opts: seq<UnitOption>, a: seq<seq<Edit>>, b: seq<seq<Edit>>, n: nat)
    requires n <= |a|
    ensures ApplyGroups(opts, a + b, n) == ApplyGroups(opts, a, n)
  {
    if n > 0 {
      ApplyGroupsPrefix(opts, a, b, n - 1);
    }
  }

  // ---- Which group an option belongs to.

  function Owner(section: string, name: string): nat {
    if section == "Service" then
      if name == "WorkingDirectory" then 0
      else if name == "ProtectSystem" || name == "ProtectHome" || name == "PrivateMounts" || name == "ReadOnlyPaths"
           || name == "StandardOutput" || name == "StandardError" then 1
      else if name == "User" || name == "Group" then 2
      else if name == "Type" then 3
      else if name == "RemainAfterExit" then 5
      else if name == "ExecStart" then 6
      else if name == "TemporaryFileSystem" || name == "ReadWritePaths" || name == "BindPaths"
           || name == "BindReadOnlyPaths" then 8
      else if name == "EnvironmentFile" then 9
      else if name == "Environment" then 10
      else UNTOUCHED
    else if section == KUBERNETES_SECTION then
      if name == "InitContainer" then 3
      else if name == "Namespace" || name == "ClusterName" || name == "Id" || name == "Image" then 7
      else UNTOUCHED
    else if section == "Unit" && name == "After" then 4
    else UNTOUCHED
  }

  predicate OwnedBy(edits: seq<Edit>, g: nat) {
    forall i :: 0 <= i < |edits| ==> Owner(edits[i].section, edits[i].name) == g
  }

  lemma FirstGroupsOwned(c: Container)
    ensures OwnedBy(WorkingDirEdits(c), 0) && OwnedBy(PROTECT_EDITS, 1)
  {
  }

  lemma MiddleGroupsOwned(x: Context)
    ensures OwnedBy(UserEdits(x.ids), 2) && OwnedBy(InitEdits(x.isInit), 3)
    ensures OwnedBy(AfterEdits(x.previousUnit), 4) && OwnedBy(REMAIN_EDITS, 5)
  {
  }

  lemma OwnedAppend(a: seq<Edit>, b: seq<Edit>, g: nat)
    requires OwnedBy(a, g) && OwnedBy(b, g)
    ensures OwnedBy(a + b, g)
  {
  }

  lemma JoinedOwned(name: string, paths: seq<string>)
    requires Owner("Service", name) == 8
    ensures OwnedBy(JoinedIfAny(name, paths), 8)
  {
  }

  lemma TemporaryOwned()
    ensures OwnedBy([Ins("Service", "TemporaryFileSystem", ["/var /run"])], 8)
  {
  }

  lemma MountEditsOwned(b: Binds)
    ensures OwnedBy(MountEdits(b), 8)
  {
    var tmp := [Ins("Service", "TemporaryFileSystem", ["/var /run"])];
    var rw, bi := JoinedIfAny("ReadWritePaths", b.readWrite), JoinedIfAny("BindPaths", b.binds);
    TemporaryOwned();
    MountOwner("ReadWritePaths");
    MountOwner("BindPaths");
    MountOwner("BindReadOnlyPaths");
    JoinedOwned("ReadWritePaths", b.readWrite);
    JoinedOwned("BindPaths", b.binds);
    JoinedOwned("BindReadOnlyPaths", b.readOnly);
    OwnedAppend(tmp, rw, 8);
    OwnedAppend(tmp + rw, bi, 8);
    OwnedAppend(tmp + rw + bi, JoinedIfAny("BindReadOnlyPaths", b.readOnly), 8);
  }

  lemma ExecOwned(words: seq<string>)
    ensures OwnedBy(ExecEdits(words), 6) && OwnedBy(DELETE_EDITS, 9)
  {
  }

  lemma MetaOwned(pod: Pod, image: string)
    ensures OwnedBy(MetaEdits(pod, image), 7)
  {
  }

  lemma EnvironmentOwned(env: seq<string>)
    ensures OwnedBy(EnvironmentEdits(env), 10)
  {
    EnvironmentOwner();
  }

  lemma LastGroupsOwned(host: Host, c: Container, x: Context, words: seq<string>)
    ensures OwnedBy(ExecEdits(words), 6) && OwnedBy(MetaEdits(x.pod, Clean(host, c.image)), 7)
    ensures OwnedBy(MountEdits(BindsOf(c.volumeMounts, x.vol)), 8)
    ensures OwnedBy(DELETE_EDITS, 9) && OwnedBy(EnvironmentEdits(Environment(host, c)), 10)
  {
    ExecOwned(words);
    MetaOwned(x.pod, Clean(host, c.image));
    MountEditsOwned(BindsOf(c.volumeMounts, x.vol));
    EnvironmentOwned(Environment(host, c));
  }

  lemma GroupsOwned(host: Host, c: Container, x: Context, words: seq<string>)
    ensures |Groups(host, c, x, words)| == UNTOUCHED
    ensures forall g :: 0 <= g < |Groups(host, c, x, words)| ==> OwnedBy(Groups(host, c, x, words)[g], g)
  {
    FirstGroupsOwned(c);
    MiddleGroupsOwned(x);
    LastGroupsOwned(host, c, x, words);
    forall g | 0 <= g < UNTOUCHED
      ensures OwnedBy(GroupNumber(host, c, x, words, g), g)
    {
    }
  }

  lemma OtherGroup(edits: seq<Edit>, g: nat, section: string, name: string)
    requires OwnedBy(edits, g) && Owner(section, name) != g
    ensures Untouched(edits, section, name)
  {
  }

  lemma GroupedValues(pkg: seq<UnitOption>, groups: seq<seq<Edit>>, g: nat, section: string, name: string)
    requires Owner(section, name) == g && |groups| == UNTOUCHED
    requires forall i :: 0 <= i < |groups| ==> OwnedBy(groups[i], i)
    ensures Values(ApplyGroups(pkg, groups, |groups|), section, name)
      == if g < |groups| then FoldValues(Values(pkg, section, name), groups[g], section, name)
         else Values(pkg, section, name)
  {
    forall i | 0 <= i < |groups| && i != g
      ensures Untouched(groups[i], section, name)
    {
      OtherGroup(groups[i], i, section, name);
    }
    OnlyGroup(pkg, groups, |groups|, g, section, name);
  }

  // The frame theorem: every option of the final unit has the values its own group gives it, starting
  // from the package's; all other options keep theirs, in order.
  lemma CompiledValues(host: Host, pkg: seq<UnitOption>, c: Container, x: Context, g: nat, section: string,
                       name: string)
    requires ProperCommand(c) && Owner(section, name) == g
    ensures Values(Compiled(host, pkg, c, x), section, name)
         == FoldValues(Values(pkg, section, name), GroupNumber(host, c, x, Words(host, pkg, c), g), section, name)
  {
    var words := Words(host, pkg, c);
    var groups := Groups(host, c, x, words);
    GroupsOwned(host, c, x, words);
    GroupedValues(pkg, groups, g, section, name);
    GroupIndexed(host, c, x, words, g);
  }

  lemma GroupIndexed(host: Host, c: Container, x: Context, words: seq<string>, g: nat)
    ensures |Groups(host, c, x, words)| == UNTOUCHED
    ensures g < UNTOUCHED ==> Groups(host, c, x, words)[g] == GroupNumber(host, c, x, words, g)
    ensures g >= UNTOUCHED ==> GroupNumber(host, c, x, words, g) == []
  {
  }

  lemma Frame(host: Host, pkg: seq<UnitOption>, c: Container, x: Context, section: string, name: string)
    requires ProperCommand(c) && Owner(section, name) == UNTOUCHED
    ensures Values(Compiled(host, pkg, c, x), section, name) == Values(pkg, section, name)
  {
    CompiledValues(host, pkg, c, x, UNTOUCHED, section, name);
  }

  // Within a group: the one edit that touches section/name decides.
  lemma {:induction false} OnlyEdit(values: seq<string>, edits: seq<Edit>, k: nat, section: string, name: string)
    requires k < |edits|
    requires forall i :: 0 <= i < |edits| && i != k ==> !Touches(edits[i], section, name)
    ensures FoldValues(values, edits, section, name) == EditValues(values, edits[k], section, name)
  {
    var last := |edits| - 1;
    if k == last {
      FoldUntouched(values, edits[..last], section, name);
    } else {
      OnlyEdit(values, edits[..last], k, section, name);
    }
  }

  lemma ProtectionAt(host: Host, pkg: seq<UnitOption>, c: Container, x: Context, k: nat)
    requires ProperCommand(c) && k < |PROTECT_EDITS|
    ensures
      var e := PROTECT_EDITS[k];
      Values(Compiled(host, pkg, c, x), e.section, e.name)
        == EditValues(Values(pkg, e.section, e.name), e, e.section, e.name)
  {
    var e := PROTECT_EDITS[k];
    FirstGroupsOwned(c);
    assert Owner(e.section, e.name) == 1;
    CompiledValues(host, pkg, c, x, 1, e.section, e.name);
    ProtectDistinct(k);
    OnlyEdit(Values(pkg, e.section, e.name), PROTECT_EDITS, k, e.section, e.name);
  }

  // ProtectSystem, ProtectHome, PrivateMounts and ReadOnlyPaths have exactly the one value written;
  // the journal is added to whatever outputs the package names.
  lemma Protections(host: Host, pkg: seq<UnitOption>, c: Container, x: Context)
    requires ProperCommand(c)
    ensures
      var unit := Compiled(host, pkg, c, x);
      && Values(unit, "Service", "ProtectSystem") == ["true"] && Values(unit, "Service", "ProtectHome") == ["tmpfs"]
      && Values(unit, "Service", "PrivateMounts") == ["true"] && Values(unit, "Service", "ReadOnlyPaths") == ["/"]
      && Values(unit, "Service", "StandardOutput") == Values(pkg, "Service", "StandardOutput") + ["journal"]
      && Values(unit, "Service", "StandardError") == Values(pkg, "Service", "StandardError") + ["journal"]
  {
    ProtectionAt(host, pkg, c, x, 0);
    ProtectionAt(host, pkg, c, x, 1);
    ProtectionAt(host, pkg, c, x, 2);
    ProtectionAt(host, pkg, c, x, 3);
    ProtectionAt(host, pkg, c, x, 4);
    ProtectionAt(host, pkg, c, x, 5);
  }

  lemma ProtectDistinct(k: nat)
    requires k < |PROTECT_EDITS|
    ensures forall i :: 0 <= i < |PROTECT_EDITS| && i != k ==>
      !Touches(PROTECT_EDITS[i], PROTECT_EDITS[k].section, PROTECT_EDITS[k].name)
  {
  }

  lemma OneEditGroup(values: seq<string>, e: Edit)
    ensures FoldValues(values, [e], e.section, e.name) == EditValues(values, e, e.section, e.name)
  {
    OnlyEdit(values, [e], 0, e.section, e.name);
  }

  lemma CompiledWorkingDirectory(host: Host, pkg: seq<UnitOption>, c: Container, x: Context)
    requires ProperCommand(c)
    ensures Values(Compiled(host, pkg, c, x), "Service", "WorkingDirectory")
         == if c.workingDir != "" then [c.workingDir] else Values(pkg, "Service", "WorkingDirectory")
  {
    CompiledValues(host, pkg, c, x, 0, "Service", "WorkingDirectory");
    OneEditGroup(Values(pkg, "Service", "WorkingDirectory"), Ovr("Service", "WorkingDirectory", [c.workingDir]));
  }

  // The user and group are the carried ids, or else the package's own.
  lemma CompiledUser(host: Host, pkg: seq<UnitOption>, c: Container, x: Context)
    requires ProperCommand(c)
    ensures Values(Compiled(host, pkg, c, x), "Service", "User") == FinalUser(x.ids, Values(pkg, "Service", "User"))
    ensures Values(Compiled(host, pkg, c, x), "Service", "Group")
         == if x.ids.uid != "" then [x.ids.gid] else Values(pkg, "Service", "Group")
  {
    CompiledValues(host, pkg, c, x, 2, "Service", "User");
    CompiledValues(host, pkg, c, x, 2, "Service", "Group");
    if x.ids.uid != "" {
      OnlyEdit(Values(pkg, "Service", "User"), UserEdits(x.ids), 0, "Service", "User");
      OnlyEdit(Values(pkg, "Service", "Group"), UserEdits(x.ids), 1, "Service", "Group");
    }
  }

  // Init containers run once and are marked; other containers keep the package's type and carry no mark.
  lemma CompiledInit(host: Host, pkg: seq<UnitOption>, c: Container, x: Context)
    requires ProperCommand(c)
    ensures Values(Compiled(host, pkg, c, x), "Service", "Type")
         == if x.isInit then ["oneshot"] else Values(pkg, "Service", "Type")
    ensures Values(Compiled(host, pkg, c, x), KUBERNETES_SECTION, "InitContainer")
         == Values(pkg, KUBERNETES_SECTION, "InitContainer") + (if x.isInit then ["true"] else [])
  {
    CompiledValues(host, pkg, c, x, 3, "Service", "Type");
    CompiledValues(host, pkg, c, x, 3, KUBERNETES_SECTION, "InitContainer");
    if x.isInit {
      OnlyEdit(Values(pkg, "Service", "Type"), InitEdits(true), 0, "Service", "Type");
      OnlyEdit(Values(pkg, KUBERNETES_SECTION, "InitContainer"), InitEdits(true), 1, KUBERNETES_SECTION,
        "InitContainer");
    } else {
      assert Values(pkg, KUBERNETES_SECTION, "InitContainer") + [] == Values(pkg, KUBERNETES_SECTION, "InitContainer");
    }
  }

  lemma CompiledAfter(host: Host, pkg: seq<UnitOption>, c: Container, x: Context)
    requires ProperCommand(c)
    ensures Values(Compiled(host, pkg, c, x), "Unit", "After")
         == Values(pkg, "Unit", "After") + (if x.previousUnit != "" then [x.previousUnit] else [])
  {
    CompiledValues(host, pkg, c, x, 4, "Unit", "After");
    if x.previousUnit != "" {
      OneEditGroup(Values(pkg, "Unit", "After"), Ins("Unit", "After", [x.previousUnit]));
    } else {
      assert Values(pkg, "Unit", "After") + [] == Values(pkg, "Unit", "After");
    }
  }

  // One ExecStart, made of the words of command.go.
  lemma CompiledExec(host: Host, pkg: seq<UnitOption>, c: Container, x: Context)
    requires ProperCommand(c)
    ensures Values(Compiled(host, pkg, c, x), "Service", "ExecStart") == [Join(Words(host, pkg, c), " ")]
  {
    CompiledValues(host, pkg, c, x, 6, "Service", "ExecStart");
    OneEditGroup(Values(pkg, "Service", "ExecStart"), Ovr("Service", "ExecStart", [Join(Words(host, pkg, c), " ")]));
  }

  // The unit stays around after exit.
  lemma CompiledRemain(host: Host, pkg: seq<UnitOption>, c: Container, x: Context)
    requires ProperCommand(c)
    ensures Values(Compiled(host, pkg, c, x), "Service", "RemainAfterExit") == ["true"]
  {
    CompiledValues(host, pkg, c, x, 5, "Service", "RemainAfterExit");
    OneEditGroup(Values(pkg, "Service", "RemainAfterExit"), REMAIN_EDITS[0]);
  }

  lemma CompiledNoEnvironmentFile(host: Host, pkg: seq<UnitOption>, c: Container, x: Context)
    requires ProperCommand(c)
    ensures Values(Compiled(host, pkg, c, x), "Service", "EnvironmentFile") == []
  {
    CompiledValues(host, pkg, c, x, 9, "Service", "EnvironmentFile");
    OneEditGroup(Values(pkg, "Service", "EnvironmentFile"), DELETE_EDITS[0]);
  }

  lemma CompiledMetaEdit(host: Host, pkg: seq<UnitOption>, c: Container, x: Context, k: nat)
    requires ProperCommand(c) && k < |MetaEdits(x.pod, Clean(host, c.image))|
    ensures
      var e := MetaEdits(x.pod, Clean(host, c.image))[k];
      e.Ins? && Values(Compiled(host, pkg, c, x), e.section, e.name) == Values(pkg, e.section, e.name) + e.values
  {
    var edits := MetaEdits(x.pod, Clean(host, c.image));
    var e := edits[k];
    assert Owner(e.section, e.name) == 7;
    CompiledValues(host, pkg, c, x, 7, e.section, e.name);
    OnlyEdit(Values(pkg, e.section, e.name), edits, k, e.section, e.name);
  }

  // What statsToPod will read back.
  lemma CompiledMeta(host: Host, pkg: seq<UnitOption>, c: Container, x: Context)
    requires ProperCommand(c)
    ensures
      var unit := Compiled(host, pkg, c, x);
      && Values(unit, KUBERNETES_SECTION, "Namespace")
        == Values(pkg, KUBERNETES_SECTION, "Namespace") + [x.pod.namespace]
      && Values(unit, KUBERNETES_SECTION, "ClusterName")
        == Values(pkg, KUBERNETES_SECTION, "ClusterName") + [x.pod.clusterName]
      && Values(unit, KUBERNETES_SECTION, "Id") == Values(pkg, KUBERNETES_SECTION, "Id") + [x.pod.uid]
      && Values(unit, KUBERNETES_SECTION, "Image") == Values(pkg, KUBERNETES_SECTION, "Image") + [Clean(host, c.image)]
  {
    CompiledMetaEdit(host, pkg, c, x, 0);
    CompiledMetaEdit(host, pkg, c, x, 1);
    CompiledMetaEdit(host, pkg, c, x, 2);
    CompiledMetaEdit(host, pkg, c, x, 3);
  }

  function AddJoined(values: seq<string>, paths: seq<string>): seq<string> {
    if |paths| > 0 then values + [Join(paths, " ")] else values
  }

  function PathsFor(b: Binds, name: string): seq<string> {
    if name == "ReadWritePaths" then b.readWrite else if name == "BindPaths" then b.binds else b.readOnly
  }

  lemma JoinedFold(values: seq<string>, b: Binds, name: string)
    requires name == "ReadWritePaths" || name == "BindPaths" || name == "BindReadOnlyPaths"
    ensures FoldValues(values, MountEdits(b), "Service", name) == AddJoined(values, PathsFor(b, name))
  {
    var base := [Ins("Service", "TemporaryFileSystem", ["/var /run"])];
    var rw, bi, ro := JoinedIfAny("ReadWritePaths", b.readWrite), JoinedIfAny("BindPaths", b.binds),
      JoinedIfAny("BindReadOnlyPaths", b.readOnly);
    FoldAppend(values, base + rw + bi, ro, "Service", name);
    FoldAppend(values, base + rw, bi, "Service", name);
    FoldAppend(values, base, rw, "Service", name);
    FoldUntouched(values, base, "Service", name);
    JoinedGroup(values, "ReadWritePaths", b.readWrite, name);
    var v1 := FoldValues(values, rw, "Service", name);
    JoinedGroup(v1, "BindPaths", b.binds, name);
    JoinedGroup(FoldValues(v1, bi, "Service", name), "BindReadOnlyPaths", b.readOnly, name);
  }

  lemma JoinedGroup(values: seq<string>, own: string, paths: seq<string>, name: string)
    ensures FoldValues(values, JoinedIfAny(own, paths), "Service", name)
         == if own == name then AddJoined(values, paths) else values
  {
    if |paths| > 0 {
      var e := Ins("Service", own, [Join(paths, " ")]);
      if own == name {
        OneEditGroup(values, e);
      } else {
        FoldUntouched(values, [e], "Service", name);
      }
    }
  }

  lemma MountOwner(name: string)
    requires name == "ReadWritePaths" || name == "BindPaths" || name == "BindReadOnlyPaths"
    ensures Owner("Service", name) == 8
  {
  }

  // The mounts: read-write, bind and read-only bind paths of the mounts whose volume was set up.
  lemma CompiledMounts(host: Host, pkg: seq<UnitOption>, c: Container, x: Context, name: string)
    requires ProperCommand(c)
    requires name == "ReadWritePaths" || name == "BindPaths" || name == "BindReadOnlyPaths"
    ensures Values(Compiled(host, pkg, c, x), "Service", name)
         == AddJoined(Values(pkg, "Service", name), PathsFor(BindsOf(c.volumeMounts, x.vol), name))
  {
    MountOwner(name);
    CompiledValues(host, pkg, c, x, 8, "Service", name);
    JoinedFold(Values(pkg, "Service", name), BindsOf(c.volumeMounts, x.vol), name);
  }

  lemma TemporaryFold(values: seq<string>, b: Binds)
    ensures FoldValues(values, MountEdits(b), "Service", "TemporaryFileSystem") == values + ["/var /run"]
  {
    var name, base := "TemporaryFileSystem", [Ins("Service", "TemporaryFileSystem", ["/var /run"])];
    var rw, bi, ro := JoinedIfAny("ReadWritePaths", b.readWrite), JoinedIfAny("BindPaths", b.binds),
      JoinedIfAny("BindReadOnlyPaths", b.readOnly);
    FoldAppend(values, base + rw + bi, ro, "Service", name);
    FoldAppend(values, base + rw, bi, "Service", name);
    FoldAppend(values, base, rw, "Service", name);
    OneEditGroup(values, base[0]);
    var after := values + ["/var /run"];
    JoinedGroup(after, "ReadWritePaths", b.readWrite, name);
    JoinedGroup(after, "BindPaths", b.binds, name);
    JoinedGroup(after, "BindReadOnlyPaths", b.readOnly, name);
  }

  lemma TemporaryOwner()
    ensures Owner("Service", "TemporaryFileSystem") == 8
  {
  }

  lemma CompiledTemporaryFileSystem(host: Host, pkg: seq<UnitOption>, c: Container, x: Context)
    requires ProperCommand(c)
    ensures Values(Compiled(host, pkg, c, x), "Service", "TemporaryFileSystem")
         == Values(pkg, "Service", "TemporaryFileSystem") + ["/var /run"]
  {
    TemporaryOwner();
    CompiledValues(host, pkg, c, x, 8, "Service", "TemporaryFileSystem");
    TemporaryFold(Values(pkg, "Service", "TemporaryFileSystem"), BindsOf(c.volumeMounts, x.vol));
  }

  lemma {:induction false} EnvironmentFold(values: seq<string>, env: seq<string>)
    ensures FoldValues(values, EnvironmentEdits(env), "Service", "Environment") == values + env
  {
    if env != [] {
      var k := |env| - 1;
      EnvironmentFold(values, env[..k]);
      assert EnvironmentEdits(env)[..k] == EnvironmentEdits(env[..k]);
      assert values + env == values + env[..k] + [env[k]];
    } else {
      assert EnvironmentEdits(env) == [];
    }
  }

  lemma EnvironmentOwner()
    ensures Owner("Service", "Environment") == 10
  {
  }

  lemma EnvironmentGroup(host: Host, c: Container, x: Context, words: seq<string>, values: seq<string>)
    ensures FoldValues(values, GroupNumber(host, c, x, words, 10), "Service", "Environment")
         == values + Environment(host, c)
  {
    EnvironmentFold(values, Environment(host, c));
  }

  // All Environment lines, in the order package, defaults, pod.
  lemma CompiledEnvironment(host: Host, pkg: seq<UnitOption>, c: Container, x: Context)
    requires ProperCommand(c)
    ensures Values(Compiled(host, pkg, c, x), "Service", "Environment")
         == Values(pkg, "Service", "Environment") + Environment(host, c)
  {
    EnvironmentOwner();
    CompiledValues(host, pkg, c, x, 10, "Service", "Environment");
    EnvironmentGroup(host, c, x, Words(host, pkg, c), Values(pkg, "Service", "Environment"));
  }

  // ---- The loop body itself, on unit files.

  lemma GroupsMore(opts: seq<UnitOption>, groups: seq<seq<Edit>>, g: nat)
    requires g < |groups|
    ensures ApplyGroups(opts, groups, g + 1) == Apply(ApplyGroups(opts, groups, g), groups[g])
  {
  }

  method EditGroups(u: File, groups: seq<seq<Edit>>) returns (r: File)
    requires u.Valid()
    requires |groups| > 0 && groups[|groups| - 1] != [] && !groups[|groups| - 1][|groups[|groups| - 1]| - 1].Del?
    modifies u, u.options
    ensures r.Valid() && (r == u || fresh(r)) && (r.options == old(u.options) || fresh(r.options))
    ensures r.Options() == ApplyGroups(old(u.Options()), groups, |groups|)
    ensures r.contents == MapOptions(r.Options())
  {
    r := u;
    for g := 0 to |groups|
      invariant r.Valid() && (r == u || fresh(r)) && (r.options == old(u.options) || fresh(r.options))
      invariant r.Options() == ApplyGroups(old(u.Options()), groups, g)
      invariant g == |groups| ==> r.contents == MapOptions(r.Options())
    {
      GroupsMore(old(u.Options()), groups, g);
      r := EditInTurn(r, groups[g]);
    }
  }

  // The first edits do not touch what the loop body then reads from the index.
  lemma FirstGroupsKeep(pkg: seq<UnitOption>, c: Container, section: string, name: string)
    requires Owner(section, name) > 1
    ensures Values(ApplyGroups(pkg, FirstGroups(c), 2), section, name) == Values(pkg, section, name)
  {
    FirstGroupsOwned(c);
    OtherGroup(WorkingDirEdits(c), 0, section, name);
    OtherGroup(PROTECT_EDITS, 1, section, name);
    OnlyGroup(pkg, FirstGroups(c), 2, 2, section, name);
  }

  lemma MiddleGroupsKeep(opts: seq<UnitOption>, x: Context, section: string, name: string)
    requires Owner(section, name) > 5
    ensures Values(ApplyGroups(opts, MiddleGroups(x), 4), section, name) == Values(opts, section, name)
  {
    MiddleGroupsOwned(x);
    OtherGroup(UserEdits(x.ids), 2, section, name);
    OtherGroup(InitEdits(x.isInit), 3, section, name);
    OtherGroup(AfterEdits(x.previousUnit), 4, section, name);
    OtherGroup(REMAIN_EDITS, 5, section, name);
    OnlyGroup(opts, MiddleGroups(x), 4, 4, section, name);
  }

  lemma LookupIsValues(opts: seq<UnitOption>, section: string, name: string)
    ensures Lookup(MapOptions(opts), section, name) == Values(opts, section, name)
  {
    MapOptionsIndexes(opts);
  }

  lemma GroupsInTurn(host: Host, pkg: seq<UnitOption>, c: Container, x: Context, words: seq<string>)
    ensures
      var groups := Groups(host, c, x, words);
      ApplyGroups(pkg, groups, |groups|)
      == ApplyGroups(ApplyGroups(ApplyGroups(pkg, FirstGroups(c), 2), MiddleGroups(x), 4),
                     LastGroups(host, c, x.pod, BindsOf(c.volumeMounts, x.vol), words), 5)
  {
    var first, middle := FirstGroups(c), MiddleGroups(x);
    var last := LastGroups(host, c, x.pod, BindsOf(c.volumeMounts, x.vol), words);
    GroupsInRounds(host, c, x, words);
    ApplyGroupsAppend(pkg, first, middle, 4);
    ApplyGroupsAppend(pkg, first + middle, last, 5);
  }

  // The user handling of the loop body.
  method MapUser(host: Host, carried: Ids, unitUser: seq<string>, unitGroup: seq<string>) returns (ids: Option<Ids>)
    ensures ids == Carry(carried, unitUser, unitGroup, host.accounts, host.overrideRootUID)
  {
    var hasRoot := false;
    if |unitUser| == 0 || unitUser[0] == "0" || unitUser[0] == "root" {
      hasRoot := true;
    }
    if |unitGroup| == 0 || unitGroup[0] == "0" || unitGroup[0] == "root" {
      hasRoot := true;
    }
    if carried.uid == "" && hasRoot && host.overrideRootUID > 0 {
      var mapuid := FormatInt(host.overrideRootUID);
      if mapuid !in host.accounts.byId {
        return None;
      }
      return Some(Ids(host.accounts.byId[mapuid].uid, host.accounts.byId[mapuid].gid));
    }
    return Some(carried);
  }

  // So the index shows the package's.
  lemma PackageLookup(pkg: seq<UnitOption>, c: Container, name: string)
    requires Owner("Service", name) > 1
    ensures Lookup(MapOptions(ApplyGroups(pkg, FirstGroups(c), 2)), "Service", name) == Values(pkg, "Service", name)
  {
    LookupIsValues(ApplyGroups(pkg, FirstGroups(c), 2), "Service", name);
    FirstGroupsKeep(pkg, c, "Service", name);
  }

  lemma UserLookup(pkg: seq<UnitOption>, c: Container)
    ensures
      var contents := MapOptions(ApplyGroups(pkg, FirstGroups(c), 2));
      && Lookup(contents, "Service", "User") == Values(pkg, "Service", "User")
      && Lookup(contents, "Service", "Group") == Values(pkg, "Service", "Group")
  {
    PackageLookup(pkg, c, "User");
    PackageLookup(pkg, c, "Group");
  }

  method ProtectUnit(host: Host, uf: File, c: Container, carried: Ids) returns (u: File, ids: Option<Ids>)
    requires uf.Valid()
    modifies uf, uf.options
    ensures u.Valid() && (u == uf || fresh(u)) && (u.options == old(uf.options) || fresh(u.options))
    ensures u.Options() == ApplyGroups(old(uf.Options()), FirstGroups(c), 2)
    ensures ids == CarryIds(host, old(uf.Options()), carried)
  {
    ghost var pkg := uf.Options();
    u := EditGroups(uf, FirstGroups(c));
    UserLookup(pkg, c);
    ids := MapUser(host, carried, Lookup(u.contents, "Service", "User"), Lookup(u.contents, "Service", "Group"));
  }

  lemma ExecStartKept(pkg: seq<UnitOption>, c: Container, x: Context)
    ensures Values(ApplyGroups(ApplyGroups(pkg, FirstGroups(c), 2), MiddleGroups(x), 4), "Service", "ExecStart")
         == Values(pkg, "Service", "ExecStart")
  {
    MiddleGroupsKeep(ApplyGroups(pkg, FirstGroups(c), 2), x, "Service", "ExecStart");
    FirstGroupsKeep(pkg, c, "Service", "ExecStart");
  }

  method PersonalizeUnit(host: Host, uf: File, ghost pkg: seq<UnitOption>, c: Container, x: Context) returns (u: File)
    requires uf.Valid() && ProperCommand(c)
    requires uf.Options() == ApplyGroups(pkg, FirstGroups(c), 2)
    modifies uf, uf.options
    ensures u.Valid() && u.Options() == Compiled(host, pkg, c, x)
    ensures u.contents == MapOptions(u.Options())
  {
    u := EditGroups(uf, MiddleGroups(x));
    LookupIsValues(u.Options(), "Service", "ExecStart");
    ExecStartKept(pkg, c, x);
    u := CompleteUnit(host, u, Lookup(u.contents, "Service", "ExecStart"), c, x);
    GroupsInTurn(host, pkg, c, x, Words(host, pkg, c));
  }

  // The edits from ExecStart on.
  method CompleteUnit(host: Host, uf: File, execStart: seq<string>, c: Container, x: Context) returns (u: File)
    requires uf.Valid() && ProperCommand(c)
    modifies uf, uf.options
    ensures u.Valid() && u.contents == MapOptions(u.Options())
    ensures u.Options() == ApplyGroups(old(uf.Options()),
              LastGroups(host, c, x.pod, BindsOf(c.volumeMounts, x.vol),
                ExecWords(execStart, c.command, c.args, host.lookPath)), 5)
  {
    var words := CommandAndArgs(execStart, c, host.lookPath);
    var binds := CollectBinds(c.volumeMounts, x.vol);
    LastGroupsEnd(host, c, x.pod, binds, words);
    u := EditGroups(uf, LastGroups(host, c, x.pod, binds, words));
  }

  lemma LastGroupsEnd(host: Host, c: Container, pod: Pod, binds: Binds, words: seq<string>)
    ensures
      var groups := LastGroups(host, c, pod, binds, words);
      |groups| == 5 && |groups[4]| >= 5 && !groups[4][|groups[4]| - 1].Del?
  {
  }

  // The loop body from the package's unit file to the Load call: None when the override user is missing.
  // At the end the index agrees with the options again, although the deletion left it stale.
  method BuildUnit(host: Host, uf: File, c: Container, x: Context) returns (r: Option<File>, ids: Ids)
    requires uf.Valid() && ProperCommand(c)
    modifies uf, uf.options
    ensures r.None? <==> CarryIds(host, old(uf.Options()), x.ids).None?
    ensures r.Some? ==>
      && Some(ids) == CarryIds(host, old(uf.Options()), x.ids)
      && r.value.Valid()
      && r.value.Options() == Compiled(host, old(uf.Options()), c, x.(ids := ids))
      && r.value.contents == MapOptions(r.value.Options())
  {
    ghost var pkg := uf.Options();
    var u, mapped := ProtectUnit(host, uf, c, x.ids);
    if mapped.None? {
      return None, x.ids;
    }
    ids := mapped.value;
    u := PersonalizeUnit(host, u, pkg, c, x.(ids := ids));
    return Some(u), ids;
  }
}
