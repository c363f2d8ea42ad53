// The container loop of CreatePod (internal/provider/pod.go:88-243): which units a pod becomes.

module PodUnits {
  import opened Strings
  import opened Kube
  import opened UnitFile
  import opened UnitText
  import opened Naming
  import opened Users
  import opened CommandLine
  import opened Compile

  // The unit synthesized for packages without one (internal/provider/unit.go:277-286).
  function SynthOption(k: nat): UnitOption {
    if k == 0 then UnitOption("Unit", "Description", "systemk")
    else if k == 1 then UnitOption("Unit", "Documentation", "man:systemk(8)")
    else if k == 2 then UnitOption("Service", "ExecStart", "")
    else UnitOption("Install", "WantedBy", "multi-user.target")
  }

  function SynthOptions(): seq<UnitOption> {
    seq(4, k requires 0 <= k < 4 => SynthOption(k))
  }

  // None: the unit file does not parse.
  function PackageOptions(host: Host, image: string): Option<seq<UnitOption>> {
    if image in host.unitTexts then Parse(host.unitTexts[image]) else Some(SynthOptions())
  }

  function AllContainers(pod: Pod): seq<Container> {
    pod.initContainers + pod.containers
  }

  // A command that is given is not empty: the source indexes its first word.
  predicate ProperPod(pod: Pod) {
    forall i :: 0 <= i < |AllContainers(pod)| ==> ProperCommand(AllContainers(pod)[i])
  }

  function UnitName(pod: Pod, i: nat): string
    requires i < |AllContainers(pod)|
  {
    PodToUnitName(KeyOf(pod), AllContainers(pod)[i].name)
  }

  function UnitNames(pod: Pod): seq<string> {
    seq(|AllContainers(pod)|, i requires 0 <= i < |AllContainers(pod)| => UnitName(pod, i))
  }

  // The ids the loop carries past a container; None: this iteration returns an error.
  function NextIds(host: Host, c: Container, ids: Ids): Option<Ids> {
    var pkg := PackageOptions(host, Clean(host, c.image));
    if c.image in host.failing || pkg.None? then None else CarryIds(host, pkg.value, ids)
  }

  function IdsAfter(host: Host, containers: seq<Container>, ids: Ids, n: nat): Option<Ids>
    requires n <= |containers|
  {
    if n == 0 then Some(ids)
    else
      var before := IdsAfter(host, containers, ids, n - 1);
      if before.None? then None else NextIds(host, containers[n - 1], before.value)
  }

  lemma {:induction false} IdsBefore(host: Host, containers: seq<Container>, ids: Ids, m: nat, n: nat)
    requires m <= n <= |containers| && IdsAfter(host, containers, ids, n).Some?
    ensures IdsAfter(host, containers, ids, m).Some?
  {
    if m < n {
      IdsBefore(host, containers, ids, m, n - 1);
    }
  }

  // ---- Init ordering.

  // The unit that unit i is ordered after: the last init unit before it, if any.
  function Predecessor(pod: Pod, i: nat): Option<nat> {
    var k := if i < |pod.initContainers| then i else |pod.initContainers|;
    if k == 0 then None else Some(k - 1)
  }

  function PreviousUnit(pod: Pod, i: nat): string {
    match Predecessor(pod, i)
    case None => ""
    case Some(j) => UnitName(pod, j)
  }

  // The transitive closure of the edges.
  predicate OrderedAfter(pod: Pod, i: nat, j: nat)
    decreases i
  {
    match Predecessor(pod, i)
    case None => false
    case Some(k) => k == j || (k < i && OrderedAfter(pod, k, j))
  }

  // Init units are ordered in spec order, every ordinary unit after every init unit, ordinary units
  // not among themselves; in particular there is no cycle, and every edge leads to an earlier unit.
  lemma {:induction false} InitOrder(pod: Pod, i: nat, j: nat)
    ensures OrderedAfter(pod, i, j) <==> j < i && j < |pod.initContainers|
    ensures Predecessor(pod, i) == Some(j) ==> j < i && j < |pod.initContainers|
    decreases i
  {
    if Predecessor(pod, i).Some? {
      InitOrder(pod, Predecessor(pod, i).value, j);
    }
  }

  // ---- The units.

  function ContextAt(pod: Pod, vol: map<string, string>, i: nat, ids: Ids): Context {
    Context(pod, vol, i < |pod.initContainers|, PreviousUnit(pod, i), ids)
  }

  predicate Succeeds(host: Host, pod: Pod, ids: Ids, n: nat) {
    n <= |AllContainers(pod)| && IdsAfter(host, AllContainers(pod), ids, n).Some?
  }

  // The options of unit i, when the loop got past container i.
  function UnitAt(host: Host, pod: Pod, vol: map<string, string>, ids: Ids, i: nat): seq<UnitOption>
    requires ProperPod(pod) && Succeeds(host, pod, ids, i + 1)
  {
    var c := AllContainers(pod)[i];
    Compiled(host, PackageOf(host, pod, ids, i), c,
      ContextAt(pod, vol, i, IdsAfter(host, AllContainers(pod), ids, i + 1).value))
  }

  function PackageOf(host: Host, pod: Pod, ids: Ids, i: nat): seq<UnitOption>
    requires Succeeds(host, pod, ids, i + 1)
  {
    PackageOptions(host, Clean(host, AllContainers(pod)[i].image)).value
  }

  lemma UnitNameNotEmpty(pod: Pod, i: nat)
    requires i < |AllContainers(pod)|
    ensures UnitName(pod, i) != ""
  {
    assert |UnitName(pod, i)| >= |SERVICE_SUFFIX|;
  }

  // The After options CreatePod adds are exactly the edges.
  lemma AfterEdges(host: Host, pod: Pod, vol: map<string, string>, ids: Ids, i: nat)
    requires ProperPod(pod) && Succeeds(host, pod, ids, i + 1)
    ensures Values(UnitAt(host, pod, vol, ids, i), "Unit", "After")
         == Values(PackageOf(host, pod, ids, i), "Unit", "After")
            + (match Predecessor(pod, i) case None => [] case Some(j) => [UnitName(pod, j)])
  {
    var x := ContextAt(pod, vol, i, IdsAfter(host, AllContainers(pod), ids, i + 1).value);
    CompiledAfter(host, PackageOf(host, pod, ids, i), AllContainers(pod)[i], x);
    if Predecessor(pod, i).Some? {
      UnitNameNotEmpty(pod, Predecessor(pod, i).value);
    }
  }

  // ---- Root mapping over the whole loop.

  lemma {:induction false} CarriedNotRoot(host: Host, containers: seq<Container>, ids: Ids, n: nat)
    requires n <= |containers| && IdsAfter(host, containers, ids, n).Some?
    requires Consistent(host.accounts) && host.overrideRootUID > 0 && !RootName(ids.uid) && OneLine(ids.uid)
    ensures !RootName(IdsAfter(host, containers, ids, n).value.uid)
    ensures OneLine(IdsAfter(host, containers, ids, n).value.uid)
  {
    if n > 0 {
      CarriedNotRoot(host, containers, ids, n - 1);
      NextNotRoot(host, containers[n - 1], IdsAfter(host, containers, ids, n - 1).value);
    }
  }

  lemma NextNotRoot(host: Host, c: Container, ids: Ids)
    requires NextIds(host, c, ids).Some?
    requires Consistent(host.accounts) && host.overrideRootUID > 0 && !RootName(ids.uid) && OneLine(ids.uid)
    ensures !RootName(NextIds(host, c, ids).value.uid) && OneLine(NextIds(host, c, ids).value.uid)
    ensures
      var pkg := PackageOptions(host, Clean(host, c.image)).value;
      var user, group := Values(pkg, "Service", "User"), Values(pkg, "Service", "Group");
      RunsAsRoot(FinalUser(NextIds(host, c, ids).value, user))
      <==> ids.uid == "" && !LooksRoot(user) && !LooksRoot(group) && RunsAsRoot(user)
  {
    var pkg := PackageOptions(host, Clean(host, c.image)).value;
    CarryNotRoot(ids, Values(pkg, "Service", "User"), Values(pkg, "Service", "Group"), host.accounts,
      host.overrideRootUID);
  }
}
