// CreatePod and GetPod as a whole (internal/provider/pod.go:23-34 and 67-252), by the fields of the pod, the objects
// of the cluster and what systemd says of the units.

module Overall {
  import opened Strings
  import opened Kube
  import opened UnitText
  import opened Naming
  import opened Users
  import opened Compile
  import opened PodUnits
  import opened Phase
  import opened Recover
  import opened Lifecycle
  import opened Observed
  import opened Units
  import opened Provider
  import opened Mounted
  import V = Volumes

  // ---- When CreatePod succeeds.

  // The user that the security context asks for is known, and so is the one that takes the place of root where that is
  // called for.
  predicate UserFound(host: Host, pod: Pod) {
    pod.securityContext.Some? ==>
      var s := pod.securityContext.value;
      && !NoAccount(s, host.accounts)
      && (Remapped(s, host.accounts, host.overrideRootUID) ==> FormatInt(host.overrideRootUID) in host.accounts.byId)
  }

  // Every package installs and has a unit file that parses; if no user is asked for and a unit would run as root
  // where that is to be overridden, the account for that exists.
  predicate UnitsFound(host: Host, pod: Pod, ids: Ids) {
    var n := |AllContainers(pod)|;
    && AllProvided(host, AllContainers(pod), n)
    && (Overridden(host, AllContainers(pod), ids, n) ==> FormatInt(host.overrideRootUID) in host.accounts.byId)
  }

  ghost predicate VolumesFine(tree: V.Tree, cluster: V.Cluster, pod: Pod) {
    forall i :: 0 <= i < |pod.volumes| ==> !Stands(tree, cluster, pod, V.All, i)
  }

  // What Provider.CreatePod asks for when it says that it succeeds.
  lemma CreatedExactly(host: Host, tree: V.Tree, cluster: V.Cluster, pod: Pod)
    requires V.Plain(pod.uid)
    ensures Resolve(pod.securityContext, host.accounts, host.overrideRootUID).Some? <==> UserFound(host, pod)
    ensures UserFound(host, pod) ==>
      var ids := Resolve(pod.securityContext, host.accounts, host.overrideRootUID).value;
      && (V.CanSetUp(tree, cluster, host.accounts, host.overrideRootUID, pod, V.All)
          <==> VolumesFine(tree, cluster, pod))
      && (Succeeds(host, pod, ids, |AllContainers(pod)|) <==> UnitsFound(host, pod, ids))
    ensures !UserFound(host, pod) ==>
      !V.CanSetUp(tree, cluster, host.accounts, host.overrideRootUID, pod, V.All)
  {
    ResolvedFails(pod.securityContext, host.accounts, host.overrideRootUID);
    SetUpExactly(tree, cluster, host.accounts, host.overrideRootUID, pod, V.All);
    if UserFound(host, pod) {
      var ids := Resolve(pod.securityContext, host.accounts, host.overrideRootUID).value;
      LoopCarries(host, AllContainers(pod), ids, |AllContainers(pod)|);
    }
  }

  // ---- What a mount of one of the pod's volumes becomes.

  // A mount is listed iff a volume of its name has been set up; the last one of that name counts. It is listed with
  // the volume's directory, and a host path with none.
  lemma MountOfVolume(cluster: V.Cluster, pod: Pod, m: VolumeMount, v: nat)
    requires V.Plain(pod.uid)
    ensures
      var vol := V.MountsAfter(cluster, pod, V.All, |pod.volumes|);
      && (m.name in vol
          <==> exists i :: 0 <= i < |pod.volumes| && pod.volumes[i].name == m.name && Entered(cluster, pod, V.All, i))
      && (LastEntered(cluster, pod, V.All, |pod.volumes|, v, m.name) ==>
            && (Listed(Compile.ReadOnly, m, vol) <==> m.readOnly)
            && (Listed(Compile.ReadWrite, m, vol) <==> !m.readOnly)
            && (Listed(Compile.Bound, m, vol) <==> !m.readOnly && pod.volumes[v].source != HostPath)
            && EntryFor(Compile.ReadOnly, m, vol)
              == (if pod.volumes[v].source == HostPath then "" else LocationText(pod, v)) + ":" + m.mountPath)
  {
    MountsMean(cluster, pod, V.All, |pod.volumes|, m.name);
  }

  // ---- What GetPod shows.

  // The units that GetPod selects, with their texts and what systemd says of them.
  predicate AsReported(stats: map<string, UnitState>, units: map<string, string>, properties: string -> Properties) {
    forall k :: k in stats ==>
      && k in units && stats[k].unitData == units[k] && stats[k].subState == properties(k).subState
      && stats[k].execMainStatus == properties(k).execMainStatus
      && stats[k].execMainExitTimestamp == properties(k).execMainExitTimestamp
  }

  lemma StatesReported(units: map<string, string>, properties: string -> Properties, prefix: string)
    ensures AsReported(UnitStates(units, properties, prefix), units, properties)
  {
  }

  lemma StoredNames(host: Host, pod: Pod, vol: map<string, string>, ids: Ids, stats: map<string, UnitState>)
    requires Storable(host, pod, vol, ids) && Stored(host, pod, vol, ids, stats)
    ensures forall k :: k in UnitNames(pod) ==> k in stats
  {
    forall k | k in UnitNames(pod)
      ensures k in stats
    {
      var i :| 0 <= i < |UnitNames(pod)| && UnitNames(pod)[i] == k;
      assert StorableAt(host, pod, vol, ids, i) && StoredAt(host, pod, vol, ids, stats, i);
    }
  }

  lemma CountsRestored(found: FoundPod, pod: Pod, stats: map<string, UnitState>, readings: seq<Reading>)
    requires |readings| == |AllContainers(pod)| && Restores(found, pod, stats, readings)
    ensures |found.statuses.init| == |pod.initContainers| && |found.statuses.ordinary| == |pod.containers|
  {
    var statuses := AllStatuses(stats, pod, readings);
    assert |multiset(found.statuses.init)| == |multiset(Part(pod, statuses, true))|;
    assert |multiset(found.statuses.ordinary)| == |multiset(Part(pod, statuses, false))|;
  }

  // Under what GetPodRecovers asks for: the pod that comes back has one status for each container, in the right list,
  // with the state that systemd's sub-state for its unit stands for; and the phase that the sub-states of its ordinary
  // containers' units make.
  lemma GetPodShows(ops: seq<Op>, key: Key, properties: string -> Properties, host: Host, vol: map<string, string>,
                    ids: Ids, first: string, order: seq<string>, statusOrder: seq<string>)
    requires IsRun(ops) && key in LiveRun(ops) && LiveRun(ops)[key].ok && Alone(LiveRun(ops), key)
    requires Storable(host, LiveRun(ops)[key].pod, vol, ids)
    requires Compiles(host, LiveRun(ops)[key].pod, vol, ids, LiveRun(ops)[key].texts)
    requires
      var stats := UnitStates(Run(ops).units, properties, GetPodPrefix(key));
      first in stats && Enumerates(order, stats.Keys) && Enumerates(statusOrder, stats.Keys)
    ensures
      var pod, stats := LiveRun(ops)[key].pod, UnitStates(Run(ops).units, properties, GetPodPrefix(key));
      && PodFrom(stats, first, order, statusOrder).Found? && AsReported(stats, Run(ops).units, properties)
      && (forall k :: k in UnitNames(pod) ==> k in stats)
      && (var found := PodFrom(stats, first, order, statusOrder).pod;
          && |found.statuses.init| == |pod.initContainers| && |found.statuses.ordinary| == |pod.containers|
          && (forall i :: 0 <= i < |AllContainers(pod)| ==> ShownAt(found, pod, stats, i))
          && PhaseTells(found.phase, OrdinaryUnits(stats, pod)))
  {
    var pod, stats := LiveRun(ops)[key].pod, UnitStates(Run(ops).units, properties, GetPodPrefix(key));
    StoredInRun(ops, key, properties, host, vol, ids);
    StoredNames(host, pod, vol, ids, stats);
    GetPodRecovers(ops, key, properties, host, vol, ids, first, order, statusOrder);
    StatesReported(Run(ops).units, properties, GetPodPrefix(key));
    var found := PodFrom(stats, first, order, statusOrder).pod;
    CountsRestored(found, pod, stats, Readings(host, pod));
    RestoredPhase(found, pod, stats, Readings(host, pod));
    forall i | 0 <= i < |AllContainers(pod)|
      ensures ShownAt(found, pod, stats, i)
    {
      assert UnitNames(pod)[i] == UnitName(pod, i);
      RestoredShown(found, pod, stats, Readings(host, pod), i);
    }
  }
}
