// ConfigMap and Secret events over whole runs of the provider (internal/kubernetes/watch.go:95-127 and
// internal/provider/pod.go:382-390): who is told, what is brought up to date, and what is left alone.

module Events {
  import opened Strings
  import opened Kube
  import opened Users
  import opened Compile
  import opened PodUnits
  import opened Lifecycle
  import opened Provider
  import opened Mounted
  import opened Told
  import V = Volumes
  import WatchIndex

  // ---- Who is told.

  // After any run exactly the pods that were created in full with a volume that names the resource, if no pod that
  // had gone on record for it has been deleted since; each of them lives.
  lemma WhoIsTold(ops: seq<Op>, e: WatchIndex.Event, pod: Pod)
    requires IsRun(ops) && !e.OtherEvent?
    ensures pod in WatchIndex.Notified(Run(ops).watch, e) <==> StillWatched(WatchOps(ops), pod, e)
    ensures pod in WatchIndex.Notified(Run(ops).watch, e) ==>
      KeyOf(pod) in LiveRun(ops) && LiveRun(ops)[KeyOf(pod)].ok && LiveRun(ops)[KeyOf(pod)].pod == pod
  {
    WatchIsRun(ops);
    ToldExactly(WatchOps(ops), pod, e);
    if pod in WatchIndex.Notified(Run(ops).watch, e) {
      EventsReachLive(ops, e, pod);
    }
  }

  // ---- What is brought up to date.

  // The pod's file for that key of a ConfigMap that its volume i names.
  function ConfigMapFile(pod: Pod, i: nat, key: V.FileKey): V.Path {
    ["var", "run", pod.uid, "configmaps", "#" + Decimal(i), key]
  }

  function SecretFile(pod: Pod, i: nat, key: V.FileKey): V.Path {
    ["var", "run", pod.uid, "secrets", "#" + Decimal(i), key]
  }

  // All volumes of the pod that name the ConfigMap hold its keys, those aside that could be temporaries.
  ghost predicate HoldsConfigMap(tree: V.Tree, pod: Pod, k: Key, configMap: V.ConfigMap) {
    forall i, key: V.FileKey ::
      0 <= i < |pod.volumes| && Names(pod, pod.volumes[i], WatchIndex.ConfigMapEvent(k))
      && !HasSuffix(key, ".tmp") && ConfigMapBytes(configMap, key).Some?
      ==> V.NodeAt(tree, ConfigMapFile(pod, i, key), V.File(ConfigMapBytes(configMap, key).value))
  }

  ghost predicate HoldsSecret(tree: V.Tree, pod: Pod, k: Key, secret: V.Secret) {
    forall i, key: V.FileKey ::
      0 <= i < |pod.volumes| && Names(pod, pod.volumes[i], WatchIndex.SecretEvent(k))
      && !HasSuffix(key, ".tmp") && SecretBytes(secret, key).Some?
      ==> V.NodeAt(tree, SecretFile(pod, i, key), V.File(SecretBytes(secret, key).value))
  }

  lemma UpToDateAt(tree: V.Tree, cluster: V.Cluster, pod: Pod, i: nat, key: V.FileKey)
    requires i < |pod.volumes| && UpToDate(tree, cluster, pod, i) && !HasSuffix(key, ".tmp")
    requires BytesFor(cluster, pod.namespace, pod.volumes[i].source, key).Some?
    ensures V.NodeAt(tree, Location(pod, i) + [key],
                     V.File(BytesFor(cluster, pod.namespace, pod.volumes[i].source, key).value))
  {
  }

  lemma ConfigMapDelivered(host: Host, cluster: V.Cluster, pods: seq<Pod>, trees: seq<V.Tree>, before: V.Tree,
                           after: V.Tree, k: Key, j: nat)
    requires Refreshed(host, cluster, pods, V.OnlyConfigMaps, trees, before, after) && j < |pods|
    requires k in cluster.configMaps && V.Plain(pods[j].uid) && V.Unused(pods, j + 1, pods[j].uid)
    requires V.CanSetUp(trees[j], cluster, host.accounts, host.overrideRootUID, pods[j], V.OnlyConfigMaps)
    ensures HoldsConfigMap(after, pods[j], k, cluster.configMaps[k])
  {
    var pod := pods[j];
    forall i, key: V.FileKey |
      0 <= i < |pod.volumes| && Names(pod, pod.volumes[i], WatchIndex.ConfigMapEvent(k))
      && !HasSuffix(key, ".tmp") && ConfigMapBytes(cluster.configMaps[k], key).Some?
      ensures V.NodeAt(after, ConfigMapFile(pod, i, key), V.File(ConfigMapBytes(cluster.configMaps[k], key).value))
    {
      TurnLeavesUpToDate(trees, cluster, host.accounts, host.overrideRootUID, pods, V.OnlyConfigMaps, j, i);
      UpToDateAt(after, cluster, pod, i, key);
      assert Location(pod, i) + [key] == ConfigMapFile(pod, i, key);
    }
  }

  lemma SecretDelivered(host: Host, cluster: V.Cluster, pods: seq<Pod>, trees: seq<V.Tree>, before: V.Tree,
                        after: V.Tree, k: Key, j: nat)
    requires Refreshed(host, cluster, pods, V.OnlySecrets, trees, before, after) && j < |pods|
    requires k in cluster.secrets && V.Plain(pods[j].uid) && V.Unused(pods, j + 1, pods[j].uid)
    requires V.CanSetUp(trees[j], cluster, host.accounts, host.overrideRootUID, pods[j], V.OnlySecrets)
    ensures HoldsSecret(after, pods[j], k, cluster.secrets[k])
  {
    var pod := pods[j];
    forall i, key: V.FileKey |
      0 <= i < |pod.volumes| && Names(pod, pod.volumes[i], WatchIndex.SecretEvent(k))
      && !HasSuffix(key, ".tmp") && SecretBytes(cluster.secrets[k], key).Some?
      ensures V.NodeAt(after, SecretFile(pod, i, key), V.File(SecretBytes(cluster.secrets[k], key).value))
    {
      TurnLeavesUpToDate(trees, cluster, host.accounts, host.overrideRootUID, pods, V.OnlySecrets, j, i);
      UpToDateAt(after, cluster, pod, i, key);
      assert Location(pod, i) + [key] == SecretFile(pod, i, key);
    }
  }

  // After any run, and whatever fails for other pods: a pod that is told of a ConfigMap lives, and if its own refresh
  // does not fail (SetUpExactly), all its volumes that name the ConfigMap hold what the cluster has for it. It is told
  // in several turns if several of its volumes name it; the last one counts.
  lemma ConfigMapArrives(ops: seq<Op>, k: Key, host: Host, cluster: V.Cluster, trees: seq<V.Tree>, before: V.Tree,
                         after: V.Tree, j: nat)
    requires IsRun(ops) && j < |WatchIndex.Notified(Run(ops).watch, WatchIndex.ConfigMapEvent(k))|
    requires
      var pods := WatchIndex.Notified(Run(ops).watch, WatchIndex.ConfigMapEvent(k));
      && Refreshed(host, cluster, pods, V.OnlyConfigMaps, trees, before, after)
      && V.Plain(pods[j].uid) && V.Unused(pods, j + 1, pods[j].uid)
    ensures
      var pod := WatchIndex.Notified(Run(ops).watch, WatchIndex.ConfigMapEvent(k))[j];
      && KeyOf(pod) in LiveRun(ops) && LiveRun(ops)[KeyOf(pod)].ok && LiveRun(ops)[KeyOf(pod)].pod == pod
      && (k in cluster.configMaps
          && V.CanSetUp(trees[j], cluster, host.accounts, host.overrideRootUID, pod, V.OnlyConfigMaps)
          ==> HoldsConfigMap(after, pod, k, cluster.configMaps[k]))
  {
    var pods := WatchIndex.Notified(Run(ops).watch, WatchIndex.ConfigMapEvent(k));
    assert pods[j] in pods;
    WhoIsTold(ops, WatchIndex.ConfigMapEvent(k), pods[j]);
    if k in cluster.configMaps
       && V.CanSetUp(trees[j], cluster, host.accounts, host.overrideRootUID, pods[j], V.OnlyConfigMaps) {
      ConfigMapDelivered(host, cluster, pods, trees, before, after, k, j);
    }
  }

  lemma SecretArrives(ops: seq<Op>, k: Key, host: Host, cluster: V.Cluster, trees: seq<V.Tree>, before: V.Tree,
                      after: V.Tree, j: nat)
    requires IsRun(ops) && j < |WatchIndex.Notified(Run(ops).watch, WatchIndex.SecretEvent(k))|
    requires
      var pods := WatchIndex.Notified(Run(ops).watch, WatchIndex.SecretEvent(k));
      && Refreshed(host, cluster, pods, V.OnlySecrets, trees, before, after)
      && V.Plain(pods[j].uid) && V.Unused(pods, j + 1, pods[j].uid)
    ensures
      var pod := WatchIndex.Notified(Run(ops).watch, WatchIndex.SecretEvent(k))[j];
      && KeyOf(pod) in LiveRun(ops) && LiveRun(ops)[KeyOf(pod)].ok && LiveRun(ops)[KeyOf(pod)].pod == pod
      && (k in cluster.secrets
          && V.CanSetUp(trees[j], cluster, host.accounts, host.overrideRootUID, pod, V.OnlySecrets)
          ==> HoldsSecret(after, pod, k, cluster.secrets[k]))
  {
    var pods := WatchIndex.Notified(Run(ops).watch, WatchIndex.SecretEvent(k));
    assert pods[j] in pods;
    WhoIsTold(ops, WatchIndex.SecretEvent(k), pods[j]);
    if k in cluster.secrets
       && V.CanSetUp(trees[j], cluster, host.accounts, host.overrideRootUID, pods[j], V.OnlySecrets) {
      SecretDelivered(host, cluster, pods, trees, before, after, k, j);
    }
  }

  // ---- What is left alone.

  // After a ConfigMap event all files outside of ConfigMap volumes are as they were, and after a Secret event all
  // outside of Secret volumes, whatever failed; those aside that could be temporaries.
  lemma OthersLeftAlone(host: Host, cluster: V.Cluster, pods: seq<Pod>, which: V.Which, trees: seq<V.Tree>,
                        before: V.Tree, after: V.Tree, q: V.Path)
    requires Refreshed(host, cluster, pods, which, trees, before, after) && PlainUids(pods) && !V.Temporary(q)
    ensures which == V.OnlyConfigMaps && !Below(q, "configmaps") ==> SameFile(before, after, q)
    ensures which == V.OnlySecrets && !Below(q, "secrets") ==> SameFile(before, after, q)
  {
    if which == V.OnlyConfigMaps && !Below(q, "configmaps") {
      OtherFilesKept(before, after, cluster, pods, which, "configmaps", q);
    }
    if which == V.OnlySecrets && !Below(q, "secrets") {
      OtherFilesKept(before, after, cluster, pods, which, "secrets", q);
    }
  }

  lemma {:induction false} OfferedBy(cluster: V.Cluster, pods: seq<Pod>, which: V.Which, q: V.Path, data: V.Bytes)
    returns (j: nat)
    requires (q, data) in V.OffersFor(cluster, pods, which)
    ensures j < |pods| && (q, data) in V.OffersAfter(cluster, pods[j], which, |pods[j].volumes|)
  {
    if (q, data) in V.OffersAfter(cluster, pods[0], which, |pods[0].volumes|) {
      j := 0;
    } else {
      j := OfferedBy(cluster, pods[1..], which, q, data);
      j := j + 1;
    }
  }

  lemma OfferedAt(cluster: V.Cluster, pod: Pod, which: V.Which, i: nat, q: V.Path, data: V.Bytes)
    requires i < |pod.volumes| && (q, data) in V.OffersAt(cluster, pod, which, i)
    ensures V.DirOf(pod, i) < q && Fills(cluster, pod, which, i)
  {
    OutcomeMeans(cluster, pod, which, i);
    V.FilledOffers(cluster, pod, which, i);
  }

  lemma {:induction false} OfferedIn(cluster: V.Cluster, pod: Pod, which: V.Which, n: nat, q: V.Path, data: V.Bytes)
    returns (i: nat)
    requires n <= |pod.volumes| && (q, data) in V.OffersAfter(cluster, pod, which, n)
    ensures i < n && V.DirOf(pod, i) < q && Fills(cluster, pod, which, i)
  {
    if (q, data) in V.OffersAt(cluster, pod, which, n - 1) {
      i := n - 1;
      OfferedAt(cluster, pod, which, i, q, data);
    } else {
      i := OfferedIn(cluster, pod, which, n - 1, q, data);
    }
  }

  // Below the directory of a volume of that kind.
  predicate UnderVolume(pod: Pod, q: V.Path, e: WatchIndex.Event) {
    exists i :: 0 <= i < |pod.volumes| && V.DirOf(pod, i) < q
                && (if e.ConfigMapEvent? then pod.volumes[i].source.ConfigMapSource?
                    else pod.volumes[i].source.SecretSource?)
  }

  predicate UnderLive(live: Live, q: V.Path, e: WatchIndex.Event) {
    exists key :: key in live && live[key].ok && UnderVolume(live[key].pod, q, e)
  }

  // After any run, an event that is handled with no DeletePod in between publishes files only in the volume
  // directories of that kind of live pods created in full. One that a DeletePod overtakes may go on to tell the pod
  // that is gone (WatchSlices.LateDelivery), whose directories then come back (Volumes.RefreshAfterClean).
  lemma EventsWriteForLive(ops: seq<Op>, e: WatchIndex.Event, which: V.Which, cluster: V.Cluster, q: V.Path,
                           data: V.Bytes)
    requires IsRun(ops) && !e.OtherEvent? && which == (if e.ConfigMapEvent? then V.OnlyConfigMaps else V.OnlySecrets)
    requires (q, data) in V.OffersFor(cluster, WatchIndex.Notified(Run(ops).watch, e), which)
    ensures UnderLive(LiveRun(ops), q, e)
  {
    var pods := WatchIndex.Notified(Run(ops).watch, e);
    var j := OfferedBy(cluster, pods, which, q, data);
    var i := OfferedIn(cluster, pods[j], which, |pods[j].volumes|, q, data);
    EventsReachLive(ops, e, pods[j]);
    assert UnderVolume(pods[j], q, e);
  }
}
