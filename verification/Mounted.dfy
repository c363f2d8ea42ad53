// What volumes leaves on disk (internal/provider/volumes.go:35-255), by the fields of the pod and the objects of the
// cluster: which volumes are set up, which are refused, where their files are and what is in them.

module Mounted {
  import opened Strings
  import opened Kube
  import opened Users
  import opened Volumes

  // ---- Which volumes are set up, and which are refused.

  predicate ForConfigMaps(which: Which) { which == All || which == OnlyConfigMaps }
  predicate ForSecrets(which: Which) { which == All || which == OnlySecrets }

  // The volume gets a directory with files.
  predicate Fills(cluster: Cluster, pod: Pod, which: Which, i: nat)
    requires i < |pod.volumes|
  {
    match pod.volumes[i].source
    case HostPath => false
    case EmptyDir => which == All
    case SecretSource(name, _) => ForSecrets(which) && NamespacedName(pod.namespace, name) in cluster.secrets
    case ConfigMapSource(name, _) => ForConfigMaps(which) && NamespacedName(pod.namespace, name) in cluster.configMaps
    case Unsupported => false
  }

  // It is an error: an absent resource that is declared not to be optional, a Secret with StringData that is not
  // base64, or a kind of volume that is not supported.
  predicate Refuses(cluster: Cluster, pod: Pod, which: Which, i: nat)
    requires i < |pod.volumes|
  {
    match pod.volumes[i].source
    case HostPath => false
    case EmptyDir => false
    case SecretSource(name, optional) =>
      var key := NamespacedName(pod.namespace, name);
      ForSecrets(which)
      && (if key in cluster.secrets then exists k :: k in cluster.secrets[key].stringData
                                                     && cluster.secrets[key].stringData[k] == None
          else optional == Some(false))
    case ConfigMapSource(name, optional) =>
      ForConfigMaps(which) && NamespacedName(pod.namespace, name) !in cluster.configMaps && optional == Some(false)
    case Unsupported => true
  }

  // A host path is only entered in the volume map.
  predicate HostMounted(pod: Pod, which: Which, i: nat)
    requires i < |pod.volumes|
  {
    pod.volumes[i].source == HostPath && which == All
  }

  lemma OutcomeMeans(cluster: Cluster, pod: Pod, which: Which, i: nat)
    requires i < |pod.volumes|
    ensures OutcomeAt(cluster, pod, which, i).Filled? <==> Fills(cluster, pod, which, i)
    ensures OutcomeAt(cluster, pod, which, i).HostMount? <==> HostMounted(pod, which, i)
  {
  }

  lemma PlainlyDecodes(files: Files)
    ensures Decodes(Plainly(files)) && Decoded(Plainly(files)) == files
  {
  }

  lemma RefusedMeans(cluster: Cluster, pod: Pod, which: Which, i: nat)
    requires i < |pod.volumes|
    ensures RefusedAt(cluster, pod, which, i) <==> Refuses(cluster, pod, which, i)
  {
    match pod.volumes[i].source
    case SecretSource(name, _) =>
      var key := NamespacedName(pod.namespace, name);
      if key in cluster.secrets {
        PlainlyDecodes(cluster.secrets[key].data);
      }
    case ConfigMapSource(name, _) =>
      var key := NamespacedName(pod.namespace, name);
      if key in cluster.configMaps {
        PlainlyDecodes(cluster.configMaps[key].data);
        PlainlyDecodes(cluster.configMaps[key].binaryData);
      }
    case _ =>
  }

  // ---- Where they are.

  function DirName(source: VolumeSource): string {
    match source
    case SecretSource(_, _) => "secrets"
    case ConfigMapSource(_, _) => "configmaps"
    case _ => "emptydirs"
  }

  // /var/run/<uid>/<kind>/#<index>
  function Location(pod: Pod, i: nat): Path
    requires i < |pod.volumes|
  {
    ["var", "run", pod.uid, DirName(pod.volumes[i].source), "#" + Decimal(i)]
  }

  lemma DirLocation(pod: Pod, i: nat)
    requires Plain(pod.uid) && i < |pod.volumes|
    ensures DirOf(pod, i) == Location(pod, i)
  {
    DirOfShape(pod, i);
  }

  function LocationText(pod: Pod, i: nat): string
    requires i < |pod.volumes|
  {
    "/var/run/" + (pod.uid + ("/" + (DirName(pod.volumes[i].source) + ("/#" + Decimal(i)))))
  }

  lemma JoinFive(a: string, b: string, c: string, d: string, e: string)
    ensures Join([a, b, c, d, e], "/") == a + "/" + (b + "/" + (c + "/" + (d + "/" + e)))
  {
    assert [a, b, c, d, e][1..] == [b, c, d, e] && [b, c, d, e][1..] == [c, d, e] && [c, d, e][1..] == [d, e];
    assert [d, e][1..] == [e];
    assert Join([d, e], "/") == d + "/" + e;
    assert Join([c, d, e], "/") == c + "/" + (d + "/" + e);
    assert Join([b, c, d, e], "/") == b + "/" + (c + "/" + (d + "/" + e));
  }

  lemma LocationWritten(pod: Pod, i: nat)
    requires i < |pod.volumes|
    ensures PathText(Location(pod, i)) == LocationText(pod, i)
  {
    var kind, n := DirName(pod.volumes[i].source), Decimal(i);
    JoinFive("var", "run", pod.uid, kind, "#" + n);
    assert kind + "/" + ("#" + n) == kind + ("/#" + n);
    assert pod.uid + "/" + (kind + ("/#" + n)) == pod.uid + ("/" + (kind + ("/#" + n)));
    var rest := pod.uid + ("/" + (kind + ("/#" + n)));
    assert "/" + ("var" + "/" + ("run" + "/" + rest)) == "/var/run/" + rest;
  }

  // ---- What is in them.

  // A Secret's Data counts before its StringData, and a ConfigMap's BinaryData before its Data.
  function SecretBytes(secret: Secret, key: FileKey): Option<Bytes> {
    if key in secret.data then Some(secret.data[key])
    else if key in secret.stringData then secret.stringData[key]
    else None
  }

  function ConfigMapBytes(configMap: ConfigMap, key: FileKey): Option<Bytes> {
    if key in configMap.binaryData then Some(configMap.binaryData[key])
    else if key in configMap.data then Some(configMap.data[key])
    else None
  }

  // The bytes that are to be in a volume's file of that name.
  function BytesFor(cluster: Cluster, namespace: string, source: VolumeSource, key: FileKey): Option<Bytes> {
    match source
    case SecretSource(name, _) =>
      var k := NamespacedName(namespace, name);
      if k in cluster.secrets then SecretBytes(cluster.secrets[k], key) else None
    case ConfigMapSource(name, _) =>
      var k := NamespacedName(namespace, name);
      if k in cluster.configMaps then ConfigMapBytes(cluster.configMaps[k], key) else None
    case _ => None
  }

  lemma FilesMean(cluster: Cluster, pod: Pod, which: Which, i: nat, key: FileKey)
    requires i < |pod.volumes| && Fills(cluster, pod, which, i)
    ensures OutcomeAt(cluster, pod, which, i).Filled?
    ensures
      var files := FilesOf(OutcomeAt(cluster, pod, which, i));
      BytesFor(cluster, pod.namespace, pod.volumes[i].source, key)
      == if key in files then Some(files[key]) else None
  {
    match pod.volumes[i].source
    case SecretSource(name, _) =>
      PlainlyDecodes(cluster.secrets[NamespacedName(pod.namespace, name)].data);
    case ConfigMapSource(name, _) =>
      PlainlyDecodes(cluster.configMaps[NamespacedName(pod.namespace, name)].data);
      PlainlyDecodes(cluster.configMaps[NamespacedName(pod.namespace, name)].binaryData);
    case _ =>
  }

  // After a run every volume that is set up has its directory, and in it a file for each key with these bytes;
  // under other names there is what there was before.
  lemma VolumeOnDisk(tree: Tree, cluster: Cluster, pod: Pod, which: Which, i: nat, key: FileKey)
    requires Plain(pod.uid) && i < |pod.volumes| && Fills(cluster, pod, which, i)
    ensures
      var t := TreeAfter(tree, cluster, pod, which, |pod.volumes|);
      && NodeAt(t, Location(pod, i), Dir)
      && match BytesFor(cluster, pod.namespace, pod.volumes[i].source, key)
         case Some(bytes) => NodeAt(t, Location(pod, i) + [key], File(bytes))
         case None => SameAt(tree, t, Location(pod, i) + [key])
  {
    DirLocation(pod, i);
    FilesMean(cluster, pod, which, i, key);
    DirectoryMade(tree, cluster, pod, which, i);
    if key in FilesOf(OutcomeAt(cluster, pod, which, i)) {
      CurrentData(tree, cluster, pod, which, i, key);
    } else {
      RemovedKeyStays(tree, cluster, pod, which, i, key);
    }
  }

  lemma DirectoryMade(tree: Tree, cluster: Cluster, pod: Pod, which: Which, i: nat)
    requires Plain(pod.uid) && i < |pod.volumes| && OutcomeAt(cluster, pod, which, i).Filled?
    ensures NodeAt(TreeAfter(tree, cluster, pod, which, |pod.volumes|), DirOf(pod, i), Dir)
  {
    var q := DirOf(pod, i);
    DirOfShape(pod, i);
    forall j | 0 <= j < |pod.volumes|
      ensures !FileAt(cluster, pod, which, j, q)
    {
      DirOfShape(pod, j);
    }
    assert AsksDir(cluster, pod, which, |pod.volumes|, q);
    TreeAfterOther(tree, cluster, pod, which, |pod.volumes|, q);
  }

  // ---- The volume map.

  // Volume i has an entry.
  predicate Entered(cluster: Cluster, pod: Pod, which: Which, i: nat)
    requires i < |pod.volumes|
  {
    Fills(cluster, pod, which, i) || HostMounted(pod, which, i)
  }

  // The last of the first n volumes of that name that has one.
  predicate LastEntered(cluster: Cluster, pod: Pod, which: Which, n: nat, i: nat, name: string)
    requires n <= |pod.volumes|
  {
    && i < n && pod.volumes[i].name == name && Entered(cluster, pod, which, i)
    && forall j :: i < j < n && pod.volumes[j].name == name ==> !Entered(cluster, pod, which, j)
  }

  function EntryOf(pod: Pod, i: nat): string
    requires i < |pod.volumes|
  {
    if pod.volumes[i].source == HostPath then "" else LocationText(pod, i)
  }

  lemma MountsStepMeans(mounts: map<string, string>, cluster: Cluster, pod: Pod, which: Which, i: nat)
    requires Plain(pod.uid) && i < |pod.volumes|
    ensures MountsStep(mounts, cluster, pod, which, i)
      == if Entered(cluster, pod, which, i) then mounts[pod.volumes[i].name := EntryOf(pod, i)] else mounts
  {
    OutcomeMeans(cluster, pod, which, i);
    DirLocation(pod, i);
    LocationWritten(pod, i);
  }

  lemma {:induction false} MountsHave(cluster: Cluster, pod: Pod, which: Which, n: nat, name: string)
    requires Plain(pod.uid) && n <= |pod.volumes|
    ensures name in MountsAfter(cluster, pod, which, n)
      <==> exists i :: 0 <= i < n && pod.volumes[i].name == name && Entered(cluster, pod, which, i)
  {
    if n > 0 {
      MountsHave(cluster, pod, which, n - 1, name);
      MountsStepMeans(MountsAfter(cluster, pod, which, n - 1), cluster, pod, which, n - 1);
    }
  }

  lemma {:induction false} LastEntryCounts(cluster: Cluster, pod: Pod, which: Which, n: nat, i: nat, name: string)
    requires Plain(pod.uid) && n <= |pod.volumes| && LastEntered(cluster, pod, which, n, i, name)
    ensures name in MountsAfter(cluster, pod, which, n) && MountsAfter(cluster, pod, which, n)[name] == EntryOf(pod, i)
  {
    MountsStepMeans(MountsAfter(cluster, pod, which, n - 1), cluster, pod, which, n - 1);
    if i < n - 1 {
      LastEntryCounts(cluster, pod, which, n - 1, i, name);
    }
  }

  // A name is in the map iff a volume of that name has an entry, and the last such volume decides: nothing for a host
  // path, and the volume's directory for the others.
  lemma MountsMean(cluster: Cluster, pod: Pod, which: Which, n: nat, name: string)
    requires Plain(pod.uid) && n <= |pod.volumes|
    ensures
      var mounts := MountsAfter(cluster, pod, which, n);
      && (name in mounts <==> exists i :: 0 <= i < n && pod.volumes[i].name == name && Entered(cluster, pod, which, i))
      && forall i :: 0 <= i < n && LastEntered(cluster, pod, which, n, i, name) ==> mounts[name] == EntryOf(pod, i)
  {
    MountsHave(cluster, pod, which, n, name);
    forall i | 0 <= i < n && LastEntered(cluster, pod, which, n, i, name)
      ensures MountsAfter(cluster, pod, which, n)[name] == EntryOf(pod, i)
    {
      LastEntryCounts(cluster, pod, which, n, i, name);
    }
  }

  // ---- Exactly when the volumes can be set up.

  // A file where the volume's directory or one above it is to be, or a directory where one of its files is to be.
  ghost predicate Obstructed(tree: Tree, cluster: Cluster, pod: Pod, i: nat)
    requires i < |pod.volumes|
  {
    || FileAbove(tree, Location(pod, i))
    || exists key: FileKey :: BytesFor(cluster, pod.namespace, pod.volumes[i].source, key).Some?
                     && NodeAt(tree, Location(pod, i) + [key], Dir)
  }

  predicate NoFileAboveBefore(tree: Tree, cluster: Cluster, pod: Pod, which: Which, n: nat)
    requires n <= |pod.volumes|
  {
    forall j :: 0 <= j < n && OutcomeAt(cluster, pod, which, j).Filled? ==> !FileAbove(tree, DirOf(pod, j))
  }

  // What the earlier volumes make is in the way of none, and out of the way of none.
  lemma NodeOnTheWay(tree: Tree, cluster: Cluster, pod: Pod, which: Which, i: nat, n: nat)
    requires Plain(pod.uid) && i < |pod.volumes| && 0 < n <= |DirOf(pod, i)|
    requires NoFileAboveBefore(tree, cluster, pod, which, i)
    ensures
      var q, t := DirOf(pod, i)[..n], TreeAfter(tree, cluster, pod, which, i);
      (q in t && t[q].File?) <==> (q in tree && tree[q].File?)
  {
    var q := DirOf(pod, i)[..n];
    forall j | 0 <= j < i
      ensures !FileAt(cluster, pod, which, j, q)
    {
      if FileAt(cluster, pod, which, j, q) {
        FilePathsApart(cluster, pod, which, j, i, q);
      }
    }
    TreeAfterOther(tree, cluster, pod, which, i, q);
    if AsksDir(cluster, pod, which, i, q) {
      var j :| 0 <= j < i && OutcomeAt(cluster, pod, which, j).Filled? && q != [] && q <= DirOf(pod, j);
      assert q == DirOf(pod, j)[..n];
    }
  }

  lemma FileAboveKept(tree: Tree, cluster: Cluster, pod: Pod, which: Which, i: nat)
    requires Plain(pod.uid) && i < |pod.volumes| && NoFileAboveBefore(tree, cluster, pod, which, i)
    ensures FileAbove(TreeAfter(tree, cluster, pod, which, i), DirOf(pod, i)) <==> FileAbove(tree, DirOf(pod, i))
  {
    var t, d := TreeAfter(tree, cluster, pod, which, i), DirOf(pod, i);
    forall n | 0 < n <= |d|
      ensures (d[..n] in t && t[d[..n]].File?) <==> (d[..n] in tree && tree[d[..n]].File?)
    {
      NodeOnTheWay(tree, cluster, pod, which, i, n);
    }
  }

  lemma DirKept(tree: Tree, cluster: Cluster, pod: Pod, which: Which, i: nat, k: FileKey)
    requires Plain(pod.uid) && i < |pod.volumes|
    ensures SameAt(tree, TreeAfter(tree, cluster, pod, which, i), DirOf(pod, i) + [k])
  {
    var q := DirOf(pod, i) + [k];
    DirOfShape(pod, i);
    forall j | 0 <= j < i
      ensures !FileAt(cluster, pod, which, j, q) && !(q <= DirOf(pod, j))
    {
      DirOfShape(pod, j);
      if FileAt(cluster, pod, which, j, q) {
        assert q[..5] == DirOf(pod, j) && q[..5] == DirOf(pod, i);
        assert q[..5][4] == Slot(i) && q[..5][4] == Slot(j);
        SlotInjective(i, j);
      }
    }
    assert !AsksDir(cluster, pod, which, i, q);
    TreeAfterOther(tree, cluster, pod, which, i, q);
  }

  lemma BlockedEarly(tree: Tree, cluster: Cluster, pod: Pod, which: Which, i: nat)
    requires Plain(pod.uid) && i < |pod.volumes| && NoFileAboveBefore(tree, cluster, pod, which, i)
    ensures BlockedAt(TreeAfter(tree, cluster, pod, which, i), cluster, pod, which, i)
      <==> BlockedAt(tree, cluster, pod, which, i)
  {
    var t, d := TreeAfter(tree, cluster, pod, which, i), DirOf(pod, i);
    FileAboveKept(tree, cluster, pod, which, i);
    forall k: FileKey
      ensures DirAt(t, d + [k]) <==> DirAt(tree, d + [k])
    {
      DirKept(tree, cluster, pod, which, i, k);
    }
  }

  // A volume that stops the run does so on the tree as it was.
  predicate Hinders(tree: Tree, cluster: Cluster, pod: Pod, which: Which, i: nat)
    requires i < |pod.volumes|
  {
    RefusedAt(cluster, pod, which, i) || BlockedAt(tree, cluster, pod, which, i)
  }

  predicate SomeHinders(tree: Tree, cluster: Cluster, pod: Pod, which: Which, n: nat)
    requires n <= |pod.volumes|
  {
    exists i :: 0 <= i < n && Hinders(tree, cluster, pod, which, i)
  }

  lemma StopsStep(tree: Tree, cluster: Cluster, pod: Pod, which: Which, n: nat)
    requires n < |pod.volumes|
    ensures Stops(tree, cluster, pod, which, n + 1)
      <==> Stops(tree, cluster, pod, which, n) || StopsAt(tree, cluster, pod, which, n)
    ensures SomeHinders(tree, cluster, pod, which, n + 1)
      <==> SomeHinders(tree, cluster, pod, which, n) || Hinders(tree, cluster, pod, which, n)
  {
    if Stops(tree, cluster, pod, which, n + 1) {
      var i :| 0 <= i < n + 1 && StopsAt(tree, cluster, pod, which, i);
      assert i < n ==> Stops(tree, cluster, pod, which, n);
    }
    if SomeHinders(tree, cluster, pod, which, n + 1) {
      var i :| 0 <= i < n + 1 && Hinders(tree, cluster, pod, which, i);
      assert i < n ==> SomeHinders(tree, cluster, pod, which, n);
    }
  }

  lemma NoneHinders(tree: Tree, cluster: Cluster, pod: Pod, which: Which, n: nat)
    requires n <= |pod.volumes| && !SomeHinders(tree, cluster, pod, which, n)
    ensures NoFileAboveBefore(tree, cluster, pod, which, n)
  {
    forall j | 0 <= j < n && OutcomeAt(cluster, pod, which, j).Filled?
      ensures !FileAbove(tree, DirOf(pod, j))
    {
      assert !Hinders(tree, cluster, pod, which, j);
    }
  }

  lemma {:induction false} StopsEarly(tree: Tree, cluster: Cluster, pod: Pod, which: Which, n: nat)
    requires Plain(pod.uid) && n <= |pod.volumes|
    ensures Stops(tree, cluster, pod, which, n) <==> SomeHinders(tree, cluster, pod, which, n)
  {
    if n > 0 {
      StopsEarly(tree, cluster, pod, which, n - 1);
      StopsStep(tree, cluster, pod, which, n - 1);
      if !SomeHinders(tree, cluster, pod, which, n - 1) {
        NoneHinders(tree, cluster, pod, which, n - 1);
        BlockedEarly(tree, cluster, pod, which, n - 1);
      }
    }
  }

  // The keys that are written, if none is refused.
  lemma KeysMean(cluster: Cluster, pod: Pod, which: Which, i: nat, key: FileKey)
    requires i < |pod.volumes| && Fills(cluster, pod, which, i) && !Refuses(cluster, pod, which, i)
    ensures OutcomeAt(cluster, pod, which, i).Filled?
    ensures
      var o := OutcomeAt(cluster, pod, which, i);
      BytesFor(cluster, pod.namespace, pod.volumes[i].source, key).Some? <==> key in o.first || key in o.second
  {
    FilesMean(cluster, pod, which, i, key);
    RefusedMeans(cluster, pod, which, i);
  }

  // Volume i stands in the way of the run.
  ghost predicate Stands(tree: Tree, cluster: Cluster, pod: Pod, which: Which, i: nat)
    requires i < |pod.volumes|
  {
    Refuses(cluster, pod, which, i) || (Fills(cluster, pod, which, i) && Obstructed(tree, cluster, pod, i))
  }

  lemma BlockedMeans(tree: Tree, cluster: Cluster, pod: Pod, which: Which, i: nat)
    requires Plain(pod.uid) && i < |pod.volumes|
    requires Fills(cluster, pod, which, i) && !Refuses(cluster, pod, which, i)
    ensures BlockedAt(tree, cluster, pod, which, i) <==> Obstructed(tree, cluster, pod, i)
  {
    OutcomeMeans(cluster, pod, which, i);
    DirLocation(pod, i);
    var o, d := OutcomeAt(cluster, pod, which, i), DirOf(pod, i);
    forall key: FileKey
      ensures BytesFor(cluster, pod.namespace, pod.volumes[i].source, key).Some? <==> key in o.first || key in o.second
    {
      KeysMean(cluster, pod, which, i, key);
    }
    InsteadMeans(tree, cluster, pod, i, o.first, o.second);
    FilledFails(tree, cluster, pod, which, i);
  }

  lemma InsteadMeans(tree: Tree, cluster: Cluster, pod: Pod, i: nat, first: Entries, second: Entries)
    requires i < |pod.volumes| && DirOf(pod, i) == Location(pod, i)
    requires forall key: FileKey ::
      BytesFor(cluster, pod.namespace, pod.volumes[i].source, key).Some? <==> key in first || key in second
    ensures Blocked(tree, DirOf(pod, i), first, second) <==> Obstructed(tree, cluster, pod, i)
  {
  }

  lemma HindersMeans(tree: Tree, cluster: Cluster, pod: Pod, which: Which, i: nat)
    requires Plain(pod.uid) && i < |pod.volumes|
    ensures Hinders(tree, cluster, pod, which, i) <==> Stands(tree, cluster, pod, which, i)
  {
    RefusedMeans(cluster, pod, which, i);
    OutcomeMeans(cluster, pod, which, i);
    if Fills(cluster, pod, which, i) && !Refuses(cluster, pod, which, i) {
      BlockedMeans(tree, cluster, pod, which, i);
    }
  }

  // Iff the user is found, and no volume is refused or obstructed in the tree as it is at the start.
  lemma SetUpExactly(tree: Tree, cluster: Cluster, accounts: Accounts, maproot: int, pod: Pod, which: Which)
    requires Plain(pod.uid)
    ensures CanSetUp(tree, cluster, accounts, maproot, pod, which)
      <==> Resolve(pod.securityContext, accounts, maproot).Some?
           && forall i :: 0 <= i < |pod.volumes| ==> !Stands(tree, cluster, pod, which, i)
  {
    StopsEarly(tree, cluster, pod, which, |pod.volumes|);
    forall i | 0 <= i < |pod.volumes|
      ensures Hinders(tree, cluster, pod, which, i) <==> Stands(tree, cluster, pod, which, i)
    {
      HindersMeans(tree, cluster, pod, which, i);
    }
  }

  // ---- Events: the pods on file are refreshed one after the other, with one kind of volume.

  lemma OfferMeans(cluster: Cluster, pod: Pod, which: Which, i: nat, q: Path, data: Bytes)
    requires Plain(pod.uid) && i < |pod.volumes| && (q, data) in OffersAt(cluster, pod, which, i)
    ensures Fills(cluster, pod, which, i) && Location(pod, i) < q
  {
    OutcomeMeans(cluster, pod, which, i);
    DirLocation(pod, i);
    FilledOffers(cluster, pod, which, i);
  }

  // What a run may publish is in the directories of the volumes that it fills.
  lemma {:induction false} OfferedInPlace(cluster: Cluster, pod: Pod, which: Which, n: nat, q: Path, data: Bytes)
    returns (i: nat)
    requires Plain(pod.uid) && n <= |pod.volumes| && (q, data) in OffersAfter(cluster, pod, which, n)
    ensures i < n && Fills(cluster, pod, which, i) && Location(pod, i) < q
  {
    if (q, data) in OffersAt(cluster, pod, which, n - 1) {
      i := n - 1;
      OfferMeans(cluster, pod, which, i, q, data);
    } else {
      i := OfferedInPlace(cluster, pod, which, n - 1, q, data);
    }
  }

  predicate PlainUids(pods: seq<Pod>) {
    forall j :: 0 <= j < |pods| ==> Plain(pods[j].uid)
  }

  lemma {:induction false} OfferedForSome(cluster: Cluster, pods: seq<Pod>, which: Which, q: Path, data: Bytes)
    returns (j: nat, i: nat)
    requires PlainUids(pods) && (q, data) in OffersFor(cluster, pods, which)
    ensures j < |pods| && i < |pods[j].volumes| && Fills(cluster, pods[j], which, i) && Location(pods[j], i) < q
  {
    if (q, data) in OffersAfter(cluster, pods[0], which, |pods[0].volumes|) {
      j := 0;
      i := OfferedInPlace(cluster, pods[0], which, |pods[0].volumes|, q, data);
    } else {
      assert forall m :: 0 <= m < |pods[1..]| ==> pods[1..][m] == pods[m + 1];
      j, i := OfferedForSome(cluster, pods[1..], which, q, data);
      j := j + 1;
    }
  }

  predicate FileIn(t: Tree, q: Path) {
    q in t && t[q].File?
  }

  predicate SameFile(a: Tree, b: Tree, q: Path) {
    (FileIn(a, q) <==> FileIn(b, q)) && (FileIn(a, q) ==> a[q] == b[q])
  }

  // The directory of a kind of volume, or below.
  predicate Below(q: Path, kind: string) {
    |q| > 3 && q[3] == kind
  }

  // An event of one kind leaves all files as they are that are not below that kind's directories, whatever fails,
  // and temporary files aside.
  lemma OtherFilesKept(before: Tree, t: Tree, cluster: Cluster, pods: seq<Pod>, which: Which, kind: string, q: Path)
    requires PlainUids(pods) && Untorn(before, t, OffersFor(cluster, pods, which))
    requires (which == OnlyConfigMaps && kind == "configmaps") || (which == OnlySecrets && kind == "secrets")
    requires !Below(q, kind) && !Temporary(q)
    ensures SameFile(before, t, q)
  {
    if FileIn(t, q) && (q, t[q].data) in OffersFor(cluster, pods, which) {
      var j, i := OfferedForSome(cluster, pods, which, q, t[q].data);
    }
  }

  // The files of volume i hold what the cluster has for it, those aside that could be temporaries.
  ghost predicate UpToDate(t: Tree, cluster: Cluster, pod: Pod, i: nat)
    requires i < |pod.volumes|
  {
    forall key: FileKey :: !HasSuffix(key, TEMP_SUFFIX) ==>
      match BytesFor(cluster, pod.namespace, pod.volumes[i].source, key)
      case None => true
      case Some(bytes) => NodeAt(t, Location(pod, i) + [key], File(bytes))
  }

  // A pod that can be refreshed when its turn comes has its volumes of that kind up to date in the end, if none that
  // comes after it goes by its UID.
  lemma TurnLeavesUpToDate(trees: seq<Tree>, cluster: Cluster, accounts: Accounts, maproot: int, pods: seq<Pod>,
                           which: Which, j: nat, i: nat)
    requires Turns(trees, cluster, accounts, maproot, pods, which) && j < |pods|
    requires Plain(pods[j].uid) && Unused(pods, j + 1, pods[j].uid)
    requires CanSetUp(trees[j], cluster, accounts, maproot, pods[j], which)
    requires i < |pods[j].volumes| && Fills(cluster, pods[j], which, i)
    ensures UpToDate(trees[|pods|], cluster, pods[j], i)
  {
    var pod := pods[j];
    forall key: FileKey | !HasSuffix(key, TEMP_SUFFIX)
                          && BytesFor(cluster, pod.namespace, pod.volumes[i].source, key).Some?
      ensures NodeAt(trees[|pods|], Location(pod, i) + [key],
                     File(BytesFor(cluster, pod.namespace, pod.volumes[i].source, key).value))
    {
      DirLocation(pod, i);
      FilesMean(cluster, pod, which, i, key);
      TurnDelivers(trees, cluster, accounts, maproot, pods, which, j, i, key);
    }
  }
}
