// internal/provider/volumes.go: the directories behind a pod's volumes, and how they are filled.

module Volumes {
  import opened Strings
  import opened Kube
  import opened Users

  newtype Byte = x: int | 0 <= x < 256
  type Bytes = seq<Byte>

  // ---- Paths: filepath.Join below an absolute directory.

  type Path = seq<string>

  function Walk(base: Path, pieces: seq<string>): Path
    decreases |pieces|
  {
    if pieces == [] then base
    else if pieces[0] == "" || pieces[0] == "." then Walk(base, pieces[1..])
    else if pieces[0] == ".." then Walk(if base == [] then [] else base[..|base| - 1], pieces[1..])
    else Walk(base + [pieces[0]], pieces[1..])
  }

  function JoinPath(base: Path, elem: string): Path {
    Walk(base, Split(elem, '/'))
  }

  // One ordinary path element.
  predicate Plain(elem: string) {
    elem != "" && elem != "." && elem != ".." && '/' !in elem
  }

  lemma JoinPlain(base: Path, elem: string)
    requires Plain(elem)
    ensures JoinPath(base, elem) == base + [elem]
  {
    SplitWhole(elem, '/');
    assert [elem][1..] == [];
    assert Walk(base + [elem], []) == base + [elem];
  }

  function PathText(path: Path): string {
    "/" + Join(path, "/")
  }

  const VAR_RUN: Path := ["var", "run"]
  const EMPTY_DIR := "emptydirs"
  const SECRET_DIR := "secrets"
  const CONFIGMAP_DIR := "configmaps"

  function KindDir(source: VolumeSource): string {
    match source
    case SecretSource(_, _) => SECRET_DIR
    case ConfigMapSource(_, _) => CONFIGMAP_DIR
    case _ => EMPTY_DIR
  }

  function Slot(i: nat): string {
    "#" + Decimal(i)
  }

  function VolumeDir(uid: string, kind: string, i: nat): Path {
    JoinPath(JoinPath(JoinPath(VAR_RUN, uid), kind), Slot(i))
  }

  lemma SlotPlain(i: nat)
    ensures Plain(Slot(i))
  {
    assert Slot(i)[0] == '#';
    assert forall j :: 1 <= j < |Slot(i)| ==> Slot(i)[j] == Decimal(i)[j - 1];
  }

  lemma SlotInjective(i: nat, j: nat)
    requires Slot(i) == Slot(j)
    ensures i == j
  {
    assert Slot(i)[1..] == Decimal(i) && Slot(j)[1..] == Decimal(j);
    DecimalInverse(i);
    DecimalInverse(j);
  }

  predicate KindName(kind: string) {
    kind == EMPTY_DIR || kind == SECRET_DIR || kind == CONFIGMAP_DIR
  }

  lemma KindPlain(kind: string)
    requires KindName(kind)
    ensures Plain(kind)
  {
  }

  lemma JoinThree(base: Path, x: string, y: string, z: string)
    requires Plain(x) && Plain(y) && Plain(z)
    ensures JoinPath(JoinPath(JoinPath(base, x), y), z) == base + [x, y, z]
  {
    JoinPlain(base, x);
    JoinPlain(base + [x], y);
    JoinPlain(base + [x] + [y], z);
  }

  lemma VolumeDirPlain(uid: string, kind: string, i: nat)
    requires Plain(uid) && KindName(kind)
    ensures VolumeDir(uid, kind, i) == VAR_RUN + [uid, kind, Slot(i)]
  {
    SlotPlain(i);
    KindPlain(kind);
    JoinThree(VAR_RUN, uid, kind, Slot(i));
  }

  // Directories of different pods, kinds or indexes neither coincide nor nest.
  lemma VolumeDirsApart(u: string, k: string, i: nat, v: string, l: string, j: nat)
    requires Plain(u) && Plain(v) && KindName(k) && KindName(l)
    requires VolumeDir(u, k, i) <= VolumeDir(v, l, j)
    ensures u == v && k == l && i == j
  {
    VolumeDirPlain(u, k, i);
    VolumeDirPlain(v, l, j);
    var p, q := VolumeDir(u, k, i), VolumeDir(v, l, j);
    assert p == q[..|p|];
    assert p[2] == q[2] && p[3] == q[3] && p[4] == q[4];
    SlotInjective(i, j);
  }

  // ---- The file tree.

  datatype Node = Dir | File(data: Bytes)

  type Tree = map<Path, Node>

  function Mkdirs(tree: Tree, path: Path): Tree {
    if path == [] then tree else Mkdirs(tree, path[..|path| - 1])[path := Dir]
  }

  // Keys of ConfigMaps and Secrets are validated by the API server: one plain path element.
  type FileKey = k: string | Plain(k) witness "k"

  type Files = map<FileKey, Bytes>

  function Last(path: Path): string
    requires path != []
  {
    path[|path| - 1]
  }

  function FilePaths(dir: Path, files: Files): set<Path> {
    set k | k in files :: dir + [k]
  }

  predicate IsFileOf(dir: Path, files: Files, q: Path) {
    |q| == |dir| + 1 && q[..|dir|] == dir && Last(q) in files
  }

  function WithFiles(tree: Tree, dir: Path, files: Files): Tree {
    map q: Path | q in tree.Keys + FilePaths(dir, files) && (q in tree || IsFileOf(dir, files, q)) ::
      if IsFileOf(dir, files, q) then File(files[Last(q)]) else tree[q]
  }

  lemma WithFilesNode(tree: Tree, dir: Path, files: Files, q: Path)
    ensures q in WithFiles(tree, dir, files) <==> q in tree || IsFileOf(dir, files, q)
    ensures q in WithFiles(tree, dir, files) ==>
      WithFiles(tree, dir, files)[q] == if IsFileOf(dir, files, q) then File(files[Last(q)]) else tree[q]
  {
    if IsFileOf(dir, files, q) {
      assert q == dir + [Last(q)];
      assert q in FilePaths(dir, files);
    }
  }

  lemma SameTree(a: Tree, b: Tree)
    requires forall q :: (q in a <==> q in b) && (q in a ==> a[q] == b[q])
    ensures a == b
  {
    assert a.Keys == b.Keys;
  }

  // ---- Seen from outside.

  // writeFile's temporaries: systemk.*.tmp.
  const TEMP_SUFFIX := ".tmp"

  function TempName(n: nat): string {
    "systemk." + Decimal(n) + TEMP_SUFFIX
  }

  predicate Temporary(q: Path) {
    q != [] && HasSuffix(Last(q), TEMP_SUFFIX)
  }

  // Of a run of file-system calls, at one moment: each file, temporaries aside, has its old bytes or
  // complete new ones from those on offer, and nothing that was there is gone or of another kind.
  ghost predicate Untorn(before: Tree, t: Tree, offers: set<(Path, Bytes)>) {
    && (forall q :: q in t && !Temporary(q) && t[q].File? ==>
          (q in before && before[q] == t[q]) || (q, t[q].data) in offers)
    && (forall q :: q in before && !Temporary(q) ==> q in t && t[q].File? == before[q].File?)
  }

  lemma UntornStep(a: Tree, b: Tree, c: Tree, o1: set<(Path, Bytes)>, o2: set<(Path, Bytes)>)
    requires Untorn(a, b, o1) && Untorn(b, c, o2)
    ensures Untorn(a, c, o1 + o2)
  {
  }

  // All trees of a history from some point on.
  ghost predicate AllUntorn(history: seq<Tree>, from: nat, before: Tree, offers: set<(Path, Bytes)>) {
    forall j :: from <= j < |history| ==> Untorn(before, history[j], offers)
  }

  lemma AllUntornStep(h: seq<Tree>, k: seq<Tree>, from: nat, a: Tree, b: Tree, o1: set<(Path, Bytes)>,
                      o2: set<(Path, Bytes)>)
    requires h <= k && AllUntorn(h, from, a, o1) && Untorn(a, b, o1) && AllUntorn(k, |h|, b, o2)
    ensures AllUntorn(k, from, a, o1 + o2)
  {
    forall j | from <= j < |k|
      ensures Untorn(a, k[j], o1 + o2)
    {
      if j < |h| {
        assert h[j] == k[j] && Untorn(a, h[j], o1);
      } else {
        UntornStep(a, b, k[j], o1, o2);
      }
    }
  }

  // Both at once, for a step whose offers are among those of the whole.
  lemma Extend(h: seq<Tree>, k: seq<Tree>, from: nat, a: Tree, b: Tree, c: Tree,
               offers: set<(Path, Bytes)>, asked: set<(Path, Bytes)>)
    requires h <= k && AllUntorn(h, from, a, offers) && Untorn(a, b, offers)
    requires AllUntorn(k, |h|, b, asked) && Untorn(b, c, asked)
    requires asked <= offers
    ensures AllUntorn(k, from, a, offers) && Untorn(a, c, offers)
  {
    assert offers + asked == offers;
    AllUntornStep(h, k, from, a, b, offers, asked);
    UntornStep(a, b, c, offers, asked);
  }

  // ---- What stands in the way of a volume.

  predicate FileAbove(tree: Tree, path: Path) {
    exists n :: 0 < n <= |path| && path[..n] in tree && tree[path[..n]].File?
  }

  predicate DirAt(tree: Tree, path: Path) {
    path in tree && tree[path].Dir?
  }

  predicate DirInstead(tree: Tree, dir: Path, entries: Entries) {
    exists k :: k in entries && DirAt(tree, dir + [k])
  }

  lemma {:induction false} MkdirsNode(tree: Tree, path: Path, q: Path)
    ensures q in Mkdirs(tree, path) <==> q in tree || (q != [] && q <= path)
    ensures q in Mkdirs(tree, path) ==> Mkdirs(tree, path)[q] == if q != [] && q <= path then Dir else tree[q]
  {
    if path != [] {
      var front := path[..|path| - 1];
      MkdirsNode(tree, front, q);
      if q <= path && q != path {
        assert q == path[..|q|] && path[..|q|] == front[..|q|];
      }
    }
  }

  lemma MkdirStep(before: Tree, path: Path, n: nat)
    requires n < |path|
    ensures
      var p, t := path[..n + 1], Mkdirs(before, path[..n]);
      && Mkdirs(before, p) == t[p := Dir]
      && (p in t <==> p in before) && (p in t ==> t[p] == before[p])
      && (FileAbove(before, p) <==> FileAbove(before, path[..n]) || (p in t && t[p].File?))
      && (FileAbove(before, p) ==> FileAbove(before, path))
  {
    var p := path[..n + 1];
    assert p[..n] == path[..n] && p[..n + 1] == p;
    MkdirsNode(before, path[..n], p);
    assert forall m :: 0 < m <= n ==> path[..n][..m] == path[..m] && p[..m] == path[..m];
    if FileAbove(before, p) {
      var m :| 0 < m <= |p| && p[..m] in before && before[p[..m]].File?;
      assert p[..m] == path[..m];
    }
  }

  lemma UntornDir(before: Tree, t: Tree, p: Path)
    requires Untorn(before, t, {}) && p !in t
    ensures Untorn(before, t[p := Dir], {})
  {
  }

  lemma AllUntornMore(h: seq<Tree>, from: nat, before: Tree, t: Tree, offers: set<(Path, Bytes)>)
    requires AllUntorn(h, from, before, offers) && Untorn(before, t, offers)
    ensures AllUntorn(h + [t], from, before, offers)
  {
  }

  lemma MkdirsTwice(tree: Tree, path: Path)
    ensures Mkdirs(Mkdirs(tree, path), path) == Mkdirs(tree, path)
  {
    var once := Mkdirs(tree, path);
    forall q
      ensures (q in Mkdirs(once, path) <==> q in once) && (q in once ==> Mkdirs(once, path)[q] == once[q])
    {
      MkdirsNode(tree, path, q);
      MkdirsNode(once, path, q);
    }
    SameTree(Mkdirs(once, path), once);
  }

  // ---- What the cluster offers for a volume.

  datatype Secret = Secret(stringData: map<FileKey, Option<Bytes>>, data: Files)  // None: not base64
  datatype ConfigMap = ConfigMap(data: Files, binaryData: Files)
  datatype Cluster = Cluster(secrets: map<NamespacedName, Secret>, configMaps: map<NamespacedName, ConfigMap>)
  datatype Which = All | OnlyConfigMaps | OnlySecrets

  type Entries = map<FileKey, Option<Bytes>>

  function Plainly(files: Files): Entries {
    map k | k in files :: Some(files[k])
  }

  predicate Decodes(entries: Entries) {
    forall k :: k in entries ==> entries[k].Some?
  }

  function Decoded(entries: Entries): Files {
    map k | k in entries && entries[k].Some? :: entries[k].value
  }

  datatype Outcome = Refused | Skipped | HostMount | Filled(first: Entries, second: Entries)

  // What becomes of one volume: a Secret's StringData is written before its Data, a ConfigMap's Data
  // before its BinaryData.
  function OutcomeOf(cluster: Cluster, namespace: string, source: VolumeSource, which: Which): Outcome {
    match source
    case HostPath => if which.All? then HostMount else Skipped
    case EmptyDir => if which.All? then Filled(map[], map[]) else Skipped
    case SecretSource(name, optional) =>
      var key := NamespacedName(namespace, name);
      if which.OnlyConfigMaps? then Skipped
      else if key !in cluster.secrets then (if optional == Some(false) then Refused else Skipped)
      else Filled(cluster.secrets[key].stringData, Plainly(cluster.secrets[key].data))
    case ConfigMapSource(name, optional) =>
      var key := NamespacedName(namespace, name);
      if which.OnlySecrets? then Skipped
      else if key !in cluster.configMaps then (if optional == Some(false) then Refused else Skipped)
      else Filled(Plainly(cluster.configMaps[key].data), Plainly(cluster.configMaps[key].binaryData))
    case Unsupported => Refused
  }

  // The files a volume ends up with; a key in both halves keeps the second.
  function FilesOf(o: Outcome): Files
    requires o.Filled?
  {
    Decoded(o.first) + Decoded(o.second)
  }

  function DirOf(pod: Pod, i: nat): Path
    requires i < |pod.volumes|
  {
    VolumeDir(pod.uid, KindDir(pod.volumes[i].source), i)
  }

  function OutcomeAt(cluster: Cluster, pod: Pod, which: Which, i: nat): Outcome
    requires i < |pod.volumes|
  {
    OutcomeOf(cluster, pod.namespace, pod.volumes[i].source, which)
  }

  function FillDir(tree: Tree, dir: Path, o: Outcome): Tree
    requires o.Filled?
  {
    WithFiles(WithFiles(Mkdirs(tree, dir), dir, Decoded(o.first)), dir, Decoded(o.second))
  }

  // What one volume does to the tree and to the volume map, and the (file, bytes) pairs it asks for.
  function TreeStep(tree: Tree, cluster: Cluster, pod: Pod, which: Which, i: nat): Tree
    requires i < |pod.volumes|
  {
    var o := OutcomeAt(cluster, pod, which, i);
    if o.Filled? then FillDir(tree, DirOf(pod, i), o) else tree
  }

  function MountsStep(mounts: map<string, string>, cluster: Cluster, pod: Pod, which: Which,
                      i: nat): map<string, string>
    requires i < |pod.volumes|
  {
    match OutcomeAt(cluster, pod, which, i)
    case HostMount => mounts[pod.volumes[i].name := ""]
    case Filled(_, _) => mounts[pod.volumes[i].name := PathText(DirOf(pod, i))]
    case _ => mounts
  }

  function EntryOffers(dir: Path, entries: Entries): set<(Path, Bytes)> {
    set k | k in entries && entries[k].Some? :: (dir + [k], entries[k].value)
  }

  function OffersAt(cluster: Cluster, pod: Pod, which: Which, i: nat): set<(Path, Bytes)>
    requires i < |pod.volumes|
  {
    match OutcomeAt(cluster, pod, which, i)
    case Filled(first, second) => EntryOffers(DirOf(pod, i), first) + EntryOffers(DirOf(pod, i), second)
    case _ => {}
  }

  // The same for the first n volumes.
  function TreeAfter(tree: Tree, cluster: Cluster, pod: Pod, which: Which, n: nat): Tree
    requires n <= |pod.volumes|
  {
    if n == 0 then tree else TreeStep(TreeAfter(tree, cluster, pod, which, n - 1), cluster, pod, which, n - 1)
  }

  function MountsAfter(cluster: Cluster, pod: Pod, which: Which, n: nat): map<string, string>
    requires n <= |pod.volumes|
  {
    if n == 0 then map[] else MountsStep(MountsAfter(cluster, pod, which, n - 1), cluster, pod, which, n - 1)
  }

  function OffersAfter(cluster: Cluster, pod: Pod, which: Which, n: nat): set<(Path, Bytes)>
    requires n <= |pod.volumes|
  {
    if n == 0 then {} else OffersAfter(cluster, pod, which, n - 1) + OffersAt(cluster, pod, which, n - 1)
  }

  predicate RefusedAt(cluster: Cluster, pod: Pod, which: Which, i: nat)
    requires i < |pod.volumes|
  {
    var o := OutcomeAt(cluster, pod, which, i);
    o.Refused? || (o.Filled? && !(Decodes(o.first) && Decodes(o.second)))
  }

  predicate Blocked(tree: Tree, dir: Path, first: Entries, second: Entries) {
    FileAbove(tree, dir) || DirInstead(tree, dir, first) || DirInstead(tree, dir, second)
  }

  lemma FilledTree(tree: Tree, cluster: Cluster, pod: Pod, which: Which, i: nat)
    requires i < |pod.volumes| && OutcomeAt(cluster, pod, which, i).Filled?
    ensures TreeStep(tree, cluster, pod, which, i) == FillDir(tree, DirOf(pod, i), OutcomeAt(cluster, pod, which, i))
  {
  }

  lemma FilledOffers(cluster: Cluster, pod: Pod, which: Which, i: nat)
    requires i < |pod.volumes| && OutcomeAt(cluster, pod, which, i).Filled?
    ensures
      var o := OutcomeAt(cluster, pod, which, i);
      OffersAt(cluster, pod, which, i) == EntryOffers(DirOf(pod, i), o.first) + EntryOffers(DirOf(pod, i), o.second)
  {
  }

  lemma FilledMounts(mounts: map<string, string>, cluster: Cluster, pod: Pod, which: Which, i: nat)
    requires i < |pod.volumes| && OutcomeAt(cluster, pod, which, i).Filled?
    ensures MountsStep(mounts, cluster, pod, which, i) == mounts[pod.volumes[i].name := PathText(DirOf(pod, i))]
  {
  }

  lemma FilledFails(tree: Tree, cluster: Cluster, pod: Pod, which: Which, i: nat)
    requires i < |pod.volumes| && OutcomeAt(cluster, pod, which, i).Filled?
    ensures
      var o, dir := OutcomeAt(cluster, pod, which, i), DirOf(pod, i);
      && (RefusedAt(cluster, pod, which, i) <==> !Decodes(o.first) || !Decodes(o.second))
      && (BlockedAt(tree, cluster, pod, which, i) <==> Blocked(tree, dir, o.first, o.second))
  {
  }

  predicate BlockedAt(tree: Tree, cluster: Cluster, pod: Pod, which: Which, i: nat)
    requires i < |pod.volumes|
  {
    var o := OutcomeAt(cluster, pod, which, i);
    o.Filled? && Blocked(tree, DirOf(pod, i), o.first, o.second)
  }

  // Volume i cannot be set up: it is refused, or something stands in its way when its turn comes.
  predicate StopsAt(tree: Tree, cluster: Cluster, pod: Pod, which: Which, i: nat)
    requires i < |pod.volumes|
  {
    RefusedAt(cluster, pod, which, i) || BlockedAt(TreeAfter(tree, cluster, pod, which, i), cluster, pod, which, i)
  }

  predicate Stops(tree: Tree, cluster: Cluster, pod: Pod, which: Which, n: nat)
    requires n <= |pod.volumes|
  {
    exists i :: 0 <= i < n && StopsAt(tree, cluster, pod, which, i)
  }

  // An event: the pods on file, one after the other.
  function RefreshedTree(tree: Tree, cluster: Cluster, pods: seq<Pod>, which: Which): Tree {
    if pods == [] then tree
    else
      var last := |pods| - 1;
      TreeAfter(RefreshedTree(tree, cluster, pods[..last], which), cluster, pods[last], which, |pods[last].volumes|)
  }

  lemma RefreshedMore(tree: Tree, cluster: Cluster, pods: seq<Pod>, which: Which, i: nat)
    requires i < |pods|
    ensures RefreshedTree(tree, cluster, pods[..i + 1], which)
         == TreeAfter(RefreshedTree(tree, cluster, pods[..i], which), cluster, pods[i], which, |pods[i].volumes|)
  {
    assert pods[..i + 1][..i] == pods[..i];
  }

  // The pod's user is found, and its volumes are neither refused nor obstructed.
  predicate CanSetUp(tree: Tree, cluster: Cluster, accounts: Accounts, maproot: int, pod: Pod, which: Which) {
    && Resolve(pod.securityContext, accounts, maproot).Some?
    && !Stops(tree, cluster, pod, which, |pod.volumes|)
  }

  predicate CanRefresh(tree: Tree, cluster: Cluster, accounts: Accounts, maproot: int, pods: seq<Pod>, which: Which,
                       i: nat)
    requires i < |pods|
  {
    CanSetUp(RefreshedTree(tree, cluster, pods[..i], which), cluster, accounts, maproot, pods[i], which)
  }

  predicate CanRefreshAll(tree: Tree, cluster: Cluster, accounts: Accounts, maproot: int, pods: seq<Pod>,
                          which: Which) {
    forall i :: 0 <= i < |pods| ==> CanRefresh(tree, cluster, accounts, maproot, pods, which, i)
  }

  // The trees between the turns of an event: whatever happens in a turn no file of it is torn, and a pod
  // that can be set up is.
  ghost predicate Turns(trees: seq<Tree>, cluster: Cluster, accounts: Accounts, maproot: int, pods: seq<Pod>,
                        which: Which) {
    |trees| == |pods| + 1 && forall j :: 0 <= j < |pods| ==> TurnAt(trees, cluster, accounts, maproot, pods, which, j)
  }

  ghost predicate TurnAt(trees: seq<Tree>, cluster: Cluster, accounts: Accounts, maproot: int, pods: seq<Pod>,
                         which: Which, j: nat)
    requires j < |pods| < |trees|
  {
    var n := |pods[j].volumes|;
    && Untorn(trees[j], trees[j + 1], OffersAfter(cluster, pods[j], which, n))
    && (CanSetUp(trees[j], cluster, accounts, maproot, pods[j], which)
        ==> trees[j + 1] == TreeAfter(trees[j], cluster, pods[j], which, n))
  }

  lemma TurnsMore(trees: seq<Tree>, cluster: Cluster, accounts: Accounts, maproot: int, pods: seq<Pod>, which: Which,
                  i: nat, tree: Tree)
    requires i < |pods| && Turns(trees, cluster, accounts, maproot, pods[..i], which)
    requires Untorn(trees[i], tree, OffersAfter(cluster, pods[i], which, |pods[i].volumes|))
    requires CanSetUp(trees[i], cluster, accounts, maproot, pods[i], which)
      ==> tree == TreeAfter(trees[i], cluster, pods[i], which, |pods[i].volumes|)
    ensures Turns(trees + [tree], cluster, accounts, maproot, pods[..i + 1], which)
  {
    var more, turned := trees + [tree], pods[..i + 1];
    forall j | 0 <= j < |turned|
      ensures TurnAt(more, cluster, accounts, maproot, turned, which, j)
    {
      if j < i {
        assert TurnAt(trees, cluster, accounts, maproot, pods[..i], which, j);
      }
    }
  }

  // What an event may publish: files and their new contents.
  function OffersFor(cluster: Cluster, pods: seq<Pod>, which: Which): set<(Path, Bytes)> {
    if pods == [] then {}
    else OffersAfter(cluster, pods[0], which, |pods[0].volumes|) + OffersFor(cluster, pods[1..], which)
  }

  lemma {:induction false} OffersWithin(cluster: Cluster, pods: seq<Pod>, which: Which, i: nat)
    requires i < |pods|
    ensures OffersAfter(cluster, pods[i], which, |pods[i].volumes|) <= OffersFor(cluster, pods, which)
  {
    if i > 0 {
      OffersWithin(cluster, pods[1..], which, i - 1);
    }
  }

  lemma TempUntorn(before: Tree, path: Path, data: Bytes, offers: set<(Path, Bytes)>)
    requires path !in before && Temporary(path)
    ensures Untorn(before, before[path := File(data)], offers)
  {
  }

  lemma SameUntorn(before: Tree, offers: set<(Path, Bytes)>)
    ensures Untorn(before, before, offers)
  {
  }

  lemma UntornWider(before: Tree, t: Tree, some: set<(Path, Bytes)>, offers: set<(Path, Bytes)>)
    requires Untorn(before, t, some) && some <= offers
    ensures Untorn(before, t, offers)
  {
  }

  lemma AllUntornWider(h: seq<Tree>, from: nat, before: Tree, some: set<(Path, Bytes)>, offers: set<(Path, Bytes)>)
    requires AllUntorn(h, from, before, some) && some <= offers
    ensures AllUntorn(h, from, before, offers)
  {
    forall j | from <= j < |h|
      ensures Untorn(before, h[j], offers)
    {
      assert Untorn(before, h[j], some);
    }
  }

  lemma Refilled(before: Tree, path: Path, was: Node, now: Node)
    ensures before[path := was][path := now] == before[path := now]
  {
  }

  // The temporary is out of the way again.
  lemma TempElsewhere(before: Tree, tmp: Path, path: Path, node: Node)
    requires tmp !in before && node.File?
    ensures DirAt(before[tmp := node], path) <==> DirAt(before, path)
  {
  }

  lemma Renamed(before: Tree, tmp: Path, path: Path, node: Node)
    requires tmp !in before
    ensures (before[tmp := node] - {tmp})[path := node] == before[path := node]
  {
  }

  lemma PublishUntorn(before: Tree, path: Path, data: Bytes)
    requires !DirAt(before, path)
    ensures Untorn(before, before[path := File(data)], {(path, data)})
  {
  }

  lemma StopsMore(tree: Tree, cluster: Cluster, pod: Pod, which: Which, i: nat)
    requires i < |pod.volumes| && !Stops(tree, cluster, pod, which, i) && !StopsAt(tree, cluster, pod, which, i)
    ensures !Stops(tree, cluster, pod, which, i + 1)
  {
  }

  class FileSystem {
    var tree: Tree
    ghost var history: seq<Tree>  // every tree there has been, the current one last

    ghost predicate Valid()
      reads this
    {
      |history| > 0 && history[|history| - 1] == tree
    }

    constructor (tree: Tree)
      ensures Valid() && this.tree == tree
    {
      this.tree := tree;
      history := [tree];
    }

    method Set(t: Tree)
      requires Valid()
      modifies this
      ensures Valid() && tree == t && history == old(history) + [t]
    {
      tree := t;
      history := history + [t];
    }

    // os.MkdirAll
    method MkdirAll(path: Path) returns (ok: bool)
      requires Valid()
      modifies this
      ensures Valid() && old(history) <= history
      ensures AllUntorn(history, |old(history)|, old(tree), {}) && Untorn(old(tree), tree, {})
      ensures ok <==> !FileAbove(old(tree), path)
      ensures ok ==> tree == Mkdirs(old(tree), path)
    {
      ghost var before, from := tree, |history|;
      for n := 0 to |path|
        invariant Valid() && old(history) <= history
        invariant AllUntorn(history, from, before, {}) && Untorn(before, tree, {})
        invariant tree == Mkdirs(before, path[..n]) && !FileAbove(before, path[..n])
      {
        var p := path[..n + 1];
        MkdirStep(before, path, n);
        if p in tree {
          if tree[p].File? {
            return false;
          }
          assert tree[p := Dir] == tree;
        } else {
          UntornDir(before, tree, p);
          AllUntornMore(history, from, before, tree[p := Dir], {});
          Set(tree[p := Dir]);
        }
      }
      assert path[..|path|] == path;
      return true;
    }

    // ioutil.TempFile: random names until one is free.
    method TempFile(dir: Path) returns (tmp: Path)
      ensures Temporary(tmp) && tmp !in tree && |tmp| == |dir| + 1 && tmp[..|dir|] == dir
    {
      var start: nat := *;
      var n: nat := start;
      ghost var tried: set<Path> := {};
      while dir + [TempName(n)] in tree
        invariant start <= n && |tried| == n - start && tried <= tree.Keys
        invariant forall q :: q in tried ==> exists m: nat :: start <= m < n && q == dir + [TempName(m)]
        decreases |tree.Keys| - |tried|
      {
        TempNamesApart(dir, start, n, tried);
        SubsetSize(tried + {dir + [TempName(n)]}, tree.Keys);
        tried := tried + {dir + [TempName(n)]};
        n := n + 1;
      }
      TempNameTemporary(dir, n);
      return dir + [TempName(n)];
    }

    // ioutil.WriteFile: the bytes arrive piece by piece.
    method Fill(path: Path, data: Bytes)
      requires Valid() && path !in tree && Temporary(path)
      modifies this
      ensures Valid() && old(history) <= history
      ensures AllUntorn(history, |old(history)|, old(tree), {})
      ensures tree == old(tree)[path := File(data)]
    {
      ghost var before, from := tree, |history|;
      TempUntorn(before, path, [], {});
      AllUntornMore(history, from, before, tree[path := File([])], {});
      Set(tree[path := File([])]);
      var written := 0;
      while written < |data|
        invariant written <= |data|
        invariant Valid() && old(history) <= history
        invariant tree == before[path := File(data[..written])]
        invariant AllUntorn(history, from, before, {})
      {
        var n: nat :| written < n <= |data|;
        TempUntorn(before, path, data[..n], {});
        AllUntornMore(history, from, before, before[path := File(data[..n])], {});
        Refilled(before, path, File(data[..written]), File(data[..n]));
        Set(tree[path := File(data[..n])]);
        written := n;
      }
      assert data[..written] == data;
    }

    // writeFile: a temporary file next to the target, filled, then renamed onto it.
    method WriteFile(dir: Path, file: FileKey, data: Bytes) returns (ok: bool)
      requires Valid()
      modifies this
      ensures Valid() && old(history) <= history
      ensures AllUntorn(history, |old(history)|, old(tree), {(dir + [file], data)})
      ensures Untorn(old(tree), tree, {(dir + [file], data)})
      ensures ok <==> DirAt(old(tree), dir) && !DirAt(old(tree), dir + [file])
      ensures ok ==> tree == old(tree)[dir + [file] := File(data)]
    {
      ghost var before, from, offers := tree, |history|, {(dir + [file], data)};
      SameUntorn(before, offers);
      if dir !in tree || tree[dir].File? {
        return false;
      }
      var tmp := TempFile(dir);
      Fill(tmp, data);
      AllUntornWider(history, from, before, {}, offers);
      TempUntorn(before, tmp, data, offers);
      var path := dir + [file];
      TempElsewhere(before, tmp, path, File(data));
      if path in tree && tree[path].Dir? {
        return false;
      }
      Renamed(before, tmp, path, File(data));
      PublishUntorn(before, path, data);
      AllUntornMore(history, from, before, before[path := File(data)], offers);
      Set((tree - {tmp})[path := tree[tmp]]);
      return true;
    }

    // The loops over a map's keys, in whatever order; an entry that does not decode stops them.
    method WriteEach(dir: Path, entries: Entries) returns (ok: bool)
      requires Valid() && DirAt(tree, dir)
      modifies this
      ensures Valid() && old(history) <= history
      ensures AllUntorn(history, |old(history)|, old(tree), EntryOffers(dir, entries))
      ensures Untorn(old(tree), tree, EntryOffers(dir, entries))
      ensures ok <==> Decodes(entries) && !DirInstead(old(tree), dir, entries)
      ensures ok ==> tree == WithFiles(old(tree), dir, Decoded(entries))
    {
      ghost var offers, before, from := EntryOffers(dir, entries), tree, |history|;
      var todo := entries.Keys;
      assert entries - todo == map[];
      NoFiles(tree, dir);
      while todo != {}
        invariant todo <= entries.Keys
        invariant Valid() && old(history) <= history
        invariant AllUntorn(history, from, before, offers) && Untorn(before, tree, offers)
        invariant forall k :: k in entries && k !in todo ==> entries[k].Some? && !DirAt(before, dir + [k])
        invariant tree == WithFiles(before, dir, Decoded(entries - todo))
        decreases |todo|
      {
        var k: FileKey :| k in todo;
        if entries[k].None? {
          return false;
        }
        ghost var mid, h := tree, history;
        var written := WriteFile(dir, k, entries[k].value);
        Extend(h, history, from, before, mid, tree, offers, {(dir + [k], entries[k].value)});
        StillDir(before, dir, Decoded(entries - todo), k);
        if !written {
          return false;
        }
        WithOneMore(before, dir, entries, todo, k);
        todo := todo - {k};
      }
      assert entries - {} == entries;
      return true;
    }

    // setupPaths
    method SetupPaths(uid: string, kind: string, i: nat) returns (ok: bool)
      requires Valid()
      modifies this
      ensures Valid() && old(history) <= history
      ensures AllUntorn(history, |old(history)|, old(tree), {}) && Untorn(old(tree), tree, {})
      ensures ok <==> !FileAbove(old(tree), VolumeDir(uid, kind, i))
      ensures ok ==> tree == Mkdirs(old(tree), VolumeDir(uid, kind, i))
    {
      var dir := JoinPath(JoinPath(VAR_RUN, uid), kind);
      SlotPlain(i);
      JoinPlain(dir, Slot(i));
      FileAboveMore(tree, dir, Slot(i));
      ok := MkdirAll(dir);
      if !ok {
        return;
      }
      ghost var mid, h := tree, history;
      ok := MkdirAll(JoinPath(dir, Slot(i)));
      Extend(h, history, |old(history)|, old(tree), mid, tree, {}, {});
      assert (dir + [Slot(i)])[..|dir|] == dir;
      MkdirsTwice(old(tree), dir);
    }

    // One volume with contents: its directory, then both halves of its entries.
    // Both halves of a volume, the second one winning.
    method WriteBoth(dir: Path, first: Entries, second: Entries) returns (ok: bool)
      requires Valid() && DirAt(tree, dir)
      modifies this
      ensures Valid() && old(history) <= history
      ensures AllUntorn(history, |old(history)|, old(tree), EntryOffers(dir, first) + EntryOffers(dir, second))
      ensures Untorn(old(tree), tree, EntryOffers(dir, first) + EntryOffers(dir, second))
      ensures ok <==>
        && Decodes(first) && !DirInstead(old(tree), dir, first)
        && Decodes(second) && !DirInstead(old(tree), dir, second)
      ensures ok ==> tree == WithFiles(WithFiles(old(tree), dir, Decoded(first)), dir, Decoded(second))
    {
      ghost var from, before := |history|, tree;
      ghost var o1, o2 := EntryOffers(dir, first), EntryOffers(dir, second);
      ok := WriteEach(dir, first);
      AllUntornWider(history, from, before, o1, o1 + o2);
      UntornWider(before, tree, o1, o1 + o2);
      if !ok {
        return;
      }
      ghost var h, mid := history, tree;
      DirsAfterFiles(before, dir, first, second);
      ok := WriteEach(dir, second);
      Extend(h, history, from, before, mid, tree, o1 + o2, o2);
    }

    method SetUpOne(pod: Pod, i: nat, first: Entries, second: Entries) returns (ok: bool)
      requires Valid() && i < |pod.volumes|
      modifies this
      ensures Valid() && old(history) <= history
      ensures AllUntorn(history, |old(history)|, old(tree),
                        EntryOffers(DirOf(pod, i), first) + EntryOffers(DirOf(pod, i), second))
      ensures Untorn(old(tree), tree, EntryOffers(DirOf(pod, i), first) + EntryOffers(DirOf(pod, i), second))
      ensures ok <==> Decodes(first) && Decodes(second) && !Blocked(old(tree), DirOf(pod, i), first, second)
      ensures ok ==> tree == FillDir(old(tree), DirOf(pod, i), Filled(first, second))
    {
      ghost var from, before, dir := |history|, tree, DirOf(pod, i);
      ghost var offers := EntryOffers(dir, first) + EntryOffers(dir, second);
      ok := SetupPaths(pod.uid, KindDir(pod.volumes[i].source), i);
      AllUntornWider(history, from, before, {}, offers);
      UntornWider(before, tree, {}, offers);
      if !ok {
        return;
      }
      ghost var h, mid := history, tree;
      MadeDir(before, pod.uid, KindDir(pod.volumes[i].source), i, first, second);
      ok := WriteBoth(DirOf(pod, i), first, second);
      Extend(h, history, from, before, mid, tree, offers, offers);
    }

    // One round of the loop of volumes.
    method SetUpAt(pod: Pod, cluster: Cluster, which: Which, i: nat, mounts: map<string, string>)
      returns (vol: Option<map<string, string>>)
      requires Valid() && i < |pod.volumes|
      modifies this
      ensures Valid() && old(history) <= history
      ensures AllUntorn(history, |old(history)|, old(tree), OffersAt(cluster, pod, which, i))
      ensures Untorn(old(tree), tree, OffersAt(cluster, pod, which, i))
      ensures vol.Some? <==> !RefusedAt(cluster, pod, which, i) && !BlockedAt(old(tree), cluster, pod, which, i)
      ensures vol.Some? ==>
        && tree == TreeStep(old(tree), cluster, pod, which, i)
        && vol.value == MountsStep(mounts, cluster, pod, which, i)
    {
      match OutcomeAt(cluster, pod, which, i)
      {
        case Refused => return None;
        case Skipped => return Some(mounts);
        case HostMount => return Some(mounts[pod.volumes[i].name := ""]);
        case Filled(first, second) =>
          FilledTree(tree, cluster, pod, which, i);
          FilledOffers(cluster, pod, which, i);
          FilledMounts(mounts, cluster, pod, which, i);
          FilledFails(tree, cluster, pod, which, i);
          var ok := SetUpOne(pod, i, first, second);
          if !ok {
            return None;
          }
          return Some(mounts[pod.volumes[i].name := PathText(DirOf(pod, i))]);
      }
    }

    // volumes: None is an error; what was done before it stays.
    // All is well with the first i volumes.
    ghost predicate SoFar(from: nat, before: Tree, cluster: Cluster, pod: Pod, which: Which, i: nat,
                          mounts: map<string, string>)
      reads this
    {
      && Valid() && i <= |pod.volumes|
      && AllUntorn(history, from, before, OffersAfter(cluster, pod, which, |pod.volumes|))
      && Untorn(before, tree, OffersAfter(cluster, pod, which, |pod.volumes|))
      && !Stops(before, cluster, pod, which, i)
      && tree == TreeAfter(before, cluster, pod, which, i)
      && mounts == MountsAfter(cluster, pod, which, i)
    }

    method SetUpNext(pod: Pod, cluster: Cluster, which: Which, i: nat, mounts: map<string, string>, ghost from: nat,
                     ghost before: Tree) returns (vol: Option<map<string, string>>)
      requires i < |pod.volumes| && SoFar(from, before, cluster, pod, which, i, mounts)
      modifies this
      ensures Valid() && old(history) <= history
      ensures AllUntorn(history, from, before, OffersAfter(cluster, pod, which, |pod.volumes|))
      ensures Untorn(before, tree, OffersAfter(cluster, pod, which, |pod.volumes|))
      ensures vol.None? ==> StopsAt(before, cluster, pod, which, i)
      ensures vol.Some? ==> SoFar(from, before, cluster, pod, which, i + 1, vol.value)
    {
      ghost var h, mid := history, tree;
      vol := SetUpAt(pod, cluster, which, i, mounts);
      OffersGrow(cluster, pod, which, i + 1, |pod.volumes|);
      Extend(h, history, from, before, mid, tree, OffersAfter(cluster, pod, which, |pod.volumes|),
        OffersAt(cluster, pod, which, i));
      if vol.Some? {
        StopsMore(before, cluster, pod, which, i);
      }
    }

    method SetUp(pod: Pod, cluster: Cluster, accounts: Accounts, maproot: int, which: Which)
      returns (vol: Option<map<string, string>>)
      requires Valid()
      modifies this
      ensures Valid() && old(history) <= history
      ensures AllUntorn(history, |old(history)|, old(tree), OffersAfter(cluster, pod, which, |pod.volumes|))
      ensures Untorn(old(tree), tree, OffersAfter(cluster, pod, which, |pod.volumes|))
      ensures vol.Some? <==> CanSetUp(old(tree), cluster, accounts, maproot, pod, which)
      ensures vol.Some? ==>
        && tree == TreeAfter(old(tree), cluster, pod, which, |pod.volumes|)
        && vol.value == MountsAfter(cluster, pod, which, |pod.volumes|)
    {
      var ids := UidGidFromSecurityContext(pod.securityContext, accounts, maproot);
      if ids.None? {
        return None;
      }
      var mounts: map<string, string> := map[];
      ghost var from, before := |history|, tree;
      for i := 0 to |pod.volumes|
        invariant old(history) <= history && SoFar(from, before, cluster, pod, which, i, mounts)
      {
        var vol' := SetUpNext(pod, cluster, which, i, mounts, from, before);
        if vol'.None? {
          return None;
        }
        mounts := vol'.value;
      }
      return Some(mounts);
    }

    // An event: UpdateConfigMap or UpdateSecret for the pods on file; their errors are only logged.
    method Refresh(pods: seq<Pod>, cluster: Cluster, accounts: Accounts, maproot: int, which: Which)
      returns (ghost trees: seq<Tree>)
      requires Valid()
      modifies this
      ensures Valid() && old(history) <= history
      ensures AllUntorn(history, |old(history)|, old(tree), OffersFor(cluster, pods, which))
      ensures Untorn(old(tree), tree, OffersFor(cluster, pods, which))
      ensures Turns(trees, cluster, accounts, maproot, pods, which) && trees[0] == old(tree) && trees[|pods|] == tree
      ensures CanRefreshAll(old(tree), cluster, accounts, maproot, pods, which)
        ==> tree == RefreshedTree(old(tree), cluster, pods, which)
    {
      trees := [tree];
      ghost var from, before, offers, clear := |history|, tree, OffersFor(cluster, pods, which), true;
      for i := 0 to |pods|
        invariant Valid() && old(history) <= history
        invariant AllUntorn(history, from, before, offers) && Untorn(before, tree, offers)
        invariant Turns(trees, cluster, accounts, maproot, pods[..i], which) && trees[0] == before && trees[i] == tree
        invariant clear ==> tree == RefreshedTree(before, cluster, pods[..i], which)
        invariant !clear ==> !CanRefreshAll(before, cluster, accounts, maproot, pods, which)
      {
        ghost var h, mid := history, tree;
        var vol := SetUp(pods[i], cluster, accounts, maproot, which);
        OffersWithin(cluster, pods, which, i);
        Extend(h, history, from, before, mid, tree, offers, OffersAfter(cluster, pods[i], which, |pods[i].volumes|));
        RefreshedMore(before, cluster, pods, which, i);
        if vol.None? && clear {
          assert !CanRefresh(before, cluster, accounts, maproot, pods, which, i);
        }
        clear := clear && vol.Some?;
        TurnsMore(trees, cluster, accounts, maproot, pods, which, i, tree);
        trees := trees + [tree];
      }
      assert pods[..|pods|] == pods;
    }

    // os.RemoveAll
    method RemoveAll(path: Path)
      requires Valid()
      modifies this
      ensures Valid() && tree == Removed(old(tree), path) && old(history) <= history
    {
      Set(Removed(tree, path));
    }
  }

  lemma TempNameTemporary(dir: Path, n: nat)
    ensures Temporary(dir + [TempName(n)])
  {
    var name := TempName(n);
    assert name[|name| - |TEMP_SUFFIX|..] == TEMP_SUFFIX;
  }

  lemma TempNameInjective(m: nat, n: nat)
    requires TempName(m) == TempName(n)
    ensures m == n
  {
    var x := TempName(m);
    assert x[8..|x| - 4] == Decimal(m) && x[8..|x| - 4] == Decimal(n);
    DecimalInverse(m);
    DecimalInverse(n);
  }

  lemma TempNamesApart(dir: Path, start: nat, n: nat, tried: set<Path>)
    requires forall q :: q in tried ==> exists m: nat :: start <= m < n && q == dir + [TempName(m)]
    ensures dir + [TempName(n)] !in tried
  {
    if dir + [TempName(n)] in tried {
      var m: nat :| start <= m < n && dir + [TempName(n)] == dir + [TempName(m)];
      assert (dir + [TempName(n)])[|dir|] == (dir + [TempName(m)])[|dir|];
      TempNameInjective(m, n);
    }
  }

  lemma {:induction false} SubsetSize(a: set<Path>, b: set<Path>)
    requires a <= b
    ensures |a| <= |b|
  {
    if a != {} {
      var x :| x in a;
      SubsetSize(a - {x}, b - {x});
    }
  }

  lemma FileAboveMore(tree: Tree, dir: Path, elem: string)
    ensures FileAbove(tree, dir) ==> FileAbove(tree, dir + [elem])
    ensures !FileAbove(tree, dir) ==> (FileAbove(Mkdirs(tree, dir), dir + [elem]) <==> FileAbove(tree, dir + [elem]))
  {
    var path := dir + [elem];
    forall n | 0 < n <= |dir|
      ensures path[..n] == dir[..n] && DirAt(Mkdirs(tree, dir), path[..n])
    {
      MkdirsNode(tree, dir, dir[..n]);
    }
    assert path[..|path|] == path;
    MkdirsNode(tree, dir, path);
    assert FileAbove(tree, dir) ==> FileAbove(tree, path) by {
      if n :| 0 < n <= |dir| && dir[..n] in tree && tree[dir[..n]].File? {
        assert path[..n] in tree && tree[path[..n]].File?;
      }
    }
    if FileAbove(tree, path) && !FileAbove(tree, dir) {
      var n :| 0 < n <= |path| && path[..n] in tree && tree[path[..n]].File?;
      assert n == |path|;
      assert path[..n] in Mkdirs(tree, dir) && Mkdirs(tree, dir)[path[..n]].File?;
    }
    if FileAbove(Mkdirs(tree, dir), path) {
      var n :| 0 < n <= |path| && path[..n] in Mkdirs(tree, dir) && Mkdirs(tree, dir)[path[..n]].File?;
      assert n == |path|;
      assert path[..n] in tree && tree[path[..n]].File?;
    }
  }

  // Writing some files of a directory leaves it one, and its other entries what they were.
  lemma StillDir(tree: Tree, dir: Path, files: Files, k: FileKey)
    requires DirAt(tree, dir) && k !in files
    ensures DirAt(WithFiles(tree, dir, files), dir)
    ensures DirAt(WithFiles(tree, dir, files), dir + [k]) <==> DirAt(tree, dir + [k])
  {
    WithFilesNode(tree, dir, files, dir);
    WithFilesNode(tree, dir, files, dir + [k]);
    assert Last(dir + [k]) == k;
  }

  // Making the directory neither makes nor removes directories in the place of its files.
  lemma MadeDir(tree: Tree, uid: string, kind: string, i: nat, first: Entries, second: Entries)
    ensures
      var dir := VolumeDir(uid, kind, i);
      && DirAt(Mkdirs(tree, dir), dir)
      && (DirInstead(Mkdirs(tree, dir), dir, first) <==> DirInstead(tree, dir, first))
      && (DirInstead(Mkdirs(tree, dir), dir, second) <==> DirInstead(tree, dir, second))
  {
    var dir := VolumeDir(uid, kind, i);
    SlotPlain(i);
    JoinPlain(JoinPath(JoinPath(VAR_RUN, uid), kind), Slot(i));
    MkdirsNode(tree, dir, dir);
    DirsAfterMkdirs(tree, dir, first);
    DirsAfterMkdirs(tree, dir, second);
  }

  lemma DirsAfterMkdirs(tree: Tree, dir: Path, entries: Entries)
    ensures DirInstead(Mkdirs(tree, dir), dir, entries) <==> DirInstead(tree, dir, entries)
  {
    forall k | k in entries
      ensures DirAt(Mkdirs(tree, dir), dir + [k]) <==> DirAt(tree, dir + [k])
    {
      MkdirsNode(tree, dir, dir + [k]);
    }
  }

  lemma DirsAfterFiles(tree: Tree, dir: Path, first: Entries, second: Entries)
    requires DirAt(tree, dir) && Decodes(first) && !DirInstead(tree, dir, first)
    ensures DirAt(WithFiles(tree, dir, Decoded(first)), dir)
    ensures DirInstead(WithFiles(tree, dir, Decoded(first)), dir, second) <==> DirInstead(tree, dir, second)
  {
    WithFilesNode(tree, dir, Decoded(first), dir);
    forall k | k in second
      ensures DirAt(WithFiles(tree, dir, Decoded(first)), dir + [k]) <==> DirAt(tree, dir + [k])
    {
      WithFilesNode(tree, dir, Decoded(first), dir + [k]);
      assert Last(dir + [k]) == k && (dir + [k])[..|dir|] == dir;
    }
  }

  function Removed(tree: Tree, path: Path): Tree {
    map q | q in tree && !(path <= q) :: tree[q]
  }

  lemma {:induction false} OffersGrow(cluster: Cluster, pod: Pod, which: Which, m: nat, n: nat)
    requires m <= n <= |pod.volumes|
    ensures OffersAfter(cluster, pod, which, m) <= OffersAfter(cluster, pod, which, n)
  {
    if m < n {
      OffersGrow(cluster, pod, which, m, n - 1);
    }
  }

  lemma NoFiles(tree: Tree, dir: Path)
    ensures WithFiles(tree, dir, Decoded(map[])) == tree
  {
    forall q
      ensures (q in WithFiles(tree, dir, Decoded(map[])) <==> q in tree)
      ensures q in tree ==> WithFiles(tree, dir, Decoded(map[]))[q] == tree[q]
    {
      WithFilesNode(tree, dir, Decoded(map[]), q);
    }
    SameTree(WithFiles(tree, dir, Decoded(map[])), tree);
  }

  lemma WithOneMore(tree: Tree, dir: Path, entries: Entries, todo: set<FileKey>, k: FileKey)
    requires k in todo && todo <= entries.Keys && entries[k].Some?
    ensures WithFiles(tree, dir, Decoded(entries - todo))[dir + [k] := File(entries[k].value)]
         == WithFiles(tree, dir, Decoded(entries - (todo - {k})))
  {
    var less, more := Decoded(entries - todo), Decoded(entries - (todo - {k}));
    var a, b := WithFiles(tree, dir, less)[dir + [k] := File(entries[k].value)], WithFiles(tree, dir, more);
    assert more == less[k := entries[k].value];
    forall q
      ensures (q in a <==> q in b) && (q in a ==> a[q] == b[q])
    {
      WithFilesNode(tree, dir, less, q);
      WithFilesNode(tree, dir, more, q);
      assert q == dir + [k] <==> |q| == |dir| + 1 && q[..|dir|] == dir && Last(q) == k;
    }
    SameTree(a, b);
  }

  // ---- What the tree holds afterwards, path by path.

  // The directory paths and files the first n volumes ask for.
  predicate AsksDir(cluster: Cluster, pod: Pod, which: Which, n: nat, q: Path)
    requires n <= |pod.volumes|
  {
    exists i :: 0 <= i < n && OutcomeAt(cluster, pod, which, i).Filled? && q != [] && q <= DirOf(pod, i)
  }

  predicate FileAt(cluster: Cluster, pod: Pod, which: Which, i: nat, q: Path)
    requires i < |pod.volumes|
  {
    var o := OutcomeAt(cluster, pod, which, i);
    o.Filled? && IsFileOf(DirOf(pod, i), FilesOf(o), q)
  }

  lemma DirOfShape(pod: Pod, i: nat)
    requires i < |pod.volumes| && Plain(pod.uid)
    ensures DirOf(pod, i) == VAR_RUN + [pod.uid, KindDir(pod.volumes[i].source), Slot(i)]
  {
    VolumeDirPlain(pod.uid, KindDir(pod.volumes[i].source), i);
  }

  lemma FillDirNode(tree: Tree, dir: Path, o: Outcome, q: Path)
    requires o.Filled?
    ensures q in FillDir(tree, dir, o) <==> q in tree || (q != [] && q <= dir) || IsFileOf(dir, FilesOf(o), q)
    ensures q in FillDir(tree, dir, o) ==>
      FillDir(tree, dir, o)[q] == if IsFileOf(dir, FilesOf(o), q) then File(FilesOf(o)[Last(q)])
                                  else if q != [] && q <= dir then Dir
                                  else tree[q]
  {
    MkdirsNode(tree, dir, q);
    WithFilesNode(Mkdirs(tree, dir), dir, Decoded(o.first), q);
    WithFilesNode(WithFiles(Mkdirs(tree, dir), dir, Decoded(o.first)), dir, Decoded(o.second), q);
  }

  // Files of different volumes have different paths, and no file path is a directory path.
  lemma FilePathsApart(cluster: Cluster, pod: Pod, which: Which, i: nat, j: nat, q: Path)
    requires Plain(pod.uid) && i < |pod.volumes| && j < |pod.volumes| && FileAt(cluster, pod, which, i, q)
    ensures FileAt(cluster, pod, which, j, q) ==> i == j
    ensures !(q <= DirOf(pod, j))
  {
    DirOfShape(pod, i);
    DirOfShape(pod, j);
    if FileAt(cluster, pod, which, j, q) {
      assert q[..5] == DirOf(pod, i) && q[..5] == DirOf(pod, j);
      assert q[..5][4] == Slot(i) && q[..5][4] == Slot(j);
      SlotInjective(i, j);
    }
  }

  function NewFile(cluster: Cluster, pod: Pod, which: Which, i: nat, q: Path): Node
    requires i < |pod.volumes| && FileAt(cluster, pod, which, i, q)
  {
    File(FilesOf(OutcomeAt(cluster, pod, which, i))[Last(q)])
  }

  predicate NodeAt(t: Tree, q: Path, node: Node) {
    q in t && t[q] == node
  }

  // Volume j has nothing to do with that path.
  predicate Avoids(cluster: Cluster, pod: Pod, which: Which, j: nat, q: Path)
    requires j < |pod.volumes|
  {
    !FileAt(cluster, pod, which, j, q) && !(q <= DirOf(pod, j))
  }

  // Its own round writes a file...
  lemma FileWritten(tree: Tree, cluster: Cluster, pod: Pod, which: Which, i: nat, q: Path)
    requires i < |pod.volumes| && FileAt(cluster, pod, which, i, q)
    ensures NodeAt(TreeAfter(tree, cluster, pod, which, i + 1), q, NewFile(cluster, pod, which, i, q))
  {
    FillDirNode(TreeAfter(tree, cluster, pod, which, i), DirOf(pod, i), OutcomeAt(cluster, pod, which, i), q);
  }

  lemma OtherAvoids(cluster: Cluster, pod: Pod, which: Which, i: nat, j: nat, q: Path)
    requires Plain(pod.uid) && i < |pod.volumes| && j < |pod.volumes| && i != j && FileAt(cluster, pod, which, i, q)
    ensures Avoids(cluster, pod, which, j, q)
  {
    FilePathsApart(cluster, pod, which, i, j, q);
  }

  // ...and the rounds of other volumes keep it.
  lemma FileKept(tree: Tree, cluster: Cluster, pod: Pod, which: Which, n: nat, q: Path, node: Node)
    requires 0 < n <= |pod.volumes| && Avoids(cluster, pod, which, n - 1, q)
    requires NodeAt(TreeAfter(tree, cluster, pod, which, n - 1), q, node)
    ensures NodeAt(TreeAfter(tree, cluster, pod, which, n), q, node)
  {
    var before, o := TreeAfter(tree, cluster, pod, which, n - 1), OutcomeAt(cluster, pod, which, n - 1);
    if o.Filled? {
      FillDirNode(before, DirOf(pod, n - 1), o, q);
    }
  }

  // A path that the volumes from m on have nothing to do with.
  predicate AvoidedFrom(cluster: Cluster, pod: Pod, which: Which, m: nat, q: Path) {
    forall j :: m <= j < |pod.volumes| ==> Avoids(cluster, pod, which, j, q)
  }

  lemma OthersAvoid(cluster: Cluster, pod: Pod, which: Which, i: nat, m: nat, q: Path)
    requires Plain(pod.uid) && i < m && i < |pod.volumes| && FileAt(cluster, pod, which, i, q)
    ensures AvoidedFrom(cluster, pod, which, m, q)
  {
    forall j | m <= j < |pod.volumes|
      ensures Avoids(cluster, pod, which, j, q)
    {
      OtherAvoids(cluster, pod, which, i, j, q);
    }
  }

  lemma LastAvoids(cluster: Cluster, pod: Pod, which: Which, m: nat, j: nat, q: Path)
    requires AvoidedFrom(cluster, pod, which, m, q) && m <= j < |pod.volumes|
    ensures Avoids(cluster, pod, which, j, q)
  {
  }

  lemma KeptMore(tree: Tree, cluster: Cluster, pod: Pod, which: Which, m: nat, n: nat, q: Path, node: Node)
    requires m < n <= |pod.volumes| && AvoidedFrom(cluster, pod, which, m, q)
    requires NodeAt(TreeAfter(tree, cluster, pod, which, n - 1), q, node)
    ensures NodeAt(TreeAfter(tree, cluster, pod, which, n), q, node)
  {
    LastAvoids(cluster, pod, which, m, n - 1, q);
    FileKept(tree, cluster, pod, which, n, q, node);
  }

  lemma {:induction false} FileStays(tree: Tree, cluster: Cluster, pod: Pod, which: Which, m: nat, n: nat, q: Path,
                                     node: Node)
    requires m <= n <= |pod.volumes| && AvoidedFrom(cluster, pod, which, m, q)
    requires NodeAt(TreeAfter(tree, cluster, pod, which, m), q, node)
    ensures NodeAt(TreeAfter(tree, cluster, pod, which, n), q, node)
  {
    if m < n {
      FileStays(tree, cluster, pod, which, m, n - 1, q, node);
      KeptMore(tree, cluster, pod, which, m, n, q, node);
    }
  }

  // The later rounds leave it alone.
  lemma LaterRounds(tree: Tree, cluster: Cluster, pod: Pod, which: Which, n: nat, i: nat, q: Path, node: Node)
    requires AvoidedFrom(cluster, pod, which, i + 1, q) && i < n <= |pod.volumes|
    requires NodeAt(TreeAfter(tree, cluster, pod, which, i + 1), q, node)
    ensures NodeAt(TreeAfter(tree, cluster, pod, which, n), q, node)
  {
    FileStays(tree, cluster, pod, which, i + 1, n, q, node);
  }

  // After a run: every file asked for has its current bytes, every directory asked for is there, and
  // everything else is as it was.
  lemma TreeAfterFile(tree: Tree, cluster: Cluster, pod: Pod, which: Which, n: nat, i: nat, q: Path)
    requires Plain(pod.uid) && i < n <= |pod.volumes| && FileAt(cluster, pod, which, i, q)
    ensures NodeAt(TreeAfter(tree, cluster, pod, which, n), q, NewFile(cluster, pod, which, i, q))
  {
    OthersAvoid(cluster, pod, which, i, i + 1, q);
    FileWritten(tree, cluster, pod, which, i, q);
    LaterRounds(tree, cluster, pod, which, n, i, q, NewFile(cluster, pod, which, i, q));
  }

  lemma AsksDirStep(cluster: Cluster, pod: Pod, which: Which, n: nat, q: Path)
    requires 0 < n <= |pod.volumes|
    ensures AsksDir(cluster, pod, which, n, q)
      <==> AsksDir(cluster, pod, which, n - 1, q) || AskedAt(cluster, pod, which, n - 1, q)
  {
  }

  predicate SameAt(a: Tree, b: Tree, q: Path) {
    (q in a <==> q in b) && (q in a ==> a[q] == b[q])
  }

  // What round j does to a path that is no file of its volume.
  lemma PathStep(tree: Tree, cluster: Cluster, pod: Pod, which: Which, n: nat, q: Path)
    requires 0 < n <= |pod.volumes| && !FileAt(cluster, pod, which, n - 1, q)
    ensures
      var t, next := TreeAfter(tree, cluster, pod, which, n - 1), TreeAfter(tree, cluster, pod, which, n);
      if AskedAt(cluster, pod, which, n - 1, q) then NodeAt(next, q, Dir) else SameAt(t, next, q)
  {
    var t, o := TreeAfter(tree, cluster, pod, which, n - 1), OutcomeAt(cluster, pod, which, n - 1);
    if o.Filled? {
      FillDirNode(t, DirOf(pod, n - 1), o, q);
    }
  }

  // Volume j asks for that directory.
  predicate AskedAt(cluster: Cluster, pod: Pod, which: Which, j: nat, q: Path)
    requires j < |pod.volumes|
  {
    OutcomeAt(cluster, pod, which, j).Filled? && q != [] && q <= DirOf(pod, j)
  }

  lemma SameTwice(a: Tree, b: Tree, c: Tree, q: Path)
    ensures SameAt(a, b, q) && SameAt(b, c, q) ==> SameAt(a, c, q)
    ensures NodeAt(b, q, Dir) && SameAt(b, c, q) ==> NodeAt(c, q, Dir)
  {
  }

  // What n rounds make of a path that is no file of theirs.
  predicate PathAfter(tree: Tree, cluster: Cluster, pod: Pod, which: Which, n: nat, q: Path)
    requires n <= |pod.volumes|
  {
    var t := TreeAfter(tree, cluster, pod, which, n);
    if AsksDir(cluster, pod, which, n, q) then NodeAt(t, q, Dir) else SameAt(tree, t, q)
  }

  lemma PathMore(tree: Tree, cluster: Cluster, pod: Pod, which: Which, n: nat, q: Path)
    requires 0 < n <= |pod.volumes| && !FileAt(cluster, pod, which, n - 1, q)
    requires PathAfter(tree, cluster, pod, which, n - 1, q)
    ensures PathAfter(tree, cluster, pod, which, n, q)
  {
    AsksDirStep(cluster, pod, which, n, q);
    PathStep(tree, cluster, pod, which, n, q);
    SameTwice(tree, TreeAfter(tree, cluster, pod, which, n - 1), TreeAfter(tree, cluster, pod, which, n), q);
  }

  predicate NoFileBy(cluster: Cluster, pod: Pod, which: Which, n: nat, q: Path)
    requires n <= |pod.volumes|
  {
    forall i :: 0 <= i < n ==> !FileAt(cluster, pod, which, i, q)
  }

  lemma NoFileLast(cluster: Cluster, pod: Pod, which: Which, n: nat, q: Path)
    requires 0 < n <= |pod.volumes| && NoFileBy(cluster, pod, which, n, q)
    ensures NoFileBy(cluster, pod, which, n - 1, q) && !FileAt(cluster, pod, which, n - 1, q)
  {
  }

  lemma PathBefore(tree: Tree, cluster: Cluster, pod: Pod, which: Which, q: Path)
    ensures PathAfter(tree, cluster, pod, which, 0, q)
  {
  }

  lemma {:induction false} TreeAfterOther(tree: Tree, cluster: Cluster, pod: Pod, which: Which, n: nat, q: Path)
    requires n <= |pod.volumes| && NoFileBy(cluster, pod, which, n, q)
    ensures PathAfter(tree, cluster, pod, which, n, q)
  {
    if n == 0 {
      PathBefore(tree, cluster, pod, which, q);
    } else {
      NoFileLast(cluster, pod, which, n, q);
      TreeAfterOther(tree, cluster, pod, which, n - 1, q);
      PathMore(tree, cluster, pod, which, n, q);
    }
  }

  // Nothing of a UID yet, and no files in the place of /var and /var/run.
  predicate Untouched(tree: Tree, uid: string) {
    (forall q :: q in tree ==> !(VAR_RUN + [uid] <= q)) && !FileAbove(tree, VAR_RUN)
  }

  lemma OnTheWay(pod: Pod, i: nat, q: Path)
    requires Plain(pod.uid) && i < |pod.volumes| && q != [] && q <= DirOf(pod, i)
    ensures VAR_RUN + [pod.uid] <= q || (|q| <= 2 && q == VAR_RUN[..|q|])
  {
    DirOfShape(pod, i);
    var d := DirOf(pod, i);
    assert q == d[..|q|] && d[..2] == VAR_RUN && d[..3] == VAR_RUN + [pod.uid];
    if |q| >= 3 {
      assert q[..3] == d[..3];
    } else {
      assert q == d[..2][..|q|];
    }
  }

  lemma NoFileOnTheWay(tree: Tree, cluster: Cluster, pod: Pod, which: Which, i: nat, q: Path)
    requires Plain(pod.uid) && Untouched(tree, pod.uid) && i < |pod.volumes| && q != [] && q <= DirOf(pod, i)
    ensures
      var t := TreeAfter(tree, cluster, pod, which, i);
      !(q in t && t[q].File?)
  {
    DirOfShape(pod, i);
    forall j | 0 <= j < i
      ensures !FileAt(cluster, pod, which, j, q)
    {
      DirOfShape(pod, j);
    }
    TreeAfterOther(tree, cluster, pod, which, i, q);
    OnTheWay(pod, i, q);
  }

  lemma NoDirInstead(tree: Tree, cluster: Cluster, pod: Pod, which: Which, i: nat, k: FileKey)
    requires Plain(pod.uid) && Untouched(tree, pod.uid) && i < |pod.volumes|
    ensures !DirAt(TreeAfter(tree, cluster, pod, which, i), DirOf(pod, i) + [k])
  {
    DirOfShape(pod, i);
    var q := DirOf(pod, i) + [k];
    assert q[..3] == VAR_RUN + [pod.uid];
    if j :| 0 <= j < i && FileAt(cluster, pod, which, j, q) {
      TreeAfterFile(tree, cluster, pod, which, i, j, q);
    } else {
      forall j | 0 <= j < i
        ensures !(q <= DirOf(pod, j))
      {
        DirOfShape(pod, j);
      }
      assert !AsksDir(cluster, pod, which, i, q);
      TreeAfterOther(tree, cluster, pod, which, i, q);
    }
  }

  // So the volumes of a new pod can be set up unless one of them is refused.
  lemma NewPodSetsUp(tree: Tree, cluster: Cluster, pod: Pod, which: Which)
    requires Plain(pod.uid) && Untouched(tree, pod.uid)
    ensures Stops(tree, cluster, pod, which, |pod.volumes|)
      <==> exists i :: 0 <= i < |pod.volumes| && RefusedAt(cluster, pod, which, i)
  {
    forall i | 0 <= i < |pod.volumes|
      ensures StopsAt(tree, cluster, pod, which, i) <==> RefusedAt(cluster, pod, which, i)
    {
      var t, d := TreeAfter(tree, cluster, pod, which, i), DirOf(pod, i);
      DirOfShape(pod, i);
      forall n | 0 < n <= |d|
        ensures !(d[..n] in t && t[d[..n]].File?)
      {
        NoFileOnTheWay(tree, cluster, pod, which, i, d[..n]);
      }
      forall k: FileKey
        ensures !DirAt(t, d + [k])
      {
        NoDirInstead(tree, cluster, pod, which, i, k);
      }
    }
  }

  // A repeated run does not change the tree.
  lemma RunTwice(tree: Tree, cluster: Cluster, pod: Pod, which: Which)
    requires Plain(pod.uid)
    ensures
      var once := TreeAfter(tree, cluster, pod, which, |pod.volumes|);
      TreeAfter(once, cluster, pod, which, |pod.volumes|) == once
  {
    var n := |pod.volumes|;
    var once := TreeAfter(tree, cluster, pod, which, n);
    var twice := TreeAfter(once, cluster, pod, which, n);
    forall q
      ensures (q in twice <==> q in once) && (q in twice ==> twice[q] == once[q])
    {
      if i :| 0 <= i < n && FileAt(cluster, pod, which, i, q) {
        TreeAfterFile(tree, cluster, pod, which, n, i, q);
        TreeAfterFile(once, cluster, pod, which, n, i, q);
      } else {
        TreeAfterOther(tree, cluster, pod, which, n, q);
        TreeAfterOther(once, cluster, pod, which, n, q);
      }
    }
    SameTree(twice, once);
  }

  // A path in the directory of another pod or kind.
  lemma Elsewhere(pod: Pod, j: nat, uid: string, kind: string, i: nat, q: Path)
    requires j < |pod.volumes| && Plain(pod.uid) && Plain(uid) && KindName(kind)
    requires VolumeDir(uid, kind, i) <= q
    requires uid != pod.uid || kind != KindDir(pod.volumes[j].source)
    ensures !(q <= DirOf(pod, j)) && !(DirOf(pod, j) <= q)
  {
    VolumeDirPlain(uid, kind, i);
    DirOfShape(pod, j);
    var v, d := VolumeDir(uid, kind, i), DirOf(pod, j);
    assert v[2] == q[2] && v[3] == q[3];
  }

  // A refresh of one kind does not touch the other kinds.
  predicate OtherKind(which: Which, kind: string) {
    (which.OnlyConfigMaps? && kind != CONFIGMAP_DIR) || (which.OnlySecrets? && kind != SECRET_DIR)
  }

  lemma FilledKind(cluster: Cluster, namespace: string, source: VolumeSource, which: Which, kind: string)
    requires OutcomeOf(cluster, namespace, source, which).Filled? && OtherKind(which, kind)
    ensures kind != KindDir(source)
  {
  }

  lemma NotRefreshed(cluster: Cluster, pod: Pod, which: Which, j: nat, uid: string, kind: string, i: nat, q: Path)
    requires j < |pod.volumes| && Plain(pod.uid) && Plain(uid) && KindName(kind)
    requires uid != pod.uid || OtherKind(which, kind)
    requires VolumeDir(uid, kind, i) <= q
    ensures !FileAt(cluster, pod, which, j, q) && !(OutcomeAt(cluster, pod, which, j).Filled? && q <= DirOf(pod, j))
  {
    if OutcomeAt(cluster, pod, which, j).Filled? {
      if uid == pod.uid {
        FilledKind(cluster, pod.namespace, pod.volumes[j].source, which, kind);
      }
      Elsewhere(pod, j, uid, kind, i, q);
    }
  }

  // Refreshing one kind leaves the directories of the other kinds, and of other pods, as they were.
  lemma RefreshKeepsOthers(tree: Tree, cluster: Cluster, pod: Pod, which: Which, uid: string, kind: string, i: nat,
                           q: Path)
    requires Plain(pod.uid) && Plain(uid) && KindName(kind)
    requires uid != pod.uid || OtherKind(which, kind)
    requires VolumeDir(uid, kind, i) <= q
    ensures
      var t := TreeAfter(tree, cluster, pod, which, |pod.volumes|);
      (q in t <==> q in tree) && (q in t ==> t[q] == tree[q])
  {
    forall j | 0 <= j < |pod.volumes|
      ensures !FileAt(cluster, pod, which, j, q) && !(OutcomeAt(cluster, pod, which, j).Filled? && q <= DirOf(pod, j))
    {
      NotRefreshed(cluster, pod, which, j, uid, kind, i, q);
    }
    assert !AsksDir(cluster, pod, which, |pod.volumes|, q);
    TreeAfterOther(tree, cluster, pod, which, |pod.volumes|, q);
  }

  // The key's file has its current bytes.
  predicate Current(t: Tree, cluster: Cluster, pod: Pod, which: Which, i: nat, key: FileKey)
    requires i < |pod.volumes| && OutcomeAt(cluster, pod, which, i).Filled?
    requires key in FilesOf(OutcomeAt(cluster, pod, which, i))
  {
    var q := DirOf(pod, i) + [key];
    q in t && t[q] == File(FilesOf(OutcomeAt(cluster, pod, which, i))[key])
  }

  // Every key of a ConfigMap or Secret that is there ends up as a file with its current bytes.
  lemma CurrentData(tree: Tree, cluster: Cluster, pod: Pod, which: Which, i: nat, key: FileKey)
    requires Plain(pod.uid) && i < |pod.volumes| && OutcomeAt(cluster, pod, which, i).Filled?
    requires key in FilesOf(OutcomeAt(cluster, pod, which, i))
    ensures Current(TreeAfter(tree, cluster, pod, which, |pod.volumes|), cluster, pod, which, i, key)
  {
    var q := DirOf(pod, i) + [key];
    assert q[..|DirOf(pod, i)|] == DirOf(pod, i) && Last(q) == key;
    TreeAfterFile(tree, cluster, pod, which, |pod.volumes|, i, q);
  }

  lemma KeptByOthers(tree: Tree, cluster: Cluster, pod: Pod, other: Pod, which: Which, i: nat, key: FileKey)
    requires Plain(pod.uid) && Plain(other.uid) && pod.uid != other.uid
    requires i < |pod.volumes| && OutcomeAt(cluster, pod, which, i).Filled?
    requires key in FilesOf(OutcomeAt(cluster, pod, which, i)) && Current(tree, cluster, pod, which, i, key)
    ensures Current(TreeAfter(tree, cluster, other, which, |other.volumes|), cluster, pod, which, i, key)
  {
    RefreshKeepsOthers(tree, cluster, other, which, pod.uid, KindDir(pod.volumes[i].source), i, DirOf(pod, i) + [key]);
  }

  // A UID tells the pod.
  predicate UidsTell(pods: seq<Pod>) {
    && (forall a :: 0 <= a < |pods| ==> Plain(pods[a].uid))
    && (forall a, b :: 0 <= a < b < |pods| ==> pods[a].uid != pods[b].uid || pods[a] == pods[b])
  }

  lemma UidsTellLast(pods: seq<Pod>, j: nat)
    requires UidsTell(pods) && j < |pods| && pods[j] != pods[|pods| - 1]
    ensures j < |pods| - 1 && pods[j].uid != pods[|pods| - 1].uid && UidsTell(pods[..|pods| - 1])
    ensures Plain(pods[j].uid) && Plain(pods[|pods| - 1].uid)
  {
  }

  lemma {:induction false} EventDeliversTo(tree: Tree, cluster: Cluster, pods: seq<Pod>, which: Which, pod: Pod,
                                           i: nat, key: FileKey)
    requires UidsTell(pods) && pod in pods
    requires i < |pod.volumes| && OutcomeAt(cluster, pod, which, i).Filled?
    requires key in FilesOf(OutcomeAt(cluster, pod, which, i))
    ensures Current(RefreshedTree(tree, cluster, pods, which), cluster, pod, which, i, key)
  {
    var last := |pods| - 1;
    var j :| 0 <= j < |pods| && pods[j] == pod;
    if pod != pods[last] {
      UidsTellLast(pods, j);
      assert pods[..last][j] == pod;
      EventDeliversTo(tree, cluster, pods[..last], which, pod, i, key);
    }
    RefreshDelivers(RefreshedTree(tree, cluster, pods[..last], which), cluster, pod, pods[last], which, i, key);
  }

  // It brings the files of every pod on file up to date, also when a pod is on file several times.
  lemma EventDelivers(tree: Tree, cluster: Cluster, pods: seq<Pod>, which: Which, j: nat, i: nat, key: FileKey)
    requires UidsTell(pods)
    requires j < |pods| && i < |pods[j].volumes| && OutcomeAt(cluster, pods[j], which, i).Filled?
    requires key in FilesOf(OutcomeAt(cluster, pods[j], which, i))
    ensures Current(RefreshedTree(tree, cluster, pods, which), cluster, pods[j], which, i, key)
  {
    EventDeliversTo(tree, cluster, pods, which, pods[j], i, key);
  }

  lemma RefreshDelivers(tree: Tree, cluster: Cluster, pod: Pod, last: Pod, which: Which, i: nat, key: FileKey)
    requires Plain(pod.uid) && Plain(last.uid) && (pod == last || pod.uid != last.uid)
    requires i < |pod.volumes| && OutcomeAt(cluster, pod, which, i).Filled?
    requires key in FilesOf(OutcomeAt(cluster, pod, which, i))
    requires pod != last ==> Current(tree, cluster, pod, which, i, key)
    ensures Current(TreeAfter(tree, cluster, last, which, |last.volumes|), cluster, pod, which, i, key)
  {
    if pod == last {
      CurrentData(tree, cluster, pod, which, i, key);
    } else {
      KeptByOthers(tree, cluster, pod, last, which, i, key);
    }
  }

  lemma {:induction false} OfferUnder(cluster: Cluster, pod: Pod, which: Which, n: nat, q: Path, data: Bytes)
    requires Plain(pod.uid) && n <= |pod.volumes| && (q, data) in OffersAfter(cluster, pod, which, n)
    ensures |q| > 2 && q[2] == pod.uid
  {
    if (q, data) in OffersAt(cluster, pod, which, n - 1) {
      DirOfShape(pod, n - 1);
      assert DirOf(pod, n - 1) <= q;
      assert q[2] == DirOf(pod, n - 1)[2];
    } else {
      OfferUnder(cluster, pod, which, n - 1, q, data);
    }
  }

  // A published file below the directory of that UID.
  predicate PublishedFor(t: Tree, uid: string, q: Path) {
    q in t && t[q].File? && !Temporary(q) && |q| > 2 && q[2] == uid
  }

  // A turn of another pod leaves it alone, also when it fails.
  lemma OtherTurn(a: Tree, b: Tree, cluster: Cluster, other: Pod, which: Which, uid: string, q: Path)
    requires Plain(other.uid) && uid != other.uid && PublishedFor(a, uid, q)
    requires Untorn(a, b, OffersAfter(cluster, other, which, |other.volumes|))
    ensures PublishedFor(b, uid, q) && b[q] == a[q]
  {
    if (q, b[q].data) in OffersAfter(cluster, other, which, |other.volumes|) {
      OfferUnder(cluster, other, which, |other.volumes|, q, b[q].data);
    }
  }

  lemma TurnUntorn(trees: seq<Tree>, cluster: Cluster, accounts: Accounts, maproot: int, pods: seq<Pod>, which: Which,
                   k: nat)
    requires Turns(trees, cluster, accounts, maproot, pods, which) && k < |pods|
    ensures Untorn(trees[k], trees[k + 1], OffersAfter(cluster, pods[k], which, |pods[k].volumes|))
  {
    assert TurnAt(trees, cluster, accounts, maproot, pods, which, k);
  }

  // From m on, no pod goes by that UID.
  predicate Unused(pods: seq<Pod>, m: nat, uid: string) {
    forall a :: m <= a < |pods| ==> Plain(pods[a].uid) && pods[a].uid != uid
  }

  lemma {:induction false} OtherTurns(trees: seq<Tree>, cluster: Cluster, accounts: Accounts, maproot: int,
                                      pods: seq<Pod>, which: Which, m: nat, n: nat, uid: string, q: Path)
    requires Turns(trees, cluster, accounts, maproot, pods, which) && m <= n <= |pods|
    requires Unused(pods, m, uid) && PublishedFor(trees[m], uid, q)
    ensures PublishedFor(trees[n], uid, q) && trees[n][q] == trees[m][q]
  {
    if m < n {
      OtherTurns(trees, cluster, accounts, maproot, pods, which, m, n - 1, uid, q);
      TurnUntorn(trees, cluster, accounts, maproot, pods, which, n - 1);
      OtherTurn(trees[n - 1], trees[n], cluster, pods[n - 1], which, uid, q);
    }
  }

  lemma OwnTurn(trees: seq<Tree>, cluster: Cluster, accounts: Accounts, maproot: int, pods: seq<Pod>, which: Which,
                j: nat, i: nat, key: FileKey)
    requires Turns(trees, cluster, accounts, maproot, pods, which) && j < |pods|
    requires CanSetUp(trees[j], cluster, accounts, maproot, pods[j], which)
    requires Plain(pods[j].uid) && i < |pods[j].volumes| && OutcomeAt(cluster, pods[j], which, i).Filled?
    requires key in FilesOf(OutcomeAt(cluster, pods[j], which, i))
    ensures Current(trees[j + 1], cluster, pods[j], which, i, key)
  {
    assert TurnAt(trees, cluster, accounts, maproot, pods, which, j);
    CurrentData(trees[j], cluster, pods[j], which, i, key);
  }

  lemma CurrentPublished(a: Tree, cluster: Cluster, pod: Pod, which: Which, i: nat, key: FileKey)
    requires i < |pod.volumes| && OutcomeAt(cluster, pod, which, i).Filled?
    requires key in FilesOf(OutcomeAt(cluster, pod, which, i))
    requires Plain(pod.uid) && !HasSuffix(key, TEMP_SUFFIX) && Current(a, cluster, pod, which, i, key)
    ensures PublishedFor(a, pod.uid, DirOf(pod, i) + [key])
  {
    FileBelow(pod, i, key);
  }

  lemma FileBelow(pod: Pod, i: nat, key: FileKey)
    requires Plain(pod.uid) && i < |pod.volumes|
    ensures
      var q := DirOf(pod, i) + [key];
      |q| > 2 && q[2] == pod.uid && Last(q) == key
  {
    DirOfShape(pod, i);
  }

  lemma CurrentKept(a: Tree, b: Tree, cluster: Cluster, pod: Pod, which: Which, i: nat, key: FileKey)
    requires i < |pod.volumes| && OutcomeAt(cluster, pod, which, i).Filled?
    requires key in FilesOf(OutcomeAt(cluster, pod, which, i)) && Current(a, cluster, pod, which, i, key)
    requires
      var q := DirOf(pod, i) + [key];
      q in b && b[q] == a[q]
    ensures Current(b, cluster, pod, which, i, key)
  {
  }

  // Whatever fails for other pods: a pod whose own refresh succeeds has its current files in the end, if
  // none that comes after it goes by its UID.
  lemma TurnDelivers(trees: seq<Tree>, cluster: Cluster, accounts: Accounts, maproot: int, pods: seq<Pod>, which: Which,
                     j: nat, i: nat, key: FileKey)
    requires Turns(trees, cluster, accounts, maproot, pods, which) && j < |pods|
    requires Plain(pods[j].uid) && Unused(pods, j + 1, pods[j].uid)
    requires CanSetUp(trees[j], cluster, accounts, maproot, pods[j], which)
    requires i < |pods[j].volumes| && OutcomeAt(cluster, pods[j], which, i).Filled?
    requires key in FilesOf(OutcomeAt(cluster, pods[j], which, i)) && !HasSuffix(key, TEMP_SUFFIX)
    ensures Current(trees[|pods|], cluster, pods[j], which, i, key)
  {
    OwnTurn(trees, cluster, accounts, maproot, pods, which, j, i, key);
    CurrentPublished(trees[j + 1], cluster, pods[j], which, i, key);
    OtherTurns(trees, cluster, accounts, maproot, pods, which, j + 1, |pods|, pods[j].uid, DirOf(pods[j], i) + [key]);
    CurrentKept(trees[j + 1], trees[|pods|], cluster, pods[j], which, i, key);
  }

  // A key that is not, or no longer, in its resource: its path stays as it was. A refresh writes, it never deletes.
  lemma RemovedKeyStays(tree: Tree, cluster: Cluster, pod: Pod, which: Which, i: nat, key: FileKey)
    requires Plain(pod.uid) && i < |pod.volumes| && OutcomeAt(cluster, pod, which, i).Filled?
    requires key !in FilesOf(OutcomeAt(cluster, pod, which, i))
    ensures SameAt(tree, TreeAfter(tree, cluster, pod, which, |pod.volumes|), DirOf(pod, i) + [key])
  {
    var q := DirOf(pod, i) + [key];
    var n := |pod.volumes|;
    DirOfShape(pod, i);
    forall j | 0 <= j < n
      ensures !FileAt(cluster, pod, which, j, q) && !(q <= DirOf(pod, j))
    {
      DirOfShape(pod, j);
      if FileAt(cluster, pod, which, j, q) {
        assert q[..5] == DirOf(pod, j) && q[..5] == DirOf(pod, i);
        assert q[..5][4] == Slot(i) && q[..5][4] == Slot(j);
        SlotInjective(i, j);
      }
    }
    TreeAfterOther(tree, cluster, pod, which, n, q);
  }

  // ---- Cleaning up: os.RemoveAll of /var/run joined with the pod's UID.

  function CleanTarget(uid: string): Path {
    JoinPath(VAR_RUN, uid)
  }

  // For an ordinary UID exactly that pod's tree goes...
  lemma BelowTarget(uid: string, other: string, kind: string, slot: string, q: Path)
    requires VAR_RUN + [other, kind, slot] <= q
    ensures VAR_RUN + [uid] <= q <==> other == uid
  {
    var d := VAR_RUN + [other, kind, slot];
    assert d[0] == q[0] && d[1] == q[1] && d[2] == q[2];
    if other == uid {
      assert VAR_RUN + [uid] == q[..3];
    } else {
      assert (VAR_RUN + [uid])[2] == uid;
    }
  }

  lemma CleanExact(tree: Tree, uid: string, other: string, kind: string, i: nat, q: Path)
    requires Plain(uid) && Plain(other) && KindName(kind) && VolumeDir(other, kind, i) <= q
    ensures q in Removed(tree, CleanTarget(uid)) <==> q in tree && other != uid
    ensures q in Removed(tree, CleanTarget(uid)) ==> Removed(tree, CleanTarget(uid))[q] == tree[q]
  {
    JoinPlain(VAR_RUN, uid);
    VolumeDirPlain(other, kind, i);
    BelowTarget(uid, other, kind, Slot(i), q);
  }

  // ...while with an empty UID, or ".", everything below /var/run goes, and with ".." all of /var.
  lemma CleanEverything(tree: Tree, uid: string, q: Path)
    requires uid == "" || uid == "." || uid == ".."
    requires (if uid == ".." then ["var"] else VAR_RUN) <= q
    ensures q !in Removed(tree, CleanTarget(uid))
  {
    SplitWhole(uid, '/');
    assert [uid][1..] == [];
    assert Walk(VAR_RUN, []) == VAR_RUN && Walk(["var"], []) == ["var"] && VAR_RUN[..1] == ["var"];
  }

  // Cleaning up after this UID leaves all that is below the volume directories of other pods.
  ghost predicate Spares(uid: string) {
    forall tree: Tree, other, kind, i: nat, q ::
      Plain(other) && other != uid && KindName(kind) && VolumeDir(other, kind, i) <= q && q in tree
      ==> q in Removed(tree, CleanTarget(uid))
  }

  lemma PlainSpares(uid: string)
    requires Plain(uid)
    ensures Spares(uid)
  {
    forall tree: Tree, other, kind, i: nat, q |
      Plain(other) && other != uid && KindName(kind) && VolumeDir(other, kind, i) <= q && q in tree
      ensures q in Removed(tree, CleanTarget(uid))
    {
      CleanExact(tree, uid, other, kind, i, q);
    }
  }

  lemma NotSpared(uid: string, tree: Tree, q: Path)
    requires uid == "" || uid == "." || uid == ".."
    requires q in tree && q == VolumeDir("x", EMPTY_DIR, 0)
    ensures !Spares(uid)
  {
    VolumeDirPlain("x", EMPTY_DIR, 0);
    assert q[..2] == VAR_RUN && q[..1] == ["var"];
    CleanEverything(tree, uid, q);
    assert Plain("x") && "x" != uid && KindName(EMPTY_DIR) && VolumeDir("x", EMPTY_DIR, 0) <= q;
  }

  // Of the UIDs without a slash exactly the ordinary ones do.
  lemma CleanSpares(uid: string)
    requires '/' !in uid
    ensures Spares(uid) <==> Plain(uid)
  {
    if Plain(uid) {
      PlainSpares(uid);
    } else {
      var q := VolumeDir("x", EMPTY_DIR, 0);
      NotSpared(uid, map[q := Dir], q);
    }
  }

  // A refresh of a pod that comes after it has been cleaned up brings its directories back.
  lemma RefreshAfterClean(tree: Tree, cluster: Cluster, pod: Pod, which: Which, i: nat)
    requires Plain(pod.uid) && i < |pod.volumes| && OutcomeAt(cluster, pod, which, i).Filled?
    ensures DirOf(pod, i) !in Removed(tree, CleanTarget(pod.uid))
    ensures
      var after := TreeAfter(Removed(tree, CleanTarget(pod.uid)), cluster, pod, which, |pod.volumes|);
      NodeAt(after, DirOf(pod, i), Dir)
  {
    var q := DirOf(pod, i);
    DirOfShape(pod, i);
    JoinPlain(VAR_RUN, pod.uid);
    assert q[..3] == CleanTarget(pod.uid);
    forall j | 0 <= j < |pod.volumes|
      ensures !FileAt(cluster, pod, which, j, q)
    {
      DirOfShape(pod, j);
    }
    assert AsksDir(cluster, pod, which, |pod.volumes|, q);
    TreeAfterOther(Removed(tree, CleanTarget(pod.uid)), cluster, pod, which, |pod.volumes|, q);
  }
}
