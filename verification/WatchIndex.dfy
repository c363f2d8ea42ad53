// internal/kubernetes/watch.go: which pods to tell about a ConfigMap or Secret, and back.

module WatchIndex {
  import opened Strings
  import opened Kube

  type Key = NamespacedName

  // One kind of resource: the forward map (resource to pods) and the reverse map (pod to resources).
  datatype Side = Side(forward: map<Key, seq<Pod>>, reverse: map<Key, seq<Key>>)

  datatype Index = Index(configs: Side, secrets: Side)

  const EMPTY_SIDE := Side(map[], map[])
  const EMPTY_INDEX := Index(EMPTY_SIDE, EMPTY_SIDE)

  // Go's maps of slices: a missing key reads as the empty slice.
  function ListAt<K(==), V>(lists: map<K, seq<V>>, k: K): seq<V> {
    if k in lists then lists[k] else []
  }

  function Filed(s: Side, k: Key): seq<Pod> {
    ListAt(s.forward, k)
  }

  function Uses(s: Side, p: Key): seq<Key> {
    ListAt(s.reverse, p)
  }

  // The resources a pod's volumes name, in volume order, repetitions included.
  function ConfigKeys(pod: Pod, volumes: seq<Volume>): seq<Key> {
    if volumes == [] then []
    else
      var earlier := ConfigKeys(pod, volumes[..|volumes| - 1]);
      match volumes[|volumes| - 1].source
      case ConfigMapSource(name, _) => earlier + [NamespacedName(pod.namespace, name)]
      case _ => earlier
  }

  function SecretKeys(pod: Pod, volumes: seq<Volume>): seq<Key> {
    if volumes == [] then []
    else
      var earlier := SecretKeys(pod, volumes[..|volumes| - 1]);
      match volumes[|volumes| - 1].source
      case SecretSource(name, _) => earlier + [NamespacedName(pod.namespace, name)]
      case _ => earlier
  }

  function FileOne(s: Side, pod: Pod, k: Key): Side {
    Side(s.forward[k := Filed(s, k) + [pod]], s.reverse[KeyOf(pod) := Uses(s, KeyOf(pod)) + [k]])
  }

  function FileAll(s: Side, pod: Pod, keys: seq<Key>): Side {
    if keys == [] then s
    else FileOne(FileAll(s, pod, keys[..|keys| - 1]), pod, keys[|keys| - 1])
  }

  // The entry filter of Unwatch. As written the loop variable shadows the parameter and is compared
  // with itself; the intended comparison is with the key of the pod that goes.
  datatype Filter = AsWritten | Intended

  predicate Drops(f: Filter, entry: Pod, p: Key) {
    match f
    case AsWritten => entry.namespace == entry.namespace && entry.name == entry.name
    case Intended => entry.namespace == p.namespace && entry.name == p.name
  }

  function Kept(f: Filter, entries: seq<Pod>, p: Key): seq<Pod> {
    if entries == [] then []
    else
      var k := |entries| - 1;
      Kept(f, entries[..k], p) + (if Drops(f, entries[k], p) then [] else [entries[k]])
  }

  function PruneOne(f: Filter, forward: map<Key, seq<Pod>>, p: Key, k: Key): map<Key, seq<Pod>> {
    var kept := Kept(f, ListAt(forward, k), p);
    if kept == [] then forward - {k} else forward[k := kept]
  }

  function PruneAll(f: Filter, forward: map<Key, seq<Pod>>, p: Key, keys: seq<Key>): map<Key, seq<Pod>> {
    if keys == [] then forward
    else PruneOne(f, PruneAll(f, forward, p, keys[..|keys| - 1]), p, keys[|keys| - 1])
  }

  function UnwatchSide(f: Filter, s: Side, p: Key): Side {
    Side(PruneAll(f, s.forward, p, Uses(s, p)), s.reverse - {p})
  }

  function WatchStep(ix: Index, pod: Pod): Index {
    Index(FileAll(ix.configs, pod, ConfigKeys(pod, pod.volumes)),
      FileAll(ix.secrets, pod, SecretKeys(pod, pod.volumes)))
  }

  function UnwatchStep(f: Filter, ix: Index, p: Key): Index {
    Index(UnwatchSide(f, ix.configs, p), UnwatchSide(f, ix.secrets, p))
  }

  datatype Event = ConfigMapEvent(key: Key) | SecretEvent(key: Key) | OtherEvent

  function Notified(ix: Index, e: Event): seq<Pod> {
    match e
    case ConfigMapEvent(k) => Filed(ix.configs, k)
    case SecretEvent(k) => Filed(ix.secrets, k)
    case OtherEvent => []
  }

  // The watcher: four map fields, updated under the write lock.
  class Watcher {
    var configs: map<Key, seq<Pod>>
    var cmKeysByPod: map<Key, seq<Key>>
    var secrets: map<Key, seq<Pod>>
    var secretKeysByPod: map<Key, seq<Key>>

    function View(): Index
      reads this
    {
      Index(Side(configs, cmKeysByPod), Side(secrets, secretKeysByPod))
    }

    constructor ()
      ensures View() == EMPTY_INDEX
    {
      configs, cmKeysByPod, secrets, secretKeysByPod := map[], map[], map[], map[];
    }

    method Watch(pod: Pod)
      modifies this
      ensures View() == WatchStep(old(View()), pod)
    {
      var podKey := NamespacedName(pod.namespace, pod.name);
      ghost var was := View();
      for i := 0 to |pod.volumes|
        invariant Side(configs, cmKeysByPod) == FileAll(was.configs, pod, ConfigKeys(pod, pod.volumes[..i]))
        invariant Side(secrets, secretKeysByPod) == FileAll(was.secrets, pod, SecretKeys(pod, pod.volumes[..i]))
      {
        assert pod.volumes[..i + 1][..i] == pod.volumes[..i];
        ghost var cmKeys, secretKeys := ConfigKeys(pod, pod.volumes[..i]), SecretKeys(pod, pod.volumes[..i]);
        match pod.volumes[i].source
        {
          case ConfigMapSource(name, _) =>
            var cmKey := NamespacedName(pod.namespace, name);
            FileSnoc(was.configs, pod, cmKeys, cmKey);
            configs, cmKeysByPod := File(configs, cmKeysByPod, pod, podKey, cmKey);
          case SecretSource(name, _) =>
            var secretKey := NamespacedName(pod.namespace, name);
            FileSnoc(was.secrets, pod, secretKeys, secretKey);
            secrets, secretKeysByPod := File(secrets, secretKeysByPod, pod, podKey, secretKey);
          case _ =>
        }
      }
      assert pod.volumes[..|pod.volumes|] == pod.volumes;
    }

    // One append to a forward list and one to a reverse list.
    static method File(forward: map<Key, seq<Pod>>, reverse: map<Key, seq<Key>>, pod: Pod, podKey: Key, key: Key)
      returns (f: map<Key, seq<Pod>>, r: map<Key, seq<Key>>)
      requires podKey == KeyOf(pod)
      ensures Side(f, r) == FileOne(Side(forward, reverse), pod, key)
    {
      f := forward[key := ListAt(forward, key) + [pod]];
      r := reverse[podKey := ListAt(reverse, podKey) + [key]];
    }

    // The inner loop of Unwatch, with the comparison the source makes: podKey is not looked at.
    static method Others(entries: seq<Pod>, podKey: Key) returns (watchedPods: seq<Pod>)
      ensures watchedPods == Kept(AsWritten, entries, podKey)
    {
      watchedPods := [];
      for j := 0 to |entries|
        invariant watchedPods == Kept(AsWritten, entries[..j], podKey)
      {
        var pod := entries[j];
        assert entries[..j + 1][..j] == entries[..j];
        if pod.namespace == pod.namespace && pod.name == pod.name {
          continue;
        }
        watchedPods := watchedPods + [pod];
      }
      assert entries[..|entries|] == entries;
    }

    // The loop nest that Unwatch has once for each kind.
    static method Sweep(forward: map<Key, seq<Pod>>, podKey: Key, keys: seq<Key>) returns (swept: map<Key, seq<Pod>>)
      ensures swept == PruneAll(AsWritten, forward, podKey, keys)
    {
      swept := forward;
      for i := 0 to |keys|
        invariant swept == PruneAll(AsWritten, forward, podKey, keys[..i])
      {
        PruneMore(AsWritten, forward, podKey, keys, i);
        var watchedPods := Others(ListAt(swept, keys[i]), podKey);
        if |watchedPods| == 0 {
          swept := swept - {keys[i]};
          continue;
        }
        swept := swept[keys[i] := watchedPods];
      }
      assert keys[..|keys|] == keys;
    }

    method Unwatch(pod: Pod)
      modifies this
      ensures View() == UnwatchStep(AsWritten, old(View()), KeyOf(pod))
    {
      var podKey := NamespacedName(pod.namespace, pod.name);
      configs := Sweep(configs, podKey, ListAt(cmKeysByPod, podKey));
      cmKeysByPod := cmKeysByPod - {podKey};
      secrets := Sweep(secrets, podKey, ListAt(secretKeysByPod, podKey));
      secretKeysByPod := secretKeysByPod - {podKey};
    }

    // handleEvent: the pods handed to the updater, one call per entry. The iteration runs without
    // the lock; module WatchSlices says what other threads can do to it meanwhile.
    method HandleEvent(e: Event) returns (notified: seq<Pod>)
      ensures notified == Notified(View(), e)
    {
      var pods := match e
        case ConfigMapEvent(k) => ListAt(configs, k)
        case SecretEvent(k) => ListAt(secrets, k)
        case OtherEvent => [];
      notified := [];
      for i := 0 to |pods|
        invariant notified == pods[..i]
      {
        notified := notified + [pods[i]];
      }
    }
  }

  lemma PruneMore(f: Filter, forward: map<Key, seq<Pod>>, p: Key, keys: seq<Key>, i: nat)
    requires i < |keys|
    ensures PruneAll(f, forward, p, keys[..i + 1]) == PruneOne(f, PruneAll(f, forward, p, keys[..i]), p, keys[i])
  {
    assert keys[..i + 1][..i] == keys[..i];
  }

  lemma FileSnoc(s: Side, pod: Pod, keys: seq<Key>, k: Key)
    ensures FileAll(s, pod, keys + [k]) == FileOne(FileAll(s, pod, keys), pod, k)
  {
    assert (keys + [k])[..|keys|] == keys;
  }

  // ---- Runs.

  datatype Op = Watch(pod: Pod) | Unwatch(pod: Pod)

  function Step(f: Filter, ix: Index, op: Op): Index {
    match op
    case Watch(pod) => WatchStep(ix, pod)
    case Unwatch(pod) => UnwatchStep(f, ix, KeyOf(pod))
  }

  function Run(f: Filter, ops: seq<Op>): Index {
    if ops == [] then EMPTY_INDEX
    else Step(f, Run(f, ops[..|ops| - 1]), ops[|ops| - 1])
  }

  // ---- What filing and pruning do to one list.

  // How many entries belong to pod p, and how often k occurs among keys.
  function Entries(entries: seq<Pod>, p: Key): nat {
    if entries == [] then 0
    else Entries(entries[..|entries| - 1], p) + (if KeyOf(entries[|entries| - 1]) == p then 1 else 0)
  }

  function Times(keys: seq<Key>, k: Key): nat {
    if keys == [] then 0
    else Times(keys[..|keys| - 1], k) + (if keys[|keys| - 1] == k then 1 else 0)
  }

  function Copies(pod: Pod, n: nat): seq<Pod> {
    seq(n, _ => pod)
  }

  lemma {:induction false} TimesPositive(keys: seq<Key>, k: Key)
    ensures Times(keys, k) > 0 <==> k in keys
  {
    if keys != [] {
      var j := |keys| - 1;
      TimesPositive(keys[..j], k);
      assert keys == keys[..j] + [keys[j]];
    }
  }

  lemma {:induction false} TimesAppend(a: seq<Key>, b: seq<Key>, k: Key)
    ensures Times(a + b, k) == Times(a, k) + Times(b, k)
  {
    if b == [] {
      assert a + b == a;
    } else {
      TimesAppend(a, b[..|b| - 1], k);
      assert (a + b)[..|a + b| - 1] == a + b[..|b| - 1];
    }
  }

  lemma {:induction false} EntriesPositive(entries: seq<Pod>, p: Key)
    ensures Entries(entries, p) > 0 <==> exists e :: e in entries && KeyOf(e) == p
  {
    if entries != [] {
      var j := |entries| - 1;
      EntriesPositive(entries[..j], p);
      assert entries == entries[..j] + [entries[j]];
    }
  }

  lemma {:induction false} EntriesAppend(a: seq<Pod>, b: seq<Pod>, p: Key)
    ensures Entries(a + b, p) == Entries(a, p) + Entries(b, p)
  {
    if b == [] {
      assert a + b == a;
    } else {
      EntriesAppend(a, b[..|b| - 1], p);
      assert (a + b)[..|a + b| - 1] == a + b[..|b| - 1];
    }
  }

  lemma {:induction false} EntriesOfCopies(pod: Pod, n: nat, p: Key)
    ensures Entries(Copies(pod, n), p) == if KeyOf(pod) == p then n else 0
  {
    if n > 0 {
      EntriesOfCopies(pod, n - 1, p);
      assert Copies(pod, n)[..n - 1] == Copies(pod, n - 1);
    }
  }

  lemma {:induction false} KeptAsWritten(entries: seq<Pod>, p: Key)
    ensures Kept(AsWritten, entries, p) == []
  {
    if entries != [] {
      KeptAsWritten(entries[..|entries| - 1], p);
    }
  }

  lemma {:induction false} KeptAppend(f: Filter, a: seq<Pod>, b: seq<Pod>, p: Key)
    ensures Kept(f, a + b, p) == Kept(f, a, p) + Kept(f, b, p)
  {
    if b == [] {
      assert a + b == a;
    } else {
      KeptAppend(f, a, b[..|b| - 1], p);
      assert (a + b)[..|a + b| - 1] == a + b[..|b| - 1];
    }
  }

  lemma {:induction false} KeptOfCopies(pod: Pod, n: nat)
    ensures Kept(Intended, Copies(pod, n), KeyOf(pod)) == []
  {
    if n > 0 {
      KeptOfCopies(pod, n - 1);
      assert Copies(pod, n)[..n - 1] == Copies(pod, n - 1);
    }
  }

  lemma {:induction false} KeptAll(entries: seq<Pod>, p: Key)
    ensures Entries(entries, p) == 0 <==> Kept(Intended, entries, p) == entries
    ensures Entries(entries, p) + |Kept(Intended, entries, p)| == |entries|
  {
    if entries != [] {
      var j := |entries| - 1;
      KeptAll(entries[..j], p);
      assert entries == entries[..j] + [entries[j]];
    }
  }

  lemma {:induction false} EntriesOfKept(entries: seq<Pod>, p: Key, q: Key)
    ensures Entries(Kept(Intended, entries, p), q) == if p == q then 0 else Entries(entries, q)
  {
    if entries != [] {
      var j := |entries| - 1;
      EntriesOfKept(entries[..j], p, q);
      EntriesAppend(Kept(Intended, entries[..j], p), if Drops(Intended, entries[j], p) then [] else [entries[j]], q);
      assert [entries[j]][..0] == [];
    }
  }

  lemma {:induction false} KeptMembers(f: Filter, entries: seq<Pod>, p: Key)
    ensures forall e :: e in Kept(f, entries, p) <==> e in entries && !Drops(f, e, p)
  {
    if entries != [] {
      var j := |entries| - 1;
      KeptMembers(f, entries[..j], p);
      assert entries == entries[..j] + [entries[j]];
    }
  }

  // ---- What filing and pruning do to a side.

  lemma FileOneForward(s: Side, pod: Pod, key: Key, k: Key)
    ensures Filed(FileOne(s, pod, key), k) == Filed(s, k) + Copies(pod, if k == key then 1 else 0)
    ensures k in FileOne(s, pod, key).forward <==> k in s.forward || k == key
  {
    assert Copies(pod, 1) == [pod] && Copies(pod, 0) == [];
  }

  lemma InLast(keys: seq<Key>, k: Key)
    requires keys != []
    ensures k in keys <==> k in keys[..|keys| - 1] || k == keys[|keys| - 1]
  {
    assert keys == keys[..|keys| - 1] + [keys[|keys| - 1]];
  }

  lemma CopiesAppend(entries: seq<Pod>, pod: Pod, m: nat, n: nat)
    ensures entries + Copies(pod, m) + Copies(pod, n) == entries + Copies(pod, m + n)
  {
  }

  lemma {:induction false} FileAllForward(s: Side, pod: Pod, keys: seq<Key>, k: Key)
    ensures Filed(FileAll(s, pod, keys), k) == Filed(s, k) + Copies(pod, Times(keys, k))
    ensures k in FileAll(s, pod, keys).forward <==> k in s.forward || k in keys
  {
    if keys == [] {
      assert Copies(pod, 0) == [];
    } else {
      var j := |keys| - 1;
      FileAllForward(s, pod, keys[..j], k);
      FileOneForward(FileAll(s, pod, keys[..j]), pod, keys[j], k);
      CopiesAppend(Filed(s, k), pod, Times(keys[..j], k), if k == keys[j] then 1 else 0);
      InLast(keys, k);
    }
  }

  lemma {:induction false} FileAllReverse(s: Side, pod: Pod, keys: seq<Key>, q: Key)
    ensures Uses(FileAll(s, pod, keys), q) == if q == KeyOf(pod) then Uses(s, q) + keys else Uses(s, q)
    ensures q in FileAll(s, pod, keys).reverse <==> q in s.reverse || (q == KeyOf(pod) && keys != [])
  {
    if keys != [] {
      var j := |keys| - 1;
      FileAllReverse(s, pod, keys[..j], q);
      assert keys == keys[..j] + [keys[j]];
      assert Uses(s, q) + keys == Uses(s, q) + keys[..j] + [keys[j]];
    }
  }

  lemma FileAllEffect(s: Side, pod: Pod, keys: seq<Key>, k: Key, q: Key)
    ensures Filed(FileAll(s, pod, keys), k) == Filed(s, k) + Copies(pod, Times(keys, k))
    ensures k in FileAll(s, pod, keys).forward <==> k in s.forward || k in keys
    ensures Uses(FileAll(s, pod, keys), q) == if q == KeyOf(pod) then Uses(s, q) + keys else Uses(s, q)
    ensures q in FileAll(s, pod, keys).reverse <==> q in s.reverse || (q == KeyOf(pod) && keys != [])
  {
    FileAllForward(s, pod, keys, k);
    FileAllReverse(s, pod, keys, q);
  }

  lemma PruneOneEffect(f: Filter, forward: map<Key, seq<Pod>>, p: Key, key: Key, k: Key)
    ensures ListAt(PruneOne(f, forward, p, key), k)
         == if k == key then Kept(f, ListAt(forward, k), p) else ListAt(forward, k)
    ensures k in PruneOne(f, forward, p, key)
      <==> if k == key then Kept(f, ListAt(forward, k), p) != [] else k in forward
  {
  }

  lemma {:induction false} PruneAllEffect(f: Filter, forward: map<Key, seq<Pod>>, p: Key, keys: seq<Key>, k: Key)
    ensures ListAt(PruneAll(f, forward, p, keys), k)
         == if k in keys then Kept(f, ListAt(forward, k), p) else ListAt(forward, k)
    ensures k in PruneAll(f, forward, p, keys)
      <==> if k in keys then Kept(f, ListAt(forward, k), p) != [] else k in forward
  {
    if keys != [] {
      var front, key := keys[..|keys| - 1], keys[|keys| - 1];
      assert keys == front + [key];
      PruneAllEffect(f, forward, p, front, k);
      PruneOneEffect(f, PruneAll(f, forward, p, front), p, key, k);
      KeptTwice(f, ListAt(forward, k), p);
    }
  }

  lemma KeptTwice(f: Filter, entries: seq<Pod>, p: Key)
    ensures Kept(f, Kept(f, entries, p), p) == Kept(f, entries, p)
  {
    match f
    case AsWritten => KeptAsWritten(entries, p);
    case Intended =>
      EntriesOfKept(entries, p, p);
      KeptAll(Kept(Intended, entries, p), p);
  }

  // ---- Invariants of the index.

  // No list is empty.
  ghost predicate Tidy(s: Side) {
    (forall k :: k in s.forward ==> s.forward[k] != []) && (forall p :: p in s.reverse ==> s.reverse[p] != [])
  }

  // Every forward entry can be found from its pod.
  ghost predicate Safe(s: Side) {
    forall k, e :: e in Filed(s, k) ==> k in Uses(s, KeyOf(e))
  }

  // Forward entries and reverse keys agree, with multiplicity.
  ghost predicate Agrees(s: Side) {
    forall k, p :: Entries(Filed(s, k), p) == Times(Uses(s, p), k)
  }

  lemma FileAllKeeps(s: Side, pod: Pod, keys: seq<Key>)
    requires Tidy(s) && Safe(s)
    ensures Tidy(FileAll(s, pod, keys)) && Safe(FileAll(s, pod, keys))
  {
    var t := FileAll(s, pod, keys);
    forall k
      ensures k in t.forward ==> t.forward[k] != []
      ensures forall e :: e in Filed(t, k) ==> k in Uses(t, KeyOf(e))
    {
      FileAllEffect(s, pod, keys, k, k);
      TimesPositive(keys, k);
      forall e | e in Filed(t, k)
        ensures k in Uses(t, KeyOf(e))
      {
        FileAllEffect(s, pod, keys, k, KeyOf(e));
        if e !in Filed(s, k) {
          assert e in Copies(pod, Times(keys, k));
        }
      }
    }
    forall q | q in t.reverse
      ensures t.reverse[q] != []
    {
      FileAllEffect(s, pod, keys, q, q);
    }
  }

  lemma UnwatchKeeps(f: Filter, s: Side, p: Key)
    requires Tidy(s) && Safe(s)
    ensures Tidy(UnwatchSide(f, s, p)) && Safe(UnwatchSide(f, s, p))
    ensures forall k, e :: e in Filed(UnwatchSide(f, s, p), k) ==> KeyOf(e) != p
  {
    var t := UnwatchSide(f, s, p);
    forall k
      ensures k in t.forward ==> t.forward[k] != []
      ensures forall e :: e in Filed(t, k) ==> KeyOf(e) != p && k in Uses(t, KeyOf(e))
    {
      PruneAllEffect(f, s.forward, p, Uses(s, p), k);
      KeptMembers(f, Filed(s, k), p);
    }
  }

  // In every reachable state, with either filter, no list is empty and every entry is safe.
  lemma {:induction false} RunSafe(f: Filter, ops: seq<Op>)
    ensures Tidy(Run(f, ops).configs) && Safe(Run(f, ops).configs)
    ensures Tidy(Run(f, ops).secrets) && Safe(Run(f, ops).secrets)
  {
    if ops != [] {
      var k := |ops| - 1;
      var ix := Run(f, ops[..k]);
      RunSafe(f, ops[..k]);
      match ops[k]
      case Watch(pod) =>
        FileAllKeeps(ix.configs, pod, ConfigKeys(pod, pod.volumes));
        FileAllKeeps(ix.secrets, pod, SecretKeys(pod, pod.volumes));
      case Unwatch(pod) =>
        UnwatchKeeps(f, ix.configs, KeyOf(pod));
        UnwatchKeeps(f, ix.secrets, KeyOf(pod));
    }
  }

  // After Unwatch(pod), no event of any kind reaches that pod, whatever happened before.
  lemma UnwatchForgets(f: Filter, ops: seq<Op>, pod: Pod, e: Event)
    ensures forall entry :: entry in Notified(Run(f, ops + [Unwatch(pod)]), e) ==> KeyOf(entry) != KeyOf(pod)
  {
    var ix := Run(f, ops);
    RunSafe(f, ops);
    assert (ops + [Unwatch(pod)])[..|ops|] == ops;
    UnwatchKeeps(f, ix.configs, KeyOf(pod));
    UnwatchKeeps(f, ix.secrets, KeyOf(pod));
  }

  lemma FileAllAgrees(s: Side, pod: Pod, keys: seq<Key>)
    requires Agrees(s)
    ensures Agrees(FileAll(s, pod, keys))
  {
    var t := FileAll(s, pod, keys);
    forall k, p
      ensures Entries(Filed(t, k), p) == Times(Uses(t, p), k)
    {
      FileAllEffect(s, pod, keys, k, p);
      EntriesAppend(Filed(s, k), Copies(pod, Times(keys, k)), p);
      EntriesOfCopies(pod, Times(keys, k), p);
      TimesAppend(Uses(s, p), keys, k);
    }
  }

  lemma UnwatchAgrees(s: Side, p: Key)
    requires Agrees(s)
    ensures Agrees(UnwatchSide(Intended, s, p))
    ensures forall k :: Filed(UnwatchSide(Intended, s, p), k) == Kept(Intended, Filed(s, k), p)
  {
    var t := UnwatchSide(Intended, s, p);
    forall k
      ensures Filed(t, k) == Kept(Intended, Filed(s, k), p)
    {
      PruneAllEffect(Intended, s.forward, p, Uses(s, p), k);
      assert Entries(Filed(s, k), p) == Times(Uses(s, p), k);
      TimesPositive(Uses(s, p), k);
      KeptAll(Filed(s, k), p);
    }
    forall k, q
      ensures Entries(Filed(t, k), q) == Times(Uses(t, q), k)
    {
      EntriesOfKept(Filed(s, k), p, q);
      assert Entries(Filed(s, k), q) == Times(Uses(s, q), k);
    }
  }

  // With the intended comparison the two directions agree in every reachable state.
  lemma {:induction false} IntendedRunAgrees(ops: seq<Op>)
    ensures Agrees(Run(Intended, ops).configs) && Agrees(Run(Intended, ops).secrets)
  {
    if ops != [] {
      var k := |ops| - 1;
      var ix := Run(Intended, ops[..k]);
      IntendedRunAgrees(ops[..k]);
      match ops[k]
      case Watch(pod) =>
        FileAllAgrees(ix.configs, pod, ConfigKeys(pod, pod.volumes));
        FileAllAgrees(ix.secrets, pod, SecretKeys(pod, pod.volumes));
      case Unwatch(pod) =>
        UnwatchAgrees(ix.configs, KeyOf(pod));
        UnwatchAgrees(ix.secrets, KeyOf(pod));
    }
  }

  // With the intended comparison, Unwatch leaves every other pod's entries in place and in order.
  lemma IntendedUnwatchExact(ops: seq<Op>, pod: Pod, e: Event)
    ensures Notified(Run(Intended, ops + [Unwatch(pod)]), e)
      == Kept(Intended, Notified(Run(Intended, ops), e), KeyOf(pod))
  {
    IntendedRunAgrees(ops);
    assert (ops + [Unwatch(pod)])[..|ops|] == ops;
    var ix := Run(Intended, ops);
    UnwatchAgrees(ix.configs, KeyOf(pod));
    UnwatchAgrees(ix.secrets, KeyOf(pod));
  }

  // As written, Unwatch silences every resource the pod used, for all pods.
  lemma AsWrittenUnwatchExact(s: Side, p: Key, k: Key)
    ensures Filed(UnwatchSide(AsWritten, s, p), k) == if k in Uses(s, p) then [] else Filed(s, k)
  {
    PruneAllEffect(AsWritten, s.forward, p, Uses(s, p), k);
    KeptAsWritten(Filed(s, k), p);
  }

  lemma FiltersPointwise(s: Side, p: Key, k: Key)
    requires Tidy(s)
    ensures
      var w, n := UnwatchSide(AsWritten, s, p).forward, UnwatchSide(Intended, s, p).forward;
      ((k in w <==> k in n) && ListAt(w, k) == ListAt(n, k))
      <==> (k in Uses(s, p) ==> Kept(Intended, Filed(s, k), p) == [])
  {
    PruneAllEffect(AsWritten, s.forward, p, Uses(s, p), k);
    PruneAllEffect(Intended, s.forward, p, Uses(s, p), k);
    KeptAsWritten(Filed(s, k), p);
  }

  lemma KeptNone(entries: seq<Pod>, p: Key)
    ensures Kept(Intended, entries, p) == [] <==> forall e :: e in entries ==> KeyOf(e) == p
  {
    KeptMembers(Intended, entries, p);
    var kept := Kept(Intended, entries, p);
    if kept != [] {
      assert kept[0] in kept;
    }
  }

  // The two comparisons give the same index exactly when the pod that goes shares no resource.
  lemma FiltersMeet(s: Side, p: Key)
    requires Tidy(s)
    ensures UnwatchSide(AsWritten, s, p) == UnwatchSide(Intended, s, p)
      <==> (forall k, e :: k in Uses(s, p) && e in Filed(s, k) ==> KeyOf(e) == p)
  {
    var w, n := UnwatchSide(AsWritten, s, p).forward, UnwatchSide(Intended, s, p).forward;
    if w == n {
      forall k, e | k in Uses(s, p) && e in Filed(s, k)
        ensures KeyOf(e) == p
      {
        FiltersPointwise(s, p, k);
        KeptNone(Filed(s, k), p);
      }
    }
    if forall k, e :: k in Uses(s, p) && e in Filed(s, k) ==> KeyOf(e) == p {
      forall k
        ensures (k in w <==> k in n) && ListAt(w, k) == ListAt(n, k)
      {
        FiltersPointwise(s, p, k);
        KeptNone(Filed(s, k), p);
      }
      SameForward(w, n);
    }
  }

  lemma SameForward(a: map<Key, seq<Pod>>, b: map<Key, seq<Pod>>)
    requires forall k :: (k in a <==> k in b) && ListAt(a, k) == ListAt(b, k)
    ensures a == b
  {
    forall k | k in a
      ensures k in b && a[k] == b[k]
    {
      assert ListAt(a, k) == ListAt(b, k);
    }
    assert a.Keys == b.Keys;
  }

  lemma KeptAfterWatch(f: Filter, s: Side, pod: Pod, keys: seq<Key>, k: Key)
    requires Safe(s) && KeyOf(pod) !in s.reverse
    ensures Kept(f, Filed(FileAll(s, pod, keys), k), KeyOf(pod)) == if f.AsWritten? then [] else Filed(s, k)
  {
    var p, copies := KeyOf(pod), Copies(pod, Times(keys, k));
    FileAllForward(s, pod, keys, k);
    match f
    case AsWritten =>
      KeptAsWritten(Filed(s, k) + copies, p);
    case Intended =>
      KeptAppend(Intended, Filed(s, k), copies, p);
      KeptOfCopies(pod, Times(keys, k));
      EntriesPositive(Filed(s, k), p);
      KeptAll(Filed(s, k), p);
      assert Filed(s, k) + [] == Filed(s, k);
  }

  lemma WatchUnwatchForward(f: Filter, s: Side, pod: Pod, keys: seq<Key>, k: Key)
    requires Tidy(s) && Safe(s) && KeyOf(pod) !in s.reverse
    ensures
      var u := UnwatchSide(f, FileAll(s, pod, keys), KeyOf(pod)).forward;
      ((k in u <==> k in s.forward) && ListAt(u, k) == ListAt(s.forward, k))
      <==> (f.Intended? || (k in keys ==> k !in s.forward))
  {
    var t := FileAll(s, pod, keys);
    FileAllForward(s, pod, keys, k);
    FileAllReverse(s, pod, keys, KeyOf(pod));
    assert Uses(t, KeyOf(pod)) == [] + keys == keys;
    PruneAllEffect(f, t.forward, KeyOf(pod), keys, k);
    if k in keys {
      KeptAfterWatch(f, s, pod, keys, k);
    } else {
      TimesPositive(keys, k);
      assert Filed(s, k) + Copies(pod, 0) == Filed(s, k);
    }
  }

  // Watch then Unwatch of a pod that was not watched: restored with the intended comparison; as
  // written, restored exactly when nobody else was filed under any of its resources.
  lemma WatchUnwatch(f: Filter, s: Side, pod: Pod, keys: seq<Key>)
    requires Tidy(s) && Safe(s) && KeyOf(pod) !in s.reverse
    ensures UnwatchSide(f, FileAll(s, pod, keys), KeyOf(pod)) == s
      <==> (f.Intended? || forall k :: k in keys ==> k !in s.forward)
  {
    var u := UnwatchSide(f, FileAll(s, pod, keys), KeyOf(pod));
    forall q
      ensures q in u.reverse <==> q in s.reverse
      ensures q in u.reverse ==> u.reverse[q] == s.reverse[q]
    {
      FileAllReverse(s, pod, keys, q);
    }
    SameReverse(u.reverse, s.reverse);
    if f.Intended? || forall k :: k in keys ==> k !in s.forward {
      forall k
        ensures (k in u.forward <==> k in s.forward) && ListAt(u.forward, k) == ListAt(s.forward, k)
      {
        WatchUnwatchForward(f, s, pod, keys, k);
      }
      SameForward(u.forward, s.forward);
    }
    if u == s {
      forall k | k in keys
        ensures f.Intended? || k !in s.forward
      {
        WatchUnwatchForward(f, s, pod, keys, k);
      }
    }
  }

  lemma SameReverse(a: map<Key, seq<Key>>, b: map<Key, seq<Key>>)
    requires forall q :: (q in a <==> q in b) && (q in a ==> a[q] == b[q])
    ensures a == b
  {
    assert a.Keys == b.Keys;
  }

  // The shadowed comparison loses events: whenever two pods are filed under a ConfigMap and one of
  // them goes, the other is still on record as using it but is no longer told.
  lemma AsWrittenLosesEvents(ops: seq<Op>, a: Pod, b: Pod, k: Key)
    requires KeyOf(a) != KeyOf(b) && k in Uses(Run(AsWritten, ops).configs, KeyOf(a))
    requires b in Notified(Run(AsWritten, ops), ConfigMapEvent(k))
    ensures
      var ix := Run(AsWritten, ops + [Unwatch(a)]);
      Notified(ix, ConfigMapEvent(k)) == [] && k in Uses(ix.configs, KeyOf(b)) && !Agrees(ix.configs)
    ensures b in Notified(UnwatchStep(Intended, Run(AsWritten, ops), KeyOf(a)), ConfigMapEvent(k))
  {
    var ix := Run(AsWritten, ops);
    RunSafe(AsWritten, ops);
    assert (ops + [Unwatch(a)])[..|ops|] == ops;
    AsWrittenUnwatchExact(ix.configs, KeyOf(a), k);
    TimesPositive(Uses(ix.configs, KeyOf(b)), k);
    var t := UnwatchSide(AsWritten, ix.configs, KeyOf(a));
    assert Entries(Filed(t, k), KeyOf(b)) == 0 && Times(Uses(t, KeyOf(b)), k) > 0;
    PruneAllEffect(Intended, ix.configs.forward, KeyOf(a), Uses(ix.configs, KeyOf(a)), k);
    KeptMembers(Intended, Filed(ix.configs, k), KeyOf(a));
  }

  // Such states are reached by any two pods of a namespace that mount the same ConfigMap.
  lemma SharedConfigMap(a: Pod, b: Pod, name: string)
    requires a.namespace == b.namespace && a.name != b.name
    requires a.volumes == b.volumes == [Volume("v", ConfigMapSource(name, None))]
    ensures
      var k := NamespacedName(a.namespace, name);
      var ops := [Watch(a), Watch(b)];
      k in Uses(Run(AsWritten, ops).configs, KeyOf(a)) && Notified(Run(AsWritten, ops), ConfigMapEvent(k)) == [a, b]
  {
    var k := NamespacedName(a.namespace, name);
    OneConfigKey(a, name);
    OneConfigKey(b, name);
    var ops := [Watch(a), Watch(b)];
    var s1 := FileAll(EMPTY_SIDE, a, [k]);
    assert Times([k], k) == 1 by { assert [k][..0] == []; }
    FileAllEffect(EMPTY_SIDE, a, [k], k, KeyOf(a));
    FileAllEffect(s1, b, [k], k, KeyOf(a));
    assert Copies(a, 1) == [a] && Copies(b, 1) == [b];
    RunTwo(AsWritten, ops[0], ops[1]);
  }

  lemma OneConfigKey(pod: Pod, name: string)
    requires pod.volumes == [Volume("v", ConfigMapSource(name, None))]
    ensures ConfigKeys(pod, pod.volumes) == [NamespacedName(pod.namespace, name)]
  {
    assert pod.volumes[..0] == [] && ConfigKeys(pod, []) == [];
  }

  lemma RunTwo(f: Filter, x: Op, y: Op)
    ensures Run(f, [x, y]) == Step(f, Step(f, EMPTY_INDEX, x), y)
  {
    assert [x, y][..1] == [x] && [x][..0] == [];
    assert Run(f, []) == EMPTY_INDEX;
    assert Run(f, [x]) == Step(f, Run(f, []), x);
  }
}
