// Who is told of a ConfigMap or Secret (internal/kubernetes/watch.go:95-205), by the calls of Watch and Unwatch that
// went before and the volumes of the pods.

module Told {
  import opened Strings
  import opened Kube
  import opened WatchIndex

  // The volume names the resource of the event.
  predicate Names(pod: Pod, volume: Volume, e: Event) {
    match e
    case ConfigMapEvent(k) =>
      volume.source.ConfigMapSource? && k == NamespacedName(pod.namespace, volume.source.configMapName)
    case SecretEvent(k) =>
      volume.source.SecretSource? && k == NamespacedName(pod.namespace, volume.source.secretName)
    case OtherEvent => false
  }

  // How many of the volumes do.
  function Mentions(pod: Pod, volumes: seq<Volume>, e: Event): nat {
    if volumes == [] then 0
    else
      Mentions(pod, volumes[..|volumes| - 1], e) + (if Names(pod, volumes[|volumes| - 1], e) then 1 else 0)
  }

  lemma {:induction false} Mentioned(pod: Pod, volumes: seq<Volume>, e: Event)
    ensures Mentions(pod, volumes, e) > 0 <==> exists i :: 0 <= i < |volumes| && Names(pod, volumes[i], e)
  {
    if volumes != [] {
      Mentioned(pod, volumes[..|volumes| - 1], e);
    }
  }

  // The pod has gone on record for the resource, and has not been unwatched since.
  predicate OnRecord(ops: seq<Op>, p: Key, e: Event) {
    exists i :: 0 <= i < |ops| && RecordedAt(ops, p, e, i)
  }

  predicate RecordedAt(ops: seq<Op>, p: Key, e: Event, i: nat)
    requires i < |ops|
  {
    && ops[i].Watch? && KeyOf(ops[i].pod) == p && Mentions(ops[i].pod, ops[i].pod.volumes, e) > 0
    && forall j :: i < j < |ops| && ops[j].Unwatch? ==> KeyOf(ops[j].pod) != p
  }

  // The last call puts the pod on record, or takes it off.
  predicate Records(op: Op, p: Key, e: Event) {
    op.Watch? && KeyOf(op.pod) == p && Mentions(op.pod, op.pod.volumes, e) > 0
  }

  predicate Clears(op: Op, p: Key) {
    op.Unwatch? && KeyOf(op.pod) == p
  }

  lemma RecordedBefore(ops: seq<Op>, p: Key, e: Event, i: nat)
    requires i < |ops| - 1
    ensures RecordedAt(ops, p, e, i) <==> RecordedAt(ops[..|ops| - 1], p, e, i) && !Clears(ops[|ops| - 1], p)
  {
    var before, k := ops[..|ops| - 1], |ops| - 1;
    assert forall j :: 0 <= j < k ==> before[j] == ops[j];
  }

  lemma RecordStep(ops: seq<Op>, p: Key, e: Event)
    requires ops != []
    ensures
      var before, last := ops[..|ops| - 1], ops[|ops| - 1];
      OnRecord(ops, p, e) <==> Records(last, p, e) || (OnRecord(before, p, e) && !Clears(last, p))
  {
    var before, k := ops[..|ops| - 1], |ops| - 1;
    assert Records(ops[k], p, e) <==> RecordedAt(ops, p, e, k);
    if OnRecord(ops, p, e) {
      var i :| 0 <= i < |ops| && RecordedAt(ops, p, e, i);
      if i < k {
        RecordedBefore(ops, p, e, i);
      }
    }
    if OnRecord(before, p, e) {
      var i :| 0 <= i < |before| && RecordedAt(before, p, e, i);
      RecordedBefore(ops, p, e, i);
    }
  }

  // ---- The keys that a pod's volumes name.

  lemma TimesSnoc(keys: seq<Key>, more: Key, k: Key)
    ensures Times(keys + [more], k) == Times(keys, k) + (if more == k then 1 else 0)
  {
    assert (keys + [more])[..|keys|] == keys;
  }

  lemma {:induction false} ConfigTimes(pod: Pod, volumes: seq<Volume>, k: Key)
    ensures Times(ConfigKeys(pod, volumes), k) == Mentions(pod, volumes, ConfigMapEvent(k))
  {
    if volumes != [] {
      var last := volumes[|volumes| - 1];
      ConfigTimes(pod, volumes[..|volumes| - 1], k);
      if last.source.ConfigMapSource? {
        TimesSnoc(ConfigKeys(pod, volumes[..|volumes| - 1]),
          NamespacedName(pod.namespace, last.source.configMapName), k);
      }
    }
  }

  lemma {:induction false} SecretTimes(pod: Pod, volumes: seq<Volume>, k: Key)
    ensures Times(SecretKeys(pod, volumes), k) == Mentions(pod, volumes, SecretEvent(k))
  {
    if volumes != [] {
      var last := volumes[|volumes| - 1];
      SecretTimes(pod, volumes[..|volumes| - 1], k);
      if last.source.SecretSource? {
        TimesSnoc(SecretKeys(pod, volumes[..|volumes| - 1]), NamespacedName(pod.namespace, last.source.secretName), k);
      }
    }
  }

  // ---- One side of the index: its keys and the event of a key.

  function SideOf(ix: Index, e: Event): Side {
    if e.SecretEvent? then ix.secrets else ix.configs
  }

  function KeysFor(pod: Pod, e: Event): seq<Key> {
    if e.SecretEvent? then SecretKeys(pod, pod.volumes) else ConfigKeys(pod, pod.volumes)
  }

  lemma KeysMention(pod: Pod, e: Event)
    requires !e.OtherEvent?
    ensures Times(KeysFor(pod, e), e.key) == Mentions(pod, pod.volumes, e)
    ensures e.key in KeysFor(pod, e) <==> Mentions(pod, pod.volumes, e) > 0
  {
    ConfigTimes(pod, pod.volumes, e.key);
    SecretTimes(pod, pod.volumes, e.key);
    TimesPositive(KeysFor(pod, e), e.key);
  }

  lemma {:induction false} UsesRecorded(f: Filter, ops: seq<Op>, p: Key, e: Event)
    requires !e.OtherEvent?
    ensures e.key in Uses(SideOf(Run(f, ops), e), p) <==> OnRecord(ops, p, e)
  {
    if ops != [] {
      var last := ops[|ops| - 1];
      var s := SideOf(Run(f, ops[..|ops| - 1]), e);
      UsesRecorded(f, ops[..|ops| - 1], p, e);
      RecordStep(ops, p, e);
      if last.Watch? {
        KeysMention(last.pod, e);
        FileAllReverse(s, last.pod, KeysFor(last.pod, e), p);
      }
    }
  }

  // ---- Who is told.

  // Entry by entry: Watch adds the pod once for each volume that names the resource, and Unwatch of any pod on record
  // for it takes all entries away.
  function ToldOf(ops: seq<Op>, e: Event): seq<Pod> {
    if ops == [] then []
    else
      var before, last := ops[..|ops| - 1], ops[|ops| - 1];
      match last
      case Watch(pod) => ToldOf(before, e) + Copies(pod, Mentions(pod, pod.volumes, e))
      case Unwatch(pod) => if OnRecord(before, KeyOf(pod), e) then [] else ToldOf(before, e)
  }

  lemma {:induction false} NotifiedExactly(ops: seq<Op>, e: Event)
    requires !e.OtherEvent?
    ensures Notified(Run(AsWritten, ops), e) == ToldOf(ops, e)
  {
    if ops != [] {
      var before, last := ops[..|ops| - 1], ops[|ops| - 1];
      var s := SideOf(Run(AsWritten, before), e);
      NotifiedExactly(before, e);
      match last
      case Watch(pod) =>
        KeysMention(pod, e);
        FileAllForward(s, pod, KeysFor(pod, e), e.key);
      case Unwatch(pod) =>
        UsesRecorded(AsWritten, before, KeyOf(pod), e);
        AsWrittenUnwatchExact(s, KeyOf(pod), e.key);
    }
  }

  // A pod that was on record for the resource has been unwatched after call i.
  predicate SilencedAfter(ops: seq<Op>, i: nat, e: Event) {
    exists j :: i < j < |ops| && SilencedAt(ops, j, e)
  }

  predicate SilencedAt(ops: seq<Op>, j: nat, e: Event)
    requires j < |ops|
  {
    ops[j].Unwatch? && OnRecord(ops[..j], KeyOf(ops[j].pod), e)
  }

  predicate WatchedAt(ops: seq<Op>, i: nat, pod: Pod, e: Event)
    requires i < |ops|
  {
    ops[i] == Watch(pod) && Mentions(pod, pod.volumes, e) > 0 && !SilencedAfter(ops, i, e)
  }

  predicate StillWatched(ops: seq<Op>, pod: Pod, e: Event) {
    exists i :: 0 <= i < |ops| && WatchedAt(ops, i, pod, e)
  }

  lemma SilencedStep(ops: seq<Op>, i: nat, e: Event)
    requires i < |ops| - 1
    ensures SilencedAfter(ops, i, e)
      <==> SilencedAfter(ops[..|ops| - 1], i, e) || SilencedAt(ops, |ops| - 1, e)
  {
    var before, k := ops[..|ops| - 1], |ops| - 1;
    assert forall j :: 0 <= j < k ==> before[..j] == ops[..j];
    if SilencedAfter(ops, i, e) {
      var j :| i < j < |ops| && SilencedAt(ops, j, e);
      assert j < k ==> SilencedAt(before, j, e);
    }
    if SilencedAfter(before, i, e) {
      var j :| i < j < |before| && SilencedAt(before, j, e);
      assert SilencedAt(ops, j, e);
    }
  }

  lemma WatchedStep(ops: seq<Op>, pod: Pod, e: Event)
    requires ops != []
    ensures
      var before, last := ops[..|ops| - 1], ops[|ops| - 1];
      StillWatched(ops, pod, e)
      <==> (last == Watch(pod) && Mentions(pod, pod.volumes, e) > 0)
           || (StillWatched(before, pod, e) && !SilencedAt(ops, |ops| - 1, e))
  {
    var before, k := ops[..|ops| - 1], |ops| - 1;
    forall i | 0 <= i < k
      ensures WatchedAt(ops, i, pod, e) <==> WatchedAt(before, i, pod, e) && !SilencedAt(ops, k, e)
    {
      SilencedStep(ops, i, e);
    }
    if StillWatched(ops, pod, e) {
      var i :| 0 <= i < |ops| && WatchedAt(ops, i, pod, e);
      assert i < k ==> WatchedAt(before, i, pod, e);
    }
    if StillWatched(before, pod, e) && !SilencedAt(ops, k, e) {
      var i :| 0 <= i < |before| && WatchedAt(before, i, pod, e);
      assert WatchedAt(ops, i, pod, e);
    }
    if ops[k] == Watch(pod) && Mentions(pod, pod.volumes, e) > 0 {
      assert WatchedAt(ops, k, pod, e);
    }
  }

  // A pod is told of a resource iff it was watched with a volume that names it, and no pod on record for the resource
  // has been unwatched since.
  lemma {:induction false} ToldExactly(ops: seq<Op>, pod: Pod, e: Event)
    requires !e.OtherEvent?
    ensures pod in Notified(Run(AsWritten, ops), e) <==> StillWatched(ops, pod, e)
  {
    if ops != [] {
      var before, last := ops[..|ops| - 1], ops[|ops| - 1];
      NotifiedExactly(ops, e);
      NotifiedExactly(before, e);
      ToldExactly(before, pod, e);
      WatchedStep(ops, pod, e);
      if last.Watch? {
        CopiesHold(last.pod, Mentions(last.pod, last.pod.volumes, e), pod);
      }
    }
  }

  lemma CopiesHold(pod: Pod, n: nat, entry: Pod)
    ensures entry in Copies(pod, n) <==> n > 0 && entry == pod
  {
    if n > 0 {
      assert Copies(pod, n)[0] == pod;
    }
  }
}
