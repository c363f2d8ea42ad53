// The provider: CreatePod, DeletePod and GetPod (internal/provider/pod.go) as changes of its state,
// which is the manager's units, the watcher's index and the volume directories.

module Provider {
  import opened Strings
  import opened Kube
  import opened UnitFile
  import opened UnitText
  import opened Naming
  import opened Users
  import opened Compile
  import opened PodUnits
  import opened Loaded
  import opened Recover
  import opened Lifecycle
  import opened Observed
  import opened Units
  import V = Volumes
  import WatchIndex

  // What systemd says of a unit besides its file.
  datatype Properties = Properties(subState: string, execMainStatus: int, execMainExitTimestamp: int)

  function StateFor(text: string, p: Properties): UnitState {
    UnitState(text, p.subState, p.execMainStatus, p.execMainExitTimestamp)
  }

  // The units of the manager that States selects.
  function UnitStates(units: map<string, string>, properties: string -> Properties,
                      prefix: string): map<string, UnitState> {
    map n | n in units && Selected(n, prefix) :: StateFor(units[n], properties(n))
  }

  // texts are the texts of the first units of the pod.
  ghost predicate Compiles(host: Host, pod: Pod, vol: map<string, string>, ids: Ids, texts: seq<string>) {
    ProperPod(pod) && forall i :: 0 <= i < |texts| ==> CompilesAt(host, pod, vol, ids, i, texts[i])
  }

  ghost predicate CompilesAt(host: Host, pod: Pod, vol: map<string, string>, ids: Ids, i: nat, text: string)
    requires ProperPod(pod)
  {
    Succeeds(host, pod, ids, i + 1) && text == Print(UnitAt(host, pod, vol, ids, i))
  }

  // What an event for these pods makes of the tree: turn by turn, and if nothing fails all of it.
  ghost predicate Refreshed(host: Host, cluster: V.Cluster, pods: seq<Pod>, which: V.Which, trees: seq<V.Tree>,
                            before: V.Tree, after: V.Tree)
  {
    && V.Turns(trees, cluster, host.accounts, host.overrideRootUID, pods, which)
    && trees[0] == before && trees[|pods|] == after
    && V.Untorn(before, after, V.OffersFor(cluster, pods, which))
    && (V.CanRefreshAll(before, cluster, host.accounts, host.overrideRootUID, pods, which)
        ==> after == V.RefreshedTree(before, cluster, pods, which))
  }

  class Provider {
    const host: Host
    const watcher: WatchIndex.Watcher
    const fs: V.FileSystem
    var units: map<string, string>
    var trace: seq<Event>

    // What is on disk when the provider starts is outside the model; it starts with no units of its own.
    constructor (host: Host, tree: V.Tree)
      ensures Valid() && View() == EMPTY_WORLD && this.host == host && fs.tree == tree
      ensures fresh(watcher) && fresh(fs)
    {
      this.host := host;
      watcher := new WatchIndex.Watcher();
      fs := new V.FileSystem(tree);
      units, trace := map[], [];
    }

    ghost predicate Valid()
      reads this, fs
    {
      fs.Valid()
    }

    function View(): World
      reads this, watcher
    {
      World(units, trace, watcher.View())
    }

    // ---- The manager.

    method Load(name: string, u: File)
      requires u.Valid()
      modifies this
      ensures units == old(units)[name := Print(u.Options())] && trace == old(trace) + [Event(Lifecycle.Load, name)]
    {
      units := units[name := Print(u.Options())];
      trace := trace + [Event(Lifecycle.Load, name)];
    }

    method Unload(name: string)
      modifies this
      ensures units == old(units) - {name} && trace == old(trace) + [Event(Lifecycle.Unload, name)]
    {
      units := units - {name};
      trace := trace + [Event(Lifecycle.Unload, name)];
    }

    method Trigger(kind: Kind, name: string)
      modifies this`trace
      ensures trace == old(trace) + [Event(kind, name)]
    {
      trace := trace + [Event(kind, name)];
    }

    method TriggerAll(kind: Kind, names: seq<string>)
      modifies this`trace
      ensures trace == old(trace) + Each(kind, names)
    {
      for i := 0 to |names|
        invariant trace == old(trace) + Each(kind, names[..i])
      {
        Trigger(kind, names[i]);
        EachMore(kind, names, i);
      }
      assert names[..|names|] == names;
    }

    method UnloadAll(names: seq<string>)
      modifies this
      ensures units == old(units) - SetOf(names) && trace == old(trace) + Each(Lifecycle.Unload, names)
    {
      for i := 0 to |names|
        invariant units == old(units) - SetOf(names[..i])
        invariant trace == old(trace) + Each(Lifecycle.Unload, names[..i])
      {
        Unload(names[i]);
        EachMore(Lifecycle.Unload, names, i);
      }
      assert names[..|names|] == names;
    }

    // ---- CreatePod.

    // The pod's user is found and its volumes can be set up.
    predicate Prepared(tree: V.Tree, pod: Pod, cluster: V.Cluster) {
      V.CanSetUp(tree, cluster, host.accounts, host.overrideRootUID, pod, V.All)
    }

    // One round of the container loop; None is an error. start are the ids of the security context, ids
    // and previousUnit what the loop carries.
    method LoadContainer(pod: Pod, vol: map<string, string>, i: nat, ghost start: Ids, ids: Ids, previousUnit: string)
      returns (next: Option<Ids>, name: string, previous: string, ghost text: string)
      requires ProperPod(pod) && i < |AllContainers(pod)|
      requires Carries(host, pod, start, i, ids, previousUnit)
      modifies this
      ensures next.None? ==> !Succeeds(host, pod, start, i + 1) && units == old(units) && trace == old(trace)
      ensures next.Some? ==>
        && Carries(host, pod, start, i + 1, next.value, previous)
        && name == UnitName(pod, i) && CompilesAt(host, pod, vol, start, i, text)
        && units == old(units)[name := text] && trace == old(trace) + [Event(Lifecycle.Load, name)]
    {
      var c := AllContainers(pod)[i];
      name, previous, text := UnitName(pod, i), previousUnit, "";
      if c.image in host.failing {
        return None, name, previous, text;
      }
      var options := PackageOptions(host, Clean(host, c.image));
      if options.None? {
        return None, name, previous, text;
      }
      var isInit := i < |pod.initContainers|;
      var u, carried := BuildFrom(options.value, c, Context(pod, vol, isInit, previousUnit, ids));
      if u.None? {
        return None, name, previous, text;
      }
      text := Print(UnitAt(host, pod, vol, start, i));
      Load(name, u.value);
      if isInit {
        previous := name;
      }
      NextPrevious(pod, i);
      return Some(carried), name, previous, text;
    }

    // The package's unit file is read into a File of its own.
    method BuildFrom(pkg: seq<UnitOption>, c: Container, x: Context) returns (u: Option<File>, ids: Ids)
      requires ProperCommand(c)
      ensures u.None? <==> CarryIds(host, pkg, x.ids).None?
      ensures u.Some? ==> CarryIds(host, pkg, x.ids) == Some(ids)
      ensures u.Some? ==> u.value.Valid() && u.value.Options() == Compiled(host, pkg, c, x.(ids := ids))
    {
      var parsed := new UnitOption[|pkg|](j requires 0 <= j < |pkg| => pkg[j]);
      var uf := new File.FromOptions(parsed, |pkg|);
      assert uf.Options() == pkg;
      u, ids := BuildUnit(host, uf, c, x);
    }

    // One more, on top of those loaded so far.
    method LoadNext(pod: Pod, vol: map<string, string>, start: Ids, ids: Ids, previousUnit: string,
                    i: nat, ghost before: map<string, string>, ghost from: seq<Event>, ghost texts: seq<string>)
      returns (next: Option<Ids>, name: string, previous: string, ghost text: string)
      requires ProperPod(pod) && i == |texts| < |AllContainers(pod)|
      requires Carries(host, pod, start, i, ids, previousUnit)
      requires LoadedSoFar(host, pod, vol, start, before, from, texts, units, trace)
      modifies this
      ensures next.None? ==>
        !Succeeds(host, pod, start, i + 1) && LoadedSoFar(host, pod, vol, start, before, from, texts, units, trace)
      ensures next.Some? ==>
        && Carries(host, pod, start, i + 1, next.value, previous) && name == UnitName(pod, i)
        && LoadedSoFar(host, pod, vol, start, before, from, texts + [text], units, trace)
    {
      ghost var was, so := units, trace;
      next, name, previous, text := LoadContainer(pod, vol, i, start, ids, previousUnit);
      if next.Some? {
        LoadsMore(host, pod, vol, start, before, from, texts, was, so, text);
      }
    }

    method LoadContainers(pod: Pod, vol: map<string, string>, start: Ids)
      returns (ok: bool, unitsToStart: seq<string>, ghost texts: seq<string>)
      requires ProperPod(pod)
      modifies this
      ensures LoadedSoFar(host, pod, vol, start, old(units), old(trace), texts, units, trace)
      ensures ok ==> |texts| == |AllContainers(pod)| && unitsToStart == UnitNames(pod)
      ensures ok ==> Succeeds(host, pod, start, |AllContainers(pod)|)
      ensures !ok ==> |texts| < |AllContainers(pod)| && !Succeeds(host, pod, start, |texts| + 1)
    {
      unitsToStart, texts := [], [];
      var ids, previousUnit := start, "";
      ghost var before, from := units, trace;
      NothingSoFar(host, pod, vol, start, before, from);
      for i := 0 to |AllContainers(pod)|
        invariant |texts| == i && LoadedSoFar(host, pod, vol, start, before, from, texts, units, trace)
        invariant Carries(host, pod, start, i, ids, previousUnit)
        invariant unitsToStart == UnitNames(pod)[..i]
      {
        var next, name, previous, text := LoadNext(pod, vol, start, ids, previousUnit, i, before, from, texts);
        if next.None? {
          return false, unitsToStart, texts;
        }
        NextName(pod, i);
        ids, previousUnit, texts, unitsToStart := next.value, previous, texts + [text], unitsToStart + [name];
      }
      AllNames(pod);
      AllCarried(host, pod, start, ids, previousUnit);
      return true, unitsToStart, texts;
    }

    // The container loop as a whole.
    method LoadUnits(pod: Pod, vol: map<string, string>, ids: Ids)
      returns (ok: bool, unitsToStart: seq<string>, ghost texts: seq<string>)
      requires ProperPod(pod)
      modifies this
      ensures Sized(pod, texts, ok) && Compiles(host, pod, vol, ids, texts)
      ensures Step(old(View()), Create(pod, texts, false)) == World(units, trace, old(View()).watch)
      ensures ok ==> unitsToStart == UnitNames(pod)
      ensures ok ==>
        Step(old(View()), Create(pod, texts, true))
        == World(units, trace + Each(Start, UnitNames(pod)), WatchIndex.WatchStep(old(View()).watch, pod))
      ensures ok <==> Succeeds(host, pod, ids, |AllContainers(pod)|)
      ensures !ok ==> !Succeeds(host, pod, ids, |texts| + 1)
    {
      ghost var was := View();
      ok, unitsToStart, texts := LoadContainers(pod, vol, ids);
      StepCreate(host, was, pod, vol, ids, texts, units, trace);
      if !ok {
        NeverSucceeds(host, pod, ids, |texts| + 1);
      }
    }

    // And what follows it.
    method RunUnits(pod: Pod, vol: map<string, string>, ids: Ids) returns (ok: bool, ghost texts: seq<string>)
      requires ProperPod(pod)
      modifies this, watcher
      ensures Sized(pod, texts, ok) && Compiles(host, pod, vol, ids, texts)
      ensures View() == Step(old(View()), Create(pod, texts, ok))
      ensures ok <==> Succeeds(host, pod, ids, |AllContainers(pod)|)
      ensures !ok ==> !Succeeds(host, pod, ids, |texts| + 1)
    {
      var unitsToStart;
      ok, unitsToStart, texts := LoadUnits(pod, vol, ids);
      if ok {
        TriggerAll(Start, unitsToStart);
        watcher.Watch(pod);
      }
    }

    // vol are the volumes as set up, texts the units loaded. The pod's units are loaded in order up to the
    // first container that fails; only if none does are they started, all of them, and the pod watched.
    method CreatePod(pod: Pod, cluster: V.Cluster)
      returns (ok: bool, ghost vol: map<string, string>, ghost texts: seq<string>)
      requires Valid() && ProperPod(pod)
      modifies this, watcher, fs
      ensures Valid() && Sized(pod, texts, ok)
      ensures View() == Step(old(View()), Create(pod, texts, ok))
      ensures Prepared(old(fs.tree), pod, cluster) ==>
        var ids := Resolve(pod.securityContext, host.accounts, host.overrideRootUID).value;
        && vol == V.MountsAfter(cluster, pod, V.All, |pod.volumes|)
        && fs.tree == V.TreeAfter(old(fs.tree), cluster, pod, V.All, |pod.volumes|)
        && Compiles(host, pod, vol, ids, texts)
        && (ok <==> Succeeds(host, pod, ids, |AllContainers(pod)|))
        && (!ok ==> !Succeeds(host, pod, ids, |texts| + 1))
      ensures !Prepared(old(fs.tree), pod, cluster) ==> !ok && texts == []
    {
      vol, texts := map[], [];
      NothingLoaded(View(), pod);
      var mounts := fs.SetUp(pod, cluster, host.accounts, host.overrideRootUID, V.All);
      if mounts.None? {
        return false, vol, texts;
      }
      vol := mounts.value;
      var ids := UidGidFromSecurityContext(pod.securityContext, host.accounts, host.overrideRootUID);
      if ids.None? {
        return false, vol, texts;
      }
      ok, texts := RunUnits(pod, mounts.value, ids.value);
    }

    // ---- DeletePod.

    method StopUnits(pod: Pod) returns (unitsToUnload: seq<string>)
      modifies this`trace
      ensures unitsToUnload == UnitNames(pod) && trace == old(trace) + Each(Stop, UnitNames(pod))
    {
      unitsToUnload := [];
      for i := 0 to |AllContainers(pod)|
        invariant unitsToUnload == UnitNames(pod)[..i]
        invariant trace == old(trace) + Each(Stop, UnitNames(pod)[..i])
      {
        var name := UnitName(pod, i);
        Trigger(Stop, name);
        NextName(pod, i);
        EachMore(Stop, UnitNames(pod), i);
        unitsToUnload := unitsToUnload + [name];
      }
      AllNames(pod);
    }

    method DeletePod(pod: Pod)
      requires Valid()
      modifies this, watcher, fs
      ensures Valid()
      ensures View() == Step(old(View()), Delete(pod))
      ensures fs.tree == V.Removed(old(fs.tree), V.CleanTarget(pod.uid))
    {
      WholeDelete(trace, pod);
      var unitsToUnload := StopUnits(pod);
      UnloadAll(unitsToUnload);
      watcher.Unwatch(pod);
      fs.RemoveAll(V.CleanTarget(pod.uid));
    }

    // ---- ConfigMap and Secret events: UpdateConfigMap or UpdateSecret for each pod on file.

    // Whatever fails on the way, every file is at every moment as it was or complete new data, and each pod
    // that can be set up is (trees are those between the pods' turns).
    method HandleEvent(e: WatchIndex.Event, cluster: V.Cluster) returns (ghost trees: seq<V.Tree>)
      requires Valid()
      modifies fs
      ensures Valid() && old(fs.history) <= fs.history
      ensures
        var pods := WatchIndex.Notified(watcher.View(), e);
        match e
        case ConfigMapEvent(_) =>
          Refreshed(host, cluster, pods, V.OnlyConfigMaps, trees, old(fs.tree), fs.tree)
          && V.AllUntorn(fs.history, |old(fs.history)|, old(fs.tree), V.OffersFor(cluster, pods, V.OnlyConfigMaps))
        case SecretEvent(_) =>
          Refreshed(host, cluster, pods, V.OnlySecrets, trees, old(fs.tree), fs.tree)
          && V.AllUntorn(fs.history, |old(fs.history)|, old(fs.tree), V.OffersFor(cluster, pods, V.OnlySecrets))
        case OtherEvent => fs.tree == old(fs.tree)
    {
      var pods := watcher.HandleEvent(e);
      match e
      {
        case ConfigMapEvent(_) =>
          trees := fs.Refresh(pods, cluster, host.accounts, host.overrideRootUID, V.OnlyConfigMaps);
        case SecretEvent(_) =>
          trees := fs.Refresh(pods, cluster, host.accounts, host.overrideRootUID, V.OnlySecrets);
        case OtherEvent =>
          trees := [];
      }
    }

    // ---- GetPod.

    method States(prefix: string, properties: string -> Properties) returns (stats: map<string, UnitState>)
      ensures stats == UnitStates(units, properties, prefix)
    {
      stats := map[];
      var todo := units.Keys;
      while todo != {}
        invariant todo <= units.Keys
        invariant stats == map n | n in units && n !in todo && Selected(n, prefix) :: StateFor(units[n], properties(n))
      {
        var name :| name in todo;
        todo := todo - {name};
        if !HasPrefix(name, prefix) {
          continue;
        }
        if !HasSuffix(name, SERVICE_SUFFIX) {
          continue;
        }
        stats := stats[name := StateFor(units[name], properties(name))];
      }
    }

    method GetPod(namespace: string, name: string, properties: string -> Properties)
      returns (outcome: Outcome, ghost first: string, ghost order: seq<string>, ghost statusOrder: seq<string>)
      modifies this
      ensures
        var stats := UnitStates(old(units), properties, GetPodPrefix(NamespacedName(namespace, name)));
        && (stats == map[] ==> outcome == NoPod)
        && (stats != map[] ==> first in stats && outcome == PodFrom(stats, first, order, statusOrder))
        && (outcome.Found? ==> Enumerates(order, stats.Keys) && Enumerates(statusOrder, stats.Keys))
      ensures View() == Looked(old(View()), NamespacedName(namespace, name), first)
    {
      var stats := States(UnitPrefix(namespace, name) + ".", properties);
      outcome, first, order, statusOrder := StatsToPod(stats);
      if outcome.Removes? {
        Trigger(Stop, outcome.unit);
        Unload(outcome.unit);
      }
    }
  }

  lemma NeverSucceeds(host: Host, pod: Pod, ids: Ids, n: nat)
    requires n <= |AllContainers(pod)| && !Succeeds(host, pod, ids, n)
    ensures !Succeeds(host, pod, ids, |AllContainers(pod)|)
  {
    if Succeeds(host, pod, ids, |AllContainers(pod)|) {
      IdsBefore(host, AllContainers(pod), ids, n, |AllContainers(pod)|);
    }
  }

  lemma NothingLoaded(w: World, pod: Pod)
    ensures Step(w, Create(pod, [], false)) == w
  {
    assert w.trace + EventsOf(Create(pod, [], false)) == w.trace;
  }

  lemma WholeCreate(trace: seq<Event>, pod: Pod, texts: seq<string>)
    requires |texts| == |AllContainers(pod)|
    ensures trace + Each(Lifecycle.Load, UnitNames(pod)[..|texts|]) + Each(Start, UnitNames(pod))
         == trace + EventsOf(Create(pod, texts, true))
  {
    Associates(trace, Each(Lifecycle.Load, UnitNames(pod)[..|texts|]), Each(Start, UnitNames(pod)));
  }

  lemma PartCreate(trace: seq<Event>, pod: Pod, texts: seq<string>)
    requires |texts| <= |AllContainers(pod)|
    ensures trace + Each(Lifecycle.Load, UnitNames(pod)[..|texts|]) == trace + EventsOf(Create(pod, texts, false))
  {
    Unextended(Each(Lifecycle.Load, UnitNames(pod)[..|texts|]));
  }

  lemma StepCreate(host: Host, was: World, pod: Pod, vol: map<string, string>, ids: Ids, texts: seq<string>,
                   units: map<string, string>, trace: seq<Event>)
    requires LoadedSoFar(host, pod, vol, ids, was.units, was.trace, texts, units, trace)
    ensures Step(was, Create(pod, texts, false)) == World(units, trace, was.watch)
    ensures |texts| == |AllContainers(pod)| ==>
      Step(was, Create(pod, texts, true))
      == World(units, trace + Each(Start, UnitNames(pod)), WatchIndex.WatchStep(was.watch, pod))
  {
    PartCreate(was.trace, pod, texts);
    if |texts| == |AllContainers(pod)| {
      WholeCreate(was.trace, pod, texts);
    }
  }

  lemma WholeDelete(trace: seq<Event>, pod: Pod)
    ensures trace + Each(Stop, UnitNames(pod)) + Each(Lifecycle.Unload, UnitNames(pod))
         == trace + EventsOf(Delete(pod))
  {
    Associates(trace, Each(Stop, UnitNames(pod)), Each(Lifecycle.Unload, UnitNames(pod)));
  }

  lemma AllNames(pod: Pod)
    ensures UnitNames(pod)[..|AllContainers(pod)|] == UnitNames(pod)
  {
  }

  lemma AllCarried(host: Host, pod: Pod, start: Ids, ids: Ids, previousUnit: string)
    requires Carries(host, pod, start, |AllContainers(pod)|, ids, previousUnit)
    ensures Succeeds(host, pod, start, |AllContainers(pod)|)
  {
  }

  // What the container loop carries past the first i containers.
  predicate Carries(host: Host, pod: Pod, start: Ids, i: nat, ids: Ids, previousUnit: string)
    requires i <= |AllContainers(pod)|
  {
    IdsAfter(host, AllContainers(pod), start, i) == Some(ids) && previousUnit == PreviousUnit(pod, i)
  }

  // The units of texts are loaded on top of what was there.
  ghost predicate LoadedSoFar(host: Host, pod: Pod, vol: map<string, string>, ids: Ids, before: map<string, string>,
                              from: seq<Event>, texts: seq<string>, units: map<string, string>, trace: seq<Event>)
  {
    && |texts| <= |AllContainers(pod)| && Compiles(host, pod, vol, ids, texts)
    && units == LoadTexts(before, UnitNames(pod), texts)
    && trace == from + Each(Lifecycle.Load, UnitNames(pod)[..|texts|])
  }

  lemma NothingSoFar(host: Host, pod: Pod, vol: map<string, string>, ids: Ids, units: map<string, string>,
                     trace: seq<Event>)
    requires ProperPod(pod)
    ensures LoadedSoFar(host, pod, vol, ids, units, trace, [], units, trace)
  {
    assert Each(Lifecycle.Load, UnitNames(pod)[..0]) == [];
    assert trace + [] == trace;
  }

  lemma LoadsMore(host: Host, pod: Pod, vol: map<string, string>, ids: Ids, before: map<string, string>,
                  from: seq<Event>, texts: seq<string>, units: map<string, string>, trace: seq<Event>, text: string)
    requires LoadedSoFar(host, pod, vol, ids, before, from, texts, units, trace)
    requires |texts| < |AllContainers(pod)| && CompilesAt(host, pod, vol, ids, |texts|, text)
    ensures
      var name := UnitName(pod, |texts|);
      LoadedSoFar(host, pod, vol, ids, before, from, texts + [text], units[name := text],
        trace + [Event(Lifecycle.Load, name)])
  {
    CompilesMore(host, pod, vol, ids, texts, text);
    LoadTextsMore(before, UnitNames(pod), texts, text);
    NextEvent(pod, |texts|);
    AppendEach(from, Each(Lifecycle.Load, UnitNames(pod)[..|texts|]),
      Event(Lifecycle.Load, UnitName(pod, |texts|)));
  }

  lemma AppendEach(a: seq<Event>, b: seq<Event>, e: Event)
    ensures a + b + [e] == a + (b + [e])
  {
  }

  lemma CompilesMore(host: Host, pod: Pod, vol: map<string, string>, ids: Ids, texts: seq<string>, text: string)
    requires Compiles(host, pod, vol, ids, texts) && CompilesAt(host, pod, vol, ids, |texts|, text)
    ensures Compiles(host, pod, vol, ids, texts + [text])
  {
    forall i | 0 <= i < |texts + [text]|
      ensures CompilesAt(host, pod, vol, ids, i, (texts + [text])[i])
    {
      if i < |texts| {
        assert CompilesAt(host, pod, vol, ids, i, texts[i]);
      }
    }
  }

  lemma LoadTextsMore(units: map<string, string>, names: seq<string>, texts: seq<string>, text: string)
    requires |texts| < |names|
    ensures LoadTexts(units, names, texts + [text]) == LoadTexts(units, names, texts)[names[|texts|] := text]
  {
    assert (texts + [text])[..|texts|] == texts;
  }

  lemma NextName(pod: Pod, i: nat)
    requires i < |AllContainers(pod)|
    ensures UnitNames(pod)[..i + 1] == UnitNames(pod)[..i] + [UnitName(pod, i)]
  {
  }

  lemma NextEvent(pod: Pod, i: nat)
    requires i < |AllContainers(pod)|
    ensures Each(Lifecycle.Load, UnitNames(pod)[..i + 1])
         == Each(Lifecycle.Load, UnitNames(pod)[..i]) + [Event(Lifecycle.Load, UnitName(pod, i))]
  {
    var names := UnitNames(pod);
    assert names[i] == UnitName(pod, i);
    EachMore(Lifecycle.Load, names, i);
  }

  lemma NextPredecessor(pod: Pod, i: nat)
    ensures Predecessor(pod, i + 1) == if i < |pod.initContainers| then Some(i) else Predecessor(pod, i)
  {
  }

  lemma NextPrevious(pod: Pod, i: nat)
    requires i < |AllContainers(pod)|
    ensures PreviousUnit(pod, i + 1) == if i < |pod.initContainers| then UnitName(pod, i) else PreviousUnit(pod, i)
  {
    NextPredecessor(pod, i);
  }

  lemma EachMore(kind: Kind, names: seq<string>, i: nat)
    requires i < |names|
    ensures Each(kind, names[..i + 1]) == Each(kind, names[..i]) + [Event(kind, names[i])]
    ensures SetOf(names[..i + 1]) == SetOf(names[..i]) + {names[i]}
  {
    assert names[..i + 1] == names[..i] + [names[i]];
  }

  // ---- Over whole runs: what GetPod finds.

  // One of the units loaded for e has a name that GetPod takes for one of key's.
  predicate Caught(e: Entry, key: Key) {
    && e.pod.namespace == key.namespace
    && exists i :: 0 <= i < |e.texts| && i < |AllContainers(e.pod)| && CaughtAt(e.pod, i, key)
  }

  predicate CaughtAt(pod: Pod, i: nat, key: Key)
    requires i < |AllContainers(pod)|
  {
    HasPrefix(pod.name + "." + AllContainers(pod)[i].name + SERVICE_SUFFIX, key.name + ".")
  }

  // No other live pod is.
  predicate Alone(live: Live, key: Key) {
    forall k :: k in live && k != key ==> !Caught(live[k], key)
  }

  lemma LoadedUnit(e: Entry, u: string) returns (i: nat)
    requires u in LoadedOf(e)
    ensures i < |e.texts| && i < |AllContainers(e.pod)| && u == UnitName(e.pod, i)
  {
    var j :| 0 <= j < |UnitNames(e.pod)[..|e.texts|]| && UnitNames(e.pod)[..|e.texts|][j] == u;
    i := j;
  }

  lemma LoadedAt(e: Entry, i: nat)
    requires i < |e.texts| <= |AllContainers(e.pod)|
    ensures UnitName(e.pod, i) in LoadedOf(e)
  {
    assert UnitNames(e.pod)[..|e.texts|][i] == UnitName(e.pod, i);
  }

  // Which of a live pod's units are selected.
  lemma UnitSelected(live: Live, key: Key, k: Key, u: string)
    requires ProperLive(live) && DotFree(key.namespace) && k in live && u in LoadedOf(live[k])
    ensures k == key ==> Selected(u, GetPodPrefix(key))
    ensures Selected(u, GetPodPrefix(key)) ==> Caught(live[k], key)
  {
    var i := LoadedUnit(live[k], u);
    UnitNameSelected(k, AllContainers(live[k].pod)[i].name);
    SelectedExactly(key, k, AllContainers(live[k].pod)[i].name);
    if Selected(u, GetPodPrefix(key)) {
      assert CaughtAt(live[k].pod, i, key);
    }
  }

  lemma CaughtSelected(live: Live, key: Key, k: Key) returns (u: string)
    requires ProperLive(live) && DotFree(key.namespace) && k in live && Caught(live[k], key)
    ensures u in LoadedOf(live[k]) && Selected(u, GetPodPrefix(key))
  {
    var pod := live[k].pod;
    var i :| 0 <= i < |live[k].texts| && i < |AllContainers(pod)| && CaughtAt(pod, i, key);
    u := UnitName(pod, i);
    LoadedAt(live[k], i);
    SelectedExactly(key, k, AllContainers(pod)[i].name);
  }

  function LoadedFor(live: Live, key: Key): set<string> {
    if key in live then LoadedOf(live[key]) else {}
  }

  // After any run, GetPod sees exactly the units loaded for that pod, or none for a pod that does not
  // live, iff no other live pod of the namespace has a unit loaded whose name goes on like the pod's.
  lemma GetPodSelects(ops: seq<Op>, key: Key, properties: string -> Properties)
    requires IsRun(ops) && DotFree(key.namespace)
    ensures UnitStates(Run(ops).units, properties, GetPodPrefix(key)).Keys == LoadedFor(LiveRun(ops), key)
      <==> Alone(LiveRun(ops), key)
  {
    var live, keys := LiveRun(ops), UnitStates(Run(ops).units, properties, GetPodPrefix(key)).Keys;
    Conservation(ops);
    if Alone(live, key) {
      forall u
        ensures u in keys <==> u in LoadedFor(live, key)
      {
        SelectedAlone(live, key, u);
        assert u in Run(ops).units <==> Loads(live, u);
      }
    } else {
      var k :| k in live && k != key && Caught(live[k], key);
      var u := CaughtSelected(live, key, k);
      assert Loads(live, u);
      assert u in keys;
      NotOwn(live, key, k, u);
    }
  }

  lemma SelectedAlone(live: Live, key: Key, u: string)
    requires ProperLive(live) && DotFree(key.namespace) && Alone(live, key)
    ensures Loads(live, u) && Selected(u, GetPodPrefix(key)) <==> u in LoadedFor(live, key)
  {
    if Loads(live, u) {
      var k :| k in live && u in LoadedOf(live[k]);
      UnitSelected(live, key, k, u);
    }
    if u in LoadedFor(live, key) {
      assert Loads(live, u);
      UnitSelected(live, key, key, u);
    }
  }

  lemma NotOwn(live: Live, key: Key, k: Key, u: string)
    requires ProperLive(live) && k in live && k != key && u in LoadedOf(live[k])
    ensures u !in LoadedFor(live, key)
  {
    if key in live {
      LoadedWithin(live[k]);
      LoadedWithin(live[key]);
      NamesApart(live[k].pod, live[key].pod);
    }
  }

  // Without dots in pod names that is always so.
  lemma DotFreeAlone(live: Live, key: Key)
    requires ProperLive(live) && DotFree(key.namespace) && DotFree(key.name)
    requires forall k :: k in live ==> DotFree(k.name)
    ensures Alone(live, key)
  {
    forall k | k in live && k != key
      ensures !Caught(live[k], key)
    {
      if Caught(live[k], key) {
        var u := CaughtSelected(live, key, k);
        var i := LoadedUnit(live[k], u);
        DotFreeSelected(key, k, AllContainers(live[k].pod)[i].name);
      }
    }
  }

  lemma StoredInRun(ops: seq<Op>, key: Key, properties: string -> Properties, host: Host, vol: map<string, string>,
                    ids: Ids)
    requires IsRun(ops) && key in LiveRun(ops) && LiveRun(ops)[key].ok && Alone(LiveRun(ops), key)
    requires Storable(host, LiveRun(ops)[key].pod, vol, ids)
    requires Compiles(host, LiveRun(ops)[key].pod, vol, ids, LiveRun(ops)[key].texts)
    ensures ProperLive(LiveRun(ops))
    ensures Stored(host, LiveRun(ops)[key].pod, vol, ids, UnitStates(Run(ops).units, properties, GetPodPrefix(key)))
  {
    var e := LiveRun(ops)[key];
    var stats := UnitStates(Run(ops).units, properties, GetPodPrefix(key));
    Conservation(ops);
    GetPodSelects(ops, key, properties);
    LoadedWithin(e);
    forall i | 0 <= i < |AllContainers(e.pod)|
      ensures StorableAt(host, e.pod, vol, ids, i) && StoredAt(host, e.pod, vol, ids, stats, i)
    {
      assert StorableAt(host, e.pod, vol, ids, i) && CompilesAt(host, e.pod, vol, ids, i, e.texts[i]);
      TextsKept(ops, key, i);
      UnitNameSelected(key, AllContainers(e.pod)[i].name);
    }
  }

  // The round trip of the whole provider: after any run of creations and deletions, successful or not,
  // GetPod gives back a pod that was created in full, from the unit texts alone and in whatever order
  // the maps are walked; for a pod name without dots under the names that were given.
  lemma GetPodRecovers(ops: seq<Op>, key: Key, properties: string -> Properties, host: Host, vol: map<string, string>,
                       ids: Ids, first: string, order: seq<string>, statusOrder: seq<string>)
    requires IsRun(ops) && key in LiveRun(ops) && LiveRun(ops)[key].ok && Alone(LiveRun(ops), key)
    requires Storable(host, LiveRun(ops)[key].pod, vol, ids)
    requires Compiles(host, LiveRun(ops)[key].pod, vol, ids, LiveRun(ops)[key].texts)
    requires
      var stats := UnitStates(Run(ops).units, properties, GetPodPrefix(key));
      first in stats && Enumerates(order, stats.Keys) && Enumerates(statusOrder, stats.Keys)
    ensures
      var pod, stats := LiveRun(ops)[key].pod, UnitStates(Run(ops).units, properties, GetPodPrefix(key));
      && PodFrom(stats, first, order, statusOrder).Found?
      && Restores(PodFrom(stats, first, order, statusOrder).pod, pod, stats, Readings(host, pod))
      && (DotFree(key.name) ==> PodFrom(stats, first, order, statusOrder).pod.name == pod.name && KeepsNames(pod))
  {
    StoredInRun(ops, key, properties, host, vol, ids);
    StoreAndRecover(host, LiveRun(ops)[key].pod, vol, ids, UnitStates(Run(ops).units, properties, GetPodPrefix(key)),
      first, order, statusOrder);
    FoundNames(LiveRun(ops)[key].pod);
  }

  // ---- A fresh provider with one pod: what GetPodRecovers asks for can be met by every pod that can be stored.

  function TextsFor(host: Host, pod: Pod, vol: map<string, string>, ids: Ids): (texts: seq<string>)
    requires Storable(host, pod, vol, ids)
    ensures |texts| == |AllContainers(pod)|
  {
    seq(|AllContainers(pod)|, i requires 0 <= i < |AllContainers(pod)| =>
      if StorableAt(host, pod, vol, ids, i) then Print(UnitAt(host, pod, vol, ids, i)) else "")
  }

  function FreshRun(host: Host, pod: Pod, vol: map<string, string>, ids: Ids): seq<Op>
    requires Storable(host, pod, vol, ids)
  {
    [Create(pod, TextsFor(host, pod, vol, ids), true)]
  }

  ghost predicate MeetsRecovers(host: Host, pod: Pod, vol: map<string, string>, ids: Ids,
                                properties: string -> Properties, first: string, order: seq<string>)
    requires Storable(host, pod, vol, ids)
  {
    var ops, key := FreshRun(host, pod, vol, ids), KeyOf(pod);
    && IsRun(ops) && key in LiveRun(ops) && LiveRun(ops)[key].ok && LiveRun(ops)[key].pod == pod
    && Alone(LiveRun(ops), key) && Compiles(host, pod, vol, ids, LiveRun(ops)[key].texts)
    && (var stats := UnitStates(Run(ops).units, properties, GetPodPrefix(key));
        first in stats && Enumerates(order, stats.Keys))
  }

  lemma FreshLive(pod: Pod, texts: seq<string>)
    requires Labelled(pod) && |texts| == |AllContainers(pod)|
    ensures IsRun([Create(pod, texts, true)])
    ensures LiveRun([Create(pod, texts, true)]) == map[KeyOf(pod) := Entry(pod, texts, true)]
  {
    var ops := [Create(pod, texts, true)];
    assert ops[..0] == [] && IsRun(ops[..0]);
    assert LiveRun(ops[..0]) == map[] && Enabled(LiveRun(ops[..0]), ops[0]);
  }

  lemma FreshCompiles(host: Host, pod: Pod, vol: map<string, string>, ids: Ids)
    requires Storable(host, pod, vol, ids)
    ensures Compiles(host, pod, vol, ids, TextsFor(host, pod, vol, ids))
  {
    forall i | 0 <= i < |AllContainers(pod)|
      ensures CompilesAt(host, pod, vol, ids, i, TextsFor(host, pod, vol, ids)[i])
    {
      assert StorableAt(host, pod, vol, ids, i);
    }
  }

  // Its units are found.
  lemma FreshStates(pod: Pod, texts: seq<string>, properties: string -> Properties)
    requires Labelled(pod) && |texts| == |AllContainers(pod)|
    ensures
      var ops, key := [Create(pod, texts, true)], KeyOf(pod);
      && IsRun(ops) && Alone(LiveRun(ops), key)
      && UnitStates(Run(ops).units, properties, GetPodPrefix(key)).Keys == NamesOf(pod)
  {
    var ops, key := [Create(pod, texts, true)], KeyOf(pod);
    FreshLive(pod, texts);
    GetPodSelects(ops, key, properties);
    LoadedWithin(Entry(pod, texts, true));
  }

  lemma NamesEnumerated(pod: Pod)
    requires Labelled(pod)
    ensures Enumerates(UnitNames(pod), NamesOf(pod))
  {
    UnitNamesDistinct(pod);
    DistinctEnumerates(UnitNames(pod), NamesOf(pod));
  }

  lemma FreshRecovers(host: Host, pod: Pod, vol: map<string, string>, ids: Ids, properties: string -> Properties)
    returns (first: string, order: seq<string>)
    requires Labelled(pod) && Storable(host, pod, vol, ids)
    ensures MeetsRecovers(host, pod, vol, ids, properties, first, order)
  {
    FreshLive(pod, TextsFor(host, pod, vol, ids));
    FreshCompiles(host, pod, vol, ids);
    FreshStates(pod, TextsFor(host, pod, vol, ids), properties);
    NamesEnumerated(pod);
    first, order := UnitName(pod, 0), UnitNames(pod);
    assert UnitNames(pod)[0] == first && first in NamesOf(pod);
  }

  // ---- Looking at pods never removes what CreatePod loaded.

  // The texts are those of some prefix of the pod's units, for the volumes and ids of that creation.
  ghost predicate Created(host: Host, op: Op) {
    op.Create? ==> exists vol, ids :: Compiles(host, op.pod, vol, ids, op.texts)
  }

  ghost predicate AllCreated(host: Host, ops: seq<Op>) {
    forall i :: 0 <= i < |ops| ==> Created(host, ops[i])
  }

  lemma TextMarked(host: Host, pod: Pod, vol: map<string, string>, ids: Ids, i: nat, text: string)
    requires ProperPod(pod) && CompilesAt(host, pod, vol, ids, i, text)
    ensures Marked(text)
  {
    PackageDelivered(host, Clean(host, AllContainers(pod)[i].image));
    if Parse(text).Some? {
      LoadedMarked(host, PackageOf(host, pod, ids, i), AllContainers(pod)[i], ContextOf(host, pod, vol, ids, i));
    }
  }

  lemma CreatedMarked(host: Host, op: Op)
    requires Created(host, op)
    ensures MarkedTexts(op)
  {
    if op.Create? {
      var vol, ids :| Compiles(host, op.pod, vol, ids, op.texts);
      forall i | 0 <= i < |op.texts|
        ensures Marked(op.texts[i])
      {
        assert CompilesAt(host, op.pod, vol, ids, i, op.texts[i]);
        TextMarked(host, op.pod, vol, ids, i, op.texts[i]);
      }
    }
  }

  // Whatever the raw fields hold: in every run of creations, deletions and looks, the looks leave all as it was.
  // So what is proved of runs holds with looks in between.
  lemma GetPodLeavesUnits(host: Host, calls: seq<Call>)
    requires IsRun(Changes(calls)) && AllCreated(host, Changes(calls))
    ensures CallRun(calls) == Run(Changes(calls))
  {
    var ops := Changes(calls);
    forall i | 0 <= i < |ops|
      ensures MarkedTexts(ops[i])
    {
      assert Created(host, ops[i]);
      CreatedMarked(host, ops[i]);
    }
    LooksChangeNothing(calls);
  }
}
