// Rebuilding a pod from its units alone: statsToPod, toContainers, toContainerStatuses and unitNames
// of internal/provider/unit.go, and what they make of the units CreatePod loads.

module Recover {
  import opened Strings
  import opened Kube
  import opened UnitFile
  import opened UnitText
  import opened Shipped
  import opened ByField
  import opened Strays
  import opened Naming
  import opened Users
  import opened CommandLine
  import opened Compile
  import opened Layout
  import opened PodUnits
  import opened Phase
  import opened Loaded

  // One unit as States returns it, with the two service properties containerState asks for.
  datatype UnitState = UnitState(unitData: string, subState: string, execMainStatus: int, execMainExitTimestamp: int)

  datatype Recovered = Recovered(name: string, image: string, command: seq<string>)

  datatype ContainerStatus = ContainerStatus(name: string, image: string, state: ContainerState)

  // Broken: reading the unit panics, because its text does not parse or no image is recorded.
  // Foreign: there is no X-Kubernetes section.
  datatype Reading = Broken | Foreign | Read(init: bool, image: string, command: seq<string>)

  function ReadingOf(unitData: string): Reading {
    match Parse(unitData)
    case None => Broken
    case Some(opts) =>
      if !HasSection(opts, KUBERNETES_SECTION) then Foreign
      else
        var images := Values(opts, KUBERNETES_SECTION, "Image");
        if images == [] then Broken
        else Read(Values(opts, KUBERNETES_SECTION, "InitContainer") != [], images[0],
          Values(opts, "Service", "ExecStart"))
  }

  function ContainerFrom(name: string, r: Reading, init: bool): Option<Recovered> {
    if r.Read? && r.init == init then Some(Recovered(ContainerOf(name), r.image, r.command)) else None
  }

  function StatusFrom(name: string, r: Reading, u: UnitState, init: bool): Option<ContainerStatus> {
    if r.Read? && r.init == init then
      Some(ContainerStatus(ContainerOf(name), r.image, StateOf(u.subState, u.execMainStatus, u.execMainExitTimestamp)))
    else None
  }

  // What f makes of the names, in order, without the ones it has nothing for.
  function Collect<T>(f: string -> Option<T>, order: seq<string>): seq<T> {
    if order == [] then []
    else
      var last := |order| - 1;
      Collect(f, order[..last]) + (if f(order[last]).Some? then [f(order[last]).value] else [])
  }

  function ContainersIn(stats: map<string, UnitState>, init: bool): string -> Option<Recovered> {
    k => if k in stats then ContainerFrom(k, ReadingOf(stats[k].unitData), init) else None
  }

  function StatusesIn(stats: map<string, UnitState>, init: bool): string -> Option<ContainerStatus> {
    k => if k in stats then StatusFrom(k, ReadingOf(stats[k].unitData), stats[k], init) else None
  }

  // Each key once, in some order.
  predicate Enumerates(order: seq<string>, keys: set<string>) {
    multiset(order) == multiset(keys)
  }

  method UnitNamesOf(stats: map<string, UnitState>) returns (keys: seq<string>)
    ensures Enumerates(keys, stats.Keys)
  {
    keys := [];
    var rest := stats.Keys;
    while rest != {}
      invariant rest <= stats.Keys
      invariant multiset(keys) + multiset(rest) == multiset(stats.Keys)
    {
      var k :| k in rest;
      keys := keys + [k];
      rest := rest - {k};
    }
  }

  lemma EnumeratedKeys(order: seq<string>, keys: set<string>)
    requires Enumerates(order, keys)
    ensures forall k :: k in order <==> k in keys
  {
    forall k
      ensures k in order <==> k in keys
    {
      assert k in order <==> k in multiset(order);
    }
  }

  // unit.NewFile, as far as its callers here look: the index of the parsed text.
  method NewFile(unitData: string) returns (contents: Option<Index>)
    ensures contents.None? <==> Parse(unitData).None?
    ensures contents.Some? ==> contents.value == MapOptions(Parse(unitData).value)
  {
    var parsed := Parse(unitData);
    if parsed.None? {
      return None;
    }
    var index := IndexOptions(parsed.value);
    return Some(index);
  }

  lemma IndexRead(opts: seq<UnitOption>, section: string, name: string)
    ensures section in MapOptions(opts) <==> HasSection(opts, section)
    ensures Lookup(MapOptions(opts), section, name) == Values(opts, section, name)
  {
    MapOptionsIndexes(opts);
  }

  // What one turn of either loop reads.
  method ReadUnit(unitData: string) returns (reading: Reading)
    ensures reading == ReadingOf(unitData)
  {
    var u := NewFile(unitData);
    if u.None? {
      return Broken;
    }
    var contents := u.value;
    ghost var opts := Parse(unitData).value;
    IndexRead(opts, KUBERNETES_SECTION, "Image");
    IndexRead(opts, KUBERNETES_SECTION, "InitContainer");
    IndexRead(opts, "Service", "ExecStart");
    if KUBERNETES_SECTION !in contents {
      return Foreign;
    }
    var images := Lookup(contents, KUBERNETES_SECTION, "Image");
    if |images| == 0 {
      return Broken;
    }
    return Read(Lookup(contents, KUBERNETES_SECTION, "InitContainer") != [], images[0],
      Lookup(contents, "Service", "ExecStart"));
  }

  predicate AnyOf(stats: map<string, UnitState>, reading: Reading) {
    exists k :: k in stats && ReadingOf(stats[k].unitData) == reading
  }

  predicate NoneOf(stats: map<string, UnitState>, order: seq<string>, reading: Reading) {
    forall k :: k in order && k in stats ==> ReadingOf(stats[k].unitData) != reading
  }

  function IfAny<T>(o: Option<T>): seq<T> {
    if o.Some? then [o.value] else []
  }

  lemma CollectSnoc<T>(f: string -> Option<T>, order: seq<string>, i: nat)
    requires i < |order|
    ensures Collect(f, order[..i + 1]) == Collect(f, order[..i]) + IfAny(f(order[i]))
  {
    assert order[..i + 1][..i] == order[..i];
  }

  // What the next unit adds to the lists.
  lemma CollectsContainer(stats: map<string, UnitState>, order: seq<string>, i: nat, init: bool, reading: Reading)
    requires i < |order| && order[i] in stats && reading == ReadingOf(stats[order[i]].unitData)
    ensures Collect(ContainersIn(stats, init), order[..i + 1])
         == Collect(ContainersIn(stats, init), order[..i]) + IfAny(ContainerFrom(order[i], reading, init))
  {
    CollectSnoc(ContainersIn(stats, init), order, i);
  }

  lemma CollectsStatus(stats: map<string, UnitState>, order: seq<string>, i: nat, init: bool, reading: Reading)
    requires i < |order| && order[i] in stats && reading == ReadingOf(stats[order[i]].unitData)
    ensures Collect(StatusesIn(stats, init), order[..i + 1])
         == Collect(StatusesIn(stats, init), order[..i]) + IfAny(StatusFrom(order[i], reading, stats[order[i]], init))
  {
    CollectSnoc(StatusesIn(stats, init), order, i);
  }

  lemma NoneOfSnoc(stats: map<string, UnitState>, order: seq<string>, i: nat, reading: Reading)
    requires i < |order| && order[i] in stats
    ensures NoneOf(stats, order[..i + 1], reading)
      <==> NoneOf(stats, order[..i], reading) && ReadingOf(stats[order[i]].unitData) != reading
  {
    assert order[..i + 1] == order[..i] + [order[i]];
  }

  lemma NoneOfAll(stats: map<string, UnitState>, order: seq<string>, reading: Reading)
    requires Enumerates(order, stats.Keys)
    ensures NoneOf(stats, order, reading) <==> !AnyOf(stats, reading)
  {
    EnumeratedKeys(order, stats.Keys);
  }

  lemma Unextended<T>(a: seq<T>)
    ensures a + [] == a
  {
  }

  datatype Lists<T> = Lists(ordinary: seq<T>, init: seq<T>)

  // The lists after i units, if none of them is broken.
  predicate ContainersSoFar(stats: map<string, UnitState>, keys: seq<string>, i: nat, ordinary: seq<Recovered>,
                            init: seq<Recovered>)
  {
    && i <= |keys| && NoneOf(stats, keys[..i], Broken)
    && ordinary == Collect(ContainersIn(stats, false), keys[..i])
    && init == Collect(ContainersIn(stats, true), keys[..i])
  }

  lemma ContainersMore(stats: map<string, UnitState>, keys: seq<string>, i: nat, ordinary: seq<Recovered>,
                       init: seq<Recovered>, reading: Reading)
    requires ContainersSoFar(stats, keys, i, ordinary, init) && i < |keys| && keys[i] in stats
    requires reading == ReadingOf(stats[keys[i]].unitData) && !reading.Broken?
    ensures ContainersSoFar(stats, keys, i + 1, ordinary + IfAny(ContainerFrom(keys[i], reading, false)),
                            init + IfAny(ContainerFrom(keys[i], reading, true)))
  {
    CollectsContainer(stats, keys, i, false, reading);
    CollectsContainer(stats, keys, i, true, reading);
    NoneOfSnoc(stats, keys, i, Broken);
  }

  lemma ContainersSkip(stats: map<string, UnitState>, keys: seq<string>, i: nat, ordinary: seq<Recovered>,
                       init: seq<Recovered>, reading: Reading)
    requires ContainersSoFar(stats, keys, i, ordinary, init) && i < |keys| && keys[i] in stats
    requires reading == ReadingOf(stats[keys[i]].unitData) && reading.Foreign?
    ensures ContainersSoFar(stats, keys, i + 1, ordinary, init)
  {
    ContainersMore(stats, keys, i, ordinary, init, reading);
    Unextended(ordinary);
    Unextended(init);
  }

  lemma ContainersAdd(stats: map<string, UnitState>, keys: seq<string>, i: nat, ordinary: seq<Recovered>,
                      init: seq<Recovered>, reading: Reading)
    requires ContainersSoFar(stats, keys, i, ordinary, init) && i < |keys| && keys[i] in stats
    requires reading == ReadingOf(stats[keys[i]].unitData) && reading.Read?
    ensures
      var c := [Recovered(ContainerOf(keys[i]), reading.image, reading.command)];
      if reading.init then ContainersSoFar(stats, keys, i + 1, ordinary, init + c)
      else ContainersSoFar(stats, keys, i + 1, ordinary + c, init)
  {
    ContainersMore(stats, keys, i, ordinary, init, reading);
    Unextended(ordinary);
    Unextended(init);
  }

  lemma ContainersAll(stats: map<string, UnitState>, keys: seq<string>, ordinary: seq<Recovered>,
                      init: seq<Recovered>)
    requires ContainersSoFar(stats, keys, |keys|, ordinary, init) && Enumerates(keys, stats.Keys)
    ensures !AnyOf(stats, Broken)
    ensures Lists(ordinary, init)
         == Lists(Collect(ContainersIn(stats, false), keys), Collect(ContainersIn(stats, true), keys))
  {
    assert keys[..|keys|] == keys;
    NoneOfAll(stats, keys, Broken);
  }

  lemma ContainersNone(stats: map<string, UnitState>, keys: seq<string>)
    ensures ContainersSoFar(stats, keys, 0, [], [])
  {
  }

  lemma OneBroken(stats: map<string, UnitState>, k: string)
    requires k in stats
    ensures ReadingOf(stats[k].unitData) == Broken ==> AnyOf(stats, Broken)
    ensures ReadingOf(stats[k].unitData) == Foreign ==> AnyOf(stats, Foreign)
  {
  }

  // None: it panics. Units without the section are skipped.
  method ToContainers(stats: map<string, UnitState>) returns (r: Option<Lists<Recovered>>, ghost order: seq<string>)
    ensures Enumerates(order, stats.Keys)
    ensures r.None? <==> AnyOf(stats, Broken)
    ensures r.Some?
      ==> r.value == Lists(Collect(ContainersIn(stats, false), order), Collect(ContainersIn(stats, true), order))
  {
    var keys := UnitNamesOf(stats);
    order := keys;
    EnumeratedKeys(keys, stats.Keys);
    var initContainers, containers := [], [];
    ContainersNone(stats, keys);
    for i := 0 to |keys|
      invariant ContainersSoFar(stats, keys, i, containers, initContainers)
    {
      var k := keys[i];
      var reading := ReadUnit(stats[k].unitData);
      OneBroken(stats, k);
      if reading.Broken? {
        return None, order;
      }
      if reading.Foreign? {
        ContainersSkip(stats, keys, i, containers, initContainers, reading);
        continue;
      }
      ContainersAdd(stats, keys, i, containers, initContainers, reading);
      var container := Recovered(ContainerOf(k), reading.image, reading.command);
      if reading.init {
        initContainers := initContainers + [container];
        continue;
      }
      containers := containers + [container];
    }
    ContainersAll(stats, keys, containers, initContainers);
    return Some(Lists(containers, initContainers)), order;
  }

  predicate StatusesSoFar(stats: map<string, UnitState>, keys: seq<string>, i: nat, ordinary: seq<ContainerStatus>,
                          init: seq<ContainerStatus>)
  {
    && i <= |keys| && NoneOf(stats, keys[..i], Broken) && NoneOf(stats, keys[..i], Foreign)
    && ordinary == Collect(StatusesIn(stats, false), keys[..i])
    && init == Collect(StatusesIn(stats, true), keys[..i])
  }

  lemma StatusesMore(stats: map<string, UnitState>, keys: seq<string>, i: nat, ordinary: seq<ContainerStatus>,
                     init: seq<ContainerStatus>, reading: Reading)
    requires StatusesSoFar(stats, keys, i, ordinary, init) && i < |keys| && keys[i] in stats
    requires reading == ReadingOf(stats[keys[i]].unitData) && reading.Read?
    ensures StatusesSoFar(stats, keys, i + 1, ordinary + IfAny(StatusFrom(keys[i], reading, stats[keys[i]], false)),
                          init + IfAny(StatusFrom(keys[i], reading, stats[keys[i]], true)))
  {
    CollectsStatus(stats, keys, i, false, reading);
    CollectsStatus(stats, keys, i, true, reading);
    NoneOfSnoc(stats, keys, i, Broken);
    NoneOfSnoc(stats, keys, i, Foreign);
  }

  lemma StatusesAdd(stats: map<string, UnitState>, keys: seq<string>, i: nat, ordinary: seq<ContainerStatus>,
                    init: seq<ContainerStatus>, reading: Reading)
    requires StatusesSoFar(stats, keys, i, ordinary, init) && i < |keys| && keys[i] in stats
    requires reading == ReadingOf(stats[keys[i]].unitData) && reading.Read?
    ensures
      var s := stats[keys[i]];
      var status := [ContainerStatus(ContainerOf(keys[i]), reading.image,
                       StateOf(s.subState, s.execMainStatus, s.execMainExitTimestamp))];
      if reading.init then StatusesSoFar(stats, keys, i + 1, ordinary, init + status)
      else StatusesSoFar(stats, keys, i + 1, ordinary + status, init)
  {
    StatusesMore(stats, keys, i, ordinary, init, reading);
    Unextended(ordinary);
    Unextended(init);
  }

  lemma StatusesAll(stats: map<string, UnitState>, keys: seq<string>, ordinary: seq<ContainerStatus>,
                    init: seq<ContainerStatus>)
    requires StatusesSoFar(stats, keys, |keys|, ordinary, init) && Enumerates(keys, stats.Keys)
    ensures !AnyOf(stats, Broken) && !AnyOf(stats, Foreign)
    ensures Lists(ordinary, init)
         == Lists(Collect(StatusesIn(stats, false), keys), Collect(StatusesIn(stats, true), keys))
  {
    assert keys[..|keys|] == keys;
    NoneOfAll(stats, keys, Broken);
    NoneOfAll(stats, keys, Foreign);
  }

  lemma StatusesNone(stats: map<string, UnitState>, keys: seq<string>)
    ensures StatusesSoFar(stats, keys, 0, [], [])
  {
  }

  // Here a unit without the section panics too.
  method ToContainerStatuses(stats: map<string, UnitState>)
    returns (r: Option<Lists<ContainerStatus>>, ghost order: seq<string>)
    ensures Enumerates(order, stats.Keys)
    ensures r.None? <==> AnyOf(stats, Broken) || AnyOf(stats, Foreign)
    ensures r.Some?
      ==> r.value == Lists(Collect(StatusesIn(stats, false), order), Collect(StatusesIn(stats, true), order))
  {
    var keys := UnitNamesOf(stats);
    order := keys;
    EnumeratedKeys(keys, stats.Keys);
    var initStatuses, statuses := [], [];
    StatusesNone(stats, keys);
    for i := 0 to |keys|
      invariant StatusesSoFar(stats, keys, i, statuses, initStatuses)
    {
      var k := keys[i];
      var s := stats[k];
      var reading := ReadUnit(s.unitData);
      OneBroken(stats, k);
      if reading.Broken? || reading.Foreign? {
        return None, order;
      }
      StatusesAdd(stats, keys, i, statuses, initStatuses, reading);
      var status := ContainerStatus(ContainerOf(k), reading.image,
        StateOf(s.subState, s.execMainStatus, s.execMainExitTimestamp));
      if reading.init {
        initStatuses := initStatuses + [status];
        continue;
      }
      statuses := statuses + [status];
    }
    StatusesAll(stats, keys, statuses, initStatuses);
    return Some(Lists(statuses, initStatuses)), order;
  }

  // ---- statsToPod.

  datatype FoundPod = FoundPod(
    name: string,
    namespace: string,
    clusterName: string,
    uid: string,
    containers: Lists<Recovered>,
    statuses: Lists<ContainerStatus>,
    phase: PodPhase)

  // Removes: the unit first looked at has no X-Kubernetes section; it is stopped and unloaded.
  datatype Outcome = NoPod | Removes(unit: string) | Panics | Found(pod: FoundPod)

  function StatesOf(statuses: seq<ContainerStatus>): seq<ContainerState> {
    seq(|statuses|, i requires 0 <= i < |statuses| => statuses[i].state)
  }

  // The metadata of the unit first looked at.
  datatype Meta = NoMeta | ForeignUnit | Meta(namespace: string, clusterName: string, uid: string)

  function MetaOf(unitData: string): Meta {
    match Parse(unitData)
    case None => NoMeta
    case Some(opts) =>
      var namespaces := Values(opts, KUBERNETES_SECTION, "Namespace");
      var clusterNames := Values(opts, KUBERNETES_SECTION, "ClusterName");
      var uids := Values(opts, KUBERNETES_SECTION, "Id");
      if !HasSection(opts, KUBERNETES_SECTION) then ForeignUnit
      else if namespaces == [] || clusterNames == [] || uids == [] then NoMeta
      else Meta(namespaces[0], clusterNames[0], uids[0])
  }

  method ReadMeta(unitData: string) returns (meta: Meta)
    ensures meta == MetaOf(unitData)
  {
    var uf := NewFile(unitData);
    if uf.None? {
      return NoMeta;
    }
    var contents := uf.value;
    ghost var opts := Parse(unitData).value;
    IndexRead(opts, KUBERNETES_SECTION, "Namespace");
    IndexRead(opts, KUBERNETES_SECTION, "ClusterName");
    IndexRead(opts, KUBERNETES_SECTION, "Id");
    if KUBERNETES_SECTION !in contents {
      return ForeignUnit;
    }
    var namespaces := Lookup(contents, KUBERNETES_SECTION, "Namespace");
    var clusterNames := Lookup(contents, KUBERNETES_SECTION, "ClusterName");
    var uids := Lookup(contents, KUBERNETES_SECTION, "Id");
    if |namespaces| == 0 || |clusterNames| == 0 || |uids| == 0 {
      return NoMeta;
    }
    return Meta(namespaces[0], clusterNames[0], uids[0]);
  }

  // The outcome for given choices of Go's map iteration: the unit looked at first, and the two orders.
  function PodFrom(stats: map<string, UnitState>, first: string, order: seq<string>, statusOrder: seq<string>): Outcome
    requires first in stats
  {
    match MetaOf(stats[first].unitData)
    case NoMeta => Panics
    case ForeignUnit => Removes(first)
    case Meta(namespace, clusterName, uid) =>
      if AnyOf(stats, Broken) || AnyOf(stats, Foreign) then Panics
      else
        var containers := Lists(Collect(ContainersIn(stats, false), order), Collect(ContainersIn(stats, true), order));
        var statuses := Lists(Collect(StatusesIn(stats, false), statusOrder),
          Collect(StatusesIn(stats, true), statusOrder));
        var phase := PhaseOf(StatesOf(statuses.ordinary));
        Found(FoundPod(PodOf(first), namespace, clusterName, uid, containers, statuses, phase))
  }

  method StatsToPod(stats: map<string, UnitState>)
    returns (outcome: Outcome, ghost first: string, ghost order: seq<string>, ghost statusOrder: seq<string>)
    ensures |stats| == 0 ==> outcome == NoPod
    ensures |stats| > 0 ==> first in stats
    ensures |stats| > 0 && PodFrom(stats, first, order, statusOrder).Found? ==>
      Enumerates(order, stats.Keys) && Enumerates(statusOrder, stats.Keys)
    ensures |stats| > 0 ==> outcome == PodFrom(stats, first, order, statusOrder)
  {
    first, order, statusOrder := "", [], [];
    if |stats| == 0 {
      return NoPod, first, order, statusOrder;
    }
    assert stats.Keys != {};
    var name :| name in stats.Keys;
    first := name;
    var meta := ReadMeta(stats[name].unitData);
    if meta.NoMeta? {
      return Panics, first, order, statusOrder;
    }
    if meta.ForeignUnit? {
      return Removes(name), first, order, statusOrder;
    }
    var containers, statuses;
    containers, order := ToContainers(stats);
    statuses, statusOrder := ToContainerStatuses(stats);
    if containers.None? || statuses.None? {
      return Panics, first, order, statusOrder;
    }
    var phase := ToPhase(StatesOf(statuses.value.ordinary));
    outcome := Found(FoundPod(PodOf(name), meta.namespace, meta.clusterName, meta.uid, containers.value,
      statuses.value, phase));
  }

  // ---- Go's map order does not matter to what is collected.

  lemma {:induction false} CollectAppend<T>(f: string -> Option<T>, a: seq<string>, b: seq<string>)
    ensures Collect(f, a + b) == Collect(f, a) + Collect(f, b)
  {
    if b == [] {
      assert a + b == a;
    } else {
      CollectAppend(f, a, b[..|b| - 1]);
      assert (a + b)[..|a + b| - 1] == a + b[..|b| - 1];
    }
  }

  lemma CollectRemove<T>(f: string -> Option<T>, order: seq<string>, i: nat, less: seq<string>)
    requires i < |order| && less == order[..i] + order[i + 1..]
    ensures multiset(Collect(f, less)) + multiset(IfAny(f(order[i]))) == multiset(Collect(f, order))
  {
    assert order == order[..i + 1] + order[i + 1..];
    CollectAppend(f, order[..i + 1], order[i + 1..]);
    CollectAppend(f, order[..i], order[i + 1..]);
    CollectSnoc(f, order, i);
  }

  lemma AddBoth<T>(x: multiset<T>, y: multiset<T>, more: multiset<T>, a: multiset<T>, b: multiset<T>)
    requires x == y && x + more == a && y + more == b
    ensures a == b
  {
  }

  lemma CollectFirst<T>(f: string -> Option<T>, a: seq<string>, b: seq<string>, i: nat, x: seq<string>, y: seq<string>)
    requires a != [] && i < |b| && b[i] == a[0] && x == a[1..] && y == b[..i] + b[i + 1..]
    requires multiset(Collect(f, x)) == multiset(Collect(f, y))
    ensures multiset(Collect(f, a)) == multiset(Collect(f, b))
  {
    CollectRemove(f, a, 0, x);
    CollectRemove(f, b, i, y);
    AddBoth(multiset(Collect(f, x)), multiset(Collect(f, y)), multiset(IfAny(f(a[0]))), multiset(Collect(f, a)),
      multiset(Collect(f, b)));
  }

  lemma {:induction false} CollectPermutes<T>(f: string -> Option<T>, a: seq<string>, b: seq<string>)
    requires multiset(a) == multiset(b)
    ensures multiset(Collect(f, a)) == multiset(Collect(f, b))
    decreases |a|
  {
    if a == [] {
      NoneAmong(b);
    } else {
      var i := FirstAmong(a, b);
      CollectPermutes(f, a[1..], b[..i] + b[i + 1..]);
      CollectFirst(f, a, b, i, a[1..], b[..i] + b[i + 1..]);
    }
  }

  // ---- What the units CreatePod loads are read back as.

  lemma NoSectionNoValues(pkg: seq<UnitOption>, section: string, name: string)
    requires !HasSection(pkg, section)
    ensures Values(pkg, section, name) == []
  {
    ValuesNeedSection(pkg, section, name);
  }

  lemma TrimEachOne(v: string)
    ensures TrimEach([v]) == [Trim(v)]
  {
  }

  lemma MetaRead(host: Host, pkg: seq<UnitOption>, c: Container, x: Context)
    requires ProperCommand(c) && !HasSection(pkg, KUBERNETES_SECTION) && Named(pkg) && RawReturns(host, pkg, c, x)
    ensures Parse(Print(Compiled(host, pkg, c, x))).Some?
    ensures
      var opts := Parse(Print(Compiled(host, pkg, c, x))).value;
      && HasSection(opts, KUBERNETES_SECTION)
      && Values(opts, KUBERNETES_SECTION, "Namespace") == [Trim(x.pod.namespace)]
      && Values(opts, KUBERNETES_SECTION, "ClusterName") == [Trim(x.pod.clusterName)]
      && Values(opts, KUBERNETES_SECTION, "Id") == [Trim(x.pod.uid)]
      && Values(opts, KUBERNETES_SECTION, "Image") == [Trim(Clean(host, c.image))]
  {
    var unit := Compiled(host, pkg, c, x);
    CompiledComesBack(host, pkg, c, x);
    CompiledMeta(host, pkg, c, x);
    ReadBack(pkg, unit, "Namespace", x.pod.namespace);
    ReadBack(pkg, unit, "ClusterName", x.pod.clusterName);
    ReadBack(pkg, unit, "Id", x.pod.uid);
    ReadBack(pkg, unit, "Image", Clean(host, c.image));
    ValuesNeedSection(Parse(Print(unit)).value, KUBERNETES_SECTION, "Id");
  }

  lemma ReadBack(pkg: seq<UnitOption>, unit: seq<UnitOption>, name: string, value: string)
    requires !HasSection(pkg, KUBERNETES_SECTION) && Named(unit) && ComesBack(unit)
    requires Values(unit, KUBERNETES_SECTION, name) == Values(pkg, KUBERNETES_SECTION, name) + [value]
    ensures Parse(Print(unit)).Some? && Values(Parse(Print(unit)).value, KUBERNETES_SECTION, name) == [Trim(value)]
  {
    NoSectionNoValues(pkg, KUBERNETES_SECTION, name);
    assert [] + [value] == [value];
    RoundTripValues(unit, KUBERNETES_SECTION, name);
    TrimEachOne(value);
  }

  function Command(host: Host, pkg: seq<UnitOption>, c: Container): string
    requires ProperCommand(c)
  {
    Trim(Join(Words(host, pkg, c), " "))
  }

  lemma UnitRead(host: Host, pkg: seq<UnitOption>, c: Container, x: Context)
    requires ProperCommand(c) && !HasSection(pkg, KUBERNETES_SECTION) && Named(pkg) && RawReturns(host, pkg, c, x)
    ensures ReadingOf(Print(Compiled(host, pkg, c, x)))
      == Read(x.isInit, Trim(Clean(host, c.image)), [Command(host, pkg, c)])
  {
    var unit := Compiled(host, pkg, c, x);
    CompiledComesBack(host, pkg, c, x);
    MetaRead(host, pkg, c, x);
    CompiledInit(host, pkg, c, x);
    NoSectionNoValues(pkg, KUBERNETES_SECTION, "InitContainer");
    RoundTripValues(unit, KUBERNETES_SECTION, "InitContainer");
    CompiledExec(host, pkg, c, x);
    RoundTripValues(unit, "Service", "ExecStart");
    TrimEachOne(Join(Words(host, pkg, c), " "));
  }

  // ---- The whole pod.

  // What Kubernetes guarantees of names: namespaces and containers are DNS labels, and the containers of
  // a pod have distinct names. Pod names may have dots.
  predicate Labelled(pod: Pod) {
    && DotFree(pod.namespace) && DistinctContainers(pod)
    && forall i :: 0 <= i < |AllContainers(pod)| ==> DotFree(AllContainers(pod)[i].name)
  }

  predicate DistinctContainers(pod: Pod) {
    forall i, j :: 0 <= i < j < |AllContainers(pod)| ==> AllContainers(pod)[i].name != AllContainers(pod)[j].name
  }

  // Every container got its unit, no package has an X-Kubernetes section of its own, and the raw fields
  // of package, pod, volumes and node return.
  predicate Storable(host: Host, pod: Pod, vol: map<string, string>, ids: Ids) {
    && ProperPod(pod) && AllContainers(pod) != []
    && forall i :: 0 <= i < |AllContainers(pod)| ==> StorableAt(host, pod, vol, ids, i)
  }

  predicate StorableAt(host: Host, pod: Pod, vol: map<string, string>, ids: Ids, i: nat)
    requires ProperPod(pod)
  {
    && Succeeds(host, pod, ids, i + 1)
    && !HasSection(PackageOf(host, pod, ids, i), KUBERNETES_SECTION)
    && RawFitAt(Returning(), host, pod, vol, ids, i)
  }

  // ---- Packages that ship no unit file: then the conditions are on pod, volumes and node alone.

  predicate Synthesized(host: Host, c: Container) {
    c.image !in host.failing && Clean(host, c.image) !in host.unitTexts
  }

  predicate AllSynthesized(host: Host, containers: seq<Container>, n: nat) {
    n <= |containers| && forall j :: 0 <= j < n ==> Synthesized(host, containers[j])
  }

  // The ids after any such container: they look like root's, so an override uid is put in once.
  function SynthIds(host: Host, ids: Ids): Option<Ids> {
    if ids.uid == "" && host.overrideRootUID > 0 then Override(host.accounts, host.overrideRootUID) else Some(ids)
  }

  lemma SynthNext(host: Host, c: Container, ids: Ids)
    requires Synthesized(host, c)
    ensures NextIds(host, c, ids) == SynthIds(host, ids)
    ensures PackageOptions(host, Clean(host, c.image)) == Some(SynthOptions())
  {
    SynthUser();
  }

  lemma SynthUser()
    ensures Values(SynthOptions(), "Service", "User") == [] && Values(SynthOptions(), "Service", "Group") == []
  {
    ValuesNone(SynthOptions(), "Service", "User");
    ValuesNone(SynthOptions(), "Service", "Group");
  }

  lemma SynthTwice(host: Host, ids: Ids)
    requires SynthIds(host, ids).Some?
    ensures SynthIds(host, SynthIds(host, ids).value) == SynthIds(host, ids)
  {
  }

  lemma {:induction false} SynthCarried(host: Host, containers: seq<Container>, ids: Ids, n: nat)
    requires AllSynthesized(host, containers, n) && SynthIds(host, ids).Some?
    ensures IdsAfter(host, containers, ids, n) == if n == 0 then Some(ids) else SynthIds(host, ids)
  {
    if n > 0 {
      assert AllSynthesized(host, containers, n - 1) && Synthesized(host, containers[n - 1]);
      SynthCarried(host, containers, ids, n - 1);
      SynthTwice(host, ids);
      SynthStep(host, containers, ids, n);
    }
  }

  lemma SynthStep(host: Host, containers: seq<Container>, ids: Ids, n: nat)
    requires 0 < n <= |containers| && Synthesized(host, containers[n - 1])
    requires IdsAfter(host, containers, ids, n - 1).Some?
    ensures IdsAfter(host, containers, ids, n) == SynthIds(host, IdsAfter(host, containers, ids, n - 1).value)
  {
    SynthNext(host, containers[n - 1], IdsAfter(host, containers, ids, n - 1).value);
  }

  lemma SynthSections(k: nat)
    ensures SynthOption(k).section != KUBERNETES_SECTION && !EndsIn(SynthOption(k).value, '\\')
  {
  }

  lemma SynthMembers()
    ensures forall o :: o in SynthOptions() ==> o.section != KUBERNETES_SECTION && !EndsIn(o.value, '\\')
    ensures !HasSection(SynthOptions(), KUBERNETES_SECTION)
  {
    forall o | o in SynthOptions()
      ensures o.section != KUBERNETES_SECTION && !EndsIn(o.value, '\\')
    {
      var k :| 0 <= k < 4 && SynthOptions()[k] == o;
      SynthSections(k);
    }
    HasSectionMember(SynthOptions(), KUBERNETES_SECTION);
  }

  lemma NoBackslashReturns(pkg: seq<UnitOption>, c: Container, x: Context)
    requires Delivered(pkg) && forall o :: o in pkg ==> !EndsIn(o.value, '\\')
    ensures Placed(Returning(), KeptOptions(pkg, c, x), SectionsAdded(x))
  {
    var kept := KeptOptions(pkg, c, x);
    KeptReturns(pkg, c, x);
    KeptMembers(pkg, c, x);
    assert forall i :: 0 <= i < |kept| ==> kept[i] in kept;
  }

  lemma SynthPlaced(c: Container, x: Context)
    ensures Placed(Returning(), KeptOptions(SynthOptions(), c, x), SectionsAdded(x))
  {
    SynthMembers();
    SynthDelivered();
    NoBackslashReturns(SynthOptions(), c, x);
  }

  lemma SynthIdsAfter(host: Host, containers: seq<Container>, ids: Ids, n: nat)
    requires n > 0 && AllSynthesized(host, containers, n) && SynthIds(host, ids).Some?
    ensures IdsAfter(host, containers, ids, n) == SynthIds(host, ids)
  {
    SynthCarried(host, containers, ids, n);
  }

  lemma SynthSucceeds(host: Host, pod: Pod, ids: Ids, n: nat)
    requires n > 0 && AllSynthesized(host, AllContainers(pod), n) && SynthIds(host, ids).Some?
    ensures Succeeds(host, pod, ids, n)
  {
    SynthIdsAfter(host, AllContainers(pod), ids, n);
  }

  lemma SynthPackage(host: Host, c: Container)
    requires Synthesized(host, c)
    ensures PackageOptions(host, Clean(host, c.image)) == Some(SynthOptions())
  {
  }

  lemma SynthStorable(host: Host, pod: Pod, vol: map<string, string>, ids: Ids, i: nat)
    requires ProperPod(pod) && AllSynthesized(host, AllContainers(pod), i + 1) && SynthIds(host, ids).Some?
    ensures Succeeds(host, pod, ids, i + 1)
    ensures
      var c, x := AllContainers(pod)[i], ContextAt(pod, vol, i, SynthIds(host, ids).value);
      StorableAt(host, pod, vol, ids, i) <==> FieldsFitFrom(Returning(), host, c, x, Words(host, SynthOptions(), c), 0)
  {
    SynthSucceeds(host, pod, ids, i + 1);
    SynthIdsAfter(host, AllContainers(pod), ids, i + 1);
    SynthPackage(host, AllContainers(pod)[i]);
    SynthMembers();
    SynthPlaced(AllContainers(pod)[i], ContextOf(host, pod, vol, ids, i));
  }

  // The states of exactly this pod's units, each with the text that was loaded.
  predicate Stored(host: Host, pod: Pod, vol: map<string, string>, ids: Ids, stats: map<string, UnitState>)
    requires Storable(host, pod, vol, ids)
  {
    && (forall k :: k in stats ==> k in UnitNames(pod))
    && forall i :: 0 <= i < |AllContainers(pod)| ==> StoredAt(host, pod, vol, ids, stats, i)
  }

  predicate StoredAt(host: Host, pod: Pod, vol: map<string, string>, ids: Ids, stats: map<string, UnitState>, i: nat)
    requires ProperPod(pod) && i < |AllContainers(pod)| && StorableAt(host, pod, vol, ids, i)
  {
    UnitName(pod, i) in stats && stats[UnitName(pod, i)].unitData == Print(UnitAt(host, pod, vol, ids, i))
  }

  // What reading unit i is to give.
  function ReadingAt(host: Host, pod: Pod, i: nat): Reading
    requires ProperPod(pod) && i < |AllContainers(pod)|
  {
    var c := AllContainers(pod)[i];
    Read(i < |pod.initContainers|, Trim(Clean(host, c.image)), [Command(host, ShippedOptions(host, c), c)])
  }

  function Readings(host: Host, pod: Pod): seq<Reading>
    requires ProperPod(pod)
  {
    seq(|AllContainers(pod)|, i requires 0 <= i < |AllContainers(pod)| => ReadingAt(host, pod, i))
  }

  function ShippedOptions(host: Host, c: Container): seq<UnitOption> {
    match PackageOptions(host, Clean(host, c.image))
    case None => []
    case Some(opts) => opts
  }

  lemma StoredReads(host: Host, pod: Pod, vol: map<string, string>, ids: Ids, stats: map<string, UnitState>, i: nat)
    requires ProperPod(pod) && i < |AllContainers(pod)|
    requires StorableAt(host, pod, vol, ids, i) && StoredAt(host, pod, vol, ids, stats, i)
    ensures ReadingOf(stats[UnitName(pod, i)].unitData) == ReadingAt(host, pod, i)
  {
    var x := ContextOf(host, pod, vol, ids, i);
    PackageDelivered(host, Clean(host, AllContainers(pod)[i].image));
    UnitRead(host, PackageOf(host, pod, ids, i), AllContainers(pod)[i], x);
  }

  // The units of the pod are in stats and read as given.
  predicate ReadsAs(stats: map<string, UnitState>, pod: Pod, readings: seq<Reading>) {
    && |readings| == |AllContainers(pod)|
    && forall i :: 0 <= i < |readings| ==> ReadsAt(stats, pod, i, readings[i])
  }

  predicate ReadsAt(stats: map<string, UnitState>, pod: Pod, i: nat, reading: Reading) {
    && i < |AllContainers(pod)| && UnitName(pod, i) in stats
    && reading.Read? && reading.init == (i < |pod.initContainers|)
    && ReadingOf(stats[UnitName(pod, i)].unitData) == reading
  }

  lemma AllReads(host: Host, pod: Pod, vol: map<string, string>, ids: Ids, stats: map<string, UnitState>)
    requires Storable(host, pod, vol, ids) && Stored(host, pod, vol, ids, stats)
    ensures ReadsAs(stats, pod, Readings(host, pod))
  {
    forall i | 0 <= i < |AllContainers(pod)|
      ensures ReadsAt(stats, pod, i, Readings(host, pod)[i])
    {
      assert StorableAt(host, pod, vol, ids, i) && StoredAt(host, pod, vol, ids, stats, i);
      StoredReads(host, pod, vol, ids, stats, i);
    }
  }

  // A filter that keeps the names from lo to hi.
  predicate Keeps<T(==)>(f: string -> Option<T>, names: seq<string>, lo: nat, hi: nat, all: seq<T>)
    requires lo <= hi <= |names| == |all|
  {
    forall i :: 0 <= i < |names| ==> f(names[i]) == if lo <= i < hi then Some(all[i]) else None
  }

  function Window<T>(all: seq<T>, lo: nat, hi: nat, n: nat): seq<T>
    requires lo <= hi <= |all| && n <= |all|
  {
    if n <= lo then [] else if n <= hi then all[lo..n] else all[lo..hi]
  }

  lemma WindowStep<T>(all: seq<T>, lo: nat, hi: nat, n: nat)
    requires lo <= hi <= |all| && n < |all|
    ensures Window(all, lo, hi, n + 1) == Window(all, lo, hi, n) + (if lo <= n < hi then [all[n]] else [])
  {
  }

  lemma {:induction false} CollectPrefix<T>(f: string -> Option<T>, names: seq<string>, lo: nat, hi: nat, all: seq<T>,
                                            n: nat)
    requires lo <= hi <= |names| == |all| && n <= |names| && Keeps(f, names, lo, hi, all)
    ensures Collect(f, names[..n]) == Window(all, lo, hi, n)
  {
    if n > 0 {
      var k := n - 1;
      CollectPrefix(f, names, lo, hi, all, k);
      CollectSnoc(f, names, k);
      WindowStep(all, lo, hi, k);
      assert IfAny(f(names[k])) == if lo <= k < hi then [all[k]] else [];
    }
  }

  lemma CollectSlice<T>(f: string -> Option<T>, names: seq<string>, lo: nat, hi: nat, all: seq<T>)
    requires lo <= hi <= |names| == |all|
    requires forall i :: 0 <= i < |names| ==> f(names[i]) == if lo <= i < hi then Some(all[i]) else None
    ensures Collect(f, names) == all[lo..hi]
  {
    CollectPrefix(f, names, lo, hi, all, |names|);
    assert names[..|names|] == names;
  }

  // Init containers are the first ones.
  function Lo(pod: Pod, init: bool): nat { if init then 0 else |pod.initContainers| }
  function Hi(pod: Pod, init: bool): nat { if init then |pod.initContainers| else |AllContainers(pod)| }

  // The init or the ordinary part of a list with an entry for every container.
  function Part<T>(pod: Pod, all: seq<T>, init: bool): seq<T>
    requires |all| == |AllContainers(pod)|
  {
    all[Lo(pod, init)..Hi(pod, init)]
  }

  function StateIn(stats: map<string, UnitState>, unitName: string): ContainerState {
    if unitName in stats then
      StateOf(stats[unitName].subState, stats[unitName].execMainStatus, stats[unitName].execMainExitTimestamp)
    else NO_STATE
  }

  function NamedContainer(name: string, r: Reading): Recovered {
    if r.Read? then Recovered(name, r.image, r.command) else Recovered(name, "", [])
  }

  function NamedStatus(name: string, r: Reading, state: ContainerState): ContainerStatus {
    ContainerStatus(name, if r.Read? then r.image else "", state)
  }

  // The name under which container i is found again: its own, but for a dotted pod name that pod's
  // second label.
  function FoundName(pod: Pod, i: nat): string
    requires i < |AllContainers(pod)|
  {
    (Split(pod.name, '.') + [AllContainers(pod)[i].name])[1]
  }

  predicate KeepsNames(pod: Pod) {
    forall i :: 0 <= i < |AllContainers(pod)| ==> FoundName(pod, i) == AllContainers(pod)[i].name
  }

  lemma FoundNames(pod: Pod)
    ensures Split(pod.name, '.')[0] == pod.name <==> DotFree(pod.name)
    ensures DotFree(pod.name) ==> KeepsNames(pod)
  {
    OneLabel(pod.name);
  }

  // The containers and statuses in spec order.
  function AllRecovered(pod: Pod, readings: seq<Reading>): seq<Recovered>
    requires |readings| == |AllContainers(pod)|
  {
    seq(|readings|, i requires 0 <= i < |readings| => NamedContainer(FoundName(pod, i), readings[i]))
  }

  function AllStatuses(stats: map<string, UnitState>, pod: Pod, readings: seq<Reading>): seq<ContainerStatus>
    requires |readings| == |AllContainers(pod)|
  {
    seq(|readings|, i requires 0 <= i < |readings| =>
      NamedStatus(FoundName(pod, i), readings[i], StateIn(stats, UnitName(pod, i))))
  }

  lemma ReadAt(stats: map<string, UnitState>, pod: Pod, readings: seq<Reading>, i: nat, init: bool)
    requires Labelled(pod) && i < |readings| == |AllContainers(pod)| && ReadsAt(stats, pod, i, readings[i])
    ensures ContainersIn(stats, init)(UnitName(pod, i))
         == if Lo(pod, init) <= i < Hi(pod, init) then Some(AllRecovered(pod, readings)[i]) else None
    ensures StatusesIn(stats, init)(UnitName(pod, i))
         == if Lo(pod, init) <= i < Hi(pod, init) then Some(AllStatuses(stats, pod, readings)[i]) else None
  {
    ReadersRead(KeyOf(pod), AllContainers(pod)[i].name);
  }

  lemma CollectsContainers(stats: map<string, UnitState>, pod: Pod, readings: seq<Reading>, init: bool)
    requires ReadsAs(stats, pod, readings) && Labelled(pod)
    ensures Collect(ContainersIn(stats, init), UnitNames(pod)) == Part(pod, AllRecovered(pod, readings), init)
  {
    var names, lo, all := UnitNames(pod), Lo(pod, init), AllRecovered(pod, readings);
    forall i | 0 <= i < |names|
      ensures ContainersIn(stats, init)(names[i]) == if lo <= i < Hi(pod, init) then Some(all[i]) else None
    {
      ReadAt(stats, pod, readings, i, init);
    }
    CollectSlice(ContainersIn(stats, init), names, lo, Hi(pod, init), all);
  }

  lemma CollectsStatuses(stats: map<string, UnitState>, pod: Pod, readings: seq<Reading>, init: bool)
    requires ReadsAs(stats, pod, readings) && Labelled(pod)
    ensures Collect(StatusesIn(stats, init), UnitNames(pod)) == Part(pod, AllStatuses(stats, pod, readings), init)
  {
    var names, lo, all := UnitNames(pod), Lo(pod, init), AllStatuses(stats, pod, readings);
    forall i | 0 <= i < |names|
      ensures StatusesIn(stats, init)(names[i]) == if lo <= i < Hi(pod, init) then Some(all[i]) else None
    {
      ReadAt(stats, pod, readings, i, init);
    }
    CollectSlice(StatusesIn(stats, init), names, lo, Hi(pod, init), all);
  }

  // ---- Store and recover.

  lemma {:induction false} DistinctEnumerates(order: seq<string>, keys: set<string>)
    requires forall i, j :: 0 <= i < j < |order| ==> order[i] != order[j]
    requires forall k :: k in keys <==> k in order
    ensures Enumerates(order, keys)
  {
    if order == [] {
      assert keys == {};
    } else {
      var last := |order| - 1;
      assert order == order[..last] + [order[last]];
      DistinctEnumerates(order[..last], keys - {order[last]});
      assert keys == (keys - {order[last]}) + {order[last]};
    }
  }

  lemma UnitNamesDistinct(pod: Pod)
    requires Labelled(pod)
    ensures forall i, j :: 0 <= i < j < |UnitNames(pod)| ==> UnitNames(pod)[i] != UnitNames(pod)[j]
  {
    forall i, j | 0 <= i < j < |UnitNames(pod)|
      ensures UnitNames(pod)[i] != UnitNames(pod)[j]
    {
      if UnitName(pod, i) == UnitName(pod, j) {
        UnitNameInjective(KeyOf(pod), AllContainers(pod)[i].name, KeyOf(pod), AllContainers(pod)[j].name);
      }
    }
  }

  lemma StatesRemove(a: seq<ContainerStatus>, i: nat, less: seq<ContainerStatus>)
    requires i < |a| && less == a[..i] + a[i + 1..]
    ensures multiset(StatesOf(less)) + multiset{a[i].state} == multiset(StatesOf(a))
  {
    var states := StatesOf(a);
    assert StatesOf(less) == states[..i] + states[i + 1..];
    assert states == states[..i] + [states[i]] + states[i + 1..];
  }

  lemma StatesFirst(a: seq<ContainerStatus>, b: seq<ContainerStatus>, i: nat, x: seq<ContainerStatus>,
                    y: seq<ContainerStatus>)
    requires a != [] && i < |b| && b[i] == a[0] && x == a[1..] && y == b[..i] + b[i + 1..]
    requires multiset(StatesOf(x)) == multiset(StatesOf(y))
    ensures multiset(StatesOf(a)) == multiset(StatesOf(b))
  {
    StatesRemove(a, 0, x);
    StatesRemove(b, i, y);
    AddBoth(multiset(StatesOf(x)), multiset(StatesOf(y)), multiset{a[0].state}, multiset(StatesOf(a)),
      multiset(StatesOf(b)));
  }

  lemma {:induction false} StatesPermute(a: seq<ContainerStatus>, b: seq<ContainerStatus>)
    requires multiset(a) == multiset(b)
    ensures multiset(StatesOf(a)) == multiset(StatesOf(b))
    decreases |a|
  {
    if a == [] {
      NoneAmong(b);
    } else {
      var i := FirstAmong(a, b);
      StatesPermute(a[1..], b[..i] + b[i + 1..]);
      StatesFirst(a, b, i, a[1..], b[..i] + b[i + 1..]);
    }
  }

  lemma NoneBroken(stats: map<string, UnitState>, pod: Pod, readings: seq<Reading>)
    requires ReadsAs(stats, pod, readings) && forall k :: k in stats ==> k in UnitNames(pod)
    ensures !AnyOf(stats, Broken) && !AnyOf(stats, Foreign)
  {
    forall k | k in stats
      ensures ReadingOf(stats[k].unitData).Read?
    {
      var i :| 0 <= i < |UnitNames(pod)| && UnitNames(pod)[i] == k;
      assert ReadsAt(stats, pod, i, readings[i]);
    }
  }

  // Whatever order Go's maps are walked in, the lists hold what the spec lists, each in the right list.
  lemma ListsInAnyOrder(stats: map<string, UnitState>, pod: Pod, readings: seq<Reading>, order: seq<string>, init: bool)
    requires ReadsAs(stats, pod, readings) && Labelled(pod)
    requires (forall k :: k in stats ==> k in UnitNames(pod)) && Enumerates(order, stats.Keys)
    ensures multiset(Collect(ContainersIn(stats, init), order))
      == multiset(Part(pod, AllRecovered(pod, readings), init))
    ensures multiset(Collect(StatusesIn(stats, init), order))
      == multiset(Part(pod, AllStatuses(stats, pod, readings), init))
  {
    NamesEnumerate(stats, pod, readings);
    CollectPermutes(ContainersIn(stats, init), order, UnitNames(pod));
    CollectPermutes(StatusesIn(stats, init), order, UnitNames(pod));
    CollectsContainers(stats, pod, readings, init);
    CollectsStatuses(stats, pod, readings, init);
  }

  lemma NamesEnumerate(stats: map<string, UnitState>, pod: Pod, readings: seq<Reading>)
    requires ReadsAs(stats, pod, readings) && Labelled(pod)
    requires forall k :: k in stats ==> k in UnitNames(pod)
    ensures Enumerates(UnitNames(pod), stats.Keys)
  {
    UnitNamesDistinct(pod);
    forall k | k in UnitNames(pod)
      ensures k in stats.Keys
    {
      var i :| 0 <= i < |UnitNames(pod)| && UnitNames(pod)[i] == k;
      assert ReadsAt(stats, pod, i, readings[i]);
    }
    DistinctEnumerates(UnitNames(pod), stats.Keys);
  }

  lemma FirstRead(host: Host, pod: Pod, vol: map<string, string>, ids: Ids, stats: map<string, UnitState>, i: nat)
    requires ProperPod(pod) && i < |AllContainers(pod)| && Labelled(pod)
    requires StorableAt(host, pod, vol, ids, i) && StoredAt(host, pod, vol, ids, stats, i)
    ensures PodOf(UnitName(pod, i)) == Split(pod.name, '.')[0]
    ensures MetaOf(stats[UnitName(pod, i)].unitData) == Meta(Trim(pod.namespace), Trim(pod.clusterName), Trim(pod.uid))
  {
    var x := ContextOf(host, pod, vol, ids, i);
    PackageDelivered(host, Clean(host, AllContainers(pod)[i].image));
    MetaRead(host, PackageOf(host, pod, ids, i), AllContainers(pod)[i], x);
    ReadersRead(KeyOf(pod), AllContainers(pod)[i].name);
  }

  // What GetPod is to give back for a stored pod; readings are those of its units.
  predicate Restores(found: FoundPod, pod: Pod, stats: map<string, UnitState>, readings: seq<Reading>)
    requires |readings| == |AllContainers(pod)|
  {
    && found.name == Split(pod.name, '.')[0] && found.namespace == Trim(pod.namespace)
    && found.clusterName == Trim(pod.clusterName) && found.uid == Trim(pod.uid)
    && RestoresLists(found, pod, AllRecovered(pod, readings), AllStatuses(stats, pod, readings))
  }

  predicate RestoresLists(found: FoundPod, pod: Pod, containers: seq<Recovered>, statuses: seq<ContainerStatus>)
    requires |containers| == |statuses| == |AllContainers(pod)|
  {
    && multiset(found.containers.init) == multiset(Part(pod, containers, true))
    && multiset(found.containers.ordinary) == multiset(Part(pod, containers, false))
    && multiset(found.statuses.init) == multiset(Part(pod, statuses, true))
    && multiset(found.statuses.ordinary) == multiset(Part(pod, statuses, false))
    && found.phase == PhaseOf(StatesOf(Part(pod, statuses, false)))
  }

  lemma Rebuilt(stats: map<string, UnitState>, pod: Pod, readings: seq<Reading>,
                first: string, order: seq<string>, statusOrder: seq<string>)
    requires ReadsAs(stats, pod, readings) && Labelled(pod)
    requires (forall k :: k in stats ==> k in UnitNames(pod)) && first in stats
    requires PodOf(first) == Split(pod.name, '.')[0]
    requires MetaOf(stats[first].unitData) == Meta(Trim(pod.namespace), Trim(pod.clusterName), Trim(pod.uid))
    requires Enumerates(order, stats.Keys) && Enumerates(statusOrder, stats.Keys)
    ensures PodFrom(stats, first, order, statusOrder).Found?
    ensures Restores(PodFrom(stats, first, order, statusOrder).pod, pod, stats, readings)
  {
    NoneBroken(stats, pod, readings);
    Gathered(PodFrom(stats, first, order, statusOrder).pod, stats, pod, readings, order, statusOrder);
  }

  lemma StoreAndRecover(host: Host, pod: Pod, vol: map<string, string>, ids: Ids, stats: map<string, UnitState>,
                        first: string, order: seq<string>, statusOrder: seq<string>)
    requires Labelled(pod)
    requires Storable(host, pod, vol, ids) && Stored(host, pod, vol, ids, stats)
    requires first in stats && Enumerates(order, stats.Keys) && Enumerates(statusOrder, stats.Keys)
    ensures PodFrom(stats, first, order, statusOrder).Found?
    ensures Restores(PodFrom(stats, first, order, statusOrder).pod, pod, stats, Readings(host, pod))
  {
    AllReads(host, pod, vol, ids, stats);
    var i :| 0 <= i < |UnitNames(pod)| && UnitNames(pod)[i] == first;
    assert StorableAt(host, pod, vol, ids, i) && StoredAt(host, pod, vol, ids, stats, i);
    FirstRead(host, pod, vol, ids, stats, i);
    Rebuilt(stats, pod, Readings(host, pod), first, order, statusOrder);
  }

  // ---- When only the X-Kubernetes fields return.

  function ReturningIn(section: string): Fit {
    (o: UnitOption, last: bool) => o.section == section ==> Returns(o.value, last)
  }

  function KeepingOut(): Fit {
    (o: UnitOption, last: bool) => KeepsOut(o.value, KUBERNETES_SECTION)
  }

  // The namespace, cluster name, UID and image return, and the text can be read without another field leading
  // into the section.
  predicate MetaReturns(host: Host, pkg: seq<UnitOption>, c: Container, x: Context)
    requires ProperCommand(c)
  {
    && MetaFits(Returning(), x.pod, Clean(host, c.image)) && Readable(host, pkg, c, x)
    && FieldsFitFrom(KeepingOut(), host, c, x, Words(host, pkg, c), 0)
  }

  lemma {:induction false} PlacedSection(opts: seq<UnitOption>, section: string)
    ensures Placed(ReturningIn(section), opts, {}) <==> ComesBack(InSection(opts, section))
  {
    if opts != [] {
      PlacedSection(opts[1..], section);
      SectionInParts(opts[1..], section, section);
      var into := InSection(opts[1..], section);
      assert ([opts[0]] + into)[1..] == into && [] + into == into;
    }
  }

  lemma {:induction false} PlacedElsewhere(opts: seq<UnitOption>, section: string, later: set<string>)
    requires forall o :: o in opts ==> o.section != section
    ensures Placed(ReturningIn(section), opts, later)
  {
    if opts != [] {
      assert opts[0] in opts;
      PlacedElsewhere(opts[1..], section, later);
    }
  }

  lemma MetaFieldsFit(host: Host, c: Container, x: Context, words: seq<string>, g: nat)
    requires g < UNTOUCHED && MetaFits(Returning(), x.pod, Clean(host, c.image))
    ensures FieldsFit(ReturningIn(KUBERNETES_SECTION), host, c, x, words, g)
  {
  }

  lemma MetaComesBack(host: Host, pkg: seq<UnitOption>, c: Container, x: Context)
    requires ProperCommand(c) && !HasSection(pkg, KUBERNETES_SECTION)
    requires MetaFits(Returning(), x.pod, Clean(host, c.image))
    ensures ComesBack(InSection(Compiled(host, pkg, c, x), KUBERNETES_SECTION))
  {
    var ok := ReturningIn(KUBERNETES_SECTION);
    assert Generous(ok);
    KeptMembers(pkg, c, x);
    HasSectionMember(pkg, KUBERNETES_SECTION);
    PlacedElsewhere(KeptOptions(pkg, c, x), KUBERNETES_SECTION, SectionsAdded(x));
    forall g | 0 <= g < UNTOUCHED
      ensures FieldsFit(ok, host, c, x, Words(host, pkg, c), g)
    {
      MetaFieldsFit(host, c, x, Words(host, pkg, c), g);
    }
    CompiledFits(ok, host, pkg, c, x);
    PlacedSection(Compiled(host, pkg, c, x), KUBERNETES_SECTION);
  }

  lemma KeepingOutGenerous()
    ensures Generous(KeepingOut()) && Anywhere(KeepingOut())
  {
    forall o: UnitOption, last: bool | Returns(o.value, last)
      ensures KeepingOut()(o, last)
    {
      ReturningKeepsOut(o.value, last, KUBERNETES_SECTION);
    }
  }

  lemma AllKeepOut(host: Host, pkg: seq<UnitOption>, c: Container, x: Context)
    requires ProperCommand(c) && Delivered(pkg)
    requires FieldsFitFrom(KeepingOut(), host, c, x, Words(host, pkg, c), 0)
    ensures forall o :: o in Compiled(host, pkg, c, x) ==> KeepsOut(o.value, KUBERNETES_SECTION)
  {
    KeepingOutGenerous();
    AnywhereFits(KeepingOut(), host, pkg, c, x);
    assert forall o :: o in Compiled(host, pkg, c, x) ==> KeepingOut()(o, true);
  }

  // Then the section is read as it was compiled.
  lemma MetaSection(host: Host, pkg: seq<UnitOption>, c: Container, x: Context, n: string)
    requires ProperCommand(c) && Delivered(pkg) && !HasSection(pkg, KUBERNETES_SECTION)
    requires MetaReturns(host, pkg, c, x)
    ensures LoadedValues(host, pkg, c, x, KUBERNETES_SECTION, n)
         == TrimEach(Values(Compiled(host, pkg, c, x), KUBERNETES_SECTION, n))
  {
    CompiledNamed(host, pkg, c, x);
    MetaComesBack(host, pkg, c, x);
    AllKeepOut(host, pkg, c, x);
    SectionsNamed();
    SectionReturns(Compiled(host, pkg, c, x), KUBERNETES_SECTION, n);
  }

  lemma MetaValue(host: Host, pkg: seq<UnitOption>, c: Container, x: Context, n: string, v: string)
    requires ProperCommand(c) && Delivered(pkg) && !HasSection(pkg, KUBERNETES_SECTION)
    requires MetaReturns(host, pkg, c, x)
    requires Values(Compiled(host, pkg, c, x), KUBERNETES_SECTION, n) == Values(pkg, KUBERNETES_SECTION, n) + [v]
    ensures LoadedValues(host, pkg, c, x, KUBERNETES_SECTION, n) == [Trim(v)]
  {
    MetaSection(host, pkg, c, x, n);
    NoSectionNoValues(pkg, KUBERNETES_SECTION, n);
    assert [] + [v] == [v];
    TrimEachOne(v);
  }

  // So the unit is read with its metadata, kind and image, and with the commands of its ExecStart lines,
  // whatever these have become.
  lemma MetaUnitRead(host: Host, pkg: seq<UnitOption>, c: Container, x: Context)
    requires ProperCommand(c) && Delivered(pkg) && !HasSection(pkg, KUBERNETES_SECTION)
    requires MetaReturns(host, pkg, c, x)
    ensures MetaOf(Text(host, pkg, c, x)) == Meta(Trim(x.pod.namespace), Trim(x.pod.clusterName), Trim(x.pod.uid))
    ensures ReadingOf(Text(host, pkg, c, x))
      == Read(x.isInit, Trim(Clean(host, c.image)), LoadedValues(host, pkg, c, x, "Service", "ExecStart"))
  {
    CompiledMeta(host, pkg, c, x);
    CompiledInit(host, pkg, c, x);
    MetaValue(host, pkg, c, x, "Namespace", x.pod.namespace);
    MetaValue(host, pkg, c, x, "ClusterName", x.pod.clusterName);
    MetaValue(host, pkg, c, x, "Id", x.pod.uid);
    MetaValue(host, pkg, c, x, "Image", Clean(host, c.image));
    MetaSection(host, pkg, c, x, "InitContainer");
    NoSectionNoValues(pkg, KUBERNETES_SECTION, "InitContainer");
    TrimEachOne("true");
    LoadedMarked(host, pkg, c, x);
  }

  predicate LegibleAt(host: Host, pod: Pod, vol: map<string, string>, ids: Ids, i: nat)
    requires ProperPod(pod)
  {
    && Succeeds(host, pod, ids, i + 1)
    && !HasSection(PackageOf(host, pod, ids, i), KUBERNETES_SECTION)
    && MetaReturns(host, PackageOf(host, pod, ids, i), AllContainers(pod)[i], ContextOf(host, pod, vol, ids, i))
  }

  // Unit i is there with the text that was loaded.
  predicate LoadedIn(host: Host, pod: Pod, vol: map<string, string>, ids: Ids, stats: map<string, UnitState>, i: nat)
    requires ProperPod(pod) && i < |AllContainers(pod)| && LegibleAt(host, pod, vol, ids, i)
  {
    UnitName(pod, i) in stats && stats[UnitName(pod, i)].unitData == Print(UnitAt(host, pod, vol, ids, i))
  }

  // What its ExecStart lines have become.
  function CommandsAt(host: Host, pod: Pod, vol: map<string, string>, ids: Ids, i: nat): seq<string>
    requires ProperPod(pod) && Succeeds(host, pod, ids, i + 1)
  {
    LoadedValues(host, PackageOf(host, pod, ids, i), AllContainers(pod)[i], ContextOf(host, pod, vol, ids, i),
      "Service", "ExecStart")
  }

  function LegibleReading(host: Host, pod: Pod, vol: map<string, string>, ids: Ids, i: nat): Reading
    requires ProperPod(pod) && i < |AllContainers(pod)| && Succeeds(host, pod, ids, i + 1)
  {
    Read(i < |pod.initContainers|, Trim(Clean(host, AllContainers(pod)[i].image)), CommandsAt(host, pod, vol, ids, i))
  }

  predicate Legible(host: Host, pod: Pod, vol: map<string, string>, ids: Ids, stats: map<string, UnitState>) {
    && ProperPod(pod) && (forall k :: k in stats ==> k in UnitNames(pod))
    && forall i :: 0 <= i < |AllContainers(pod)| ==>
         LegibleAt(host, pod, vol, ids, i) && LoadedIn(host, pod, vol, ids, stats, i)
  }

  function LegibleReadings(host: Host, pod: Pod, vol: map<string, string>, ids: Ids): seq<Reading>
    requires ProperPod(pod) && forall i :: 0 <= i < |AllContainers(pod)| ==> LegibleAt(host, pod, vol, ids, i)
  {
    seq(|AllContainers(pod)|, i requires 0 <= i < |AllContainers(pod)| =>
      if LegibleAt(host, pod, vol, ids, i) then LegibleReading(host, pod, vol, ids, i) else Broken)
  }

  lemma LegibleReads(host: Host, pod: Pod, vol: map<string, string>, ids: Ids, stats: map<string, UnitState>, i: nat)
    requires ProperPod(pod) && i < |AllContainers(pod)| && Labelled(pod)
    requires LegibleAt(host, pod, vol, ids, i) && LoadedIn(host, pod, vol, ids, stats, i)
    ensures ReadsAt(stats, pod, i, LegibleReading(host, pod, vol, ids, i))
    ensures PodOf(UnitName(pod, i)) == Split(pod.name, '.')[0]
    ensures MetaOf(stats[UnitName(pod, i)].unitData) == Meta(Trim(pod.namespace), Trim(pod.clusterName), Trim(pod.uid))
  {
    PackageDelivered(host, Clean(host, AllContainers(pod)[i].image));
    MetaUnitRead(host, PackageOf(host, pod, ids, i), AllContainers(pod)[i], ContextOf(host, pod, vol, ids, i));
    ReadersRead(KeyOf(pod), AllContainers(pod)[i].name);
  }

  lemma LegibleFirst(host: Host, pod: Pod, vol: map<string, string>, ids: Ids, stats: map<string, UnitState>,
                     first: string)
    requires Labelled(pod) && Legible(host, pod, vol, ids, stats) && first in stats
    ensures PodOf(first) == Split(pod.name, '.')[0]
    ensures MetaOf(stats[first].unitData) == Meta(Trim(pod.namespace), Trim(pod.clusterName), Trim(pod.uid))
  {
    var i :| 0 <= i < |UnitNames(pod)| && UnitNames(pod)[i] == first;
    assert LegibleAt(host, pod, vol, ids, i) && LoadedIn(host, pod, vol, ids, stats, i);
    LegibleReads(host, pod, vol, ids, stats, i);
  }

  // If only the X-Kubernetes fields of the units return and their texts can be read, all of the pod comes back
  // but for the commands: these are what the ExecStart lines have become.
  lemma LegibleRecovers(host: Host, pod: Pod, vol: map<string, string>, ids: Ids, stats: map<string, UnitState>,
                        first: string, order: seq<string>, statusOrder: seq<string>)
    requires Labelled(pod) && Legible(host, pod, vol, ids, stats)
    requires first in stats && Enumerates(order, stats.Keys) && Enumerates(statusOrder, stats.Keys)
    ensures PodFrom(stats, first, order, statusOrder).Found?
    ensures Restores(PodFrom(stats, first, order, statusOrder).pod, pod, stats, LegibleReadings(host, pod, vol, ids))
  {
    var readings := LegibleReadings(host, pod, vol, ids);
    forall i | 0 <= i < |AllContainers(pod)|
      ensures ReadsAt(stats, pod, i, readings[i])
    {
      assert LegibleAt(host, pod, vol, ids, i) && LoadedIn(host, pod, vol, ids, stats, i);
      LegibleReads(host, pod, vol, ids, stats, i);
    }
    LegibleFirst(host, pod, vol, ids, stats, first);
    Rebuilt(stats, pod, readings, first, order, statusOrder);
  }

  lemma Gathered(found: FoundPod, stats: map<string, UnitState>, pod: Pod, readings: seq<Reading>,
                 order: seq<string>, statusOrder: seq<string>)
    requires ReadsAs(stats, pod, readings) && Labelled(pod)
    requires forall k :: k in stats ==> k in UnitNames(pod)
    requires Enumerates(order, stats.Keys) && Enumerates(statusOrder, stats.Keys)
    requires found.containers
      == Lists(Collect(ContainersIn(stats, false), order), Collect(ContainersIn(stats, true), order))
    requires found.statuses
      == Lists(Collect(StatusesIn(stats, false), statusOrder), Collect(StatusesIn(stats, true), statusOrder))
    requires found.phase == PhaseOf(StatesOf(found.statuses.ordinary))
    ensures RestoresLists(found, pod, AllRecovered(pod, readings), AllStatuses(stats, pod, readings))
  {
    ListsInAnyOrder(stats, pod, readings, order, true);
    ListsInAnyOrder(stats, pod, readings, order, false);
    ListsInAnyOrder(stats, pod, readings, statusOrder, true);
    ListsInAnyOrder(stats, pod, readings, statusOrder, false);
    StatusesPhase(found.statuses.ordinary, Part(pod, AllStatuses(stats, pod, readings), false));
  }

  lemma StatusesPhase(a: seq<ContainerStatus>, b: seq<ContainerStatus>)
    requires multiset(a) == multiset(b)
    ensures PhaseOf(StatesOf(a)) == PhaseOf(StatesOf(b))
  {
    StatesPermute(a, b);
    PhaseOrderFree(StatesOf(a), StatesOf(b));
  }

  // One unit that cannot be read is enough to lose the pod.
  lemma BrokenPanics(stats: map<string, UnitState>, k: string, first: string, order: seq<string>,
                     statusOrder: seq<string>)
    requires k in stats && Parse(stats[k].unitData) == None && first in stats
    ensures PodFrom(stats, first, order, statusOrder)
         == if MetaOf(stats[first].unitData).ForeignUnit? then Removes(first) else Panics
  {
    assert ReadingOf(stats[k].unitData) == Broken;
  }
}
