// What GetPod shows of a pod's units (internal/provider/unit.go:143-265): their sub-states, and the phase of the
// pod that they make.

module Observed {
  import opened Strings
  import opened Kube
  import opened UnitFile
  import opened UnitText
  import opened Naming
  import opened Compile
  import opened PodUnits
  import opened Phase
  import opened Recover

  // The container state that systemd's word for a unit stands for.
  predicate Tells(s: ContainerState, u: UnitState) {
    && (s.running <==> Runs(u.subState))
    && (s.terminated.Some? <==> HasEnded(u.subState, u.execMainExitTimestamp))
    && (s.terminated.Some? ==> In32(s.terminated.value, u.execMainStatus))
    && s.waiting == if Waits(u.subState, u.execMainExitTimestamp) then Some(u.subState) else None
  }

  predicate AllTell(states: seq<ContainerState>, units: seq<UnitState>) {
    |states| == |units| && forall j :: 0 <= j < |units| ==> Tells(states[j], units[j])
  }

  function CodeSum(units: seq<UnitState>): int {
    if units == [] then 0 else CodeSum(units[..|units| - 1]) + units[|units| - 1].execMainStatus
  }

  predicate AllRunning(units: seq<UnitState>) {
    forall j :: 0 <= j < |units| ==> Runs(units[j].subState)
  }

  predicate AllEnded(units: seq<UnitState>) {
    forall j :: 0 <= j < |units| ==> HasEnded(units[j].subState, units[j].execMainExitTimestamp)
  }

  predicate SomeWaiting(units: seq<UnitState>) {
    exists j :: 0 <= j < |units| && Waits(units[j].subState, units[j].execMainExitTimestamp)
  }

  // The phase of a pod with these ordinary units.
  predicate PhaseTells(phase: PodPhase, units: seq<UnitState>) {
    && (phase == Pending <==> SomeWaiting(units))
    && (phase == Running <==> AllRunning(units))
    && (phase == Succeeded <==> units != [] && AllEnded(units) && CodeSum(units) % 0x1_0000_0000 == 0)
    && (phase == Failed <==> units != [] && AllEnded(units) && CodeSum(units) % 0x1_0000_0000 != 0)
  }

  lemma CodesSnoc(states: seq<ContainerState>, units: seq<UnitState>, n: nat)
    requires n < |units| == |states|
    ensures CodeSum(units[..n + 1]) == CodeSum(units[..n]) + units[n].execMainStatus
    ensures Total(ExitCode, states[..n + 1]) == Total(ExitCode, states[..n]) + ExitCode(states[n])
  {
    assert units[..n + 1][..n] == units[..n] && states[..n + 1][..n] == states[..n];
  }

  lemma CodeTold(s: ContainerState, u: UnitState) returns (k: int)
    requires Tells(s, u) && HasEnded(u.subState, u.execMainExitTimestamp)
    ensures u.execMainStatus - ExitCode(s) == 0x1_0000_0000 * k
  {
    k := (u.execMainStatus - ExitCode(s)) / 0x1_0000_0000;
  }

  // The sums differ by a multiple of 2^32.
  lemma {:induction false} CodesUpTo(states: seq<ContainerState>, units: seq<UnitState>, n: nat) returns (k: int)
    requires AllTell(states, units) && AllEnded(units) && n <= |units|
    ensures CodeSum(units[..n]) - Total(ExitCode, states[..n]) == 0x1_0000_0000 * k
  {
    if n == 0 {
      k := 0;
    } else {
      var j := CodesUpTo(states, units, n - 1);
      CodesSnoc(states, units, n - 1);
      assert Tells(states[n - 1], units[n - 1]);
      var i := CodeTold(states[n - 1], units[n - 1]);
      k := j + i;
    }
  }

  lemma CodesTold(states: seq<ContainerState>, units: seq<UnitState>)
    requires AllTell(states, units) && AllEnded(units)
    ensures CodeSum(units) % 0x1_0000_0000 == 0 <==> Total(ExitCode, states) % 0x1_0000_0000 == 0
  {
    var k := CodesUpTo(states, units, |units|);
    assert units[..|units|] == units && states[..|units|] == states;
    MultipleApart(CodeSum(units), Total(ExitCode, states), k);
  }

  lemma MultipleOf(n: int)
    ensures (0x1_0000_0000 * n) % 0x1_0000_0000 == 0
  {
  }

  lemma MultipleApart(a: int, b: int, k: int)
    requires a - b == 0x1_0000_0000 * k
    ensures a % 0x1_0000_0000 == 0 <==> b % 0x1_0000_0000 == 0
  {
    if b % 0x1_0000_0000 == 0 {
      assert a == 0x1_0000_0000 * (k + b / 0x1_0000_0000);
      MultipleOf(k + b / 0x1_0000_0000);
    }
    if a % 0x1_0000_0000 == 0 {
      assert b == 0x1_0000_0000 * (a / 0x1_0000_0000 - k);
      MultipleOf(a / 0x1_0000_0000 - k);
    }
  }

  lemma OneTells(s: ContainerState, u: UnitState)
    requires Tells(s, u)
    ensures OneArm(s)
  {
    SubStatesApart(u.subState, u.execMainExitTimestamp);
  }

  lemma ArmsTold(states: seq<ContainerState>, units: seq<UnitState>)
    requires AllTell(states, units)
    ensures forall j :: 0 <= j < |states| ==> OneArm(states[j])
    ensures AllRun(states) <==> AllRunning(units)
    ensures AllDone(states) <==> AllEnded(units)
    ensures SomeWaits(states) <==> SomeWaiting(units)
  {
    forall j | 0 <= j < |states|
      ensures OneArm(states[j])
    {
      OneTells(states[j], units[j]);
    }
    assert AllDone(states) ==>
      forall j :: 0 <= j < |units| ==> Tells(states[j], units[j]) && states[j].terminated.Some?;
    assert AllRun(states) ==> forall j :: 0 <= j < |units| ==> Tells(states[j], units[j]) && states[j].running;
    if SomeWaiting(units) {
      var j :| 0 <= j < |units| && Waits(units[j].subState, units[j].execMainExitTimestamp);
      assert Tells(states[j], units[j]);
    }
  }

  // The phase from the sub-states.
  lemma PhaseTold(states: seq<ContainerState>, units: seq<UnitState>)
    requires AllTell(states, units)
    ensures PhaseTells(PhaseOf(states), units)
  {
    ArmsTold(states, units);
    PhaseMeans(states);
    if AllEnded(units) {
      CodesTold(states, units);
    }
  }

  // ---- Any units that GetPod finds.

  // What a unit's text says.
  function Says(text: string, section: string, name: string): seq<string> {
    match Parse(text)
    case None => []
    case Some(opts) => Values(opts, section, name)
  }

  // It can be read, and has no X-Kubernetes section.
  predicate ForeignText(text: string) {
    match Parse(text)
    case None => false
    case Some(opts) => forall o :: o in opts ==> o.section != "X-Kubernetes"
  }

  // It has all that a container is made of, and all that a pod is.
  predicate Describes(text: string) {
    Says(text, "X-Kubernetes", "Image") != []
  }

  predicate Identifies(text: string) {
    && Says(text, "X-Kubernetes", "Namespace") != [] && Says(text, "X-Kubernetes", "ClusterName") != []
    && Says(text, "X-Kubernetes", "Id") != []
  }

  lemma SaysInSection(text: string, name: string)
    requires Parse(text).Some? && Says(text, "X-Kubernetes", name) != []
    ensures HasSection(Parse(text).value, KUBERNETES_SECTION)
  {
    ValuesNeedSection(Parse(text).value, KUBERNETES_SECTION, name);
  }

  lemma ReadingMeans(text: string)
    ensures ReadingOf(text).Foreign? <==> ForeignText(text)
    ensures ReadingOf(text).Read? <==> Describes(text)
    ensures ReadingOf(text).Read? ==>
      ReadingOf(text)
      == Read(Says(text, "X-Kubernetes", "InitContainer") != [], Says(text, "X-Kubernetes", "Image")[0],
              Says(text, "Service", "ExecStart"))
  {
    if Parse(text).Some? {
      HasSectionMember(Parse(text).value, KUBERNETES_SECTION);
      if Describes(text) {
        SaysInSection(text, "Image");
      }
    }
  }

  lemma MetaMeans(text: string)
    ensures MetaOf(text).ForeignUnit? <==> ForeignText(text)
    ensures MetaOf(text).Meta? <==> Identifies(text)
    ensures MetaOf(text).Meta? ==>
      MetaOf(text)
      == Meta(Says(text, "X-Kubernetes", "Namespace")[0], Says(text, "X-Kubernetes", "ClusterName")[0],
              Says(text, "X-Kubernetes", "Id")[0])
  {
    if Parse(text).Some? {
      HasSectionMember(Parse(text).value, KUBERNETES_SECTION);
      if Identifies(text) {
        SaysInSection(text, "Id");
      }
    }
  }

  // Exactly when GetPod finds a pod, removes the unit it looked at first, or panics.
  lemma OutcomeExactly(stats: map<string, UnitState>, first: string, order: seq<string>, statusOrder: seq<string>)
    requires first in stats
    ensures
      var outcome, text := PodFrom(stats, first, order, statusOrder), stats[first].unitData;
      && (outcome == Removes(first) <==> ForeignText(text))
      && (outcome.Found? <==> Identifies(text) && forall k :: k in stats ==> Describes(stats[k].unitData))
      && (outcome == Panics <==> !outcome.Found? && !ForeignText(text))
  {
    MetaMeans(stats[first].unitData);
    forall k | k in stats
      ensures ReadingOf(stats[k].unitData).Read? <==> Describes(stats[k].unitData)
    {
      ReadingMeans(stats[k].unitData);
    }
    AllReadable(stats);
  }

  lemma AllReadable(stats: map<string, UnitState>)
    ensures !AnyOf(stats, Broken) && !AnyOf(stats, Foreign)
      <==> forall k :: k in stats ==> ReadingOf(stats[k].unitData).Read?
  {
  }

  // By its text, the unit of an init container, or of an ordinary one.
  predicate OfKind(u: UnitState, init: bool) {
    (Says(u.unitData, "X-Kubernetes", "InitContainer") != []) == init
  }

  predicate IsOfKind(stats: map<string, UnitState>, k: string, init: bool) {
    k in stats && OfKind(stats[k], init)
  }

  // The names of the units of that kind, in that order.
  function NamesOfKind(stats: map<string, UnitState>, order: seq<string>, init: bool): seq<string> {
    if order == [] then []
    else
      var k := order[|order| - 1];
      NamesOfKind(stats, order[..|order| - 1], init) + (if IsOfKind(stats, k, init) then [k] else [])
  }

  lemma InMore(names: seq<string>, more: string, keep: bool, k: string)
    ensures k in names + (if keep then [more] else []) <==> k in names || (keep && k == more)
  {
  }

  lemma InFront(order: seq<string>, k: string)
    requires order != []
    ensures k in order <==> k in order[..|order| - 1] || k == order[|order| - 1]
  {
    assert order == order[..|order| - 1] + [order[|order| - 1]];
  }

  lemma {:induction false} KindMembers(stats: map<string, UnitState>, order: seq<string>, init: bool, k: string)
    ensures k in NamesOfKind(stats, order, init) <==> k in order && IsOfKind(stats, k, init)
  {
    if order != [] {
      var front, more := order[..|order| - 1], order[|order| - 1];
      KindMembers(stats, front, init, k);
      InFront(order, k);
      InMore(NamesOfKind(stats, front, init), more, IsOfKind(stats, more, init), k);
    }
  }

  function UnitsNamed(stats: map<string, UnitState>, names: seq<string>): seq<UnitState>
    requires forall k :: k in names ==> k in stats
  {
    seq(|names|, j requires 0 <= j < |names| => stats[names[j]])
  }

  // The container of a unit: its name, the first image and all commands of its text.
  predicate ContainerTells(c: Recovered, k: string, u: UnitState) {
    && Describes(u.unitData)
    && c == Recovered(ContainerOf(k), Says(u.unitData, "X-Kubernetes", "Image")[0],
                      Says(u.unitData, "Service", "ExecStart"))
  }

  predicate ContainersTell(containers: seq<Recovered>, stats: map<string, UnitState>, names: seq<string>) {
    && |containers| == |names|
    && forall j :: 0 <= j < |names| ==> names[j] in stats && ContainerTells(containers[j], names[j], stats[names[j]])
  }

  // The status of a unit: its name and image, and the state that its sub-state stands for.
  predicate StatusTells(s: ContainerStatus, k: string, u: UnitState) {
    && Describes(u.unitData) && s.name == ContainerOf(k) && s.image == Says(u.unitData, "X-Kubernetes", "Image")[0]
    && Tells(s.state, u)
  }

  predicate StatusesTell(statuses: seq<ContainerStatus>, stats: map<string, UnitState>, names: seq<string>) {
    && |statuses| == |names|
    && forall j :: 0 <= j < |names| ==> names[j] in stats && StatusTells(statuses[j], names[j], stats[names[j]])
  }

  lemma KindRead(stats: map<string, UnitState>, k: string, init: bool)
    requires k in stats && ReadingOf(stats[k].unitData).Read?
    ensures OfKind(stats[k], init) <==> ReadingOf(stats[k].unitData).init == init
  {
    ReadingMeans(stats[k].unitData);
  }

  lemma StatusTold(stats: map<string, UnitState>, k: string, init: bool)
    requires k in stats && ReadingOf(stats[k].unitData).Read?
    ensures StatusesIn(stats, init)(k).Some? <==> OfKind(stats[k], init)
    ensures StatusesIn(stats, init)(k).Some? ==> StatusTells(StatusesIn(stats, init)(k).value, k, stats[k])
  {
    ReadingMeans(stats[k].unitData);
    KindRead(stats, k, init);
    StateMeans(stats[k].subState, stats[k].execMainStatus, stats[k].execMainExitTimestamp);
  }

  lemma ContainerTold(stats: map<string, UnitState>, k: string, init: bool)
    requires k in stats && ReadingOf(stats[k].unitData).Read?
    ensures ContainersIn(stats, init)(k).Some? <==> OfKind(stats[k], init)
    ensures ContainersIn(stats, init)(k).Some? ==> ContainerTells(ContainersIn(stats, init)(k).value, k, stats[k])
  {
    ReadingMeans(stats[k].unitData);
    KindRead(stats, k, init);
  }

  lemma ContainersMoreTold(containers: seq<Recovered>, stats: map<string, UnitState>, names: seq<string>,
                           c: Recovered, k: string)
    requires ContainersTell(containers, stats, names) && k in stats && ContainerTells(c, k, stats[k])
    ensures ContainersTell(containers + [c], stats, names + [k])
  {
  }

  lemma {:induction false} ContainersTold(stats: map<string, UnitState>, order: seq<string>, init: bool)
    requires !AnyOf(stats, Broken) && !AnyOf(stats, Foreign) && forall k :: k in order ==> k in stats
    ensures ContainersTell(Collect(ContainersIn(stats, init), order), stats, NamesOfKind(stats, order, init))
  {
    if order != [] {
      var last := |order| - 1;
      var k := order[last];
      ContainersTold(stats, order[..last], init);
      assert k in stats && ReadingOf(stats[k].unitData).Read?;
      ContainerTold(stats, k, init);
      if OfKind(stats[k], init) {
        ContainersMoreTold(Collect(ContainersIn(stats, init), order[..last]), stats,
          NamesOfKind(stats, order[..last], init), ContainersIn(stats, init)(k).value, k);
      }
    }
  }

  lemma StatusesMoreTold(statuses: seq<ContainerStatus>, stats: map<string, UnitState>, names: seq<string>,
                         s: ContainerStatus, k: string)
    requires StatusesTell(statuses, stats, names) && k in stats && StatusTells(s, k, stats[k])
    ensures StatusesTell(statuses + [s], stats, names + [k])
  {
  }

  lemma {:induction false} StatusesTold(stats: map<string, UnitState>, order: seq<string>, init: bool)
    requires !AnyOf(stats, Broken) && !AnyOf(stats, Foreign) && forall k :: k in order ==> k in stats
    ensures StatusesTell(Collect(StatusesIn(stats, init), order), stats, NamesOfKind(stats, order, init))
  {
    if order != [] {
      var last := |order| - 1;
      var k := order[last];
      StatusesTold(stats, order[..last], init);
      assert k in stats && ReadingOf(stats[k].unitData).Read?;
      StatusTold(stats, k, init);
      if OfKind(stats[k], init) {
        StatusesMoreTold(Collect(StatusesIn(stats, init), order[..last]), stats,
          NamesOfKind(stats, order[..last], init), StatusesIn(stats, init)(k).value, k);
      }
    }
  }

  lemma StatesTold(statuses: seq<ContainerStatus>, stats: map<string, UnitState>, names: seq<string>)
    requires StatusesTell(statuses, stats, names)
    ensures (forall k :: k in names ==> k in stats) && AllTell(StatesOf(statuses), UnitsNamed(stats, names))
  {
    var states, units := StatesOf(statuses), UnitsNamed(stats, names);
    forall j | 0 <= j < |units|
      ensures Tells(states[j], units[j])
    {
      assert StatusTells(statuses[j], names[j], stats[names[j]]);
    }
  }

  lemma ListsTold(stats: map<string, UnitState>, first: string, order: seq<string>, statusOrder: seq<string>,
                  init: bool)
    requires first in stats && Enumerates(order, stats.Keys) && Enumerates(statusOrder, stats.Keys)
    requires PodFrom(stats, first, order, statusOrder).Found?
    ensures ContainersTell(Collect(ContainersIn(stats, init), order), stats, NamesOfKind(stats, order, init))
    ensures StatusesTell(Collect(StatusesIn(stats, init), statusOrder), stats, NamesOfKind(stats, statusOrder, init))
  {
    EnumeratedKeys(order, stats.Keys);
    EnumeratedKeys(statusOrder, stats.Keys);
    ContainersTold(stats, order, init);
    StatusesTold(stats, statusOrder, init);
  }

  // Whatever units it is and in whatever order: if GetPod finds a pod, its metadata are the first values of the unit
  // looked at first; its containers and statuses are those of the units of either kind, each status with the state
  // that the unit's sub-state stands for; and the phase is that of the ordinary ones.
  lemma PodTold(stats: map<string, UnitState>, first: string, order: seq<string>, statusOrder: seq<string>)
    requires first in stats && Enumerates(order, stats.Keys) && Enumerates(statusOrder, stats.Keys)
    requires PodFrom(stats, first, order, statusOrder).Found?
    ensures
      var found, text := PodFrom(stats, first, order, statusOrder).pod, stats[first].unitData;
      && Identifies(text) && found.name == PodOf(first)
      && found.namespace == Says(text, "X-Kubernetes", "Namespace")[0]
      && found.clusterName == Says(text, "X-Kubernetes", "ClusterName")[0]
      && found.uid == Says(text, "X-Kubernetes", "Id")[0]
    ensures
      var found, names := PodFrom(stats, first, order, statusOrder).pod, NamesOfKind(stats, statusOrder, false);
      && ContainersTell(found.containers.ordinary, stats, NamesOfKind(stats, order, false))
      && ContainersTell(found.containers.init, stats, NamesOfKind(stats, order, true))
      && StatusesTell(found.statuses.ordinary, stats, names)
      && StatusesTell(found.statuses.init, stats, NamesOfKind(stats, statusOrder, true))
      && PhaseTells(found.phase, UnitsNamed(stats, names))
  {
    MetaMeans(stats[first].unitData);
    ListsTold(stats, first, order, statusOrder, false);
    ListsTold(stats, first, order, statusOrder, true);
    var statuses, names := Collect(StatusesIn(stats, false), statusOrder), NamesOfKind(stats, statusOrder, false);
    StatesTold(statuses, stats, names);
    PhaseTold(StatesOf(statuses), UnitsNamed(stats, names));
  }

  // ---- The units of a pod that GetPod gives back.

  function OrdinaryUnits(stats: map<string, UnitState>, pod: Pod): seq<UnitState>
    requires forall k :: k in UnitNames(pod) ==> k in stats
  {
    seq(|pod.containers|, j requires 0 <= j < |pod.containers| =>
      assert UnitNames(pod)[|pod.initContainers| + j] in UnitNames(pod);
      stats[UnitName(pod, |pod.initContainers| + j)])
  }

  lemma NamedTold(stats: map<string, UnitState>, pod: Pod, readings: seq<Reading>, i: nat)
    requires i < |readings| == |AllContainers(pod)| && UnitName(pod, i) in stats
    ensures Tells(AllStatuses(stats, pod, readings)[i].state, stats[UnitName(pod, i)])
  {
    var u := stats[UnitName(pod, i)];
    StateMeans(u.subState, u.execMainStatus, u.execMainExitTimestamp);
  }

  // Status of container i, in the right list, with the state of its unit.
  predicate ShownAt(found: FoundPod, pod: Pod, stats: map<string, UnitState>, i: nat)
    requires i < |AllContainers(pod)|
  {
    var list := if i < |pod.initContainers| then found.statuses.init else found.statuses.ordinary;
    && UnitName(pod, i) in stats
    && exists s :: s in list && s.name == FoundName(pod, i) && Tells(s.state, stats[UnitName(pod, i)])
  }

  lemma InPart(pod: Pod, statuses: seq<ContainerStatus>, list: seq<ContainerStatus>, i: nat)
    requires i < |statuses| == |AllContainers(pod)|
    requires multiset(list) == multiset(Part(pod, statuses, i < |pod.initContainers|))
    ensures statuses[i] in list
  {
    var part := Part(pod, statuses, i < |pod.initContainers|);
    assert part[i - Lo(pod, i < |pod.initContainers|)] == statuses[i];
    assert statuses[i] in multiset(part);
    assert statuses[i] in multiset(list);
  }

  lemma RestoredShown(found: FoundPod, pod: Pod, stats: map<string, UnitState>, readings: seq<Reading>, i: nat)
    requires i < |readings| == |AllContainers(pod)| && UnitName(pod, i) in stats
    requires Restores(found, pod, stats, readings)
    ensures ShownAt(found, pod, stats, i)
  {
    var statuses := AllStatuses(stats, pod, readings);
    NamedTold(stats, pod, readings, i);
    InPart(pod, statuses, if i < |pod.initContainers| then found.statuses.init else found.statuses.ordinary, i);
    assert statuses[i].name == FoundName(pod, i);
  }

  lemma PartTold(stats: map<string, UnitState>, pod: Pod, readings: seq<Reading>)
    requires |readings| == |AllContainers(pod)| && forall k :: k in UnitNames(pod) ==> k in stats
    ensures AllTell(StatesOf(Part(pod, AllStatuses(stats, pod, readings), false)), OrdinaryUnits(stats, pod))
  {
    var lo, statuses := |pod.initContainers|, AllStatuses(stats, pod, readings);
    var states, units := StatesOf(Part(pod, statuses, false)), OrdinaryUnits(stats, pod);
    forall j | 0 <= j < |units|
      ensures Tells(states[j], units[j])
    {
      assert UnitNames(pod)[lo + j] in UnitNames(pod);
      NamedTold(stats, pod, readings, lo + j);
      assert Part(pod, statuses, false)[j] == statuses[lo + j];
    }
  }

  // So a pod that comes back has the phase of the sub-states of its ordinary containers' units.
  lemma RestoredPhase(found: FoundPod, pod: Pod, stats: map<string, UnitState>, readings: seq<Reading>)
    requires |readings| == |AllContainers(pod)| && forall k :: k in UnitNames(pod) ==> k in stats
    requires Restores(found, pod, stats, readings)
    ensures PhaseTells(found.phase, OrdinaryUnits(stats, pod))
  {
    PartTold(stats, pod, readings);
    PhaseTold(StatesOf(Part(pod, AllStatuses(stats, pod, readings), false)), OrdinaryUnits(stats, pod));
  }
}
