// Runs of CreatePod and DeletePod (internal/provider/pod.go:71-251 and 349-380), with GetPod in between, over
// the manager of internal/unit/manager_mock.go, which is extended by a trace of what it is asked to do.

module Lifecycle {
  import opened Strings
  import opened Kube
  import opened Naming
  import opened PodUnits
  import opened Recover
  import opened Observed
  import WatchIndex

  type Key = NamespacedName

  datatype Kind = Load | Start | Stop | Unload

  datatype Event = Event(kind: Kind, unit: string)

  function Each(kind: Kind, names: seq<string>): seq<Event> {
    seq(|names|, i requires 0 <= i < |names| => Event(kind, names[i]))
  }

  // A call: texts are the units CreatePod loaded, in order; ok is false when it returned an error.
  datatype Op = Create(pod: Pod, texts: seq<string>, ok: bool) | Delete(pod: Pod)

  datatype World = World(units: map<string, string>, trace: seq<Event>, watch: WatchIndex.Index)

  const EMPTY_WORLD := World(map[], [], WatchIndex.EMPTY_INDEX)

  function EventsOf(op: Op): seq<Event>
    requires op.Create? ==> |op.texts| <= |AllContainers(op.pod)|
  {
    var names := UnitNames(op.pod);
    match op
    case Create(_, texts, ok) => Each(Load, names[..|texts|]) + (if ok then Each(Start, names) else [])
    case Delete(_) => Each(Stop, names) + Each(Unload, names)
  }

  function LoadTexts(units: map<string, string>, names: seq<string>, texts: seq<string>): map<string, string>
    requires |texts| <= |names|
  {
    if texts == [] then units
    else
      var k := |texts| - 1;
      LoadTexts(units, names, texts[..k])[names[k] := texts[k]]
  }

  function SetOf(names: seq<string>): set<string> {
    set n | n in names
  }

  function UnitsAfter(units: map<string, string>, op: Op): map<string, string>
    requires op.Create? ==> |op.texts| <= |AllContainers(op.pod)|
  {
    match op
    case Create(pod, texts, _) => LoadTexts(units, UnitNames(pod), texts)
    case Delete(pod) => units - SetOf(UnitNames(pod))
  }

  function WatchAfter(watch: WatchIndex.Index, op: Op): WatchIndex.Index {
    match op
    case Create(pod, _, ok) => if ok then WatchIndex.WatchStep(watch, pod) else watch
    case Delete(pod) => WatchIndex.UnwatchStep(WatchIndex.AsWritten, watch, KeyOf(pod))
  }

  function Step(w: World, op: Op): World
    requires op.Create? ==> |op.texts| <= |AllContainers(op.pod)|
  {
    World(UnitsAfter(w.units, op), w.trace + EventsOf(op), WatchAfter(w.watch, op))
  }

  // ---- Which pods there are: the ones created and not deleted, failed creations included.

  datatype Entry = Entry(pod: Pod, texts: seq<string>, ok: bool)

  type Live = map<Key, Entry>

  // What an earlier, failed creation loaded beyond these texts is still there.
  function Overlay(texts: seq<string>, before: seq<string>): seq<string> {
    if |before| <= |texts| then texts else texts + before[|texts|..]
  }

  function TextsOf(live: Live, key: Key): seq<string> {
    if key in live then live[key].texts else []
  }

  function LiveAfter(live: Live, op: Op): Live {
    match op
    case Create(pod, texts, ok) => live[KeyOf(pod) := Entry(pod, Overlay(texts, TextsOf(live, KeyOf(pod))), ok)]
    case Delete(pod) => live - {KeyOf(pod)}
  }

  predicate Sized(pod: Pod, texts: seq<string>, ok: bool) {
    |texts| <= |AllContainers(pod)| && (ok ==> |texts| == |AllContainers(pod)|)
  }

  // A pod is created when there is none of that name, or again when that failed, and deleted as it was
  // created. Deleting a pod that is not there is allowed.
  predicate Enabled(live: Live, op: Op) {
    Labelled(op.pod)
    && match op
       case Create(pod, texts, ok) =>
         (KeyOf(pod) in live ==> live[KeyOf(pod)].pod == pod && !live[KeyOf(pod)].ok) && Sized(pod, texts, ok)
       case Delete(pod) => KeyOf(pod) in live ==> live[KeyOf(pod)].pod == pod
  }

  function LiveRun(ops: seq<Op>): Live {
    if ops == [] then map[] else LiveAfter(LiveRun(ops[..|ops| - 1]), ops[|ops| - 1])
  }

  predicate IsRun(ops: seq<Op>) {
    ops == [] || (IsRun(ops[..|ops| - 1]) && Enabled(LiveRun(ops[..|ops| - 1]), ops[|ops| - 1]))
  }

  function Run(ops: seq<Op>): World
    requires IsRun(ops)
  {
    if ops == [] then EMPTY_WORLD else Step(Run(ops[..|ops| - 1]), ops[|ops| - 1])
  }

  // ---- The trace, replayed: which units are loaded, and which started and not stopped.

  datatype Replayed = Replayed(loaded: set<string>, started: set<string>)

  const NO_UNITS := Replayed({}, {})

  function Effect(s: Replayed, kind: Kind, names: set<string>): Replayed {
    match kind
    case Load => s.(loaded := s.loaded + names)
    case Start => s.(started := s.started + names)
    case Stop => s.(started := s.started - names)
    case Unload => s.(loaded := s.loaded - names)
  }

  function Replay(s: Replayed, events: seq<Event>): Replayed {
    if events == [] then s
    else
      var k := |events| - 1;
      Effect(Replay(s, events[..k]), events[k].kind, {events[k].unit})
  }

  lemma {:induction false} ReplayAppend(s: Replayed, a: seq<Event>, b: seq<Event>)
    ensures Replay(s, a + b) == Replay(Replay(s, a), b)
  {
    if b == [] {
      assert a + b == a;
    } else {
      ReplayAppend(s, a, b[..|b| - 1]);
      assert (a + b)[..|a + b| - 1] == a + b[..|b| - 1];
    }
  }

  lemma {:induction false} ReplayEach(s: Replayed, kind: Kind, names: seq<string>)
    ensures Replay(s, Each(kind, names)) == Effect(s, kind, SetOf(names))
  {
    if names != [] {
      var k := |names| - 1;
      ReplayEach(s, kind, names[..k]);
      assert Each(kind, names)[..k] == Each(kind, names[..k]);
      assert SetOf(names) == SetOf(names[..k]) + {names[k]} by {
        assert names == names[..k] + [names[k]];
      }
    }
  }

  // ---- Names of live pods.

  function NamesOf(pod: Pod): set<string> {
    SetOf(UnitNames(pod))
  }

  function LoadedOf(e: Entry): set<string> {
    if |e.texts| <= |AllContainers(e.pod)| then SetOf(UnitNames(e.pod)[..|e.texts|]) else {}
  }

  function StartedOf(e: Entry): set<string> {
    if e.ok then NamesOf(e.pod) else {}
  }

  predicate Loads(live: Live, u: string) {
    exists key :: key in live && u in LoadedOf(live[key])
  }

  predicate Starts(live: Live, u: string) {
    exists key :: key in live && u in StartedOf(live[key])
  }

  lemma NamesApart(p: Pod, q: Pod)
    requires Labelled(p) && Labelled(q) && KeyOf(p) != KeyOf(q)
    ensures NamesOf(p) !! NamesOf(q)
  {
    if n :| n in NamesOf(p) && n in NamesOf(q) {
      var i :| 0 <= i < |UnitNames(p)| && UnitNames(p)[i] == n;
      var j :| 0 <= j < |UnitNames(q)| && UnitNames(q)[j] == n;
      UnitNameInjective(KeyOf(p), AllContainers(p)[i].name, KeyOf(q), AllContainers(q)[j].name);
    }
  }

  lemma LoadedWithin(e: Entry)
    ensures LoadedOf(e) <= NamesOf(e.pod)
    ensures Sized(e.pod, e.texts, e.ok) && e.ok ==> LoadedOf(e) == NamesOf(e.pod)
  {
    if |e.texts| == |AllContainers(e.pod)| {
      assert UnitNames(e.pod)[..|e.texts|] == UnitNames(e.pod);
    }
  }

  predicate ProperLive(live: Live) {
    forall key :: key in live ==>
      KeyOf(live[key].pod) == key && Labelled(live[key].pod) && Sized(live[key].pod, live[key].texts, live[key].ok)
  }

  // ---- What every run keeps.

  // The loaded units are those of the live pods, and the started ones those of the pods created in full.
  ghost predicate Accounts(live: Live, s: Replayed) {
    && (forall u :: u in s.loaded <==> Loads(live, u))
    && (forall u :: u in s.started <==> Starts(live, u))
  }

  lemma {:induction false} LoadTextsKeys(units: map<string, string>, names: seq<string>, texts: seq<string>)
    requires |texts| <= |names|
    ensures LoadTexts(units, names, texts).Keys == units.Keys + SetOf(names[..|texts|])
    ensures forall u :: u in units && u !in names ==> LoadTexts(units, names, texts)[u] == units[u]
  {
    if texts != [] {
      var k := |texts| - 1;
      LoadTextsKeys(units, names, texts[..k]);
      assert names[..k + 1] == names[..k] + [names[k]];
    }
  }

  lemma {:induction false} LoadTextsAt(units: map<string, string>, names: seq<string>, texts: seq<string>, i: nat)
    requires i < |texts| <= |names|
    requires forall j, k :: 0 <= j < k < |names| ==> names[j] != names[k]
    ensures names[i] in LoadTexts(units, names, texts) && LoadTexts(units, names, texts)[names[i]] == texts[i]
  {
    var k := |texts| - 1;
    if i < k {
      LoadTextsAt(units, names, texts[..k], i);
    }
  }

  lemma ReplayOp(s: Replayed, op: Op)
    requires op.Create? ==> Sized(op.pod, op.texts, op.ok)
    ensures Replay(s, EventsOf(op)) == match op
      case Create(pod, texts, ok) =>
        Replayed(s.loaded + LoadedOf(Entry(pod, texts, ok)), s.started + StartedOf(Entry(pod, texts, ok)))
      case Delete(pod) => Replayed(s.loaded - NamesOf(pod), s.started - NamesOf(pod))
  {
    var names := UnitNames(op.pod);
    match op
    case Create(pod, texts, ok) =>
      var front, back := Each(Load, names[..|texts|]), if ok then Each(Start, names) else [];
      ReplayAppend(s, front, back);
      ReplayEach(s, Load, names[..|texts|]);
      ReplayEach(Replay(s, front), Start, names);
    case Delete(pod) =>
      ReplayAppend(s, Each(Stop, names), Each(Unload, names));
      ReplayEach(s, Stop, names);
      ReplayEach(Replay(s, Each(Stop, names)), Unload, names);
  }

  lemma OverlayLoaded(pod: Pod, texts: seq<string>, before: seq<string>, ok: bool)
    requires Sized(pod, texts, ok) && |before| <= |AllContainers(pod)|
    ensures Sized(pod, Overlay(texts, before), ok)
    ensures LoadedOf(Entry(pod, Overlay(texts, before), ok))
      == LoadedOf(Entry(pod, texts, ok)) + LoadedOf(Entry(pod, before, false))
  {
    var names := UnitNames(pod);
    var a, b := SetOf(names[..|texts|]), SetOf(names[..|before|]);
    if |before| <= |texts| {
      PrefixNames(names, |before|, |texts|);
      assert a + b == a;
    } else {
      PrefixNames(names, |texts|, |before|);
      assert a + b == b && |Overlay(texts, before)| == |before|;
    }
  }

  lemma PrefixNames(names: seq<string>, m: nat, n: nat)
    requires m <= n <= |names|
    ensures SetOf(names[..m]) <= SetOf(names[..n])
  {
    assert forall i :: 0 <= i < m ==> names[..m][i] == names[..n][i];
  }

  lemma LoadsAfterCreate(live: Live, op: Op, u: string)
    requires op.Create? && ProperLive(live) && Enabled(live, op)
    ensures Loads(LiveAfter(live, op), u) <==> Loads(live, u) || u in LoadedOf(Entry(op.pod, op.texts, op.ok))
  {
    var after, key := LiveAfter(live, op), KeyOf(op.pod);
    OverlayLoaded(op.pod, op.texts, TextsOf(live, key), op.ok);
    assert u in LoadedOf(after[key])
      <==> u in LoadedOf(Entry(op.pod, op.texts, op.ok)) || (key in live && u in LoadedOf(live[key]));
    if Loads(live, u) {
      var k :| k in live && u in LoadedOf(live[k]);
      if k != key { assert k in after && after[k] == live[k]; }
    }
    if Loads(after, u) {
      var k :| k in after && u in LoadedOf(after[k]);
      assert k != key ==> k in live && after[k] == live[k];
    }
  }

  lemma StartsAfterCreate(live: Live, op: Op, u: string)
    requires op.Create? && ProperLive(live) && Enabled(live, op)
    ensures Starts(LiveAfter(live, op), u) <==> Starts(live, u) || u in StartedOf(Entry(op.pod, op.texts, op.ok))
  {
    var after, key := LiveAfter(live, op), KeyOf(op.pod);
    assert key in after && after[key].ok == op.ok && after[key].pod == op.pod;
    if Starts(live, u) {
      var k :| k in live && u in StartedOf(live[k]);
      assert k != key && k in after && after[k] == live[k];
    }
    if Starts(after, u) {
      var k :| k in after && u in StartedOf(after[k]);
      assert k != key ==> k in live && after[k] == live[k];
    }
  }

  // A unit of a pod belongs to no other live pod.
  lemma OnlyOwner(live: Live, pod: Pod, key: Key, u: string)
    requires ProperLive(live) && Labelled(pod) && key in live
    requires u in LoadedOf(live[key]) || u in StartedOf(live[key])
    ensures u in NamesOf(pod) ==> key == KeyOf(pod)
  {
    LoadedWithin(live[key]);
    if key != KeyOf(pod) {
      NamesApart(pod, live[key].pod);
    }
  }

  lemma LoadsAfterDelete(live: Live, op: Op, u: string)
    requires op.Delete? && ProperLive(live) && Enabled(live, op)
    ensures Loads(LiveAfter(live, op), u) <==> Loads(live, u) && u !in NamesOf(op.pod)
  {
    var after, key := LiveAfter(live, op), KeyOf(op.pod);
    if Loads(live, u) {
      var k :| k in live && u in LoadedOf(live[k]);
      OnlyOwner(live, op.pod, k, u);
      LoadedWithin(live[k]);
      if k != key { assert k in after && after[k] == live[k]; }
    }
    if Loads(after, u) {
      var k :| k in after && u in LoadedOf(after[k]);
      OnlyOwner(live, op.pod, k, u);
    }
  }

  lemma StartsAfterDelete(live: Live, op: Op, u: string)
    requires op.Delete? && ProperLive(live) && Enabled(live, op)
    ensures Starts(LiveAfter(live, op), u) <==> Starts(live, u) && u !in NamesOf(op.pod)
  {
    var after, key := LiveAfter(live, op), KeyOf(op.pod);
    if Starts(live, u) {
      var k :| k in live && u in StartedOf(live[k]);
      OnlyOwner(live, op.pod, k, u);
      if k != key { assert k in after && after[k] == live[k]; }
    }
    if Starts(after, u) {
      var k :| k in after && u in StartedOf(after[k]);
      OnlyOwner(live, op.pod, k, u);
    }
  }

  lemma AccountsStep(live: Live, s: Replayed, op: Op)
    requires ProperLive(live) && Enabled(live, op) && Accounts(live, s)
    ensures ProperLive(LiveAfter(live, op)) && Accounts(LiveAfter(live, op), Replay(s, EventsOf(op)))
  {
    ReplayOp(s, op);
    var after, t := LiveAfter(live, op), Replay(s, EventsOf(op));
    forall u
      ensures u in t.loaded <==> Loads(after, u)
      ensures u in t.started <==> Starts(after, u)
    {
      if op.Create? {
        LoadsAfterCreate(live, op, u);
        StartsAfterCreate(live, op, u);
      } else {
        LoadsAfterDelete(live, op, u);
        StartsAfterDelete(live, op, u);
      }
    }
  }

  lemma UnitsStep(w: World, op: Op)
    requires op.Create? ==> Sized(op.pod, op.texts, op.ok)
    ensures UnitsAfter(w.units, op).Keys == match op
      case Create(pod, texts, ok) => w.units.Keys + LoadedOf(Entry(pod, texts, ok))
      case Delete(pod) => w.units.Keys - NamesOf(pod)
  {
    if op.Create? {
      LoadTextsKeys(w.units, UnitNames(op.pod), op.texts);
    }
  }

  // Conservation: after any run the manager holds exactly the units of the live pods, each unit of one
  // of them, and the trace accounts for it; what was started are the units of the pods created in full.
  lemma {:induction false} Conservation(ops: seq<Op>)
    requires IsRun(ops)
    ensures ProperLive(LiveRun(ops)) && Accounts(LiveRun(ops), Replay(NO_UNITS, Run(ops).trace))
    ensures Run(ops).units.Keys == Replay(NO_UNITS, Run(ops).trace).loaded
  {
    if ops != [] {
      var k := |ops| - 1;
      Conservation(ops[..k]);
      var w := Run(ops[..k]);
      var s := Replay(NO_UNITS, w.trace);
      AccountsStep(LiveRun(ops[..k]), s, ops[k]);
      ReplayAppend(NO_UNITS, w.trace, EventsOf(ops[k]));
      ReplayOp(s, ops[k]);
      UnitsStep(w, ops[k]);
    } else {
      assert LiveRun(ops) == map[];
    }
  }

  lemma OneOwner(ops: seq<Op>, u: string, j: Key, k: Key)
    requires IsRun(ops) && j in LiveRun(ops) && k in LiveRun(ops)
    requires u in LoadedOf(LiveRun(ops)[j]) && u in LoadedOf(LiveRun(ops)[k])
    ensures j == k
  {
    Conservation(ops);
    LoadedWithin(LiveRun(ops)[j]);
    LoadedWithin(LiveRun(ops)[k]);
    if j != k {
      NamesApart(LiveRun(ops)[j].pod, LiveRun(ops)[k].pod);
    }
  }

  // And each holds the text it was last loaded with.

  ghost predicate Holds(units: map<string, string>, e: Entry) {
    forall i :: 0 <= i < |e.texts| && i < |AllContainers(e.pod)| ==>
      UnitName(e.pod, i) in units && units[UnitName(e.pod, i)] == e.texts[i]
  }

  // What a call does not name stays.
  lemma OthersHold(units: map<string, string>, op: Op, e: Entry)
    requires (op.Create? ==> |op.texts| <= |AllContainers(op.pod)|) && Holds(units, e)
    requires NamesOf(e.pod) !! NamesOf(op.pod)
    ensures Holds(UnitsAfter(units, op), e)
  {
    if op.Create? {
      LoadTextsKeys(units, UnitNames(op.pod), op.texts);
    }
    forall i | 0 <= i < |e.texts| && i < |AllContainers(e.pod)|
      ensures UnitName(e.pod, i) in UnitsAfter(units, op) && UnitsAfter(units, op)[UnitName(e.pod, i)] == e.texts[i]
    {
      assert UnitNames(e.pod)[i] in NamesOf(e.pod);
    }
  }

  // Loading again replaces the first texts and leaves the others.
  lemma {:induction false} LoadTextsRest(units: map<string, string>, names: seq<string>, texts: seq<string>, i: nat)
    requires |texts| <= i < |names| && names[i] in units
    requires forall j, k :: 0 <= j < k < |names| ==> names[j] != names[k]
    ensures names[i] in LoadTexts(units, names, texts) && LoadTexts(units, names, texts)[names[i]] == units[names[i]]
  {
    if texts != [] {
      LoadTextsRest(units, names, texts[..|texts| - 1], i);
    }
  }

  lemma OwnHold(units: map<string, string>, pod: Pod, texts: seq<string>, before: seq<string>, ok: bool)
    requires Labelled(pod) && Sized(pod, texts, ok) && |before| <= |AllContainers(pod)|
    requires Holds(units, Entry(pod, before, false))
    ensures Holds(LoadTexts(units, UnitNames(pod), texts), Entry(pod, Overlay(texts, before), ok))
  {
    var names, after := UnitNames(pod), LoadTexts(units, UnitNames(pod), texts);
    UnitNamesDistinct(pod);
    forall i | 0 <= i < |Overlay(texts, before)| && i < |AllContainers(pod)|
      ensures UnitName(pod, i) in after && after[UnitName(pod, i)] == Overlay(texts, before)[i]
    {
      assert names[i] == UnitName(pod, i);
      if i < |texts| {
        LoadTextsAt(units, names, texts, i);
      } else {
        assert UnitName(pod, i) in units && units[UnitName(pod, i)] == before[i];
        LoadTextsRest(units, names, texts, i);
      }
    }
  }

  lemma HoldsStep(units: map<string, string>, live: Live, op: Op, key: Key)
    requires ProperLive(live) && Enabled(live, op) && (forall k :: k in live ==> Holds(units, live[k]))
    requires key in LiveAfter(live, op)
    ensures Holds(UnitsAfter(units, op), LiveAfter(live, op)[key])
  {
    if key != KeyOf(op.pod) {
      NamesApart(live[key].pod, op.pod);
      OthersHold(units, op, live[key]);
    } else {
      assert Holds(units, Entry(op.pod, TextsOf(live, key), false));
      OwnHold(units, op.pod, op.texts, TextsOf(live, key), op.ok);
    }
  }

  lemma {:induction false} AllHold(ops: seq<Op>, key: Key)
    requires IsRun(ops) && key in LiveRun(ops)
    ensures Holds(Run(ops).units, LiveRun(ops)[key])
  {
    var k := |ops| - 1;
    Conservation(ops[..k]);
    forall j | j in LiveRun(ops[..k])
      ensures Holds(Run(ops[..k]).units, LiveRun(ops[..k])[j])
    {
      AllHold(ops[..k], j);
    }
    HoldsStep(Run(ops[..k]).units, LiveRun(ops[..k]), ops[k], key);
  }

  lemma TextsKept(ops: seq<Op>, key: Key, i: nat)
    requires IsRun(ops) && key in LiveRun(ops)
    requires i < |LiveRun(ops)[key].texts| <= |AllContainers(LiveRun(ops)[key].pod)|
    ensures
      var e := LiveRun(ops)[key];
      UnitName(e.pod, i) in Run(ops).units && Run(ops).units[UnitName(e.pod, i)] == e.texts[i]
  {
    AllHold(ops, key);
  }

  lemma UnloadLoaded(units: map<string, string>, names: seq<string>, texts: seq<string>)
    requires |texts| <= |names|
    ensures LoadTexts(units, names, texts) - SetOf(names) == units - SetOf(names)
  {
    LoadTextsKeys(units, names, texts);
    PrefixNames(names, |texts|, |names|);
    assert names[..|names|] == names;
    var last, first := LoadTexts(units, names, texts) - SetOf(names), units - SetOf(names);
    assert last.Keys == first.Keys;
    assert forall u :: u in first ==> u in units && u !in names && last[u] == units[u];
  }

  function WithoutUnits(s: Replayed, names: set<string>): Replayed {
    Replayed(s.loaded - names, s.started - names)
  }

  lemma ReplayCreateDelete(s: Replayed, pod: Pod, texts: seq<string>, ok: bool)
    requires Sized(pod, texts, ok)
    ensures Replay(Replay(s, EventsOf(Create(pod, texts, ok))), EventsOf(Delete(pod))) == WithoutUnits(s, NamesOf(pod))
  {
    ReplayOp(s, Create(pod, texts, ok));
    LoadedWithin(Entry(pod, texts, ok));
    ReplayOp(Replay(s, EventsOf(Create(pod, texts, ok))), Delete(pod));
  }

  // Deleting what was just created, in full or in part, leaves none of the pod's units, and those of all
  // other pods as they were.
  lemma DeleteRemovesCreated(ops: seq<Op>, pod: Pod, texts: seq<string>, ok: bool)
    requires IsRun(ops) && Enabled(LiveRun(ops), Create(pod, texts, ok))
    ensures
      var trace := Run(ops).trace + EventsOf(Create(pod, texts, ok)) + EventsOf(Delete(pod));
      && UnitsAfter(UnitsAfter(Run(ops).units, Create(pod, texts, ok)), Delete(pod)) == Run(ops).units - NamesOf(pod)
      && Replay(NO_UNITS, trace) == WithoutUnits(Replay(NO_UNITS, Run(ops).trace), NamesOf(pod))
  {
    var trace := Run(ops).trace;
    UnloadLoaded(Run(ops).units, UnitNames(pod), texts);
    ReplayCreateDelete(Replay(NO_UNITS, trace), pod, texts, ok);
    ReplayAppend(NO_UNITS, trace, EventsOf(Create(pod, texts, ok)));
    ReplayAppend(NO_UNITS, trace + EventsOf(Create(pod, texts, ok)), EventsOf(Delete(pod)));
  }

  lemma NothingRemoved(units: map<string, string>, s: Replayed, names: set<string>)
    requires units.Keys == s.loaded && names !! s.loaded && names !! s.started
    ensures units - names == units && WithoutUnits(s, names) == s
  {
  }

  // If it was not there before, all is as it was.
  lemma DeleteUndoesCreate(ops: seq<Op>, pod: Pod, texts: seq<string>, ok: bool)
    requires IsRun(ops) && Enabled(LiveRun(ops), Create(pod, texts, ok)) && KeyOf(pod) !in LiveRun(ops)
    ensures
      var trace := Run(ops).trace + EventsOf(Create(pod, texts, ok)) + EventsOf(Delete(pod));
      && UnitsAfter(UnitsAfter(Run(ops).units, Create(pod, texts, ok)), Delete(pod)) == Run(ops).units
      && Replay(NO_UNITS, trace) == Replay(NO_UNITS, Run(ops).trace)
  {
    Conservation(ops);
    NotLive(LiveRun(ops), Replay(NO_UNITS, Run(ops).trace), pod);
    DeleteRemovesCreated(ops, pod, texts, ok);
    NothingRemoved(Run(ops).units, Replay(NO_UNITS, Run(ops).trace), NamesOf(pod));
  }

  // A pod that is not live, or whose creation failed, has no unit started.
  lemma NotStarted(live: Live, s: Replayed, pod: Pod)
    requires ProperLive(live) && Accounts(live, s) && Labelled(pod) && (KeyOf(pod) in live ==> !live[KeyOf(pod)].ok)
    ensures NamesOf(pod) !! s.started
  {
    forall u | u in NamesOf(pod)
      ensures u !in s.started
    {
      if Starts(live, u) {
        var k :| k in live && u in StartedOf(live[k]);
        OnlyOwner(live, pod, k, u);
      }
    }
  }

  lemma NotLive(live: Live, s: Replayed, pod: Pod)
    requires ProperLive(live) && Accounts(live, s) && Labelled(pod) && KeyOf(pod) !in live
    ensures NamesOf(pod) !! s.loaded && NamesOf(pod) !! s.started
  {
    NotStarted(live, s, pod);
    forall u | u in NamesOf(pod)
      ensures u !in s.loaded
    {
      if Loads(live, u) {
        var k :| k in live && u in LoadedOf(live[k]);
        OnlyOwner(live, pod, k, u);
      }
    }
  }

  // ---- Safety at every moment.

  // If one of the units is started, all of them are loaded.
  predicate Together(names: set<string>, s: Replayed) {
    names !! s.started || names <= s.loaded
  }

  lemma LiveTogether(live: Live, s: Replayed, key: Key)
    requires ProperLive(live) && Accounts(live, s) && key in live
    ensures Together(NamesOf(live[key].pod), s)
  {
    var names := NamesOf(live[key].pod);
    LoadedWithin(live[key]);
    if live[key].ok {
      assert forall u :: u in names ==> Loads(live, u);
    } else {
      forall u | u in names
        ensures !Starts(live, u)
      {
        if Starts(live, u) {
          var k :| k in live && u in StartedOf(live[k]);
          OnlyOwner(live, live[key].pod, k, u);
        }
      }
    }
  }

  lemma StartedLoaded(live: Live, s: Replayed)
    requires ProperLive(live) && Accounts(live, s)
    ensures s.started <= s.loaded
  {
    forall u | u in s.started
      ensures u in s.loaded
    {
      var k :| k in live && u in StartedOf(live[k]);
      LoadedWithin(live[k]);
      assert Loads(live, u);
    }
  }

  lemma EachPrefix(kind: Kind, names: seq<string>, j: nat)
    requires j <= |names|
    ensures Each(kind, names)[..j] == Each(kind, names[..j])
  {
  }

  // What the first j events of a call do.
  lemma ReplayTwo(s: Replayed, first: Kind, a: seq<string>, second: Kind, b: seq<string>, j: nat)
    requires j <= |a| + |b|
    ensures Replay(s, (Each(first, a) + Each(second, b))[..j])
         == if j <= |a| then Effect(s, first, SetOf(a[..j]))
            else Effect(Effect(s, first, SetOf(a)), second, SetOf(b[..j - |a|]))
  {
    if j <= |a| {
      assert (Each(first, a) + Each(second, b))[..j] == Each(first, a)[..j];
      EachPrefix(first, a, j);
      ReplayEach(s, first, a[..j]);
    } else {
      assert (Each(first, a) + Each(second, b))[..j] == Each(first, a) + Each(second, b)[..j - |a|];
      EachPrefix(second, b, j - |a|);
      ReplayAppend(s, Each(first, a), Each(second, b[..j - |a|]));
      ReplayEach(s, first, a);
      ReplayEach(Replay(s, Each(first, a)), second, b[..j - |a|]);
    }
  }

  lemma TakeSet(names: seq<string>, j: nat)
    requires j <= |names|
    ensures SetOf(names[..j]) <= SetOf(names)
  {
  }

  // Within a call, only the pod's own units change, and they keep the order load, start, stop, unload.
  lemma CallSafe(s: Replayed, op: Op, j: nat)
    requires op.Create? ==> Sized(op.pod, op.texts, op.ok)
    requires j <= |EventsOf(op)| && s.started <= s.loaded && Together(NamesOf(op.pod), s)
    requires op.Create? ==> NamesOf(op.pod) !! s.started
    ensures
      var t := Replay(s, EventsOf(op)[..j]);
      && t.started <= t.loaded && Together(NamesOf(op.pod), t)
      && t.loaded - NamesOf(op.pod) == s.loaded - NamesOf(op.pod)
      && t.started - NamesOf(op.pod) == s.started - NamesOf(op.pod)
  {
    var names := UnitNames(op.pod);
    match op
    case Create(pod, texts, ok) =>
      var loads, starts := names[..|texts|], if ok then names else [];
      assert Each(Start, []) == [];
      ReplayTwo(s, Load, loads, Start, starts, j);
      TakeSet(names, |texts|);
      assert names[..|names|] == names;
      if j <= |texts| {
        TakeSet(loads, j);
      } else {
        TakeSet(names, j - |texts|);
      }
    case Delete(pod) =>
      ReplayTwo(s, Stop, names, Unload, names, j);
      if j <= |names| {
        TakeSet(names, j);
      } else {
        TakeSet(names, j - |names|);
      }
  }

  lemma StepSafe(live: Live, s: Replayed, op: Op, j: nat, key: Key)
    requires ProperLive(live) && Accounts(live, s) && Enabled(live, op) && j <= |EventsOf(op)|
    ensures
      var t := Replay(s, EventsOf(op)[..j]);
      && t.started <= t.loaded && Together(NamesOf(op.pod), t)
      && (key in live ==> Together(NamesOf(live[key].pod), t))
  {
    StartedLoaded(live, s);
    if KeyOf(op.pod) in live {
      LiveTogether(live, s, KeyOf(op.pod));
    } else {
      NotLive(live, s, op.pod);
    }
    if op.Create? {
      NotStarted(live, s, op.pod);
    }
    CallSafe(s, op, j);
    if key in live && key != KeyOf(op.pod) {
      LiveTogether(live, s, key);
      NamesApart(live[key].pod, op.pod);
      Unaffected(s, Replay(s, EventsOf(op)[..j]), NamesOf(op.pod), NamesOf(live[key].pod));
    }
  }

  lemma Unaffected(s: Replayed, t: Replayed, changed: set<string>, names: set<string>)
    requires t.loaded - changed == s.loaded - changed && t.started - changed == s.started - changed
    requires names !! changed && Together(names, s)
    ensures Together(names, t)
  {
    assert forall u :: u in names ==>
      (u in t.loaded <==> u in t.loaded - changed) && (u in s.loaded <==> u in s.loaded - changed);
    assert forall u :: u in names ==>
      (u in t.started <==> u in t.started - changed) && (u in s.started <==> u in s.started - changed);
  }

  // At every moment of every run: no unit is started unless it is loaded, so it is loaded before it is
  // started and stopped before it is unloaded; and a pod has a unit started only while all are loaded.
  lemma AlwaysSafe(ops: seq<Op>, op: Op, j: nat, key: Key)
    requires IsRun(ops) && Enabled(LiveRun(ops), op) && j <= |EventsOf(op)|
    ensures
      var t := Replay(NO_UNITS, Run(ops).trace + EventsOf(op)[..j]);
      && t.started <= t.loaded && Together(NamesOf(op.pod), t)
      && (key in LiveRun(ops) ==> Together(NamesOf(LiveRun(ops)[key].pod), t))
  {
    Conservation(ops);
    ReplayAppend(NO_UNITS, Run(ops).trace, EventsOf(op)[..j]);
    StepSafe(LiveRun(ops), Replay(NO_UNITS, Run(ops).trace), op, j, key);
  }

  // A creation that fails starts nothing and watches nothing, but the units it loaded stay.
  lemma FailedCreate(w: World, pod: Pod, texts: seq<string>)
    requires |texts| <= |AllContainers(pod)|
    ensures
      var after := Step(w, Create(pod, texts, false));
      && after.watch == w.watch
      && Replay(NO_UNITS, after.trace).started == Replay(NO_UNITS, w.trace).started
      && after.units.Keys == w.units.Keys + SetOf(UnitNames(pod)[..|texts|])
  {
    var op := Create(pod, texts, false);
    ReplayAppend(NO_UNITS, w.trace, EventsOf(op));
    ReplayOp(Replay(NO_UNITS, w.trace), op);
    UnitsStep(w, op);
  }

  // ---- Looking at pods in between.

  // GetPod, with the unit that Go's map order has it look at first.
  datatype Call = Change(op: Op) | Look(key: Key, first: string)

  // A text that GetPod does not take for a foreign unit's.
  predicate Marked(text: string) {
    !MetaOf(text).ForeignUnit?
  }

  predicate Unmarked(units: map<string, string>, key: Key, unit: string) {
    unit in units && Selected(unit, GetPodPrefix(key)) && !Marked(units[unit])
  }

  // A foreign unit is stopped and unloaded.
  function Looked(w: World, key: Key, first: string): World {
    if Unmarked(w.units, key, first) then
      World(w.units - {first}, w.trace + [Event(Stop, first), Event(Unload, first)], w.watch)
    else w
  }

  // A look stops and unloads the unit that it happens on first iff that one is loaded, has a name that starts like
  // the pod's units and ends in .service, and is a foreign one; all else stays.
  lemma ForeignRemoved(w: World, key: Key, first: string)
    ensures
      var after := Looked(w, key, first);
      if first in w.units && "systemk." + key.namespace + "." + key.name + "." <= first
         && HasSuffix(first, ".service") && ForeignText(w.units[first])
      then
        && after.units.Keys == w.units.Keys - {first}
        && (forall u :: u in after.units ==> after.units[u] == w.units[u])
        && after.trace == w.trace + [Event(Stop, first), Event(Unload, first)] && after.watch == w.watch
      else after == w
  {
    assert PREFIX + "." == "systemk.";
    assert GetPodPrefix(key) == "systemk." + key.namespace + "." + key.name + ".";
    if first in w.units {
      MetaMeans(w.units[first]);
    }
  }

  // The calls that change something by themselves.
  function Changes(calls: seq<Call>): seq<Op> {
    if calls == [] then []
    else
      var last := calls[|calls| - 1];
      Changes(calls[..|calls| - 1]) + (if last.Change? then [last.op] else [])
  }

  function CallRun(calls: seq<Call>): World
    requires IsRun(Changes(calls))
  {
    if calls == [] then EMPTY_WORLD
    else
      var last := calls[|calls| - 1];
      match last
      case Change(op) =>
        assert Changes(calls)[..|Changes(calls)| - 1] == Changes(calls[..|calls| - 1]);
        Step(CallRun(calls[..|calls| - 1]), op)
      case Look(key, first) =>
        assert Changes(calls) == Changes(calls[..|calls| - 1]);
        Looked(CallRun(calls[..|calls| - 1]), key, first)
  }

  predicate MarkedTexts(op: Op) {
    op.Create? ==> forall i :: 0 <= i < |op.texts| ==> Marked(op.texts[i])
  }

  predicate AllMarkedTexts(ops: seq<Op>) {
    forall i :: 0 <= i < |ops| ==> MarkedTexts(ops[i])
  }

  predicate MarkedUnits(units: map<string, string>) {
    forall u :: u in units ==> Marked(units[u])
  }

  lemma {:induction false} LoadMarked(units: map<string, string>, names: seq<string>, texts: seq<string>)
    requires |texts| <= |names| && MarkedUnits(units) && forall i :: 0 <= i < |texts| ==> Marked(texts[i])
    ensures MarkedUnits(LoadTexts(units, names, texts))
  {
    if texts != [] {
      LoadMarked(units, names, texts[..|texts| - 1]);
    }
  }

  lemma {:induction false} RunMarked(ops: seq<Op>)
    requires IsRun(ops) && AllMarkedTexts(ops)
    ensures MarkedUnits(Run(ops).units)
  {
    if ops != [] {
      var k := |ops| - 1;
      RunMarked(ops[..k]);
      if ops[k].Create? {
        assert MarkedTexts(ops[k]);
        LoadMarked(Run(ops[..k]).units, UnitNames(ops[k].pod), ops[k].texts);
      }
    }
  }

  // If every unit that is created is marked as one of systemk's, looking at pods changes nothing, however often
  // it is done: runs with looks are runs without them, and all that is said of those holds of these.
  lemma {:induction false} LooksChangeNothing(calls: seq<Call>)
    requires IsRun(Changes(calls)) && AllMarkedTexts(Changes(calls))
    ensures CallRun(calls) == Run(Changes(calls))
  {
    if calls != [] {
      var before, last := calls[..|calls| - 1], calls[|calls| - 1];
      var ops := Changes(before);
      match last
      case Change(op) =>
        assert Changes(calls) == ops + [op] && (ops + [op])[..|ops|] == ops;
        LooksChangeNothing(before);
      case Look(key, first) =>
        assert Changes(calls) == ops + [] && ops + [] == ops;
        LooksChangeNothing(before);
        RunMarked(ops);
    }
  }

  // ---- Events reach live pods only.

  lemma WatchReaches(ix: WatchIndex.Index, pod: Pod, e: WatchIndex.Event, entry: Pod)
    requires entry in WatchIndex.Notified(WatchIndex.WatchStep(ix, pod), e)
    ensures entry in WatchIndex.Notified(ix, e) || entry == pod
  {
    match e
    case ConfigMapEvent(k) =>
      WatchIndex.FileAllForward(ix.configs, pod, WatchIndex.ConfigKeys(pod, pod.volumes), k);
    case SecretEvent(k) =>
      WatchIndex.FileAllForward(ix.secrets, pod, WatchIndex.SecretKeys(pod, pod.volumes), k);
    case OtherEvent =>
  }

  lemma UnwatchReaches(ix: WatchIndex.Index, p: Key, e: WatchIndex.Event, entry: Pod)
    requires entry in WatchIndex.Notified(WatchIndex.UnwatchStep(WatchIndex.AsWritten, ix, p), e)
    ensures entry in WatchIndex.Notified(ix, e)
  {
    match e
    case ConfigMapEvent(k) =>
      WatchIndex.PruneAllEffect(WatchIndex.AsWritten, ix.configs.forward, p, WatchIndex.Uses(ix.configs, p), k);
      WatchIndex.KeptMembers(WatchIndex.AsWritten, WatchIndex.Filed(ix.configs, k), p);
    case SecretEvent(k) =>
      WatchIndex.PruneAllEffect(WatchIndex.AsWritten, ix.secrets.forward, p, WatchIndex.Uses(ix.secrets, p), k);
      WatchIndex.KeptMembers(WatchIndex.AsWritten, WatchIndex.Filed(ix.secrets, k), p);
    case OtherEvent =>
  }

  // The calls of a run as the watcher sees them.
  function WatchOp(op: Op): seq<WatchIndex.Op> {
    match op
    case Create(pod, _, ok) => if ok then [WatchIndex.Watch(pod)] else []
    case Delete(pod) => [WatchIndex.Unwatch(pod)]
  }

  function WatchOps(ops: seq<Op>): seq<WatchIndex.Op> {
    if ops == [] then [] else WatchOps(ops[..|ops| - 1]) + WatchOp(ops[|ops| - 1])
  }

  lemma WatchOne(before: seq<WatchIndex.Op>, op: Op)
    ensures WatchAfter(WatchIndex.Run(WatchIndex.AsWritten, before), op)
         == WatchIndex.Run(WatchIndex.AsWritten, before + WatchOp(op))
  {
    var after := before + WatchOp(op);
    if WatchOp(op) == [] {
      assert after == before;
    } else {
      assert after[..|after| - 1] == before && after[|after| - 1] == WatchOp(op)[0];
    }
  }

  lemma {:induction false} WatchIsRun(ops: seq<Op>)
    requires IsRun(ops)
    ensures Run(ops).watch == WatchIndex.Run(WatchIndex.AsWritten, WatchOps(ops))
  {
    if ops != [] {
      WatchIsRun(ops[..|ops| - 1]);
      WatchOne(WatchOps(ops[..|ops| - 1]), ops[|ops| - 1]);
    }
  }

  // Whoever is told of a ConfigMap or Secret is a live pod, created in full.
  lemma {:induction false} EventsReachLive(ops: seq<Op>, e: WatchIndex.Event, entry: Pod)
    requires IsRun(ops) && entry in WatchIndex.Notified(Run(ops).watch, e)
    ensures KeyOf(entry) in LiveRun(ops) && LiveRun(ops)[KeyOf(entry)].ok && LiveRun(ops)[KeyOf(entry)].pod == entry
  {
    var k := |ops| - 1;
    if ops != [] {
      var ix := Run(ops[..k]).watch;
      match ops[k]
      case Create(pod, _, ok) =>
        if ok {
          WatchReaches(ix, pod, e, entry);
        }
        if entry in WatchIndex.Notified(ix, e) {
          EventsReachLive(ops[..k], e, entry);
        }
      case Delete(pod) =>
        UnwatchReaches(ix, KeyOf(pod), e, entry);
        EventsReachLive(ops[..k], e, entry);
        WatchIsRun(ops[..k]);
        WatchIndex.UnwatchForgets(WatchIndex.AsWritten, WatchOps(ops[..k]), pod, e);
        assert (WatchOps(ops[..k]) + [WatchIndex.Unwatch(pod)])[..|WatchOps(ops[..k])|] == WatchOps(ops[..k]);
    }
  }
}
